/**
 * The batched punishment loader: for a batch of `{server, player}` or
 * `{server, id}` keys it queries each key's server table with the batch's
 * de-duplicated ids and decorates every row with resolved identities and an
 * ACL record.
 */
module PunishmentLoader {
  import opened Wrappers
  import opened Identities
  import opened Uniqueness
  import opened Acl

  /**
   * One row of a punishment table (bans, mutes, notes, warnings, ...): the three
   * columns the loader reads, and every other column by name. `columns` stands
   * for the other columns only; `Field` shows `id`, `player_id` and `actor_id`
   * from the typed fields whatever `columns` holds under those names.
   */
  datatype Row = Row(id: int, playerId: PlayerId, actorId: PlayerId, columns: map<string, string>)

  /** A pool entry: its configured table names, and the contents of its database by physical table name. */
  datatype Server = Server(tables: map<string, string>, db: map<string, seq<Row>>)

  type Pool = map<ServerId, Server>

  /**
   * What a loader instance closes over: the server pool, the session's ACL view,
   * the player-id loader (None when it resolves to nothing), the logical table
   * name and the ACL resource name.
   */
  datatype Loader = Loader(
    pool: Pool,
    viewer: Viewer,
    players: PlayerId -> Option<Player>,
    tableName: string,
    resource: string)

  datatype PlayerKey = PlayerKey(server: ServerId, player: PlayerId)

  datatype DataKey = DataKey(server: ServerId, id: int)

  /** The `WHERE player_id IN (...)` or `WHERE id IN (...)` condition of a query. */
  datatype Filter = PlayerIdIn(players: seq<PlayerId>) | IdIn(ids: seq<int>)

  /** A decorated row: `{ actor, acl, ...row }` from serverPlayerId, `{ player, actor, acl, ...row }` from serverDataId. */
  datatype Decorated =
    | ByPlayer(actor: Option<Player>, acl: AclFlags, row: Row)
    | ByData(player: Option<Player>, actor: Option<Player>, acl: AclFlags, row: Row)

  /** A query that could not run: the loader's table is not configured on, or absent from, that server. */
  datatype LoadError = QueryFailed(server: ServerId)

  type Batch = Result<seq<seq<Decorated>>, LoadError>

  predicate Matches(f: Filter, row: Row) {
    match f
    case PlayerIdIn(ps) => row.playerId in ps
    case IdIn(ids) => row.id in ids
  }

  /** The rows of `rows` the condition selects, in table order. */
  function Where(rows: seq<Row>, f: Filter): (r: seq<Row>)
    ensures forall row :: row in r <==> row in rows && Matches(f, row)
    ensures |r| <= |rows|
  {
    if |rows| == 0 then []
    else
      var init := Where(rows[..|rows| - 1], f);
      if Matches(f, rows[|rows| - 1]) then init + [rows[|rows| - 1]] else init
  }

  /**
   * A query depends only on which ids its condition lists, not on how often or
   * in which order: two conditions that select the same rows give the same result.
   */
  lemma {:induction false} WhereSameCondition(rows: seq<Row>, f: Filter, g: Filter)
    requires forall row :: Matches(f, row) <==> Matches(g, row)
    ensures Where(rows, f) == Where(rows, g)
  {
    if |rows| > 0 {
      WhereSameCondition(rows[..|rows| - 1], f, g);
    }
  }

  /** De-duplicating the ids of a condition does not change the rows it selects. */
  lemma UniqSelectsSameRows(rows: seq<Row>, players: seq<PlayerId>, ids: seq<int>)
    ensures Where(rows, PlayerIdIn(Uniq(players))) == Where(rows, PlayerIdIn(players))
    ensures Where(rows, IdIn(Uniq(ids))) == Where(rows, IdIn(ids))
  {
    WhereSameCondition(rows, PlayerIdIn(Uniq(players)), PlayerIdIn(players));
    WhereSameCondition(rows, IdIn(Uniq(ids)), IdIn(ids));
  }

  /** The physical table the loader's logical table name stands for on a server, if any. */
  function TableOf(server: Server, tableName: string): (r: Option<seq<Row>>)
    ensures r.Some? <==> tableName in server.tables && server.tables[tableName] in server.db
    ensures r.Some? ==> r.value == server.db[server.tables[tableName]]
  {
    if tableName in server.tables && server.tables[tableName] in server.db
    then Some(server.db[server.tables[tableName]])
    else None
  }

  /** `SELECT * FROM <table> WHERE <filter>` on one server of the pool. */
  function Select(ld: Loader, serverId: ServerId, f: Filter): (r: Result<seq<Row>, LoadError>)
    requires serverId in ld.pool
    ensures r.Err? <==> TableOf(ld.pool[serverId], ld.tableName).None?
    ensures r.Err? ==> r.error == QueryFailed(serverId)
    ensures r.Ok? ==> forall row :: row in r.value <==>
      row in TableOf(ld.pool[serverId], ld.tableName).value && Matches(f, row)
  {
    match TableOf(ld.pool[serverId], ld.tableName)
    case None => Err(QueryFailed(serverId))
    case Some(rows) => Ok(Where(rows, f))
  }

  /** The decoration applied to each returned row; which loader ran is told by the filter. */
  function Decorate(ld: Loader, serverId: ServerId, f: Filter, row: Row): (d: Decorated)
    ensures d.row == row && d.actor == ld.players(row.actorId)
    ensures d.acl == AclOf(ld.viewer, serverId, ld.resource, row.actorId, row.playerId)
    ensures d.ByData? <==> f.IdIn?
    ensures d.ByData? ==> d.player == ld.players(row.playerId)
  {
    DoubledAclIsAcl(ld.viewer, serverId, ld.resource, row.actorId, row.playerId);
    match f
    case PlayerIdIn(_) =>
      ByPlayer(ld.players(row.actorId),
        DoubledAclOf(ld.viewer, serverId, ld.resource, row.actorId, row.playerId), row)
    case IdIn(_) =>
      ByData(ld.players(row.playerId), ld.players(row.actorId),
        AclOf(ld.viewer, serverId, ld.resource, row.actorId, row.playerId), row)
  }

  /** The result slot of one key: its server's query, each row decorated, order kept. */
  function Slot(ld: Loader, serverId: ServerId, f: Filter): (r: Result<seq<Decorated>, LoadError>)
    requires serverId in ld.pool
    ensures r.Ok? <==> Select(ld, serverId, f).Ok?
    ensures r.Err? ==> r.error == QueryFailed(serverId)
    ensures r.Ok? ==> |r.value| == |Select(ld, serverId, f).value|
  {
    match Select(ld, serverId, f)
    case Err(e) => Err(e)
    case Ok(rows) =>
      Ok(seq(|rows|, j requires 0 <= j < |rows| => Decorate(ld, serverId, f, rows[j])))
  }

  /**
   * Decoration is one-to-one and keeps the row: entry `j` of a slot is row `j`
   * of its query, with the actor resolved, the player resolved only by
   * serverDataId, and the ACL record of the slot's own server.
   */
  lemma SlotDecoratesEachRow(ld: Loader, serverId: ServerId, f: Filter, j: nat)
    requires serverId in ld.pool
    requires Slot(ld, serverId, f).Ok? && j < |Slot(ld, serverId, f).value|
    ensures var d := Slot(ld, serverId, f).value[j];
      && d.row == Select(ld, serverId, f).value[j]
      && d.acl == AclOf(ld.viewer, serverId, ld.resource, d.row.actorId, d.row.playerId)
      && d.actor == ld.players(d.row.actorId)
      && (d.ByData? <==> f.IdIn?)
      && (d.ByData? ==> d.player == ld.players(d.row.playerId))
  {
    var d := Slot(ld, serverId, f).value[j];
    DoubledAclIsAcl(ld.viewer, serverId, ld.resource, d.row.actorId, d.row.playerId);
  }

  /** Every row of a slot satisfies the slot's own query condition. */
  lemma SlotRowsMatch(ld: Loader, serverId: ServerId, f: Filter)
    requires serverId in ld.pool && Slot(ld, serverId, f).Ok?
    ensures forall j :: 0 <= j < |Slot(ld, serverId, f).value| ==> Matches(f, Slot(ld, serverId, f).value[j].row)
  {
    forall j | 0 <= j < |Slot(ld, serverId, f).value|
      ensures Matches(f, Slot(ld, serverId, f).value[j].row)
    {
      SlotDecoratesEachRow(ld, serverId, f, j);
      assert Slot(ld, serverId, f).value[j].row in Select(ld, serverId, f).value;
    }
  }

  ghost predicate AllInPool(ld: Loader, servers: seq<ServerId>) {
    forall i :: 0 <= i < |servers| ==> servers[i] in ld.pool
  }

  /**
   * One slot per entry of `servers`, in order; the first query that fails
   * rejects the whole batch.
   */
  function Slots(ld: Loader, servers: seq<ServerId>, f: Filter): (r: Batch)
    requires AllInPool(ld, servers)
    ensures r.Ok? <==> forall i :: 0 <= i < |servers| ==> Slot(ld, servers[i], f).Ok?
    ensures r.Ok? ==> |r.value| == |servers|
    ensures r.Ok? ==> forall i :: 0 <= i < |servers| ==> Slot(ld, servers[i], f) == Ok(r.value[i])
    ensures r.Err? ==> exists i :: 0 <= i < |servers| && Slot(ld, servers[i], f) == Err(r.error)
  {
    if |servers| == 0 then Ok([])
    else
      var init := servers[..|servers| - 1];
      match Slots(ld, init, f)
      case Err(e) => Err(e)
      case Ok(done) =>
        match Slot(ld, servers[|servers| - 1], f)
        case Err(e) => Err(e)
        case Ok(rows) => Ok(done + [rows])
  }

  /** A slot that succeeds extends the batch by one. */
  lemma SlotsExtend(ld: Loader, servers: seq<ServerId>, f: Filter, k: nat, done: seq<seq<Decorated>>, rows: seq<Decorated>)
    requires AllInPool(ld, servers) && k < |servers|
    requires Slots(ld, servers[..k], f) == Ok(done) && Slot(ld, servers[k], f) == Ok(rows)
    ensures Slots(ld, servers[..k + 1], f) == Ok(done + [rows])
  {
    assert servers[..k + 1][..k] == servers[..k];
  }

  /** The first query that fails decides the outcome of the whole batch. */
  lemma {:induction false} SlotsStopAtFirstFailure(ld: Loader, servers: seq<ServerId>, f: Filter, k: nat)
    requires AllInPool(ld, servers) && k < |servers|
    requires Slots(ld, servers[..k], f).Ok? && Slot(ld, servers[k], f).Err?
    ensures Slots(ld, servers, f) == Err(Slot(ld, servers[k], f).error)
  {
    var init := servers[..|servers| - 1];
    if |servers| == k + 1 {
      assert init == servers[..k];
    } else {
      assert init[..k] == servers[..k];
      SlotsStopAtFirstFailure(ld, init, f, k);
    }
  }

  function PlayerKeyServers(keys: seq<PlayerKey>): (r: seq<ServerId>)
    ensures |r| == |keys| && forall i :: 0 <= i < |keys| ==> r[i] == keys[i].server
  {
    seq(|keys|, i requires 0 <= i < |keys| => keys[i].server)
  }

  function PlayerIdsOf(keys: seq<PlayerKey>): (r: seq<PlayerId>)
    ensures |r| == |keys| && forall i :: 0 <= i < |keys| ==> r[i] == keys[i].player
  {
    seq(|keys|, i requires 0 <= i < |keys| => keys[i].player)
  }

  function DataKeyServers(keys: seq<DataKey>): (r: seq<ServerId>)
    ensures |r| == |keys| && forall i :: 0 <= i < |keys| ==> r[i] == keys[i].server
  {
    seq(|keys|, i requires 0 <= i < |keys| => keys[i].server)
  }

  function PunishmentIdsOf(keys: seq<DataKey>): (r: seq<int>)
    ensures |r| == |keys| && forall i :: 0 <= i < |keys| ==> r[i] == keys[i].id
  {
    seq(|keys|, i requires 0 <= i < |keys| => keys[i].id)
  }

  /** The batch result of serverPlayerId: one slot per key, all queried with `uniq` of every key's player. */
  function PlayerBatch(ld: Loader, keys: seq<PlayerKey>): (r: Batch)
    requires forall i :: 0 <= i < |keys| ==> keys[i].server in ld.pool
  {
    Slots(ld, PlayerKeyServers(keys), PlayerIdIn(Uniq(PlayerIdsOf(keys))))
  }

  /** The batch result of serverDataId: one slot per key, all queried with `uniq` of every key's id. */
  function DataBatch(ld: Loader, keys: seq<DataKey>): (r: Batch)
    requires forall i :: 0 <= i < |keys| ==> keys[i].server in ld.pool
  {
    Slots(ld, DataKeyServers(keys), IdIn(Uniq(PunishmentIdsOf(keys))))
  }

  /** The `ids.map` step of serverPlayerId: each key's player pushed onto one list, its server returned into another. */
  method CollectPlayerKeys(keys: seq<PlayerKey>) returns (playerIds: seq<PlayerId>, serverIds: seq<ServerId>)
    ensures playerIds == PlayerIdsOf(keys)
    ensures serverIds == PlayerKeyServers(keys)
  {
    playerIds, serverIds := [], [];
    var i := 0;
    while i < |keys|
      invariant 0 <= i <= |keys|
      invariant |playerIds| == i && forall j :: 0 <= j < i ==> playerIds[j] == keys[j].player
      invariant |serverIds| == i && forall j :: 0 <= j < i ==> serverIds[j] == keys[j].server
    {
      playerIds := playerIds + [keys[i].player];
      serverIds := serverIds + [keys[i].server];
      i := i + 1;
    }
  }

  /** The `ids.map` step of serverDataId: each key's punishment id pushed onto one list, its server returned into another. */
  method CollectDataKeys(keys: seq<DataKey>) returns (punishmentIds: seq<int>, serverIds: seq<ServerId>)
    ensures punishmentIds == PunishmentIdsOf(keys)
    ensures serverIds == DataKeyServers(keys)
  {
    punishmentIds, serverIds := [], [];
    var i := 0;
    while i < |keys|
      invariant 0 <= i <= |keys|
      invariant |punishmentIds| == i && forall j :: 0 <= j < i ==> punishmentIds[j] == keys[j].id
      invariant |serverIds| == i && forall j :: 0 <= j < i ==> serverIds[j] == keys[j].server
    {
      punishmentIds := punishmentIds + [keys[i].id];
      serverIds := serverIds + [keys[i].server];
      i := i + 1;
    }
  }

  /**
   * The `for (let serverId of serverIds)` loop shared by both batch functions:
   * one query per entry of `serverIds` (not per distinct server), each result
   * decorated and pushed as one slot; a failing query rejects the batch.
   * `issued` lists the servers queried, in order.
   */
  method QueryEachServer(ld: Loader, serverIds: seq<ServerId>, filter: Filter) returns (data: Batch, issued: seq<ServerId>)
    requires AllInPool(ld, serverIds)
    ensures data == Slots(ld, serverIds, filter)
    ensures data.Ok? ==> |data.value| == |serverIds| && issued == serverIds
    ensures data.Err? ==> 0 < |issued| <= |serverIds| && issued == serverIds[..|issued|]
    ensures data.Err? ==> data.error == QueryFailed(issued[|issued| - 1])
  {
    var slots: seq<seq<Decorated>> := [];
    issued := [];
    var k := 0;
    while k < |serverIds|
      invariant 0 <= k <= |serverIds|
      invariant issued == serverIds[..k]
      invariant Slots(ld, serverIds[..k], filter) == Ok(slots)
    {
      var serverId := serverIds[k];
      assert serverIds[..k + 1] == serverIds[..k] + [serverId];
      issued := issued + [serverId];
      var rows := Select(ld, serverId, filter);
      if rows.Err? {
        SlotsStopAtFirstFailure(ld, serverIds, filter, k);
        data := Err(rows.error);
        return;
      }
      var decorated := seq(|rows.value|, j requires 0 <= j < |rows.value| => Decorate(ld, serverId, filter, rows.value[j]));
      assert Slot(ld, serverId, filter) == Ok(decorated);
      SlotsExtend(ld, serverIds, filter, k, slots, decorated);
      slots := slots + [decorated];
      k := k + 1;
    }
    assert serverIds[..k] == serverIds;
    data := Ok(slots);
  }

  /** The serverPlayerId batch function. */
  method ServerPlayerId(ld: Loader, keys: seq<PlayerKey>) returns (data: Batch, issued: seq<ServerId>)
    requires forall i :: 0 <= i < |keys| ==> keys[i].server in ld.pool
    ensures data == PlayerBatch(ld, keys)
    ensures data.Ok? ==> |data.value| == |keys| && issued == PlayerKeyServers(keys)
    ensures data.Err? ==> 0 < |issued| <= |keys| && issued == PlayerKeyServers(keys)[..|issued|]
  {
    var playerIds, serverIds := CollectPlayerKeys(keys);
    playerIds := Uniq(playerIds);
    data, issued := QueryEachServer(ld, serverIds, PlayerIdIn(playerIds));
  }

  /** The serverDataId batch function. */
  method ServerDataId(ld: Loader, keys: seq<DataKey>) returns (data: Batch, issued: seq<ServerId>)
    requires forall i :: 0 <= i < |keys| ==> keys[i].server in ld.pool
    ensures data == DataBatch(ld, keys)
    ensures data.Ok? ==> |data.value| == |keys| && issued == DataKeyServers(keys)
    ensures data.Err? ==> 0 < |issued| <= |keys| && issued == DataKeyServers(keys)[..|issued|]
  {
    var punishmentIds, serverIds := CollectDataKeys(keys);
    punishmentIds := Uniq(punishmentIds);
    data, issued := QueryEachServer(ld, serverIds, IdIn(punishmentIds));
  }

  /**
   * Provenance of a serverPlayerId row: slot `i` holds rows of key `i`'s server
   * table only, each with a player id some key of the batch asked for, decorated
   * with the ACL record of key `i`'s server and the loader's resource.
   */
  lemma PlayerBatchRow(ld: Loader, keys: seq<PlayerKey>, i: nat, j: nat)
    requires forall k :: 0 <= k < |keys| ==> keys[k].server in ld.pool
    requires PlayerBatch(ld, keys).Ok? && i < |keys| && j < |PlayerBatch(ld, keys).value[i]|
    ensures var d := PlayerBatch(ld, keys).value[i][j];
      && d.ByPlayer?
      && TableOf(ld.pool[keys[i].server], ld.tableName).Some?
      && d.row in TableOf(ld.pool[keys[i].server], ld.tableName).value
      && (exists k :: 0 <= k < |keys| && keys[k].player == d.row.playerId)
      && d.acl == AclOf(ld.viewer, keys[i].server, ld.resource, d.row.actorId, d.row.playerId)
  {
    var f := PlayerIdIn(Uniq(PlayerIdsOf(keys)));
    var servers := PlayerKeyServers(keys);
    assert Slot(ld, servers[i], f) == Ok(PlayerBatch(ld, keys).value[i]);
    SlotDecoratesEachRow(ld, keys[i].server, f, j);
    var d := PlayerBatch(ld, keys).value[i][j];
    assert d.row in Select(ld, keys[i].server, f).value;
    assert d.row.playerId in PlayerIdsOf(keys);
  }

  /**
   * Provenance of a serverDataId row: slot `i` holds rows of key `i`'s server
   * table only, each with an id some key of the batch asked for, carrying both
   * identities and the ACL record of key `i`'s server.
   */
  lemma DataBatchRow(ld: Loader, keys: seq<DataKey>, i: nat, j: nat)
    requires forall k :: 0 <= k < |keys| ==> keys[k].server in ld.pool
    requires DataBatch(ld, keys).Ok? && i < |keys| && j < |DataBatch(ld, keys).value[i]|
    ensures var d := DataBatch(ld, keys).value[i][j];
      && d.ByData?
      && d.player == ld.players(d.row.playerId) && d.actor == ld.players(d.row.actorId)
      && TableOf(ld.pool[keys[i].server], ld.tableName).Some?
      && d.row in TableOf(ld.pool[keys[i].server], ld.tableName).value
      && (exists k :: 0 <= k < |keys| && keys[k].id == d.row.id)
      && d.acl == AclOf(ld.viewer, keys[i].server, ld.resource, d.row.actorId, d.row.playerId)
  {
    var f := IdIn(Uniq(PunishmentIdsOf(keys)));
    var servers := DataKeyServers(keys);
    assert Slot(ld, servers[i], f) == Ok(DataBatch(ld, keys).value[i]);
    SlotDecoratesEachRow(ld, keys[i].server, f, j);
    var d := DataBatch(ld, keys).value[i][j];
    assert d.row in Select(ld, keys[i].server, f).value;
    assert d.row.id in PunishmentIdsOf(keys);
  }

  /** Every row a serverDataId key asks for is in that key's slot. */
  lemma {:induction false} DataBatchCoversKey(ld: Loader, keys: seq<DataKey>, i: nat, row: Row)
    requires forall k :: 0 <= k < |keys| ==> keys[k].server in ld.pool
    requires DataBatch(ld, keys).Ok? && i < |keys|
    requires TableOf(ld.pool[keys[i].server], ld.tableName).Some?
    requires row in TableOf(ld.pool[keys[i].server], ld.tableName).value && row.id == keys[i].id
    ensures exists j :: 0 <= j < |DataBatch(ld, keys).value[i]| && DataBatch(ld, keys).value[i][j].row == row
  {
    var f := IdIn(Uniq(PunishmentIdsOf(keys)));
    var servers := DataKeyServers(keys);
    assert Slot(ld, servers[i], f) == Ok(DataBatch(ld, keys).value[i]);
    assert PunishmentIdsOf(keys)[i] == row.id;
    var rows := Select(ld, keys[i].server, f).value;
    assert row in rows;
    var j :| 0 <= j < |rows| && rows[j] == row;
    SlotDecoratesEachRow(ld, keys[i].server, f, j);
  }

  /** Every row a serverPlayerId key asks for is in that key's slot. */
  lemma {:induction false} PlayerBatchCoversKey(ld: Loader, keys: seq<PlayerKey>, i: nat, row: Row)
    requires forall k :: 0 <= k < |keys| ==> keys[k].server in ld.pool
    requires PlayerBatch(ld, keys).Ok? && i < |keys|
    requires TableOf(ld.pool[keys[i].server], ld.tableName).Some?
    requires row in TableOf(ld.pool[keys[i].server], ld.tableName).value && row.playerId == keys[i].player
    ensures exists j :: 0 <= j < |PlayerBatch(ld, keys).value[i]| && PlayerBatch(ld, keys).value[i][j].row == row
  {
    var f := PlayerIdIn(Uniq(PlayerIdsOf(keys)));
    var servers := PlayerKeyServers(keys);
    assert Slot(ld, servers[i], f) == Ok(PlayerBatch(ld, keys).value[i]);
    assert PlayerIdsOf(keys)[i] == row.playerId;
    var rows := Select(ld, keys[i].server, f).value;
    assert row in rows;
    var j :| 0 <= j < |rows| && rows[j] == row;
    SlotDecoratesEachRow(ld, keys[i].server, f, j);
  }

  /**
   * Keys naming the same server get identical slots: the query of each is run
   * with the whole batch's ids, so the key's own id does not narrow its slot.
   */
  lemma SameServerSameSlot(ld: Loader, keys: seq<DataKey>, i: nat, k: nat)
    requires forall n :: 0 <= n < |keys| ==> keys[n].server in ld.pool
    requires DataBatch(ld, keys).Ok? && i < |keys| && k < |keys|
    requires keys[i].server == keys[k].server
    ensures DataBatch(ld, keys).value[i] == DataBatch(ld, keys).value[k]
  {
    var servers := DataKeyServers(keys);
    var f := IdIn(Uniq(PunishmentIdsOf(keys)));
    assert Slot(ld, servers[i], f) == Ok(DataBatch(ld, keys).value[i]);
    assert Slot(ld, servers[k], f) == Ok(DataBatch(ld, keys).value[k]);
  }

  /** A property of a decorated row as the response object shows it. */
  datatype FieldValue =
    | IdValue(n: int)
    | PlayerIdValue(p: PlayerId)
    | ColumnValue(text: string)
    | IdentityValue(who: Option<Player>)
    | AclValue(acl: AclFlags)

  /**
   * Looking a property up on `{ player, actor, acl, ...row }`: the row is
   * spread last, so a column of the row wins over a decoration of the same name.
   */
  function Field(d: Decorated, name: string): (r: Option<FieldValue>)
    ensures r.None? <==> (name !in d.row.columns && name !in {"id", "player_id", "actor_id", "acl", "actor"}
                          && !(name == "player" && d.ByData?))
  {
    if name == "id" then Some(IdValue(d.row.id))
    else if name == "player_id" then Some(PlayerIdValue(d.row.playerId))
    else if name == "actor_id" then Some(PlayerIdValue(d.row.actorId))
    else if name in d.row.columns then Some(ColumnValue(d.row.columns[name]))
    else if name == "acl" then Some(AclValue(d.acl))
    else if name == "actor" then Some(IdentityValue(d.actor))
    else if name == "player" && d.ByData? then Some(IdentityValue(d.player))
    else None
  }

  /** No column of the row is lost or altered by the decoration. */
  lemma RowColumnsKept(d: Decorated, name: string)
    ensures Field(d, "id") == Some(IdValue(d.row.id))
    ensures Field(d, "player_id") == Some(PlayerIdValue(d.row.playerId))
    ensures Field(d, "actor_id") == Some(PlayerIdValue(d.row.actorId))
    ensures name in d.row.columns && name !in {"id", "player_id", "actor_id"}
      ==> Field(d, name) == Some(ColumnValue(d.row.columns[name]))
  {
  }

  /** The decorations are visible unless the table itself has a column of that name. */
  lemma DecorationsShown(d: Decorated)
    ensures "acl" !in d.row.columns ==> Field(d, "acl") == Some(AclValue(d.acl))
    ensures "actor" !in d.row.columns ==> Field(d, "actor") == Some(IdentityValue(d.actor))
    ensures "player" !in d.row.columns ==> (Field(d, "player").Some? <==> d.ByData?)
  {
  }
}
