/**
 * Both batch functions query every key's server with the ids of the WHOLE
 * batch, so a key's slot also holds the rows other keys asked for. This module
 * exhibits that for any two keys of a batch and states the per-key batches the
 * loader evidently intends, whose slots hold only the key's own rows.
 */
module LoaderFindings {
  import opened Wrappers
  import opened Identities
  import opened Uniqueness
  import opened Acl
  import opened PunishmentLoader

  /**
   * As written: a row of key `i`'s server table whose id is the id another key
   * `k` asks for is also in slot `i`, whichever server key `k` names. Loading
   * records 1 and 2 of one server in one batch puts record 1 in record 2's
   * slot; keys `{s1, 5}` and `{s2, 7}` put s1's record 7 in the first slot.
   */
  lemma DataSlotHoldsOtherKeysRows(ld: Loader, keys: seq<DataKey>, i: nat, k: nat, row: Row)
    requires forall n :: 0 <= n < |keys| ==> keys[n].server in ld.pool
    requires DataBatch(ld, keys).Ok? && i < |keys| && k < |keys| && keys[i].id != keys[k].id
    requires TableOf(ld.pool[keys[i].server], ld.tableName).Some?
    requires row in TableOf(ld.pool[keys[i].server], ld.tableName).value && row.id == keys[k].id
    ensures row.id != keys[i].id
    ensures exists j :: 0 <= j < |DataBatch(ld, keys).value[i]| && DataBatch(ld, keys).value[i][j].row == row
  {
    var f := IdIn(Uniq(PunishmentIdsOf(keys)));
    var servers := DataKeyServers(keys);
    assert Slot(ld, servers[i], f) == Ok(DataBatch(ld, keys).value[i]);
    assert PunishmentIdsOf(keys)[k] == row.id;
    var rows := Select(ld, keys[i].server, f).value;
    assert row in rows;
    var j :| 0 <= j < |rows| && rows[j] == row;
    SlotDecoratesEachRow(ld, keys[i].server, f, j);
  }

  /**
   * As written: a row of key `i`'s server table whose player is the player
   * another key `k` asks for is also in slot `i`, whichever server key `k` names.
   */
  lemma PlayerSlotHoldsOtherKeysRows(ld: Loader, keys: seq<PlayerKey>, i: nat, k: nat, row: Row)
    requires forall n :: 0 <= n < |keys| ==> keys[n].server in ld.pool
    requires PlayerBatch(ld, keys).Ok? && i < |keys| && k < |keys| && keys[i].player != keys[k].player
    requires TableOf(ld.pool[keys[i].server], ld.tableName).Some?
    requires row in TableOf(ld.pool[keys[i].server], ld.tableName).value && row.playerId == keys[k].player
    ensures row.playerId != keys[i].player
    ensures exists j :: 0 <= j < |PlayerBatch(ld, keys).value[i]| && PlayerBatch(ld, keys).value[i][j].row == row
  {
    var f := PlayerIdIn(Uniq(PlayerIdsOf(keys)));
    var servers := PlayerKeyServers(keys);
    assert Slot(ld, servers[i], f) == Ok(PlayerBatch(ld, keys).value[i]);
    assert PlayerIdsOf(keys)[k] == row.playerId;
    var rows := Select(ld, keys[i].server, f).value;
    assert row in rows;
    var j :| 0 <= j < |rows| && rows[j] == row;
    SlotDecoratesEachRow(ld, keys[i].server, f, j);
  }

  /** One slot per entry, each queried with that entry's own condition; the first failing query rejects the batch. */
  function KeyedSlots(ld: Loader, servers: seq<ServerId>, filters: seq<Filter>): (r: Batch)
    requires AllInPool(ld, servers) && |filters| == |servers|
    ensures r.Ok? ==> |r.value| == |servers|
    ensures r.Ok? ==> forall i :: 0 <= i < |servers| ==> Slot(ld, servers[i], filters[i]) == Ok(r.value[i])
  {
    if |servers| == 0 then Ok([])
    else
      var n := |servers| - 1;
      match KeyedSlots(ld, servers[..n], filters[..n])
      case Err(e) => Err(e)
      case Ok(done) =>
        match Slot(ld, servers[n], filters[n])
        case Err(e) => Err(e)
        case Ok(rows) => Ok(done + [rows])
  }

  /** serverDataId as intended: slot `i` queried for key `i`'s id alone. */
  function KeyedDataBatch(ld: Loader, keys: seq<DataKey>): (r: Batch)
    requires forall i :: 0 <= i < |keys| ==> keys[i].server in ld.pool
    ensures r.Ok? ==> |r.value| == |keys|
  {
    KeyedSlots(ld, DataKeyServers(keys), seq(|keys|, i requires 0 <= i < |keys| => IdIn([keys[i].id])))
  }

  /** serverPlayerId as intended: slot `i` queried for key `i`'s player alone. */
  function KeyedPlayerBatch(ld: Loader, keys: seq<PlayerKey>): (r: Batch)
    requires forall i :: 0 <= i < |keys| ==> keys[i].server in ld.pool
    ensures r.Ok? ==> |r.value| == |keys|
  {
    KeyedSlots(ld, PlayerKeyServers(keys), seq(|keys|, i requires 0 <= i < |keys| => PlayerIdIn([keys[i].player])))
  }

  /** In the intended serverDataId batch, slot `i` holds only the record key `i` names. */
  lemma KeyedDataSlotIsOwnKey(ld: Loader, keys: seq<DataKey>, i: nat, j: nat)
    requires forall k :: 0 <= k < |keys| ==> keys[k].server in ld.pool
    requires KeyedDataBatch(ld, keys).Ok? && i < |keys| && j < |KeyedDataBatch(ld, keys).value[i]|
    ensures KeyedDataBatch(ld, keys).value[i][j].row.id == keys[i].id
  {
    var filters := seq(|keys|, k requires 0 <= k < |keys| => IdIn([keys[k].id]));
    assert Slot(ld, keys[i].server, filters[i]) == Ok(KeyedDataBatch(ld, keys).value[i]);
    SlotRowsMatch(ld, keys[i].server, filters[i]);
  }

  /** In the intended serverPlayerId batch, slot `i` holds only records of the player key `i` names. */
  lemma KeyedPlayerSlotIsOwnKey(ld: Loader, keys: seq<PlayerKey>, i: nat, j: nat)
    requires forall k :: 0 <= k < |keys| ==> keys[k].server in ld.pool
    requires KeyedPlayerBatch(ld, keys).Ok? && i < |keys| && j < |KeyedPlayerBatch(ld, keys).value[i]|
    ensures KeyedPlayerBatch(ld, keys).value[i][j].row.playerId == keys[i].player
  {
    var filters := seq(|keys|, k requires 0 <= k < |keys| => PlayerIdIn([keys[k].player]));
    assert Slot(ld, keys[i].server, filters[i]) == Ok(KeyedPlayerBatch(ld, keys).value[i]);
    SlotRowsMatch(ld, keys[i].server, filters[i]);
  }

  /** In the intended serverDataId batch, slot `i` holds every row with the id key `i` names. */
  lemma KeyedDataSlotCoversKey(ld: Loader, keys: seq<DataKey>, i: nat, row: Row)
    requires forall k :: 0 <= k < |keys| ==> keys[k].server in ld.pool
    requires KeyedDataBatch(ld, keys).Ok? && i < |keys|
    requires TableOf(ld.pool[keys[i].server], ld.tableName).Some?
    requires row in TableOf(ld.pool[keys[i].server], ld.tableName).value && row.id == keys[i].id
    ensures exists j :: 0 <= j < |KeyedDataBatch(ld, keys).value[i]| && KeyedDataBatch(ld, keys).value[i][j].row == row
  {
    var filters := seq(|keys|, k requires 0 <= k < |keys| => IdIn([keys[k].id]));
    assert Slot(ld, keys[i].server, filters[i]) == Ok(KeyedDataBatch(ld, keys).value[i]);
    var rows := Select(ld, keys[i].server, filters[i]).value;
    assert row in rows;
    var j :| 0 <= j < |rows| && rows[j] == row;
    SlotDecoratesEachRow(ld, keys[i].server, filters[i], j);
  }

  /** In the intended serverPlayerId batch, slot `i` holds every row of the player key `i` names. */
  lemma KeyedPlayerSlotCoversKey(ld: Loader, keys: seq<PlayerKey>, i: nat, row: Row)
    requires forall k :: 0 <= k < |keys| ==> keys[k].server in ld.pool
    requires KeyedPlayerBatch(ld, keys).Ok? && i < |keys|
    requires TableOf(ld.pool[keys[i].server], ld.tableName).Some?
    requires row in TableOf(ld.pool[keys[i].server], ld.tableName).value && row.playerId == keys[i].player
    ensures exists j :: 0 <= j < |KeyedPlayerBatch(ld, keys).value[i]| && KeyedPlayerBatch(ld, keys).value[i][j].row == row
  {
    var filters := seq(|keys|, k requires 0 <= k < |keys| => PlayerIdIn([keys[k].player]));
    assert Slot(ld, keys[i].server, filters[i]) == Ok(KeyedPlayerBatch(ld, keys).value[i]);
    var rows := Select(ld, keys[i].server, filters[i]).value;
    assert row in rows;
    var j :| 0 <= j < |rows| && rows[j] == row;
    SlotDecoratesEachRow(ld, keys[i].server, filters[i], j);
  }
}
