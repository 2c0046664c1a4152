/**
 * The `updateServer` mutation: validates a new configuration for a server of
 * the pool against the database it points at, then rewrites that server's row
 * in `bm_web_servers`.
 */
module ServerUpdate {
  import opened Wrappers
  import opened Identities

  /** The mutation's `input` argument. An absent password is None. */
  datatype ServerInput = ServerInput(
    name: string,
    host: string,
    port: int,
    database: string,
    user: string,
    password: Option<string>,
    console: string,
    tables: map<string, string>)

  /** A `bm_web_servers` row as the mutation writes it. */
  datatype ServerRow = ServerRow(
    name: string,
    host: string,
    port: int,
    database: string,
    user: string,
    password: string,
    console: PlayerId,
    tables: string)

  /**
   * The MySQL server the new configuration connects to: for each schema, its
   * tables, each with the ids it holds.
   */
  datatype Database = Database(schemas: map<string, map<string, set<PlayerId>>>)

  /** The library calls the mutation makes: `encrypt` with the configured key, uuid-parse's `parse`, `JSON.stringify`. */
  datatype Codecs = Codecs(
    encrypt: string -> string,
    parseUuid: string -> PlayerId,
    tablesJson: map<string, string> -> string)

  datatype UpdateError =
    | ServerNotFound
    | ConnectionFailed
    | TablesMissing(tables: seq<string>)
    | QueryFailed
    | ConsoleNotFound(table: string)

  /** `Array.prototype.join`. */
  function Join(parts: seq<string>, sep: string): (r: string)
    ensures |parts| == 1 ==> r == parts[0]
    ensures |parts| > 0 ==> |parts[0]| <= |r|
  {
    if |parts| == 0 then ""
    else if |parts| == 1 then parts[0]
    else parts[0] + sep + Join(parts[1..], sep)
  }

  /** The user-visible message of an exposed error; connection and query failures are not exposed. */
  function Message(e: UpdateError): (r: Option<string>)
    ensures r.Some? <==> !(e.ConnectionFailed? || e.QueryFailed?)
  {
    match e
    case ServerNotFound => Some("Server not found")
    case TablesMissing(ts) => Some("Tables do not exist in the database: " + Join(ts, ", "))
    case ConsoleNotFound(t) => Some("Console UUID not found in " + t + " table")
    case ConnectionFailed => None
    case QueryFailed => None
  }

  /** The `information_schema` count for one logical table: its configured name exists in `input.database`. */
  predicate TableExists(db: Database, input: ServerInput, key: string) {
    key in input.tables
    && input.database in db.schemas
    && input.tables[key] in db.schemas[input.database]
  }

  /** The logical tables, in the order given, whose configured table is not in the database. */
  function MissingTables(keys: seq<string>, db: Database, input: ServerInput): (r: seq<string>)
    ensures |r| <= |keys|
    ensures forall k :: 0 <= k < |r| ==> r[k] in keys && !TableExists(db, input, r[k])
  {
    if |keys| == 0 then []
    else
      var init := MissingTables(keys[..|keys| - 1], db, input);
      var key := keys[|keys| - 1];
      if TableExists(db, input, key) then init else init + [key]
  }

  /** The missing list holds exactly the logical tables without a table in the database, and is empty exactly when all exist. */
  lemma {:induction false} MissingTablesExact(keys: seq<string>, db: Database, input: ServerInput)
    ensures forall t :: t in MissingTables(keys, db, input) <==> t in keys && !TableExists(db, input, t)
    ensures MissingTables(keys, db, input) == [] <==> forall t :: t in keys ==> TableExists(db, input, t)
    ensures |MissingTables(keys, db, input)| <= |keys|
  {
    if |keys| > 0 {
      var init := keys[..|keys| - 1];
      MissingTablesExact(init, db, input);
      assert keys == init + [keys[|keys| - 1]];
    }
  }

  /** The check keeps the order of the logical tables: it distributes over concatenation. */
  lemma {:induction false} MissingTablesKeepOrder(a: seq<string>, b: seq<string>, db: Database, input: ServerInput)
    ensures MissingTables(a + b, db, input) == MissingTables(a, db, input) + MissingTables(b, db, input)
  {
    if |b| == 0 {
      assert a + b == a;
    } else {
      var n := |b| - 1;
      var tail := if TableExists(db, input, b[n]) then [] else [b[n]];
      var ab := a + b;
      assert ab[..|ab| - 1] == a + b[..n] && ab[|ab| - 1] == b[n];
      assert MissingTables(ab, db, input) == MissingTables(a + b[..n], db, input) + tail;
      assert MissingTables(b, db, input) == MissingTables(b[..n], db, input) + tail;
      MissingTablesKeepOrder(a, b[..n], db, input);
      var ma, mb := MissingTables(a, db, input), MissingTables(b[..n], db, input);
      assert (ma + mb) + tail == ma + (mb + tail);
    }
  }

  /** `SELECT id FROM <players table> WHERE id = <console>`: whether a row came back, or the query failed. */
  function ConsoleLookup(db: Database, input: ServerInput, codecs: Codecs): (r: Result<bool, UpdateError>)
    ensures r.Err? <==> !TableExists(db, input, "players")
    ensures r.Err? ==> r.error == QueryFailed
    ensures r.Ok? ==> (r.value <==> codecs.parseUuid(input.console) in db.schemas[input.database][input.tables["players"]])
  {
    if TableExists(db, input, "players")
    then Ok(codecs.parseUuid(input.console) in db.schemas[input.database][input.tables["players"]])
    else Err(QueryFailed)
  }

  /** A JavaScript string is truthy when it is present and not empty. */
  predicate Truthy(p: Option<string>) {
    p.Some? && p.value != ""
  }

  /** The row written for a validated input: password encrypted or emptied, console parsed, tables serialised. */
  function StoredRow(codecs: Codecs, input: ServerInput): (r: ServerRow)
    ensures Truthy(input.password) ==> r.password == codecs.encrypt(input.password.value)
    ensures !Truthy(input.password) ==> r.password == ""
    ensures r.console == codecs.parseUuid(input.console) && r.tables == codecs.tablesJson(input.tables)
    ensures r.name == input.name && r.host == input.host && r.port == input.port
    ensures r.database == input.database && r.user == input.user
  {
    ServerRow(
      name := input.name,
      host := input.host,
      port := input.port,
      database := input.database,
      user := input.user,
      password := if Truthy(input.password) then codecs.encrypt(input.password.value) else "",
      console := codecs.parseUuid(input.console),
      tables := codecs.tablesJson(input.tables))
  }

  /**
   * The outcome of the checks, in the order the mutation runs them: the server
   * is in the pool, the connection opens, every logical table exists, the
   * console player exists. On success, the row to write.
   */
  function UpdateOutcome(pool: set<ServerId>, conn: Option<Database>, tableKeys: seq<string>,
                         codecs: Codecs, id: ServerId, input: ServerInput): (r: Result<ServerRow, UpdateError>)
    ensures r.Ok? ==> id in pool && conn.Some?
    ensures r.Ok? ==> forall t :: t in tableKeys ==> TableExists(conn.value, input, t)
    ensures r.Ok? ==> (TableExists(conn.value, input, "players")
      && codecs.parseUuid(input.console) in conn.value.schemas[input.database][input.tables["players"]])
    ensures r.Err? && r.error.TablesMissing? ==> r.error.tables != []
    ensures (id in pool && conn.Some?
      && (forall t :: t in tableKeys ==> TableExists(conn.value, input, t))
      && TableExists(conn.value, input, "players")
      && codecs.parseUuid(input.console) in conn.value.schemas[input.database][input.tables["players"]])
      ==> r == Ok(StoredRow(codecs, input))
  {
    if id !in pool then Err(ServerNotFound)
    else if conn.None? then Err(ConnectionFailed)
    else
      var missing := MissingTables(tableKeys, conn.value, input);
      MissingTablesExact(tableKeys, conn.value, input);
      if |missing| > 0 then Err(TablesMissing(missing))
      else match ConsoleLookup(conn.value, input, codecs)
        case Err(e) => Err(e)
        case Ok(found) =>
          if !found then Err(ConsoleNotFound(input.tables["players"]))
          else Ok(StoredRow(codecs, input))
  }

  /** An id outside the pool fails with 'Server not found' whatever the connection would have given. */
  lemma UnknownServerFailsFirst(pool: set<ServerId>, c1: Option<Database>, c2: Option<Database>, tableKeys: seq<string>,
                                codecs: Codecs, id: ServerId, input: ServerInput)
    requires id !in pool
    ensures UpdateOutcome(pool, c1, tableKeys, codecs, id, input) == Err(ServerNotFound)
    ensures UpdateOutcome(pool, c1, tableKeys, codecs, id, input) == UpdateOutcome(pool, c2, tableKeys, codecs, id, input)
  {
  }

  /** Missing tables are reported before the console is looked up, and the report lists exactly them. */
  lemma MissingTablesReportedBeforeConsole(pool: set<ServerId>, db: Database, tableKeys: seq<string>,
                                           codecs: Codecs, id: ServerId, input: ServerInput)
    requires id in pool
    requires exists t :: t in tableKeys && !TableExists(db, input, t)
    ensures UpdateOutcome(pool, Some(db), tableKeys, codecs, id, input) == Err(TablesMissing(MissingTables(tableKeys, db, input)))
    ensures Message(UpdateOutcome(pool, Some(db), tableKeys, codecs, id, input).error)
      == Some("Tables do not exist in the database: " + Join(MissingTables(tableKeys, db, input), ", "))
  {
    MissingTablesExact(tableKeys, db, input);
  }

  /** With every table present and the console absent from the players table, the error names that table. */
  lemma AbsentConsoleNamesPlayersTable(pool: set<ServerId>, db: Database, tableKeys: seq<string>,
                                       codecs: Codecs, id: ServerId, input: ServerInput)
    requires id in pool
    requires forall t :: t in tableKeys ==> TableExists(db, input, t)
    requires TableExists(db, input, "players")
    requires codecs.parseUuid(input.console) !in db.schemas[input.database][input.tables["players"]]
    ensures UpdateOutcome(pool, Some(db), tableKeys, codecs, id, input) == Err(ConsoleNotFound(input.tables["players"]))
  {
    MissingTablesExact(tableKeys, db, input);
  }

  /** A present, non-empty password is stored encrypted; an absent or empty one is stored as ''. */
  lemma PasswordNormalised(pool: set<ServerId>, conn: Option<Database>, tableKeys: seq<string>,
                           codecs: Codecs, id: ServerId, input: ServerInput)
    requires UpdateOutcome(pool, conn, tableKeys, codecs, id, input).Ok?
    ensures var row := UpdateOutcome(pool, conn, tableKeys, codecs, id, input).value;
      && (input.password.Some? && input.password.value != "" ==> row.password == codecs.encrypt(input.password.value))
      && (input.password.None? || input.password.value == "" ==> row.password == "")
      && row.console == codecs.parseUuid(input.console)
      && row.tables == codecs.tablesJson(input.tables)
      && row.name == input.name && row.host == input.host && row.port == input.port
      && row.database == input.database && row.user == input.user
  {
  }

  /** The `bm_web_servers` table. */
  class ServerStore {
    var rows: map<ServerId, ServerRow>

    constructor (initial: map<ServerId, ServerRow>)
      ensures rows == initial
    {
      rows := initial;
    }

    /** `UPDATE bm_web_servers SET ... WHERE id = ?`: only the row with that id changes, and only if it exists. */
    method UpdateWhereId(id: ServerId, row: ServerRow)
      modifies this
      ensures rows == if id in old(rows) then old(rows)[id := row] else old(rows)
    {
      if id in rows {
        rows := rows[id := row];
      }
    }
  }

  /**
   * The mutation. `pool` is the set of ids in the server pool, `conn` what
   * `createConnection(input)` reaches (None when it fails), `tableKeys` the
   * logical tables every server must configure.
   */
  method UpdateServer(pool: set<ServerId>, store: ServerStore, conn: Option<Database>, tableKeys: seq<string>,
                      codecs: Codecs, id: ServerId, input: ServerInput) returns (r: Result<ServerId, UpdateError>)
    modifies store
    ensures var outcome := UpdateOutcome(pool, conn, tableKeys, codecs, id, input);
      && (outcome.Ok? ==> (r == Ok(id)
            && store.rows == if id in old(store.rows) then old(store.rows)[id := outcome.value] else old(store.rows)))
      && (outcome.Err? ==> r == Err(outcome.error) && store.rows == old(store.rows))
  {
    if id !in pool {
      return Err(ServerNotFound);
    }
    if conn.None? {
      return Err(ConnectionFailed);
    }
    var db := conn.value;

    var missing: seq<string> := [];
    var i := 0;
    while i < |tableKeys|
      invariant 0 <= i <= |tableKeys|
      invariant missing == MissingTables(tableKeys[..i], db, input)
    {
      assert tableKeys[..i + 1][..i] == tableKeys[..i];
      if !TableExists(db, input, tableKeys[i]) {
        missing := missing + [tableKeys[i]];
      }
      i := i + 1;
    }
    assert tableKeys[..i] == tableKeys;
    if |missing| > 0 {
      return Err(TablesMissing(missing));
    }

    var found := ConsoleLookup(db, input, codecs);
    if found.Err? {
      return Err(found.error);
    }
    if !found.value {
      return Err(ConsoleNotFound(input.tables["players"]));
    }

    var password := if Truthy(input.password) then codecs.encrypt(input.password.value) else "";
    var console := codecs.parseUuid(input.console);
    var tables := codecs.tablesJson(input.tables);
    store.UpdateWhereId(id, ServerRow(input.name, input.host, input.port, input.database, input.user, password, console, tables));
    return Ok(id);
  }
}
