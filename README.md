# BanManager WebAPI: punishment loader, server update and password change

This project models three pieces of the BanManager WebAPI in Dafny and proves properties about them.

- **The batched punishment loader** (`serverPlayerId` and `serverDataId`). It takes a batch of `{server, player}` or `{server, id}` keys and de-duplicates the keys' players or ids with lodash `uniq` (by value in this model; see Left out). Then, for each key in order, it runs one query against that key's server table and decorates every returned row. A failing query rejects the batch and ends the loop, so no later key is queried. The decoration adds the resolved `actor` (and, by id, `player`) and the ACL record `{ update, delete, actor, yours }`.
- **`updateServer`**. The checks run in order: the server is in the pool, every configured table exists in the target database, and the console player exists. Then the input is normalised (password encrypted or set to `''`, console UUID parsed, tables serialised) and the server's row is rewritten.
- **`setPassword`**. It checks the new password's length, that the account exists, and the current password (skipped for `pin` sessions). Then it stores the new hash and the change time.

Modules:

- `Wrappers`, `Identities` (common.dfy): `Option`/`Result`, player and server ids.
- `Uniqueness` (uniq.dfy): lodash `uniq`.
- `Acl` (acl.dfy): the per-row ACL record, as written in each loader.
- `PunishmentLoader` (punishment_loader.dfy): the pool, the queries, the decoration and the two batch functions. Each batch function is a method with loops. It is proved equal to a specification function (`PlayerBatch`, `DataBatch`), and the properties are proved about that function.
- `LoaderFindings` (loader_findings.dfy): the discrepancy under Findings, and the per-key batches the loader evidently intends.
- `ServerUpdate` (update_server.dfy): `updateServer`. The database is given as data, the library calls as functions, and the `bm_web_servers` table is a class.
- `PasswordChange` (set_password.dfy): `setPassword`. The session and the `bm_web_users` table are classes whose fields the mutation updates.

Three choices follow the code:

- The loader issues one query per key, even for keys naming the same server. When every query succeeds, `issued` in `ServerPlayerId`/`ServerDataId` equals the list of the keys' servers. A failing query ends the loop, and `issued` is then the prefix of that list ending at the failing key's server.
- An unknown server in a loader batch is not turned into a not-found result. The code dereferences `serversPool.get(serverId).config` without a check, so the model makes it a precondition.
- `updateServer` never changes the server pool. It only rewrites the `bm_web_servers` row.

## Model

| member | source | states |
|---|---|---|
| Uniqueness.Uniq | data/loaders/player-punishment-loader.js:16 | the de-duplicated ids have no duplicates, and a value is in them exactly when it is in the input |
| Uniqueness.UniqKeepsFirstOccurrenceOrder | data/loaders/player-punishment-loader.js:16 | the de-duplicated ids appear in the order of their first occurrence in the input |
| Uniqueness.UniqOfDistinct | data/loaders/player-punishment-loader.js:58 | a list without duplicates is left unchanged |
| Uniqueness.UniqIdempotent | data/loaders/player-punishment-loader.js:58 | de-duplicating twice gives the same result as de-duplicating once |
| Acl.AclOf | data/loaders/player-punishment-loader.js:69-76 | update (and delete) is allowed iff the session holds `<action>.any` on the row's server and resource, or holds `<action>.own` and owns the actor id; `actor` is ownership of actor_id; `yours` is ownership of player_id |
| Acl.DoubledAclOf | data/loaders/player-punishment-loader.js:26-37 | the by-player record: `actor` and `yours` are ownership of actor_id and player_id; without ownership of the actor, update and delete need the `.any` grant |
| Acl.DoubledAclIsAcl | data/loaders/player-punishment-loader.js:26-37 | the by-player record, with each disjunction written twice, equals the single-form record |
| Acl.SelfIssuedActorIsYours | data/loaders/player-punishment-loader.js:74-75 | when actor_id equals player_id, `acl.actor == acl.yours` |
| Acl.OwnGrantFollowsActor | data/loaders/player-punishment-loader.js:70-71 | with only `update.own`, update is allowed exactly on rows whose actor the user owns |
| Acl.SubjectDoesNotGrant | data/loaders/player-punishment-loader.js:70-73 | update and delete do not depend on player_id, only on actor_id |
| Acl.OnlyLocalGrantsMatter | data/loaders/player-punishment-loader.js:70-73 | two sessions with the same grants on the row's server and resource get the same record |
| Acl.MoreGrantsMorePermission | data/loaders/player-punishment-loader.js:70-73 | adding grants never removes update or delete |
| PunishmentLoader.Where | data/loaders/player-punishment-loader.js:22 | `WHERE player_id IN (...)` / `WHERE id IN (...)` returns exactly the table rows that match the condition |
| PunishmentLoader.WhereSameCondition | data/loaders/player-punishment-loader.js:22 | two conditions that select the same rows give the same query result, whatever the order or repetition of their ids |
| PunishmentLoader.UniqSelectsSameRows | data/loaders/player-punishment-loader.js:16-22 | de-duplicating the players or ids before the query does not change the rows it returns |
| PunishmentLoader.TableOf | data/loaders/player-punishment-loader.js:20 | a key's server has a table for the loader exactly when the logical table name is configured on it and the configured table is in its database; the rows are that table's |
| PunishmentLoader.Select | data/loaders/player-punishment-loader.js:19-22 | a query fails iff the loader's table is not configured on the server or is not in its database; otherwise it returns exactly the matching rows of that table |
| PunishmentLoader.Decorate | data/loaders/player-punishment-loader.js:24-39 | a decorated row keeps the row, has the actor resolved and the ACL record of the row's server (the doubled by-player form gives the same record), and resolves the player only for the by-id loader |
| PunishmentLoader.Slot | data/loaders/player-punishment-loader.js:18-42 | a slot fails exactly when its query fails, and otherwise holds one entry per returned row |
| PunishmentLoader.SlotDecoratesEachRow | data/loaders/player-punishment-loader.js:24-39 | entry j of a slot keeps row j unchanged, carries the ACL record of the slot's server and resource, has the actor resolved, and has the player resolved only in serverDataId |
| PunishmentLoader.Slots | data/loaders/player-punishment-loader.js:18-45 | the batch succeeds iff every query succeeds; it then has one slot per entry, slot i being server i's result; otherwise it fails with some entry's error |
| PunishmentLoader.SlotsStopAtFirstFailure | data/loaders/player-punishment-loader.js:18-22 | the first query that fails decides the error of the whole batch |
| PunishmentLoader.CollectPlayerKeys | data/loaders/player-punishment-loader.js:8-14 | the players and the servers of the keys, each list in key order |
| PunishmentLoader.CollectDataKeys | data/loaders/player-punishment-loader.js:50-56 | the punishment ids and the servers of the keys, each list in key order |
| PunishmentLoader.QueryEachServer | data/loaders/player-punishment-loader.js:18-43 | the loop's result is `Slots` of the key servers; on success it issued one query per entry (duplicates included), in order; on failure the queries issued are a prefix ending at the failing one |
| PunishmentLoader.ServerPlayerId | data/loaders/player-punishment-loader.js:6-46 | the result is `PlayerBatch`: one slot per key, every query filtered by `uniq` of all keys' players; one query per key |
| PunishmentLoader.ServerDataId | data/loaders/player-punishment-loader.js:48-85 | the result is `DataBatch`: one slot per key, every query filtered by `uniq` of all keys' ids; one query per key |
| PunishmentLoader.PlayerBatchRow | data/loaders/player-punishment-loader.js:19-39 | every row in slot i comes from key i's server table, has a player some key asked for, carries only `actor` (no `player`), and has the ACL record of key i's server |
| PunishmentLoader.DataBatchRow | data/loaders/player-punishment-loader.js:61-78 | every row in slot i comes from key i's server table, has an id some key asked for, carries both `player` and `actor`, and has the ACL record of key i's server |
| PunishmentLoader.PlayerBatchCoversKey | data/loaders/player-punishment-loader.js:22 | every row of key i's player in key i's server table is in slot i |
| PunishmentLoader.DataBatchCoversKey | data/loaders/player-punishment-loader.js:64 | the row with key i's id in key i's server table is in slot i |
| PunishmentLoader.SameServerSameSlot | data/loaders/player-punishment-loader.js:60-64 | two keys naming the same server get identical slots |
| PunishmentLoader.Field | data/loaders/player-punishment-loader.js:39 | a property of `{ player, actor, acl, ...row }` is absent exactly when it is neither a row column nor `acl`, `actor` or (by id) `player` |
| PunishmentLoader.RowColumnsKept | data/loaders/player-punishment-loader.js:39 | every original column of the row, `id`, `player_id` and `actor_id` included, is visible unchanged on the decorated row, because `...row` is spread last |
| PunishmentLoader.DecorationsShown | data/loaders/player-punishment-loader.js:78 | `acl`, `actor` and (by id only) `player` are visible unless the row has a column with the same name |
| LoaderFindings.DataSlotHoldsOtherKeysRows | data/loaders/player-punishment-loader.js:58-64 | as written: a row of key i's server table with the id key k asks for is in slot i, although its id is not key i's, whichever server key k names |
| LoaderFindings.PlayerSlotHoldsOtherKeysRows | data/loaders/player-punishment-loader.js:16-22 | as written: a row of key i's server table with key k's player is in slot i, whichever server key k names |
| PunishmentLoader.SlotRowsMatch | data/loaders/player-punishment-loader.js:22 | every row in a slot satisfies that slot's query condition |
| LoaderFindings.KeyedSlots | data/loaders/player-punishment-loader.js:18-45 | the corrected loop gives one slot per entry, and slot i is the result of entry i's own query |
| LoaderFindings.KeyedDataBatch | data/loaders/player-punishment-loader.js:48-85 | the corrected serverDataId has one slot per key |
| LoaderFindings.KeyedPlayerBatch | data/loaders/player-punishment-loader.js:6-46 | the corrected serverPlayerId has one slot per key |
| LoaderFindings.KeyedDataSlotIsOwnKey | data/loaders/player-punishment-loader.js:64 | corrected: every row in slot i has key i's id |
| LoaderFindings.KeyedPlayerSlotIsOwnKey | data/loaders/player-punishment-loader.js:22 | corrected: every row in slot i has key i's player |
| LoaderFindings.KeyedDataSlotCoversKey | data/loaders/player-punishment-loader.js:64 | corrected: the row with key i's id is in slot i |
| LoaderFindings.KeyedPlayerSlotCoversKey | data/loaders/player-punishment-loader.js:22 | corrected: every row of key i's player is in slot i |
| ServerUpdate.MissingTables | graphql/resolvers/mutations/update-server.js:14-22 | the missing list is no longer than the list of logical tables, and each of its entries is a logical table whose configured table does not exist |
| ServerUpdate.MissingTablesExact | graphql/resolvers/mutations/update-server.js:14-22 | a logical table is in the missing list iff it is configured in `tables` but its configured table is absent from `input.database`; the list is empty iff every table exists |
| ServerUpdate.MissingTablesKeepOrder | graphql/resolvers/mutations/update-server.js:14-22 | the missing list follows the order of `tables` (the check distributes over concatenation) |
| ServerUpdate.ConsoleLookup | graphql/resolvers/mutations/update-server.js:29-31 | the console query fails exactly when the configured players table does not exist; otherwise it finds a row exactly when the parsed console UUID is in that table |
| ServerUpdate.StoredRow | graphql/resolvers/mutations/update-server.js:39-47 | the written row has the password encrypted when truthy and `''` otherwise, the console parsed, the tables serialised, and the other fields as given |
| ServerUpdate.UpdateOutcome | graphql/resolvers/mutations/update-server.js:8-51 | success holds exactly when the server is in the pool, the connection opened, every table exists, and the console UUID is in the configured players table, and then the row written is the normalised input; a missing-tables error never has an empty list |
| ServerUpdate.Message | graphql/resolvers/mutations/update-server.js:9-36 | the unknown-server, missing-tables and absent-console errors carry a user-visible message; connection and query failures do not |
| ServerUpdate.UnknownServerFailsFirst | graphql/resolvers/mutations/update-server.js:9-12 | an id outside the pool fails with 'Server not found', whatever the connection would give |
| ServerUpdate.MissingTablesReportedBeforeConsole | graphql/resolvers/mutations/update-server.js:24-27 | any missing table gives 'Tables do not exist in the database: ' followed by exactly the missing tables joined with ', ', before the console is checked |
| ServerUpdate.AbsentConsoleNamesPlayersTable | graphql/resolvers/mutations/update-server.js:29-37 | with every table present, an absent console UUID gives an error that names the configured players table |
| ServerUpdate.PasswordNormalised | graphql/resolvers/mutations/update-server.js:39-47 | a non-empty password is stored encrypted, an absent or empty one as `''`; the console is stored parsed and the tables serialised; the other fields are stored as given |
| ServerUpdate.ServerStore.UpdateWhereId | graphql/resolvers/mutations/update-server.js:49 | only the row with the given id changes, and only if it exists |
| ServerUpdate.UpdateServer | graphql/resolvers/mutations/update-server.js:8-52 | on success the result is `{ id }` and only row `id` is rewritten with the normalised input; on any failure the error is the checks' error and the table is unchanged |
| PasswordChange.ValidLength | graphql/resolvers/mutations/set-password.js:7 | a password of valid length is never empty, so the separate `!currentPassword` test adds nothing for strings, and has at most 255 characters |
| PasswordChange.CheckPasswordChange | graphql/resolvers/mutations/set-password.js:7-26 | success holds exactly when the new password has 6..255 characters, the account exists and, outside pin sessions, the current password is present, has 6..255 characters and verifies against the stored hash; success returns the account row |
| PasswordChange.Message | graphql/resolvers/mutations/set-password.js:7-25 | every refusal carries a non-empty user-visible message |
| PasswordChange.NewPasswordCheckedFirst | graphql/resolvers/mutations/set-password.js:7-9 | a new password outside 6..255 is refused with the invalid-password error, whatever the account table holds |
| PasswordChange.NoAccountRefused | graphql/resolvers/mutations/set-password.js:11-14 | no account row for the session's player gives 'You do not have an account, please register' |
| PasswordChange.PinSkipsCurrentPassword | graphql/resolvers/mutations/set-password.js:16-18 | for pin sessions, the outcome depends on neither the current password nor verify, and success is a valid new password plus an existing account |
| PasswordChange.OtherSessionsVerifyCurrent | graphql/resolvers/mutations/set-password.js:19-25 | for other sessions, a missing or out-of-range current password gives the invalid-password error, and a failed verify gives 'Incorrect login details' |
| PasswordChange.UserStore.UpdatePassword | graphql/resolvers/mutations/set-password.js:32-33 | only the password and updated columns of the player's row change |
| PasswordChange.SetPassword | graphql/resolvers/mutations/set-password.js:6-35 | on failure nothing changes; on success `session.updated` is the current time in whole seconds (rounded down), and only the player's row changes: its password becomes `hash(newPassword)` and its `updated` becomes `session.updated` |

## Left out

- DataLoader's own batching, scheduling and caching are not modelled. `Promise.map` and `Promise.reduce` are modelled as sequential, order-keeping loops. A rejected batch rejects every key; the model returns the batch error.
- MySQL connections and SQL text are not modelled. `SELECT` returns rows in table order; MySQL gives no order without `ORDER BY`. `conn.end()` is not modelled.
- The player-id loader, `encrypt`, uuid-parse `parse`, `JSON.stringify`, `hash` and `verify` are given as opaque functions. `hash` is treated as deterministic, so salting is not modelled.
- `Date.now()` is a parameter. Dafny's `/` by 1000 rounds down for every integer, as `Math.floor` does.
- The `Me` query at the end of `setPassword` is not modelled. Success returns `Ok(())`.
- The list of logical tables (`data/tables`) is not part of this model. It is a parameter.
- `updateServer` overwrites `input.password`, `input.console` and `input.tables` in place. The model builds the stored row from the input instead, because no caller reads `input` afterwards. The stored columns are name, host, port, database, user, password, console and tables; any other input fields are not modelled.
- Connection failures and failed queries are not ExposedErrors in the source. They are modelled as errors without a user-visible message.
- PasswordChange.ValidLength: a Dafny string holds Unicode scalar values, so it counts a character outside the BMP as one, as `isLength` does. It cannot hold a lone surrogate, which a JavaScript string can. Validator versions that do not count the variation selectors U+FE0E and U+FE0F are not modelled; those selectors count as characters here.
- Uniqueness.Uniq: compares players by value. lodash `uniq` compares with SameValueZero, so two distinct Buffer objects holding the same player id both stay in `playerIds`. This changes only the length of the `IN (...)` list, not the rows it selects (PunishmentLoader.UniqSelectsSameRows).
- PunishmentLoader.ServerPlayerId and PunishmentLoader.ServerDataId: keys whose server is not in the pool are excluded by a precondition. The source throws a TypeError on them.

## Findings

| source | as written | input that shows it | evidently intended | confidence | as-written member | corrected member |
|---|---|---|---|---|---|---|
| data/loaders/player-punishment-loader.js:58-64 | every key's query is filtered by the ids of the whole batch | keys `{server s, id 1}` and `{server s, id 2}`, with records 1 and 2 in s's table: record 2's slot also holds record 1. Keys `{server s1, id 5}` and `{server s2, id 7}`: the first slot holds s1's record 7 | slot i holds only the record key i names, as DataLoader requires of result i | medium, not executed | LoaderFindings.DataSlotHoldsOtherKeysRows | LoaderFindings.KeyedDataBatch (proved by LoaderFindings.KeyedDataSlotIsOwnKey and LoaderFindings.KeyedDataSlotCoversKey) |
| data/loaders/player-punishment-loader.js:16-22 | every key's query is filtered by the players of the whole batch | keys `{server s, player A}` and `{server s, player B}`, with a record of each in s's table: B's slot also holds A's record. The same holds across servers: B's slot holds any record of A in B's server table | slot i holds only records of key i's player | medium, not executed | LoaderFindings.PlayerSlotHoldsOtherKeysRows | LoaderFindings.KeyedPlayerBatch (proved by LoaderFindings.KeyedPlayerSlotIsOwnKey and LoaderFindings.KeyedPlayerSlotCoversKey) |

The loader methods `ServerPlayerId` and `ServerDataId` model the code as written. The corrected batches are stated beside them.
