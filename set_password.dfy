/**
 * The `setPassword` mutation: checks the new password, the account and (unless
 * the session came from a pin login) the current password, then stores the
 * new hash and the time of the change.
 */
module PasswordChange {
  import opened Wrappers
  import opened Identities

  /** The parts of the request session the mutation reads and writes. */
  class Session {
    var playerId: PlayerId
    var kind: string
    var updated: int

    constructor (playerId: PlayerId, kind: string, updated: int)
      ensures this.playerId == playerId && this.kind == kind && this.updated == updated
    {
      this.playerId := playerId;
      this.kind := kind;
      this.updated := updated;
    }
  }

  /** A `bm_web_users` row, keyed by player id in the store. */
  datatype UserRow = UserRow(email: string, password: string, updated: int)

  /** The hashing library: `hash(password)` and `verify(hash, password)`. */
  datatype Hasher = Hasher(hash: string -> string, verify: (string, string) -> bool)

  datatype PasswordError = InvalidPassword | NoAccount | IncorrectLogin

  function Message(e: PasswordError): (r: string)
    ensures r != ""
  {
    match e
    case InvalidPassword => "Invalid password, minimum length 6 characters"
    case NoAccount => "You do not have an account, please register"
    case IncorrectLogin => "Incorrect login details"
  }

  /** `isLength(s, { min: 6, max: 255 })`. */
  predicate ValidLength(s: string): (ok: bool)
    ensures ok ==> s != ""
    ensures ok ==> |s| <= 255
  {
    6 <= |s| <= 255
  }

  /**
   * The checks in the order the mutation runs them. On success, the account
   * row found. `currentPassword` is None when absent.
   */
  function CheckPasswordChange(users: map<PlayerId, UserRow>, playerId: PlayerId, kind: string, hasher: Hasher,
                               currentPassword: Option<string>, newPassword: string): (r: Result<UserRow, PasswordError>)
    ensures r.Ok? ==> ValidLength(newPassword) && playerId in users && r.value == users[playerId]
    ensures r.Ok? && kind != "pin" ==> (currentPassword.Some? && ValidLength(currentPassword.value)
      && hasher.verify(users[playerId].password, currentPassword.value))
    ensures (ValidLength(newPassword) && playerId in users
      && (kind != "pin" ==> (currentPassword.Some? && ValidLength(currentPassword.value)
                              && hasher.verify(users[playerId].password, currentPassword.value))))
      ==> r == Ok(users[playerId])
  {
    if !ValidLength(newPassword) then Err(InvalidPassword)
    else if playerId !in users then Err(NoAccount)
    else if kind != "pin" && (currentPassword.None? || currentPassword.value == "" || !ValidLength(currentPassword.value))
    then Err(InvalidPassword)
    else if kind != "pin" && !hasher.verify(users[playerId].password, currentPassword.value) then Err(IncorrectLogin)
    else Ok(users[playerId])
  }

  /** A new password of the wrong length is refused before the account is looked up. */
  lemma NewPasswordCheckedFirst(u1: map<PlayerId, UserRow>, u2: map<PlayerId, UserRow>, playerId: PlayerId, kind: string,
                                hasher: Hasher, currentPassword: Option<string>, newPassword: string)
    requires !ValidLength(newPassword)
    ensures CheckPasswordChange(u1, playerId, kind, hasher, currentPassword, newPassword) == Err(InvalidPassword)
    ensures CheckPasswordChange(u1, playerId, kind, hasher, currentPassword, newPassword)
      == CheckPasswordChange(u2, playerId, kind, hasher, currentPassword, newPassword)
  {
  }

  /** A valid new password for a player without an account is refused with the register message. */
  lemma NoAccountRefused(users: map<PlayerId, UserRow>, playerId: PlayerId, kind: string, hasher: Hasher,
                         currentPassword: Option<string>, newPassword: string)
    requires ValidLength(newPassword) && playerId !in users
    ensures CheckPasswordChange(users, playerId, kind, hasher, currentPassword, newPassword) == Err(NoAccount)
  {
  }

  /** A pin session neither needs nor verifies the current password. */
  lemma PinSkipsCurrentPassword(users: map<PlayerId, UserRow>, playerId: PlayerId, h1: Hasher, h2: Hasher,
                                c1: Option<string>, c2: Option<string>, newPassword: string)
    ensures CheckPasswordChange(users, playerId, "pin", h1, c1, newPassword)
      == CheckPasswordChange(users, playerId, "pin", h2, c2, newPassword)
    ensures CheckPasswordChange(users, playerId, "pin", h1, c1, newPassword).Ok?
      <==> ValidLength(newPassword) && playerId in users
  {
  }

  /** Any other session with an account and a valid new password: a missing or ill-sized current password, then a failed verify, are refused. */
  lemma OtherSessionsVerifyCurrent(users: map<PlayerId, UserRow>, playerId: PlayerId, kind: string, hasher: Hasher,
                                   currentPassword: Option<string>, newPassword: string)
    requires kind != "pin" && ValidLength(newPassword) && playerId in users
    ensures currentPassword.None? || !ValidLength(currentPassword.value) ==>
      CheckPasswordChange(users, playerId, kind, hasher, currentPassword, newPassword) == Err(InvalidPassword)
    ensures currentPassword.Some? && ValidLength(currentPassword.value) ==>
      (CheckPasswordChange(users, playerId, kind, hasher, currentPassword, newPassword) == Err(IncorrectLogin)
       <==> !hasher.verify(users[playerId].password, currentPassword.value))
  {
  }

  /** The `bm_web_users` table. */
  class UserStore {
    var rows: map<PlayerId, UserRow>

    constructor (initial: map<PlayerId, UserRow>)
      ensures rows == initial
    {
      rows := initial;
    }

    /** `UPDATE bm_web_users SET password = ?, updated = ? WHERE player_id = ?`. */
    method UpdatePassword(playerId: PlayerId, password: string, updated: int)
      modifies this
      ensures rows == if playerId in old(rows)
        then old(rows)[playerId := old(rows)[playerId].(password := password, updated := updated)]
        else old(rows)
    {
      if playerId in rows {
        rows := rows[playerId := rows[playerId].(password := password, updated := updated)];
      }
    }
  }

  /**
   * The mutation, with `Date.now()` given as `nowMillis`. On success the
   * session's `updated` becomes the current time in whole seconds and only the
   * session player's row changes: its password is the hash of the new one and
   * its `updated` the session's.
   */
  method SetPassword(session: Session, store: UserStore, hasher: Hasher, currentPassword: Option<string>,
                     newPassword: string, nowMillis: int) returns (r: Result<(), PasswordError>)
    modifies session`updated, store
    ensures var outcome := CheckPasswordChange(old(store.rows), session.playerId, session.kind, hasher, currentPassword, newPassword);
      && (outcome.Err? ==> r == Err(outcome.error) && store.rows == old(store.rows) && session.updated == old(session.updated))
      && (outcome.Ok? ==> (r == Ok(())
           && session.updated * 1000 <= nowMillis < session.updated * 1000 + 1000
           && store.rows == old(store.rows)[session.playerId :=
                old(store.rows)[session.playerId].(password := hasher.hash(newPassword), updated := session.updated)]))
  {
    if !ValidLength(newPassword) {
      return Err(InvalidPassword);
    }
    if session.playerId !in store.rows {
      return Err(NoAccount);
    }
    var checkResult := store.rows[session.playerId];
    if session.kind != "pin" {
      if currentPassword.None? || currentPassword.value == "" || !ValidLength(currentPassword.value) {
        return Err(InvalidPassword);
      }
      var matched := hasher.verify(checkResult.password, currentPassword.value);
      if !matched {
        return Err(IncorrectLogin);
      }
    }
    var encodedHash := hasher.hash(newPassword);
    session.updated := nowMillis / 1000;
    store.UpdatePassword(session.playerId, encodedHash, session.updated);
    return Ok(());
  }
}
