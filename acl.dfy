/**
 * The per-row access-control record the punishment loaders attach to each row:
 * `{ update, delete, actor, yours }`, built from the session's per-server
 * permission grants and its ownership test.
 */
module Acl {
  import opened Identities

  /** One grant `hasServerPermission(server, resource, permission)` answers true for. */
  datatype Grant = Grant(server: ServerId, resource: string, permission: string)

  /**
   * What the session knows about the current user: the grants it holds on each
   * server, and `owns(id)`, which tells whether a player id is the user's own.
   */
  datatype Viewer = Viewer(grants: set<Grant>, owns: PlayerId -> bool)

  datatype AclFlags = AclFlags(update: bool, delete: bool, actor: bool, yours: bool)

  predicate HasServerPermission(v: Viewer, server: ServerId, resource: string, permission: string) {
    Grant(server, resource, permission) in v.grants
  }

  /**
   * The any/own rule, stated once for an action: the `<action>.any` grant, or the
   * `<action>.own` grant together with ownership of `ownerId`.
   */
  predicate CanPerform(v: Viewer, server: ServerId, resource: string, action: string, ownerId: PlayerId) {
    HasServerPermission(v, server, resource, action + ".any")
    || (HasServerPermission(v, server, resource, action + ".own") && v.owns(ownerId))
  }

  /** The record as the by-id loader builds it: each disjunction written once. */
  function AclOf(v: Viewer, server: ServerId, resource: string, actorId: PlayerId, playerId: PlayerId): (a: AclFlags)
    ensures a.update <==> CanPerform(v, server, resource, "update", actorId)
    ensures a.delete <==> CanPerform(v, server, resource, "delete", actorId)
    ensures a.actor <==> v.owns(actorId)
    ensures a.yours <==> v.owns(playerId)
  {
    assert "update" + ".any" == "update.any" && "update" + ".own" == "update.own";
    assert "delete" + ".any" == "delete.any" && "delete" + ".own" == "delete.own";
    AclFlags(
      update := HasServerPermission(v, server, resource, "update.any")
        || (HasServerPermission(v, server, resource, "update.own") && v.owns(actorId)),
      delete := HasServerPermission(v, server, resource, "delete.any")
        || (HasServerPermission(v, server, resource, "delete.own") && v.owns(actorId)),
      actor := v.owns(actorId),
      yours := v.owns(playerId))
  }

  /** The record as the by-player loader builds it: every disjunction written twice. */
  function DoubledAclOf(v: Viewer, server: ServerId, resource: string, actorId: PlayerId, playerId: PlayerId): (a: AclFlags)
    ensures a.actor <==> v.owns(actorId)
    ensures a.yours <==> v.owns(playerId)
    ensures !v.owns(actorId) ==> (a.update <==> HasServerPermission(v, server, resource, "update.any"))
    ensures !v.owns(actorId) ==> (a.delete <==> HasServerPermission(v, server, resource, "delete.any"))
  {
    AclFlags(
      update := HasServerPermission(v, server, resource, "update.any")
        || (HasServerPermission(v, server, resource, "update.own") && v.owns(actorId))
        || HasServerPermission(v, server, resource, "update.any")
        || (HasServerPermission(v, server, resource, "update.own") && v.owns(actorId)),
      delete := HasServerPermission(v, server, resource, "delete.any")
        || (HasServerPermission(v, server, resource, "delete.own") && v.owns(actorId))
        || HasServerPermission(v, server, resource, "delete.any")
        || (HasServerPermission(v, server, resource, "delete.own") && v.owns(actorId)),
      actor := v.owns(actorId),
      yours := v.owns(playerId))
  }

  /** The repeated disjunctions are redundant: both loaders compute the same record. */
  lemma DoubledAclIsAcl(v: Viewer, server: ServerId, resource: string, actorId: PlayerId, playerId: PlayerId)
    ensures DoubledAclOf(v, server, resource, actorId, playerId) == AclOf(v, server, resource, actorId, playerId)
  {
  }

  /** A record the user both issued and is the subject of has `actor == yours`. */
  lemma SelfIssuedActorIsYours(v: Viewer, server: ServerId, resource: string, actorId: PlayerId, playerId: PlayerId)
    requires actorId == playerId
    ensures AclOf(v, server, resource, actorId, playerId).actor == AclOf(v, server, resource, actorId, playerId).yours
  {
  }

  /** With `update.own` but not `update.any`, update is allowed exactly on the user's own issued records. */
  lemma OwnGrantFollowsActor(v: Viewer, server: ServerId, resource: string, actorId: PlayerId, playerId: PlayerId)
    requires HasServerPermission(v, server, resource, "update.own")
    requires !HasServerPermission(v, server, resource, "update.any")
    ensures AclOf(v, server, resource, actorId, playerId).update <==> v.owns(actorId)
  {
  }

  /** Ownership for update and delete is judged on the issuer only: the subject does not matter. */
  lemma SubjectDoesNotGrant(v: Viewer, server: ServerId, resource: string, actorId: PlayerId, p1: PlayerId, p2: PlayerId)
    ensures AclOf(v, server, resource, actorId, p1).update == AclOf(v, server, resource, actorId, p2).update
    ensures AclOf(v, server, resource, actorId, p1).delete == AclOf(v, server, resource, actorId, p2).delete
  {
  }

  /** Only grants on the row's own server and the loader's resource take part. */
  lemma OnlyLocalGrantsMatter(v1: Viewer, v2: Viewer, server: ServerId, resource: string, actorId: PlayerId, playerId: PlayerId)
    requires v1.owns == v2.owns
    requires forall p :: Grant(server, resource, p) in v1.grants <==> Grant(server, resource, p) in v2.grants
    ensures AclOf(v1, server, resource, actorId, playerId) == AclOf(v2, server, resource, actorId, playerId)
  {
    assert HasServerPermission(v1, server, resource, "update.any") == HasServerPermission(v2, server, resource, "update.any");
    assert HasServerPermission(v1, server, resource, "update.own") == HasServerPermission(v2, server, resource, "update.own");
    assert HasServerPermission(v1, server, resource, "delete.any") == HasServerPermission(v2, server, resource, "delete.any");
    assert HasServerPermission(v1, server, resource, "delete.own") == HasServerPermission(v2, server, resource, "delete.own");
  }

  /** More grants never take a permission away. */
  lemma MoreGrantsMorePermission(v1: Viewer, v2: Viewer, server: ServerId, resource: string, actorId: PlayerId, playerId: PlayerId)
    requires v1.owns == v2.owns && v1.grants <= v2.grants
    ensures AclOf(v1, server, resource, actorId, playerId).update ==> AclOf(v2, server, resource, actorId, playerId).update
    ensures AclOf(v1, server, resource, actorId, playerId).delete ==> AclOf(v2, server, resource, actorId, playerId).delete
  {
  }
}
