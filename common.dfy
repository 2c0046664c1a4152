/** Option and Result for the error paths of the modelled resolvers and loaders. */
module Wrappers {
  datatype Option<+T> = None | Some(value: T)

  datatype Result<+T, +E> = Ok(value: T) | Err(error: E)
}

/** Identifiers shared by the loader, the ACL rules and the mutations. */
module Identities {
  /** A player UUID as the 16-byte buffer the databases store. */
  type PlayerId = seq<bv8>

  /** The key of a game server in the server pool. */
  type ServerId = string

  /** What the player loader resolves an id to. */
  datatype Player = Player(id: PlayerId, name: string)
}
