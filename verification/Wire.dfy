/** Application messages, as the server sees them once a datagram has been decoded. */
module Wire {
  import opened Options

  /** An opaque identity: the hash of a client token. */
  type Identity = nat

  /** A decoded hello: `wellFormed` says that the version and all five strings pass validation. */
  datatype Hello = Hello(wellFormed: bool, identity: Identity)

  /**
    * The payload of one unreliable datagram. A client state carries the sanitized planar position,
    * or nothing when a component was not finite; a chat line carries the encoded broadcast length
    * and whether its text is within the configured string limit.
    */
  datatype Message =
    | HelloMsg(hello: Hello)
    | StateMsg(position: Option<(real, real)>)
    | ChatMsg(withinLimit: bool, encodedLen: nat)
    | Undecodable
}
