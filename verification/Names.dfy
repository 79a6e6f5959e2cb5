/** Names shared by the configuration and the protocol. */
module Names {

  /** A dotted object name, as its components: plat.cab0.board1 is ["plat", "cab0", "board1"]. */
  type Name = seq<string>

  /** PWR_AttrName. */
  type Attr = nat

  datatype Option<+T> = None | Some(value: T)
}
