/** The 64-bit application ids of routers and servers, and the route table lookup. */
module AppIds {
  import opened Names

  /** ServerID -1, as the 32-bit unsigned it is: the router itself. */
  const NOBODY: nat := 0xffff_ffff

  /** What findRoute returns for an unknown name: -1 in 64 bits. */
  const MISS: nat := 0xffff_ffff_ffff_ffff

  const WORD: nat := 0x1_0000_0000

  function RtrId(a: nat): nat { a / WORD % WORD }

  function ServerId(a: nat): nat { a % WORD }

  function AppId(rtr: nat, server: nat): nat { rtr % WORD * WORD + server % WORD }

  /** Packing loses nothing of two 32-bit ids. */
  lemma Unpack(rtr: nat, server: nat)
    requires rtr < WORD && server < WORD
    ensures RtrId(AppId(rtr, server)) == rtr && ServerId(AppId(rtr, server)) == server
    ensures AppId(rtr, server) <= MISS
  {
  }

  lemma Repack(a: nat)
    requires a <= MISS
    ensures AppId(RtrId(a), ServerId(a)) == a
  {
  }

  function FindRoute(table: map<Name, nat>, name: Name): nat {
    if name in table then table[name] else MISS
  }

  /** The test in sendEvent compares the 64-bit id with a 32-bit -1. */
  predicate Drops(dest: nat) { dest == NOBODY }

  /**
    sendEvent drops an event exactly when the table maps its name to the router
    part 0 and the server part -1.
   */
  lemma DropsIff(table: map<Name, nat>, name: Name)
    ensures Drops(FindRoute(table, name)) <==> name in table && table[name] == AppId(0, NOBODY)
  {
    assert AppId(0, NOBODY) == NOBODY;
  }

  /** The promise in the message it prints is not kept: no unknown name is ever dropped. */
  lemma MissIsRouted(table: map<Name, nat>, name: Name)
    requires name !in table
    ensures !Drops(FindRoute(table, name))
    ensures RtrId(FindRoute(table, name)) == NOBODY && ServerId(FindRoute(table, name)) == NOBODY
  {
    DropsIff(table, name);
  }
}
