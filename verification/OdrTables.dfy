/**
  What each message leaves in a node's table and makes it send: when routes are replaced,
  when a request is passed on, answered or dropped, and when a client's request floods.
 */
module OdrTables {
  import opened OdrNode

  /** The entry leads where the packet came from, as far as it has come. */
  predicate Leads(e: Entry, at: Arrival, hop: int) {
    e.nextHop == at.mac && e.out == at.iface && e.hops == hop + 1 && e.stamp == at.now
  }

  /** Same next hop, interface, hop count and time. */
  predicate SameRoute(e: Entry, e': Entry) {
    e'.nextHop == e.nextHop && e'.out == e.out && e'.hops == e.hops && e'.stamp == e.stamp
  }

  function Newest(a: int, b: int): int { if a < b then b else a }

  /**
    The route back to the source after an RREQ from another node. A forced request with a new id
    always replaces it, and so does any request when there is none. Otherwise a fresh route stays,
    and a route past freshness is replaced exactly by one that is not longer.
   */
  lemma RouteBack(u: nat, table: Table, p: Packet, at: Arrival)
    requires p.Rreq? && Shaped(table, |table|) && p.src < |table| && p.dst < |table|
    requires u != p.src
    ensures var e, e' := table[p.src], OnRreq(u, table, p, at).0[p.src];
      && (p.forced && p.id > e.highest[p.src] ==> Leads(e', at, p.hop))
      && (!Routed(e) ==> Leads(e', at, p.hop))
      && (Routed(e) && !(p.forced && p.id > e.highest[p.src]) ==>
            if e.stamp + at.stale > at.now || e.hops < p.hop + 1 then SameRoute(e, e') else Leads(e', at, p.hop))
      && e'.highest == e.highest[p.src := Newest(e.highest[p.src], p.id)]
  {
    var e := table[p.src];
    assert e.highest[p.src := e.highest[p.src]] == e.highest;
  }

  /** An RREQ changes no third entry, and of the destination's entry only the id and, where a relay
      answers, the time. */
  lemma OtherEntries(u: nat, table: Table, p: Packet, at: Arrival, x: nat)
    requires p.Rreq? && Shaped(table, |table|) && p.src < |table| && p.dst < |table| && x < |table| && x != p.src
    ensures var (table', sends) := OnRreq(u, table, p, at);
      && |table'| == |table|
      && (x != p.dst ==> table'[x] == table[x])
      && table'[x].nextHop == table[x].nextHop && table'[x].out == table[x].out && table'[x].hops == table[x].hops
  {
  }

  /** The node is where an RREQ for another node passes through, with an id it has not seen. */
  predicate PassesThrough(u: nat, table: Table, p: Packet)
    requires p.Rreq? && Shaped(table, |table|) && p.src < |table| && p.dst < |table|
  {
    u != p.src && u != p.dst && p.src != p.dst && p.id > table[p.dst].highest[p.src]
  }

  /**
    What a relay does with a new RREQ. Without a route, with an expired one, or when the request
    is forced and the route fresh, it passes the request on, one hop farther. With a fresh route it
    answers an unforced request that nobody answered: with 0 hops, to where the request came from or
    its kept route back, and it passes the request on as answered exactly when it did not know the
    source or knew it farther away. In the very second the route turns stale it does nothing.
   */
  lemma RelayReacts(u: nat, table: Table, p: Packet, at: Arrival)
    requires p.Rreq? && Shaped(table, |table|) && p.src < |table| && p.dst < |table| && PassesThrough(u, table, p)
    ensures var (table', sends) := OnRreq(u, table, p, at); var d, back := table[p.dst], table[p.src];
      && (!Routed(d) || d.stamp + at.stale < at.now || (p.forced && d.stamp + at.stale > at.now) ==>
            sends == [Flood(Rreq(p.src, p.dst, p.hop + 1, p.replied, p.forced, p.id))])
      && (Routed(d) && d.stamp + at.stale == at.now ==> sends == [])
      && (Routed(d) && d.stamp + at.stale > at.now && !p.forced ==>
            && table'[p.dst].stamp == at.now
            && (p.replied ==> sends == [])
            && (!p.replied ==>
                  && sends != [] && |table'| == |table|
                  && sends[0] == Unicast(table'[p.src].nextHop, table'[p.src].out, Rrep(p.dst, p.src, 0, false, p.id))
                  && sends[1..] == if Routed(back) && back.hops <= p.hop + 1 then []
                                   else [Flood(Rreq(p.src, p.dst, p.hop + 1, true, false, p.id))]))
      && |table'| == |table| && |table'[p.dst].highest| == |table| && table'[p.dst].highest[p.src] == p.id
  {
    HandleShaped(u, table, p, at);
    assert OnRreq(u, table, p, at) == Handle(u, table, p, at);
  }

  /** A request with an id seen before is neither passed on nor answered. */
  lemma OldIdIgnored(u: nat, table: Table, p: Packet, at: Arrival)
    requires p.Rreq? && Shaped(table, |table|) && p.src < |table| && p.dst < |table|
    requires p.id <= table[p.dst].highest[p.src]
    ensures OnRreq(u, table, p, at).1 == []
  {
  }

  function Least(a: int, b: int): int { if a < b then a else b }

  /**
    The forward route after an RREP. A forced reply always replaces it; an unforced one replaces a
    missing or expired route, and a live one exactly when it is shorter, so a live route never gets
    longer. A reply that is taken records the asker's id where the ids of the replying node itself are
    kept. It goes on to the next hop towards the asker, one hop farther, unless it is here.
   */
  lemma RouteForward(u: nat, table: Table, p: Packet, at: Arrival)
    requires p.Rrep? && Shaped(table, |table|) && p.src < |table| && p.dst < |table|
    ensures var (table', sends) := OnRrep(u, table, p, at); var e := table[p.src];
      && |table'| == |table|
      && (forall x :: 0 <= x < |table| && x != p.src ==> table'[x] == table[x])
      && (p.forced || !Routed(e) || e.stamp + at.stale < at.now ==>
            Leads(table'[p.src], at, p.hop) && table'[p.src].highest == e.highest[p.src := p.id])
      && (!p.forced && Routed(e) && e.stamp + at.stale >= at.now ==>
            && table'[p.src].hops == Least(e.hops, p.hop + 1)
            && if e.hops > p.hop + 1 then Leads(table'[p.src], at, p.hop) else table'[p.src] == e)
      && (u == p.dst ==> sends == [])
      && (u != p.dst ==> sends == [Unicast(table'[p.dst].nextHop, table'[p.dst].out,
                                           Rrep(p.src, p.dst, p.hop + 1, p.forced, p.id))])
  {
  }

  /** A forced request forgets the route and always floods; an unforced one leaves the table alone and
      floods exactly when the route is absent or older than the stale time. */
  lemma ClientAsks(u: nat, table: Table, id: int, dst: nat, forced: bool, now: int, stale: int)
    requires dst < |table|
    ensures var (table', sends) := OnClient(u, table, id, dst, forced, now, stale); var e := table[dst];
      && (sends == [] || sends == [Flood(Rreq(u, dst, 0, false, forced, id))])
      && (sends != [] <==> forced || !Routed(e) || now - e.stamp > stale)
      && |table'| == |table| && (forall x :: 0 <= x < |table| && x != dst ==> table'[x] == table[x])
      && (forced ==> !Routed(table'[dst]) && table'[dst].highest == e.highest)
      && (!forced ==> table' == table)
  {
  }
}
