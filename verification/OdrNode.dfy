/**
  One ODR node: its routing table and what it does with an RREQ, an RREP and a client's
  request, as functions and as the in-place program that refines them. Nodes are numbers,
  times are inputs.
 */
module OdrNode {
  import opened Segments

  /** Six bytes; the source calls an address empty when none of its bytes is odd. */
  type Mac = seq<byte>

  predicate NotEmpty(mac: Mac) { exists i :: 0 <= i < |mac| && mac[i] % 2 == 1 }

  function NoMac(): (m: Mac)
    ensures !NotEmpty(m)
  {
    Zeros(6)
  }

  method CheckAddressNotEmpty(mac: Mac) returns (some: bool)
    requires |mac| == 6
    ensures some == NotEmpty(mac)
  {
    for i := 0 to 6
      invariant forall j :: 0 <= j < i ==> mac[j] % 2 != 1
    {
      if mac[i] % 2 == 1 { return true; }
    }
    return false;
  }

  datatype Entry = Entry(nextHop: Mac, out: int, hops: int, stamp: int, highest: seq<int>)

  predicate Routed(e: Entry) { NotEmpty(e.nextHop) }

  function BlankEntry(n: nat): Entry { Entry(NoMac(), 0, 0, 0, seq(n, _ => 0)) }

  type Table = seq<Entry>

  /** A table with one entry per node, each with one id slot per node. */
  predicate Shaped(table: Table, n: nat) {
    |table| == n && forall x :: 0 <= x < n ==> |table[x].highest| == n
  }

  datatype Packet =
    | Rreq(src: nat, dst: nat, hop: int, replied: bool, forced: bool, id: int)
    | Rrep(src: nat, dst: nat, hop: int, forced: bool, id: int)

  /** What a node hands to its interfaces. */
  datatype Send = Flood(p: Packet) | Unicast(mac: Mac, out: int, p: Packet)

  /** Where a frame came from, when it is handled, and how long routes stay fresh. */
  datatype Arrival = Arrival(mac: Mac, iface: int, now: int, stale: int)

  function Route(e: Entry, at: Arrival, hop: int): Entry {
    e.(nextHop := at.mac, out := at.iface, hops := hop, stamp := at.now)
  }

  /** The reverse path to the RREQ's source. */
  function LearnReverse(e: Entry, p: Packet, at: Arrival): Entry
    requires p.Rreq? && p.src < |e.highest|
  {
    var newId := p.id > e.highest[p.src];
    var better := !(p.hop + 1 > e.hops || e.stamp + at.stale > at.now);
    var e' := if newId then e.(highest := e.highest[p.src := p.id]) else e;
    if !Routed(e) || (newId && p.forced) || better then Route(e', at, p.hop + 1) else e'
  }

  /** Remember the id under (destination, source). */
  function Mark(e: Entry, p: Packet): Entry
    requires p.Rreq? && p.src < |e.highest|
  {
    e.(highest := e.highest[p.src := p.id])
  }

  predicate Expired(e: Entry, at: Arrival) { e.stamp + at.stale < at.now }
  predicate Fresh(e: Entry, at: Arrival) { e.stamp + at.stale > at.now }

  function Reply(p: Packet): Packet
    requires p.Rreq?
  {
    Rrep(p.dst, p.src, 0, p.forced, p.id)
  }

  function SendBack(e: Entry, p: Packet): Send { Unicast(e.nextHop, e.out, p) }

  /** Answer an RREQ, and flood it on marked as answered if the source was unknown or farther. */
  function Answer(back: Entry, before: Entry, p: Packet): seq<Send>
    requires p.Rreq?
  {
    if p.replied then []
    else [SendBack(back, Reply(p))]
         + if !Routed(before) || before.hops > p.hop + 1 then [Flood(p.(hop := p.hop + 1, replied := true))] else []
  }

  /** An RREQ arrives at node u. */
  function OnRreq(u: nat, table: Table, p: Packet, at: Arrival): (Table, seq<Send>)
    requires p.Rreq? && Shaped(table, |table|) && p.src < |table| && p.dst < |table|
  {
    if p.src == u then (table, [])
    else
      var before := table[p.src];
      var learned := table[p.src := LearnReverse(before, p, at)];
      if p.id <= learned[p.dst].highest[p.src] then (learned, [])
      else
        var marked := learned[p.dst := Mark(learned[p.dst], p)];
        var d := marked[p.dst];
        var onward := [Flood(p.(hop := p.hop + 1))];
        if u == p.dst then (marked, Answer(marked[p.src], before, p))
        else if !Routed(d) || Expired(d, at) then (marked, onward)
        else if !Fresh(d, at) then (marked, [])
        else if p.forced then (marked, onward)
        else
          var stamped := marked[p.dst := d.(stamp := at.now)];
          (stamped, Answer(stamped[p.src], before, p))
  }

  /** The forward path to the RREP's source, if the RREP is worth it. */
  function LearnForward(e: Entry, p: Packet, at: Arrival): Entry
    requires p.Rrep? && p.src < |e.highest|
  {
    if p.forced || p.hop + 1 < e.hops || Expired(e, at) || !Routed(e) then
      Route(e, at, p.hop + 1).(highest := e.highest[p.src := p.id])
    else e
  }

  function Relayed(p: Packet): Packet
    requires p.Rrep?
  {
    Rrep(p.src, p.dst, p.hop + 1, p.forced, p.id)
  }

  /** An RREP arrives at node u. */
  function OnRrep(u: nat, table: Table, p: Packet, at: Arrival): (Table, seq<Send>)
    requires p.Rrep? && Shaped(table, |table|) && p.src < |table| && p.dst < |table|
  {
    var learned := table[p.src := LearnForward(table[p.src], p, at)];
    (learned, if p.dst == u then [] else [SendBack(learned[p.dst], Relayed(p))])
  }

  function Handle(u: nat, table: Table, p: Packet, at: Arrival): (Table, seq<Send>)
    requires Shaped(table, |table|) && p.src < |table| && p.dst < |table|
  {
    if p.Rreq? then OnRreq(u, table, p, at) else OnRrep(u, table, p, at)
  }

  lemma HandleShaped(u: nat, table: Table, p: Packet, at: Arrival)
    requires Shaped(table, |table|) && p.src < |table| && p.dst < |table|
    ensures |Handle(u, table, p, at).0| == |table| && Shaped(Handle(u, table, p, at).0, |table|)
  {
  }

  /** A client asks for a route: a forced one clears the old entry, and an unusable entry starts a flood. */
  function OnClient(u: nat, table: Table, id: int, dst: nat, forced: bool, now: int, stale: int): (Table, seq<Send>)
    requires dst < |table|
  {
    var cleared := if forced then table[dst := table[dst].(nextHop := NoMac())] else table;
    (cleared,
     if !Routed(cleared[dst]) || cleared[dst].stamp + stale < now then [Flood(Rreq(u, dst, 0, false, forced, id))] else [])
  }

  /** The node's variables and its event handlers, updating the table entry by entry. */
  class Router {
    const self: nat
    var table: Table
    var broadcastId: int

    constructor (self: nat, n: nat)
      ensures table == seq(n, _ => BlankEntry(n)) && broadcastId == 0 && this.self == self
    {
      this.self := self;
      table := seq(n, _ => BlankEntry(n));
      broadcastId := 0;
    }

    method SetRoute(x: nat, at: Arrival, hop: int)
      requires x < |table|
      modifies this`table
      ensures table == old(table)[x := Route(old(table)[x], at, hop)]
    {
      table := table[x := table[x].(nextHop := at.mac)];
      table := table[x := table[x].(out := at.iface)];
      table := table[x := table[x].(hops := hop)];
      table := table[x := table[x].(stamp := at.now)];
    }

    method UpdateReverse(p: Packet, at: Arrival)
      requires p.Rreq? && p.src < |table| && p.src < |table[p.src].highest|
      modifies this`table
      ensures table == old(table)[p.src := LearnReverse(old(table)[p.src], p, at)]
    {
      var hopCount := p.hop + 1;
      var updateReverse := true;
      if hopCount > table[p.src].hops || table[p.src].stamp + at.stale > at.now { updateReverse := false; }
      if p.id > table[p.src].highest[p.src] && p.forced { updateReverse := true; }
      if p.id > table[p.src].highest[p.src] {
        table := table[p.src := table[p.src].(highest := table[p.src].highest[p.src := p.id])];
      }
      if !Routed(table[p.src]) { updateReverse := true; }
      if updateReverse { SetRoute(p.src, at, hopCount); }
    }

    method ReceiveRreq(p: Packet, at: Arrival) returns (sends: seq<Send>)
      requires p.Rreq? && Shaped(table, |table|) && p.src < |table| && p.dst < |table|
      modifies this`table
      ensures (table, sends) == OnRreq(self, old(table), p, at)
    {
      sends := [];
      if p.src == self { return; }
      var before := table[p.src];
      UpdateReverse(p, at);
      if p.id > table[p.dst].highest[p.src] {
        table := table[p.dst := table[p.dst].(highest := table[p.dst].highest[p.src := p.id])];
      } else {
        return;
      }
      if self != p.dst {
        if !Routed(table[p.dst]) || table[p.dst].stamp + at.stale < at.now {
          sends := [Flood(p.(hop := p.hop + 1))];
        } else if table[p.dst].stamp + at.stale > at.now {
          if !p.forced {
            table := table[p.dst := table[p.dst].(stamp := at.now)];
            sends := SendReply(p, before);
          } else {
            sends := [Flood(p.(hop := p.hop + 1))];
          }
        }
      } else {
        sends := SendReply(p, before);
      }
    }

    method SendReply(p: Packet, before: Entry) returns (sends: seq<Send>)
      requires p.Rreq? && p.src < |table|
      ensures sends == Answer(table[p.src], before, p)
    {
      sends := [];
      if !p.replied {
        sends := [Unicast(table[p.src].nextHop, table[p.src].out, Rrep(p.dst, p.src, 0, p.forced, p.id))];
        if !Routed(before) || before.hops > p.hop + 1 {
          sends := sends + [Flood(p.(hop := p.hop + 1, replied := true))];
        }
      }
    }

    method ReceiveRrep(p: Packet, at: Arrival) returns (sends: seq<Send>)
      requires p.Rrep? && Shaped(table, |table|) && p.src < |table| && p.dst < |table|
      modifies this`table
      ensures (table, sends) == OnRrep(self, old(table), p, at)
    {
      var hopCount := p.hop + 1;
      if p.forced || hopCount < table[p.src].hops || table[p.src].stamp + at.stale < at.now || !Routed(table[p.src]) {
        SetRoute(p.src, at, hopCount);
        table := table[p.src := table[p.src].(highest := table[p.src].highest[p.src := p.id])];
      }
      assert table == old(table)[p.src := LearnForward(old(table)[p.src], p, at)];
      if p.dst == self {
        sends := [];
      } else {
        sends := [Unicast(table[p.dst].nextHop, table[p.dst].out, Relayed(p))];
      }
    }

    method ClientRequest(dst: nat, forced: bool, now: int, stale: int) returns (sends: seq<Send>)
      requires dst < |table|
      modifies this
      ensures broadcastId == old(broadcastId) + 1
      ensures (table, sends) == OnClient(self, old(table), broadcastId, dst, forced, now, stale)
    {
      broadcastId := broadcastId + 1;
      if forced { table := table[dst := table[dst].(nextHop := NoMac())]; }
      sends := [];
      if !Routed(table[dst]) || table[dst].stamp + stale < now {
        sends := [Flood(Rreq(self, dst, 0, false, forced, broadcastId))];
      }
    }
  }
}
