/**
  The reply's way up the tree: each relay finds a route back, leaves a forward pointer, and
  hands the reply to exactly one neighbour, one step closer to the source.
 */
module OdrReply {
  import opened OdrNode
  import opened OdrNet
  import opened OdrDiscovery
  import opened OdrCleanRun

  /** r is s after the node v = f.to.node took the reply f. */
  ghost predicate Forwarded(t: Topology, s: Net, r: Net, d: Discovery, f: Frame) {
    && ShapedNet(t, s) && ShapedNet(t, r) && Proper(t, d) && f.from in t.mac && f.to.node < t.n
    && r.tables == s.tables[f.to.node := r.tables[f.to.node]] && r.ids == s.ids
    && var before, after := s.tables[f.to.node], r.tables[f.to.node];
       && after == before[d.dst := after[d.dst]]
       && after[d.dst].nextHop == t.mac[f.from] && after[d.dst].out == f.to.iface
       && after[d.dst].hops == f.p.hop + 1
       && after[d.dst].highest[d.src] == before[d.dst].highest[d.src]
  }

  lemma ForwardedTree(t: Topology, s: Net, r: Net, d: Discovery, f: Frame, u: nat)
    requires Forwarded(t, s, r, d, f) && u < t.n
    ensures r.tables[u][d.src] == s.tables[u][d.src]
    ensures Reached(t, r, d, u) == Reached(t, s, d, u) && Depth(t, r, d, u) == Depth(t, s, d, u)
    ensures Spreads(t, r, d, u) == Spreads(t, s, d, u)
    ensures u != f.to.node ==> r.tables[u] == s.tables[u]
    ensures r.tables[u][d.dst].highest[d.src] == s.tables[u][d.dst].highest[d.src]
  {
  }

  lemma ForwardedParent(t: Topology, s: Net, r: Net, d: Discovery, f: Frame, u: nat, l: Link)
    requires Forwarded(t, s, r, d, f) && u < t.n && Parent(t, s, d, u, l)
    ensures Parent(t, r, d, u, l)
  {
    ForwardedTree(t, s, r, d, f, u);
    ForwardedTree(t, s, r, d, f, l.a.node);
  }

  lemma ForwardedKeepsTree(t: Topology, s: Net, r: Net, d: Discovery, f: Frame)
    requires Forwarded(t, s, r, d, f) && Tree(t, s, d) && Reached(t, s, d, f.to.node)
    ensures Tree(t, r, d)
  {
    forall u | 0 <= u < t.n && u != d.src
      ensures TreeAt(t, r, d, u)
    {
      ForwardedTree(t, s, r, d, f, u);
      if Reached(t, s, d, u) {
        assert TreeAt(t, s, d, u);
        var l :| Parent(t, s, d, u, l);
        ForwardedParent(t, s, r, d, f, u, l);
      } else {
        assert TreeAt(t, s, d, u);
      }
    }
  }

  /** Below the node that took the reply nothing changes. */
  lemma ForwardedBelow(t: Topology, s: Net, r: Net, d: Discovery, f: Frame, low: int)
    requires Forwarded(t, s, r, d, f) && low > Depth(t, s, d, f.to.node)
    ensures SameBelow(t, s, r, d, low)
  {
    forall u | 0 <= u < t.n && Reached(t, s, d, u) && Depth(t, s, d, u) >= low ensures SameNode(t, s, r, d, u) {
      ForwardedTree(t, s, r, d, f, u);
    }
  }

  /** A chain that runs down the tree is as long as the tree is deep there. */
  lemma {:induction false} DescentDepth(t: Topology, s: Net, d: Discovery, u: nat, k: nat)
    requires ShapedNet(t, s) && Proper(t, d) && Descent(t, s, d, u, k) && u < t.n
    ensures Depth(t, s, d, d.dst) == Depth(t, s, d, u) + k
    decreases k
  {
    if k > 0 {
      var l :| StepDown(t, s, d, u, l) && Descent(t, s, d, l.b.node, k - 1);
      DescentDepth(t, s, d, l.b.node, k - 1);
    }
  }

  lemma {:induction false} DescentIsChain(t: Topology, s: Net, d: Discovery, u: nat, k: nat)
    requires ShapedNet(t, s) && Proper(t, d) && Descent(t, s, d, u, k)
    ensures Chain(t, s, d, u, k)
    decreases k
  {
    if k > 0 {
      var l :| StepDown(t, s, d, u, l) && Descent(t, s, d, l.b.node, k - 1);
      DescentIsChain(t, s, d, l.b.node, k - 1);
    }
  }

  /** The chain behind the reply now starts one node closer to the source. */
  lemma ChainGrows(t: Topology, s: Net, r: Net, d: Discovery, f: Frame)
    requires Legal(t) && Forwarded(t, s, r, d, f) && ReplyFrame(t, s, d, f) && Reached(t, s, d, f.to.node)
    ensures Routed(r.tables[f.to.node][d.dst]) && Descent(t, r, d, f.to.node, f.p.hop + 1)
  {
    var low := Depth(t, s, d, f.from.node);
    ForwardedBelow(t, s, r, d, f, low);
    KeepDescent(t, s, r, d, f.from.node, f.p.hop, low);
    DescentDepth(t, s, d, f.from.node, f.p.hop);
    ForwardedTree(t, s, r, d, f, f.to.node);
    ForwardedTree(t, s, r, d, f, f.from.node);
    assert Link(f.to, f.from) in t.links;
    assert Link(f.from, f.to) in t.links by { assert Link(f.to, f.from) in t.links; }
    assert StepDown(t, r, d, f.to.node, Link(f.to, f.from));
  }

  lemma OtherRemains(frames: seq<Frame>, i: nat, l: Link)
    requires i < |frames| && frames[i].p.Rrep? && OnItsWay(frames, l)
    ensures OnItsWay(Without(frames, i), l)
  {
    var j :| 0 <= j < |frames| && frames[j].from == l.a && frames[j].to == l.b && frames[j].p.Rreq?;
    var k := if j < i then j else j - 1;
    assert Without(frames, i)[k] == frames[j];
  }

  lemma ForwardedCovered(t: Topology, s: Net, r: Net, d: Discovery, i: nat, more: seq<Frame>)
    requires i < |s.frames| && Forwarded(t, s, r, d, s.frames[i]) && Covered(t, s, d) && s.frames[i].p.Rrep?
    requires r.frames == Without(s.frames, i) + more
    ensures Covered(t, r, d)
  {
    forall l | l in t.links && l.a.node < t.n && l.b.node < t.n && Reached(t, r, d, l.a.node) && Spreads(t, r, d, l.a.node)
      ensures Reached(t, r, d, l.b.node) || OnItsWay(r.frames, l)
    {
      ForwardedTree(t, s, r, d, s.frames[i], l.a.node);
      ForwardedTree(t, s, r, d, s.frames[i], l.b.node);
      if !Reached(t, s, d, l.b.node) {
        OtherRemains(s.frames, i, l);
        StillThere(Without(s.frames, i), r.frames, l);
      }
    }
  }

  lemma ForwardedFloods(t: Topology, s: Net, r: Net, d: Discovery, i: nat, more: seq<Frame>)
    requires i < |s.frames| && Forwarded(t, s, r, d, s.frames[i]) && Floods(t, s, d)
    requires r.frames == Without(s.frames, i) + more && forall g :: g in more ==> g.p.Rrep?
    ensures Floods(t, r, d)
  {
    forall g | g in r.frames && g.p.Rreq? ensures FloodFrame(t, r, d, g) {
      assert g !in more;
      assert g in Without(s.frames, i);
      assert g in s.frames;
      assert FloodFrame(t, s, d, g);
      ForwardedTree(t, s, r, d, s.frames[i], g.from.node);
      ForwardedTree(t, s, r, d, s.frames[i], d.dst);
    }
  }

  /** The reply in flight, with what the invariant says about it. */
  lemma ReplyInFlight(t: Topology, s: Net, d: Discovery, i: nat)
    requires Clean(t, s, d) && i < |s.frames| && s.frames[i].p.Rrep?
    ensures Reached(t, s, d, d.dst) && !Routed(s.tables[d.src][d.dst]) && NewAnswers(s, d) == 1
    ensures Replies(s.frames) == [s.frames[i]] && Replies(Without(s.frames, i)) == []
    ensures ReplyFrame(t, s, d, s.frames[i]) && ShapedFrame(t, s.frames[i])
    ensures Reached(t, s, d, s.frames[i].to.node) && (d.forced || !Routed(s.tables[s.frames[i].to.node][d.dst]))
  {
    RepliesWithout(s.frames, i);
  }

  /** Handling the reply, before looking at where it goes. */
  lemma ReplyNext(t: Topology, s: Net, d: Discovery, i: nat, now: int)
    requires Legal(t) && Sane(t, s) && Proper(t, d) && i < |s.frames| && s.frames[i].p.Rrep?
    requires s.frames[i].p == ReplyPacket(d, s.frames[i].p.hop)
    requires d.forced || !Routed(s.tables[s.frames[i].to.node][d.dst])
    ensures var r, f := Next(t, s, Deliver(i, now)), s.frames[i];
      && Sane(t, r) && Forwarded(t, s, r, d, f) && r.log == s.log
      && r.frames == Without(s.frames, i) + AllFrames(t, f.to.node, Handled(t, s, f, now).1)
      && Handled(t, s, f, now).1 == if f.to.node == d.src then []
           else [SendBack(s.tables[f.to.node][d.src], ReplyPacket(d, f.p.hop + 1))]
  {
    StepSane(t, s, Deliver(i, now));
    ReplyTaken(t, s, d, s.frames[i], now);
    assert s.log + [] == s.log;
  }

  /** Tree, floods and coverage do not depend on the reply. */
  lemma ForwardedRest(t: Topology, s: Net, r: Net, d: Discovery, i: nat, more: seq<Frame>)
    requires i < |s.frames| && Forwarded(t, s, r, d, s.frames[i]) && s.frames[i].p.Rrep?
    requires Reached(t, s, d, s.frames[i].to.node)
    requires Tree(t, s, d) && Floods(t, s, d) && Covered(t, s, d)
    requires r.frames == Without(s.frames, i) + more && forall g :: g in more ==> g.p.Rrep?
    ensures Tree(t, r, d) && Floods(t, r, d) && Covered(t, r, d)
  {
    ForwardedKeepsTree(t, s, r, d, s.frames[i]);
    ForwardedCovered(t, s, r, d, i, more);
    ForwardedFloods(t, s, r, d, i, more);
  }

  // ----- arrival at the source

  lemma HomePhase(t: Topology, s: Net, r: Net, d: Discovery, f: Frame)
    requires Legal(t) && Forwarded(t, s, r, d, f) && ReplyFrame(t, s, d, f) && f.to.node == d.src
    requires Reached(t, s, d, d.dst) && NewAnswers(r, d) == 1 && Replies(r.frames) == []
    ensures ReplyPhase(t, r, d) && Routed(r.tables[d.src][d.dst])
  {
    ForwardedTree(t, s, r, d, f, d.dst);
    ChainGrows(t, s, r, d, f);
  }

  lemma HomeStep(t: Topology, s: Net, d: Discovery, i: nat, now: int)
    requires Clean(t, s, d) && i < |s.frames| && s.frames[i].p.Rrep? && s.frames[i].to.node == d.src
    ensures var r := Next(t, s, Deliver(i, now));
      Clean(t, r, d) && Replies(r.frames) == [] && Routed(r.tables[d.src][d.dst])
  {
    var f, r := s.frames[i], Next(t, s, Deliver(i, now));
    ReplyInFlight(t, s, d, i);
    ReplyNext(t, s, d, i, now);
    assert Without(s.frames, i) + [] == Without(s.frames, i);
    ForwardedRest(t, s, r, d, i, []);
    HomePhase(t, s, r, d, f);
  }

  // ----- one relay

  function RelayFrame(d: Discovery, f: Frame, l: Link): Frame {
    Frame(l.b, l.a, ReplyPacket(d, f.p.hop + 1))
  }

  /** A relay's route back exists, and its frame goes to the parent and nobody else. */
  lemma RelayFrames(t: Topology, s: Net, d: Discovery, f: Frame) returns (l: Link)
    requires Legal(t) && ShapedNet(t, s) && Proper(t, d) && Tree(t, s, d)
    requires f.to.node < t.n && f.to.node != d.src && Reached(t, s, d, f.to.node)
    ensures Parent(t, s, d, f.to.node, l) && l.b.node == f.to.node && Routed(s.tables[f.to.node][d.src])
    ensures AllFrames(t, f.to.node, [SendBack(s.tables[f.to.node][d.src], RelayFrame(d, f, l).p)]) == [RelayFrame(d, f, l)]
  {
    var v := f.to.node;
    assert TreeAt(t, s, d, v);
    l :| Parent(t, s, d, v, l);
    assert Link(l.b, l.a) in t.links;
    var p := RelayFrame(d, f, l).p;
    UnicastOne(t.links, t.mac, Link(l.b, l.a), p);
    OneSend(t, v, SendBack(s.tables[v][d.src], p));
  }

  lemma RelayReplyFrame(t: Topology, s: Net, r: Net, d: Discovery, f: Frame, l: Link)
    requires Legal(t) && Forwarded(t, s, r, d, f) && ReplyFrame(t, s, d, f) && f.to.node != d.src
    requires Reached(t, s, d, f.to.node) && Parent(t, s, d, f.to.node, l) && l.b.node == f.to.node
    ensures ReplyFrame(t, r, d, RelayFrame(d, f, l))
    ensures !Routed(s.tables[d.src][d.dst]) ==> !Routed(r.tables[d.src][d.dst])
  {
    var v := f.to.node;
    ChainGrows(t, s, r, d, f);
    ForwardedTree(t, s, r, d, f, v);
    ForwardedTree(t, s, r, d, f, l.a.node);
    ForwardedTree(t, s, r, d, f, d.src);
    ForwardedParent(t, s, r, d, f, v, l);
    forall u | 0 <= u < t.n && Routed(r.tables[u][d.dst]) && !d.forced
      ensures Reached(t, r, d, u) && Depth(t, r, d, u) > Depth(t, r, d, l.a.node)
    {
      ForwardedTree(t, s, r, d, f, u);
    }
  }

  /** Everything RelayPhase needs to know about the state before. */
  ghost predicate ReadyToRelay(t: Topology, s: Net, r: Net, d: Discovery, f: Frame, l: Link) {
    && Legal(t) && Forwarded(t, s, r, d, f) && ReplyFrame(t, s, d, f) && f.to.node != d.src
    && Reached(t, s, d, f.to.node) && Parent(t, s, d, f.to.node, l) && l.b.node == f.to.node
    && Reached(t, s, d, d.dst) && !Routed(s.tables[d.src][d.dst])
  }

  lemma RelayPhase(t: Topology, s: Net, r: Net, d: Discovery, f: Frame, l: Link)
    requires ReadyToRelay(t, s, r, d, f, l)
    requires NewAnswers(r, d) == 1 && Replies(r.frames) == [RelayFrame(d, f, l)]
    ensures ReplyPhase(t, r, d)
  {
    ForwardedTree(t, s, r, d, f, d.dst);
    RelayReplyFrame(t, s, r, d, f, l);
  }

  lemma RelayReplies(frames: seq<Frame>, g: Frame)
    requires Replies(frames) == [] && g.p.Rrep?
    ensures Replies(frames + [g]) == [g]
  {
    RepliesConcat(frames, [g]);
    assert [g][1..] == [];
  }

  /** A reply that reaches a relay and teaches it the forward route. */
  ghost predicate AtRelay(t: Topology, s: Net, d: Discovery, f: Frame) {
    && Legal(t) && ShapedNet(t, s) && ShapedFrame(t, f) && Proper(t, d) && Tree(t, s, d)
    && f.p.Rrep? && f.p == ReplyPacket(d, f.p.hop)
    && f.to.node != d.src && Reached(t, s, d, f.to.node) && (d.forced || !Routed(s.tables[f.to.node][d.dst]))
  }

  lemma RelayArrival(t: Topology, s: Net, d: Discovery, i: nat)
    requires Clean(t, s, d) && i < |s.frames| && s.frames[i].p.Rrep? && s.frames[i].to.node != d.src
    ensures AtRelay(t, s, d, s.frames[i])
  {
    ReplyInFlight(t, s, d, i);
  }

  /** The node's table with the forward route that the reply teaches. */
  ghost predicate Taken(t: Topology, s: Net, d: Discovery, f: Frame, table: Table)
    requires ShapedNet(t, s) && ShapedFrame(t, f) && Proper(t, d) && Shaped(table, t.n)
  {
    && table == s.tables[f.to.node][d.dst := table[d.dst]]
    && table[d.dst].nextHop == t.mac[f.from] && table[d.dst].out == f.to.iface && table[d.dst].hops == f.p.hop + 1
    && table[d.dst].highest[d.src] == s.tables[f.to.node][d.dst].highest[d.src]
  }

  /** What a relay makes of the reply: the forward route, and the reply for the parent. */
  lemma RelayHandled(t: Topology, s: Net, d: Discovery, f: Frame, now: int) returns (table: Table, sends: seq<Send>)
    requires AtRelay(t, s, d, f)
    ensures Handled(t, s, f, now) == (table, sends) && Shaped(table, t.n)
    ensures Taken(t, s, d, f, table)
    ensures sends == [SendBack(s.tables[f.to.node][d.src], ReplyPacket(d, f.p.hop + 1))]
  {
    ReplyTaken(t, s, d, f, now);
    table, sends := Handled(t, s, f, now).0, Handled(t, s, f, now).1;
  }

  lemma RelayOutcome(t: Topology, s: Net, r: Net, d: Discovery, i: nat, table: Table) returns (l: Link)
    requires i < |s.frames| && AtRelay(t, s, d, s.frames[i]) && ShapedNet(t, r) && Shaped(table, t.n)
    requires Taken(t, s, d, s.frames[i], table)
    requires Delivered(t, s, r, i, table, [SendBack(s.tables[s.frames[i].to.node][d.src],
                                                    ReplyPacket(d, s.frames[i].p.hop + 1))])
    ensures Forwarded(t, s, r, d, s.frames[i]) && r.log == s.log
    ensures r.frames == Without(s.frames, i) + [RelayFrame(d, s.frames[i], l)]
    ensures Parent(t, s, d, s.frames[i].to.node, l) && l.b.node == s.frames[i].to.node
    ensures Routed(s.tables[s.frames[i].to.node][d.src])
  {
    l := RelayFrames(t, s, d, s.frames[i]);
    assert s.log + [] == s.log;
  }

  lemma RelayNext(t: Topology, s: Net, d: Discovery, i: nat, now: int) returns (r: Net, l: Link)
    requires Sane(t, s) && i < |s.frames| && AtRelay(t, s, d, s.frames[i])
    ensures r == Next(t, s, Deliver(i, now)) && Sane(t, r) && Forwarded(t, s, r, d, s.frames[i]) && r.log == s.log
    ensures r.frames == Without(s.frames, i) + [RelayFrame(d, s.frames[i], l)]
    ensures Parent(t, s, d, s.frames[i].to.node, l) && l.b.node == s.frames[i].to.node
    ensures Routed(s.tables[s.frames[i].to.node][d.src])
  {
    var table, sends := RelayHandled(t, s, d, s.frames[i], now);
    r := DeliverAs(t, s, i, now, table, sends);
    l := RelayOutcome(t, s, r, d, i, table);
  }

  lemma RelayReady(t: Topology, s: Net, r: Net, d: Discovery, i: nat, l: Link)
    requires Clean(t, s, d) && i < |s.frames| && s.frames[i].p.Rrep? && s.frames[i].to.node != d.src
    requires Forwarded(t, s, r, d, s.frames[i])
    requires Parent(t, s, d, s.frames[i].to.node, l) && l.b.node == s.frames[i].to.node
    ensures ReadyToRelay(t, s, r, d, s.frames[i], l) && NewAnswers(s, d) == 1 && Replies(Without(s.frames, i)) == []
  {
    ReplyInFlight(t, s, d, i);
  }

  lemma ReceiverReached(t: Topology, s: Net, d: Discovery, i: nat)
    requires Clean(t, s, d) && i < |s.frames| && s.frames[i].p.Rrep?
    ensures Reached(t, s, d, s.frames[i].to.node)
  {
    ReplyInFlight(t, s, d, i);
  }

  lemma RelayRest(t: Topology, s: Net, r: Net, d: Discovery, i: nat, g: Frame)
    requires Clean(t, s, d) && i < |s.frames| && s.frames[i].p.Rrep? && g.p.Rrep?
    requires Forwarded(t, s, r, d, s.frames[i]) && r.frames == Without(s.frames, i) + [g]
    ensures Tree(t, r, d) && Floods(t, r, d) && Covered(t, r, d)
  {
    ReceiverReached(t, s, d, i);
    assert forall x :: x in [g] ==> x == g;
    ForwardedRest(t, s, r, d, i, [g]);
  }

  lemma RelayClean(t: Topology, s: Net, r: Net, d: Discovery, i: nat, l: Link)
    requires Clean(t, s, d) && i < |s.frames| && s.frames[i].p.Rrep? && s.frames[i].to.node != d.src
    requires Sane(t, r) && Forwarded(t, s, r, d, s.frames[i]) && r.log == s.log
    requires r.frames == Without(s.frames, i) + [RelayFrame(d, s.frames[i], l)]
    requires Parent(t, s, d, s.frames[i].to.node, l) && l.b.node == s.frames[i].to.node
    ensures Clean(t, r, d) && Replies(r.frames) == [RelayFrame(d, s.frames[i], l)]
  {
    RelayRest(t, s, r, d, i, RelayFrame(d, s.frames[i], l));
    RelayReady(t, s, r, d, i, l);
    RelayReplies(Without(s.frames, i), RelayFrame(d, s.frames[i], l));
    RelayPhase(t, s, r, d, s.frames[i], l);
  }

  /** The reply is never relayed through an empty entry, and goes to the relay's parent only. */
  lemma RelayStep(t: Topology, s: Net, d: Discovery, i: nat, now: int) returns (l: Link)
    requires Clean(t, s, d) && i < |s.frames| && s.frames[i].p.Rrep? && s.frames[i].to.node != d.src
    ensures var r, v := Next(t, s, Deliver(i, now)), s.frames[i].to.node;
      && Clean(t, r, d) && Replies(r.frames) == [RelayFrame(d, s.frames[i], l)]
      && Routed(s.tables[v][d.src]) && Parent(t, r, d, v, l) && l.b.node == v
  {
    RelayArrival(t, s, d, i);
    var r;
    r, l := RelayNext(t, s, d, i, now);
    RelayClean(t, s, r, d, i, l);
    ForwardedParent(t, s, r, d, s.frames[i], s.frames[i].to.node, l);
  }
}
