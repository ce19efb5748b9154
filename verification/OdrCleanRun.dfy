/**
  The steps of an undisturbed discovery that an RREQ takes: copies that are ignored, nodes that
  join the tree, and the destination's answer. Each keeps the invariant.
 */
module OdrCleanRun {
  import opened OdrNode
  import opened OdrNet
  import opened OdrFlood
  import opened OdrDiscovery

  // ----- a copy that is ignored

  lemma IgnoreNext(t: Topology, s: Net, d: Discovery, i: nat, now: int)
    requires Clean(t, s, d) && i < |s.frames| && Timely(t, d, now)
    requires s.frames[i].p.Rreq? && Reached(t, s, d, s.frames[i].to.node)
    ensures Next(t, s, Deliver(i, now)) == s.(frames := Without(s.frames, i))
  {
    var f := s.frames[i];
    assert f in s.frames;
    CopyIgnored(t, s, d, f, now);
    assert s.tables[f.to.node := s.tables[f.to.node]] == s.tables;
    assert Without(s.frames, i) + [] == Without(s.frames, i) && s.log + [] == s.log;
  }

  lemma IgnoreCovered(t: Topology, s: Net, d: Discovery, i: nat)
    requires ShapedNet(t, s) && Proper(t, d) && Covered(t, s, d) && i < |s.frames|
    requires s.frames[i].to.node < t.n && Reached(t, s, d, s.frames[i].to.node)
    ensures Covered(t, s.(frames := Without(s.frames, i)), d)
  {
    var r := s.(frames := Without(s.frames, i));
    forall l | l in t.links && l.a.node < t.n && l.b.node < t.n && Reached(t, r, d, l.a.node) && Spreads(t, r, d, l.a.node)
      ensures Reached(t, r, d, l.b.node) || OnItsWay(r.frames, l)
    {
      assert Reached(t, s, d, l.a.node) && Spreads(t, s, d, l.a.node);
      if !Reached(t, s, d, l.b.node) { Remains(s.frames, i, l); }
    }
  }

  lemma IgnoreFloods(t: Topology, s: Net, d: Discovery, i: nat)
    requires ShapedNet(t, s) && Proper(t, d) && Floods(t, s, d) && i < |s.frames|
    ensures Floods(t, s.(frames := Without(s.frames, i)), d)
  {
    var r := s.(frames := Without(s.frames, i));
    forall g | g in r.frames && g.p.Rreq? ensures FloodFrame(t, r, d, g) {
      assert g in s.frames;
      assert FloodFrame(t, s, d, g);
    }
  }

  lemma IgnoreStep(t: Topology, s: Net, d: Discovery, i: nat, now: int)
    requires Clean(t, s, d) && i < |s.frames| && Timely(t, d, now)
    requires s.frames[i].p.Rreq? && Reached(t, s, d, s.frames[i].to.node)
    ensures Clean(t, Next(t, s, Deliver(i, now)), d)
  {
    var r := s.(frames := Without(s.frames, i));
    IgnoreNext(t, s, d, i, now);
    StepSane(t, s, Deliver(i, now));
    assert SameTables(t, s, r);
    KeepTree(t, s, r, d);
    IgnoreCovered(t, s, d, i);
    IgnoreFloods(t, s, d, i);
    RepliesWithout(s.frames, i);
    KeepReply(t, s, r, d);
  }

  /** Same tables: same tree. */
  ghost predicate SameTables(t: Topology, s: Net, r: Net) {
    ShapedNet(t, s) && r.tables == s.tables && r.ids == s.ids
  }

  lemma KeepTree(t: Topology, s: Net, r: Net, d: Discovery)
    requires SameTables(t, s, r) && Proper(t, d) && Tree(t, s, d)
    ensures Tree(t, r, d)
  {
    forall u | 0 <= u < t.n && u != d.src
      ensures TreeAt(t, r, d, u)
    {
      if Reached(t, s, d, u) {
        assert TreeAt(t, s, d, u);
        var l :| Parent(t, s, d, u, l);
        assert Parent(t, r, d, u, l);
      } else {
        assert TreeAt(t, s, d, u);
      }
    }
  }

  predicate SameHop(e: Entry, e': Entry) { e'.nextHop == e.nextHop && e'.out == e.out && e'.hops == e.hops }

  /** Tree nodes at this depth or below keep their place and their forward pointers. */
  ghost predicate SameBelow(t: Topology, s: Net, r: Net, d: Discovery, low: int) {
    && ShapedNet(t, s) && ShapedNet(t, r) && Proper(t, d)
    && forall u :: 0 <= u < t.n && Reached(t, s, d, u) && Depth(t, s, d, u) >= low ==> SameNode(t, s, r, d, u)
  }

  predicate SameNode(t: Topology, s: Net, r: Net, d: Discovery, u: nat)
    requires ShapedNet(t, s) && ShapedNet(t, r) && Proper(t, d) && u < t.n
  {
    Reached(t, r, d, u) && Depth(t, r, d, u) == Depth(t, s, d, u) && SameHop(s.tables[u][d.dst], r.tables[u][d.dst])
  }

  lemma KeepStepDown(t: Topology, s: Net, r: Net, d: Discovery, u: nat, l: Link, low: int)
    requires SameBelow(t, s, r, d, low) && StepDown(t, s, d, u, l) && Depth(t, s, d, u) >= low
    ensures StepDown(t, r, d, u, l) && SameHop(s.tables[u][d.dst], r.tables[u][d.dst])
  {
    assert SameNode(t, s, r, d, u) && SameNode(t, s, r, d, l.b.node);
  }

  /** Same forward pointers: same chains. */
  lemma {:induction false} KeepDescent(t: Topology, s: Net, r: Net, d: Discovery, u: nat, k: nat, low: int)
    requires SameBelow(t, s, r, d, low) && Descent(t, s, d, u, k) && u < t.n && Depth(t, s, d, u) >= low
    ensures Descent(t, r, d, u, k)
    decreases k
  {
    if k > 0 {
      var l :| StepDown(t, s, d, u, l) && Descent(t, s, d, l.b.node, k - 1);
      KeepStepDown(t, s, r, d, u, l, low);
      KeepDescent(t, s, r, d, l.b.node, k - 1, low);
    }
  }

  lemma KeepReply(t: Topology, s: Net, r: Net, d: Discovery)
    requires SameTables(t, s, r) && Proper(t, d) && ReplyPhase(t, s, d)
    requires Replies(r.frames) == Replies(s.frames) && r.log == s.log
    ensures ReplyPhase(t, r, d)
  {
    if Reached(t, s, d, d.dst) {
      if Routed(s.tables[d.src][d.dst]) {
        KeepDescent(t, s, r, d, d.src, s.tables[d.src][d.dst].hops, 0);
      } else {
        KeepReplyFrame(t, s, r, d, Replies(s.frames)[0]);
      }
    }
  }

  lemma KeepReplyFrame(t: Topology, s: Net, r: Net, d: Discovery, f: Frame)
    requires SameTables(t, s, r) && Proper(t, d) && ReplyFrame(t, s, d, f)
    ensures ReplyFrame(t, r, d, f)
  {
    KeepDescent(t, s, r, d, f.from.node, f.p.hop, Depth(t, s, d, f.from.node));
  }

  // ----- a node joins

  /** r is s after node u = f.to.node joined the tree through frame f. */
  ghost predicate Grown(t: Topology, s: Net, r: Net, d: Discovery, f: Frame, now: int) {
    && ShapedNet(t, s) && ShapedNet(t, r) && Proper(t, d) && ShapedFrame(t, f)
    && !Reached(t, s, d, f.to.node)
    && r.tables == s.tables[f.to.node := r.tables[f.to.node]] && r.ids == s.ids
    && Joined(t, s, d, f, now, r.tables[f.to.node])
  }

  lemma GrownReached(t: Topology, s: Net, r: Net, d: Discovery, f: Frame, now: int, v: nat)
    requires Grown(t, s, r, d, f, now) && v < t.n
    ensures Reached(t, r, d, v) <==> Reached(t, s, d, v) || v == f.to.node
    ensures v != f.to.node ==>
      Depth(t, r, d, v) == Depth(t, s, d, v) && r.tables[v] == s.tables[v] && Spreads(t, r, d, v) == Spreads(t, s, d, v)
    ensures v == f.to.node ==> Depth(t, r, d, v) == f.p.hop + 1 && Spreads(t, r, d, v) == PassesOn(t, d, f, now)
    ensures SameHop(s.tables[v][d.dst], r.tables[v][d.dst])
  {
  }

  lemma GrownBelow(t: Topology, s: Net, r: Net, d: Discovery, f: Frame, now: int, low: int)
    requires Grown(t, s, r, d, f, now)
    ensures SameBelow(t, s, r, d, low)
  {
    forall u | 0 <= u < t.n && Reached(t, s, d, u) && Depth(t, s, d, u) >= low ensures SameNode(t, s, r, d, u) {
      GrownReached(t, s, r, d, f, now, u);
    }
  }

  lemma GrownParent(t: Topology, s: Net, r: Net, d: Discovery, f: Frame, now: int, v: nat, l: Link)
    requires Grown(t, s, r, d, f, now) && v < t.n && v != f.to.node && Parent(t, s, d, v, l)
    ensures Parent(t, r, d, v, l)
  {
    GrownReached(t, s, r, d, f, now, v);
    GrownReached(t, s, r, d, f, now, l.a.node);
  }

  lemma NewParent(t: Topology, s: Net, r: Net, d: Discovery, f: Frame, now: int)
    requires Legal(t) && Grown(t, s, r, d, f, now) && f.p.Rreq? && FloodFrame(t, s, d, f)
    ensures Parent(t, r, d, f.to.node, Link(f.from, f.to))
  {
    GrownReached(t, s, r, d, f, now, f.from.node);
    GrownReached(t, s, r, d, f, now, f.to.node);
  }

  lemma GrownTree(t: Topology, s: Net, r: Net, d: Discovery, f: Frame, now: int)
    requires Legal(t) && Grown(t, s, r, d, f, now) && f.p.Rreq? && FloodFrame(t, s, d, f)
    requires Tree(t, s, d) && Timely(t, d, now)
    ensures Tree(t, r, d)
  {
    forall v | 0 <= v < t.n && v != d.src
      ensures TreeAt(t, r, d, v)
    {
      GrownReached(t, s, r, d, f, now, v);
      if v == f.to.node {
        assert TreeAt(t, s, d, v);
        NewParent(t, s, r, d, f, now);
        DepthNonNegative(t, s, d, f.from.node);
      } else if Reached(t, s, d, v) {
        assert TreeAt(t, s, d, v);
        var l :| Parent(t, s, d, v, l);
        GrownParent(t, s, r, d, f, now, v, l);
      } else {
        assert TreeAt(t, s, d, v);
      }
    }
  }

  lemma DepthNonNegative(t: Topology, s: Net, d: Discovery, u: nat)
    requires ShapedNet(t, s) && Proper(t, d) && Tree(t, s, d) && u < t.n && Reached(t, s, d, u)
    ensures Depth(t, s, d, u) >= 0
    ensures u != d.src ==> InTree(t, s, d, u)
  {
    if u != d.src { assert TreeAt(t, s, d, u); }
  }

  lemma GrownFlood(t: Topology, s: Net, r: Net, d: Discovery, f: Frame, now: int, g: Frame)
    requires Legal(t) && Grown(t, s, r, d, f, now) && g.p.Rreq? && FloodFrame(t, s, d, g)
    ensures FloodFrame(t, r, d, g)
  {
    GrownReached(t, s, r, d, f, now, g.from.node);
    GrownReached(t, s, r, d, f, now, d.dst);
  }

  /** What a node passes on, if it does. */
  function Onward(t: Topology, d: Discovery, f: Frame, replied: bool, spread: bool): seq<Frame> {
    if spread then FloodFrames(t.links, f.to.node, Request(d, f.p.hop + 1, replied)) else []
  }

  lemma NewFlood(t: Topology, s: Net, r: Net, d: Discovery, f: Frame, now: int, replied: bool, g: Frame)
    requires Legal(t) && Grown(t, s, r, d, f, now) && (replied ==> Reached(t, r, d, d.dst))
    requires g in FloodFrames(t.links, f.to.node, Request(d, f.p.hop + 1, replied))
    ensures g.p.Rreq? && FloodFrame(t, r, d, g)
  {
    FloodMember(t.links, f.to.node, Request(d, f.p.hop + 1, replied), g);
    GrownReached(t, s, r, d, f, now, f.to.node);
  }

  lemma OnwardOnItsWay(t: Topology, d: Discovery, f: Frame, replied: bool, frames: seq<Frame>, l: Link)
    requires l in t.links && l.a.node == f.to.node
    requires forall g :: g in Onward(t, d, f, replied, true) ==> g in frames
    ensures OnItsWay(frames, l)
  {
    var g := Frame(l.a, l.b, Request(d, f.p.hop + 1, replied));
    FloodMember(t.links, f.to.node, g.p, g);
    assert g in frames;
  }

  lemma GrownCovered(t: Topology, s: Net, r: Net, d: Discovery, i: nat, now: int, replied: bool)
    requires Legal(t) && i < |s.frames| && Grown(t, s, r, d, s.frames[i], now) && Covered(t, s, d)
    requires var f := s.frames[i]; forall g ::
      g in Without(s.frames, i) || g in Onward(t, d, f, replied, PassesOn(t, d, f, now)) ==> g in r.frames
    ensures Covered(t, r, d)
  {
    var f := s.frames[i];
    forall l | l in t.links && l.a.node < t.n && l.b.node < t.n && Reached(t, r, d, l.a.node) && Spreads(t, r, d, l.a.node)
      ensures Reached(t, r, d, l.b.node) || OnItsWay(r.frames, l)
    {
      GrownReached(t, s, r, d, f, now, l.a.node);
      GrownReached(t, s, r, d, f, now, l.b.node);
      if l.a.node == f.to.node {
        OnwardOnItsWay(t, d, f, replied, r.frames, l);
      } else if !Reached(t, r, d, l.b.node) {
        Remains(s.frames, i, l);
        StillThere(Without(s.frames, i), r.frames, l);
      }
    }
  }

  lemma StillThere(a: seq<Frame>, b: seq<Frame>, l: Link)
    requires OnItsWay(a, l) && forall g :: g in a ==> g in b
    ensures OnItsWay(b, l)
  {
    var i :| 0 <= i < |a| && a[i].from == l.a && a[i].to == l.b && a[i].p.Rreq?;
    assert a[i] in b;
  }

  /** The frames after a join: what was there, perhaps a reply, and what the node passes on. */
  ghost predicate JoinFrames(t: Topology, s: Net, r: Net, d: Discovery, i: nat, replied: bool, spread: bool, unicast: seq<Frame>)
    requires i < |s.frames|
  {
    r.frames == Without(s.frames, i) + (unicast + Onward(t, d, s.frames[i], replied, spread))
  }

  lemma JoinMember(t: Topology, s: Net, r: Net, d: Discovery, i: nat, replied: bool, spread: bool, unicast: seq<Frame>, g: Frame)
    requires i < |s.frames| && JoinFrames(t, s, r, d, i, replied, spread, unicast)
    ensures g in r.frames <==>
      g in Without(s.frames, i) || g in unicast || g in Onward(t, d, s.frames[i], replied, spread)
    ensures g in Without(s.frames, i) ==> g in s.frames
  {
  }

  lemma {:induction false} GrownFloods(t: Topology, s: Net, r: Net, d: Discovery, i: nat, now: int, replied: bool, spread: bool, unicast: seq<Frame>)
    requires Legal(t) && i < |s.frames| && Grown(t, s, r, d, s.frames[i], now) && Floods(t, s, d)
    requires JoinFrames(t, s, r, d, i, replied, spread, unicast)
    requires (replied ==> Reached(t, r, d, d.dst)) && forall g :: g in unicast ==> g.p.Rrep?
    ensures Floods(t, r, d)
  {
    forall g | g in r.frames && g.p.Rreq? ensures FloodFrame(t, r, d, g) {
      JoinMember(t, s, r, d, i, replied, spread, unicast, g);
      assert g !in unicast;
      if g in s.frames { FloodOf(t, s, d, g); }
      FloodAfterJoin(t, s, r, d, s.frames[i], now, replied, spread, g);
    }
  }

  lemma FloodAfterJoin(t: Topology, s: Net, r: Net, d: Discovery, f: Frame, now: int, replied: bool, spread: bool, g: Frame)
    requires Legal(t) && Grown(t, s, r, d, f, now) && (replied ==> Reached(t, r, d, d.dst)) && g.p.Rreq?
    requires FloodFrame(t, s, d, g) || g in Onward(t, d, f, replied, spread)
    ensures FloodFrame(t, r, d, g)
  {
    if FloodFrame(t, s, d, g) {
      GrownFlood(t, s, r, d, f, now, g);
    } else {
      NewFlood(t, s, r, d, f, now, replied, g);
    }
  }

  lemma FloodOf(t: Topology, s: Net, d: Discovery, g: Frame)
    requires ShapedNet(t, s) && Proper(t, d) && Floods(t, s, d) && g in s.frames && g.p.Rreq?
    ensures FloodFrame(t, s, d, g)
  {
  }

  lemma JoinCovered(t: Topology, s: Net, r: Net, d: Discovery, i: nat, now: int, replied: bool, unicast: seq<Frame>)
    requires Legal(t) && i < |s.frames| && Grown(t, s, r, d, s.frames[i], now) && Covered(t, s, d)
    requires JoinFrames(t, s, r, d, i, replied, PassesOn(t, d, s.frames[i], now), unicast)
    ensures Covered(t, r, d)
  {
    var f, spread := s.frames[i], PassesOn(t, d, s.frames[i], now);
    forall g | g in Without(s.frames, i) || g in Onward(t, d, f, replied, spread)
      ensures g in r.frames
    {
      JoinMember(t, s, r, d, i, replied, spread, unicast, g);
    }
    GrownCovered(t, s, r, d, i, now, replied);
  }

  /** A reply already on its way, or already home, is not disturbed. */
  lemma GrownReply(t: Topology, s: Net, r: Net, d: Discovery, f: Frame, now: int)
    requires Grown(t, s, r, d, f, now) && ReplyPhase(t, s, d) && f.to.node != d.dst
    requires Replies(r.frames) == Replies(s.frames) && Answers(r.log) == Answers(s.log)
    ensures ReplyPhase(t, r, d)
  {
    GrownReached(t, s, r, d, f, now, d.dst);
    GrownReached(t, s, r, d, f, now, d.src);
    if !Reached(t, s, d, d.dst) {
      forall u | 0 <= u < t.n && !d.forced ensures !Routed(r.tables[u][d.dst]) { GrownReached(t, s, r, d, f, now, u); }
    } else if Routed(s.tables[d.src][d.dst]) {
      GrownBelow(t, s, r, d, f, now, 0);
      KeepDescent(t, s, r, d, d.src, s.tables[d.src][d.dst].hops, 0);
    } else {
      GrownReplyFrame(t, s, r, d, f, now, Replies(s.frames)[0]);
    }
  }

  lemma GrownReplyFrame(t: Topology, s: Net, r: Net, d: Discovery, f: Frame, now: int, g: Frame)
    requires Grown(t, s, r, d, f, now) && ReplyFrame(t, s, d, g)
    ensures ReplyFrame(t, r, d, g)
  {
    var low := Depth(t, s, d, g.from.node);
    GrownBelow(t, s, r, d, f, now, low);
    KeepDescent(t, s, r, d, g.from.node, g.p.hop, low);
    GrownParent(t, s, r, d, f, now, g.from.node, Link(g.to, g.from));
    GrownReached(t, s, r, d, f, now, g.from.node);
    GrownReached(t, s, r, d, f, now, g.to.node);
    forall u | 0 <= u < t.n && Routed(r.tables[u][d.dst]) && !d.forced
      ensures Reached(t, r, d, u) && Depth(t, r, d, u) > Depth(t, r, d, g.to.node)
    {
      GrownReached(t, s, r, d, f, now, u);
    }
  }

  // ----- the step of a node that joins

  /** A request that reaches a new node, whichever node it is. */
  ghost predicate Arriving(t: Topology, s: Net, d: Discovery, f: Frame) {
    && Legal(t) && ShapedNet(t, s) && Proper(t, d) && Tree(t, s, d)
    && f.p.Rreq? && FloodFrame(t, s, d, f) && !Reached(t, s, d, f.to.node)
  }

  lemma NewArrival(t: Topology, s: Net, d: Discovery, i: nat)
    requires Clean(t, s, d) && i < |s.frames|
    requires s.frames[i].p.Rreq? && !Reached(t, s, d, s.frames[i].to.node)
    ensures Arriving(t, s, d, s.frames[i])
  {
    assert s.frames[i] in s.frames;
  }

  /** r is s after frame i was handled with this outcome. */
  ghost predicate Delivered(t: Topology, s: Net, r: Net, i: nat, table: Table, sends: seq<Send>)
    requires i < |s.frames| && s.frames[i].to.node < |s.tables|
  {
    var f := s.frames[i];
    && r.ids == s.ids && r.tables == s.tables[f.to.node := table]
    && r.frames == Without(s.frames, i) + AllFrames(t, f.to.node, sends)
    && r.log == s.log + Events(f.to.node, f.p, sends)
  }

  lemma DeliverAs(t: Topology, s: Net, i: nat, now: int, table: Table, sends: seq<Send>) returns (r: Net)
    requires Legal(t) && Sane(t, s) && i < |s.frames| && Handled(t, s, s.frames[i], now) == (table, sends)
    ensures r == Next(t, s, Deliver(i, now)) && Sane(t, r) && Delivered(t, s, r, i, table, sends)
  {
    r := Next(t, s, Deliver(i, now));
    StepSane(t, s, Deliver(i, now));
  }

  /** What a relay sends on its first copy, on the wire and in the log. */
  lemma JoinSends(t: Topology, d: Discovery, f: Frame, now: int, table: Table)
    requires Proper(t, d) && f.to.node < t.n && d.src < |table| && f.p.Rreq? && f.to.node != d.dst
    ensures var sends, u := FirstSends(t, d, f, now, table), f.to.node;
      && AllFrames(t, u, sends) == [] + Onward(t, d, f, f.p.replied, PassesOn(t, d, f, now))
      && Events(u, f.p, sends) == if PassesOn(t, d, f, now) then [Flooded(u, KeyOf(f.p))] else []
  {
    var u, p := f.to.node, Request(d, f.p.hop + 1, f.p.replied);
    var onward := Onward(t, d, f, f.p.replied, PassesOn(t, d, f, now));
    assert [] + onward == onward;
    if PassesOn(t, d, f, now) {
      assert FirstSends(t, d, f, now, table) == [Flood(p)];
      OneSend(t, u, Flood(p));
      EventsShape(u, f.p, [Flood(p)]);
    } else {
      assert FirstSends(t, d, f, now, table) == [];
    }
  }

  lemma FirstHandled(t: Topology, s: Net, d: Discovery, f: Frame, now: int) returns (table: Table, sends: seq<Send>)
    requires Arriving(t, s, d, f)
    ensures Handled(t, s, f, now) == (table, sends) && Joined(t, s, d, f, now, table)
    ensures sends == FirstSends(t, d, f, now, table)
  {
    FirstCopy(t, s, d, f, now);
    table, sends := Handled(t, s, f, now).0, Handled(t, s, f, now).1;
  }

  lemma AnswersKept(log: seq<Event>, u: nat, k: Key, flooded: bool)
    ensures Answers(log + if flooded then [Flooded(u, k)] else []) == Answers(log)
  {
    if flooded { AnswersSnoc(log, Flooded(u, k)); } else { assert log + [] == log; }
  }

  lemma JoinOutcome(t: Topology, s: Net, r: Net, d: Discovery, i: nat, now: int, table: Table)
    requires ShapedNet(t, s) && ShapedNet(t, r) && Proper(t, d)
    requires i < |s.frames| && ShapedFrame(t, s.frames[i]) && !Reached(t, s, d, s.frames[i].to.node)
    requires s.frames[i].p.Rreq? && s.frames[i].to.node != d.dst && Joined(t, s, d, s.frames[i], now, table)
    requires Delivered(t, s, r, i, table, FirstSends(t, d, s.frames[i], now, table))
    ensures Grown(t, s, r, d, s.frames[i], now) && Answers(r.log) == Answers(s.log)
    ensures JoinFrames(t, s, r, d, i, s.frames[i].p.replied, PassesOn(t, d, s.frames[i], now), [])
  {
    var f := s.frames[i];
    JoinSends(t, d, f, now, table);
    AnswersKept(s.log, f.to.node, KeyOf(f.p), PassesOn(t, d, f, now));
  }

  /** What the join looks like on the wire and in the log. */
  lemma JoinNext(t: Topology, s: Net, d: Discovery, i: nat, now: int) returns (r: Net)
    requires Sane(t, s) && i < |s.frames| && Arriving(t, s, d, s.frames[i]) && s.frames[i].to.node != d.dst
    ensures r == Next(t, s, Deliver(i, now)) && Sane(t, r)
    ensures Grown(t, s, r, d, s.frames[i], now) && Answers(r.log) == Answers(s.log)
    ensures JoinFrames(t, s, r, d, i, s.frames[i].p.replied, PassesOn(t, d, s.frames[i], now), [])
  {
    var table, sends := FirstHandled(t, s, d, s.frames[i], now);
    r := DeliverAs(t, s, i, now, table, sends);
    JoinOutcome(t, s, r, d, i, now, table);
  }

  lemma OneSend(t: Topology, u: nat, a: Send)
    ensures AllFrames(t, u, [a]) == FramesOf(t, u, a)
  {
    assert [a][1..] == [];
    assert FramesOf(t, u, a) + [] == FramesOf(t, u, a);
  }

  lemma OnwardHasNoReplies(t: Topology, d: Discovery, f: Frame, replied: bool, spread: bool)
    ensures Replies(Onward(t, d, f, replied, spread)) == []
  {
    FloodHasNoReplies(t, f.to.node, Request(d, f.p.hop + 1, replied));
  }

  lemma JoinReplies(t: Topology, s: Net, r: Net, d: Discovery, i: nat, replied: bool, spread: bool)
    requires i < |s.frames| && s.frames[i].p.Rreq? && JoinFrames(t, s, r, d, i, replied, spread, [])
    ensures Replies(r.frames) == Replies(s.frames)
  {
    var onward := Onward(t, d, s.frames[i], replied, spread);
    RepliesWithout(s.frames, i);
    OnwardHasNoReplies(t, d, s.frames[i], replied, spread);
    assert [] + onward == onward;
    RepliesConcat(Without(s.frames, i), onward);
  }

  lemma JoinClean(t: Topology, s: Net, r: Net, d: Discovery, i: nat, now: int)
    requires Clean(t, s, d) && i < |s.frames| && Timely(t, d, now) && Sane(t, r)
    requires s.frames[i].p.Rreq? && FloodFrame(t, s, d, s.frames[i]) && s.frames[i].to.node != d.dst
    requires Grown(t, s, r, d, s.frames[i], now) && Answers(r.log) == Answers(s.log)
    requires JoinFrames(t, s, r, d, i, s.frames[i].p.replied, PassesOn(t, d, s.frames[i], now), [])
    ensures Clean(t, r, d)
  {
    var f, spread := s.frames[i], PassesOn(t, d, s.frames[i], now);
    GrownReached(t, s, r, d, f, now, d.dst);
    GrownTree(t, s, r, d, f, now);
    GrownFloods(t, s, r, d, i, now, f.p.replied, spread, []);
    JoinCovered(t, s, r, d, i, now, f.p.replied, []);
    JoinReplies(t, s, r, d, i, f.p.replied, spread);
    GrownReply(t, s, r, d, f, now);
  }

  lemma JoinStep(t: Topology, s: Net, d: Discovery, i: nat, now: int)
    requires Clean(t, s, d) && i < |s.frames| && Timely(t, d, now)
    requires s.frames[i].p.Rreq? && !Reached(t, s, d, s.frames[i].to.node) && s.frames[i].to.node != d.dst
    ensures Clean(t, Next(t, s, Deliver(i, now)), d)
  {
    NewArrival(t, s, d, i);
    var r := JoinNext(t, s, d, i, now);
    JoinClean(t, s, r, d, i, now);
  }

  // ----- the step of the destination

  /** The reply's first frame goes to the node the request came from. */
  lemma FirstReply(t: Topology, f: Frame, e: Entry, p: Packet)
    requires Legal(t) && ShapedFrame(t, f) && e.nextHop == t.mac[f.from] && e.out == f.to.iface
    ensures FramesOf(t, f.to.node, SendBack(e, p)) == [Frame(f.to, f.from, p)]
  {
    var l := Link(f.from, f.to);
    assert l in t.links;
    assert Link(f.to, f.from) in t.links;
    UnicastOne(t.links, t.mac, Link(f.to, f.from), p);
  }

  function FirstReplyFrame(d: Discovery, f: Frame): Frame { Frame(f.to, f.from, ReplyPacket(d, 0)) }

  lemma TwoSends(t: Topology, u: nat, a: Send, b: Send)
    ensures AllFrames(t, u, [a, b]) == FramesOf(t, u, a) + FramesOf(t, u, b)
  {
    assert [a, b][1..] == [b] && [b][1..] == [];
    assert AllFrames(t, u, [b]) == FramesOf(t, u, b) + AllFrames(t, u, []);
    assert FramesOf(t, u, b) + [] == FramesOf(t, u, b);
  }

  /** What the destination sends on its first copy. */
  lemma AnswerSends(t: Topology, s: Net, d: Discovery, f: Frame, now: int, table: Table)
    requires Legal(t) && ShapedNet(t, s) && Proper(t, d) && ShapedFrame(t, f) && f.p.Rreq? && f.to.node == d.dst
    requires Joined(t, s, d, f, now, table)
    ensures var sends, spread := FirstSends(t, d, f, now, table), PassesOn(t, d, f, now);
      && AllFrames(t, d.dst, sends) == [FirstReplyFrame(d, f)] + Onward(t, d, f, true, spread)
      && Events(d.dst, f.p, sends) == [Answered(d.dst, KeyOf(f.p))] + if spread then [Flooded(d.dst, KeyOf(f.p))] else []
  {
    var a, b := SendBack(table[d.src], ReplyPacket(d, 0)), Flood(Request(d, f.p.hop + 1, true));
    FirstReply(t, f, table[d.src], a.p);
    if PassesOn(t, d, f, now) {
      assert FirstSends(t, d, f, now, table) == [a, b];
      TwoSends(t, d.dst, a, b);
      EventsShape(d.dst, f.p, [a, b]);
    } else {
      assert FirstSends(t, d, f, now, table) == [a];
      OneSend(t, d.dst, a);
      EventsShape(d.dst, f.p, [a]);
      assert [FirstReplyFrame(d, f)] + [] == [FirstReplyFrame(d, f)];
    }
  }

  lemma AnswerLog(log: seq<Event>, u: nat, k: Key, flooded: bool)
    ensures Answers(log + ([Answered(u, k)] + if flooded then [Flooded(u, k)] else [])) == Answers(log) + 1
  {
    var rest := if flooded then [Flooded(u, k)] else [];
    AnswersSnoc(log, Answered(u, k));
    AnswersKept(log + [Answered(u, k)], u, k, flooded);
    assert log + ([Answered(u, k)] + rest) == (log + [Answered(u, k)]) + rest;
  }

  lemma AnswerOutcome(t: Topology, s: Net, r: Net, d: Discovery, i: nat, now: int, table: Table)
    requires Legal(t) && ShapedNet(t, s) && ShapedNet(t, r) && Proper(t, d)
    requires i < |s.frames| && ShapedFrame(t, s.frames[i]) && s.frames[i].to.node == d.dst && !Reached(t, s, d, d.dst)
    requires s.frames[i].p.Rreq? && Joined(t, s, d, s.frames[i], now, table)
    requires Delivered(t, s, r, i, table, FirstSends(t, d, s.frames[i], now, table))
    ensures Grown(t, s, r, d, s.frames[i], now) && Answers(r.log) == Answers(s.log) + 1
    ensures JoinFrames(t, s, r, d, i, true, PassesOn(t, d, s.frames[i], now), [FirstReplyFrame(d, s.frames[i])])
  {
    var f := s.frames[i];
    AnswerSends(t, s, d, f, now, table);
    AnswerLog(s.log, d.dst, KeyOf(f.p), PassesOn(t, d, f, now));
  }

  lemma AnswerNext(t: Topology, s: Net, d: Discovery, i: nat, now: int) returns (r: Net)
    requires Sane(t, s) && i < |s.frames| && Arriving(t, s, d, s.frames[i]) && s.frames[i].to.node == d.dst
    ensures r == Next(t, s, Deliver(i, now)) && Sane(t, r)
    ensures Grown(t, s, r, d, s.frames[i], now) && Answers(r.log) == Answers(s.log) + 1
    ensures JoinFrames(t, s, r, d, i, true, PassesOn(t, d, s.frames[i], now), [FirstReplyFrame(d, s.frames[i])])
  {
    var table, sends := FirstHandled(t, s, d, s.frames[i], now);
    r := DeliverAs(t, s, i, now, table, sends);
    AnswerOutcome(t, s, r, d, i, now, table);
  }

  lemma AnswerReplyFrame(t: Topology, s: Net, r: Net, d: Discovery, f: Frame, now: int)
    requires Legal(t) && Grown(t, s, r, d, f, now) && f.p.Rreq? && FloodFrame(t, s, d, f) && f.to.node == d.dst
    requires !Routed(s.tables[d.src][d.dst]) && (!d.forced ==> NoForward(t, s, d))
    ensures ReplyFrame(t, r, d, FirstReplyFrame(d, f)) && !Routed(r.tables[d.src][d.dst])
  {
    NewParent(t, s, r, d, f, now);
    GrownReached(t, s, r, d, f, now, d.dst);
    forall u | 0 <= u < t.n && !d.forced ensures !Routed(r.tables[u][d.dst]) { GrownReached(t, s, r, d, f, now, u); }
  }

  lemma AnswerReplies(t: Topology, s: Net, d: Discovery, i: nat, spread: bool)
    requires i < |s.frames| && s.frames[i].p.Rreq? && Replies(s.frames) == []
    ensures Replies(Without(s.frames, i) + ([FirstReplyFrame(d, s.frames[i])] + Onward(t, d, s.frames[i], true, spread)))
      == [FirstReplyFrame(d, s.frames[i])]
  {
    var f := s.frames[i];
    var onward := Onward(t, d, f, true, spread);
    RepliesWithout(s.frames, i);
    OnwardHasNoReplies(t, d, f, true, spread);
    RepliesConcat(Without(s.frames, i), [FirstReplyFrame(d, f)] + onward);
    RepliesConcat([FirstReplyFrame(d, f)], onward);
    assert [FirstReplyFrame(d, f)][1..] == [];
  }

  lemma AnswerPhase(t: Topology, s: Net, r: Net, d: Discovery, i: nat, now: int)
    requires Legal(t) && ShapedNet(t, s) && Proper(t, d) && ReplyPhase(t, s, d) && i < |s.frames|
    requires s.frames[i].p.Rreq? && FloodFrame(t, s, d, s.frames[i]) && s.frames[i].to.node == d.dst
    requires Grown(t, s, r, d, s.frames[i], now) && Answers(r.log) == Answers(s.log) + 1
    requires JoinFrames(t, s, r, d, i, true, PassesOn(t, d, s.frames[i], now), [FirstReplyFrame(d, s.frames[i])])
    ensures ReplyPhase(t, r, d) && Replies(r.frames) == [FirstReplyFrame(d, s.frames[i])]
  {
    var f := s.frames[i];
    GrownReached(t, s, r, d, f, now, d.dst);
    AnswerReplies(t, s, d, i, PassesOn(t, d, f, now));
    AnswerReplyFrame(t, s, r, d, f, now);
  }

  lemma AnswerClean(t: Topology, s: Net, r: Net, d: Discovery, i: nat, now: int)
    requires Clean(t, s, d) && i < |s.frames| && Timely(t, d, now) && Sane(t, r) && !Reached(t, s, d, d.dst)
    requires s.frames[i].p.Rreq? && FloodFrame(t, s, d, s.frames[i]) && s.frames[i].to.node == d.dst
    requires Grown(t, s, r, d, s.frames[i], now) && Answers(r.log) == Answers(s.log) + 1
    requires JoinFrames(t, s, r, d, i, true, PassesOn(t, d, s.frames[i], now), [FirstReplyFrame(d, s.frames[i])])
    ensures Clean(t, r, d) && Replies(r.frames) == [FirstReplyFrame(d, s.frames[i])]
  {
    var f := s.frames[i];
    var reply := FirstReplyFrame(d, f);
    GrownReached(t, s, r, d, f, now, d.dst);
    GrownTree(t, s, r, d, f, now);
    GrownFloods(t, s, r, d, i, now, true, PassesOn(t, d, f, now), [reply]);
    JoinCovered(t, s, r, d, i, now, true, [reply]);
    AnswerPhase(t, s, r, d, i, now);
  }

  lemma AnswerStep(t: Topology, s: Net, d: Discovery, i: nat, now: int)
    requires Clean(t, s, d) && i < |s.frames| && Timely(t, d, now)
    requires s.frames[i].p.Rreq? && !Reached(t, s, d, d.dst) && s.frames[i].to.node == d.dst
    ensures Clean(t, Next(t, s, Deliver(i, now)), d)
    ensures Replies(Next(t, s, Deliver(i, now)).frames) == [FirstReplyFrame(d, s.frames[i])]
  {
    NewArrival(t, s, d, i);
    var r := AnswerNext(t, s, d, i, now);
    AnswerClean(t, s, r, d, i, now);
  }
}
