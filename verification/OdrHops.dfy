/**
  Hop counts are real: with forced discoveries, every route in every table is the end of an
  actual walk of the recorded length, whatever is lost, delayed or expired.
 */
module OdrHops {
  import opened OdrNode
  import opened OdrNet

  /** There is a walk of k links from node a to node b. */
  ghost predicate Walk(t: Topology, a: nat, b: nat, k: nat)
    decreases k
  {
    if k == 0 then a == b
    else exists l :: l in t.links && l.b.node == b && Walk(t, a, l.a.node, k - 1)
  }

  /** The entry's next hop and interface are the last link of a walk of `hops` links from x to u. */
  ghost predicate LastLink(t: Topology, x: nat, u: nat, e: Entry, l: Link) {
    && l in t.links && l.b == Port(u, e.out) && l.a in t.mac && t.mac[l.a] == e.nextHop
    && e.hops >= 1 && Walk(t, x, l.a.node, e.hops - 1)
  }

  ghost predicate RealEntry(t: Topology, x: nat, u: nat, e: Entry) {
    Routed(e) ==> exists l :: LastLink(t, x, u, e, l)
  }

  ghost predicate RealTable(t: Topology, u: nat, table: Table) {
    forall x :: 0 <= x < |table| ==> RealEntry(t, x, u, table[x])
  }

  /** The packet has come hop links from its source to node u. */
  ghost predicate RealPacket(t: Topology, u: nat, p: Packet) {
    p.forced && p.hop >= 0 && Walk(t, p.src, u, p.hop)
  }

  ghost predicate Real(t: Topology, s: Net) {
    && Sane(t, s)
    && (forall u :: 0 <= u < t.n ==> RealTable(t, u, s.tables[u]))
    && (forall i :: 0 <= i < |s.frames| ==> RealPacket(t, s.frames[i].from.node, s.frames[i].p))
  }

  lemma WalkOn(t: Topology, a: nat, l: Link, k: nat)
    requires l in t.links && Walk(t, a, l.a.node, k)
    ensures Walk(t, a, l.b.node, k + 1)
  {
  }

  /** A route learned from an arriving frame is real. */
  lemma RouteReal(t: Topology, f: Frame, e: Entry, now: int)
    requires ShapedFrame(t, f) && RealPacket(t, f.from.node, f.p)
    ensures RealEntry(t, f.p.src, f.to.node, Route(e, At(t, f, now), f.p.hop + 1))
  {
    assert LastLink(t, f.p.src, f.to.node, Route(e, At(t, f, now), f.p.hop + 1), Link(f.from, f.to));
  }

  /** Only next hop, interface and hop count matter for being real. */
  lemma SameRoute(t: Topology, x: nat, u: nat, e: Entry, e': Entry)
    requires RealEntry(t, x, u, e) && e'.nextHop == e.nextHop && e'.out == e.out && e'.hops == e.hops
    ensures RealEntry(t, x, u, e')
  {
    if Routed(e) {
      var l :| LastLink(t, x, u, e, l);
      assert LastLink(t, x, u, e', l);
    }
  }

  lemma ReverseReal(t: Topology, f: Frame, e: Entry, now: int)
    requires ShapedFrame(t, f) && RealPacket(t, f.from.node, f.p) && f.p.Rreq? && f.p.src < |e.highest|
    requires RealEntry(t, f.p.src, f.to.node, e)
    ensures RealEntry(t, f.p.src, f.to.node, LearnReverse(e, f.p, At(t, f, now)))
  {
    var e' := LearnReverse(e, f.p, At(t, f, now));
    if e'.nextHop == e.nextHop && e'.out == e.out && e'.hops == e.hops {
      SameRoute(t, f.p.src, f.to.node, e, e');
    } else {
      RouteReal(t, f, e, now);
      SameRoute(t, f.p.src, f.to.node, Route(e, At(t, f, now), f.p.hop + 1), e');
    }
  }

  lemma RreqReal(t: Topology, f: Frame, table: Table, now: int)
    requires ShapedFrame(t, f) && RealPacket(t, f.from.node, f.p) && f.p.Rreq?
    requires Shaped(table, t.n) && RealTable(t, f.to.node, table)
    ensures var (table', sends) := OnRreq(f.to.node, table, f.p, At(t, f, now));
      RealTable(t, f.to.node, table') && forall s :: s in sends ==> RealPacket(t, f.to.node, s.p)
  {
    var u, p, at := f.to.node, f.p, At(t, f, now);
    WalkOn(t, p.src, Link(f.from, f.to), p.hop);
    ReverseReal(t, f, table[p.src], now);
    var learned := table[p.src := LearnReverse(table[p.src], p, at)];
    assert RealTable(t, u, learned);
    var d := learned[p.dst];
    if p.src != u && p.id > d.highest[p.src] {
      SameRoute(t, p.dst, u, d, Mark(d, p));
      assert RealTable(t, u, learned[p.dst := Mark(d, p)]);
    }
  }

  lemma RrepReal(t: Topology, f: Frame, table: Table, now: int)
    requires ShapedFrame(t, f) && RealPacket(t, f.from.node, f.p) && f.p.Rrep?
    requires Shaped(table, t.n) && RealTable(t, f.to.node, table)
    ensures var (table', sends) := OnRrep(f.to.node, table, f.p, At(t, f, now));
      RealTable(t, f.to.node, table') && forall s :: s in sends ==> RealPacket(t, f.to.node, s.p)
  {
    var u, p, at := f.to.node, f.p, At(t, f, now);
    WalkOn(t, p.src, Link(f.from, f.to), p.hop);
    RouteReal(t, f, table[p.src], now);
    SameRoute(t, p.src, u, Route(table[p.src], at, p.hop + 1), LearnForward(table[p.src], p, at));
  }

  /** Frames carry what the sends carry. */
  lemma SentReal(t: Topology, u: nat, sends: seq<Send>)
    requires forall s :: s in sends ==> RealPacket(t, u, s.p)
    ensures forall f :: f in AllFrames(t, u, sends) ==> RealPacket(t, f.from.node, f.p)
  {
    forall f | f in AllFrames(t, u, sends) ensures RealPacket(t, f.from.node, f.p) {
      FramesMember(t, u, sends, f);
      var s :| s in sends && f in FramesOf(t, u, s);
      SentFrame(t, u, s, f);
    }
  }

  /** One node's table changed and something was sent, all of it real. */
  lemma RealAfter(t: Topology, s: Net, r: Net, u: nat, kept: seq<Frame>, sends: seq<Send>)
    requires Real(t, s) && Sane(t, r) && u < t.n && r.tables == s.tables[u := r.tables[u]] && RealTable(t, u, r.tables[u])
    requires r.frames == kept + AllFrames(t, u, sends) && forall f :: f in kept ==> f in s.frames
    requires forall x :: x in sends ==> RealPacket(t, u, x.p)
    ensures Real(t, r)
  {
    SentReal(t, u, sends);
    forall i | 0 <= i < |r.frames| ensures RealPacket(t, r.frames[i].from.node, r.frames[i].p) {
      var f := r.frames[i];
      if i < |kept| {
        assert f == kept[i] && f in s.frames;
      } else {
        assert f in AllFrames(t, u, sends);
      }
    }
  }

  lemma DeliverReal(t: Topology, s: Net, l: Label)
    requires Legal(t) && Real(t, s) && Enabled(t, s, l) && l.Deliver?
    ensures Real(t, Next(t, s, l))
  {
    var f := s.frames[l.i];
    var u := f.to.node;
    StepSane(t, s, l);
    assert RealPacket(t, f.from.node, f.p);
    if f.p.Rreq? { RreqReal(t, f, s.tables[u], l.now); } else { RrepReal(t, f, s.tables[u], l.now); }
    RealAfter(t, s, Next(t, s, l), u, Without(s.frames, l.i), Handled(t, s, f, l.now).1);
  }

  lemma ClientReal(t: Topology, u: nat, table: Table, id: int, dst: nat, now: int)
    requires dst < |table| && RealTable(t, u, table)
    ensures var (table', sends) := OnClient(u, table, id, dst, true, now, t.stale);
      RealTable(t, u, table') && forall s :: s in sends ==> RealPacket(t, u, s.p)
  {
  }

  lemma AskReal(t: Topology, s: Net, l: Label)
    requires Legal(t) && Real(t, s) && Enabled(t, s, l) && l.Ask? && l.forced
    ensures Real(t, Next(t, s, l))
  {
    StepSane(t, s, l);
    ClientReal(t, l.u, s.tables[l.u], s.ids[l.u] + 1, l.dst, l.now);
    var sends := OnClient(l.u, s.tables[l.u], s.ids[l.u] + 1, l.dst, true, l.now, t.stale).1;
    RealAfter(t, s, Next(t, s, l), l.u, s.frames, sends);
  }

  lemma StepReal(t: Topology, s: Net, l: Label)
    requires Legal(t) && Real(t, s) && Enabled(t, s, l) && (l.Ask? ==> l.forced)
    ensures Real(t, Next(t, s, l))
  {
    if l.Ask? { AskReal(t, s, l); } else if l.Deliver? { DeliverReal(t, s, l); } else { StepSane(t, s, l); }
  }

  lemma {:induction false} RunReal(t: Topology, s: Net, run: seq<Label>, r: Net)
    requires Legal(t) && Real(t, s) && Runs(t, s, run, r)
    requires forall i :: 0 <= i < |run| && run[i].Ask? ==> run[i].forced
    ensures Real(t, r)
    decreases |run|
  {
    if run != [] {
      StepReal(t, s, run[0]);
      RunReal(t, Next(t, s, run[0]), run[1..], r);
    }
  }

  /** After any run of forced discoveries every usable entry is the end of a real walk. */
  lemma HopCountsAreReal(t: Topology, run: seq<Label>, r: Net, u: nat, x: nat)
    requires Legal(t) && Runs(t, Init(t), run, r) && u < t.n && x < t.n
    requires forall i :: 0 <= i < |run| && run[i].Ask? ==> run[i].forced
    ensures |r.tables| == t.n && |r.tables[u]| == t.n && RealEntry(t, x, u, r.tables[u][x])
  {
    InitSane(t);
    RunReal(t, Init(t), run, r);
    assert RealTable(t, u, r.tables[u]);
  }
}
