/**
  The traffic of one discovery is bounded: a weight made of its RREQ frames in flight and
  the nodes that have not seen it never grows, and falls with every RREQ delivered.
 */
module OdrTermination {
  import opened OdrNode
  import opened OdrNet
  import opened OdrFlood

  predicate Carries(f: Frame, k: Key) { f.p.Rreq? && KeyOf(f.p) == k }

  /** RREQ frames of the discovery in flight. */
  function InFlight(frames: seq<Frame>, k: Key): nat {
    if frames == [] then 0 else (if Carries(frames[0], k) then 1 else 0) + InFlight(frames[1..], k)
  }

  /** One unit per link for every node below m that has not seen the discovery. */
  ghost function Unmarked(t: Topology, s: Net, k: Key, m: nat): nat
    requires ShapedNet(t, s) && Known(t, k) && m <= t.n
  {
    if m == 0 then 0
    else Unmarked(t, s, k, m - 1) + if Slot(s.tables[m - 1], k.src, k.dst) < k.id then |t.links| else 0
  }

  ghost function Weight(t: Topology, s: Net, k: Key): nat
    requires ShapedNet(t, s) && Known(t, k)
  {
    InFlight(s.frames, k) + Unmarked(t, s, k, t.n)
  }

  // ----- counting

  lemma {:induction false} InFlightConcat(a: seq<Frame>, b: seq<Frame>, k: Key)
    ensures InFlight(a + b, k) == InFlight(a, k) + InFlight(b, k)
  {
    if a == [] {
      assert a + b == b;
    } else {
      assert (a + b)[1..] == a[1..] + b;
      InFlightConcat(a[1..], b, k);
    }
  }

  lemma InFlightWithout(frames: seq<Frame>, i: nat, k: Key)
    requires i < |frames|
    ensures InFlight(frames, k) == InFlight(Without(frames, i), k) + if Carries(frames[i], k) then 1 else 0
  {
    var a, b := frames[..i], frames[i + 1..];
    assert frames == a + ([frames[i]] + b);
    InFlightConcat(a, [frames[i]] + b, k);
    InFlightConcat([frames[i]], b, k);
    InFlightConcat(a, b, k);
    assert [frames[i]][1..] == [];
  }

  lemma {:induction false} NoneCarries(frames: seq<Frame>, k: Key)
    requires forall f :: f in frames ==> !Carries(f, k)
    ensures InFlight(frames, k) == 0
  {
    if frames != [] {
      assert frames[0] in frames;
      NoneCarries(frames[1..], k);
    }
  }

  lemma {:induction false} InFlightBound(frames: seq<Frame>, k: Key)
    ensures InFlight(frames, k) <= |frames|
  {
    if frames != [] { InFlightBound(frames[1..], k); }
  }

  lemma SendInFlight(t: Topology, u: nat, s: Send, k: Key)
    ensures InFlight(FramesOf(t, u, s), k) <= if s.Flood? && s.p.Rreq? && KeyOf(s.p) == k then |t.links| else
      InFlight(FramesOf(t, u, s), k)
    ensures !(s.p.Rreq? && KeyOf(s.p) == k) ==> InFlight(FramesOf(t, u, s), k) == 0
  {
    if s.p.Rreq? && KeyOf(s.p) == k {
      if s.Flood? {
        InFlightBound(FramesOf(t, u, s), k);
        FloodCount(t.links, u, s.p);
      }
    } else {
      forall f | f in FramesOf(t, u, s) ensures !Carries(f, k) { SentFrame(t, u, s, f); }
      NoneCarries(FramesOf(t, u, s), k);
    }
  }

  /** A reaction to an RREQ puts at most one flood of its discovery on the wire. */
  lemma ReactionInFlight(t: Topology, u: nat, sends: seq<Send>, k: Key)
    requires OnlyOneEach(sends)
    requires forall s :: s in sends && s.Unicast? ==> s.p.Rrep?
    ensures InFlight(AllFrames(t, u, sends), k) <= |t.links|
    ensures (forall s :: s in sends ==> !(s.p.Rreq? && KeyOf(s.p) == k)) ==> InFlight(AllFrames(t, u, sends), k) == 0
  {
    if sends != [] {
      var rest := sends[1..];
      SendInFlight(t, u, sends[0], k);
      InFlightConcat(FramesOf(t, u, sends[0]), AllFrames(t, u, rest), k);
      if rest != [] {
        assert rest == [sends[1]] && rest[1..] == [];
        SendInFlight(t, u, sends[1], k);
        InFlightConcat(FramesOf(t, u, sends[1]), [], k);
        assert AllFrames(t, u, rest) == FramesOf(t, u, sends[1]) + [];
      }
    }
  }

  lemma {:induction false} UnmarkedMonotone(t: Topology, s: Net, r: Net, k: Key, m: nat)
    requires ShapedNet(t, s) && ShapedNet(t, r) && Known(t, k) && m <= t.n
    requires forall v :: 0 <= v < t.n ==> Slot(s.tables[v], k.src, k.dst) <= Slot(r.tables[v], k.src, k.dst)
    ensures Unmarked(t, r, k, m) <= Unmarked(t, s, k, m)
    decreases m
  {
    if m > 0 { UnmarkedMonotone(t, s, r, k, m - 1); }
  }

  lemma {:induction false} UnmarkedDrops(t: Topology, s: Net, r: Net, k: Key, u: nat, m: nat)
    requires ShapedNet(t, s) && ShapedNet(t, r) && Known(t, k) && u < m <= t.n
    requires forall v :: 0 <= v < t.n ==> Slot(s.tables[v], k.src, k.dst) <= Slot(r.tables[v], k.src, k.dst)
    requires Slot(s.tables[u], k.src, k.dst) < k.id <= Slot(r.tables[u], k.src, k.dst)
    ensures Unmarked(t, r, k, m) + |t.links| <= Unmarked(t, s, k, m)
    decreases m
  {
    if u == m - 1 { UnmarkedMonotone(t, s, r, k, m - 1); } else { UnmarkedDrops(t, s, r, k, u, m - 1); }
  }

  // ----- steps

  lemma SlotsAfter(t: Topology, s: Net, l: Label, k: Key)
    requires Legal(t) && Sane(t, s) && Enabled(t, s, l) && Known(t, k) && k.src != k.dst
    ensures Sane(t, Next(t, s, l))
    ensures forall v :: 0 <= v < t.n ==>
      Slot(s.tables[v], k.src, k.dst) <= Slot(Next(t, s, l).tables[v], k.src, k.dst)
  {
    StepSane(t, s, l);
    if l.Deliver? {
      var f := s.frames[l.i];
      SlotsGrow(f.to.node, s.tables[f.to.node], f.p, At(t, f, l.now), k.src, k.dst);
    }
  }

  /** Delivering an RREQ of the discovery lowers its weight. */
  lemma DeliverWeight(t: Topology, s: Net, l: Label, k: Key)
    requires Legal(t) && Sane(t, s) && Enabled(t, s, l) && Known(t, k) && k.src != k.dst && l.Deliver?
    ensures Sane(t, Next(t, s, l))
    ensures Weight(t, Next(t, s, l), k) + (if Carries(s.frames[l.i], k) then 1 else 0) <= Weight(t, s, k)
  {
    var r, f := Next(t, s, l), s.frames[l.i];
    var u, sends := f.to.node, Handled(t, s, f, l.now).1;
    SlotsAfter(t, s, l, k);
    InFlightWithout(s.frames, l.i, k);
    InFlightConcat(Without(s.frames, l.i), AllFrames(t, u, sends), k);
    UnmarkedMonotone(t, s, r, k, t.n);
    if f.p.Rreq? {
      ReactsOnce(u, s.tables[u], f.p, At(t, f, l.now));
      ReactionInFlight(t, u, sends, k);
      if sends != [] && Carries(f, k) { UnmarkedDrops(t, s, r, k, u, t.n); }
    } else {
      ReactionInFlight(t, u, sends, k);
    }
  }

  /** What a client's request puts on the wire. */
  function Asked(t: Topology, s: Net, l: Label): seq<Send>
    requires ShapedNet(t, s) && l.Ask? && l.u < t.n && l.dst < t.n
  {
    OnClient(l.u, s.tables[l.u], s.ids[l.u] + 1, l.dst, l.forced, l.now, t.stale).1
  }

  lemma AskedShape(t: Topology, s: Net, l: Label)
    requires ShapedNet(t, s) && l.Ask? && l.u < t.n && l.dst < t.n
    ensures OnlyOneEach(Asked(t, s, l))
    ensures forall x :: x in Asked(t, s, l) ==> x == Flood(Rreq(l.u, l.dst, 0, false, l.forced, s.ids[l.u] + 1))
  {
  }

  lemma AskWeight(t: Topology, s: Net, l: Label, k: Key)
    requires Legal(t) && Sane(t, s) && Enabled(t, s, l) && Known(t, k) && k.src != k.dst && l.Ask?
    ensures Sane(t, Next(t, s, l))
    ensures Weight(t, Next(t, s, l), k) <= Weight(t, s, k) + if l.u == k.src && k.id == s.ids[l.u] + 1 then |t.links| else 0
  {
    var sends := Asked(t, s, l);
    SlotsAfter(t, s, l, k);
    AskedShape(t, s, l);
    ReactionInFlight(t, l.u, sends, k);
    InFlightConcat(s.frames, AllFrames(t, l.u, sends), k);
    UnmarkedMonotone(t, s, Next(t, s, l), k, t.n);
  }

  lemma LoseWeight(t: Topology, s: Net, l: Label, k: Key)
    requires Legal(t) && Sane(t, s) && Enabled(t, s, l) && Known(t, k) && k.src != k.dst && l.Lose?
    ensures Sane(t, Next(t, s, l)) && Weight(t, Next(t, s, l), k) <= Weight(t, s, k)
  {
    SlotsAfter(t, s, l, k);
    InFlightWithout(s.frames, l.i, k);
    UnmarkedMonotone(t, s, Next(t, s, l), k, t.n);
  }

  /** How many RREQ frames of the discovery the run delivers. */
  ghost function Deliveries(t: Topology, s: Net, run: seq<Label>, k: Key): nat
    decreases |run|
  {
    if run == [] || !Sane(t, s) || !Enabled(t, s, run[0]) then 0
    else (if run[0].Deliver? && Carries(s.frames[run[0].i], k) then 1 else 0)
         + Deliveries(t, Next(t, s, run[0]), run[1..], k)
  }

  /** The weight of a discovery whose id is drawn never grows, and pays for each delivery. */
  lemma StepWeight(t: Topology, s: Net, l: Label, k: Key)
    requires Legal(t) && Sane(t, s) && Enabled(t, s, l) && Known(t, k) && k.src != k.dst && k.id <= s.ids[k.src]
    ensures Sane(t, Next(t, s, l)) && k.id <= Next(t, s, l).ids[k.src]
    ensures Weight(t, Next(t, s, l), k) + (if l.Deliver? && Carries(s.frames[l.i], k) then 1 else 0) <= Weight(t, s, k)
  {
    if l.Ask? {
      AskWeight(t, s, l, k);
    } else if l.Deliver? {
      DeliverWeight(t, s, l, k);
    } else {
      LoseWeight(t, s, l, k);
    }
  }

  lemma {:induction false} DeliveriesBounded(t: Topology, s: Net, run: seq<Label>, k: Key)
    requires Legal(t) && Sane(t, s) && Known(t, k) && k.src != k.dst && k.id <= s.ids[k.src]
    ensures Deliveries(t, s, run, k) <= Weight(t, s, k)
    decreases |run|
  {
    if run != [] && Enabled(t, s, run[0]) {
      StepWeight(t, s, run[0], k);
      DeliveriesBounded(t, Next(t, s, run[0]), run[1..], k);
    }
  }

  // ----- from the start

  /** No frame of a discovery exists before its id is drawn. */
  ghost predicate IdsDrawn(t: Topology, s: Net) {
    |s.ids| == t.n && forall i :: 0 <= i < |s.frames| && s.frames[i].p.Rreq? && s.frames[i].p.src < t.n ==>
      s.frames[i].p.id <= s.ids[s.frames[i].p.src]
  }

  lemma IdOfSent(t: Topology, u: nat, sends: seq<Send>, f: Frame, src: nat, top: int)
    requires f in AllFrames(t, u, sends) && f.p.Rreq? && f.p.src == src
    requires forall s :: s in sends && s.p.Rreq? && s.p.src == src ==> s.p.id <= top
    ensures f.p.id <= top
  {
    FramesMember(t, u, sends, f);
    var s :| s in sends && f in FramesOf(t, u, s);
    SentFrame(t, u, s, f);
  }

  lemma NewFramesDrawn(t: Topology, s: Net, r: Net, u: nat, sends: seq<Send>, kept: seq<Frame>)
    requires IdsDrawn(t, s) && |r.ids| == t.n && forall v :: 0 <= v < t.n ==> s.ids[v] <= r.ids[v]
    requires r.frames == kept + AllFrames(t, u, sends) && forall f :: f in kept ==> f in s.frames
    requires forall x :: x in sends && x.p.Rreq? && x.p.src < t.n ==> x.p.id <= r.ids[x.p.src]
    ensures IdsDrawn(t, r)
  {
    forall i | 0 <= i < |r.frames| && r.frames[i].p.Rreq? && r.frames[i].p.src < t.n
      ensures r.frames[i].p.id <= r.ids[r.frames[i].p.src]
    {
      var g := r.frames[i];
      if i < |kept| {
        assert g in kept;
      } else {
        assert g in AllFrames(t, u, sends);
        IdOfSent(t, u, sends, g, g.p.src, r.ids[g.p.src]);
      }
    }
  }

  lemma AskDrawn(t: Topology, s: Net, l: Label)
    requires Legal(t) && Sane(t, s) && Enabled(t, s, l) && IdsDrawn(t, s) && l.Ask?
    ensures IdsDrawn(t, Next(t, s, l))
  {
    AskedShape(t, s, l);
    NewFramesDrawn(t, s, Next(t, s, l), l.u, Asked(t, s, l), s.frames);
  }

  lemma DeliverDrawn(t: Topology, s: Net, l: Label)
    requires Legal(t) && Sane(t, s) && Enabled(t, s, l) && IdsDrawn(t, s) && l.Deliver?
    ensures IdsDrawn(t, Next(t, s, l))
  {
    var f := s.frames[l.i];
    var u, sends := f.to.node, Handled(t, s, f, l.now).1;
    if f.p.Rreq? { ReactsOnce(u, s.tables[u], f.p, At(t, f, l.now)); }
    forall x | x in sends && x.p.Rreq? ensures f.p.Rreq? && KeyOf(x.p) == KeyOf(f.p) {}
    NewFramesDrawn(t, s, Next(t, s, l), u, sends, Without(s.frames, l.i));
  }

  lemma StepDrawn(t: Topology, s: Net, l: Label)
    requires Legal(t) && Sane(t, s) && Enabled(t, s, l) && IdsDrawn(t, s)
    ensures IdsDrawn(t, Next(t, s, l))
  {
    if l.Ask? { AskDrawn(t, s, l); } else if l.Deliver? { DeliverDrawn(t, s, l); }
  }

  lemma {:induction false} RunDrawn(t: Topology, s: Net, run: seq<Label>, r: Net)
    requires Legal(t) && Sane(t, s) && IdsDrawn(t, s) && Runs(t, s, run, r)
    ensures Sane(t, r) && IdsDrawn(t, r)
    decreases |run|
  {
    if run != [] {
      StepSane(t, s, run[0]);
      StepDrawn(t, s, run[0]);
      RunDrawn(t, Next(t, s, run[0]), run[1..], r);
    }
  }

  lemma {:induction false} UnmarkedBound(t: Topology, s: Net, k: Key, m: nat)
    requires ShapedNet(t, s) && Known(t, k) && m <= t.n
    ensures Unmarked(t, s, k, m) <= |t.links| * m
    decreases m
  {
    if m > 0 {
      UnmarkedBound(t, s, k, m - 1);
      assert |t.links| * m == |t.links| * (m - 1) + |t.links|;
    }
  }

  /** A discovery that starts now has nothing in flight yet. */
  lemma WeightAtStart(t: Topology, s: Net, k: Key)
    requires Sane(t, s) && IdsDrawn(t, s) && Known(t, k) && k.id == s.ids[k.src] + 1
    ensures Weight(t, s, k) <= |t.links| * t.n
  {
    forall f | f in s.frames ensures !Carries(f, k) {
      var i :| 0 <= i < |s.frames| && s.frames[i] == f;
    }
    NoneCarries(s.frames, k);
    UnmarkedBound(t, s, k, t.n);
  }

  /**
    Whatever came before and whatever follows, the discovery that a client starts for another
    node causes at most links * nodes + links deliveries of its RREQ.
   */
  lemma FloodDiesOut(t: Topology, before: seq<Label>, s: Net, ask: Label, after: seq<Label>)
    requires Legal(t) && Runs(t, Init(t), before, s)
    requires ask.Ask? && ask.u < t.n && ask.dst < t.n && ask.u != ask.dst
    ensures Sane(t, s) && Enabled(t, s, ask)
    ensures Deliveries(t, Next(t, s, ask), after, Key(ask.u, ask.dst, s.ids[ask.u] + 1)) <= |t.links| * t.n + |t.links|
  {
    InitSane(t);
    RunDrawn(t, Init(t), before, s);
    var k := Key(ask.u, ask.dst, s.ids[ask.u] + 1);
    WeightAtStart(t, s, k);
    AskWeight(t, s, ask, k);
    DeliveriesBounded(t, Next(t, s, ask), after, k);
  }
}
