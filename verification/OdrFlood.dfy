/**
  Route-request floods die out. On any topology, with any interleaving of other discoveries
  and replies, a node re-floods or answers a given discovery at most once, so a discovery
  causes a bounded number of frames.
 */
module OdrFlood {
  import opened OdrNode
  import opened OdrNet

  /** The highest broadcast id this table has seen from src for dst. */
  function Slot(table: Table, src: nat, dst: nat): int
    requires Shaped(table, |table|) && src < |table| && dst < |table|
  {
    table[dst].highest[src]
  }

  predicate Known(t: Topology, k: Key) { k.src < t.n && k.dst < t.n }

  // ----- one node

  predicate OnlyOneEach(sends: seq<Send>) {
    || sends == []
    || (|sends| == 1)
    || (|sends| == 2 && sends[0].Unicast? && sends[1].Flood?)
  }

  /** Handling any packet never lowers a slot of two different nodes. */
  lemma SlotsGrow(u: nat, table: Table, p: Packet, at: Arrival, src: nat, dst: nat)
    requires Shaped(table, |table|) && p.src < |table| && p.dst < |table| && src < |table| && dst < |table|
    requires src != dst
    ensures var table' := Handle(u, table, p, at).0;
      |table'| == |table| && Shaped(table', |table'|) && Slot(table, src, dst) <= Slot(table', src, dst)
  {
    HandleShaped(u, table, p, at);
  }

  /** A node that reacts to an RREQ sees it for the first time, and will not react again. */
  lemma ReactsOnce(u: nat, table: Table, p: Packet, at: Arrival)
    requires p.Rreq? && Shaped(table, |table|) && p.src < |table| && p.dst < |table|
    ensures var (table', sends) := OnRreq(u, table, p, at);
      && OnlyOneEach(sends)
      && (sends != [] ==>
            && u != p.src && p.src != p.dst
            && |table'| == |table| && Shaped(table', |table'|)
            && Slot(table, p.src, p.dst) < p.id <= Slot(table', p.src, p.dst))
      && (forall s :: s in sends && s.Flood? ==> s.p.Rreq? && KeyOf(s.p) == KeyOf(p))
      && (forall s :: s in sends && s.Unicast? ==> s.p.Rrep?)
  {
    HandleShaped(u, table, p, at);
  }

  // ----- at most once per node

  ghost predicate OncePerNode(t: Topology, s: Net) {
    forall u, k :: 0 <= u < t.n && Known(t, k) ==> OnceAt(s, u, k)
  }

  ghost predicate OnceAt(s: Net, u: nat, k: Key) {
    var floods, answers := multiset(s.log)[Flooded(u, k)], multiset(s.log)[Answered(u, k)];
    && floods <= 1 && answers <= 1
    && (floods > 0 || answers > 0 ==>
          && u != k.src && k.src != k.dst
          && u < |s.tables| && k.src < |s.tables[u]| && k.dst < |s.tables[u]|
          && Shaped(s.tables[u], |s.tables[u]|) && Slot(s.tables[u], k.src, k.dst) >= k.id)
  }

  lemma EventsShape(u: nat, p: Packet, sends: seq<Send>)
    requires p.Rreq? && OnlyOneEach(sends)
    ensures |sends| == 1 ==>
      Events(u, p, sends) == [if sends[0].Flood? then Flooded(u, KeyOf(p)) else Answered(u, KeyOf(p))]
    ensures |sends| == 2 ==> Events(u, p, sends) == [Answered(u, KeyOf(p)), Flooded(u, KeyOf(p))]
  {
    if |sends| == 2 { assert Events(u, p, sends[1..]) == [Flooded(u, KeyOf(p))]; }
  }

  /** Events of one handled packet: at most one of each kind, and only for its own discovery. */
  lemma EventCounts(u: nat, p: Packet, sends: seq<Send>, v: nat, k: Key)
    requires OnlyOneEach(sends)
    ensures var m := multiset(Events(u, p, sends));
      && m[Flooded(v, k)] <= 1 && m[Answered(v, k)] <= 1
      && (m[Flooded(v, k)] > 0 || m[Answered(v, k)] > 0 ==> p.Rreq? && v == u && k == KeyOf(p) && sends != [])
  {
    if p.Rreq? { EventsShape(u, p, sends); }
  }

  lemma DeliverOnce(t: Topology, s: Net, l: Label, v: nat, k: Key)
    requires Legal(t) && Sane(t, s) && Enabled(t, s, l) && l.Deliver?
    requires v < t.n && Known(t, k) && OnceAt(s, v, k)
    ensures OnceAt(Next(t, s, l), v, k)
  {
    var f := s.frames[l.i];
    var u, at := f.to.node, At(t, f, l.now);
    var (table, sends) := Handled(t, s, f, l.now);
    if f.p.Rreq? { ReactsOnce(u, s.tables[u], f.p, at); }
    EventCounts(u, f.p, sends, v, k);
    assert multiset(s.log + Events(u, f.p, sends)) == multiset(s.log) + multiset(Events(u, f.p, sends));
    if k.src != k.dst { SlotsGrow(u, s.tables[u], f.p, at, k.src, k.dst); }
  }

  lemma AskOnce(t: Topology, s: Net, l: Label, v: nat, k: Key)
    requires Sane(t, s) && Enabled(t, s, l) && l.Ask? && v < t.n && Known(t, k) && OnceAt(s, v, k)
    ensures OnceAt(Next(t, s, l), v, k)
  {
  }

  lemma StepOnce(t: Topology, s: Net, l: Label)
    requires Legal(t) && Sane(t, s) && Enabled(t, s, l) && OncePerNode(t, s)
    ensures OncePerNode(t, Next(t, s, l))
  {
    var r := Next(t, s, l);
    forall v, k | 0 <= v < t.n && Known(t, k) ensures OnceAt(r, v, k) {
      assert OnceAt(s, v, k);
      match l
      case Ask(_, _, _, _) => AskOnce(t, s, l, v, k);
      case Deliver(_, _) => DeliverOnce(t, s, l, v, k);
      case Lose(_) =>
    }
  }

  lemma {:induction false} RunOnce(t: Topology, s: Net, run: seq<Label>, r: Net)
    requires Legal(t) && Sane(t, s) && OncePerNode(t, s) && Runs(t, s, run, r)
    ensures Sane(t, r) && OncePerNode(t, r)
    decreases |run|
  {
    if run != [] {
      StepSane(t, s, run[0]);
      StepOnce(t, s, run[0]);
      RunOnce(t, Next(t, s, run[0]), run[1..], r);
    }
  }

  // ----- at most n - 1 re-broadcasts per discovery

  function Rebroadcasts(log: seq<Event>, k: Key): nat {
    if log == [] then 0
    else Rebroadcasts(log[..|log| - 1], k)
         + if log[|log| - 1].Flooded? && log[|log| - 1].k == k then 1 else 0
  }

  ghost function FloodsBelow(log: seq<Event>, k: Key, m: nat): nat {
    if m == 0 then 0 else FloodsBelow(log, k, m - 1) + multiset(log)[Flooded(m - 1, k)]
  }

  lemma {:induction false} FloodsBelowNext(log: seq<Event>, e: Event, k: Key, m: nat)
    ensures FloodsBelow(log + [e], k, m)
      == FloodsBelow(log, k, m) + if e.Flooded? && e.k == k && e.u < m then 1 else 0
    decreases m
  {
    assert multiset(log + [e]) == multiset(log) + multiset{e};
    if m > 0 { FloodsBelowNext(log, e, k, m - 1); }
  }

  lemma {:induction false} FloodsBelowEmpty(k: Key, m: nat)
    ensures FloodsBelow([], k, m) == 0
  {
    if m > 0 { FloodsBelowEmpty(k, m - 1); }
  }

  lemma {:induction false} RebroadcastsIsSum(log: seq<Event>, k: Key, n: nat)
    requires forall i :: 0 <= i < |log| ==> log[i].u < n
    ensures Rebroadcasts(log, k) == FloodsBelow(log, k, n)
    decreases |log|
  {
    if log == [] {
      FloodsBelowEmpty(k, n);
    } else {
      var before, e := log[..|log| - 1], log[|log| - 1];
      RebroadcastsIsSum(before, k, n);
      FloodsBelowNext(before, e, k, n);
      assert log == before + [e];
    }
  }

  lemma {:induction false} FloodsBelowBound(s: Net, k: Key, m: nat)
    requires forall u :: 0 <= u < m ==> OnceAt(s, u, k)
    ensures FloodsBelow(s.log, k, m) <= if k.src < m then m - 1 else m
    decreases m
  {
    if m > 0 {
      FloodsBelowBound(s, k, m - 1);
      assert OnceAt(s, m - 1, k);
    }
  }

  lemma LoggedNodes(t: Topology, s: Net, l: Label)
    requires Legal(t) && Sane(t, s) && Enabled(t, s, l)
    requires forall i :: 0 <= i < |s.log| ==> s.log[i].u < t.n
    ensures forall i :: 0 <= i < |Next(t, s, l).log| ==> Next(t, s, l).log[i].u < t.n
  {
    if l.Deliver? {
      var f := s.frames[l.i];
      EventNodes(f.to.node, f.p, Handled(t, s, f, l.now).1);
    }
  }

  lemma {:induction false} EventNodes(u: nat, p: Packet, sends: seq<Send>)
    ensures forall i :: 0 <= i < |Events(u, p, sends)| ==> Events(u, p, sends)[i].u == u
    decreases sends
  {
    if p.Rreq? && sends != [] { EventNodes(u, p, sends[1..]); }
  }

  lemma {:induction false} RunLogged(t: Topology, s: Net, run: seq<Label>, r: Net)
    requires Legal(t) && Sane(t, s) && Runs(t, s, run, r)
    requires forall i :: 0 <= i < |s.log| ==> s.log[i].u < t.n
    ensures forall i :: 0 <= i < |r.log| ==> r.log[i].u < t.n
    decreases |run|
  {
    if run != [] {
      StepSane(t, s, run[0]);
      LoggedNodes(t, s, run[0]);
      RunLogged(t, Next(t, s, run[0]), run[1..], r);
    }
  }

  lemma OnceCounts(t: Topology, s: Net, u: nat, k: Key)
    requires OncePerNode(t, s) && u < t.n && Known(t, k)
    ensures OnceAt(s, u, k)
    ensures multiset(s.log)[Flooded(u, k)] <= 1 && multiset(s.log)[Answered(u, k)] <= 1
    ensures u == k.src ==> multiset(s.log)[Flooded(u, k)] == 0 && multiset(s.log)[Answered(u, k)] == 0
  {
    assert OnceAt(s, u, k);
  }

  /** In every run, each node re-floods and answers a discovery at most once, and never its own. */
  lemma FloodOncePerNode(t: Topology, run: seq<Label>, r: Net, k: Key)
    requires Legal(t) && Runs(t, Init(t), run, r) && Known(t, k)
    ensures forall u :: 0 <= u < t.n ==>
      multiset(r.log)[Flooded(u, k)] <= 1 && multiset(r.log)[Answered(u, k)] <= 1
    ensures multiset(r.log)[Flooded(k.src, k)] == 0 && multiset(r.log)[Answered(k.src, k)] == 0
    ensures Rebroadcasts(r.log, k) <= t.n - 1
  {
    InitSane(t);
    RunOnce(t, Init(t), run, r);
    RunLogged(t, Init(t), run, r);
    forall u | 0 <= u < t.n
      ensures OnceAt(r, u, k) && multiset(r.log)[Flooded(u, k)] <= 1 && multiset(r.log)[Answered(u, k)] <= 1
    {
      OnceCounts(t, r, u, k);
    }
    OnceCounts(t, r, k.src, k);
    FloodsBelowBound(r, k, t.n);
    RebroadcastsIsSum(r.log, k, t.n);
  }
}
