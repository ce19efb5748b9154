/**
  A discovery as a whole: it starts in the invariant, stays in it, ends after a bounded number
  of deliveries, and then the source has a route that works, unless a relay fell silent on the way.
  Exactly when that cannot happen is the last result before the special case of empty tables.
 */
module OdrRoute {
  import opened OdrNode
  import opened OdrNet
  import opened OdrHops
  import opened OdrTermination
  import opened OdrDiscovery
  import opened OdrCleanRun
  import opened OdrReply

  // ----- the start

  function Question(d: Discovery): Label { Ask(d.src, d.dst, d.forced, d.start) }

  /** A forced request clears the old route first. */
  function Cleared(table: Table, d: Discovery): Table
    requires d.dst < |table|
  {
    if d.forced then table[d.dst := table[d.dst].(nextHop := NoMac())] else table
  }

  function Asked(t: Topology, d: Discovery): Net
    requires Proper(t, d)
  {
    var s := d.found;
    s.(tables := s.tables[d.src := Cleared(s.tables[d.src], d)], ids := s.ids[d.src := d.id],
       frames := FloodFrames(t.links, d.src, Request(d, 0, false)))
  }

  lemma QuestionNext(t: Topology, d: Discovery)
    requires Proper(t, d) && Ready(t, d)
    ensures Sane(t, d.found) && Enabled(t, d.found, Question(d))
    ensures Next(t, d.found, Question(d)) == Asked(t, d)
  {
    var flood := FloodFrames(t.links, d.src, Request(d, 0, false));
    OneSend(t, d.src, Flood(Request(d, 0, false)));
    assert [] + flood == flood;
  }

  lemma StartFloods(t: Topology, d: Discovery)
    requires Legal(t) && Proper(t, d) && Sane(t, Asked(t, d))
    ensures Floods(t, Asked(t, d), d)
  {
    var s, p := Asked(t, d), Request(d, 0, false);
    forall f | f in s.frames && f.p.Rreq? ensures FloodFrame(t, s, d, f) {
      FloodMember(t.links, d.src, p, f);
      var i :| 0 <= i < |s.frames| && s.frames[i] == f;
    }
  }

  /** Nobody has the new id yet. */
  lemma StartReached(t: Topology, d: Discovery, u: nat)
    requires Proper(t, d) && Ready(t, d) && ShapedNet(t, Asked(t, d)) && u < t.n && u != d.src
    ensures !Reached(t, Asked(t, d), d, u) && Asked(t, d).tables[u] == d.found.tables[u] && NewTo(t, d, u)
  {
  }

  lemma StartCovered(t: Topology, d: Discovery)
    requires Legal(t) && Proper(t, d) && Ready(t, d) && ShapedNet(t, Asked(t, d))
    ensures Covered(t, Asked(t, d), d)
  {
    var s, p := Asked(t, d), Request(d, 0, false);
    forall l | l in t.links && l.a.node < t.n && l.b.node < t.n && Reached(t, s, d, l.a.node) && Spreads(t, s, d, l.a.node)
      ensures Reached(t, s, d, l.b.node) || OnItsWay(s.frames, l)
    {
      if l.a.node != d.src { StartReached(t, d, l.a.node); }
      var g := Frame(l.a, l.b, p);
      FloodMember(t.links, d.src, p, g);
      assert g in s.frames;
    }
  }

  lemma StartTables(t: Topology, d: Discovery)
    requires Proper(t, d) && Ready(t, d) && ShapedNet(t, Asked(t, d))
    ensures Tree(t, Asked(t, d), d) && ReplyPhase(t, Asked(t, d), d)
  {
    FloodHasNoReplies(t, d.src, Request(d, 0, false));
    forall u | 0 <= u < t.n && u != d.src
      ensures TreeAt(t, Asked(t, d), d, u) && Asked(t, d).tables[u] == d.found.tables[u] && NewTo(t, d, u)
    {
      StartReached(t, d, u);
    }
    StartReached(t, d, d.dst);
  }

  lemma StartClean(t: Topology, d: Discovery)
    requires Legal(t) && Proper(t, d) && Ready(t, d)
    ensures Clean(t, Asked(t, d), d)
  {
    QuestionNext(t, d);
    StepSane(t, d.found, Question(d));
    StartFloods(t, d);
    StartCovered(t, d);
    StartTables(t, d);
  }

  // ----- the tree

  lemma TheParent(t: Topology, s: Net, d: Discovery, u: nat) returns (l: Link)
    requires ShapedNet(t, s) && Proper(t, d) && Tree(t, s, d) && u < t.n && u != d.src && Reached(t, s, d, u)
    ensures Parent(t, s, d, u, l) && Depth(t, s, d, u) == Depth(t, s, d, l.a.node) + 1
    ensures Depth(t, s, d, l.a.node) >= 0 && l.a.node < t.n && Reached(t, s, d, l.a.node)
  {
    assert TreeAt(t, s, d, u);
    l :| Parent(t, s, d, u, l);
    DepthNonNegative(t, s, d, l.a.node);
  }

  /** The parent is where the entry for the source points. */
  lemma ParentIsNextHop(t: Topology, s: Net, d: Discovery, u: nat, l: Link)
    requires Legal(t) && ShapedNet(t, s) && Proper(t, d) && u < t.n && u != d.src
    requires Parent(t, s, d, u, l)
    ensures Points(t, s, d.src, u, Link(l.b, l.a))
  {
  }

  /** Every reached node's pointers lead to the source in as many steps as its hop count says. */
  lemma {:induction false} PointersLeadBack(t: Topology, s: Net, d: Discovery, u: nat, k: nat)
    requires Legal(t) && ShapedNet(t, s) && Proper(t, d) && Tree(t, s, d) && u < t.n && Reached(t, s, d, u)
    requires Depth(t, s, d, u) == k
    ensures Follow(t, s, d.src, u, d.src, k)
    decreases k
  {
    if u == d.src {
      assert k == 0;
    } else {
      var l := TheParent(t, s, d, u);
      PointersLeadBack(t, s, d, l.a.node, k - 1);
      ParentIsNextHop(t, s, d, u, l);
    }
  }

  /** A step along the pointers, wherever they lead, ends at a reached node exactly one hop nearer. */
  lemma PointersDescend(t: Topology, s: Net, d: Discovery, u: nat, l: Link)
    requires Legal(t) && ShapedNet(t, s) && Proper(t, d) && Tree(t, s, d) && Points(t, s, d.src, u, l) && Reached(t, s, d, u)
    ensures l.b.node < t.n && Reached(t, s, d, l.b.node) && Depth(t, s, d, u) == Depth(t, s, d, l.b.node) + 1
  {
    var p := TheParent(t, s, d, u);
    assert l.b == p.a;
  }

  lemma {:induction false} PathsDescend(t: Topology, s: Net, d: Discovery, u: nat, v: nat, k: nat)
    requires Legal(t) && ShapedNet(t, s) && Proper(t, d) && Tree(t, s, d) && u < t.n && Reached(t, s, d, u)
    requires Follow(t, s, d.src, u, v, k)
    ensures v < t.n && Depth(t, s, d, u) == Depth(t, s, d, v) + k
    decreases k
  {
    if k > 0 {
      var l :| Points(t, s, d.src, u, l) && Follow(t, s, d.src, l.b.node, v, k - 1);
      PointersDescend(t, s, d, u, l);
      PathsDescend(t, s, d, l.b.node, v, k - 1);
    }
  }

  /** The node's pointers lead to the source in as many steps as its hop count says. */
  ghost predicate MeasuredAt(t: Topology, s: Net, d: Discovery, u: nat)
    requires ShapedNet(t, s) && Proper(t, d) && u < t.n
  {
    Routed(s.tables[u][d.src]) && s.tables[u][d.src].hops >= 1 && Follow(t, s, d.src, u, d.src, s.tables[u][d.src].hops)
  }

  /** Following the entries for the source from here never comes back. */
  ghost predicate LoopFreeAt(t: Topology, s: Net, d: Discovery, u: nat)
    requires ShapedNet(t, s) && Proper(t, d) && u < t.n
  {
    forall k: nat :: Follow(t, s, d.src, u, u, k) ==> k == 0
  }

  /** Every node the request got to is measured and free of loops; every other node is as it was found. */
  ghost predicate RootedTree(t: Topology, s: Net, d: Discovery)
    requires ShapedNet(t, s) && Proper(t, d)
  {
    forall u :: 0 <= u < t.n && u != d.src ==>
      if Reached(t, s, d, u) then MeasuredAt(t, s, d, u) && LoopFreeAt(t, s, d, u) else s.tables[u] == d.found.tables[u]
  }

  /** The pointers towards the source have no loop. */
  lemma NoLoops(t: Topology, s: Net, d: Discovery, u: nat)
    requires Legal(t) && ShapedNet(t, s) && Proper(t, d) && Tree(t, s, d) && u < t.n && Reached(t, s, d, u)
    ensures LoopFreeAt(t, s, d, u)
  {
    forall k: nat | Follow(t, s, d.src, u, u, k) ensures k == 0 {
      PathsDescend(t, s, d, u, u, k);
    }
  }

  lemma TreeMeasured(t: Topology, s: Net, d: Discovery)
    requires Legal(t) && ShapedNet(t, s) && Proper(t, d) && Tree(t, s, d)
    ensures RootedTree(t, s, d)
  {
    forall u | 0 <= u < t.n && u != d.src
      ensures if Reached(t, s, d, u) then MeasuredAt(t, s, d, u) && LoopFreeAt(t, s, d, u)
              else s.tables[u] == d.found.tables[u]
    {
      assert TreeAt(t, s, d, u);
      if Reached(t, s, d, u) {
        PointersLeadBack(t, s, d, u, s.tables[u][d.src].hops);
        NoLoops(t, s, d, u);
      }
    }
  }

  // ----- how deep the tree can be

  ghost function Outside(t: Topology, s: Net, d: Discovery, m: nat): nat
    requires ShapedNet(t, s) && Proper(t, d) && m <= t.n
  {
    if m == 0 then 0 else Outside(t, s, d, m - 1) + if Reached(t, s, d, m - 1) then 0 else 1
  }

  ghost predicate Shallow(t: Topology, s: Net, d: Discovery)
    requires ShapedNet(t, s) && Proper(t, d)
  {
    forall u :: 0 <= u < t.n && Reached(t, s, d, u) ==> Depth(t, s, d, u) + Outside(t, s, d, t.n) <= t.n
  }

  lemma {:induction false} OutsideSame(t: Topology, s: Net, r: Net, d: Discovery, m: nat)
    requires ShapedNet(t, s) && ShapedNet(t, r) && Proper(t, d) && m <= t.n
    requires forall u :: 0 <= u < m ==> Reached(t, r, d, u) == Reached(t, s, d, u)
    ensures Outside(t, r, d, m) == Outside(t, s, d, m)
    decreases m
  {
    if m > 0 { OutsideSame(t, s, r, d, m - 1); }
  }

  lemma {:induction false} OutsideDrops(t: Topology, s: Net, r: Net, d: Discovery, v: nat, m: nat)
    requires ShapedNet(t, s) && ShapedNet(t, r) && Proper(t, d) && v < m <= t.n && !Reached(t, s, d, v)
    requires forall u :: 0 <= u < t.n ==> Reached(t, r, d, u) == (Reached(t, s, d, u) || u == v)
    ensures Outside(t, r, d, m) + 1 == Outside(t, s, d, m)
    decreases m
  {
    if v == m - 1 { OutsideSame(t, s, r, d, m - 1); } else { OutsideDrops(t, s, r, d, v, m - 1); }
  }

  lemma {:induction false} OutsideBound(t: Topology, s: Net, d: Discovery, m: nat)
    requires ShapedNet(t, s) && Proper(t, d) && m <= t.n
    ensures Outside(t, s, d, m) <= m
    decreases m
  {
    if m > 0 { OutsideBound(t, s, d, m - 1); }
  }

  lemma GrownShallow(t: Topology, s: Net, r: Net, d: Discovery, f: Frame, now: int)
    requires Legal(t) && Grown(t, s, r, d, f, now) && f.p.Rreq? && FloodFrame(t, s, d, f) && Shallow(t, s, d)
    ensures Shallow(t, r, d)
  {
    forall u | 0 <= u < t.n ensures Reached(t, r, d, u) == (Reached(t, s, d, u) || u == f.to.node) {
      GrownReached(t, s, r, d, f, now, u);
    }
    OutsideDrops(t, s, r, d, f.to.node, t.n);
    forall u | 0 <= u < t.n && Reached(t, r, d, u) ensures Depth(t, r, d, u) + Outside(t, r, d, t.n) <= t.n {
      GrownReached(t, s, r, d, f, now, u);
    }
  }

  lemma SameShallow(t: Topology, s: Net, r: Net, d: Discovery)
    requires ShapedNet(t, s) && ShapedNet(t, r) && Proper(t, d) && Shallow(t, s, d)
    requires forall u :: 0 <= u < t.n ==>
      Reached(t, r, d, u) == Reached(t, s, d, u) && Depth(t, r, d, u) == Depth(t, s, d, u)
    ensures Shallow(t, r, d)
  {
    OutsideSame(t, s, r, d, t.n);
  }

  // ----- the number of deliveries

  function TheKey(d: Discovery): Key { Key(d.src, d.dst, d.id) }

  /** How far the reply still has to travel, counting the one not yet created. */
  ghost function ReplyWork(t: Topology, s: Net, d: Discovery): int
    requires ShapedNet(t, s) && Proper(t, d)
  {
    var replies := Replies(s.frames);
    (if Reached(t, s, d, d.dst) then 0 else t.n + 1)
    + if replies != [] && replies[0].to.node < t.n then Depth(t, s, d, replies[0].to.node) + 1 else 0
  }

  ghost function Work(t: Topology, s: Net, d: Discovery): int
    requires ShapedNet(t, s) && Proper(t, d)
  {
    Weight(t, s, TheKey(d)) + ReplyWork(t, s, d)
  }

  lemma WorkNonNegative(t: Topology, s: Net, d: Discovery)
    requires ShapedNet(t, s) && Proper(t, d) && Tree(t, s, d) && ReplyPhase(t, s, d)
    ensures Work(t, s, d) >= 0
  {
    if Replies(s.frames) != [] {
      ReplyReceiver(t, s, d);
      DepthNonNegative(t, s, d, Replies(s.frames)[0].to.node);
    }
  }

  lemma ReplyReceiver(t: Topology, s: Net, d: Discovery)
    requires ShapedNet(t, s) && Proper(t, d) && ReplyPhase(t, s, d) && Replies(s.frames) != []
    ensures var f := Replies(s.frames)[0]; f.to.node < t.n && Reached(t, s, d, f.to.node)
  {
    assert ReplyFrame(t, s, d, Replies(s.frames)[0]);
  }

  lemma RequestWork(t: Topology, s: Net, d: Discovery, i: nat, now: int)
    requires Clean(t, s, d) && i < |s.frames| && s.frames[i].p.Rreq?
    ensures Sane(t, Next(t, s, Deliver(i, now)))
    ensures Weight(t, Next(t, s, Deliver(i, now)), TheKey(d)) + 1 <= Weight(t, s, TheKey(d))
  {
    assert s.frames[i] in s.frames;
    assert Carries(s.frames[i], TheKey(d));
    DeliverWeight(t, s, Deliver(i, now), TheKey(d));
  }

  lemma IgnoreReplyWork(t: Topology, s: Net, d: Discovery, i: nat)
    requires ShapedNet(t, s) && Proper(t, d) && i < |s.frames| && s.frames[i].p.Rreq? && Shallow(t, s, d)
    ensures var r := s.(frames := Without(s.frames, i)); ReplyWork(t, r, d) == ReplyWork(t, s, d) && Shallow(t, r, d)
  {
    RepliesWithout(s.frames, i);
    SameShallow(t, s, s.(frames := Without(s.frames, i)), d);
  }

  lemma IgnoreWork(t: Topology, s: Net, d: Discovery, i: nat, now: int)
    requires Clean(t, s, d) && Shallow(t, s, d) && i < |s.frames| && Timely(t, d, now)
    requires s.frames[i].p.Rreq? && Reached(t, s, d, s.frames[i].to.node)
    ensures var r := Next(t, s, Deliver(i, now)); Clean(t, r, d) && Shallow(t, r, d) && Work(t, r, d) < Work(t, s, d)
  {
    var r := Next(t, s, Deliver(i, now));
    IgnoreStep(t, s, d, i, now);
    IgnoreNext(t, s, d, i, now);
    RequestWork(t, s, d, i, now);
    IgnoreReplyWork(t, s, d, i);
  }

  lemma GrownReplyWork(t: Topology, s: Net, r: Net, d: Discovery, f: Frame, now: int)
    requires Grown(t, s, r, d, f, now) && ReplyPhase(t, s, d) && f.to.node != d.dst
    requires Replies(r.frames) == Replies(s.frames)
    ensures ReplyWork(t, r, d) == ReplyWork(t, s, d)
  {
    GrownReached(t, s, r, d, f, now, d.dst);
    var replies := Replies(s.frames);
    if replies != [] {
      GrownReached(t, s, r, d, f, now, replies[0].to.node);
    }
  }

  lemma JoinWork(t: Topology, s: Net, d: Discovery, i: nat, now: int)
    requires Clean(t, s, d) && Shallow(t, s, d) && i < |s.frames| && Timely(t, d, now)
    requires s.frames[i].p.Rreq? && !Reached(t, s, d, s.frames[i].to.node) && s.frames[i].to.node != d.dst
    ensures var r := Next(t, s, Deliver(i, now)); Clean(t, r, d) && Shallow(t, r, d) && Work(t, r, d) < Work(t, s, d)
  {
    var f := s.frames[i];
    NewArrival(t, s, d, i);
    JoinStep(t, s, d, i, now);
    var r := JoinNext(t, s, d, i, now);
    JoinReplies(t, s, r, d, i, f.p.replied, PassesOn(t, d, f, now));
    RequestWork(t, s, d, i, now);
    GrownShallow(t, s, r, d, f, now);
    GrownReplyWork(t, s, r, d, f, now);
  }

  lemma AnswerReplyWork(t: Topology, s: Net, r: Net, d: Discovery, f: Frame, now: int)
    requires Legal(t) && Grown(t, s, r, d, f, now) && f.p.Rreq? && FloodFrame(t, s, d, f) && f.to.node == d.dst
    requires Shallow(t, s, d) && Replies(s.frames) == [] && Replies(r.frames) == [FirstReplyFrame(d, f)]
    ensures ReplyWork(t, r, d) <= ReplyWork(t, s, d)
  {
    GrownReached(t, s, r, d, f, now, d.dst);
    GrownReached(t, s, r, d, f, now, f.from.node);
  }

  lemma AnswerWork(t: Topology, s: Net, d: Discovery, i: nat, now: int)
    requires Clean(t, s, d) && Shallow(t, s, d) && i < |s.frames| && Timely(t, d, now)
    requires s.frames[i].p.Rreq? && !Reached(t, s, d, d.dst) && s.frames[i].to.node == d.dst
    ensures var r := Next(t, s, Deliver(i, now)); Clean(t, r, d) && Shallow(t, r, d) && Work(t, r, d) < Work(t, s, d)
  {
    var f := s.frames[i];
    NewArrival(t, s, d, i);
    AnswerStep(t, s, d, i, now);
    var r := AnswerNext(t, s, d, i, now);
    RequestWork(t, s, d, i, now);
    GrownShallow(t, s, r, d, f, now);
    AnswerReplyWork(t, s, r, d, f, now);
  }

  lemma ReplyWeight(t: Topology, s: Net, d: Discovery, i: nat, now: int)
    requires Clean(t, s, d) && i < |s.frames| && s.frames[i].p.Rrep?
    ensures Sane(t, Next(t, s, Deliver(i, now)))
    ensures Weight(t, Next(t, s, Deliver(i, now)), TheKey(d)) <= Weight(t, s, TheKey(d))
  {
    DeliverWeight(t, s, Deliver(i, now), TheKey(d));
  }

  lemma ForwardedShallow(t: Topology, s: Net, r: Net, d: Discovery, f: Frame)
    requires Forwarded(t, s, r, d, f) && Shallow(t, s, d)
    ensures Shallow(t, r, d)
  {
    forall u | 0 <= u < t.n
      ensures Reached(t, r, d, u) == Reached(t, s, d, u) && Depth(t, r, d, u) == Depth(t, s, d, u)
    {
      ForwardedTree(t, s, r, d, f, u);
    }
    SameShallow(t, s, r, d);
  }

  lemma HomeReplyWork(t: Topology, s: Net, r: Net, d: Discovery, f: Frame)
    requires Forwarded(t, s, r, d, f) && f.to.node == d.src
    requires Replies(s.frames) == [f] && Replies(r.frames) == []
    ensures ReplyWork(t, r, d) < ReplyWork(t, s, d)
  {
    ForwardedTree(t, s, r, d, f, d.dst);
  }

  lemma RelayReplyWork(t: Topology, s: Net, r: Net, d: Discovery, f: Frame, l: Link)
    requires Forwarded(t, s, r, d, f) && f.to.node != d.src && Parent(t, r, d, f.to.node, l)
    requires Replies(s.frames) == [f] && Replies(r.frames) == [RelayFrame(d, f, l)]
    ensures ReplyWork(t, r, d) < ReplyWork(t, s, d)
  {
    ForwardedTree(t, s, r, d, f, d.dst);
    ForwardedTree(t, s, r, d, f, f.to.node);
  }

  lemma HomeWork(t: Topology, s: Net, d: Discovery, i: nat, now: int)
    requires Clean(t, s, d) && Shallow(t, s, d) && i < |s.frames|
    requires s.frames[i].p.Rrep? && s.frames[i].to.node == d.src
    ensures var r := Next(t, s, Deliver(i, now)); Clean(t, r, d) && Shallow(t, r, d) && Work(t, r, d) < Work(t, s, d)
  {
    var f, r := s.frames[i], Next(t, s, Deliver(i, now));
    HomeStep(t, s, d, i, now);
    ReplyInFlight(t, s, d, i);
    ReplyNext(t, s, d, i, now);
    ReplyWeight(t, s, d, i, now);
    ForwardedShallow(t, s, r, d, f);
    HomeReplyWork(t, s, r, d, f);
  }

  lemma RelayWork(t: Topology, s: Net, d: Discovery, i: nat, now: int)
    requires Clean(t, s, d) && Shallow(t, s, d) && i < |s.frames|
    requires s.frames[i].p.Rrep? && s.frames[i].to.node != d.src
    ensures var r := Next(t, s, Deliver(i, now)); Clean(t, r, d) && Shallow(t, r, d) && Work(t, r, d) < Work(t, s, d)
  {
    var f, r := s.frames[i], Next(t, s, Deliver(i, now));
    var l := RelayStep(t, s, d, i, now);
    ReplyInFlight(t, s, d, i);
    ReplyNext(t, s, d, i, now);
    ReplyWeight(t, s, d, i, now);
    ForwardedShallow(t, s, r, d, f);
    RelayReplyWork(t, s, r, d, f, l);
  }

  lemma DeliverWork(t: Topology, s: Net, d: Discovery, i: nat, now: int)
    requires Clean(t, s, d) && Shallow(t, s, d) && i < |s.frames| && Timely(t, d, now)
    ensures var r := Next(t, s, Deliver(i, now)); Clean(t, r, d) && Shallow(t, r, d) && Work(t, r, d) < Work(t, s, d)
  {
    var f := s.frames[i];
    if f.p.Rreq? {
      if Reached(t, s, d, f.to.node) {
        IgnoreWork(t, s, d, i, now);
      } else if f.to.node == d.dst {
        AnswerWork(t, s, d, i, now);
      } else {
        JoinWork(t, s, d, i, now);
      }
    } else if f.to.node == d.src {
      HomeWork(t, s, d, i, now);
    } else {
      RelayWork(t, s, d, i, now);
    }
  }

  // ----- whole runs

  /** Deliveries only, all before anything can expire. */
  predicate InTime(t: Topology, d: Discovery, run: seq<Label>) {
    forall i :: 0 <= i < |run| ==> run[i].Deliver? && Timely(t, d, run[i].now)
  }

  /** The invariant, and no more than w deliveries to go. */
  ghost predicate Within(t: Topology, s: Net, d: Discovery, w: int) {
    var clean := Clean(t, s, d);
    clean && Shallow(t, s, d) && Work(t, s, d) <= w
  }

  lemma StepWithin(t: Topology, s: Net, d: Discovery, l: Label, w: int)
    requires Within(t, s, d, w) && Enabled(t, s, l) && l.Deliver? && Timely(t, d, l.now)
    ensures Sane(t, s) && Within(t, Next(t, s, l), d, w - 1)
  {
    DeliverWork(t, s, d, l.i, l.now);
  }

  lemma CleanRun(t: Topology, s: Net, d: Discovery, run: seq<Label>, r: Net, w: int)
    requires Within(t, s, d, w) && InTime(t, d, run) && Runs(t, s, run, r)
    ensures Within(t, r, d, w - |run|)
  {
    var allowed := (l: Label) => l.Deliver? && Timely(t, d, l.now);
    var inv := (x: Net, v: int) => Within(t, x, d, v);
    forall x, l, v | inv(x, v) && Sane(t, x) && Enabled(t, x, l) && allowed(l) ensures inv(Next(t, x, l), v - 1) {
      StepWithin(t, x, d, l, v);
    }
    Along(t, allowed, inv, s, run, r, w);
  }

  lemma StartShallow(t: Topology, d: Discovery)
    requires Legal(t) && Proper(t, d) && Ready(t, d) && ShapedNet(t, Asked(t, d))
    ensures Shallow(t, Asked(t, d), d)
  {
    OutsideBound(t, Asked(t, d), d, t.n);
    forall u | 0 <= u < t.n && Reached(t, Asked(t, d), d, u) ensures u == d.src {
      if u != d.src { StartReached(t, d, u); }
    }
  }

  lemma StartWork(t: Topology, d: Discovery)
    requires Legal(t) && Proper(t, d) && Ready(t, d)
    ensures Sane(t, Asked(t, d)) && Work(t, Asked(t, d), d) <= |t.links| * t.n + |t.links| + t.n + 1
  {
    QuestionNext(t, d);
    WeightAtStart(t, d.found, TheKey(d));
    AskWeight(t, d.found, Question(d), TheKey(d));
    FloodHasNoReplies(t, d.src, Request(d, 0, false));
  }

  lemma StartWithin(t: Topology, d: Discovery)
    requires Legal(t) && Proper(t, d) && Ready(t, d)
    ensures Sane(t, Asked(t, d)) && Within(t, Asked(t, d), d, Work(t, Asked(t, d), d))
    ensures Work(t, Asked(t, d), d) >= 0
  {
    StartClean(t, d);
    StartShallow(t, d);
    WorkNonNegative(t, Asked(t, d), d);
  }

  /** The state a discovery is in after any number of deliveries. */
  lemma CleanState(t: Topology, d: Discovery, run: seq<Label>, r: Net)
    requires Legal(t) && Proper(t, d) && Ready(t, d) && InTime(t, d, run) && Runs(t, d.found, [Question(d)] + run, r)
    ensures Clean(t, r, d) && |run| <= |t.links| * t.n + |t.links| + t.n + 1
  {
    var all := [Question(d)] + run;
    QuestionNext(t, d);
    assert all[1..] == run;
    StartWork(t, d);
    StartWithin(t, d);
    CleanRun(t, Asked(t, d), d, run, r, Work(t, Asked(t, d), d));
    WorkNonNegative(t, r, d);
  }

  // ----- who is sure to be reached

  /** The node's old route to the destination turns stale while the discovery is under way. */
  predicate AtRisk(t: Topology, d: Discovery, u: nat)
    requires Proper(t, d) && u < t.n
  {
    var e := d.found.tables[u][d.dst];
    Routed(e) && Timely(t, d, e.stamp + t.stale)
  }

  /** A node that passes the request on whenever it comes. */
  predicate Relays(t: Topology, d: Discovery, u: nat)
    requires Proper(t, d) && u < t.n
  {
    if u == d.src then true
    else if u == d.dst then !Routed(d.found.tables[u][d.src])
    else !AtRisk(t, d, u)
  }

  /** A walk of k links from the source to u over such nodes. */
  ghost predicate OpenWalk(t: Topology, d: Discovery, u: nat, k: nat)
    requires Proper(t, d)
    decreases k
  {
    if k == 0 then u == d.src
    else exists l :: l in t.links && l.b.node == u && OpenLink(t, d, l) && OpenWalk(t, d, l.a.node, k - 1)
  }

  predicate OpenLink(t: Topology, d: Discovery, l: Link)
    requires Proper(t, d)
  {
    l.a.node < t.n && Relays(t, d, l.a.node)
  }

  ghost predicate Open(t: Topology, d: Discovery, u: nat)
    requires Proper(t, d)
  {
    exists k: nat :: OpenWalk(t, d, u, k)
  }

  lemma RelaysSpread(t: Topology, s: Net, d: Discovery, u: nat)
    requires ShapedNet(t, s) && Proper(t, d) && Tree(t, s, d) && u < t.n && Reached(t, s, d, u) && Relays(t, d, u)
    ensures Spreads(t, s, d, u)
  {
    if u != d.src { assert TreeAt(t, s, d, u); }
  }

  /** Every neighbour of a reached node that is sure to pass the request on is reached. */
  ghost predicate Closed(t: Topology, s: Net, d: Discovery)
    requires ShapedNet(t, s) && Proper(t, d)
  {
    forall l :: l in t.links && OpenLink(t, d, l) ==>
      l.b.node < t.n && (Reached(t, s, d, l.a.node) ==> Reached(t, s, d, l.b.node))
  }

  lemma QuietClosed(t: Topology, s: Net, d: Discovery)
    requires Clean(t, s, d) && s.frames == []
    ensures Closed(t, s, d)
  {
    forall l | l in t.links && OpenLink(t, d, l)
      ensures l.b.node < t.n && (Reached(t, s, d, l.a.node) ==> Reached(t, s, d, l.b.node))
    {
      if Reached(t, s, d, l.a.node) { RelaysSpread(t, s, d, l.a.node); }
    }
  }

  /** With nothing in flight, everything that an open walk leads to has been reached. */
  lemma {:induction false} OpenReached(t: Topology, s: Net, d: Discovery, u: nat, k: nat)
    requires ShapedNet(t, s) && Proper(t, d) && Closed(t, s, d) && u < t.n && OpenWalk(t, d, u, k)
    ensures Reached(t, s, d, u)
    decreases k
  {
    if k > 0 {
      var l :| l in t.links && l.b.node == u && OpenLink(t, d, l) && OpenWalk(t, d, l.a.node, k - 1);
      OpenReached(t, s, d, l.a.node, k - 1);
    }
  }

  lemma QuietReached(t: Topology, s: Net, d: Discovery)
    requires Clean(t, s, d) && s.frames == []
    ensures forall u :: 0 <= u < t.n && Open(t, d, u) ==> Reached(t, s, d, u)
  {
    QuietClosed(t, s, d);
    forall u | 0 <= u < t.n && Open(t, d, u) ensures Reached(t, s, d, u) {
      var k: nat :| OpenWalk(t, d, u, k);
      OpenReached(t, s, d, u, k);
    }
  }

  // ----- the route

  /** The source has a route, and its next hops lead to the destination in hops_to_dest steps. */
  ghost predicate HasRoute(t: Topology, s: Net, d: Discovery)
    requires Proper(t, d)
  {
    && ShapedNet(t, s) && Routed(s.tables[d.src][d.dst]) && s.tables[d.src][d.dst].hops >= 1
    && Chain(t, s, d, d.src, s.tables[d.src][d.dst].hops)
  }

  lemma RouteWorks(t: Topology, s: Net, d: Discovery)
    requires Clean(t, s, d) && Routed(s.tables[d.src][d.dst])
    ensures HasRoute(t, s, d) && Reached(t, s, d, d.dst) && s.tables[d.src][d.dst].hops == Depth(t, s, d, d.dst)
  {
    DescentIsChain(t, s, d, d.src, s.tables[d.src][d.dst].hops);
    DescentDepth(t, s, d, d.src, s.tables[d.src][d.dst].hops);
  }

  lemma QuietRoute(t: Topology, s: Net, d: Discovery)
    requires Clean(t, s, d) && s.frames == [] && Reached(t, s, d, d.dst)
    ensures NewAnswers(s, d) == 1 && HasRoute(t, s, d)
  {
    assert Replies(s.frames) == [];
    RouteWorks(t, s, d);
  }

  /** Every node a reply is about to be relayed by has a route back to the source. */
  ghost predicate RelaysRouted(t: Topology, s: Net, d: Discovery)
    requires ShapedNet(t, s) && Proper(t, d)
  {
    forall i :: 0 <= i < |s.frames| && s.frames[i].p.Rrep? && s.frames[i].to.node != d.src ==>
      s.frames[i].to.node < t.n && Routed(s.tables[s.frames[i].to.node][d.src])
  }

  lemma RelaysHaveRoutes(t: Topology, s: Net, d: Discovery)
    requires Clean(t, s, d)
    ensures RelaysRouted(t, s, d)
  {
    forall i | 0 <= i < |s.frames| && s.frames[i].p.Rrep? && s.frames[i].to.node != d.src
      ensures s.frames[i].to.node < t.n && Routed(s.tables[s.frames[i].to.node][d.src])
    {
      ReplyInFlight(t, s, d, i);
      assert TreeAt(t, s, d, s.frames[i].to.node);
    }
  }

  /**
    A discovery, forced over whatever tables there are or unforced where neither end is known, keeps
    this in every state: the pointers of the nodes the request got to form a loop-free tree whose
    depth is the hop count and the other tables are untouched, at most one reply is created, every
    relay it meets has a route back, and as soon as the source has a route its next hops lead to the
    destination in hops_to_dest steps, as many as the destination is deep in the tree. No more
    deliveries happen than the bound.
   */
  lemma DiscoveryBuildsTree(t: Topology, d: Discovery, run: seq<Label>, r: Net)
    requires Legal(t) && Proper(t, d) && Ready(t, d) && InTime(t, d, run) && Runs(t, d.found, [Question(d)] + run, r)
    ensures ShapedNet(t, r) && |run| <= |t.links| * t.n + |t.links| + t.n + 1
    ensures RootedTree(t, r, d) && RelaysRouted(t, r, d) && 0 <= NewAnswers(r, d) <= 1
    ensures r.tables[d.src][d.src] == d.found.tables[d.src][d.src]
    ensures Routed(r.tables[d.src][d.dst]) ==>
      HasRoute(t, r, d) && Reached(t, r, d, d.dst) && r.tables[d.src][d.dst].hops == Depth(t, r, d, d.dst)
  {
    CleanState(t, d, run, r);
    TreeMeasured(t, r, d);
    RelaysHaveRoutes(t, r, d);
    if Routed(r.tables[d.src][d.dst]) { RouteWorks(t, r, d); }
  }

  /** The run has delivered everything, in time. */
  ghost predicate Completes(t: Topology, d: Discovery, run: seq<Label>, r: Net) {
    InTime(t, d, run) && Runs(t, d.found, [Question(d)] + run, r) && r.frames == []
  }

  /** When everything is delivered, every node at the end of an open walk has been reached, and if the
      destination is one of them, exactly one reply was created and the source has its route. */
  lemma DiscoverySucceeds(t: Topology, d: Discovery, run: seq<Label>, r: Net)
    requires Legal(t) && Proper(t, d) && Ready(t, d) && Completes(t, d, run, r)
    ensures ShapedNet(t, r) && forall u :: 0 <= u < t.n && Open(t, d, u) ==> Reached(t, r, d, u)
    ensures Open(t, d, d.dst) ==> NewAnswers(r, d) == 1 && HasRoute(t, r, d)
  {
    CleanState(t, d, run, r);
    QuietReached(t, r, d);
    if Open(t, d, d.dst) { QuietRoute(t, r, d); }
  }

  // ----- the one second in which a relay says nothing

  /** When to deliver to u so that it says nothing, if that can be. */
  function Moment(t: Topology, d: Discovery, u: nat): int
    requires Proper(t, d) && u < t.n
  {
    if AtRisk(t, d, u) then d.found.tables[u][d.dst].stamp + t.stale else d.start
  }

  /** What is in flight comes over open walks, and the destination has not been reached. */
  ghost predicate Hushed(t: Topology, s: Net, d: Discovery)
    requires ShapedNet(t, s) && Proper(t, d)
  {
    && !Reached(t, s, d, d.dst)
    && forall f :: f in s.frames ==> OpenSource(t, d, f)
  }

  ghost predicate OpenSource(t: Topology, d: Discovery, f: Frame)
    requires Proper(t, d)
  {
    f.from.node < t.n && Open(t, d, f.from.node) && Relays(t, d, f.from.node)
  }

  lemma OpenFurther(t: Topology, d: Discovery, f: Frame)
    requires Proper(t, d) && ShapedFrame(t, f) && OpenSource(t, d, f)
    ensures Open(t, d, f.to.node)
  {
    var k: nat :| OpenWalk(t, d, f.from.node, k);
    var l := Link(f.from, f.to);
    assert l in t.links && l.b.node == f.to.node && OpenLink(t, d, l) && OpenWalk(t, d, l.a.node, k);
    assert OpenWalk(t, d, f.to.node, k + 1);
  }

  lemma HushedJoin(t: Topology, s: Net, r: Net, d: Discovery, i: nat)
    requires ShapedNet(t, s) && Proper(t, d) && Hushed(t, s, d) && i < |s.frames| && s.frames[i].to.node < t.n
    requires Open(t, d, s.frames[i].to.node) && s.frames[i].to.node != d.dst
    requires Grown(t, s, r, d, s.frames[i], Moment(t, d, s.frames[i].to.node))
    requires s.frames[i].p.Rreq?
    requires JoinFrames(t, s, r, d, i, s.frames[i].p.replied,
                        PassesOn(t, d, s.frames[i], Moment(t, d, s.frames[i].to.node)), [])
    ensures Hushed(t, r, d)
  {
    var f, now := s.frames[i], Moment(t, d, s.frames[i].to.node);
    GrownReached(t, s, r, d, f, now, d.dst);
    forall g | g in r.frames ensures OpenSource(t, d, g) {
      JoinMember(t, s, r, d, i, f.p.replied, PassesOn(t, d, f, now), [], g);
      if g in Without(s.frames, i) {
        assert OpenSource(t, d, g);
      } else {
        FloodMember(t.links, f.to.node, Request(d, f.p.hop + 1, f.p.replied), g);
      }
    }
  }

  lemma HushedIgnore(t: Topology, s: Net, d: Discovery, i: nat)
    requires ShapedNet(t, s) && Proper(t, d) && Hushed(t, s, d) && i < |s.frames|
    ensures Hushed(t, s.(frames := Without(s.frames, i)), d)
  {
    assert forall g :: g in Without(s.frames, i) ==> g in s.frames;
  }

  lemma HushedStep(t: Topology, s: Net, d: Discovery) returns (now: int)
    requires Clean(t, s, d) && Hushed(t, s, d) && s.frames != [] && t.stale > 0 && !Open(t, d, d.dst)
    ensures Timely(t, d, now) && Sane(t, Next(t, s, Deliver(0, now))) && Hushed(t, Next(t, s, Deliver(0, now)), d)
  {
    var f := s.frames[0];
    now := Moment(t, d, f.to.node);
    RepliesWithout(s.frames, 0);
    assert OpenSource(t, d, f);
    OpenFurther(t, d, f);
    StepSane(t, s, Deliver(0, now));
    if Reached(t, s, d, f.to.node) {
      IgnoreNext(t, s, d, 0, now);
      HushedIgnore(t, s, d, 0);
    } else {
      NewArrival(t, s, d, 0);
      var r := JoinNext(t, s, d, 0, now);
      HushedJoin(t, s, r, d, 0);
    }
  }

  lemma RunsMore(t: Topology, s: Net, l: Label, run: seq<Label>, r: Net)
    requires Sane(t, s) && Enabled(t, s, l) && Runs(t, Next(t, s, l), run, r)
    ensures Runs(t, s, [l] + run, r)
  {
    assert ([l] + run)[1..] == run;
  }

  /** A hushed state with no more than w deliveries to go. */
  ghost predicate HushedWithin(t: Topology, s: Net, d: Discovery, w: int) {
    Within(t, s, d, w) && Hushed(t, s, d)
  }

  lemma HushedNext(t: Topology, s: Net, d: Discovery, w: int) returns (l: Label, m: Net)
    requires HushedWithin(t, s, d, w) && s.frames != [] && t.stale > 0 && !Open(t, d, d.dst)
    ensures l.Deliver? && Timely(t, d, l.now) && Sane(t, s) && Enabled(t, s, l) && m == Next(t, s, l)
    ensures HushedWithin(t, m, d, w - 1) && w >= 1
  {
    var now := HushedStep(t, s, d);
    l := Deliver(0, now);
    m := Next(t, s, l);
    StepWithin(t, s, d, l, w);
    WorkNonNegative(t, m, d);
  }

  lemma InTimeMore(t: Topology, d: Discovery, l: Label, run: seq<Label>)
    requires InTime(t, d, run) && l.Deliver? && Timely(t, d, l.now)
    ensures InTime(t, d, [l] + run)
  {
  }

  /** Delivering each frame at its receiver's moment never reaches a destination that no open walk leads to. */
  lemma {:induction false} HushedRun(t: Topology, s: Net, d: Discovery, w: nat) returns (run: seq<Label>, r: Net)
    requires HushedWithin(t, s, d, w) && Proper(t, d) && t.stale > 0 && !Open(t, d, d.dst)
    ensures InTime(t, d, run) && Runs(t, s, run, r) && r.frames == [] && HushedWithin(t, r, d, w)
    decreases w
  {
    if s.frames == [] {
      run, r := [], s;
    } else {
      var l, m := HushedNext(t, s, d, w);
      run, r := HushedRun(t, m, d, w - 1);
      RunsMore(t, s, l, run, r);
      InTimeMore(t, d, l, run);
      run := [l] + run;
      assert HushedWithin(t, r, d, w) by { Slack(t, r, d, w - 1, w); }
    }
  }

  lemma Slack(t: Topology, s: Net, d: Discovery, v: int, w: int)
    requires HushedWithin(t, s, d, v) && v <= w
    ensures HushedWithin(t, s, d, w)
  {
  }

  lemma StartHushed(t: Topology, d: Discovery)
    requires Legal(t) && Proper(t, d) && Ready(t, d) && ShapedNet(t, Asked(t, d))
    ensures Hushed(t, Asked(t, d), d)
  {
    StartReached(t, d, d.dst);
    assert OpenWalk(t, d, d.src, 0);
    forall f | f in Asked(t, d).frames ensures OpenSource(t, d, f) {
      FloodMember(t.links, d.src, Request(d, 0, false), f);
    }
  }

  /** A run that delivers everything in time and gives the source no route. */
  lemma SilentRun(t: Topology, d: Discovery) returns (run: seq<Label>, r: Net)
    requires Legal(t) && Proper(t, d) && Ready(t, d) && t.stale > 0 && !Open(t, d, d.dst)
    ensures Completes(t, d, run, r) && !HasRoute(t, r, d)
  {
    StartWithin(t, d);
    StartHushed(t, d);
    QuestionNext(t, d);
    run, r := HushedRun(t, Asked(t, d), d, Work(t, Asked(t, d), d));
    RunsMore(t, d.found, Question(d), run, r);
  }

  /**
    Exactly when a discovery is sure to succeed: every timely run that delivers everything gives the
    source a route if and only if a walk leads to the destination over nodes none of which holds a
    route to it that turns stale while the discovery is under way.
   */
  lemma SuccessIsOpen(t: Topology, d: Discovery)
    requires Legal(t) && Proper(t, d) && Ready(t, d) && t.stale > 0
    ensures Open(t, d, d.dst) <==> forall run, r :: Completes(t, d, run, r) ==> HasRoute(t, r, d)
  {
    if Open(t, d, d.dst) {
      forall run, r | Completes(t, d, run, r) ensures HasRoute(t, r, d) { DiscoverySucceeds(t, d, run, r); }
    } else {
      var run, r := SilentRun(t, d);
    }
  }

  // ----- from empty tables

  ghost predicate Joinable(t: Topology, src: nat, u: nat) { exists k: nat :: Walk(t, src, u, k) }

  ghost predicate Connected(t: Topology, src: nat) {
    forall u :: 0 <= u < t.n ==> Joinable(t, src, u)
  }

  /** The first discovery in a network without routes. */
  ghost predicate FirstEver(t: Topology, d: Discovery) {
    d.src < t.n && d.dst < t.n && d.src != d.dst && d.found == Init(t) && d.id == 1
  }

  lemma FirstIsReady(t: Topology, d: Discovery)
    requires FirstEver(t, d)
    ensures Proper(t, d) && Ready(t, d)
    ensures forall u :: 0 <= u < t.n ==> Relays(t, d, u) && forall x :: 0 <= x < t.n ==> !Routed(d.found.tables[u][x])
  {
    InitSane(t);
  }

  /**
    During the first discovery the pointers back to the source form a loop-free tree whose depth
    is the hop count, at most one reply exists, every relay it meets has a route back, and as
    soon as the source has a route its next hops lead to the destination in hops_to_dest steps.
    No more deliveries happen than the bound.
   */
  lemma CleanDiscovery(t: Topology, d: Discovery, run: seq<Label>, r: Net)
    requires Legal(t) && FirstEver(t, d) && InTime(t, d, run) && Runs(t, Init(t), [Question(d)] + run, r)
    ensures Proper(t, d) && ShapedNet(t, r) && |run| <= |t.links| * t.n + |t.links| + t.n + 1
    ensures forall u :: 0 <= u < t.n && u != d.src && Routed(r.tables[u][d.src]) ==> MeasuredAt(t, r, d, u)
    ensures forall u :: 0 <= u < t.n ==> LoopFreeAt(t, r, d, u)
    ensures RelaysRouted(t, r, d) && Answers(r.log) <= 1 && !Routed(r.tables[d.src][d.src])
    ensures Routed(r.tables[d.src][d.dst]) ==> HasRoute(t, r, d)
  {
    FirstIsReady(t, d);
    DiscoveryBuildsTree(t, d, run, r);
    forall u | 0 <= u < t.n ensures LoopFreeAt(t, r, d, u) {
      if u == d.src || !Reached(t, r, d, u) { NoPointer(t, r, d, u); }
    }
  }

  lemma NoPointer(t: Topology, s: Net, d: Discovery, u: nat)
    requires ShapedNet(t, s) && Proper(t, d) && u < t.n && (u == d.src || !Routed(s.tables[u][d.src]))
    ensures LoopFreeAt(t, s, d, u)
  {
  }

  ghost predicate AllLinksOpen(t: Topology, d: Discovery)
    requires Proper(t, d)
  {
    forall l :: l in t.links ==> OpenLink(t, d, l)
  }

  lemma {:induction false} WalkIsOpen(t: Topology, d: Discovery, u: nat, k: nat)
    requires Proper(t, d) && AllLinksOpen(t, d) && Walk(t, d.src, u, k)
    ensures OpenWalk(t, d, u, k)
    decreases k
  {
    if k > 0 {
      var l :| l in t.links && l.b.node == u && Walk(t, d.src, l.a.node, k - 1);
      WalkIsOpen(t, d, l.a.node, k - 1);
    }
  }

  /**
    The first discovery, with nothing left to deliver and on a connected topology, has reached
    every node, created exactly one reply, and given the source a route to the destination.
   */
  lemma CleanDiscoverySucceeds(t: Topology, d: Discovery, run: seq<Label>, r: Net)
    requires Legal(t) && FirstEver(t, d) && InTime(t, d, run) && Runs(t, Init(t), [Question(d)] + run, r)
    requires Connected(t, d.src) && r.frames == []
    ensures Proper(t, d) && ShapedNet(t, r) && Answers(r.log) == 1 && HasRoute(t, r, d)
    ensures forall u :: 0 <= u < t.n && u != d.src ==> Reached(t, r, d, u) && MeasuredAt(t, r, d, u)
  {
    FirstIsReady(t, d);
    DiscoveryBuildsTree(t, d, run, r);
    assert AllLinksOpen(t, d);
    forall u | 0 <= u < t.n ensures Open(t, d, u) {
      assert Joinable(t, d.src, u);
      var k: nat :| Walk(t, d.src, u, k);
      WalkIsOpen(t, d, u, k);
    }
    DiscoverySucceeds(t, d, run, r);
  }
}
