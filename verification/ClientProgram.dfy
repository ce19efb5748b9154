/**
  The client's two threads as a program: the shared linked list, `last_seg_acked` and
  `last_seg_in_transfer` updated in place, each block proved to compute steps of the
  transition system.
 */
module ClientProgram {
  import opened Segments
  import opened Windows
  import opened Transfer

  /** Handling one received segment, from the first test to the last. */
  function Handled(cfg: Config, c: Client, seg: Segment, left: int, probe: bool): Client {
    match Inspect(c, seg, left, probe)
    case Checked(_, _, _) => Finish(Store(cfg, c, seg), seg, left, probe)
    case Finishing(_, _, _) => Finish(c, seg, left, probe)
    case pc => c.(pc := pc)
  }

  /** One turn of the consumer's loop: both halves of a pop. */
  function Popped(c: Client): Client
    requires c.list != []
  {
    CountDown(Pop(c))
  }

  /** One lock session of the consumer: pop while the list continues the printed prefix. */
  function PopAll(c: Client): Client
    decreases |c.list|
  {
    if CanPop(c) then PopAll(Popped(c)) else c
  }

  class ClientThreads {
    const cfg: Config
    const window: SlidingWindow
    var acked: int
    var last: int
    var receiveComplete: bool
    var consumerDone: bool
    var printed: seq<Segment>

    ghost predicate Valid()
      reads this, window, window.repr
    {
      window.Valid() && this !in window.repr
    }

    ghost function Value(pc: Pc): Client
      reads this, window
    {
      Client(window.contents, window.count, acked, last, printed, false, consumerDone, pc)
    }

    constructor (cfg: Config)
      ensures Valid() && Value(Top) == InitClient() && !receiveComplete && this.cfg == cfg
      ensures fresh(window) && fresh(window.repr)
    {
      this.cfg := cfg;
      window := new SlidingWindow();
      acked, last, receiveComplete, consumerDone, printed := 0, -1, false, false, [];
    }

    /** Build the next request; when everything is printed it carries the complete flag. */
    method NextRequest() returns (req: Segment)
      modifies this`receiveComplete
      ensures req == BuildRequest(Value(Top), acked + 1, cfg.maxRecv - window.count)
      ensures receiveComplete == (old(receiveComplete) || last == acked)
    {
      req := Blank().(ackNum := acked + 1, rwnd := cfg.maxRecv - window.count);
      if last == acked {
        receiveComplete := true;
        req := req.(isComplete := 1, ackNum := last);
      }
    }

    /** The insert under the mutex. */
    method StoreSegment(seg: Segment, ghost pc: Pc)
      requires Valid()
      modifies window, window.repr
      ensures Valid() && Value(pc) == Store(cfg, old(Value(pc)), seg)
    {
      if window.count < cfg.maxRecv {
        window.Insert(seg);
      }
    }

    /** The flag tests. */
    method TestSegmentFlags(seg: Segment, left: int, probe: bool) returns (pc: Pc)
      modifies this`last
      ensures Value(pc) == Finish(old(Value(Finishing(seg, left, probe))), seg, left, probe)
    {
      if seg.isEof > 0 {
        last := seg.seqNum;
        pc := Top;
      } else if seg.isResent > 0 {
        pc := Top;
      } else if seg.isLastInIter > 0 {
        pc := Top;
      } else {
        pc := LoopHead(left - 1, probe);
      }
    }

    /** One received segment that was not dropped. */
    method Accept(seg: Segment, left: int, probe: bool) returns (pc: Pc)
      requires Valid()
      modifies this`last, window, window.repr
      ensures Valid()
      ensures Value(pc) == Handled(cfg, old(Value(Reading(left, probe))), seg, left, probe)
    {
      if seg.seqNum == -1 && seg.ackNum == -1 {
        return Closed;
      }
      if seg.isProbe > 0 {
        return Top;
      }
      ghost var was := Value(Reading(left, probe));
      if seg.seqNum > acked {
        StoreSegment(seg, Reading(left, probe));
      }
      ghost var now := Value(Reading(left, probe));
      assert now == if seg.seqNum > was.acked then Store(cfg, was, seg) else was;
      pc := TestSegmentFlags(seg, left, probe);
      assert Value(pc) == Finish(now, seg, left, probe);
    }

    /** Print and unlink the first segment. */
    method PrintFirst(ghost pc: Pc)
      requires Valid() && CanPop(Value(pc))
      modifies this`acked, this`printed, window, window.base
      ensures Valid() && Value(pc) == Popped(old(Value(pc))) && window.repr == old(window.repr)
    {
      assert window.base.next == window.spine[1] && window.spine[1].seg == window.contents[0];
      var seg := window.base.next.seg;
      window.RemoveFirst();
      printed := printed + [seg];
      if acked < seg.seqNum { acked := seg.seqNum; }
    }

    /** The consumer's loop over the list. */
    method Drain(ghost pc: Pc)
      requires Valid()
      modifies this`acked, this`printed, window, window.base
      ensures Valid() && Value(pc) == PopAll(old(Value(pc)))
    {
      while window.base.next != null
        invariant Valid() && PopAll(Value(pc)) == PopAll(old(Value(pc))) && window.repr == old(window.repr)
        decreases |window.contents|
      {
        assert window.base.next == window.spine[1] && window.spine[1].seg == window.contents[0];
        if window.base.next.seg.seqNum == acked + 1 {
          PrintFirst(pc);
        } else {
          break;
        }
      }
    }
  }

  // ----- the same blocks as runs of the transition system

  lemma Prepend(cfg: Config, s: State, l: Label, run: seq<Label>, t: State)
    requires Enabled(cfg, s, l) && Runs(cfg, Next(cfg, s, l), run, t)
    ensures Runs(cfg, s, [l] + run, t)
  {
    assert ([l] + run)[1..] == run;
  }

  lemma FlagsRun(cfg: Config, s: State)
    requires s.cli.pc.Finishing?
    ensures Runs(cfg, s, [TestFlags], s.(cli := Finish(s.cli, s.cli.pc.seg, s.cli.pc.left, s.cli.pc.probe)))
  {
    var t := Next(cfg, s, TestFlags);
    assert Runs(cfg, t, [], t);
    Prepend(cfg, s, TestFlags, [], t);
    assert [TestFlags] + [] == [TestFlags];
  }

  lemma StoreRun(cfg: Config, s: State)
    requires Enabled(cfg, s, Insert)
    ensures Runs(cfg, s, [Insert] + [TestFlags],
      s.(cli := Finish(Store(cfg, s.cli, s.cli.pc.seg), s.cli.pc.seg, s.cli.pc.left, s.cli.pc.probe)))
  {
    var m := Next(cfg, s, Insert);
    FlagsRun(cfg, m);
    Prepend(cfg, s, Insert, [TestFlags], Next(cfg, m, TestFlags));
  }

  lemma PcIrrelevant(cfg: Config, c: Client, pc: Pc, seg: Segment, left: int, probe: bool)
    ensures Finish(c.(pc := pc), seg, left, probe) == Finish(c, seg, left, probe)
    ensures Finish(Store(cfg, c.(pc := pc), seg), seg, left, probe) == Finish(Store(cfg, c, seg), seg, left, probe)
  {
  }

  /** A pop that was under way is over. */
  function Unlocked(c: Client): Client { if c.popping then CountDown(c) else c }

  /** The client when it handles this segment: storing it waits for the lock. */
  function AtMutex(c: Client, seg: Segment): Client {
    if Inspect(c, seg, 0, false).Checked? then Unlocked(c) else c
  }

  lemma StoreLater(cfg: Config, s: State) returns (run: seq<Label>)
    requires s.cli.pc.Checked?
    ensures Runs(cfg, s, run, s.(cli :=
      Finish(Store(cfg, Unlocked(s.cli), s.cli.pc.seg), s.cli.pc.seg, s.cli.pc.left, s.cli.pc.probe)))
  {
    run := [Insert] + [TestFlags];
    if s.cli.popping {
      var m := Next(cfg, s, Lower);
      StoreRun(cfg, m);
      Prepend(cfg, s, Lower, run, m.(cli := Finish(Store(cfg, m.cli, m.cli.pc.seg), m.cli.pc.seg, m.cli.pc.left, m.cli.pc.probe)));
      run := [Lower] + run;
    } else {
      StoreRun(cfg, s);
    }
  }

  /** The rest of the handling, after the first look. */
  lemma HandleRest(cfg: Config, m: State, c: Client, seg: Segment, left: int, probe: bool) returns (run: seq<Label>)
    requires m.cli == c.(pc := Inspect(c, seg, left, probe))
    ensures Runs(cfg, m, run, m.(cli := Handled(cfg, AtMutex(c, seg), seg, left, probe)))
  {
    PcIrrelevant(cfg, AtMutex(c, seg), m.cli.pc, seg, left, probe);
    if m.cli.pc.Checked? {
      run := StoreLater(cfg, m);
    } else if m.cli.pc.Finishing? {
      FlagsRun(cfg, m);
      run := [TestFlags];
    } else {
      run := [];
    }
  }

  /** Handling a segment is a run of the client's steps; inside a pop the insert waits for the lock. */
  lemma HandledIsRun(cfg: Config, s: State, i: nat) returns (run: seq<Label>)
    requires s.cli.pc.Reading? && i < |s.toCli|
    ensures Runs(cfg, s, run, s.(toCli := Without(s.toCli, i),
      cli := Handled(cfg, AtMutex(s.cli, s.toCli[i]), s.toCli[i], s.cli.pc.left, s.cli.pc.probe)))
  {
    var m := Next(cfg, s, Receive(i, false));
    run := HandleRest(cfg, m, s.cli, s.toCli[i], s.cli.pc.left, s.cli.pc.probe);
    Prepend(cfg, s, Receive(i, false), run, s.(toCli := Without(s.toCli, i),
      cli := Handled(cfg, AtMutex(s.cli, s.toCli[i]), s.toCli[i], s.cli.pc.left, s.cli.pc.probe)));
    run := [Receive(i, false)] + run;
  }

  /** The client after n segments of its list were printed. */
  function Advance(c: Client, n: nat): Client
    requires n <= |c.list|
  {
    c.(list := c.list[n..], count := c.count - n, acked := c.acked + n, printed := c.printed + c.list[..n])
  }

  lemma AdvanceAfterPop(c: Client, n: nat)
    requires CanPop(c) && !c.popping && n < |c.list|
    ensures Advance(Popped(c), n) == Advance(c, n + 1)
  {
    assert c.list[1..][n..] == c.list[n + 1..];
    assert [c.list[0]] + c.list[1..][..n] == c.list[..n + 1];
    assert (c.printed + [c.list[0]]) + c.list[1..][..n] == c.printed + ([c.list[0]] + c.list[1..][..n]);
  }

  /** A lock session prints exactly the segments that continue the prefix. */
  lemma {:induction false} PopAllCorrect(c: Client)
    requires !c.popping
    ensures PopAll(c) == Advance(c, InOrder(c.list, c.acked))
    decreases |c.list|
  {
    if CanPop(c) {
      PopAllCorrect(Popped(c));
      AdvanceAfterPop(c, InOrder(c.list[1..], c.acked + 1));
    } else {
      assert c.printed + c.list[..0] == c.printed;
    }
  }

  /** And it is a run of single pops, each in its two halves. */
  lemma {:induction false} PopAllIsRun(cfg: Config, s: State) returns (run: seq<Label>)
    requires !s.cli.consumerDone && !s.cli.popping && !(cfg.atomicCheck && s.cli.pc.Checked?)
    ensures Runs(cfg, s, run, s.(cli := PopAll(s.cli)))
    ensures |run| == 2 * InOrder(s.cli.list, s.cli.acked)
    ensures forall i :: 0 <= i < |run| ==> run[i] == if i % 2 == 0 then Consume else Lower
    decreases |s.cli.list|
  {
    if CanPop(s.cli) {
      var m := Next(cfg, s, Consume);
      var n := Next(cfg, m, Lower);
      run := PopAllIsRun(cfg, n);
      Prepend(cfg, m, Lower, run, n.(cli := PopAll(n.cli)));
      Prepend(cfg, s, Consume, [Lower] + run, n.(cli := PopAll(n.cli)));
      run := [Consume] + ([Lower] + run);
    } else {
      run := [];
    }
  }

  // ----- what the client asks for and how much it reads

  /** From the top of the loop, undisturbed, the client asks for the number after the last printed one
      and advertises the free places of its list; once everything is printed it says so. */
  lemma AsksForNext(cfg: Config, s: State) returns (m: Segment)
    requires s.cli.pc.Top?
    ensures if s.cli.last == s.cli.acked
      then m == Blank().(ackNum := s.cli.last, rwnd := cfg.maxRecv - s.cli.count, isComplete := 1)
      else m == Blank().(ackNum := s.cli.acked + 1, rwnd := cfg.maxRecv - s.cli.count)
    ensures Runs(cfg, s, [ReadAck] + ([ReadRwnd] + ([SendRequest(false)] + [])), s.(toSrv := s.toSrv + [m],
      cli := s.cli.(pc := if s.cli.last == s.cli.acked then Joining
                          else LoopHead(cfg.maxRecv - s.cli.count, cfg.maxRecv == s.cli.count))))
  {
    var a := Next(cfg, s, ReadAck);
    var b := Next(cfg, a, ReadRwnd);
    var c := Next(cfg, b, SendRequest(false));
    m := BuildRequest(b.cli, b.cli.pc.ack, b.cli.pc.rwnd);
    assert Runs(cfg, c, [], c);
    Prepend(cfg, b, SendRequest(false), [], c);
    Prepend(cfg, a, ReadRwnd, [SendRequest(false)] + [], c);
    Prepend(cfg, s, ReadAck, [ReadRwnd] + ([SendRequest(false)] + []), c);
  }

  /** No flag that ends the inner loop, and not the error reply. */
  predicate Ordinary(seg: Segment) {
    !(seg.seqNum == -1 && seg.ackNum == -1)
    && seg.isProbe <= 0 && seg.isEof <= 0 && seg.isResent <= 0 && seg.isLastInIter <= 0
  }

  /** The inner loop on segments that arrive one after another. */
  function ReadAll(cfg: Config, c: Client, segs: seq<Segment>): Client
    decreases |segs|
  {
    if segs == [] || !c.pc.LoopHead? || !LoopTest(c, c.pc.left, c.pc.probe).Reading? then c
    else ReadAll(cfg, Handled(cfg, c, segs[0], c.pc.left, c.pc.probe), segs[1..])
  }

  lemma {:induction false} ReadsOn(cfg: Config, c: Client, segs: seq<Segment>)
    requires c.pc.LoopHead? && c.last != c.acked && (forall i :: 0 <= i < |segs| ==> Ordinary(segs[i]))
    requires segs == [] || |segs| <= c.pc.left || (c.pc.left == 0 && c.pc.probe && |segs| == 1)
    ensures var r := ReadAll(cfg, c, segs);
      r.pc == LoopHead(c.pc.left - |segs|, c.pc.probe) && r.last == c.last && r.acked == c.acked
    decreases |segs|
  {
    if segs != [] { ReadsOn(cfg, Handled(cfg, c, segs[0], c.pc.left, c.pc.probe), segs[1..]); }
  }

  /** After a request with room for n, the client reads exactly n ordinary segments, or one if n is 0,
      before it asks again. */
  lemma ReadsAsAdvertised(cfg: Config, c: Client, n: nat, segs: seq<Segment>)
    requires c.pc == LoopHead(n, n == 0) && c.last != c.acked && (forall i :: 0 <= i < |segs| ==> Ordinary(segs[i]))
    ensures var enough, r := if n == 0 then 1 else n, ReadAll(cfg, c, segs);
      && (|segs| < enough ==> r.pc.LoopHead? && LoopTest(r, r.pc.left, r.pc.probe).Reading?)
      && (|segs| == enough ==> r.pc.LoopHead? && LoopTest(r, r.pc.left, r.pc.probe) == Top)
  {
    if |segs| <= if n == 0 then 1 else n { ReadsOn(cfg, c, segs); }
  }

  /** The list after a segment whose number was tested. */
  ghost predicate Takes(cfg: Config, c: Client, seg: Segment, list: seq<Segment>) {
    && Increasing(list)
    && if seg.seqNum > c.acked && c.count < cfg.maxRecv && !Has(c.list, seg.seqNum)
       then multiset(list) == multiset(c.list) + multiset{seg} else list == c.list
  }

  lemma StoreTakes(cfg: Config, c: Client, seg: Segment)
    requires Increasing(c.list)
    ensures var list := if seg.seqNum > c.acked then Store(cfg, c, seg).list else c.list; Takes(cfg, c, seg, list)
  {
    SortedInsertCorrect(c.list, seg);
  }

  /** An error reply ends the client, and a probe makes it ask again, with nothing stored. */
  lemma TurnsAway(cfg: Config, c: Client, seg: Segment, left: int, probe: bool)
    ensures seg.seqNum == -1 && seg.ackNum == -1 ==> Handled(cfg, c, seg, left, probe) == c.(pc := Closed)
    ensures !(seg.seqNum == -1 && seg.ackNum == -1) && seg.isProbe > 0 ==>
      Handled(cfg, c, seg, left, probe) == c.(pc := Top)
  {
  }

  /** Everything but the list, for a segment that is neither. */
  lemma HandledShape(cfg: Config, c: Client, seg: Segment, left: int, probe: bool)
    requires !(seg.seqNum == -1 && seg.ackNum == -1) && seg.isProbe <= 0
    ensures var r := Handled(cfg, c, seg, left, probe);
      && r.list == (if seg.seqNum > c.acked then Store(cfg, c, seg).list else c.list)
      && r.count == c.count + |r.list| - |c.list|
      && r.acked == c.acked && r.printed == c.printed && r.popping == c.popping && r.consumerDone == c.consumerDone
      && r.last == (if seg.isEof > 0 then seg.seqNum else c.last)
      && r.pc == if seg.isEof > 0 || seg.isResent > 0 || seg.isLastInIter > 0 then Top else LoopHead(left - 1, probe)
  {
  }

  /** Any other segment is stored exactly if its number is new and there is room, the end of the file is
      remembered, and the inner loop is left exactly on that flag, a resend or the end of a round. */
  lemma TakesSegment(cfg: Config, c: Client, seg: Segment, left: int, probe: bool)
    requires Increasing(c.list) && !(seg.seqNum == -1 && seg.ackNum == -1) && seg.isProbe <= 0
    ensures var r := Handled(cfg, c, seg, left, probe);
      && Takes(cfg, c, seg, r.list) && r.count == c.count + |r.list| - |c.list|
      && r.last == (if seg.isEof > 0 then seg.seqNum else c.last)
      && r.pc == if seg.isEof > 0 || seg.isResent > 0 || seg.isLastInIter > 0 then Top else LoopHead(left - 1, probe)
  {
    StoreTakes(cfg, c, seg);
    HandledShape(cfg, c, seg, left, probe);
  }
}
