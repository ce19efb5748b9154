/**
  What a transfer can still achieve, exactly. For every reachable state, whatever was lost,
  duplicated or reordered before and however often the timer went off: which numbers some
  continuation without loss prints, and whether one ends with both programs finished.
 */
module TransferOutcome {
  import opened Segments
  import opened Windows
  import opened Transfer
  import opened TransferSafety
  import opened TransferRace
  import opened TransferWindow
  import opened TransferLife
  import opened TransferProgress
  import opened TransferClose

  lemma {:induction false} CalmRunIsRun(cfg: Config, s: State, run: seq<Label>, t: State)
    requires CalmRun(cfg, s, run, t)
    ensures Runs(cfg, s, run, t)
    decreases |run|
  {
    if run != [] { CalmRunIsRun(cfg, Next(cfg, s, run[0]), run[1..], t); }
  }

  // ----- popping what is in order

  /** One pop, after finishing one that is under way. */
  lemma PopOne(cfg: Config, s: State) returns (t: State)
    requires Legal(cfg) && Safe(cfg, s) && !s.cli.consumerDone && CanPop(s.cli) && !(cfg.atomicCheck && s.cli.pc.Checked?)
    ensures Reaches(cfg, s, t) && Safe(cfg, t) && t == s.(cli := t.cli) && t.cli.pc == s.cli.pc
    ensures t.cli.list == s.cli.list[1..] && t.cli.acked == s.cli.acked + 1
    ensures t.cli.last == s.cli.last && !t.cli.consumerDone
  {
    var m := s;
    ReachesSelf(cfg, s);
    if s.cli.popping {
      m := Next(cfg, s, Lower);
      StepSafe(cfg, s, Lower);
      ReachesNext(cfg, s, Lower);
    }
    t := Next(cfg, m, Consume);
    StepSafe(cfg, m, Consume);
    ReachesNext(cfg, m, Consume);
    ReachesTrans(cfg, s, m, t);
  }

  lemma {:induction false} PopsTo(cfg: Config, s: State, m: int) returns (t: State)
    requires Legal(cfg) && Safe(cfg, s) && !s.cli.consumerDone && !(cfg.atomicCheck && s.cli.pc.Checked?)
    requires s.cli.acked <= m <= s.cli.acked + InOrder(s.cli.list, s.cli.acked)
    ensures Reaches(cfg, s, t) && Safe(cfg, t) && t.cli.acked == m
    ensures t == s.(cli := t.cli) && t.cli.pc == s.cli.pc && t.cli.last == s.cli.last
    decreases |s.cli.list|
  {
    ReachesSelf(cfg, s);
    t := s;
    if s.cli.acked < m {
      var n := PopOne(cfg, s);
      t := PopsTo(cfg, n, m);
      ReachesTrans(cfg, s, n, t);
    }
  }

  lemma ConsumerThere(cfg: Config, s: State)
    requires Legal(cfg) && Safe(cfg, s) && s.cli.acked < Last(cfg)
    ensures !s.cli.consumerDone && !s.snd.done && !s.snd.fault && !s.cli.pc.Closed?
    ensures cfg.atomicCheck ==> !Stale(s.cli) && !Stranded(s.cli)
  {
    if s.cli.list != [] { assert Fits(cfg, s.cli.list[0], s.cli.acked, Limit(cfg, s.cli)); }
  }

  // ----- which numbers can be printed

  /** Nothing stale stands before number m, and the sender is alive or every number up to m is to be had. */
  ghost predicate CanPrint(s: State, m: int) {
    s.cli.acked < m ==> !Blocked(s.cli, m) && Hope(s, m)
  }

  /** A continuation without loss that prints exactly the numbers up to m. */
  ghost predicate Prints(cfg: Config, s: State, run: seq<Label>, t: State, m: int) {
    CalmRun(cfg, s, run, t) && t.cli.acked == m
  }

  lemma PopsAlive(cfg: Config, s: State, t: State)
    requires Legal(cfg) && Safe(cfg, s) && s.cli.acked < Last(cfg) && Alive(s)
    requires t == s.(cli := t.cli) && t.cli.pc == s.cli.pc && t.cli.last == s.cli.last
    ensures Alive(t)
  {
    assert !Finished(s.cli);
    assert Distance(t.cli) <= Distance(s.cli);
  }

  lemma PrintThem(cfg: Config, s: State, m: int) returns (t: State)
    requires Legal(cfg) && Reachable(cfg, s) && s.cli.acked <= m <= Last(cfg) && CanPrint(s, m)
    ensures Reaches(cfg, s, t) && Safe(cfg, t) && t.cli.acked == m
    ensures !s.cli.pc.Closed? ==> !t.cli.pc.Closed?
    ensures Alive(s) ==> Alive(t)
  {
    ReachableGapless(cfg, s);
    if s.cli.acked == m {
      ReachesSelf(cfg, s);
      t := s;
    } else {
      ConsumerThere(cfg, s);
      if Stale(s.cli) {
        t := PopsTo(cfg, s, m);
        if Alive(s) { PopsAlive(cfg, s, t); }
      } else {
        t := UpTo(cfg, s, m);
      }
    }
  }

  lemma CannotPrint(cfg: Config, s: State, m: int, run: seq<Label>, t: State)
    requires Legal(cfg) && Reachable(cfg, s) && m <= Last(cfg) && !CanPrint(s, m) && CalmRun(cfg, s, run, t)
    ensures t.cli.acked < m
  {
    ReachableSafe(cfg, s);
    if Blocked(s.cli, m) {
      CalmRunIsRun(cfg, s, run, t);
      BlockedForever(cfg, s, run, t, m);
    } else {
      var k :| s.cli.acked < k <= m && !Supplied(s, k);
      NeverPrinted(cfg, s, k, run, t);
    }
  }

  /** From a reachable state a continuation without loss prints the numbers up to m exactly when CanPrint says so. */
  lemma PrintsExactly(cfg: Config, s: State, m: int)
    requires Legal(cfg) && Reachable(cfg, s) && s.cli.acked <= m <= Last(cfg)
    ensures CanPrint(s, m) <==> exists run, t :: Prints(cfg, s, run, t, m)
  {
    if CanPrint(s, m) {
      var t := PrintThem(cfg, s, m);
      var run :| CalmRun(cfg, s, run, t);
      assert Prints(cfg, s, run, t, m);
    } else {
      forall run, t | CalmRun(cfg, s, run, t) ensures t.cli.acked < m { CannotPrint(cfg, s, m, run, t); }
    }
  }

  lemma NothingMore(cfg: Config, s: State, run: seq<Label>, t: State)
    requires Legal(cfg) && Reachable(cfg, s) && Doomed(s.cli) && Runs(cfg, s, run, t)
    ensures t.cli.printed == s.cli.printed
  {
    ReachableSafe(cfg, s);
    DoomedForever(cfg, s, run, t);
  }

  lemma FewTimeouts(cfg: Config, s: State)
    requires Legal(cfg) && Reachable(cfg, s) && s.cli.acked < Last(cfg)
    ensures !s.snd.aborted && s.snd.timer.drops < 11 ==> Alive(s)
    ensures Doomed(s.cli) <==> Blocked(s.cli, s.cli.acked + 1)
  {
    ReachableSafe(cfg, s);
    ConsumerThere(cfg, s);
  }

  /** A continuation without loss that prints exactly one more segment. */
  ghost predicate PrintsNext(cfg: Config, s: State, run: seq<Label>, t: State) {
    Prints(cfg, s, run, t, s.cli.acked + 1)
  }

  lemma NextExactly(cfg: Config, s: State)
    requires Legal(cfg) && Reachable(cfg, s) && s.cli.acked < Last(cfg)
    ensures CanPrint(s, s.cli.acked + 1) <==> exists run, t :: PrintsNext(cfg, s, run, t)
  {
    var m := s.cli.acked + 1;
    PrintsExactly(cfg, s, m);
    if CanPrint(s, m) {
      var run, t :| Prints(cfg, s, run, t, m);
      assert PrintsNext(cfg, s, run, t);
    }
  }

  lemma NextStaysAlive(cfg: Config, s: State) returns (run: seq<Label>, t: State)
    requires Legal(cfg) && Reachable(cfg, s) && s.cli.acked < Last(cfg) && Alive(s) && !Doomed(s.cli)
    ensures PrintsNext(cfg, s, run, t) && Alive(t)
  {
    FewTimeouts(cfg, s);
    t := PrintThem(cfg, s, s.cli.acked + 1);
    run :| CalmRun(cfg, s, run, t);
  }

  /**
    No stuck state. With fewer than eleven consecutive timeouts behind it the sender is alive. A
    live unfinished state prints exactly one more segment without loss and stays alive, unless
    the client's unlocked number test has let a segment slip behind the consumer; then no run
    prints anything more. A state that is not alive prints one exactly when that one is to be had.
   */
  lemma NoStuckState(cfg: Config, s: State)
    requires Legal(cfg) && Reachable(cfg, s) && s.cli.acked < Last(cfg)
    ensures !s.snd.aborted && s.snd.timer.drops < 11 ==> Alive(s)
    ensures Alive(s) && !Doomed(s.cli) ==> exists run, t :: PrintsNext(cfg, s, run, t) && Alive(t)
    ensures !Doomed(s.cli) && (Alive(s) || Supplied(s, s.cli.acked + 1))
      <==> exists run, t :: PrintsNext(cfg, s, run, t)
    ensures Doomed(s.cli) ==> forall run, t :: Runs(cfg, s, run, t) ==> t.cli.printed == s.cli.printed
    ensures cfg.atomicCheck || Last(cfg) == 1 ==> !Doomed(s.cli)
  {
    FewTimeouts(cfg, s);
    NextExactly(cfg, s);
    if cfg.atomicCheck || Last(cfg) == 1 { NeverBlocked(cfg, s); }
    if Doomed(s.cli) {
      forall run, t | Runs(cfg, s, run, t) ensures t.cli.printed == s.cli.printed { NothingMore(cfg, s, run, t); }
    } else if Alive(s) {
      var run, t := NextStaysAlive(cfg, s);
    }
  }

  /** The rest of the file can be printed without loss exactly when no stale segment stands in the way and
      the sender is alive or all the missing numbers are to be had. */
  lemma EverythingCanBeDelivered(cfg: Config, s: State)
    requires Legal(cfg) && Reachable(cfg, s)
    ensures CanPrint(s, Last(cfg)) <==> exists run, t :: Prints(cfg, s, run, t, Last(cfg))
    ensures forall run, t :: Prints(cfg, s, run, t, Last(cfg)) ==>
      |t.cli.printed| == Last(cfg) && IsFilePrefix(cfg.file, t.cli.printed)
    ensures (cfg.atomicCheck || Last(cfg) == 1) && Alive(s) ==> CanPrint(s, Last(cfg))
  {
    ReachableSafe(cfg, s);
    PrintsExactly(cfg, s, Last(cfg));
    if s.cli.acked < Last(cfg) && (cfg.atomicCheck || Last(cfg) == 1) { NeverBlocked(cfg, s); }
    forall run, t | Prints(cfg, s, run, t, Last(cfg))
      ensures |t.cli.printed| == Last(cfg) && IsFilePrefix(cfg.file, t.cli.printed)
    {
      CalmRunIsRun(cfg, s, run, t);
      RunSafe(cfg, s, run, t);
    }
  }

  // ----- finishing both programs

  ghost predicate AllOnHand(cfg: Config, s: State)
    requires Legal(cfg)
  {
    forall k :: s.cli.acked < k <= Last(cfg) ==> OnHand(s, k)
  }

  /**
    The sender knows already; or it is at work, and a completion is in flight from a client that
    has left, or no stale segment stands before the end and the sender is alive, or everything is
    at hand for a client that is not blocked.
   */
  ghost predicate CanFinish(cfg: Config, s: State)
    requires Legal(cfg)
  {
    || s.snd.done
    || (Running(s.snd)
        && if s.cli.pc.Closed? then Told(s.toSrv)
           else !Blocked(s.cli, Last(cfg)) && (Alive(s) || (AllOnHand(cfg, s) && !Idle(s))))
  }

  /** A client that has just printed the last segment and is not blocked asks once more. */
  lemma FinishedAlive(cfg: Config, s: State)
    requires Legal(cfg) && Safe(cfg, s) && Running(s.snd) && s.cli.acked == Last(cfg)
    requires !s.cli.pc.Closed? && !Idle(s)
    ensures Alive(s)
  {
    if s.cli.pc.Finishing? { assert SafeSegment(cfg, s.cli.pc.seg, s.cli.acked, Limit(cfg, s.cli)); }
  }

  ghost predicate Listed(cfg: Config, s: State)
    requires Legal(cfg)
  {
    forall k :: s.cli.acked < k <= Last(cfg) ==> Has(s.cli.list, k)
  }

  /** Everything in the list means everything in order. */
  lemma {:induction false} ListedInOrder(cfg: Config, list: seq<Segment>, acked: int)
    requires Legal(cfg) && Increasing(list) && (list != [] ==> list[0].seqNum > acked) && acked <= Last(cfg)
    requires forall k :: acked < k <= Last(cfg) ==> Has(list, k)
    ensures acked + InOrder(list, acked) >= Last(cfg)
    decreases |list|
  {
    if acked < Last(cfg) {
      assert Has(list, acked + 1);
      assert list[0].seqNum == acked + 1;
      var rest := list[1..];
      forall k | acked + 1 < k <= Last(cfg) ensures Has(rest, k) {
        assert Has(list, k);
        var i :| 0 <= i < |list| && list[i].seqNum == k;
        assert rest[i - 1].seqNum == k;
      }
      ListedInOrder(cfg, rest, acked + 1);
    }
  }

  /** The whole rest is in the list: print it all while the client is still awake. */
  lemma PrintListed(cfg: Config, s: State) returns (t: State)
    requires Good(cfg, s) && Running(s.snd) && s.cli.acked < Last(cfg) && Listed(cfg, s)
    requires !s.cli.pc.Checked? && !Idle(s)
    ensures Reaches(cfg, s, t) && Closing(cfg, t) && Alive(t) && !t.cli.pc.Closed?
  {
    ConsumerThere(cfg, s);
    ListedInOrder(cfg, s.cli.list, s.cli.acked);
    t := PopsTo(cfg, s, Last(cfg));
    FinishedAlive(cfg, t);
  }

  /** Ready to gather: all on hand, nothing popped halfway, and the client awake. */
  ghost predicate Gathering(cfg: Config, s: State) {
    Good(cfg, s) && Running(s.snd) && s.cli.acked < Last(cfg) && !s.cli.popping && AllOnHand(cfg, s) && !Idle(s)
  }

  lemma AliveFinishes(cfg: Config, s: State) returns (t: State)
    requires Good(cfg, s) && s.cli.acked < Last(cfg) && Alive(s)
    ensures Reaches(cfg, s, t) && Closing(cfg, t) && Alive(t) && !t.cli.pc.Closed?
  {
    ConsumerThere(cfg, s);
    t := UpTo(cfg, s, Last(cfg));
  }

  function Rank(pc: Pc): nat {
    match pc
    case Checked(_, _, _) => 3
    case Finishing(_, _, _) => 2
    case LoopHead(_, _) => 1
    case _ => 0
  }

  /** Storing, testing, or reading. */
  function GatherLabel(pc: Pc): Label {
    match pc
    case Checked(_, _, _) => Insert
    case Finishing(_, _, _) => TestFlags
    case LoopHead(_, _) => TestLoop
    case _ => Receive(0, false)
  }

  /** Something is missing from the list and not at hand, so it is in flight. */
  lemma SomethingComing(cfg: Config, s: State)
    requires Legal(cfg) && AllOnHand(cfg, s) && !s.cli.pc.Checked? && !Listed(cfg, s)
    ensures s.toCli != []
  {
    var k :| s.cli.acked < k <= Last(cfg) && !Has(s.cli.list, k);
    assert OnHand(s, k);
  }

  lemma GatherMove(cfg: Config, s: State)
    requires Gathering(cfg, s) && !Alive(s) && (s.cli.pc.Checked? || s.toCli != [])
    ensures var l := GatherLabel(s.cli.pc);
      Enabled(cfg, s, l) && Calm(s, l)
      && var t := Next(cfg, s, l);
         && t.snd == s.snd && t.cli.acked == s.cli.acked && !t.cli.popping
         && !Idle(t)
         && (|t.toCli| < |s.toCli| || (t.toCli == s.toCli && Rank(t.cli.pc) < Rank(s.cli.pc)))
  {
    assert !Finished(s.cli);
  }

  lemma KeepsOnHand(cfg: Config, s: State, t: State)
    requires Legal(cfg) && Keeps(s, t) && AllOnHand(cfg, s)
    ensures Alive(t) || AllOnHand(cfg, t)
  {
  }

  /** The next step of the client towards having everything in its list. */
  lemma GatherStep(cfg: Config, s: State) returns (t: State)
    requires Gathering(cfg, s) && !Alive(s) && (s.cli.pc.Checked? || !Listed(cfg, s))
    ensures Reaches(cfg, s, t) && Good(cfg, t) && t.cli.acked < Last(cfg) && (Alive(t) || Gathering(cfg, t))
    ensures |t.toCli| < |s.toCli| || (t.toCli == s.toCli && Rank(t.cli.pc) < Rank(s.cli.pc))
  {
    if !s.cli.pc.Checked? { SomethingComing(cfg, s); }
    GatherMove(cfg, s);
    t := Go(cfg, s, GatherLabel(s.cli.pc));
    KeepsOnHand(cfg, s, t);
  }

  /** Everything is brought into the list and printed before the client blocks. */
  lemma {:induction false} Gather(cfg: Config, s: State) returns (t: State)
    requires Gathering(cfg, s)
    ensures Reaches(cfg, s, t) && Closing(cfg, t) && Alive(t) && !t.cli.pc.Closed?
    decreases |s.toCli|, Rank(s.cli.pc)
  {
    if Alive(s) {
      t := AliveFinishes(cfg, s);
    } else if !s.cli.pc.Checked? && Listed(cfg, s) {
      t := PrintListed(cfg, s);
    } else {
      var m := GatherStep(cfg, s);
      if Alive(m) { t := AliveFinishes(cfg, m); } else { t := Gather(cfg, m); }
      ReachesTrans(cfg, s, m, t);
    }
  }

  /** Everything on hand and the client awake: it prints the rest and asks once more. */
  lemma FinishOnHand(cfg: Config, s: State) returns (t: State)
    requires Legal(cfg) && Reachable(cfg, s) && Running(s.snd) && s.cli.acked < Last(cfg)
    requires !Blocked(s.cli, Last(cfg)) && AllOnHand(cfg, s) && !Idle(s)
    ensures Reaches(cfg, s, t) && Closing(cfg, t) && Alive(t) && !t.cli.pc.Closed?
  {
    ReachableGapless(cfg, s);
    ConsumerThere(cfg, s);
    if Stale(s.cli) {
      InOrderInFile(cfg, s.cli);
      t := PopsTo(cfg, s, Last(cfg));
      FinishedAlive(cfg, t);
    } else {
      var m := Settle(cfg, s);
      KeepsOnHand(cfg, s, m);
      if Alive(m) { t := AliveFinishes(cfg, m); } else { t := Gather(cfg, m); }
      ReachesTrans(cfg, s, m, t);
    }
  }

  lemma InOrderInFile(cfg: Config, c: Client)
    requires Legal(cfg) && SafeClient(cfg, c)
    ensures c.acked + InOrder(c.list, c.acked) <= Last(cfg)
  {
    var n := InOrder(c.list, c.acked);
    if n > 0 { assert Fits(cfg, c.list[n - 1], c.acked, Limit(cfg, c)); }
  }

  /** From a client that is still there: print everything and stay alive. */
  lemma PrintAlive(cfg: Config, s: State) returns (t: State)
    requires Legal(cfg) && Reachable(cfg, s) && CanFinish(cfg, s) && Running(s.snd) && !s.cli.pc.Closed?
    ensures Reaches(cfg, s, t) && Closing(cfg, t) && Alive(t) && !t.cli.pc.Closed?
  {
    ReachableSafe(cfg, s);
    if s.cli.acked == Last(cfg) {
      ReachesSelf(cfg, s);
      t := s;
      if !Idle(s) { FinishedAlive(cfg, s); }
    } else if Alive(s) {
      t := PrintThem(cfg, s, Last(cfg));
    } else {
      t := FinishOnHand(cfg, s);
    }
  }

  lemma FinishThem(cfg: Config, s: State) returns (t: State)
    requires Legal(cfg) && Reachable(cfg, s) && CanFinish(cfg, s)
    ensures Reaches(cfg, s, t) && t.snd.done
  {
    ReachableSafe(cfg, s);
    if s.snd.done {
      ReachesSelf(cfg, s);
      t := s;
    } else if s.cli.pc.Closed? {
      t := Flush(cfg, s);
    } else {
      var m := PrintAlive(cfg, s);
      t := Close(cfg, m);
      ReachesTrans(cfg, s, m, t);
    }
  }

  lemma StepUntold(cfg: Config, s: State, l: Label)
    requires Legal(cfg) && Safe(cfg, s) && Enabled(cfg, s, l) && Calm(s, l)
    requires s.cli.pc.Closed? && !Told(s.toSrv) && !s.snd.done
    ensures var t := Next(cfg, s, l); t.cli.pc.Closed? && !Told(t.toSrv) && !t.snd.done
  {
    if l.Serve? {
      var rest := Without(s.toSrv, l.i);
      assert forall j :: 0 <= j < |rest| ==> rest[j] == s.toSrv[if j < l.i then j else j + 1];
    }
  }

  lemma UntoldNeverDone(cfg: Config, s: State, run: seq<Label>, t: State)
    requires Legal(cfg) && Safe(cfg, s) && s.cli.pc.Closed? && !Told(s.toSrv) && !s.snd.done && CalmRun(cfg, s, run, t)
    ensures !t.snd.done
  {
    var inv := (x: State) => Safe(cfg, x) && x.cli.pc.Closed? && !Told(x.toSrv) && !x.snd.done;
    forall x, l | inv(x) && Enabled(cfg, x, l) && Calm(x, l) ensures inv(Next(cfg, x, l)) {
      StepSafe(cfg, x, l);
      StepUntold(cfg, x, l);
    }
    CalmAlways(cfg, inv, s, run, t);
  }

  lemma CannotFinish(cfg: Config, s: State, run: seq<Label>, t: State)
    requires Legal(cfg) && Reachable(cfg, s) && !CanFinish(cfg, s) && CalmRun(cfg, s, run, t)
    ensures !t.snd.done
  {
    ReachableSafe(cfg, s);
    if Stopped(s) {
      StoppedNeverDone(cfg, s, run, t);
    } else if s.cli.pc.Closed? {
      UntoldNeverDone(cfg, s, run, t);
    } else if Blocked(s.cli, Last(cfg)) {
      CalmRunIsRun(cfg, s, run, t);
      BlockedForever(cfg, s, run, t, Last(cfg));
    } else if !AllOnHand(cfg, s) {
      var k :| s.cli.acked < k <= Last(cfg) && !OnHand(s, k);
      WantsNeverDone(cfg, s, k, run, t);
    } else {
      DyingNeverDone(cfg, s, run, t);
    }
  }

  /** A continuation without loss after which the sender knows that the transfer is complete. */
  ghost predicate Finishes(cfg: Config, s: State, run: seq<Label>, t: State) {
    CalmRun(cfg, s, run, t) && t.snd.done
  }

  /** Both sides finish in some continuation without loss exactly when CanFinish says so. */
  lemma BothSidesCanFinish(cfg: Config, s: State)
    requires Legal(cfg) && Reachable(cfg, s)
    ensures CanFinish(cfg, s) <==> exists run, t :: Finishes(cfg, s, run, t)
    ensures forall run, t :: Finishes(cfg, s, run, t) ==>
      |t.cli.printed| == Last(cfg) && IsFilePrefix(cfg.file, t.cli.printed)
    ensures (cfg.atomicCheck || Last(cfg) == 1) && Alive(s) && !s.cli.pc.Closed? ==> CanFinish(cfg, s)
  {
    ReachableSafe(cfg, s);
    if s.cli.acked < Last(cfg) && (cfg.atomicCheck || Last(cfg) == 1) { NeverBlocked(cfg, s); }
    if CanFinish(cfg, s) {
      var t := FinishThem(cfg, s);
      var run :| CalmRun(cfg, s, run, t);
      assert Finishes(cfg, s, run, t);
    } else {
      forall run, t | CalmRun(cfg, s, run, t) ensures !t.snd.done { CannotFinish(cfg, s, run, t); }
    }
    forall run, t | Finishes(cfg, s, run, t)
      ensures |t.cli.printed| == Last(cfg) && IsFilePrefix(cfg.file, t.cli.printed)
    {
      CalmRunIsRun(cfg, s, run, t);
      RunSafe(cfg, s, run, t);
    }
  }
}
