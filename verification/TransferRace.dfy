/**
  The client tests a segment's number before it takes the mutex. If the consumer pops
  that number in between, the segment is stored behind the consumer's back and blocks
  it forever; if the test and the insert are one step, this never happens.
 */
module TransferRace {
  import opened Segments
  import opened Windows
  import opened Transfer
  import opened TransferSafety

  lemma StrandedStep(cfg: Config, s: State, l: Label)
    requires Enabled(cfg, s, l) && Stranded(s.cli)
    ensures Stranded(Next(cfg, s, l).cli) && Next(cfg, s, l).cli.acked == s.cli.acked
    ensures Next(cfg, s, l).cli.printed == s.cli.printed
  {
    if l.Insert? {
      var list, seg := s.cli.list, s.cli.pc.seg;
      var i := Place(list, seg.seqNum);
      if i == 0 && !(list[0].seqNum == seg.seqNum) && s.cli.count < cfg.maxRecv {
        assert SortedInsert(list, seg)[0] == seg;
      }
    }
  }

  /** A stranded client never prints another segment, whatever happens next. */
  lemma {:induction false} StrandedForever(cfg: Config, s: State, run: seq<Label>, t: State)
    requires Stranded(s.cli) && Runs(cfg, s, run, t)
    ensures Stranded(t.cli) && t.cli.acked == s.cli.acked && t.cli.printed == s.cli.printed
    decreases |run|
  {
    if run != [] {
      StrandedStep(cfg, s, run[0]);
      StrandedForever(cfg, Next(cfg, s, run[0]), run[1..], t);
    }
  }

  /** No step can print the next segment any more, now or later. */
  predicate Doomed(c: Client) { Stranded(c) || (Stale(c) && !CanPop(c)) }

  /** The transfer stops before number m: what can still be popped before the stale segment is
      stored does not reach it. */
  predicate Blocked(c: Client, m: int) {
    c.acked < m && (Stranded(c) || (Stale(c) && c.acked + InOrder(c.list, c.acked) < m))
  }

  lemma StoreStale(cfg: Config, s: State)
    requires Legal(cfg) && Safe(cfg, s) && Enabled(cfg, s, Insert) && Stale(s.cli)
    ensures Stranded(Next(cfg, s, Insert).cli)
  {
    var list, seg := s.cli.list, s.cli.pc.seg;
    if !Stranded(s.cli) {
      assert Place(list, seg.seqNum) == 0;
      assert SortedInsert(list, seg)[0] == seg;
    } else {
      StrandedStep(cfg, s, Insert);
    }
  }

  lemma DoomedStep(cfg: Config, s: State, l: Label)
    requires Legal(cfg) && Safe(cfg, s) && Enabled(cfg, s, l) && Doomed(s.cli)
    ensures Doomed(Next(cfg, s, l).cli) && Next(cfg, s, l).cli.printed == s.cli.printed
  {
    if Stranded(s.cli) {
      StrandedStep(cfg, s, l);
    } else if l.Insert? {
      StoreStale(cfg, s);
    }
  }

  /** From a doomed state no run at all prints anything more. */
  lemma {:induction false} DoomedForever(cfg: Config, s: State, run: seq<Label>, t: State)
    requires Legal(cfg) && Safe(cfg, s) && Doomed(s.cli) && Runs(cfg, s, run, t)
    ensures t.cli.printed == s.cli.printed
    decreases |run|
  {
    if run != [] {
      StepSafe(cfg, s, run[0]);
      DoomedStep(cfg, s, run[0]);
      DoomedForever(cfg, Next(cfg, s, run[0]), run[1..], t);
    }
  }

  lemma BlockedStep(cfg: Config, s: State, l: Label, m: int)
    requires Legal(cfg) && Safe(cfg, s) && Enabled(cfg, s, l) && Blocked(s.cli, m)
    ensures Blocked(Next(cfg, s, l).cli, m)
  {
    if Stranded(s.cli) {
      StrandedStep(cfg, s, l);
    } else if l.Insert? {
      StoreStale(cfg, s);
    }
  }

  /** From a state blocked before m no run at all prints number m. */
  lemma {:induction false} BlockedForever(cfg: Config, s: State, run: seq<Label>, t: State, m: int)
    requires Legal(cfg) && Safe(cfg, s) && Blocked(s.cli, m) && Runs(cfg, s, run, t)
    ensures Safe(cfg, t) && t.cli.acked < m
    decreases |run|
  {
    if run != [] {
      StepSafe(cfg, s, run[0]);
      BlockedStep(cfg, s, run[0], m);
      BlockedForever(cfg, Next(cfg, s, run[0]), run[1..], t, m);
    }
  }

  /** With the test inside the mutex, or a one-segment file, no reachable unfinished state is caught. */
  lemma NeverBlocked(cfg: Config, s: State)
    requires Legal(cfg) && Reachable(cfg, s) && (cfg.atomicCheck || Last(cfg) == 1) && s.cli.acked < Last(cfg)
    ensures !Stranded(s.cli) && !Stale(s.cli)
  {
    ReachableSafe(cfg, s);
    if s.cli.list != [] { assert Fits(cfg, s.cli.list[0], s.cli.acked, Limit(cfg, s.cli)); }
  }

  lemma FirstRequest(cfg: Config) returns (t: State)
    requires Legal(cfg)
    ensures Reachable(cfg, t)
    ensures t == State(InitSender(), InitClient().(pc := Reading(cfg.maxRecv, false)), [Request(1, cfg.maxRecv)], [])
  {
    t := Init();
    assert Runs(cfg, Init(), [], t);
    t := ReachStep(cfg, t, ReadAck);
    t := ReachStep(cfg, t, ReadRwnd);
    t := ReachStep(cfg, t, SendRequest(false));
    t := ReachStep(cfg, t, TestLoop);
  }

  lemma FirstBurst(cfg: Config)
    requires Legal(cfg)
    ensures var out := OnRequest(cfg, InitSender(), Request(1, cfg.maxRecv), 0).1;
      out != [] && out[0] == DataSegment(cfg.file, 1)
  {
    assert Quota(cfg, cfg.maxRecv, 2, 0) > 0;
  }

  /** Run until the client is about to read segment 1 and then a copy of it. */
  lemma TwoCopiesInFlight(cfg: Config) returns (t: State)
    requires Legal(cfg)
    ensures Reachable(cfg, t) && t.cli == InitClient().(pc := Reading(cfg.maxRecv, false))
    ensures |t.toCli| >= 2 && t.toCli[0] == t.toCli[1] == DataSegment(cfg.file, 1)
  {
    t := FirstRequest(cfg);
    FirstBurst(cfg);
    t := ReachStep(cfg, t, Serve(0, 0));
    t := ReachStep(cfg, t, CopySegment(0));
  }

  lemma FirstSegmentChecked(cfg: Config) returns (t: State)
    requires Legal(cfg)
    ensures Reachable(cfg, t)
    ensures t.cli == InitClient().(pc := Checked(DataSegment(cfg.file, 1), cfg.maxRecv, false))
    ensures t.toCli != [] && t.toCli[0] == DataSegment(cfg.file, 1)
  {
    t := TwoCopiesInFlight(cfg);
    t := ReachStep(cfg, t, Receive(0, false));
  }

  /** Run until the client holds segment 1 and the copy is next in line. */
  lemma FirstSegmentStored(cfg: Config) returns (t: State)
    requires Legal(cfg) && Last(cfg) >= 2
    ensures Reachable(cfg, t)
    ensures t.cli == Client([DataSegment(cfg.file, 1)], 1, 0, -1, [], false, false, LoopHead(cfg.maxRecv - 1, false))
    ensures t.toCli != [] && t.toCli[0] == DataSegment(cfg.file, 1)
  {
    t := FirstSegmentChecked(cfg);
    t := ReachStep(cfg, t, Insert);
    assert t.cli.list == [DataSegment(cfg.file, 1)];
    t := ReachStep(cfg, t, TestFlags);
  }

  /** From there the client goes back to reading, with or without a further request. */
  lemma ReadingAgain(cfg: Config, s: State) returns (t: State)
    requires Legal(cfg) && Reachable(cfg, s) && s.cli.pc == LoopHead(cfg.maxRecv - 1, false)
    requires s.cli.count == 1 && s.cli.acked == 0 && s.cli.last == -1
    ensures Reachable(cfg, t) && t.cli.pc.Reading?
    ensures t.cli == s.cli.(pc := t.cli.pc) && t.toCli == s.toCli
  {
    t := ReachStep(cfg, s, TestLoop);
    if cfg.maxRecv == 1 {
      t := ReachStep(cfg, t, ReadAck);
      t := ReachStep(cfg, t, ReadRwnd);
      t := ReachStep(cfg, t, SendRequest(true));
      t := ReachStep(cfg, t, TestLoop);
    }
  }

  /**
    A transfer can be blocked for good before its end exactly when the test is not covered
    by the mutex and the file takes two segments or more.
   */
  lemma RaceStrandsTransfer(cfg: Config)
    requires Legal(cfg)
    ensures !cfg.atomicCheck && Last(cfg) >= 2 <==>
      exists s :: Reachable(cfg, s) && Stranded(s.cli) && s.cli.acked < Last(cfg)
  {
    if cfg.atomicCheck || Last(cfg) == 1 {
      forall s | Reachable(cfg, s) && Stranded(s.cli) ensures s.cli.acked >= Last(cfg) {
        if s.cli.acked < Last(cfg) { NeverBlocked(cfg, s); }
      }
    } else {
      var s := Race(cfg);
      assert Stranded(s.cli);
    }
  }

  /** The run that does it: the consumer pops segment 1 while a copy of it waits for the mutex. */
  lemma Race(cfg: Config) returns (s: State)
    requires Legal(cfg) && !cfg.atomicCheck && Last(cfg) >= 2
    ensures Reachable(cfg, s) && Stranded(s.cli) && s.cli.acked == 1
  {
    var one := DataSegment(cfg.file, 1);
    s := FirstSegmentStored(cfg);
    s := ReadingAgain(cfg, s);
    s := ReachStep(cfg, s, Receive(0, false));
    assert s.cli.pc.Checked? && s.cli.pc.seg == one;
    s := ReachStep(cfg, s, Consume);
    s := ReachStep(cfg, s, Lower);
    assert s.cli.list == [] && s.cli.acked == 1 && s.cli.count == 0;
    s := ReachStep(cfg, s, Insert);
    assert s.cli.list == [one];
  }
}
