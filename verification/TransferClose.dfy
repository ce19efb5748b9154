/**
  Clean closing. Once the whole file is printed, a client that has not yet left TIME_WAIT gets
  its completion message through as long as the sender is alive.
 */
module TransferClose {
  import opened Segments
  import opened Transfer
  import opened TransferSafety
  import opened TransferLife
  import opened TransferProgress
  import Timer

  /** The file is printed but the sender does not know yet. */
  ghost predicate Closing(cfg: Config, s: State) {
    Legal(cfg) && Safe(cfg, s) && Running(s.snd) && s.cli.acked == Last(cfg)
  }

  ghost predicate Over(cfg: Config, s: State) {
    Legal(cfg) && Safe(cfg, s) && s.snd.done && s.cli.acked == Last(cfg)
  }

  predicate Told(requests: seq<Segment>) {
    exists i :: 0 <= i < |requests| && requests[i].isComplete > 0
  }

  /** One calm step of a closing system. */
  lemma CloseStep(cfg: Config, s: State, l: Label) returns (t: State)
    requires Closing(cfg, s) && Enabled(cfg, s, l) && Calm(s, l)
    requires l.Timeout? ==> s.snd.timer.drops < Timer.RTT_MAXNREXMT - 1
    ensures t == Next(cfg, s, l) && Reaches(cfg, s, t)
    ensures Closing(cfg, t) || Over(cfg, t)
    ensures !l.Serve? ==> Closing(cfg, t)
  {
    t := Next(cfg, s, l);
    ReachesNext(cfg, s, l);
    StepSafe(cfg, s, l);
    if l.Serve? { ServeNeverAborts(cfg, s, l); }
  }

  lemma ServeNeverAborts(cfg: Config, s: State, l: Label)
    requires Legal(cfg) && Enabled(cfg, s, l) && l.Serve?
    ensures var t := Next(cfg, s, l);
      && !t.snd.aborted && t.cli == s.cli && t.snd.timer.drops == 0 && s.toCli <= t.toCli
      && (t.snd.done <==> s.toSrv[l.i].isComplete > 0)
  {
  }

  lemma FlushOne(cfg: Config, s: State) returns (t: State)
    requires Closing(cfg, s) && s.toSrv != []
    ensures Reaches(cfg, s, t) && t.toSrv == s.toSrv[1..] && t.cli == s.cli && s.toCli <= t.toCli
    ensures t.snd.timer.drops == 0
    ensures if s.toSrv[0].isComplete > 0 then Over(cfg, t) else Closing(cfg, t)
  {
    t := CloseStep(cfg, s, Serve(0, 0));
    ServeNeverAborts(cfg, s, Serve(0, 0));
    assert t.toSrv == s.toSrv[1..];
  }

  /** The sender handles its requests until one of them ends the transfer or none is left. */
  lemma {:induction false} Flush(cfg: Config, s: State) returns (t: State)
    requires Closing(cfg, s)
    ensures Reaches(cfg, s, t)
    ensures Over(cfg, t) || (Closing(cfg, t) && t.toSrv == [] && t.cli == s.cli && s.toCli <= t.toCli)
    ensures Told(s.toSrv) ==> Over(cfg, t)
    ensures s.toSrv == [] ==> t == s
    ensures s.toSrv != [] && !Over(cfg, t) ==> t.snd.timer.drops == 0
    decreases |s.toSrv|
  {
    if s.toSrv == [] {
      ReachesSelf(cfg, s);
      t := s;
    } else {
      var m := FlushOne(cfg, s);
      t := m;
      if s.toSrv[0].isComplete <= 0 {
        if Told(s.toSrv) {
          var i :| 0 <= i < |s.toSrv| && s.toSrv[i].isComplete > 0;
          assert m.toSrv[i - 1].isComplete > 0;
        }
        t := Flush(cfg, m);
        ReachesTrans(cfg, s, m, t);
      }
    }
  }

  /** The client sends its completion and the sender takes it. */
  lemma TellFromRwnd(cfg: Config, s: State) returns (t: State)
    requires Closing(cfg, s) && s.cli.pc.HaveRwnd?
    ensures Reaches(cfg, s, t) && Over(cfg, t)
  {
    var m := CloseStep(cfg, s, SendRequest(false));
    assert m.toSrv[|s.toSrv|].isComplete > 0;
    t := Flush(cfg, m);
    ReachesTrans(cfg, s, m, t);
  }

  lemma TellFromAck(cfg: Config, s: State) returns (t: State)
    requires Closing(cfg, s) && s.cli.pc.HaveAck?
    ensures Reaches(cfg, s, t) && Over(cfg, t)
  {
    var m := CloseStep(cfg, s, ReadRwnd);
    t := TellFromRwnd(cfg, m);
    ReachesTrans(cfg, s, m, t);
  }

  lemma TellFromTop(cfg: Config, s: State) returns (t: State)
    requires Closing(cfg, s) && s.cli.pc.Top?
    ensures Reaches(cfg, s, t) && Over(cfg, t)
  {
    var m := CloseStep(cfg, s, ReadAck);
    t := TellFromAck(cfg, m);
    ReachesTrans(cfg, s, m, t);
  }

  lemma TellFromLoop(cfg: Config, s: State) returns (t: State)
    requires Closing(cfg, s) && s.cli.pc.LoopHead?
    ensures Reaches(cfg, s, t) && Over(cfg, t)
  {
    assert Finished(s.cli);
    var m := CloseStep(cfg, s, TestLoop);
    t := TellFromTop(cfg, m);
    ReachesTrans(cfg, s, m, t);
  }

  lemma TellFromFlags(cfg: Config, s: State) returns (t: State)
    requires Closing(cfg, s) && s.cli.pc.Finishing?
    ensures Reaches(cfg, s, t) && Over(cfg, t)
  {
    var m := CloseStep(cfg, s, TestFlags);
    if m.cli.pc.Top? { t := TellFromTop(cfg, m); } else { t := TellFromLoop(cfg, m); }
    ReachesTrans(cfg, s, m, t);
  }

  lemma TellFromReading(cfg: Config, s: State) returns (t: State)
    requires Closing(cfg, s) && s.cli.pc.Reading? && s.toCli != []
    ensures Reaches(cfg, s, t) && Over(cfg, t)
  {
    assert SafeSegment(cfg, s.toCli[0], s.cli.acked, Limit(cfg, s.cli));
    var m := CloseStep(cfg, s, Receive(0, false));
    t := TellFromFlags(cfg, m);
    ReachesTrans(cfg, s, m, t);
  }

  lemma TellFromWait(cfg: Config, s: State) returns (t: State)
    requires Closing(cfg, s) && s.cli.pc.TimeWait? && s.toCli != []
    ensures Reaches(cfg, s, t) && Over(cfg, t)
  {
    var m := CloseStep(cfg, s, WaitReply(0, false));
    assert m.toSrv[|s.toSrv|].isComplete > 0;
    t := Flush(cfg, m);
    ReachesTrans(cfg, s, m, t);
  }

  /** A blocked client gets a segment to react to, if need be through a timeout. */
  lemma Wake(cfg: Config, s: State) returns (t: State)
    requires Closing(cfg, s) && (s.snd.timer.drops < Timer.RTT_MAXNREXMT - 1 || s.toSrv != [] || s.toCli != [])
    ensures Reaches(cfg, s, t)
    ensures Over(cfg, t) || (Closing(cfg, t) && t.cli == s.cli && t.toCli != [])
  {
    t := Flush(cfg, s);
    if !Over(cfg, t) && t.toCli == [] {
      var m := t;
      t := CloseStep(cfg, m, Timeout);
      ReachesTrans(cfg, s, m, t);
    }
  }

  /** The consumer leaves its lock. */
  lemma Unlock(cfg: Config, s: State) returns (t: State)
    requires Closing(cfg, s)
    ensures Reaches(cfg, s, t) && Closing(cfg, t) && !t.cli.popping
    ensures t == s.(cli := t.cli) && t.cli.pc == s.cli.pc
  {
    ReachesSelf(cfg, s);
    t := s;
    if s.cli.popping { t := CloseStep(cfg, s, Lower); }
  }

  /** A segment still waiting for the mutex is stored, though nobody will print it. */
  lemma TellFromChecked(cfg: Config, s: State) returns (t: State)
    requires Closing(cfg, s) && s.cli.pc.Checked?
    ensures Reaches(cfg, s, t) && Over(cfg, t)
  {
    var m := Unlock(cfg, s);
    var n := CloseStep(cfg, m, Insert);
    ReachesTrans(cfg, s, m, n);
    t := TellFromFlags(cfg, n);
    ReachesTrans(cfg, s, n, t);
  }

  lemma ConsumerLeaves(cfg: Config, s: State) returns (t: State)
    requires Closing(cfg, s) && s.cli.pc.Joining?
    ensures Reaches(cfg, s, t) && Closing(cfg, t) && t.cli.consumerDone
    ensures t == s.(cli := t.cli) && t.cli.pc == s.cli.pc
  {
    t := Unlock(cfg, s);
    if !t.cli.consumerDone {
      var m := t;
      t := CloseStep(cfg, m, ConsumerExit);
      ReachesTrans(cfg, s, m, t);
    }
  }

  lemma JoinConsumer(cfg: Config, s: State) returns (t: State)
    requires Closing(cfg, s) && s.cli.pc.Joining?
    ensures Reaches(cfg, s, t) && Closing(cfg, t) && t.cli.pc.TimeWait? && t == s.(cli := t.cli)
  {
    var m := ConsumerLeaves(cfg, s);
    t := CloseStep(cfg, m, Join);
    ReachesTrans(cfg, s, m, t);
  }

  /** From any live closing state whose client is still there, the sender learns that it is done. */
  lemma Close(cfg: Config, s: State) returns (t: State)
    requires Closing(cfg, s) && Alive(s) && !s.cli.pc.Closed?
    ensures Reaches(cfg, s, t) && Over(cfg, t)
  {
    match s.cli.pc
    case Top => t := TellFromTop(cfg, s);
    case HaveAck(_) => t := TellFromAck(cfg, s);
    case HaveRwnd(_, _) => t := TellFromRwnd(cfg, s);
    case LoopHead(_, _) => t := TellFromLoop(cfg, s);
    case Finishing(_, _, _) => t := TellFromFlags(cfg, s);
    case Reading(_, _) =>
      t := Wake(cfg, s);
      if !Over(cfg, t) {
        var m := t;
        t := TellFromReading(cfg, m);
        ReachesTrans(cfg, s, m, t);
      }
    case Checked(_, _, _) => t := TellFromChecked(cfg, s);
    case Joining => t := CloseWaiting(cfg, s);
    case TimeWait => t := CloseWaiting(cfg, s);
  }

  lemma CloseWaiting(cfg: Config, s: State) returns (t: State)
    requires Closing(cfg, s) && Alive(s) && (s.cli.pc.Joining? || s.cli.pc.TimeWait?)
    ensures Reaches(cfg, s, t) && Over(cfg, t)
  {
    var m := s;
    ReachesSelf(cfg, s);
    if s.cli.pc.Joining? { m := JoinConsumer(cfg, s); }
    t := Wake(cfg, m);
    ReachesTrans(cfg, s, m, t);
    if !Over(cfg, t) {
      m := t;
      t := TellFromWait(cfg, m);
      ReachesTrans(cfg, s, m, t);
    }
  }
}
