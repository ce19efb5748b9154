/**
  The send window when requests arrive in order: it is always the run of segments that
  starts at the last ACK received, so a timeout resends exactly what that ACK asked for.
 */
module TransferFifo {
  import opened Segments
  import opened Windows
  import opened Transfer
  import opened TransferSafety
  import Congestion

  /** The window holds consecutive numbers from `first` on. */
  ghost predicate RunFrom(window: seq<Segment>, first: int) {
    forall i :: 0 <= i < |window| ==> window[i].seqNum == first + i
  }

  /** No request sent from now on asks for less than this. */
  function NextAck(c: Client): int {
    match c.pc
    case HaveAck(a) => a
    case HaveRwnd(a, _) => a
    case _ => c.acked + 1
  }

  ghost predicate Ascending(requests: seq<Segment>, low: int, high: int) {
    && low <= high
    && (forall i :: 0 <= i < |requests| ==> low <= requests[i].ackNum <= high)
    && (forall i, j :: 0 <= i < j < |requests| ==> requests[i].ackNum <= requests[j].ackNum)
  }

  ghost predicate Ordered(cfg: Config, s: State)
    requires Legal(cfg)
  {
    && s.snd.cong.prevAck <= Last(cfg)
    && RunFrom(s.snd.window, s.snd.cong.prevAck)
    && (Running(s.snd) ==> Ascending(s.toSrv, s.snd.cong.prevAck, NextAck(s.cli)))
  }

  lemma {:induction false} PlaceInRun(window: seq<Segment>, first: int, k: int)
    requires RunFrom(window, first) && first <= k
    ensures Place(window, k) == Min(k - first, |window|)
    decreases |window|
  {
    if window != [] && window[0].seqNum < k {
      var rest := window[1..];
      assert forall i :: 0 <= i < |rest| ==> rest[i] == window[i + 1];
      PlaceInRun(rest, first + 1, k);
    }
  }

  lemma DropKeepsRun(window: seq<Segment>, first: int, ack: int)
    requires RunFrom(window, first) && first <= ack
    ensures RunFrom(DropAcked(window, ack - 1), ack)
  {
    PlaceInRun(window, first, ack);
  }

  /** Sending from inside the run or right behind it keeps the run, and only ever extends it. */
  lemma {:induction false} BurstKeepsRun(file: seq<byte>, window: seq<Segment>, count: int, first: int, j: nat, toSend: int)
    requires RunFrom(window, first) && j <= |window|
    ensures var b := SendLoop(file, window, count, first + j - 1, toSend);
      RunFrom(b.window, first) && window <= b.window
    decreases toSend
  {
    var k := first + j;
    if toSend > 0 && InFile(file, k) {
      var seg := DataSegment(file, k);
      var added := AddIfAbsent(window, seg);
      assert j < |window| ==> window[j].seqNum == k;
      assert RunFrom(added, first) && j < |added|;
      if seg.isEof == 0 { BurstKeepsRun(file, added, count + |added| - |window|, first, j + 1, toSend - 1); }
    }
  }

  lemma AnswerKeepsRun(cfg: Config, window: seq<Segment>, count: int, cwnd: int, first: int, req: Segment)
    requires RunFrom(window, first) && first <= req.ackNum
    ensures RunFrom(Answer(cfg, window, count, cwnd, req).window, req.ackNum)
  {
    DropKeepsRun(window, first, req.ackNum);
    var kept := DropAcked(window, req.ackNum - 1);
    var count' := count - (|window| - |kept|);
    BurstKeepsRun(cfg.file, kept, count', req.ackNum, 0, Quota(cfg, req.rwnd, cwnd, count'));
  }

  lemma ServeOrdered(cfg: Config, s: Sender, req: Segment, sample: int)
    requires RunFrom(s.window, s.cong.prevAck) && s.cong.prevAck <= req.ackNum
    ensures var t := OnRequest(cfg, s, req, sample).0;
      && RunFrom(t.window, t.cong.prevAck)
      && (req.isComplete <= 0 ==> t.cong.prevAck == req.ackNum)
      && (req.isComplete > 0 ==> !Running(t) && t.cong.prevAck == s.cong.prevAck)
  {
    if req.isComplete <= 0 {
      AnswerKeepsRun(cfg, s.window, s.count, Congestion.OnAck(s.cong, req.ackNum).cwnd, s.cong.prevAck, req);
    }
  }

  lemma WithoutAscending(ch: seq<Segment>, i: nat, low: int, high: int)
    requires i < |ch| && Ascending(ch, low, high)
    ensures Ascending(Without(ch, i), low, high)
  {
    var r := Without(ch, i);
    forall a | 0 <= a < |r| ensures r[a] == ch[if a < i then a else a + 1] {}
  }

  lemma DoubledAscending(ch: seq<Segment>, i: nat, low: int, high: int)
    requires i < |ch| && Ascending(ch, low, high)
    ensures Ascending(Doubled(ch, i), low, high)
  {
    var r := Doubled(ch, i);
    forall a | 0 <= a < |r| ensures r[a] == ch[if a <= i then a else a - 1] {}
  }

  lemma PostAscending(ch: seq<Segment>, m: Segment, lost: bool, low: int, high: int, high': int)
    requires Ascending(ch, low, high) && high <= high' && low <= m.ackNum <= high'
    requires forall i :: 0 <= i < |ch| ==> ch[i].ackNum <= m.ackNum
    ensures Ascending(Post(ch, m, lost), low, high')
  {
  }

  lemma SenderOrdered(cfg: Config, s: State, l: Label)
    requires Legal(cfg) && cfg.fifoRequests && Safe(cfg, s) && Ordered(cfg, s) && Enabled(cfg, s, l) && (l.Timeout? || l.Serve?)
    ensures Ordered(cfg, Next(cfg, s, l))
  {
    if l.Serve? {
      assert SafeRequest(cfg, s.toSrv[0], s.cli.acked, Limit(cfg, s.cli));
      ServeOrdered(cfg, s.snd, s.toSrv[0], l.sample);
      WithoutAscending(s.toSrv, 0, s.snd.cong.prevAck, NextAck(s.cli));
      var t := Next(cfg, s, l);
      assert t.toSrv == s.toSrv[1..];
    }
  }

  /** A request built from the client's present state keeps the order, whichever thread state sends it. */
  lemma RequestFits(cfg: Config, s: State, m: Segment, lost: bool)
    requires Legal(cfg) && Safe(cfg, s) && Ordered(cfg, s) && Running(s.snd)
    requires m.ackNum == if Finished(s.cli) then s.cli.acked else NextAck(s.cli)
    ensures Ascending(Post(s.toSrv, m, lost), s.snd.cong.prevAck, s.cli.acked + 1)
  {
    assert forall i :: 0 <= i < |s.toSrv| ==> SafeRequest(cfg, s.toSrv[i], s.cli.acked, Limit(cfg, s.cli));
    PostAscending(s.toSrv, m, lost, s.snd.cong.prevAck, NextAck(s.cli), s.cli.acked + 1);
  }

  lemma SendOrdered(cfg: Config, s: State, l: Label)
    requires Legal(cfg) && Safe(cfg, s) && Ordered(cfg, s) && Enabled(cfg, s, l) && l.SendRequest?
    ensures Ordered(cfg, Next(cfg, s, l))
  {
    if Running(s.snd) { RequestFits(cfg, s, BuildRequest(s.cli, s.cli.pc.ack, s.cli.pc.rwnd), l.lost); }
  }

  lemma WaitOrdered(cfg: Config, s: State, l: Label)
    requires Legal(cfg) && Safe(cfg, s) && Ordered(cfg, s) && Enabled(cfg, s, l) && l.WaitReply?
    ensures Ordered(cfg, Next(cfg, s, l))
  {
    if Running(s.snd) { RequestFits(cfg, s, BuildRequest(s.cli, s.cli.acked + 1, cfg.maxRecv - s.cli.count), l.lost); }
  }

  lemma NetworkOrdered(cfg: Config, s: State, l: Label)
    requires Legal(cfg) && Ordered(cfg, s) && Enabled(cfg, s, l)
    requires l.LoseRequest? || l.CopyRequest? || l.LoseSegment? || l.CopySegment?
    ensures Ordered(cfg, Next(cfg, s, l))
  {
    if Running(s.snd) {
      if l.LoseRequest? { WithoutAscending(s.toSrv, l.i, s.snd.cong.prevAck, NextAck(s.cli)); }
      if l.CopyRequest? { DoubledAscending(s.toSrv, l.i, s.snd.cong.prevAck, NextAck(s.cli)); }
    }
  }

  /** The other steps leave the sender and its requests alone. */
  lemma LocalOrdered(cfg: Config, s: State, l: Label)
    requires Legal(cfg) && Safe(cfg, s) && Ordered(cfg, s) && Enabled(cfg, s, l)
    requires !l.Timeout? && !l.Serve? && !l.SendRequest? && !l.WaitReply?
    requires !l.LoseRequest? && !l.CopyRequest? && !l.LoseSegment? && !l.CopySegment?
    ensures Ordered(cfg, Next(cfg, s, l))
  {
    var t := Next(cfg, s, l);
    assert t.snd == s.snd && t.toSrv == s.toSrv;
    assert NextAck(s.cli) <= NextAck(t.cli);
  }

  lemma StepOrdered(cfg: Config, s: State, l: Label)
    requires Legal(cfg) && cfg.fifoRequests && Safe(cfg, s) && Ordered(cfg, s) && Enabled(cfg, s, l)
    ensures Ordered(cfg, Next(cfg, s, l))
  {
    if l.Timeout? || l.Serve? {
      SenderOrdered(cfg, s, l);
    } else if l.SendRequest? {
      SendOrdered(cfg, s, l);
    } else if l.WaitReply? {
      WaitOrdered(cfg, s, l);
    } else if l.LoseRequest? || l.CopyRequest? || l.LoseSegment? || l.CopySegment? {
      NetworkOrdered(cfg, s, l);
    } else {
      LocalOrdered(cfg, s, l);
    }
  }

  lemma {:induction false} RunOrdered(cfg: Config, s: State, run: seq<Label>, t: State)
    requires Legal(cfg) && cfg.fifoRequests && Safe(cfg, s) && Ordered(cfg, s) && Runs(cfg, s, run, t)
    ensures Safe(cfg, t) && Ordered(cfg, t)
    decreases |run|
  {
    if run != [] {
      StepSafe(cfg, s, run[0]);
      StepOrdered(cfg, s, run[0]);
      RunOrdered(cfg, Next(cfg, s, run[0]), run[1..], t);
    }
  }

  lemma ReachableOrdered(cfg: Config, t: State)
    requires Legal(cfg) && cfg.fifoRequests && Reachable(cfg, t)
    ensures Safe(cfg, t) && Ordered(cfg, t)
  {
    var run :| Runs(cfg, Init(), run, t);
    RunOrdered(cfg, Init(), run, t);
  }

  /** The shape of the send window in every run with in-order requests. */
  lemma SendWindowShape(cfg: Config, t: State)
    requires Legal(cfg) && cfg.fifoRequests && Reachable(cfg, t)
    ensures t.snd.count == |t.snd.window| <= cfg.maxSend
    ensures forall i :: 0 <= i < |t.snd.window| ==>
      IsSlice(cfg.file, t.snd.window[i], t.snd.cong.prevAck + i) && t.snd.window[i].isResent == 0
    ensures t.snd.window != [] ==>
      InFile(cfg.file, t.snd.cong.prevAck)
      && Resend(t.snd) == DataSegment(cfg.file, t.snd.cong.prevAck).(isResent := 1)
  {
    ReachableOrdered(cfg, t);
    if t.snd.window != [] { assert IsData(cfg, t.snd.window[0]); }
  }
}
