/**
  The sender along a run: how much each request lets it send, and that its congestion and
  timer variables are those of the congestion machine and of the timer, run on the ACKs,
  samples and timeouts of that run.
 */
module TransferSender {
  import opened Segments
  import opened Windows
  import opened Transfer
  import opened TransferSafety
  import Congestion
  import Timer

  function Max0(n: int): nat { if n < 0 then 0 else n }

  // ----- what one request sends

  /** The window splits into what the request acknowledges and what stays. */
  ghost predicate Pruned(window: seq<Segment>, ack: int, gone: seq<Segment>, kept: seq<Segment>) {
    && window == gone + kept
    && (forall i :: 0 <= i < |gone| ==> gone[i].seqNum < ack)
    && (kept != [] ==> kept[0].seqNum >= ack)
  }

  predicate IsCut(file: seq<byte>, seg: Segment, k: int) { InFile(file, k) && seg == DataSegment(file, k) }

  /** The slices of the file from number k on. */
  ghost predicate Slices(file: seq<byte>, segs: seq<Segment>, k: int) {
    forall i :: 0 <= i < |segs| ==> IsCut(file, segs[i], k + i)
  }

  /** window is kept plus those of the sent segments whose numbers it did not hold. */
  ghost predicate Extended(window: seq<Segment>, kept: seq<Segment>, out: seq<Segment>) {
    && kept <= window
    && (forall i :: 0 <= i < |out| ==> Has(window, out[i].seqNum))
    && (forall i :: |kept| <= i < |window| ==> window[i] in out)
  }

  lemma FirstSlice(file: seq<byte>, seg: Segment, rest: seq<Segment>, k: int)
    requires InFile(file, k) && seg == DataSegment(file, k) && Slices(file, rest, k + 1)
    ensures Slices(file, [seg] + rest, k)
  {
    forall i | 0 <= i < |[seg] + rest|
      ensures IsCut(file, ([seg] + rest)[i], k + i)
    {
      if i > 0 { assert IsCut(file, rest[i - 1], k + 1 + (i - 1)); }
    }
  }

  lemma HasPrefix(a: seq<Segment>, b: seq<Segment>, k: int)
    requires a <= b && Has(a, k)
    ensures Has(b, k)
  {
    var i :| 0 <= i < |a| && a[i].seqNum == k;
    assert b[i] == a[i];
  }

  lemma ExtendedFirst(window: seq<Segment>, kept: seq<Segment>, seg: Segment, rest: seq<Segment>)
    requires Extended(window, AddIfAbsent(kept, seg), rest)
    ensures Extended(window, kept, [seg] + rest)
  {
    var added := AddIfAbsent(kept, seg);
    assert Has(added, seg.seqNum) by {
      if !Has(kept, seg.seqNum) { assert added[|kept|] == seg; }
    }
    HasPrefix(added, window, seg.seqNum);
    forall i | 0 <= i < |[seg] + rest| ensures Has(window, ([seg] + rest)[i].seqNum) {
      if i > 0 { assert ([seg] + rest)[i] == rest[i - 1]; }
    }
  }

  /** What a burst of n segments from number k on is. */
  ghost predicate IsBurst(file: seq<byte>, window: seq<Segment>, count: int, k: int, n: int, b: Burst) {
    && !b.fault && b.lastAcked == k - 1 + |b.out| && b.count == count + |b.window| - |window|
    && Slices(file, b.out, k) && Extended(b.window, window, b.out) && |b.out| == n
  }

  lemma BurstOfOne(file: seq<byte>, window: seq<Segment>, count: int, k: int)
    requires InFile(file, k)
    ensures var seg := DataSegment(file, k); var added := AddIfAbsent(window, seg);
      IsBurst(file, window, count, k, 1, Burst(added, count + |added| - |window|, k, [seg], false))
  {
    var seg := DataSegment(file, k);
    FirstSlice(file, seg, [], k);
    assert [seg] + [] == [seg];
    ExtendedFirst(AddIfAbsent(window, seg), window, seg, []);
  }

  lemma BurstOfMore(file: seq<byte>, window: seq<Segment>, count: int, k: int, n: int, rest: Burst)
    requires InFile(file, k)
    requires var added := AddIfAbsent(window, DataSegment(file, k));
      IsBurst(file, added, count + |added| - |window|, k + 1, n, rest)
    ensures IsBurst(file, window, count, k, n + 1, rest.(out := [DataSegment(file, k)] + rest.out))
  {
    FirstSlice(file, DataSegment(file, k), rest.out, k);
    ExtendedFirst(rest.window, window, DataSegment(file, k), rest.out);
  }

  /** The send loop sends the slices from lastAcked + 1 on, up to its quota or the last one. */
  lemma {:induction false} LoopSends(file: seq<byte>, window: seq<Segment>, count: int, lastAcked: int, toSend: int)
    requires InFile(file, lastAcked + 1)
    ensures IsBurst(file, window, count, lastAcked + 1, Min(Max0(toSend), LastSegment(file) - lastAcked),
                    SendLoop(file, window, count, lastAcked, toSend))
    decreases toSend
  {
    if toSend > 0 {
      var k := lastAcked + 1;
      if k == LastSegment(file) {
        BurstOfOne(file, window, count, k);
      } else {
        var added := AddIfAbsent(window, DataSegment(file, k));
        var count' := count + |added| - |window|;
        LoopSends(file, added, count', k, toSend - 1);
        BurstOfMore(file, window, count, k, Min(toSend - 1, LastSegment(file) - k),
                    SendLoop(file, added, count', k, toSend - 1));
      }
    }
  }

  /**
    The sent segments number no more than the client's room, the congestion window and the space
    left by the kept segments, and they stop short of the last one only where one of these is used up.
   */
  predicate AsManyAsAllowed(cfg: Config, kept: seq<Segment>, rwnd: int, cwnd: int, out: seq<Segment>)
    requires cfg.file != []
  {
    && |out| <= Max0(rwnd) && |out| <= Max0(cwnd) && |out| <= cfg.maxSend - |kept|
    && (|| |out| == Max0(rwnd) || |out| == Max0(cwnd) || |out| == cfg.maxSend - |kept|
        || (out != [] && out[|out| - 1].seqNum == LastSegment(cfg.file)))
  }

  lemma LoopAllowed(cfg: Config, kept: seq<Segment>, cwnd: int, req: Segment)
    requires InFile(cfg.file, req.ackNum) && |kept| <= cfg.maxSend
    ensures var b := SendLoop(cfg.file, kept, |kept|, req.ackNum - 1, Quota(cfg, req.rwnd, cwnd, |kept|));
      && AsManyAsAllowed(cfg, kept, req.rwnd, cwnd, b.out)
      && !b.fault && b.lastAcked == req.ackNum - 1 + |b.out| && b.count == |b.window|
      && Slices(cfg.file, b.out, req.ackNum) && Extended(b.window, kept, b.out)
  {
    var quota := Quota(cfg, req.rwnd, cwnd, |kept|);
    LoopSends(cfg.file, kept, |kept|, req.ackNum - 1, quota);
    var out := SendLoop(cfg.file, kept, |kept|, req.ackNum - 1, quota).out;
    if out != [] { assert IsCut(cfg.file, out[|out| - 1], req.ackNum + (|out| - 1)); }
  }

  /** What a request that goes on makes the sender do: it sends the slices from the requested number
      on, as many as allowed, and stores those it does not hold yet. */
  lemma RequestSends(cfg: Config, s: Sender, req: Segment, sample: int) returns (gone: seq<Segment>, kept: seq<Segment>)
    requires s.count == |s.window| <= cfg.maxSend && req.isComplete <= 0 && InFile(cfg.file, req.ackNum)
    ensures Pruned(s.window, req.ackNum, gone, kept)
    ensures var (t, out) := OnRequest(cfg, s, req, sample);
      && Slices(cfg.file, out, req.ackNum) && Extended(t.window, kept, out)
      && AsManyAsAllowed(cfg, kept, req.rwnd, t.cong.cwnd, out)
      && t.count == |t.window| <= cfg.maxSend && !t.fault
      && t.lastAcked == req.ackNum - 1 + |out| && t.cong.prevAck == req.ackNum
  {
    var i := Place(s.window, req.ackNum);
    gone, kept := s.window[..i], s.window[i..];
    var cong := Congestion.OnAck(s.cong, req.ackNum);
    LoopAllowed(cfg, kept, cong.cwnd, req);
    AnswerFits(cfg, s.window, cong.cwnd, req);
    assert Answer(cfg, s.window, s.count, cong.cwnd, req)
      == SendLoop(cfg.file, kept, |kept|, req.ackNum - 1, Quota(cfg, req.rwnd, cong.cwnd, |kept|));
  }

  lemma AllowedIsLeast(cfg: Config, kept: seq<Segment>, rwnd: nat, cwnd: nat, ack: int, out: seq<Segment>)
    requires InFile(cfg.file, ack) && |kept| <= cfg.maxSend
    requires AsManyAsAllowed(cfg, kept, rwnd, cwnd, out) && Slices(cfg.file, out, ack)
    ensures |out| == Min(Min(rwnd, Min(cwnd, cfg.maxSend - |kept|)), LastSegment(cfg.file) + 1 - ack)
  {
    if out != [] { assert IsCut(cfg.file, out[|out| - 1], ack + (|out| - 1)); }
  }

  /** In every run, with a congestion window that is never empty. */
  lemma ServedRequest(cfg: Config, s: State, l: Label) returns (gone: seq<Segment>, kept: seq<Segment>)
    requires Legal(cfg) && Reachable(cfg, s) && Enabled(cfg, s, l) && l.Serve? && s.toSrv[l.i].isComplete <= 0
    ensures Pruned(s.snd.window, s.toSrv[l.i].ackNum, gone, kept)
    ensures var (t, out) := OnRequest(cfg, s.snd, s.toSrv[l.i], l.sample);
      var req, room := s.toSrv[l.i], Min(t.cong.cwnd, cfg.maxSend - |kept|);
      && t.cong.cwnd >= 1 && Slices(cfg.file, out, req.ackNum) && Extended(t.window, kept, out)
      && |out| == Min(Min(req.rwnd, room), Last(cfg) + 1 - req.ackNum)
      && Next(cfg, s, l).toCli == s.toCli + out
  {
    ReachableSafe(cfg, s);
    var req := s.toSrv[l.i];
    assert SafeRequest(cfg, req, s.cli.acked, Limit(cfg, s.cli));
    Congestion.SoundAfter(s.snd.cong, Congestion.Ack(req.ackNum));
    gone, kept := RequestSends(cfg, s.snd, req, l.sample);
    var (t, out) := OnRequest(cfg, s.snd, req, l.sample);
    AllowedIsLeast(cfg, kept, req.rwnd, t.cong.cwnd, req.ackNum, out);
  }

  // ----- the sender's variables are those of the machines

  /** What the sender hears: the timer, a request that goes on, and the one that ends the transfer. */
  datatype Heard = Expired | Asked(ack: int, sample: int) | Ended(ack: int)

  function HeardAt(cfg: Config, s: State, l: Label): seq<Heard>
    requires Enabled(cfg, s, l)
  {
    match l
    case Timeout => [Expired]
    case Serve(i, sample) => [if s.toSrv[i].isComplete > 0 then Ended(s.toSrv[i].ackNum) else Asked(s.toSrv[i].ackNum, sample)]
    case _ => []
  }

  /** Everything the sender hears along a run. */
  ghost function HeardAlong(cfg: Config, s: State, run: seq<Label>): seq<Heard>
    decreases |run|
  {
    if run == [] || !Enabled(cfg, s, run[0]) then []
    else HeardAt(cfg, s, run[0]) + HeardAlong(cfg, Next(cfg, s, run[0]), run[1..])
  }

  predicate GoesOn(h: Heard) { !h.Ended? }

  /** The events as the congestion machine and as the timer see them. */
  function Acks(heard: seq<Heard>): (e: seq<Congestion.Event>)
    requires forall i :: 0 <= i < |heard| ==> GoesOn(heard[i])
    ensures |e| == |heard|
  {
    seq(|heard|, i requires 0 <= i < |heard| =>
      if heard[i].Expired? then Congestion.Timeout else (assert GoesOn(heard[i]); Congestion.Ack(heard[i].ack)))
  }

  function Samples(heard: seq<Heard>): (e: seq<Timer.Event>)
    requires forall i :: 0 <= i < |heard| ==> GoesOn(heard[i])
    ensures |e| == |heard|
  {
    seq(|heard|, i requires 0 <= i < |heard| =>
      if heard[i].Expired? then Timer.Timeout else (assert GoesOn(heard[i]); Timer.Ack(heard[i].sample)))
  }

  /** What was heard before the end, if the end was heard. */
  function Before(heard: seq<Heard>): seq<Heard> {
    if heard != [] && heard[|heard| - 1].Ended? then heard[..|heard| - 1] else heard
  }

  /** The sender's variables after hearing this: the two machines' states, with the last
      request counted by `get_cwnd` but not remembered and its sample never used. */
  ghost predicate Mirrors(s: Sender, heard: seq<Heard>) {
    && (forall i :: 0 <= i < |Before(heard)| ==> GoesOn(Before(heard)[i]))
    && var cong := Congestion.RunFrom(Congestion.Start(), Acks(Before(heard)));
       var timer := Timer.RunFrom(Timer.Start(), Samples(Before(heard)));
       if s.done then
         && heard != [] && heard[|heard| - 1].Ended?
         && s.cong == Congestion.GetCwnd(cong, heard[|heard| - 1].ack) && s.timer == Timer.Replied(timer)
       else
         && Before(heard) == heard && s.cong == cong && s.timer == timer
         && (s.aborted <==> timer.drops == Timer.RTT_MAXNREXMT)
  }

  lemma {:induction false} AcksSnoc(heard: seq<Heard>, h: Heard)
    requires (forall i :: 0 <= i < |heard| ==> GoesOn(heard[i])) && GoesOn(h)
    ensures forall i :: 0 <= i < |heard + [h]| ==> GoesOn((heard + [h])[i])
    ensures Congestion.RunFrom(Congestion.Start(), Acks(heard + [h]))
      == Congestion.After(Congestion.RunFrom(Congestion.Start(), Acks(heard)), Acks(heard + [h])[|heard|])
    ensures Timer.RunFrom(Timer.Start(), Samples(heard + [h]))
      == Timer.After(Timer.RunFrom(Timer.Start(), Samples(heard)), Samples(heard + [h])[|heard|])
  {
    assert Acks(heard + [h])[..|heard|] == Acks(heard);
    assert Samples(heard + [h])[..|heard|] == Samples(heard);
  }

  lemma {:induction false} MirrorsSent(cfg: Config, s: Sender, t: Sender, heard: seq<Heard>, h: Heard)
    requires Mirrors(s, heard) && Running(s) && GoesOn(h) && !t.done
    requires h.Expired? ==>
      t.cong == Congestion.OnTimeout(s.cong) && t.timer == Timer.OnTimeout(s.timer) && t.aborted == Timer.GivesUp(t.timer)
    requires h.Asked? ==>
      t.cong == Congestion.OnAck(s.cong, h.ack) && t.timer == Timer.OnAck(s.timer, h.sample) && !t.aborted
    ensures Mirrors(t, heard + [h])
  {
    AcksSnoc(heard, h);
  }

  lemma HeardOn(a: seq<Heard>, b: seq<Heard>, c: seq<Heard>)
    ensures (a + b) + c == a + (b + c) && a + [] == a
  {
  }

  lemma {:induction false} MirrorsEnd(s: Sender, t: Sender, heard: seq<Heard>, ack: int)
    requires Mirrors(s, heard) && Running(s) && t.done
    requires t.cong == Congestion.GetCwnd(s.cong, ack) && t.timer == Timer.Replied(s.timer)
    ensures Mirrors(t, heard + [Ended(ack)])
  {
    assert Before(heard + [Ended(ack)]) == heard;
  }

  lemma {:induction false} MirrorsStep(cfg: Config, s: State, l: Label, heard: seq<Heard>)
    requires Enabled(cfg, s, l) && Mirrors(s.snd, heard)
    ensures Mirrors(Next(cfg, s, l).snd, heard + HeardAt(cfg, s, l))
  {
    var t := Next(cfg, s, l);
    if l.Timeout? {
      MirrorsSent(cfg, s.snd, t.snd, heard, Expired);
    } else if l.Serve? {
      var req := s.toSrv[l.i];
      if req.isComplete > 0 {
        MirrorsEnd(s.snd, t.snd, heard, req.ackNum);
      } else {
        MirrorsSent(cfg, s.snd, t.snd, heard, Asked(req.ackNum, l.sample));
      }
    } else {
      assert t.snd == s.snd;
      HeardOn(heard, [], []);
    }
  }

  lemma {:induction false} MirrorsRun(cfg: Config, s: State, run: seq<Label>, t: State, heard: seq<Heard>)
    requires Runs(cfg, s, run, t) && Mirrors(s.snd, heard)
    ensures Mirrors(t.snd, heard + HeardAlong(cfg, s, run))
    decreases |run|
  {
    if run == [] {
      HeardOn(heard, [], []);
    } else {
      var m, here := Next(cfg, s, run[0]), HeardAt(cfg, s, run[0]);
      MirrorsStep(cfg, s, run[0], heard);
      MirrorsRun(cfg, m, run[1..], t, heard + here);
      HeardOn(heard, here, HeardAlong(cfg, m, run[1..]));
    }
  }

  /** Along every run the congestion and timer variables are those of the machines, run on what was heard. */
  lemma MachinesAlongRun(cfg: Config, run: seq<Label>, t: State)
    requires Runs(cfg, Init(), run, t)
    ensures Mirrors(t.snd, HeardAlong(cfg, Init(), run))
  {
    assert Before([]) == [];
    MirrorsRun(cfg, Init(), run, t, []);
    assert [] + HeardAlong(cfg, Init(), run) == HeardAlong(cfg, Init(), run);
  }

  /**
    So what holds of the machines holds of every sender: the congestion window is sound, the RTO
    follows the estimate, the wait is in [1 s, 3 s], and the sender has given up exactly when it
    has heard nothing but twelve timeouts since the last request.
   */
  lemma SenderInEveryRun(cfg: Config, run: seq<Label>, t: State)
    requires Runs(cfg, Init(), run, t)
    ensures var heard, s := HeardAlong(cfg, Init(), run), t.snd;
      && Congestion.Sound(s.cong)
      && Timer.Confined(s.timer.est.srtt / 8 + s.timer.est.rttvar, s.timer.est.rto)
      && Timer.MIN_RTO <= Timer.Armed(s.timer) <= Timer.MAX_RTO
      && (!s.done ==>
            && (forall i :: 0 <= i < |heard| ==> GoesOn(heard[i]))
            && Timer.Tracks(s.timer.est, Timer.ExactFold([0] + Timer.Trusted(Samples(heard))))
            && s.timer.drops == Timer.TrailingTimeouts(Samples(heard))
            && (s.aborted <==> s.timer.drops == Timer.RTT_MAXNREXMT))
  {
    MachinesAlongRun(cfg, run, t);
    var heard, s := HeardAlong(cfg, Init(), run), t.snd;
    var acks, samples := Acks(Before(heard)), Samples(Before(heard));
    Congestion.SoundInEveryRun(acks);
    Timer.RtoFollowsEstimate(samples);
    Timer.RtoAlwaysClamped(samples);
    Timer.BackOff(samples);
    Timer.TracksRfc6298(samples);
    Timer.ArmedShape(s.timer);
    if s.done {
      Congestion.SoundAfter(Congestion.RunFrom(Congestion.Start(), acks), Congestion.Ack(heard[|heard| - 1].ack));
    }
  }

  // ----- the blank resend

  /** With an empty window, the number remembered is the one before the last request's. */
  predicate Remembers(s: Sender) {
    s.window == [] ==> s.lastAcked == if s.cong.prevAck == 0 then 0 else s.cong.prevAck - 1
  }

  lemma RemembersStep(cfg: Config, s: State, l: Label)
    requires Legal(cfg) && Safe(cfg, s) && Enabled(cfg, s, l) && Remembers(s.snd)
    ensures Remembers(Next(cfg, s, l).snd)
  {
    if l.Serve? {
      var req := s.toSrv[l.i];
      assert SafeRequest(cfg, req, s.cli.acked, Limit(cfg, s.cli));
      if req.isComplete <= 0 {
        var gone, kept := RequestSends(cfg, s.snd, req, l.sample);
        var out := OnRequest(cfg, s.snd, req, l.sample).1;
        if out != [] { assert Has(Next(cfg, s, l).snd.window, out[0].seqNum); }
      }
    }
  }

  lemma {:induction false} RemembersRun(cfg: Config, s: State, run: seq<Label>, t: State)
    requires Legal(cfg) && Safe(cfg, s) && Remembers(s.snd) && Runs(cfg, s, run, t)
    ensures Remembers(t.snd)
    decreases |run|
  {
    if run != [] {
      StepSafe(cfg, s, run[0]);
      RemembersStep(cfg, s, run[0]);
      RemembersRun(cfg, Next(cfg, s, run[0]), run[1..], t);
    }
  }

  /** What a timeout sends when nothing is stored: a blank segment, marked as resent, numbered one
      less than the last request asked for. */
  lemma BlankResend(cfg: Config, t: State)
    requires Legal(cfg) && Reachable(cfg, t) && t.snd.window == []
    ensures var n := if t.snd.cong.prevAck == 0 then 0 else t.snd.cong.prevAck - 1;
      Resend(t.snd) == Blank().(seqNum := n, isResent := 1)
  {
    var run :| Runs(cfg, Init(), run, t);
    RemembersRun(cfg, Init(), run, t);
  }
}
