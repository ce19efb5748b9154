/**
  The send window under reordering. Late requests may start the send loop anywhere below the
  client's next segment, yet the window never has a gap in front of a number it holds, so a
  timeout never resends a segment past the one the client needs.
 */
module TransferWindow {
  import opened Segments
  import opened Windows
  import opened Transfer
  import opened TransferSafety
  import Congestion

  /** Every number between what is printed and a number of the window stands before it. */
  ghost predicate Gapless(window: seq<Segment>, acked: int) {
    forall j, m :: 0 <= j < |window| && acked < m < window[j].seqNum ==> Has(window[..j], m)
  }

  lemma GaplessFront(window: seq<Segment>, acked: int)
    requires Gapless(window, acked) && window != []
    ensures window[0].seqNum <= acked + 1
  {
    assert !Has(window[..0], acked + 1);
  }

  lemma DropGapless(window: seq<Segment>, acked: int, a: int)
    requires Gapless(window, acked) && a <= acked
    ensures Gapless(DropAcked(window, a), acked)
  {
    var k, kept := Place(window, a + 1), DropAcked(window, a);
    forall j, m | 0 <= j < |kept| && acked < m < kept[j].seqNum ensures Has(kept[..j], m) {
      assert kept[j] == window[k + j];
      assert Has(window[..k + j], m);
      var i :| 0 <= i < k + j && window[..k + j][i].seqNum == m;
      assert i >= k;
      assert kept[..j][i - k].seqNum == m;
    }
  }

  lemma HasAdded(window: seq<Segment>, seg: Segment, m: int)
    requires Has(window, m) || m == seg.seqNum
    ensures Has(AddIfAbsent(window, seg), m)
  {
    var added := AddIfAbsent(window, seg);
    if Has(window, m) {
      var i :| 0 <= i < |window| && window[i].seqNum == m;
      assert added[i].seqNum == m;
    } else {
      assert added[|window|].seqNum == m;
    }
  }

  lemma AddGapless(window: seq<Segment>, acked: int, seg: Segment)
    requires Gapless(window, acked)
    requires forall m :: acked < m < seg.seqNum ==> Has(window, m)
    ensures Gapless(AddIfAbsent(window, seg), acked)
  {
    var added := AddIfAbsent(window, seg);
    forall j, m | 0 <= j < |added| && acked < m < added[j].seqNum ensures Has(added[..j], m) {
      if j < |window| {
        assert added[..j] == window[..j];
      } else {
        assert added[..j] == window;
      }
    }
  }

  /** The send loop leaves no gap if everything up to its start is printed or in the window. */
  lemma {:induction false} BurstGapless(file: seq<byte>, window: seq<Segment>, count: int, from: int, toSend: int, acked: int)
    requires Gapless(window, acked)
    requires forall m :: acked < m <= from ==> Has(window, m)
    ensures Gapless(SendLoop(file, window, count, from, toSend).window, acked)
    decreases toSend
  {
    var k := from + 1;
    if toSend > 0 && InFile(file, k) {
      var seg := DataSegment(file, k);
      var added := AddIfAbsent(window, seg);
      AddGapless(window, acked, seg);
      if seg.isEof == 0 {
        forall m | acked < m <= k ensures Has(added, m) { HasAdded(window, seg, m); }
        BurstGapless(file, added, count + |added| - |window|, k, toSend - 1, acked);
      }
    }
  }

  /** The send loop only appends, and into an empty window first its first number. */
  lemma {:induction false} BurstExtends(file: seq<byte>, window: seq<Segment>, count: int, from: int, toSend: int)
    ensures var w := SendLoop(file, window, count, from, toSend).window;
      window <= w && (window == [] && w != [] ==> w[0].seqNum == from + 1)
    decreases toSend
  {
    var k := from + 1;
    if toSend > 0 && InFile(file, k) {
      var seg := DataSegment(file, k);
      var added := AddIfAbsent(window, seg);
      if seg.isEof == 0 { BurstExtends(file, added, count + |added| - |window|, k, toSend - 1); }
    }
  }

  lemma AnswerGapless(cfg: Config, window: seq<Segment>, count: int, cwnd: int, req: Segment, acked: int)
    requires Gapless(window, acked) && req.ackNum <= acked + 1
    ensures Gapless(Answer(cfg, window, count, cwnd, req).window, acked)
  {
    var kept := DropAcked(window, req.ackNum - 1);
    var count' := count - (|window| - |kept|);
    DropGapless(window, acked, req.ackNum - 1);
    BurstGapless(cfg.file, kept, count', req.ackNum - 1, Quota(cfg, req.rwnd, cwnd, count'), acked);
  }

  /** After a request for the next segment a non-empty window starts with that segment. */
  lemma FrontAfterAsk(cfg: Config, window: seq<Segment>, count: int, cwnd: int, req: Segment)
    requires Gapless(window, req.ackNum - 1)
    ensures var w := Answer(cfg, window, count, cwnd, req).window; w != [] ==> w[0].seqNum == req.ackNum
  {
    var k := req.ackNum;
    var kept := DropAcked(window, k - 1);
    var count' := count - (|window| - |kept|);
    AnswerGapless(cfg, window, count, cwnd, req, k - 1);
    BurstExtends(cfg.file, kept, count', k - 1, Quota(cfg, req.rwnd, cwnd, count'));
    var w := Answer(cfg, window, count, cwnd, req).window;
    if w != [] { GaplessFront(w, k - 1); }
  }

  lemma ServeGapless(cfg: Config, s: Sender, req: Segment, sample: int, acked: int)
    requires Gapless(s.window, acked) && (req.isComplete <= 0 ==> req.ackNum <= acked + 1)
    ensures Gapless(OnRequest(cfg, s, req, sample).0.window, acked)
  {
    if req.isComplete <= 0 {
      AnswerGapless(cfg, s.window, s.count, Congestion.OnAck(s.cong, req.ackNum).cwnd, req, acked);
    }
  }

  /** Every step keeps the window without gaps, in any order of delivery. */
  lemma StepGapless(cfg: Config, s: State, l: Label)
    requires Legal(cfg) && Safe(cfg, s) && Gapless(s.snd.window, s.cli.acked) && Enabled(cfg, s, l)
    ensures Gapless(Next(cfg, s, l).snd.window, Next(cfg, s, l).cli.acked)
  {
    if l.Serve? {
      assert SafeRequest(cfg, s.toSrv[l.i], s.cli.acked, Limit(cfg, s.cli));
      ServeGapless(cfg, s.snd, s.toSrv[l.i], l.sample, s.cli.acked);
    } else {
      StepSafe(cfg, s, l);
      assert Next(cfg, s, l).snd.window == s.snd.window;
    }
  }

  lemma {:induction false} RunGapless(cfg: Config, s: State, run: seq<Label>, t: State)
    requires Legal(cfg) && Safe(cfg, s) && Gapless(s.snd.window, s.cli.acked) && Runs(cfg, s, run, t)
    ensures Safe(cfg, t) && Gapless(t.snd.window, t.cli.acked)
    decreases |run|
  {
    if run != [] {
      StepSafe(cfg, s, run[0]);
      StepGapless(cfg, s, run[0]);
      RunGapless(cfg, Next(cfg, s, run[0]), run[1..], t);
    }
  }

  lemma ReachableGapless(cfg: Config, t: State)
    requires Legal(cfg) && Reachable(cfg, t)
    ensures Safe(cfg, t) && Gapless(t.snd.window, t.cli.acked)
  {
    var run :| Runs(cfg, Init(), run, t);
    RunGapless(cfg, Init(), run, t);
  }

  /** In every run, with any reordering, a timeout resends nothing past the segment the client needs next. */
  lemma ResendIsNeeded(cfg: Config, t: State)
    requires Legal(cfg) && Reachable(cfg, t)
    ensures Resend(t.snd).seqNum <= t.cli.acked + 1
  {
    ReachableGapless(cfg, t);
    if t.snd.window != [] { GaplessFront(t.snd.window, t.cli.acked); }
  }
}
