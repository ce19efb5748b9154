/**
  Safety of the transfer in every run, under loss, duplication and reordering: what is
  printed is a prefix of the file, flow control leaves room for every new segment, the
  two programs agree on the end of the file, and filler segments are never taken as data.
 */
module TransferSafety {
  import opened Segments
  import opened Windows
  import opened Transfer
  import Congestion
  import Timer
  import Codec

  // ----- the invariant

  predicate IsData(cfg: Config, seg: Segment) {
    && InFile(cfg.file, seg.seqNum)
    && (seg.isResent == 0 || seg.isResent == 1)
    && seg == DataSegment(cfg.file, seg.seqNum).(isResent := seg.isResent)
  }

  /** The blank segment that a timeout sends when the window is empty. */
  predicate IsFiller(seg: Segment) {
    seg == Blank().(seqNum := seg.seqNum, isResent := 1)
  }

  /** Segments that may be in flight towards a client that has printed `acked` segments and
      allows numbers up to `limit`. */
  predicate SafeSegment(cfg: Config, seg: Segment, acked: int, limit: int)
    requires Legal(cfg)
  {
    || (IsData(cfg, seg) && seg.seqNum <= limit)
    || (IsFiller(seg) && 0 <= seg.seqNum <= acked && seg.seqNum < Last(cfg))
  }

  /** Requests that may be in flight from such a client. */
  predicate SafeRequest(cfg: Config, r: Segment, acked: int, limit: int)
    requires Legal(cfg)
  {
    && 0 <= r.rwnd <= cfg.maxRecv
    && 1 <= r.ackNum <= Last(cfg) && r.ackNum - 1 + r.rwnd <= limit
    && if r.isComplete > 0 then r == Completion(r.ackNum, r.rwnd) && r.ackNum == Last(cfg) == acked
       else r == Request(r.ackNum, r.rwnd) && r.ackNum <= acked + 1
  }

  ghost predicate SafeWindow(cfg: Config, window: seq<Segment>, limit: int) {
    && (forall i :: 0 <= i < |window| ==>
          IsData(cfg, window[i]) && window[i].isResent == 0 && window[i].seqNum <= limit)
    && (forall i, j :: 0 <= i < j < |window| ==> window[i].seqNum != window[j].seqNum)
  }

  ghost predicate SafeSender(cfg: Config, s: Sender, acked: int, limit: int)
    requires Legal(cfg)
  {
    && SafeWindow(cfg, s.window, limit)
    && s.count == |s.window| <= cfg.maxSend
    && (s.window == [] ==> 0 <= s.lastAcked <= acked && s.lastAcked < Last(cfg))
    && Congestion.Sound(s.cong)
    && !s.fault
    && (s.done ==> acked == Last(cfg))
    && (Running(s) ==> s.timer.drops < Timer.RTT_MAXNREXMT)
  }

  /** The list starts with a number the consumer has already passed. */
  predicate Stranded(c: Client) { c.list != [] && c.list[0].seqNum <= c.acked }

  /** The consumer has passed the segment at hand since its number was tested. */
  predicate Stale(c: Client) { c.pc.Checked? && c.pc.seg.seqNum <= c.acked }

  /** The largest number the client can have allowed: a stale segment costs it one place. */
  function Limit(cfg: Config, c: Client): int {
    c.acked + cfg.maxRecv - if Stale(c) || Stranded(c) then 1 else 0
  }

  /** Data that may sit in the client's list, or be about to. */
  predicate Fits(cfg: Config, seg: Segment, acked: int, limit: int) {
    IsData(cfg, seg) && seg.seqNum <= limit && (cfg.atomicCheck ==> seg.seqNum > acked)
  }

  /** The contents of the list; only its first number may be one already printed. */
  ghost predicate SafeItems(cfg: Config, list: seq<Segment>, acked: int, limit: int) {
    && Increasing(list)
    && (forall i :: 0 <= i < |list| ==> Fits(cfg, list[i], acked, limit))
    && (forall i :: 1 <= i < |list| ==> list[i].seqNum > acked)
  }

  predicate SafePc(cfg: Config, c: Client)
    requires Legal(cfg)
  {
    match c.pc
    case HaveAck(a) => 1 <= a <= c.acked + 1 && (a <= Last(cfg) || Finished(c))
    case HaveRwnd(a, r) =>
      1 <= a <= c.acked + 1 && (a <= Last(cfg) || Finished(c)) && 0 <= r <= cfg.maxRecv && a - 1 + r <= Limit(cfg, c)
    case Checked(seg, _, _) => Fits(cfg, seg, c.acked, Limit(cfg, c)) && (Stale(c) ==> |c.list| < cfg.maxRecv && !Stranded(c))
    case Finishing(seg, _, _) => SafeSegment(cfg, seg, c.acked, Limit(cfg, c))
    case Joining => Finished(c)
    case TimeWait => Finished(c)
    case Closed => Finished(c)
    case _ => true
  }

  ghost predicate SafeList(cfg: Config, c: Client) {
    && c.count == |c.list| + (if c.popping then 1 else 0) <= cfg.maxRecv
    && SafeItems(cfg, c.list, c.acked, Limit(cfg, c))
  }

  /** Once the last segment is stored or printed its number is known, except while it is being handled. */
  ghost predicate EofKnown(cfg: Config, c: Client)
    requires Legal(cfg)
  {
    && (c.last == -1 || c.last == Last(cfg))
    && (c.acked == Last(cfg) || Has(c.list, Last(cfg)) ==>
          c.last == Last(cfg) || (c.pc.Finishing? && c.pc.seg.seqNum == Last(cfg)))
  }

  ghost predicate SafeClient(cfg: Config, c: Client)
    requires Legal(cfg)
  {
    && 0 <= c.acked <= Last(cfg)
    && |c.printed| == c.acked && IsFilePrefix(cfg.file, c.printed)
    && SafeList(cfg, c)
    && EofKnown(cfg, c)
    && SafePc(cfg, c)
    && (c.consumerDone ==> Finished(c) && !c.popping)
  }

  ghost predicate SafeRequests(cfg: Config, ch: seq<Segment>, acked: int, limit: int)
    requires Legal(cfg)
  {
    forall i :: 0 <= i < |ch| ==> SafeRequest(cfg, ch[i], acked, limit)
  }

  ghost predicate SafeSegments(cfg: Config, ch: seq<Segment>, acked: int, limit: int)
    requires Legal(cfg)
  {
    forall i :: 0 <= i < |ch| ==> SafeSegment(cfg, ch[i], acked, limit)
  }

  ghost predicate Safe(cfg: Config, s: State)
    requires Legal(cfg)
  {
    && SafeClient(cfg, s.cli)
    && SafeSender(cfg, s.snd, s.cli.acked, Limit(cfg, s.cli))
    && SafeRequests(cfg, s.toSrv, s.cli.acked, Limit(cfg, s.cli))
    && SafeSegments(cfg, s.toCli, s.cli.acked, Limit(cfg, s.cli))
  }

  // ----- sender steps

  lemma AddedIsSafe(cfg: Config, window: seq<Segment>, seg: Segment, limit: int)
    requires SafeWindow(cfg, window, limit)
    requires IsData(cfg, seg) && seg.isResent == 0 && seg.seqNum <= limit
    ensures SafeWindow(cfg, AddIfAbsent(window, seg), limit)
  {
  }

  ghost predicate DataWithin(cfg: Config, segs: seq<Segment>, limit: int) {
    forall i :: 0 <= i < |segs| ==> IsData(cfg, segs[i]) && segs[i].seqNum <= limit
  }

  ghost predicate SafeBurst(cfg: Config, b: Burst, lastAcked: int, limit: int) {
    && SafeWindow(cfg, b.window, limit) && !b.fault && b.count == |b.window|
    && DataWithin(cfg, b.out, limit)
    && (b.window == [] ==> b.lastAcked == lastAcked)
  }

  lemma SentFirst(cfg: Config, seg: Segment, rest: seq<Segment>, limit: int)
    requires DataWithin(cfg, rest, limit) && IsData(cfg, seg) && seg.seqNum <= limit
    ensures DataWithin(cfg, [seg] + rest, limit)
  {
  }

  lemma {:induction false} BurstFirst(cfg: Config, seg: Segment, rest: Burst, lastAcked: int, limit: int)
    requires SafeBurst(cfg, rest, lastAcked + 1, limit) && rest.window != [] && IsData(cfg, seg) && seg.seqNum <= limit
    ensures SafeBurst(cfg, rest.(out := [seg] + rest.out), lastAcked, limit)
  {
    SentFirst(cfg, seg, rest.out, limit);
  }

  /** The send loop stays inside the file and the limit, and every segment it sends is in its window. */
  lemma {:induction false} BurstSafe(cfg: Config, window: seq<Segment>, lastAcked: int, toSend: int, limit: int)
    requires Legal(cfg) && SafeWindow(cfg, window, limit)
    requires 0 <= lastAcked < Last(cfg) && lastAcked + toSend <= limit
    ensures SafeBurst(cfg, SendLoop(cfg.file, window, |window|, lastAcked, toSend), lastAcked, limit)
    decreases toSend
  {
    if toSend > 0 {
      var k := lastAcked + 1;
      var seg := DataSegment(cfg.file, k);
      assert IsData(cfg, seg);
      AddedIsSafe(cfg, window, seg, limit);
      SentFirst(cfg, seg, [], limit);
      if seg.isEof == 0 {
        var added := AddIfAbsent(window, seg);
        BurstSafe(cfg, added, k, toSend - 1, limit);
        BurstGrowth(cfg.file, added, |added|, k, toSend - 1);
        BurstFirst(cfg, seg, SendLoop(cfg.file, added, |added|, k, toSend - 1), lastAcked, limit);
      } else {
        assert [seg] + [] == [seg];
      }
    }
  }

  /** The window grows by at most the quota. */
  lemma {:induction false} BurstGrowth(file: seq<byte>, window: seq<Segment>, count: int, lastAcked: int, toSend: int)
    ensures |window| <= |SendLoop(file, window, count, lastAcked, toSend).window|
      <= |window| + (if toSend > 0 then toSend else 0)
    decreases toSend
  {
    var k := lastAcked + 1;
    if toSend > 0 && InFile(file, k) {
      var added := AddIfAbsent(window, DataSegment(file, k));
      BurstGrowth(file, added, count + |added| - |window|, k, toSend - 1);
    }
  }

  lemma DropSafe(cfg: Config, window: seq<Segment>, acked: int, limit: int)
    requires SafeWindow(cfg, window, limit)
    ensures SafeWindow(cfg, DropAcked(window, acked), limit)
  {
    var k, kept := Place(window, acked + 1), DropAcked(window, acked);
    assert forall i :: 0 <= i < |kept| ==> kept[i] == window[k + i];
  }

  lemma {:induction false} AnswerFits(cfg: Config, window: seq<Segment>, cwnd: int, req: Segment)
    requires |window| <= cfg.maxSend
    ensures |Answer(cfg, window, |window|, cwnd, req).window| <= cfg.maxSend
  {
    var kept := DropAcked(window, req.ackNum - 1);
    BurstGrowth(cfg.file, kept, |kept|, req.ackNum - 1, Quota(cfg, req.rwnd, cwnd, |kept|));
  }

  lemma {:induction false} AnswerSafe(cfg: Config, window: seq<Segment>, cwnd: int, req: Segment, limit: int)
    requires Legal(cfg) && SafeWindow(cfg, window, limit) && |window| <= cfg.maxSend
    requires 1 <= req.ackNum <= Last(cfg) && req.ackNum - 1 + req.rwnd <= limit
    ensures var b := Answer(cfg, window, |window|, cwnd, req);
      SafeBurst(cfg, b, req.ackNum - 1, limit) && |b.window| <= cfg.maxSend
  {
    var kept := DropAcked(window, req.ackNum - 1);
    DropSafe(cfg, window, req.ackNum - 1, limit);
    BurstSafe(cfg, kept, req.ackNum - 1, Quota(cfg, req.rwnd, cwnd, |kept|), limit);
    AnswerFits(cfg, window, cwnd, req);
  }

  lemma ServeSafe(cfg: Config, s: Sender, req: Segment, sample: int, acked: int, limit: int)
    requires Legal(cfg) && SafeSender(cfg, s, acked, limit) && SafeRequest(cfg, req, acked, limit)
    ensures var (t, out) := OnRequest(cfg, s, req, sample);
      SafeSender(cfg, t, acked, limit) && SafeSegments(cfg, out, acked, limit)
  {
    Congestion.SoundAfter(s.cong, Congestion.Ack(req.ackNum));
    if req.isComplete <= 0 {
      AnswerSafe(cfg, s.window, Congestion.OnAck(s.cong, req.ackNum).cwnd, req, limit);
    }
  }

  lemma TimeoutSafe(cfg: Config, s: Sender, acked: int, limit: int)
    requires Legal(cfg) && SafeSender(cfg, s, acked, limit) && Running(s)
    ensures SafeSender(cfg, OnTimeout(s), acked, limit) && SafeSegment(cfg, Resend(s), acked, limit)
  {
    Congestion.SoundAfter(s.cong, Congestion.Timeout);
  }

  // ----- client steps

  lemma InsertedElement(list: seq<Segment>, seg: Segment, i: nat)
    requires i < |SortedInsert(list, seg)|
    ensures SortedInsert(list, seg)[i] == seg || SortedInsert(list, seg)[i] in list
  {
  }

  lemma InsertedNumbers(list: seq<Segment>, seg: Segment, k: int)
    requires k != seg.seqNum && Has(SortedInsert(list, seg), k)
    ensures Has(list, k)
  {
    var r := SortedInsert(list, seg);
    var i :| 0 <= i < |r| && r[i].seqNum == k;
    InsertedElement(list, seg, i);
    var j :| 0 <= j < |list| && list[j] == r[i];
  }

  lemma {:induction false} InsertedAbove(list: seq<Segment>, seg: Segment, acked: int)
    requires Increasing(list) && (forall i :: 1 <= i < |list| ==> list[i].seqNum > acked)
    requires seg.seqNum <= acked && list != [] ==> list[0].seqNum > acked
    ensures forall i :: 1 <= i < |SortedInsert(list, seg)| ==> SortedInsert(list, seg)[i].seqNum > acked
  {
    SortedInsertCorrect(list, seg);
    var r := SortedInsert(list, seg);
    forall i | 1 <= i < |r| ensures r[i].seqNum > acked { assert r[0].seqNum < r[i].seqNum; }
  }

  lemma {:induction false} InsertItems(cfg: Config, list: seq<Segment>, seg: Segment, acked: int, limit: int)
    requires SafeItems(cfg, list, acked, limit) && Fits(cfg, seg, acked, limit)
    requires seg.seqNum <= acked && list != [] ==> list[0].seqNum > acked
    ensures SafeItems(cfg, SortedInsert(list, seg), acked, limit)
  {
    SortedInsertCorrect(list, seg);
    var r := SortedInsert(list, seg);
    forall i | 0 <= i < |r| ensures Fits(cfg, r[i], acked, limit) { InsertedElement(list, seg, i); }
    InsertedAbove(list, seg, acked);
  }

  lemma InsertedSet(list: seq<Segment>, seg: Segment)
    requires Increasing(list)
    ensures Has(SortedInsert(list, seg), seg.seqNum)
    ensures forall k :: k != seg.seqNum && Has(SortedInsert(list, seg), k) ==> Has(list, k)
  {
    SortedInsertCorrect(list, seg);
    forall k | k != seg.seqNum && Has(SortedInsert(list, seg), k) ensures Has(list, k) { InsertedNumbers(list, seg, k); }
  }

  /** The client after the insert under the mutex. */
  function Stored(cfg: Config, c: Client): Client
    requires c.pc.Checked?
  {
    Store(cfg, c, c.pc.seg).(pc := Finishing(c.pc.seg, c.pc.left, c.pc.probe))
  }

  /** Storing the segment at hand leaves the limit where it is. */
  lemma StoreLimit(cfg: Config, c: Client)
    requires Legal(cfg) && SafeList(cfg, c) && !c.popping && c.pc.Checked? && SafePc(cfg, c)
    ensures Limit(cfg, Stored(cfg, c)) == Limit(cfg, c)
  {
    InsertedFirst(c.list, c.pc.seg);
  }

  lemma StoreSafeList(cfg: Config, c: Client)
    requires Legal(cfg) && SafeList(cfg, c) && !c.popping && c.pc.Checked? && SafePc(cfg, c)
    ensures SafeList(cfg, Stored(cfg, c))
  {
    StoreLimit(cfg, c);
    InsertItems(cfg, c.list, c.pc.seg, c.acked, Limit(cfg, c));
    SizeOfInsert(c.list, c.pc.seg);
  }

  lemma StoreNumbers(cfg: Config, c: Client)
    requires Increasing(c.list) && c.pc.Checked?
    ensures var d := Stored(cfg, c);
      && (Has(d.list, c.pc.seg.seqNum) || d.list == c.list)
      && forall k :: k != c.pc.seg.seqNum && Has(d.list, k) ==> Has(c.list, k)
  {
    InsertedSet(c.list, c.pc.seg);
  }

  lemma InsertedFirst(list: seq<Segment>, seg: Segment)
    ensures var r := SortedInsert(list, seg);
      r != [] && r[0] == if list != [] && list[0].seqNum <= seg.seqNum then list[0] else seg
  {
  }

  lemma SizeOfInsert(list: seq<Segment>, seg: Segment)
    requires Increasing(list)
    ensures |SortedInsert(list, seg)| == |list| + if Has(list, seg.seqNum) then 0 else 1
  {
    AbsentAtPlace(list, seg.seqNum);
  }

  /** A step that moves the receive thread, or learns the last number, and leaves the list alone. */
  lemma MovedSafe(cfg: Config, s: State, t: State)
    requires Legal(cfg) && Safe(cfg, s) && t.snd == s.snd && Limit(cfg, t.cli) == Limit(cfg, s.cli)
    requires t.cli == s.cli.(pc := t.cli.pc, last := t.cli.last, consumerDone := t.cli.consumerDone)
    requires EofKnown(cfg, t.cli) && SafePc(cfg, t.cli) && (t.cli.consumerDone ==> Finished(t.cli) && !t.cli.popping)
    requires SafeRequests(cfg, t.toSrv, s.cli.acked, Limit(cfg, s.cli))
    requires SafeSegments(cfg, t.toCli, s.cli.acked, Limit(cfg, s.cli))
    ensures Safe(cfg, t)
  {
  }

  /** Storing a new segment keeps the list sorted and inside the window. */
  lemma InsertSafe(cfg: Config, s: State)
    requires Legal(cfg) && Safe(cfg, s) && Enabled(cfg, s, Insert)
    ensures Safe(cfg, Next(cfg, s, Insert))
  {
    StoreLimit(cfg, s.cli);
    StoreSafeList(cfg, s.cli);
    StoreNumbers(cfg, s.cli);
  }

  lemma PopSafe(cfg: Config, c: Client)
    requires Legal(cfg) && SafeClient(cfg, c) && CanPop(c) && !c.popping && !c.consumerDone
    requires !(cfg.atomicCheck && c.pc.Checked?)
    ensures SafeClient(cfg, Pop(c)) && Pop(c).acked == c.acked + 1 && Limit(cfg, c) <= Limit(cfg, Pop(c))
  {
    var head, d := c.list[0], Pop(c);
    assert IsData(cfg, head);
    PrefixExtends(cfg.file, c.printed, head);
    assert SafeList(cfg, d);
    assert EofKnown(cfg, d) by {
      if d.acked == Last(cfg) { assert Has(c.list, Last(cfg)); }
      if Has(d.list, Last(cfg)) {
        var i :| 0 <= i < |d.list| && d.list[i].seqNum == Last(cfg);
        assert c.list[i + 1].seqNum == Last(cfg);
      }
    }
  }

  /** What is under way stays safe while the client goes on. */
  lemma ChannelsLater(cfg: Config, s: State, acked: int, limit: int)
    requires Legal(cfg) && Safe(cfg, s) && s.cli.acked <= acked <= Last(cfg) && Limit(cfg, s.cli) <= limit
    ensures SafeSender(cfg, s.snd, acked, limit)
    ensures SafeRequests(cfg, s.toSrv, acked, limit) && SafeSegments(cfg, s.toCli, acked, limit)
  {
  }

  lemma ReceiveSafe(cfg: Config, s: State, l: Label)
    requires Legal(cfg) && Safe(cfg, s) && Enabled(cfg, s, l) && l.Receive?
    ensures Safe(cfg, Next(cfg, s, l))
  {
    assert SafeSegment(cfg, s.toCli[l.i], s.cli.acked, Limit(cfg, s.cli));
    MovedSafe(cfg, s, Next(cfg, s, l));
  }

  lemma SendSafe(cfg: Config, s: State, l: Label)
    requires Legal(cfg) && Safe(cfg, s) && Enabled(cfg, s, l) && l.SendRequest?
    ensures Safe(cfg, Next(cfg, s, l))
  {
    assert SafeRequest(cfg, BuildRequest(s.cli, s.cli.pc.ack, s.cli.pc.rwnd), s.cli.acked, Limit(cfg, s.cli));
    MovedSafe(cfg, s, Next(cfg, s, l));
  }

  lemma FlagsSafe(cfg: Config, s: State)
    requires Legal(cfg) && Safe(cfg, s) && s.cli.pc.Finishing?
    ensures Safe(cfg, Next(cfg, s, TestFlags))
  {
    var c, d := s.cli, Next(cfg, s, TestFlags).cli;
    assert c.pc.seg.seqNum == Last(cfg) ==> IsData(cfg, c.pc.seg) && c.pc.seg.isEof == 1;
    assert c.pc.seg.isEof > 0 ==> c.pc.seg.seqNum == Last(cfg);
    MovedSafe(cfg, s, Next(cfg, s, TestFlags));
  }

  /** Steps of the two threads that touch no channel and no list. */
  lemma ThreadSafe(cfg: Config, s: State, l: Label)
    requires Legal(cfg) && Safe(cfg, s) && Enabled(cfg, s, l)
    requires l.ReadAck? || l.ReadRwnd? || l.TestLoop? || l.ConsumerExit? || l.Join? || l.WaitEnd?
    ensures Safe(cfg, Next(cfg, s, l))
  {
    MovedSafe(cfg, s, Next(cfg, s, l));
  }

  lemma LowerSafe(cfg: Config, s: State)
    requires Legal(cfg) && Safe(cfg, s) && Enabled(cfg, s, Lower)
    ensures Safe(cfg, Next(cfg, s, Lower))
  {
    assert SafeList(cfg, Next(cfg, s, Lower).cli);
  }

  lemma NetworkSafe(cfg: Config, s: State, l: Label)
    requires Legal(cfg) && Safe(cfg, s) && Enabled(cfg, s, l)
    requires l.LoseRequest? || l.CopyRequest? || l.LoseSegment? || l.CopySegment? || l.WaitReply?
    ensures Safe(cfg, Next(cfg, s, l))
  {
    var t := Next(cfg, s, l);
    assert t.snd == s.snd && t.cli == s.cli;
    assert SafeRequests(cfg, t.toSrv, s.cli.acked, Limit(cfg, s.cli));
    assert SafeSegments(cfg, t.toCli, s.cli.acked, Limit(cfg, s.cli));
  }

  lemma SenderSafe(cfg: Config, s: State, l: Label)
    requires Legal(cfg) && Safe(cfg, s) && Enabled(cfg, s, l) && (l.Timeout? || l.Serve?)
    ensures Safe(cfg, Next(cfg, s, l))
  {
    if l.Timeout? {
      TimeoutSafe(cfg, s.snd, s.cli.acked, Limit(cfg, s.cli));
    } else {
      ServeSafe(cfg, s.snd, s.toSrv[l.i], l.sample, s.cli.acked, Limit(cfg, s.cli));
    }
  }

  lemma ClientSafe(cfg: Config, s: State, l: Label)
    requires Legal(cfg) && Safe(cfg, s) && Enabled(cfg, s, l)
    requires l.ReadAck? || l.ReadRwnd? || l.SendRequest? || l.TestLoop? || l.Receive? || l.Insert? || l.TestFlags?
    ensures Safe(cfg, Next(cfg, s, l))
  {
    if l.Receive? {
      ReceiveSafe(cfg, s, l);
    } else if l.SendRequest? {
      SendSafe(cfg, s, l);
    } else if l.Insert? {
      InsertSafe(cfg, s);
    } else if l.TestFlags? {
      FlagsSafe(cfg, s);
    } else {
      ThreadSafe(cfg, s, l);
    }
  }

  lemma AckedGrows(cfg: Config, s: State, l: Label)
    requires Enabled(cfg, s, l)
    ensures s.cli.acked <= Next(cfg, s, l).cli.acked
  {
  }

  /** Every step keeps the invariant. */
  lemma StepSafe(cfg: Config, s: State, l: Label)
    requires Legal(cfg) && Safe(cfg, s) && Enabled(cfg, s, l)
    ensures Safe(cfg, Next(cfg, s, l))
    ensures s.cli.acked <= Next(cfg, s, l).cli.acked
  {
    AckedGrows(cfg, s, l);
    if l.Timeout? || l.Serve? {
      SenderSafe(cfg, s, l);
    } else if l.Consume? {
      PopSafe(cfg, s.cli);
      ChannelsLater(cfg, s, s.cli.acked + 1, Limit(cfg, Pop(s.cli)));
    } else if l.LoseRequest? || l.CopyRequest? || l.LoseSegment? || l.CopySegment? || l.WaitReply? {
      NetworkSafe(cfg, s, l);
    } else if l.Lower? {
      LowerSafe(cfg, s);
    } else if l.ConsumerExit? || l.Join? || l.WaitEnd? {
      ThreadSafe(cfg, s, l);
    } else {
      ClientSafe(cfg, s, l);
    }
  }

  lemma {:induction false} RunSafe(cfg: Config, s: State, run: seq<Label>, t: State)
    requires Legal(cfg) && Safe(cfg, s) && Runs(cfg, s, run, t)
    ensures Safe(cfg, t) && s.cli.acked <= t.cli.acked
    decreases |run|
  {
    if run != [] {
      StepSafe(cfg, s, run[0]);
      RunSafe(cfg, Next(cfg, s, run[0]), run[1..], t);
    }
  }

  lemma ReachableSafe(cfg: Config, t: State)
    requires Legal(cfg) && Reachable(cfg, t)
    ensures Safe(cfg, t)
  {
    var run :| Runs(cfg, Init(), run, t);
    RunSafe(cfg, Init(), run, t);
  }

  // ----- what it means for the two programs

  /** End-to-end prefix safety; with the last segment printed, the output is the file exactly when it has no NUL. */
  lemma PrefixSafety(cfg: Config, t: State)
    requires Legal(cfg) && Reachable(cfg, t)
    ensures |t.cli.printed| == t.cli.acked <= Last(cfg)
    ensures IsFilePrefix(cfg.file, t.cli.printed)
    ensures t.cli.acked == Last(cfg) ==> (Output(t.cli.printed) == cfg.file <==> 0 !in cfg.file)
    ensures 0 !in cfg.file ==> Output(t.cli.printed) <= cfg.file
  {
    ReachableSafe(cfg, t);
    if t.cli.acked == Last(cfg) { WholeFilePrinted(cfg.file, t.cli.printed); }
    if 0 !in cfg.file { OutputOfPrefix(cfg.file, t.cli.printed); }
  }

  /** The bound that flow control puts on everything the sender holds or has in flight. */
  lemma FlowControl(cfg: Config, t: State)
    requires Legal(cfg) && Reachable(cfg, t)
    ensures forall i :: 0 <= i < |t.toCli| ==> t.toCli[i].seqNum <= Limit(cfg, t.cli)
    ensures forall i :: 0 <= i < |t.snd.window| ==> t.snd.window[i].seqNum <= Limit(cfg, t.cli)
    ensures t.snd.count == |t.snd.window| <= cfg.maxSend
    ensures t.cli.count == |t.cli.list| + (if t.cli.popping then 1 else 0) <= cfg.maxRecv && Increasing(t.cli.list)
    ensures forall i :: (if Stranded(t.cli) then 1 else 0) <= i < |t.cli.list| ==>
      t.cli.acked < t.cli.list[i].seqNum <= Limit(cfg, t.cli)
    ensures cfg.atomicCheck ==> !Stranded(t.cli) && !Stale(t.cli)
    ensures Limit(cfg, t.cli) <= t.cli.acked + cfg.maxRecv
  {
    ReachableSafe(cfg, t);
  }

  /** Pigeonhole: a number the client allows that is not in the list has a place in it. */
  lemma RoomFor(cfg: Config, c: Client, k: int)
    requires SafeList(cfg, c) && cfg.maxRecv >= 1 && c.acked < k <= Limit(cfg, c) && !Has(c.list, k)
    ensures |c.list| < cfg.maxRecv
  {
    var live, n := c.list[if Stranded(c) then 1 else 0..], Limit(cfg, c) - c.acked;
    forall i | 0 <= i < |live| ensures c.acked < live[i].seqNum <= c.acked + n && live[i].seqNum != k {
      assert live[i] == c.list[i + |c.list| - |live|];
      assert Fits(cfg, live[i], c.acked, Limit(cfg, c));
    }
    Pigeonhole(live, c.acked, n, k);
  }

  /** So no segment that is not yet in the list is ever turned away for lack of room, not even
      when a stale one occupies a place. */
  lemma NeverDiscarded(cfg: Config, t: State)
    requires Legal(cfg) && Reachable(cfg, t)
    requires Enabled(cfg, t, Insert) && !Has(t.cli.list, t.cli.pc.seg.seqNum)
    ensures t.cli.count < cfg.maxRecv
    ensures var u := Next(cfg, t, Insert);
      && multiset(u.cli.list) == multiset(t.cli.list) + multiset{t.cli.pc.seg}
      && u.cli.count == t.cli.count + 1 == |u.cli.list|
  {
    ReachableSafe(cfg, t);
    var c := t.cli;
    if !Stale(c) { RoomFor(cfg, c, c.pc.seg.seqNum); }
    SortedInsertCorrect(c.list, c.pc.seg);
    SizeOfInsert(c.list, c.pc.seg);
  }

  /** The programs agree on the end of the file. */
  lemma EofAgreement(cfg: Config, t: State)
    requires Legal(cfg) && Reachable(cfg, t)
    ensures !t.snd.fault
    ensures forall i :: 0 <= i < |t.toSrv| && t.toSrv[i].isComplete <= 0 ==> 1 <= t.toSrv[i].ackNum <= Last(cfg)
    ensures forall i :: 0 <= i < |t.toSrv| && t.toSrv[i].isComplete > 0 ==>
      t.cli.acked == Last(cfg) && t.toSrv[i].ackNum == Last(cfg)
    ensures t.snd.done ==> |t.cli.printed| == Last(cfg) && IsFilePrefix(cfg.file, t.cli.printed)
  {
    ReachableSafe(cfg, t);
  }

  /** A segment in flight that is not a slice of the file is never taken as data, and a timeout
      with an empty window sends a number the client has already printed. */
  lemma FillerNeverAccepted(cfg: Config, t: State)
    requires Legal(cfg) && Reachable(cfg, t)
    ensures forall i :: 0 <= i < |t.toCli| && !IsSlice(cfg.file, t.toCli[i], t.toCli[i].seqNum) ==>
      forall left, probe :: Inspect(t.cli, t.toCli[i], left, probe) == Finishing(t.toCli[i], left, probe)
    ensures forall i :: 0 <= i < |t.cli.list| ==> IsSlice(cfg.file, t.cli.list[i], t.cli.list[i].seqNum)
    ensures t.snd.window == [] ==> Resend(t.snd).seqNum <= t.cli.acked
  {
    ReachableSafe(cfg, t);
    forall i | 0 <= i < |t.toCli| && !IsSlice(cfg.file, t.toCli[i], t.toCli[i].seqNum)
      ensures forall left, probe :: Inspect(t.cli, t.toCli[i], left, probe) == Finishing(t.toCli[i], left, probe)
    {
      assert SafeSegment(cfg, t.toCli[i], t.cli.acked, Limit(cfg, t.cli));
    }
  }

  /** The same for what a client in TIME_WAIT sends: its encoder writes one byte less, yet whatever
      the last byte of the datagram is, the sender does with it what it would do with the message. */
  lemma TimeWaitRepliesUnderstood(cfg: Config, t: State, l: Label, junk: byte, snd: Sender, sample: int)
    requires Legal(cfg) && Reachable(cfg, t) && Enabled(cfg, t, l) && l.WaitReply?
    requires |cfg.file| < 0x8000_0000 && cfg.maxRecv < 0x8000_0000
    ensures var m := BuildRequest(t.cli, t.cli.acked + 1, cfg.maxRecv - t.cli.count);
      && m.isComplete == 1 && Codec.Representable(m) && |Codec.EncodeTimeWait(m) + [junk]| == UDP_SEGMENT_SIZE
      && OnRequest(cfg, snd, Codec.Decode(Codec.EncodeTimeWait(m) + [junk]), sample) == OnRequest(cfg, snd, m, sample)
  {
    ReachableSafe(cfg, t);
    var m := BuildRequest(t.cli, t.cli.acked + 1, cfg.maxRecv - t.cli.count);
    assert SafeRequest(cfg, m, t.cli.acked, Limit(cfg, t.cli));
    Codec.TimeWaitRoundTrip(m, junk);
  }

  /** With a file and window that a C int can count, every message fits the wire format, so
      carrying segment values on the channels loses nothing. */
  lemma MessagesFitTheWire(cfg: Config, t: State, i: nat)
    requires Legal(cfg) && Reachable(cfg, t)
    requires |cfg.file| < 0x8000_0000 && cfg.maxRecv < 0x8000_0000
    ensures i < |t.toCli| ==> Codec.Representable(t.toCli[i]) && Codec.Decode(Codec.Encode(t.toCli[i])) == t.toCli[i]
    ensures i < |t.toSrv| ==> Codec.Representable(t.toSrv[i]) && Codec.Decode(Codec.Encode(t.toSrv[i])) == t.toSrv[i]
  {
    ReachableSafe(cfg, t);
    if i < |t.toCli| {
      assert SafeSegment(cfg, t.toCli[i], t.cli.acked, Limit(cfg, t.cli));
      Codec.RoundTrip(t.toCli[i]);
    }
    if i < |t.toSrv| {
      assert SafeRequest(cfg, t.toSrv[i], t.cli.acked, Limit(cfg, t.cli));
      Codec.RoundTrip(t.toSrv[i]);
    }
  }
}
