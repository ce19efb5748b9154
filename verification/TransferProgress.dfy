/**
  No stuck states. Whatever was lost, duplicated or reordered before, a state whose client was
  not caught by its unlocked number test prints the next segment in some continuation without
  loss, as long as the sender is alive or that segment is still to be had, and so segment after
  segment as far as life or supply reach.
 */
module TransferProgress {
  import opened Segments
  import opened Windows
  import opened Transfer
  import opened TransferSafety
  import opened TransferWindow
  import opened TransferLife
  import Congestion

  // ----- continuations without loss

  ghost predicate Reaches(cfg: Config, s: State, t: State) {
    exists run :: CalmRun(cfg, s, run, t)
  }

  /** A continuation without loss that gives up neither life nor supply. */
  ghost predicate Leads(cfg: Config, s: State, t: State) { Reaches(cfg, s, t) && Keeps(s, t) }

  lemma {:induction false} CalmRunTrans(cfg: Config, s: State, first: seq<Label>, m: State, second: seq<Label>, t: State)
    requires CalmRun(cfg, s, first, m) && CalmRun(cfg, m, second, t)
    ensures CalmRun(cfg, s, first + second, t)
    decreases |first|
  {
    if first == [] {
      assert first + second == second;
    } else {
      CalmRunTrans(cfg, Next(cfg, s, first[0]), first[1..], m, second, t);
      assert (first + second)[1..] == first[1..] + second;
    }
  }

  lemma ReachesTrans(cfg: Config, s: State, m: State, t: State)
    requires Reaches(cfg, s, m) && Reaches(cfg, m, t)
    ensures Reaches(cfg, s, t)
  {
    var first :| CalmRun(cfg, s, first, m);
    var second :| CalmRun(cfg, m, second, t);
    CalmRunTrans(cfg, s, first, m, second, t);
  }

  lemma ReachesSelf(cfg: Config, s: State)
    ensures Reaches(cfg, s, s)
  {
    assert CalmRun(cfg, s, [], s);
  }

  lemma ReachesNext(cfg: Config, s: State, l: Label)
    requires Enabled(cfg, s, l) && Calm(s, l)
    ensures Reaches(cfg, s, Next(cfg, s, l))
  {
    assert CalmRun(cfg, Next(cfg, s, l), [], Next(cfg, s, l));
    assert [l][1..] == [];
    assert CalmRun(cfg, s, [l], Next(cfg, s, l));
  }

  lemma KeepsTrans(s: State, m: State, t: State)
    requires Keeps(s, m) && Keeps(m, t)
    ensures Keeps(s, t)
  {
  }

  lemma LeadsTrans(cfg: Config, s: State, m: State, t: State)
    requires Leads(cfg, s, m) && Leads(cfg, m, t)
    ensures Leads(cfg, s, t)
  {
    ReachesTrans(cfg, s, m, t);
    KeepsTrans(s, m, t);
  }

  lemma LeadsSelf(cfg: Config, s: State)
    ensures Leads(cfg, s, s)
  {
    ReachesSelf(cfg, s);
  }

  /** What holds in every reachable state that has not been caught by the client's unlocked test. */
  ghost predicate Good(cfg: Config, s: State) {
    Legal(cfg) && Safe(cfg, s) && Gapless(s.snd.window, s.cli.acked) && !Stranded(s.cli) && !Stale(s.cli)
  }

  /** Only a pop between the number test and the insert can make a segment stale. */
  lemma StepFresh(cfg: Config, s: State, l: Label)
    requires Legal(cfg) && Safe(cfg, s) && !Stranded(s.cli) && !Stale(s.cli) && Enabled(cfg, s, l)
    requires l.Consume? ==> !s.cli.pc.Checked?
    ensures !Stranded(Next(cfg, s, l).cli) && !Stale(Next(cfg, s, l).cli)
  {
    if l.Insert? {
      StoreFresh(cfg, s.cli, s.cli.pc.seg);
    } else if l.Consume? {
      PopFresh(s.cli);
    }
  }

  lemma StoreFresh(cfg: Config, c: Client, seg: Segment)
    requires !Stranded(c) && seg.seqNum > c.acked
    ensures !Stranded(Store(cfg, c, seg))
  {
    InsertedFirst(c.list, seg);
  }

  lemma PopFresh(c: Client)
    requires CanPop(c) && Increasing(c.list)
    ensures !Stranded(Pop(c))
  {
    if |c.list| > 1 { assert c.list[0].seqNum < c.list[1].seqNum; }
  }

  /** One calm step that does not pop between the test and the insert. */
  lemma Go(cfg: Config, s: State, l: Label) returns (t: State)
    requires Good(cfg, s) && Enabled(cfg, s, l) && Calm(s, l) && (l.Consume? ==> !s.cli.pc.Checked?)
    requires !l.Timeout? && !l.WaitEnd? && (l.Serve? ==> s.toSrv[l.i].isComplete <= 0)
    ensures t == Next(cfg, s, l) && Leads(cfg, s, t) && Good(cfg, t)
  {
    t := Next(cfg, s, l);
    ReachesNext(cfg, s, l);
    StepKeeps(cfg, s, l);
    GoodNext(cfg, s, l);
  }

  lemma GoodNext(cfg: Config, s: State, l: Label)
    requires Good(cfg, s) && Enabled(cfg, s, l) && (l.Consume? ==> !s.cli.pc.Checked?)
    ensures Good(cfg, Next(cfg, s, l))
  {
    StepSafe(cfg, s, l);
    StepGapless(cfg, s, l);
    StepFresh(cfg, s, l);
  }

  // ----- the client's half

  /** The segment the client needs next. */
  function Needed(c: Client): int { c.acked + 1 }

  /** Unfinished, with the consumer outside its lock. */
  ghost predicate Unfinished(cfg: Config, s: State) {
    Good(cfg, s) && s.cli.acked < Last(cfg) && !s.cli.popping
  }

  /** The needed segment has not arrived. */
  ghost predicate Waiting(cfg: Config, s: State) {
    Unfinished(cfg, s) && !Has(s.cli.list, Needed(s.cli))
  }

  /** A request that asks for segment k and advertises room. */
  predicate Asks(r: Segment, k: int) { r.isComplete <= 0 && r.ackNum == k && r.rwnd >= 1 }

  predicate AllAsk(requests: seq<Segment>, k: int) {
    forall i :: 0 <= i < |requests| ==> Asks(requests[i], k)
  }

  lemma RoomForNeeded(cfg: Config, s: State)
    requires Waiting(cfg, s)
    ensures s.cli.count < cfg.maxRecv && !Finished(s.cli)
  {
    RoomFor(cfg, s.cli, s.cli.acked + 1);
  }

  function Asked(cfg: Config, s: State): State {
    s.(cli := s.cli.(pc := Reading(cfg.maxRecv - s.cli.count, false)),
       toSrv := s.toSrv + [Request(Needed(s.cli), cfg.maxRecv - s.cli.count)])
  }

  lemma ReadShared(cfg: Config, s: State) returns (t: State)
    requires Good(cfg, s) && s.cli.pc.Top?
    ensures t == s.(cli := s.cli.(pc := HaveRwnd(Needed(s.cli), cfg.maxRecv - s.cli.count)))
    ensures Leads(cfg, s, t) && Good(cfg, t)
  {
    var m := Go(cfg, s, ReadAck);
    t := Go(cfg, m, ReadRwnd);
    LeadsTrans(cfg, s, m, t);
  }

  lemma SendAndRead(cfg: Config, s: State) returns (t: State)
    requires Good(cfg, s) && s.cli.pc.HaveRwnd? && s.cli.pc.rwnd > 0 && !Finished(s.cli)
    ensures t == s.(cli := s.cli.(pc := Reading(s.cli.pc.rwnd, false)),
                    toSrv := s.toSrv + [Request(s.cli.pc.ack, s.cli.pc.rwnd)])
    ensures Leads(cfg, s, t) && Good(cfg, t)
  {
    var m := Go(cfg, s, SendRequest(false));
    t := Go(cfg, m, TestLoop);
    LeadsTrans(cfg, s, m, t);
  }

  /** From the top of its loop the client sends a request for the needed segment and reads. */
  lemma Ask(cfg: Config, s: State) returns (t: State)
    requires Waiting(cfg, s) && s.cli.pc.Top?
    ensures t == Asked(cfg, s) && Leads(cfg, s, t) && Waiting(cfg, t) && s.cli.count < cfg.maxRecv
  {
    RoomForNeeded(cfg, s);
    var m := ReadShared(cfg, s);
    t := SendAndRead(cfg, m);
    LeadsTrans(cfg, s, m, t);
  }

  /** The client moved on to reading, keeping its list, and may have asked for what it needs. */
  ghost predicate ReadsOn(s: State, t: State) {
    && t.cli.pc.Reading? && t.cli.list == s.cli.list && t.cli.acked == s.cli.acked
    && t.snd == s.snd && t.toCli == s.toCli
    && s.toSrv <= t.toSrv && AllAsk(t.toSrv[|s.toSrv|..], Needed(s.cli))
  }

  /** From the head of its inner loop the client ends up reading, perhaps after one more request. */
  lemma Loop(cfg: Config, s: State) returns (t: State)
    requires Waiting(cfg, s) && s.cli.pc.LoopHead?
    ensures Leads(cfg, s, t) && Waiting(cfg, t) && ReadsOn(s, t)
  {
    RoomForNeeded(cfg, s);
    t := Go(cfg, s, TestLoop);
    if t.cli.pc.Top? {
      var m := t;
      t := Ask(cfg, m);
      LeadsTrans(cfg, s, m, t);
    }
  }

  lemma Flags(cfg: Config, s: State) returns (m: State)
    requires Waiting(cfg, s) && s.cli.pc.Finishing?
    ensures Leads(cfg, s, m) && Waiting(cfg, m) && m == s.(cli := m.cli) && (m.cli.pc.Top? || m.cli.pc.LoopHead?)
    ensures m.cli.list == s.cli.list && m.cli.acked == s.cli.acked
    ensures Prompts(s.cli.pc.seg) ==> m.cli.pc.Top?
  {
    m := Go(cfg, s, TestFlags);
  }

  lemma AfterFlags(cfg: Config, s: State) returns (t: State)
    requires Waiting(cfg, s) && s.cli.pc.Finishing?
    ensures Leads(cfg, s, t) && Waiting(cfg, t) && ReadsOn(s, t)
    ensures Prompts(s.cli.pc.seg) ==> |s.toSrv| < |t.toSrv|
  {
    var m := Flags(cfg, s);
    if m.cli.pc.Top? { t := Ask(cfg, m); } else { t := Loop(cfg, m); }
    LeadsTrans(cfg, s, m, t);
  }

  /** The needed segment is in the list, and this is how the client got there. */
  ghost predicate Arrived(cfg: Config, s: State) {
    Unfinished(cfg, s) && Has(s.cli.list, Needed(s.cli))
  }

  /** With room in the list the insert adds exactly the segment's number. */
  lemma StoredHas(cfg: Config, c: Client, k: int)
    requires Increasing(c.list) && c.pc.Checked? && c.count < cfg.maxRecv
    ensures Has(Stored(cfg, c).list, k) <==> Has(c.list, k) || k == c.pc.seg.seqNum
  {
    InsertedSet(c.list, c.pc.seg);
    if Has(c.list, k) { StoredStays(cfg, c, c.pc.seg, k); }
  }

  lemma StoreStep(cfg: Config, s: State) returns (m: State)
    requires Waiting(cfg, s) && s.cli.pc.Checked?
    ensures Leads(cfg, s, m) && m == s.(cli := Stored(cfg, s.cli))
    ensures if s.cli.pc.seg.seqNum == Needed(s.cli) then Arrived(cfg, m) else Waiting(cfg, m)
  {
    RoomForNeeded(cfg, s);
    StoredHas(cfg, s.cli, Needed(s.cli));
    m := Go(cfg, s, Insert);
  }

  /** Storing the segment at hand either brings the needed one or the client reads on. */
  lemma StoreIt(cfg: Config, s: State) returns (t: State)
    requires Waiting(cfg, s) && s.cli.pc.Checked?
    ensures Leads(cfg, s, t) && t.cli.acked == s.cli.acked && t.snd == s.snd && t.toCli == s.toCli
    ensures Arrived(cfg, t) || (Waiting(cfg, t) && t.cli.pc.Reading?)
    ensures s.toSrv <= t.toSrv && AllAsk(t.toSrv[|s.toSrv|..], Needed(s.cli))
    ensures s.cli.pc.seg.seqNum == Needed(s.cli) ==> Arrived(cfg, t)
    ensures Prompts(s.cli.pc.seg) ==> Arrived(cfg, t) || |s.toSrv| < |t.toSrv|
  {
    var m := StoreStep(cfg, s);
    if Arrived(cfg, m) {
      t := m;
      assert t.toSrv[|s.toSrv|..] == [];
    } else {
      t := AfterFlags(cfg, m);
      LeadsTrans(cfg, s, m, t);
    }
  }

  /** The client takes the oldest segment in flight. */
  lemma AbsorbOne(cfg: Config, s: State) returns (t: State)
    requires Waiting(cfg, s) && s.cli.pc.Reading? && s.toCli != []
    ensures Leads(cfg, s, t) && t.cli.acked == s.cli.acked && t.snd == s.snd && t.toCli == s.toCli[1..]
    ensures Arrived(cfg, t) || (Waiting(cfg, t) && t.cli.pc.Reading?)
    ensures s.toSrv <= t.toSrv && AllAsk(t.toSrv[|s.toSrv|..], Needed(s.cli))
    ensures s.toCli[0].seqNum == Needed(s.cli) ==> Arrived(cfg, t)
    ensures Prompts(s.toCli[0]) ==> Arrived(cfg, t) || |s.toSrv| < |t.toSrv|
  {
    var m := Go(cfg, s, Receive(0, false));
    assert SafeSegment(cfg, s.toCli[0], s.cli.acked, Limit(cfg, s.cli));
    assert m.toCli == s.toCli[1..];
    if m.cli.pc.Checked? { t := StoreIt(cfg, m); } else { t := AfterFlags(cfg, m); }
    LeadsTrans(cfg, s, m, t);
  }

  /** The client takes everything in flight, or stops when the needed segment arrives. */
  lemma {:induction false} DrainClient(cfg: Config, s: State) returns (t: State)
    requires Waiting(cfg, s) && s.cli.pc.Reading?
    ensures Leads(cfg, s, t) && t.cli.acked == s.cli.acked && t.snd == s.snd
    ensures Arrived(cfg, t) || (Waiting(cfg, t) && t.cli.pc.Reading? && t.toCli == [])
    ensures s.toSrv <= t.toSrv && AllAsk(t.toSrv[|s.toSrv|..], Needed(s.cli))
    ensures Has(s.toCli, Needed(s.cli)) ==> Arrived(cfg, t)
    decreases |s.toCli|
  {
    if s.toCli == [] {
      LeadsSelf(cfg, s);
      t := s;
    } else {
      t := AbsorbOne(cfg, s);
      if Waiting(cfg, t) {
        var m := t;
        t := DrainClient(cfg, m);
        LeadsTrans(cfg, s, m, t);
        AskChain(s.toSrv, m.toSrv, t.toSrv, Needed(s.cli));
        if Has(s.toCli, Needed(s.cli)) {
          var i :| 0 <= i < |s.toCli| && s.toCli[i].seqNum == Needed(s.cli);
          assert m.toCli[i - 1].seqNum == Needed(s.cli);
        }
      }
    }
  }

  lemma AskChain(a: seq<Segment>, b: seq<Segment>, c: seq<Segment>, k: int)
    requires a <= b <= c && AllAsk(b[|a|..], k) && AllAsk(c[|b|..], k)
    ensures a <= c && AllAsk(c[|a|..], k)
  {
    assert c[|a|..] == b[|a|..] + c[|b|..];
  }

  // ----- the sender's half

  /** A request that asks for segment k makes it the front of the window, and sends it unless the window is full. */
  lemma ServeAsk(cfg: Config, s: Sender, req: Segment, acked: int, limit: int)
    requires Legal(cfg) && SafeSender(cfg, s, acked, limit) && SafeRequest(cfg, req, acked, limit)
    requires Asks(req, acked + 1)
    requires Gapless(s.window, acked)
    ensures var (t, out) := OnRequest(cfg, s, req, 0);
      Has(out, req.ackNum) || (out == [] && t.window != [] && t.window[0].seqNum == req.ackNum)
  {
    Congestion.SoundAfter(s.cong, Congestion.Ack(req.ackNum));
    var kept := DropAcked(s.window, req.ackNum - 1);
    var cwnd := Congestion.OnAck(s.cong, req.ackNum).cwnd;
    var quota := Quota(cfg, req.rwnd, cwnd, |kept|);
    FrontAfterAsk(cfg, s.window, s.count, cwnd, req);
    if quota > 0 {
      var out := OnRequest(cfg, s, req, 0).1;
      assert out[0].seqNum == req.ackNum;
    }
  }

  lemma ServeOne(cfg: Config, s: State) returns (t: State)
    requires Waiting(cfg, s) && Running(s.snd) && s.toSrv != []
    ensures Leads(cfg, s, t) && Waiting(cfg, t) && t.cli == s.cli && t.toSrv == s.toSrv[1..] && s.toCli <= t.toCli
    ensures Running(t.snd) && t.snd.timer.drops == 0
    ensures Asks(s.toSrv[0], Needed(s.cli)) ==> Served(s, t)
  {
    assert SafeRequest(cfg, s.toSrv[0], s.cli.acked, Limit(cfg, s.cli));
    t := Go(cfg, s, Serve(0, 0));
    assert t.toSrv == s.toSrv[1..];
    if Asks(s.toSrv[0], Needed(s.cli)) {
      var k, out := Needed(s.cli), OnRequest(cfg, s.snd, s.toSrv[0], 0).1;
      ServeAsk(cfg, s.snd, s.toSrv[0], s.cli.acked, Limit(cfg, s.cli));
      HasAppended(s.toCli, out, k);
      if out == [] { assert s.toCli + out == s.toCli; }
    }
  }

  /** The needed segment is now in flight, or at the front of a full window with nothing new in flight. */
  ghost predicate Served(s: State, t: State) {
    || Has(t.toCli, Needed(s.cli))
    || (t.toCli == s.toCli && t.snd.window != [] && t.snd.window[0].seqNum == Needed(s.cli))
  }

  /** The sender handles every request in flight. */
  lemma {:induction false} DrainServer(cfg: Config, s: State) returns (t: State)
    requires Waiting(cfg, s) && Running(s.snd)
    ensures Leads(cfg, s, t) && Waiting(cfg, t) && t.cli == s.cli && t.toSrv == [] && s.toCli <= t.toCli
    ensures Running(t.snd) && if s.toSrv == [] then t == s else t.snd.timer.drops == 0
    ensures s.toSrv != [] && AllAsk(s.toSrv, Needed(s.cli)) ==> Served(s, t)
    decreases |s.toSrv|
  {
    if s.toSrv == [] {
      LeadsSelf(cfg, s);
      t := s;
    } else {
      var m := ServeOne(cfg, s);
      t := DrainServer(cfg, m);
      LeadsTrans(cfg, s, m, t);
      if AllAsk(s.toSrv, Needed(s.cli)) {
        assert Asks(s.toSrv[0], Needed(s.cli));
        assert AllAsk(m.toSrv, Needed(s.cli));
        if Has(m.toCli, Needed(s.cli)) {
          var i :| 0 <= i < |m.toCli| && m.toCli[i].seqNum == Needed(s.cli);
          assert t.toCli[i] == m.toCli[i];
        }
      }
    }
  }

  // ----- the next segment

  /** Pop the head in its two halves. */
  lemma PopHead(cfg: Config, s: State) returns (t: State)
    requires Arrived(cfg, s) && CanPop(s.cli) && !s.cli.pc.Checked?
    ensures Leads(cfg, s, t) && Good(cfg, t) && t == s.(cli := CountDown(Pop(s.cli)))
  {
    var m := Go(cfg, s, Consume);
    t := Go(cfg, m, Lower);
    LeadsTrans(cfg, s, m, t);
  }

  /** A segment waiting for the mutex is stored first. */
  lemma StoreFirst(cfg: Config, s: State) returns (t: State)
    requires Arrived(cfg, s) && s.cli.pc.Checked?
    ensures Leads(cfg, s, t) && Arrived(cfg, t) && t.cli.acked == s.cli.acked
    ensures t.cli.pc.Finishing?
  {
    t := Go(cfg, s, Insert);
    StoredStays(cfg, s.cli, s.cli.pc.seg, Needed(s.cli));
  }

  lemma HeadIsNeeded(cfg: Config, s: State)
    requires Arrived(cfg, s)
    ensures CanPop(s.cli)
  {
  }

  lemma PopNow(cfg: Config, s: State) returns (t: State)
    requires Arrived(cfg, s)
    ensures Leads(cfg, s, t) && Good(cfg, t) && t.cli.acked == s.cli.acked + 1 && !t.cli.pc.Closed?
  {
    var m := s;
    LeadsSelf(cfg, s);
    if s.cli.pc.Checked? { m := StoreFirst(cfg, s); }
    HeadIsNeeded(cfg, m);
    t := PopHead(cfg, m);
    LeadsTrans(cfg, s, m, t);
  }

  /** Wherever it is, the client finishes what it is doing and reads. */
  lemma ToReading(cfg: Config, s: State) returns (t: State)
    requires Waiting(cfg, s)
    ensures Leads(cfg, s, t) && t.cli.acked == s.cli.acked && t.snd == s.snd && s.toSrv <= t.toSrv
    ensures Arrived(cfg, t) || (Waiting(cfg, t) && t.cli.pc.Reading?)
  {
    RoomForNeeded(cfg, s);
    match s.cli.pc
    case Top => t := Ask(cfg, s);
    case HaveAck(_) =>
      var m := Go(cfg, s, ReadRwnd);
      t := SendThenRead(cfg, m);
      LeadsTrans(cfg, s, m, t);
    case HaveRwnd(_, _) => t := SendThenRead(cfg, s);
    case LoopHead(_, _) => t := Loop(cfg, s);
    case Reading(_, _) =>
      LeadsSelf(cfg, s);
      t := s;
    case Checked(_, _, _) => t := StoreIt(cfg, s);
    case Finishing(_, _, _) => t := AfterFlags(cfg, s);
  }

  lemma SendThenRead(cfg: Config, s: State) returns (t: State)
    requires Waiting(cfg, s) && s.cli.pc.HaveRwnd?
    ensures Leads(cfg, s, t) && t.cli.acked == s.cli.acked && t.snd == s.snd && s.toSrv <= t.toSrv && t.toSrv != []
    ensures Waiting(cfg, t) && t.cli.pc.Reading?
  {
    RoomForNeeded(cfg, s);
    var m := Go(cfg, s, SendRequest(false));
    t := Loop(cfg, m);
    LeadsTrans(cfg, s, m, t);
  }

  /** The timer goes off at a blocked client. */
  lemma Fire(cfg: Config, s: State) returns (t: State)
    requires Waiting(cfg, s) && s.cli.pc.Reading? && Quiet(s) && Running(s.snd)
    ensures t == Next(cfg, s, Timeout) && Leads(cfg, s, t) && Waiting(cfg, t) && t.toCli == [Resend(s.snd)]
  {
    t := Next(cfg, s, Timeout);
    ReachesNext(cfg, s, Timeout);
    TimeoutKeeps(cfg, s);
    GoodNext(cfg, s, Timeout);
  }

  /** The timer fires with nothing in flight and the client takes what is resent. */
  lemma Poke(cfg: Config, s: State) returns (t: State)
    requires Waiting(cfg, s) && s.cli.pc.Reading? && Quiet(s) && Running(s.snd)
    ensures Leads(cfg, s, t) && t.cli.acked == s.cli.acked && t.toCli == []
    ensures Arrived(cfg, t) || (Waiting(cfg, t) && t.cli.pc.Reading?)
    ensures !Arrived(cfg, t) ==> t.toSrv != [] && AllAsk(t.toSrv, Needed(s.cli))
    ensures s.snd.window != [] && s.snd.window[0].seqNum == Needed(s.cli) ==> Arrived(cfg, t)
  {
    var m := Fire(cfg, s);
    t := AbsorbOne(cfg, m);
    LeadsTrans(cfg, s, m, t);
    assert t.toSrv[|m.toSrv|..] == t.toSrv;
  }

  /** With requests for the needed segment in flight and nothing else, it arrives. */
  lemma AskedFor(cfg: Config, s: State) returns (t: State)
    requires Waiting(cfg, s) && Running(s.snd) && s.cli.pc.Reading? && s.toCli == []
    requires s.toSrv != [] && AllAsk(s.toSrv, Needed(s.cli))
    ensures Leads(cfg, s, t) && Arrived(cfg, t) && t.cli.acked == s.cli.acked
  {
    var m := DrainServer(cfg, s);
    if Has(m.toCli, Needed(s.cli)) {
      t := DrainClient(cfg, m);
    } else {
      t := Poke(cfg, m);
    }
    LeadsTrans(cfg, s, m, t);
  }

  /** A live sender whose client is blocked and has nothing coming: the needed segment arrives. */
  lemma FromIdle(cfg: Config, s: State) returns (t: State)
    requires Waiting(cfg, s) && Alive(s) && s.cli.pc.Reading? && s.toCli == [] && AllAsk(s.toSrv, Needed(s.cli))
    ensures Leads(cfg, s, t) && Arrived(cfg, t) && t.cli.acked == s.cli.acked
  {
    if s.toSrv == [] {
      var m := Poke(cfg, s);
      t := m;
      if !Arrived(cfg, m) {
        t := AskedFor(cfg, m);
        LeadsTrans(cfg, s, m, t);
      }
    } else {
      t := AskedFor(cfg, s);
    }
  }

  /** With a live sender the needed segment arrives. */
  lemma Arrives(cfg: Config, s: State) returns (t: State)
    requires Waiting(cfg, s) && Alive(s)
    ensures Leads(cfg, s, t) && Arrived(cfg, t) && t.cli.acked == s.cli.acked
  {
    t := ToReading(cfg, s);
    if !Arrived(cfg, t) {
      var m := DrainServer(cfg, t);
      LeadsTrans(cfg, s, t, m);
      t := DrainClient(cfg, m);
      LeadsTrans(cfg, s, m, t);
      if !Arrived(cfg, t) {
        assert t.toSrv[|m.toSrv|..] == t.toSrv;
        m := t;
        t := FromIdle(cfg, m);
        LeadsTrans(cfg, s, m, t);
      }
    }
  }

  /** A needed segment that is to be had arrives, with or without a live sender. */
  lemma SupplyArrives(cfg: Config, s: State) returns (t: State)
    requires Waiting(cfg, s) && Supplied(s, Needed(s.cli))
    ensures Leads(cfg, s, t) && Arrived(cfg, t) && t.cli.acked == s.cli.acked
  {
    t := ToReading(cfg, s);
    if !Arrived(cfg, t) {
      var m := DrainClient(cfg, t);
      LeadsTrans(cfg, s, t, m);
      t := m;
      if !Arrived(cfg, m) {
        if Alive(m) { t := Arrives(cfg, m); } else { t := Poke(cfg, m); }
        LeadsTrans(cfg, s, m, t);
      }
    }
  }

  /** The consumer finishes a pop it is in the middle of. */
  lemma Settle(cfg: Config, s: State) returns (t: State)
    requires Good(cfg, s)
    ensures Leads(cfg, s, t) && Good(cfg, t) && !t.cli.popping && t == s.(cli := t.cli)
    ensures t.cli.acked == s.cli.acked && t.cli.pc == s.cli.pc
  {
    LeadsSelf(cfg, s);
    t := s;
    if s.cli.popping { t := Go(cfg, s, Lower); }
  }

  /** One more segment is printed. */
  lemma OneMore(cfg: Config, s: State) returns (t: State)
    requires Good(cfg, s) && s.cli.acked < Last(cfg) && (Alive(s) || Supplied(s, Needed(s.cli)))
    ensures Leads(cfg, s, t) && Good(cfg, t) && t.cli.acked == s.cli.acked + 1 && !t.cli.pc.Closed?
  {
    var m := Settle(cfg, s);
    if !Has(m.cli.list, Needed(m.cli)) {
      var n := NextArrives(cfg, m);
      LeadsTrans(cfg, s, m, n);
      m := n;
    }
    t := PopNow(cfg, m);
    LeadsTrans(cfg, s, m, t);
  }

  lemma NextArrives(cfg: Config, s: State) returns (t: State)
    requires Waiting(cfg, s) && (Alive(s) || Supplied(s, Needed(s.cli)))
    ensures Leads(cfg, s, t) && Arrived(cfg, t) && t.cli.acked == s.cli.acked
  {
    if Alive(s) { t := Arrives(cfg, s); } else { t := SupplyArrives(cfg, s); }
  }

  /** Life, or supply for every number up to m. */
  ghost predicate Hope(s: State, m: int) {
    Alive(s) || forall k :: s.cli.acked < k <= m ==> Supplied(s, k)
  }

  lemma HopeKept(s: State, t: State, m: int)
    requires Keeps(s, t) && Hope(s, m)
    ensures Hope(t, m)
  {
  }

  /** Everything up to number m is printed. */
  lemma {:induction false} UpTo(cfg: Config, s: State, m: int) returns (t: State)
    requires Good(cfg, s) && Hope(s, m) && s.cli.acked <= m <= Last(cfg)
    ensures Leads(cfg, s, t) && Good(cfg, t) && t.cli.acked == m
    ensures !s.cli.pc.Closed? ==> !t.cli.pc.Closed?
    decreases m - s.cli.acked
  {
    if s.cli.acked == m {
      LeadsSelf(cfg, s);
      t := s;
    } else {
      var n := OneMore(cfg, s);
      HopeKept(s, n, m);
      t := UpTo(cfg, n, m);
      LeadsTrans(cfg, s, n, t);
    }
  }
}
