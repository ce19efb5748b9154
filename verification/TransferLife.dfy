/**
  What can still happen. A sender is alive while it can afford a timeout or a request will reach
  it; a number is supplied while the client has it at hand or the next timeout would send it.
  Continuations are calm: nothing is lost or duplicated, and the timer fires only when nothing
  is in flight.
 */
module TransferLife {
  import opened Segments
  import opened Windows
  import opened Transfer
  import opened TransferSafety
  import Timer

  predicate Quiet(s: State) { s.toSrv == [] && s.toCli == [] }

  /** Nothing is lost, dropped or duplicated, and the timer fires only when nothing is in flight. */
  predicate Calm(s: State, l: Label) {
    match l
    case Timeout => Quiet(s)
    case SendRequest(lost) => !lost
    case Receive(_, dropped) => !dropped
    case WaitReply(_, lost) => !lost
    case LoseRequest(_) => false
    case CopyRequest(_) => false
    case LoseSegment(_) => false
    case CopySegment(_) => false
    case _ => true
  }

  ghost predicate CalmRun(cfg: Config, s: State, run: seq<Label>, t: State)
    decreases |run|
  {
    if run == [] then s == t
    else Enabled(cfg, s, run[0]) && Calm(s, run[0]) && CalmRun(cfg, Next(cfg, s, run[0]), run[1..], t)
  }

  /** What every calm step keeps, every calm run keeps. */
  lemma {:induction false} CalmAlways(cfg: Config, inv: State -> bool, s: State, run: seq<Label>, t: State)
    requires inv(s) && CalmRun(cfg, s, run, t)
    requires forall x, l :: inv(x) && Enabled(cfg, x, l) && Calm(x, l) ==> inv(Next(cfg, x, l))
    ensures inv(t)
    decreases |run|
  {
    if run != [] { CalmAlways(cfg, inv, Next(cfg, s, run[0]), run[1..], t); }
  }

  // ----- will the client ask?

  /** The flag tests on this segment send the client back to ask. */
  predicate Prompts(seg: Segment) { seg.isEof > 0 || seg.isResent > 0 }

  /** How many segments the inner loop still takes, if none of them prompts. */
  function Turns(c: Client, left: int, probe: bool): nat {
    if Finished(c) || left < 0 then 0 else left + if probe then 1 else 0
  }

  /** How many segments the client takes before it sends its next request, if none of them prompts. */
  function Distance(c: Client): nat {
    match c.pc
    case LoopHead(left, probe) => Turns(c, left, probe)
    case Reading(left, probe) => 1 + Turns(c, left - 1, probe)
    case Checked(seg, left, probe) => if Prompts(seg) then 0 else Turns(c, left - 1, probe)
    case Finishing(seg, left, probe) => if Prompts(seg) then 0 else Turns(c, left - 1, probe)
    case Joining => 1
    case TimeWait => 1
    case _ => 0
  }

  predicate HasPrompt(segs: seq<Segment>) { exists i :: 0 <= i < |segs| && Prompts(segs[i]) }

  /** A request is in flight, or what is in flight is enough to make the client send one. */
  predicate WillAsk(s: State) {
    s.toSrv != [] || (!s.cli.pc.Closed? && (Distance(s.cli) <= |s.toCli| || HasPrompt(s.toCli)))
  }

  /** The sender can afford one more timeout, or a request will clear its counter. */
  predicate Alive(s: State) {
    Running(s.snd) && (s.snd.timer.drops < Timer.RTT_MAXNREXMT - 1 || WillAsk(s))
  }

  lemma PromptRemains(ch: seq<Segment>, i: nat)
    requires i < |ch| && HasPrompt(ch) && !Prompts(ch[i])
    ensures HasPrompt(Without(ch, i))
  {
    var j :| 0 <= j < |ch| && Prompts(ch[j]);
    var k := if j < i then j else j - 1;
    assert Without(ch, i)[k] == ch[j];
  }

  // ----- what the client can get without a request

  /** Number k is in the list, about to be stored, or in flight. */
  predicate OnHand(s: State, k: int) {
    || Has(s.cli.list, k)
    || (s.cli.pc.Checked? && s.cli.pc.seg.seqNum == k)
    || Has(s.toCli, k)
  }

  /** Or it is what the next timeout sends. */
  predicate Supplied(s: State, k: int) {
    OnHand(s, k) || (Running(s.snd) && s.snd.window != [] && s.snd.window[0].seqNum == k)
  }

  lemma HasRemains(ch: seq<Segment>, i: nat, k: int)
    requires i < |ch| && Has(ch, k) && ch[i].seqNum != k
    ensures Has(Without(ch, i), k)
  {
    var j :| 0 <= j < |ch| && ch[j].seqNum == k;
    var m := if j < i then j else j - 1;
    assert Without(ch, i)[m] == ch[j];
  }

  lemma HasAppended(a: seq<Segment>, b: seq<Segment>, k: int)
    ensures Has(a + b, k) <==> Has(a, k) || Has(b, k)
  {
    if Has(a, k) {
      var i :| 0 <= i < |a| && a[i].seqNum == k;
      assert (a + b)[i].seqNum == k;
    }
    if Has(b, k) {
      var i :| 0 <= i < |b| && b[i].seqNum == k;
      assert (a + b)[|a| + i].seqNum == k;
    }
  }

  // ----- what a step keeps

  /** Life and supply carry over from s to t, except that a sender brought back to life makes up for supply. */
  ghost predicate Keeps(s: State, t: State) {
    && s.cli.acked <= t.cli.acked
    && (Alive(s) ==> Alive(t))
    && (forall k :: k > t.cli.acked && OnHand(s, k) ==> OnHand(t, k) || Alive(t))
    && (forall k :: k > t.cli.acked && Supplied(s, k) ==> Supplied(t, k) || Alive(t))
  }

  lemma ReceiveAlive(cfg: Config, s: State, l: Label)
    requires Legal(cfg) && Safe(cfg, s) && Enabled(cfg, s, l) && Calm(s, l) && l.Receive? && Alive(s)
    ensures Alive(Next(cfg, s, l))
  {
    var seg := s.toCli[l.i];
    assert SafeSegment(cfg, seg, s.cli.acked, Limit(cfg, s.cli));
    if !Prompts(seg) && HasPrompt(s.toCli) { PromptRemains(s.toCli, l.i); }
  }

  /** Steps of the threads bring the next request closer. */
  lemma ThreadAlive(cfg: Config, s: State, l: Label)
    requires Legal(cfg) && Safe(cfg, s) && Enabled(cfg, s, l) && Calm(s, l) && Alive(s)
    requires !l.Timeout? && !l.Serve? && !l.Receive? && !l.WaitEnd?
    ensures Alive(Next(cfg, s, l))
  {
    if l.Consume? { assert IsData(cfg, s.cli.list[0]); }
  }

  lemma ServeAlive(cfg: Config, s: State, l: Label)
    requires Legal(cfg) && Safe(cfg, s) && Enabled(cfg, s, l) && l.Serve? && s.toSrv[l.i].isComplete <= 0
    ensures Alive(Next(cfg, s, l))
  {
    StepSafe(cfg, s, l);
  }

  lemma ReceiveKeeps(cfg: Config, s: State, l: Label, k: int)
    requires Legal(cfg) && Safe(cfg, s) && Enabled(cfg, s, l) && Calm(s, l) && l.Receive?
    requires k > s.cli.acked && OnHand(s, k)
    ensures OnHand(Next(cfg, s, l), k)
  {
    var seg := s.toCli[l.i];
    assert SafeSegment(cfg, seg, s.cli.acked, Limit(cfg, s.cli));
    if Has(s.toCli, k) && seg.seqNum != k { HasRemains(s.toCli, l.i, k); }
  }

  lemma InsertKeeps(cfg: Config, s: State, k: int)
    requires Legal(cfg) && Safe(cfg, s) && Enabled(cfg, s, Insert) && k > s.cli.acked && OnHand(s, k)
    ensures OnHand(Next(cfg, s, Insert), k)
  {
    var c := s.cli;
    if Has(c.list, k) {
      StoredStays(cfg, c, c.pc.seg, k);
    } else if c.pc.seg.seqNum == k {
      RoomFor(cfg, c, k);
      InsertedSet(c.list, c.pc.seg);
    }
  }

  lemma StoredStays(cfg: Config, c: Client, seg: Segment, k: int)
    requires Has(c.list, k)
    ensures Has(Store(cfg, c, seg).list, k)
  {
    var i :| 0 <= i < |c.list| && c.list[i].seqNum == k;
    var list := SortedInsert(c.list, seg);
    if list != c.list {
      var j := if i < Place(c.list, seg.seqNum) then i else i + 1;
      assert list[j] == c.list[i];
    }
  }

  lemma PopKeeps(cfg: Config, s: State, k: int)
    requires Enabled(cfg, s, Consume) && k > s.cli.acked + 1 && OnHand(s, k)
    ensures OnHand(Next(cfg, s, Consume), k)
  {
    if Has(s.cli.list, k) {
      var i :| 0 <= i < |s.cli.list| && s.cli.list[i].seqNum == k;
      assert s.cli.list[1..][i - 1].seqNum == k;
    }
  }

  lemma OnHandKept(cfg: Config, s: State, l: Label, k: int)
    requires Legal(cfg) && Safe(cfg, s) && Enabled(cfg, s, l) && Calm(s, l) && !l.Serve? && !l.Timeout?
    requires k > Next(cfg, s, l).cli.acked && OnHand(s, k)
    ensures OnHand(Next(cfg, s, l), k)
  {
    AckedGrows(cfg, s, l);
    if l.Receive? {
      ReceiveKeeps(cfg, s, l, k);
    } else if l.Insert? {
      InsertKeeps(cfg, s, k);
    } else if l.Consume? {
      PopKeeps(cfg, s, k);
    } else if l.WaitReply? {
      assert SafeItems(cfg, s.cli.list, s.cli.acked, Limit(cfg, s.cli));
      NothingAfterLast(cfg, s, k);
    }
  }

  /** A finished client has nothing beyond what it printed. */
  lemma NothingAfterLast(cfg: Config, s: State, k: int)
    requires Legal(cfg) && Safe(cfg, s) && s.cli.acked == Last(cfg) && k > s.cli.acked
    ensures !OnHand(s, k)
  {
    forall i | 0 <= i < |s.toCli| ensures s.toCli[i].seqNum <= Last(cfg) {
      assert SafeSegment(cfg, s.toCli[i], s.cli.acked, Limit(cfg, s.cli));
    }
  }

  lemma ClientSender(cfg: Config, s: State, l: Label)
    requires Enabled(cfg, s, l) && !l.Serve? && !l.Timeout?
    ensures Next(cfg, s, l).snd == s.snd
  {
  }

  /** Every calm step but a timeout, the end of TIME_WAIT and the completion keeps life and supply. */
  lemma StepKeeps(cfg: Config, s: State, l: Label)
    requires Legal(cfg) && Safe(cfg, s) && Enabled(cfg, s, l) && Calm(s, l) && !l.Timeout? && !l.WaitEnd?
    requires l.Serve? ==> s.toSrv[l.i].isComplete <= 0
    ensures Keeps(s, Next(cfg, s, l))
  {
    AckedGrows(cfg, s, l);
    var t := Next(cfg, s, l);
    if l.Serve? {
      ServeAlive(cfg, s, l);
    } else {
      ClientSender(cfg, s, l);
      if Alive(s) { ClientAlive(cfg, s, l); }
      forall k | k > t.cli.acked && OnHand(s, k) ensures OnHand(t, k) { OnHandKept(cfg, s, l, k); }
    }
  }

  lemma ClientAlive(cfg: Config, s: State, l: Label)
    requires Legal(cfg) && Safe(cfg, s) && Enabled(cfg, s, l) && Calm(s, l) && Alive(s)
    requires !l.Timeout? && !l.Serve? && !l.WaitEnd?
    ensures Alive(Next(cfg, s, l))
  {
    if l.Receive? { ReceiveAlive(cfg, s, l); } else { ThreadAlive(cfg, s, l); }
  }

  /** A timeout at a blocked client keeps them too: what it sends makes the client ask. */
  lemma TimeoutKeeps(cfg: Config, s: State)
    requires Legal(cfg) && Safe(cfg, s) && Running(s.snd) && Quiet(s) && s.cli.pc.Reading?
    ensures Keeps(s, Next(cfg, s, Timeout))
  {
    var t := Next(cfg, s, Timeout);
    assert t.toCli == [Resend(s.snd)];
    assert Prompts(t.toCli[0]);
    if s.snd.window != [] { assert Has(t.toCli, s.snd.window[0].seqNum); }
  }

  // ----- what never comes back

  /** The sender is not alive, and number k is neither printed nor at hand. */
  predicate Wants(s: State, k: int) { !Alive(s) && s.cli.acked < k && !OnHand(s, k) }

  /** And the next timeout would not send it either. */
  predicate Lacks(s: State, k: int) { Wants(s, k) && !Supplied(s, k) }

  lemma ReceiveWants(cfg: Config, s: State, l: Label, k: int)
    requires Legal(cfg) && Safe(cfg, s) && Enabled(cfg, s, l) && Calm(s, l) && l.Receive? && Wants(s, k) && k <= Last(cfg)
    ensures Wants(Next(cfg, s, l), k)
  {
    var seg, rest := s.toCli[l.i], Without(s.toCli, l.i);
    assert SafeSegment(cfg, seg, s.cli.acked, Limit(cfg, s.cli));
    assert forall j :: 0 <= j < |rest| ==> rest[j] == s.toCli[if j < l.i then j else j + 1];
  }

  lemma InsertWants(cfg: Config, s: State, k: int)
    requires Legal(cfg) && Safe(cfg, s) && Enabled(cfg, s, Insert) && Wants(s, k) && k <= Last(cfg)
    ensures Wants(Next(cfg, s, Insert), k)
  {
    StoreNumbers(cfg, s.cli);
  }

  lemma PopWants(cfg: Config, s: State, k: int)
    requires Legal(cfg) && Safe(cfg, s) && Enabled(cfg, s, Consume) && Wants(s, k) && k <= Last(cfg)
    ensures Wants(Next(cfg, s, Consume), k)
  {
    assert s.cli.list[0].seqNum != k;
    assert !Finished(Pop(s.cli));
  }

  lemma ThreadWants(cfg: Config, s: State, l: Label, k: int)
    requires Legal(cfg) && Safe(cfg, s) && Enabled(cfg, s, l) && Calm(s, l) && Wants(s, k) && k <= Last(cfg)
    requires !l.Timeout? && !l.Receive? && !l.Insert? && !l.Consume?
    ensures !l.Serve? && Wants(Next(cfg, s, l), k)
  {
    assert !Finished(s.cli);
    if l.TestFlags? { assert SafeSegment(cfg, s.cli.pc.seg, s.cli.acked, Limit(cfg, s.cli)); }
  }

  /** Short of a timeout, no step of such a state serves a request, comes alive or gets hold of k. */
  lemma StepWants(cfg: Config, s: State, l: Label, k: int)
    requires Legal(cfg) && Safe(cfg, s) && Enabled(cfg, s, l) && Calm(s, l) && Wants(s, k) && k <= Last(cfg) && !l.Timeout?
    ensures Wants(Next(cfg, s, l), k) && Next(cfg, s, l).snd == s.snd
  {
    if l.Receive? {
      ReceiveWants(cfg, s, l, k);
    } else if l.Insert? {
      InsertWants(cfg, s, k);
    } else if l.Consume? {
      PopWants(cfg, s, k);
    } else {
      ThreadWants(cfg, s, l, k);
      ClientSender(cfg, s, l);
    }
  }

  /** A sender that is not alive gives up at its next timeout. */
  lemma LastTimeout(cfg: Config, s: State)
    requires Legal(cfg) && Safe(cfg, s) && Running(s.snd) && !Alive(s)
    ensures OnTimeout(s.snd).aborted && !Running(OnTimeout(s.snd))
  {
  }

  lemma StepLacks(cfg: Config, s: State, l: Label, k: int)
    requires Legal(cfg) && Safe(cfg, s) && Enabled(cfg, s, l) && Calm(s, l) && Lacks(s, k) && k <= Last(cfg)
    ensures Lacks(Next(cfg, s, l), k)
  {
    if l.Timeout? {
      LastTimeout(cfg, s);
      assert Next(cfg, s, l).toCli == [Resend(s.snd)];
    } else {
      StepWants(cfg, s, l, k);
    }
  }

  /** A number that is neither printed nor to be had, with no request to come, is never printed. */
  lemma NeverPrinted(cfg: Config, s: State, k: int, run: seq<Label>, t: State)
    requires Legal(cfg) && Safe(cfg, s) && Lacks(s, k) && k <= Last(cfg) && CalmRun(cfg, s, run, t)
    ensures t.cli.acked < k
  {
    var inv := (x: State) => Safe(cfg, x) && Lacks(x, k);
    forall x, l | inv(x) && Enabled(cfg, x, l) && Calm(x, l) ensures inv(Next(cfg, x, l)) {
      StepSafe(cfg, x, l);
      StepLacks(cfg, x, l, k);
    }
    CalmAlways(cfg, inv, s, run, t);
  }

  // ----- senders that never learn of the end

  /** The sender has stopped without being told that the transfer is complete. */
  predicate Stopped(s: State) { !Running(s.snd) && !s.snd.done }

  lemma StepStopped(cfg: Config, s: State, l: Label)
    requires Enabled(cfg, s, l) && Stopped(s)
    ensures Stopped(Next(cfg, s, l))
  {
  }

  lemma StoppedNeverDone(cfg: Config, s: State, run: seq<Label>, t: State)
    requires Stopped(s) && CalmRun(cfg, s, run, t)
    ensures !t.snd.done
  {
    var inv := (x: State) => Stopped(x);
    forall x, l | inv(x) && Enabled(cfg, x, l) && Calm(x, l) ensures inv(Next(cfg, x, l)) { StepStopped(cfg, x, l); }
    CalmAlways(cfg, inv, s, run, t);
  }

  /** A sender that is not alive and whose client has not got number k at hand gives up before the end. */
  lemma WantsNeverDone(cfg: Config, s: State, k: int, run: seq<Label>, t: State)
    requires Legal(cfg) && Safe(cfg, s) && Wants(s, k) && k <= Last(cfg) && CalmRun(cfg, s, run, t)
    ensures !t.snd.done
  {
    var inv := (x: State) => Safe(cfg, x) && (Stopped(x) || Wants(x, k));
    forall x, l | inv(x) && Enabled(cfg, x, l) && Calm(x, l) ensures inv(Next(cfg, x, l)) {
      StepSafe(cfg, x, l);
      if Stopped(x) {
        StepStopped(cfg, x, l);
      } else if l.Timeout? {
        LastTimeout(cfg, x);
      } else {
        StepWants(cfg, x, l, k);
      }
    }
    CalmAlways(cfg, inv, s, run, t);
  }

  /** The client is blocked and nothing is coming. */
  predicate Idle(s: State) { s.toCli == [] && (s.cli.pc.Reading? || s.cli.pc.Joining? || s.cli.pc.TimeWait?) }

  /** Neither alive nor anything in flight, and the client blocked or gone. */
  predicate Dying(s: State) {
    !Alive(s) && !s.snd.done && Quiet(s) && (s.cli.pc.Reading? || s.cli.pc.Joining? || s.cli.pc.TimeWait? || s.cli.pc.Closed?)
  }

  lemma StepDying(cfg: Config, s: State, l: Label)
    requires Legal(cfg) && Safe(cfg, s) && Enabled(cfg, s, l) && Calm(s, l) && Dying(s)
    ensures Dying(Next(cfg, s, l)) || Stopped(Next(cfg, s, l))
  {
    if l.Timeout? { LastTimeout(cfg, s); }
  }

  lemma DyingNeverDone(cfg: Config, s: State, run: seq<Label>, t: State)
    requires Legal(cfg) && Safe(cfg, s) && Dying(s) && CalmRun(cfg, s, run, t)
    ensures !t.snd.done
  {
    var inv := (x: State) => Safe(cfg, x) && (Stopped(x) || Dying(x));
    forall x, l | inv(x) && Enabled(cfg, x, l) && Calm(x, l) ensures inv(Next(cfg, x, l)) {
      StepSafe(cfg, x, l);
      if Stopped(x) { StepStopped(cfg, x, l); } else { StepDying(cfg, x, l); }
    }
    CalmAlways(cfg, inv, s, run, t);
  }
}
