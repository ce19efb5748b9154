/**
  The file transfer as one transition system: the sender child, the client's receive
  thread at the grain of its shared reads, the consumer thread, and two channels that
  may lose, duplicate and reorder, except that `fifoRequests` keeps requests in order.
 */
module Transfer {
  import opened Segments
  import opened Windows
  import Congestion
  import Timer

  /**
    fifoRequests: requests arrive in order. atomicCheck: the client's test of a segment's number
    and its insertion under the mutex run without the consumer in between.
   */
  datatype Config = Config(file: seq<byte>, maxSend: int, maxRecv: int, fifoRequests: bool, atomicCheck: bool)

  predicate Legal(cfg: Config) { cfg.file != [] && cfg.maxSend >= 1 && cfg.maxRecv >= 1 }

  function Last(cfg: Config): (n: nat)
    requires Legal(cfg)
    ensures n >= 1
  {
    LastSegment(cfg.file)
  }

  // ----- sender

  /** fault records that the send loop would have read outside the file. */
  datatype Sender = Sender(
    window: seq<Segment>, count: int, lastAcked: int,
    cong: Congestion.Window, timer: Timer.State,
    done: bool, aborted: bool, fault: bool)

  function InitSender(): Sender {
    Sender([], 0, 0, Congestion.Start(), Timer.Start(), false, false, false)
  }

  predicate Running(s: Sender) { !s.done && !s.aborted && !s.fault }

  datatype Burst = Burst(window: seq<Segment>, count: int, lastAcked: int, out: seq<Segment>, fault: bool)

  /** The loop that cuts, stores and sends segments until the quota or the end of the file. */
  function SendLoop(file: seq<byte>, window: seq<Segment>, count: int, lastAcked: int, toSend: int): Burst
    decreases toSend
  {
    var k := lastAcked + 1;
    if toSend <= 0 then Burst(window, count, lastAcked, [], false)
    else if !InFile(file, k) then Burst(window, count, k, [], true)
    else
      var seg := DataSegment(file, k);
      var added := AddIfAbsent(window, seg);
      var count' := count + |added| - |window|;
      if seg.isEof > 0 then Burst(added, count', k, [seg], false)
      else
        var rest := SendLoop(file, added, count', k, toSend - 1);
        rest.(out := [seg] + rest.out)
  }

  /** How many segments a request lets the sender send. */
  function Quota(cfg: Config, rwnd: int, cwnd: int, count: int): int {
    Min(Min(rwnd, cwnd), cfg.maxSend - count)
  }

  /** Prune what the request acknowledges, then send what it allows. */
  function Answer(cfg: Config, window: seq<Segment>, count: int, cwnd: int, req: Segment): Burst {
    var kept := DropAcked(window, req.ackNum - 1);
    var count' := count - (|window| - |kept|);
    SendLoop(cfg.file, kept, count', req.ackNum - 1, Quota(cfg, req.rwnd, cwnd, count'))
  }

  /** Handling one request: the new sender state and the segments sent. */
  function OnRequest(cfg: Config, s: Sender, req: Segment, sample: int): (Sender, seq<Segment>) {
    if req.isComplete > 0 then
      (s.(timer := Timer.Replied(s.timer), cong := Congestion.GetCwnd(s.cong, req.ackNum), done := true), [])
    else
      var timer := Timer.OnAck(s.timer, sample);
      var cong := Congestion.OnAck(s.cong, req.ackNum);
      var b := Answer(cfg, s.window, s.count, cong.cwnd, req);
      (Sender(b.window, b.count, b.lastAcked, cong, timer, s.done, s.aborted, b.fault), b.out)
  }

  /** What a timeout sends: the window's first segment, or the blank one when it is empty. */
  function Resend(s: Sender): Segment {
    (if s.window != [] then s.window[0] else Blank().(seqNum := s.lastAcked)).(isResent := 1)
  }

  function OnTimeout(s: Sender): Sender {
    var timer := Timer.OnTimeout(s.timer);
    s.(timer := timer, cong := Congestion.OnTimeout(s.cong), aborted := Timer.GivesUp(timer))
  }

  // ----- client

  /** Where the receive thread is; `left` and `probe` steer its inner loop. */
  datatype Pc =
    | Top                                             // before the ACK number is read
    | HaveAck(ack: int)
    | HaveRwnd(ack: int, rwnd: int)
    | LoopHead(left: int, probe: bool)
    | Reading(left: int, probe: bool)                 // blocked in read
    | Checked(seg: Segment, left: int, probe: bool)   // number is new, mutex not yet taken
    | Finishing(seg: Segment, left: int, probe: bool) // before the flag tests
    | Joining
    | TimeWait
    | Closed

  /** popping: the consumer, inside its lock, has advanced acked but not yet lowered count. */
  datatype Client = Client(
    list: seq<Segment>, count: int, acked: int, last: int,
    printed: seq<Segment>, popping: bool, consumerDone: bool, pc: Pc)

  function InitClient(): Client { Client([], 0, 0, -1, [], false, false, Top) }

  function Request(ack: int, rwnd: int): Segment { Blank().(ackNum := ack, rwnd := rwnd) }

  function Completion(last: int, rwnd: int): Segment { Blank().(ackNum := last, rwnd := rwnd, isComplete := 1) }

  /** Whether the consumer has printed the last segment, as far as the client knows. */
  predicate Finished(c: Client) { c.last == c.acked }

  /** The request built from an ACK number and a window read earlier. */
  function BuildRequest(c: Client, ack: int, rwnd: int): Segment {
    if Finished(c) then Completion(c.last, rwnd) else Request(ack, rwnd)
  }

  function LoopTest(c: Client, left: int, probe: bool): Pc {
    if (left > 0 || (left == 0 && probe)) && !Finished(c) then Reading(left, probe) else Top
  }

  /** First look at a segment that survived the simulated drop. */
  function Inspect(c: Client, seg: Segment, left: int, probe: bool): Pc {
    if seg.seqNum == -1 && seg.ackNum == -1 then Closed
    else if seg.isProbe > 0 then Top
    else if seg.seqNum > c.acked then Checked(seg, left, probe)
    else Finishing(seg, left, probe)
  }

  /** The insert under the mutex, skipped when the list is full. */
  function Store(cfg: Config, c: Client, seg: Segment): Client {
    if c.count < cfg.maxRecv then
      var list := SortedInsert(c.list, seg);
      c.(list := list, count := c.count + |list| - |c.list|)
    else c
  }

  /** The flag tests that decide whether the inner loop goes on. */
  function Finish(c: Client, seg: Segment, left: int, probe: bool): Client {
    if seg.isEof > 0 then c.(last := seg.seqNum, pc := Top)
    else if seg.isResent > 0 || seg.isLastInIter > 0 then c.(pc := Top)
    else c.(pc := LoopHead(left - 1, probe))
  }

  predicate CanPop(c: Client) { c.list != [] && c.list[0].seqNum == c.acked + 1 }

  /** Unlink, print and acknowledge the head; the counter still includes it. */
  function Pop(c: Client): Client
    requires c.list != []
  {
    c.(list := c.list[1..], acked := c.list[0].seqNum, printed := c.printed + [c.list[0]], popping := true)
  }

  function CountDown(c: Client): Client { c.(count := c.count - 1, popping := false) }

  // ----- the system

  datatype State = State(snd: Sender, cli: Client, toSrv: seq<Segment>, toCli: seq<Segment>)

  function Init(): State { State(InitSender(), InitClient(), [], []) }

  datatype Label =
    | Timeout
    | Serve(i: nat, sample: nat)
    | ReadAck
    | ReadRwnd
    | SendRequest(lost: bool)
    | TestLoop
    | Receive(i: nat, dropped: bool)
    | Insert
    | TestFlags
    | Consume
    | Lower
    | ConsumerExit
    | Join
    | WaitReply(i: nat, lost: bool)
    | WaitEnd
    | LoseRequest(i: nat)
    | CopyRequest(i: nat)
    | LoseSegment(i: nat)
    | CopySegment(i: nat)

  function Without(channel: seq<Segment>, i: nat): seq<Segment>
    requires i < |channel|
  {
    channel[..i] + channel[i + 1..]
  }

  function Doubled(channel: seq<Segment>, i: nat): seq<Segment>
    requires i < |channel|
  {
    channel[..i + 1] + channel[i..]
  }

  predicate Enabled(cfg: Config, s: State, l: Label) {
    match l
    case Timeout => Running(s.snd)
    case Serve(i, _) => Running(s.snd) && i < |s.toSrv| && (cfg.fifoRequests ==> i == 0)
    case ReadAck => s.cli.pc.Top?
    case ReadRwnd => s.cli.pc.HaveAck?
    case SendRequest(_) => s.cli.pc.HaveRwnd?
    case TestLoop => s.cli.pc.LoopHead?
    case Receive(i, _) => s.cli.pc.Reading? && i < |s.toCli|
    case Insert => s.cli.pc.Checked? && !s.cli.popping
    case TestFlags => s.cli.pc.Finishing?
    case Consume => !s.cli.consumerDone && !s.cli.popping && CanPop(s.cli) && !(cfg.atomicCheck && s.cli.pc.Checked?)
    case Lower => s.cli.popping
    case ConsumerExit => !s.cli.consumerDone && !s.cli.popping && Finished(s.cli)
    case Join => s.cli.pc.Joining? && s.cli.consumerDone
    case WaitReply(i, _) => s.cli.pc.TimeWait? && i < |s.toCli|
    case WaitEnd => s.cli.pc.TimeWait?
    case LoseRequest(i) => i < |s.toSrv|
    case CopyRequest(i) => i < |s.toSrv|
    case LoseSegment(i) => i < |s.toCli|
    case CopySegment(i) => i < |s.toCli|
  }

  function Post(channel: seq<Segment>, m: Segment, lost: bool): seq<Segment> {
    if lost then channel else channel + [m]
  }

  function ClientNext(cfg: Config, s: State, l: Label): State
    requires Enabled(cfg, s, l)
    requires l.ReadAck? || l.ReadRwnd? || l.SendRequest? || l.TestLoop? || l.Receive? || l.Insert? || l.TestFlags?
  {
    var c := s.cli;
    match l
    case ReadAck => s.(cli := c.(pc := HaveAck(c.acked + 1)))
    case ReadRwnd => s.(cli := c.(pc := HaveRwnd(c.pc.ack, cfg.maxRecv - c.count)))
    case SendRequest(lost) =>
      s.(toSrv := Post(s.toSrv, BuildRequest(c, c.pc.ack, c.pc.rwnd), lost),
         cli := c.(pc := if Finished(c) then Joining else LoopHead(c.pc.rwnd, c.pc.rwnd == 0)))
    case TestLoop => s.(cli := c.(pc := LoopTest(c, c.pc.left, c.pc.probe)))
    case Receive(i, dropped) =>
      s.(toCli := Without(s.toCli, i),
         cli := c.(pc := if dropped then LoopHead(c.pc.left - 1, c.pc.probe)
                         else Inspect(c, s.toCli[i], c.pc.left, c.pc.probe)))
    case Insert => s.(cli := Store(cfg, c, c.pc.seg).(pc := Finishing(c.pc.seg, c.pc.left, c.pc.probe)))
    case TestFlags => s.(cli := Finish(c, c.pc.seg, c.pc.left, c.pc.probe))
  }

  function Next(cfg: Config, s: State, l: Label): State
    requires Enabled(cfg, s, l)
  {
    match l
    case Timeout => s.(snd := OnTimeout(s.snd), toCli := s.toCli + [Resend(s.snd)])
    case Serve(i, sample) =>
      var (snd, out) := OnRequest(cfg, s.snd, s.toSrv[i], sample);
      s.(snd := snd, toSrv := Without(s.toSrv, i), toCli := s.toCli + out)
    case Consume => s.(cli := Pop(s.cli))
    case Lower => s.(cli := CountDown(s.cli))
    case ConsumerExit => s.(cli := s.cli.(consumerDone := true))
    case Join => s.(cli := s.cli.(pc := TimeWait))
    case WaitReply(i, lost) =>
      s.(toCli := Without(s.toCli, i),
         toSrv := Post(s.toSrv, BuildRequest(s.cli, s.cli.acked + 1, cfg.maxRecv - s.cli.count), lost))
    case WaitEnd => s.(cli := s.cli.(pc := Closed))
    case LoseRequest(i) => s.(toSrv := Without(s.toSrv, i))
    case CopyRequest(i) => s.(toSrv := Doubled(s.toSrv, i))
    case LoseSegment(i) => s.(toCli := Without(s.toCli, i))
    case CopySegment(i) => s.(toCli := Doubled(s.toCli, i))
    case _ => ClientNext(cfg, s, l)
  }

  /** The run takes the system from s to t. */
  ghost predicate Runs(cfg: Config, s: State, run: seq<Label>, t: State)
    decreases |run|
  {
    if run == [] then s == t
    else Enabled(cfg, s, run[0]) && Runs(cfg, Next(cfg, s, run[0]), run[1..], t)
  }

  ghost predicate Reachable(cfg: Config, t: State) {
    exists run :: Runs(cfg, Init(), run, t)
  }

  lemma ReachStep(cfg: Config, s: State, l: Label) returns (t: State)
    requires Reachable(cfg, s) && Enabled(cfg, s, l)
    ensures t == Next(cfg, s, l) && Reachable(cfg, t)
  {
    t := Next(cfg, s, l);
    var run :| Runs(cfg, Init(), run, s);
    RunsSnoc(cfg, Init(), run, s, l);
  }

  lemma {:induction false} RunsSnoc(cfg: Config, s: State, run: seq<Label>, t: State, l: Label)
    requires Runs(cfg, s, run, t) && Enabled(cfg, t, l)
    ensures Runs(cfg, s, run + [l], Next(cfg, t, l))
    decreases |run|
  {
    if run == [] {
      assert (run + [l])[1..] == [];
    } else {
      RunsSnoc(cfg, Next(cfg, s, run[0]), run[1..], t, l);
      assert (run + [l])[1..] == run[1..] + [l];
    }
  }
}
