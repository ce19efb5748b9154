/**
  The sender child's main loop as a program: linked window, congestion variables and
  timer updated in place, with each branch of the loop proved to compute the sender's
  step in the transition system.
 */
module SenderProgram {
  import opened Segments
  import opened Windows
  import opened Transfer
  import Congestion
  import Timer

  /** A burst that continues after some segments were already sent. */
  ghost function After(out: seq<Segment>, b: Burst): Burst { b.(out := out + b.out) }

  lemma Shift(a: seq<Segment>, x: Segment, b: seq<Segment>)
    ensures a + ([x] + b) == (a + [x]) + b && a + [] == a
  {
  }

  /** One turn of the send loop, sending number k and leaving window' and count'. */
  lemma Turn(file: seq<byte>, window: seq<Segment>, count: int, k: int, toSend: int, out: seq<Segment>,
             window': seq<Segment>, count': int)
    requires toSend > 0
    requires window' == if InFile(file, k) then AddIfAbsent(window, DataSegment(file, k)) else window
    requires count' == count + |window'| - |window|
    ensures After(out, SendLoop(file, window, count, k - 1, toSend)) ==
      if !InFile(file, k) then Burst(window', count', k, out, true)
      else if DataSegment(file, k).isEof > 0 then Burst(window', count', k, out + [DataSegment(file, k)], false)
      else After(out + [DataSegment(file, k)], SendLoop(file, window', count', k, toSend - 1))
  {
    if InFile(file, k) {
      Shift(out, DataSegment(file, k), SendLoop(file, window', count', k, toSend - 1).out);
    } else {
      Shift(out, Blank(), []);
    }
  }

  /** Cut and store segment k. */
  method StoreNext(file: seq<byte>, window: SlidingWindow, k: int) returns (seg: Segment)
    requires window.Valid() && InFile(file, k)
    modifies window, window.repr
    ensures window.Valid() && fresh(window.repr - old(window.repr)) && window.base.seg == old(window.base.seg)
    ensures seg == DataSegment(file, k) && window.contents == AddIfAbsent(old(window.contents), seg)
    ensures window.count == old(window.count) + |window.contents| - |old(window.contents)|
  {
    var payload, isEof := FillPayload(file, k);
    seg := Blank().(seqNum := k, isEof := isEof, payload := payload);
    window.Append(seg);
  }

  /** The burst still to come, or the burst as it stands once the loop has stopped. */
  ghost function Pending(file: seq<byte>, window: seq<Segment>, count: int, lastAcked: int, toSend: int,
                         out: seq<Segment>, fault: bool, stop: bool): Burst
  {
    if stop then Burst(window, count, lastAcked, out, fault)
    else After(out, SendLoop(file, window, count, lastAcked, toSend))
  }

  /** The body of the send loop. */
  method SendOne(file: seq<byte>, window: SlidingWindow, acked: int, ghost toSend: int, sent: seq<Segment>)
    returns (lastAcked: int, out: seq<Segment>, fault: bool, stop: bool)
    requires window.Valid() && toSend > 0
    modifies window, window.repr
    ensures window.Valid() && fresh(window.repr - old(window.repr)) && window.base.seg == old(window.base.seg)
    ensures Pending(file, window.contents, window.count, lastAcked, toSend - 1, out, fault, stop)
      == After(sent, SendLoop(file, old(window.contents), old(window.count), acked, toSend))
    ensures fault ==> stop
  {
    lastAcked := acked + 1;
    if InFile(file, lastAcked) {
      var seg := StoreNext(file, window, lastAcked);
      Turn(file, old(window.contents), old(window.count), lastAcked, toSend, sent, window.contents, window.count);
      out, fault, stop := sent + [seg], false, seg.isEof > 0;
    } else {
      Turn(file, window.contents, window.count, lastAcked, toSend, sent, window.contents, window.count);
      out, fault, stop := sent, true, true;
    }
  }

  /** The send loop; its quota is at most the free window space, so the source's space test never decides. */
  method SendBurst(file: seq<byte>, window: SlidingWindow, acked: int, quota: int)
    returns (lastAcked: int, out: seq<Segment>, fault: bool)
    requires window.Valid()
    modifies window, window.repr
    ensures window.Valid() && fresh(window.repr - old(window.repr)) && window.base.seg == old(window.base.seg)
    ensures Burst(window.contents, window.count, lastAcked, out, fault)
      == SendLoop(file, old(window.contents), old(window.count), acked, quota)
  {
    ghost var b := SendLoop(file, window.contents, window.count, acked, quota);
    lastAcked, out, fault := acked, [], false;
    var segToSend, stop := quota, false;
    while segToSend > 0 && !stop
      invariant window.Valid() && fresh(window.repr - old(window.repr)) && window.base.seg == old(window.base.seg)
      invariant b == Pending(file, window.contents, window.count, lastAcked, segToSend, out, fault, stop)
      invariant fault ==> stop
    {
      lastAcked, out, fault, stop := SendOne(file, window, lastAcked, segToSend, out);
      segToSend := segToSend - 1;
    }
  }

  /** Prune what the request acknowledges and send what it allows. */
  method AnswerRequest(cfg: Config, window: SlidingWindow, cwnd: int, req: Segment)
    returns (lastAcked: int, out: seq<Segment>, fault: bool)
    requires window.Valid()
    modifies window, window.repr
    ensures window.Valid() && fresh(window.repr - old(window.repr)) && window.base.seg == old(window.base.seg)
    ensures Burst(window.contents, window.count, lastAcked, out, fault)
      == Answer(cfg, old(window.contents), old(window.count), cwnd, req)
  {
    lastAcked := req.ackNum - 1;
    window.Prune(lastAcked);
    var windowSpace := cfg.maxSend - window.count;
    var segToSend := if req.rwnd < cwnd then req.rwnd else cwnd;
    segToSend := if segToSend < windowSpace then segToSend else windowSpace;
    assert window.count == old(window.count) - (|old(window.contents)| - |window.contents|);
    assert segToSend == Quota(cfg, req.rwnd, cwnd, window.count);
    lastAcked, out, fault := SendBurst(cfg.file, window, lastAcked, segToSend);
  }

  /** The variables of the child process. */
  class SenderChild {
    const cfg: Config
    const window: SlidingWindow
    const cong: Congestion.Controller
    const clock: Timer.Clock
    var lastAcked: int
    var sentComplete: bool
    var aborted: bool
    var fault: bool
    var sent: seq<Segment>   // every datagram handed to the socket

    ghost predicate Valid()
      reads this, window, window.repr
    {
      && window.Valid() && window.base.seg == Blank()
      && this !in window.repr && cong !in window.repr && clock !in window.repr
    }

    /** The sender's state while it is parked in `select`. */
    ghost function Value(): Sender
      reads this, window, cong, clock
    {
      Sender(window.contents, window.count, lastAcked, cong.Value(), clock.Value(), sentComplete, aborted, fault)
    }

    constructor (cfg: Config)
      ensures Valid() && Value() == InitSender() && sent == [] && this.cfg == cfg
      ensures fresh(window) && fresh(window.repr) && fresh(cong) && fresh(clock)
    {
      this.cfg := cfg;
      window := new SlidingWindow();
      cong := new Congestion.Controller();
      clock := new Timer.Clock();
      lastAcked, sentComplete, aborted, fault, sent := 0, false, false, false, [];
      new;
      var _ := clock.LoopTop();
    }

    /** The timer went off: back off, shrink the congestion window, resend the first segment. */
    method TimerExpired()
      requires Valid() && Running(Value())
      modifies this`sent, this`aborted, cong, clock
      ensures Valid() && Value() == OnTimeout(old(Value())) && sent == old(sent) + [Resend(old(Value()))]
    {
      clock.Expired();
      cong.Reset();
      var seg := window.base.seg;
      if window.base.next != null {
        assert window.base.next == window.spine[1];
        seg := window.base.next.seg;
      } else {
        seg := seg.(seqNum := lastAcked);
      }
      seg := seg.(isResent := 1);
      sent := sent + [seg];
      if clock.drops == Timer.RTT_MAXNREXMT {
        aborted := true;
      } else {
        var _ := clock.LoopTop();
      }
    }

    /** A request that ends the transfer. */
    method Completed(req: Segment, sample: int)
      requires Valid() && Running(Value()) && req.isComplete > 0
      modifies this`sentComplete, cong, clock
      ensures Valid() && (Value(), sent) == (OnRequest(cfg, old(Value()), req, sample).0, old(sent))
    {
      clock.TakeSample(sample);
      cong.Adjust(req.ackNum);
      sentComplete := true;
    }

    /** Measure the reply and adjust the congestion window. */
    method NoteReply(req: Segment, sample: int)
      modifies cong, clock
      ensures clock.Value() == Timer.Replied(old(clock.Value())) && clock.measuredRtt == sample
      ensures cong.Value() == Congestion.OnAck(old(cong.Value()), req.ackNum)
    {
      clock.TakeSample(sample);
      cong.Adjust(req.ackNum);
      cong.prevAck := req.ackNum;
    }

    /** Prune and send, with this congestion window. */
    method Refill(req: Segment, cwnd: int) returns (out: seq<Segment>)
      requires Valid()
      modifies this`lastAcked, this`sent, this`fault, window, window.repr
      ensures Valid()
      ensures Burst(window.contents, window.count, lastAcked, out, fault)
        == Answer(cfg, old(window.contents), old(window.count), cwnd, req)
      ensures sent == old(sent) + out
    {
      var last, bad;
      last, out, bad := AnswerRequest(cfg, window, cwnd, req);
      ghost var held, size := window.contents, window.count;
      lastAcked, fault, sent := last, bad, sent + out;
      assert window.contents == held && window.count == size;
    }

    /** A request that asks for more. */
    method Continue(req: Segment, sample: int)
      requires Valid() && Running(Value()) && req.isComplete <= 0
      modifies this`lastAcked, this`sent, this`fault, cong, clock, window, window.repr
      ensures Valid()
      ensures Value() == OnRequest(cfg, old(Value()), req, sample).0
      ensures sent == old(sent) + OnRequest(cfg, old(Value()), req, sample).1
    {
      ghost var was := Value();
      NoteReply(req, sample);
      ghost var tuned := cong.Value();
      var out := Refill(req, cong.cwnd);
      var _ := clock.LoopTop();
      assert clock.Value() == Timer.OnAck(was.timer, sample);
      assert cong.Value() == tuned == Congestion.OnAck(was.cong, req.ackNum);
    }
  }
}
