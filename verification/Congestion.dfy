/**
  The sender's congestion control: `get_cwnd` on every request, the reset on every
  timeout, and what holds over any run of the two.
 */
module Congestion {
  import opened Arithmetic

  const SLOW_START := 1
  const AVOIDANCE := 2
  const FAST_RETRANSMIT := 3

  datatype Window = Window(state: int, cwnd: int, ssthresh: int, prevAck: int, dups: int)

  function Start(): Window { Window(SLOW_START, 1, 8, 0, 0) }

  /** Half the window, but never 0. */
  function Half(cwnd: int): int { if cwnd / 2 == 0 then 1 else cwnd / 2 }

  /** A third duplicate halves the window and enters state 3. */
  function ThirdDup(w: Window): Window {
    if w.dups != 3 then w
    else w.(state := FAST_RETRANSMIT, ssthresh := Half(w.cwnd), cwnd := Half(w.cwnd))
  }

  /** `get_cwnd` for an arriving ACK number; prevAck is left alone. */
  function GetCwnd(w: Window, ack: int): Window {
    var dup := w.prevAck == ack;
    if w.state == SLOW_START then
      ThirdDup(if dup then w.(dups := w.dups + 1)
               else if w.cwnd * 2 >= w.ssthresh then w.(state := AVOIDANCE, cwnd := w.ssthresh, dups := 0)
               else w.(cwnd := w.cwnd * 2, dups := 0))
    else if w.state == AVOIDANCE then
      ThirdDup(if dup then w.(dups := w.dups + 1) else w.(cwnd := w.cwnd + 1, dups := 0))
    else if w.state == FAST_RETRANSMIT then
      if dup then w.(cwnd := w.cwnd + 1) else w.(state := AVOIDANCE, cwnd := w.ssthresh, dups := 0)
    else w
  }

  /** Processing one request that does not end the transfer. */
  function OnAck(w: Window, ack: int): Window {
    GetCwnd(w, ack).(prevAck := ack)
  }

  function OnTimeout(w: Window): Window {
    w.(state := SLOW_START, ssthresh := if w.cwnd / 2 <= 0 then 1 else w.cwnd / 2, cwnd := 1, dups := 0)
  }

  /** The six variables `get_cwnd` reaches through pointers, updated in place. */
  class Controller {
    var state: int
    var cwnd: int
    var ssthresh: int
    var prevAck: int
    var dups: int

    ghost function Value(): Window reads this { Window(state, cwnd, ssthresh, prevAck, dups) }

    constructor ()
      ensures Value() == Start()
    {
      state, cwnd, ssthresh, prevAck, dups := SLOW_START, 1, 8, 0, 0;
    }

    method EnterFastRetransmit()
      modifies this
      ensures Value() == old(Value()).(state := FAST_RETRANSMIT, ssthresh := Half(old(cwnd)), cwnd := Half(old(cwnd)))
    {
      state := FAST_RETRANSMIT;
      ssthresh := cwnd / 2;
      if ssthresh == 0 { ssthresh := ssthresh + 1; }
      cwnd := ssthresh;  // never 0 here, so the source's second zero test cannot fire
    }

    method Adjust(arriveAck: int)
      modifies this
      ensures Value() == GetCwnd(old(Value()), arriveAck)
    {
      if state == SLOW_START {
        if prevAck == arriveAck {
          dups := dups + 1;
        } else {
          cwnd := cwnd * 2;
          dups := 0;
          if cwnd >= ssthresh {
            cwnd := ssthresh;
            state := AVOIDANCE;
          }
        }
        if dups == 3 { EnterFastRetransmit(); }
      } else if state == AVOIDANCE {
        if prevAck == arriveAck {
          dups := dups + 1;
        } else {
          cwnd := cwnd + 1;
          dups := 0;
        }
        if dups == 3 { EnterFastRetransmit(); }
      } else if state == FAST_RETRANSMIT {
        if prevAck == arriveAck {
          cwnd := cwnd + 1;
        } else {
          state := AVOIDANCE;
          cwnd := ssthresh;
          dups := 0;
        }
      }
    }

    method Reset()
      modifies this
      ensures Value() == OnTimeout(old(Value()))
    {
      ssthresh := cwnd / 2;
      if ssthresh <= 0 { ssthresh := 1; }
      cwnd := 1;
      dups := 0;
      state := SLOW_START;
    }
  }

  // ----- runs

  datatype Event = Ack(ack: int) | Timeout

  function After(w: Window, e: Event): Window {
    match e
    case Ack(a) => OnAck(w, a)
    case Timeout => OnTimeout(w)
  }

  function RunFrom(w: Window, events: seq<Event>): Window {
    if events == [] then w else After(RunFrom(w, events[..|events| - 1]), events[|events| - 1])
  }

  /** How many ACKs the run processed in states 2 and 3. */
  function AcksOutsideSlowStart(w: Window, events: seq<Event>): nat {
    if events == [] then 0
    else
      var before := events[..|events| - 1];
      AcksOutsideSlowStart(w, before)
      + if events[|events| - 1].Ack? && RunFrom(w, before).state != SLOW_START then 1 else 0
  }

  predicate Sound(w: Window) {
    && w.cwnd >= 1 && w.ssthresh >= 1
    && (w.state == SLOW_START || w.state == AVOIDANCE || w.state == FAST_RETRANSMIT)
    && (w.state == SLOW_START ==> w.cwnd <= w.ssthresh)
    && (w.state != SLOW_START ==> w.cwnd >= w.ssthresh)
    && 0 <= w.dups <= 3
    && (w.state == FAST_RETRANSMIT <==> w.dups == 3)
  }

  function Max(a: int, b: int): int { if a < b then b else a }

  lemma SoundAfter(w: Window, e: Event)
    requires Sound(w)
    ensures Sound(After(w, e))
    ensures Max(After(w, e).cwnd, After(w, e).ssthresh)
      <= Max(w.cwnd, w.ssthresh) + if e.Ack? && w.state != SLOW_START then 1 else 0
  {
  }

  /** The machine's invariant over every run of ACKs and timeouts. */
  lemma {:induction false} SoundInEveryRun(events: seq<Event>)
    ensures var w := RunFrom(Start(), events);
      && Sound(w)
      && Max(w.cwnd, w.ssthresh) <= 8 + AcksOutsideSlowStart(Start(), events)
  {
    if events != [] {
      var before := events[..|events| - 1];
      SoundInEveryRun(before);
      SoundAfter(RunFrom(Start(), before), events[|events| - 1]);
    }
  }

  // ----- slow start in closed form

  /** Every ACK of the run differs from the one before it. */
  predicate AllNew(prev: int, acks: seq<int>) {
    acks == [] || (acks[|acks| - 1] != (if |acks| == 1 then prev else acks[|acks| - 2])
                   && AllNew(prev, acks[..|acks| - 1]))
  }

  function AckRun(w: Window, acks: seq<int>): Window {
    if acks == [] then w else OnAck(AckRun(w, acks[..|acks| - 1]), acks[|acks| - 1])
  }

  lemma {:induction false} LastAckIsPrev(w: Window, acks: seq<int>)
    requires acks != []
    ensures AckRun(w, acks).prevAck == acks[|acks| - 1]
  {
  }

  /** j is the number of new ACKs that slow start takes to reach the threshold. */
  ghost predicate ReachesThreshold(c: int, t: int, j: nat) {
    1 <= j && c * Pow2(j) >= t && forall i: nat :: 1 <= i < j ==> c * Pow2(i) < t
  }

  lemma Doubled(c: int, k: nat)
    requires k > 0
    ensures (c * Pow2(k - 1)) * 2 == c * Pow2(k)
    ensures c >= 1 ==> c * Pow2(k - 1) >= 1
  {
    assert (c * Pow2(k - 1)) * 2 == c * (2 * Pow2(k - 1));
  }

  /** From slow start, k new ACKs double the window until the threshold and then add one each. */
  lemma {:induction false} SlowStartClosedForm(w: Window, acks: seq<int>, j: nat)
    requires Sound(w) && w.state == SLOW_START && AllNew(w.prevAck, acks)
    requires ReachesThreshold(w.cwnd, w.ssthresh, j)
    ensures var k := |acks|; var r := AckRun(w, acks);
      if k < j then
        r.state == SLOW_START && r.cwnd == w.cwnd * Pow2(k) && r.ssthresh == w.ssthresh
      else
        r.state == AVOIDANCE && r.cwnd == w.ssthresh + (k - j) && r.ssthresh == w.ssthresh
    ensures acks != [] ==> AckRun(w, acks).dups == 0
  {
    var k := |acks|;
    if k > 0 {
      var before := acks[..k - 1];
      SlowStartClosedForm(w, before, j);
      if k > 1 { LastAckIsPrev(w, before); }
      var b := AckRun(w, before);
      assert b.prevAck != acks[k - 1];
      Doubled(w.cwnd, k);
    }
  }

  /** Such a j always exists, so the closed form covers every slow start. */
  lemma ThresholdIsReached(c: int, t: int) returns (j: nat)
    requires c >= 1
    ensures ReachesThreshold(c, t, j)
  {
    j := 1;
    while c * Pow2(j) < t
      invariant 1 <= j
      invariant forall i: nat :: 1 <= i < j ==> c * Pow2(i) < t
      decreases t - c * Pow2(j)
    {
      assert c * Pow2(j + 1) == c * Pow2(j) + c * Pow2(j) by {
        assert c * (2 * Pow2(j)) == c * Pow2(j) + c * Pow2(j);
      }
      assert c * Pow2(j) >= 1;
      j := j + 1;
    }
  }

  /** The first requests of a transfer: windows of 2, 4 and 8 segments, and then one more per ACK. */
  lemma FirstWindows(acks: seq<int>)
    requires acks != [] && AllNew(0, acks)
    ensures var k := |acks|; AckRun(Start(), acks).cwnd == if k == 1 then 2 else if k == 2 then 4 else 5 + k
  {
    assert Pow2(1) == 2 * Pow2(0) && Pow2(2) == 2 * Pow2(1) && Pow2(3) == 2 * Pow2(2);
    assert ReachesThreshold(1, 8, 3);
    SlowStartClosedForm(Start(), acks, 3);
  }

  // ----- duplicates short of the third

  /** How often the ACK number changes. */
  function Changes(prev: int, acks: seq<int>): nat {
    if acks == [] then 0
    else
      var before := acks[..|acks| - 1];
      Changes(prev, before) + if acks[|acks| - 1] == LastOf(prev, before) then 0 else 1
  }

  function LastOf(prev: int, acks: seq<int>): int { if acks == [] then prev else acks[|acks| - 1] }

  /** Duplicates at the end of the run, after d of prev itself. */
  function TrailingDups(prev: int, d: int, acks: seq<int>): int {
    if acks == [] then d
    else
      var before := acks[..|acks| - 1];
      if acks[|acks| - 1] == LastOf(prev, before) then TrailingDups(prev, d, before) + 1 else 0
  }

  /** No prefix of the run ends in a third duplicate. */
  predicate NoThirdDup(prev: int, d: int, acks: seq<int>) {
    TrailingDups(prev, d, acks) < 3 && (acks != [] ==> NoThirdDup(prev, d, acks[..|acks| - 1]))
  }

  /** In avoidance, first and second duplicates change nothing and every new ACK adds one. */
  lemma {:induction false} AvoidanceClosedForm(w: Window, acks: seq<int>)
    requires Sound(w) && w.state == AVOIDANCE && NoThirdDup(w.prevAck, w.dups, acks)
    ensures AckRun(w, acks) == Window(AVOIDANCE, w.cwnd + Changes(w.prevAck, acks), w.ssthresh,
                                      LastOf(w.prevAck, acks), TrailingDups(w.prevAck, w.dups, acks))
    decreases |acks|
  {
    if acks != [] { AvoidanceClosedForm(w, acks[..|acks| - 1]); }
  }

  /** In slow start the same, with doubling: below the threshold only the number of changes counts. */
  lemma {:induction false} SlowStartKeepsDoubling(w: Window, acks: seq<int>)
    requires Sound(w) && w.state == SLOW_START && NoThirdDup(w.prevAck, w.dups, acks)
    requires Changes(w.prevAck, acks) == 0 || w.cwnd * Pow2(Changes(w.prevAck, acks)) < w.ssthresh
    ensures AckRun(w, acks) == Window(SLOW_START, w.cwnd * Pow2(Changes(w.prevAck, acks)), w.ssthresh,
                                      LastOf(w.prevAck, acks), TrailingDups(w.prevAck, w.dups, acks))
    decreases |acks|
  {
    if acks != [] {
      var before := acks[..|acks| - 1];
      var n := Changes(w.prevAck, before);
      Doubled(w.cwnd, n + 1);
      SlowStartKeepsDoubling(w, before);
    }
  }

  // ----- losses in closed form

  /** n more ACKs with the number of the last one. */
  function DupRun(w: Window, n: nat): Window {
    if n == 0 then w else OnAck(DupRun(w, n - 1), w.prevAck)
  }

  /** h is half of c, rounded down, but at least 1. */
  predicate Halved(c: int, h: int) { 1 <= h && 2 * h <= Max(c, 2) && c <= 2 * h + 1 }

  /** Short of the third, duplicates are only counted. */
  lemma {:induction false} CountingDups(w: Window, n: nat)
    requires Sound(w) && w.state != FAST_RETRANSMIT && w.dups + n < 3
    ensures DupRun(w, n) == w.(dups := w.dups + n)
  {
    if n > 0 { CountingDups(w, n - 1); }
  }

  /** The third duplicate halves the window, each further one adds a segment. */
  lemma {:induction false} ThirdDupClosedForm(w: Window, k: nat)
    requires Sound(w) && w.state != FAST_RETRANSMIT
    ensures var r := DupRun(w, 3 - w.dups + k);
      && r.state == FAST_RETRANSMIT && r.dups == 3 && r.prevAck == w.prevAck
      && Halved(w.cwnd, r.ssthresh) && r.cwnd == r.ssthresh + k
    decreases k
  {
    if k > 0 { ThirdDupClosedForm(w, k - 1); } else { CountingDups(w, 2 - w.dups); }
  }

  /**
    A loss in closed form. From states 1 and 2: the third duplicate and k more leave half the
    window plus k, and the next new ACK goes on in state 2 from that half. From every state, a
    timeout leaves half the window as the threshold and restarts slow start from 1.
   */
  lemma LossClosedForm(w: Window, k: nat, a: int)
    requires Sound(w)
    ensures w.state != FAST_RETRANSMIT && a != w.prevAck ==>
      var r := OnAck(DupRun(w, 3 - w.dups + k), a);
      Halved(w.cwnd, r.ssthresh) && r == Window(AVOIDANCE, r.ssthresh, r.ssthresh, a, 0)
    ensures var r := OnTimeout(w);
      Halved(w.cwnd, r.ssthresh) && r == Window(SLOW_START, 1, r.ssthresh, w.prevAck, 0)
  {
    if w.state != FAST_RETRANSMIT { ThirdDupClosedForm(w, k); }
  }
}
