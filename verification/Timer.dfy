/**
  The sender's retransmission timer: the shift-based RTT estimator, Karn's rule for
  which samples feed it, the clamped RTO, and the capped back-off with its abort.
  RTT samples are inputs; all times are in microseconds.
 */
module Timer {
  import opened Arithmetic

  const RTT_MAXNREXMT := 12
  const MIN_RTO := 1_000_000
  const MAX_RTO := 3_000_000

  datatype Estimate = Estimate(srtt: int, rttvar: int, rto: int)

  /** The timer while the sender waits in `select`. */
  datatype State = State(est: Estimate, lastDrop: bool, updateRtt: bool, drops: nat)

  function Abs(n: int): int { if n < 0 then -n else n }

  function Clamp(rto: int): int { if rto < MIN_RTO then MIN_RTO else if rto > MAX_RTO then MAX_RTO else rto }

  /** One estimator update; `>>` floors, as Dafny's division by a positive number does. */
  function Smooth(e: Estimate, sample: int): Estimate {
    var delta := sample - e.srtt / 8;
    var srtt := e.srtt + delta;
    var rttvar := e.rttvar + Abs(delta) - e.rttvar / 4;
    Estimate(srtt, rttvar, Clamp(srtt / 8 + rttvar))
  }

  /** The top of the sender's loop, given the last measured sample. */
  function Rearm(t: State, measured: int): State {
    if t.lastDrop then t
    else if t.updateRtt then t.(est := Smooth(t.est, measured))
    else t.(updateRtt := true)
  }

  function Initial(): Estimate { Estimate(1_500_000, 1_500_000, 0) }

  function Start(): State { Rearm(State(Initial(), false, true, 0), 0) }

  function Replied(t: State): State { t.(lastDrop := false, drops := 0) }

  function OnAck(t: State, sample: int): State { Rearm(Replied(t), sample) }

  function OnTimeout(t: State): State {
    t.(lastDrop := true, updateRtt := false, drops := t.drops + 1)
  }

  /** The time put into `select`. */
  function Armed(t: State): int {
    var wait := t.est.rto * Pow2(t.drops);
    if wait > MAX_RTO then MAX_RTO else wait
  }

  predicate GivesUp(t: State) { t.drops == RTT_MAXNREXMT }

  /** The estimator's variables, updated in place as the sender loop does. */
  class Clock {
    var measuredRtt: int
    var srtt: int
    var rttvar: int
    var rto: int
    var lastDrop: bool
    var updateRtt: bool
    var drops: nat

    ghost function Value(): State reads this { State(Estimate(srtt, rttvar, rto), lastDrop, updateRtt, drops) }

    constructor ()
      ensures Rearm(Value(), measuredRtt) == Start()
    {
      measuredRtt, srtt, rttvar, rto := 0, 1_500_000, 1_500_000, 0;
      lastDrop, updateRtt, drops := false, true, 0;
    }

    method LoopTop() returns (transTime: int)
      modifies this
      ensures Value() == Rearm(old(Value()), old(measuredRtt))
      ensures transTime == Armed(Value())
    {
      if !lastDrop {
        if updateRtt {
          measuredRtt := measuredRtt - srtt / 8;
          srtt := srtt + measuredRtt;
          if measuredRtt < 0 { measuredRtt := -measuredRtt; }
          measuredRtt := measuredRtt - rttvar / 4;
          rttvar := rttvar + measuredRtt;
          rto := srtt / 8 + rttvar;
          if rto < MIN_RTO { rto := MIN_RTO; } else if rto > MAX_RTO { rto := MAX_RTO; }
        } else {
          updateRtt := true;
        }
      }
      transTime := rto * Pow2(drops);
      if transTime > MAX_RTO { transTime := MAX_RTO; }
    }

    method Expired()
      modifies this
      ensures Value() == OnTimeout(old(Value())) == Rearm(Value(), measuredRtt)
    {
      lastDrop := true;
      updateRtt := false;
      drops := drops + 1;
    }

    method TakeSample(sample: int)
      modifies this
      ensures Value() == Replied(old(Value())) && measuredRtt == sample
    {
      lastDrop := false;
      drops := 0;
      measuredRtt := sample;
    }
  }

  // ----- runs

  datatype Event = Ack(sample: int) | Timeout

  function After(t: State, e: Event): State {
    match e
    case Ack(m) => OnAck(t, m)
    case Timeout => OnTimeout(t)
  }

  function RunFrom(t: State, events: seq<Event>): State {
    if events == [] then t else After(RunFrom(t, events[..|events| - 1]), events[|events| - 1])
  }

  // ----- Karn's rule, section 3 of RFC 6298

  function Fold(e: Estimate, samples: seq<int>): Estimate {
    if samples == [] then e else Smooth(Fold(e, samples[..|samples| - 1]), samples[|samples| - 1])
  }

  /** The samples of the ACKs that do not directly follow a timeout. */
  function Trusted(events: seq<Event>): seq<int> {
    if events == [] then []
    else
      var n := |events|;
      Trusted(events[..n - 1])
      + if events[n - 1].Ack? && !(n > 1 && events[n - 2].Timeout?) then [events[n - 1].sample] else []
  }

  lemma FoldSnoc(e: Estimate, samples: seq<int>, m: int)
    ensures Fold(e, samples + [m]) == Smooth(Fold(e, samples), m)
  {
    assert (samples + [m])[..|samples|] == samples;
  }

  /** After any run the estimate is the plain fold over the initial 0 and the trusted samples. */
  lemma {:induction false} KarnFiltering(events: seq<Event>)
    ensures var t := RunFrom(Start(), events);
      && t.est == Fold(Initial(), [0] + Trusted(events))
      && t.updateRtt == !(events != [] && events[|events| - 1].Timeout?)
  {
    var n := |events|;
    if n == 0 {
      FoldSnoc(Initial(), [], 0);
      assert [0] + Trusted([]) == [] + [0];
    } else {
      var before, last := events[..n - 1], events[n - 1];
      KarnFiltering(before);
      if last.Ack? && RunFrom(Start(), before).updateRtt {
        assert !(n > 1 && events[n - 2].Timeout?);
        var kept, e := Trusted(before), RunFrom(Start(), before).est;
        assert RunFrom(Start(), events).est == Smooth(e, last.sample);
        FoldSnoc(Initial(), [0] + kept, last.sample);
        assert ([0] + kept) + [last.sample] == [0] + (kept + [last.sample]);
        assert Trusted(events) == kept + [last.sample];
      } else {
        assert Trusted(events) == Trusted(before);
        assert RunFrom(Start(), events).est == RunFrom(Start(), before).est;
      }
    }
  }

  // ----- bounds

  predicate Within(events: seq<Event>, bound: int) {
    forall i :: 0 <= i < |events| && events[i].Ack? ==> 0 <= events[i].sample <= bound
  }

  predicate Bounded(e: Estimate, bound: int) {
    0 <= e.srtt <= 8 * bound + 7 && 0 <= e.rttvar <= 4 * bound + 3
  }

  lemma SmoothBounded(e: Estimate, sample: int, bound: int)
    requires Bounded(e, bound) && 0 <= sample <= bound
    ensures Bounded(Smooth(e, sample), bound) && MIN_RTO <= Smooth(e, sample).rto <= MAX_RTO
  {
    var floor := e.srtt / 8;
    assert 0 <= floor <= bound;
    assert Abs(sample - floor) <= bound;
    var v := e.rttvar / 4;
    assert 0 <= v <= bound;
  }

  /** Despite the flooring shifts the estimates never leave [0, 8M+7] and [0, 4M+3]. */
  lemma {:induction false} EstimatorBounds(events: seq<Event>, bound: int)
    requires bound >= 328_125 && Within(events, bound)
    ensures Bounded(RunFrom(Start(), events).est, bound)
    ensures 8 * bound + 7 < 0x8000_0000 ==>
      RunFrom(Start(), events).est.srtt < 0x8000_0000 && RunFrom(Start(), events).est.rttvar < 0x8000_0000
  {
    if events != [] {
      var before := events[..|events| - 1];
      EstimatorBounds(before, bound);
      var last := events[|events| - 1];
      if last.Ack? { SmoothBounded(RunFrom(Start(), before).est, last.sample, bound); }
    }
  }

  /** 328125 is the least M for which that holds: below it the first armed estimate is already outside. */
  lemma EstimatorBoundIsExact(bound: nat)
    ensures bound >= 328_125 <==>
      forall events: seq<Event> :: Within(events, bound) ==> Bounded(RunFrom(Start(), events).est, bound)
  {
    if bound >= 328_125 {
      forall events: seq<Event> | Within(events, bound)
        ensures Bounded(RunFrom(Start(), events).est, bound)
      {
        EstimatorBounds(events, bound);
      }
    } else {
      assert Within([], bound) && !Bounded(RunFrom(Start(), []).est, bound);
    }
  }

  // ----- back-off and abort

  predicate RtoClamped(t: State) { MIN_RTO <= t.est.rto <= MAX_RTO }

  lemma {:induction false} RtoAlwaysClamped(events: seq<Event>)
    ensures RtoClamped(RunFrom(Start(), events))
  {
    if events != [] { RtoAlwaysClamped(events[..|events| - 1]); }
  }

  lemma Products(r: int, p: int)
    requires r >= 0 && p >= 1
    ensures r * p >= r && r * (2 * p) == 2 * (r * p)
    ensures p == 2 ==> r * p == 2 * r
    ensures p >= 4 ==> r * p >= 4 * r
  {
    assert r * p == r + r * (p - 1) && r * (p - 1) >= 0;
    if p >= 4 { assert r * p == 4 * r + r * (p - 4) && r * (p - 4) >= 0; }
  }

  lemma ArmedShape(t: State)
    requires RtoClamped(t)
    ensures MIN_RTO <= Armed(t) <= MAX_RTO
    ensures t.drops == 0 ==> Armed(t) == t.est.rto
    ensures t.drops == 1 ==> Armed(t) == if 2 * t.est.rto > MAX_RTO then MAX_RTO else 2 * t.est.rto
    ensures t.drops >= 2 ==> Armed(t) == MAX_RTO
    ensures Armed(t) <= Armed(OnTimeout(t))
  {
    var p := Pow2(t.drops);
    Products(t.est.rto, p);
    assert Pow2(t.drops + 1) == 2 * p;
    if t.drops == 1 { assert p == 2 * Pow2(0); }
    if t.drops >= 2 {
      Pow2Monotone(2, t.drops);
      assert p >= Pow2(2) == 2 * Pow2(1);
    }
  }

  function TrailingTimeouts(events: seq<Event>): nat {
    if events == [] || events[|events| - 1].Ack? then 0 else 1 + TrailingTimeouts(events[..|events| - 1])
  }

  /** In every run the armed wait is legal, never shrinks on a timeout, and the sender gives
      up exactly when the run ends in twelve consecutive timeouts. */
  lemma {:induction false} BackOff(events: seq<Event>)
    ensures var t := RunFrom(Start(), events);
      && MIN_RTO <= Armed(t) <= MAX_RTO
      && Armed(t) <= Armed(OnTimeout(t))
      && t.drops == TrailingTimeouts(events)
      && (t.drops >= 2 ==> Armed(t) == MAX_RTO)
      && (GivesUp(t) <==> TrailingTimeouts(events) == RTT_MAXNREXMT)
  {
    RtoAlwaysClamped(events);
    ArmedShape(RunFrom(Start(), events));
    if events != [] { BackOff(events[..|events| - 1]); }
  }

  function Timeouts(t: State, n: nat): State {
    if n == 0 then t else OnTimeout(Timeouts(t, n - 1))
  }

  function TotalWait(t: State, n: nat): int {
    if n == 0 then 0 else TotalWait(t, n - 1) + Armed(Timeouts(t, n - 1))
  }

  lemma {:induction false} TimeoutsKeepEstimate(t: State, n: nat)
    ensures Timeouts(t, n).est == t.est && Timeouts(t, n).drops == t.drops + n
  {
    if n > 0 { TimeoutsKeepEstimate(t, n - 1); }
  }

  lemma {:induction false} WaitAtCap(t: State, n: nat)
    requires RtoClamped(t) && t.drops == 0 && n >= 2
    ensures TotalWait(t, n) == TotalWait(t, 2) + (n - 2) * MAX_RTO
  {
    if n > 2 {
      WaitAtCap(t, n - 1);
      TimeoutsKeepEstimate(t, n - 1);
      ArmedShape(Timeouts(t, n - 1));
    }
  }

  /** From a fresh ACK to the abort the sender waits between 33 and 36 seconds, over twelve
      expiries and no fewer. */
  lemma AbortWait(events: seq<Event>)
    requires TrailingTimeouts(events) == 0
    ensures var t := RunFrom(Start(), events);
      && 33_000_000 <= TotalWait(t, RTT_MAXNREXMT) <= 36_000_000
      && TotalWait(t, RTT_MAXNREXMT)
           == t.est.rto + (if 2 * t.est.rto > 3_000_000 then 3_000_000 else 2 * t.est.rto) + 30_000_000
      && forall n: nat :: GivesUp(Timeouts(t, n)) <==> n == RTT_MAXNREXMT
  {
    BackOff(events);
    RtoAlwaysClamped(events);
    var t := RunFrom(Start(), events);
    forall n: nat ensures Timeouts(t, n).drops == n { TimeoutsKeepEstimate(t, n); }
    TimeoutsKeepEstimate(t, 1);
    ArmedShape(t);
    ArmedShape(Timeouts(t, 1));
    WaitAtCap(t, RTT_MAXNREXMT);
    assert TotalWait(t, 2) == TotalWait(t, 1) + Armed(Timeouts(t, 1));
    assert TotalWait(t, 1) == TotalWait(t, 0) + Armed(Timeouts(t, 0));
  }

  // ----- the RTO and the armed wait, exactly

  /** r is x moved into [1 s, 3 s]. */
  predicate Confined(x: int, r: int) {
    && (1_000_000 <= x <= 3_000_000 ==> r == x)
    && (x < 1_000_000 ==> r == 1_000_000) && (x > 3_000_000 ==> r == 3_000_000)
  }

  /** In every run the RTO is SRTT plus four deviations, moved into its range. */
  lemma {:induction false} RtoFollowsEstimate(events: seq<Event>)
    ensures var e := RunFrom(Start(), events).est; Confined(e.srtt / 8 + e.rttvar, e.rto)
  {
    if events != [] { RtoFollowsEstimate(events[..|events| - 1]); }
  }

  /** In every run the wait is the RTO, twice the RTO up to 3 s after one timeout, and 3 s after more. */
  lemma ArmedExactly(events: seq<Event>)
    ensures var t := RunFrom(Start(), events); var n := TrailingTimeouts(events);
      && (n == 0 ==> Armed(t) == t.est.rto)
      && (n == 1 ==> if 2 * t.est.rto <= 3_000_000 then Armed(t) == 2 * t.est.rto else Armed(t) == 3_000_000)
      && (n >= 2 ==> Armed(t) == 3_000_000)
  {
    BackOff(events);
    RtoAlwaysClamped(events);
    ArmedShape(RunFrom(Start(), events));
  }

  /** The very first wait. */
  lemma FirstWait()
    ensures Armed(Start()) == 1_476_562
  {
    assert Pow2(0) == 1;
  }

  // ----- the estimator against section 2.3 of RFC 6298

  /** SRTT and RTTVAR as the RFC computes them, without rounding. */
  datatype Exact = Exact(srtt: real, rttvar: real)

  function AbsReal(x: real): real { if x < 0.0 then -x else x }

  /** RTTVAR <- 3/4 RTTVAR + 1/4 |SRTT - R|, then SRTT <- 7/8 SRTT + 1/8 R. */
  function ExactUpdate(x: Exact, sample: int): Exact {
    Exact(0.875 * x.srtt + 0.125 * sample as real, 0.75 * x.rttvar + 0.25 * AbsReal(x.srtt - sample as real))
  }

  function ExactFold(samples: seq<int>): Exact {
    if samples == [] then Exact(187_500.0, 375_000.0)
    else ExactUpdate(ExactFold(samples[..|samples| - 1]), samples[|samples| - 1])
  }

  /** The shifted integers are 8 SRTT and 4 RTTVAR, up to the rounding of the shifts. */
  predicate Tracks(e: Estimate, x: Exact) {
    && 0.0 <= e.srtt as real - 8.0 * x.srtt <= 7.0
    && -3.5 <= e.rttvar as real - 4.0 * x.rttvar <= 6.5
  }

  /** n / d loses less than one unit. */
  lemma Floored(n: int, d: int)
    requires d == 4 || d == 8
    ensures 0 <= n - d * (n / d) <= d - 1
    ensures 0.0 <= n as real - d as real * (n / d) as real <= (d - 1) as real
  {
    assert n == d * (n / d) + n % d;
    assert (d * (n / d)) as real == d as real * (n / d) as real;
  }

  lemma AbsClose(a: real, b: real, bound: real)
    requires -bound <= a - b <= bound
    ensures -bound <= AbsReal(a) - AbsReal(b) <= bound
  {
  }

  lemma UpdateTracks(e: Estimate, x: Exact, sample: int)
    requires Tracks(e, x)
    ensures Tracks(Smooth(e, sample), ExactUpdate(x, sample))
  {
    var q, v, m := e.srtt / 8, e.rttvar / 4, sample as real;
    Floored(e.srtt, 8);
    Floored(e.rttvar, 4);
    var e', x' := Smooth(e, sample), ExactUpdate(x, sample);
    assert e'.srtt as real == e.srtt as real + m - q as real;
    assert Abs(sample - q) as real == AbsReal(q as real - m);
    AbsClose(q as real - m, x.srtt - m, 0.875);
    assert e'.rttvar as real == e.rttvar as real + AbsReal(q as real - m) - v as real;
  }

  /** In every run, whatever the samples, the integers stay within that rounding of the RFC's values. */
  lemma {:induction false} TracksRfc6298(events: seq<Event>)
    ensures Tracks(RunFrom(Start(), events).est, ExactFold([0] + Trusted(events)))
  {
    KarnFiltering(events);
    FoldTracks([0] + Trusted(events));
  }

  lemma {:induction false} FoldTracks(samples: seq<int>)
    ensures Tracks(Fold(Initial(), samples), ExactFold(samples))
  {
    if samples != [] {
      var before := samples[..|samples| - 1];
      FoldTracks(before);
      UpdateTracks(Fold(Initial(), before), ExactFold(before), samples[|samples| - 1]);
    }
  }

  // ----- convergence

  /** The estimate after the same sample n times. */
  function Same(e: Estimate, m: int, n: nat): Estimate {
    if n == 0 then e else Smooth(Same(e, m, n - 1), m)
  }

  /** How far srtt is from the values that a constant sample leaves alone. */
  function Off(e: Estimate, m: int): nat {
    if e.srtt < 8 * m then 8 * m - e.srtt else if e.srtt > 8 * m + 7 then e.srtt - (8 * m + 7) else 0
  }

  /** A constant sample pulls srtt towards 8m, never past it. */
  lemma PullsCloser(e: Estimate, m: int)
    ensures Off(e, m) > 0 ==> Off(Smooth(e, m), m) < Off(e, m)
    ensures Off(e, m) == 0 ==> Smooth(e, m).srtt == e.srtt
    ensures Abs(Smooth(e, m).srtt - 8 * m) <= Abs(e.srtt - 8 * m)
  {
  }

  /** At rest, the deviation decays to 3 and stays. */
  lemma Decays(e: Estimate, m: int)
    requires Off(e, m) == 0 && e.rttvar >= 0
    ensures var e' := Smooth(e, m);
      0 <= e'.rttvar && (e.rttvar > 3 ==> e'.rttvar < e.rttvar) && (e.rttvar <= 3 ==> e'.rttvar == e.rttvar)
  {
  }

  lemma {:induction false} SettlesSrtt(e: Estimate, m: int, n: nat)
    ensures Off(Same(e, m, n), m) <= if n < Off(e, m) then Off(e, m) - n else 0
  {
    if n > 0 {
      SettlesSrtt(e, m, n - 1);
      PullsCloser(Same(e, m, n - 1), m);
    }
  }

  lemma {:induction false} SettlesRttvar(e: Estimate, m: int, n: nat)
    requires Off(e, m) == 0 && e.rttvar >= 0
    ensures var r := Same(e, m, n);
      Off(r, m) == 0 && 0 <= r.rttvar && (r.rttvar <= 3 || r.rttvar <= e.rttvar - n)
  {
    if n > 0 {
      SettlesRttvar(e, m, n - 1);
      PullsCloser(Same(e, m, n - 1), m);
      Decays(Same(e, m, n - 1), m);
    }
  }

  lemma {:induction false} SameTwice(e: Estimate, m: int, i: nat, j: nat)
    ensures Same(e, m, i + j) == Same(Same(e, m, i), m, j)
  {
    if j > 0 { SameTwice(e, m, i, j - 1); }
  }

  lemma {:induction false} SameNonNegative(e: Estimate, m: int, n: nat)
    requires e.rttvar >= 0
    ensures Same(e, m, n).rttvar >= 0
  {
    if n > 0 { SameNonNegative(e, m, n - 1); }
  }

  lemma {:induction false} RttvarNonNegative(events: seq<Event>)
    ensures RunFrom(Start(), events).est.rttvar >= 0
  {
    if events != [] { RttvarNonNegative(events[..|events| - 1]); }
  }

  /** After the run, every trusted ACK of `more` measures m, and there are n of them. */
  predicate Steady(events: seq<Event>, more: seq<Event>, m: int, n: nat) {
    Trusted(events + more) == Trusted(events) + seq(n, _ => m)
  }

  lemma OneMore<T>(a: seq<T>, x: T, n: nat)
    requires n > 0
    ensures a + seq(n, _ => x) == (a + seq(n - 1, _ => x)) + [x]
  {
  }

  lemma {:induction false} TrustedSnoc(events: seq<Event>, m: int)
    requires events != [] ==> events[|events| - 1].Ack?
    ensures Trusted(events + [Ack(m)]) == Trusted(events) + [m]
  {
    var all := events + [Ack(m)];
    assert all[..|all| - 1] == events && all[|all| - 1] == Ack(m);
    assert |all| > 1 ==> all[|all| - 2] == events[|events| - 1];
  }

  /** ACKs that all measure m are such a continuation, unless the run ended in a timeout. */
  lemma {:induction false} AcksAreSteady(events: seq<Event>, m: int, n: nat)
    requires TrailingTimeouts(events) == 0
    ensures Steady(events, seq(n, _ => Ack(m)), m, n)
  {
    if n == 0 {
      assert events + seq(n, _ => Ack(m)) == events;
      assert Trusted(events) + seq(n, _ => m) == Trusted(events);
    } else {
      var before := events + seq(n - 1, _ => Ack(m));
      AcksAreSteady(events, m, n - 1);
      OneMore(events, Ack(m), n);
      OneMore(Trusted(events), m, n);
      assert before != [] ==> before[|before| - 1].Ack?;
      TrustedSnoc(before, m);
    }
  }

  lemma {:induction false} FoldSame(e: Estimate, samples: seq<int>, m: int, n: nat)
    ensures Fold(e, samples + seq(n, _ => m)) == Same(Fold(e, samples), m, n)
  {
    if n == 0 {
      assert samples + seq(n, _ => m) == samples;
    } else {
      FoldSame(e, samples, m, n - 1);
      FoldSnoc(e, samples + seq(n - 1, _ => m), m);
      OneMore(samples, m, n);
    }
  }

  lemma SteadyEstimate(events: seq<Event>, more: seq<Event>, m: int, n: nat)
    requires Steady(events, more, m, n)
    ensures RunFrom(Start(), events + more).est == Same(RunFrom(Start(), events).est, m, n)
  {
    KarnFiltering(events);
    KarnFiltering(events + more);
    FoldSame(Initial(), [0] + Trusted(events), m, n);
    assert [0] + (Trusted(events) + seq(n, _ => m)) == ([0] + Trusted(events)) + seq(n, _ => m);
  }

  /** srtt has arrived at 8m, the deviation has decayed, and the RTO is m plus it, in range. */
  predicate Settled(e: Estimate, m: int) {
    8 * m <= e.srtt <= 8 * m + 7 && 0 <= e.rttvar <= 3 && Confined(m + e.rttvar, e.rto)
  }

  /** The distance from 8m never grows while trusted ACKs measure m. */
  lemma {:induction false} NeverDrifts(e: Estimate, m: int, n: nat)
    ensures Abs(Same(e, m, n).srtt - 8 * m) <= Abs(e.srtt - 8 * m)
  {
    if n > 0 {
      NeverDrifts(e, m, n - 1);
      PullsCloser(Same(e, m, n - 1), m);
    }
  }

  lemma SettledAfter(e: Estimate, m: int, n: nat)
    requires e.rttvar >= 0 && n >= Off(e, m) + Same(e, m, Off(e, m)).rttvar
    ensures Off(Same(e, m, n), m) == 0 && 0 <= Same(e, m, n).rttvar <= 3
  {
    var i: nat := Off(e, m);
    SettlesSrtt(e, m, i);
    SameNonNegative(e, m, i);
    SameTwice(e, m, i, n - i);
    SettlesRttvar(Same(e, m, i), m, n - i);
  }

  /** The estimate between two points of a run that are joined by equal trusted samples. */
  lemma SteadyRun(events: seq<Event>, more: seq<Event>, m: int, n: nat)
    requires Steady(events, more, m, n)
    ensures var e, start := RunFrom(Start(), events + more).est, RunFrom(Start(), events).est;
      && Abs(e.srtt - 8 * m) <= Abs(start.srtt - 8 * m)
      && start.rttvar >= 0 && (n >= Off(start, m) + Same(start, m, Off(start, m)).rttvar ==> Settled(e, m))
  {
    var start := RunFrom(Start(), events).est;
    RttvarNonNegative(events);
    SteadyEstimate(events, more, m, n);
    NeverDrifts(start, m, n);
    RtoFollowsEstimate(events + more);
    if n >= Off(start, m) + Same(start, m, Off(start, m)).rttvar { SettledAfter(start, m, n); }
  }

  /** After any run there is a number of equal trusted samples from which on the estimate is settled. */
  lemma Converges(events: seq<Event>, m: int) returns (enough: nat)
    ensures forall more: seq<Event>, n: nat :: Steady(events, more, m, n) ==>
      var e := RunFrom(Start(), events + more).est;
      && Abs(e.srtt - 8 * m) <= Abs(RunFrom(Start(), events).est.srtt - 8 * m)
      && (n >= enough ==> Settled(e, m))
  {
    var start := RunFrom(Start(), events).est;
    RttvarNonNegative(events);
    SameNonNegative(start, m, Off(start, m));
    enough := Off(start, m) + Same(start, m, Off(start, m)).rttvar;
    forall more: seq<Event>, n: nat | Steady(events, more, m, n)
      ensures var e := RunFrom(Start(), events + more).est;
        && Abs(e.srtt - 8 * m) <= Abs(start.srtt - 8 * m) && (n >= enough ==> Settled(e, m))
    {
      SteadyRun(events, more, m, n);
    }
  }
}
