/** The acceleration broadcaster of the documented example: a periodic average sent as one request at a time. */
module Broadcasting {
  import opened Instants
  import opened Timers
  import opened Engines

  type I16 = n: int | -0x8000 <= n < 0x8000

  type I32 = n: int | -0x8000_0000 <= n < 0x8000_0000

  const BROADCAST_PERIOD: Duration := 500_000_000

  const CAN_ACCELERATION_ID: U32 := 0x1000

  const AXES: nat := 3

  /** With this many samples in a period no sum can overflow; with one more it can. */
  const MAX_SAMPLES: nat := 65536

  type Sample = s: seq<I16> | |s| == 3 witness [0, 0, 0]

  /** The samples since the last reset; their count is a u32. */
  type Period = s: seq<Sample> | |s| < U32_SIZE

  datatype Phase = Stopped | WaitSamples | SendingCanMessage(requestId: U32)

  datatype CanMessage = CanMessage(id: U32, length: nat, data: seq<I16>)

  datatype Input =
    | Start(canController: Addr)
    | Stop
    | Acceleration(sample: Sample)
    | TimedOut(timeoutId: U32)
    | CanResponse(requestId: U32, ok: bool)

  datatype Output = CanRequest(to: Addr, id: U32, message: CanMessage) | Armed(timer: Timer) | Disarmed | Replied

  // ---------- arithmetic ----------

  /** Division of the program: towards zero. */
  function Truncated(a: int, n: int): int
    requires n != 0
    decreases n < 0
  {
    if n < 0 then Truncated(-a, -n) else if a >= 0 then a / n else -((-a) / n)
  }

  /** `as i32` of a count: from 2^31 on it turns negative. */
  function AsI32(n: U32): I32 {
    if n < 0x8000_0000 then n else n - 0x1_0000_0000
  }

  /** `as i16`. */
  function CastI16(a: int): I16 {
    (a + 0x8000) % 0x1_0000 - 0x8000
  }

  function Sum(samples: seq<Sample>, axis: nat): int
    requires axis < AXES
  {
    if samples == [] then 0 else Sum(samples[..|samples| - 1], axis) + samples[|samples| - 1][axis]
  }

  lemma {:induction false} SumBounds(samples: seq<Sample>, axis: nat, lo: int, hi: int)
    requires axis < AXES && forall i :: 0 <= i < |samples| ==> lo <= samples[i][axis] <= hi
    ensures lo * |samples| <= Sum(samples, axis) <= hi * |samples|
  {
    if samples != [] {
      SumBounds(samples[..|samples| - 1], axis, lo, hi);
      assert lo * |samples| == lo * (|samples| - 1) + lo && hi * |samples| == hi * (|samples| - 1) + hi;
    }
  }

  function Extremes(n: nat): (s: seq<Sample>)
    ensures |s| == n && forall i :: 0 <= i < n ==> s[i] == [-0x8000, -0x8000, -0x8000]
  {
    seq(n, _ => [-0x8000, -0x8000, -0x8000])
  }

  lemma {:induction false} SumOfExtremes(n: nat, axis: nat)
    requires axis < AXES
    ensures Sum(Extremes(n), axis) == -0x8000 * n
  {
    if n > 0 {
      SumOfExtremes(n - 1, axis);
      assert Extremes(n)[..n - 1] == Extremes(n - 1);
      assert Extremes(n)[n - 1][axis] == -0x8000;
    }
  }

  ghost predicate Fits(samples: seq<Sample>, axis: nat)
    requires axis < AXES
  {
    -0x8000_0000 <= Sum(samples, axis) < 0x8000_0000
  }

  /** Every sum of so many samples fits an i32 if and only if there are at most MAX_SAMPLES of them. */
  lemma {:induction false} SumsFitExactly(n: nat, axis: nat)
    requires axis < AXES
    ensures n <= MAX_SAMPLES <==> forall samples: seq<Sample> :: |samples| == n ==> Fits(samples, axis)
  {
    if n <= MAX_SAMPLES {
      forall samples: seq<Sample> | |samples| == n ensures Fits(samples, axis) {
        SumBounds(samples, axis, -0x8000, 0x7FFF);
      }
    } else {
      var extremes := Extremes(n);
      SumOfExtremes(n, axis);
      assert |extremes| == n && !Fits(extremes, axis);
    }
  }

  lemma TimesMonotone(x: int, y: int, n: int)
    requires n > 0
    ensures x <= y <==> x * n <= y * n
  {
    if x <= y {
      assert (y - x) * n >= 0;
    } else {
      assert (x - y) * n > 0;
    }
  }

  lemma TruncatedBetween(a: int, n: int, lo: int, hi: int)
    requires n > 0 && lo * n <= a <= hi * n
    ensures lo <= Truncated(a, n) <= hi
  {
    var q := Truncated(a, n);
    if a >= 0 {
      assert q * n <= a < (q + 1) * n;
      TimesMonotone(q, hi, n);
      TimesMonotone(q + 1, lo, n);
    } else {
      assert q * n >= a > (q - 1) * n;
      TimesMonotone(lo, q, n);
      TimesMonotone(hi, q - 1, n);
    }
  }

  predicate IsI32(n: int) {
    -0x8000_0000 <= n < 0x8000_0000
  }

  function Quotient(samples: Period, axis: nat): int
    requires axis < AXES && samples != []
  {
    Truncated(Sum(samples, axis), AsI32(|samples|))
  }

  /** The average of a period of fewer than 2^31 samples fits an i16, so that the cast loses nothing, and lies
      within the range of its samples. */
  lemma {:induction false} AverageFits(samples: Period, axis: nat, lo: int, hi: int)
    requires axis < AXES && samples != [] && forall i :: 0 <= i < |samples| ==> lo <= samples[i][axis] <= hi
    requires |samples| < 0x8000_0000
    ensures lo <= Quotient(samples, axis) <= hi
    ensures CastI16(Quotient(samples, axis)) == Quotient(samples, axis)
  {
    SumBounds(samples, axis, lo, hi);
    TruncatedBetween(Sum(samples, axis), |samples|, lo, hi);
    SumBounds(samples, axis, -0x8000, 0x7FFF);
    TruncatedBetween(Sum(samples, axis), |samples|, -0x8000, 0x7FFF);
  }

  /** Whatever bounds the samples bounds the quotient. */
  ghost predicate IsAverage(samples: Period, axis: nat)
    requires axis < AXES && samples != []
  {
    forall lo: int, hi: int :: Bounded(samples, axis, lo, hi) ==> lo <= Quotient(samples, axis) <= hi
  }

  predicate Bounded(samples: Period, axis: nat, lo: int, hi: int)
    requires axis < AXES
  {
    forall i :: 0 <= i < |samples| ==> lo <= samples[i][axis] <= hi
  }

  /** Some samples of -1 on all axes, and zeros. */
  function Mixed(ones: nat, n: nat): seq<Sample> {
    seq(n, i => if i < ones then [-1, -1, -1] else [0, 0, 0])
  }

  lemma {:induction false} SumOfMixed(ones: nat, n: nat, axis: nat)
    requires axis < AXES
    ensures Sum(Mixed(ones, n), axis) == -(if n < ones then n else ones)
  {
    if n > 0 {
      SumOfMixed(ones, n - 1, axis);
      assert Mixed(ones, n)[..n - 1] == Mixed(ones, n - 1);
      assert Mixed(ones, n)[n - 1][axis] == if n - 1 < ones then -1 else 0;
    }
  }

  /** With 2^31 samples or more, so many of them -1 that their number is the negated divisor, the quotient is 1. */
  lemma {:induction false} MixedIsNoAverage(n: U32, axis: nat)
    requires axis < AXES && n >= 0x8000_0000
    ensures IsI32(Sum(Mixed(0x1_0000_0000 - n, n), axis)) && !IsAverage(Mixed(0x1_0000_0000 - n, n), axis)
  {
    var ones := 0x1_0000_0000 - n;
    var samples: Period := Mixed(ones, n);
    SumOfMixed(ones, n, axis);
    assert AsI32(n) == -ones;
    assert Quotient(samples, axis) == Truncated(-ones, -ones) == Truncated(ones, ones) == 1;
    assert Bounded(samples, axis, -1, 0);
  }

  /** The quotient is an average for every period of n samples whose sum does not overflow, if and only if n is less
      than 2^31. */
  lemma {:induction false} AverageExactly(n: U32, axis: nat)
    requires axis < AXES && n > 0
    ensures n < 0x8000_0000 <==>
            forall samples: Period :: |samples| == n && IsI32(Sum(samples, axis)) ==> IsAverage(samples, axis)
  {
    if n < 0x8000_0000 {
      forall samples: Period, lo: int, hi: int | |samples| == n && Bounded(samples, axis, lo, hi)
        ensures lo <= Quotient(samples, axis) <= hi
      {
        AverageFits(samples, axis, lo, hi);
      }
    } else {
      MixedIsNoAverage(n, axis);
      var samples: Period := Mixed(0x1_0000_0000 - n, n);
      assert |samples| == n && IsI32(Sum(samples, axis)) && !IsAverage(samples, axis);
    }
  }

  // ---------- the actor ----------

  /** The broadcaster, with the samples of the period instead of their count and sums. */
  datatype State = State(can: Addr, samples: Period, phase: Phase, timer: Timer)

  function Average(samples: Period): seq<I16>
    requires samples != []
  {
    [CastI16(Quotient(samples, 0)), CastI16(Quotient(samples, 1)), CastI16(Quotient(samples, 2)), 0]
  }

  /** The identifiers that the dispatcher hands out to the next arm and the next request. */
  datatype Fresh = Fresh(now: Ticks, timerId: U32, requestId: U32)

  predicate ClockFits(f: Fresh) {
    AddFits(Finite(f.now), BROADCAST_PERIOD)
  }

  function NextTimer(f: Fresh): Timer
    requires ClockFits(f)
  {
    Timer(f.timerId, Add(Finite(f.now), BROADCAST_PERIOD))
  }

  /** What keeps the program from panicking: no sum, count or quotient overflows, and neither does the end of a new
      period. Built without checks, it wraps around where a sum or a count overflows. */
  predicate NoPanic(s: State, f: Fresh, input: Input) {
    match input
    case Start(_) => s.phase.Stopped? ==> ClockFits(f)
    case Acceleration(sample) =>
      |s.samples| + 1 < U32_SIZE
      && forall axis :: 0 <= axis < AXES ==> IsI32(Sum(s.samples, axis) + sample[axis])
    case TimedOut(id) =>
      id == s.timer.id ==>
        && ClockFits(f)
        && (s.phase.WaitSamples? && s.samples != [] ==>
            forall axis :: 0 <= axis < AXES ==> IsI32(Quotient(s.samples, axis)))
    case _ => true
  }

  function Handle(s: State, f: Fresh, input: Input): (State, seq<Output>)
    requires NoPanic(s, f, input)
  {
    match input
    case Start(can) =>
      if s.phase.Stopped? then (State(can, [], WaitSamples, NextTimer(f)), [Armed(NextTimer(f)), Replied])
      else (s, [Replied])
    case Stop =>
      if s.phase.Stopped? then (s, [Replied])
      else (s.(samples := [], phase := Stopped, timer := s.timer.(deadline := Infinity)), [Disarmed, Replied])
    case Acceleration(sample) => (s.(samples := s.samples + [sample]), [])
    case TimedOut(id) =>
      if !IsScheduling(s.timer, id).1 then (s, [])
      else
        var sends := s.phase.WaitSamples? && s.samples != [];
        (s.(samples := [], timer := NextTimer(f), phase := if sends then SendingCanMessage(f.requestId) else s.phase),
         (if sends then [CanRequest(s.can, f.requestId, CanMessage(CAN_ACCELERATION_ID, 3, Average(s.samples)))]
          else [])
         + [Armed(NextTimer(f))])
    case CanResponse(id, _) =>
      if s.phase.SendingCanMessage? && id == s.phase.requestId then (s.(phase := WaitSamples), []) else (s, [])
  }

  /** A CAN request is only sent while waiting for samples, when there are some; it then becomes the awaited one. */
  lemma SendsOnlyWhenWaiting(s: State, f: Fresh, input: Input)
    requires NoPanic(s, f, input)
    ensures var (r, out) := Handle(s, f, input);
            && (forall o :: o in out && o.CanRequest? ==>
                s.phase.WaitSamples? && s.samples != [] && r.phase == SendingCanMessage(o.id))
            && (s.phase.SendingCanMessage? && r.phase != s.phase ==>
                input == Stop || (input.CanResponse? && input.requestId == s.phase.requestId))
  {
  }

  type Moment = (Fresh, Input)

  predicate NoPanics(s: State, ms: seq<Moment>)
    decreases |ms|
  {
    ms == [] || (NoPanic(s, ms[0].0, ms[0].1) && NoPanics(Handle(s, ms[0].0, ms[0].1).0, ms[1..]))
  }

  function Trace(s: State, ms: seq<Moment>): (State, seq<Output>)
    requires NoPanics(s, ms)
    decreases |ms|
  {
    if ms == [] then (s, [])
    else
      var (s1, out) := Handle(s, ms[0].0, ms[0].1);
      var (s2, rest) := Trace(s1, ms[1..]);
      (s2, out + rest)
  }

  function CanRequests(out: seq<Output>): nat {
    if out == [] then 0 else (if out[0].CanRequest? then 1 else 0) + CanRequests(out[1..])
  }

  /** The messages that free the broadcaster to send again: the awaited response, or a stop while it is awaited. */
  function Releases(s: State, ms: seq<Moment>): nat
    requires NoPanics(s, ms)
    decreases |ms|
  {
    if ms == [] then 0
    else
      var s1 := Handle(s, ms[0].0, ms[0].1).0;
      (if s.phase.SendingCanMessage? && s1.phase != s.phase then 1 else 0) + Releases(s1, ms[1..])
  }

  function Awaiting(s: State): nat {
    if s.phase.SendingCanMessage? then 1 else 0
  }

  lemma {:induction false} CanRequestsConcat(a: seq<Output>, b: seq<Output>)
    ensures CanRequests(a + b) == CanRequests(a) + CanRequests(b)
  {
    if a == [] {
      assert a + b == b;
    } else {
      CanRequestsConcat(a[1..], b);
      assert (a + b)[1..] == a[1..] + b;
    }
  }

  /** Over any run, every request but at most one has been released: there is never more than one outstanding. */
  lemma {:induction false} OneRequestAtATime(s: State, ms: seq<Moment>)
    requires NoPanics(s, ms)
    ensures Awaiting(s) + CanRequests(Trace(s, ms).1) == Releases(s, ms) + Awaiting(Trace(s, ms).0)
    decreases |ms|
  {
    if ms != [] {
      var (s1, out) := Handle(s, ms[0].0, ms[0].1);
      OneRequestAtATime(s1, ms[1..]);
      CanRequestsConcat(out, Trace(s1, ms[1..]).1);
      assert Awaiting(s) + CanRequests(out)
             == Awaiting(s1) + (if s.phase.SendingCanMessage? && s1.phase != s.phase then 1 else 0) by {
        if out != [] {
          assert out[1..] == [] || out[1..] == [out[1]];
        }
      }
    }
  }

  /** The message adds no sample to MAX_SAMPLES of them. */
  predicate Moderate(s: State, f: Fresh, input: Input) {
    ClockFits(f) && |s.samples| <= MAX_SAMPLES && (input.Acceleration? ==> |s.samples| < MAX_SAMPLES)
  }

  lemma ModerateIsSafe(s: State, f: Fresh, input: Input)
    requires Moderate(s, f, input)
    ensures NoPanic(s, f, input) && |Handle(s, f, input).0.samples| <= MAX_SAMPLES
  {
    match input
    case Acceleration(sample) =>
      forall axis | 0 <= axis < AXES ensures IsI32(Sum(s.samples, axis) + sample[axis]) {
        var more := s.samples + [sample];
        assert more[..|s.samples|] == s.samples;
        SumBounds(more, axis, -0x8000, 0x7FFF);
        assert Sum(more, axis) == Sum(s.samples, axis) + sample[axis];
      }
    case TimedOut(_) =>
      forall axis | 0 <= axis < AXES && s.samples != [] ensures IsI32(Quotient(s.samples, axis)) {
        AverageFits(s.samples, axis, -0x8000, 0x7FFF);
      }
    case _ =>
  }

  /** Every message of the run is so, as far as the run gets. */
  predicate ModerateRun(s: State, ms: seq<Moment>)
    decreases |ms|
  {
    ms != [] ==>
      && Moderate(s, ms[0].0, ms[0].1)
      && (NoPanic(s, ms[0].0, ms[0].1) ==> ModerateRun(Handle(s, ms[0].0, ms[0].1).0, ms[1..]))
  }

  /** In every run with at most MAX_SAMPLES samples a period nothing overflows: no sum, no count and no quotient. */
  lemma {:induction false} ModerateRunsAreSafe(s: State, ms: seq<Moment>)
    requires ModerateRun(s, ms)
    ensures NoPanics(s, ms)
    ensures |s.samples| <= MAX_SAMPLES ==> |Trace(s, ms).0.samples| <= MAX_SAMPLES
    decreases |ms|
  {
    if ms != [] {
      ModerateIsSafe(s, ms[0].0, ms[0].1);
      ModerateRunsAreSafe(Handle(s, ms[0].0, ms[0].1).0, ms[1..]);
    }
  }

  // ---------- one period ----------

  /** Division is exact up to a rest smaller than the divisor, and rounds towards zero. */
  lemma TruncatedTowardsZero(a: int, n: int) returns (rest: int)
    requires n != 0
    ensures a == Truncated(a, n) * n + rest && (if rest < 0 then -rest else rest) < (if n < 0 then -n else n)
    ensures (a >= 0 ==> rest >= 0) && (a <= 0 ==> rest <= 0)
  {
    if n < 0 {
      var other := TruncatedByPositive(-a, -n);
      NegateBoth(Truncated(a, n), n);
      rest := -other;
    } else {
      rest := TruncatedByPositive(a, n);
    }
  }

  lemma NegateBoth(q: int, n: int)
    ensures -(q * -n) == q * n
  {
  }

  lemma TruncatedByPositive(a: int, n: int) returns (rest: int)
    requires n > 0
    ensures a == Truncated(a, n) * n + rest && (if rest < 0 then -rest else rest) < n
    ensures (a >= 0 ==> rest >= 0) && (a <= 0 ==> rest <= 0)
  {
    if a >= 0 {
      rest := a % n;
    } else {
      rest := -((-a) % n);
      Negated((-a) / n, n);
    }
  }

  lemma Negated(q: int, n: int)
    ensures (-q) * n == -(q * n)
  {
  }

  /** Each axis has its own quotient, in order, and the fourth number is zero. */
  lemma AverageByAxis(samples: Period)
    requires samples != []
    ensures var data := Average(samples);
            && |data| == 4 && data[3] == 0
            && forall axis: nat :: axis < AXES ==>
               data[axis] == CastI16(Truncated(Sum(samples, axis), AsI32(|samples|)))
  {
  }

  /** `as i16` keeps what fits, and otherwise differs by a multiple of 2^16. */
  lemma CastIsModular(a: int) returns (q: int)
    ensures CastI16(a) == a - 0x1_0000 * q && (-0x8000 <= a < 0x8000 ==> CastI16(a) == a)
  {
    q := (a + 0x8000) / 0x1_0000;
  }

  /** Only samples, and these samples. */
  predicate Gathers(ms: seq<Moment>, samples: seq<Sample>) {
    |ms| == |samples| && forall i :: 0 <= i < |ms| ==> ms[i].1 == Acceleration(samples[i])
  }

  lemma {:induction false} SamplesAreGathered(s: State, ms: seq<Moment>, samples: seq<Sample>)
    requires NoPanics(s, ms) && Gathers(ms, samples) && |s.samples| + |samples| < U32_SIZE
    ensures Trace(s, ms) == (s.(samples := s.samples + samples), [])
    decreases |ms|
  {
    if ms == [] {
      assert s.samples + samples == s.samples;
    } else {
      var (s1, out) := Handle(s, ms[0].0, ms[0].1);
      assert s1 == s.(samples := s.samples + [samples[0]]) && out == [];
      SamplesAreGathered(s1, ms[1..], samples[1..]);
      assert out + Trace(s1, ms[1..]).1 == [];
      assert s.samples + [samples[0]] + samples[1..] == s.samples + samples;
    }
  }

  lemma {:induction false} TraceJoin(s: State, ms: seq<Moment>, more: seq<Moment>)
    requires NoPanics(s, ms + more)
    ensures NoPanics(s, ms) && NoPanics(Trace(s, ms).0, more)
    ensures Trace(s, ms + more) == (Trace(Trace(s, ms).0, more).0, Trace(s, ms).1 + Trace(Trace(s, ms).0, more).1)
    decreases |ms|
  {
    hide Handle, NoPanic;
    if ms == [] {
      assert ms + more == more;
      assert [] + Trace(s, more).1 == Trace(s, more).1;
    } else {
      var (s1, out) := Handle(s, ms[0].0, ms[0].1);
      assert (ms + more)[0] == ms[0] && (ms + more)[1..] == ms[1..] + more;
      TraceJoin(s1, ms[1..], more);
      var a, b := Trace(s1, ms[1..]).1, Trace(Trace(s1, ms[1..]).0, more).1;
      assert out + (a + b) == out + a + b;
    }
  }

  lemma OneMessage(s: State, f: Fresh, input: Input)
    requires NoPanics(s, [(f, input)])
    ensures NoPanic(s, f, input) && Trace(s, [(f, input)]) == Handle(s, f, input)
  {
    var ms := [(f, input)];
    assert ms[0] == (f, input) && ms[1..] == [];
    var (s1, out) := Handle(s, f, input);
    assert out + [] == out;
  }

  /** A start answers, and arms the timer for the end of a period of 500 milliseconds. */
  lemma StartBeginsPeriod(s: State, f: Fresh, can: Addr)
    requires s.phase.Stopped? && ClockFits(f)
    ensures var timer := Timer(f.timerId, Finite(f.now + 500_000_000));
            Handle(s, f, Start(can)) == (State(can, [], WaitSamples, timer), [Armed(timer), Replied])
  {
  }

  /** From the start of a period on, some samples and then the timeout of the timer: if there were any, one request
      goes to the CAN controller, with the quotients of exactly these samples; in any case the next period of 500
      milliseconds begins. */
  lemma {:induction false} PeriodIsBroadcast(s: State, ms: seq<Moment>, samples: seq<Sample>, f: Fresh)
    requires s.phase.WaitSamples? && s.samples == [] && Gathers(ms, samples) && |samples| < U32_SIZE
    requires ClockFits(f) && NoPanics(s, ms + [(f, TimedOut(s.timer.id))])
    ensures var (r, out) := Trace(s, ms + [(f, TimedOut(s.timer.id))]);
            && r.can == s.can && r.samples == [] && r.timer == Timer(f.timerId, Finite(f.now + 500_000_000))
            && if samples == [] then r.phase == WaitSamples && out == [Armed(r.timer)]
               else r.phase == SendingCanMessage(f.requestId)
                    && out == [CanRequest(s.can, f.requestId, CanMessage(0x1000, 3, Average(samples))), Armed(r.timer)]
  {
    hide Trace, NoPanics, Average, Quotient;
    TraceJoin(s, ms, [(f, TimedOut(s.timer.id))]);
    SamplesAreGathered(s, ms, samples);
    assert [] + samples == samples;
    var full := s.(samples := samples);
    OneMessage(full, f, TimedOut(s.timer.id));
    var (r, out) := Handle(full, f, TimedOut(s.timer.id));
    assert [] + out == out;
  }

  /** What does not concern it is ignored: a start while it runs, a stop while it does not, the timeout of another
      arm and the response to another request. */
  lemma OthersAreIgnored(s: State, f: Fresh, can: Addr, id: U32, ok: bool)
    ensures !s.phase.Stopped? ==> Handle(s, f, Start(can)) == (s, [Replied])
    ensures s.phase.Stopped? ==> Handle(s, f, Stop) == (s, [Replied])
    ensures id != s.timer.id ==> Handle(s, f, TimedOut(id)) == (s, [])
    ensures !(s.phase.SendingCanMessage? && s.phase.requestId == id) ==> Handle(s, f, CanResponse(id, ok)) == (s, [])
  {
  }

  /** While a request is awaited, a timeout begins the next period without another one; the response ends the wait,
      whatever it says; and a stop ends everything. */
  lemma WaitingForResponse(s: State, f: Fresh, ok: bool)
    requires s.phase.SendingCanMessage? && ClockFits(f)
    ensures var timer := Timer(f.timerId, Finite(f.now + 500_000_000));
            Handle(s, f, TimedOut(s.timer.id)) == (s.(samples := [], timer := timer), [Armed(timer)])
    ensures Handle(s, f, CanResponse(s.phase.requestId, ok)) == (s.(phase := WaitSamples), [])
    ensures Handle(s, f, Stop)
         == (State(s.can, [], Stopped, Timer(s.timer.id, Infinity)), [Disarmed, Replied])
  {
    assert [] + [Armed(NextTimer(f))] == [Armed(NextTimer(f))];
  }

  // ---------- stopping ----------

  predicate NoStart(ms: seq<Moment>) {
    forall i :: 0 <= i < |ms| ==> !ms[i].1.Start?
  }

  function Arms(out: seq<Output>): nat {
    if out == [] then 0 else (if out[0].Armed? then 1 else 0) + Arms(out[1..])
  }

  /** How many of the timeouts received are of the timer's latest arm at that moment. */
  function OwnTimeouts(s: State, ms: seq<Moment>): nat
    requires NoPanics(s, ms)
    decreases |ms|
  {
    if ms == [] then 0
    else
      (if ms[0].1 == TimedOut(s.timer.id) then 1 else 0) + OwnTimeouts(Handle(s, ms[0].0, ms[0].1).0, ms[1..])
  }

  /** Until the next start a stopped broadcaster stays stopped and sends nothing; but each timeout of its own timer
      makes it arm the timer once more, and nothing else does. */
  lemma {:induction false} StoppedRearmsExactly(s: State, ms: seq<Moment>)
    requires s.phase.Stopped? && NoPanics(s, ms) && NoStart(ms)
    ensures Trace(s, ms).0.phase.Stopped? && CanRequests(Trace(s, ms).1) == 0
    ensures Arms(Trace(s, ms).1) == OwnTimeouts(s, ms)
    decreases |ms|
  {
    if ms != [] {
      var (s1, out) := Handle(s, ms[0].0, ms[0].1);
      StoppedRearmsExactly(s1, ms[1..]);
      CanRequestsConcat(out, Trace(s1, ms[1..]).1);
      ArmsConcat(out, Trace(s1, ms[1..]).1);
      if out != [] {
        assert out[1..] == [];
      }
    }
  }

  const NEW_BROADCASTER := State(Invalid, [], Stopped, NEW_TIMER)

  /** So it goes from the beginning: started, stopped, and then reached by the timeout armed by the start. */
  lemma StoppedArmsAgain(can: Addr, f1: Fresh, f2: Fresh, f3: Fresh)
    requires ClockFits(f1) && ClockFits(f3)
    ensures NoPanics(NEW_BROADCASTER, [(f1, Start(can)), (f2, Stop), (f3, TimedOut(f1.timerId))])
    ensures var (r, out) := Trace(NEW_BROADCASTER, [(f1, Start(can)), (f2, Stop), (f3, TimedOut(f1.timerId))]);
            && r.phase.Stopped? && r.timer == NextTimer(f3)
            && out == [Armed(NextTimer(f1)), Replied, Disarmed, Replied, Armed(NextTimer(f3))]
  {
    var ms := [(f1, Start(can)), (f2, Stop), (f3, TimedOut(f1.timerId))];
    var s1 := State(can, [], WaitSamples, NextTimer(f1));
    var s2 := s1.(phase := Stopped, timer := s1.timer.(deadline := Infinity));
    var later, last := [(f2, Stop), (f3, TimedOut(f1.timerId))], [(f3, TimedOut(f1.timerId))];
    assert ms[1..] == later && later[1..] == last && last[1..] == [];
    var s3 := s2.(timer := NextTimer(f3));
    assert [] + [Armed(NextTimer(f3))] == [Armed(NextTimer(f3))] == [Armed(NextTimer(f3))] + [];
    assert Handle(s2, f3, TimedOut(f1.timerId)) == (s3, [Armed(NextTimer(f3))]);
    assert NoPanics(s3, last[1..]) && NoPanics(s2, last) && NoPanics(s1, later) && NoPanics(NEW_BROADCASTER, ms);
    assert Trace(s3, last[1..]) == (s3, []);
    assert Trace(s2, last) == (s2.(timer := NextTimer(f3)), [Armed(NextTimer(f3))]);
    assert Trace(s1, later).1 == [Disarmed, Replied, Armed(NextTimer(f3))];
  }

  lemma {:induction false} ArmsConcat(a: seq<Output>, b: seq<Output>)
    ensures Arms(a + b) == Arms(a) + Arms(b)
  {
    if a == [] {
      assert a + b == b;
    } else {
      ArmsConcat(a[1..], b);
      assert (a + b)[1..] == a[1..] + b;
    }
  }

  // ---------- the object ----------

  class Broadcaster {
    const accelerationSum: array<I32>
    var canControllerAddr: Addr
    var sampleCount: U32
    var phase: Phase
    var timer: Timer
    ghost var samples: Period

    ghost predicate Valid()
      reads this, accelerationSum
    {
      accelerationSum.Length == AXES && sampleCount == |samples| && SumsAre(samples, AXES)
    }

    ghost predicate SumsAre(s: seq<Sample>, axes: nat)
      requires axes <= accelerationSum.Length && axes <= AXES
      reads accelerationSum
    {
      forall axis :: 0 <= axis < axes ==> accelerationSum[axis] == Sum(s, axis)
    }

    ghost function Value(): State
      reads this
    {
      State(canControllerAddr, samples, phase, timer)
    }

    constructor ()
      ensures Valid() && fresh(accelerationSum) && Value() == NEW_BROADCASTER
    {
      canControllerAddr, sampleCount, phase, timer, samples := Invalid, 0, Stopped, NEW_TIMER, [];
      accelerationSum := new I32[AXES](_ => 0);
    }

    method ResetSum()
      requires accelerationSum.Length == AXES
      modifies this`sampleCount, this`samples, accelerationSum
      ensures Valid() && samples == []
    {
      for i := 0 to accelerationSum.Length
        invariant forall axis :: 0 <= axis < i ==> accelerationSum[axis] == 0
      {
        accelerationSum[i] := 0;
      }
      sampleCount, samples := 0, [];
    }

    method ProcessRequest(input: Input, f: Fresh) returns (out: seq<Output>)
      requires Valid() && (input.Start? || input.Stop?) && NoPanic(Value(), f, input)
      modifies this, accelerationSum
      ensures Valid() && (Value(), out) == Handle(old(Value()), f, input)
    {
      out := [];
      if input.Start? {
        if phase.Stopped? {
          canControllerAddr := input.canController;
          timer := NextTimer(f);
          out := [Armed(timer)];
          phase := WaitSamples;
          ResetSum();
        }
      } else if !phase.Stopped? {
        timer := timer.(deadline := Infinity);
        out := [Disarmed];
        phase := Stopped;
        ResetSum();
      }
      assert [] + [Replied] == [Replied] && [Disarmed] + [Replied] == [Disarmed, Replied]
             && [Armed(timer)] + [Replied] == [Armed(timer), Replied];
      out := out + [Replied];
    }

    method ProcessAcceleration(sample: Sample, f: Fresh)
      requires Valid() && NoPanic(Value(), f, Acceleration(sample))
      modifies this`sampleCount, this`samples, accelerationSum
      ensures Valid() && (Value(), []) == Handle(old(Value()), f, Acceleration(sample))
    {
      ghost var before := samples;
      ghost var more := before + [sample];
      assert more[..|before|] == before;
      for i := 0 to |sample|
        invariant SumsAre(more, i) && sampleCount == |before| && samples == before
        invariant forall axis :: i <= axis < AXES ==> accelerationSum[axis] == Sum(before, axis)
      {
        accelerationSum[i] := accelerationSum[i] + sample[i];
      }
      sampleCount, samples := sampleCount + 1, more;
    }

    method ProcessTimerElapsed(f: Fresh) returns (out: seq<Output>)
      requires Valid() && NoPanic(Value(), f, TimedOut(timer.id))
      modifies this, accelerationSum
      ensures Valid() && (Value(), out) == Handle(old(Value()), f, TimedOut(old(timer.id)))
    {
      out := [];
      if phase.WaitSamples? {
        if sampleCount > 0 {
          var data := ComputeAverage();
          out := [CanRequest(canControllerAddr, f.requestId, CanMessage(CAN_ACCELERATION_ID, 3, data))];
          phase := SendingCanMessage(f.requestId);
        }
      }
      ResetSum();
      timer := NextTimer(f);
      out := out + [Armed(timer)];
    }

    method ComputeAverage() returns (data: seq<I16>)
      requires Valid() && samples != [] && forall axis :: 0 <= axis < AXES ==> IsI32(Quotient(samples, axis))
      ensures data == Average(samples)
    {
      var a := new I16[4](_ => 0);
      for i := 0 to accelerationSum.Length
        invariant forall axis :: 0 <= axis < i ==> a[axis] == CastI16(Quotient(samples, axis))
        invariant forall k :: i <= k < 4 ==> a[k] == 0
      {
        a[i] := CastI16(Truncated(accelerationSum[i], AsI32(sampleCount)));
      }
      data := a[..];
      assert data == [a[0], a[1], a[2], a[3]];
    }

    method ProcessCanResponse(requestId: U32, ok: bool, f: Fresh)
      requires Valid()
      modifies this`phase
      ensures Valid() && (Value(), []) == Handle(old(Value()), f, CanResponse(requestId, ok))
    {
      if phase.SendingCanMessage? {
        if requestId == phase.requestId {
          phase := WaitSamples;
        }
      }
    }
  }
}
