/** The detection service: a governor in front of the detector (cloud or
    local) that refuses a request while too many are in flight, and filters
    the detector's answer by a minimal probability.  A request is split
    into its admission (`BeginDetect`), the detector's answer arriving
    (`CompleteDetect`) and the detector faulting (`FaultDetect`), so that
    requests can interleave. */
module Detection {
  import opened TrackedObjects

  /** `Where(Probability > minimal)`. */
  function AboveMinimal(detections: seq<DetectedObject>, minimal: real): (r: seq<DetectedObject>)
    ensures forall d :: d in r ==> d in detections && d.probability > minimal
    ensures forall d :: d in detections && d.probability > minimal ==> d in r
    ensures |r| <= |detections|
    decreases |detections|
  {
    if |detections| == 0 then []
    else
      var rest := AboveMinimal(detections[1..], minimal);
      assert forall d :: d in detections ==> d == detections[0] || d in detections[1..];
      (if detections[0].probability > minimal then [detections[0]] else []) + rest
  }

  /** The filter keeps the detector's order: it distributes over
      concatenation. */
  lemma {:induction false} AboveMinimalKeepsOrder(a: seq<DetectedObject>, b: seq<DetectedObject>, minimal: real)
    ensures AboveMinimal(a + b, minimal) == AboveMinimal(a, minimal) + AboveMinimal(b, minimal)
    decreases |a|
  {
    if |a| > 0 {
      var tail := a[1..];
      assert a + b == [a[0]] + (tail + b);
      assert a == [a[0]] + tail;
      var h := if a[0].probability > minimal then [a[0]] else [];
      var x, y := AboveMinimal(tail, minimal), AboveMinimal(b, minimal);
      AboveMinimalCons(a[0], tail + b, minimal);
      AboveMinimalCons(a[0], tail, minimal);
      AboveMinimalKeepsOrder(tail, b, minimal);
      assert h + (x + y) == (h + x) + y;
    } else {
      assert a + b == b;
    }
  }

  lemma AboveMinimalCons(x: DetectedObject, rest: seq<DetectedObject>, minimal: real)
    ensures AboveMinimal([x] + rest, minimal) ==
      (if x.probability > minimal then [x] else []) + AboveMinimal(rest, minimal)
  {
    assert ([x] + rest)[0] == x && ([x] + rest)[1..] == rest;
  }

  /** The counter and, as ghost bookkeeping, how many admitted requests are
      still waiting for the detector. */
  datatype Governor = Governor(count: int, inFlight: nat)

  datatype Request = Begin | Complete | Fault

  const Idle: Governor := Governor(0, 0)

  /** The admission test as written: refuse only when the counter EXCEEDS
      the limit. */
  predicate AdmitsAsWritten(count: int, limit: int) { !(count > limit) }

  /** The admission test as evidently intended: at most `limit` in flight. */
  predicate AdmitsBounded(count: int, limit: int) { count < limit }

  /** One event.  As written, a faulting detector skips the decrement; the
      corrected governor gives the slot back on every path. */
  function StepGovernor(g: Governor, limit: int, r: Request, corrected: bool): (g': Governor)
    ensures r == Begin ==> g'.inFlight >= g.inFlight
  {
    match r
    case Begin =>
      var admits := if corrected then AdmitsBounded(g.count, limit) else AdmitsAsWritten(g.count, limit);
      if admits then Governor(g.count + 1, g.inFlight + 1) else g
    case Complete =>
      if g.inFlight == 0 then g else Governor(g.count - 1, g.inFlight - 1)
    case Fault =>
      if g.inFlight == 0 then g
      else if corrected then Governor(g.count - 1, g.inFlight - 1)
      else Governor(g.count, g.inFlight - 1)
  }

  function Run(g: Governor, limit: int, rs: seq<Request>, corrected: bool): Governor
    decreases |rs|
  {
    if |rs| == 0 then g else Run(StepGovernor(g, limit, rs[0], corrected), limit, rs[1..], corrected)
  }

  function Begins(n: nat): (rs: seq<Request>)
    ensures |rs| == n && forall k :: 0 <= k < n ==> rs[k] == Begin
  {
    seq(n, k => Begin)
  }

  /** As written, `n` back-to-back requests are all admitted for any `n`
      up to limit + 1: one more request than the limit is in flight. */
  lemma {:induction false} AsWrittenAdmitsOneOverLimit(limit: nat, n: nat)
    requires n <= limit + 1
    ensures Run(Idle, limit, Begins(n), false) == Governor(n, n)
  {
    if n > 0 {
      AsWrittenAdmitsOneOverLimit(limit, n - 1);
      RunAppend(Idle, limit, Begins(n - 1), Begin, false);
      assert Begins(n) == Begins(n - 1) + [Begin];
    }
  }

  lemma {:induction false} RunAppend(g: Governor, limit: int, rs: seq<Request>, r: Request, corrected: bool)
    ensures Run(g, limit, rs + [r], corrected) == StepGovernor(Run(g, limit, rs, corrected), limit, r, corrected)
    decreases |rs|
  {
    if |rs| > 0 {
      assert (rs + [r])[0] == rs[0] && (rs + [r])[1..] == rs[1..] + [r];
      RunAppend(StepGovernor(g, limit, rs[0], corrected), limit, rs[1..], r, corrected);
    }
  }

  /** With the corrected test and decrement, the counter always equals the
      number of requests in flight, and that number never exceeds the
      limit. */
  lemma {:induction false} CorrectedRespectsLimit(g: Governor, limit: nat, rs: seq<Request>)
    requires g.count == g.inFlight && g.inFlight <= limit
    ensures Run(g, limit, rs, true).count == Run(g, limit, rs, true).inFlight
    ensures Run(g, limit, rs, true).inFlight <= limit
    decreases |rs|
  {
    if |rs| > 0 {
      CorrectedRespectsLimit(StepGovernor(g, limit, rs[0], true), limit, rs[1..]);
    }
  }

  /** As written, every fault leaks one unit of the counter for good: the
      leak never shrinks, and once it exceeds the limit every later request
      is refused. */
  lemma {:induction false} AsWrittenFaultsLeak(g: Governor, limit: int, rs: seq<Request>)
    requires g.count >= g.inFlight
    ensures Run(g, limit, rs, false).count - Run(g, limit, rs, false).inFlight >= g.count - g.inFlight
    ensures g.count - g.inFlight > limit ==> !AdmitsAsWritten(Run(g, limit, rs, false).count, limit)
    decreases |rs|
  {
    if |rs| > 0 {
      AsWrittenFaultsLeak(StepGovernor(g, limit, rs[0], false), limit, rs[1..]);
    }
  }

  /** As written, limit + 1 requests whose detector faulted shut the
      governor: the counter stays above the limit with nothing in flight. */
  lemma {:induction false} FaultsShutGovernor(limit: nat, n: nat)
    requires n <= limit + 1
    ensures Run(Idle, limit, Faulted(n), false) == Governor(n, 0)
  {
    if n > 0 {
      FaultsShutGovernor(limit, n - 1);
      assert Faulted(n) == Faulted(n - 1) + [Begin] + [Fault];
      RunAppend(Idle, limit, Faulted(n - 1) + [Begin], Fault, false);
      RunAppend(Idle, limit, Faulted(n - 1), Begin, false);
    }
  }

  /** `n` requests, each admitted and then faulted. */
  function Faulted(n: nat): (rs: seq<Request>)
    ensures |rs| == 2 * n
  {
    if n == 0 then [] else Faulted(n - 1) + [Begin] + [Fault]
  }

  /** `CustomVisionObjectDetectionService`. */
  class CustomVisionObjectDetectionService {
    var concurrentCount: int
    ghost var inFlight: nat
    var minimalPredictionProbability: real
    var maxConcurrentRequestLimit: int
    var detectOnRepeat: bool
    const useLocalModel: bool

    ghost function State(): Governor
      reads this
    {
      Governor(concurrentCount, inFlight)
    }

    /** The profile defaults: probability 0.5, one request at a time, no
        repeat mode. */
    constructor(useLocalModel: bool)
      ensures State() == Idle && this.useLocalModel == useLocalModel
      ensures minimalPredictionProbability == 0.5 && maxConcurrentRequestLimit == 1 && !detectOnRepeat
    {
      this.useLocalModel := useLocalModel;
      concurrentCount := 0;
      inFlight := 0;
      minimalPredictionProbability := 0.5;
      maxConcurrentRequestLimit := 1;
      detectOnRepeat := false;
    }

    /** `DetectAsync` up to the detector call: a refused request returns
        null (`admitted` false) and changes nothing. */
    method BeginDetect() returns (admitted: bool)
      modifies this
      ensures admitted <==> AdmitsAsWritten(old(concurrentCount), maxConcurrentRequestLimit)
      ensures State() == StepGovernor(old(State()), maxConcurrentRequestLimit, Begin, false)
      ensures minimalPredictionProbability == old(minimalPredictionProbability)
      ensures maxConcurrentRequestLimit == old(maxConcurrentRequestLimit)
      ensures detectOnRepeat == old(detectOnRepeat)
    {
      if concurrentCount > maxConcurrentRequestLimit {
        return false;
      }
      concurrentCount := concurrentCount + 1;
      inFlight := inFlight + 1;
      return true;
    }

    /** `DetectAsync` after the detector answered: the answer is filtered
        and the counter decremented. */
    method CompleteDetect(answer: seq<DetectedObject>) returns (detected: seq<DetectedObject>)
      requires inFlight > 0
      modifies this
      ensures detected == AboveMinimal(answer, minimalPredictionProbability)
      ensures State() == StepGovernor(old(State()), maxConcurrentRequestLimit, Complete, false)
      ensures minimalPredictionProbability == old(minimalPredictionProbability)
      ensures maxConcurrentRequestLimit == old(maxConcurrentRequestLimit)
      ensures detectOnRepeat == old(detectOnRepeat)
    {
      detected := AboveMinimal(answer, minimalPredictionProbability);
      concurrentCount := concurrentCount - 1;
      inFlight := inFlight - 1;
    }

    /** `DetectAsync` when the detector throws: the exception propagates
        past the decrement, so the counter stays raised. */
    method FaultDetect()
      requires inFlight > 0
      modifies this
      ensures State() == StepGovernor(old(State()), maxConcurrentRequestLimit, Fault, false)
      ensures concurrentCount == old(concurrentCount)
      ensures minimalPredictionProbability == old(minimalPredictionProbability)
      ensures maxConcurrentRequestLimit == old(maxConcurrentRequestLimit)
      ensures detectOnRepeat == old(detectOnRepeat)
    {
      inFlight := inFlight - 1;
    }

    method ChangeMinimalPredictionProbability(value: real)
      modifies this
      ensures minimalPredictionProbability == value
      ensures State() == old(State()) && maxConcurrentRequestLimit == old(maxConcurrentRequestLimit)
      ensures detectOnRepeat == old(detectOnRepeat)
    {
      minimalPredictionProbability := value;
    }

    /** Always takes the new limit; while requests are counted it only logs
        an error (`loggedError`). */
    method ChangeMaxConcurrentRequestLimit(value: int) returns (loggedError: bool)
      modifies this
      ensures maxConcurrentRequestLimit == value
      ensures loggedError <==> concurrentCount > 0
      ensures State() == old(State()) && minimalPredictionProbability == old(minimalPredictionProbability)
      ensures detectOnRepeat == old(detectOnRepeat)
    {
      loggedError := concurrentCount > 0;
      maxConcurrentRequestLimit := value;
    }

    method ToggleDetectOnRepeat()
      modifies this
      ensures detectOnRepeat == !old(detectOnRepeat)
      ensures State() == old(State()) && minimalPredictionProbability == old(minimalPredictionProbability)
      ensures maxConcurrentRequestLimit == old(maxConcurrentRequestLimit)
    {
      detectOnRepeat := !detectOnRepeat;
    }
  }
}
