/** Pacing by absolute deadlines: the transaction pacer `rate_limiter`
    (loadgen/loadgen.py:128-136) and the per-method read generator
    `rps_loop` (loadgen/loadgen.py:183-198). Each loop iteration reads the
    clock (`now`); when it is early it sleeps until the deadline and the
    scheduler resumes it `lag` later. The lemmas about never running early
    assume `lag >= 0`: asyncio may wake a timer up to one tick of its clock
    resolution before the deadline, and that sub-tick early wake-up is not
    modelled. Both are modelled for a finite run of iterations. */
module Pacing {
  import opened Wrappers
  import opened JsonValue
  import opened Metrics
  import opened RpcTransport

  /** `1.0 / rate if rate > 0 else 0.0` */
  function Interval(rate: real): (r: real)
    ensures rate > 0.0 ==> r > 0.0 && r * rate == 1.0
    ensures rate <= 0.0 ==> r == 0.0
  {
    if rate > 0.0 then 1.0 / rate else 0.0
  }

  /** The k-th deadline of an absolute timetable. */
  function Deadline(start: real, interval: real, k: nat): real
  {
    start + k as real * interval
  }

  lemma DeadlineStep(start: real, interval: real, k: nat)
    ensures Deadline(start, interval, k) + interval == Deadline(start, interval, k + 1)
    ensures Deadline(start + interval, interval, k) == Deadline(start, interval, k + 1)
  {
  }

  /** The time one iteration proceeds: at once when the clock reading is at
      or past the deadline, otherwise `lag` after the deadline. */
  function FireTime(now: real, lag: real, deadline: real): real
  {
    if now < deadline then deadline + lag else now
  }

  /** The times the iterations proceed, as the loop computes them: with
      `next_t` starting at `nextT` and advanced by `interval` after each
      iteration, whenever that iteration happened. */
  function Schedule(nextT: real, interval: real, nows: seq<real>, lags: seq<real>): (fired: seq<real>)
    requires |lags| == |nows|
    ensures |fired| == |nows|
    decreases |nows|
  {
    if |nows| == 0 then []
    else [FireTime(nows[0], lags[0], nextT)] + Schedule(nextT + interval, interval, nows[1..], lags[1..])
  }

  /** The k-th deadline is `start + k * interval`: accumulating the interval
      after every iteration is the same as an absolute timetable. */
  lemma {:induction false} ScheduleIsAbsolute(start: real, interval: real, nows: seq<real>, lags: seq<real>, k: nat)
    requires |lags| == |nows| && k < |nows|
    ensures Schedule(start, interval, nows, lags)[k] == FireTime(nows[k], lags[k], Deadline(start, interval, k))
    decreases k
  {
    if k > 0 {
      ScheduleIsAbsolute(start + interval, interval, nows[1..], lags[1..], k - 1);
      DeadlineStep(start, interval, k - 1);
    }
  }

  /** No iteration proceeds before its deadline. */
  lemma ScheduleNeverEarly(start: real, interval: real, nows: seq<real>, lags: seq<real>, k: nat)
    requires |lags| == |nows| && k < |nows|
    requires forall i :: 0 <= i < |lags| ==> lags[i] >= 0.0
    ensures Schedule(start, interval, nows, lags)[k] >= Deadline(start, interval, k)
  {
    ScheduleIsAbsolute(start, interval, nows, lags, k);
  }

  /** Delays do not accumulate: when iteration k sees the same clock reading
      and the same oversleep, it proceeds at the same time however late the
      earlier iterations were. */
  lemma LateTicksDoNotShiftLaterOnes(start: real, interval: real,
                                     nows1: seq<real>, lags1: seq<real>,
                                     nows2: seq<real>, lags2: seq<real>, k: nat)
    requires |lags1| == |nows1| && |lags2| == |nows2| && k < |nows1| && k < |nows2|
    requires nows1[k] == nows2[k] && lags1[k] == lags2[k]
    ensures Schedule(start, interval, nows1, lags1)[k] == Schedule(start, interval, nows2, lags2)[k]
  {
    ScheduleIsAbsolute(start, interval, nows1, lags1, k);
    ScheduleIsAbsolute(start, interval, nows2, lags2, k);
  }

  /** With no scheduling delay (the reading at or before the deadline and
      no oversleep), iteration k proceeds exactly on its deadline. */
  lemma PunctualTicks(start: real, interval: real, nows: seq<real>, lags: seq<real>, k: nat)
    requires |lags| == |nows| && k < |nows|
    requires nows[k] <= Deadline(start, interval, k) && lags[k] == 0.0
    ensures Schedule(start, interval, nows, lags)[k] == Deadline(start, interval, k)
  {
    ScheduleIsAbsolute(start, interval, nows, lags, k);
  }

  /** `rate_limiter(tps)`: yields once per iteration; the result lists the
      times of the yields. */
  method RateLimiter(tps: real, start: real, nows: seq<real>, lags: seq<real>) returns (fired: seq<real>)
    requires |lags| == |nows|
    ensures fired == Schedule(start, Interval(tps), nows, lags)
  {
    var interval := Interval(tps);
    var nextT := start;
    fired := [];
    var i := 0;
    while i < |nows|
      invariant 0 <= i <= |nows| && |fired| == i
      invariant nextT == Deadline(start, interval, i)
      invariant forall k :: 0 <= k < i ==> fired[k] == FireTime(nows[k], lags[k], Deadline(start, interval, k))
    {
      var now := nows[i];
      var t := if now < nextT then nextT + lags[i] else now;
      fired := fired + [t];
      DeadlineStep(start, interval, i);
      nextT := nextT + interval;
      i := i + 1;
    }
    forall k | 0 <= k < |nows|
      ensures fired[k] == Schedule(start, interval, nows, lags)[k]
    {
      ScheduleIsAbsolute(start, interval, nows, lags, k);
    }
  }

  /** Latency observations of a run of calls. */
  function TotalObservations(outcomes: seq<HttpOutcome>): nat
  {
    if |outcomes| == 0 then 0
    else TotalObservations(outcomes[..|outcomes| - 1]) + LatencyObservations(outcomes[|outcomes| - 1])
  }

  lemma TotalObservationsStep(outcomes: seq<HttpOutcome>, i: nat)
    requires i < |outcomes|
    ensures TotalObservations(outcomes[..i + 1]) == TotalObservations(outcomes[..i]) + LatencyObservations(outcomes[i])
  {
    assert outcomes[..i + 1][..i] == outcomes[..i];
  }

  /** `rps_loop`: nothing at all when the rate is not positive; otherwise one
      call per iteration on the same timetable as the pacer, whatever the
      calls' outcomes, with every failure discarded (the transaction
      counters are outside what it may change). */
  method RpsLoop(rpc: Rpc, reg: Registry, methodName: string, params: seq<Json>, rps: real,
                 start: real, nows: seq<real>, lags: seq<real>, outcomes: seq<HttpOutcome>)
    returns (fired: seq<real>, reqs: seq<Request>)
    requires rpc.Valid() && |lags| == |nows| && |outcomes| == |nows|
    modifies rpc`id, rpc`rpcCounter, reg`rpcRequests, reg`rpcLatency
    ensures rpc.Valid()
    ensures rps <= 0.0 ==>
      && fired == [] && reqs == [] && rpc.id == old(rpc.id) && rpc.rpcCounter == old(rpc.rpcCounter)
      && reg.rpcRequests == old(reg.rpcRequests) && reg.rpcLatency == old(reg.rpcLatency)
    ensures rps > 0.0 ==>
      && fired == Schedule(start, Interval(rps), nows, lags)
      && |reqs| == |nows|
      && (forall k :: 0 <= k < |reqs| ==> reqs[k] == Request("2.0", methodName, params, old(rpc.id) + k + 1))
      && rpc.id == old(rpc.id) + |nows| && rpc.rpcCounter == old(rpc.rpcCounter) + |nows|
      && (|nows| == 0 ==> reg.rpcRequests == old(reg.rpcRequests) && reg.rpcLatency == old(reg.rpcLatency))
      && (|nows| > 0 ==> reg.rpcRequests == Bump(old(reg.rpcRequests), methodName, |nows|))
      && (|nows| > 0 ==> reg.rpcLatency == Bump(old(reg.rpcLatency), methodName, TotalObservations(outcomes)))
  {
    fired, reqs := [], [];
    if rps <= 0.0 {
      return;
    }
    ghost var id0, req0, lat0 := rpc.id, reg.rpcRequests, reg.rpcLatency;
    ghost var count0 := rpc.rpcCounter;
    var interval := Interval(rps);  // 1.0 / rps
    var nextT := start;
    var i := 0;
    while i < |nows|
      invariant 0 <= i <= |nows| && |fired| == i && |reqs| == i
      invariant rpc.Valid()
      invariant nextT == Deadline(start, interval, i)
      invariant forall k :: 0 <= k < i ==> fired[k] == FireTime(nows[k], lags[k], Deadline(start, interval, k))
      invariant forall k :: 0 <= k < i ==> reqs[k] == Request("2.0", methodName, params, id0 + k + 1)
      invariant rpc.id == id0 + i && rpc.rpcCounter == count0 + i
      invariant i == 0 ==> reg.rpcRequests == req0 && reg.rpcLatency == lat0
      invariant i > 0 ==> reg.rpcRequests == Bump(req0, methodName, i)
      invariant i > 0 ==> reg.rpcLatency == Bump(lat0, methodName, TotalObservations(outcomes[..i]))
    {
      var now := nows[i];
      fired := fired + [FireTime(now, lags[i], nextT)];  // sleeps while now < next_t
      var req, _ := rpc.Call(reg, methodName, params, outcomes[i]);
      reqs := reqs + [req];
      TotalObservationsStep(outcomes, i);
      if i > 0 {
        BumpTwice(req0, methodName, i, 1);
        BumpTwice(lat0, methodName, TotalObservations(outcomes[..i]), LatencyObservations(outcomes[i]));
      }
      DeadlineStep(start, interval, i);
      nextT := nextT + interval;
      i := i + 1;
    }
    assert outcomes[..i] == outcomes;
    forall k | 0 <= k < |nows|
      ensures fired[k] == Schedule(start, interval, nows, lags)[k]
    {
      ScheduleIsAbsolute(start, interval, nows, lags, k);
    }
  }
}
