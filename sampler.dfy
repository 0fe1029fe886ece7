/** The metrics sampler, `sampler` in loadgen/loadgen.py:139-180: its state
    is the counter snapshot and the last seen chain head; each window diffs
    the counters, drains the transport's call counter and derives MGas/s from
    the newest block. The sleep between windows is the caller's business:
    one call of Step is one pass of the loop. */
module MetricsSampler {
  import opened Wrappers
  import opened JsonValue
  import opened Metrics
  import opened RpcTransport

  /** `okd / window if window > 0 else 0.0` */
  function AchievedTps(okd: int, window: real): (r: real)
    ensures window > 0.0 ==> r * window == okd as real
    ensures window <= 0.0 ==> r == 0.0
    ensures okd >= 0 ==> r >= 0.0
  {
    if window > 0.0 then okd as real / window else 0.0
  }

  /** `errd / total if total > 0 else 0.0`: defined for a quiet window, and a
      proportion whenever the counters did not go backwards. */
  function FailureRate(okd: int, errd: int): (r: real)
    ensures okd + errd > 0 ==> r * (okd + errd) as real == errd as real
    ensures okd + errd <= 0 ==> r == 0.0
    ensures okd >= 0 && errd >= 0 ==> 0.0 <= r <= 1.0
    ensures okd >= 0 && errd >= 0 ==> (r == 0.0 <==> errd == 0) && (r == 1.0 <==> okd == 0 && errd > 0)
  {
    var total := okd + errd;
    if total > 0 then errd as real / total as real else 0.0
  }

  /** `max(ts - pts, 1)`: the block time in seconds, never below one. */
  function BlockSeconds(ts: int, pts: int): (dt: int)
    ensures dt >= 1 && dt >= ts - pts
    ensures dt == ts - pts || dt == 1
  {
    if ts - pts > 1 then ts - pts else 1
  }

  /** `(gas / dt) / 1_000_000`: millions of gas per second of block time. */
  function MGasPerSecond(gas: int, ts: int, pts: int): (r: real)
    ensures r * BlockSeconds(ts, pts) as real * 1000000.0 == gas as real
    ensures gas >= 0 ==> r >= 0.0
  {
    (gas as real / BlockSeconds(ts, pts) as real) / 1000000.0
  }

  /** `rpc.drain_rpc_counter() / window`: the calls of the window per
      second; a zero window raises instead (the caller's business). */
  function RequestRate(drained: nat, window: real): (r: real)
    requires window != 0.0
    ensures r * window == drained as real
    ensures window > 0.0 ==> r >= 0.0
  {
    drained as real / window
  }

  /** A window of five seconds after ok 20 -> 45 and errors 5 -> 10, with 300
      calls drained: 5 tx/s, a failure rate of 5/30 and 60 requests/s. */
  lemma WindowExample()
    ensures AchievedTps(45 - 20, 5.0) == 5.0
    ensures FailureRate(45 - 20, 10 - 5) == 5.0 / 30.0
    ensures RequestRate(300, 5.0) == 60.0
  {
  }

  /** 15,000,000 gas in a block 12 seconds after its parent is 1.25 MGas/s. */
  lemma MGasExample()
    ensures BlockSeconds(112, 100) == 12 && MGasPerSecond(15_000_000, 112, 100) == 1.25
  {
  }

  const LatestParams: seq<Json> := [JStr("latest"), JBool(false)]

  /** The block number read from an eth_getBlockByNumber outcome. */
  function HeadNumber(head: HttpOutcome): Option<int>
  {
    match Interpret(head)
    case Err(_) => None
    case Ok(blk) => QuantityField(blk, "number")
  }

  /** Whether the chain part of a window asks for the parent block: only
      when the head is readable, newer than `lastNum`, and names a parent. */
  predicate FetchesParent(lastNum: int, head: HttpOutcome)
  {
    && HeadNumber(head).Some? && HeadNumber(head).value > lastNum
    && Field(Interpret(head).value, "parentHash").Some?
  }

  /** The chain part of a window (loadgen/loadgen.py:165-180): the new
      (last_num, last_mgas), or the failure that ends the sampler. A head
      that is not newer leaves both as they were; a newer one replaces them
      with its number and its MGas/s. */
  function ChainUpdate(lastNum: int, lastMgas: real, head: HttpOutcome, parent: HttpOutcome)
    : (r: Result<(int, real), Failure>)
    ensures r.Ok? ==> r.value.0 >= lastNum
    ensures r.Ok? && r.value.0 == lastNum ==> r.value.1 == lastMgas
    ensures HeadNumber(head).Some? && HeadNumber(head).value <= lastNum ==> r == Ok((lastNum, lastMgas))
    ensures HeadNumber(head).None? ==> r.Err?
    ensures Interpret(head).Err? ==> r == Err(Interpret(head).error)
    ensures Interpret(head).Ok? && HeadNumber(head).None? ==> r == Err(ConversionError)
    ensures (HeadNumber(head).Some? && HeadNumber(head).value > lastNum &&
             Field(Interpret(head).value, "parentHash").None?) ==> r == Err(ConversionError)
    ensures FetchesParent(lastNum, head) && Interpret(parent).Err? ==> r == Err(Interpret(parent).error)
    ensures FetchesParent(lastNum, head) && Interpret(parent).Ok? ==>
      var blk, par := Interpret(head).value, Interpret(parent).value;
      var ts, pts, gas := QuantityField(blk, "timestamp"), QuantityField(par, "timestamp"),
                          QuantityField(blk, "gasUsed");
      && (ts.None? || pts.None? || gas.None? ==> r == Err(ConversionError))
      && (ts.Some? && pts.Some? && gas.Some? ==>
            r == Ok((HeadNumber(head).value, MGasPerSecond(gas.value, ts.value, pts.value))))
    ensures r.Ok? && r.value.0 != lastNum ==>
      && FetchesParent(lastNum, head) && r.value.0 == HeadNumber(head).value
      && Interpret(parent).Ok?
      && var blk, par := Interpret(head).value, Interpret(parent).value;
      && QuantityField(blk, "timestamp").Some? && QuantityField(par, "timestamp").Some?
      && QuantityField(blk, "gasUsed").Some?
      && r.value.1 == MGasPerSecond(QuantityField(blk, "gasUsed").value,
                                    QuantityField(blk, "timestamp").value,
                                    QuantityField(par, "timestamp").value)
  {
    match Interpret(head)
    case Err(e) => Err(e)
    case Ok(blk) =>
      match QuantityField(blk, "number")
      case None => Err(ConversionError)
      case Some(num) =>
        if num <= lastNum then Ok((lastNum, lastMgas))
        else match Field(blk, "parentHash")
          case None => Err(ConversionError)
          case Some(_) =>
            match Interpret(parent)
            case Err(e) => Err(e)
            case Ok(par) =>
              var ts, pts := QuantityField(blk, "timestamp"), QuantityField(par, "timestamp");
              var gas := QuantityField(blk, "gasUsed");
              if ts.None? || pts.None? || gas.None? then Err(ConversionError)
              else Ok((num, MGasPerSecond(gas.value, ts.value, pts.value)))
  }

  /** Two windows in a row on a chain that did not advance publish the same
      MGas/s: the gauge is sticky and never falls back to zero. */
  lemma QuietChainKeepsMGas(lastNum: int, lastMgas: real,
                            head1: HttpOutcome, parent1: HttpOutcome,
                            head2: HttpOutcome, parent2: HttpOutcome)
    requires ChainUpdate(lastNum, lastMgas, head1, parent1).Ok?
    requires HeadNumber(head2).Some? && HeadNumber(head2).value <= HeadNumber(head1).value
    ensures var s := ChainUpdate(lastNum, lastMgas, head1, parent1).value;
            ChainUpdate(s.0, s.1, head2, parent2) == Ok(s)
  {
    var s := ChainUpdate(lastNum, lastMgas, head1, parent1).value;
    assert s.0 >= HeadNumber(head1).value by {
      if HeadNumber(head1).value > lastNum {
        assert FetchesParent(lastNum, head1);
      }
    }
  }

  class Sampler {
    var lastOk: int      // TX_OK at the previous window
    var lastErr: int     // TX_ERR at the previous window
    var lastNum: int     // number of the last block MGas/s was derived from
    var lastMgas: real   // the MGas/s last published

    constructor (ok: int, err: int, num: int)
      ensures lastOk == ok && lastErr == err && lastNum == num && lastMgas == 0.0
    {
      lastOk, lastErr, lastNum, lastMgas := ok, err, num, 0.0;
    }

    /** One window (loadgen/loadgen.py:152-180). The rate gauges and the
        snapshot are written first; a zero window then fails on the RPS
        division after the counter was drained; the chain part follows
        ChainUpdate, and its calls are counted towards the next window. The
        ok and error counters themselves are never written. */
    method Step(rpc: Rpc, reg: Registry, window: real, head: HttpOutcome, parent: HttpOutcome)
      returns (r: Result<(), Failure>)
      requires rpc.Valid()
      modifies this, rpc`id, rpc`rpcCounter, rpc`drainedAt
      modifies reg`rpcRequests, reg`rpcLatency, reg`achievedTps, reg`failureRate, reg`rps, reg`mgasPerSecond
      ensures rpc.Valid()
      ensures lastOk == reg.txOk && lastErr == reg.txErr
      ensures reg.achievedTps == AchievedTps(reg.txOk - old(lastOk), window)
      ensures reg.failureRate == FailureRate(reg.txOk - old(lastOk), reg.txErr - old(lastErr))
      ensures window == 0.0 ==>
        && r == Err(ZeroDivision) && rpc.id == old(rpc.id) && rpc.rpcCounter == 0
        && reg.rps == old(reg.rps) && reg.mgasPerSecond == old(reg.mgasPerSecond)
        && lastNum == old(lastNum) && lastMgas == old(lastMgas)
        && reg.rpcRequests == old(reg.rpcRequests) && reg.rpcLatency == old(reg.rpcLatency)
      ensures window != 0.0 ==>
        && reg.rps == RequestRate(old(rpc.rpcCounter), window)
        && rpc.id == old(rpc.id) + (if FetchesParent(old(lastNum), head) then 2 else 1)
        && rpc.rpcCounter == rpc.id - old(rpc.id)
        && reg.rpcRequests ==
             (var once := Bump(old(reg.rpcRequests), "eth_getBlockByNumber", 1);
              if FetchesParent(old(lastNum), head) then Bump(once, "eth_getBlockByHash", 1) else once)
        && reg.rpcLatency ==
             (var once := Bump(old(reg.rpcLatency), "eth_getBlockByNumber", LatencyObservations(head));
              if FetchesParent(old(lastNum), head)
              then Bump(once, "eth_getBlockByHash", LatencyObservations(parent)) else once)
        && var u := ChainUpdate(old(lastNum), old(lastMgas), head, parent);
        && (r.Ok? <==> u.Ok?)
        && (u.Ok? ==> (lastNum, lastMgas) == u.value && reg.mgasPerSecond == lastMgas)
        && (u.Err? ==> r == Err(u.error) && lastNum == old(lastNum) && lastMgas == old(lastMgas)
                       && reg.mgasPerSecond == old(reg.mgasPerSecond))
    {
      // 1) achieved TPS and failure rate over the window
      var ok, err := reg.txOk, reg.txErr;
      var okd, errd := ok - lastOk, err - lastErr;
      reg.achievedTps := AchievedTps(okd, window);
      reg.failureRate := FailureRate(okd, errd);
      lastOk, lastErr := ok, err;

      // 2) RPS from the transport's counter
      var drained := rpc.Drain();
      if window == 0.0 {
        r := Err(ZeroDivision);
        return;
      }
      reg.rps := RequestRate(drained, window);

      // 3) MGas/s from a new head block
      r := UpdateChain(rpc, reg, head, parent);
    }

    /** Part 3 of a window: read the head, and the parent when the head is
        newer, then publish MGas/s as ChainUpdate says. */
    method UpdateChain(rpc: Rpc, reg: Registry, head: HttpOutcome, parent: HttpOutcome)
      returns (r: Result<(), Failure>)
      requires rpc.Valid()
      modifies this`lastNum, this`lastMgas, rpc`id, rpc`rpcCounter
      modifies reg`rpcRequests, reg`rpcLatency, reg`mgasPerSecond
      ensures rpc.Valid()
      ensures rpc.id == old(rpc.id) + (if FetchesParent(old(lastNum), head) then 2 else 1)
      ensures rpc.rpcCounter == old(rpc.rpcCounter) + (rpc.id - old(rpc.id))
      ensures reg.rpcRequests ==
        (var once := Bump(old(reg.rpcRequests), "eth_getBlockByNumber", 1);
         if FetchesParent(old(lastNum), head) then Bump(once, "eth_getBlockByHash", 1) else once)
      ensures reg.rpcLatency ==
        (var once := Bump(old(reg.rpcLatency), "eth_getBlockByNumber", LatencyObservations(head));
         if FetchesParent(old(lastNum), head)
         then Bump(once, "eth_getBlockByHash", LatencyObservations(parent)) else once)
      ensures var u := ChainUpdate(old(lastNum), old(lastMgas), head, parent);
        && (r.Ok? <==> u.Ok?)
        && (u.Ok? ==> (lastNum, lastMgas) == u.value && reg.mgasPerSecond == lastMgas)
        && (u.Err? ==> r == Err(u.error) && lastNum == old(lastNum) && lastMgas == old(lastMgas)
                       && reg.mgasPerSecond == old(reg.mgasPerSecond))
    {
      var _, blkRes := rpc.Call(reg, "eth_getBlockByNumber", LatestParams, head);
      if blkRes.Err? {
        r := Err(blkRes.error);
        return;
      }
      var blk := blkRes.value;
      var num := QuantityField(blk, "number");
      if num.None? {
        r := Err(ConversionError);
        return;
      }
      if num.value > lastNum {
        var parentHash := Field(blk, "parentHash");
        if parentHash.None? {
          r := Err(ConversionError);
          return;
        }
        var _, parRes := rpc.Call(reg, "eth_getBlockByHash", [parentHash.value, JBool(false)], parent);
        if parRes.Err? {
          r := Err(parRes.error);
          return;
        }
        var ts := QuantityField(blk, "timestamp");
        var pts := QuantityField(parRes.value, "timestamp");
        var gas := QuantityField(blk, "gasUsed");
        if ts.None? || pts.None? || gas.None? {
          r := Err(ConversionError);
          return;
        }
        lastMgas := MGasPerSecond(gas.value, ts.value, pts.value);
        reg.mgasPerSecond := lastMgas;
        lastNum := num.value;
      } else {
        // no new block yet: publish the previous value again
        reg.mgasPerSecond := lastMgas;
      }
      r := Ok(());
    }
  }

  /** The start of `sampler`: snapshot the counters, then prime the block
      number from the current head (no gauge is written). */
  method StartSampler(rpc: Rpc, reg: Registry, head: HttpOutcome) returns (r: Result<Sampler, Failure>)
    requires rpc.Valid()
    modifies rpc`id, rpc`rpcCounter, reg`rpcRequests, reg`rpcLatency
    ensures rpc.Valid() && rpc.id == old(rpc.id) + 1 && rpc.rpcCounter == old(rpc.rpcCounter) + 1
    ensures reg.rpcRequests == Bump(old(reg.rpcRequests), "eth_getBlockByNumber", 1)
    ensures reg.rpcLatency == Bump(old(reg.rpcLatency), "eth_getBlockByNumber", LatencyObservations(head))
    ensures r.Ok? <==> HeadNumber(head).Some?
    ensures r.Err? && Interpret(head).Err? ==> r.error == Interpret(head).error
    ensures r.Ok? ==>
      && fresh(r.value)
      && r.value.lastOk == reg.txOk && r.value.lastErr == reg.txErr
      && r.value.lastNum == HeadNumber(head).value && r.value.lastMgas == 0.0
  {
    var ok, err := reg.txOk, reg.txErr;
    var _, headRes := rpc.Call(reg, "eth_getBlockByNumber", LatestParams, head);
    if headRes.Err? {
      r := Err(headRes.error);
      return;
    }
    var num := QuantityField(headRes.value, "number");
    if num.None? {
      r := Err(ConversionError);
      return;
    }
    var s := new Sampler(ok, err, num.value);
    r := Ok(s);
  }
}
