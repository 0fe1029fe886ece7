/** The process-wide metrics the load generator writes and an external
    scraper reads (loadgen/loadgen.py:29-42). Counters are plain integers;
    the latency histogram is modelled by the number of observations it has
    received per method, which is what the model's properties are about. */
module Metrics {

  /** A labelled counter's value for one label; a label never touched reads 0. */
  function Count(m: map<string, nat>, key: string): nat
  {
    if key in m then m[key] else 0
  }

  /** `counter.labels(key).inc(amount)`: only that label moves, by exactly `amount`. */
  function Bump(m: map<string, nat>, key: string, amount: nat): (r: map<string, nat>)
    ensures Count(r, key) == Count(m, key) + amount
    ensures forall k :: k != key ==> Count(r, k) == Count(m, k)
    ensures r.Keys == m.Keys + {key}
  {
    m[key := Count(m, key) + amount]
  }

  /** Two increments of one label add up. */
  lemma BumpTwice(m: map<string, nat>, key: string, a: nat, b: nat)
    ensures Bump(Bump(m, key, a), key, b) == Bump(m, key, a + b)
  {
  }

  class Registry {
    var txSent: nat                      // loadgen_tx_sent_total
    var txOk: nat                        // loadgen_tx_ok_total
    var txErr: nat                       // loadgen_tx_error_total
    var rpcRequests: map<string, nat>    // loadgen_rpc_requests_total by method
    var rpcLatency: map<string, nat>     // observations of loadgen_rpc_latency_seconds by method
    var achievedTps: real                // loadgen_achieved_tps
    var rps: real                        // loadgen_rps
    var mgasPerSecond: real              // loadgen_mgas_per_s
    var failureRate: real                // loadgen_failure_rate

    constructor ()
      ensures txSent == 0 && txOk == 0 && txErr == 0
      ensures rpcRequests == map[] && rpcLatency == map[]
      ensures achievedTps == 0.0 && rps == 0.0 && mgasPerSecond == 0.0 && failureRate == 0.0
    {
      txSent, txOk, txErr := 0, 0, 0;
      rpcRequests, rpcLatency := map[], map[];
      achievedTps, rps, mgasPerSecond, failureRate := 0.0, 0.0, 0.0, 0.0;
    }

    /** Every finished transaction attempt was counted as exactly one of ok
        or error. It holds whenever no attempt is in flight. */
    predicate Settled()
      reads this
    {
      txSent == txOk + txErr
    }
  }
}
