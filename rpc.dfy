/** The shared JSON-RPC transport, class `Rpc` of loadgen/loadgen.py:49-86.
    The HTTP exchange itself is an input: what `post` did and, if it
    returned, the status code and the decoded body. */
module RpcTransport {
  import opened Wrappers
  import opened JsonValue
  import opened Metrics

  /** A JSON-RPC 2.0 request object (section 4 of the JSON-RPC 2.0
      specification): version, method, parameters and id. */
  datatype Request = Request(jsonrpc: string, methodName: string, params: seq<Json>, id: nat)

  /** What `r.json()` produced: nothing (it raised) or a JSON value. */
  datatype Body = Undecodable | Decoded(data: Json)

  /** What `self.c.post(...)` did: raised, or returned a response. */
  datatype HttpOutcome = PostFailed | Replied(status: int, body: Body)

  /** The exceptions the core raises and the callers count or discard. */
  datatype Failure =
    | TransportError          // the POST itself raised
    | StatusError(code: int)  // raise_for_status() on a non-2xx status
    | DecodeError             // the body is not JSON, or not an object holding "result"
    | RpcError(error: Json)   // an "error" member (section 5 of the JSON-RPC 2.0 specification)
    | ConversionError         // a result field is missing, cannot be indexed or cannot be
                              // converted: Python's ValueError, TypeError or KeyError
    | NoAccounts              // eth_accounts returned nothing usable as a sender
    | ZeroDivision            // a sampling window of length zero

  /** httpx's raise_for_status() accepts exactly the 2xx statuses. */
  predicate StatusOk(status: int)
  {
    200 <= status < 300
  }

  /** The value `call` returns, or the exception it raises, for one outcome
      (loadgen/loadgen.py:66-74): status first, then decoding, then an
      "error" member, then the "result" member. */
  function Interpret(o: HttpOutcome): (r: Result<Json, Failure>)
    ensures r.Ok? <==>
      && o.Replied? && StatusOk(o.status) && o.body.Decoded? && o.body.data.JObj?
      && "error" !in o.body.data.fields && "result" in o.body.data.fields
    ensures r.Ok? ==> r.value == o.body.data.fields["result"]
    ensures (o.Replied? && StatusOk(o.status) && o.body.Decoded? && o.body.data.JObj? &&
             "error" in o.body.data.fields) ==> r == Err(RpcError(o.body.data.fields["error"]))
    ensures r.Err? && r.error.TransportError? <==> o.PostFailed?
  {
    match o
    case PostFailed => Err(TransportError)
    case Replied(status, body) =>
      if !StatusOk(status) then Err(StatusError(status))
      else match body
        case Undecodable => Err(DecodeError)
        case Decoded(data) =>
          match data
          case JObj(m) =>
            if "error" in m then Err(RpcError(m["error"]))
            else if "result" in m then Ok(m["result"])
            else Err(DecodeError)
          case _ => Err(DecodeError)
  }

  /** Latency observations one call records for its method: one at line 68
      once `post` has returned, one more at line 77 whenever the call raises. */
  function LatencyObservations(o: HttpOutcome): nat
  {
    (if o.Replied? then 1 else 0) + (if Interpret(o).Err? then 1 else 0)
  }

  /** A call that succeeds or whose POST fails records one latency
      observation; every other failure records two. */
  lemma ObservationsByOutcome(o: HttpOutcome)
    ensures LatencyObservations(o) == 1 <==> o.PostFailed? || Interpret(o).Ok?
    ensures LatencyObservations(o) == 2 <==> o.Replied? && Interpret(o).Err?
    ensures 1 <= LatencyObservations(o) <= 2
  {
  }

  class Rpc {
    var id: nat                // self._id: the last request id handed out
    var rpcCounter: nat        // self._rpc_counter: calls since the last drain
    ghost var drainedAt: nat   // the value of id at the last drain

    /** The counter always equals the number of ids handed out since the
        last drain. */
    ghost predicate Valid()
      reads this
    {
      drainedAt <= id && rpcCounter == id - drainedAt
    }

    constructor ()
      ensures Valid() && id == 0 && rpcCounter == 0
    {
      id, rpcCounter := 0, 0;
      drainedAt := 0;
    }

    /** `call(method, params)`: takes the next id, counts the call for the
        method and for the drainable counter before sending, whatever the
        outcome, and records latency as LatencyObservations says. */
    method Call(reg: Registry, methodName: string, params: seq<Json>, outcome: HttpOutcome)
      returns (req: Request, r: Result<Json, Failure>)
      requires Valid()
      modifies this`id, this`rpcCounter, reg`rpcRequests, reg`rpcLatency
      ensures Valid()
      ensures id == old(id) + 1 && rpcCounter == old(rpcCounter) + 1
      ensures req == Request("2.0", methodName, params, id)
      ensures reg.rpcRequests == Bump(old(reg.rpcRequests), methodName, 1)
      ensures reg.rpcLatency == Bump(old(reg.rpcLatency), methodName, LatencyObservations(outcome))
      ensures r == Interpret(outcome)
    {
      id := id + 1;
      var rid := id;
      req := Request("2.0", methodName, params, rid);
      reg.rpcRequests := Bump(reg.rpcRequests, methodName, 1);
      rpcCounter := rpcCounter + 1;
      var before := reg.rpcLatency;
      match outcome {
        case PostFailed =>
          r := Err(TransportError);
        case Replied(_, _) =>
          reg.rpcLatency := Bump(reg.rpcLatency, methodName, 1);
          r := Interpret(outcome);
      }
      if r.Err? {
        reg.rpcLatency := Bump(reg.rpcLatency, methodName, 1);
      }
      assert reg.rpcLatency == Bump(before, methodName, LatencyObservations(outcome));
    }

    /** `drain_rpc_counter()`: the number of calls since the previous drain;
        the counter restarts from zero. */
    method Drain() returns (v: nat)
      requires Valid()
      modifies this`rpcCounter, this`drainedAt
      ensures Valid()
      ensures v == old(rpcCounter) && v == id - old(drainedAt)
      ensures rpcCounter == 0 && drainedAt == id
    {
      v := rpcCounter;
      rpcCounter := 0;
      drainedAt := id;
    }
  }
}
