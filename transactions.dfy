/** The transaction path: sender discovery (`get_sender`,
    loadgen/loadgen.py:89-96) and one transfer attempt (`send_tx`,
    loadgen/loadgen.py:99-125) with its EIP-1559 fee choice. The transfer
    value arrives already in wei: the float conversion of `to_wei_hex` is
    not part of this model. */
module Transactions {
  import opened Wrappers
  import opened JsonValue
  import opened Numerals
  import opened Metrics
  import opened RpcTransport

  const OneGwei: int := 1_000_000_000
  const TransferGas: int := 21000

  datatype Fees = Fees(priority: int, maxFee: int)

  /** maxPriorityFeePerGas is the estimate floored at one gwei, and
      maxFeePerGas is twice that. */
  function ChooseFees(tip: int): (f: Fees)
    ensures f.priority >= OneGwei && f.priority >= tip
    ensures f.priority == tip || f.priority == OneGwei
    ensures f.maxFee == 2 * f.priority
  {
    var priority := if tip > OneGwei then tip else OneGwei;
    Fees(priority, priority * 2)
  }

  /** An estimate of half a gwei is raised to one gwei, with a two-gwei cap. */
  lemma FeeFloorExample()
    ensures ChooseFees(500_000_000) == Fees(1_000_000_000, 2_000_000_000)
  {
  }

  /** `int(tip, 16) if isinstance(tip, str) else int(tip)`: a string must be
      hexadecimal (ValueError otherwise), a number or boolean converts, and
      null, a list or an object raise TypeError; both are a
      `ConversionError`. */
  function TipWei(tip: Json): (r: Result<int, Failure>)
    ensures tip.JStr? ==> (r.Ok? <==> ParseHex(tip.s).Some?)
    ensures tip.JStr? && r.Ok? ==> r.value == ParseHex(tip.s).value
    ensures tip.JNum? ==> r == Ok(tip.n)
    ensures tip.JNull? || tip.JArr? || tip.JObj? ==> r == Err(ConversionError)
  {
    match tip
    case JStr(s) => (match ParseHex(s) case Some(v) => Ok(v) case None => Err(ConversionError))
    case JNum(n) => Ok(n)
    case JBool(b) => Ok(if b then 1 else 0)
    case _ => Err(ConversionError)
  }

  /** The fee estimate one eth_maxPriorityFeePerGas outcome yields, or the
      failure that ends the attempt before anything is submitted. */
  function FeeEstimate(o: HttpOutcome): (r: Result<int, Failure>)
    ensures r.Ok? <==> Interpret(o).Ok? && TipWei(Interpret(o).value).Ok?
    ensures r.Ok? ==> r.value == TipWei(Interpret(o).value).value
    ensures Interpret(o).Err? ==> r == Err(Interpret(o).error)
  {
    match Interpret(o)
    case Err(e) => Err(e)
    case Ok(tip) => TipWei(tip)
  }

  /** The single parameter of eth_sendTransaction: an object with exactly
      the six fields of an EIP-1559 transfer (no legacy gasPrice). */
  function TxObject(sender: Json, to: Json, valueWei: int, fees: Fees): (tx: Json)
    ensures tx.JObj?
    ensures tx.fields.Keys == {"from", "to", "value", "gas", "maxPriorityFeePerGas", "maxFeePerGas"}
  {
    JObj(map[
      "from" := sender,
      "to" := to,
      "value" := JStr(Hex(valueWei)),
      "gas" := JStr(Hex(TransferGas)),
      "maxPriorityFeePerGas" := JStr(Hex(fees.priority)),
      "maxFeePerGas" := JStr(Hex(fees.maxFee))
    ])
  }

  /** What the node reads from the submitted object: the addresses as given,
      21000 gas, the chosen fees and the value, so the fee floor and the
      two-times cap survive the hex encoding. */
  lemma TxObjectDecodes(sender: Json, to: Json, valueWei: int, tip: int)
    ensures var tx := TxObject(sender, to, valueWei, ChooseFees(tip));
      && Field(tx, "from") == Some(sender) && Field(tx, "to") == Some(to)
      && QuantityField(tx, "gas") == Some(21000)
      && QuantityField(tx, "value") == Some(valueWei)
      && QuantityField(tx, "maxPriorityFeePerGas") == Some(ChooseFees(tip).priority)
      && QuantityField(tx, "maxFeePerGas") == Some(2 * ChooseFees(tip).priority)
      && ChooseFees(tip).priority >= OneGwei
  {
    TxObjectFields(sender, to, valueWei, ChooseFees(tip));
  }

  /** Each field of the object reads back as what was put in it. */
  lemma TxObjectFields(sender: Json, to: Json, valueWei: int, fees: Fees)
    ensures var tx := TxObject(sender, to, valueWei, fees);
      && Field(tx, "from") == Some(sender) && Field(tx, "to") == Some(to)
      && QuantityField(tx, "gas") == Some(TransferGas)
      && QuantityField(tx, "value") == Some(valueWei)
      && QuantityField(tx, "maxPriorityFeePerGas") == Some(fees.priority)
      && QuantityField(tx, "maxFeePerGas") == Some(fees.maxFee)
  {
    var m := TxObject(sender, to, valueWei, fees).fields;
    assert m["from"] == sender && m["to"] == to;
    HexFieldReadsBack(m, "gas", TransferGas);
    HexFieldReadsBack(m, "value", valueWei);
    HexFieldReadsBack(m, "maxPriorityFeePerGas", fees.priority);
    HexFieldReadsBack(m, "maxFeePerGas", fees.maxFee);
  }

  /** A field written as `hex(n)` reads back as n. */
  lemma HexFieldReadsBack(m: map<string, Json>, key: string, n: int)
    requires key in m && m[key] == JStr(Hex(n))
    ensures QuantityField(JObj(m), key) == Some(n)
  {
    HexRoundTrip(n);
  }

  /** Python truthiness of a decoded value. */
  predicate Falsy(j: Json)
  {
    match j
    case JNull => true
    case JBool(b) => !b
    case JNum(n) => n == 0
    case JStr(s) => |s| == 0
    case JArr(xs) => |xs| == 0
    case JObj(m) => |m| == 0
  }

  /** `if not accs: raise ...; return accs[0]`. */
  function SelectSender(accs: Json): (r: Result<Json, Failure>)
    ensures Falsy(accs) <==> r == Err(NoAccounts)
    ensures accs.JArr? && |accs.items| > 0 ==> r == Ok(accs.items[0])
    ensures accs.JStr? && |accs.s| > 0 ==> r == Ok(JStr(accs.s[..1]))
    ensures r.Ok? <==> (accs.JArr? && |accs.items| > 0) || (accs.JStr? && |accs.s| > 0)
  {
    if Falsy(accs) then Err(NoAccounts)
    else match accs
      case JArr(xs) => Ok(xs[0])
      case JStr(s) => Ok(JStr(s[..1]))
      case _ => Err(ConversionError)  // indexing a number, a boolean or an object raises
  }

  /** `get_sender`: one eth_accounts call; it fails when the call fails or
      the account list is empty, and otherwise yields the first account. */
  method GetSender(rpc: Rpc, reg: Registry, outcome: HttpOutcome) returns (req: Request, r: Result<Json, Failure>)
    requires rpc.Valid()
    modifies rpc`id, rpc`rpcCounter, reg`rpcRequests, reg`rpcLatency
    ensures rpc.Valid() && rpc.id == old(rpc.id) + 1
    ensures req == Request("2.0", "eth_accounts", [], rpc.id)
    ensures reg.rpcRequests == Bump(old(reg.rpcRequests), "eth_accounts", 1)
    ensures reg.rpcLatency == Bump(old(reg.rpcLatency), "eth_accounts", LatencyObservations(outcome))
    ensures r == match Interpret(outcome) case Err(e) => Err(e) case Ok(accs) => SelectSender(accs)
  {
    var res;
    req, res := rpc.Call(reg, "eth_accounts", [], outcome);
    match res {
      case Err(e) => r := Err(e);
      case Ok(accs) => r := SelectSender(accs);
    }
  }

  /** `send_tx`: counts the attempt, fetches the fee estimate, and submits
      the transfer only when the estimate was obtained; exactly one of the
      ok and error counters moves, and a failure is returned after it has
      been counted. */
  method SendTx(rpc: Rpc, reg: Registry, sender: Json, to: Json, valueWei: int,
                tipOutcome: HttpOutcome, sendOutcome: HttpOutcome)
    returns (reqs: seq<Request>, r: Result<(), Failure>)
    requires rpc.Valid()
    modifies rpc`id, rpc`rpcCounter, reg`rpcRequests, reg`rpcLatency, reg`txSent, reg`txOk, reg`txErr
    ensures rpc.Valid()
    ensures reg.txSent == old(reg.txSent) + 1
    ensures r.Ok? ==> reg.txOk == old(reg.txOk) + 1 && reg.txErr == old(reg.txErr)
    ensures r.Err? ==> reg.txErr == old(reg.txErr) + 1 && reg.txOk == old(reg.txOk)
    ensures old(reg.Settled()) ==> reg.Settled()
    ensures |reqs| >= 1 && reqs[0] == Request("2.0", "eth_maxPriorityFeePerGas", [], old(rpc.id) + 1)
    ensures FeeEstimate(tipOutcome).Err? ==>
      && |reqs| == 1 && rpc.id == old(rpc.id) + 1
      && r == Err(FeeEstimate(tipOutcome).error)
      && reg.rpcRequests == Bump(old(reg.rpcRequests), "eth_maxPriorityFeePerGas", 1)
      && reg.rpcLatency == Bump(old(reg.rpcLatency), "eth_maxPriorityFeePerGas", LatencyObservations(tipOutcome))
    ensures FeeEstimate(tipOutcome).Ok? ==>
      && |reqs| == 2 && rpc.id == old(rpc.id) + 2
      && reqs[1] == Request("2.0", "eth_sendTransaction",
                            [TxObject(sender, to, valueWei, ChooseFees(FeeEstimate(tipOutcome).value))],
                            old(rpc.id) + 2)
      && (r.Ok? <==> Interpret(sendOutcome).Ok?)
      && (r.Err? ==> r.error == Interpret(sendOutcome).error)
      && reg.rpcRequests == Bump(Bump(old(reg.rpcRequests), "eth_maxPriorityFeePerGas", 1),
                                 "eth_sendTransaction", 1)
      && reg.rpcLatency == Bump(Bump(old(reg.rpcLatency), "eth_maxPriorityFeePerGas",
                                     LatencyObservations(tipOutcome)),
                                "eth_sendTransaction", LatencyObservations(sendOutcome))
  {
    reg.txSent := reg.txSent + 1;
    var tipReq, fee := FetchTip(rpc, reg, tipOutcome);
    reqs := [tipReq];
    if fee.Err? {
      reg.txErr := reg.txErr + 1;
      r := Err(fee.error);
      return;
    }
    var sendReq;
    sendReq, r := Submit(rpc, reg, TxObject(sender, to, valueWei, ChooseFees(fee.value)), sendOutcome);
    reqs := reqs + [sendReq];
  }

  /** The first half of `send_tx`: one eth_maxPriorityFeePerGas call and
      the tip read from its result. */
  method FetchTip(rpc: Rpc, reg: Registry, tipOutcome: HttpOutcome)
    returns (req: Request, fee: Result<int, Failure>)
    requires rpc.Valid()
    modifies rpc`id, rpc`rpcCounter, reg`rpcRequests, reg`rpcLatency
    ensures rpc.Valid() && rpc.id == old(rpc.id) + 1
    ensures req == Request("2.0", "eth_maxPriorityFeePerGas", [], rpc.id)
    ensures reg.rpcRequests == Bump(old(reg.rpcRequests), "eth_maxPriorityFeePerGas", 1)
    ensures reg.rpcLatency == Bump(old(reg.rpcLatency), "eth_maxPriorityFeePerGas", LatencyObservations(tipOutcome))
    ensures fee == FeeEstimate(tipOutcome)
  {
    var tipRes;
    req, tipRes := rpc.Call(reg, "eth_maxPriorityFeePerGas", [], tipOutcome);
    fee := match tipRes case Err(e) => Err(e) case Ok(tip) => TipWei(tip);
  }

  /** The second half of `send_tx`: one eth_sendTransaction call, then the
      ok or the error counter. */
  method Submit(rpc: Rpc, reg: Registry, tx: Json, sendOutcome: HttpOutcome)
    returns (req: Request, r: Result<(), Failure>)
    requires rpc.Valid()
    modifies rpc`id, rpc`rpcCounter, reg`rpcRequests, reg`rpcLatency, reg`txOk, reg`txErr
    ensures rpc.Valid() && rpc.id == old(rpc.id) + 1
    ensures req == Request("2.0", "eth_sendTransaction", [tx], rpc.id)
    ensures reg.rpcRequests == Bump(old(reg.rpcRequests), "eth_sendTransaction", 1)
    ensures reg.rpcLatency == Bump(old(reg.rpcLatency), "eth_sendTransaction", LatencyObservations(sendOutcome))
    ensures r.Ok? <==> Interpret(sendOutcome).Ok?
    ensures r.Err? ==> r.error == Interpret(sendOutcome).error
    ensures r.Ok? ==> reg.txOk == old(reg.txOk) + 1 && reg.txErr == old(reg.txErr)
    ensures r.Err? ==> reg.txErr == old(reg.txErr) + 1 && reg.txOk == old(reg.txOk)
  {
    var sendRes;
    req, sendRes := rpc.Call(reg, "eth_sendTransaction", [tx], sendOutcome);
    if sendRes.Ok? {
      reg.txOk := reg.txOk + 1;
      r := Ok(());
    } else {
      reg.txErr := reg.txErr + 1;
      r := Err(sendRes.error);
    }
  }
}
