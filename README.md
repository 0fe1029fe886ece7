# Ethereum load generator and its controller, in Dafny

This project models the core of a synthetic-load tool for an Ethereum
JSON-RPC node. It has two parts:

- **The load generator** (`loadgen/loadgen.py`). It has a shared JSON-RPC
  transport with request ids, per-method request counters, a latency
  histogram and a call counter that the sampler drains. Around that
  transport sit:
  - sender discovery;
  - one EIP-1559 transfer attempt, with its fee floor and its ok/error
    accounting;
  - the absolute-deadline pacers for transactions and for read methods;
  - the sampler, which turns counter deltas and the chain head into the
    achieved TPS, failure rate, RPS and MGas/s gauges.
- **The controller** (`controller/main.py`). For the target container it
  turns rates into environment variables:
  - it selects the container;
  - it copies the env into name/value records;
  - it upserts the five settings in order;
  - it splits a total rate by preset, using Python's half-to-even rounding.

  It also checks the query bounds of its two write endpoints.

Module layout, leaf first:

| module | file | contents |
|---|---|---|
| `Wrappers` | wrappers.dfy | `Option`, `Result` |
| `Numerals` | numerals.dfy | `hex()`, `str()` of integers and their parsers `int(s, 16)`, `int(s)` |
| `JsonValue` | json.dfy | decoded JSON values, `obj[key]`, QUANTITY fields |
| `Metrics` | metrics.dfy | the Prometheus registry as a class (`Registry`) |
| `RpcTransport` | rpc.dfy | class `Rpc`: `call`, `drain_rpc_counter` |
| `Transactions` | transactions.dfy | `get_sender`, `send_tx`, fee choice, the transaction object |
| `Pacing` | pacing.dfy | `rate_limiter`, `rps_loop` |
| `MetricsSampler` | sampler.dfy | class `Sampler`: start-up and one window of `sampler` |
| `EnvPatch` | envpatch.dfy | `_env_list`, `_set_env` (class `EnvBuffer`), container choice, `patch_env_simple`, `read_env`'s dictionary |
| `Presets` | presets.dfy | `round`, `compute_mix` |
| `ControllerApi` | controller_api.dfy | `api_set`, `api_set_mix` |

The model replaces the outside world with inputs:

- **HTTP.** An exchange is an `HttpOutcome`: either the POST raised, or a
  status code with a body that did or did not decode.
- **Clock.** `rate_limiter` and `rps_loop` get one clock reading per
  iteration, plus the amount by which a sleep overran its deadline. The
  "never early" lemmas assume that amount is non-negative.
- **Kubernetes.** The deployment is its containers. The concurrency that
  `read_env` reports is a parameter; `None` means `read_env` raised.
- **Loops and rates.** The infinite loops run for a finite number of
  iterations. Rates are exact reals.

Mutable state is written as classes whose methods name in `modifies` what
they change (single fields where a method touches only some, `this` for
`Sampler.Step` and `EnvBuffer.SetEnv`):

- `Rpc`: the id and the call counter, with a ghost invariant that ties the
  counter to the ids handed out since the last drain;
- `Registry`: the metrics;
- `Sampler`: the sampler's four locals;
- `EnvBuffer`: the env list that `_set_env` mutates.

### Behaviour worth knowing

- **Latency.** `Rpc.call` observes latency at line 68 as soon as `post`
  returns, and again at line 77 on every exception. A call that fails
  after the POST returned therefore records two observations: a non-2xx
  status, an undecodable body, an `"error"` member or a missing `"result"`.
  `RpcTransport.ObservationsByOutcome` states exactly when each count
  occurs.
- **Zero window.** The TPS gauge guards `window > 0`, the RPS gauge does
  not: with a window of length 0, `drain_rpc_counter() / window` raises `ZeroDivisionError` after the counter
  was drained and after the TPS and failure-rate gauges were written.
  `MetricsSampler.Sampler.Step` models that order.
- **Chain calls.** The chain-head calls of a window happen after the drain.
  They are counted towards the next window's RPS.
- **Duplicate names.** `read_env` builds its dictionary last-wins, while
  `_set_env` updates the first record of a name. With a duplicated variable
  name, a value that was just written can read back as the old one
  (`EnvPatch.DuplicateNameHidesUpdate`).
- **Mix bounds.** `api_set_mix` writes read rates that `api_set` itself
  would refuse (above 5000) once the total exceeds 25002.5 ("even") or 50005
  ("write"). Without a concurrency in the request it writes back the current
  one, which nothing bounds (`ControllerApi.MixWithinSetBounds`).

## Model

| member | source | states |
|---|---|---|
| `Numerals.DigitsRoundTrip` | loadgen/loadgen.py:113-115 | reading the digits of n in any base 2..16 back gives n |
| `Numerals.Hex` | loadgen/loadgen.py:113-115 | `hex(n)`: the shape of what it writes is stated by `HexShape`, and `HexRoundTrip` states that `int(s, 16)` reads it back as n |
| `Numerals.HexShape` | loadgen/loadgen.py:113-115 | for every integer, `hex` writes "0x", or "-0x" exactly for a negative number, then lower-case digits with no leading zero except for zero itself |
| `Numerals.HexExamples` | loadgen/loadgen.py:113-115 | instances of `HexShape`: `hex(0)` is "0x0", `hex(26)` is "0x1a", `hex(-255)` is "-0xff" |
| `Numerals.ParseHex` | loadgen/loadgen.py:104 | `int(s, 16)`: what it accepts and refuses is stated by `ParseHexExamples`, and `HexRoundTrip` states that it inverts `hex` |
| `Numerals.ParseHexExamples` | loadgen/loadgen.py:104 | `int(s, 16)` accepts digits with or without a "0x" or "0X" prefix, digits of either case and a sign before the prefix, and refuses an empty text, a bare prefix or sign, a non-digit and a sign after the prefix |
| `Numerals.HexRoundTrip` | loadgen/loadgen.py:113-115 | `int(hex(n), 16) == n` for every integer, negative ones included |
| `Numerals.HexInjective` | loadgen/loadgen.py:113-115 | different integers never get the same `hex()` text |
| `Numerals.Decimal` | controller/main.py:36 | `str(n)` for an integer: the shape of what it writes is stated by `DecimalShape`, and `DecimalRoundTrip` states that `int` reads it back as n |
| `Numerals.DecimalShape` | controller/main.py:36 | for every integer, `str` writes a "-" exactly for a negative number, then decimal digits with no leading zero except for zero itself |
| `Numerals.ParseDecimal` | controller/main.py:36 | `int(s)` of an integer text: what it accepts and refuses is stated by `DecimalExamples`, and `DecimalRoundTrip` states that it inverts `str` |
| `Numerals.DecimalExamples` | controller/main.py:36 | instances: `str` of 0, 120 and -7 is "0", "120" and "-7"; `int(s)` accepts either sign and leading zeros, and refuses an empty text, a lone sign and a fraction |
| `Numerals.DecimalRoundTrip` | controller/main.py:36 | `int(str(n)) == n` for every integer |
| `Numerals.DecimalInjective` | controller/main.py:36 | different integers never get the same `str()` text |
| `JsonValue.Field` | loadgen/loadgen.py:166-174 | `obj[key]` is defined exactly on an object holding the key, and then yields that member |
| `JsonValue.QuantityField` | loadgen/loadgen.py:166-174 | `int(blk[key], 16)`: a QUANTITY field; `QuantityRoundTrip` states that a field written by `hex` reads back, and `ChainUpdate` that a missing or unreadable one is a conversion error |
| `JsonValue.QuantityRoundTrip` | loadgen/loadgen.py:113-115 | a field holding `hex(n)` reads back as n |
| `Metrics.Bump` | loadgen/loadgen.py:62 | incrementing a labelled counter moves that label by exactly the amount, leaves every other label as it was and adds only that label |
| `Metrics.BumpTwice` | loadgen/loadgen.py:62 | two increments of one label add up to a single increment by their sum |
| `Metrics.Registry.constructor` | loadgen/loadgen.py:29-42 | every counter and gauge starts at zero, no label present |
| `Metrics.Registry.Settled` | loadgen/loadgen.py:100-123 | every counted attempt ended as exactly one ok or one error (sent = ok + err); `SendTx` states that it keeps this |
| `RpcTransport.Interpret` | loadgen/loadgen.py:66-74 | a call returns a value exactly when the status is 2xx, the body is a JSON object without `"error"` and with `"result"`, and then returns `"result"`; an `"error"` member is raised as an RPC error; a transport error happens exactly when the POST raised |
| `RpcTransport.StatusOk` | loadgen/loadgen.py:69 | the statuses `raise_for_status()` lets through, 200 to 299; `Interpret` states that a call returns a value only with such a status |
| `RpcTransport.LatencyObservations` | loadgen/loadgen.py:64-78 | the number of latency observations one call records: one once `post` returned (line 68) plus one whenever the call raises (line 77); its values are stated by `ObservationsByOutcome` |
| `RpcTransport.ObservationsByOutcome` | loadgen/loadgen.py:64-78 | a call records one latency observation when it succeeds or its POST raised, and two when it fails after the POST returned |
| `RpcTransport.Rpc.constructor` | loadgen/loadgen.py:50-55 | the id and the drainable counter start at 0 and the counter invariant holds |
| `RpcTransport.Rpc.Call` | loadgen/loadgen.py:57-78 | takes the next id, sends a JSON-RPC 2.0 request carrying it, increments the method's request counter and the drainable counter by one whatever the outcome, records the latency observations for the outcome, returns what `Interpret` gives, and keeps the counter invariant |
| `RpcTransport.Rpc.Drain` | loadgen/loadgen.py:80-83 | returns the number of ids handed out since the previous drain and resets the counter to 0, leaving the ids alone |
| `Transactions.ChooseFees` | loadgen/loadgen.py:105-106 | the priority fee is the estimate raised to at least one gwei (it is one of the two), and the fee cap is twice the priority fee |
| `Transactions.FeeFloorExample` | loadgen/loadgen.py:105-106 | an estimate of 0.5 gwei gives a 1 gwei priority fee and a 2 gwei cap |
| `Transactions.FeeEstimate` | loadgen/loadgen.py:103-104 | the estimate exists exactly when the call returned a result that `TipWei` converts, and is that conversion; a failed call passes its error on |
| `Transactions.TipWei` | loadgen/loadgen.py:104 | a string estimate converts exactly when it is hexadecimal, and to its value; a number converts to itself; null, a list or an object fail |
| `Transactions.TxObject` | loadgen/loadgen.py:108-119 | the submitted parameter is an object with exactly the six fields from, to, value, gas, maxPriorityFeePerGas and maxFeePerGas; what each holds is stated by `TxObjectFields` |
| `Transactions.TxObjectFields` | loadgen/loadgen.py:108-118 | every field of the submitted object reads back as what was put in: sender, recipient, value, 21000 gas, both fees |
| `Transactions.TxObjectDecodes` | loadgen/loadgen.py:105-118 | the node reads back a priority fee of at least one gwei and a fee cap of twice that, after the hex encoding |
| `Transactions.SelectSender` | loadgen/loadgen.py:92-96 | an empty or otherwise falsy account list is the "no accounts" error; a non-empty list yields its first account |
| `Transactions.Falsy` | loadgen/loadgen.py:92 | Python's `not accs` on a decoded value; `SelectSender` states that exactly these values are the "no accounts" error |
| `Transactions.GetSender` | loadgen/loadgen.py:89-96 | one eth_accounts call; its failure is passed on, otherwise the result is `SelectSender` of the accounts |
| `Transactions.FetchTip` | loadgen/loadgen.py:103-104 | one eth_maxPriorityFeePerGas call, counted once and with its latency observations, whose outcome gives the fee estimate or the error |
| `Transactions.Submit` | loadgen/loadgen.py:120-125 | one eth_sendTransaction call with the object as its only parameter, counted once and with its latency observations; the ok counter moves exactly when the call succeeded, otherwise the error counter moves and the call's error is returned |
| `Transactions.SendTx` | loadgen/loadgen.py:99-125 | counts the attempt; exactly one of ok and error moves, so settled accounting stays settled; the fee request always comes first; a failed fee estimate ends the attempt before anything is submitted; otherwise the second request submits the object built from the chosen fees, and the result is that submission's; the request and latency counts of both methods move by what their calls record |
| `Pacing.Interval` | loadgen/loadgen.py:129 | the interval is the reciprocal of a positive rate and 0 otherwise |
| `Pacing.FireTime` | loadgen/loadgen.py:132-134 | when one iteration proceeds: after the sleep when early, at once when late; `ScheduleIsAbsolute` states which deadline it is measured against and `ScheduleNeverEarly` that it is never before it |
| `Pacing.Schedule` | loadgen/loadgen.py:130-136 | the times the iterations proceed, one per clock reading, with `next_t` advanced by the interval after each; its meaning is stated by `ScheduleIsAbsolute` and the lemmas after it |
| `Pacing.ScheduleIsAbsolute` | loadgen/loadgen.py:130-136 | advancing `next_t` by the interval after every iteration is the absolute timetable `start + k * interval`: iteration k proceeds at its deadline (plus oversleep) when early, at once when late |
| `Pacing.ScheduleNeverEarly` | loadgen/loadgen.py:132-134 | no iteration proceeds before its deadline |
| `Pacing.LateTicksDoNotShiftLaterOnes` | loadgen/loadgen.py:130-136 | lateness does not accumulate: iteration k's time depends only on its own clock reading and oversleep, not on earlier iterations |
| `Pacing.PunctualTicks` | loadgen/loadgen.py:130-136 | with no lateness, iteration k proceeds exactly on deadline k |
| `Pacing.RateLimiter` | loadgen/loadgen.py:128-136 | the times the pacer yields are the schedule for the interval of the rate |
| `Pacing.RpsLoop` | loadgen/loadgen.py:183-198 | a zero or negative rate does nothing; otherwise it makes one call per iteration on the pacer's schedule with consecutive ids, whatever the outcomes; it counts all of them for the method and adds every call's latency observations |
| `MetricsSampler.AchievedTps` | loadgen/loadgen.py:157 | the achieved TPS times a positive window is the ok delta; a window that is not positive gives 0 |
| `MetricsSampler.FailureRate` | loadgen/loadgen.py:156-158 | the rate times the attempts is the error delta; a window without attempts gives 0; for deltas that did not go backwards it lies in [0, 1], is 0 exactly when there were no errors and 1 exactly when every attempt failed |
| `MetricsSampler.BlockSeconds` | loadgen/loadgen.py:173 | the block time is the timestamp difference, but never below one second |
| `MetricsSampler.MGasPerSecond` | loadgen/loadgen.py:174-175 | MGas/s times the block time times 10^6 is the gas used, and non-negative gas gives a non-negative rate |
| `MetricsSampler.RequestRate` | loadgen/loadgen.py:162 | the RPS gauge times the (non-zero) window is the drained call count, and a positive window gives a non-negative rate |
| `MetricsSampler.WindowExample` | loadgen/loadgen.py:152-162 | a 5 s window after ok 20 -> 45 and errors 5 -> 10, with 300 drained calls, gives 5 tx/s, a failure rate of 5/30 and 60 requests/s |
| `MetricsSampler.MGasExample` | loadgen/loadgen.py:171-175 | 15,000,000 gas 12 s after the parent is 1.25 MGas/s |
| `MetricsSampler.HeadNumber` | loadgen/loadgen.py:165-166 | the head's block number when the call returned one that reads as a QUANTITY; `ChainUpdate` states that without it the window fails |
| `MetricsSampler.FetchesParent` | loadgen/loadgen.py:168-170 | whether the parent block is requested: a readable head, newer than the last number, with a parentHash; `UpdateChain` states that the parent call happens exactly then |
| `MetricsSampler.ChainUpdate` | loadgen/loadgen.py:165-180 | the recorded block number never decreases; a head that is not newer keeps number and MGas/s; a newer head with a readable parent and readable timestamps and gas records its number and the MGas/s derived from them; a failed head or parent call passes its error on; a missing or unreadable number, parentHash, timestamp or gasUsed is a conversion error (Python's ValueError, TypeError or KeyError) |
| `MetricsSampler.QuietChainKeepsMGas` | loadgen/loadgen.py:168-180 | in two windows in a row where the head did not advance, the second publishes the same MGas/s as the first |
| `MetricsSampler.Sampler.constructor` | loadgen/loadgen.py:140-146 | the sampler starts from the counter snapshot, the primed block number and MGas/s 0 |
| `MetricsSampler.StartSampler` | loadgen/loadgen.py:139-146 | one head call; the sampler starts exactly when the head's number is readable, with the counter snapshot taken before the call and that number |
| `MetricsSampler.Sampler.Step` | loadgen/loadgen.py:151-180 | one window: the TPS and failure-rate gauges from the counter deltas and the new snapshot; a zero window fails after draining, with no further call and no other gauge written; otherwise RPS is the drained count over the window, the chain part follows `ChainUpdate`, and its one or two calls stay in the counter |
| `MetricsSampler.Sampler.UpdateChain` | loadgen/loadgen.py:165-180 | the head call, and the parent call exactly when the head is newer and names a parent; the state and the MGas/s gauge follow `ChainUpdate`, and a failure changes neither |
| `EnvPatch.EnvText` | controller/main.py:36 | the text a value is stored as: "" for None, the decimal text of an integer, a string as it is; `EnvTextOfInt` states that an integer's text reads back |
| `EnvPatch.EnvTextOfInt` | controller/main.py:36 | the text stored for an integer setting reads back as that integer |
| `EnvPatch.EnvList` | controller/main.py:31-32 | one record per container variable, in order, with its name and value; a container without env gives no records |
| `EnvPatch.Upsert` | controller/main.py:34-41 | the list `_set_env` leaves: one record longer exactly when the name was absent; the records are stated by `UpsertWhenPresent`, `UpsertWhenAbsent` and `UpsertLookupWritten` |
| `EnvPatch.IndexOf` | controller/main.py:37-40 | the position of the first record with the name, or none exactly when the name is absent |
| `EnvPatch.UpsertWhenPresent` | controller/main.py:37-40 | with the name present, only its first record changes, to the new value |
| `EnvPatch.UpsertWhenAbsent` | controller/main.py:41 | with the name absent, one record is appended at the end |
| `EnvPatch.UpsertLookupWritten` | controller/main.py:34-41 | afterwards the first record of the name holds the new value |
| `EnvPatch.UpsertLookupOther` | controller/main.py:34-41 | afterwards every other name's first record holds what it held |
| `EnvPatch.UpsertIdempotent` | controller/main.py:34-41 | upserting the same name and value twice is upserting it once |
| `EnvPatch.UpsertShape` | controller/main.py:34-41 | an upsert keeps every position's name and every record of another name, and grows the list by one record exactly when the name was absent |
| `EnvPatch.UpsertAll` | controller/main.py:63-67 | the upserts of a list of settings, one after the other; its records are stated by `UpsertAllKeeps`, `UpsertAllTail`, `UpsertAllLookup` and `UpsertAllKeepsLookup` |
| `EnvPatch.UpsertAllKeeps` | controller/main.py:62-67 | a sequence of upserts keeps every existing record's place and name, and leaves untouched every record that none of the keys names |
| `EnvPatch.UpsertAllTail` | controller/main.py:62-67 | with distinct keys, the missing keys are appended after the existing records, in the order given |
| `EnvPatch.UpsertAllLookup` | controller/main.py:62-67 | with distinct keys, every key holds its value afterwards |
| `EnvPatch.UpsertAllKeepsLookup` | controller/main.py:62-67 | upserts of other keys leave a name's value as it was |
| `EnvPatch.PatchSettings` | controller/main.py:63-67 | the five settings in the order of the five calls, each as its stored text; `PatchSettingsDistinct` and `PatchedEnv` state what writing them does |
| `EnvPatch.PatchSettingsDistinct` | controller/main.py:63-67 | the five setting names are different from each other |
| `EnvPatch.PatchedEnv` | controller/main.py:57-67 | after the five upserts TPS, CONCURRENCY, RPS_BLOCK, RPS_BAL and RPS_CALL hold their new values; every other variable keeps its place and value; the missing ones come last, in that order |
| `EnvPatch.SelectContainer` | controller/main.py:59-60 | the first container with the configured name, else the first container; no container at all is an error |
| `EnvPatch.EnvMap` | controller/main.py:47 | the dictionary has exactly the env's names as keys |
| `EnvPatch.EnvMapLastWins` | controller/main.py:47 | the dictionary holds the value of the last record of each name |
| `EnvPatch.ReadBackAfterUpsert` | controller/main.py:34-47 | when a name occurs at most once, reading the env back after an upsert shows the value just written |
| `EnvPatch.DuplicateNameHidesUpdate` | controller/main.py:37-47 | with TPS listed twice, upserting TPS=5 reads back as the second, unchanged record's value |
| `EnvPatch.EnvBuffer.SetEnv` | controller/main.py:34-41 | the in-place scan leaves the list as `Upsert` of the old list |
| `EnvPatch.PatchEnvSimple` | controller/main.py:57-67 | fails exactly when there is no container; otherwise the env of the selected container after the five upserts in order |
| `Presets.PyRound` | controller/main.py:102-106 | the result is within 1/2 of the argument, and a tie goes to the even neighbour |
| `Presets.RoundMonotone` | controller/main.py:102-106 | rounding preserves order |
| `Presets.RoundAtMostEven` | controller/main.py:102-106 | rounding stays at or below an even bound n exactly for arguments up to n + 1/2 |
| `Presets.Clamped` | controller/main.py:100 | the total raised to at least 0: never negative, never below the total, and either the total or 0 |
| `Presets.ComputeMix` | controller/main.py:88-107 | every share is non-negative, the three read shares are equal, and "even" gives sending the same share |
| `Presets.EvenMix` | controller/main.py:100-103 | "even": each share is the nearest integer to a fifth of the clamped total, so five shares come within 5/2 of it |
| `Presets.WriteMix` | controller/main.py:100-107 | any other preset: sending gets the nearest integer to 35% and each read the nearest to 10% of the clamped total; sending is never below a read share; send, tip and the three reads add up to the total within 5/2 |
| `Presets.NegativeTotalIsZero` | controller/main.py:100 | a negative total splits into all zeros |
| `ControllerApi.SetAccepts` | controller/main.py:120-124 | the `Query` bounds of `api_set`: tps in [0, 100000], concurrency in [1, 100000], each read rate in [0, 5000] |
| `ControllerApi.SetMixAccepts` | controller/main.py:132-134 | the `Query` bounds of `api_set_mix`: total in [0, 100000], preset "write" or "even", a given concurrency in [1, 100000] |
| `ControllerApi.ChosenConcurrency` | controller/main.py:141 | the given concurrency, else the current one; `ApiSetMix` states that this is what the request reports and writes |
| `ControllerApi.ApiSet` | controller/main.py:119-129 | a request outside the query bounds is refused with 422 and nothing else; within them, no container is a 500; otherwise it returns the target's env after the five upserts with the given values |
| `ControllerApi.ApiSetMix` | controller/main.py:131-159 | out-of-bounds total, preset or concurrency is refused with 422; a failing state read or no container is a 500; otherwise it reports the preset, the mix and the concurrency (the given one, else the current one) and returns the env upserted with them |
| `ControllerApi.MixWithinSetBounds` | controller/main.py:119-143 | a valid mix request's settings satisfy `api_set`'s bounds exactly when the concurrency written (the given one, else the current one) lies in [1, 100000] and "even" has a total of at most 25002.5 or "write" has a total of at most 50005 |
| `ControllerApi.MixSharesWithinBounds` | controller/main.py:100-124 | the rates of a valid total's split satisfy `api_set`'s rate bounds exactly when "even" has a total of at most 25002.5 or "write" has a total of at most 50005 |
| `ControllerApi.EvenAtMaximumExample` | controller/main.py:132-143 | "even" at the largest total gives 20000 per method, outside `api_set`'s read bound |

## Left out

- Concurrency is left out: the asyncio event loop, the lock around the id increment, the semaphore behind `one()`, `run()` that wires the tasks together, task creation and the sampler's `sleep`. Each call is modelled as atomic and in sequence, which is what the lock guarantees for the ids.
- Infinite loops: `rate_limiter`, `rps_loop` and `sampler` are modelled for a finite run (sequences of clock readings or one window per `Step` call).
- `MetricsSampler.Sampler.Step`: `sampler` has no try/except, so the first failed window (the `ZeroDivisionError`, or a head or parent call failing) ends the task for good and the gauges keep their last values; the model returns `Err` and leaves the object usable, so what happens after a failure is not modelled.
- The Prometheus HTTP server and the histogram's bucket boundaries: a histogram is modelled by its per-method observation count, not by the latency values.
- Latency values and the clock itself are inputs, so `time.perf_counter()` is not modelled.
- `Pacing.ScheduleNeverEarly` assumes a non-negative oversleep: asyncio treats a timer as due once it is within one tick of its clock resolution, so a sleep may end up to that tick before its deadline, and that early wake-up is not modelled.
- Floating point: rates and gauges are exact reals, so the binary rounding of `1.0 / tps`, `0.35 * t` or `gas / dt` is not modelled. `Presets.PyRound` and `ControllerApi.MixWithinSetBounds` work on exact values; a float total near a tie may round differently.
- `to_wei_hex`: its float multiplication is not modelled; the transfer value is given in wei.
- `str()` of a float is not modelled: a float setting is given by its text (`EnvPatch.Scalar.TextValue`, `ControllerApi.FloatArg`).
- `Numerals.ParseHex`: Python's `int(s, 16)` also accepts surrounding whitespace, underscores between digits and non-ASCII Unicode decimal digits; those inputs are outside the model (the same holds for `Numerals.ParseDecimal` and `int(s)`).
- JSON numbers are integers only: a fractional fee estimate, which `int()` would truncate, is not modelled.
- `read_env`'s parsing of the stored text (`int(float(...))`, `float(...)`) and its defaults are not modelled; the concurrency it reports is a parameter of `ControllerApi.ApiSetMix`.
- The Kubernetes calls (`read_namespaced_deployment`, `patch_namespaced_deployment`) and the rollout annotation with `time.time()` are not modelled. The PATCH body names a container `CONTAINER` even when the edited env came from the first container because no container had that name; the model stops at the env list.
- `ControllerApi.SetMixAccepts`: the preset is accepted only as exactly "write" or "even"; a regex `$` that also matches before a trailing newline is not modelled (such a preset would be split like "write").
- The FastAPI layer (routing, the JSON response bodies, `api_state`) and the HTML page are not modelled.
- `print` calls and `Rpc.close` have no observable effect in the model.
