/** The controller's two write endpoints (controller/main.py:119-159). Their
    query bounds are checked before the handler runs (an out-of-range value
    is answered with 422); inside the handler any exception is answered with
    500. The Kubernetes deployment is given by its containers; the HTTP
    layer itself is not part of this model. */
module ControllerApi {
  import opened Wrappers
  import opened EnvPatch
  import opened Presets

  /** How a request ends when it does not patch. */
  datatype ApiError = Unprocessable | PatchFailed

  /** A float query parameter: its value, for the bound check, and the
      text `str()` gives it, for the stored variable. */
  datatype FloatArg = FloatArg(value: real, text: string)

  predicate Within(x: real, lo: real, hi: real)
  {
    lo <= x <= hi
  }

  /** The `Query` bounds of `api_set`. */
  predicate SetAccepts(tps: int, conc: int, rpsBlock: real, rpsBal: real, rpsCall: real)
  {
    && 0 <= tps <= 100000
    && 1 <= conc <= 100000
    && Within(rpsBlock, 0.0, 5000.0)
    && Within(rpsBal, 0.0, 5000.0)
    && Within(rpsCall, 0.0, 5000.0)
  }

  /** The `Query` bounds of `api_set_mix`: the preset must be one of the two
      names, and a concurrency, when given, lies in [1, 100000]. */
  predicate SetMixAccepts(total: real, preset: string, concurrency: Option<int>)
  {
    && Within(total, 0.0, 100000.0)
    && (preset == "write" || preset == "even")
    && (concurrency.Some? ==> 1 <= concurrency.value <= 100000)
  }

  /** `api_set`: validate, then patch the target container's env with the
      five settings; a deployment with no containers makes
      `patch_env_simple` raise. */
  method ApiSet(containers: seq<Container>, containerName: string,
                tps: int, conc: int, rpsBlock: FloatArg, rpsBal: FloatArg, rpsCall: FloatArg)
    returns (r: Result<seq<EnvRecord>, ApiError>)
    ensures !SetAccepts(tps, conc, rpsBlock.value, rpsBal.value, rpsCall.value) <==> r == Err(Unprocessable)
    ensures r == Err(PatchFailed) <==>
      SetAccepts(tps, conc, rpsBlock.value, rpsBal.value, rpsCall.value) && |containers| == 0
    ensures r.Ok? ==>
      r.value == UpsertAll(EnvList(SelectContainer(containers, containerName).value),
                           PatchSettings(IntValue(tps), IntValue(conc), TextValue(rpsBlock.text),
                                         TextValue(rpsBal.text), TextValue(rpsCall.text)))
  {
    if !SetAccepts(tps, conc, rpsBlock.value, rpsBal.value, rpsCall.value) {
      return Err(Unprocessable);
    }
    var patched := PatchEnvSimple(containers, containerName, IntValue(tps), IntValue(conc),
                                  TextValue(rpsBlock.text), TextValue(rpsBal.text), TextValue(rpsCall.text));
    if patched.None? {
      return Err(PatchFailed);
    }
    r := Ok(patched.value);
  }

  /** What `api_set_mix` reports as applied. */
  datatype Applied = Applied(preset: string, mix: Mix, concurrency: int)

  /** The concurrency used: the one given, else the deployment's current one. */
  function ChosenConcurrency(concurrency: Option<int>, current: int): int
  {
    if concurrency.Some? then concurrency.value else current
  }

  /** `api_set_mix`: validate, read the current state (`current` is the
      concurrency `read_env` reports, None when it raises), split the total,
      and patch. The state is read even when a concurrency is given, so a
      failing read fails the request either way. */
  method ApiSetMix(containers: seq<Container>, containerName: string,
                   total: real, preset: string, concurrency: Option<int>, current: Option<int>)
    returns (r: Result<(Applied, seq<EnvRecord>), ApiError>)
    ensures !SetMixAccepts(total, preset, concurrency) <==> r == Err(Unprocessable)
    ensures r == Err(PatchFailed) <==>
      SetMixAccepts(total, preset, concurrency) && (current.None? || |containers| == 0)
    ensures r.Ok? ==>
      var m := ComputeMix(total, preset);
      var c := ChosenConcurrency(concurrency, current.value);
      && current.Some?
      && r.value.0 == Applied(preset, m, c)
      && r.value.1 == UpsertAll(EnvList(SelectContainer(containers, containerName).value),
                                PatchSettings(IntValue(m.tps), IntValue(c), IntValue(m.rpsBlock),
                                              IntValue(m.rpsBal), IntValue(m.rpsCall)))
  {
    if !SetMixAccepts(total, preset, concurrency) {
      return Err(Unprocessable);
    }
    if current.None? {
      return Err(PatchFailed);
    }
    var conc := ChosenConcurrency(concurrency, current.value);
    var mix := ComputeMix(total, preset);
    var patched := PatchEnvSimple(containers, containerName, IntValue(mix.tps), IntValue(conc),
                                  IntValue(mix.rpsBlock), IntValue(mix.rpsBal), IntValue(mix.rpsCall));
    if patched.None? {
      return Err(PatchFailed);
    }
    r := Ok((Applied(preset, mix, conc), patched.value));
  }

  /** The settings `api_set_mix` writes would pass `api_set`'s own bounds
      exactly when the concurrency it writes (the given one, else the current
      one, which nothing bounds) lies in [1, 100000] and the read share stays
      at most 5000: for "even" a total up to 25002.5, for "write" a total up
      to 50005. Otherwise the mix endpoint stores settings `api_set` would
      refuse. */
  lemma MixWithinSetBounds(total: real, preset: string, concurrency: Option<int>, current: int)
    requires SetMixAccepts(total, preset, concurrency)
    ensures var m := ComputeMix(total, preset);
      var c := ChosenConcurrency(concurrency, current);
      SetAccepts(m.tps, c, m.rpsBlock as real, m.rpsBal as real, m.rpsCall as real) <==>
        && 1 <= c <= 100000
        && ((preset == "even" && total <= 25002.5) || (preset == "write" && total <= 50005.0))
  {
    MixSharesWithinBounds(total, preset);
  }

  /** The share part of `MixWithinSetBounds`: the rates of the split pass
      `api_set`'s rate bounds exactly when the read share stays at most 5000. */
  lemma MixSharesWithinBounds(total: real, preset: string)
    requires Within(total, 0.0, 100000.0) && (preset == "write" || preset == "even")
    ensures var m := ComputeMix(total, preset);
      (&& 0 <= m.tps <= 100000
       && Within(m.rpsBlock as real, 0.0, 5000.0)
       && Within(m.rpsBal as real, 0.0, 5000.0)
       && Within(m.rpsCall as real, 0.0, 5000.0)) <==>
        (preset == "even" && total <= 25002.5) || (preset == "write" && total <= 50005.0)
  {
    var m := ComputeMix(total, preset);
    if preset == "even" {
      EvenMix(total);
      RoundAtMostEven(total / 5.0, 5000);
    } else {
      WriteMix(total, preset);
      RoundAtMostEven(0.10 * total, 5000);
    }
  }

  /** An instance of the gap: "even" at the largest total splits into 20000
      per method, read rates four times `api_set`'s limit. */
  lemma EvenAtMaximumExample()
    ensures ComputeMix(100000.0, "even") == Mix(20000, 20000, 20000, 20000)
    ensures !SetAccepts(20000, 1, 20000.0, 20000.0, 20000.0)
  {
    assert PyRound(100000.0 / 5.0) == 20000;
  }
}
