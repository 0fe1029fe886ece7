/** The controller's environment editing (controller/main.py:31-67): the
    container's variables become name/value records (`_env_list`), `_set_env`
    upserts one record in place, and `patch_env_simple` applies five upserts
    to the env of the selected container. The Kubernetes calls around it are
    not part of this model. */
module EnvPatch {
  import opened Wrappers
  import opened Numerals

  /** A container variable as the Kubernetes client returns it: its value,
      or None when it is set from a `valueFrom` source (the source itself is
      not read by `_env_list` and is not modelled). */
  datatype EnvVar = EnvVar(name: string, value: Option<string>)

  datatype Container = Container(name: string, env: Option<seq<EnvVar>>)

  /** `{"name": ..., "value": ...}` */
  datatype EnvRecord = EnvRecord(name: string, value: Option<string>)

  /** A value handed to `_set_env`: None, an integer, or a string. A float
      argument is given by its Python text (`str(5.0) == "5.0"`). */
  datatype Scalar = NoneValue | IntValue(i: int) | TextValue(s: string)

  /** `"" if value is None else str(value)` */
  function EnvText(v: Scalar): string
  {
    match v
    case NoneValue => ""
    case IntValue(i) => Decimal(i)
    case TextValue(s) => s
  }

  /** The text an integer setting is stored as reads back as that integer. */
  lemma EnvTextOfInt(i: int)
    ensures ParseDecimal(EnvText(IntValue(i))) == Some(i)
  {
    DecimalRoundTrip(i);
  }

  /** `_env_list(container)`: one record per variable, in order, keeping name
      and value and dropping any `valueFrom` source; no env list gives []. */
  function EnvList(c: Container): (r: seq<EnvRecord>)
    ensures c.env.None? ==> r == []
    ensures c.env.Some? ==> |r| == |c.env.value|
    ensures c.env.Some? ==>
      forall i :: 0 <= i < |r| ==> r[i] == EnvRecord(c.env.value[i].name, c.env.value[i].value)
  {
    match c.env
    case None => []
    case Some(vars) => seq(|vars|, i requires 0 <= i < |vars| => EnvRecord(vars[i].name, vars[i].value))
  }

  /** The position of the first occurrence of `name`. */
  function IndexOf(names: seq<string>, name: string): (r: Option<nat>)
    ensures r.None? <==> name !in names
    ensures r.Some? ==> r.value < |names| && names[r.value] == name &&
                        forall j :: 0 <= j < r.value ==> names[j] != name
  {
    if |names| == 0 then None
    else if names[0] == name then Some(0)
    else match IndexOf(names[1..], name)
      case None => None
      case Some(i) => Some(i + 1)
  }

  function Names(env: seq<EnvRecord>): (r: seq<string>)
    ensures |r| == |env| && forall i :: 0 <= i < |env| ==> r[i] == env[i].name
  {
    seq(|env|, i requires 0 <= i < |env| => env[i].name)
  }

  /** The result of `_set_env(env, name, value)` with `text == EnvText(value)`:
      the first record with that name gets the value, or a new record is
      appended when there is none. */
  function Upsert(env: seq<EnvRecord>, name: string, text: string): (r: seq<EnvRecord>)
    ensures |r| == |env| + (if name in Names(env) then 0 else 1)
  {
    match IndexOf(Names(env), name)
    case Some(i) => env[i := EnvRecord(name, Some(text))]
    case None => env + [EnvRecord(name, Some(text))]
  }

  /** The value the first record named `name` holds, if there is one. */
  function Lookup(env: seq<EnvRecord>, name: string): Option<Option<string>>
  {
    match IndexOf(Names(env), name)
    case Some(i) => Some(env[i].value)
    case None => None
  }

  /** With the name present, only its first record changes, to the new
      value; the length, every other record and their order stay. */
  lemma UpsertWhenPresent(env: seq<EnvRecord>, name: string, text: string)
    requires name in Names(env)
    ensures exists i :: (0 <= i < |env| && env[i].name == name &&
      (forall j :: 0 <= j < i ==> env[j].name != name) &&
      Upsert(env, name, text) == env[i := EnvRecord(name, Some(text))])
  {
    var i := IndexOf(Names(env), name).value;
    assert env[i].name == name;
  }

  /** With the name absent, exactly one record is appended at the end. */
  lemma UpsertWhenAbsent(env: seq<EnvRecord>, name: string, text: string)
    requires forall j :: 0 <= j < |env| ==> env[j].name != name
    ensures Upsert(env, name, text) == env + [EnvRecord(name, Some(text))]
  {
    assert name !in Names(env);
  }

  /** Afterwards the first record named `name` holds the value. */
  lemma UpsertLookupWritten(env: seq<EnvRecord>, name: string, text: string)
    ensures Lookup(Upsert(env, name, text), name) == Some(Some(text))
  {
    var r := Upsert(env, name, text);
    assert forall j :: 0 <= j < |env| ==> Names(r)[j] == Names(env)[j];
    if IndexOf(Names(env), name).None? {
      assert Names(r) == Names(env) + [name];
    } else {
      assert Names(r) == Names(env);
    }
  }

  /** What the first record of any other name holds is unchanged. */
  lemma UpsertLookupOther(env: seq<EnvRecord>, name: string, text: string, other: string)
    requires other != name
    ensures Lookup(Upsert(env, name, text), other) == Lookup(env, other)
  {
    var r := Upsert(env, name, text);
    assert forall j :: 0 <= j < |env| ==> Names(r)[j] == Names(env)[j];
    if IndexOf(Names(env), name).None? {
      assert Names(r) == Names(env) + [name];
    } else {
      assert Names(r) == Names(env);
    }
  }

  /** Upserting the same name and value twice is upserting it once. */
  lemma UpsertIdempotent(env: seq<EnvRecord>, name: string, text: string)
    ensures Upsert(Upsert(env, name, text), name, text) == Upsert(env, name, text)
  {
    var once := Upsert(env, name, text);
    match IndexOf(Names(env), name) {
      case Some(i) =>
        assert Names(once) == Names(env);
        assert once[i := EnvRecord(name, Some(text))] == once;
      case None =>
        assert Names(once) == Names(env) + [name];
        var k := |env|;
        assert IndexOf(Names(once), name) == Some(k);
    }
  }

  /** The records that upserting `settings` appends to a list whose names
      are `names`: one per key not among them, in the order given. */
  function Appended(names: seq<string>, settings: seq<(string, string)>): seq<EnvRecord>
  {
    if |settings| == 0 then []
    else (if settings[0].0 in names then [] else [EnvRecord(settings[0].0, Some(settings[0].1))])
         + Appended(names, settings[1..])
  }

  function Keys(settings: seq<(string, string)>): (r: seq<string>)
    ensures |r| == |settings| && forall i :: 0 <= i < |r| ==> r[i] == settings[i].0
  {
    seq(|settings|, i requires 0 <= i < |settings| => settings[i].0)
  }

  predicate DistinctKeys(settings: seq<(string, string)>)
  {
    forall i, j :: 0 <= i < j < |settings| ==> settings[i].0 != settings[j].0
  }

  /** Successive upserts, in order. */
  function UpsertAll(env: seq<EnvRecord>, settings: seq<(string, string)>): seq<EnvRecord>
    decreases |settings|
  {
    if |settings| == 0 then env
    else UpsertAll(Upsert(env, settings[0].0, settings[0].1), settings[1..])
  }

  /** Names added by upserting keys the settings do not mention do not
      change what the settings append. */
  lemma {:induction false} AppendedIgnoresOtherNames(names: seq<string>, extra: string,
                                                    settings: seq<(string, string)>)
    requires extra !in Keys(settings)
    ensures Appended(names + [extra], settings) == Appended(names, settings)
    decreases |settings|
  {
    if |settings| > 0 {
      assert extra != settings[0].0;
      assert Keys(settings[1..]) == Keys(settings)[1..];
      AppendedIgnoresOtherNames(names, extra, settings[1..]);
    }
  }

  /** One upsert keeps every position's name; a record whose name is not
      the key is untouched; the list grows only by the appended record. */
  lemma UpsertShape(env: seq<EnvRecord>, name: string, text: string)
    ensures var r := Upsert(env, name, text);
      && |r| == |env| + (if name in Names(env) then 0 else 1)
      && (forall j :: 0 <= j < |env| ==> r[j].name == env[j].name)
      && (forall j :: 0 <= j < |env| && env[j].name != name ==> r[j] == env[j])
      && (name !in Names(env) ==> r[|env|] == EnvRecord(name, Some(text)))
  {
  }

  /** Several upserts: every existing record keeps its place and name, and
      a record none of the keys names is untouched. */
  lemma {:induction false} UpsertAllKeeps(env: seq<EnvRecord>, settings: seq<(string, string)>)
    ensures var r := UpsertAll(env, settings);
      && |r| >= |env|
      && (forall j :: 0 <= j < |env| ==> r[j].name == env[j].name)
      && (forall j :: 0 <= j < |env| && env[j].name !in Keys(settings) ==> r[j] == env[j])
    decreases |settings|
  {
    if |settings| > 0 {
      var (k, t) := settings[0];
      assert Keys(settings[1..]) == Keys(settings)[1..];
      UpsertShape(env, k, t);
      UpsertAllKeeps(Upsert(env, k, t), settings[1..]);
    }
  }

  /** Several upserts with distinct keys: the keys that were missing are
      appended after the existing records, in the order given. */
  lemma {:induction false} UpsertAllTail(env: seq<EnvRecord>, settings: seq<(string, string)>)
    requires DistinctKeys(settings)
    ensures var r := UpsertAll(env, settings);
      |r| >= |env| && r[|env|..] == Appended(Names(env), settings)
    decreases |settings|
  {
    if |settings| > 0 {
      var (k, t) := settings[0];
      var rest := settings[1..];
      assert DistinctKeys(rest);
      assert Keys(rest) == Keys(settings)[1..];
      UpsertAllTail(Upsert(env, k, t), rest);
      if k in Names(env) {
        TailStepPresent(env, k, t, rest);
      } else {
        var rec := EnvRecord(k, Some(t));
        UpsertWhenAbsent(env, k, t);
        assert Names(env + [rec]) == Names(env) + [k];
        TailStepAbsent(env, rec, rest);
      }
    }
  }

  /** The step of UpsertAllTail for a key already present. */
  lemma TailStepPresent(env: seq<EnvRecord>, k: string, t: string, rest: seq<(string, string)>)
    requires k in Names(env)
    requires var r := UpsertAll(Upsert(env, k, t), rest);
      |r| >= |Upsert(env, k, t)| && r[|Upsert(env, k, t)|..] == Appended(Names(Upsert(env, k, t)), rest)
    ensures var r := UpsertAll(Upsert(env, k, t), rest);
      |r| >= |env| && r[|env|..] == Appended(Names(env), [(k, t)] + rest)
  {
    var env' := Upsert(env, k, t);
    UpsertShape(env, k, t);
    assert Names(env') == Names(env);
    assert ([(k, t)] + rest)[1..] == rest;
  }

  /** The step of UpsertAllTail for a missing key: its record comes first
      among the appended ones and the later keys do not touch it. */
  lemma TailStepAbsent(env: seq<EnvRecord>, rec: EnvRecord, rest: seq<(string, string)>)
    requires rec.name !in Keys(rest)
    requires var r := UpsertAll(env + [rec], rest);
      |r| >= |env| + 1 && r[|env| + 1..] == Appended(Names(env) + [rec.name], rest)
    ensures var r := UpsertAll(env + [rec], rest);
      r[|env|..] == [rec] + Appended(Names(env), rest)
  {
    AppendedRecordStays(env, rec, rest);
    AppendedIgnoresOtherNames(Names(env), rec.name, rest);
    SliceCons(UpsertAll(env + [rec], rest), |env|);
  }

  lemma SliceCons<T>(s: seq<T>, n: nat)
    requires n < |s|
    ensures s[n..] == [s[n]] + s[n + 1..]
  {
  }

  /** A record whose name no later key mentions stays where it is. */
  lemma AppendedRecordStays(env: seq<EnvRecord>, rec: EnvRecord, rest: seq<(string, string)>)
    requires rec.name !in Keys(rest)
    ensures var r := UpsertAll(env + [rec], rest); |r| > |env| && r[|env|] == rec
  {
    UpsertAllKeeps(env + [rec], rest);
    assert (env + [rec])[|env|] == rec;
  }

  /** Several upserts with distinct keys: afterwards the first record for
      each key holds that key's value. */
  lemma {:induction false} UpsertAllLookup(env: seq<EnvRecord>, settings: seq<(string, string)>, n: nat)
    requires DistinctKeys(settings) && n < |settings|
    ensures Lookup(UpsertAll(env, settings), settings[n].0) == Some(Some(settings[n].1))
    decreases |settings|
  {
    var (k, t) := settings[0];
    var rest := settings[1..];
    assert DistinctKeys(rest);
    if n == 0 {
      UpsertLookupWritten(env, k, t);
      UpsertAllKeepsLookup(Upsert(env, k, t), rest, k);
    } else {
      UpsertAllLookup(Upsert(env, k, t), rest, n - 1);
    }
  }

  /** Upserts of other keys leave the first record of `name` as it was. */
  lemma {:induction false} UpsertAllKeepsLookup(env: seq<EnvRecord>, settings: seq<(string, string)>, name: string)
    requires name !in Keys(settings)
    ensures Lookup(UpsertAll(env, settings), name) == Lookup(env, name)
    decreases |settings|
  {
    if |settings| > 0 {
      var (k, t) := settings[0];
      assert k != name;
      UpsertLookupOther(env, k, t, name);
      assert Keys(settings[1..]) == Keys(settings)[1..];
      UpsertAllKeepsLookup(Upsert(env, k, t), settings[1..], name);
    }
  }

  /** The five settings `patch_env_simple` writes, in its order. */
  function PatchSettings(tps: Scalar, conc: Scalar, rpsBlock: Scalar, rpsBal: Scalar, rpsCall: Scalar)
    : seq<(string, string)>
  {
    [("TPS", EnvText(tps)), ("CONCURRENCY", EnvText(conc)), ("RPS_BLOCK", EnvText(rpsBlock)),
     ("RPS_BAL", EnvText(rpsBal)), ("RPS_CALL", EnvText(rpsCall))]
  }

  /** The five names are different. */
  lemma PatchSettingsDistinct(tps: Scalar, conc: Scalar, rpsBlock: Scalar, rpsBal: Scalar, rpsCall: Scalar)
    ensures DistinctKeys(PatchSettings(tps, conc, rpsBlock, rpsBal, rpsCall))
  {
    var settings := PatchSettings(tps, conc, rpsBlock, rpsBal, rpsCall);
    assert "TPS"[0] == 'T' && "CONCURRENCY"[0] == 'C';
    assert "RPS_BLOCK"[4] == 'B' && "RPS_BAL"[4] == 'B' && "RPS_CALL"[4] == 'C';
    assert |"RPS_BLOCK"| == 9 && |"RPS_BAL"| == 7;
  }

  /** The five upserts one after the other. */
  lemma PatchSettingsUnfold(env: seq<EnvRecord>, tps: Scalar, conc: Scalar, rpsBlock: Scalar,
                            rpsBal: Scalar, rpsCall: Scalar)
    ensures UpsertAll(env, PatchSettings(tps, conc, rpsBlock, rpsBal, rpsCall)) ==
      Upsert(Upsert(Upsert(Upsert(Upsert(env, "TPS", EnvText(tps)), "CONCURRENCY", EnvText(conc)),
        "RPS_BLOCK", EnvText(rpsBlock)), "RPS_BAL", EnvText(rpsBal)), "RPS_CALL", EnvText(rpsCall))
  {
    var s := PatchSettings(tps, conc, rpsBlock, rpsBal, rpsCall);
    var e1 := Upsert(env, "TPS", EnvText(tps));
    var e2 := Upsert(e1, "CONCURRENCY", EnvText(conc));
    var e3 := Upsert(e2, "RPS_BLOCK", EnvText(rpsBlock));
    var e4 := Upsert(e3, "RPS_BAL", EnvText(rpsBal));
    var e5 := Upsert(e4, "RPS_CALL", EnvText(rpsCall));
    assert UpsertAll(e5, s[5..]) == e5;
    assert UpsertAll(e4, s[4..]) == e5;
    assert UpsertAll(e3, s[3..]) == e5;
    assert UpsertAll(e2, s[2..]) == e5;
    assert UpsertAll(e1, s[1..]) == e5;
  }

  /** The env list `patch_env_simple` sends: each of the five variables holds
      its value, every other variable keeps its place and value, and the
      five that were missing come last, in the fixed order. */
  lemma PatchedEnv(env: seq<EnvRecord>, tps: Scalar, conc: Scalar, rpsBlock: Scalar, rpsBal: Scalar, rpsCall: Scalar)
    ensures var settings := PatchSettings(tps, conc, rpsBlock, rpsBal, rpsCall);
      var r := UpsertAll(env, settings);
      && Lookup(r, "TPS") == Some(Some(EnvText(tps)))
      && Lookup(r, "CONCURRENCY") == Some(Some(EnvText(conc)))
      && Lookup(r, "RPS_BLOCK") == Some(Some(EnvText(rpsBlock)))
      && Lookup(r, "RPS_BAL") == Some(Some(EnvText(rpsBal)))
      && Lookup(r, "RPS_CALL") == Some(Some(EnvText(rpsCall)))
      && |r| == |env| + |Appended(Names(env), settings)|
      && (forall j :: 0 <= j < |env| ==> r[j].name == env[j].name)
      && (forall j :: 0 <= j < |env| && env[j].name !in Keys(settings) ==> r[j] == env[j])
      && r[|env|..] == Appended(Names(env), settings)
  {
    var settings := PatchSettings(tps, conc, rpsBlock, rpsBal, rpsCall);
    PatchSettingsDistinct(tps, conc, rpsBlock, rpsBal, rpsCall);
    UpsertAllKeeps(env, settings);
    UpsertAllTail(env, settings);
    UpsertAllLookup(env, settings, 0);
    UpsertAllLookup(env, settings, 1);
    UpsertAllLookup(env, settings, 2);
    UpsertAllLookup(env, settings, 3);
    UpsertAllLookup(env, settings, 4);
  }

  function ContainerNames(containers: seq<Container>): (r: seq<string>)
    ensures |r| == |containers| && forall i :: 0 <= i < |r| ==> r[i] == containers[i].name
  {
    seq(|containers|, i requires 0 <= i < |containers| => containers[i].name)
  }

  /** `next((c for c in containers if c.name == CONTAINER), containers[0])`:
      the first container with that name, else the first container; an
      empty list raises IndexError (None). */
  function SelectContainer(containers: seq<Container>, name: string): (r: Option<Container>)
    ensures r.None? <==> |containers| == 0
    ensures r.Some? ==>
      if exists i :: 0 <= i < |containers| && containers[i].name == name
      then exists i :: 0 <= i < |containers| && containers[i] == r.value && r.value.name == name &&
             forall j :: 0 <= j < i ==> containers[j].name != name
      else r.value == containers[0]
  {
    if |containers| == 0 then None
    else
      match IndexOf(ContainerNames(containers), name)
      case Some(i) => Some(containers[i])
      case None => Some(containers[0])
  }

  /** `read_env`'s `{e["name"]: e["value"] for e in ...}`: a later record
      of the same name wins. */
  function EnvMap(env: seq<EnvRecord>): (m: map<string, Option<string>>)
    ensures forall k :: k in m <==> k in Names(env)
  {
    if |env| == 0 then map[]
    else
      var last := env[|env| - 1];
      assert Names(env) == Names(env[..|env| - 1]) + [last.name];
      EnvMap(env[..|env| - 1])[last.name := last.value]
  }

  /** When a name occurs at most once, reading the env back after an upsert
      shows the value just written. */
  lemma ReadBackAfterUpsert(env: seq<EnvRecord>, name: string, text: string)
    requires forall i, j :: 0 <= i < j < |env| && env[i].name == name ==> env[j].name != name
    ensures name in EnvMap(Upsert(env, name, text)) && EnvMap(Upsert(env, name, text))[name] == Some(text)
  {
    var r := Upsert(env, name, text);
    UpsertShape(env, name, text);
    var p :| 0 <= p < |r| && r[p].name == name && r[p].value == Some(text) &&
             forall j :: p < j < |r| ==> r[j].name != name by {
      match IndexOf(Names(env), name) {
        case Some(i) =>
          assert r[i] == EnvRecord(name, Some(text));
        case None =>
          assert r[|env|] == EnvRecord(name, Some(text));
      }
    }
    EnvMapLastWins(r, name, p);
  }

  lemma {:induction false} EnvMapLastWins(env: seq<EnvRecord>, name: string, p: nat)
    requires p < |env| && env[p].name == name
    requires forall j :: p < j < |env| ==> env[j].name != name
    ensures name in EnvMap(env) && EnvMap(env)[name] == env[p].value
    decreases |env|
  {
    if p < |env| - 1 {
      EnvMapLastWins(env[..|env| - 1], name, p);
    }
  }

  /** With a duplicate name the read-back can disagree with the upsert:
      `_set_env` writes the first TPS record while `read_env` reports the
      last. */
  lemma DuplicateNameHidesUpdate()
    ensures var env := [EnvRecord("TPS", Some("1")), EnvRecord("TPS", Some("2"))];
      EnvMap(Upsert(env, "TPS", "5"))["TPS"] == Some("2")
  {
    var env := [EnvRecord("TPS", Some("1")), EnvRecord("TPS", Some("2"))];
    var r := Upsert(env, "TPS", "5");
    assert Names(env)[0] == "TPS";
    assert r == [EnvRecord("TPS", Some("5")), EnvRecord("TPS", Some("2"))];
    EnvMapLastWins(r, "TPS", 1);
  }

  /** A Python list of env dicts that `_set_env` edits in place. */
  class EnvBuffer {
    var entries: seq<EnvRecord>

    constructor (init: seq<EnvRecord>)
      ensures entries == init
    {
      entries := init;
    }

    /** `_set_env(env_list, name, value)`: scan for the first record with
        the name, overwrite its value and stop; append when none matched. */
    method SetEnv(name: string, value: Scalar)
      modifies this
      ensures entries == Upsert(old(entries), name, EnvText(value))
    {
      var text := EnvText(value);
      var i := 0;
      while i < |entries|
        invariant 0 <= i <= |entries| && entries == old(entries)
        invariant forall j :: 0 <= j < i ==> entries[j].name != name
      {
        if entries[i].name == name {
          assert IndexOf(Names(entries), name) == Some(i);
          entries := entries[i := EnvRecord(entries[i].name, Some(text))];
          return;
        }
        i := i + 1;
      }
      assert name !in Names(entries);
      entries := entries + [EnvRecord(name, Some(text))];
    }
  }

  /** The env-building part of `patch_env_simple`: select the container,
      copy its env, apply the five upserts in order. */
  method PatchEnvSimple(containers: seq<Container>, containerName: string,
                        tps: Scalar, conc: Scalar, rpsBlock: Scalar, rpsBal: Scalar, rpsCall: Scalar)
    returns (r: Option<seq<EnvRecord>>)
    ensures r.None? <==> |containers| == 0
    ensures r.Some? ==> r.value == UpsertAll(EnvList(SelectContainer(containers, containerName).value),
                                            PatchSettings(tps, conc, rpsBlock, rpsBal, rpsCall))
  {
    var target := SelectContainer(containers, containerName);
    if target.None? {
      return None;
    }
    var envList := new EnvBuffer(EnvList(target.value));
    envList.SetEnv("TPS", tps);
    envList.SetEnv("CONCURRENCY", conc);
    envList.SetEnv("RPS_BLOCK", rpsBlock);
    envList.SetEnv("RPS_BAL", rpsBal);
    envList.SetEnv("RPS_CALL", rpsCall);
    r := Some(envList.entries);
    PatchSettingsUnfold(EnvList(target.value), tps, conc, rpsBlock, rpsBal, rpsCall);
  }
}
