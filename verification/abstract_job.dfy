/**
 * AbstractJob: the run gate every batch job goes through. It works out the
 * job's effective parameters (the persisted setting's JSON overlaid with the
 * caller's map), launches the job only when the setting allows it, and keeps
 * a correlation id in the logging context while it runs.
 *
 * The JSON parser, the UUID generator and the job launcher are outside the
 * model: Run receives what each of them gives.
 */
module AbstractJob {
  import opened Wrappers
  import opened Domain
  import opened JavaText
  import opened Params
  import opened JobSettingService

  /** `new LinkedHashMap<>(persisted)` followed by merging each caller entry in turn: the caller wins. */
  function Overlay(persisted: ParamMap, caller: ParamMap): ParamMap
    decreases |caller|
  {
    if caller == [] then persisted
    else Overlay(Put(persisted, caller[0].key, caller[0].value), caller[1..])
  }

  /** The keys of ks that are not already known, in ks's order. */
  function Appended(known: seq<string>, ks: seq<string>): seq<string> {
    if ks == [] then []
    else if ks[0] in known then Appended(known, ks[1..])
    else [ks[0]] + Appended(known, ks[1..])
  }

  /** Merging one more caller entry at the end of the loop. */
  lemma {:induction false} OverlaySnoc(persisted: ParamMap, caller: ParamMap, e: Entry)
    ensures Overlay(persisted, caller + [e]) == Put(Overlay(persisted, caller), e.key, e.value)
    decreases |caller|
  {
    if caller == [] {
      assert caller + [e] == [e];
    } else {
      assert (caller + [e])[1..] == caller[1..] + [e];
      OverlaySnoc(Put(persisted, caller[0].key, caller[0].value), caller[1..], e);
    }
  }

  /** After the overlay every caller key holds the caller's value and every other key the persisted one. */
  lemma {:induction false} OverlayLookup(persisted: ParamMap, caller: ParamMap, k: string)
    requires UniqueKeys(caller)
    ensures Lookup(Overlay(persisted, caller), k) == if k in Keys(caller) then Lookup(caller, k) else Lookup(persisted, k)
    decreases |caller|
  {
    if caller != [] {
      var rest := caller[1..];
      assert Keys(caller) == [caller[0].key] + Keys(rest);
      assert UniqueKeys(rest) by {
        assert forall i :: 0 <= i < |rest| ==> Keys(rest)[i] == Keys(caller)[i + 1];
      }
      assert caller[0].key !in Keys(rest) by {
        forall i | 0 <= i < |rest| ensures Keys(rest)[i] != caller[0].key {
          assert Keys(rest)[i] == Keys(caller)[i + 1];
        }
      }
      OverlayLookup(Put(persisted, caller[0].key, caller[0].value), rest, k);
      PutLookup(persisted, caller[0].key, caller[0].value, k);
    }
  }

  lemma {:induction false} AppendedSkipsAbsent(known: seq<string>, x: string, ks: seq<string>)
    requires x !in ks
    ensures Appended(known + [x], ks) == Appended(known, ks)
    decreases |ks|
  {
    if ks != [] {
      assert ks[0] in known + [x] <==> ks[0] in known;
      AppendedSkipsAbsent(known, x, ks[1..]);
    }
  }

  /** Peeling the first caller key off Appended. */
  lemma AppendedCons(known: seq<string>, ks: seq<string>)
    requires ks != []
    ensures Appended(known, ks) == if ks[0] in known then Appended(known, ks[1..]) else [ks[0]] + Appended(known, ks[1..])
  {
  }

  /** The first entry of a map with unique keys does not occur among the rest. */
  lemma UniqueTail(m: ParamMap)
    requires UniqueKeys(m) && m != []
    ensures UniqueKeys(m[1..]) && m[0].key !in Keys(m[1..]) && Keys(m) == [m[0].key] + Keys(m[1..])
  {
    var rest := m[1..];
    assert forall i :: 0 <= i < |rest| ==> Keys(rest)[i] == Keys(m)[i + 1];
    assert Keys(m) == [m[0].key] + Keys(rest);
  }

  /** One merge step on key sequences: putting k first, then appending the rest, is appending k and the rest. */
  lemma AppendedStep(known: seq<string>, k: string, ks: seq<string>, next: seq<string>)
    requires k !in ks
    requires next == if k in known then known else known + [k]
    ensures next + Appended(next, ks) == known + Appended(known, [k] + ks)
  {
    AppendedCons(known, [k] + ks);
    assert ([k] + ks)[1..] == ks;
    if k !in known {
      AppendedSkipsAbsent(known, k, ks);
      assert (known + [k]) + Appended(known, ks) == known + ([k] + Appended(known, ks));
    }
  }

  /** After the overlay the persisted keys keep their order and the caller's new keys follow in caller order. */
  lemma {:induction false} OverlayKeys(persisted: ParamMap, caller: ParamMap)
    requires UniqueKeys(caller)
    ensures Keys(Overlay(persisted, caller)) == Keys(persisted) + Appended(Keys(persisted), Keys(caller))
    decreases |caller|
  {
    if caller == [] {
      assert Keys(caller) == [];
    } else {
      var e := caller[0];
      var rest := caller[1..];
      var next := Put(persisted, e.key, e.value);
      UniqueTail(caller);
      assert Overlay(persisted, caller) == Overlay(next, rest);
      OverlayKeys(next, rest);
      PutKeys(persisted, e.key, e.value);
      AppendedStep(Keys(persisted), e.key, Keys(rest), Keys(next));
    }
  }

  /** What the JSON parser makes of the setting's params: a map (null for a JSON null), or an IOException. */
  datatype ParseResult =
    | Parsed(value: Option<ParamMap>)
    | ParseFailure

  predicate IsEmpty(m: Option<ParamMap>) {
    m.None? || |m.value| == 0
  }

  /**
   * The parameters run leaves in `this.params`: the caller's, unless a
   * setting with non-blank params parses to a non-empty map; then that map
   * alone when the caller gave nothing, or that map overlaid with the
   * caller's.
   */
  function EffectiveParams(caller: Option<ParamMap>, setting: Option<JobSetting>, parsed: ParseResult): (r: Option<ParamMap>)
    ensures setting.None? || IsBlank(setting.value.params) || parsed.ParseFailure? || IsEmpty(parsed.value) ==> r == caller
    ensures setting.Some? && !IsBlank(setting.value.params) && parsed.Parsed? && !IsEmpty(parsed.value) ==>
      r.Some? && (IsEmpty(caller) ==> r == parsed.value)
  {
    if setting.None? || IsBlank(setting.value.params) then caller
    else match parsed
      case ParseFailure => caller
      case Parsed(maps) =>
        if IsEmpty(maps) then caller
        else if IsEmpty(caller) then maps
        else Some(Overlay(maps.value, caller.value))
  }

  /**
   * With a persisted map and caller parameters both present, the caller
   * wins on every key it names, every other key keeps its persisted value,
   * and the persisted keys come first in their order, followed by the
   * caller's new keys in the caller's order.
   */
  lemma EffectiveParamsMerge(caller: Option<ParamMap>, setting: Option<JobSetting>, parsed: ParseResult, k: string)
    requires setting.Some? && !IsBlank(setting.value.params)
    requires parsed.Parsed? && !IsEmpty(parsed.value) && !IsEmpty(caller)
    requires UniqueKeys(caller.value)
    ensures var r := EffectiveParams(caller, setting, parsed);
            && r.Some?
            && Lookup(r.value, k) == (if k in Keys(caller.value) then Lookup(caller.value, k) else Lookup(parsed.value.value, k))
            && Keys(r.value) == Keys(parsed.value.value) + Appended(Keys(parsed.value.value), Keys(caller.value))
  {
    OverlayLookup(parsed.value.value, caller.value, k);
    OverlayKeys(parsed.value.value, caller.value);
  }

  /** The merge loop: a copy of the persisted map, then `merge` of each caller entry in order. */
  method MergeInto(persisted: ParamMap, caller: ParamMap) returns (merged: ParamMap)
    ensures merged == Overlay(persisted, caller)
  {
    merged := persisted;
    for i := 0 to |caller|
      invariant merged == Overlay(persisted, caller[..i])
    {
      OverlaySnoc(persisted, caller[..i], caller[i]);
      assert caller[..i + 1] == caller[..i] + [caller[i]];
      merged := Put(merged, caller[i].key, caller[i].value);
    }
    assert caller[..|caller|] == caller;
  }

  /** The job is launched when there is no setting, or its status is exactly 1. */
  predicate ShouldLaunch(setting: Option<JobSetting>) {
    setting.None? || setting.value.status == Some(1)
  }

  /** What jobLauncher.run ends with. */
  datatype LaunchOutcome =
    | Finished(status: string)
    | AlreadyRunning          // JobExecutionAlreadyRunningException
    | RestartFailed           // JobRestartException
    | AlreadyComplete         // JobInstanceAlreadyCompleteException
    | InvalidParameters       // JobParametersInvalidException
    | Unexpected(error: Throwable)   // anything else, which run does not catch

  /** A launch of the job, with the parameters and correlation id it saw. */
  datatype Launch = Launch(params: Option<ParamMap>, correlationId: Option<string>)

  function UpperAscii(c: char): char {
    if 'a' <= c <= 'z' then (c as int - 'a' as int + 'A' as int) as char else c
  }

  /** `uuid.toUpperCase().replace("-", "")` (ASCII case mapping: a UUID's text is ASCII). */
  function CorrelationId(uuid: string): (cid: string)
    ensures |cid| <= |uuid|
    ensures forall i :: 0 <= i < |cid| ==> cid[i] != '-' && !('a' <= cid[i] <= 'z')
  {
    if uuid == [] then []
    else if uuid[0] == '-' then CorrelationId(uuid[1..])
    else [UpperAscii(uuid[0])] + CorrelationId(uuid[1..])
  }

  /** Character.toUpperCase on ASCII: a lower-case letter becomes its capital, every other character stays. */
  lemma UpperAsciiSpec(c: char)
    ensures 'a' <= c <= 'z' ==> UpperAscii(c) as int == c as int - 32 && 'A' <= UpperAscii(c) <= 'Z'
    ensures !('a' <= c <= 'z') ==> UpperAscii(c) == c
  {
  }

  /** On one character: a hyphen is dropped, anything else is upper-cased. */
  lemma CorrelationIdOfChar(c: char)
    ensures CorrelationId([c]) == if c == '-' then [] else [UpperAscii(c)]
  {
    assert [c][1..] == [];
  }

  /** The transformation works character by character: it distributes over concatenation. */
  lemma {:induction false} CorrelationIdAppend(a: string, b: string)
    ensures CorrelationId(a + b) == CorrelationId(a) + CorrelationId(b)
    decreases |a|
  {
    if a == [] {
      assert a + b == b;
    } else {
      assert (a + b)[0] == a[0] && (a + b)[1..] == a[1..] + b;
      CorrelationIdAppend(a[1..], b);
    }
  }

  /** The number of hyphens in s. */
  function Hyphens(s: string): nat {
    if s == [] then 0 else (if s[0] == '-' then 1 else 0) + Hyphens(s[1..])
  }

  /** Only the hyphens are lost: the result is as long as the UUID text without them. */
  lemma {:induction false} CorrelationIdLength(uuid: string)
    ensures |CorrelationId(uuid)| == |uuid| - Hyphens(uuid)
    decreases |uuid|
  {
    if uuid != [] {
      CorrelationIdLength(uuid[1..]);
    }
  }

  class Job {
    const jobName: string
    /** `this.params`. */
    var params: Option<ParamMap>
    /** The logging context's correlation id entry. */
    var correlationId: Option<string>
    /** The global schedule switch; it is on unless configured off. */
    var scheduleEnabled: bool
    var launches: seq<Launch>

    constructor (jobName: string)
      ensures this.jobName == jobName && params.None? && correlationId.None?
      ensures scheduleEnabled && launches == []
    {
      this.jobName := jobName;
      params := None;
      correlationId := None;
      scheduleEnabled := true;
      launches := [];
    }

    /**
     * run(params): the correlation id goes into the logging context, the
     * effective parameters are worked out, and the job is launched only when
     * the setting allows it. The four launcher exceptions are swallowed; any
     * other failure propagates and leaves the correlation id in place, which
     * a normal return removes.
     */
    method Run(service: JobSettingService, caller: Option<ParamMap>, uuid: string, parsed: ParseResult, outcome: LaunchOutcome)
      returns (thrown: Option<Throwable>)
      modifies this
      ensures scheduleEnabled == old(scheduleEnabled)
      ensures params == EffectiveParams(caller, service.FindByJobName(jobName), parsed)
      ensures launches == old(launches) +
        if ShouldLaunch(service.FindByJobName(jobName)) then [Launch(params, Some(CorrelationId(uuid)))] else []
      ensures thrown.Some? <==> ShouldLaunch(service.FindByJobName(jobName)) && outcome.Unexpected?
      ensures thrown.Some? ==> thrown.value == outcome.error && correlationId == Some(CorrelationId(uuid))
      ensures thrown.None? ==> correlationId.None?
    {
      correlationId := Some(CorrelationId(uuid));
      var setting := service.FindByJobName(jobName);
      var effective := caller;
      if setting.Some? && !IsBlank(setting.value.params) {
        if parsed.Parsed? {
          var maps := parsed.value;
          if maps.Some? && |maps.value| > 0 {
            if caller.None? || |caller.value| == 0 {
              effective := maps;
            } else {
              var merged := MergeInto(maps.value, caller.value);
              effective := Some(merged);
            }
          }
        }
      }
      assert effective == EffectiveParams(caller, setting, parsed);
      params := effective;
      if setting.Some? && setting.value.status != Some(1) {
        // the setting says no run
      } else {
        launches := launches + [Launch(params, correlationId)];
        if outcome.Unexpected? {
          return Some(outcome.error);
        }
      }
      correlationId := None;
      return None;
    }

    /** run(): run without caller parameters. */
    method RunDefault(service: JobSettingService, uuid: string, parsed: ParseResult, outcome: LaunchOutcome)
      returns (thrown: Option<Throwable>)
      modifies this
      ensures params == EffectiveParams(None, service.FindByJobName(jobName), parsed)
      ensures launches == old(launches) +
        if ShouldLaunch(service.FindByJobName(jobName)) then [Launch(params, Some(CorrelationId(uuid)))] else []
      ensures scheduleEnabled == old(scheduleEnabled)
      ensures thrown.Some? <==> ShouldLaunch(service.FindByJobName(jobName)) && outcome.Unexpected?
      ensures thrown.Some? ==> thrown.value == outcome.error && correlationId == Some(CorrelationId(uuid))
      ensures thrown.None? ==> correlationId.None?
    {
      thrown := Run(service, None, uuid, parsed, outcome);
    }

    /** runBySchedule(params): run only while the schedule switch is on; otherwise nothing changes. */
    method RunBySchedule(service: JobSettingService, caller: Option<ParamMap>, uuid: string, parsed: ParseResult, outcome: LaunchOutcome)
      returns (thrown: Option<Throwable>)
      modifies this
      ensures !old(scheduleEnabled) ==> thrown.None? && unchanged(this)
      ensures old(scheduleEnabled) ==>
        && params == EffectiveParams(caller, service.FindByJobName(jobName), parsed)
        && launches == old(launches) +
             (if ShouldLaunch(service.FindByJobName(jobName)) then [Launch(params, Some(CorrelationId(uuid)))] else [])
        && scheduleEnabled == old(scheduleEnabled)
        && (thrown.Some? <==> ShouldLaunch(service.FindByJobName(jobName)) && outcome.Unexpected?)
        && (thrown.Some? ==> thrown.value == outcome.error && correlationId == Some(CorrelationId(uuid)))
        && (thrown.None? ==> correlationId.None?)
    {
      if scheduleEnabled {
        thrown := Run(service, caller, uuid, parsed, outcome);
      } else {
        thrown := None;
      }
    }
  }
}
