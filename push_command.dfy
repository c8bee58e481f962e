/** `V2PushCommand.Execute` (command/v2/v2_push_command.go, lines 75-123)
    from the experimental warning on: the calls into the actors are inputs,
    and each application config's apply streams are given as a trace. */
module PushCommand {
  import opened Wrappers
  import opened PushModel
  import opened ApplyStreams

  /** The error `shared.HandleError` makes of an error.  How it translates
      errors is not part of this model; it only wraps the cause. */
  datatype CommandError = Handled(cause: Error)

  /** How `Execute` ends: it returns nil, returns an error, or is still
      inside an apply loop that has not returned (blocked in `select` while
      every channel is open, otherwise looping over closed channels). */
  datatype ExitResult = ExitOk | ExitErr(err: CommandError) | Hung

  /** What `ConvertToApplicationConfig` returned. */
  datatype Conversion = Conversion(configs: seq<AppConfig>, warnings: seq<string>, err: Option<Error>)

  const ExperimentalWarning := "This command is in EXPERIMENTAL stage and may change without notice"
  const GettingAppInfo := "Getting app info..."

  /** The UI calls made before the first apply: the experimental warning,
      "Getting app info..." and the conversion warnings. */
  function Preamble(conversion: Conversion): seq<UICall>
  {
    [DisplayWarning(ExperimentalWarning), DisplayText(GettingAppInfo), DisplayWarnings(conversion.warnings)]
  }

  /** The runs of the apply loop, one per config, each over its own trace. */
  function ConfigRuns(config: Config, configs: seq<AppConfig>, traces: seq<seq<Item>>): seq<Run>
    requires |configs| == |traces|
  {
    seq(|configs|, i requires 0 <= i < |configs| => RunOf(config, configs[i], traces[i]))
  }

  /** The first run at or after `from` that did not return nil. */
  function FirstUnfinishedFrom(runs: seq<Run>, from: nat): (r: Option<nat>)
    requires from <= |runs|
    ensures r.Some? ==> from <= r.value < |runs| && runs[r.value].outcome != Succeeded
    ensures r.Some? ==> forall j :: from <= j < r.value ==> runs[j].outcome == Succeeded
    ensures r.None? ==> forall j :: from <= j < |runs| ==> runs[j].outcome == Succeeded
    decreases |runs| - from
  {
    if from == |runs| then None
    else if runs[from].outcome != Succeeded then Some(from)
    else FirstUnfinishedFrom(runs, from + 1)
  }

  /** The UI calls of the first `n` runs, in order. */
  function AppliedLines(runs: seq<Run>, n: nat): seq<UICall>
    requires n <= |runs|
  {
    if n == 0 then [] else AppliedLines(runs, n - 1) + runs[n - 1].lines
  }

  /** What the per-config loop ends with, given the runs of its configs:
      the first run that did not return nil decides, and the lines shown
      are those of the runs up to and including it. */
  function AppliedOutcome(runs: seq<Run>): (ExitResult, seq<UICall>)
  {
    match FirstUnfinishedFrom(runs, 0)
    case None => (ExitOk, AppliedLines(runs, |runs|))
    case Some(i) =>
      (if runs[i].outcome.Failed? then ExitErr(Handled(runs[i].outcome.err)) else Hung,
       AppliedLines(runs, i + 1))
  }

  /** The command gets past target checking, flag reading and manifest merging. */
  predicate ReachesConversion(checkTargetErr: Option<Error>, getwdErr: Option<Error>, mergeErr: Option<Error>)
  {
    checkTargetErr.None? && getwdErr.None? && mergeErr.None?
  }

  /** `checkTargetErr`, `getwdErr` and `mergeErr` are what `CheckTarget`,
      `os.Getwd` (inside `GetCommandLineSettings`) and
      `MergeAndValidateSettingsAndManifests` returned; `conversion` is what
      `ConvertToApplicationConfig` returned, and `traces[i]` is what the
      apply loop received for the `i`th config. */
  method Execute(config: Config, checkTargetErr: Option<Error>, getwdErr: Option<Error>, mergeErr: Option<Error>,
                 conversion: Conversion, traces: seq<seq<Item>>)
    returns (result: ExitResult, out: seq<UICall>)
    requires |traces| == |conversion.configs|
    // the experimental warning always comes first
    ensures 0 < |out| && out[0] == DisplayWarning(ExperimentalWarning)
    // the checks before the conversion stop at the first error, with nothing else shown
    ensures checkTargetErr.Some? ==> result == ExitErr(Handled(checkTargetErr.value)) && |out| == 1
    ensures checkTargetErr.None? && getwdErr.Some? ==> result == ExitErr(Handled(getwdErr.value)) && |out| == 1
    ensures checkTargetErr.None? && getwdErr.None? && mergeErr.Some? ==> result == ExitErr(Handled(mergeErr.value)) && |out| == 1
    // conversion warnings are shown before the conversion error is looked at
    ensures ReachesConversion(checkTargetErr, getwdErr, mergeErr) ==> 3 <= |out| && out[..3] == Preamble(conversion)
    ensures ReachesConversion(checkTargetErr, getwdErr, mergeErr) && conversion.err.Some? ==>
      result == ExitErr(Handled(conversion.err.value)) && out == Preamble(conversion)
    // the configs are applied in order, up to and including the first whose loop did not return nil
    ensures ReachesConversion(checkTargetErr, getwdErr, mergeErr) && conversion.err.None? ==>
      var (r, applied) := AppliedOutcome(ConfigRuns(config, conversion.configs, traces));
      result == r && out == Preamble(conversion) + applied
  {
    out := [DisplayWarning(ExperimentalWarning)];
    if checkTargetErr.Some? {
      return ExitErr(Handled(checkTargetErr.value)), out;
    }
    if getwdErr.Some? {
      return ExitErr(Handled(getwdErr.value)), out;
    }
    if mergeErr.Some? {
      return ExitErr(Handled(mergeErr.value)), out;
    }
    out := out + [DisplayText(GettingAppInfo)];
    out := out + [DisplayWarnings(conversion.warnings)];
    if conversion.err.Some? {
      return ExitErr(Handled(conversion.err.value)), out;
    }

    var result', applied := ApplyConfigs(config, conversion.configs, traces);
    return result', out + applied;
  }

  /** The per-config loop of `Execute` (lines 112-122): apply each config in
      order, stop at the first whose loop returns an error. */
  method ApplyConfigs(config: Config, configs: seq<AppConfig>, traces: seq<seq<Item>>)
    returns (result: ExitResult, out: seq<UICall>)
    requires |traces| == |configs|
    ensures (result, out) == AppliedOutcome(ConfigRuns(config, configs, traces))
  {
    ghost var runs := ConfigRuns(config, configs, traces);
    out := [];
    var i := 0;
    while i < |configs|
      invariant 0 <= i <= |configs|
      invariant out == AppliedLines(runs, i)
      invariant forall j :: 0 <= j < i ==> runs[j].outcome == Succeeded
    {
      var outcome, lines, consumed := ProcessApplyStreams(config, configs[i], traces[i]);
      assert runs[i] == Run(outcome, lines, consumed);
      out := out + lines;
      if outcome != Succeeded {
        FirstUnfinishedIs(runs, i);
        return (if outcome.Failed? then ExitErr(Handled(outcome.err)) else Hung), out;
      }
      i := i + 1;
    }
    FirstUnfinishedIs(runs, i);
    return ExitOk, out;
  }

  /** The first unfinished run is the one the loop stopped at. */
  lemma FirstUnfinishedIs(runs: seq<Run>, i: nat)
    requires i <= |runs|
    requires forall j :: 0 <= j < i ==> runs[j].outcome == Succeeded
    requires i < |runs| ==> runs[i].outcome != Succeeded
    ensures FirstUnfinishedFrom(runs, 0) == if i < |runs| then Some(i) else None
  {
  }
}
