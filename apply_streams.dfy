/** The apply display loop `processApplyStreams`
    (command/v2/v2_push_command.go, lines 140-177).

    The Go loop `select`s over three channels.  Here the order in which the
    `select` happened to receive things is an explicit trace of `Item`s; the
    loop consumes the trace front to back, keeps the three flags of the
    source, and either returns (`Succeeded` or `Failed`) or runs out of trace
    while it has not returned yet (`Running`). */
module ApplyStreams {
  import opened Wrappers
  import opened PushModel

  /** One receive of the `select`: a value, or the zero value of a closed channel. */
  datatype Item =
    | EventReceived(event: Event)
    | EventsClosed
    | WarningsReceived(warnings: seq<string>)
    | WarningsClosed
    | ErrorReceived(err: Error)
    | ErrorsClosed

  /** How the loop ends: returned nil, returned an error, or not returned yet. */
  datatype Outcome = Succeeded | Failed(err: Error) | Running

  /** What a run of the loop over a trace produced: its outcome, the UI calls
      it made, and how many items it received before returning. */
  datatype Run = Run(outcome: Outcome, lines: seq<UICall>, consumed: nat)

  function OptionToSeq<T>(o: Option<T>): seq<T>
  {
    if o.Some? then [o.value] else []
  }

  /** The UI calls the loop makes while handling one received item. */
  function ItemDisplay(config: Config, app: AppConfig, item: Item): seq<UICall>
  {
    match item
    case EventReceived(e) => OptionToSeq(ProcessEvent(config, app, e).display)
    case WarningsReceived(ws) => [DisplayWarnings(ws)]
    case WarningsClosed => [DisplayWarnings([])]   // the zero batch of a closed channel
    case _ => []
  }

  /** The UI calls made while handling the items of `seen`, in order. */
  function Rendered(config: Config, app: AppConfig, seen: seq<Item>): seq<UICall>
  {
    if seen == [] then []
    else Rendered(config, app, seen[..|seen| - 1]) + ItemDisplay(config, app, seen[|seen| - 1])
  }

  /** The most recent event received in `seen`, if any. */
  function LatestEvent(seen: seq<Item>): Option<Event>
  {
    if seen == [] then None
    else if seen[|seen| - 1].EventReceived? then Some(seen[|seen| - 1].event)
    else LatestEvent(seen[..|seen| - 1])
  }

  // The loop's three flags, as functions of what it has received so far.

  predicate EventClosedAfter(seen: seq<Item>)
  {
    EventsClosed in seen
  }

  /** The closed error channel also sets `warningsClosed` (line 165). */
  predicate WarningsClosedAfter(seen: seq<Item>)
  {
    WarningsClosed in seen || ErrorsClosed in seen
  }

  /** `complete` holds the latest event's result only: it does not accumulate. */
  predicate CompleteAfter(seen: seq<Item>)
  {
    LatestEvent(seen) == Some(Complete)
  }

  predicate AllDone(seen: seq<Item>)
  {
    EventClosedAfter(seen) && WarningsClosedAfter(seen) && CompleteAfter(seen)
  }

  /** Whether the loop returns right after handling `trace[k]`, given that it
      received `trace[..k]` before. */
  predicate ReturnsAt(config: Config, app: AppConfig, trace: seq<Item>, k: nat)
    requires k < |trace|
  {
    match trace[k]
    case ErrorReceived(_) => true
    case ErrorsClosed => true
    case EventReceived(e) => ProcessEvent(config, app, e).err.Some? || AllDone(trace[..k + 1])
    case _ => AllDone(trace[..k + 1])
  }

  /** What the loop returns when it returns right after `trace[k]`. */
  function OutcomeAt(config: Config, app: AppConfig, trace: seq<Item>, k: nat): (r: Outcome)
    requires k < |trace|
    ensures r != Running
  {
    match trace[k]
    case ErrorReceived(e) => Failed(e)
    case EventReceived(e) =>
      var er := ProcessEvent(config, app, e);
      if er.err.Some? then Failed(er.err.value) else Succeeded
    case _ => Succeeded   // includes the closed error channel: its zero value is nil
  }

  /** The run of the loop over `trace`, from position `from` on: it stops
      right after the first item on which the loop returns; if there is
      none it has not returned yet.  Its meaning is spelled out by `RunOfMeaning`. */
  function RunFrom(config: Config, app: AppConfig, trace: seq<Item>, from: nat): Run
    requires from <= |trace|
    decreases |trace| - from
  {
    if from == |trace| then Run(Running, Rendered(config, app, trace), |trace|)
    else if ReturnsAt(config, app, trace, from) then
      Run(OutcomeAt(config, app, trace, from), Rendered(config, app, trace[..from + 1]), from + 1)
    else RunFrom(config, app, trace, from + 1)
  }

  /** The run of the loop over the whole trace. */
  function RunOf(config: Config, app: AppConfig, trace: seq<Item>): Run
  {
    RunFrom(config, app, trace, 0)
  }

  /** From `from` on, the run consumes the items up to where it stops and
      shows the UI calls of exactly those items. */
  lemma {:induction false} RunFromShown(config: Config, app: AppConfig, trace: seq<Item>, from: nat)
    requires from <= |trace|
    ensures var r := RunFrom(config, app, trace, from);
      && from <= r.consumed <= |trace|
      && r.lines == Rendered(config, app, trace[..r.consumed])
      && (r.outcome == Running ==> r.consumed == |trace|)
      && (r.outcome != Running ==> from < r.consumed)
    decreases |trace| - from
  {
    if from == |trace| {
      assert trace[..|trace|] == trace;
    } else if !ReturnsAt(config, app, trace, from) {
      RunFromShown(config, app, trace, from + 1);
    }
  }

  /** From `from` on, the run stops right after the first item on which the
      loop returns, with that item's outcome; it is still running exactly
      when no item makes the loop return. */
  lemma {:induction false} RunFromStops(config: Config, app: AppConfig, trace: seq<Item>, from: nat)
    requires from <= |trace|
    ensures var r := RunFrom(config, app, trace, from);
      && (r.outcome == Running <==> forall j :: from <= j < |trace| ==> !ReturnsAt(config, app, trace, j))
      && (r.outcome != Running ==>
           && from < r.consumed <= |trace|
           && ReturnsAt(config, app, trace, r.consumed - 1)
           && r.outcome == OutcomeAt(config, app, trace, r.consumed - 1)
           && forall j :: from <= j < r.consumed - 1 ==> !ReturnsAt(config, app, trace, j))
    decreases |trace| - from
  {
    if from < |trace| && !ReturnsAt(config, app, trace, from) {
      RunFromStops(config, app, trace, from + 1);
      assert RunFrom(config, app, trace, from) == RunFrom(config, app, trace, from + 1);
    }
  }

  /** What the run over the whole trace is: it stops right after the first
      item on which the loop returns, with that item's outcome and the UI
      calls of every item up to it; it is still running, having shown every
      item's calls, exactly when no item makes the loop return. */
  lemma RunOfMeaning(config: Config, app: AppConfig, trace: seq<Item>)
    ensures var r := RunOf(config, app, trace);
      && r.consumed <= |trace|
      && r.lines == Rendered(config, app, trace[..r.consumed])
      && (r.outcome == Running <==> forall j :: 0 <= j < |trace| ==> !ReturnsAt(config, app, trace, j))
      && (r.outcome == Running ==> r.consumed == |trace|)
      && (r.outcome != Running ==>
           && 0 < r.consumed
           && ReturnsAt(config, app, trace, r.consumed - 1)
           && r.outcome == OutcomeAt(config, app, trace, r.consumed - 1)
           && forall j :: 0 <= j < r.consumed - 1 ==> !ReturnsAt(config, app, trace, j))
  {
    RunFromShown(config, app, trace, 0);
    RunFromStops(config, app, trace, 0);
  }

  /** How the flags and the display change when the loop receives `trace[i]`. */
  lemma ReceiveOne(config: Config, app: AppConfig, trace: seq<Item>, i: nat)
    requires i < |trace|
    ensures EventClosedAfter(trace[..i + 1]) == (EventClosedAfter(trace[..i]) || trace[i] == EventsClosed)
    ensures WarningsClosedAfter(trace[..i + 1])
        == (WarningsClosedAfter(trace[..i]) || trace[i] == WarningsClosed || trace[i] == ErrorsClosed)
    ensures LatestEvent(trace[..i + 1])
        == if trace[i].EventReceived? then Some(trace[i].event) else LatestEvent(trace[..i])
    ensures Rendered(config, app, trace[..i + 1]) == Rendered(config, app, trace[..i]) + ItemDisplay(config, app, trace[i])
  {
    assert trace[..i + 1] == trace[..i] + [trace[i]];
    assert trace[..i + 1][..i] == trace[..i];
  }

  /** The run is determined by the first index at which the loop returns. */
  lemma RunStopsAt(config: Config, app: AppConfig, trace: seq<Item>, k: nat)
    requires k < |trace| && ReturnsAt(config, app, trace, k)
    requires forall j :: 0 <= j < k ==> !ReturnsAt(config, app, trace, j)
    ensures RunOf(config, app, trace) == Run(OutcomeAt(config, app, trace, k), Rendered(config, app, trace[..k + 1]), k + 1)
  {
    RunOfMeaning(config, app, trace);
  }

  /** The loop itself. */
  method ProcessApplyStreams(config: Config, app: AppConfig, trace: seq<Item>)
    returns (outcome: Outcome, lines: seq<UICall>, consumed: nat)
    ensures Run(outcome, lines, consumed) == RunOf(config, app, trace)
  {
    var eventClosed, warningsClosed, complete := false, false, false;
    lines := [];
    var i := 0;
    while i < |trace|
      invariant 0 <= i <= |trace|
      invariant eventClosed == EventClosedAfter(trace[..i])
      invariant warningsClosed == WarningsClosedAfter(trace[..i])
      invariant complete == CompleteAfter(trace[..i])
      invariant lines == Rendered(config, app, trace[..i])
      // no item before `i` made the loop return
      invariant RunFrom(config, app, trace, i) == RunOf(config, app, trace)
    {
      var item := trace[i];
      ReceiveOne(config, app, trace, i);
      match item {
        case EventReceived(e) =>
          var r := ProcessEvent(config, app, e);
          complete := r.complete;
          lines := lines + OptionToSeq(r.display);
          if r.err.Some? {
            return Failed(r.err.value), lines, i + 1;
          }
        case EventsClosed =>
          eventClosed := true;
        case WarningsReceived(ws) =>
          lines := lines + [DisplayWarnings(ws)];
        case WarningsClosed =>
          warningsClosed := true;
          lines := lines + [DisplayWarnings([])];
        case ErrorReceived(e) =>
          return Failed(e), lines, i + 1;
        case ErrorsClosed =>
          warningsClosed := true;
          return Succeeded, lines, i + 1;
      }
      assert AllDone(trace[..i + 1]) == (eventClosed && warningsClosed && complete);
      if eventClosed && warningsClosed && complete {
        return Succeeded, lines, i + 1;
      }
      i := i + 1;
    }
    assert trace[..i] == trace;
    return Running, lines, |trace|;
  }
}
