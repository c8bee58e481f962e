/** Concrete runs of the apply display loop. */
module ApplyScenarios {
  import opened Wrappers
  import opened PushModel
  import opened ApplyStreams

  /** The items of a full, error-free push as the loop receives them. */
  function FullPushTrace(): seq<Item>
  {
    [EventReceived(ApplicationCreated), EventReceived(RouteCreated), EventReceived(RouteBound),
     EventReceived(UploadingApplication), EventReceived(UploadComplete), EventReceived(Complete),
     EventsClosed, WarningsClosed, ErrorsClosed]
  }

  /** While the events channel is open, an item that is not an error and
      whose event (if any) is handled without error does not end the loop. */
  lemma OpenEventsKeepLoopRunning(config: Config, app: AppConfig, trace: seq<Item>, j: nat)
    requires j < |trace| && EventsClosed !in trace[..j + 1]
    requires !trace[j].ErrorReceived? && trace[j] != ErrorsClosed
    requires trace[j].EventReceived? ==> ProcessEvent(config, app, trace[j].event).err.None?
    ensures !ReturnsAt(config, app, trace, j)
  {
  }

  /** In a full push the loop first returns on the closed warnings channel. */
  lemma FullPushReturnsOnWarningsClosed(config: Config, app: AppConfig)
    requires config.currentUser.Success?
    ensures forall j :: 0 <= j < 7 ==> !ReturnsAt(config, app, FullPushTrace(), j)
    ensures ReturnsAt(config, app, FullPushTrace(), 7)
  {
    var trace := FullPushTrace();
    forall j | 0 <= j < 6 ensures !ReturnsAt(config, app, trace, j) {
      assert forall x :: x in trace[..j + 1] ==> x in trace[..6];
      OpenEventsKeepLoopRunning(config, app, trace, j);
    }
    assert WarningsClosed !in trace[..7] && ErrorsClosed !in trace[..7];
    assert !ReturnsAt(config, app, trace, 6);
    ReceiveOne(config, app, trace, 6);
    ReceiveOne(config, app, trace, 7);
    assert LatestEvent(trace[..6]) == Some(Complete);
  }

  /** A full, error-free push: every stage event, `Complete`, then the events
      and warnings channels close.  The loop returns nil on the closed
      warnings channel, before it sees the closed error channel; it shows the
      five stage lines and then the empty batch of the closed warnings channel. */
  lemma ScenarioFullPush(config: Config, app: AppConfig, user: User)
    requires config.currentUser == Success(user)
    ensures RunOf(config, app, FullPushTrace()) == Run(Succeeded,
        [DisplayTextWithFlavor(CreatingAppTemplate, AppParams(config, app, user)),
         DisplayText(CreatingRoutes), DisplayText(BindingRoutes), DisplayText(UploadingApp), DisplayText(UploadDone),
         DisplayWarnings([])], 8)
  {
    var trace := FullPushTrace();
    FullPushReturnsOnWarningsClosed(config, app);
    RunStopsAt(config, app, trace, 7);
    FullPushLines(config, app, user);
  }

  lemma FullPushItems(config: Config, app: AppConfig, user: User)
    requires config.currentUser == Success(user)
    ensures var t := FullPushTrace();
      && ItemDisplay(config, app, t[0]) == [DisplayTextWithFlavor(CreatingAppTemplate, AppParams(config, app, user))]
      && ItemDisplay(config, app, t[1]) == [DisplayText(CreatingRoutes)]
      && ItemDisplay(config, app, t[2]) == [DisplayText(BindingRoutes)]
      && ItemDisplay(config, app, t[3]) == [DisplayText(UploadingApp)]
      && ItemDisplay(config, app, t[4]) == [DisplayText(UploadDone)]
      && ItemDisplay(config, app, t[5]) == []
      && ItemDisplay(config, app, t[6]) == []
      && ItemDisplay(config, app, t[7]) == [DisplayWarnings([])]
  {
  }

  /** The UI calls of the first four items of a full push. */
  lemma FullPushFirstLines(config: Config, app: AppConfig, user: User)
    requires config.currentUser == Success(user)
    ensures Rendered(config, app, FullPushTrace()[..4]) ==
      [DisplayTextWithFlavor(CreatingAppTemplate, AppParams(config, app, user)),
       DisplayText(CreatingRoutes), DisplayText(BindingRoutes), DisplayText(UploadingApp)]
  {
    var t := FullPushTrace();
    FullPushItems(config, app, user);
    assert t[..0] == [];
    ReceiveOne(config, app, t, 0);
    ReceiveOne(config, app, t, 1);
    ReceiveOne(config, app, t, 2);
    ReceiveOne(config, app, t, 3);
  }

  /** The UI calls of the first eight items of a full push. */
  lemma FullPushLines(config: Config, app: AppConfig, user: User)
    requires config.currentUser == Success(user)
    ensures Rendered(config, app, FullPushTrace()[..8]) ==
      [DisplayTextWithFlavor(CreatingAppTemplate, AppParams(config, app, user)),
       DisplayText(CreatingRoutes), DisplayText(BindingRoutes), DisplayText(UploadingApp), DisplayText(UploadDone),
       DisplayWarnings([])]
  {
    var t := FullPushTrace();
    FullPushItems(config, app, user);
    FullPushFirstLines(config, app, user);
    ReceiveOne(config, app, t, 4);
    ReceiveOne(config, app, t, 5);
    ReceiveOne(config, app, t, 6);
    ReceiveOne(config, app, t, 7);
  }

  /** An error after the first event: the run fails with that error at once,
      having shown only the "Creating app" line. */
  lemma ScenarioErrorAfterCreate(config: Config, app: AppConfig, user: User, err: Error, later: seq<Item>)
    requires config.currentUser == Success(user)
    ensures RunOf(config, app, [EventReceived(ApplicationCreated), ErrorReceived(err)] + later)
      == Run(Failed(err), [DisplayTextWithFlavor(CreatingAppTemplate, AppParams(config, app, user))], 2)
  {
    var trace := [EventReceived(ApplicationCreated), ErrorReceived(err)] + later;
    ReceiveOne(config, app, trace, 0);
    ReceiveOne(config, app, trace, 1);
    assert trace[..0] == [];
    RunStopsAt(config, app, trace, 1);
  }

  /** A warning that arrives after `Complete` is still shown; the run ends
      only once the events channel closes too. */
  lemma ScenarioWarningAfterComplete(config: Config, app: AppConfig)
    ensures var three := [EventReceived(Complete), WarningsReceived(["disk quota near limit"]), WarningsClosed];
      && RunOf(config, app, three) == Run(Running, [DisplayWarnings(["disk quota near limit"]), DisplayWarnings([])], 3)
      && RunOf(config, app, three + [EventsClosed])
         == Run(Succeeded, [DisplayWarnings(["disk quota near limit"]), DisplayWarnings([])], 4)
  {
    var three := [EventReceived(Complete), WarningsReceived(["disk quota near limit"]), WarningsClosed];
    assert three[..0] == [];
    ReceiveOne(config, app, three, 0); ReceiveOne(config, app, three, 1); ReceiveOne(config, app, three, 2);
    assert three[..3] == three;
    assert !ReturnsAt(config, app, three, 0) && !ReturnsAt(config, app, three, 1) && !ReturnsAt(config, app, three, 2);
    RunOfMeaning(config, app, three);
    var trace := three + [EventsClosed];
    assert trace[..1] == three[..1] && trace[..2] == three[..2] && trace[..3] == three;
    ReceiveOne(config, app, trace, 3);
    RunStopsAt(config, app, trace, 3);
  }

  /** The events channel closes without `Complete`: while the error channel
      stays open the loop keeps looping, but once the error channel closes it
      returns nil all the same. */
  lemma ScenarioClosedWithoutComplete(config: Config, app: AppConfig, user: User)
    requires config.currentUser == Success(user)
    ensures var trace := [EventReceived(ApplicationUpdated), EventsClosed, WarningsClosed];
      && RunOf(config, app, trace).outcome == Running
      && RunOf(config, app, trace + [ErrorsClosed]).outcome == Succeeded
  {
    var trace := [EventReceived(ApplicationUpdated), EventsClosed, WarningsClosed];
    assert trace[..0] == [];
    ReceiveOne(config, app, trace, 0); ReceiveOne(config, app, trace, 1); ReceiveOne(config, app, trace, 2);
    assert !ReturnsAt(config, app, trace, 0) && !ReturnsAt(config, app, trace, 1) && !ReturnsAt(config, app, trace, 2);
    RunOfMeaning(config, app, trace);
    var closed := trace + [ErrorsClosed];
    assert closed[..1] == trace[..1] && closed[..2] == trace[..2] && closed[..3] == trace[..3];
    assert !ReturnsAt(config, app, closed, 0) && !ReturnsAt(config, app, closed, 1) && !ReturnsAt(config, app, closed, 2);
    RunStopsAt(config, app, closed, 3);
  }

  /** Every receive from the closed warnings channel shows the empty batch,
      and none makes the loop return while `Complete` is not the latest event. */
  lemma ClosedWarningsShowEmptyBatch(config: Config, app: AppConfig, trace: seq<Item>, k: nat)
    requires k < |trace| && trace[k] == WarningsClosed && LatestEvent(trace[..k]) != Some(Complete)
    ensures !ReturnsAt(config, app, trace, k)
    ensures ItemDisplay(config, app, trace[k]) == [DisplayWarnings([])]
  {
    ReceiveOne(config, app, trace, k);
  }

  /** Once the events and warnings channels are closed without `Complete`,
      the closed warnings channel can be received from again and again: each
      receive shows the empty batch once more, and the loop does not return. */
  lemma ClosedWarningsRepeat(config: Config, app: AppConfig)
    ensures RunOf(config, app, [EventsClosed, WarningsClosed, WarningsClosed])
      == Run(Running, [DisplayWarnings([]), DisplayWarnings([])], 3)
  {
    var trace := [EventsClosed, WarningsClosed, WarningsClosed];
    assert trace[..0] == [];
    ReceiveOne(config, app, trace, 0); ReceiveOne(config, app, trace, 1); ReceiveOne(config, app, trace, 2);
    assert trace[..3] == trace;
    assert !ReturnsAt(config, app, trace, 0) && !ReturnsAt(config, app, trace, 1) && !ReturnsAt(config, app, trace, 2);
    RunOfMeaning(config, app, trace);
  }
}
