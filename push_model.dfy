/** The values the v2 push command works with, and `processEvent`: the mapping
    from one push event to the status line it shows and the completion flag
    it reports (command/v2/v2_push_command.go, lines 179-226). */
module PushModel {
  import opened Wrappers

  /** A push event as sent by the apply actor.  `OtherEvent` stands for any
      event value that the switch in `processEvent` does not name. */
  datatype Event =
    | ApplicationCreated
    | ApplicationUpdated
    | RouteCreated
    | RouteBound
    | UploadingApplication
    | UploadComplete
    | Complete
    | OtherEvent(name: string)

  /** An opaque Go error value (never nil; nil is `None` of an `Option<Error>`). */
  datatype Error = Error(message: string)

  datatype User = User(name: string)

  /** What the command reads from its configuration: the names of the
      targeted organization and space, and the answer of `CurrentUser()`. */
  datatype Config = Config(orgName: string, spaceName: string, currentUser: Result<User, Error>)

  /** One application config produced from the manifest; only the desired
      application's name is displayed. */
  datatype AppConfig = AppConfig(desiredName: string)

  /** One call the command makes on its UI, in the order it makes them. */
  datatype UICall =
    | DisplayText(text: string)
    | DisplayTextWithFlavor(template: string, params: map<string, string>)
    | DisplayWarning(warning: string)
    | DisplayWarnings(warnings: seq<string>)

  const CreatingAppTemplate := "Creating app {{.AppName}} in org {{.OrgName}} / space {{.SpaceName}} as {{.Username}}..."
  const UpdatingAppTemplate := "Updating app {{.AppName}} in org {{.OrgName}} / space {{.SpaceName}} as {{.Username}}..."
  const CreatingRoutes := "Creating routes..."
  const BindingRoutes := "Binding routes..."
  const UploadingApp := "Uploading application..."
  const UploadDone := "Upload complete"

  /** What `processEvent` does for one event: the UI call it makes (if any),
      and its `(bool, error)` result. */
  datatype EventResult = EventResult(display: Option<UICall>, complete: bool, err: Option<Error>)

  /** The parameter map of the "Creating app" / "Updating app" templates. */
  function AppParams(config: Config, app: AppConfig, user: User): map<string, string>
  {
    map["AppName" := app.desiredName, "OrgName" := config.orgName,
        "SpaceName" := config.spaceName, "Username" := user.name]
  }

  /** Look up the current user and show `template` with the app's names. */
  function AnnounceApp(config: Config, app: AppConfig, template: string): EventResult
  {
    match config.currentUser
    case Failure(e) => EventResult(None, false, Some(e))
    case Success(user) => EventResult(Some(DisplayTextWithFlavor(template, AppParams(config, app, user))), false, None)
  }

  function ProcessEvent(config: Config, app: AppConfig, e: Event): (r: EventResult)
    // only the terminal event reports completion
    ensures r.complete <==> e == Complete
    // the only failure is a failed user lookup, and only the app events look the user up
    ensures r.err.Some? <==> (e == ApplicationCreated || e == ApplicationUpdated) && config.currentUser.Failure?
    ensures r.err.Some? ==> r.err.value == config.currentUser.error && r.display.None? && !r.complete
    // every event other than Complete and unknown ones shows exactly one call, unless it failed
    ensures r.display.None? <==> e == Complete || e.OtherEvent? || r.err.Some?
  {
    match e
    case ApplicationCreated => AnnounceApp(config, app, CreatingAppTemplate)
    case ApplicationUpdated => AnnounceApp(config, app, UpdatingAppTemplate)
    case RouteCreated => EventResult(Some(DisplayText(CreatingRoutes)), false, None)
    case RouteBound => EventResult(Some(DisplayText(BindingRoutes)), false, None)
    case UploadingApplication => EventResult(Some(DisplayText(UploadingApp)), false, None)
    case UploadComplete => EventResult(Some(DisplayText(UploadDone)), false, None)
    case Complete => EventResult(None, true, None)
    case OtherEvent(_) => EventResult(None, false, None)
  }

  /** The app events name the app, org, space and user in their line; each
      route and upload event shows its own fixed text. */
  lemma {:induction false} EventLines(config: Config, app: AppConfig, e: Event)
    requires ProcessEvent(config, app, e).display.Some?
    ensures var call := ProcessEvent(config, app, e).display.value;
      && (e == ApplicationCreated || e == ApplicationUpdated ==>
            && call.DisplayTextWithFlavor?
            && call.template == (if e == ApplicationCreated then CreatingAppTemplate else UpdatingAppTemplate)
            && call.params.Keys == {"AppName", "OrgName", "SpaceName", "Username"}
            && call.params["AppName"] == app.desiredName
            && call.params["OrgName"] == config.orgName
            && call.params["SpaceName"] == config.spaceName
            && call.params["Username"] == config.currentUser.value.name)
      && (e == RouteCreated ==> call == DisplayText(CreatingRoutes))
      && (e == RouteBound ==> call == DisplayText(BindingRoutes))
      && (e == UploadingApplication ==> call == DisplayText(UploadingApp))
      && (e == UploadComplete ==> call == DisplayText(UploadDone))
  {
  }

  /** Different events that show something show different calls, so the
      operator can tell from the display which stage was reached. */
  lemma {:induction false} DistinctEventsDistinctLines(config: Config, app: AppConfig, e1: Event, e2: Event)
    requires ProcessEvent(config, app, e1).display.Some?
    requires ProcessEvent(config, app, e2).display.Some?
    requires e1 != e2
    ensures ProcessEvent(config, app, e1).display != ProcessEvent(config, app, e2).display
  {
  }

  /** The event's outcome depends on the user lookup only for the app events. */
  lemma {:induction false} UserLookupOnlyForAppEvents(config: Config, app: AppConfig, e: Event, user: Result<User, Error>)
    requires e != ApplicationCreated && e != ApplicationUpdated
    ensures ProcessEvent(config.(currentUser := user), app, e) == ProcessEvent(config, app, e)
  {
  }
}
