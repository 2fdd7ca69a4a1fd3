/** The backend's HTTP handlers and the two helpers they call
    (backend/main.py:21-61, 131-208), each as one atomic transition on the
    abstract state. The outcome of importing the detection library and of
    loading the model file are parameters. */
module Handlers {
  import opened BackendState

  /** Why enabling detection failed: the library is not installed, or the
      model file could not be loaded. */
  datatype EnableFailure = NotInstalled | LoadFailed

  /** The JSON body each handler answers with; the free-text messages are not
      modelled. */
  datatype Reply =
    | Started
    | AlreadyStreaming
    | Stopped
    | AlreadyStopped
    | Enabled(freshlyLoaded: bool)
    | EnableError(reason: EnableFailure)
    | Disabled
    | Healthy(available: bool, streaming: bool)
    | DetectionStatus(available: bool, enabled: bool, modelLoaded: bool)

  /** A handler's new state together with its answer. */
  datatype Outcome = Outcome(state: State, reply: Reply)

  /** A helper's new state together with the boolean it returns. */
  datatype Checked = Checked(state: State, ok: bool)

  /** `check_ultralytics_availability`: a known availability is returned without
      touching anything; an unchecked one is resolved from the import outcome
      and remembered. */
  function CheckAvailability(s: State, importOk: bool): (r: Checked)
    ensures r.ok <==> ProbeSucceeds(s.available, importOk)
    ensures r.state.available == Known(r.ok)
    ensures s.available.Known? ==> r.state == s
    ensures r.state.streaming == s.streaming
    ensures r.state.modelLoaded == s.modelLoaded && r.state.enabled == s.enabled
  {
    match s.available
    case Known(b) => Checked(s, b)
    case Unchecked => Checked(s.(available := Known(importOk)), importOk)
  }

  /** `initialize_object_detection_model`: probe the library; if it is usable,
      try to load the model, keeping it on success and dropping it on failure. */
  function InitializeModel(s: State, importOk: bool, loadOk: bool): (r: Checked)
    ensures r.ok <==> ProbeSucceeds(s.available, importOk) && loadOk
    ensures r.ok ==> r.state.modelLoaded
    ensures ProbeSucceeds(s.available, importOk) ==> r.state.modelLoaded == loadOk
    ensures !ProbeSucceeds(s.available, importOk) ==> r.state.modelLoaded == s.modelLoaded
    ensures r.state.available == Known(ProbeSucceeds(s.available, importOk))
    ensures r.state.streaming == s.streaming && r.state.enabled == s.enabled
  {
    var c := CheckAvailability(s, importOk);
    if !c.ok then Checked(c.state, false)
    else if loadOk then Checked(c.state.(modelLoaded := true), true)
    else Checked(c.state.(modelLoaded := false), false)
  }

  /** `start_stream`: turns streaming on, or reports that it already is. */
  function StartStream(s: State): (r: Outcome)
    ensures r.state.streaming
    ensures SameDetection(s, r.state)
    ensures r.reply == Started <==> !s.streaming
    ensures r.reply == AlreadyStreaming <==> s.streaming
    ensures s.streaming ==> r.state == s
  {
    if !s.streaming then Outcome(s.(streaming := true), Started)
    else Outcome(s, AlreadyStreaming)
  }

  /** `stop_stream`: turns streaming off, or reports that it already is. */
  function StopStream(s: State): (r: Outcome)
    ensures !r.state.streaming
    ensures SameDetection(s, r.state)
    ensures r.reply == Stopped <==> s.streaming
    ensures r.reply == AlreadyStopped <==> !s.streaming
    ensures !s.streaming ==> r.state == s
  {
    if s.streaming then Outcome(s.(streaming := false), Stopped)
    else Outcome(s, AlreadyStopped)
  }

  /** `enable_object_detection`: enables detection only once the library is
      usable and a model is present, loading one first if needed. */
  function EnableDetection(s: State, importOk: bool, loadOk: bool): (r: Outcome)
    ensures r.state.streaming == s.streaming
    ensures r.state.available == Known(ProbeSucceeds(s.available, importOk))
    ensures r.reply.Enabled? || r.reply.EnableError?
    ensures r.reply.Enabled? <==> ProbeSucceeds(s.available, importOk) && (s.modelLoaded || loadOk)
    ensures r.reply.Enabled? ==> r.state.enabled && r.state.modelLoaded
    ensures r.reply.Enabled? ==> (r.reply.freshlyLoaded <==> !s.modelLoaded)
    ensures r.reply == EnableError(NotInstalled) <==> !ProbeSucceeds(s.available, importOk)
    ensures r.reply.EnableError? ==> r.state.enabled == s.enabled
    ensures r.reply == EnableError(NotInstalled) ==> r.state.modelLoaded == s.modelLoaded
    ensures r.reply == EnableError(LoadFailed) ==> !r.state.modelLoaded && !s.modelLoaded
    ensures s.modelLoaded ==> r.state.modelLoaded
    ensures Valid(s) ==> Valid(r.state)
  {
    var c := CheckAvailability(s, importOk);
    if !c.ok then
      Outcome(c.state, EnableError(NotInstalled))
    else if !c.state.modelLoaded then
      var i := InitializeModel(c.state, importOk, loadOk);
      if i.ok then Outcome(i.state.(enabled := true), Enabled(true))
      else Outcome(i.state, EnableError(LoadFailed))
    else
      Outcome(c.state.(enabled := true), Enabled(false))
  }

  /** `disable_object_detection`: unconditionally turns detection off and keeps
      any loaded model. */
  function DisableDetection(s: State): (r: Outcome)
    ensures !r.state.enabled
    ensures r.reply == Disabled
    ensures r.state.streaming == s.streaming
    ensures r.state.available == s.available && r.state.modelLoaded == s.modelLoaded
    ensures Valid(s) ==> Valid(r.state)
  {
    Outcome(s.(enabled := false), Disabled)
  }

  /** `health`: reads the state without changing it. */
  function Health(s: State): (r: Reply)
    ensures r.Healthy?
    ensures r.available <==> s.available == Known(true)
    ensures r.streaming == s.streaming
  {
    Healthy(Reported(s.available), s.streaming)
  }

  /** `object_detection_status`: resolves an unchecked availability, then
      reports availability, the enabled flag and whether a model is present. */
  function ObjectDetectionStatus(s: State, importOk: bool): (r: Outcome)
    ensures r.state.streaming == s.streaming
    ensures r.state.enabled == s.enabled && r.state.modelLoaded == s.modelLoaded
    ensures s.available.Known? ==> r.state == s
    ensures s.available == Unchecked ==> r.state.available == Known(importOk)
    ensures r.reply.DetectionStatus?
    ensures r.reply.available <==> ProbeSucceeds(s.available, importOk)
    ensures r.reply.enabled == s.enabled
    ensures r.reply.modelLoaded == s.modelLoaded
    ensures Valid(s) ==> Valid(r.state)
  {
    var t := if s.available == Unchecked then CheckAvailability(s, importOk).state else s;
    Outcome(t, DetectionStatus(Reported(t.available), t.enabled, t.modelLoaded))
  }

  /** The `status` field of each JSON answer; the status query's answer has none. */
  function StatusText(r: Reply): (t: string)
    requires !r.DetectionStatus?
    ensures t == "started" <==> r.Started?
    ensures t == "already_streaming" <==> r.AlreadyStreaming?
    ensures t == "stopped" <==> r.Stopped?
    ensures t == "already_stopped" <==> r.AlreadyStopped?
    ensures t == "enabled" <==> r.Enabled?
    ensures t == "error" <==> r.EnableError?
    ensures t == "disabled" <==> r.Disabled?
    ensures t == "healthy" <==> r.Healthy?
  {
    match r
    case Started => "started"
    case AlreadyStreaming => "already_streaming"
    case Stopped => "stopped"
    case AlreadyStopped => "already_stopped"
    case Enabled(_) => "enabled"
    case EnableError(_) => "error"
    case Disabled => "disabled"
    case Healthy(_, _) => "healthy"
  }

  /** A second availability check returns what the first one did and changes
      nothing, whatever the second import would have done. */
  lemma CheckAvailabilityMemoised(s: State, first: bool, second: bool)
    ensures CheckAvailability(CheckAvailability(s, first).state, second) == CheckAvailability(s, first)
  {
  }

  /** Starting twice in a row is the same as starting once; the second call
      answers `already_streaming`. */
  lemma StartStreamIdempotent(s: State)
    ensures StartStream(StartStream(s).state) == Outcome(StartStream(s).state, AlreadyStreaming)
  {
  }

  /** Stopping twice in a row is the same as stopping once; the second call
      answers `already_stopped`. */
  lemma StopStreamIdempotent(s: State)
    ensures StopStream(StopStream(s).state) == Outcome(StopStream(s).state, AlreadyStopped)
  {
  }

  /** Stop undoes a start made while stopped, and start undoes a stop made
      while streaming. */
  lemma StartStopRoundTrip(s: State)
    ensures !s.streaming ==> StopStream(StartStream(s).state) == Outcome(s, Stopped)
    ensures s.streaming ==> StartStream(StopStream(s).state) == Outcome(s, Started)
  {
  }

  /** Once an enable has succeeded, enabling again succeeds without loading a
      model and without consulting the import or load outcomes. */
  lemma EnableIdempotent(s: State, importOk: bool, loadOk: bool, importOk': bool, loadOk': bool)
    requires EnableDetection(s, importOk, loadOk).reply.Enabled?
    ensures var e := EnableDetection(s, importOk, loadOk);
            EnableDetection(e.state, importOk', loadOk') == Outcome(e.state, Enabled(false))
  {
  }

  /** Disabling twice is the same as disabling once. Disabling after a
      successful enable keeps the model, so enabling again succeeds without a
      load and returns to the enabled state, whatever the new outcomes. */
  lemma DisableIdempotent(s: State, importOk: bool, loadOk: bool, importOk': bool, loadOk': bool)
    ensures DisableDetection(DisableDetection(s).state) == DisableDetection(s)
    ensures var e := EnableDetection(s, importOk, loadOk);
            e.reply.Enabled? ==>
              EnableDetection(DisableDetection(e.state).state, importOk', loadOk') == Outcome(e.state, Enabled(false))
  {
  }

  /** Once availability is known, the health check and the status query report
      the same availability; before that, the health check reports `false`
      whatever the status query would have found. */
  lemma HealthAgreesWithStatus(s: State, importOk: bool)
    ensures s.available.Known? ==> Health(s).available == ObjectDetectionStatus(s, importOk).reply.available
    ensures s.available == Unchecked ==> !Health(s).available
  {
  }

  /** With requests handled one at a time, the model is only (re)loaded while
      none is present. Were a load to fail while a model is present and
      detection enabled, the failure path would drop the model and leave
      detection enabled without one. */
  lemma InitializeNeedsNoModel(s: State, importOk: bool, loadOk: bool)
    requires Valid(s) && !s.modelLoaded
    ensures Valid(InitializeModel(s, importOk, loadOk).state)
    ensures var bad := State(false, Known(true), true, true);
            Valid(bad) && !Valid(InitializeModel(bad, importOk, false).state)
  {
  }

  /** Two enable requests handled concurrently can both find no model present.
      If the first load succeeds and enables detection, and the second load then
      fails, the second one drops the model while detection stays enabled. */
  lemma OverlappingEnablesBreakInvariant(s: State)
    requires Valid(s) && !s.modelLoaded && s.available == Known(true)
    ensures var first := InitializeModel(s, true, true).state.(enabled := true);
            Valid(first) && !Valid(InitializeModel(first, true, false).state)
  {
  }
}
