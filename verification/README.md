# Web-cam backend: detection and streaming state machine

This project models the HTTP handlers of the web-cam application's Flask
backend (`backend/main.py`) as a verified state machine. The handlers share
four pieces of global state:

- the streaming flag `is_streaming`;
- the memoised availability of the detection library `OBJECT_DETECTION_AVAILABLE`
  (`None`, `True` or `False`, modelled as `Unchecked | Known(b)`);
- whether a detection model is loaded (`object_detection_model` is not `None`);
- the detection flag `object_detection_enabled`.

Each state-changing route (`/start_stream`, `/stop_stream`,
`/enable_object_detection`, `/disable_object_detection`,
`/object_detection_status`) is a pure function from a `State` to a new `State`
and a typed `Reply`. The read-only `/health` route is a function from a `State`
to a `Reply` alone; request dispatch pairs it with the unchanged state. The two
nondeterministic library calls become boolean parameters: `importOk` says
whether `from ultralytics import YOLO` succeeds, and `loadOk` says whether
`YOLO(model_path)` succeeds.

The central property is the invariant `Valid`: a model is present only when the
library is known to be installed, and detection is enabled only while a model
is present. Every handler preserves it (`Server.Step`), so every state reachable
from process start satisfies it (`Server.ReachableValid`).

Files:

- `recency.dfy` — `Recency`: the flag asked for by the latest request of some kind, if any.
- `state.dfy` — `BackendState`: the state record, the initial state, the invariant.
- `handlers.dfy` — `Handlers`: the two helpers and six route handlers, with
  idempotence, round-trip and memoisation lemmas.
- `server.dfy` — `Server`: request dispatch, serving a sequence of requests, and
  inductive lemmas over whole request sequences.

## Model

| member | source | states |
|---|---|---|
| BackendState.Reported | backend/main.py:189 | The reported availability is true exactly when the library is known to be installed. An unchecked availability reads as false. |
| BackendState.InitialValid | backend/main.py:8-19 | The process starts with streaming off and the library unchecked. The invariant holds there. |
| BackendState.InferenceGateIsEnabledFlag | backend/main.py:96 | Under the invariant, the per-frame test "enabled and model present" is equivalent to the enabled flag alone. |
| Handlers.CheckAvailability | backend/main.py:21-38 | The probe answers true exactly when the library is already known to be installed, or is unchecked and the import succeeds. The answer is then remembered. A known answer is returned with the state untouched. Streaming, model and enabled flag never change. |
| Handlers.InitializeModel | backend/main.py:40-61 | The helper succeeds exactly when the probe succeeds and the load succeeds. When the probe succeeds, the model is present afterwards exactly when the load succeeded. A failed probe leaves the model as it was. The enabled flag and streaming are untouched. |
| Handlers.StartStream | backend/main.py:131-140 | Streaming is on afterwards. The answer is `started` exactly when streaming was off, and `already_streaming` exactly when it was on. If it was already on, nothing changes. Detection state is untouched. |
| Handlers.StopStream | backend/main.py:142-151 | Streaming is off afterwards. The answer is `stopped` exactly when streaming was on, and `already_stopped` exactly when it was off. If it was already off, nothing changes. Detection state is untouched. |
| Handlers.EnableDetection | backend/main.py:153-174 | Enabling succeeds exactly when the probe succeeds and a model was present or loads. On success, detection is enabled with a model present, and the answer says whether the model was loaded now. A "not installed" error happens exactly when the probe fails; it keeps the model. A load error leaves no model. No error changes the enabled flag. Streaming is untouched. A loaded model stays loaded, and the invariant is preserved. |
| Handlers.DisableDetection | backend/main.py:176-182 | Detection is off afterwards and the answer is `disabled`. Streaming, availability and the model are untouched, and the invariant is preserved. |
| Handlers.Health | backend/main.py:184-191 | The reply is a health reply. Its availability is true exactly when the library is known to be installed. It echoes the streaming flag. The handler returns no new state. |
| Handlers.ObjectDetectionStatus | backend/main.py:193-208 | Only an unchecked availability is resolved, from the import outcome. Streaming, the enabled flag and the model never change. The reply reports the probe's result, the enabled flag, and `model_loaded` exactly when a model is present. The invariant is preserved. |
| Handlers.StatusText | backend/main.py:131-191 | Each JSON `status` string (`started`, `already_streaming`, `stopped`, `already_stopped`, `enabled`, `error`, `disabled`, `healthy`) is produced by exactly one kind of reply. |
| Handlers.CheckAvailabilityMemoised | backend/main.py:25-26 | A second probe returns the first probe's answer and state, whatever the second import would do. |
| Handlers.StartStreamIdempotent | backend/main.py:136-140 | A second consecutive start changes nothing and answers `already_streaming`. |
| Handlers.StopStreamIdempotent | backend/main.py:147-151 | A second consecutive stop changes nothing and answers `already_stopped`. |
| Handlers.StartStopRoundTrip | backend/main.py:131-151 | Stop restores the exact state from before a start that found streaming off, answering `stopped`. Start likewise undoes a stop that found streaming on. |
| Handlers.EnableIdempotent | backend/main.py:171-174 | After a successful enable, enabling again succeeds without loading, changes nothing and ignores the import and load outcomes. |
| Handlers.DisableIdempotent | backend/main.py:176-182 | Disabling twice equals disabling once. After a successful enable, a disable then a re-enable succeeds without loading and restores the enabled state, whatever the import and load outcomes. |
| Handlers.HealthAgreesWithStatus | backend/main.py:184-208 | Once availability is known, health and status report the same availability. Before that, health reports false. |
| Handlers.InitializeNeedsNoModel | backend/main.py:162-170 | Model initialisation preserves the invariant when called with no model present, as the enable handler does. A failed load with a model present and detection enabled would break the invariant. |
| Handlers.OverlappingEnablesBreakInvariant | backend/main.py:162-170 | When two enable requests both find no model, a successful first load followed by a failed second load leaves detection enabled without a model. Only serialized handling rules this out. |
| Server.Step | backend/main.py:131-208 | Every route preserves the invariant. The health route changes nothing. No route unloads a model or changes a known availability. Only enable and status can change availability. |
| Server.Replies | backend/main.py:131-208 | Serving a sequence of requests gives exactly one answer per request. |
| Server.Serve | backend/main.py:131-208 | Handling requests one at a time reaches the same state and gives the same answers as the reference `Run` and `Replies`. It keeps the invariant. |
| Server.RunPreservesValid | backend/main.py:131-208 | From any valid state, every sequence of requests leads to a valid state. |
| Server.ReachableValid | backend/main.py:8-19 | Every state reachable from process start satisfies the invariant. |
| Server.StreamingFollowsLastCommand | backend/main.py:131-151 | After any sequence of requests, streaming equals what the latest start or stop request asked for. It is the initial flag if there was none. |
| Server.AvailabilityMemoised | backend/main.py:21-38 | Over any sequence of requests, a known availability never changes. An unchecked one ends as the import outcome of the first probing request (enable or status). It stays unchecked if no request probes. |
| Server.ModelNeverUnloaded | backend/main.py:162-174 | No sequence of requests unloads a loaded model. |
| Server.EnabledOnlyAfterEnable | backend/main.py:153-182 | Detection ends enabled only if the latest toggle was an enable, or there was no toggle and it started enabled. With no toggle, an enabled flag stays enabled. |
| Server.RunSnoc | backend/main.py:131-208 | Serving one more request continues from the state the earlier requests left. |
| Server.RepliesAppend | backend/main.py:131-208 | Serving two request sequences back to back gives the first sequence's answers followed by the second's, with the second served from where the first left off. |
| Server.RepliesPointwise | backend/main.py:131-208 | The answer to the i-th request is its handler's reply in the state left by the requests before it. |

## Left out

- Flask routing, JSON serialisation, CORS and `app.run` (backend/main.py:4-12, 210-223) are framework plumbing. Replies are a typed datatype. The `status` strings and data fields are modelled, not the free-text messages.
- Camera access, `get_camera`/`release_camera` and their lock (backend/main.py:63-80) are device I/O and thread locking.
- `video_feed` and `generate_frames` (backend/main.py:82-129) are left out: the black-frame response, JPEG encoding, the ~30 FPS sleep and the unbounded frame generator are I/O and timing. Only the inference gate at line 96 is stated, as `BackendState.InferenceGateIsEnabledFlag`.
- YOLO import, model loading and inference are foreign library calls. Their outcomes are the boolean parameters `importOk` and `loadOk`. An import error other than `ImportError` escapes the handler in the source; the model treats every import failure as `importOk == false`. In the source, `OBJECT_DETECTION_AVAILABLE` stays `None`, the request fails with HTTP 500, and the next enable or status request retries the import. The model instead records `Known(false)` for good. It answers `error` to an enable request, and a status reply with `available: false` to a status request.
- Server.AvailabilityMemoised: its claim that an unchecked availability ends as the first probing request's import outcome holds only when every import failure is an `ImportError`. A different import error leaves availability unchecked for the next request to probe again.
- Logging via `print` is not modelled.
- Threaded Flask requests run concurrently in the source (`threaded=True`, backend/main.py:218). The model treats each handler as one atomic step.
- Server.ReachableValid, Server.ModelNeverUnloaded and BackendState.InferenceGateIsEnabledFlag hold for serialized requests only. Two overlapping enable requests can both pass the "no model" guard at backend/main.py:162. If the first then enables detection and the second's load fails, line 60 drops the model while detection stays enabled. `Handlers.OverlappingEnablesBreakInvariant` exhibits this interleaving.
- The desktop shell's process supervisor and its UI-side polling client run in the desktop shell, not in `backend/main.py`, and are outside this model.
