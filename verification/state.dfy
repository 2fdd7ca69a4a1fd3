/** The four pieces of global state the backend's HTTP handlers read and write
    (backend/main.py:8, 17-19), with the camera and the YOLO class reference
    abstracted away. */
module BackendState {

  /** The memoised result of probing for the detection library: `None` in the
      source until the first probe, then `True` or `False` for the rest of the
      process's life. */
  datatype Availability = Unchecked | Known(installed: bool)

  /** `streaming` is `is_streaming`, `available` is `OBJECT_DETECTION_AVAILABLE`,
      `modelLoaded` says whether `object_detection_model` is non-`None`, and
      `enabled` is `object_detection_enabled`. */
  datatype State = State(streaming: bool, available: Availability, modelLoaded: bool, enabled: bool)

  /** The state at process start. */
  const Initial: State := State(false, Unchecked, false, false)

  /** A model is only ever present once the library is known to be installed,
      and detection is only ever enabled while a model is present. */
  predicate Valid(s: State)
  {
    && (s.modelLoaded ==> s.available == Known(true))
    && (s.enabled ==> s.modelLoaded)
  }

  /** Whether a probe of the library, made now with the given import outcome,
      reports the library as usable: a known answer is returned as is, and only
      an unchecked one consults the import. */
  predicate ProbeSucceeds(a: Availability, importOk: bool)
  {
    a == Known(true) || (a == Unchecked && importOk)
  }

  /** Everything but the streaming flag is the same in `a` and `b`. */
  predicate SameDetection(a: State, b: State)
  {
    a.available == b.available && a.modelLoaded == b.modelLoaded && a.enabled == b.enabled
  }

  /** The boolean the handlers report for availability: an unchecked
      availability is reported as `false`. */
  function Reported(a: Availability): (r: bool)
    ensures r <==> a == Known(true)
    ensures a.Known? ==> r == a.installed
  {
    match a
    case Unchecked => false
    case Known(b) => b
  }

  /** The state at process start satisfies the invariant, with streaming off
      and the library not yet probed. */
  lemma InitialValid()
    ensures Valid(Initial)
    ensures !Initial.streaming && Initial.available == Unchecked
  {
  }

  /** Frames are run through the model when detection is enabled and a model is
      present; under the invariant, which holds while requests are handled one
      at a time, the second test is implied by the first. */
  lemma InferenceGateIsEnabledFlag(s: State)
    requires Valid(s)
    ensures (s.enabled && s.modelLoaded) <==> s.enabled
  {
  }
}
