/** The backend as a server: the routes it exposes, dispatch of one request to
    its handler, and the effect of serving a sequence of requests one at a time
    (each handler runs as one atomic step). */
module Server {
  import opened BackendState
  import opened Handlers
  import opened Recency

  /** One HTTP request to a state-changing or state-reading route. Requests
      that may probe the library carry the import outcome they would see, and
      an enable request also carries the model-load outcome. */
  datatype Request =
    | PostStartStream
    | PostStopStream
    | PostEnable(importOk: bool, loadOk: bool)
    | PostDisable
    | GetHealth
    | GetStatus(importOk: bool)

  /** Route a request to its handler. */
  function Step(s: State, q: Request): (r: Outcome)
    ensures Valid(s) ==> Valid(r.state)
    ensures q.GetHealth? ==> r.state == s
    ensures s.modelLoaded ==> r.state.modelLoaded
    ensures s.available.Known? ==> r.state.available == s.available
    ensures !q.PostEnable? && !q.GetStatus? ==> r.state.available == s.available
  {
    match q
    case PostStartStream => StartStream(s)
    case PostStopStream => StopStream(s)
    case PostEnable(i, l) => EnableDetection(s, i, l)
    case PostDisable => DisableDetection(s)
    case GetHealth => Outcome(s, Health(s))
    case GetStatus(i) => ObjectDetectionStatus(s, i)
  }

  /** The state after serving `qs` in order from `s`. */
  function Run(s: State, qs: seq<Request>): State
    decreases |qs|
  {
    if qs == [] then s else Run(Step(s, qs[0]).state, qs[1..])
  }

  /** The answers given while serving `qs` in order from `s`, one per request. */
  function Replies(s: State, qs: seq<Request>): (rs: seq<Reply>)
    ensures |rs| == |qs|
    decreases |qs|
  {
    if qs == [] then [] else [Step(s, qs[0]).reply] + Replies(Step(s, qs[0]).state, qs[1..])
  }

  /** Serving one more request continues from the state the earlier ones left. */
  lemma {:induction false} RunSnoc(s: State, qs: seq<Request>, q: Request)
    ensures Run(s, qs + [q]) == Step(Run(s, qs), q).state
    decreases |qs|
  {
    if qs == [] {
      assert [q][1..] == [];
    } else {
      assert (qs + [q])[0] == qs[0];
      assert (qs + [q])[1..] == qs[1..] + [q];
      RunSnoc(Step(s, qs[0]).state, qs[1..], q);
    }
  }

  /** Every state reachable from a valid one is valid: detection is never
      enabled without a loaded model and a usable library. */
  lemma {:induction false} RunPreservesValid(s: State, qs: seq<Request>)
    requires Valid(s)
    ensures Valid(Run(s, qs))
    decreases |qs|
  {
    if qs != [] {
      RunPreservesValid(Step(s, qs[0]).state, qs[1..]);
    }
  }

  /** Every state the backend can reach from process start is valid. */
  lemma ReachableValid(qs: seq<Request>)
    ensures Valid(Run(Initial, qs))
  {
    RunPreservesValid(Initial, qs);
  }

  /** The latest start or stop request in `qs`, as the streaming flag it asks
      for, if there is one. */
  function LastStreamCommand(qs: seq<Request>): (b: Latest)
    decreases |qs|
  {
    if qs == [] then NoRequest
    else if qs[|qs| - 1].PostStartStream? then Requested(true)
    else if qs[|qs| - 1].PostStopStream? then Requested(false)
    else LastStreamCommand(qs[..|qs| - 1])
  }

  /** Streaming is on exactly when the latest start/stop request was a start,
      and unchanged when there was none. */
  lemma {:induction false} StreamingFollowsLastCommand(s: State, qs: seq<Request>)
    ensures Run(s, qs).streaming == FlagOr(LastStreamCommand(qs), s.streaming)
    decreases |qs|
  {
    if qs != [] {
      var init, last := qs[..|qs| - 1], qs[|qs| - 1];
      assert qs == init + [last];
      RunSnoc(s, init, last);
      StreamingFollowsLastCommand(s, init);
    }
  }

  /** The import outcome seen by the first request that probes the library,
      if any request does. */
  function FirstProbe(qs: seq<Request>): (b: Latest)
    decreases |qs|
  {
    if qs == [] then NoRequest
    else if qs[0].PostEnable? || qs[0].GetStatus? then Requested(qs[0].importOk)
    else FirstProbe(qs[1..])
  }

  /** A known availability never changes; an unchecked one is settled by the
      first request that probes the library and by nothing else. */
  lemma {:induction false} AvailabilityMemoised(s: State, qs: seq<Request>)
    ensures s.available.Known? ==> Run(s, qs).available == s.available
    ensures s.available == Unchecked ==>
              Run(s, qs).available == (match FirstProbe(qs)
                                       case NoRequest => Unchecked
                                       case Requested(b) => Known(b))
    decreases |qs|
  {
    if qs != [] {
      AvailabilityMemoised(Step(s, qs[0]).state, qs[1..]);
    }
  }

  /** A loaded model is never unloaded by any sequence of requests. */
  lemma {:induction false} ModelNeverUnloaded(s: State, qs: seq<Request>)
    requires s.modelLoaded
    ensures Run(s, qs).modelLoaded
    decreases |qs|
  {
    if qs != [] {
      ModelNeverUnloaded(Step(s, qs[0]).state, qs[1..]);
    }
  }

  /** The latest enable or disable request in `qs`, as `true` for an enable. */
  function LastToggle(qs: seq<Request>): (b: Latest)
    decreases |qs|
  {
    if qs == [] then NoRequest
    else if qs[|qs| - 1].PostEnable? then Requested(true)
    else if qs[|qs| - 1].PostDisable? then Requested(false)
    else LastToggle(qs[..|qs| - 1])
  }

  /** Detection is enabled only if the latest toggle request was an enable, or
      there was none and it was enabled to begin with: there is no optimistic
      enabling and nothing but a disable turns it off. */
  lemma {:induction false} EnabledOnlyAfterEnable(s: State, qs: seq<Request>)
    ensures Run(s, qs).enabled ==> FlagOr(LastToggle(qs), s.enabled)
    ensures s.enabled && LastToggle(qs) == NoRequest ==> Run(s, qs).enabled
    decreases |qs|
  {
    if qs != [] {
      var init, last := qs[..|qs| - 1], qs[|qs| - 1];
      assert qs == init + [last];
      RunSnoc(s, init, last);
      EnabledOnlyAfterEnable(s, init);
    }
  }

  /** The replies to `qs` then `qs'` are the replies to `qs` followed by those
      to `qs'` served from where `qs` left off. */
  lemma {:induction false} RepliesAppend(s: State, qs: seq<Request>, qs': seq<Request>)
    ensures Replies(s, qs + qs') == Replies(s, qs) + Replies(Run(s, qs), qs')
    ensures Run(s, qs + qs') == Run(Run(s, qs), qs')
    decreases |qs|
  {
    if qs == [] {
      assert qs + qs' == qs';
    } else {
      assert (qs + qs')[0] == qs[0];
      assert (qs + qs')[1..] == qs[1..] + qs';
      RepliesAppend(Step(s, qs[0]).state, qs[1..], qs');
    }
  }

  /** The answer to the `i`-th request is what its handler replies in the state
      left by the requests before it. */
  lemma RepliesPointwise(s: State, qs: seq<Request>, i: nat)
    requires i < |qs|
    ensures Replies(s, qs)[i] == Step(Run(s, qs[..i]), qs[i]).reply
  {
    assert qs == qs[..i] + qs[i..];
    RepliesAppend(s, qs[..i], qs[i..]);
    assert qs[i..][0] == qs[i];
  }

  /** Serve the requests one by one, collecting the answers. */
  method Serve(s: State, qs: seq<Request>) returns (final: State, replies: seq<Reply>)
    ensures final == Run(s, qs)
    ensures replies == Replies(s, qs)
    ensures |replies| == |qs|
    ensures Valid(s) ==> Valid(final)
  {
    final := s;
    replies := [];
    var i := 0;
    while i < |qs|
      invariant 0 <= i <= |qs|
      invariant Run(final, qs[i..]) == Run(s, qs)
      invariant replies + Replies(final, qs[i..]) == Replies(s, qs)
      invariant Valid(s) ==> Valid(final)
    {
      assert qs[i..][0] == qs[i] && qs[i..][1..] == qs[i + 1..];
      var o := Step(final, qs[i]);
      replies := replies + [o.reply];
      final := o.state;
      i := i + 1;
    }
    assert qs[i..] == [];
  }
}
