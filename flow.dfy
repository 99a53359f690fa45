/**
 * The per-session trial queue: the `index`, `trial` and `complete` request
 * handlers over the session's `trials` and `results` entries.
 */
module Flow {
  import opened Trials

  datatype Option<T> = None | Some(value: T)

  /** One recorded answer; `timestamp` is the wall-clock time, supplied by the caller. */
  datatype Record = Record(image: string, position: string, choice: string, timestamp: real)

  /** A request to `/trial`: a GET, or a POST carrying the submitted form fields. */
  datatype Request =
    | Get
    | Post(image: string, position: string, choice: string, timestamp: real)

  /** What a handler answers with. */
  datatype Outcome =
    | RedirectTrial
    | RedirectIndex
    | RedirectComplete
    | RenderTrial(image: string, position: string)
    | RenderComplete(results: seq<Record>)
    | ServerError   // a missing session key raises KeyError

  /** The session's `trials` and `results` entries; `None` is an absent key. */
  datatype SessionState = SessionState(trials: Option<seq<Trial>>, results: Option<seq<Record>>)

  /** Sessions reachable through the handlers: a queue always comes with a results list. */
  predicate WellFormed(st: SessionState) {
    st.trials.Some? ==> st.results.Some?
  }

  /** The records a request adds to `results`: one for a POST, none for a GET. */
  function Submitted(req: Request): seq<Record> {
    if req.Post? then [Record(req.image, req.position, req.choice, req.timestamp)] else []
  }

  /** The page that shows trial `t`. */
  function Shown(t: Trial): Outcome {
    RenderTrial(t.image, t.position)
  }

  /** The session after `index`, given the global TRIALS list. */
  function IndexState(allTrials: seq<Trial>): (st: SessionState)
    ensures WellFormed(st)
    ensures st.trials == Some(allTrials) && st.results == Some([])
  {
    SessionState(Some(allTrials), Some([]))
  }

  /** One handling of `/trial`: the new session and the answer. */
  function TrialStep(st: SessionState, req: Request): (r: (SessionState, Outcome))
    // no queue: bounce to index, touching nothing
    ensures st.trials.None? ==> r == (st, RedirectIndex)
    // the only failure: a POST into a session that has a queue but no results list
    ensures r.1 == ServerError <==> st.trials.Some? && req.Post? && st.results.None?
    ensures r.1 == ServerError ==> r.0 == st
    // a POST appends exactly its record, a GET leaves results alone
    ensures st.trials.Some? && st.results.Some? ==> r.0.results == Some(st.results.value + Submitted(req))
    ensures req.Get? ==> r.0.results == st.results
    // an empty queue ends the run and stays empty
    ensures r.1 == RedirectComplete <==> st.trials == Some([]) && r.1 != ServerError
    ensures r.1 == RedirectComplete ==> r.0.trials == st.trials
    // otherwise the last trial is removed and shown, the rest stays in place
    ensures r.1.RenderTrial? <==> st.trials.Some? && st.trials.value != [] && r.1 != ServerError
    ensures r.1.RenderTrial? ==> r.0.trials.Some? && st.trials.value == r.0.trials.value + [Trial(r.1.image, r.1.position)]
    ensures r.1 in {RedirectIndex, RedirectComplete, ServerError} || r.1.RenderTrial?
    ensures WellFormed(st) ==> WellFormed(r.0)
  {
    if st.trials.None? then (st, RedirectIndex)
    else if req.Post? && st.results.None? then (st, ServerError)
    else
      var answered := if req.Post? then st.(results := Some(st.results.value + Submitted(req))) else st;
      var queue := st.trials.value;
      assert req.Get? && st.results.Some? ==> st.results.value + Submitted(req) == st.results.value;
      if queue == [] then (answered, RedirectComplete)
      else (answered.(trials := Some(queue[..|queue| - 1])), Shown(queue[|queue| - 1]))
  }

  /** `complete`: the results page, or a KeyError when the session has no results. */
  function CompleteView(st: SessionState): (o: Outcome)
    ensures o.RenderComplete? <==> st.results.Some?
    ensures o.RenderComplete? ==> o.results == st.results.value
    ensures !o.RenderComplete? ==> o == ServerError
  {
    if st.results.Some? then RenderComplete(st.results.value) else ServerError
  }

  /** One participant's session, as the handlers read and update it. */
  class Session {
    var trials: Option<seq<Trial>>
    var results: Option<seq<Record>>

    /** A new session holds neither key. */
    constructor ()
      ensures trials == None && results == None
    {
      trials := None;
      results := None;
    }

    function State(): SessionState
      reads this
    {
      SessionState(trials, results)
    }

    /** `index`: restart the session with a copy of TRIALS and no results, whatever it held. */
    method Index(allTrials: array<Trial>) returns (o: Outcome)
      modifies this
      ensures State() == IndexState(allTrials[..])
      ensures allTrials[..] == old(allTrials[..])
      ensures o == RedirectTrial
    {
      trials := Some(allTrials[..]);
      results := Some([]);
      o := RedirectTrial;
    }

    /** `trial`: record a POST's answer, then show the last queued trial or finish. */
    method Trial(req: Request) returns (o: Outcome)
      modifies this
      ensures (State(), o) == TrialStep(old(State()), req)
    {
      if trials.None? {
        return RedirectIndex;
      }
      if req.Post? {
        if results.None? {
          return ServerError;
        }
        results := Some(results.value + [Record(req.image, req.position, req.choice, req.timestamp)]);
      }
      if trials.value == [] {
        return RedirectComplete;
      }
      var queue := trials.value;
      var current := queue[|queue| - 1];
      trials := Some(queue[..|queue| - 1]);
      o := RenderTrial(current.image, current.position);
    }

    /** `complete`: show the recorded results. */
    method Complete() returns (o: Outcome)
      ensures o == CompleteView(State())
    {
      if results.None? {
        return ServerError;
      }
      o := RenderComplete(results.value);
    }
  }
}
