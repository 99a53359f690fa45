/**
 * Successive requests to `/trial` within one session: the order in which the
 * trials are shown, how many are shown, and what ends up in `results`.
 */
module Runs {
  import opened Trials
  import opened Flow

  /** The session and the answers after handling `reqs` one after another. */
  function Run(st: SessionState, reqs: seq<Request>): (r: (SessionState, seq<Outcome>))
    ensures |r.1| == |reqs|
    ensures WellFormed(st) ==> WellFormed(r.0)
    decreases |reqs|
  {
    if reqs == [] then (st, [])
    else
      var step := TrialStep(st, reqs[0]);
      var rest := Run(step.0, reqs[1..]);
      (rest.0, [step.1] + rest.1)
  }

  /** The records the POSTs among `reqs` submit, in order. */
  function Records(reqs: seq<Request>): seq<Record>
    decreases |reqs|
  {
    if reqs == [] then [] else Submitted(reqs[0]) + Records(reqs[1..])
  }

  /** The trials the answers show, in order. */
  function Rendered(outs: seq<Outcome>): seq<Trial>
    decreases |outs|
  {
    if outs == [] then []
    else (if outs[0].RenderTrial? then [Trial(outs[0].image, outs[0].position)] else []) + Rendered(outs[1..])
  }

  /** `s` back to front. */
  function Reversed(s: seq<Trial>): (r: seq<Trial>)
    ensures |r| == |s|
    ensures forall i :: 0 <= i < |s| ==> r[i] == s[|s| - 1 - i]
  {
    seq(|s|, i requires 0 <= i < |s| => s[|s| - 1 - i])
  }

  lemma {:induction false} ReversedPermutes(s: seq<Trial>)
    ensures multiset(Reversed(s)) == multiset(s)
    decreases |s|
  {
    if s != [] {
      var init := s[..|s| - 1];
      assert Reversed(s) == [s[|s| - 1]] + Reversed(init);
      assert s == init + [s[|s| - 1]];
      ReversedPermutes(init);
    }
  }

  function Min(a: nat, b: nat): nat {
    if a < b then a else b
  }

  /** The queue left after one request: the last trial is gone, if there was one. */
  function Popped(queue: seq<Trial>): (rest: seq<Trial>)
    ensures queue != [] ==> queue == rest + [queue[|queue| - 1]]
    ensures queue == [] ==> rest == []
  {
    if queue == [] then queue else queue[..|queue| - 1]
  }

  /** One request in a session that has a queue and a results list. */
  lemma StepFromQueue(queue: seq<Trial>, done: seq<Record>, req: Request)
    ensures TrialStep(SessionState(Some(queue), Some(done)), req).0
         == SessionState(Some(Popped(queue)), Some(done + Submitted(req)))
    ensures TrialStep(SessionState(Some(queue), Some(done)), req).1
         == if queue == [] then RedirectComplete else Shown(queue[|queue| - 1])
  {
  }

  /**
   * From a session whose queue is `queue` and whose results are `done`, the
   * queue loses one trial per request, from its end, until it is empty, and
   * every POST's record is appended in order.
   */
  lemma {:induction false} RunFromQueue(queue: seq<Trial>, done: seq<Record>, reqs: seq<Request>)
    ensures Run(SessionState(Some(queue), Some(done)), reqs).0
         == SessionState(Some(queue[..|queue| - Min(|reqs|, |queue|)]), Some(done + Records(reqs)))
    decreases |reqs|
  {
    if reqs == [] {
      assert queue[..|queue|] == queue && done + [] == done;
    } else {
      var rest := reqs[1..];
      var next := Popped(queue);
      var done' := done + Submitted(reqs[0]);
      StepFromQueue(queue, done, reqs[0]);
      RunFromQueue(next, done', rest);
      RunUnfold(SessionState(Some(queue), Some(done)), reqs);
      RecordsUnfold(done, reqs);
      ShorterQueue(queue, |reqs|);
    }
  }

  /** The state after a run is the state after its tail run from the first step's state. */
  lemma RunUnfold(st: SessionState, reqs: seq<Request>)
    requires reqs != []
    ensures Run(st, reqs).0 == Run(TrialStep(st, reqs[0]).0, reqs[1..]).0
  {
  }

  lemma RecordsUnfold(done: seq<Record>, reqs: seq<Request>)
    requires reqs != []
    ensures done + Records(reqs) == (done + Submitted(reqs[0])) + Records(reqs[1..])
  {
  }

  lemma ShorterQueue(queue: seq<Trial>, n: nat)
    requires 1 <= n
    ensures var next := Popped(queue);
      next[..|next| - Min(n - 1, |next|)] == queue[..|queue| - Min(n, |queue|)]
  {
  }

  /**
   * From a session whose queue is `queue`, the i-th request shows the i-th
   * trial from the end of the queue while any is left, and redirects to
   * `complete` from then on.
   */
  lemma {:induction false} RunFromQueueAnswers(queue: seq<Trial>, done: seq<Record>, reqs: seq<Request>)
    ensures forall i :: 0 <= i < |reqs| ==>
      Run(SessionState(Some(queue), Some(done)), reqs).1[i] == if i < |queue| then Shown(queue[|queue| - 1 - i]) else RedirectComplete
    decreases |reqs|
  {
    if reqs != [] {
      var st := SessionState(Some(queue), Some(done));
      var next := Popped(queue);
      var done' := done + Submitted(reqs[0]);
      StepFromQueue(queue, done, reqs[0]);
      RunFromQueueAnswers(next, done', reqs[1..]);
      var outs := Run(st, reqs).1;
      var later := Run(SessionState(Some(next), Some(done')), reqs[1..]).1;
      assert outs == [TrialStep(st, reqs[0]).1] + later;
      forall i | 1 <= i < |reqs|
        ensures outs[i] == if i < |queue| then Shown(queue[|queue| - 1 - i]) else RedirectComplete
      {
        assert outs[i] == later[i - 1];
        assert later[i - 1] == if i - 1 < |next| then Shown(next[|next| - 1 - (i - 1)]) else RedirectComplete;
        if queue != [] && i < |queue| {
          assert next[|next| - 1 - (i - 1)] == queue[|queue| - 1 - i];
        }
      }
    }
  }

  /** Only the shown trials appear in `Rendered`, in the order they were shown. */
  lemma {:induction false} RunFromQueueRendered(queue: seq<Trial>, done: seq<Record>, reqs: seq<Request>)
    ensures Rendered(Run(SessionState(Some(queue), Some(done)), reqs).1) == Reversed(queue)[..Min(|reqs|, |queue|)]
    decreases |reqs|
  {
    if reqs != [] {
      var st := SessionState(Some(queue), Some(done));
      var next := Popped(queue);
      var done' := done + Submitted(reqs[0]);
      StepFromQueue(queue, done, reqs[0]);
      RunFromQueueRendered(next, done', reqs[1..]);
      var later := Run(SessionState(Some(next), Some(done')), reqs[1..]).1;
      RunAnswersUnfold(st, reqs);
      RenderedCons(TrialStep(st, reqs[0]).1, later);
      ReversedPrefix(queue, |reqs|);
    }
  }

  /** The answers of a run are the first step's answer followed by those of the tail run. */
  lemma RunAnswersUnfold(st: SessionState, reqs: seq<Request>)
    requires reqs != []
    ensures Run(st, reqs).1 == [TrialStep(st, reqs[0]).1] + Run(TrialStep(st, reqs[0]).0, reqs[1..]).1
  {
  }

  lemma RenderedCons(o: Outcome, outs: seq<Outcome>)
    ensures Rendered([o] + outs) == (if o.RenderTrial? then [Trial(o.image, o.position)] else []) + Rendered(outs)
  {
    assert ([o] + outs)[1..] == outs;
  }

  lemma ReversedPrefix(queue: seq<Trial>, n: nat)
    requires 1 <= n
    ensures var next := Popped(queue);
      Reversed(queue)[..Min(n, |queue|)]
        == (if queue == [] then [] else [queue[|queue| - 1]]) + Reversed(next)[..Min(n - 1, |next|)]
  {
  }

  /**
   * Starting from `index`, the pages shown are TRIALS back to front, never more
   * than there are trials, and the results are exactly the POSTs' records.
   */
  lemma {:induction false} SessionFromIndex(allTrials: seq<Trial>, reqs: seq<Request>)
    ensures var r := Run(IndexState(allTrials), reqs);
      && Rendered(r.1) == Reversed(allTrials)[..Min(|reqs|, |allTrials|)]
      && |Rendered(r.1)| <= |allTrials|
      && r.0.results == Some(Records(reqs))
      && r.0.trials == Some(allTrials[..|allTrials| - Min(|reqs|, |allTrials|)])
  {
    RunFromQueue(allTrials, [], reqs);
    RunFromQueueRendered(allTrials, [], reqs);
    assert [] + Records(reqs) == Records(reqs);
  }

  lemma {:induction false} RecordsOfPosts(reqs: seq<Request>)
    requires forall i :: 0 <= i < |reqs| ==> reqs[i].Post?
    ensures |Records(reqs)| == |reqs|
    decreases |reqs|
  {
    if reqs != [] {
      RecordsOfPosts(reqs[1..]);
    }
  }

  /**
   * A whole session over TRIALS: `index`, one GET and 24 POSTs. The first 24
   * answers show TRIALS back to front, the last one redirects to `complete`, the
   * queue is then empty and exactly 24 results were recorded.
   */
  lemma {:induction false} FullSession(allTrials: seq<Trial>, reqs: seq<Request>)
    requires |allTrials| == 24
    requires |reqs| == 25 && reqs[0] == Get
    requires forall i :: 1 <= i < 25 ==> reqs[i].Post?
    ensures var r := Run(IndexState(allTrials), reqs);
      && (forall i :: 0 <= i < 24 ==> r.1[i] == Shown(allTrials[23 - i]))
      && r.1[24] == RedirectComplete
      && Rendered(r.1) == Reversed(allTrials)
      && r.0.trials == Some([])
      && r.0.results.Some? && |r.0.results.value| == 24
  {
    var posts := reqs[1..];
    RecordsOfPosts(posts);
    assert Records(reqs) == Records(posts);
    RunFromQueueAnswers(allTrials, [], reqs);
    SessionFromIndex(allTrials, reqs);
  }

  /**
   * In such a session over the shuffled TRIALS, the pages shown are the 24
   * trials, each once, and so every image `item1.jpg` .. `item24.jpg` once.
   */
  lemma {:induction false} FullSessionShowsEveryImage(allTrials: seq<Trial>, reqs: seq<Request>)
    requires multiset(allTrials) == multiset(BaseTrials())
    requires |reqs| == 25 && reqs[0] == Get
    requires forall i :: 1 <= i < 25 ==> reqs[i].Post?
    ensures var shown := Rendered(Run(IndexState(allTrials), reqs).1);
      && multiset(shown) == multiset(BaseTrials())
      && forall k :: 1 <= k <= 24 ==> Count(shown, ByImage(ImageName(k))) == 1
  {
    ShuffledTrialCounts(allTrials);
    FullSession(allTrials, reqs);
    ReversedPermutes(allTrials);
    ShuffledTrialCounts(Reversed(allTrials));
  }
}
