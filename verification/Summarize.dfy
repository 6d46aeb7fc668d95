/**
 The summary pool: one dispatcher hands jobs to at most four workers over an unbuffered channel, workers record
 their outcomes under one lock, and the first failure cancels the rest.
 */
module Summarize {
  import opened Wrappers

  const CONCURRENCY: nat := 4

  datatype Worker = Idle | Running(job: nat) | Exited

  /** How one entry ended: served from the cache, freshly requested, or failed. */
  datatype Outcome = Hit(text: string) | Fetched(text: string) | Failed(error: string)

  datatype Return = Summaries(map<string, string>, hits: nat, requests: nat) | Error(error: string) | Cancelled

  /**
   keys names each job's session. dispatched counts the jobs handed out; ended lists, in the order the lock
   was taken, what each finished job ended with.
   */
  datatype State = State(keys: seq<string>, dispatched: nat, workers: seq<Worker>, closed: bool, cancelled: bool,
                         parentCancelled: bool, summaries: map<string, string>, hits: nat, requests: nat,
                         firstErr: Option<string>, ended: seq<(nat, Outcome)>, returned: Option<Return>)

  datatype Step =
    | Dispatch(w: nat)
    | GiveUp
    | Close
    | Finish(w: nat, outcome: Outcome)
    | Exit(w: nat)
    | Cancel
    | Leave

  function Start(keys: seq<string>): State {
    State(keys, 0, seq(if |keys| < CONCURRENCY then |keys| else CONCURRENCY, _ => Idle),
          false, false, false, map[], 0, 0, None, [], None)
  }

  predicate Can(s: State, step: Step) {
    && s.returned == None
    && match step
       case Dispatch(w) => !s.closed && s.dispatched < |s.keys| && w < |s.workers| && s.workers[w].Idle?
       case GiveUp => !s.closed && s.dispatched < |s.keys| && s.cancelled
       case Close => !s.closed && s.dispatched == |s.keys|
       case Finish(w, _) => w < |s.workers| && s.workers[w].Running? && s.workers[w].job < |s.keys|
       case Exit(w) => s.closed && w < |s.workers| && s.workers[w].Idle?
       case Cancel => !s.parentCancelled
       case Leave => s.closed && AllExited(s)
  }

  function Do(s: State, step: Step): State
    requires Can(s, step)
  {
    match step
    case Dispatch(w) => s.(dispatched := s.dispatched + 1, workers := s.workers[w := Running(s.dispatched)])
    case GiveUp => s.(closed := true)
    case Close => s.(closed := true)
    case Finish(w, outcome) => Recorded(s.(workers := s.workers[w := Idle]), s.workers[w].job, outcome)
    case Exit(w) => s.(workers := s.workers[w := Exited])
    case Cancel => s.(cancelled := true, parentCancelled := true)
    case Leave => s.(returned := Some(Verdict(s)))
  }

  /** The locked section of a worker. */
  function Recorded(s: State, job: nat, outcome: Outcome): State
    requires job < |s.keys|
  {
    var t := s.(ended := s.ended + [(job, outcome)]);
    match outcome
    case Hit(text) => t.(summaries := t.summaries[t.keys[job] := text], hits := t.hits + 1)
    case Fetched(text) => t.(summaries := t.summaries[t.keys[job] := text], requests := t.requests + 1)
    case Failed(error) => if t.firstErr == None then t.(firstErr := Some(error), cancelled := true) else t
  }

  function Verdict(s: State): Return {
    if s.firstErr.Some? then Error(s.firstErr.value)
    else if s.cancelled then Cancelled
    else Summaries(s.summaries, s.hits, s.requests)
  }

  // ---------- what holds at every moment ----------

  predicate Busy(s: State, job: nat) {
    exists w :: 0 <= w < |s.workers| && s.workers[w] == Running(job)
  }

  predicate Over(s: State, job: nat) {
    exists i :: 0 <= i < |s.ended| && s.ended[i].0 == job
  }

  function Failures(ended: seq<(nat, Outcome)>): seq<string> {
    if ended == [] then []
    else
      var front := Failures(ended[..|ended| - 1]);
      if ended[|ended| - 1].1.Failed? then front + [ended[|ended| - 1].1.error] else front
  }

  /** How many ends were served from the cache. */
  function CacheHits(ended: seq<(nat, Outcome)>): nat {
    if ended == [] then 0 else CacheHits(ended[..|ended| - 1]) + if ended[|ended| - 1].1.Hit? then 1 else 0
  }

  /** How many were freshly requested. */
  function FreshRequests(ended: seq<(nat, Outcome)>): nat {
    if ended == [] then 0 else FreshRequests(ended[..|ended| - 1]) + if ended[|ended| - 1].1.Fetched? then 1 else 0
  }

  ghost predicate Inv(s: State) {
    StageInv(s) && JobsInv(s) && BooksInv(s)
  }

  /** How far the call has come, and what it means that it was cancelled or has returned. */
  ghost predicate StageInv(s: State) {
    && |s.workers| == (if |s.keys| < CONCURRENCY then |s.keys| else CONCURRENCY)
    && s.dispatched <= |s.keys|
    && (s.closed ==> s.dispatched == |s.keys| || s.cancelled)
    && (s.cancelled <==> s.parentCancelled || s.firstErr.Some?)
    && (s.returned.Some? ==> s.closed && s.returned.value == Verdict(s) && AllExited(s))
    && (!s.closed ==> forall w :: 0 <= w < |s.workers| ==> !s.workers[w].Exited?)
  }

  predicate AllExited(s: State) {
    forall w :: 0 <= w < |s.workers| ==> s.workers[w].Exited?
  }

  /** A dispatched job is with one worker or has ended once, never both; nothing else runs or ended. */
  ghost predicate JobsInv(s: State) {
    && (forall w :: 0 <= w < |s.workers| && s.workers[w].Running? ==>
          s.workers[w].job < s.dispatched && !Over(s, s.workers[w].job))
    && (forall v, w :: 0 <= v < w < |s.workers| && s.workers[v].Running? ==> s.workers[v] != s.workers[w])
    && (forall i :: 0 <= i < |s.ended| ==> s.ended[i].0 < s.dispatched)
    && (forall i, j :: 0 <= i < j < |s.ended| ==> s.ended[i].0 != s.ended[j].0)
    && (forall job :: 0 <= job < s.dispatched ==> Busy(s, job) || Over(s, job))
  }

  /** The shared results add up to what has ended. */
  ghost predicate BooksInv(s: State) {
    SumsInv(s) && KeptInv(s)
  }

  ghost predicate SumsInv(s: State) {
    var fails := Failures(s.ended);
    && s.hits == CacheHits(s.ended) && s.requests == FreshRequests(s.ended)
    && s.hits + s.requests + |fails| == |s.ended|
    && s.firstErr == if fails == [] then None else Some(fails[0])
  }

  /** No other job is for the same session. */
  ghost predicate Sole(keys: seq<string>, job: nat)
    requires job < |keys|
  {
    forall k :: 0 <= k < |keys| && keys[k] == keys[job] ==> k == job
  }

  /** The job's session has a summary, and, unless another job is for the same session, it is the job's own text. */
  ghost predicate Served(s: State, job: nat, outcome: Outcome)
    requires job < |s.keys|
  {
    outcome.Failed? || (s.keys[job] in s.summaries && (Sole(s.keys, job) ==> s.summaries[s.keys[job]] == outcome.text))
  }

  ghost predicate KeptInv(s: State) {
    forall i :: 0 <= i < |s.ended| ==> s.ended[i].0 < |s.keys| && Served(s, s.ended[i].0, s.ended[i].1)
  }

  lemma StartIsSound(keys: seq<string>)
    ensures Inv(Start(keys))
  {
  }

  lemma DispatchKeeps(s: State, w: nat)
    requires Inv(s) && Can(s, Dispatch(w))
    ensures Inv(Do(s, Dispatch(w)))
  {
    var t := Do(s, Dispatch(w));
    assert forall job :: Over(t, job) <==> Over(s, job);
    forall job | 0 <= job < t.dispatched ensures Busy(t, job) || Over(t, job) {
      if job == s.dispatched {
        assert t.workers[w] == Running(job);
      } else if Busy(s, job) {
        var v :| 0 <= v < |s.workers| && s.workers[v] == Running(job);
        assert t.workers[v] == Running(job);
      }
    }
    forall v | 0 <= v < |t.workers| && t.workers[v].Running?
      ensures t.workers[v].job < t.dispatched && !Over(t, t.workers[v].job)
    {
      assert v != w ==> t.workers[v] == s.workers[v];
    }
  }

  /** A finished job joins those that are over. */
  lemma FinishOver(s: State, w: nat, outcome: Outcome, job: nat)
    requires Can(s, Finish(w, outcome))
    ensures Over(Do(s, Finish(w, outcome)), job) <==> Over(s, job) || job == s.workers[w].job
  {
    var t := Do(s, Finish(w, outcome));
    assert t.ended == s.ended + [(s.workers[w].job, outcome)];
    assert t.ended[|s.ended|].0 == s.workers[w].job;
    if Over(s, job) {
      var i :| 0 <= i < |s.ended| && s.ended[i].0 == job;
      assert t.ended[i].0 == job;
    }
  }

  lemma FinishBusy(s: State, w: nat, outcome: Outcome, job: nat)
    requires Can(s, Finish(w, outcome)) && Busy(s, job) && job != s.workers[w].job
    ensures Busy(Do(s, Finish(w, outcome)), job)
  {
    var t := Do(s, Finish(w, outcome));
    var v :| 0 <= v < |s.workers| && s.workers[v] == Running(job);
    assert t.workers[v] == Running(job);
  }

  lemma FinishOnce(s: State, w: nat, outcome: Outcome)
    requires Can(s, Finish(w, outcome)) && !Over(s, s.workers[w].job)
    requires forall i, j :: 0 <= i < j < |s.ended| ==> s.ended[i].0 != s.ended[j].0
    ensures var ended := Do(s, Finish(w, outcome)).ended;
            forall i, j :: 0 <= i < j < |ended| ==> ended[i].0 != ended[j].0
  {
    var t := Do(s, Finish(w, outcome));
    assert t.ended == s.ended + [(s.workers[w].job, outcome)];
  }

  lemma FinishJobs(s: State, w: nat, outcome: Outcome)
    requires JobsInv(s) && Can(s, Finish(w, outcome))
    ensures JobsInv(Do(s, Finish(w, outcome)))
  {
    var t := Do(s, Finish(w, outcome));
    forall job: nat ensures Over(t, job) <==> Over(s, job) || job == s.workers[w].job {
      FinishOver(s, w, outcome, job);
    }
    forall job | 0 <= job < t.dispatched ensures Busy(t, job) || Over(t, job) {
      if Busy(s, job) && job != s.workers[w].job {
        FinishBusy(s, w, outcome, job);
      }
    }
    FinishOnce(s, w, outcome);
  }

  lemma FinishSums(s: State, w: nat, outcome: Outcome)
    requires SumsInv(s) && Can(s, Finish(w, outcome))
    ensures SumsInv(Do(s, Finish(w, outcome)))
  {
    var t := Do(s, Finish(w, outcome));
    assert t.ended[..|s.ended|] == s.ended;
  }

  lemma FinishKept(s: State, w: nat, outcome: Outcome)
    requires KeptInv(s) && Can(s, Finish(w, outcome)) && !Over(s, s.workers[w].job)
    ensures KeptInv(Do(s, Finish(w, outcome)))
  {
    var t, done := Do(s, Finish(w, outcome)), s.workers[w].job;
    assert t.ended == s.ended + [(done, outcome)];
    forall i | 0 <= i < |t.ended| ensures t.ended[i].0 < |t.keys| && Served(t, t.ended[i].0, t.ended[i].1) {
      if i < |s.ended| {
        assert Served(s, s.ended[i].0, s.ended[i].1);
        assert s.ended[i].0 != done;
      }
    }
  }

  lemma StepKeeps(s: State, step: Step)
    requires Inv(s) && Can(s, step)
    ensures Inv(Do(s, step))
  {
    match step
    case Dispatch(w) => DispatchKeeps(s, w);
    case Finish(w, outcome) => FinishKeeps(s, w, outcome);
    case Exit(w) => ExitKeeps(s, w);
    case _ => QuietKeeps(s, step);
  }

  lemma FinishKeeps(s: State, w: nat, outcome: Outcome)
    requires Inv(s) && Can(s, Finish(w, outcome))
    ensures Inv(Do(s, Finish(w, outcome)))
  {
    FinishStage(s, w, outcome);
    FinishJobs(s, w, outcome);
    FinishSums(s, w, outcome);
    FinishKept(s, w, outcome);
  }

  lemma FinishStage(s: State, w: nat, outcome: Outcome)
    requires StageInv(s) && Can(s, Finish(w, outcome))
    ensures StageInv(Do(s, Finish(w, outcome)))
  {
  }

  lemma ExitKeeps(s: State, w: nat)
    requires Inv(s) && Can(s, Exit(w))
    ensures Inv(Do(s, Exit(w)))
  {
    var t := Do(s, Exit(w));
    assert forall job :: Over(t, job) <==> Over(s, job);
    forall job | 0 <= job < t.dispatched ensures Busy(t, job) || Over(t, job) {
      if Busy(s, job) {
        var v :| 0 <= v < |s.workers| && s.workers[v] == Running(job);
        assert t.workers[v] == Running(job);
      }
    }
  }

  lemma QuietKeeps(s: State, step: Step)
    requires Inv(s) && Can(s, step) && step in {GiveUp, Close, Cancel, Leave}
    ensures Inv(Do(s, step))
  {
    var t := Do(s, step);
    assert forall job :: Over(t, job) <==> Over(s, job);
    assert forall job :: Busy(t, job) <==> Busy(s, job);
  }

  // ---------- runs ----------

  /** What becomes of an attempted step: nothing when it is not possible. */
  function Attempted(s: State, step: Step): State {
    if Can(s, step) then Do(s, step) else s
  }

  function After(s: State, steps: seq<Step>): State
    decreases |steps|
  {
    if steps == [] then s else Attempted(After(s, steps[..|steps| - 1]), steps[|steps| - 1])
  }

  lemma AttemptKeeps(s: State, step: Step)
    requires Inv(s)
    ensures Inv(Attempted(s, step)) && Attempted(s, step).keys == s.keys
  {
    if Can(s, step) {
      StepKeeps(s, step);
    }
  }

  lemma {:induction false} RunIsSound(keys: seq<string>, steps: seq<Step>)
    ensures Inv(After(Start(keys), steps)) && After(Start(keys), steps).keys == keys
    decreases |steps|
  {
    if steps == [] {
      StartIsSound(keys);
    } else {
      RunIsSound(keys, steps[..|steps| - 1]);
      AttemptKeeps(After(Start(keys), steps[..|steps| - 1]), steps[|steps| - 1]);
    }
  }

  /** What is left to do: every step takes some of it away. */
  function Unexited(ws: seq<Worker>): nat {
    if ws == [] then 0
    else Unexited(ws[..|ws| - 1]) + match ws[|ws| - 1] case Idle => 1 case Running(_) => 2 case Exited => 0
  }

  function Left(s: State): nat
    requires s.dispatched <= |s.keys|
  {
    2 * (|s.keys| - s.dispatched) + Unexited(s.workers) + (if s.closed then 0 else 1)
    + (if s.parentCancelled then 0 else 1) + if s.returned == None then 1 else 0
  }

  lemma {:induction false} UnexitedUpdate(ws: seq<Worker>, w: nat, v: Worker)
    requires w < |ws|
    ensures Unexited(ws[w := v]) == Unexited(ws) - Unexited([ws[w]]) + Unexited([v])
    decreases |ws|
  {
    assert [ws[w]][..0] == [] && [v][..0] == [];
    var n := |ws| - 1;
    if w == n {
      assert ws[w := v][..n] == ws[..n];
    } else {
      UnexitedUpdate(ws[..n], w, v);
      assert ws[w := v][..n] == ws[..n][w := v];
    }
  }

  lemma EveryStepIsProgress(s: State, step: Step)
    requires Inv(s) && Can(s, step)
    ensures Inv(Do(s, step)) && Left(Do(s, step)) < Left(s)
  {
    StepKeeps(s, step);
    LeftFalls(s, step);
  }

  lemma LeftFalls(s: State, step: Step)
    requires s.dispatched <= |s.keys| && Can(s, step)
    ensures Do(s, step).dispatched <= |Do(s, step).keys| && Left(Do(s, step)) < Left(s)
  {
    match step
    case Dispatch(w) =>
      UnexitedUpdate(s.workers, w, Running(s.dispatched));
      One(Idle);
      One(Running(s.dispatched));
    case Finish(w, _) =>
      UnexitedUpdate(s.workers, w, Idle);
      One(Idle);
      One(s.workers[w]);
    case Exit(w) =>
      UnexitedUpdate(s.workers, w, Exited);
      One(Idle);
      One(Exited);
    case _ =>
  }

  lemma One(w: Worker)
    ensures Unexited([w]) == match w case Idle => 1 case Running(_) => 2 case Exited => 0
  {
    assert [w][..0] == [];
  }

  /** No reachable state is stuck: until the call has returned, some worker or the dispatcher can move. */
  lemma NeverStuck(s: State)
    requires Inv(s) && s.returned == None
    ensures exists step :: Can(s, step) && step != Cancel
  {
    if w :| 0 <= w < |s.workers| && s.workers[w].Running? {
      assert s.workers[w].job < s.dispatched;
      assert Can(s, Finish(w, Hit("")));
    } else if !s.closed {
      if s.dispatched == |s.keys| {
        assert Can(s, Close);
      } else {
        assert s.workers[0].Idle?;
        assert Can(s, Dispatch(0));
      }
    } else if w :| 0 <= w < |s.workers| && s.workers[w].Idle? {
      assert Can(s, Exit(w));
    } else {
      assert Can(s, Leave);
    }
  }

  /** At any moment of any run: at most four jobs in flight, and no job ever runs a second time. */
  lemma FewAndOnce(keys: seq<string>, steps: seq<Step>)
    ensures var s := After(Start(keys), steps);
            && |s.workers| <= CONCURRENCY
            && (forall v, w :: 0 <= v < w < |s.workers| && s.workers[v].Running? ==> s.workers[v] != s.workers[w])
            && (forall i, j :: 0 <= i < j < |s.ended| ==> s.ended[i].0 != s.ended[j].0)
            && (forall w :: 0 <= w < |s.workers| && s.workers[w].Running? ==> !Over(s, s.workers[w].job))
  {
    RunIsSound(keys, steps);
  }

  lemma AllJobsEnded(s: State, n: nat)
    requires n <= |s.keys|
    requires forall job :: 0 <= job < n ==> Over(s, job)
    requires forall i, j :: 0 <= i < j < |s.ended| ==> s.ended[i].0 != s.ended[j].0
    requires forall i :: 0 <= i < |s.ended| ==> s.ended[i].0 < n
    ensures |s.ended| == n
  {
    var jobs := set i | 0 <= i < |s.ended| :: s.ended[i].0;
    Distinct(s.ended);
    forall job | job in Upto(n) ensures job in jobs {
      assert Over(s, job);
    }
    assert jobs == Upto(n);
  }

  function Upto(n: nat): (jobs: set<nat>)
    ensures |jobs| == n && forall job :: job in jobs <==> 0 <= job < n
  {
    if n == 0 then {} else Upto(n - 1) + {n - 1}
  }

  lemma {:induction false} Distinct(ended: seq<(nat, Outcome)>)
    requires forall i, j :: 0 <= i < j < |ended| ==> ended[i].0 != ended[j].0
    ensures |set i | 0 <= i < |ended| :: ended[i].0| == |ended|
  {
    var all := set i | 0 <= i < |ended| :: ended[i].0;
    if ended != [] {
      var front := ended[..|ended| - 1];
      Distinct(front);
      var rest := set i | 0 <= i < |front| :: front[i].0;
      assert forall i :: 0 <= i < |front| ==> front[i] == ended[i];
      assert all == rest + {ended[|ended| - 1].0};
    }
  }

  /** An end of the job: it ended well, and left its session the text it ended with, if no other job is for that session. */
  ghost predicate Gave(s: State, job: nat, end: (nat, Outcome))
    requires job < |s.keys|
  {
    end.0 == job && !end.1.Failed? && s.keys[job] in s.summaries && Served(s, job, end.1)
  }

  /** The job ended, well, with its session's summary. */
  ghost predicate Summarized(s: State, job: nat)
    requires job < |s.keys|
  {
    exists i :: 0 <= i < |s.ended| && Gave(s, job, s.ended[i])
  }

  lemma OwnSummary(s: State, job: nat)
    requires KeptInv(s) && job < |s.keys| && Over(s, job) && Failures(s.ended) == []
    ensures Summarized(s, job)
  {
    var i :| 0 <= i < |s.ended| && s.ended[i].0 == job;
    NoFailure(s.ended, i);
    assert Served(s, s.ended[i].0, s.ended[i].1);
    assert Gave(s, job, s.ended[i]);
  }

  /**
   What the call returns. Summaries come back only when every job ended well: the ends that were cache hits and
   those that were requests are counted each for itself and number the jobs, and every job's session has its
   summary, which is the job's own text unless two jobs are for one session. Otherwise the error is the first one
   recorded, or, with none recorded, the caller's own cancellation.
   */
  lemma ReturnIsRight(keys: seq<string>, steps: seq<Step>)
    requires After(Start(keys), steps).returned.Some?
    ensures var s := After(Start(keys), steps);
            match s.returned.value
            case Summaries(summaries, hits, requests) =>
              && hits == CacheHits(s.ended) && requests == FreshRequests(s.ended)
              && hits + requests == |keys| && summaries == s.summaries
              && s.keys == keys && forall job :: 0 <= job < |keys| ==> Summarized(s, job)
            case Error(error) => Failures(s.ended) != [] && error == Failures(s.ended)[0]
            case Cancelled => Failures(s.ended) == [] && s.parentCancelled
  {
    RunIsSound(keys, steps);
    var s := After(Start(keys), steps);
    if s.returned.value.Summaries? {
      assert s.dispatched == |keys|;
      forall job | 0 <= job < |keys| ensures Over(s, job) {
        assert !Busy(s, job);
      }
      AllJobsEnded(s, |keys|);
      forall job | 0 <= job < |keys| ensures Summarized(s, job) {
        assert Over(s, job);
        OwnSummary(s, job);
      }
    }
  }

  lemma {:induction false} NoFailure(ended: seq<(nat, Outcome)>, i: nat)
    requires Failures(ended) == [] && i < |ended|
    ensures !ended[i].1.Failed?
  {
    if i < |ended| - 1 {
      NoFailure(ended[..|ended| - 1], i);
    }
  }
}
