/**
 The catch-up checkpoint: a clean floor and the set of emitted-but-unconfirmed ids, rewritten only by
 atomic read-modify-write, so that runs of several processes interleave at whole updates.
 */
module AmpCheckpoint {
  import opened AmpServer
  import opened Clock
  import opened AmpEnumerate

  const PENDING_CAP: nat := 8192

  datatype Phase = Unset | Initial | Catchup
  datatype Verdict = Verdict(rev: Time, host: string, dir: string)

  /** One scope's file; the zero value stands for a missing or corrupt file. */
  datatype Checkpoint = Checkpoint(phase: Phase, cleanThrough: Time, pending: set<string>,
                                   correlate: map<string, Verdict>, quarantined: map<string, int>)
  const ZERO := Checkpoint(Unset, 0, {}, map[], map[])
  const RESET := ZERO.(phase := Initial)

  predicate Overflows(st: Checkpoint) {
    |st.pending| > PENDING_CAP
  }

  /** What is saved: a pending set past the cap resets the whole checkpoint. */
  function Saved(st: Checkpoint): Checkpoint {
    if Overflows(st) then RESET else st
  }

  function Settled(st: Checkpoint, id: string): Checkpoint {
    if id in st.pending then Saved(st.(pending := st.pending - {id})) else st
  }

  function Noted(st: Checkpoint, id: string): Checkpoint {
    if id in st.pending then st else Saved(st.(pending := st.pending + {id}))
  }

  /** What a scan positively observed: its windows' emission and the corroboration queue. */
  function Emitted(out: Outcome): set<string> {
    out.found.Keys + out.retry
  }

  /** The merge law: this scan's evidence, and the fresh pending set less the ids this scan knew and proved gone. */
  function Merged(out: Outcome, base: set<string>, current: set<string>): set<string> {
    Emitted(out) + (current - base * out.gone)
  }

  /** The end of the clean coverage one scan may claim, before it meets the freshest stored floor. */
  function Floor(scanStart: Time, attributed: bool, out: Outcome, prior: Time): Time {
    var covered := if out.end != 0 && scanStart >= out.end then out.end - 1 else scanStart;
    var clean := if out.dirty != 0 && out.dirty < covered then out.dirty else covered;
    if !attributed then 0 else if clean < prior then prior else clean
  }

  /** A concurrent run may have advanced further; its floor stands. */
  function NewFloor(stored: Time, scanStart: Time, attributed: bool, out: Outcome, prior: Time): Time {
    var floor := Floor(scanStart, attributed, out, prior);
    if stored > floor then stored else floor
  }

  function Recorded(st: Checkpoint, scanStart: Time, attributed: bool, out: Outcome, prior: Checkpoint): Checkpoint {
    Saved(Checkpoint(if prior.cleanThrough != 0 then Catchup else Initial,
                     NewFloor(st.cleanThrough, scanStart, attributed, out, prior.cleanThrough),
                     Merged(out, prior.pending, st.pending),
                     st.correlate, st.quarantined))
  }

  /** The first day a sweep scans: a day before the floor's own, or day one of history when there is no floor. */
  function From(floor: Time): Time {
    if floor == 0 then HISTORY_FLOOR else UtcDay(floor) - DAY
  }

  /** With a floor, a scan starts at the midnight before the floor's own day: never after the floor, never two days before it. */
  lemma StartsTheDayBefore(floor: Time)
    requires floor != 0
    ensures Midnight(From(floor)) && From(floor) + DAY <= floor < From(floor) + 2 * DAY
  {
  }

  // ---------- the state file ----------

  class StateFile {
    var st: Checkpoint

    constructor ()
      ensures st == ZERO
    {
      st := ZERO;
    }

    method Save(next: Checkpoint)
      modifies this
      ensures st == Saved(next)
    {
      st := if |next.pending| > PENDING_CAP then RESET else next;
    }

    method SettlePending(id: string)
      modifies this
      ensures st == Settled(old(st), id)
    {
      if id in st.pending {
        Save(st.(pending := st.pending - {id}));
      }
    }

    method NotePending(id: string)
      modifies this
      ensures st == Noted(old(st), id)
    {
      if id !in st.pending {
        Save(st.(pending := st.pending + {id}));
      }
    }

    /**
     The three-way merge: ours is the emission plus the base ids not proven gone; ids pending now that the
     base never knew are another run's additions and stay; base ids no longer pending are another run's
     drains and go, unless this scan re-emitted them.
     */
    method MergePending(out: Outcome, base: set<string>) returns (merged: set<string>)
      ensures merged == Merged(out, base, st.pending)
    {
      var emitted := out.found.Keys + out.retry;
      merged := emitted;
      var todo := base;
      while todo != {}
        invariant todo <= base
        invariant forall id :: id in merged <==> id in emitted || (id in base && id !in todo && id !in out.gone)
        decreases |todo|
      {
        var id :| id in todo;
        todo := todo - {id};
        if id !in out.gone {
          merged := merged + {id};
        }
      }
      ghost var keep := merged;
      todo := st.pending;
      while todo != {}
        invariant todo <= st.pending
        invariant forall id :: id in merged <==> id in keep || (id in st.pending && id !in todo && id !in base)
        decreases |todo|
      {
        var id :| id in todo;
        todo := todo - {id};
        if id !in base {
          merged := merged + {id};
        }
      }
      ghost var ours := merged;
      todo := base;
      while todo != {}
        invariant todo <= base
        invariant forall id :: id in merged <==>
                    id in ours && !(id in base && id !in todo && id !in st.pending && id !in emitted)
        decreases |todo|
      {
        var id :| id in todo;
        todo := todo - {id};
        if id !in st.pending && id !in emitted {
          merged := merged - {id};
        }
      }
    }

    method RecordScan(scanStart: Time, attributed: bool, out: Outcome, prior: Checkpoint)
      modifies this
      ensures st == Recorded(old(st), scanStart, attributed, out, prior)
    {
      var floor := scanStart;
      if out.end != 0 && !(scanStart < out.end) {
        floor := out.end - 1;
      }
      if out.dirty != 0 && out.dirty < floor {
        floor := out.dirty;
      }
      if floor < prior.cleanThrough {
        floor := prior.cleanThrough;
      }
      if !attributed {
        floor := 0;
      }
      var merged := MergePending(out, prior.pending);
      if st.cleanThrough > floor {
        floor := st.cleanThrough;
      }
      var phase := if prior.cleanThrough != 0 then Catchup else Initial;
      Save(Checkpoint(phase, floor, merged, st.correlate, st.quarantined));
    }
  }

  // ---------- any number of interleaved runs ----------

  /** What a run does to the shared file; every event is one atomic update. */
  datatype Event =
    | Load(run: nat)
    | Record(run: nat, scanStart: Time, attributed: bool, out: Outcome)
    | Settle(id: string)
    | Note(id: string)

  /** The file, and what each run read when its scan began. */
  datatype Shared = Shared(st: Checkpoint, bases: map<nat, Checkpoint>)

  function Base(s: Shared, run: nat): Checkpoint {
    if run in s.bases then s.bases[run] else ZERO
  }

  function Apply(s: Shared, e: Event): Shared {
    match e
    case Load(run) => s.(bases := s.bases[run := s.st])
    case Record(run, scanStart, attributed, out) =>
      s.(st := Recorded(s.st, scanStart, attributed, out, Base(s, run)))
    case Settle(id) => s.(st := Settled(s.st, id))
    case Note(id) => s.(st := Noted(s.st, id))
  }

  function After(s: Shared, es: seq<Event>): Shared {
    if es == [] then s else Apply(After(s, es[..|es| - 1]), es[|es| - 1])
  }

  /** The ids pending once the scan is written: what it emitted, and what was pending unless its run knew it and proved it gone. */
  function Surviving(s: Shared, run: nat, out: Outcome): set<string> {
    set id | id in out.found.Keys + out.retry + s.st.pending
             && (id in Base(s, run).pending && id in out.gone ==> id in out.found || id in out.retry)
  }

  /** The event resets the checkpoint because the pending set it would save is past the cap. */
  predicate ResetsAt(s: Shared, e: Event) {
    match e
    case Load(_) => false
    case Record(run, _, _, out) => |Surviving(s, run, out)| > PENDING_CAP
    case Settle(id) => id in s.st.pending && |s.st.pending - {id}| > PENDING_CAP
    case Note(id) => id !in s.st.pending && |s.st.pending + {id}| > PENDING_CAP
  }

  /** The event puts id into the pending set, or finds it there and wants it kept. */
  predicate QueuesAt(s: Shared, e: Event, id: string) {
    && !ResetsAt(s, e)
    && (e == Note(id) || (e.Record? && (id in e.out.found || id in e.out.retry)))
  }

  /** The named witnesses under which id leaves the pending set. */
  predicate DrainsAt(s: Shared, e: Event, id: string) {
    || e == Settle(id)
    || (e.Record? && id in Base(s, e.run).pending && id in e.out.gone && id !in e.out.found && id !in e.out.retry)
    || ResetsAt(s, e)
  }

  lemma MergedSurvives(s: Shared, run: nat, out: Outcome)
    ensures Merged(out, Base(s, run).pending, s.st.pending) == Surviving(s, run, out)
  {
  }

  /** One event leaves pending exactly what it queues and what was pending and it does not drain. */
  lemma StepPends(s: Shared, e: Event, id: string)
    ensures id in Apply(s, e).st.pending <==> QueuesAt(s, e, id) || (id in s.st.pending && !DrainsAt(s, e, id))
  {
    match e
    case Load(_) =>
    case Settle(_) =>
    case Note(_) =>
    case Record(run, scanStart, attributed, out) =>
      MergedSurvives(s, run, out);
      assert Apply(s, e).st.pending == if ResetsAt(s, e) then {} else Surviving(s, run, out);
  }

  /** Event k of a run of events queues id, or drains it. */
  predicate QueuedBy(s: Shared, es: seq<Event>, k: nat, id: string)
    requires k < |es|
  {
    QueuesAt(After(s, es[..k]), es[k], id)
  }

  predicate DrainedBy(s: Shared, es: seq<Event>, k: nat, id: string)
    requires k < |es|
  {
    DrainsAt(After(s, es[..k]), es[k], id)
  }

  /** The id was pending at the start (k == 0) or was queued by event k - 1, and nothing has drained it since. */
  ghost predicate StandsSince(s: Shared, es: seq<Event>, id: string, k: nat) {
    && k <= |es|
    && (if k == 0 then id in s.st.pending else QueuedBy(s, es, k - 1, id))
    && forall j :: k <= j < |es| ==> !DrainedBy(s, es, j, id)
  }

  lemma SameBefore(s: Shared, es: seq<Event>, n: nat, k: nat, id: string)
    requires k < n <= |es|
    ensures QueuedBy(s, es[..n], k, id) <==> QueuedBy(s, es, k, id)
    ensures DrainedBy(s, es[..n], k, id) <==> DrainedBy(s, es, k, id)
  {
    assert es[..n][..k] == es[..k] && es[..n][k] == es[k];
  }

  lemma StandsBefore(s: Shared, es: seq<Event>, id: string, k: nat)
    requires k < |es|
    ensures StandsSince(s, es, id, k) <==> StandsSince(s, es[..|es| - 1], id, k) && !DrainedBy(s, es, |es| - 1, id)
  {
    var n := |es| - 1;
    forall j | 0 <= j < n
      ensures QueuedBy(s, es[..n], j, id) <==> QueuedBy(s, es, j, id)
      ensures DrainedBy(s, es[..n], j, id) <==> DrainedBy(s, es, j, id)
    {
      SameBefore(s, es, n, j, id);
    }
  }

  /**
   Over every interleaving, an id is pending exactly when it was pending at the start or an emission, a
   corroboration or a note has queued it, and no settle, no gone-proof of a run that knew it and no reset
   has drained it since.
   */
  lemma {:induction false} PendingExactly(s: Shared, es: seq<Event>, id: string)
    ensures id in After(s, es).st.pending <==> exists k :: StandsSince(s, es, id, k)
    decreases |es|
  {
    if es == [] {
      assert StandsSince(s, es, id, 0) <==> id in s.st.pending;
    } else {
      var n := |es| - 1;
      PendingExactly(s, es[..n], id);
      StepPends(After(s, es[..n]), es[n], id);
      forall k: nat | k < |es|
        ensures StandsSince(s, es, id, k) <==> StandsSince(s, es[..n], id, k) && !DrainedBy(s, es, n, id)
      {
        StandsBefore(s, es, id, k);
      }
      assert StandsSince(s, es, id, |es|) <==> QueuedBy(s, es, n, id);
    }
  }

  /** Over every interleaving, an id that left the pending set was drained by a named witness. */
  lemma PendingLeavesByWitness(s: Shared, es: seq<Event>, id: string)
    requires id in s.st.pending && id !in After(s, es).st.pending
    ensures exists k :: 0 <= k < |es| && DrainedBy(s, es, k, id)
  {
    PendingExactly(s, es, id);
    assert !StandsSince(s, es, id, 0);
  }

  /** No update that does not reset lowers the floor, and none loses a verdict or a recorded cap. */
  lemma StepKeepsFloor(s: Shared, e: Event)
    requires !ResetsAt(s, e)
    ensures Apply(s, e).st.cleanThrough >= s.st.cleanThrough
    ensures Apply(s, e).st.correlate == s.st.correlate && Apply(s, e).st.quarantined == s.st.quarantined
  {
    if e.Record? {
      MergedSurvives(s, e.run, e.out);
    }
  }

  /** Over every interleaving with no overflow the floor never moves backward. */
  lemma {:induction false} FloorNeverRegresses(s: Shared, es: seq<Event>)
    requires forall k :: 0 <= k < |es| ==> !ResetsAt(After(s, es[..k]), es[k])
    ensures After(s, es).st.cleanThrough >= s.st.cleanThrough
    decreases |es|
  {
    if es != [] {
      var n := |es| - 1;
      forall k | 0 <= k < n
        ensures !ResetsAt(After(s, es[..n][..k]), es[..n][k])
      {
        assert es[..n][..k] == es[..k] && es[..n][k] == es[k];
      }
      FloorNeverRegresses(s, es[..n]);
      StepKeepsFloor(After(s, es[..n]), es[n]);
    }
  }

  /** A scope with no account evidence never comes to hold a floor. */
  lemma {:induction false} UnattributedStoresNoFloor(s: Shared, es: seq<Event>)
    requires s.st.cleanThrough == 0
    requires forall k :: 0 <= k < |es| && es[k].Record? ==> !es[k].attributed
    ensures After(s, es).st.cleanThrough == 0
    decreases |es|
  {
    if es != [] {
      var n := |es| - 1;
      forall k | 0 <= k < n && es[..n][k].Record?
        ensures !es[..n][k].attributed
      {
        assert es[..n][k] == es[k];
      }
      UnattributedStoresNoFloor(s, es[..n]);
    }
  }

  /**
   The floor advances no further than the clean coverage: past the stored and the base floor, only up to the
   scan's start, below its end bound, and not past the earliest dirty window; and it does advance to the first
   of these, unless nothing attributes the scan.
   */
  lemma FloorStaysClean(stored: Time, scanStart: Time, attributed: bool, out: Outcome, prior: Time)
    requires stored >= 0 && out.end > 0
    ensures var f := NewFloor(stored, scanStart, attributed, out, prior);
            f == stored || f == prior || (f <= scanStart && f < out.end && (out.dirty != 0 ==> f <= out.dirty))
    ensures var f := NewFloor(stored, scanStart, attributed, out, prior);
            if attributed then
              f >= stored && f >= prior && (f >= scanStart || f >= out.end - 1 || (out.dirty != 0 && f >= out.dirty))
            else f == stored
  {
  }
}
