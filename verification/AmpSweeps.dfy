/**
 Whole histories of amp sweeps: a server that changes threads at any moment, sweeps that scan, checkpoint and
 settle one atomic step at a time, and a crash allowed between any two steps.
 */
module AmpSweeps {
  import opened AmpServer
  import opened Clock
  import opened AmpEnumerate
  import opened AmpCompleteness
  import opened AmpCheckpoint
  import opened AmpRecapture
  import opened Journal

  /**
   A sweep in progress. Both phases carry the journal as walked at the sweep's start; a scan carries the
   checkpoint it read, its start instant and the universe at each search so far.
   */
  datatype Sweep =
    | Scanning(walked: map<string, Facts>, base: Checkpoint, scanStart: Time, worlds: seq<Universe>)
    | Capturing(walked: map<string, Facts>, todo: map<string, Time>)

  /**
   `dead` holds the revisions settled by a terminal verdict: an invalid id or an export over the byte budget.
   The last two fields only record what has happened: `held`, every floor a scan stored because broken coverage
   began there, and `forgotten`, every id a scan had read as pending and neither answered for nor found again in
   the file it rewrote, with the instant of that write.
   */
  datatype System = System(now: Time, world: Universe, st: Checkpoint, journal: map<string, Facts>,
                           dead: map<string, Time>, sweeps: map<nat, Sweep>,
                           held: set<Time>, forgotten: map<string, Time>)

  /** Whether sweeps may overlap, and whether the checkpoint file may be lost while a scan is running. */
  datatype Rules = Rules(overlap: bool, tear: bool)
  const SAFE := Rules(false, false)
  const TEARING := Rules(false, true)
  const ANY := Rules(true, true)

  datatype Step =
    | Tick(at: Time)
    | Touch(id: string, th: Thread)
    | Remove(id: string)
    | Begin(run: nat)
    | Search(run: nat)
    | RecordScan(run: nat, srv: Server, order: seq<string>, through: Time, attributed: bool)
    | Unchanged(run: nat, id: string)
    | Gone(run: nat, id: string)
    | Terminal(run: nat, id: string)
    | Fail(run: nat, id: string)
    | Skip(run: nat, id: string)
    | Commit(run: nat, id: string, facts: Facts)
    | Stop(run: nat)
    | LoseCheckpoint

  function Revisions(journal: map<string, Facts>): map<string, Time> {
    map id | id in journal :: journal[id].lastActiveAt
  }

  function Enumerated(s: System, sw: Sweep, a: Step): Enumeration
    requires sw.Scanning? && a.RecordScan?
  {
    Enumerate(a.srv, From(sw.base.cleanThrough), a.through, sw.base.cleanThrough, a.order, Revisions(s.journal))
  }

  /** The reply oracle is honest about the universes the scan met, one per search it made. */
  ghost predicate ScanHappened(s: System, sw: Sweep, a: Step)
    requires sw.Scanning? && a.RecordScan?
  {
    && Honest(a.srv, sw.worlds)
    && |sw.worlds| == Lanes(a.srv, From(sw.base.cleanThrough), a.through, sw.base.cleanThrough, a.order).calls
    && (set id | id in a.order) == sw.base.pending
    && Midnight(a.through) && sw.scanStart < a.through <= s.now + DAY
    && Enumerated(s, sw, a).Complete?
  }

  predicate Owes(s: System, run: nat, id: string) {
    run in s.sweeps && s.sweeps[run].Capturing? && id in s.sweeps[run].todo
  }

  /** Which steps may happen. A changed thread is stamped with an instant later than every clock reading so far. */
  ghost predicate Can(s: System, a: Step, rules: Rules) {
    match a
    case Tick(at) => at >= s.now
    case Touch(id, th) => th.updatedAt > s.now
    case Remove(id) => id in s.world
    case Begin(run) => run !in s.sweeps && (rules.overlap || s.sweeps == map[])
    case Search(run) => run in s.sweeps && s.sweeps[run].Scanning?
    case RecordScan(run, _, _, _, _) => run in s.sweeps && s.sweeps[run].Scanning? && ScanHappened(s, s.sweeps[run], a)
    case Unchanged(run, id) =>
      && Owes(s, run, id)
      && id in s.sweeps[run].walked
      && s.sweeps[run].todo[id] <= s.sweeps[run].walked[id].lastActiveAt
    case Gone(run, id) => Owes(s, run, id) && id !in s.world
    case Terminal(run, id) => Owes(s, run, id)
    case Fail(run, id) => Owes(s, run, id)
    case Skip(run, id) => Owes(s, run, id)
    case Commit(run, id, facts) =>
      Owes(s, run, id) && (id in s.sweeps[run].walked ==> Supersedes(s.sweeps[run].walked[id], facts))
    case Stop(run) => run in s.sweeps
    case LoseCheckpoint => rules.tear || forall run :: run in s.sweeps ==> s.sweeps[run].Capturing?
  }

  function Handled(s: System, run: nat, id: string): System
    requires Owes(s, run, id)
  {
    var sw := s.sweeps[run];
    s.(sweeps := s.sweeps[run := sw.(todo := sw.todo - {id})])
  }

  /** The pending ids a scan had read that are neither answered for by it nor still in the file. */
  function Unanswered(st: Checkpoint, base: Checkpoint, out: Outcome): set<string> {
    base.pending - st.pending - Emitted(out) - out.gone
  }

  /** The floor a scan stored, when broken coverage is what held it there. */
  function HeldAt(st: Checkpoint, out: Outcome): set<Time> {
    if out.dirty != 0 && st.cleanThrough == out.dirty then {out.dirty} else {}
  }

  /** What the scan's write forgets: those ids, at any revision up to now. */
  function Forgets(s: System, sw: Sweep, out: Outcome): map<string, Time>
    requires sw.Scanning?
  {
    map id | id in Unanswered(s.st, sw.base, out) :: s.now
  }

  /** The scan's checkpoint write, over whatever the file now holds. */
  function Written(s: System, run: nat, out: Outcome, attributed: bool): System
    requires run in s.sweeps && s.sweeps[run].Scanning?
  {
    var sw := s.sweeps[run];
    var st := Recorded(s.st, sw.scanStart, attributed, out, sw.base);
    s.(st := st, sweeps := s.sweeps[run := Capturing(sw.walked, out.found)],
       held := s.held + HeldAt(st, out), forgotten := s.forgotten + Forgets(s, sw, out))
  }

  ghost function Do(s: System, a: Step): System
    requires Can(s, a, ANY)
  {
    match a
    case Tick(at) => s.(now := at)
    case Touch(id, th) => s.(now := th.updatedAt, world := s.world[id := th])
    case Remove(id) => s.(world := s.world - {id})
    case Begin(run) => s.(sweeps := s.sweeps[run := Scanning(s.journal, s.st, s.now, [])])
    case Search(run) =>
      var sw := s.sweeps[run];
      s.(sweeps := s.sweeps[run := sw.(worlds := sw.worlds + [s.world])])
    case RecordScan(run, _, _, _, attributed) =>
      Written(s, run, Enumerated(s, s.sweeps[run], a).out, attributed)
    case Unchanged(run, id) => Handled(s, run, id).(st := Settled(s.st, id))
    case Gone(run, id) => Handled(s, run, id).(st := Settled(s.st, id))
    case Terminal(run, id) => Handled(s, run, id).(st := Settled(s.st, id), dead := s.dead[id := s.sweeps[run].todo[id]])
    case Fail(run, id) => Handled(s, run, id).(st := Noted(s.st, id))
    case Skip(run, id) => Handled(s, run, id)
    case Commit(run, id, facts) => Handled(s, run, id).(journal := s.journal[id := facts])
    case Stop(run) => s.(sweeps := s.sweeps - {run})
    case LoseCheckpoint => s.(st := ZERO)
  }

  ghost predicate Initially(s: System) {
    && s.now > 30 * DAY
    && s.st == ZERO && s.sweeps == map[] && s.dead == map[] && s.held == {} && s.forgotten == map[]
    && forall id :: id in s.world ==> HISTORY_FLOOR <= s.world[id].updatedAt <= s.now
  }

  /** The steps are possible one after another from s, and no thread is stamped before the history floor. */
  ghost predicate Legal(s: System, steps: seq<Step>, rules: Rules)
    decreases |steps|
  {
    steps == [] ||
    (&& Can(s, steps[0], rules)
     && (steps[0].Touch? ==> steps[0].th.updatedAt >= HISTORY_FLOOR)
     && Legal(Do(s, steps[0]), steps[1..], rules))
  }

  ghost function Final(s: System, steps: seq<Step>, rules: Rules): System
    requires Legal(s, steps, rules)
    decreases |steps|
  {
    if steps == [] then s else Final(Do(s, steps[0]), steps[1..], rules)
  }

  lemma {:induction false} LegalUnderMore(s: System, steps: seq<Step>, rules: Rules, more: Rules)
    requires Legal(s, steps, rules) && (rules.overlap ==> more.overlap) && (rules.tear ==> more.tear)
    ensures Legal(s, steps, more) && Final(s, steps, more) == Final(s, steps, rules)
    decreases |steps|
  {
    if steps != [] {
      LegalUnderMore(Do(s, steps[0]), steps[1..], rules, more);
    }
  }

  /** The thread is queued, committed at its revision or later, or terminally settled at its revision or later. */
  predicate CoveredBy(s: System, st: Checkpoint, id: string)
    requires id in s.world
  {
    || id in st.pending
    || (id in s.journal && s.journal[id].lastActiveAt >= s.world[id].updatedAt)
    || (id in s.dead && s.dead[id] >= s.world[id].updatedAt)
  }

  predicate Covered(s: System, id: string)
    requires id in s.world
  {
    CoveredBy(s, s.st, id)
  }

  // ---------- the invariant of non-overlapping sweeps ----------

  /** The id was forgotten at this revision or a later one. */
  predicate Forgotten(s: System, id: string)
    requires id in s.world
  {
    id in s.forgotten && s.world[id].updatedAt <= s.forgotten[id]
  }

  /**
   A floor speaks for a thread stamped at or below it, unless broken coverage held a floor at that very stamp or a
   scan forgot the thread as it now stands.
   */
  predicate SpokenFor(s: System, floor: Time, id: string) {
    id in s.world && s.world[id].updatedAt <= floor && s.world[id].updatedAt !in s.held && !Forgotten(s, id)
  }

  ghost predicate FloorCovered(s: System, st: Checkpoint) {
    forall id :: SpokenFor(s, st.cleanThrough, id) ==> CoveredBy(s, st, id)
  }

  predicate FloorInRange(s: System, floor: Time) {
    floor == 0 || 2 * DAY < floor <= s.now
  }

  /** A thread stamped no later than the scan's start has stood still since; the file is as read, or lost. */
  ghost predicate ScanInv(s: System, sw: Sweep)
    requires sw.Scanning?
  {
    && sw.walked == s.journal
    && (s.st == sw.base || s.st == ZERO)
    && FloorCovered(s, sw.base) && FloorInRange(s, sw.base.cleanThrough)
    && sw.base.cleanThrough <= sw.scanStart <= s.now && sw.scanStart > 30 * DAY
    && forall id :: id in s.world && s.world[id].updatedAt <= sw.scanStart ==>
         Steady(sw.worlds, 0, |sw.worlds|, id, s.world[id])
  }

  /** An owed revision is the thread's own, unless the thread has moved past the floor since. */
  ghost predicate CaptureInv(s: System, sw: Sweep)
    requires sw.Capturing?
  {
    forall id :: id in sw.todo ==>
      && (id in sw.walked <==> id in s.journal)
      && (id in sw.walked ==> sw.walked[id] == s.journal[id])
      && (id in s.world && s.world[id].updatedAt <= s.st.cleanThrough ==> sw.todo[id] == s.world[id].updatedAt)
  }

  ghost predicate SweepInv(s: System, sw: Sweep) {
    if sw.Scanning? then ScanInv(s, sw) else CaptureInv(s, sw)
  }

  ghost predicate Inv(s: System) {
    && s.now > 30 * DAY
    && FloorInRange(s, s.st.cleanThrough)
    && (forall id :: id in s.world ==> HISTORY_FLOOR <= s.world[id].updatedAt <= s.now)
    && FloorCovered(s, s.st)
    && (forall t :: t in s.held ==> Midnight(t))
    && (forall r, r' :: r in s.sweeps && r' in s.sweeps ==> r == r')
    && (forall r :: r in s.sweeps ==> SweepInv(s, s.sweeps[r]))
  }

  lemma FromIsMidnight(floor: Time)
    requires floor == 0 || floor > 2 * DAY
    ensures From(floor) > 0 && Midnight(From(floor))
    ensures floor != 0 ==> From(floor) <= floor
  {
  }

  /** Broken coverage starts at a midnight, no earlier than the first scanned day. */
  lemma ScanDirty(s: System, a: Step)
    requires Inv(s) && a.RecordScan? && Can(s, a, TEARING)
    ensures var out := Enumerated(s, s.sweeps[a.run], a).out;
            out.dirty == 0 || (Midnight(out.dirty) && out.dirty >= From(s.sweeps[a.run].base.cleanThrough))
  {
    var floor := s.sweeps[a.run].base.cleanThrough;
    assert SweepInv(s, s.sweeps[a.run]);
    FromIsMidnight(floor);
    DirtyInRange(a.srv, From(floor), a.through, floor, a.order);
  }

  /** What the enumeration's guarantees say of a thread that has stood still since the scan began. */
  lemma ScanSaw(s: System, a: Step, id: string)
    requires Inv(s) && a.RecordScan? && Can(s, a, TEARING)
    requires id in s.world && s.world[id].updatedAt <= s.sweeps[a.run].scanStart
    ensures var sw := s.sweeps[a.run];
            var out, u := Enumerated(s, sw, a).out, s.world[id].updatedAt;
            && id !in out.gone
            && (id in out.found ==> out.found[id] == u)
            && (u > sw.base.cleanThrough && (out.dirty == 0 || u < out.dirty) ==> id in out.found)
  {
    var sw := s.sweeps[a.run];
    var floor := sw.base.cleanThrough;
    var from, th := From(floor), s.world[id];
    var out := Enumerated(s, sw, a).out;
    assert SweepInv(s, sw);
    FromIsMidnight(floor);
    assert Steady(sw.worlds, 0, |sw.worlds|, id, th);
    ScanDirty(s, a);
    if id in out.gone {
      GoneIsAbsent(a.srv, sw.worlds, from, a.through, floor, a.order, Revisions(s.journal), id);
    }
    if id in out.found {
      FoundIsReal(a.srv, sw.worlds, from, a.through, floor, a.order, Revisions(s.journal), id);
    }
    if th.updatedAt > floor {
      assert from <= th.updatedAt;
      EnumerationComplete(a.srv, sw.worlds, from, a.through, floor, a.order, Revisions(s.journal), id, th);
    }
  }

  /** Recording a scan over the file as read, or over a lost one, when no overflow resets the result. */
  lemma RecordedParts(st: Checkpoint, scanStart: Time, attributed: bool, out: Outcome, base: Checkpoint)
    requires st == base || st == ZERO
    ensures var st' := Recorded(st, scanStart, attributed, out, base);
            || st' == RESET
            || (&& st'.pending == Merged(out, base.pending, st.pending)
                && st'.cleanThrough == NewFloor(st.cleanThrough, scanStart, attributed, out, base.cleanThrough))
  {
  }

  /**
   A thread at or below the new floor was at or below the one the scan read, or inside the clean coverage, or
   stands exactly where broken coverage held the floor.
   */
  lemma NewFloorBounds(f: Time, base: Time, scanStart: Time, attributed: bool, out: Outcome, u: Time)
    requires 0 <= f <= base <= scanStart && out.end > scanStart
    requires 0 < u <= NewFloor(f, scanStart, attributed, out, base)
    ensures u <= scanStart
    ensures u <= base || out.dirty == 0 || u < out.dirty ||
            u == out.dirty == NewFloor(f, scanStart, attributed, out, base)
  {
  }

  /** A stored floor is 0 or a real instant, and never ahead of the clock. */
  lemma NewFloorRange(f: Time, base: Time, scanStart: Time, attributed: bool, out: Outcome, low: Time)
    requires f == base || f == 0
    requires base == 0 || low < base
    requires 0 < low < scanStart && base <= scanStart && out.end > scanStart
    requires base == 0 && out.dirty != 0 ==> out.dirty > low
    ensures var g := NewFloor(f, scanStart, attributed, out, base);
            g == 0 || low < g <= scanStart
  {
  }

  /** An id the scan had read as pending, and that is live, is queued again unless the scan leaves it unanswered. */
  lemma StaysQueued(st: Checkpoint, base: Checkpoint, out: Outcome, id: string)
    requires id in base.pending && id !in out.gone && id !in Unanswered(st, base, out)
    ensures id in Merged(out, base.pending, st.pending)
  {
  }

  lemma RecordRange(s: System, a: Step, out: Outcome)
    requires Inv(s) && a.RecordScan? && Can(s, a, TEARING) && out == Enumerated(s, s.sweeps[a.run], a).out
    ensures var g := Written(s, a.run, out, a.attributed).st.cleanThrough;
            g == 0 || 2 * DAY < g <= s.sweeps[a.run].scanStart
  {
    var sw := s.sweeps[a.run];
    assert SweepInv(s, sw);
    ScanDirty(s, a);
    RecordedParts(s.st, sw.scanStart, a.attributed, out, sw.base);
    NewFloorRange(s.st.cleanThrough, sw.base.cleanThrough, sw.scanStart, a.attributed, out, 2 * DAY);
  }

  /** The write's effect on a thread the floor already spoke for when the scan read it. */
  lemma StaysCoveredBelow(s: System, run: nat, out: Outcome, attributed: bool, id: string)
    requires run in s.sweeps && s.sweeps[run].Scanning?
    requires var sw := s.sweeps[run]; (s.st == sw.base || s.st == ZERO) && FloorCovered(s, sw.base)
    requires id !in out.gone && SpokenFor(s, s.sweeps[run].base.cleanThrough, id)
    requires id !in Unanswered(s.st, s.sweeps[run].base, out)
    requires Written(s, run, out, attributed).st != RESET
    ensures Covered(Written(s, run, out, attributed), id)
  {
    var sw := s.sweeps[run];
    RecordedParts(s.st, sw.scanStart, attributed, out, sw.base);
    assert CoveredBy(s, sw.base, id);
    if id in sw.base.pending {
      StaysQueued(s.st, sw.base, out, id);
    }
  }

  /** The write's effect on a thread the floor did not yet speak for: the clean coverage holds it, so the scan found it. */
  lemma StaysCoveredAbove(s: System, run: nat, out: Outcome, attributed: bool, id: string)
    requires run in s.sweeps && s.sweeps[run].Scanning?
    requires var sw := s.sweeps[run]; (s.st == sw.base || s.st == ZERO) && 0 <= sw.base.cleanThrough <= sw.scanStart < out.end
    requires id in s.world && s.world[id].updatedAt > s.sweeps[run].base.cleanThrough
    requires out.dirty == 0 || s.world[id].updatedAt < out.dirty ==> id in out.found
    requires var s' := Written(s, run, out, attributed); SpokenFor(s', s'.st.cleanThrough, id)
    ensures Covered(Written(s, run, out, attributed), id)
  {
    var sw, u := s.sweeps[run], s.world[id].updatedAt;
    RecordedParts(s.st, sw.scanStart, attributed, out, sw.base);
    NewFloorBounds(s.st.cleanThrough, sw.base.cleanThrough, sw.scanStart, attributed, out, u);
    assert id in Emitted(out);
  }

  /** A live thread not forgotten as it stands was neither forgotten before nor left unanswered now. */
  lemma NotForgotten(s: System, run: nat, out: Outcome, attributed: bool, id: string)
    requires run in s.sweeps && s.sweeps[run].Scanning?
    requires id in s.world && s.world[id].updatedAt <= s.now && !Forgotten(Written(s, run, out, attributed), id)
    ensures !Forgotten(s, id)
    ensures id !in Unanswered(s.st, s.sweeps[run].base, out)
  {
  }

  /** Recording leaves every thread the new floor speaks for covered. */
  lemma StaysCovered(s: System, a: Step, out: Outcome, id: string)
    requires Inv(s) && a.RecordScan? && Can(s, a, TEARING) && out == Enumerated(s, s.sweeps[a.run], a).out
    requires var s' := Written(s, a.run, out, a.attributed); SpokenFor(s', s'.st.cleanThrough, id)
    ensures Covered(Written(s, a.run, out, a.attributed), id)
  {
    RecordRange(s, a, out);
    ScanSaw(s, a, id);
    NotForgotten(s, a.run, out, a.attributed, id);
    assert SweepInv(s, s.sweeps[a.run]);
    if s.world[id].updatedAt <= s.sweeps[a.run].base.cleanThrough {
      StaysCoveredBelow(s, a.run, out, a.attributed, id);
    } else {
      StaysCoveredAbove(s, a.run, out, a.attributed, id);
    }
  }

  /** The sweep once its scan is recorded: it owes what it found. */
  lemma WrittenSweep(s: System, run: nat, out: Outcome, attributed: bool)
    requires run in s.sweeps && s.sweeps[run].Scanning? && s.sweeps[run].walked == s.journal
    requires var s' := Written(s, run, out, attributed);
             forall id :: id in out.found && id in s.world && s.world[id].updatedAt <= s'.st.cleanThrough ==>
               out.found[id] == s.world[id].updatedAt
    ensures var s' := Written(s, run, out, attributed); SweepInv(s', s'.sweeps[run])
  {
  }

  lemma OnlySweep(s: System, s': System, run: nat)
    requires run in s.sweeps && run in s'.sweeps && s'.sweeps == s.sweeps[run := s'.sweeps[run]]
    requires forall r, r' :: r in s.sweeps && r' in s.sweeps ==> r == r'
    ensures forall r :: r in s'.sweeps ==> r == run
  {
  }

  /** The system once a scan is recorded. */
  lemma WrittenInv(s: System, run: nat, out: Outcome, attributed: bool)
    requires Inv(s) && run in s.sweeps && s.sweeps[run].Scanning?
    requires var s' := Written(s, run, out, attributed);
             && FloorInRange(s, s'.st.cleanThrough) && FloorCovered(s', s'.st)
             && (forall id :: id in out.found && id in s.world && s.world[id].updatedAt <= s'.st.cleanThrough ==>
                   out.found[id] == s.world[id].updatedAt)
    requires out.dirty == 0 || Midnight(out.dirty)
    ensures Inv(Written(s, run, out, attributed))
  {
    assert s.sweeps[run].walked == s.journal by { assert SweepInv(s, s.sweeps[run]); }
    WrittenSweep(s, run, out, attributed);
    OnlySweep(s, Written(s, run, out, attributed), run);
  }

  /** The heart of the invariant: recording a scan leaves no thread the new floor speaks for unaccounted for. */
  lemma RecordKeepsInv(s: System, a: Step)
    requires Inv(s) && a.RecordScan? && Can(s, a, TEARING)
    ensures Inv(Do(s, a))
  {
    var out := Enumerated(s, s.sweeps[a.run], a).out;
    var s' := Written(s, a.run, out, a.attributed);
    RecordRange(s, a, out);
    ScanDirty(s, a);
    forall id | SpokenFor(s', s'.st.cleanThrough, id)
      ensures CoveredBy(s', s'.st, id)
    {
      StaysCovered(s, a, out, id);
    }
    assert s.sweeps[a.run].scanStart <= s.now by { assert SweepInv(s, s.sweeps[a.run]); }
    forall id | id in out.found && id in s.world && s.world[id].updatedAt <= s'.st.cleanThrough
      ensures out.found[id] == s.world[id].updatedAt
    {
      ScanSaw(s, a, id);
    }
    WrittenInv(s, a.run, out, a.attributed);
  }

  /** A sweep at work: it takes one id off what it owes, and whatever it writes leaves that id's thread covered. */
  lemma WorkKeepsInv(s: System, s': System, run: nat, id: string)
    requires Inv(s) && Owes(s, run, id) && s'.sweeps == Handled(s, run, id).sweeps
    requires s' == s.(st := s'.st, sweeps := s'.sweeps, dead := s'.dead, journal := s'.journal)
    requires s'.st == s.st || (s'.st.cleanThrough in {0, s.st.cleanThrough})
    requires forall other :: other != id ==>
               && (other in s.journal <==> other in s'.journal)
               && (other in s.journal ==> s'.journal[other] == s.journal[other])
               && (other in s.dead ==> other in s'.dead && s'.dead[other] == s.dead[other])
               && (other in s.st.pending && s'.st.cleanThrough != 0 ==> other in s'.st.pending)
    requires SpokenFor(s, s'.st.cleanThrough, id) ==> Covered(s', id)
    ensures Inv(s')
  {
    forall other | SpokenFor(s', s'.st.cleanThrough, other)
      ensures CoveredBy(s', s'.st, other)
    {
      if other != id {
        assert SpokenFor(s, s.st.cleanThrough, other);
        assert CoveredBy(s, s.st, other);
      }
    }
    assert SweepInv(s, s.sweeps[run]);
    assert SweepInv(s', s'.sweeps[run]);
  }

  lemma SettleKeepsInv(s: System, a: Step)
    requires Inv(s) && Can(s, a, TEARING) && (a.Unchanged? || a.Gone? || a.Terminal?)
    ensures Inv(Do(s, a))
  {
    assert SweepInv(s, s.sweeps[a.run]);
    WorkKeepsInv(s, Do(s, a), a.run, a.id);
  }

  lemma HandledKeepsInv(s: System, a: Step)
    requires Inv(s) && Can(s, a, TEARING) && (a.Fail? || a.Skip? || a.Commit?)
    ensures Inv(Do(s, a))
  {
    assert SweepInv(s, s.sweeps[a.run]);
    if SpokenFor(s, s.st.cleanThrough, a.id) {
      assert CoveredBy(s, s.st, a.id);
    }
    WorkKeepsInv(s, Do(s, a), a.run, a.id);
  }

  /** A change of the server's leaves a floor's threads covered: a thread that moves is stamped past every floor. */
  lemma WorldMoves(s: System, s': System, st: Checkpoint)
    requires FloorCovered(s, st) && s' == s.(now := s'.now, world := s'.world)
    requires forall id :: id in s'.world && s'.world[id].updatedAt <= st.cleanThrough ==>
               id in s.world && s'.world[id] == s.world[id]
    ensures FloorCovered(s', st)
  {
    forall id | SpokenFor(s', st.cleanThrough, id)
      ensures CoveredBy(s', st, id)
    {
      assert SpokenFor(s, st.cleanThrough, id);
    }
  }

  lemma ServerKeepsInv(s: System, a: Step)
    requires Inv(s) && Can(s, a, TEARING)
    requires a.Tick? || a.Remove? || (a.Touch? && a.th.updatedAt >= HISTORY_FLOOR)
    ensures Inv(Do(s, a))
  {
    var s' := Do(s, a);
    WorldMoves(s, s', s.st);
    forall r | r in s'.sweeps
      ensures SweepInv(s', s'.sweeps[r])
    {
      assert SweepInv(s, s.sweeps[r]);
      if s.sweeps[r].Scanning? {
        WorldMoves(s, s', s.sweeps[r].base);
      }
    }
  }

  lemma SearchKeepsInv(s: System, a: Step)
    requires Inv(s) && a.Search? && Can(s, a, TEARING)
    ensures Inv(Do(s, a))
  {
    var s' := Do(s, a);
    var sw, sw' := s.sweeps[a.run], s'.sweeps[a.run];
    assert SweepInv(s, sw);
    forall id | id in s'.world && s'.world[id].updatedAt <= sw'.scanStart
      ensures Steady(sw'.worlds, 0, |sw'.worlds|, id, s'.world[id])
    {
      assert Steady(sw.worlds, 0, |sw.worlds|, id, s.world[id]);
    }
    SameFloor(s, s', s.st);
    SameFloor(s, s', sw.base);
    assert SweepInv(s', sw');
  }

  lemma SameFloor(s: System, s': System, st: Checkpoint)
    requires FloorCovered(s, st) && s' == s.(sweeps := s'.sweeps, st := s'.st)
    ensures FloorCovered(s', st)
  {
    forall id | SpokenFor(s', st.cleanThrough, id)
      ensures CoveredBy(s', st, id)
    {
      assert SpokenFor(s, st.cleanThrough, id);
    }
  }

  lemma OthersKeepInv(s: System, a: Step)
    requires Inv(s) && Can(s, a, TEARING) && (a.Begin? || a.Stop? || a.LoseCheckpoint?)
    ensures Inv(Do(s, a))
  {
    var s' := Do(s, a);
    SameFloor(s, s', s.st);
    forall r | r in s'.sweeps
      ensures SweepInv(s', s'.sweeps[r])
    {
      if r in s.sweeps {
        assert SweepInv(s, s.sweeps[r]);
        if s.sweeps[r].Scanning? {
          SameFloor(s, s', s.sweeps[r].base);
        }
      }
    }
  }

  lemma StepKeepsInv(s: System, a: Step)
    requires Inv(s) && Can(s, a, TEARING)
    requires a.Touch? ==> a.th.updatedAt >= HISTORY_FLOOR
    ensures Inv(Do(s, a))
  {
    match a
    case Tick(_) => ServerKeepsInv(s, a);
    case Touch(_, _) => ServerKeepsInv(s, a);
    case Remove(_) => ServerKeepsInv(s, a);
    case Search(_) => SearchKeepsInv(s, a);
    case RecordScan(_, _, _, _, _) => RecordKeepsInv(s, a);
    case Begin(_) => OthersKeepInv(s, a);
    case Stop(_) => OthersKeepInv(s, a);
    case LoseCheckpoint => OthersKeepInv(s, a);
    case Unchanged(_, _) => SettleKeepsInv(s, a);
    case Gone(_, _) => SettleKeepsInv(s, a);
    case Terminal(_, _) => SettleKeepsInv(s, a);
    case _ => HandledKeepsInv(s, a);
  }

  lemma {:induction false} InvHolds(s: System, steps: seq<Step>)
    requires Inv(s) && Legal(s, steps, TEARING)
    ensures Inv(Final(s, steps, TEARING))
    decreases |steps|
  {
    if steps != [] {
      StepKeepsInv(s, steps[0]);
      InvHolds(Do(s, steps[0]), steps[1..]);
    }
  }

  // ---------- nothing is lost ----------

  /**
   No thread is ever lost: over every history of sweeps that do not overlap, with server changes, failed captures,
   crashes and a checkpoint file lost at any moment, a live thread stamped at or below the clean floor is pending,
   committed at that revision or later, or terminally settled at it. There are two exceptions: a stamp where
   broken coverage held a stored floor, and a revision no later than the write of a scan that forgot its id.
   */
  lemma NoThreadLost(s: System, steps: seq<Step>, id: string)
    requires Initially(s) && Legal(s, steps, TEARING)
    requires SpokenFor(Final(s, steps, TEARING), Final(s, steps, TEARING).st.cleanThrough, id)
    ensures Covered(Final(s, steps, TEARING), id)
  {
    InvHolds(s, steps);
  }

  /** Only a UTC midnight is ever held. */
  lemma HeldAreMidnights(s: System, steps: seq<Step>)
    requires Initially(s) && Legal(s, steps, TEARING)
    ensures forall t :: t in Final(s, steps, TEARING).held ==> Midnight(t)
  {
    InvHolds(s, steps);
  }

  /** The scan answers for each pending id it read, or finds it still in the file. */
  ghost predicate AnswersAll(s: System, a: Step)
    requires Can(s, a, ANY)
  {
    a.RecordScan? ==>
      var sw := s.sweeps[a.run];
      var out := Enumerated(s, sw, a).out;
      sw.base.pending <= s.st.pending + Emitted(out) + out.gone
  }

  ghost predicate AllAnswered(s: System, steps: seq<Step>, rules: Rules)
    requires Legal(s, steps, rules)
    decreases |steps|
  {
    steps == [] || (AnswersAll(s, steps[0]) && AllAnswered(Do(s, steps[0]), steps[1..], rules))
  }

  /** What a scan's write adds to the forgotten ids. */
  lemma UnansweredExactly(st: Checkpoint, base: Checkpoint, out: Outcome)
    ensures Unanswered(st, base, out) == {} <==> base.pending <= st.pending + Emitted(out) + out.gone
  {
    if Unanswered(st, base, out) == {} {
      forall id | id in base.pending
        ensures id in st.pending + Emitted(out) + out.gone
      {
        assert id !in Unanswered(st, base, out);
      }
    }
  }

  lemma ForgetsKeys(s: System, sw: Sweep, out: Outcome)
    requires sw.Scanning?
    ensures (s.forgotten + Forgets(s, sw, out)).Keys == s.forgotten.Keys + Unanswered(s.st, sw.base, out)
    ensures Unanswered(s.st, sw.base, out) == {} ==> s.forgotten + Forgets(s, sw, out) == s.forgotten
  {
  }

  lemma OthersForgetNothing(s: System, a: Step)
    requires Can(s, a, ANY) && !a.RecordScan?
    ensures Do(s, a).forgotten == s.forgotten
  {
  }

  lemma RecordForgets(s: System, a: Step)
    requires Can(s, a, ANY) && a.RecordScan?
    ensures var sw := s.sweeps[a.run];
            Do(s, a).forgotten == s.forgotten + Forgets(s, sw, Enumerated(s, sw, a).out)
  {
  }

  lemma StepForgets(s: System, a: Step)
    requires Can(s, a, ANY)
    ensures s.forgotten.Keys <= Do(s, a).forgotten.Keys
    ensures AnswersAll(s, a) ==> Do(s, a).forgotten == s.forgotten
    ensures !AnswersAll(s, a) ==> Do(s, a).forgotten.Keys != {}
  {
    if a.RecordScan? {
      var sw := s.sweeps[a.run];
      UnansweredExactly(s.st, sw.base, Enumerated(s, sw, a).out);
      ForgetsKeys(s, sw, Enumerated(s, sw, a).out);
      RecordForgets(s, a);
    } else {
      OthersForgetNothing(s, a);
    }
  }

  /** A history forgets an id if and only if one of its scans left a pending id unanswered. */
  lemma {:induction false} ForgottenExactly(s: System, steps: seq<Step>, rules: Rules)
    requires Legal(s, steps, rules)
    ensures s.forgotten.Keys <= Final(s, steps, rules).forgotten.Keys
    ensures s.forgotten == map[] ==> (Final(s, steps, rules).forgotten == map[] <==> AllAnswered(s, steps, rules))
    decreases |steps|
  {
    if steps != [] {
      StepForgets(s, steps[0]);
      ForgottenExactly(Do(s, steps[0]), steps[1..], rules);
    }
  }

  /** Every running scan's file still stands as it read it. */
  ghost predicate FileAsRead(s: System) {
    && (forall r, r' :: r in s.sweeps && r' in s.sweeps ==> r == r')
    && (forall r :: r in s.sweeps && s.sweeps[r].Scanning? ==> s.sweeps[r].base == s.st)
  }

  /** One run's step past its scan touches no running scan's file, since no other sweep is running. */
  lemma WorkKeepsFile(s: System, s': System, run: nat)
    requires FileAsRead(s) && run in s.sweeps && run in s'.sweeps && s'.sweeps[run].Capturing?
    requires s'.sweeps == s.sweeps[run := s'.sweeps[run]]
    ensures FileAsRead(s')
  {
  }

  lemma StepKeepsFile(s: System, a: Step)
    requires FileAsRead(s) && Can(s, a, SAFE)
    ensures FileAsRead(Do(s, a)) && AnswersAll(s, a)
  {
    match a
    case RecordScan(run, _, _, _, _) => WorkKeepsFile(s, Do(s, a), run);
    case Unchanged(run, _) => WorkKeepsFile(s, Do(s, a), run);
    case Gone(run, _) => WorkKeepsFile(s, Do(s, a), run);
    case Terminal(run, _) => WorkKeepsFile(s, Do(s, a), run);
    case Fail(run, _) => WorkKeepsFile(s, Do(s, a), run);
    case Skip(run, _) => WorkKeepsFile(s, Do(s, a), run);
    case Commit(run, _, _) => WorkKeepsFile(s, Do(s, a), run);
    case _ =>
  }

  /** While the file is not lost during a scan, every scan rewrites the file it read. */
  lemma {:induction false} SafeAnswersAll(s: System, steps: seq<Step>)
    requires FileAsRead(s) && Legal(s, steps, SAFE)
    ensures AllAnswered(s, steps, SAFE)
    decreases |steps|
  {
    if steps != [] {
      StepKeepsFile(s, steps[0]);
      SafeAnswersAll(Do(s, steps[0]), steps[1..]);
    }
  }

  /** When every scan answers for the pending ids it read, there is one exception left: a stamp where a floor was held. */
  lemma NoThreadLostWhenAnswered(s: System, steps: seq<Step>, id: string)
    requires Initially(s) && Legal(s, steps, TEARING) && AllAnswered(s, steps, TEARING)
    requires var f := Final(s, steps, TEARING);
             id in f.world && f.world[id].updatedAt <= f.st.cleanThrough && f.world[id].updatedAt !in f.held
    ensures Covered(Final(s, steps, TEARING), id)
  {
    ForgottenExactly(s, steps, TEARING);
    NoThreadLost(s, steps, id);
  }

  /** So it is whenever the file is not lost during a scan. */
  lemma NoThreadLostWhileTheFileStands(s: System, steps: seq<Step>, id: string)
    requires Initially(s) && Legal(s, steps, SAFE)
    requires var f := Final(s, steps, SAFE);
             id in f.world && f.world[id].updatedAt <= f.st.cleanThrough && f.world[id].updatedAt !in f.held
    ensures Covered(Final(s, steps, SAFE), id)
  {
    SafeAnswersAll(s, steps);
    ForgottenExactly(s, steps, SAFE);
    LegalUnderMore(s, steps, SAFE, TEARING);
    NoThreadLost(s, steps, id);
  }

  // ---------- what is committed never goes back ----------

  /** What stands committed for id has not gone back. */
  predicate StandsAhead(before: map<string, Facts>, after: map<string, Facts>, id: string)
    requires id in before
  {
    id in after && Advanced(before[id], after[id])
  }

  lemma StepAdvances(s: System, a: Step, id: string)
    requires Inv(s) && Can(s, a, TEARING) && id in s.journal
    ensures StandsAhead(s.journal, Do(s, a).journal, id)
  {
    if a.Commit? {
      assert SweepInv(s, s.sweeps[a.run]);
    }
  }

  /**
   Over every history of sweeps that do not overlap, each vetting its exports against the journal it walked at its
   start, no commit ever returns to an earlier revision stamp, a lower message count or a replaced document.
   */
  lemma {:induction false} RecaptureNeverRegresses(s: System, steps: seq<Step>, id: string)
    requires Inv(s) && Legal(s, steps, TEARING) && id in s.journal
    ensures StandsAhead(s.journal, Final(s, steps, TEARING).journal, id)
    decreases |steps|
  {
    if steps != [] {
      StepKeepsInv(s, steps[0]);
      StepAdvances(s, steps[0], id);
      RecaptureNeverRegresses(Do(s, steps[0]), steps[1..], id);
    }
  }
}
