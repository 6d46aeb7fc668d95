/**
 What goes wrong when sweeps overlap, or when the checkpoint file is lost during a scan: at any stamp a thread can
 be lost, and a commit can go back to an earlier revision. Nothing else does either.
 */
module AmpOverlap {
  import opened Wrappers
  import opened AmpServer
  import opened Clock
  import opened AmpEnumerate
  import opened AmpCheckpoint
  import opened AmpSweeps
  import opened AmpLoss
  import opened Journal

  const T0 := HISTORY_FLOOR
  const OVERLAPPING := Rules(true, false)

  /** A server that shows the one thread, stamped t, in its windows and its list. */
  function Live(t: Time): Server {
    Server(Showing(Stamped(t), true), ListShows(Some(t)))
  }

  function Only(t: Time): Outcome {
    Outcome(map[LOST := t], 0, T0 + DAY, {}, {})
  }

  /** The thread stands at T0 + 1; sweep 0 emits it; it moves on; sweep 1 emits it again. */
  function BothIdle(journal: map<string, Facts>): System {
    System(T0 + 2, map[LOST := Stamped(T0 + 1)], ZERO, journal, map[], map[], {}, map[])
  }

  function FirstFound(journal: map<string, Facts>): System {
    BothIdle(journal).(st := ZERO.(phase := Initial, cleanThrough := T0 + 2, pending := {LOST}),
                       sweeps := map[0 := Capturing(journal, map[LOST := T0 + 1])])
  }

  function MovedOn(journal: map<string, Facts>): System {
    FirstFound(journal).(now := T0 + 4, world := map[LOST := Stamped(T0 + 3)])
  }

  function SecondFound(journal: map<string, Facts>): System {
    MovedOn(journal).(st := ZERO.(phase := Catchup, cleanThrough := T0 + 4, pending := {LOST}),
                      sweeps := map[0 := Capturing(journal, map[LOST := T0 + 1]), 1 := Capturing(journal, map[LOST := T0 + 3])])
  }

  /** A scan whose one window shows one readable thread above minTime finds just that. */
  lemma OneWindow(t: Time, from: Time, minTime: Time, order: seq<string>)
    requires from <= t < T0 + DAY && from + WEEK >= T0 + DAY && from < T0 + DAY
    requires minTime == 0 || minTime < t
    requires order == [] || order == [LOST]
    ensures Lanes(Live(t), from, T0 + DAY, minTime, order) == FRESH.(calls := 1, seen := true, sink := map[LOST := t])
  {
    var srv := Live(t);
    AbsorbOne(map[], t, minTime);
    assert srv.search(0, Windowed(from, T0 + DAY, ANY_FACETS)) == Page([Row(LOST, Some(t))]);
    var only := ScanWindow(srv, FRESH, from, T0 + DAY, ANY_FACETS, minTime);
    assert only == FRESH.(calls := 1, seen := true, sink := map[LOST := t]);
    assert ScanWeeks(srv, only, T0 + DAY, T0 + DAY, minTime) == only;
    assert ScanWeeks(srv, FRESH, from, T0 + DAY, minTime) == only;
    if order == [LOST] {
      assert LookupId(srv, only, LOST) == only;
      assert order[1..] == [];
      assert LookupIds(srv, only, order[1..]) == only;
    }
  }

  /** Such a sweep, as it finds the thread, for a sweep begun at any floor below the thread's stamp. */
  lemma SweepFinds(s: System, run: nat, t: Time, order: seq<string>, rules: Rules)
    requires run !in s.sweeps && (rules.overlap || s.sweeps == map[])
    requires s.world == map[LOST := Stamped(t)] && T0 <= t < s.now < T0 + DAY
    requires s.st.cleanThrough == 0 || T0 < s.st.cleanThrough < t
    requires (order == [] && s.st.pending == {}) || (order == [LOST] && s.st.pending == {LOST})
    ensures Sweeps(s, run, Live(t), order, T0 + DAY, rules)
    ensures Enumerates(s, Live(t), order, T0 + DAY) == Complete(Only(t))
  {
    assert order == [LOST] ==> (set id | id in order) == {LOST};
    OneWindow(t, From(s.st.cleanThrough), s.st.cleanThrough, order);
    ShowingIsHonest(Stamped(t), true, ListShows(Some(t)), 1);
    assert Corroborated(ListShows(Some(t))(1), map[LOST := t], s.st.cleanThrough, Revisions(s.journal)) == {};
  }

  lemma RecordedOne(st: Checkpoint, now: Time, t: Time)
    requires st.pending <= {LOST} && 0 <= st.cleanThrough <= now < T0 + DAY
    ensures Recorded(st, now, true, Only(t), st) ==
              st.(phase := if st.cleanThrough != 0 then Catchup else Initial, cleanThrough := now, pending := {LOST})
    ensures HeldAt(Recorded(st, now, true, Only(t), st), Only(t)) == {}
  {
    assert Merged(Only(t), st.pending, st.pending) == {LOST};
  }

  lemma FirstFinds(journal: map<string, Facts>, rules: Rules) returns (a: seq<Step>)
    ensures Legal(BothIdle(journal), a, rules) && Final(BothIdle(journal), a, rules) == FirstFound(journal)
  {
    var s := BothIdle(journal);
    SweepFinds(s, 0, T0 + 1, [], rules);
    RecordedOne(s.st, s.now, T0 + 1);
    assert s.sweeps[0 := Capturing(journal, map[LOST := T0 + 1])] == FirstFound(journal).sweeps;
    assert s.held + {} == s.held;
    a := ScanLeaves(s, 0, Live(T0 + 1), [], T0 + DAY, Only(T0 + 1), FirstFound(journal), rules);
  }

  lemma MovesOn(journal: map<string, Facts>, rules: Rules) returns (a: seq<Step>)
    ensures Legal(FirstFound(journal), a, rules) && Final(FirstFound(journal), a, rules) == MovedOn(journal)
  {
    var s, touch := FirstFound(journal), Touch(LOST, Stamped(T0 + 3));
    OneStep(s, touch, rules);
    Then(s, [touch], Tick(T0 + 4), rules);
    assert s.world[LOST := Stamped(T0 + 3)] == MovedOn(journal).world;
    a := [touch] + [Tick(T0 + 4)];
  }

  lemma SecondFinds(journal: map<string, Facts>) returns (a: seq<Step>)
    ensures Legal(MovedOn(journal), a, OVERLAPPING) && Final(MovedOn(journal), a, OVERLAPPING) == SecondFound(journal)
  {
    var s := MovedOn(journal);
    SweepFinds(s, 1, T0 + 3, [LOST], OVERLAPPING);
    RecordedOne(s.st, s.now, T0 + 3);
    assert s.sweeps[1 := Capturing(journal, map[LOST := T0 + 3])] == SecondFound(journal).sweeps;
    assert s.held + {} == s.held;
    a := ScanLeaves(s, 1, Live(T0 + 3), [LOST], T0 + DAY, Only(T0 + 3), SecondFound(journal), OVERLAPPING);
  }

  lemma BothFind(journal: map<string, Facts>) returns (a: seq<Step>)
    ensures Legal(BothIdle(journal), a, OVERLAPPING) && Final(BothIdle(journal), a, OVERLAPPING) == SecondFound(journal)
  {
    var first := FirstFinds(journal, OVERLAPPING);
    var move := MovesOn(journal, OVERLAPPING);
    var second := SecondFinds(journal);
    Compose(FirstFound(journal), move, second, OVERLAPPING);
    Compose(BothIdle(journal), first, move + second, OVERLAPPING);
    a := first + (move + second);
  }

  // ---------- a loss under overlap ----------

  /** Sweep 0 settles the revision already committed and drains the id that sweep 1 queued at the new one. */
  lemma OverlapCanLose() returns (steps: seq<Step>)
    ensures LostIn(BothIdle(Committed(T0 + 1)), steps, LOST, T0 + 3, OVERLAPPING)
    ensures Final(BothIdle(Committed(T0 + 1)), steps, OVERLAPPING).held == {}
  {
    var a := BothFind(Committed(T0 + 1));
    Then(BothIdle(Committed(T0 + 1)), a, Unchanged(0, LOST), OVERLAPPING);
    steps := a + [Unchanged(0, LOST)];
  }

  // ---------- a loss when the file is lost during a scan ----------

  /** The thread's own row is unreadable in the pending lane's lookup; the windows, from above the floor, do not want it. */
  function Blurring(th: Thread): (nat, Query) -> Reply {
    (k: nat, q: Query) => if q == ById(LOST) then Page([Row(LOST, None)])
              else if Matches(q, LOST, th) then Page([Row(LOST, Some(th.updatedAt))])
              else Page([])
  }

  function Blurred(t: Time): Server {
    Server(Blurring(Stamped(t)), ListShows(Some(t)))
  }

  function Nothing(): Outcome {
    Outcome(map[], 0, T0 + DAY, {}, {})
  }

  /** Sweep 0 found the thread and stopped short: it is queued, below the floor, committed at an older revision. */
  function Queued(): System {
    FirstFound(Committed(T0)).(sweeps := map[])
  }

  function Unqueued(): System {
    Queued().(st := ZERO.(phase := Catchup, cleanThrough := T0 + 2), forgotten := map[LOST := T0 + 2],
              sweeps := map[0 := Capturing(Committed(T0), map[])])
  }

  lemma BlurredIsHonest(t: Time, n: nat)
    ensures Honest(Blurred(t), Copies(map[LOST := Stamped(t)], n))
  {
    var world: Universe := map[LOST := Stamped(t)];
    forall k: nat, q | k < n
      ensures Answers(world, q, Blurred(t).search(k, q).rows)
    {
      var rows := Blurred(t).search(k, q).rows;
      if Matches(q, LOST, Stamped(t)) {
        assert rows[0].id == LOST;
        assert Shown(rows, LOST, Stamped(t));
      }
    }
  }

  lemma BlurredLanes()
    ensures var r := Lanes(Blurred(T0 + 1), T0 - DAY, T0 + DAY, T0 + 2, [LOST]);
            r == FRESH.(calls := 2, seen := true, diags := 1)
  {
    var srv, minTime := Blurred(T0 + 1), T0 + 2;
    AbsorbOne(map[], T0 + 1, minTime);
    assert srv.search(0, Windowed(T0 - DAY, T0 + DAY, ANY_FACETS)) == Page([Row(LOST, Some(T0 + 1))]);
    var only := FRESH.(calls := 1, seen := true);
    assert ScanWindow(srv, FRESH, T0 - DAY, T0 + DAY, ANY_FACETS, minTime) == only;
    assert ScanWeeks(srv, only, T0 + DAY, T0 + DAY, minTime) == only;
    assert ScanWeeks(srv, FRESH, T0 - DAY, T0 + DAY, minTime) == only;
    AbsorbTorn(map[], 0);
    var looked := only.(calls := 2, diags := 1);
    assert LookupId(srv, only, LOST) == looked;
    assert [LOST][1..] == [] && LookupIds(srv, looked, []) == looked;
    assert LookupIds(srv, only, [LOST]) == looked;
  }

  lemma BlurredSweep()
    ensures Sweeps(Queued(), 0, Blurred(T0 + 1), [LOST], T0 + DAY, TEARING)
    ensures Enumerates(Queued(), Blurred(T0 + 1), [LOST], T0 + DAY) == Complete(Nothing())
  {
    assert From(T0 + 2) == T0 - DAY;
    BlurredLanes();
    BlurredIsHonest(T0 + 1, 2);
    assert (set id | id in [LOST]) == {LOST};
    WorkingCanBeBlind([ListRow(LOST, Some(T0 + 1))], T0 + 2, Committed(T0));
  }

  lemma RecordedNothing(n: nat)
    ensures Written(Begun(Queued(), 0, n).(st := ZERO), 0, Nothing(), true) == Unqueued()
  {
    var s := Begun(Queued(), 0, n).(st := ZERO);
    assert Merged(Nothing(), {LOST}, {}) == {};
    assert Unanswered(ZERO, Queued().st, Nothing()) == {LOST};
    assert Forgets(s, s.sweeps[0], Nothing()) == map[LOST := T0 + 2];
    assert s.held + {} == {} && s.forgotten + map[LOST := T0 + 2] == map[LOST := T0 + 2];
    assert s.sweeps[0 := Capturing(Committed(T0), map[])] == Unqueued().sweeps;
  }

  /** A scan over a file lost while it ran: it keeps its own floor, and what it did not see is queued no more. */
  lemma ScanTorn(s: System, srv: Server, order: seq<string>, through: Time, out: Outcome, t: System) returns (steps: seq<Step>)
    requires Sweeps(s, 0, srv, order, through, TEARING) && Enumerates(s, srv, order, through) == Complete(out)
    requires Written(Begun(s, 0, SweepCalls(s, srv, order, through)).(st := ZERO), 0, out, true) == t
    ensures Legal(s, steps, TEARING) && Final(s, steps, TEARING) == t
  {
    var n := SweepCalls(s, srv, order, through);
    var scan := ScanAll(s, 0, n, TEARING);
    RecordOne(s, 0, srv, order, through, ZERO, TEARING);
    Then(s, scan, LoseCheckpoint, TEARING);
    Then(s, scan + [LoseCheckpoint], RecordScan(0, srv, order, through, true), TEARING);
    steps := scan + [LoseCheckpoint] + [RecordScan(0, srv, order, through, true)];
  }

  lemma QueueIt() returns (steps: seq<Step>)
    ensures Legal(BothIdle(Committed(T0)), steps, TEARING)
    ensures Final(BothIdle(Committed(T0)), steps, TEARING) == Queued()
  {
    var a := FirstFinds(Committed(T0), TEARING);
    ThenStop(BothIdle(Committed(T0)), a, Queued(), Capturing(Committed(T0), map[LOST := T0 + 1]), TEARING);
    steps := a + [Stop(0)];
  }

  lemma ForgetIt() returns (steps: seq<Step>)
    ensures Legal(Queued(), steps, TEARING) && Final(Queued(), steps, TEARING) == Unqueued()
  {
    BlurredSweep();
    RecordedNothing(SweepCalls(Queued(), Blurred(T0 + 1), [LOST], T0 + DAY));
    steps := ScanTorn(Queued(), Blurred(T0 + 1), [LOST], T0 + DAY, Nothing(), Unqueued());
  }

  /** The file vanishes while a scan runs whose lookup of a queued id comes back unreadable: the id is forgotten. */
  lemma TearingCanLose() returns (steps: seq<Step>)
    ensures LostIn(BothIdle(Committed(T0)), steps, LOST, T0 + 1, TEARING)
    ensures Final(BothIdle(Committed(T0)), steps, TEARING).held == {}
  {
    var a := QueueIt();
    var b := ForgetIt();
    Compose(BothIdle(Committed(T0)), a, b, TEARING);
    steps := a + b;
  }

  /** A loss at a stamp no floor was held at. */
  ghost predicate LostUnheld(s: System, steps: seq<Step>, id: string, u: Time, rules: Rules) {
    LostIn(s, steps, id, u, rules) && u !in Final(s, steps, rules).held
  }

  /** Where no floor was held, some history loses a thread exactly when sweeps may overlap or the file may be lost mid-scan. */
  lemma LossNeedsOverlapOrTearing(rules: Rules)
    ensures (exists s, steps, id, u :: LostUnheld(s, steps, id, u, rules)) <==> rules.overlap || rules.tear
  {
    if rules.overlap {
      var steps := OverlapCanLose();
      LegalUnderMore(BothIdle(Committed(T0 + 1)), steps, OVERLAPPING, rules);
      assert LostUnheld(BothIdle(Committed(T0 + 1)), steps, LOST, T0 + 3, rules);
    } else if rules.tear {
      var steps := TearingCanLose();
      LegalUnderMore(BothIdle(Committed(T0)), steps, TEARING, rules);
      assert LostUnheld(BothIdle(Committed(T0)), steps, LOST, T0 + 1, rules);
    } else {
      forall s, steps, id, u | LostUnheld(s, steps, id, u, rules)
        ensures false
      {
        LossIsHeld(s, steps, id, u);
      }
    }
  }

  // ---------- a commit that goes back ----------

  /** At some moment of a history id stands committed, and later at something no further ahead than that. */
  ghost predicate GoesBack(s: System, before: seq<Step>, since: seq<Step>, id: string, rules: Rules) {
    && Initially(s) && Legal(s, before, rules)
    && var mid := Final(s, before, rules);
       Legal(mid, since, rules) && id in mid.journal && !StandsAhead(mid.journal, Final(mid, since, rules).journal, id)
  }

  function Export(t: Time): Facts {
    Facts(t, true, false, Fingerprint(1, ""))
  }

  /** Sweep 1 commits the third revision; then sweep 0, which walked the first, commits the second over it. */
  lemma OverlapCanGoBack() returns (before: seq<Step>)
    ensures GoesBack(BothIdle(Committed(T0)), before, [Commit(0, LOST, Export(T0 + 1))], LOST, OVERLAPPING)
  {
    var a := BothFind(Committed(T0));
    Then(BothIdle(Committed(T0)), a, Commit(1, LOST, Export(T0 + 3)), OVERLAPPING);
    before := a + [Commit(1, LOST, Export(T0 + 3))];
    OneStep(Final(BothIdle(Committed(T0)), before, OVERLAPPING), Commit(0, LOST, Export(T0 + 1)), OVERLAPPING);
  }

  /** A commit can go back if and only if sweeps may overlap. */
  lemma GoingBackNeedsOverlap(rules: Rules)
    ensures (exists s, before, since, id :: GoesBack(s, before, since, id, rules)) <==> rules.overlap
  {
    if rules.overlap {
      var before := OverlapCanGoBack();
      var s, since := BothIdle(Committed(T0)), [Commit(0, LOST, Export(T0 + 1))];
      LegalUnderMore(s, before, OVERLAPPING, rules);
      LegalUnderMore(Final(s, before, rules), since, OVERLAPPING, rules);
      assert GoesBack(s, before, since, LOST, rules);
    } else {
      forall s, before, since, id | GoesBack(s, before, since, id, rules)
        ensures false
      {
        LegalUnderMore(s, before, rules, TEARING);
        InvHolds(s, before);
        LegalUnderMore(Final(s, before, rules), since, rules, TEARING);
        RecaptureNeverRegresses(Final(s, before, rules), since, id);
      }
    }
  }
}
