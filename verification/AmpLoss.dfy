/**
 Where the checkpoint does lose a thread. A diagnosed window holds the floor at its first midnight, and the next
 sweep drops rows stamped at or before the floor, so a thread stamped exactly then is seen by neither sweep.
 */
module AmpLoss {
  import opened Wrappers
  import opened AmpServer
  import opened Clock
  import opened AmpEnumerate
  import opened AmpCheckpoint
  import opened AmpSweeps
  import opened Journal

  // ---------- composing histories ----------

  lemma {:induction false} Compose(s: System, a: seq<Step>, b: seq<Step>, rules: Rules)
    requires Legal(s, a, rules) && Legal(Final(s, a, rules), b, rules)
    ensures Legal(s, a + b, rules) && Final(s, a + b, rules) == Final(Final(s, a, rules), b, rules)
    decreases |a|
  {
    if a == [] {
      assert a + b == b;
    } else {
      assert (a + b)[0] == a[0] && (a + b)[1..] == a[1..] + b;
      Compose(Do(s, a[0]), a[1..], b, rules);
    }
  }

  lemma OneStep(s: System, a: Step, rules: Rules)
    requires Can(s, a, rules) && (a.Touch? ==> a.th.updatedAt >= HISTORY_FLOOR)
    ensures Legal(s, [a], rules) && Final(s, [a], rules) == Do(s, a)
  {
    assert [a][1..] == [];
    assert Legal(Do(s, a), [], rules) && Final(Do(s, a), [], rules) == Do(s, a);
  }

  /** One more step at the end of a history. */
  lemma Then(s: System, a: seq<Step>, b: Step, rules: Rules)
    requires Legal(s, a, rules) && Can(Final(s, a, rules), b, rules) && (b.Touch? ==> b.th.updatedAt >= HISTORY_FLOOR)
    ensures Legal(s, a + [b], rules) && Final(s, a + [b], rules) == Do(Final(s, a, rules), b)
  {
    OneStep(Final(s, a, rules), b, rules);
    Compose(s, a, [b], rules);
  }

  function Copies(u: Universe, n: nat): seq<Universe> {
    seq(n, _ => u)
  }

  function Searches(run: nat, n: nat): seq<Step> {
    seq(n, _ => Search(run))
  }

  lemma {:induction false} SearchMany(s: System, run: nat, n: nat, rules: Rules)
    requires run in s.sweeps && s.sweeps[run].Scanning?
    ensures Legal(s, Searches(run, n), rules)
    ensures Final(s, Searches(run, n), rules) ==
              s.(sweeps := s.sweeps[run := s.sweeps[run].(worlds := s.sweeps[run].worlds + Copies(s.world, n))])
    decreases n
  {
    var sw := s.sweeps[run];
    if n == 0 {
      assert sw.worlds + Copies(s.world, 0) == sw.worlds;
      assert s.sweeps == s.sweeps[run := sw];
    } else {
      var s1 := Do(s, Search(run));
      SearchMany(s1, run, n - 1, rules);
      assert Searches(run, n)[0] == Search(run) && Searches(run, n)[1..] == Searches(run, n - 1);
      assert sw.worlds + [s.world] + Copies(s.world, n - 1) == sw.worlds + Copies(s.world, n);
      assert s1.sweeps[run := s1.sweeps[run].(worlds := sw.worlds + Copies(s.world, n))]
          == s.sweeps[run := sw.(worlds := sw.worlds + Copies(s.world, n))];
    }
  }

  /** What one sweep enumerates from state s, with the pending ids looked up in the given order. */
  function Enumerates(s: System, srv: Server, order: seq<string>, through: Time): Enumeration {
    Enumerate(srv, From(s.st.cleanThrough), through, s.st.cleanThrough, order, Revisions(s.journal))
  }

  function SweepCalls(s: System, srv: Server, order: seq<string>, through: Time): nat {
    Lanes(srv, From(s.st.cleanThrough), through, s.st.cleanThrough, order).calls
  }

  /** A sweep may run on s, the server standing still throughout, and enumerate to the end. */
  ghost predicate Sweeps(s: System, run: nat, srv: Server, order: seq<string>, through: Time, rules: Rules) {
    && run !in s.sweeps && (rules.overlap || s.sweeps == map[])
    && (set id | id in order) == s.st.pending
    && Midnight(through) && s.now < through <= s.now + DAY
    && Honest(srv, Copies(s.world, SweepCalls(s, srv, order, through)))
    && Enumerates(s, srv, order, through).Complete?
  }

  function Begun(s: System, run: nat, n: nat): System {
    s.(sweeps := s.sweeps[run := Scanning(s.journal, s.st, s.now, Copies(s.world, n))])
  }

  lemma ScanAll(s: System, run: nat, n: nat, rules: Rules) returns (steps: seq<Step>)
    requires run !in s.sweeps && (rules.overlap || s.sweeps == map[])
    ensures Legal(s, steps, rules) && Final(s, steps, rules) == Begun(s, run, n)
  {
    assert Copies(s.world, 0) == [];
    OneStep(s, Begin(run), rules);
    SearchMany(Begun(s, run, 0), run, n, rules);
    assert Copies(s.world, 0) + Copies(s.world, n) == Copies(s.world, n);
    assert Begun(s, run, 0).sweeps[run := Scanning(s.journal, s.st, s.now, Copies(s.world, n))] == Begun(s, run, n).sweeps;
    Compose(s, [Begin(run)], Searches(run, n), rules);
    steps := [Begin(run)] + Searches(run, n);
  }

  /** The scan's write is possible once its searches are made, whatever the file holds by then. */
  lemma RecordOne(s: System, run: nat, srv: Server, order: seq<string>, through: Time, st: Checkpoint, rules: Rules)
    requires Sweeps(s, run, srv, order, through, rules)
    ensures var b, record := Begun(s, run, SweepCalls(s, srv, order, through)), RecordScan(run, srv, order, through, true);
            var out := Enumerates(s, srv, order, through).out;
            Can(b.(st := st), record, rules) && Do(b.(st := st), record) == Written(b.(st := st), run, out, true)
  {
    var b := Begun(s, run, SweepCalls(s, srv, order, through)).(st := st);
    var record := RecordScan(run, srv, order, through, true);
    assert Enumerated(b, b.sweeps[run], record) == Enumerates(s, srv, order, through);
    assert ScanHappened(b, b.sweeps[run], record);
  }

  /** The state once a scan is recorded over the file as it read it. */
  function Scanned(s: System, run: nat, out: Outcome): System {
    var st := Recorded(s.st, s.now, true, out, s.st);
    s.(st := st, sweeps := s.sweeps[run := Capturing(s.journal, out.found)], held := s.held + HeldAt(st, out))
  }

  lemma WrittenIsScanned(s: System, run: nat, n: nat, out: Outcome)
    ensures Written(Begun(s, run, n), run, out, true) == Scanned(s, run, out)
  {
    assert Begun(s, run, n).sweeps[run := Capturing(s.journal, out.found)] == s.sweeps[run := Capturing(s.journal, out.found)];
    assert Unanswered(s.st, s.st, out) == {};
    assert s.forgotten + Forgets(s, Begun(s, run, n).sweeps[run], out) == s.forgotten;
  }

  /** A sweep that scans while the server stands still, up to and including the checkpoint write. */
  lemma ScanOnce(s: System, run: nat, srv: Server, order: seq<string>, through: Time, rules: Rules) returns (steps: seq<Step>)
    requires Sweeps(s, run, srv, order, through, rules)
    ensures Legal(s, steps, rules) && Final(s, steps, rules) == Scanned(s, run, Enumerates(s, srv, order, through).out)
  {
    var n := SweepCalls(s, srv, order, through);
    var scan := ScanAll(s, run, n, rules);
    RecordOne(s, run, srv, order, through, s.st, rules);
    assert Begun(s, run, n).(st := s.st) == Begun(s, run, n);
    Then(s, scan, RecordScan(run, srv, order, through, true), rules);
    WrittenIsScanned(s, run, n, Enumerates(s, srv, order, through).out);
    steps := scan + [RecordScan(run, srv, order, through, true)];
  }

  /** The same, when what the sweep finds and the state it leaves are known. */
  lemma ScanLeaves(s: System, run: nat, srv: Server, order: seq<string>, through: Time, out: Outcome, t: System, rules: Rules)
    returns (steps: seq<Step>)
    requires Sweeps(s, run, srv, order, through, rules) && Enumerates(s, srv, order, through) == Complete(out)
    requires Scanned(s, run, out) == t
    ensures Legal(s, steps, rules) && Final(s, steps, rules) == t
  {
    steps := ScanOnce(s, run, srv, order, through, rules);
  }

  /** Then the process stops: nothing it found and has not handled is handled. */
  lemma ThenStop(s: System, a: seq<Step>, t: System, sw: Sweep, rules: Rules)
    requires Legal(s, a, rules) && t.sweeps == map[] && Final(s, a, rules) == t.(sweeps := map[0 := sw])
    ensures Legal(s, a + [Stop(0)], rules) && Final(s, a + [Stop(0)], rules) == t
  {
    Then(s, a, Stop(0), rules);
    assert map[0 := sw] - {0} == t.sweeps;
  }

  // ---------- replies of the server ----------

  const LOST := "T-lost"

  /** The cross-check queues nothing: every list fails, or names nothing this sweep should have seen. */
  ghost predicate Blind(list: nat -> Listing, minTime: Time, journal: map<string, Facts>) {
    && (forall k :: list(k).Unlisted? ==> list(k).why == Other)
    && (forall k, sink :: Corroborated(list(k), sink, minTime, Revisions(journal)) == {})
  }

  function ListFails(k: nat): Listing {
    Unlisted(Other)
  }

  lemma FailingIsBlind(minTime: Time, journal: map<string, Facts>)
    ensures Blind(ListFails, minTime, journal)
  {
  }

  /** A working list is blind to threads committed at or below the floor whose listed stamp is no fresher, or unreadable. */
  lemma WorkingCanBeBlind(rows: seq<ListRow>, minTime: Time, journal: map<string, Facts>)
    requires minTime != 0
    requires forall i :: 0 <= i < |rows| ==>
               && rows[i].id in journal && 0 < journal[rows[i].id].lastActiveAt <= minTime
               && (rows[i].updated.None? || rows[i].updated.value <= minTime)
    ensures Blind(k => Listed(rows), minTime, journal)
  {
  }

  function Empty(k: nat, q: Query): Reply {
    Page([])
  }

  /** A page that shows the one thread, readably or with a stamp that does not parse. */
  function Showing(th: Thread, readable: bool): (nat, Query) -> Reply {
    (k, q) => if Matches(q, LOST, th) then Page([Row(LOST, if readable then Some(th.updatedAt) else None)]) else Page([])
  }

  lemma ShowingIsHonest(th: Thread, readable: bool, list: nat -> Listing, n: nat)
    ensures Honest(Server(Showing(th, readable), list), Copies(map[LOST := th], n))
  {
    var srv := Server(Showing(th, readable), list);
    var world: Universe := map[LOST := th];
    forall k: nat, q | k < n
      ensures Answers(world, q, srv.search(k, q).rows)
    {
      var rows := srv.search(k, q).rows;
      if Matches(q, LOST, th) {
        assert rows[0].id == LOST;
        assert Shown(rows, LOST, th);
      }
    }
  }

  /** A scan met only by empty pages finds nothing and stays clean. */
  lemma {:induction false} QuietWeeks(list: nat -> Listing, s: Scan, start: Time, through: Time, minTime: Time)
    requires s.err.None?
    ensures var r := ScanWeeks(Server(Empty, list), s, start, through, minTime);
            r == s.(calls := r.calls, seen := r.seen)
    decreases through - start
  {
    if start < through {
      var end := if start + WEEK > through then through else start + WEEK;
      QuietWeeks(list, ScanWindow(Server(Empty, list), s, start, end, ANY_FACETS, minTime), end, through, minTime);
    }
  }

  lemma QuietSweep(s: System, list: nat -> Listing, through: Time)
    requires Blind(list, s.st.cleanThrough, s.journal)
    ensures Enumerates(s, Server(Empty, list), [], through) == Complete(Outcome(map[], 0, through, {}, {}))
  {
    QuietWeeks(list, FRESH, From(s.st.cleanThrough), through, s.st.cleanThrough);
  }

  /** Absorbing a page of the one thread's readable row. */
  lemma AbsorbOne(sink: map<string, Time>, t: Time, minTime: Time)
    ensures Absorb(sink, [Row(LOST, Some(t))], minTime) == AbsorbRow(sink, Row(LOST, Some(t)), minTime)
    ensures Unreadable([Row(LOST, Some(t))]) == 0 && Readable(Row(LOST, Some(t)))
  {
    assert [Row(LOST, Some(t))][..0] == [];
    assert |LOST| == 6;
  }

  lemma AbsorbTorn(sink: map<string, Time>, minTime: Time)
    ensures Absorb(sink, [Row(LOST, None)], minTime) == sink && Unreadable([Row(LOST, None)]) == 1
  {
    assert [Row(LOST, None)][..0] == [];
  }

  /** The thread's row is unreadable in the window [u, u + 1 day): the scan ends dirty at u, with nothing found. */
  lemma TornSweep(s: System, u: Time, th: Thread, list: nat -> Listing)
    requires Midnight(u) && u > 30 * DAY && th.updatedAt == u && s.st.cleanThrough == u - 6 * DAY
    requires Blind(list, s.st.cleanThrough, s.journal)
    ensures Enumerates(s, Server(Showing(th, false), list), [], u + DAY) == Complete(Outcome(map[], u, u + DAY, {}, {}))
  {
    var srv, m := Server(Showing(th, false), list), s.st.cleanThrough;
    assert From(m) == u - WEEK;
    var first := ScanWindow(srv, FRESH, u - WEEK, u, ANY_FACETS, m);
    assert first == FRESH.(calls := 1, seen := true);
    AbsorbTorn(map[], m);
    assert srv.search(1, Windowed(u, u + DAY, ANY_FACETS)) == Page([Row(LOST, None)]);
    var second := ScanWindow(srv, first, u, u + DAY, ANY_FACETS, m);
    assert second == FRESH.(calls := 2, seen := true, dirty := u, diags := 1);
    assert ScanWeeks(srv, second, u + DAY, u + DAY, m) == second;
    assert ScanWeeks(srv, first, u, u + DAY, m) == second;
  }

  /** The next sweep reads the row well, and drops it: its stamp does not lie after the floor. */
  lemma DroppingSweep(s: System, u: Time, th: Thread, list: nat -> Listing)
    requires Midnight(u) && u > 30 * DAY && th.updatedAt == u && s.st.cleanThrough == u
    requires Blind(list, u, s.journal)
    ensures Enumerates(s, Server(Showing(th, true), list), [], u + DAY) == Complete(Outcome(map[], 0, u + DAY, {}, {}))
  {
    var srv := Server(Showing(th, true), list);
    assert From(u) == u - DAY;
    AbsorbOne(map[], u, u);
    assert srv.search(0, Windowed(u - DAY, u + DAY, ANY_FACETS)) == Page([Row(LOST, Some(u))]);
    var only := ScanWindow(srv, FRESH, u - DAY, u + DAY, ANY_FACETS, u);
    assert only == FRESH.(calls := 1, seen := true);
    assert ScanWeeks(srv, only, u + DAY, u + DAY, u) == only;
  }

  // ---------- the loss at midnight ----------

  /** The thread is live, stamped below the floor, and neither queued, committed nor settled. */
  predicate Lost(s: System, id: string) {
    id in s.world && s.world[id].updatedAt < s.st.cleanThrough && !Covered(s, id)
  }

  ghost predicate LostIn(s: System, steps: seq<Step>, id: string, u: Time, rules: Rules) {
    && Initially(s) && Legal(s, steps, rules)
    && Lost(Final(s, steps, rules), id)
    && Final(s, steps, rules).world[id].updatedAt == u
  }

  lemma RecordedClean(st: Checkpoint, now: Time, out: Outcome)
    requires st.pending == {} && out.found == map[] && out.retry == {} && now < out.end
    ensures Recorded(st, now, true, out, st) ==
              st.(phase := if st.cleanThrough != 0 then Catchup else Initial,
                  cleanThrough := NewFloor(st.cleanThrough, now, true, out, st.cleanThrough))
  {
    assert Emitted(out) == {};
    assert Merged(out, st.pending, st.pending) == {};
  }

  /** What a sweep that finds nothing leaves: the floor at its start, or held at a dirty midnight before it. */
  function Emptied(s: System, dirty: Time): System {
    s.(st := s.st.(phase := if s.st.cleanThrough != 0 then Catchup else Initial,
                   cleanThrough := if dirty == 0 then s.now else dirty),
       held := if dirty == 0 then s.held else s.held + {dirty})
  }

  lemma EmptyHanded(s: System, srv: Server, dirty: Time, through: Time) returns (steps: seq<Step>)
    requires s.st.pending == {} && Sweeps(s, 0, srv, [], through, SAFE)
    requires Enumerates(s, srv, [], through) == Complete(Outcome(map[], dirty, through, {}, {}))
    requires s.st.cleanThrough <= s.now && (dirty != 0 ==> s.st.cleanThrough <= dirty <= s.now)
    ensures Legal(s, steps, SAFE) && Final(s, steps, SAFE) == Emptied(s, dirty)
  {
    var out := Outcome(map[], dirty, through, {}, {});
    var scan := ScanOnce(s, 0, srv, [], through, SAFE);
    RecordedClean(s.st, s.now, out);
    assert s.held + HeldAt(Recorded(s.st, s.now, true, out, s.st), out) == Emptied(s, dirty).held;
    assert Final(s, scan, SAFE) == Emptied(s, dirty).(sweeps := map[0 := Capturing(s.journal, map[])]);
    ThenStop(s, scan, Emptied(s, dirty), Capturing(s.journal, map[]), SAFE);
    steps := scan + [Stop(0)];
  }

  function Stamped(u: Time): Thread {
    Thread(u, false, false)
  }

  /** Six days before u, and after a first sweep then that left nothing owed. */
  function Start(u: Time, world: Universe, journal: map<string, Facts>): System {
    System(u - 6 * DAY, world, ZERO, journal, map[], map[], {}, map[])
  }

  function Swept(u: Time, world: Universe, journal: map<string, Facts>): System {
    Start(u, world, journal).(st := ZERO.(phase := Initial, cleanThrough := u - 6 * DAY))
  }

  /** After the thread is written at u; after the dirty sweep; after the sweep that drops it. */
  function Rewritten(u: Time, journal: map<string, Facts>): System {
    Swept(u, map[LOST := Stamped(u)], journal).(now := u + 1)
  }

  function Held(u: Time, journal: map<string, Facts>): System {
    Rewritten(u, journal).(st := ZERO.(phase := Catchup, cleanThrough := u), held := {u})
  }

  function Dropped(u: Time, journal: map<string, Facts>): System {
    Held(u, journal).(st := ZERO.(phase := Catchup, cleanThrough := u + 1))
  }

  lemma Writing(u: Time, world: Universe, journal: map<string, Facts>)
    requires u >= HISTORY_FLOOR && world.Keys <= {LOST}
    ensures Legal(Swept(u, world, journal), [Touch(LOST, Stamped(u)), Tick(u + 1)], SAFE)
    ensures Final(Swept(u, world, journal), [Touch(LOST, Stamped(u)), Tick(u + 1)], SAFE) == Rewritten(u, journal)
  {
    var s := Swept(u, world, journal);
    OneStep(s, Touch(LOST, Stamped(u)), SAFE);
    assert world[LOST := Stamped(u)] == map[LOST := Stamped(u)];
    Then(s, [Touch(LOST, Stamped(u))], Tick(u + 1), SAFE);
    assert [Touch(LOST, Stamped(u))] + [Tick(u + 1)] == [Touch(LOST, Stamped(u)), Tick(u + 1)];
  }

  lemma DirtySweep(u: Time, journal: map<string, Facts>, list: nat -> Listing) returns (b: seq<Step>)
    requires Midnight(u) && u >= HISTORY_FLOOR && Blind(list, u - 6 * DAY, journal)
    ensures Legal(Rewritten(u, journal), b, SAFE) && Final(Rewritten(u, journal), b, SAFE) == Held(u, journal)
  {
    var s, srv := Rewritten(u, journal), Server(Showing(Stamped(u), false), list);
    TornSweep(s, u, Stamped(u), list);
    ShowingIsHonest(Stamped(u), false, list, SweepCalls(s, srv, [], u + DAY));
    b := EmptyHanded(s, srv, u, u + DAY);
  }

  lemma LastSweep(u: Time, journal: map<string, Facts>, list: nat -> Listing) returns (c: seq<Step>)
    requires Midnight(u) && u >= HISTORY_FLOOR && Blind(list, u, journal)
    ensures Legal(Held(u, journal), c, SAFE) && Final(Held(u, journal), c, SAFE) == Dropped(u, journal)
  {
    var s, srv := Held(u, journal), Server(Showing(Stamped(u), true), list);
    DroppingSweep(s, u, Stamped(u), list);
    ShowingIsHonest(Stamped(u), true, list, SweepCalls(s, srv, [], u + DAY));
    c := EmptyHanded(s, srv, 0, u + DAY);
  }

  /** From a clean sweep six days before u: the thread is written at u, torn in the next sweep, dropped in the one after. */
  lemma LostAfterSweep(u: Time, world: Universe, journal: map<string, Facts>, dirtyList: nat -> Listing, lastList: nat -> Listing)
    returns (steps: seq<Step>)
    requires Midnight(u) && u >= HISTORY_FLOOR && world.Keys <= {LOST}
    requires LOST in journal ==> journal[LOST].lastActiveAt < u
    requires Blind(dirtyList, u - 6 * DAY, journal) && Blind(lastList, u, journal)
    ensures Legal(Swept(u, world, journal), steps, SAFE)
    ensures Final(Swept(u, world, journal), steps, SAFE) == Dropped(u, journal) && Lost(Dropped(u, journal), LOST)
  {
    Writing(u, world, journal);
    var write := [Touch(LOST, Stamped(u)), Tick(u + 1)];
    var b := DirtySweep(u, journal, dirtyList);
    var c := LastSweep(u, journal, lastList);
    Compose(Rewritten(u, journal), b, c, SAFE);
    Compose(Swept(u, world, journal), write, b + c, SAFE);
    steps := write + (b + c);
  }

  /** Any stamp on a midnight can be lost: three sweeps, one unreadable row and a failing thread list suffice. */
  lemma MidnightCanBeLost(u: Time) returns (steps: seq<Step>)
    requires Midnight(u) && u >= HISTORY_FLOOR
    ensures Initially(Start(u, map[], map[])) && Legal(Start(u, map[], map[]), steps, SAFE)
    ensures Final(Start(u, map[], map[]), steps, SAFE) == Dropped(u, map[]) && Lost(Dropped(u, map[]), LOST)
  {
    var s := Start(u, map[], map[]);
    FailingIsBlind(0, map[]);
    FailingIsBlind(u - 6 * DAY, map[]);
    FailingIsBlind(u, map[]);
    QuietSweep(s, ListFails, u - 5 * DAY);
    var a := EmptyHanded(s, Server(Empty, ListFails), 0, u - 5 * DAY);
    var b := LostAfterSweep(u, map[], map[], ListFails, ListFails);
    Compose(s, a, b, SAFE);
    steps := a + b;
  }

  // ---------- the same with a thread list that works ----------

  function Committed(t: Time): map<string, Facts> {
    map[LOST := Facts(t, true, false, Fingerprint(1, ""))]
  }

  function ListShows(updated: Option<Time>): nat -> Listing {
    k => Listed([ListRow(LOST, updated)])
  }

  /** A scan of whole weeks over a server with the one thread, readable, finds it when its window passes. */
  lemma {:induction false} OneThreadWeeks(srv: Server, th: Thread, s: Scan, start: Time, through: Time)
    requires srv.search == Showing(th, true) && s.err.None?
    requires s.sink == (if start <= th.updatedAt then map[] else map[LOST := th.updatedAt])
    requires th.updatedAt < through
    ensures var r := ScanWeeks(srv, s, start, through, 0);
            r == s.(calls := r.calls, seen := r.seen, sink := map[LOST := th.updatedAt])
    ensures start < through ==> ScanWeeks(srv, s, start, through, 0).seen
    decreases through - start
  {
    if start < through {
      var t := th.updatedAt;
      var end := if start + WEEK > through then through else start + WEEK;
      AbsorbOne(s.sink, t, 0);
      var q := Windowed(start, end, ANY_FACETS);
      assert srv.search(s.calls, q) == if start <= t < end then Page([Row(LOST, Some(t))]) else Page([]);
      OneThreadWeeks(srv, th, ScanWindow(srv, s, start, end, ANY_FACETS, 0), end, through);
    }
  }

  /** A thread committed at r, where the first sweep begins, and the server that shows it then. */
  function Known(r: Time): System {
    Start(r + 6 * DAY, map[LOST := Stamped(r)], Committed(r))
  }

  function Shows(r: Time): Server {
    Server(Showing(Stamped(r), true), ListShows(Some(r)))
  }

  function JustIt(r: Time): Outcome {
    Outcome(map[LOST := r], 0, r + DAY, {}, {})
  }

  lemma FirstSweepFinds(r: Time, s: System, srv: Server)
    requires Midnight(r) && r >= HISTORY_FLOOR && s == Known(r) && srv == Shows(r)
    ensures Enumerates(s, srv, [], r + DAY) == Complete(JustIt(r))
    ensures Sweeps(s, 0, srv, [], r + DAY, SAFE)
  {
    OneThreadWeeks(srv, Stamped(r), FRESH, HISTORY_FLOOR, r + DAY);
    assert Corroborated(ListShows(Some(r))(0), map[LOST := r], 0, Revisions(s.journal)) == {};
    ShowingIsHonest(Stamped(r), true, ListShows(Some(r)), SweepCalls(s, srv, [], r + DAY));
  }

  /** The state of the first sweep once it has found the thread, and once it has confirmed it. */
  function Found(r: Time): System {
    Known(r).(st := ZERO.(phase := Initial, cleanThrough := r, pending := {LOST}),
              sweeps := map[0 := Capturing(Committed(r), map[LOST := r])])
  }

  function Confirmed(r: Time): System {
    Swept(r + 6 * DAY, map[LOST := Stamped(r)], Committed(r))
  }

  lemma RecordedFirst(r: Time, s: System)
    requires s == Known(r) && r >= HISTORY_FLOOR
    ensures Scanned(s, 0, JustIt(r)) == Found(r)
  {
    var out := JustIt(r);
    assert Merged(out, {}, {}) == {LOST};
    assert Recorded(ZERO, r, true, out, ZERO) == Found(r).st;
    assert s.held + HeldAt(Found(r).st, out) == Found(r).held;
    assert s.sweeps[0 := Capturing(Committed(r), out.found)] == Found(r).sweeps;
  }

  lemma Confirming(r: Time)
    ensures Can(Found(r), Unchanged(0, LOST), SAFE)
    ensures Do(Found(r), Unchanged(0, LOST)) == Confirmed(r).(sweeps := map[0 := Capturing(Committed(r), map[])])
  {
    assert {LOST} - {LOST} == {} && map[LOST := r] - {LOST} == map[];
    assert Do(Found(r), Unchanged(0, LOST)).st == Confirmed(r).st;
    assert Do(Found(r), Unchanged(0, LOST)).sweeps == map[0 := Capturing(Committed(r), map[])];
  }

  /** A sweep that finds what it confirms in one step, and stops. */
  lemma ScanHandleStop(s: System, srv: Server, through: Time, out: Outcome, found: System, a: Step, t: System, sw: Sweep)
    returns (steps: seq<Step>)
    requires Sweeps(s, 0, srv, [], through, SAFE) && Enumerates(s, srv, [], through) == Complete(out)
    requires Scanned(s, 0, out) == found && Can(found, a, SAFE) && !a.Touch?
    requires t.sweeps == map[] && Do(found, a) == t.(sweeps := map[0 := sw])
    ensures Legal(s, steps, SAFE) && Final(s, steps, SAFE) == t
  {
    var scan := ScanLeaves(s, 0, srv, [], through, out, found, SAFE);
    Then(s, scan, a, SAFE);
    ThenStop(s, scan + [a], t, sw, SAFE);
    steps := scan + [a] + [Stop(0)];
  }

  /** The facts of the first sweep: it runs, finds just the thread, and can confirm it. */
  ghost predicate FirstSweepRuns(r: Time) {
    && Sweeps(Known(r), 0, Shows(r), [], r + DAY, SAFE)
    && Enumerates(Known(r), Shows(r), [], r + DAY) == Complete(JustIt(r))
    && Scanned(Known(r), 0, JustIt(r)) == Found(r)
    && Can(Found(r), Unchanged(0, LOST), SAFE)
    && Do(Found(r), Unchanged(0, LOST)) == Confirmed(r).(sweeps := map[0 := Capturing(Committed(r), map[])])
  }

  lemma FirstSweepFits(r: Time)
    requires Midnight(r) && r >= HISTORY_FLOOR
    ensures FirstSweepRuns(r)
  {
    RecordedFirst(r, Known(r));
    Confirming(r);
    FirstSweepFinds(r, Known(r), Shows(r));
  }

  /** The first sweep finds the thread at the revision already committed, confirms it, and stops. */
  lemma FirstSweepConfirms(r: Time) returns (a: seq<Step>)
    requires FirstSweepRuns(r)
    ensures Legal(Known(r), a, SAFE) && Final(Known(r), a, SAFE) == Confirmed(r)
  {
    a := ScanHandleStop(Known(r), Shows(r), r + DAY, JustIt(r), Found(r), Unchanged(0, LOST), Confirmed(r),
                        Capturing(Committed(r), map[]));
  }

  lemma FirstSweep(r: Time) returns (a: seq<Step>)
    requires Midnight(r) && r >= HISTORY_FLOOR
    ensures Legal(Known(r), a, SAFE) && Final(Known(r), a, SAFE) == Confirmed(r)
  {
    FirstSweepFits(r);
    a := FirstSweepConfirms(r);
  }

  /**
   The thread list need not fail: a thread committed at an older revision, then written at midnight, is lost when
   the list of the dirty sweep shows it with an unreadable stamp, the others' lists being correct.
   */
  lemma LostWithAWorkingList(u: Time) returns (steps: seq<Step>)
    requires Midnight(u) && u >= HISTORY_FLOOR + 6 * DAY
    ensures LostIn(Known(u - 6 * DAY), steps, LOST, u, SAFE)
  {
    var r := u - 6 * DAY;
    var a := FirstSweep(r);
    WorkingCanBeBlind([ListRow(LOST, None)], r, Committed(r));
    WorkingCanBeBlind([ListRow(LOST, Some(u))], u, Committed(r));
    var b := LostAfterSweep(u, map[LOST := Stamped(r)], Committed(r), ListShows(None), ListShows(Some(u)));
    Compose(Known(r), a, b, SAFE);
    steps := a + b;
  }

  /** Every loss in a history of sweeps that do not overlap, over a file that stands, is of a stamp a floor was held at. */
  lemma LossIsHeld(s: System, steps: seq<Step>, id: string, u: Time)
    requires LostIn(s, steps, id, u, SAFE)
    ensures u in Final(s, steps, SAFE).held && Midnight(u)
  {
    if u !in Final(s, steps, SAFE).held {
      NoThreadLostWhileTheFileStands(s, steps, id);
    }
    LegalUnderMore(s, steps, SAFE, TEARING);
    HeldAreMidnights(s, steps);
  }

  /** Some history of non-overlapping sweeps loses a thread stamped u exactly when u is a UTC midnight. */
  lemma LostExactlyAtMidnight(u: Time)
    requires u >= HISTORY_FLOOR
    ensures (exists s, steps, id :: LostIn(s, steps, id, u, SAFE)) <==> Midnight(u)
  {
    if Midnight(u) {
      var steps := MidnightCanBeLost(u);
      assert LostIn(Start(u, map[], map[]), steps, LOST, u, SAFE);
    }
    forall s, steps, id | LostIn(s, steps, id, u, SAFE)
      ensures Midnight(u)
    {
      LossIsHeld(s, steps, id, u);
    }
  }
}
