/**
 The enumeration is complete despite the silent cap: whatever other threads do between two
 searches, a thread that stands still is found at its exact revision, or its stamp lies at or
 after the earliest window a diagnostic broke.
 */
module AmpCompleteness {
  import opened Wrappers
  import opened AmpServer
  import opened Clock
  import opened AmpEnumerate

  // ---------- what absorbing a page does ----------

  /** No thread leaves the sink and no stamp moves backward. */
  ghost predicate Grows(old': map<string, Time>, new': map<string, Time>) {
    forall id :: id in old' ==> id in new' && old'[id] <= new'[id]
  }

  lemma {:induction false} AbsorbGrows(sink: map<string, Time>, rows: seq<Row>, minTime: Time)
    ensures Grows(sink, Absorb(sink, rows, minTime))
  {
    if rows != [] {
      AbsorbGrows(sink, rows[..|rows| - 1], minTime);
    }
  }

  /** Every entry a page leaves was there before or is a readable row's own stamp, above minTime. */
  lemma {:induction false} AbsorbSource(sink: map<string, Time>, rows: seq<Row>, minTime: Time, id: string)
    requires id in Absorb(sink, rows, minTime)
    requires !(id in sink && sink[id] == Absorb(sink, rows, minTime)[id])
    ensures exists i :: 0 <= i < |rows| && rows[i] == Row(id, Some(Absorb(sink, rows, minTime)[id])) && id != ""
    ensures minTime != 0 ==> Absorb(sink, rows, minTime)[id] > minTime
  {
    var n := |rows| - 1;
    var before, after := Absorb(sink, rows[..n], minTime), Absorb(sink, rows, minTime);
    if id in before && before[id] == after[id] {
      AbsorbSource(sink, rows[..n], minTime, id);
      var i :| 0 <= i < |rows[..n]| && rows[..n][i] == Row(id, Some(after[id]));
      assert rows[i] == Row(id, Some(after[id]));
    } else {
      assert rows[n] == Row(id, Some(after[id]));
    }
  }

  /** A readable row above minTime is in the sink afterwards, at its stamp or a later one. */
  lemma {:induction false} AbsorbTakes(sink: map<string, Time>, rows: seq<Row>, minTime: Time, i: nat)
    requires i < |rows| && Readable(rows[i])
    requires minTime == 0 || rows[i].updatedAt.value > minTime
    ensures rows[i].id in Absorb(sink, rows, minTime)
    ensures Absorb(sink, rows, minTime)[rows[i].id] >= rows[i].updatedAt.value
  {
    var n := |rows| - 1;
    if i < n {
      assert rows[..n][i] == rows[i];
      AbsorbTakes(sink, rows[..n], minTime, i);
    }
  }

  lemma {:induction false} UnreadableAt(rows: seq<Row>, i: nat)
    requires i < |rows| && !Readable(rows[i])
    ensures Unreadable(rows) > 0
  {
    var n := |rows| - 1;
    if i < n {
      assert rows[..n][i] == rows[i];
      UnreadableAt(rows[..n], i);
    }
  }

  // ---------- one still thread ----------

  ghost predicate Has(s: Scan, id: string, t: Time) {
    id in s.sink && s.sink[id] == t
  }

  /** No revision of the thread newer than t has been seen. */
  ghost predicate Calm(s: Scan, id: string, t: Time) {
    id in s.sink ==> s.sink[id] <= t
  }

  /** Found at stamp t, or t lies at or after broken coverage. */
  ghost predicate Accounted(s: Scan, id: string, t: Time) {
    Has(s, id, t) || (s.dirty != 0 && s.dirty <= t)
  }

  /** What a stretch of the scan over windows starting at lo or later keeps. */
  ghost predicate Extends(s: Scan, r: Scan, lo: Time) {
    && s.calls <= r.calls
    && Grows(s.sink, r.sink)
    && (r.dirty == s.dirty || (r.dirty >= lo && Midnight(r.dirty) && (s.dirty == 0 || r.dirty < s.dirty)))
  }

  lemma TakePageExtends(s: Scan, after: Time, rows: seq<Row>, minTime: Time, atCap: bool)
    requires after > 0 && Midnight(after)
    ensures Extends(s, TakePage(s, after, rows, minTime, atCap), after)
  {
    AbsorbGrows(s.sink, rows, minTime);
  }

  lemma {:induction false} ScanWindowExtends(srv: Server, s: Scan, after: Time, before: Time, p: Facets, minTime: Time)
    requires after > 0 && Midnight(after) && Midnight(before)
    ensures Extends(s, ScanWindow(srv, s, after, before, p, minTime), after)
    decreases if before - after > DAY then 4 else Unasked(p), 0
  {
    match srv.search(s.calls, Windowed(after, before, p))
    case Failed(_) =>
    case Page(rows) =>
      var asked := Answered(s);
      TakePageExtends(asked, after, rows, minTime, false);
      TakePageExtends(asked, after, rows, minTime, true);
      if |rows| >= PAGE_CAP {
        if before - after > DAY {
          ScanDaysExtends(srv, asked, after, before, p, minTime);
        } else if p.archived.None? {
          ScanWindowExtends(srv, asked, after, before, p.(archived := Some(false)), minTime);
          var a := ScanWindow(srv, asked, after, before, p.(archived := Some(false)), minTime);
          ScanWindowExtends(srv, a, after, before, p.(archived := Some(true)), minTime);
        } else if p.pinned.None? {
          ScanWindowExtends(srv, asked, after, before, p.(pinned := Some(false)), minTime);
          var a := ScanWindow(srv, asked, after, before, p.(pinned := Some(false)), minTime);
          ScanWindowExtends(srv, a, after, before, p.(pinned := Some(true)), minTime);
        }
      }
  }

  lemma {:induction false} ScanDaysExtends(srv: Server, s: Scan, d: Time, before: Time, p: Facets, minTime: Time)
    requires d > 0 && Midnight(d) && Midnight(before)
    ensures Extends(s, ScanDays(srv, s, d, before, p, minTime), d)
    decreases 3, before - d
  {
    if d < before && s.err.None? {
      var next := if d + DAY > before then before else d + DAY;
      ScanWindowExtends(srv, s, d, next, p, minTime);
      ScanDaysExtends(srv, ScanWindow(srv, s, d, next, p, minTime), next, before, p, minTime);
    }
  }

  lemma {:induction false} ScanWeeksExtends(srv: Server, s: Scan, start: Time, through: Time, minTime: Time)
    requires start > 0 && Midnight(start) && Midnight(through)
    ensures Extends(s, ScanWeeks(srv, s, start, through, minTime), start)
    decreases through - start
  {
    if start < through && s.err.None? {
      var end := if start + WEEK > through then through else start + WEEK;
      ScanWindowExtends(srv, s, start, end, ANY_FACETS, minTime);
      ScanWeeksExtends(srv, ScanWindow(srv, s, start, end, ANY_FACETS, minTime), end, through, minTime);
    }
  }

  /** Reading one honest page never sees a revision of a still thread other than its own. */
  lemma PageCalm(worlds: seq<Universe>, k: nat, q: Query, rows: seq<Row>, sink: map<string, Time>, minTime: Time,
                 id: string, th: Thread)
    requires k < |worlds| && Answers(worlds[k], q, rows)
    requires id in worlds[k] && worlds[k][id] == th
    requires id in sink ==> sink[id] <= th.updatedAt
    ensures id in Absorb(sink, rows, minTime) ==> Absorb(sink, rows, minTime)[id] <= th.updatedAt
  {
    var r := Absorb(sink, rows, minTime);
    if id in r && !(id in sink && sink[id] == r[id]) {
      AbsorbSource(sink, rows, minTime, id);
    }
  }

  /** A page below the cap that should show the thread accounts for it. */
  lemma PageAccounts(worlds: seq<Universe>, s: Scan, after: Time, q: Query, rows: seq<Row>, minTime: Time, atCap: bool,
                     id: string, th: Thread)
    requires after > 0 && Midnight(after)
    requires s.calls > 0 && s.calls - 1 < |worlds| && Answers(worlds[s.calls - 1], q, rows)
    requires id in worlds[s.calls - 1] && worlds[s.calls - 1][id] == th
    requires Matches(q, id, th) && after <= th.updatedAt
    requires minTime == 0 || th.updatedAt > minTime
    requires Calm(s, id, th.updatedAt)
    requires !atCap ==> |rows| < PAGE_CAP
    ensures var r := TakePage(s, after, rows, minTime, atCap);
            Calm(r, id, th.updatedAt) && Accounted(r, id, th.updatedAt)
  {
    var r := TakePage(s, after, rows, minTime, atCap);
    PageCalm(worlds, s.calls - 1, q, rows, s.sink, minTime, id, th);
    if !atCap && Unreadable(rows) == 0 {
      assert Shown(rows, id, th);
      var i :| 0 <= i < |rows| && (rows[i] == Row(id, Some(th.updatedAt)) || rows[i] == Row(id, None) || rows[i].id == "");
      if !Readable(rows[i]) {
        UnreadableAt(rows, i);
      } else {
        AbsorbTakes(s.sink, rows, minTime, i);
      }
    }
  }

  /** A still thread stays calm through any stretch of the scan, whatever windows it covers. */
  lemma {:induction false} ScanWindowCalm(srv: Server, worlds: seq<Universe>, s: Scan, after: Time, before: Time, p: Facets,
                                          minTime: Time, id: string, th: Thread)
    requires after > 0 && Midnight(after) && Midnight(before) && Honest(srv, worlds)
    requires Steady(worlds, s.calls, ScanWindow(srv, s, after, before, p, minTime).calls, id, th)
    requires Calm(s, id, th.updatedAt)
    ensures Calm(ScanWindow(srv, s, after, before, p, minTime), id, th.updatedAt)
    decreases if before - after > DAY then 4 else Unasked(p), 0
  {
    var q := Windowed(after, before, p);
    var r := ScanWindow(srv, s, after, before, p, minTime);
    match srv.search(s.calls, q)
    case Failed(_) =>
    case Page(rows) =>
      ScanWindowExtends(srv, s, after, before, p, minTime);
      var asked := Answered(s);
      if |rows| < PAGE_CAP || (before - after <= DAY && Unasked(p) == 0) {
        PageCalm(worlds, s.calls, q, rows, s.sink, minTime, id, th);
      } else if before - after > DAY {
        ScanDaysCalm(srv, worlds, asked, after, before, p, minTime, id, th);
      } else {
        var p0 := if p.archived.None? then p.(archived := Some(false)) else p.(pinned := Some(false));
        var p1 := if p.archived.None? then p.(archived := Some(true)) else p.(pinned := Some(true));
        var a := ScanWindow(srv, asked, after, before, p0, minTime);
        ScanWindowExtends(srv, asked, after, before, p0, minTime);
        ScanWindowExtends(srv, a, after, before, p1, minTime);
        ScanWindowCalm(srv, worlds, asked, after, before, p0, minTime, id, th);
        if a.err.None? {
          ScanWindowCalm(srv, worlds, a, after, before, p1, minTime, id, th);
        }
      }
  }

  lemma {:induction false} ScanDaysCalm(srv: Server, worlds: seq<Universe>, s: Scan, d: Time, before: Time, p: Facets,
                                        minTime: Time, id: string, th: Thread)
    requires d > 0 && Midnight(d) && Midnight(before) && Honest(srv, worlds)
    requires Steady(worlds, s.calls, ScanDays(srv, s, d, before, p, minTime).calls, id, th)
    requires Calm(s, id, th.updatedAt)
    ensures Calm(ScanDays(srv, s, d, before, p, minTime), id, th.updatedAt)
    decreases 3, before - d
  {
    if d < before && s.err.None? {
      var next := if d + DAY > before then before else d + DAY;
      var a := ScanWindow(srv, s, d, next, p, minTime);
      ScanWindowExtends(srv, s, d, next, p, minTime);
      ScanDaysExtends(srv, a, next, before, p, minTime);
      ScanWindowCalm(srv, worlds, s, d, next, p, minTime, id, th);
      ScanDaysCalm(srv, worlds, a, next, before, p, minTime, id, th);
    }
  }

  /** Once accounted for, a still thread stays so. */
  lemma AccountedKept(s: Scan, r: Scan, id: string, t: Time)
    requires Extends(s, r, 1) && Accounted(s, id, t) && Calm(r, id, t)
    ensures Accounted(r, id, t)
  {
  }

  /** A window that finishes without failure accounts for every still thread it should contain. */
  lemma {:induction false} ScanWindowAccounts(srv: Server, worlds: seq<Universe>, s: Scan, after: Time, before: Time, p: Facets,
                                              minTime: Time, id: string, th: Thread)
    requires after > 0 && Midnight(after) && Midnight(before) && Honest(srv, worlds)
    requires var r := ScanWindow(srv, s, after, before, p, minTime);
             r.err.None? && Steady(worlds, s.calls, r.calls, id, th)
    requires Calm(s, id, th.updatedAt)
    requires Matches(Windowed(after, before, p), id, th)
    requires minTime == 0 || th.updatedAt > minTime
    ensures Accounted(ScanWindow(srv, s, after, before, p, minTime), id, th.updatedAt)
    decreases if before - after > DAY then 4 else Unasked(p), 0
  {
    var q := Windowed(after, before, p);
    var rows := srv.search(s.calls, q).rows;
    var asked := Answered(s);
    ScanWindowExtends(srv, s, after, before, p, minTime);
    if |rows| < PAGE_CAP {
      PageAccounts(worlds, asked, after, q, rows, minTime, false, id, th);
    } else if before - after > DAY {
      ScanDaysAccounts(srv, worlds, asked, after, before, p, minTime, id, th);
    } else if Unasked(p) == 0 {
      PageAccounts(worlds, asked, after, q, rows, minTime, true, id, th);
    } else {
      ScanFacetAccounts(srv, worlds, s, after, before, p, minTime, id, th);
    }
  }

  /** The two halves of a facet partition the day: the thread is in exactly one. */
  lemma {:induction false} ScanFacetAccounts(srv: Server, worlds: seq<Universe>, s: Scan, after: Time, before: Time, p: Facets,
                                             minTime: Time, id: string, th: Thread)
    requires after > 0 && Midnight(after) && Midnight(before) && Honest(srv, worlds)
    requires var r := ScanWindow(srv, s, after, before, p, minTime);
             r.err.None? && Steady(worlds, s.calls, r.calls, id, th)
    requires Calm(s, id, th.updatedAt)
    requires Matches(Windowed(after, before, p), id, th)
    requires minTime == 0 || th.updatedAt > minTime
    requires srv.search(s.calls, Windowed(after, before, p)).Page?
    requires |srv.search(s.calls, Windowed(after, before, p)).rows| >= PAGE_CAP
    requires before - after <= DAY && Unasked(p) > 0
    ensures Accounted(ScanWindow(srv, s, after, before, p, minTime), id, th.updatedAt)
    decreases Unasked(p), -1
  {
    var asked := Answered(s);
    var p0 := if p.archived.None? then p.(archived := Some(false)) else p.(pinned := Some(false));
    var p1 := if p.archived.None? then p.(archived := Some(true)) else p.(pinned := Some(true));
    var a := ScanWindow(srv, asked, after, before, p0, minTime);
    var r := ScanWindow(srv, a, after, before, p1, minTime);
    ScanWindowExtends(srv, asked, after, before, p0, minTime);
    ScanWindowExtends(srv, a, after, before, p1, minTime);
    ScanWindowCalm(srv, worlds, asked, after, before, p0, minTime, id, th);
    if Matches(Windowed(after, before, p0), id, th) {
      ScanWindowAccounts(srv, worlds, asked, after, before, p0, minTime, id, th);
      ScanWindowCalm(srv, worlds, a, after, before, p1, minTime, id, th);
      AccountedKept(a, r, id, th.updatedAt);
    } else {
      ScanWindowAccounts(srv, worlds, a, after, before, p1, minTime, id, th);
    }
  }

  lemma {:induction false} ScanDaysAccounts(srv: Server, worlds: seq<Universe>, s: Scan, d: Time, before: Time, p: Facets,
                                            minTime: Time, id: string, th: Thread)
    requires d > 0 && Midnight(d) && Midnight(before) && Honest(srv, worlds)
    requires var r := ScanDays(srv, s, d, before, p, minTime);
             r.err.None? && Steady(worlds, s.calls, r.calls, id, th)
    requires Calm(s, id, th.updatedAt)
    requires Matches(Windowed(d, before, p), id, th)
    requires minTime == 0 || th.updatedAt > minTime
    ensures Accounted(ScanDays(srv, s, d, before, p, minTime), id, th.updatedAt)
    decreases 3, before - d
  {
    if s.err.None? {
      var next := if d + DAY > before then before else d + DAY;
      var a := ScanWindow(srv, s, d, next, p, minTime);
      var r := ScanDays(srv, a, next, before, p, minTime);
      ScanWindowExtends(srv, s, d, next, p, minTime);
      ScanDaysExtends(srv, a, next, before, p, minTime);
      ScanWindowCalm(srv, worlds, s, d, next, p, minTime, id, th);
      if th.updatedAt < next {
        ScanWindowAccounts(srv, worlds, s, d, next, p, minTime, id, th);
        ScanDaysCalm(srv, worlds, a, next, before, p, minTime, id, th);
        AccountedKept(a, r, id, th.updatedAt);
      } else {
        ScanDaysAccounts(srv, worlds, a, next, before, p, minTime, id, th);
      }
    }
  }

  lemma {:induction false} ScanWeeksCalm(srv: Server, worlds: seq<Universe>, s: Scan, start: Time, through: Time,
                                         minTime: Time, id: string, th: Thread)
    requires start > 0 && Midnight(start) && Midnight(through) && Honest(srv, worlds)
    requires Steady(worlds, s.calls, ScanWeeks(srv, s, start, through, minTime).calls, id, th)
    requires Calm(s, id, th.updatedAt)
    ensures Calm(ScanWeeks(srv, s, start, through, minTime), id, th.updatedAt)
    decreases through - start
  {
    if start < through && s.err.None? {
      var end := if start + WEEK > through then through else start + WEEK;
      var a := ScanWindow(srv, s, start, end, ANY_FACETS, minTime);
      ScanWindowExtends(srv, s, start, end, ANY_FACETS, minTime);
      ScanWeeksExtends(srv, a, end, through, minTime);
      ScanWindowCalm(srv, worlds, s, start, end, ANY_FACETS, minTime, id, th);
      ScanWeeksCalm(srv, worlds, a, end, through, minTime, id, th);
    }
  }

  lemma {:induction false} ScanWeeksAccounts(srv: Server, worlds: seq<Universe>, s: Scan, start: Time, through: Time,
                                             minTime: Time, id: string, th: Thread)
    requires start > 0 && Midnight(start) && Midnight(through) && Honest(srv, worlds)
    requires var r := ScanWeeks(srv, s, start, through, minTime);
             r.err.None? && Steady(worlds, s.calls, r.calls, id, th)
    requires Calm(s, id, th.updatedAt)
    requires start <= th.updatedAt < through
    requires minTime == 0 || th.updatedAt > minTime
    ensures Accounted(ScanWeeks(srv, s, start, through, minTime), id, th.updatedAt)
    decreases through - start
  {
    if s.err.None? {
      var end := if start + WEEK > through then through else start + WEEK;
      var a := ScanWindow(srv, s, start, end, ANY_FACETS, minTime);
      var r := ScanWeeks(srv, a, end, through, minTime);
      ScanWindowExtends(srv, s, start, end, ANY_FACETS, minTime);
      ScanWeeksExtends(srv, a, end, through, minTime);
      ScanWindowCalm(srv, worlds, s, start, end, ANY_FACETS, minTime, id, th);
      if th.updatedAt < end {
        ScanWindowAccounts(srv, worlds, s, start, end, ANY_FACETS, minTime, id, th);
        ScanWeeksCalm(srv, worlds, a, end, through, minTime, id, th);
        AccountedKept(a, r, id, th.updatedAt);
      } else {
        ScanWeeksAccounts(srv, worlds, a, end, through, minTime, id, th);
      }
    }
  }

  // ---------- the pending lane ----------

  lemma LookupExtends(srv: Server, s: Scan, id: string)
    ensures Extends(s, LookupId(srv, s, id), 1)
  {
    match srv.search(s.calls, ById(id))
    case Failed(_) =>
    case Page(rows) => AbsorbGrows(s.sink, rows, 0);
  }

  lemma {:induction false} LookupsExtend(srv: Server, s: Scan, ids: seq<string>)
    ensures Extends(s, LookupIds(srv, s, ids), 1)
    ensures LookupIds(srv, s, ids).dirty == s.dirty
    decreases |ids|
  {
    if ids != [] && s.err.None? {
      LookupExtends(srv, s, ids[0]);
      LookupsExtend(srv, LookupId(srv, s, ids[0]), ids[1..]);
    }
  }

  lemma {:induction false} LookupsCalm(srv: Server, worlds: seq<Universe>, s: Scan, ids: seq<string>, id: string, th: Thread)
    requires Honest(srv, worlds)
    requires Steady(worlds, s.calls, LookupIds(srv, s, ids).calls, id, th)
    requires Calm(s, id, th.updatedAt)
    ensures Calm(LookupIds(srv, s, ids), id, th.updatedAt)
    decreases |ids|
  {
    if ids != [] && s.err.None? {
      var a := LookupId(srv, s, ids[0]);
      LookupExtends(srv, s, ids[0]);
      LookupsExtend(srv, a, ids[1..]);
      var reply := srv.search(s.calls, ById(ids[0]));
      if ids[0] !in s.sink && reply.Page? {
        PageCalm(worlds, s.calls, ById(ids[0]), reply.rows, s.sink, 0, id, th);
      }
      LookupsCalm(srv, worlds, a, ids[1..], id, th);
    }
  }

  lemma MoreKeys(a: map<string, Time>, b: map<string, Time>, id: string)
    requires a.Keys <= b.Keys && id in b && id !in a
    ensures |a| < |b|
  {
    var rest := b.Keys - a.Keys;
    assert b.Keys == a.Keys + rest && id in rest;
    assert |b.Keys| == |a.Keys| + |rest|;
  }

  /** An id the lane proves gone was absent from the universe at one of the calls. */
  lemma {:induction false} LookupsGone(srv: Server, worlds: seq<Universe>, s: Scan, ids: seq<string>, id: string)
    requires Honest(srv, worlds) && LookupIds(srv, s, ids).calls <= |worlds|
    requires id in LookupIds(srv, s, ids).gone && id !in s.gone
    ensures id in ids
    ensures exists k :: s.calls <= k < LookupIds(srv, s, ids).calls && id !in worlds[k]
    decreases |ids|
  {
    var a := LookupId(srv, s, ids[0]);
    LookupExtends(srv, s, ids[0]);
    LookupsExtend(srv, a, ids[1..]);
    if id in a.gone {
      var rows := srv.search(s.calls, ById(id)).rows;
      if id in worlds[s.calls] {
        assert Shown(rows, id, worlds[s.calls][id]);
        var i :| 0 <= i < |rows| &&
                 (rows[i] == Row(id, Some(worlds[s.calls][id].updatedAt)) || rows[i] == Row(id, None) || rows[i].id == "");
        if !Readable(rows[i]) {
          UnreadableAt(rows, i);
        } else {
          AbsorbTakes(s.sink, rows, 0, i);
          AbsorbGrows(s.sink, rows, 0);
          MoreKeys(s.sink, Absorb(s.sink, rows, 0), id);
        }
        assert false;
      }
    } else {
      LookupsGone(srv, worlds, a, ids[1..], id);
    }
  }

  // ---------- where a found revision comes from ----------

  /** The entry was already there, or a call in [s.calls, r.calls) saw the thread at exactly that stamp. */
  ghost predicate Witnessed(worlds: seq<Universe>, s: Scan, r: Scan, id: string, minTime: Time) {
    id in r.sink && r.calls <= |worlds| ==>
      || Has(s, id, r.sink[id])
      || (&& (minTime != 0 ==> r.sink[id] > minTime)
          && exists k :: s.calls <= k < r.calls && id in worlds[k] && worlds[k][id].updatedAt == r.sink[id])
  }

  lemma WitnessedChain(worlds: seq<Universe>, s: Scan, a: Scan, r: Scan, id: string, minTime: Time)
    requires Extends(s, a, 1) && Extends(a, r, 1)
    requires Witnessed(worlds, s, a, id, minTime) && Witnessed(worlds, a, r, id, minTime)
    ensures Witnessed(worlds, s, r, id, minTime)
  {
  }

  lemma PageWitnessed(worlds: seq<Universe>, s: Scan, r: Scan, q: Query, rows: seq<Row>, minTime: Time, id: string)
    requires r.calls == s.calls + 1 <= |worlds| && Answers(worlds[s.calls], q, rows)
    requires r.sink == Absorb(s.sink, rows, minTime)
    ensures Witnessed(worlds, s, r, id, minTime)
  {
    if id in r.sink && !Has(s, id, r.sink[id]) {
      AbsorbSource(s.sink, rows, minTime, id);
      assert id in worlds[s.calls] && worlds[s.calls][id].updatedAt == r.sink[id];
    }
  }

  lemma {:induction false} ScanWindowWitnessed(srv: Server, worlds: seq<Universe>, s: Scan, after: Time, before: Time, p: Facets,
                                               minTime: Time, id: string)
    requires after > 0 && Midnight(after) && Midnight(before) && Honest(srv, worlds)
    requires ScanWindow(srv, s, after, before, p, minTime).calls <= |worlds|
    ensures Witnessed(worlds, s, ScanWindow(srv, s, after, before, p, minTime), id, minTime)
    decreases if before - after > DAY then 4 else Unasked(p), 0
  {
    var q := Windowed(after, before, p);
    var r := ScanWindow(srv, s, after, before, p, minTime);
    match srv.search(s.calls, q)
    case Failed(_) =>
    case Page(rows) =>
      var asked := Answered(s);
      ScanWindowExtends(srv, s, after, before, p, minTime);
      if |rows| < PAGE_CAP || (before - after <= DAY && Unasked(p) == 0) {
        PageWitnessed(worlds, s, r, q, rows, minTime, id);
      } else if before - after > DAY {
        ScanDaysExtends(srv, asked, after, before, p, minTime);
        ScanDaysWitnessed(srv, worlds, asked, after, before, p, minTime, id);
      } else {
        var p0 := if p.archived.None? then p.(archived := Some(false)) else p.(pinned := Some(false));
        var p1 := if p.archived.None? then p.(archived := Some(true)) else p.(pinned := Some(true));
        var a := ScanWindow(srv, asked, after, before, p0, minTime);
        ScanWindowExtends(srv, asked, after, before, p0, minTime);
        ScanWindowExtends(srv, a, after, before, p1, minTime);
        ScanWindowWitnessed(srv, worlds, asked, after, before, p0, minTime, id);
        if a.err.None? {
          ScanWindowWitnessed(srv, worlds, a, after, before, p1, minTime, id);
          WitnessedChain(worlds, asked, a, r, id, minTime);
        }
      }
  }

  lemma {:induction false} ScanDaysWitnessed(srv: Server, worlds: seq<Universe>, s: Scan, d: Time, before: Time, p: Facets,
                                             minTime: Time, id: string)
    requires d > 0 && Midnight(d) && Midnight(before) && Honest(srv, worlds)
    requires ScanDays(srv, s, d, before, p, minTime).calls <= |worlds|
    ensures Witnessed(worlds, s, ScanDays(srv, s, d, before, p, minTime), id, minTime)
    decreases 3, before - d
  {
    if d < before && s.err.None? {
      var next := if d + DAY > before then before else d + DAY;
      var a := ScanWindow(srv, s, d, next, p, minTime);
      ScanWindowExtends(srv, s, d, next, p, minTime);
      ScanDaysExtends(srv, a, next, before, p, minTime);
      ScanWindowWitnessed(srv, worlds, s, d, next, p, minTime, id);
      ScanDaysWitnessed(srv, worlds, a, next, before, p, minTime, id);
      WitnessedChain(worlds, s, a, ScanDays(srv, a, next, before, p, minTime), id, minTime);
    }
  }

  lemma {:induction false} ScanWeeksWitnessed(srv: Server, worlds: seq<Universe>, s: Scan, start: Time, through: Time,
                                              minTime: Time, id: string)
    requires start > 0 && Midnight(start) && Midnight(through) && Honest(srv, worlds)
    requires ScanWeeks(srv, s, start, through, minTime).calls <= |worlds|
    ensures Witnessed(worlds, s, ScanWeeks(srv, s, start, through, minTime), id, minTime)
    decreases through - start
  {
    if start < through && s.err.None? {
      var end := if start + WEEK > through then through else start + WEEK;
      var a := ScanWindow(srv, s, start, end, ANY_FACETS, minTime);
      ScanWindowExtends(srv, s, start, end, ANY_FACETS, minTime);
      ScanWeeksExtends(srv, a, end, through, minTime);
      ScanWindowWitnessed(srv, worlds, s, start, end, ANY_FACETS, minTime, id);
      ScanWeeksWitnessed(srv, worlds, a, end, through, minTime, id);
      WitnessedChain(worlds, s, a, ScanWeeks(srv, a, end, through, minTime), id, minTime);
    }
  }

  /** An id the lane leaves was there before, or was seen by a call and is one of the ids looked up. */
  lemma {:induction false} LookupsWitnessed(srv: Server, worlds: seq<Universe>, s: Scan, ids: seq<string>, id: string)
    requires Honest(srv, worlds) && LookupIds(srv, s, ids).calls <= |worlds|
    ensures Witnessed(worlds, s, LookupIds(srv, s, ids), id, 0)
    ensures id in LookupIds(srv, s, ids).sink && !Has(s, id, LookupIds(srv, s, ids).sink[id]) ==> id in ids
    decreases |ids|
  {
    if ids != [] && s.err.None? {
      var a := LookupId(srv, s, ids[0]);
      var r := LookupIds(srv, a, ids[1..]);
      LookupExtends(srv, s, ids[0]);
      LookupsExtend(srv, a, ids[1..]);
      LookupsWitnessed(srv, worlds, a, ids[1..], id);
      var reply := srv.search(s.calls, ById(ids[0]));
      if ids[0] !in s.sink && reply.Page? {
        PageWitnessed(worlds, s, a, ById(ids[0]), reply.rows, 0, id);
        if id in a.sink && !Has(s, id, a.sink[id]) {
          AbsorbSource(s.sink, reply.rows, 0, id);
          assert id == ids[0];
        }
      }
      WitnessedChain(worlds, s, a, r, id, 0);
    }
  }

  // ---------- the whole enumeration ----------

  /**
   A thread that stands still through every call, stamped in [from, through) above minTime, is found at
   its exact revision, unless its stamp lies at or after the earliest dirty window.
   */
  lemma EnumerationComplete(srv: Server, worlds: seq<Universe>, from: Time, through: Time, minTime: Time, ids: seq<string>,
                            committed: map<string, Time>, id: string, th: Thread)
    requires from > 0 && Midnight(from) && Midnight(through) && Honest(srv, worlds)
    requires Enumerate(srv, from, through, minTime, ids, committed).Complete?
    requires Steady(worlds, 0, Lanes(srv, from, through, minTime, ids).calls, id, th)
    requires from <= th.updatedAt < through
    requires minTime == 0 || th.updatedAt > minTime
    ensures var out := Enumerate(srv, from, through, minTime, ids, committed).out;
            (out.dirty == 0 || th.updatedAt < out.dirty) ==> id in out.found && out.found[id] == th.updatedAt
  {
    var w := ScanWeeks(srv, FRESH, from, through, minTime);
    var r := LookupIds(srv, w, ids);
    ScanWeeksExtends(srv, FRESH, from, through, minTime);
    LookupsExtend(srv, w, ids);
    LookupsErr(srv, w, ids);
    ScanWeeksAccounts(srv, worlds, FRESH, from, through, minTime, id, th);
    ScanWeeksCalm(srv, worlds, FRESH, from, through, minTime, id, th);
    LookupsCalm(srv, worlds, w, ids, id, th);
    AccountedKept(w, r, id, th.updatedAt);
  }

  lemma LookupsErr(srv: Server, s: Scan, ids: seq<string>)
    ensures s.err.Some? ==> LookupIds(srv, s, ids) == s
  {
  }

  /** Broken coverage always starts at a midnight, no earlier than the scan's first day. */
  lemma DirtyInRange(srv: Server, from: Time, through: Time, minTime: Time, ids: seq<string>)
    requires from > 0 && Midnight(from) && Midnight(through)
    ensures var s := Lanes(srv, from, through, minTime, ids);
            s.dirty == 0 || (s.dirty >= from && Midnight(s.dirty))
  {
    ScanWeeksExtends(srv, FRESH, from, through, minTime);
    LookupsExtend(srv, ScanWeeks(srv, FRESH, from, through, minTime), ids);
  }

  /** Nothing is invented: a found revision was seen by some call, and lies above minTime unless its id was pending. */
  lemma FoundIsReal(srv: Server, worlds: seq<Universe>, from: Time, through: Time, minTime: Time, ids: seq<string>,
                    committed: map<string, Time>, id: string)
    requires from > 0 && Midnight(from) && Midnight(through) && Honest(srv, worlds)
    requires Enumerate(srv, from, through, minTime, ids, committed).Complete?
    requires Lanes(srv, from, through, minTime, ids).calls <= |worlds|
    requires id in Enumerate(srv, from, through, minTime, ids, committed).out.found
    ensures var t := Enumerate(srv, from, through, minTime, ids, committed).out.found[id];
            && (exists k :: 0 <= k < Lanes(srv, from, through, minTime, ids).calls
                            && id in worlds[k] && worlds[k][id].updatedAt == t)
            && (minTime != 0 && t <= minTime ==> id in ids)
  {
    var w := ScanWeeks(srv, FRESH, from, through, minTime);
    ScanWeeksExtends(srv, FRESH, from, through, minTime);
    LookupsExtend(srv, w, ids);
    ScanWeeksWitnessed(srv, worlds, FRESH, from, through, minTime, id);
    LookupsWitnessed(srv, worlds, w, ids, id);
  }

  /** An id reported gone was pending and was absent from the universe at one of the calls. */
  lemma GoneIsAbsent(srv: Server, worlds: seq<Universe>, from: Time, through: Time, minTime: Time, ids: seq<string>,
                     committed: map<string, Time>, id: string)
    requires from > 0 && Midnight(from) && Midnight(through) && Honest(srv, worlds)
    requires Enumerate(srv, from, through, minTime, ids, committed).Complete?
    requires Lanes(srv, from, through, minTime, ids).calls <= |worlds|
    requires id in Enumerate(srv, from, through, minTime, ids, committed).out.gone
    ensures id in ids
    ensures exists k :: 0 <= k < Lanes(srv, from, through, minTime, ids).calls && id !in worlds[k]
  {
    ScanWeeksGone(srv, FRESH, from, through, minTime);
    ScanWeeksExtends(srv, FRESH, from, through, minTime);
    LookupsGone(srv, worlds, ScanWeeks(srv, FRESH, from, through, minTime), ids, id);
  }

  lemma {:induction false} ScanWindowGone(srv: Server, s: Scan, after: Time, before: Time, p: Facets, minTime: Time)
    ensures ScanWindow(srv, s, after, before, p, minTime).gone == s.gone
    decreases if before - after > DAY then 4 else Unasked(p), 0
  {
    match srv.search(s.calls, Windowed(after, before, p))
    case Failed(_) =>
    case Page(rows) =>
      var asked := Answered(s);
      if |rows| >= PAGE_CAP {
        if before - after > DAY {
          ScanDaysGone(srv, asked, after, before, p, minTime);
        } else if Unasked(p) > 0 {
          var p0 := if p.archived.None? then p.(archived := Some(false)) else p.(pinned := Some(false));
          var p1 := if p.archived.None? then p.(archived := Some(true)) else p.(pinned := Some(true));
          ScanWindowGone(srv, asked, after, before, p0, minTime);
          ScanWindowGone(srv, ScanWindow(srv, asked, after, before, p0, minTime), after, before, p1, minTime);
        }
      }
  }

  lemma {:induction false} ScanDaysGone(srv: Server, s: Scan, d: Time, before: Time, p: Facets, minTime: Time)
    ensures ScanDays(srv, s, d, before, p, minTime).gone == s.gone
    decreases 3, before - d
  {
    if d < before && s.err.None? {
      var next := if d + DAY > before then before else d + DAY;
      ScanWindowGone(srv, s, d, next, p, minTime);
      ScanDaysGone(srv, ScanWindow(srv, s, d, next, p, minTime), next, before, p, minTime);
    }
  }

  lemma {:induction false} ScanWeeksGone(srv: Server, s: Scan, start: Time, through: Time, minTime: Time)
    ensures ScanWeeks(srv, s, start, through, minTime).gone == s.gone
    decreases through - start
  {
    if start < through && s.err.None? {
      var end := if start + WEEK > through then through else start + WEEK;
      ScanWindowGone(srv, s, start, end, ANY_FACETS, minTime);
      ScanWeeksGone(srv, ScanWindow(srv, s, start, end, ANY_FACETS, minTime), end, through, minTime);
    }
  }

  /**
   The post-filter decides alone: for a still thread in range, before any dirty window and not pending, being
   found at its revision and being stamped above minTime are the same thing. A stamp equal to minTime is dropped.
   */
  lemma FoundExactlyAboveMinTime(srv: Server, worlds: seq<Universe>, from: Time, through: Time, minTime: Time,
                                 ids: seq<string>, committed: map<string, Time>, id: string, th: Thread)
    requires from > 0 && Midnight(from) && Midnight(through) && Honest(srv, worlds)
    requires Enumerate(srv, from, through, minTime, ids, committed).Complete?
    requires Steady(worlds, 0, Lanes(srv, from, through, minTime, ids).calls, id, th)
    requires from <= th.updatedAt < through && id !in ids
    requires var out := Enumerate(srv, from, through, minTime, ids, committed).out;
             out.dirty == 0 || th.updatedAt < out.dirty
    ensures var out := Enumerate(srv, from, through, minTime, ids, committed).out;
            (id in out.found && out.found[id] == th.updatedAt) <==> (minTime == 0 || th.updatedAt > minTime)
  {
    var out := Enumerate(srv, from, through, minTime, ids, committed).out;
    if minTime == 0 || th.updatedAt > minTime {
      EnumerationComplete(srv, worlds, from, through, minTime, ids, committed, id, th);
    } else if id in out.found {
      FoundIsReal(srv, worlds, from, through, minTime, ids, committed, id);
    }
  }

  // ---------- how many searches ----------

  /** One search per leaf facet pair, per pinned split, per day: 1, 3 or 7. */
  function DayBudget(p: Facets): nat {
    if Unasked(p) == 0 then 1 else if Unasked(p) == 1 then 3 else 7
  }

  lemma {:induction false} DayCost(srv: Server, s: Scan, after: Time, before: Time, p: Facets, minTime: Time)
    requires before - after <= DAY
    ensures ScanWindow(srv, s, after, before, p, minTime).calls <= s.calls + DayBudget(p)
    decreases Unasked(p)
  {
    match srv.search(s.calls, Windowed(after, before, p))
    case Failed(_) =>
    case Page(rows) =>
      var asked := Answered(s);
      if |rows| >= PAGE_CAP && Unasked(p) > 0 {
        var p0 := if p.archived.None? then p.(archived := Some(false)) else p.(pinned := Some(false));
        var p1 := if p.archived.None? then p.(archived := Some(true)) else p.(pinned := Some(true));
        DayCost(srv, asked, after, before, p0, minTime);
        DayCost(srv, ScanWindow(srv, asked, after, before, p0, minTime), after, before, p1, minTime);
      }
  }

  lemma {:induction false} DaysCost(srv: Server, s: Scan, d: Time, before: Time, minTime: Time)
    requires d <= before && Midnight(before - d)
    ensures ScanDays(srv, s, d, before, ANY_FACETS, minTime).calls <= s.calls + 7 * ((before - d) / DAY)
    decreases before - d
  {
    if d < before && s.err.None? {
      var next := d + DAY;
      DayCost(srv, s, d, next, ANY_FACETS, minTime);
      DaysCost(srv, ScanWindow(srv, s, d, next, ANY_FACETS, minTime), next, before, minTime);
    }
  }

  /** A whole-day window costs at most 7 searches, a longer one of n days at most 1 + 7n, so a week at most 50. */
  lemma WindowCost(srv: Server, s: Scan, after: Time, before: Time, minTime: Time)
    requires after < before && Midnight(before - after)
    ensures var calls := ScanWindow(srv, s, after, before, ANY_FACETS, minTime).calls - s.calls;
            && (before - after == DAY ==> calls <= 7)
            && (before - after > DAY ==> calls <= 1 + 7 * ((before - after) / DAY))
            && (before - after == WEEK ==> calls <= 50)
  {
    if before - after == DAY {
      DayCost(srv, s, after, before, ANY_FACETS, minTime);
    } else {
      DaysCost(srv, Answered(s), after, before, minTime);
    }
  }
}
