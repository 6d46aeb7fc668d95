/**
 What the replies of one enumeration lead to: each pending id is found, proven gone or still unread; coverage
 breaks only in a window whose page was unreadable or full; the enumeration ends early only on a failed reply;
 and the corroborating list queues exactly the threads in span that the windows missed.
 */
module AmpReplies {
  import opened Wrappers
  import opened AmpServer
  import opened Clock
  import opened AmpEnumerate
  import opened AmpCompleteness

  // ---------- the pending lane ----------

  /** Were call k the lookup of id, its page would have rows and none that can be read. */
  ghost predicate Garbled(srv: Server, k: nat, id: string) {
    var reply := srv.search(k, ById(id));
    reply.Page? && reply.rows != [] && forall i :: 0 <= i < |reply.rows| ==> !Readable(reply.rows[i])
  }

  lemma LookupAnswers(srv: Server, worlds: seq<Universe>, s: Scan, id: string)
    requires Honest(srv, worlds) && s.calls < |worlds|
    requires LookupId(srv, s, id).err.None?
    ensures var r := LookupId(srv, s, id); id in r.sink || id in r.gone || (s.calls < r.calls && Garbled(srv, s.calls, id))
  {
    var reply := srv.search(s.calls, ById(id));
    if id !in s.sink && reply.Page? && reply.rows != [] && !Garbled(srv, s.calls, id) {
      var i :| 0 <= i < |reply.rows| && Readable(reply.rows[i]);
      assert reply.rows[i].id == id;
      AbsorbTakes(s.sink, reply.rows, 0, i);
    }
  }

  lemma {:induction false} LookupsKeep(srv: Server, s: Scan, ids: seq<string>)
    ensures s.sink.Keys <= LookupIds(srv, s, ids).sink.Keys
    ensures s.gone <= LookupIds(srv, s, ids).gone
    ensures LookupIds(srv, s, ids).err.None? ==> s.err.None?
    decreases |ids|
  {
    LookupsExtend(srv, s, ids);
    if ids != [] && s.err.None? {
      LookupsKeep(srv, LookupId(srv, s, ids[0]), ids[1..]);
    }
  }

  lemma {:induction false} LookupsAnswer(srv: Server, worlds: seq<Universe>, s: Scan, ids: seq<string>, id: string)
    requires Honest(srv, worlds) && LookupIds(srv, s, ids).calls <= |worlds|
    requires LookupIds(srv, s, ids).err.None? && id in ids
    ensures var r := LookupIds(srv, s, ids);
            id in r.sink || id in r.gone || exists k :: s.calls <= k < r.calls && Garbled(srv, k, id)
    decreases |ids|
  {
    LookupsKeep(srv, s, ids);
    var a := LookupId(srv, s, ids[0]);
    LookupExtends(srv, s, ids[0]);
    LookupsExtend(srv, a, ids[1..]);
    LookupsKeep(srv, a, ids[1..]);
    if id != ids[0] {
      LookupsAnswer(srv, worlds, a, ids[1..], id);
    } else if id !in s.sink {
      LookupAnswers(srv, worlds, s, id);
    }
  }

  /**
   Every pending id is answered: it is found, or proven gone, or the page of its lookup held rows of which none
   could be read. One that stands still is found at its own stamp, one that is nowhere is gone, or the page was so.
   */
  lemma PendingIsAnswered(srv: Server, worlds: seq<Universe>, from: Time, through: Time, minTime: Time, ids: seq<string>,
                          committed: map<string, Time>, id: string)
    requires from > 0 && Midnight(from) && Midnight(through) && Honest(srv, worlds)
    requires Enumerate(srv, from, through, minTime, ids, committed).Complete?
    requires Lanes(srv, from, through, minTime, ids).calls <= |worlds|
    requires id in ids
    ensures var out, calls := Enumerate(srv, from, through, minTime, ids, committed).out,
                              Lanes(srv, from, through, minTime, ids).calls;
            var garbled := exists k :: ScanWeeks(srv, FRESH, from, through, minTime).calls <= k < calls && Garbled(srv, k, id);
            && (id in out.found || id in out.gone || garbled)
            && (forall th :: Steady(worlds, 0, calls, id, th) ==> (id in out.found && out.found[id] == th.updatedAt) || garbled)
            && ((forall k :: 0 <= k < calls ==> id !in worlds[k]) ==> id in out.gone || garbled)
  {
    var out := Enumerate(srv, from, through, minTime, ids, committed).out;
    var w := ScanWeeks(srv, FRESH, from, through, minTime);
    LookupsAnswer(srv, worlds, w, ids, id);
    if id in out.found {
      FoundIsReal(srv, worlds, from, through, minTime, ids, committed, id);
    } else if id in out.gone {
      GoneIsAbsent(srv, worlds, from, through, minTime, ids, committed, id);
    }
  }

  // ---------- what broke a window, what ended a scan ----------

  /** Were call k the search of this window, it would leave it broken: unreadable rows, or full with nothing left to split on. */
  ghost predicate Breaks(srv: Server, k: nat, after: Time, before: Time, p: Facets) {
    var reply := srv.search(k, Windowed(after, before, p));
    && reply.Page?
    && ((exists i :: 0 <= i < |reply.rows| && !Readable(reply.rows[i]))
        || (|reply.rows| >= PAGE_CAP && before - after <= DAY && Unasked(p) == 0))
  }

  ghost predicate Broke(srv: Server, k: nat, after: Time) {
    exists before, p :: Breaks(srv, k, after, before, p)
  }

  ghost predicate FailedWith(srv: Server, k: nat, why: Failure) {
    exists q :: srv.search(k, q) == Failed(why)
  }

  /**
   From s to r: new broken coverage was broken by a call, a new failure is the last call's, and only a spawn failure
   leaves the binary unseen.
   */
  ghost predicate Traced(srv: Server, s: Scan, r: Scan) {
    && s.calls <= r.calls
    && (r.dirty != s.dirty ==> exists k :: s.calls <= k < r.calls && Broke(srv, k, r.dirty))
    && (r.err != s.err ==> r.err.Some? && s.calls < r.calls && FailedWith(srv, r.calls - 1, r.err.value))
    && (s.calls < r.calls && !r.seen ==> r.err == Some(Spawn) && r.calls == s.calls + 1)
    && (s.seen ==> r.seen)
  }

  lemma TracedOn(srv: Server, s: Scan, a: Scan, r: Scan)
    requires Traced(srv, s, a) && Traced(srv, a, r) && s.err.None?
    requires a.err.Some? ==> r == a
    ensures Traced(srv, s, r)
  {
  }

  lemma {:induction false} AllReadable(rows: seq<Row>)
    requires forall i :: 0 <= i < |rows| ==> Readable(rows[i])
    ensures Unreadable(rows) == 0
  {
    if rows != [] {
      AllReadable(rows[..|rows| - 1]);
    }
  }

  lemma FinalPageTraced(srv: Server, s: Scan, after: Time, before: Time, p: Facets, minTime: Time, atCap: bool)
    requires srv.search(s.calls, Windowed(after, before, p)).Page?
    requires atCap ==>
               |srv.search(s.calls, Windowed(after, before, p)).rows| >= PAGE_CAP && before - after <= DAY && Unasked(p) == 0
    ensures Traced(srv, s, TakePage(Answered(s), after, srv.search(s.calls, Windowed(after, before, p)).rows, minTime, atCap))
  {
    var rows := srv.search(s.calls, Windowed(after, before, p)).rows;
    if !atCap && !Breaks(srv, s.calls, after, before, p) {
      AllReadable(rows);
    } else {
      assert Breaks(srv, s.calls, after, before, p);
      assert Broke(srv, s.calls, after);
    }
  }

  lemma {:induction false} ScanWindowTraced(srv: Server, s: Scan, after: Time, before: Time, p: Facets, minTime: Time)
    requires s.err.None?
    ensures Traced(srv, s, ScanWindow(srv, s, after, before, p, minTime))
    decreases if before - after > DAY then 4 else Unasked(p), 0
  {
    match srv.search(s.calls, Windowed(after, before, p))
    case Failed(_) =>
    case Page(rows) =>
      var asked := Answered(s);
      if |rows| < PAGE_CAP {
        FinalPageTraced(srv, s, after, before, p, minTime, false);
      } else if before - after > DAY {
        ScanDaysTraced(srv, asked, after, before, p, minTime);
      } else if Unasked(p) > 0 {
        var p0 := if p.archived.None? then p.(archived := Some(false)) else p.(pinned := Some(false));
        var p1 := if p.archived.None? then p.(archived := Some(true)) else p.(pinned := Some(true));
        var a := ScanWindow(srv, asked, after, before, p0, minTime);
        ScanWindowTraced(srv, asked, after, before, p0, minTime);
        if a.err.None? {
          ScanWindowTraced(srv, a, after, before, p1, minTime);
          TracedOn(srv, asked, a, ScanWindow(srv, a, after, before, p1, minTime));
        }
      } else {
        FinalPageTraced(srv, s, after, before, p, minTime, true);
      }
  }

  lemma {:induction false} ScanDaysTraced(srv: Server, s: Scan, d: Time, before: Time, p: Facets, minTime: Time)
    ensures Traced(srv, s, ScanDays(srv, s, d, before, p, minTime))
    decreases 3, before - d
  {
    if d < before && s.err.None? {
      var next := if d + DAY > before then before else d + DAY;
      var a := ScanWindow(srv, s, d, next, p, minTime);
      ScanWindowTraced(srv, s, d, next, p, minTime);
      ScanDaysTraced(srv, a, next, before, p, minTime);
      TracedOn(srv, s, a, ScanDays(srv, a, next, before, p, minTime));
    }
  }

  lemma {:induction false} ScanWeeksTraced(srv: Server, s: Scan, start: Time, through: Time, minTime: Time)
    ensures Traced(srv, s, ScanWeeks(srv, s, start, through, minTime))
    decreases through - start
  {
    if start < through && s.err.None? {
      var end := if start + WEEK > through then through else start + WEEK;
      var a := ScanWindow(srv, s, start, end, ANY_FACETS, minTime);
      ScanWindowTraced(srv, s, start, end, ANY_FACETS, minTime);
      ScanWeeksTraced(srv, a, end, through, minTime);
      TracedOn(srv, s, a, ScanWeeks(srv, a, end, through, minTime));
    }
  }

  lemma {:induction false} LookupsTraced(srv: Server, s: Scan, ids: seq<string>)
    ensures Traced(srv, s, LookupIds(srv, s, ids))
    decreases |ids|
  {
    if ids != [] && s.err.None? {
      var a := LookupId(srv, s, ids[0]);
      assert Traced(srv, s, a);
      LookupsTraced(srv, a, ids[1..]);
      TracedOn(srv, s, a, LookupIds(srv, a, ids[1..]));
    }
  }

  lemma LanesTraced(srv: Server, from: Time, through: Time, minTime: Time, ids: seq<string>)
    ensures Traced(srv, FRESH, Lanes(srv, from, through, minTime, ids))
  {
    var w := ScanWeeks(srv, FRESH, from, through, minTime);
    ScanWeeksTraced(srv, FRESH, from, through, minTime);
    LookupsTraced(srv, w, ids);
    TracedOn(srv, FRESH, w, LookupIds(srv, w, ids));
  }

  /** Coverage is reported broken only from the start of a window some call broke. */
  lemma DirtyIsBroken(srv: Server, from: Time, through: Time, minTime: Time, ids: seq<string>, committed: map<string, Time>)
    requires Enumerate(srv, from, through, minTime, ids, committed).Complete?
    ensures var dirty := Enumerate(srv, from, through, minTime, ids, committed).out.dirty;
            dirty != 0 ==> exists k :: 0 <= k < Lanes(srv, from, through, minTime, ids).calls && Broke(srv, k, dirty)
  {
    LanesTraced(srv, from, through, minTime, ids);
  }

  /**
   An enumeration ends early only for cause: it breaks with the last search's failure or a cancelled list, and is
   quietly absent only when the very first command could not be spawned. A server that answers is enumerated whole.
   */
  lemma EndsForCause(srv: Server, from: Time, through: Time, minTime: Time, ids: seq<string>, committed: map<string, Time>)
    ensures var e, calls := Enumerate(srv, from, through, minTime, ids, committed), Lanes(srv, from, through, minTime, ids).calls;
            match e
            case Absent => (calls == 1 && FailedWith(srv, 0, Spawn)) || (calls == 0 && srv.list(0) == Unlisted(Spawn))
            case Broken(why) =>
              (calls > 0 && FailedWith(srv, calls - 1, why)) || srv.list(calls) == Unlisted(why) == Unlisted(Cancelled)
            case Complete(out) => out.end == through && srv.list(calls) != Unlisted(Cancelled)
  {
    LanesTraced(srv, from, through, minTime, ids);
  }

  // ---------- the corroborating list ----------

  /**
   The list queues an id exactly when it is whole, shows the id, the enumeration did not find it, and the floor does
   not rule it out: there is none, or the listed stamp lies above it, or no commit at or below it is recorded.
   */
  lemma ListedIsFoundOrQueued(srv: Server, from: Time, through: Time, minTime: Time, ids: seq<string>,
                              committed: map<string, Time>, id: string)
    requires Enumerate(srv, from, through, minTime, ids, committed).Complete?
    ensures var out, listing := Enumerate(srv, from, through, minTime, ids, committed).out,
                                srv.list(Lanes(srv, from, through, minTime, ids).calls);
            id in out.retry <==>
              && listing.Listed? && |listing.rows| < LIST_CAP && id != "" && id !in out.found
              && exists i :: 0 <= i < |listing.rows| && listing.rows[i].id == id
                  && (minTime == 0 || (id in committed && committed[id] != 0 && committed[id] <= minTime ==>
                        listing.rows[i].updated.Some? && listing.rows[i].updated.value > minTime))
  {
    var out, listing := Enumerate(srv, from, through, minTime, ids, committed).out,
                        srv.list(Lanes(srv, from, through, minTime, ids).calls);
    if id in out.retry {
      var row :| row in listing.rows && Missed(row, out.found, minTime, committed) && row.id == id;
    }
  }
}
