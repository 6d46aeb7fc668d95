/**
 The enumeration as the source runs it: loops that advance window bounds, fill one shared sink and
 mark broken coverage in place. Every method leaves exactly the state the functions of AmpEnumerate give.
 */
module AmpDiscover {
  import opened Wrappers
  import opened AmpServer
  import opened Clock
  import opened AmpEnumerate

  class Scanner {
    const srv: Server
    var calls: nat
    var sink: map<string, Time>
    var dirty: Time
    var diags: nat
    var gone: set<string>
    var retry: set<string>
    var seen: bool
    var err: Option<Failure>

    constructor (srv: Server)
      ensures this.srv == srv && State() == FRESH && retry == {}
    {
      this.srv := srv;
      calls, sink, dirty, diags, gone, retry, seen, err := 0, map[], 0, 0, {}, {}, false, None;
    }

    function State(): Scan
      reads this
    {
      Scan(calls, sink, dirty, diags, gone, seen, err)
    }

    method MarkDirtyAt(d: Time)
      modifies this`dirty
      ensures dirty == MarkDirty(old(dirty), d)
    {
      if dirty == 0 || d < dirty {
        dirty := d;
      }
    }

    /** One CLI call; a failure ends the scan. */
    method Ask(q: Query) returns (reply: Reply)
      modifies this`calls, this`seen, this`err
      ensures reply == srv.search(old(calls), q)
      ensures State() == if reply.Failed? then Fail(old(State()), reply.why) else Answered(old(State()))
    {
      reply := srv.search(calls, q);
      calls := calls + 1;
      if reply.Failed? {
        seen := seen || reply.why != Spawn;
        err := Some(reply.why);
      } else {
        seen := true;
      }
    }

    /** Folds one page into the sink, keeping the freshest stamp; bad counts the rows it could not read. */
    method AbsorbRows(rows: seq<Row>, minTime: Time) returns (bad: nat)
      modifies this`sink
      ensures sink == Absorb(old(sink), rows, minTime)
      ensures bad == Unreadable(rows)
    {
      bad := 0;
      var i := 0;
      while i < |rows|
        invariant 0 <= i <= |rows|
        invariant sink == Absorb(old(sink), rows[..i], minTime)
        invariant bad == Unreadable(rows[..i])
      {
        var row := rows[i];
        assert rows[..i + 1][..i] == rows[..i];
        i := i + 1;
        if row.id == "" || row.updatedAt.None? {
          bad := bad + 1;
          continue;
        }
        var updatedAt := row.updatedAt.value;
        if minTime != 0 && updatedAt <= minTime {
          continue;
        }
        if row.id in sink && updatedAt <= sink[row.id] {
          continue;
        }
        sink := sink[row.id := updatedAt];
      }
      assert rows[..i] == rows;
    }

    method TakeFinalPage(after: Time, rows: seq<Row>, minTime: Time, atCap: bool)
      modifies this`sink, this`dirty, this`diags
      ensures State() == TakePage(old(State()), after, rows, minTime, atCap)
    {
      var bad := AbsorbRows(rows, minTime);
      diags := diags + bad;
      if atCap {
        diags := diags + 1;
      }
      if bad > 0 || atCap {
        MarkDirtyAt(after);
      }
    }

    /** One window: a page below the cap is final, a full one splits into days, then archived, then pinned. */
    method ScanWindow(after: Time, before: Time, p: Facets, minTime: Time)
      modifies this
      ensures State() == AmpEnumerate.ScanWindow(srv, old(State()), after, before, p, minTime)
      ensures retry == old(retry)
      decreases if before - after > DAY then 4 else Unasked(p), 0
    {
      var reply := Ask(Windowed(after, before, p));
      if reply.Failed? {
        return;
      }
      if |reply.rows| < PAGE_CAP {
        TakeFinalPage(after, reply.rows, minTime, false);
      } else if before - after > DAY {
        ghost var asked := State();
        ghost var whole := ScanDays(srv, asked, after, before, p, minTime);
        var d := after;
        while d < before && err.None?
          invariant ScanDays(srv, State(), d, before, p, minTime) == whole
          invariant retry == old(retry)
          decreases before - d
        {
          var next := d + DAY;
          if next > before {
            next := before;
          }
          ScanWindow(d, next, p, minTime);
          d := next;
        }
      } else if p.archived.None? {
        Subdivide(after, before, p.(archived := Some(false)), p.(archived := Some(true)), minTime);
      } else if p.pinned.None? {
        Subdivide(after, before, p.(pinned := Some(false)), p.(pinned := Some(true)), minTime);
      } else {
        TakeFinalPage(after, reply.rows, minTime, true);
      }
    }

    /** Both halves of one facet, the unset half first. */
    method Subdivide(after: Time, before: Time, p0: Facets, p1: Facets, minTime: Time)
      requires before - after <= DAY && Unasked(p0) == Unasked(p1)
      modifies this
      ensures var a := AmpEnumerate.ScanWindow(srv, old(State()), after, before, p0, minTime);
              State() == if a.err.Some? then a else AmpEnumerate.ScanWindow(srv, a, after, before, p1, minTime)
      ensures retry == old(retry)
      decreases Unasked(p0), 1
    {
      ScanWindow(after, before, p0, minTime);
      if err.None? {
        ScanWindow(after, before, p1, minTime);
      }
    }

    /** The retry lane's lookup; an empty page with no diagnostic proves the thread left the universe. */
    method LookupId(id: string)
      modifies this
      ensures State() == AmpEnumerate.LookupId(srv, old(State()), id)
      ensures retry == old(retry)
    {
      if id in sink {
        return;
      }
      var before := |sink|;
      var reply := Ask(ById(id));
      if reply.Failed? {
        return;
      }
      var bad := AbsorbRows(reply.rows, 0);
      diags := diags + bad;
      if |sink| == before && bad == 0 {
        gone := gone + {id};
      }
    }

    /** Queues every listed thread the windows should have emitted and did not. */
    method Corroborate(listing: Listing, minTime: Time, committed: map<string, Time>)
      requires retry == {}
      modifies this`retry, this`diags
      ensures retry == Corroborated(listing, sink, minTime, committed)
    {
      if listing.Unlisted? || |listing.rows| >= LIST_CAP {
        diags := diags + 1;
        return;
      }
      var i := 0;
      while i < |listing.rows|
        invariant 0 <= i <= |listing.rows|
        invariant retry == set row | row in listing.rows[..i] && Missed(row, sink, minTime, committed) :: row.id
      {
        var row := listing.rows[i];
        assert listing.rows[..i + 1] == listing.rows[..i] + [row];
        if row.id != "" && row.id !in sink {
          var inSpan := minTime == 0;
          if !inSpan && row.updated.Some? && row.updated.value > minTime {
            inSpan := true;
          }
          if !inSpan {
            inSpan := row.id !in committed || committed[row.id] == 0 || committed[row.id] > minTime;
          }
          if inSpan {
            diags := diags + 1;
            retry := retry + {row.id};
          }
        }
        i := i + 1;
      }
      assert listing.rows[..i] == listing.rows;
    }

    /** Weeks ascending, then the pending ids, then one corroborating list. */
    method Enumerate(from: Time, through: Time, minTime: Time, ids: seq<string>, committed: map<string, Time>)
      returns (e: Enumeration)
      requires State() == FRESH && retry == {}
      modifies this
      ensures e == AmpEnumerate.Enumerate(srv, from, through, minTime, ids, committed)
    {
      var start := from;
      while start < through && err.None?
        invariant ScanWeeks(srv, State(), start, through, minTime) == ScanWeeks(srv, FRESH, from, through, minTime)
        invariant retry == {}
        decreases through - start
      {
        var end := start + WEEK;
        if end > through {
          end := through;
        }
        ScanWindow(start, end, ANY_FACETS, minTime);
        start := end;
      }
      var i := 0;
      while i < |ids| && err.None?
        invariant 0 <= i <= |ids|
        invariant LookupIds(srv, State(), ids[i..]) == Lanes(srv, from, through, minTime, ids)
        invariant retry == {}
      {
        LookupId(ids[i]);
        i := i + 1;
      }
      if err.Some? {
        return if err.value == Spawn && !seen then Absent else Broken(err.value);
      }
      var listing := srv.list(calls);
      if listing == Unlisted(Cancelled) {
        return Broken(Cancelled);
      }
      if !seen && listing == Unlisted(Spawn) {
        return Absent;
      }
      Corroborate(listing, minTime, committed);
      e := Complete(Outcome(sink, dirty, through, gone, retry));
    }
  }
}

/** Discover: enumerate from the stored floor, and write the checkpoint only when the transport answered. */
module AmpCatchUp {
  import opened AmpServer
  import opened Clock
  import opened AmpEnumerate
  import opened AmpCheckpoint
  import opened AmpDiscover

  method InSomeOrder(s: set<string>) returns (ids: seq<string>)
    ensures (set id | id in ids) == s && |ids| == |s|
  {
    ids := [];
    var todo := s;
    while todo != {}
      invariant todo <= s
      invariant forall id :: id in ids <==> id in s && id !in todo
      invariant |ids| + |todo| == |s|
      decreases |todo|
    {
      var id :| id in todo;
      todo := todo - {id};
      ids := ids + [id];
    }
  }

  /** Tomorrow, where an unbounded scan ends. */
  function Tomorrow(clock: Time): (t: Time)
    ensures Midnight(t) && clock < t <= clock + DAY
  {
    UtcDay(clock) + DAY
  }

  /** `start` and `clock` are the two readings of the clock, before and inside the enumeration. */
  method Discover(srv: Server, file: StateFile, start: Time, clock: Time, attributed: bool, committed: map<string, Time>)
    returns (e: Enumeration, ghost ids: seq<string>)
    requires start <= clock
    modifies file
    ensures (set id | id in ids) == old(file.st).pending
    ensures var floor := old(file.st).cleanThrough;
            e == Enumerate(srv, From(floor), Tomorrow(clock), floor, ids, committed)
    ensures file.st == if e.Complete? then Recorded(old(file.st), start, attributed, e.out, old(file.st)) else old(file.st)
    ensures e.Complete? ==> Midnight(e.out.end) && start < e.out.end <= clock + DAY
  {
    var st := file.st;
    var order := InSomeOrder(st.pending);
    ids := order;
    var scanner := new Scanner(srv);
    e := scanner.Enumerate(From(st.cleanThrough), Tomorrow(clock), st.cleanThrough, order, committed);
    if e.Complete? {
      file.RecordScan(start, attributed, e.out, st);
    }
  }
}
