/**
 The windowed enumeration, as functions over the server's replies: weeks, then days,
 then the archived and pinned facets of a day whose page came back full.
 */
module AmpEnumerate {
  import opened Wrappers
  import opened AmpServer
  import opened Clock

  /**
   The enumeration's state: calls made, the threads found at their freshest stamp, the earliest
   window start a diagnostic broke (0 = none), the number of diagnostics, the pending ids proven
   gone, whether the binary ever resolved, and the failure that ended the scan.
   */
  datatype Scan = Scan(calls: nat, sink: map<string, Time>, dirty: Time, diags: nat,
                       gone: set<string>, seen: bool, err: Option<Failure>)

  const FRESH := Scan(0, map[], 0, 0, {}, false, None)

  function AbsorbRow(sink: map<string, Time>, row: Row, minTime: Time): map<string, Time> {
    if !Readable(row) then sink
    else
      var t := row.updatedAt.value;
      if minTime != 0 && t <= minTime then sink
      else if row.id in sink && t <= sink[row.id] then sink
      else sink[row.id := t]
  }

  function Absorb(sink: map<string, Time>, rows: seq<Row>, minTime: Time): map<string, Time> {
    if rows == [] then sink
    else AbsorbRow(Absorb(sink, rows[..|rows| - 1], minTime), rows[|rows| - 1], minTime)
  }

  function Unreadable(rows: seq<Row>): nat {
    if rows == [] then 0
    else Unreadable(rows[..|rows| - 1]) + if Readable(rows[|rows| - 1]) then 0 else 1
  }

  function MarkDirty(dirty: Time, d: Time): Time {
    if dirty == 0 || d < dirty then d else dirty
  }

  /** Absorb a final page; diagnosed rows or a page at the cap leave the window dirty. */
  function TakePage(s: Scan, after: Time, rows: seq<Row>, minTime: Time, atCap: bool): Scan {
    var diags := Unreadable(rows) + if atCap then 1 else 0;
    s.(sink := Absorb(s.sink, rows, minTime),
       diags := s.diags + diags,
       dirty := if diags > 0 then MarkDirty(s.dirty, after) else s.dirty)
  }

  function Answered(s: Scan): Scan {
    s.(calls := s.calls + 1, seen := true)
  }

  function Fail(s: Scan, why: Failure): Scan {
    s.(calls := s.calls + 1, seen := s.seen || why != Spawn, err := Some(why))
  }

  function Unasked(p: Facets): nat {
    (if p.archived.None? then 1 else 0) + (if p.pinned.None? then 1 else 0)
  }

  function ScanWindow(srv: Server, s: Scan, after: Time, before: Time, p: Facets, minTime: Time): Scan
    decreases if before - after > DAY then 4 else Unasked(p), 0
  {
    match srv.search(s.calls, Windowed(after, before, p))
    case Failed(why) => Fail(s, why)
    case Page(rows) =>
      var asked := Answered(s);
      if |rows| < PAGE_CAP then TakePage(asked, after, rows, minTime, false)
      else if before - after > DAY then ScanDays(srv, asked, after, before, p, minTime)
      else if p.archived.None? then
        var a := ScanWindow(srv, asked, after, before, p.(archived := Some(false)), minTime);
        if a.err.Some? then a
        else ScanWindow(srv, a, after, before, p.(archived := Some(true)), minTime)
      else if p.pinned.None? then
        var a := ScanWindow(srv, asked, after, before, p.(pinned := Some(false)), minTime);
        if a.err.Some? then a
        else ScanWindow(srv, a, after, before, p.(pinned := Some(true)), minTime)
      else TakePage(asked, after, rows, minTime, true)
  }

  function ScanDays(srv: Server, s: Scan, d: Time, before: Time, p: Facets, minTime: Time): Scan
    decreases 3, before - d
  {
    if d >= before || s.err.Some? then s
    else
      var next := if d + DAY > before then before else d + DAY;
      ScanDays(srv, ScanWindow(srv, s, d, next, p, minTime), next, before, p, minTime)
  }

  function ScanWeeks(srv: Server, s: Scan, start: Time, through: Time, minTime: Time): Scan
    decreases through - start
  {
    if start >= through || s.err.Some? then s
    else
      var end := if start + WEEK > through then through else start + WEEK;
      ScanWeeks(srv, ScanWindow(srv, s, start, end, ANY_FACETS, minTime), end, through, minTime)
  }

  /** One id: lookup of the pending lane; an empty, undiagnosed page proves the thread gone. */
  function LookupId(srv: Server, s: Scan, id: string): Scan {
    if id in s.sink then s
    else
      match srv.search(s.calls, ById(id))
      case Failed(why) => Fail(s, why)
      case Page(rows) =>
        var sink := Absorb(s.sink, rows, 0);
        var bad := Unreadable(rows);
        Answered(s).(sink := sink, diags := s.diags + bad,
                     gone := if |sink| == |s.sink| && bad == 0 then s.gone + {id} else s.gone)
  }

  function LookupIds(srv: Server, s: Scan, ids: seq<string>): Scan
    decreases |ids|
  {
    if ids == [] || s.err.Some? then s
    else LookupIds(srv, LookupId(srv, s, ids[0]), ids[1..])
  }

  /** A listed thread the windows did not emit is a gap unless its span lies wholly at or below the floor. */
  predicate InSpan(row: ListRow, minTime: Time, committed: map<string, Time>) {
    || minTime == 0
    || (row.updated.Some? && row.updated.value > minTime)
    || row.id !in committed || committed[row.id] == 0 || committed[row.id] > minTime
  }

  predicate Missed(row: ListRow, sink: map<string, Time>, minTime: Time, committed: map<string, Time>) {
    row.id != "" && row.id !in sink && InSpan(row, minTime, committed)
  }

  /** The ids corroboration queues: listed, not emitted, in span. */
  function Corroborated(listing: Listing, sink: map<string, Time>, minTime: Time, committed: map<string, Time>): set<string> {
    if listing.Unlisted? || |listing.rows| >= LIST_CAP then {}
    else set row | row in listing.rows && Missed(row, sink, minTime, committed) :: row.id
  }

  /** What one enumeration hands the checkpoint writer. */
  datatype Outcome = Outcome(found: map<string, Time>, dirty: Time, end: Time, gone: set<string>, retry: set<string>)

  datatype Enumeration =
    | Absent                  // the binary never resolved: quiet, nothing is written
    | Broken(why: Failure)
    | Complete(out: Outcome)

  /** Windows over [from, through), then the pending lane: everything before corroboration. */
  function Lanes(srv: Server, from: Time, through: Time, minTime: Time, ids: seq<string>): Scan {
    LookupIds(srv, ScanWeeks(srv, FRESH, from, through, minTime), ids)
  }

  function Enumerate(srv: Server, from: Time, through: Time, minTime: Time, ids: seq<string>,
                     committed: map<string, Time>): Enumeration
  {
    var s := Lanes(srv, from, through, minTime, ids);
    if s.err.Some? then
      if s.err.value == Spawn && !s.seen then Absent else Broken(s.err.value)
    else
      var listing := srv.list(s.calls);
      if listing == Unlisted(Cancelled) then Broken(Cancelled)
      else if !s.seen && listing == Unlisted(Spawn) then Absent
      else Complete(Outcome(s.sink, s.dirty, through, s.gone, Corroborated(listing, s.sink, minTime, committed)))
  }
}
