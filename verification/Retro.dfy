/** Work days: a day ends at the cutoff, not at midnight. Days are counted, a clock reads minutes. */
module WorkDay {
  type Day = int

  /** A local reading: the calendar day and the minute of it. */
  datatype Stamp = Stamp(day: Day, minute: nat)

  /** Before the cutoff, it is still the day before. */
  function DayOf(cutoff: nat, t: Stamp): Day {
    if t.minute < cutoff then t.day - 1 else t.day
  }

  /** A work day is the day and night from its cutoff on. */
  lemma WorkDayIsADayLong(cutoff: nat, t: Stamp, d: Day)
    requires cutoff < 1440 && t.minute < 1440
    ensures DayOf(cutoff, t) == d <==> 1440 * d + cutoff <= 1440 * t.day + t.minute < 1440 * (d + 1) + cutoff
  {
  }
}

/** Breadcrumb files, one per calendar day and machine, and the work-day reads over them. */
module Breadcrumbs {
  import opened Wrappers
  import opened WorkDay

  datatype Crumb = Crumb(at: Stamp, slug: Option<string>, machine: string, text: string)

  /** A file's lines in order, None for one that does not parse. */
  datatype File = File(date: Day, machine: string, lines: seq<Option<Crumb>>)

  function Parsed(lines: seq<Option<Crumb>>): seq<Crumb> {
    if lines == [] then []
    else
      var front, l := Parsed(lines[..|lines| - 1]), lines[|lines| - 1];
      if l.Some? then front + [l.value] else front
  }

  /** Every crumb of the files of one date, file by file. */
  function Filed(files: seq<File>, date: Day): seq<Crumb> {
    if files == [] then []
    else
      var front, f := Filed(files[..|files| - 1], date), files[|files| - 1];
      if f.date == date then front + Parsed(f.lines) else front
  }

  /** Every crumb there is. */
  function Every(files: seq<File>): seq<Crumb> {
    if files == [] then [] else Every(files[..|files| - 1]) + Parsed(files[|files| - 1].lines)
  }

  function OfDay(cs: seq<Crumb>, cutoff: nat, day: Day): seq<Crumb> {
    if cs == [] then []
    else
      var front, c := OfDay(cs[..|cs| - 1], cutoff, day), cs[|cs| - 1];
      if DayOf(cutoff, c.at) == day then front + [c] else front
  }

  function ForDay(files: seq<File>, cutoff: nat, day: Day): seq<Crumb> {
    OfDay(Filed(files, day), cutoff, day) + OfDay(Filed(files, day + 1), cutoff, day)
  }

  method ReadBreadcrumbs(files: seq<File>, date: Day) returns (entries: seq<Crumb>)
    ensures entries == Filed(files, date)
  {
    entries := [];
    var k := 0;
    while k < |files|
      invariant 0 <= k <= |files|
      invariant entries == Filed(files[..k], date)
    {
      assert files[..k + 1][..k] == files[..k];
      if files[k].date == date {
        var inFile := ReadFile(files[k].lines);
        entries := entries + inFile;
      }
      k := k + 1;
    }
    assert files[..k] == files;
  }

  method ReadFile(lines: seq<Option<Crumb>>) returns (entries: seq<Crumb>)
    ensures entries == Parsed(lines)
  {
    entries := [];
    var k := 0;
    while k < |lines|
      invariant 0 <= k <= |lines|
      invariant entries == Parsed(lines[..k])
    {
      assert lines[..k + 1][..k] == lines[..k];
      if lines[k].Some? {
        entries := entries + [lines[k].value];
      }
      k := k + 1;
    }
    assert lines[..k] == lines;
  }

  /** The day's own file and the next day's, filtered on the work day. */
  method ReadBreadcrumbsForDay(files: seq<File>, cutoff: nat, day: Day) returns (entries: seq<Crumb>)
    ensures entries == ForDay(files, cutoff, day)
  {
    entries := [];
    var dates := [day, day + 1];
    var n := 0;
    while n < 2
      invariant 0 <= n <= 2
      invariant entries == (if n > 0 then OfDay(Filed(files, day), cutoff, day) else [])
                           + (if n > 1 then OfDay(Filed(files, day + 1), cutoff, day) else [])
    {
      var inFiles := ReadBreadcrumbs(files, dates[n]);
      var kept := KeepDay(inFiles, cutoff, day);
      entries := entries + kept;
      n := n + 1;
    }
  }

  method KeepDay(cs: seq<Crumb>, cutoff: nat, day: Day) returns (kept: seq<Crumb>)
    ensures kept == OfDay(cs, cutoff, day)
  {
    kept := [];
    var k := 0;
    while k < |cs|
      invariant 0 <= k <= |cs|
      invariant kept == OfDay(cs[..k], cutoff, day)
    {
      assert cs[..k + 1][..k] == cs[..k];
      if DayOf(cutoff, cs[k].at) == day {
        kept := kept + [cs[k]];
      }
      k := k + 1;
    }
    assert cs[..k] == cs;
  }

  // ---------- appending ----------

  /** The day's file of a machine, or the number of files. */
  function FileAt(files: seq<File>, date: Day, machine: string): (i: nat)
    ensures i <= |files|
    ensures i < |files| ==> files[i].date == date && files[i].machine == machine
  {
    if files == [] || (files[0].date == date && files[0].machine == machine) then 0
    else 1 + FileAt(files[1..], date, machine)
  }

  function Appended(files: seq<File>, date: Day, c: Crumb): seq<File> {
    var i := FileAt(files, date, c.machine);
    if i < |files| then files[i := files[i].(lines := files[i].lines + [Some(c)])]
    else files + [File(date, c.machine, [Some(c)])]
  }

  /** What the file of a date and machine holds; a missing file holds nothing. */
  function LinesAt(files: seq<File>, date: Day, machine: string): seq<Option<Crumb>> {
    var i := FileAt(files, date, machine);
    if i < |files| then files[i].lines else []
  }

  lemma {:induction false} FileAtFirst(files: seq<File>, date: Day, machine: string)
    ensures forall j :: 0 <= j < FileAt(files, date, machine) ==> files[j].date != date || files[j].machine != machine
  {
    if files != [] && (files[0].date != date || files[0].machine != machine) {
      FileAtFirst(files[1..], date, machine);
    }
  }

  lemma {:induction false} FileAtIs(files: seq<File>, date: Day, machine: string, i: nat)
    requires i <= |files| && (i < |files| ==> files[i].date == date && files[i].machine == machine)
    requires forall j :: 0 <= j < i ==> files[j].date != date || files[j].machine != machine
    ensures FileAt(files, date, machine) == i
  {
    if i > 0 {
      FileAtIs(files[1..], date, machine, i - 1);
    }
  }

  /** An append adds one line to one file, the last, and changes no other. */
  lemma AppendsOneLine(files: seq<File>, localDate: Day, c: Crumb, date: Day, machine: string)
    ensures LinesAt(Appended(files, localDate, c), date, machine) ==
              LinesAt(files, date, machine) + if date == localDate && machine == c.machine then [Some(c)] else []
  {
    var after := Appended(files, localDate, c);
    var i := FileAt(files, date, machine);
    FileAtFirst(files, date, machine);
    if date == localDate && machine == c.machine {
      FileAtIs(after, date, machine, i);
    } else {
      FileAtIs(after, date, machine, if i < |files| then i else |after|);
    }
  }

  class Journal {
    var files: seq<File>

    constructor ()
      ensures files == []
    {
      files := [];
    }

    /** One line to the file of the date the writing machine's clock shows; other files are left alone. */
    method AppendBreadcrumb(localDate: Day, c: Crumb)
      modifies this
      ensures files == Appended(old(files), localDate, c)
      ensures forall date, machine :: LinesAt(files, date, machine) ==
                LinesAt(old(files), date, machine) + if date == localDate && machine == c.machine then [Some(c)] else []
    {
      var i := FileAt(files, localDate, c.machine);
      if i < |files| {
        files := files[i := files[i].(lines := files[i].lines + [Some(c)])];
      } else {
        files := files + [File(localDate, c.machine, [Some(c)])];
      }
      forall date, machine
        ensures LinesAt(files, date, machine) ==
                LinesAt(old(files), date, machine) + if date == localDate && machine == c.machine then [Some(c)] else []
      {
        AppendsOneLine(old(files), localDate, c, date, machine);
      }
    }
  }

  // ---------- the days partition the crumbs ----------

  /** The crumb is in the file of its work day or of the day after. */
  predicate WellFiled(cutoff: nat, date: Day, c: Crumb) {
    date == DayOf(cutoff, c.at) || date == DayOf(cutoff, c.at) + 1
  }

  ghost predicate FileWellFiled(cutoff: nat, f: File) {
    forall k :: 0 <= k < |Parsed(f.lines)| ==> WellFiled(cutoff, f.date, Parsed(f.lines)[k])
  }

  ghost predicate AllWellFiled(files: seq<File>, cutoff: nat) {
    forall i :: 0 <= i < |files| ==> FileWellFiled(cutoff, files[i])
  }

  /** A crumb filed under its own local date is well filed for every cutoff. */
  lemma OwnDateIsWellFiled(cutoff: nat, c: Crumb)
    ensures WellFiled(cutoff, c.at.day, c)
  {
  }

  lemma SetFileKeepsFiling(files: seq<File>, cutoff: nat, i: nat, g: File)
    requires AllWellFiled(files, cutoff) && i < |files| && FileWellFiled(cutoff, g)
    ensures AllWellFiled(files[i := g], cutoff)
  {
  }

  lemma AddFileKeepsFiling(files: seq<File>, cutoff: nat, g: File)
    requires AllWellFiled(files, cutoff) && FileWellFiled(cutoff, g)
    ensures AllWellFiled(files + [g], cutoff)
  {
  }

  /** Appending under the crumb's own local date keeps every crumb where the day reads look for it. */
  lemma AppendKeepsFiling(files: seq<File>, cutoff: nat, c: Crumb)
    requires AllWellFiled(files, cutoff)
    ensures AllWellFiled(Appended(files, c.at.day, c), cutoff)
    ensures multiset(Every(Appended(files, c.at.day, c))) == multiset(Every(files)) + multiset{c}
  {
    var i := FileAt(files, c.at.day, c.machine);
    if i < |files| {
      var g := files[i].(lines := files[i].lines + [Some(c)]);
      LineJoins(files[i], cutoff, c);
      SetFileKeepsFiling(files, cutoff, i, g);
      EveryUpdate(files, i, g, c);
    } else {
      var g := File(c.at.day, c.machine, [Some(c)]);
      LineJoins(File(c.at.day, c.machine, []), cutoff, c);
      assert [] + [Some(c)] == g.lines;
      AddFileKeepsFiling(files, cutoff, g);
      EveryAdd(files, g);
    }
  }

  lemma LineJoins(f: File, cutoff: nat, c: Crumb)
    requires FileWellFiled(cutoff, f) && f.date == c.at.day
    ensures FileWellFiled(cutoff, f.(lines := f.lines + [Some(c)]))
    ensures Parsed(f.lines + [Some(c)]) == Parsed(f.lines) + [c]
  {
    ParsedAppend(f.lines, c);
  }

  lemma EveryAdd(files: seq<File>, f: File)
    ensures Every(files + [f]) == Every(files) + Parsed(f.lines)
  {
    assert (files + [f])[..|files|] == files;
  }

  lemma ParsedAppend(lines: seq<Option<Crumb>>, c: Crumb)
    ensures Parsed(lines + [Some(c)]) == Parsed(lines) + [c]
  {
    assert (lines + [Some(c)])[..|lines|] == lines;
  }

  lemma {:induction false} EveryAppend(a: seq<File>, b: seq<File>)
    ensures Every(a + b) == Every(a) + Every(b)
  {
    if b == [] {
      assert a + b == a;
    } else {
      var front, f := b[..|b| - 1], b[|b| - 1];
      EveryAppend(a, front);
      assert (a + b)[..|a + b| - 1] == a + front && (a + b)[|a + b| - 1] == f;
      assert Every(a) + Every(front) + Parsed(f.lines) == Every(a) + (Every(front) + Parsed(f.lines));
    }
  }

  lemma EveryAround(a: seq<File>, f: File, b: seq<File>)
    ensures Every(a + [f] + b) == Every(a) + Parsed(f.lines) + Every(b)
  {
    EveryAdd(a, f);
    EveryAppend(a + [f], b);
  }

  lemma EveryUpdate(files: seq<File>, i: nat, g: File, c: Crumb)
    requires i < |files| && Parsed(g.lines) == Parsed(files[i].lines) + [c]
    ensures multiset(Every(files[i := g])) == multiset(Every(files)) + multiset{c}
  {
    var a, b := files[..i], files[i + 1..];
    assert files == a + [files[i]] + b && files[i := g] == a + [g] + b;
    EveryAround(a, files[i], b);
    EveryAround(a, g, b);
  }

  lemma {:induction false} OfDayAppend(a: seq<Crumb>, b: seq<Crumb>, cutoff: nat, day: Day)
    ensures OfDay(a + b, cutoff, day) == OfDay(a, cutoff, day) + OfDay(b, cutoff, day)
  {
    if b == [] {
      assert a + b == a;
    } else {
      OfDayAppend(a, b[..|b| - 1], cutoff, day);
      assert (a + b)[..|a + b| - 1] == a + b[..|b| - 1];
    }
  }

  // ---------- which crumbs a day's reads find ----------

  /** The crumbs of a file of one date that are well filed there. */
  function Kept(cs: seq<Crumb>, date: Day, cutoff: nat): seq<Crumb> {
    if cs == [] then []
    else
      var front, c := Kept(cs[..|cs| - 1], date, cutoff), cs[|cs| - 1];
      if WellFiled(cutoff, date, c) then front + [c] else front
  }

  function AllKept(files: seq<File>, cutoff: nat): seq<Crumb> {
    if files == [] then []
    else AllKept(files[..|files| - 1], cutoff) + Kept(Parsed(files[|files| - 1].lines), files[|files| - 1].date, cutoff)
  }

  /** A day looks in the file of its own date and in the next, and finds there exactly its well-filed crumbs. */
  lemma {:induction false} KeptOfDay(cs: seq<Crumb>, date: Day, cutoff: nat, day: Day)
    ensures OfDay(Kept(cs, date, cutoff), cutoff, day) == if date == day || date == day + 1 then OfDay(cs, cutoff, day) else []
  {
    if cs != [] {
      var front, c := cs[..|cs| - 1], cs[|cs| - 1];
      KeptOfDay(front, date, cutoff, day);
      if WellFiled(cutoff, date, c) {
        var kept := Kept(front, date, cutoff) + [c];
        assert kept[..|kept| - 1] == Kept(front, date, cutoff);
      }
    }
  }

  /** The last file adds the well-filed crumbs of the day it holds to the day's read. */
  lemma DayReadGrows(files: seq<File>, cutoff: nat, day: Day)
    requires files != []
    ensures var front, f := files[..|files| - 1], files[|files| - 1];
            multiset(ForDay(files, cutoff, day)) ==
              multiset(ForDay(front, cutoff, day)) + multiset(OfDay(Kept(Parsed(f.lines), f.date, cutoff), cutoff, day))
  {
    var front, f := files[..|files| - 1], files[|files| - 1];
    KeptOfDay(Parsed(f.lines), f.date, cutoff, day);
    if f.date == day {
      OfDayAppend(Filed(front, day), Parsed(f.lines), cutoff, day);
    } else if f.date == day + 1 {
      OfDayAppend(Filed(front, day + 1), Parsed(f.lines), cutoff, day);
    }
  }

  lemma OfDayCounts(a: seq<Crumb>, b: seq<Crumb>, cutoff: nat, day: Day)
    ensures multiset(OfDay(a + b, cutoff, day)) == multiset(OfDay(a, cutoff, day)) + multiset(OfDay(b, cutoff, day))
  {
    OfDayAppend(a, b, cutoff, day);
  }

  /** A work day's read is every well-filed crumb of that day, each as often as it was written, and nothing else. */
  lemma {:induction false} DayReadIsTheWellFiled(files: seq<File>, cutoff: nat, day: Day)
    ensures multiset(ForDay(files, cutoff, day)) == multiset(OfDay(AllKept(files, cutoff), cutoff, day))
  {
    if files != [] {
      var front, f := files[..|files| - 1], files[|files| - 1];
      DayReadIsTheWellFiled(front, cutoff, day);
      OfDayCounts(AllKept(front, cutoff), Kept(Parsed(f.lines), f.date, cutoff), cutoff, day);
      DayReadGrows(files, cutoff, day);
    }
  }

  lemma {:induction false} KeptIsAll(cs: seq<Crumb>, date: Day, cutoff: nat)
    requires forall k :: 0 <= k < |cs| ==> WellFiled(cutoff, date, cs[k])
    ensures Kept(cs, date, cutoff) == cs
  {
    if cs != [] {
      KeptIsAll(cs[..|cs| - 1], date, cutoff);
    }
  }

  lemma {:induction false} AllKeptIsEvery(files: seq<File>, cutoff: nat)
    requires AllWellFiled(files, cutoff)
    ensures AllKept(files, cutoff) == Every(files)
  {
    if files != [] {
      var front, f := files[..|files| - 1], files[|files| - 1];
      assert FileWellFiled(cutoff, files[|files| - 1]);
      forall i | 0 <= i < |front| ensures FileWellFiled(cutoff, front[i]) { assert front[i] == files[i]; }
      AllKeptIsEvery(front, cutoff);
      KeptIsAll(Parsed(f.lines), f.date, cutoff);
    }
  }

  /** When every crumb is well filed, a work day's read is every crumb of that day, wherever it was filed. */
  lemma DayReadIsTheDay(files: seq<File>, cutoff: nat, day: Day)
    requires AllWellFiled(files, cutoff)
    ensures multiset(ForDay(files, cutoff, day)) == multiset(OfDay(Every(files), cutoff, day))
  {
    DayReadIsTheWellFiled(files, cutoff, day);
    AllKeptIsEvery(files, cutoff);
  }

  /** A day keeps no more than there is, and less when crumb k of it is misfiled; k is the number of crumbs when none is named. */
  lemma {:induction false} KeptIsLess(cs: seq<Crumb>, date: Day, cutoff: nat, day: Day, k: nat)
    requires k < |cs| ==> DayOf(cutoff, cs[k].at) == day && !WellFiled(cutoff, date, cs[k])
    ensures |OfDay(Kept(cs, date, cutoff), cutoff, day)| + (if k < |cs| then 1 else 0) <= |OfDay(cs, cutoff, day)|
  {
    if cs != [] {
      var front, c := cs[..|cs| - 1], cs[|cs| - 1];
      KeptIsLess(front, date, cutoff, day, k);
      OfDayLengths(Kept(front, date, cutoff), [c], cutoff, day);
      OfOneDay(c, cutoff, day);
    }
  }

  lemma FileKeepsLess(f: File, cutoff: nat, day: Day, misfiled: bool)
    requires misfiled ==> MisfiledIn(f, cutoff, day)
    ensures var cs := Parsed(f.lines);
            |OfDay(Kept(cs, f.date, cutoff), cutoff, day)| + (if misfiled then 1 else 0) <= |OfDay(cs, cutoff, day)|
  {
    var cs := Parsed(f.lines);
    if misfiled {
      var k :| 0 <= k < |cs| && DayOf(cutoff, cs[k].at) == day && !WellFiled(cutoff, f.date, cs[k]);
      KeptIsLess(cs, f.date, cutoff, day, k);
    } else {
      KeptIsLess(cs, f.date, cutoff, day, |cs|);
    }
  }

  /** The same, file by file, when file i holds a misfiled crumb of the day; for i the number of files, when none is named. */
  lemma {:induction false} AllKeptIsLess(files: seq<File>, cutoff: nat, day: Day, i: nat)
    requires i < |files| ==> MisfiledIn(files[i], cutoff, day)
    ensures |OfDay(AllKept(files, cutoff), cutoff, day)| + (if i < |files| then 1 else 0) <= |OfDay(Every(files), cutoff, day)|
  {
    if files != [] {
      var front, f := files[..|files| - 1], files[|files| - 1];
      AllKeptIsLess(front, cutoff, day, i);
      FileKeepsLess(f, cutoff, day, i == |front|);
      OfDayLengths(AllKept(front, cutoff), Kept(Parsed(f.lines), f.date, cutoff), cutoff, day);
      OfDayLengths(Every(front), Parsed(f.lines), cutoff, day);
    }
  }

  lemma OfDayLengths(a: seq<Crumb>, b: seq<Crumb>, cutoff: nat, day: Day)
    ensures |OfDay(a + b, cutoff, day)| == |OfDay(a, cutoff, day)| + |OfDay(b, cutoff, day)|
  {
    OfDayAppend(a, b, cutoff, day);
  }

  /** The file holds a crumb of that work day that the day's reads do not look for there. */
  ghost predicate MisfiledIn(f: File, cutoff: nat, day: Day) {
    exists k :: 0 <= k < |Parsed(f.lines)| &&
                DayOf(cutoff, Parsed(f.lines)[k].at) == day && !WellFiled(cutoff, f.date, Parsed(f.lines)[k])
  }

  ghost predicate ReadsEveryDay(files: seq<File>, cutoff: nat) {
    forall day :: multiset(ForDay(files, cutoff, day)) == multiset(OfDay(Every(files), cutoff, day))
  }

  /** The reads of the days give every crumb once if and only if every crumb is well filed. */
  lemma DaysReadAllExactly(files: seq<File>, cutoff: nat)
    ensures ReadsEveryDay(files, cutoff) <==> AllWellFiled(files, cutoff)
  {
    if AllWellFiled(files, cutoff) {
      forall day ensures multiset(ForDay(files, cutoff, day)) == multiset(OfDay(Every(files), cutoff, day)) {
        DayReadIsTheDay(files, cutoff, day);
      }
    } else {
      var i :| 0 <= i < |files| && !FileWellFiled(cutoff, files[i]);
      var k :| 0 <= k < |Parsed(files[i].lines)| && !WellFiled(cutoff, files[i].date, Parsed(files[i].lines)[k]);
      var day := DayOf(cutoff, Parsed(files[i].lines)[k].at);
      assert MisfiledIn(files[i], cutoff, day);
      AllKeptIsLess(files, cutoff, day, i);
      DayReadIsTheWellFiled(files, cutoff, day);
      assert |multiset(ForDay(files, cutoff, day))| < |multiset(OfDay(Every(files), cutoff, day))|;
    }
  }

  lemma OfOneDay(c: Crumb, cutoff: nat, day: Day)
    ensures OfDay([c], cutoff, day) == if DayOf(cutoff, c.at) == day then [c] else []
  {
    assert [c][..0] == [];
  }
}

/** The retro document: one window's sessions and breadcrumbs, each in one project's group or in the global list. */
module Retro {
  import opened Wrappers
  import opened WorkDay
  import opened Breadcrumbs

  const UNPROJECTED := "-"

  /** A session as the walk finds it; entry is its readable entry when it is curated. */
  datatype Session = Session(id: string, startedAt: Stamp, project: Option<string>, entry: Option<string>)

  function KeyOf(s: Session): string {
    if s.project == None then UNPROJECTED else s.project.value
  }

  predicate InWindow(cutoff: nat, from: Day, day: Day, t: Stamp) {
    from <= DayOf(cutoff, t) <= day
  }

  function Windowed(ss: seq<Session>, cutoff: nat, from: Day, day: Day): seq<Session> {
    if ss == [] then []
    else
      var front, s := Windowed(ss[..|ss| - 1], cutoff, from, day), ss[|ss| - 1];
      if InWindow(cutoff, from, day, s.startedAt) then front + [s] else front
  }

  function CrumbsIn(cs: seq<Crumb>, cutoff: nat, from: Day, day: Day): seq<Crumb> {
    if cs == [] then []
    else
      var front, c := CrumbsIn(cs[..|cs| - 1], cutoff, from, day), cs[|cs| - 1];
      if InWindow(cutoff, from, day, c.at) then front + [c] else front
  }

  /** The reads of the days from one to another, in day order. */
  function Reads(files: seq<File>, cutoff: nat, from: Day, last: Day): seq<Crumb>
    decreases last - from
  {
    if last < from then [] else Reads(files, cutoff, from, last - 1) + ForDay(files, cutoff, last)
  }

  /** The window keeps the sessions of its days, first and last included, as they came, and no other. */
  lemma {:induction false} WindowedKeeps(a: seq<Session>, b: seq<Session>, cutoff: nat, from: Day, day: Day)
    ensures Windowed(a + b, cutoff, from, day) == Windowed(a, cutoff, from, day) + Windowed(b, cutoff, from, day)
    ensures |b| == 1 ==> Windowed(b, cutoff, from, day) == if from <= DayOf(cutoff, b[0].startedAt) <= day then b else []
  {
    if b == [] {
      assert a + b == a;
    } else {
      WindowedKeeps(a, b[..|b| - 1], cutoff, from, day);
      assert (a + b)[..|a + b| - 1] == a + b[..|b| - 1];
    }
  }

  method WindowSessions(ss: seq<Session>, cutoff: nat, from: Day, day: Day) returns (out: seq<Session>)
    ensures out == Windowed(ss, cutoff, from, day)
  {
    out := [];
    var k := 0;
    while k < |ss|
      invariant 0 <= k <= |ss|
      invariant out == Windowed(ss[..k], cutoff, from, day)
    {
      assert ss[..k + 1][..k] == ss[..k];
      var bucket := DayOf(cutoff, ss[k].startedAt);
      if from <= bucket && bucket <= day {
        out := out + [ss[k]];
      }
      k := k + 1;
    }
    assert ss[..k] == ss;
  }

  /** Reads day after day until the window's end; that it ends at all needs the window to start no later. */
  method GatherBreadcrumbs(files: seq<File>, cutoff: nat, from: Day, day: Day) returns (all: seq<Crumb>)
    requires from <= day
    ensures all == Reads(files, cutoff, from, day)
  {
    all := [];
    var d := from;
    while true
      invariant from <= d <= day
      invariant all == Reads(files, cutoff, from, d - 1)
      decreases day - d
    {
      var entries := ReadBreadcrumbsForDay(files, cutoff, d);
      all := all + entries;
      assert all == Reads(files, cutoff, from, d);
      if d == day {
        return;
      }
      d := d + 1;
    }
  }

  lemma {:induction false} WindowGrows(cs: seq<Crumb>, cutoff: nat, from: Day, last: Day)
    requires from <= last
    ensures multiset(CrumbsIn(cs, cutoff, from, last))
         == multiset(CrumbsIn(cs, cutoff, from, last - 1)) + multiset(OfDay(cs, cutoff, last))
  {
    if cs != [] {
      WindowGrows(cs[..|cs| - 1], cutoff, from, last);
    }
  }

  lemma {:induction false} EmptyWindow(cs: seq<Crumb>, cutoff: nat, from: Day, last: Day)
    requires last < from
    ensures CrumbsIn(cs, cutoff, from, last) == []
  {
    if cs != [] {
      EmptyWindow(cs[..|cs| - 1], cutoff, from, last);
    }
  }

  /** The days of a window, read one by one, give every well-filed crumb of the window once: no day overlaps another. */
  lemma {:induction false} WindowIsPartitioned(files: seq<File>, cutoff: nat, from: Day, last: Day)
    ensures multiset(Reads(files, cutoff, from, last)) == multiset(CrumbsIn(AllKept(files, cutoff), cutoff, from, last))
    decreases last - from
  {
    if last < from {
      EmptyWindow(AllKept(files, cutoff), cutoff, from, last);
    } else {
      WindowIsPartitioned(files, cutoff, from, last - 1);
      DayReadIsTheWellFiled(files, cutoff, last);
      WindowGrows(AllKept(files, cutoff), cutoff, from, last);
    }
  }

  // ---------- groups ----------

  datatype Group = Group(sessions: seq<Session>, entries: seq<(string, string)>, crumbs: seq<Crumb>)
  const NO_GROUP := Group([], [], [])

  function OfKey(ss: seq<Session>, key: string): seq<Session> {
    if ss == [] then []
    else
      var front, s := OfKey(ss[..|ss| - 1], key), ss[|ss| - 1];
      if KeyOf(s) == key then front + [s] else front
  }

  /** The entries of some sessions: those that have a readable one. */
  function EntriesOf(ss: seq<Session>): seq<(string, string)> {
    if ss == [] then []
    else
      var front, s := EntriesOf(ss[..|ss| - 1]), ss[|ss| - 1];
      if s.entry.Some? then front + [(s.id, s.entry.value)] else front
  }

  /** Entries come session by session, one for each that has a readable one. */
  lemma {:induction false} EntriesKeep(a: seq<Session>, b: seq<Session>)
    ensures EntriesOf(a + b) == EntriesOf(a) + EntriesOf(b)
    ensures |b| == 1 ==> EntriesOf(b) == if b[0].entry == None then [] else [(b[0].id, b[0].entry.value)]
  {
    if b == [] {
      assert a + b == a;
    } else {
      EntriesKeep(a, b[..|b| - 1]);
      assert (a + b)[..|a + b| - 1] == a + b[..|b| - 1];
    }
  }

  /** The crumbs under one slug, or, for None, the global ones. */
  function OfSlug(cs: seq<Crumb>, slug: Option<string>): seq<Crumb> {
    if cs == [] then []
    else
      var front, c := OfSlug(cs[..|cs| - 1], slug), cs[|cs| - 1];
      if c.slug == slug then front + [c] else front
  }

  /** The projects that some sessions, and some crumbs, name. */
  function SessionKeys(ss: seq<Session>): set<string> {
    if ss == [] then {} else SessionKeys(ss[..|ss| - 1]) + {KeyOf(ss[|ss| - 1])}
  }

  function Slugs(cs: seq<Crumb>): set<string> {
    if cs == [] then {}
    else
      var front, c := Slugs(cs[..|cs| - 1]), cs[|cs| - 1];
      if c.slug.Some? then front + {c.slug.value} else front
  }

  /** The group holds exactly its project's sessions, entries and crumbs, in order. */
  predicate Exactly(g: Group, ss: seq<Session>, cs: seq<Crumb>, key: string) {
    && g.sessions == OfKey(ss, key)
    && g.entries == EntriesOf(OfKey(ss, key))
    && g.crumbs == OfSlug(cs, Some(key))
  }

  /** What the groups are: one for each project with a session or a crumb, and no other. */
  ghost predicate Groups(byKey: map<string, Group>, ss: seq<Session>, cs: seq<Crumb>) {
    && byKey.Keys == SessionKeys(ss) + Slugs(cs)
    && forall key :: key in byKey ==> Exactly(byKey[key], ss, cs, key)
  }

  lemma {:induction false} NoSessions(ss: seq<Session>, key: string)
    requires key !in SessionKeys(ss)
    ensures OfKey(ss, key) == []
  {
    if ss != [] {
      NoSessions(ss[..|ss| - 1], key);
    }
  }

  lemma {:induction false} NoCrumbs(cs: seq<Crumb>, key: string)
    requires key !in Slugs(cs)
    ensures OfSlug(cs, Some(key)) == []
  {
    if cs != [] {
      NoCrumbs(cs[..|cs| - 1], key);
    }
  }

  lemma OneMoreSession(ss: seq<Session>, s: Session, key: string)
    ensures SessionKeys(ss + [s]) == SessionKeys(ss) + {KeyOf(s)}
    ensures OfKey(ss + [s], key) == if KeyOf(s) == key then OfKey(ss, key) + [s] else OfKey(ss, key)
    ensures EntriesOf(ss + [s]) == if s.entry.Some? then EntriesOf(ss) + [(s.id, s.entry.value)] else EntriesOf(ss)
  {
    assert (ss + [s])[..|ss|] == ss;
  }

  lemma OneMoreCrumb(cs: seq<Crumb>, c: Crumb, key: string)
    ensures Slugs(cs + [c]) == if c.slug.Some? then Slugs(cs) + {c.slug.value} else Slugs(cs)
    ensures OfSlug(cs + [c], Some(key)) ==
              if c.slug == Some(key) then OfSlug(cs, Some(key)) + [c] else OfSlug(cs, Some(key))
  {
    assert (cs + [c])[..|cs|] == cs;
  }

  // ---------- the order of the groups ----------

  /** Byte by byte, a shorter text before any text it begins. */
  predicate Precedes(a: string, b: string) {
    if a == "" || b == "" then a == "" && b != ""
    else a[0] < b[0] || (a[0] == b[0] && Precedes(a[1..], b[1..]))
  }

  lemma {:induction false} PrecedesTransitive(a: string, b: string, c: string)
    requires Precedes(a, b) && Precedes(b, c)
    ensures Precedes(a, c)
  {
    if a != "" && a[0] == b[0] == c[0] {
      PrecedesTransitive(a[1..], b[1..], c[1..]);
    }
  }

  /** Of two different texts exactly one precedes the other. */
  lemma {:induction false} PrecedesOneWay(a: string, b: string)
    ensures a != b <==> Precedes(a, b) || Precedes(b, a)
    ensures !(Precedes(a, b) && Precedes(b, a))
  {
    if a != "" && b != "" {
      PrecedesOneWay(a[1..], b[1..]);
      assert a == [a[0]] + a[1..] && b == [b[0]] + b[1..];
    }
  }

  ghost predicate Ascending(keys: seq<string>) {
    forall i, j :: 0 <= i < j < |keys| ==> Precedes(keys[i], keys[j])
  }

  function InsertKey(keys: seq<string>, key: string): seq<string> {
    if keys == [] || Precedes(key, keys[0]) then [key] + keys else [keys[0]] + InsertKey(keys[1..], key)
  }

  lemma {:induction false} InsertKeyHolds(keys: seq<string>, key: string)
    ensures forall k :: k in InsertKey(keys, key) <==> k in keys || k == key
    decreases |keys|
  {
    if keys != [] && !Precedes(key, keys[0]) {
      InsertKeyHolds(keys[1..], key);
      assert keys == [keys[0]] + keys[1..];
    }
  }

  lemma {:induction false} InsertKeyAscends(keys: seq<string>, key: string)
    requires Ascending(keys) && key !in keys
    ensures Ascending(InsertKey(keys, key))
    decreases |keys|
  {
    var all := InsertKey(keys, key);
    if keys != [] {
      var rest := all[1..];
      if Precedes(key, keys[0]) {
        assert rest == keys;
      } else {
        InsertKeyAscends(keys[1..], key);
        InsertKeyHolds(keys[1..], key);
        assert rest == InsertKey(keys[1..], key);
      }
      forall j | 0 <= j < |rest| ensures Precedes(all[0], rest[j]) {
        FirstPrecedes(keys, key, rest[j]);
      }
      assert forall j :: 0 < j < |all| ==> all[j] == rest[j - 1];
    }
  }

  lemma FirstPrecedes(keys: seq<string>, key: string, other: string)
    requires Ascending(keys) && key !in keys && keys != []
    requires other in (if Precedes(key, keys[0]) then keys else keys[1..] + [key])
    ensures Precedes(if Precedes(key, keys[0]) then key else keys[0], other)
  {
    PrecedesOneWay(key, keys[0]);
    if Precedes(key, keys[0]) && other != keys[0] {
      PrecedesTransitive(key, keys[0], other);
    }
  }

  lemma FirstIsLeast(keys: seq<string>, key: string)
    requires Ascending(keys) && key in keys
    ensures key == keys[0] <==> key !in keys[1..]
    ensures key != keys[0] ==> Precedes(keys[0], key)
  {
    PrecedesOneWay(key, key);
    assert keys == [keys[0]] + keys[1..];
    if key in keys[1..] {
      var j :| 0 <= j < |keys[1..]| && keys[1..][j] == key;
      assert Precedes(keys[0], keys[j + 1]);
    }
  }

  lemma SameEmpty(a: seq<string>, b: seq<string>)
    requires forall k :: k in a <==> k in b
    ensures a == [] <==> b == []
  {
    assert a != [] ==> a[0] in a;
    assert b != [] ==> b[0] in b;
  }

  /** There is only one ascending order of the same keys. */
  lemma {:induction false} AscendingIsUnique(a: seq<string>, b: seq<string>)
    requires Ascending(a) && Ascending(b) && forall k :: k in a <==> k in b
    ensures a == b
    decreases |a|
  {
    if a == [] {
      SameEmpty(a, b);
    } else {
      assert a[0] in a && a[0] in b;
      assert b[0] in b && b[0] in a;
      FirstIsLeast(a, b[0]);
      FirstIsLeast(b, a[0]);
      PrecedesOneWay(a[0], b[0]);
      forall k ensures k in a[1..] <==> k in b[1..] {
        assert a == [a[0]] + a[1..] && b == [b[0]] + b[1..];
        if k in a {
          FirstIsLeast(a, k);
          FirstIsLeast(b, k);
        }
      }
      AscendingIsUnique(a[1..], b[1..]);
      assert a == [a[0]] + a[1..] && b == [b[0]] + b[1..];
    }
  }

  function Heads(groups: seq<(string, Group)>): seq<string> {
    seq(|groups|, i requires 0 <= i < |groups| => groups[i].0)
  }

  /** The groups in ascending order of their slugs, each once: the very groups of the map. */
  ghost predicate Listed(groups: seq<(string, Group)>, byKey: map<string, Group>) {
    && Ascending(Heads(groups))
    && (forall key :: key in Heads(groups) <==> key in byKey)
    && (forall i :: 0 <= i < |groups| ==> groups[i].0 in byKey && groups[i].1 == byKey[groups[i].0])
  }

  /** Whatever order the map gives its keys in, the sorted list is the one ascending list. */
  method InKeyOrder(byKey: map<string, Group>) returns (groups: seq<(string, Group)>)
    ensures Listed(groups, byKey)
  {
    var keys: seq<string> := [];
    var todo := byKey.Keys;
    while todo != {}
      invariant todo <= byKey.Keys && Ascending(keys)
      invariant forall key :: key in keys <==> key in byKey && key !in todo
      decreases |todo|
    {
      var key :| key in todo;
      todo := todo - {key};
      InsertKeyHolds(keys, key);
      InsertKeyAscends(keys, key);
      keys := InsertKey(keys, key);
    }
    groups := [];
    var i := 0;
    while i < |keys|
      invariant 0 <= i <= |keys| && Heads(groups) == keys[..i]
      invariant forall k :: 0 <= k < i ==> groups[k] == (keys[k], byKey[keys[k]])
    {
      groups := groups + [(keys[i], byKey[keys[i]])];
      i := i + 1;
    }
    assert Heads(groups) == keys;
  }

  /** Sessions in start order, then crumbs in time order, each added to its project's group; then the groups by slug. */
  method BuildGroups(ss: seq<Session>, cs: seq<Crumb>) returns (groups: seq<(string, Group)>, ghost byKey: map<string, Group>)
    ensures Groups(byKey, ss, cs) && Listed(groups, byKey)
  {
    var built := AddSessions(ss);
    built := AddCrumbs(ss, cs, built);
    groups := InKeyOrder(built);
    byKey := built;
  }

  method AddSessions(ss: seq<Session>) returns (byKey: map<string, Group>)
    ensures Groups(byKey, ss, [])
  {
    byKey := map[];
    var k := 0;
    assert ss[..k] == [] && Groups(byKey, [], []);
    while k < |ss|
      invariant 0 <= k <= |ss|
      invariant Groups(byKey, ss[..k], [])
    {
      byKey := AddSession(byKey, ss[k], ss[..k], ss[..k + 1]);
      k := k + 1;
    }
    assert ss[..k] == ss;
  }

  method AddSession(groups: map<string, Group>, s: Session, ghost done: seq<Session>, ghost now: seq<Session>)
    returns (byKey: map<string, Group>)
    requires Groups(groups, done, []) && now == done + [s]
    ensures Groups(byKey, now, [])
  {
    var key := KeyOf(s);
    var g := if key in groups then groups[key] else NO_GROUP;
    if key !in groups {
      NothingFits(done, [], key);
    }
    ghost var was := g;
    assert Exactly(was, done, [], key);
    if s.entry.Some? {
      g := g.(entries := g.entries + [(s.id, s.entry.value)]);
    }
    g := g.(sessions := g.sessions + [s]);
    SessionFits(was, g, done, s);
    GroupReplaced(groups, g, done, s);
    byKey := groups[key := g];
  }

  lemma GroupReplaced(groups: map<string, Group>, g: Group, done: seq<Session>, s: Session)
    requires Groups(groups, done, []) && Exactly(g, done + [s], [], KeyOf(s))
    ensures Groups(groups[KeyOf(s) := g], done + [s], [])
  {
    var byKey := groups[KeyOf(s) := g];
    OneMoreSession(done, s, KeyOf(s));
    assert byKey.Keys == groups.Keys + {KeyOf(s)};
    forall k | k in byKey ensures Exactly(byKey[k], done + [s], [], k) {
      if k != KeyOf(s) {
        StaysExact(groups[k], done, s, k);
      }
    }
  }

  lemma StaysExact(g: Group, done: seq<Session>, s: Session, key: string)
    requires Exactly(g, done, [], key) && KeyOf(s) != key
    ensures Exactly(g, done + [s], [], key)
  {
    OneMoreSession(done, s, key);
  }

  lemma NothingFits(ss: seq<Session>, cs: seq<Crumb>, key: string)
    requires key !in SessionKeys(ss) + Slugs(cs)
    ensures Exactly(NO_GROUP, ss, cs, key)
  {
    NoSessions(ss, key);
    NoCrumbs(cs, key);
  }

  lemma SessionFits(was: Group, now: Group, done: seq<Session>, s: Session)
    requires Exactly(was, done, [], KeyOf(s))
    requires now.sessions == was.sessions + [s] && now.crumbs == was.crumbs
    requires now.entries == if s.entry.Some? then was.entries + [(s.id, s.entry.value)] else was.entries
    ensures Exactly(now, done + [s], [], KeyOf(s))
  {
    OneMoreSession(done, s, KeyOf(s));
    OneMoreSession(OfKey(done, KeyOf(s)), s, KeyOf(s));
  }

  method AddCrumbs(ss: seq<Session>, cs: seq<Crumb>, start: map<string, Group>) returns (byKey: map<string, Group>)
    requires Groups(start, ss, [])
    ensures Groups(byKey, ss, cs)
  {
    byKey := start;
    var k := 0;
    while k < |cs|
      invariant 0 <= k <= |cs|
      invariant Groups(byKey, ss, cs[..k])
    {
      byKey := AddCrumb(byKey, cs[k], ss, cs[..k]);
      assert cs[..k + 1] == cs[..k] + [cs[k]];
      k := k + 1;
    }
    assert cs[..k] == cs;
  }

  /** A crumb with no slug joins no group. */
  method AddCrumb(groups: map<string, Group>, c: Crumb, ghost ss: seq<Session>, ghost done: seq<Crumb>)
    returns (byKey: map<string, Group>)
    requires Groups(groups, ss, done)
    ensures Groups(byKey, ss, done + [c])
  {
    byKey := groups;
    if c.slug.Some? {
      var key := c.slug.value;
      var g := if key in groups then groups[key] else NO_GROUP;
      if key !in groups {
        NothingFits(ss, done, key);
      }
      byKey := groups[key := g.(crumbs := g.crumbs + [c])];
    }
    forall k | k in byKey ensures Exactly(byKey[k], ss, done + [c], k) {
      OneMoreCrumb(done, c, k);
    }
    OneMoreCrumb(done, c, "");
  }

  /** The crumbs that name no project. */
  method GlobalBreadcrumbs(cs: seq<Crumb>) returns (out: seq<Crumb>)
    ensures out == OfSlug(cs, None)
  {
    out := [];
    var k := 0;
    while k < |cs|
      invariant 0 <= k <= |cs|
      invariant out == OfSlug(cs[..k], None)
    {
      assert cs[..k + 1][..k] == cs[..k];
      if cs[k].slug == None {
        out := out + [cs[k]];
      }
      k := k + 1;
    }
    assert cs[..k] == cs;
  }

  // ---------- nothing is dropped and nothing is shown twice ----------

  lemma {:induction false} SessionCount(ss: seq<Session>, key: string, s: Session)
    ensures multiset(OfKey(ss, key))[s] == if KeyOf(s) == key then multiset(ss)[s] else 0
  {
    if ss != [] {
      SessionCount(ss[..|ss| - 1], key, s);
      assert ss == ss[..|ss| - 1] + [ss[|ss| - 1]];
    }
  }

  lemma {:induction false} CrumbCount(cs: seq<Crumb>, slug: Option<string>, c: Crumb)
    ensures multiset(OfSlug(cs, slug))[c] == if c.slug == slug then multiset(cs)[c] else 0
  {
    if cs != [] {
      CrumbCount(cs[..|cs| - 1], slug, c);
      assert cs == cs[..|cs| - 1] + [cs[|cs| - 1]];
    }
  }

  /**
   Every session of the window is in its own project's group, as often as it was found, and in no other; every
   crumb is in its slug's group and nowhere else, or, with no slug, in the global list alone.
   */
  lemma EachInOnePlace(byKey: map<string, Group>, ss: seq<Session>, cs: seq<Crumb>)
    requires Groups(byKey, ss, cs)
    ensures forall s :: s in ss ==> KeyOf(s) in byKey
    ensures forall c :: c in cs && c.slug.Some? ==> c.slug.value in byKey
    ensures forall s, key :: key in byKey ==> SessionPlaced(byKey, ss, s, key)
    ensures forall c, key :: key in byKey ==> CrumbPlaced(byKey, cs, c, key)
    ensures forall c :: multiset(OfSlug(cs, None))[c] == if c.slug == None then multiset(cs)[c] else 0
  {
    KeysCover(ss, cs);
    forall s, key | key in byKey ensures SessionPlaced(byKey, ss, s, key) {
      SessionCount(ss, key, s);
    }
    forall c, key | key in byKey ensures CrumbPlaced(byKey, cs, c, key) {
      CrumbCount(cs, Some(key), c);
    }
    forall c ensures multiset(OfSlug(cs, None))[c] == if c.slug == None then multiset(cs)[c] else 0 {
      CrumbCount(cs, None, c);
    }
  }

  /** A group lists a session as often as it was found when the session is its project's, and never otherwise. */
  ghost predicate SessionPlaced(byKey: map<string, Group>, ss: seq<Session>, s: Session, key: string)
    requires key in byKey
  {
    multiset(byKey[key].sessions)[s] == if KeyOf(s) == key then multiset(ss)[s] else 0
  }

  ghost predicate CrumbPlaced(byKey: map<string, Group>, cs: seq<Crumb>, c: Crumb, key: string)
    requires key in byKey
  {
    multiset(byKey[key].crumbs)[c] == if c.slug == Some(key) then multiset(cs)[c] else 0
  }

  lemma {:induction false} SessionNamed(ss: seq<Session>, i: nat)
    requires i < |ss|
    ensures KeyOf(ss[i]) in SessionKeys(ss)
  {
    if i < |ss| - 1 {
      SessionNamed(ss[..|ss| - 1], i);
    }
  }

  lemma {:induction false} CrumbNamed(cs: seq<Crumb>, i: nat)
    requires i < |cs| && cs[i].slug.Some?
    ensures cs[i].slug.value in Slugs(cs)
  {
    if i < |cs| - 1 {
      CrumbNamed(cs[..|cs| - 1], i);
    }
  }

  lemma KeysCover(ss: seq<Session>, cs: seq<Crumb>)
    ensures forall s :: s in ss ==> KeyOf(s) in SessionKeys(ss)
    ensures forall c :: c in cs && c.slug.Some? ==> c.slug.value in Slugs(cs)
  {
    forall s | s in ss ensures KeyOf(s) in SessionKeys(ss) {
      var i :| 0 <= i < |ss| && ss[i] == s;
      SessionNamed(ss, i);
    }
    forall c | c in cs && c.slug.Some? ensures c.slug.value in Slugs(cs) {
      var i :| 0 <= i < |cs| && cs[i] == c;
      CrumbNamed(cs, i);
    }
  }

  // ---------- in time order ----------

  /** A stable sort: each element goes after every earlier one that is not later in time. */
  function Inserted<T>(xs: seq<T>, x: T, at: T -> int): seq<T> {
    if xs == [] || at(xs[|xs| - 1]) <= at(x) then xs + [x] else Inserted(xs[..|xs| - 1], x, at) + [xs[|xs| - 1]]
  }

  function Sorted<T>(xs: seq<T>, at: T -> int): seq<T> {
    if xs == [] then [] else Inserted(Sorted(xs[..|xs| - 1], at), xs[|xs| - 1], at)
  }

  ghost predicate InOrder<T>(xs: seq<T>, at: T -> int) {
    forall i, j :: 0 <= i < j < |xs| ==> at(xs[i]) <= at(xs[j])
  }

  lemma {:induction false} InsertedKeeps<T>(xs: seq<T>, x: T, at: T -> int)
    requires InOrder(xs, at)
    ensures multiset(Inserted(xs, x, at)) == multiset(xs) + multiset{x}
    ensures InOrder(Inserted(xs, x, at), at)
    ensures forall y :: y in Inserted(xs, x, at) ==> y in xs || y == x
  {
    if xs != [] && at(xs[|xs| - 1]) > at(x) {
      var front, last := xs[..|xs| - 1], xs[|xs| - 1];
      InsertedKeeps(front, x, at);
      assert xs == front + [last];
      var all := Inserted(xs, x, at);
      forall i, j | 0 <= i < j < |all| ensures at(all[i]) <= at(all[j]) {
        if j == |all| - 1 {
          assert all[i] in Inserted(front, x, at);
        }
      }
    }
  }

  /** The elements at one instant, as they stand. */
  function AtOnly<T>(xs: seq<T>, at: T -> int, v: int): seq<T> {
    if xs == [] then []
    else
      var front, x := AtOnly(xs[..|xs| - 1], at, v), xs[|xs| - 1];
      if at(x) == v then front + [x] else front
  }

  lemma AtOnlyAdd<T>(xs: seq<T>, x: T, at: T -> int, v: int)
    ensures AtOnly(xs + [x], at, v) == AtOnly(xs, at, v) + if at(x) == v then [x] else []
  {
    assert (xs + [x])[..|xs|] == xs;
  }

  lemma {:induction false} InsertedIsStable<T>(xs: seq<T>, x: T, at: T -> int, v: int)
    ensures AtOnly(Inserted(xs, x, at), at, v) == AtOnly(xs, at, v) + if at(x) == v then [x] else []
  {
    if xs == [] || at(xs[|xs| - 1]) <= at(x) {
      AtOnlyAdd(xs, x, at, v);
    } else {
      var front, last := xs[..|xs| - 1], xs[|xs| - 1];
      InsertedIsStable(front, x, at, v);
      AtOnlyAdd(Inserted(front, x, at), last, at, v);
    }
  }

  /** Elements at one instant keep the order they came in. */
  lemma {:induction false} SortedIsStable<T>(xs: seq<T>, at: T -> int, v: int)
    ensures AtOnly(Sorted(xs, at), at, v) == AtOnly(xs, at, v)
  {
    if xs != [] {
      SortedIsStable(xs[..|xs| - 1], at, v);
      InsertedIsStable(Sorted(xs[..|xs| - 1], at), xs[|xs| - 1], at, v);
    }
  }

  lemma {:induction false} SortedReorders<T>(xs: seq<T>, at: T -> int)
    ensures multiset(Sorted(xs, at)) == multiset(xs) && InOrder(Sorted(xs, at), at)
  {
    if xs != [] {
      var front, x := xs[..|xs| - 1], xs[|xs| - 1];
      SortedReorders(front, at);
      InsertedKeeps(Sorted(front, at), x, at);
      assert multiset(xs) == multiset(front) + multiset{x} by { assert xs == front + [x]; }
    }
  }

  /** A stable rearrangement into time order. */
  ghost predicate StablySorted<T>(xs: seq<T>, ys: seq<T>, at: T -> int) {
    multiset(ys) == multiset(xs) && InOrder(ys, at) && forall v :: AtOnly(ys, at, v) == AtOnly(xs, at, v)
  }

  /** The sort reorders and loses nothing, and leaves the elements of one instant in the order they came in. */
  lemma SortedKeeps<T>(xs: seq<T>, at: T -> int)
    ensures StablySorted(xs, Sorted(xs, at), at)
  {
    SortedReorders(xs, at);
    forall v ensures AtOnly(Sorted(xs, at), at, v) == AtOnly(xs, at, v) {
      SortedIsStable(xs, at, v);
    }
  }

  /** The whole document: what is in the window, in time order and, at one instant, as it came, in groups and global list. */
  method Run(ss: seq<Session>, files: seq<File>, cutoff: nat, from: Day, day: Day, instant: Stamp -> int)
    returns (groups: seq<(string, Group)>, global: seq<Crumb>,
             ghost byKey: map<string, Group>, ghost windowed: seq<Session>, ghost crumbs: seq<Crumb>)
    requires from <= day
    ensures StablySorted(Windowed(ss, cutoff, from, day), windowed, (s: Session) => instant(s.startedAt))
    ensures StablySorted(Reads(files, cutoff, from, day), crumbs, (c: Crumb) => instant(c.at))
    ensures multiset(crumbs) == multiset(CrumbsIn(AllKept(files, cutoff), cutoff, from, day))
    ensures Groups(byKey, windowed, crumbs) && Listed(groups, byKey)
    ensures StablySorted(OfSlug(Reads(files, cutoff, from, day), None), global, (c: Crumb) => instant(c.at))
    ensures multiset(global) == multiset(OfSlug(crumbs, None))
  {
    var inWindow := WindowSessions(ss, cutoff, from, day);
    var all := GatherBreadcrumbs(files, cutoff, from, day);
    WindowIsPartitioned(files, cutoff, from, day);
    var began, dropped := (s: Session) => instant(s.startedAt), (c: Crumb) => instant(c.at);
    SortedKeeps(inWindow, began);
    SortedKeeps(all, dropped);
    groups, byKey := BuildGroups(Sorted(inWindow, began), Sorted(all, dropped));
    var unsorted := GlobalBreadcrumbs(all);
    SortedKeeps(unsorted, dropped);
    global := Sorted(unsorted, dropped);
    windowed, crumbs := Sorted(inWindow, began), Sorted(all, dropped);
    SameGlobals(all, crumbs);
  }

  lemma SameGlobals(a: seq<Crumb>, b: seq<Crumb>)
    requires multiset(a) == multiset(b)
    ensures multiset(OfSlug(a, None)) == multiset(OfSlug(b, None))
  {
    forall c ensures multiset(OfSlug(a, None))[c] == multiset(OfSlug(b, None))[c] {
      CrumbCount(a, None, c);
      CrumbCount(b, None, c);
    }
  }
}
