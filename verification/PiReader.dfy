/** Pi's capture facts and pi's offline reader, which never meet, and the proof that they count one conversation. */
module PiReader {
  import opened Wrappers
  import opened Clock
  import opened Journal
  import opened Lines
  import opened ParentWalk
  import opened PiEntries
  import opened PiScan
  import FileTail

  // ---------- capture ----------

  function Recs(es: seq<Named>): map<string, Rec> {
    var last := LastOf(es);
    map id | id in last :: RecOf(last[id])
  }

  /** The scan's state holds exactly what the counts need of these entries. */
  ghost predicate Indexes(st: State, es: seq<Named>) {
    && st.byID == Recs(es)
    && st.leaf == (if es == [] then None else Some(Leaf(es)))
    && st.whole == TallyOf(es)
  }

  lemma RecsGrow(es: seq<Named>, e: Named)
    ensures Recs(es + [e]) == Recs(es)[e.id.value := RecOf(e)]
  {
    assert (es + [e])[..|es|] == es;
    assert LastOf(es + [e]) == LastOf(es)[e.id.value := e];
  }

  lemma EnteredIndexes(st: State, es: seq<Named>, e: Named)
    requires Indexes(st, es)
    ensures Indexes(Entered(st, e), es + [e])
  {
    RecsGrow(es, e);
    TallyAppend(es, e);
  }

  lemma HandledIndexes(syn: Syntax, st: State, es: seq<Named>, lineNo: nat, line: seq<Byte>, terminated: bool)
    requires Lawful(syn) && Indexes(st, es)
    ensures var e := EntryOf(syn, line);
            Indexes(Handled(syn, st, lineNo, line, terminated), if e.Some? then es + [e.value] else es)
  {
    assert syn.decode(line + [RETURN]) == syn.decode(line);
    var e := EntryOf(syn, line);
    if e.Some? {
      EnteredIndexes(st, es, e.value);
    }
  }

  lemma {:induction false} FoldedIndexes(syn: Syntax, lines: seq<seq<Byte>>)
    requires Lawful(syn)
    ensures Indexes(Folded(syn, lines), Entries(syn, lines))
  {
    if |lines| > 1 {
      var front := lines[..|lines| - 1];
      FoldedIndexes(syn, front);
      HandledIndexes(syn, Folded(syn, front), Entries(syn, front), |lines|, lines[|lines| - 1], true);
    }
  }

  /** A torn tail that is no entry to the reader is none to the capture, and the other way round. */
  lemma FinalIndexes(syn: Syntax, s: seq<Byte>)
    requires Lawful(syn)
    ensures Indexes(Final(syn, s), Entries(syn, All(s)))
  {
    FoldedIndexes(syn, Complete(s));
    if Tail(s) != [] && Complete(s) != [] {
      assert All(s)[..|All(s)| - 1] == Complete(s);
      HandledIndexes(syn, Folded(syn, Complete(s)), Entries(syn, Complete(s)), |Complete(s)| + 1, Tail(s), false);
    }
  }

  /** The counts of the leaf path, or of the whole file where the path is broken. */
  method Result(st: State, ghost es: seq<Named>) returns (facts: Tally, brokenAt: string)
    requires Indexes(st, es)
    ensures facts == TallyOf(Conversation(es))
    ensures brokenAt == if es != [] && LeafWalk(es).Broken? then LeafWalk(es).at else ""
  {
    if st.leaf == None {
      return Tally(0, 0, false), "";
    }
    var links := map id | id in st.byID :: st.byID[id].parent;
    assert links == LinksOf(es);
    var path, broken := WalkLeaf(st.leaf.value, links);
    brokenAt := broken;
    WalkIsTheChain(links, Leaf(es));
    if broken != "" {
      return st.whole, broken;
    }
    facts := PathCounts(st.byID, path, LastOf(es));
  }

  /** The loop of Result, leaf first. */
  method PathCounts(byID: map<string, Rec>, path: seq<string>, ghost last: map<string, Named>) returns (facts: Tally)
    requires forall i :: 0 <= i < |path| ==> path[i] in last
    requires byID == map id | id in last :: RecOf(last[id])
    ensures facts == TallyOf(OnPath(last, path))
  {
    ghost var conv := OnPath(last, path);
    var k := 0;
    facts := Tally(0, 0, false);
    while k < |path|
      invariant 0 <= k <= |path| == |conv|
      invariant facts == TallyOf(conv[|conv| - k..])
    {
      var r := byID[path[k]];
      ghost var at := |conv| - k - 1;
      assert conv[at..][1..] == conv[at + 1..] && r == RecOf(conv[at]);
      if r.user {
        facts := facts.(users := facts.users + 1);
      }
      if r.assistant {
        facts := facts.(assistants := facts.assistants + 1);
      }
      if r.substantive {
        facts := facts.(substantive := true);
      }
      k := k + 1;
    }
    assert conv[|conv| - k..] == conv;
  }

  /** The header line's own timestamp. */
  function StartOf(syn: Syntax, s: seq<Byte>): Time
    requires s != []
  {
    if Complete(s) != [] then HeaderTime(syn, Complete(s)[0], true) else HeaderTime(syn, Tail(s), false)
  }

  lemma {:induction false} FoldedStart(syn: Syntax, lines: seq<seq<Byte>>)
    requires lines != []
    ensures Folded(syn, lines).startedAt == HeaderTime(syn, lines[0], true) <= Folded(syn, lines).lastActive
  {
    if |lines| > 1 {
      FoldedStart(syn, lines[..|lines| - 1]);
    }
  }

  lemma StartStays(syn: Syntax, s: seq<Byte>)
    requires s != []
    ensures Final(syn, s).startedAt == StartOf(syn, s) <= Final(syn, s).lastActive
  {
    TailIsPlain(s);
    if Complete(s) != [] {
      FoldedStart(syn, Complete(s));
    }
  }

  datatype Outcome =
    | Aborted(fatal: Fatal)
    | Captured(startedAt: Time, lastActiveAt: Time, counts: Tally, transcript: Fingerprint, brokenAt: string)

  lemma FinalFacts(syn: Syntax, s: seq<Byte>)
    requires Lawful(syn) && s != []
    ensures Indexes(Final(syn, s), Entries(syn, All(s)))
    ensures Final(syn, s).startedAt == StartOf(syn, s) <= Final(syn, s).lastActive
  {
    FinalIndexes(syn, s);
    StartStays(syn, s);
  }

  /** The copy pass: every chunk to the observer, stopping at the first its header gate refuses. */
  method Copy(syn: Syntax, wantID: string, chunks: seq<seq<Byte>>) returns (scan: Scan)
    ensures fresh(scan) && scan.Valid() && scan.syn == syn && scan.wantID == wantID
    ensures scan.fatal.Some? ==> Fault(syn, wantID, Flatten(chunks)) == scan.fatal
    ensures scan.fatal == None ==> scan.hashed == Flatten(chunks)
  {
    scan := new Scan(syn, wantID);
    var k := 0;
    while k < |chunks|
      invariant 0 <= k <= |chunks|
      invariant fresh(scan) && scan.Valid() && scan.syn == syn && scan.wantID == wantID && scan.fatal == None
      invariant scan.hashed == Flatten(chunks[..k])
    {
      assert chunks[..k + 1][..k] == chunks[..k];
      var err := scan.Write(chunks[k]);
      if scan.fatal.Some? {
        FlattenSplits(chunks, k + 1);
        FirstLineStays(scan.hashed, Flatten(chunks[k + 1..]));
        return;
      }
      k := k + 1;
    }
    assert chunks[..k] == chunks;
  }

  /**
   One capture over any chunking. It fails exactly when the header gate refuses the stream; otherwise its
   fingerprint is the stream's and its counts are those of the conversation.
   */
  method Capture(syn: Syntax, wantID: string, chunks: seq<seq<Byte>>, sha: seq<Byte> -> string)
    returns (out: Outcome)
    requires Lawful(syn)
    ensures var s := Flatten(chunks);
            match Fault(syn, wantID, s)
            case Some(f) => out == Aborted(f)
            case None =>
              && out.Captured?
              && out.counts == TallyOf(Conversation(Entries(syn, All(s))))
              && out.transcript == FileTail.Of(sha, s)
              && out.lastActiveAt == Final(syn, s).lastActive
              && out.startedAt == StartOf(syn, s)
              && out.startedAt <= out.lastActiveAt
  {
    var scan := Copy(syn, wantID, chunks);
    if scan.fatal == None {
      scan.Finish();
    }
    if scan.fatal.Some? {
      return Aborted(scan.fatal.value);
    }
    FinalFacts(syn, scan.hashed);
    var counts, brokenAt := Result(scan.st, Entries(syn, All(scan.hashed)));
    out := Captured(scan.st.startedAt, scan.st.lastActive, counts, Fingerprint(scan.lines, sha(scan.hashed)), brokenAt);
  }

  lemma {:induction false} FlattenSplits(chunks: seq<seq<Byte>>, k: nat)
    requires k <= |chunks|
    ensures Flatten(chunks) == Flatten(chunks[..k]) + Flatten(chunks[k..])
    decreases |chunks|
  {
    if k < |chunks| {
      var front := chunks[..|chunks| - 1];
      FlattenSplits(front, k);
      assert front[..k] == chunks[..k];
      assert chunks[k..][..|chunks| - k - 1] == front[k..];
    } else {
      assert chunks[..k] == chunks;
    }
  }

  // ---------- the offline reader ----------

  /** One return of the buffered line reader: a piece of a line, and whether the line goes on. */
  datatype Piece = Piece(chunk: seq<Byte>, isPrefix: bool)

  function Closed(pieces: seq<Piece>): seq<seq<Byte>> {
    if pieces == [] then []
    else
      var front, p := pieces[..|pieces| - 1], pieces[|pieces| - 1];
      if p.isPrefix then Closed(front) else Closed(front) + [Open(front) + p.chunk]
  }

  function Open(pieces: seq<Piece>): seq<Byte> {
    if pieces == [] || !pieces[|pieces| - 1].isPrefix then []
    else Open(pieces[..|pieces| - 1]) + pieces[|pieces| - 1].chunk
  }

  function NoReturn(line: seq<Byte>): seq<Byte> {
    if line != [] && line[|line| - 1] == RETURN then line[..|line| - 1] else line
  }

  /** The lines the buffered reader yields: a carriage return goes with the newline that follows it. */
  function Stripped(s: seq<Byte>): seq<seq<Byte>> {
    var closed := Complete(s);
    seq(|closed|, i requires 0 <= i < |closed| => NoReturn(closed[i])) + if Tail(s) == [] then [] else [Tail(s)]
  }

  /** The buffered reader's own promise: its pieces, put together, are the stream's lines. */
  ghost predicate Delivers(pieces: seq<Piece>, s: seq<Byte>) {
    Stripped(s) == Closed(pieces) + if Open(pieces) == [] then [] else [Open(pieces)]
  }

  function Bounded(line: seq<Byte>): Option<seq<Byte>> {
    if |line| > MAX_LINE then None else Some(line)
  }

  /** Every line, with one over the cap delivered as None. */
  method ForEachLine(pieces: seq<Piece>, ghost s: seq<Byte>) returns (lines: seq<Option<seq<Byte>>>)
    requires Delivers(pieces, s)
    ensures |lines| == |Stripped(s)|
    ensures forall i :: 0 <= i < |lines| ==> lines[i] == Bounded(Stripped(s)[i])
  {
    var buf: seq<Byte>, over, k := [], false, 0;
    lines := [];
    while k < |pieces|
      invariant 0 <= k <= |pieces|
      invariant |lines| == |Closed(pieces[..k])|
      invariant forall i :: 0 <= i < |lines| ==> lines[i] == Bounded(Closed(pieces[..k])[i])
      invariant over == (|Open(pieces[..k])| > MAX_LINE)
      invariant buf == if over then [] else Open(pieces[..k])
    {
      assert pieces[..k + 1][..k] == pieces[..k];
      var chunk := pieces[k].chunk;
      assert chunk == [] ==> Open(pieces[..k]) + chunk == Open(pieces[..k]);
      if |chunk| > 0 && !over {
        if |buf| + |chunk| > MAX_LINE {
          over, buf := true, [];
        } else {
          buf := buf + chunk;
        }
      }
      if !pieces[k].isPrefix {
        lines := lines + [if over then None else Some(buf)];
        buf, over := [], false;
      }
      k := k + 1;
    }
    assert pieces[..k] == pieces;
    if |buf| > 0 || over {
      lines := lines + [if over then None else Some(buf)];
    }
  }

  lemma EntriesStep(syn: Syntax, lines: seq<seq<Byte>>, n: nat)
    requires n < |lines|
    ensures n == 0 || EntryOf(syn, lines[n]) == None ==> Entries(syn, lines[..n + 1]) == Entries(syn, lines[..n])
    ensures n > 0 && EntryOf(syn, lines[n]).Some? ==>
              Entries(syn, lines[..n + 1]) == Entries(syn, lines[..n]) + [EntryOf(syn, lines[n]).value]
  {
    assert lines[..n + 1][..n] == lines[..n];
  }

  /** The reader's entries in file order, and each id's last position among them. */
  method Collect(syn: Syntax, lines: seq<Option<seq<Byte>>>, ghost full: seq<seq<Byte>>)
    returns (all: seq<Named>, byID: map<string, nat>)
    requires |lines| == |full| && forall i :: 0 <= i < |lines| ==> lines[i] == Bounded(full[i])
    ensures all == Entries(syn, full)
    ensures Positions(all, byID)
  {
    var n := 0;
    all, byID := [], map[];
    while n < |lines|
      invariant 0 <= n <= |lines|
      invariant all == Entries(syn, full[..n])
      invariant Positions(all, byID)
    {
      EntriesStep(syn, full, n);
      if n > 0 && lines[n].Some? && !syn.blank(lines[n].value) {
        var e := syn.decode(lines[n].value);
        if e.Some? && e.value.kind != "session" && e.value.id.Some? {
          PositionsAppend(all, byID, e.value);
          byID := byID[e.value.id.value := |all|];
          all := all + [e.value];
        }
      }
      n := n + 1;
    }
    assert full[..n] == full;
  }

  /** The index names the last entry of each id. */
  ghost predicate Positions(all: seq<Named>, byID: map<string, nat>) {
    && byID.Keys == LastOf(all).Keys
    && forall id :: id in byID ==> byID[id] < |all| && all[byID[id]] == LastOf(all)[id]
  }

  lemma PositionsAppend(all: seq<Named>, byID: map<string, nat>, e: Named)
    requires Positions(all, byID)
    ensures Positions(all + [e], byID[e.id.value := |all|])
  {
    assert (all + [e])[..|all|] == all;
  }

  /** The conversation as the offline reader finds it in the committed artifact. */
  method ActiveEntries(syn: Syntax, pieces: seq<Piece>, ghost s: seq<Byte>) returns (out: seq<Named>)
    requires Delivers(pieces, s)
    ensures out == Conversation(Entries(syn, Stripped(s)))
  {
    var lines := ForEachLine(pieces, s);
    var all, byID := Collect(syn, lines, Stripped(s));
    if |all| == 0 {
      return [];
    }
    var links := map id | id in byID :: ParentOf(all[byID[id]].parentId);
    assert links == LinksOf(all);
    var path, broken := WalkLeaf(all[|all| - 1].id.value, links);
    if broken != "" {
      return all;
    }
    WalkIsTheChain(links, Leaf(all));
    out := RootFirst(all, byID, path, LastOf(all));
  }

  /** The entries on a leaf-first path, in conversation order. */
  method RootFirst(all: seq<Named>, byID: map<string, nat>, path: seq<string>, ghost last: map<string, Named>)
    returns (out: seq<Named>)
    requires byID.Keys == last.Keys
    requires forall id :: id in byID ==> byID[id] < |all| && all[byID[id]] == last[id]
    requires forall i :: 0 <= i < |path| ==> path[i] in last
    ensures out == OnPath(last, path)
  {
    var filled := new Named[|path|](_ => Entry("", Some(""), Absent, None, None));
    var i := 0;
    while i < |path|
      invariant 0 <= i <= |path|
      invariant forall k :: |path| - i <= k < |path| ==> filled[k] == last[path[|path| - 1 - k]]
    {
      filled[|path| - 1 - i] := all[byID[path[i]]];
      i := i + 1;
    }
    out := filled[..];
  }

  // ---------- the two agree ----------

  /** A line of exactly one byte over the cap whose last byte is a carriage return. */
  predicate OnTheEdge(line: seq<Byte>) {
    |line| == MAX_LINE + 1 && line[MAX_LINE] == RETURN
  }

  /** The one way a line is an entry to the reader and not to the capture: it is only over the cap by its return. */
  lemma EntryAgrees(syn: Syntax, line: seq<Byte>)
    requires Lawful(syn)
    ensures EntryOf(syn, NoReturn(line)) != EntryOf(syn, line) <==>
              OnTheEdge(line) && EntryOf(syn, NoReturn(line)).Some?
  {
    if line != [] && line[|line| - 1] == RETURN {
      assert NoReturn(line) + [RETURN] == line;
    }
  }

  /** A line after the header that only the reader takes for an entry. */
  predicate EdgeEntry(syn: Syntax, line: seq<Byte>) {
    OnTheEdge(line) && EntryOf(syn, NoReturn(line)).Some?
  }

  predicate HasEdgeEntry(syn: Syntax, lines: seq<seq<Byte>>) {
    exists i :: 0 < i < |lines| && EdgeEntry(syn, lines[i])
  }

  lemma {:induction false} EntriesAgree(syn: Syntax, a: seq<seq<Byte>>, b: seq<seq<Byte>>)
    requires |a| == |b| && forall i :: 0 < i < |a| ==> EntryOf(syn, a[i]) == EntryOf(syn, b[i])
    ensures Entries(syn, a) == Entries(syn, b)
  {
    if |a| > 1 {
      EntriesAgree(syn, a[..|a| - 1], b[..|b| - 1]);
    }
  }

  /** Where some line is an entry on one side only, that side has more entries; k is such a line, or their number. */
  lemma {:induction false} MoreEntries(syn: Syntax, a: seq<seq<Byte>>, b: seq<seq<Byte>>, k: nat)
    requires |a| == |b| && 0 < k <= |a|
    requires forall i :: 0 < i < |a| ==> EntryOf(syn, b[i]) == None || EntryOf(syn, a[i]).Some?
    requires k < |a| ==> EntryOf(syn, a[k]).Some? && EntryOf(syn, b[k]) == None
    ensures |Entries(syn, b)| + (if k < |a| then 1 else 0) <= |Entries(syn, a)|
  {
    if |a| > 1 {
      var n := |a| - 1;
      MoreEntries(syn, a[..n], b[..n], if k < n then k else n);
    }
  }

  lemma LinesOfBothSides(syn: Syntax, s: seq<Byte>, i: nat)
    requires Lawful(syn) && 0 < i < |All(s)|
    ensures |Stripped(s)| == |All(s)|
    ensures var a, b := EntryOf(syn, Stripped(s)[i]), EntryOf(syn, All(s)[i]);
            if i < |Complete(s)| && EdgeEntry(syn, Complete(s)[i]) then a.Some? && b == None else a == b
  {
    if i < |Complete(s)| {
      EntryAgrees(syn, Complete(s)[i]);
      assert All(s)[i] == Complete(s)[i] && Stripped(s)[i] == NoReturn(Complete(s)[i]);
    }
  }

  /** Capture and reader see the same entries if and only if no line past the header is an entry on the edge of the cap. */
  lemma ReaderSeesTheSameEntries(syn: Syntax, s: seq<Byte>)
    requires Lawful(syn)
    ensures Entries(syn, Stripped(s)) == Entries(syn, All(s)) <==> !HasEdgeEntry(syn, Complete(s))
  {
    var a, b := Stripped(s), All(s);
    forall i | 0 < i < |b|
      ensures EntryOf(syn, b[i]) == None || EntryOf(syn, a[i]).Some?
      ensures !HasEdgeEntry(syn, Complete(s)) ==> EntryOf(syn, a[i]) == EntryOf(syn, b[i])
    {
      LinesOfBothSides(syn, s, i);
    }
    if HasEdgeEntry(syn, Complete(s)) {
      var k :| 0 < k < |Complete(s)| && EdgeEntry(syn, Complete(s)[k]);
      LinesOfBothSides(syn, s, k);
      MoreEntries(syn, a, b, k);
    } else {
      EntriesAgree(syn, a, b);
    }
  }

  /**
   Capture, then read the artifact back, each in its own pieces: on every stream whose entries both sides see alike,
   a successful capture's counts are the counts over the very entries the reader returns.
   */
  method CaptureThenRead(syn: Syntax, wantID: string, chunks: seq<seq<Byte>>, pieces: seq<Piece>,
                         sha: seq<Byte> -> string)
    returns (out: Outcome, entries: seq<Named>)
    requires Lawful(syn) && Delivers(pieces, Flatten(chunks))
    ensures out.Captured? && !HasEdgeEntry(syn, Complete(Flatten(chunks))) ==> out.counts == TallyOf(entries)
  {
    out := Capture(syn, wantID, chunks, sha);
    entries := ActiveEntries(syn, pieces, Flatten(chunks));
    ReaderSeesTheSameEntries(syn, Flatten(chunks));
  }
}
