/** The copy pass's observer over a claude transcript: hash, line count and facts from one chunked stream. */
module ClaudeScan {
  import opened Wrappers
  import opened Clock
  import opened Journal
  import opened Lines
  import FileTail

  /** What one parsed line yields; plainText says its message content is a JSON string. */
  datatype Entry = Entry(uuid: string, kind: string, at: Option<Time>, isMeta: bool, isSidechain: bool,
                         cwd: string, branch: string, origin: Option<string>, plainText: bool)

  datatype ScanFacts = ScanFacts(cwd: string, branch: string, startedAt: Time, lastActiveAt: Time,
                             users: nat, assistants: nat, badLines: nat)
  const NO_FACTS := ScanFacts("", "", 0, 0, 0, 0, 0)

  datatype Fold = Fold(facts: ScanFacts, seen: set<string>)

  /** JSON decoding of one line: None when the line does not parse. */
  type Decoder = seq<Byte> -> Option<Entry>

  predicate IsHumanPrompt(e: Entry) {
    !e.isMeta && e.plainText && (e.origin == None || e.origin.value == "human")
  }

  /** An entry the counts are about: a human prompt or a reply, in the main conversation. */
  predicate Speaks(e: Entry) {
    !e.isSidechain && ((e.kind == "user" && IsHumanPrompt(e)) || e.kind == "assistant")
  }

  // ---------- the reference: one line at a time, no stream ----------

  function Noticed(facts: ScanFacts, e: Entry): ScanFacts {
    facts.(cwd := if facts.cwd == "" then e.cwd else facts.cwd,
           branch := if e.branch != "" then e.branch else facts.branch,
           startedAt := if e.at.Some? && facts.startedAt == 0 then e.at.value else facts.startedAt,
           lastActiveAt := if e.at.Some? && e.at.value > facts.lastActiveAt then e.at.value else facts.lastActiveAt)
  }

  function Counted(st: Fold, e: Entry): Fold {
    if !Speaks(e) || (e.uuid != "" && e.uuid in st.seen) then st
    else Fold(if e.kind == "user" then st.facts.(users := st.facts.users + 1)
              else st.facts.(assistants := st.facts.assistants + 1),
              if e.uuid == "" then st.seen else st.seen + {e.uuid})
  }

  function WithEntry(st: Fold, e: Entry): Fold {
    if e.isSidechain then st else Counted(st.(facts := Noticed(st.facts, e)), e)
  }

  /** The entry of a line, None for a line over the cap or one that does not parse. */
  function Parsed(decode: Decoder, line: seq<Byte>): Option<Entry> {
    if |line| > MAX_LINE then None else decode(line)
  }

  function Folded(decode: Decoder, lines: seq<seq<Byte>>): Fold {
    if lines == [] then Fold(NO_FACTS, {})
    else
      var st := Folded(decode, lines[..|lines| - 1]);
      match Parsed(decode, lines[|lines| - 1])
      case None => st.(facts := st.facts.(badLines := st.facts.badLines + 1))
      case Some(e) => WithEntry(st, e)
  }

  // ---------- the observer ----------

  class CaptureScan {
    const decode: Decoder
    var hashed: seq<Byte>
    var facts: ScanFacts
    var seen: set<string>
    var lines: nat
    var buf: seq<Byte>
    var over: bool
    var isEmpty: bool
    var lastByte: Byte

    /** The fold and the open line stand where a reader of exactly `fed` would stand. */
    ghost predicate Stands(fed: seq<Byte>)
      reads this
    {
      && Fold(facts, seen) == Folded(decode, Complete(fed))
      && lines == |Complete(fed)|
      && over == (|Tail(fed)| > MAX_LINE)
      && buf == if over then [] else Tail(fed)
    }

    ghost predicate Valid()
      reads this
    {
      && Stands(hashed)
      && isEmpty == (hashed == [])
      && (hashed != [] ==> lastByte == hashed[|hashed| - 1])
    }

    constructor (decode: Decoder)
      ensures Valid() && hashed == [] && this.decode == decode
    {
      this.decode := decode;
      hashed, facts, seen, lines, buf, over, isEmpty, lastByte := [], NO_FACTS, {}, 0, [], false, true, 0;
    }

    method Write(p: seq<Byte>) returns (n: nat)
      requires Valid()
      modifies this
      ensures Valid() && hashed == old(hashed) + p && n == |p|
    {
      n := |p|;
      if n == 0 {
        assert hashed + p == hashed;
        return;
      }
      isEmpty := false;
      lastByte := p[n - 1];
      hashed := hashed + p;
      Feed(old(hashed), p);
    }

    /** The loop of Write: every newline in p ends a line, what is left of p opens the next. */
    method Feed(ghost before: seq<Byte>, p: seq<Byte>)
      requires Stands(before)
      modifies this`facts, this`seen, this`lines, this`buf, this`over
      ensures Stands(before + p)
    {
      var rest := p;
      ghost var fed := before;
      while |rest| > 0
        invariant fed + rest == before + p
        invariant Stands(fed)
        decreases |rest|
      {
        var i := IndexByte(rest, NEWLINE);
        if i < 0 {
          AppendPartial(fed, rest);
          return;
        }
        ghost var line := fed + rest[..i];
        AppendPartial(fed, rest[..i]);
        EndLine(line);
        Regroup(fed, rest, i);
        fed, rest := line + [NEWLINE], rest[i + 1..];
      }
      assert fed + rest == fed;
    }

    method AppendPartial(ghost fed: seq<Byte>, b: seq<Byte>)
      requires Stands(fed) && NEWLINE !in b
      modifies this`buf, this`over
      ensures Stands(fed + b)
    {
      AppendPlain(fed, b);
      if over { return; }
      if |buf| + |b| > MAX_LINE {
        over, buf := true, [];
        return;
      }
      buf := buf + b;
    }

    /** Closes the open line, whether or not a newline ends it. */
    method EndLine(ghost fed: seq<Byte>)
      requires Stands(fed)
      modifies this`facts, this`seen, this`lines, this`buf, this`over
      ensures Stands(fed + [NEWLINE])
      ensures Complete(fed + [NEWLINE]) == Complete(fed) + [Tail(fed)]
    {
      AppendNewline(fed);
      assert (Complete(fed) + [Tail(fed)])[..|Complete(fed)|] == Complete(fed);
      lines := lines + 1;
      if over {
        facts := facts.(badLines := facts.badLines + 1);
      } else {
        ScanLine(buf);
      }
      buf, over := [], false;
    }

    method ScanLine(raw: seq<Byte>)
      modifies this`facts, this`seen
      ensures decode(raw) == None ==>
                Fold(facts, seen) == Fold(old(facts).(badLines := old(facts).badLines + 1), old(seen))
      ensures decode(raw).Some? ==> Fold(facts, seen) == WithEntry(Fold(old(facts), old(seen)), decode(raw).value)
    {
      var parsed := decode(raw);
      if parsed == None {
        facts := facts.(badLines := facts.badLines + 1);
        return;
      }
      var e := parsed.value;
      if e.isSidechain { return; }
      if e.at.Some? {
        if facts.startedAt == 0 {
          facts := facts.(startedAt := e.at.value);
        }
        if e.at.value > facts.lastActiveAt {
          facts := facts.(lastActiveAt := e.at.value);
        }
      }
      if facts.cwd == "" {
        facts := facts.(cwd := e.cwd);
      }
      if e.branch != "" {
        facts := facts.(branch := e.branch);
      }
      if e.kind == "user" {
        if !IsHumanPrompt(e) { return; }
      } else if e.kind != "assistant" {
        return;
      }
      if e.uuid != "" {
        if e.uuid in seen { return; }
        seen := seen + {e.uuid};
      }
      if e.kind == "user" {
        facts := facts.(users := facts.users + 1);
      } else {
        facts := facts.(assistants := facts.assistants + 1);
      }
    }

    /** Closes an unterminated final line; called once, after the copy. */
    method Finish()
      requires Valid()
      modifies this
      ensures hashed == old(hashed)
      ensures Fold(facts, seen) == Folded(decode, All(hashed)) && lines == |All(hashed)|
    {
      TailIsPlain(hashed);
      if !isEmpty && lastByte != NEWLINE {
        EndLine(hashed);
      }
    }
  }

  /**
   One capture: the copy reads chunk by chunk, and every chunk passes through the observer. Whatever the
   chunking, the artifact is the stream and the facts are the fold over its lines; a reply makes it substantive.
   */
  method Capture(chunks: seq<seq<Byte>>, decode: Decoder, sha: seq<Byte> -> string)
    returns (artifact: seq<Byte>, facts: ScanFacts, substantive: bool, fp: Fingerprint)
    ensures artifact == Flatten(chunks)
    ensures facts == Folded(decode, All(artifact)).facts
    ensures substantive == (facts.assistants >= 1)
    ensures fp == FileTail.Of(sha, artifact)
  {
    var scan := new CaptureScan(decode);
    artifact := [];
    var k := 0;
    while k < |chunks|
      invariant 0 <= k <= |chunks|
      invariant fresh(scan) && scan.Valid() && scan.decode == decode
      invariant artifact == Flatten(chunks[..k]) == scan.hashed
    {
      assert chunks[..k + 1][..k] == chunks[..k];
      artifact := artifact + chunks[k];
      var _ := scan.Write(chunks[k]);
      k := k + 1;
    }
    assert chunks[..k] == chunks;
    scan.Finish();
    facts := scan.facts;
    substantive := scan.facts.assistants >= 1;
    fp := Fingerprint(scan.lines, sha(scan.hashed));
  }

  /**
   A sweep after a capture, each reading in its own chunks: it reports unchanged for the bytes captured, and,
   when the hash tells streams apart, for those bytes only.
   */
  method CaptureThenSweep(captured: seq<seq<Byte>>, swept: seq<seq<Byte>>, decode: Decoder, sha: seq<Byte> -> string)
    returns (same: bool)
    ensures Flatten(captured) == Flatten(swept) ==> same
    ensures (forall a, b :: sha(a) == sha(b) ==> a == b) ==> (same <==> Flatten(captured) == Flatten(swept))
  {
    var artifact, _, _, fp := Capture(captured, decode, sha);
    same := FileTail.Unchanged(swept, sha, fp);
  }

  // ---------- what the fold means ----------

  /** A human prompt of the main conversation: plain text, neither meta nor of another origin. */
  predicate Prompts(e: Entry) {
    e.kind == "user" && !e.isSidechain && !e.isMeta && e.plainText && e.origin in {None, Some("human")}
  }

  predicate Replies(e: Entry) {
    e.kind == "assistant" && !e.isSidechain
  }

  /** The speaking entries of some lines, in order. */
  function Speakers(decode: Decoder, lines: seq<seq<Byte>>): seq<Entry> {
    if lines == [] then []
    else
      var front := Speakers(decode, lines[..|lines| - 1]);
      var p := Parsed(decode, lines[|lines| - 1]);
      if p.Some? && (Prompts(p.value) || Replies(p.value)) then front + [p.value] else front
  }

  function Named(es: seq<Entry>): set<string> {
    set i | 0 <= i < |es| && es[i].uuid != "" :: es[i].uuid
  }

  function Nameless(es: seq<Entry>): nat {
    if es == [] then 0
    else Nameless(es[..|es| - 1]) + if es[|es| - 1].uuid == "" then 1 else 0
  }

  lemma EntryCounted(st: Fold, e: Entry)
    ensures var now, new' := WithEntry(st, e), (Prompts(e) || Replies(e)) && (e.uuid == "" || e.uuid !in st.seen);
            && now.seen == (if new' && e.uuid != "" then st.seen + {e.uuid} else st.seen)
            && now.facts.users == st.facts.users + (if new' && e.kind == "user" then 1 else 0)
            && now.facts.assistants == st.facts.assistants + (if new' && e.kind == "assistant" then 1 else 0)
  {
  }

  /** Identity is the entry id: the counts add up to the distinct ids that spoke, plus the entries with no id. */
  lemma {:induction false} CountsAreIdentities(decode: Decoder, lines: seq<seq<Byte>>)
    ensures var es := Speakers(decode, lines);
            var st := Folded(decode, lines);
            && st.seen == Named(es)
            && st.facts.users + st.facts.assistants == |Named(es)| + Nameless(es)
  {
    if lines != [] {
      var front := lines[..|lines| - 1];
      CountsAreIdentities(decode, front);
      var p := Parsed(decode, lines[|lines| - 1]);
      if p.Some? && Speaks(p.value) {
        var es := Speakers(decode, front);
        NamedAppend(es, p.value);
        assert Speakers(decode, lines)[..|es|] == es;
      }
      if p.Some? {
        EntryCounted(Folded(decode, front), p.value);
      }
    }
  }

  lemma NamedAppend(es: seq<Entry>, e: Entry)
    ensures Named(es + [e]) == Named(es) + if e.uuid == "" then {} else {e.uuid}
  {
    var all := es + [e];
    forall u | u in Named(es) ensures u in Named(all) {
      var i :| 0 <= i < |es| && es[i].uuid == u && u != "";
      assert all[i].uuid == u;
    }
    assert all[|es|] == e;
  }

  /** Entry i has no id or is the first to speak under its id. */
  ghost predicate Opens(es: seq<Entry>, i: nat) {
    i < |es| && (es[i].uuid == "" || forall j :: 0 <= j < i ==> es[j].uuid != es[i].uuid)
  }

  ghost function Openings(es: seq<Entry>, kind: string): set<nat> {
    set i: nat | i < |es| && Opens(es, i) && es[i].kind == kind
  }

  lemma OpeningsGrow(es: seq<Entry>, e: Entry, kind: string)
    ensures Openings(es + [e], kind)
         == Openings(es, kind) + if e.kind == kind && (e.uuid == "" || e.uuid !in Named(es)) then {|es|} else {}
  {
    var all, n := es + [e], |es|;
    assert all[n] == e && forall i :: 0 <= i < n ==> all[i] == es[i];
    assert forall i: nat :: i < n ==> (Opens(all, i) <==> Opens(es, i));
    assert e.uuid != "" ==> (e.uuid in Named(es) <==> exists j :: 0 <= j < n && es[j].uuid == e.uuid);
    assert Opens(all, n) <==> e.uuid == "" || e.uuid !in Named(es);
  }

  /**
   Each kind is counted for itself: prompts are the entries of kind user that have no id or are the first to speak
   under theirs, and replies those of kind assistant.
   */
  lemma {:induction false} CountsByKind(decode: Decoder, lines: seq<seq<Byte>>)
    ensures var es, facts := Speakers(decode, lines), Folded(decode, lines).facts;
            facts.users == |Openings(es, "user")| && facts.assistants == |Openings(es, "assistant")|
  {
    if lines != [] {
      var front := lines[..|lines| - 1];
      CountsByKind(decode, front);
      CountsAreIdentities(decode, front);
      var p := Parsed(decode, lines[|lines| - 1]);
      if p.Some? && (Prompts(p.value) || Replies(p.value)) {
        var es := Speakers(decode, front);
        OpeningsGrow(es, p.value, "user");
        OpeningsGrow(es, p.value, "assistant");
      }
      if p.Some? {
        EntryCounted(Folded(decode, front), p.value);
      }
    }
  }

  /** Where entry i speaks under an id, the first to do so stands at it or before. */
  lemma {:induction false} FirstUnderId(es: seq<Entry>, i: nat) returns (k: nat)
    requires i < |es|
    ensures k <= i && Opens(es, k) && es[k].uuid == es[i].uuid && (es[i].uuid == "" ==> k == i)
  {
    if Opens(es, i) {
      k := i;
    } else {
      var j :| 0 <= j < i && es[j].uuid == es[i].uuid;
      k := FirstUnderId(es, j);
    }
  }

  lemma {:induction false} SpeakersSpeak(decode: Decoder, lines: seq<seq<Byte>>)
    ensures forall e :: e in Speakers(decode, lines) ==> Prompts(e) || Replies(e)
  {
    if lines != [] {
      SpeakersSpeak(decode, lines[..|lines| - 1]);
    }
  }

  /** Entry i is a reply whose id no prompt before it spoke under. */
  ghost predicate OwnReply(es: seq<Entry>, i: nat) {
    && i < |es| && Replies(es[i])
    && forall j :: 0 <= j < i && Prompts(es[j]) ==> es[j].uuid == "" || es[j].uuid != es[i].uuid
  }

  lemma OwnReplyOpens(es: seq<Entry>, i: nat) returns (k: nat)
    requires OwnReply(es, i) && forall e :: e in es ==> Prompts(e) || Replies(e)
    ensures k in Openings(es, "assistant")
  {
    k := FirstUnderId(es, i);
    assert es[k] in es;
  }

  /** A session is substantive exactly when some reply of the main conversation has an id no prompt spoke under before it. */
  lemma SubstantiveExactly(decode: Decoder, lines: seq<seq<Byte>>)
    ensures Folded(decode, lines).facts.assistants >= 1 <==> exists i :: OwnReply(Speakers(decode, lines), i)
  {
    var es := Speakers(decode, lines);
    CountsByKind(decode, lines);
    SpeakersSpeak(decode, lines);
    if Openings(es, "assistant") != {} {
      var i :| i in Openings(es, "assistant");
      assert es[i] in es && OwnReply(es, i);
    } else if i :| OwnReply(es, i) {
      var k := OwnReplyOpens(es, i);
    }
  }

  lemma SeenAreNamed(decode: Decoder, lines: seq<seq<Byte>>)
    ensures Folded(decode, lines).seen == Named(Speakers(decode, lines))
  {
    CountsAreIdentities(decode, lines);
  }

  /** The line, if it speaks, carries an id that already spoke. */
  predicate Repeats(decode: Decoder, lines: seq<seq<Byte>>, line: seq<Byte>) {
    match Parsed(decode, line)
    case None => true
    case Some(e) => Prompts(e) || Replies(e) ==> e.uuid != "" && e.uuid in Named(Speakers(decode, lines))
  }

  lemma RepeatCountsNothing(decode: Decoder, lines: seq<seq<Byte>>, before: seq<seq<Byte>>, line: seq<Byte>)
    requires Repeats(decode, lines, line)
    requires Folded(decode, before).seen == Named(Speakers(decode, lines))
    ensures var was, now := Folded(decode, before), Folded(decode, before + [line]);
            && now.seen == was.seen
            && now.facts.users == was.facts.users && now.facts.assistants == was.facts.assistants
  {
    assert (before + [line])[..|before|] == before;
  }

  /**
   A fork's copied history is not counted again: lines that repeat only entries whose ids already spoke
   leave both counts as they were.
   */
  lemma {:induction false} CopiedHistoryCountsOnce(decode: Decoder, lines: seq<seq<Byte>>, copied: seq<seq<Byte>>)
    requires forall l :: l in copied ==> Repeats(decode, lines, l)
    ensures Folded(decode, lines + copied).seen == Folded(decode, lines).seen
    ensures Folded(decode, lines + copied).facts.users == Folded(decode, lines).facts.users
    ensures Folded(decode, lines + copied).facts.assistants == Folded(decode, lines).facts.assistants
  {
    if copied == [] {
      assert lines + copied == lines;
    } else {
      var front, last := copied[..|copied| - 1], copied[|copied| - 1];
      CopiedHistoryCountsOnce(decode, lines, front);
      SeenAreNamed(decode, lines);
      assert (lines + copied)[..|lines + copied| - 1] == lines + front;
      RepeatCountsNothing(decode, lines, lines + front, last);
    }
  }

  /** The parsed entries of the main conversation, in order. */
  function Main(decode: Decoder, lines: seq<seq<Byte>>): seq<Entry> {
    if lines == [] then []
    else
      var front, p := Main(decode, lines[..|lines| - 1]), Parsed(decode, lines[|lines| - 1]);
      if p.Some? && !p.value.isSidechain then front + [p.value] else front
  }

  /** The first directory any entry names. */
  function FirstDirectory(es: seq<Entry>): string {
    if es == [] then "" else if es[0].cwd != "" then es[0].cwd else FirstDirectory(es[1..])
  }

  /** The last branch any entry names. */
  function LastBranch(es: seq<Entry>): string {
    if es == [] then ""
    else if es[|es| - 1].branch != "" then es[|es| - 1].branch else LastBranch(es[..|es| - 1])
  }

  /** The first readable timestamp other than the zero time. */
  function FirstTime(es: seq<Entry>): Time {
    if es == [] then 0
    else if es[0].at.Some? && es[0].at.value != 0 then es[0].at.value else FirstTime(es[1..])
  }

  lemma {:induction false} FirstsGrow(es: seq<Entry>, e: Entry)
    ensures FirstDirectory(es + [e]) == if FirstDirectory(es) == "" then e.cwd else FirstDirectory(es)
    ensures FirstTime(es + [e]) == if FirstTime(es) == 0 && e.at.Some? then e.at.value else FirstTime(es)
  {
    if es == [] {
      assert [e][1..] == [];
    } else {
      FirstsGrow(es[1..], e);
      assert (es + [e])[1..] == es[1..] + [e];
    }
  }

  lemma EntryNoticed(st: Fold, e: Entry)
    ensures var was, now := st.facts, WithEntry(st, e).facts;
            && now.badLines == was.badLines
            && now.cwd == (if !e.isSidechain && was.cwd == "" then e.cwd else was.cwd)
            && now.branch == (if !e.isSidechain && e.branch != "" then e.branch else was.branch)
            && now.startedAt == (if !e.isSidechain && e.at.Some? && was.startedAt == 0 then e.at.value else was.startedAt)
  {
  }

  /** The lines that do not parse or are over the cap. */
  ghost function BadAt(decode: Decoder, lines: seq<seq<Byte>>): set<nat> {
    set k: nat {:trigger lines[k]} | k < |lines| && Parsed(decode, lines[k]) == None
  }

  lemma BadAtGrows(decode: Decoder, lines: seq<seq<Byte>>)
    requires lines != []
    ensures |BadAt(decode, lines)| ==
              |BadAt(decode, lines[..|lines| - 1])| + if Parsed(decode, lines[|lines| - 1]) == None then 1 else 0
  {
    var n := |lines| - 1;
    assert forall k: nat :: k < n ==> lines[..n][k] == lines[k];
    assert BadAt(decode, lines) == BadAt(decode, lines[..n]) + if Parsed(decode, lines[n]) == None then {n} else {};
  }

  lemma {:induction false} BadLinesAreCounted(decode: Decoder, lines: seq<seq<Byte>>)
    ensures Folded(decode, lines).facts.badLines == |BadAt(decode, lines)|
  {
    if lines != [] {
      var n := |lines| - 1;
      BadLinesAreCounted(decode, lines[..n]);
      BadAtGrows(decode, lines);
      if Parsed(decode, lines[n]).Some? {
        EntryNoticed(Folded(decode, lines[..n]), Parsed(decode, lines[n]).value);
      }
    }
  }

  /** Facts that are those of the given entries. */
  predicate Tells(es: seq<Entry>, facts: ScanFacts) {
    facts.cwd == FirstDirectory(es) && facts.branch == LastBranch(es) && facts.startedAt == FirstTime(es)
  }

  lemma EntryTells(es: seq<Entry>, e: Entry, st: Fold)
    requires Tells(es, st.facts)
    ensures Tells(if e.isSidechain then es else es + [e], WithEntry(st, e).facts)
  {
    EntryNoticed(st, e);
    FirstsGrow(es, e);
    assert (es + [e])[..|es|] == es;
  }

  /** The other facts are the main conversation's: where it began, the branch it last stood on, when it began. */
  lemma {:induction false} FactsOfTheMain(decode: Decoder, lines: seq<seq<Byte>>)
    ensures Tells(Main(decode, lines), Folded(decode, lines).facts)
  {
    if lines != [] {
      var front, p := lines[..|lines| - 1], Parsed(decode, lines[|lines| - 1]);
      FactsOfTheMain(decode, front);
      if p.Some? {
        EntryTells(Main(decode, front), p.value, Folded(decode, front));
      }
    }
  }

  /** Liveness is the latest readable timestamp of the main conversation, whatever order the lines stand in. */
  lemma {:induction false} LastActiveIsLatest(decode: Decoder, lines: seq<seq<Byte>>)
    ensures var last := Folded(decode, lines).facts.lastActiveAt;
            && last >= 0
            && (forall k :: 0 <= k < |lines| ==>
                  match Parsed(decode, lines[k])
                  case None => true
                  case Some(e) => !e.isSidechain && e.at.Some? ==> e.at.value <= last)
            && (last > 0 ==>
                  exists k :: 0 <= k < |lines| && Parsed(decode, lines[k]).Some?
                              && !Parsed(decode, lines[k]).value.isSidechain
                              && Parsed(decode, lines[k]).value.at == Some(last))
  {
    if lines != [] {
      var front := lines[..|lines| - 1];
      LastActiveIsLatest(decode, front);
      var last := Folded(decode, front).facts.lastActiveAt;
      assert forall k :: 0 <= k < |front| ==> lines[k] == front[k];
      if last > 0 {
        var k :| 0 <= k < |front| && Parsed(decode, front[k]).Some? && !Parsed(decode, front[k]).value.isSidechain
                 && Parsed(decode, front[k]).value.at == Some(last);
        assert lines[k] == front[k];
      }
    }
  }
}
