/** The copy pass's observer over a pi session file: header gate, fingerprint and leaf-path facts from one stream. */
module PiScan {
  import opened Wrappers
  import opened Clock
  import opened Lines
  import opened PiEntries

  const MAX_HEADER: nat := 0x10_0000

  datatype Fatal = NoHeader | TooLong | BadHeader | WrongId

  /** What the scan keeps of an entry: where it hangs, and what it would add to the counts. */
  datatype Rec = Rec(parent: Option<string>, user: bool, assistant: bool, substantive: bool)

  function RecOf(e: Named): Rec {
    Rec(ParentOf(e.parentId), IsRole(e, "user"), IsRole(e, "assistant"), IsSubstantive(e))
  }

  /** What is known after some lines; whole counts every entry line, on the leaf path or not. */
  datatype State = State(byID: map<string, Rec>, leaf: Option<string>, startedAt: Time, lastActive: Time,
                         badLines: nat, firstBad: nat, whole: Tally)

  // ---------- the reference: line by line ----------

  /** The header gate on line 1: None when it passes. */
  function HeaderFault(syn: Syntax, wantID: string, line: seq<Byte>, terminated: bool): Option<Fatal> {
    if |line| > MAX_HEADER then Some(TooLong)
    else match syn.readHeader(if terminated then line + [NEWLINE] else line)
      case Skipped => Some(NoHeader)
      case Refused => Some(BadHeader)
      case Header(id, _) => if id != wantID then Some(WrongId) else None
  }

  function HeaderTime(syn: Syntax, line: seq<Byte>, terminated: bool): Time {
    var h := syn.readHeader(if terminated then line + [NEWLINE] else line);
    if h.Header? then h.at else 0
  }

  /** The gate's verdict on a whole stream. */
  function Fault(syn: Syntax, wantID: string, s: seq<Byte>): Option<Fatal> {
    if s == [] then Some(NoHeader)
    else if Complete(s) != [] then HeaderFault(syn, wantID, Complete(s)[0], true)
    else HeaderFault(syn, wantID, Tail(s), false)
  }

  function Bad(st: State, lineNo: nat): State {
    st.(badLines := st.badLines + 1, firstBad := if st.firstBad == 0 then lineNo else st.firstBad)
  }

  function Entered(st: State, e: Named): State {
    st.(byID := st.byID[e.id.value := RecOf(e)], leaf := e.id,
        lastActive := if e.at.Some? && e.at.value > st.lastActive then e.at.value else st.lastActive,
        whole := With(st.whole, e))
  }

  /** One line after the header's; a torn or oversize unterminated tail is silent. */
  function Handled(syn: Syntax, st: State, lineNo: nat, line: seq<Byte>, terminated: bool): State {
    if |line| > MAX_LINE then if terminated then Bad(st, lineNo) else st
    else if syn.blank(line) || (!terminated && !syn.valid(line)) then st
    else match syn.decode(line)
      case None => Bad(st, lineNo)
      case Some(e) => if e.kind == "session" then st else if e.id == None then Bad(st, lineNo) else Entered(st, e)
  }

  function Start(at: Time): State {
    State(map[], None, at, at, 0, 0, Tally(0, 0, false))
  }

  /** The state after a file's newline-terminated lines, the first being the header. */
  function Folded(syn: Syntax, lines: seq<seq<Byte>>): State {
    if lines == [] then Start(0)
    else if |lines| == 1 then Start(HeaderTime(syn, lines[0], true))
    else Handled(syn, Folded(syn, lines[..|lines| - 1]), |lines|, lines[|lines| - 1], true)
  }

  /** The state after a whole stream. */
  function Final(syn: Syntax, s: seq<Byte>): State {
    if Tail(s) == [] then Folded(syn, Complete(s))
    else if Complete(s) == [] then Start(HeaderTime(syn, Tail(s), false))
    else Handled(syn, Folded(syn, Complete(s)), |Complete(s)| + 1, Tail(s), false)
  }

  // ---------- the observer ----------

  class Scan {
    const syn: Syntax
    const wantID: string
    var hashed: seq<Byte>
    var lines: nat
    var buf: seq<Byte>
    var over: bool
    var isEmpty: bool
    var last: Byte
    var fatal: Option<Fatal>
    var lineNo: nat
    var st: State

    /** While nothing is fatal, the scan stands where a reader of exactly `fed` would. */
    ghost predicate Stands(fed: seq<Byte>)
      reads this
    {
      && fatal == None
      && st == Folded(syn, Complete(fed))
      && (Complete(fed) != [] ==> HeaderFault(syn, wantID, Complete(fed)[0], true) == None)
      && lines == |Complete(fed)|
      && lineNo == lines + 1
      && over == (|Tail(fed)| > MAX_LINE)
      && buf == if over then [] else Tail(fed)
    }

    /** The first line of `fed` is complete and the gate refused it. */
    ghost predicate Fell(fed: seq<Byte>)
      reads this
    {
      fatal.Some? && Complete(fed) != [] && HeaderFault(syn, wantID, Complete(fed)[0], true) == fatal
    }

    ghost predicate Valid()
      reads this
    {
      && (Stands(hashed) || Fell(hashed))
      && isEmpty == (hashed == [])
      && (hashed != [] ==> last == hashed[|hashed| - 1])
    }

    constructor (syn: Syntax, wantID: string)
      ensures Valid() && hashed == [] && this.syn == syn && this.wantID == wantID
    {
      this.syn, this.wantID := syn, wantID;
      hashed, lines, buf, over, isEmpty, last := [], 0, [], false, true, 0;
      fatal, lineNo, st := None, 1, Start(0);
    }

    /** Takes the next chunk; an error is the header gate's refusal, and from then on no chunk is taken. */
    method Write(p: seq<Byte>) returns (err: Option<Fatal>)
      requires Valid()
      modifies this
      ensures Valid() && hashed == old(hashed) + if old(fatal).Some? then [] else p
      ensures err == if p == [] then None else fatal
      ensures old(fatal).Some? ==> fatal == old(fatal)
    {
      if |p| == 0 {
        assert hashed + p == hashed;
        return None;
      }
      if fatal.Some? {
        assert hashed + [] == hashed;
        return fatal;
      }
      isEmpty := false;
      last := p[|p| - 1];
      hashed := hashed + p;
      Feed(old(hashed), p);
      err := fatal;
    }

    method Feed(ghost before: seq<Byte>, p: seq<Byte>)
      requires Stands(before)
      modifies this`lines, this`buf, this`over, this`fatal, this`lineNo, this`st
      ensures Stands(before + p) || Fell(before + p)
    {
      var rest := p;
      ghost var fed := before;
      while |rest| > 0
        invariant fed + rest == before + p
        invariant Stands(fed)
        decreases |rest|
      {
        var i := IndexByte(rest, NEWLINE);
        if i < 0 {
          AppendPartial(fed, rest);
          return;
        }
        ghost var line := fed + rest[..i];
        AppendPartial(fed, rest[..i]);
        EndLine(line);
        Regroup(fed, rest, i);
        if fatal.Some? {
          FirstLineStays(line + [NEWLINE], rest[i + 1..]);
          return;
        }
        fed, rest := line + [NEWLINE], rest[i + 1..];
      }
      assert fed + rest == fed;
    }

    method AppendPartial(ghost fed: seq<Byte>, b: seq<Byte>)
      requires Stands(fed) && NEWLINE !in b
      modifies this`buf, this`over
      ensures Stands(fed + b)
    {
      AppendPlain(fed, b);
      if over { return; }
      if |buf| + |b| > MAX_LINE {
        over, buf := true, [];
        return;
      }
      buf := buf + b;
    }

    /** Closes a newline-terminated line. */
    method EndLine(ghost fed: seq<Byte>)
      requires Stands(fed)
      modifies this`lines, this`buf, this`over, this`fatal, this`lineNo, this`st
      ensures Stands(fed + [NEWLINE]) || Fell(fed + [NEWLINE])
      ensures fatal == None ==> Stands(fed + [NEWLINE])
    {
      AppendNewline(fed);
      ghost var closed := Complete(fed + [NEWLINE]);
      assert closed[..|closed| - 1] == Complete(fed);
      lines := lines + 1;
      Handle(true, Tail(fed));
      buf, over := [], false;
      lineNo := lineNo + 1;
    }

    /** One line: the header gate on line 1, the entry rules after it. */
    method Handle(terminated: bool, ghost line: seq<Byte>)
      requires fatal == None && over == (|line| > MAX_LINE) && buf == if over then [] else line
      requires lineNo == 1 ==> st == Start(0)
      modifies this`fatal, this`st
      ensures lineNo == 1 ==> fatal == HeaderFault(syn, wantID, line, terminated)
      ensures lineNo == 1 && fatal == None ==> st == Start(HeaderTime(syn, line, terminated))
      ensures lineNo != 1 ==> fatal == None && st == Handled(syn, old(st), lineNo, line, terminated)
    {
      if lineNo == 1 {
        CheckHeader(terminated, line);
        return;
      }
      if over {
        if terminated {
          NoteBad();
        }
        return;
      }
      if syn.blank(buf) { return; }
      if !terminated && !syn.valid(buf) { return; }
      var e := syn.decode(buf);
      if e == None {
        NoteBad();
        return;
      }
      if e.value.kind == "session" { return; }
      if e.value.id == None {
        NoteBad();
        return;
      }
      Enter(e.value);
    }

    method CheckHeader(terminated: bool, ghost line: seq<Byte>)
      requires fatal == None && over == (|line| > MAX_LINE) && buf == if over then [] else line
      requires st == Start(0)
      modifies this`fatal, this`st
      ensures fatal == HeaderFault(syn, wantID, line, terminated)
      ensures fatal == None ==> st == Start(HeaderTime(syn, line, terminated))
    {
      if over || |buf| > MAX_HEADER {
        fatal := Some(TooLong);
        return;
      }
      var h := syn.readHeader(if terminated then buf + [NEWLINE] else buf);
      if h.Skipped? {
        fatal := Some(NoHeader);
      } else if h.Refused? {
        fatal := Some(BadHeader);
      } else if h.id != wantID {
        fatal := Some(WrongId);
      } else {
        st := st.(startedAt := h.at, lastActive := h.at);
      }
    }

    method NoteBad()
      modifies this`st
      ensures st == Bad(old(st), lineNo)
    {
      st := st.(badLines := st.badLines + 1);
      if st.firstBad == 0 {
        st := st.(firstBad := lineNo);
      }
    }

    method Enter(e: Named)
      modifies this`st
      ensures st == Entered(old(st), e)
    {
      var r := Rec(ParentOf(e.parentId), false, false, false);
      var whole := st.whole;
      if e.kind == "message" && e.message.Some? {
        var m := e.message.value;
        if m.role == "user" {
          r := r.(user := true);
          whole := whole.(users := whole.users + 1);
        } else if m.role == "assistant" {
          r := r.(assistant := true);
          whole := whole.(assistants := whole.assistants + 1);
          if m.stopReason != "error" && m.blocks.Some? && m.blocks.value > 0 {
            r := r.(substantive := true);
            whole := whole.(substantive := true);
          }
        }
      }
      st := st.(whole := whole);
      if e.at.Some? && e.at.value > st.lastActive {
        st := st.(lastActive := e.at.value);
      }
      st := st.(byID := st.byID[e.id.value := r], leaf := e.id);
    }

    /** Closes an unterminated final line; an empty file has no header. */
    method Finish()
      requires Valid() && fatal == None
      modifies this
      ensures hashed == old(hashed)
      ensures fatal == Fault(syn, wantID, hashed)
      ensures fatal == None ==> st == Final(syn, hashed) && lines == |All(hashed)|
    {
      TailIsPlain(hashed);
      if isEmpty {
        fatal := Some(NoHeader);
        return;
      }
      if last == NEWLINE {
        NewlinesCountLines(hashed);
        return;
      }
      lines := lines + 1;
      Handle(false, Tail(hashed));
    }
  }

  /** Once the first line is complete, later bytes never change it. */
  lemma {:induction false} FirstLineStays(s: seq<Byte>, t: seq<Byte>)
    requires Complete(s) != []
    ensures Complete(s + t) != [] && Complete(s + t)[0] == Complete(s)[0]
  {
    if t == [] {
      assert s + t == s;
    } else {
      FirstLineStays(s, t[..|t| - 1]);
      assert (s + t)[..|s + t| - 1] == s + t[..|t| - 1];
    }
  }

  // ---------- what the fold means ----------

  /** A terminated line that is neither blank nor an entry nor another header. */
  predicate IsBad(syn: Syntax, line: seq<Byte>) {
    || |line| > MAX_LINE
    || (!syn.blank(line) && (syn.decode(line) == None
                             || (syn.decode(line).value.kind != "session" && syn.decode(line).value.id == None)))
  }

  /** The bad lines after the header's. */
  ghost function BadAt(syn: Syntax, lines: seq<seq<Byte>>): set<nat> {
    set k: nat {:trigger lines[k]} | 0 < k < |lines| && IsBad(syn, lines[k])
  }

  lemma BadAtGrows(syn: Syntax, lines: seq<seq<Byte>>)
    requires |lines| > 1
    ensures BadAt(syn, lines) == BadAt(syn, lines[..|lines| - 1]) + if IsBad(syn, lines[|lines| - 1]) then {|lines| - 1} else {}
  {
    assert forall k :: 0 <= k < |lines| - 1 ==> lines[..|lines| - 1][k] == lines[k];
  }

  lemma HandledCounts(syn: Syntax, st: State, lineNo: nat, line: seq<Byte>)
    ensures var now := Handled(syn, st, lineNo, line, true);
            && now.startedAt == st.startedAt
            && now.badLines == st.badLines + (if IsBad(syn, line) then 1 else 0)
            && now.firstBad == (if IsBad(syn, line) && st.firstBad == 0 then lineNo else st.firstBad)
            && now.lastActive == match EntryOf(syn, line)
                                 case Some(e) => if e.at.Some? && e.at.value > st.lastActive then e.at.value else st.lastActive
                                 case None => st.lastActive
  {
  }

  /** Bad lines are counted, and the first is named by its number in the file. */
  lemma {:induction false} BadLinesAreCounted(syn: Syntax, lines: seq<seq<Byte>>)
    requires lines != []
    ensures var st, bad := Folded(syn, lines), BadAt(syn, lines);
            && st.badLines == |bad|
            && (st.firstBad == 0 <==> bad == {})
            && (st.firstBad != 0 ==> st.firstBad - 1 in bad && forall k :: k in bad ==> st.firstBad - 1 <= k)
  {
    if |lines| > 1 {
      var front := lines[..|lines| - 1];
      BadLinesAreCounted(syn, front);
      BadAtGrows(syn, lines);
      HandledCounts(syn, Folded(syn, front), |lines|, lines[|lines| - 1]);
    }
  }

  /** t is the latest readable time of the header and the entries. */
  ghost predicate Latest(start: Time, es: seq<Named>, t: Time) {
    && start <= t
    && (forall i :: 0 <= i < |es| && es[i].at.Some? ==> es[i].at.value <= t)
    && (t != start ==> exists i :: 0 <= i < |es| && es[i].at == Some(t))
  }

  lemma LatestGrows(start: Time, es: seq<Named>, e: Named, t: Time)
    requires Latest(start, es, t)
    ensures Latest(start, es + [e], if e.at.Some? && e.at.value > t then e.at.value else t)
  {
    var all := es + [e];
    assert all[|es|] == e;
    if t != start {
      var i :| 0 <= i < |es| && es[i].at == Some(t);
      assert all[i].at == Some(t);
    }
  }

  /** A session starts when its header says, and was last active at the latest readable time of it or of an entry. */
  lemma {:induction false} ActiveIsLatest(syn: Syntax, lines: seq<seq<Byte>>)
    requires lines != []
    ensures Folded(syn, lines).startedAt == HeaderTime(syn, lines[0], true)
    ensures Latest(Folded(syn, lines).startedAt, Entries(syn, lines), Folded(syn, lines).lastActive)
  {
    if |lines| > 1 {
      var front, e := lines[..|lines| - 1], EntryOf(syn, lines[|lines| - 1]);
      ActiveIsLatest(syn, front);
      HandledCounts(syn, Folded(syn, front), |lines|, lines[|lines| - 1]);
      if e.Some? {
        LatestGrows(Folded(syn, front).startedAt, Entries(syn, front), e.value, Folded(syn, front).lastActive);
      }
    }
  }

  /** The stream's first line, as the header reader is given it: with its newline, where it has one. */
  function FirstLine(s: seq<Byte>): seq<Byte> {
    if Complete(s) != [] then Complete(s)[0] + [NEWLINE] else Tail(s)
  }

  /** A stream passes the gate exactly when its first line, of a megabyte at most, is a header that carries the id looked for. */
  lemma GatePassesExactly(syn: Syntax, wantID: string, s: seq<Byte>)
    ensures Fault(syn, wantID, s) == None <==>
              && s != []
              && |FirstLine(s)| <= 0x10_0000 + (if Complete(s) != [] then 1 else 0)
              && syn.readHeader(FirstLine(s)).Header? && syn.readHeader(FirstLine(s)).id == wantID
    ensures Fault(syn, wantID, s) == Some(WrongId) ==>
              syn.readHeader(FirstLine(s)).Header? && syn.readHeader(FirstLine(s)).id != wantID
  {
  }
}
