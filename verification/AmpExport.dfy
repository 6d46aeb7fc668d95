/** One exported thread: when a read of it counts as whole, and how often a read is tried again. */
module AmpExport {
  import opened Wrappers

  /** pmid "" is the old epoch's; complete says an assistant message's state is "complete". */
  datatype Message = Message(messageId: Option<int>, pmid: string, assistant: bool, complete: bool)

  /** The agent's last known state, absent in the old epoch. */
  datatype AgentState = AgentState(state: string, messageId: string)
  datatype Doc = Doc(messages: seq<Message>, agent: Option<AgentState>)

  /** Why a document is not simply whole; a note goes with every verdict but the clean one. */
  datatype Note = Empty | Gaps(count: nat) | BadStates(count: nat) | IdleAhead(messageId: string) | MidTurn(state: string)
  datatype Verdict = Complete | Flag(note: Note) | Retry(note: Note)

  // ---------- completeness ----------

  /** The first non-negative message id's place, or the number of messages. */
  function Base(ms: seq<Message>): (i: nat)
    ensures i <= |ms|
    ensures i < |ms| ==> ms[i].messageId.Some? && ms[i].messageId.value >= 0
    ensures forall k :: 0 <= k < i ==> ms[k].messageId == None || ms[k].messageId.value < 0
  {
    if ms == [] || (ms[0].messageId.Some? && ms[0].messageId.value >= 0) then 0 else 1 + Base(ms[1..])
  }

  /** A message with no id, or one that does not follow on from the base. */
  predicate IsGap(ms: seq<Message>, i: nat)
    requires i < |ms|
  {
    ms[i].messageId == None || (Base(ms) < i && ms[i].messageId.value != ms[Base(ms)].messageId.value + i)
  }

  predicate IsBad(m: Message) {
    m.assistant && !m.complete
  }

  function Pmids(ms: seq<Message>): set<string> {
    set i | 0 <= i < |ms| && ms[i].pmid != "" :: ms[i].pmid
  }

  predicate NoGaps(doc: Doc) {
    forall i :: 0 <= i < |doc.messages| ==> !IsGap(doc.messages, i)
  }

  predicate AllComplete(doc: Doc) {
    forall i :: 0 <= i < |doc.messages| ==> !IsBad(doc.messages[i])
  }

  /** An idle agent's last message is in the document. */
  predicate Anchored(doc: Doc) {
    doc.agent.Some? && doc.agent.value.state == "idle" ==> doc.agent.value.messageId in Pmids(doc.messages)
  }

  /** The verdict is clean exactly when nothing is missing; flagged exactly when only the agent is mid-turn. */
  method Completeness(doc: Doc) returns (v: Verdict)
    ensures v.Complete? <==> doc.messages != [] && NoGaps(doc) && AllComplete(doc) && Anchored(doc)
                             && (doc.agent.Some? ==> doc.agent.value.state == "idle")
    ensures v.Flag? <==> doc.messages != [] && NoGaps(doc) && AllComplete(doc)
                         && doc.agent.Some? && doc.agent.value.state != "idle"
  {
    if |doc.messages| == 0 {
      return Retry(Empty);
    }
    var pmids, gaps, badState := Survey(doc.messages);
    if gaps > 0 {
      return Retry(Gaps(gaps));
    }
    if badState > 0 {
      return Retry(BadStates(badState));
    }
    if doc.agent == None {
      return Complete;
    }
    var agent := doc.agent.value;
    if agent.state == "idle" {
      return if agent.messageId in pmids then Complete else Retry(IdleAhead(agent.messageId));
    }
    v := Flag(MidTurn(agent.state));
  }

  /** The one pass over the messages. */
  method Survey(ms: seq<Message>) returns (pmids: set<string>, gaps: nat, badState: nat)
    ensures pmids == Pmids(ms)
    ensures gaps == 0 <==> forall k :: 0 <= k < |ms| ==> !IsGap(ms, k)
    ensures badState == 0 <==> forall k :: 0 <= k < |ms| ==> !IsBad(ms[k])
  {
    var base := -1;
    pmids, gaps, badState := {}, 0, 0;
    ghost var first := Base(ms);
    var i := 0;
    while i < |ms|
      invariant 0 <= i <= |ms|
      invariant pmids == Pmids(ms[..i])
      invariant if i <= first then base < 0 else base == ms[first].messageId.value
      invariant gaps == 0 <==> GapFree(ms, i)
      invariant badState == 0 <==> forall k :: 0 <= k < i ==> !IsBad(ms[k])
    {
      assert ms[..i + 1] == ms[..i] + [ms[i]];
      PmidsGrow(ms[..i], ms[i]);
      GapAt(ms, i, base);
      var m := ms[i];
      if m.pmid != "" {
        pmids := pmids + {m.pmid};
      }
      if m.messageId == None {
        gaps := gaps + 1;
      } else if base < 0 {
        base := m.messageId.value;
      } else if m.messageId.value != base + i {
        gaps := gaps + 1;
      }
      if m.assistant && !m.complete {
        badState := badState + 1;
      }
      i := i + 1;
    }
    assert ms[..i] == ms;
  }

  predicate GapFree(ms: seq<Message>, n: nat)
    requires n <= |ms|
  {
    forall k :: 0 <= k < n ==> !IsGap(ms, k)
  }

  /** What the pass knows of the base decides the next message. */
  lemma GapAt(ms: seq<Message>, i: nat, base: int)
    requires i < |ms| && if i <= Base(ms) then base < 0 else base == ms[Base(ms)].messageId.value
    ensures IsGap(ms, i) <==> ms[i].messageId == None || (base >= 0 && ms[i].messageId.value != base + i)
    ensures GapFree(ms, i + 1) <==> GapFree(ms, i) && !IsGap(ms, i)
    ensures i < Base(ms) ==> ms[i].messageId == None || ms[i].messageId.value < 0
    ensures i == Base(ms) ==> ms[i].messageId.Some? && ms[i].messageId.value >= 0
  {
  }

  lemma PmidsGrow(ms: seq<Message>, m: Message)
    ensures Pmids(ms + [m]) == Pmids(ms) + if m.pmid != "" then {m.pmid} else {}
  {
    var all := ms + [m];
    assert all[|ms|] == m;
    forall p | p in Pmids(ms) ensures p in Pmids(all) {
      var i :| 0 <= i < |ms| && ms[i].pmid == p;
      assert all[i].pmid == p;
    }
  }

  /** With ids counted from zero or one, no gaps means the ids run on without a break from the first. */
  lemma NoGapsIsContiguous(doc: Doc)
    requires doc.messages != [] && doc.messages[0].messageId.Some? && doc.messages[0].messageId.value >= 0
    ensures NoGaps(doc) <==>
              forall i :: 0 <= i < |doc.messages| ==>
                doc.messages[i].messageId == Some(doc.messages[0].messageId.value + i)
  {
    var ms := doc.messages;
    assert Base(ms) == 0;
    if NoGaps(doc) {
      forall i | 0 <= i < |ms| ensures ms[i].messageId == Some(ms[0].messageId.value + i) {
        assert !IsGap(ms, i);
      }
    }
  }

  // ---------- the bounded retry ----------

  const ATTEMPTS: nat := 3

  /** One fetch: a document, or an error that may or may not be worth trying again. */
  datatype Attempt = Got(doc: Doc) | Failed(terminal: bool, why: string)

  datatype Acquired = Captured(doc: Doc, note: Option<Note>) | Error(why: string) | Cancelled

  /** The attempt settles the matter: a terminal error, or a document not worth reading again. */
  predicate Decides(judge: Doc -> Verdict, a: Attempt) {
    match a
    case Got(doc) => !judge(doc).Retry?
    case Failed(terminal, _) => terminal
  }

  function NoteOf(v: Verdict): Option<Note> {
    if v.Complete? then None else Some(v.note)
  }

  /** The freshest document among the first n attempts, or n when there is none. */
  function Freshest(attempts: seq<Attempt>, n: nat): (i: nat)
    requires n <= |attempts|
    ensures i <= n
    ensures i < n ==> attempts[i].Got? && forall k :: i < k < n ==> attempts[k].Failed?
    ensures i == n ==> forall k :: 0 <= k < n ==> attempts[k].Failed?
  {
    if n == 0 then 0
    else if attempts[n - 1].Got? then n - 1
    else
      var i := Freshest(attempts, n - 1);
      if i == n - 1 then n else i
  }

  /** What an attempt amounts to when it is the answer. */
  function Decision(judge: Doc -> Verdict, a: Attempt): Acquired {
    match a
    case Got(doc) => Captured(doc, NoteOf(judge(doc)))
    case Failed(_, why) => Error(why)
  }

  /** The k-th attempt is made: none before it decides, and every pause before it runs out. */
  predicate Reaches(judge: Doc -> Verdict, attempts: seq<Attempt>, waits: seq<bool>, k: nat)
    requires k <= |attempts| <= |waits| + 1
  {
    forall j :: 0 <= j < k ==> !Decides(judge, attempts[j]) && (j < |waits| ==> waits[j])
  }

  /**
   At most three reads. The first that decides is the answer; when none does, the freshest document is captured
   with its note, and only when no read gave a document does the last error stand. waits says which of the
   pauses between reads the caller let run out.
   */
  method AcquireExport(attempts: seq<Attempt>, waits: seq<bool>, judge: Doc -> Verdict) returns (r: Acquired)
    requires |attempts| == ATTEMPTS && |waits| == ATTEMPTS - 1
    ensures r.Captured? ==> Got(r.doc) in attempts && r.note == NoteOf(judge(r.doc))
    ensures forall k :: 0 <= k < ATTEMPTS && Reaches(judge, attempts, waits, k) && Decides(judge, attempts[k]) ==>
              r == Decision(judge, attempts[k])
    ensures Reaches(judge, attempts, waits, ATTEMPTS) ==>
              var i := Freshest(attempts, ATTEMPTS);
              r == Decision(judge, attempts[if i < ATTEMPTS then i else ATTEMPTS - 1])
    ensures r.Cancelled? ==> exists k :: 0 <= k < |waits| && !waits[k]
    ensures forall k :: 0 <= k < |waits| && Reaches(judge, attempts, waits, k) && !Decides(judge, attempts[k]) && !waits[k] ==>
              r == Cancelled
  {
    var doc: Option<Doc>, note: Option<Note>, lastErr := None, None, "";
    var attempt := 0;
    while attempt < ATTEMPTS
      invariant 0 <= attempt <= ATTEMPTS
      invariant forall j :: 0 <= j < attempt ==> !Decides(judge, attempts[j])
      invariant forall j :: 0 <= j < attempt - 1 ==> waits[j]
      invariant doc.Some? <==> Freshest(attempts, attempt) < attempt
      invariant doc.Some? ==> attempts[Freshest(attempts, attempt)] == Got(doc.value) && note == NoteOf(judge(doc.value))
      invariant attempt > 0 && attempts[attempt - 1].Failed? ==> lastErr == attempts[attempt - 1].why
    {
      if attempt > 0 && !waits[attempt - 1] {
        return Cancelled;
      }
      var a := attempts[attempt];
      if a.Failed? {
        if a.terminal {
          return Error(a.why);
        }
        lastErr := a.why;
        attempt := attempt + 1;
        continue;
      }
      doc := Some(a.doc);
      var v := judge(a.doc);
      if v.Complete? {
        return Captured(a.doc, None);
      }
      if v.Flag? {
        return Captured(a.doc, Some(v.note));
      }
      note := Some(v.note);
      attempt := attempt + 1;
    }
    if doc.Some? {
      return Captured(doc.value, note);
    }
    r := Error(lastErr);
  }
}
