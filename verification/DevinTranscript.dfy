/** Devin's offline reader: the chain's messages, then the verdicts no message on the chain carried. */
module DevinTranscript {
  import opened Wrappers
  import opened Clock
  import opened ToolPairing
  import opened Devin

  /** The session's tool verdicts; a later row of an id replaces an earlier one. */
  function StatesOf(rows: seq<Row>): (m: map<string, Verdict>)
    ensures forall k :: 0 <= k < |rows| ==> rows[k].id in m
  {
    if rows == [] then map[] else StatesOf(rows[..|rows| - 1])[rows[|rows| - 1].id := rows[|rows| - 1].verdict]
  }

  function TimeOf(n: Node): Time {
    if n.chat.Some? && n.chat.value.at.Some? then n.chat.value.at.value else n.createdAt
  }

  function Voiced(n: Node, kind: Kind, tag: string, text: string): Said
    requires n.chat.Some?
  {
    Said(kind, TimeOf(n), n.chat.value.messageId, tag, text, 0, kind == Thinking && text == "")
  }

  function CallSteps(n: Node, calls: seq<(string, string)>): seq<Step>
    requires n.chat.Some?
  {
    if calls == [] then []
    else
      var c := calls[|calls| - 1];
      CallSteps(n, calls[..|calls| - 1]) + [Step.Call(Voiced(n, ToolUse, "", ""), c.0, c.1)]
  }

  function ResultOf(n: Node, states: map<string, Verdict>): Result
    requires n.chat.Some?
  {
    var c := n.chat.value;
    Result(TimeOf(n), c.content, 0, c.failed || (c.toolCallId in states && states[c.toolCallId].isError))
  }

  /** What one message on the chain asks of the pairing. */
  function NodeSteps(n: Node, states: map<string, Verdict>): seq<Step> {
    if n.chat == None then []
    else
      var c := n.chat.value;
      if c.role == "user" then
        [Step.Say(if c.isUserInput then Voiced(n, Prompt, "", c.content) else Voiced(n, Meta, "user", c.content))]
      else if c.role == "assistant" then
        (if c.thinking.Some? then [Step.Say(Voiced(n, Thinking, "", c.thinking.value))] else [])
        + (if c.content != "" then [Step.Say(Voiced(n, Reply, "", c.content))] else [])
        + CallSteps(n, c.toolCalls)
      else if c.role == "tool" then
        [Step.Answer(Voiced(n, ToolResult, "", ""), c.toolCallId, "", ResultOf(n, states))]
      else
        [Step.Say(Voiced(n, Meta, "role:" + c.role, c.content))]
  }

  function ChainSteps(nodes: seq<Node>, chain: seq<nat>, states: map<string, Verdict>): seq<Step>
    requires forall i :: 0 <= i < |chain| ==> chain[i] < |nodes|
  {
    if chain == [] then []
    else ChainSteps(nodes, chain[..|chain| - 1], states) + NodeSteps(nodes[chain[|chain| - 1]], states)
  }

  /** The row ids a tool message on the chain spoke for. */
  function SpokenFor(nodes: seq<Node>, chain: seq<nat>, states: map<string, Verdict>): set<string>
    requires forall i :: 0 <= i < |chain| ==> chain[i] < |nodes|
  {
    if chain == [] then {}
    else
      var front, n := SpokenFor(nodes, chain[..|chain| - 1], states), nodes[chain[|chain| - 1]];
      if Consumes(n, states) then front + {n.chat.value.toolCallId} else front
  }

  predicate Consumes(n: Node, states: map<string, Verdict>) {
    n.chat.Some? && n.chat.value.role == "tool" && n.chat.value.toolCallId in states
  }

  /** The rows the second pass places: those with a verdict no tool message spoke for. */
  predicate Owed(row: Row, answered: set<string>) {
    row.hasUpdate && row.id !in answered
  }

  function VerdictStep(row: Row, states: map<string, Verdict>): Step
    requires row.id in states
  {
    var st := states[row.id];
    Step.Answer(Said(ToolResult, 0, "tool-result:" + row.id, "", "", 0, false), row.id, st.name,
                Result(0, st.text, 0, st.isError))
  }

  function VerdictSteps(rows: seq<Row>, answered: set<string>, states: map<string, Verdict>): seq<Step>
    requires forall k :: 0 <= k < |rows| ==> rows[k].id in states
  {
    if rows == [] then []
    else
      var front, row := VerdictSteps(rows[..|rows| - 1], answered, states), rows[|rows| - 1];
      if Owed(row, answered) then front + [VerdictStep(row, states)] else front
  }

  function OwedCount(rows: seq<Row>, answered: set<string>): nat {
    if rows == [] then 0
    else OwedCount(rows[..|rows| - 1], answered) + if Owed(rows[|rows| - 1], answered) then 1 else 0
  }

  function TranscriptSteps(nodes: seq<Node>, chain: seq<nat>, rows: seq<Row>): seq<Step>
    requires forall i :: 0 <= i < |chain| ==> chain[i] < |nodes|
  {
    var states := StatesOf(rows);
    ChainSteps(nodes, chain, states) + VerdictSteps(rows, SpokenFor(nodes, chain, states), states)
  }

  // ---------- the reader ----------

  method ReadStates(rows: seq<Row>) returns (states: map<string, Verdict>)
    ensures states == StatesOf(rows)
  {
    states := map[];
    var k := 0;
    while k < |rows|
      invariant 0 <= k <= |rows|
      invariant states == StatesOf(rows[..k])
    {
      assert rows[..k + 1][..k] == rows[..k];
      states := states[rows[k].id := rows[k].verdict];
      k := k + 1;
    }
    assert rows[..k] == rows;
  }

  method ReadCalls(r: Reading, n: Node, calls: seq<(string, string)>)
    requires r.Valid() && n.chat.Some?
    modifies r, r.tools
    ensures r.Valid() && r.steps == old(r.steps) + CallSteps(n, calls) && fresh(r.tools - old(r.tools))
  {
    var k := 0;
    while k < |calls|
      invariant 0 <= k <= |calls|
      invariant r.Valid() && r.steps == old(r.steps) + CallSteps(n, calls[..k])
      invariant fresh(r.tools - old(r.tools))
    {
      assert calls[..k + 1][..k] == calls[..k];
      r.Call(Voiced(n, ToolUse, "", ""), calls[k].0, calls[k].1);
      k := k + 1;
    }
    assert calls[..k] == calls;
  }

  method ReadNode(r: Reading, n: Node, states: map<string, Verdict>, answered: set<string>)
    returns (spoken: set<string>)
    requires r.Valid()
    modifies r, r.tools
    ensures r.Valid() && r.steps == old(r.steps) + NodeSteps(n, states) && fresh(r.tools - old(r.tools))
    ensures spoken == answered + if Consumes(n, states) then {n.chat.value.toolCallId} else {}
  {
    spoken := answered;
    if n.chat == None {
      assert r.steps + [] == r.steps;
      return;
    }
    var c := n.chat.value;
    if c.role == "user" {
      r.Say(if c.isUserInput then Voiced(n, Prompt, "", c.content) else Voiced(n, Meta, "user", c.content));
    } else if c.role == "assistant" {
      ReadReply(r, n);
    } else if c.role == "tool" {
      var isError := c.failed;
      if c.toolCallId in states {
        spoken := spoken + {c.toolCallId};
        if states[c.toolCallId].isError {
          isError := true;
        }
      }
      r.Answer(Voiced(n, ToolResult, "", ""), c.toolCallId, "", Result(TimeOf(n), c.content, 0, isError));
    } else {
      r.Say(Voiced(n, Meta, "role:" + c.role, c.content));
    }
  }

  method ReadReply(r: Reading, n: Node)
    requires r.Valid() && n.chat.Some? && n.chat.value.role == "assistant"
    modifies r, r.tools
    ensures r.Valid() && r.steps == old(r.steps) + NodeSteps(n, map[]) && fresh(r.tools - old(r.tools))
  {
    var c := n.chat.value;
    ghost var thought, reply: seq<Step> := [], [];
    if c.thinking.Some? {
      r.Say(Voiced(n, Thinking, "", c.thinking.value));
      thought := [Step.Say(Voiced(n, Thinking, "", c.thinking.value))];
    }
    if c.content != "" {
      r.Say(Voiced(n, Reply, "", c.content));
      reply := [Step.Say(Voiced(n, Reply, "", c.content))];
    }
    Regroup(old(r.steps), thought, reply, CallSteps(n, c.toolCalls));
    ReadCalls(r, n, c.toolCalls);
  }

  lemma Regroup(a: seq<Step>, b: seq<Step>, c: seq<Step>, d: seq<Step>)
    ensures a + b + c + d == a + (b + c + d)
    ensures a + [] == a
  {
  }

  method ReadVerdicts(r: Reading, rows: seq<Row>, answered: set<string>, states: map<string, Verdict>)
    requires r.Valid() && forall k :: 0 <= k < |rows| ==> rows[k].id in states
    modifies r, r.tools
    ensures r.Valid() && r.steps == old(r.steps) + VerdictSteps(rows, answered, states)
  {
    var k := 0;
    while k < |rows|
      invariant 0 <= k <= |rows|
      invariant r.Valid() && r.steps == old(r.steps) + VerdictSteps(rows[..k], answered, states)
      invariant fresh(r.tools - old(r.tools))
    {
      assert rows[..k + 1][..k] == rows[..k];
      var row := rows[k];
      if row.hasUpdate && row.id !in answered {
        var st := states[row.id];
        r.Answer(Said(ToolResult, 0, "tool-result:" + row.id, "", "", 0, false), row.id, st.name,
                 Result(0, st.text, 0, st.isError));
      }
      k := k + 1;
    }
    assert rows[..k] == rows;
  }

  lemma ChainGrows(nodes: seq<Node>, chain: seq<nat>, k: nat, states: map<string, Verdict>, before: seq<Step>)
    requires k < |chain| && forall i :: 0 <= i < |chain| ==> chain[i] < |nodes|
    ensures before + ChainSteps(nodes, chain[..k + 1], states)
         == before + ChainSteps(nodes, chain[..k], states) + NodeSteps(nodes[chain[k]], states)
    ensures SpokenFor(nodes, chain[..k + 1], states)
         == SpokenFor(nodes, chain[..k], states)
            + if Consumes(nodes[chain[k]], states) then {nodes[chain[k]].chat.value.toolCallId} else {}
  {
    assert chain[..k + 1][..k] == chain[..k];
  }

  method ReadChain(r: Reading, nodes: seq<Node>, chain: seq<nat>, states: map<string, Verdict>)
    returns (answered: set<string>)
    requires r.Valid() && forall i :: 0 <= i < |chain| ==> chain[i] < |nodes|
    modifies r, r.tools
    ensures r.Valid() && r.steps == old(r.steps) + ChainSteps(nodes, chain, states)
    ensures fresh(r.tools - old(r.tools))
    ensures answered == SpokenFor(nodes, chain, states)
  {
    answered := {};
    var k := 0;
    while k < |chain|
      invariant 0 <= k <= |chain|
      invariant r.Valid() && fresh(r.tools - old(r.tools))
      invariant r.steps == old(r.steps) + ChainSteps(nodes, chain[..k], states)
      invariant answered == SpokenFor(nodes, chain[..k], states)
    {
      ChainGrows(nodes, chain, k, states, old(r.steps));
      answered := ReadNode(r, nodes[chain[k]], states, answered);
      k := k + 1;
    }
    assert chain[..k] == chain;
  }

  method ReadTranscript(nodes: seq<Node>, head: Option<int>, rows: seq<Row>) returns (r: Reading)
    ensures r.Valid()
    ensures r.steps == TranscriptSteps(nodes, ChainBy(nodes, ReaderLinks(nodes), head), rows)
  {
    var states := ReadStates(rows);
    var chain := ReadActiveChain(nodes, head);
    r := new Reading();
    var answered := ReadChain(r, nodes, chain, states);
    assert r.steps == ChainSteps(nodes, chain, states);
    ReadVerdicts(r, rows, answered, states);
  }

  // ---------- what the reader's transcript is worth ----------

  lemma {:induction false} OwedRowsAreSteps(rows: seq<Row>, answered: set<string>, states: map<string, Verdict>)
    requires forall k :: 0 <= k < |rows| ==> rows[k].id in states
    ensures |VerdictSteps(rows, answered, states)| == OwedCount(rows, answered)
    ensures forall s :: s in VerdictSteps(rows, answered, states) ==> s.Answer? && !Asks(s)
  {
    if rows != [] {
      OwedRowsAreSteps(rows[..|rows| - 1], answered, states);
    }
  }

  /**
   The second pass places every verdict no message carried, each in exactly one event, whether that is a call
   still open on the chain or an event of its own.
   */
  lemma OwedVerdictsArePlaced(nodes: seq<Node>, chain: seq<nat>, rows: seq<Row>)
    requires forall i :: 0 <= i < |chain| ==> chain[i] < |nodes|
    ensures var steps := TranscriptSteps(nodes, chain, rows);
            var states := StatesOf(rows);
            var first := |ChainSteps(nodes, chain, states)|;
            && |steps| == first + OwedCount(rows, SpokenFor(nodes, chain, states))
            && forall j :: first <= j < |steps| ==> steps[j].Answer? && HeldExactlyOnce(steps, j)
  {
    var states := StatesOf(rows);
    var answered := SpokenFor(nodes, chain, states);
    OwedRowsAreSteps(rows, answered, states);
    var steps := TranscriptSteps(nodes, chain, rows);
    LastAreAnswers(ChainSteps(nodes, chain, states), VerdictSteps(rows, answered, states));
    ResultsAreConserved(steps);
  }

  lemma LastAreAnswers(chain: seq<Step>, owed: seq<Step>)
    requires forall step :: step in owed ==> step.Answer?
    ensures forall j :: |chain| <= j < |chain + owed| ==> (chain + owed)[j].Answer?
  {
    forall j | |chain| <= j < |chain + owed| ensures (chain + owed)[j].Answer? {
      assert (chain + owed)[j] == owed[j - |chain|] && owed[j - |chain|] in owed;
    }
  }

  lemma {:induction false} PromptsAppend(a: seq<Step>, b: seq<Step>)
    ensures PromptSteps(a + b) == PromptSteps(a) + PromptSteps(b)
  {
    if b == [] {
      assert a + b == a;
    } else {
      PromptsAppend(a, b[..|b| - 1]);
      assert (a + b)[..|a + b| - 1] == a + b[..|b| - 1];
    }
  }

  predicate Quiet(steps: seq<Step>) {
    forall j :: 0 <= j < |steps| ==> !Asks(steps[j])
  }

  lemma {:induction false} QuietHasNoPrompts(steps: seq<Step>)
    requires Quiet(steps)
    ensures PromptSteps(steps) == 0
  {
    if steps != [] {
      QuietHasNoPrompts(steps[..|steps| - 1]);
    }
  }

  lemma {:induction false} CallsAreQuiet(n: Node, calls: seq<(string, string)>)
    requires n.chat.Some?
    ensures Quiet(CallSteps(n, calls))
  {
    if calls != [] {
      CallsAreQuiet(n, calls[..|calls| - 1]);
    }
  }

  lemma NodePrompts(n: Node, states: map<string, Verdict>)
    ensures PromptSteps(NodeSteps(n, states)) == if IsPrompt(n) then 1 else 0
    ensures forall j :: 0 <= j < |NodeSteps(n, states)| && NodeSteps(n, states)[j].Answer? ==> !Asks(NodeSteps(n, states)[j])
  {
    if n.chat.Some? && n.chat.value.role == "assistant" {
      CallsAreQuiet(n, n.chat.value.toolCalls);
      QuietHasNoPrompts(NodeSteps(n, states));
    } else if n.chat.Some? {
      assert NodeSteps(n, states)[..0] == [];
    }
  }

  lemma NodePromptsAppend(steps: seq<Step>, n: Node, states: map<string, Verdict>)
    ensures PromptSteps(steps + NodeSteps(n, states)) == PromptSteps(steps) + if IsPrompt(n) then 1 else 0
  {
    NodePrompts(n, states);
    PromptsAppend(steps, NodeSteps(n, states));
  }

  lemma {:induction false} ChainPrompts(nodes: seq<Node>, chain: seq<nat>, states: map<string, Verdict>)
    requires forall i :: 0 <= i < |chain| ==> chain[i] < |nodes|
    ensures PromptSteps(ChainSteps(nodes, chain, states)) == CountsOf(nodes, chain).users
  {
    if chain != [] {
      var front, i := chain[..|chain| - 1], chain[|chain| - 1];
      ChainPrompts(nodes, front, states);
      NodePromptsAppend(ChainSteps(nodes, front, states), nodes[i], states);
      CountsAppend(nodes, front, i);
      assert chain == front + [i];
    }
  }

  lemma {:induction false} ChainResultsAreQuiet(nodes: seq<Node>, chain: seq<nat>, states: map<string, Verdict>)
    requires forall i :: 0 <= i < |chain| ==> chain[i] < |nodes|
    ensures forall s :: s in ChainSteps(nodes, chain, states) && s.Answer? ==> !Asks(s)
  {
    if chain != [] {
      ChainResultsAreQuiet(nodes, chain[..|chain| - 1], states);
      NodePrompts(nodes[chain[|chain| - 1]], states);
    }
  }

  lemma TranscriptPrompts(nodes: seq<Node>, chain: seq<nat>, rows: seq<Row>)
    requires forall i :: 0 <= i < |chain| ==> chain[i] < |nodes|
    ensures var steps := TranscriptSteps(nodes, chain, rows);
            && (forall k :: 0 <= k < |Paired(steps).slots| ==> Paired(steps).slots[k].step < |steps|)
            && PromptsAmong(Spoken(steps, Paired(steps).slots)) == CountsOf(nodes, chain).users
  {
    var states := StatesOf(rows);
    var answered := SpokenFor(nodes, chain, states);
    var first, second := ChainSteps(nodes, chain, states), VerdictSteps(rows, answered, states);
    ChainPrompts(nodes, chain, states);
    ChainResultsAreQuiet(nodes, chain, states);
    OwedRowsAreSteps(rows, answered, states);
    PromptsAppend(first, second);
    forall j | 0 <= j < |second| ensures !Asks(second[j]) { assert second[j] in second; }
    QuietHasNoPrompts(second);
    forall j | 0 <= j < |first + second| && (first + second)[j].Answer? ensures !Asks((first + second)[j]) {
      assert (first + second)[j] in first || (first + second)[j] in second;
    }
    PromptsAreKept(first + second);
  }

  /**
   Capture a session and read its export back: unless the chain goes on for the reader past the root capture found,
   the reader shows exactly as many prompts as the capture counted users; and always as many as its own chain has.
   */
  method CaptureThenRead(nodes: seq<Node>, head: Option<int>, rows: seq<Row>)
    returns (counts: Counts, diags: seq<Diag>, incomplete: bool, r: Reading)
    ensures r.Valid()
    ensures PromptsAmong(seq(|r.events|, k requires 0 <= k < |r.events| reads r => r.events[k].said)) ==
              CountsOf(nodes, ChainBy(nodes, ReaderLinks(nodes), head)).users
    ensures !GoesOn(nodes, head) ==>
              PromptsAmong(seq(|r.events|, k requires 0 <= k < |r.events| reads r => r.events[k].said)) == counts.users
  {
    counts, diags, incomplete := AnalyzeChain(nodes, head);
    r := ReadTranscript(nodes, head, rows);
    ChainsAgreeExactly(nodes, head);
    TranscriptPrompts(nodes, ChainBy(nodes, ReaderLinks(nodes), head), rows);
    assert seq(|r.events|, k requires 0 <= k < |r.events| reads r => r.events[k].said)
        == Spoken(r.steps, Paired(r.steps).slots);
  }
}
