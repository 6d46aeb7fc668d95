/** What devin's transcript says: each message on the chain, then the verdicts no message answered with. */
module DevinVoices {
  import opened Wrappers
  import opened Clock
  import opened ToolPairing
  import opened Devin
  import opened StepViews
  import opened DevinTranscript

  /** Row k is the last under its id. */
  ghost predicate LastUnder(rows: seq<Row>, id: string, k: nat) {
    k < |rows| && rows[k].id == id && forall j :: k < j < |rows| ==> rows[j].id != id
  }

  /** A later row of an id replaces an earlier one. */
  lemma {:induction false} LastRowStands(rows: seq<Row>, id: string, k: nat)
    requires LastUnder(rows, id, k)
    ensures id in StatesOf(rows) && StatesOf(rows)[id] == rows[k].verdict
  {
    if k < |rows| - 1 {
      assert rows[|rows| - 1].id != id;
      assert LastUnder(rows[..|rows| - 1], id, k);
      LastRowStands(rows[..|rows| - 1], id, k);
    }
  }

  lemma {:induction false} OnlyRowsStand(rows: seq<Row>, id: string)
    requires id in StatesOf(rows)
    ensures exists k: nat :: LastUnder(rows, id, k)
  {
    var n := |rows| - 1;
    if rows[n].id == id {
      assert LastUnder(rows, id, n);
    } else {
      OnlyRowsStand(rows[..n], id);
      var k: nat :| LastUnder(rows[..n], id, k);
      forall j | k < j < |rows| ensures rows[j].id != id {
        assert j < n ==> rows[..n][j].id != id;
      }
      assert LastUnder(rows, id, k);
    }
  }

  /** The last row under the id a tool message answers says it was an error. */
  ghost predicate RuledError(rows: seq<Row>, id: string) {
    exists k: nat :: LastUnder(rows, id, k) && rows[k].verdict.isError
  }

  function CallsSay(c: Chat, at: Time, calls: seq<(string, string)>): seq<Opened> {
    if calls == [] then []
    else
      CallsSay(c, at, calls[..|calls| - 1])
      + [Opened(Said(ToolUse, at, c.messageId, "", "", 0, false), calls[|calls| - 1].0, calls[|calls| - 1].1)]
  }

  /** What one message on the chain says; a node that does not parse says nothing. */
  ghost function NodeSays(kind: Kind, n: Node, rows: seq<Row>): View {
    if n.chat == None then NOTHING
    else
      var c := n.chat.value;
      var at := if c.at == None then n.createdAt else c.at.value;
      if c.role == "user" then
        View(if kind != (if c.isUserInput then Prompt else Meta) then []
             else [Said(kind, at, c.messageId, if c.isUserInput then "" else "user", c.content, 0, false)], [], [])
      else if c.role == "assistant" then
        View(if kind == Thinking && c.thinking.Some? then
               [Said(Thinking, at, c.messageId, "", c.thinking.value, 0, c.thinking.value == "")]
             else if kind == Reply && c.content != "" then [Said(Reply, at, c.messageId, "", c.content, 0, false)] else [],
             CallsSay(c, at, c.toolCalls), [])
      else if c.role == "tool" then
        View([], [], [Given(Said(ToolResult, at, c.messageId, "", "", 0, false), c.toolCallId, "",
                            Result(at, c.content, 0, c.failed || RuledError(rows, c.toolCallId)))])
      else
        View(if kind == Meta then [Said(Meta, at, c.messageId, "role:" + c.role, c.content, 0, false)] else [], [], [])
  }

  ghost function ChainSays(kind: Kind, nodes: seq<Node>, chain: seq<nat>, rows: seq<Row>): View
    requires forall i :: 0 <= i < |chain| ==> chain[i] < |nodes|
  {
    if chain == [] then NOTHING
    else Plus(ChainSays(kind, nodes, chain[..|chain| - 1], rows), NodeSays(kind, nodes[chain[|chain| - 1]], rows))
  }

  /** A tool message on the chain answers under the id. */
  ghost predicate Answered(nodes: seq<Node>, chain: seq<nat>, id: string)
    requires forall i :: 0 <= i < |chain| ==> chain[i] < |nodes|
  {
    exists i :: 0 <= i < |chain| && nodes[chain[i]].chat.Some?
      && nodes[chain[i]].chat.value.role == "tool" && nodes[chain[i]].chat.value.toolCallId == id
  }

  /** The verdicts no tool message answered with, in row order: what the last row under the id says. */
  ghost function VerdictsSay(nodes: seq<Node>, chain: seq<nat>, rows: seq<Row>, k: nat): seq<Given>
    requires k <= |rows| && forall i :: 0 <= i < |chain| ==> chain[i] < |nodes|
  {
    if k == 0 then []
    else
      var front, row := VerdictsSay(nodes, chain, rows, k - 1), rows[k - 1];
      if !row.hasUpdate || Answered(nodes, chain, row.id) then front
      else
        var st := StatesOf(rows)[row.id];
        front + [Given(Said(ToolResult, 0, "tool-result:" + row.id, "", "", 0, false), row.id, st.name,
                       Result(0, st.text, 0, st.isError))]
  }

  lemma {:induction false} CallsSpeak(kind: Kind, n: Node, calls: seq<(string, string)>)
    requires n.chat.Some?
    ensures Of(kind, CallSteps(n, calls)) == View([], CallsSay(n.chat.value, TimeOf(n), calls), [])
  {
    if calls != [] {
      var front, c := calls[..|calls| - 1], calls[|calls| - 1];
      CallsSpeak(kind, n, front);
      ViewsAppend(kind, CallSteps(n, front), [Step.Call(DevinTranscript.Voiced(n, ToolUse, "", ""), c.0, c.1)]);
      ViewOfOne(kind, Step.Call(DevinTranscript.Voiced(n, ToolUse, "", ""), c.0, c.1));
    }
  }

  lemma MaybeSays(kind: Kind, steps: seq<Step>, ev: Said)
    requires steps == [Step.Say(ev)] || steps == []
    ensures Of(kind, steps) == View(if steps != [] && ev.kind == kind then [ev] else [], [], [])
  {
    ViewOfOne(kind, Step.Say(ev));
  }

  lemma PartsSay(kind: Kind, thought: seq<Step>, reply: seq<Step>, calls: seq<Step>, t: seq<Said>, r: seq<Said>, c: seq<Opened>)
    requires Of(kind, thought) == View(t, [], []) && Of(kind, reply) == View(r, [], []) && Of(kind, calls) == View([], c, [])
    ensures Of(kind, thought + reply + calls) == View(t + r, c, [])
  {
    ViewsAppend(kind, thought + reply, calls);
    ViewsAppend(kind, thought, reply);
  }

  lemma ReplySpeaks(kind: Kind, n: Node, rows: seq<Row>)
    requires n.chat.Some? && n.chat.value.role == "assistant"
    ensures Of(kind, NodeSteps(n, StatesOf(rows))) == NodeSays(kind, n, rows)
  {
    var c := n.chat.value;
    var thinking := if c.thinking.Some? then c.thinking.value else "";
    var thought, reply := DevinTranscript.Voiced(n, Thinking, "", thinking), DevinTranscript.Voiced(n, Reply, "", c.content);
    var first := if c.thinking.Some? then [Step.Say(thought)] else [];
    var second := if c.content != "" then [Step.Say(reply)] else [];
    MaybeSays(kind, first, thought);
    MaybeSays(kind, second, reply);
    CallsSpeak(kind, n, c.toolCalls);
    PartsSay(kind, first, second, CallSteps(n, c.toolCalls),
             if c.thinking.Some? && kind == Thinking then [thought] else [],
             if c.content != "" && kind == Reply then [reply] else [],
             CallsSay(c, TimeOf(n), c.toolCalls));
  }

  lemma RuledAsStated(rows: seq<Row>, id: string)
    ensures RuledError(rows, id) <==> id in StatesOf(rows) && StatesOf(rows)[id].isError
  {
    if id in StatesOf(rows) {
      OnlyRowsStand(rows, id);
      var k: nat :| LastUnder(rows, id, k);
      LastRowStands(rows, id, k);
    }
    forall k: nat | LastUnder(rows, id, k) ensures id in StatesOf(rows) && StatesOf(rows)[id] == rows[k].verdict {
      LastRowStands(rows, id, k);
    }
  }

  lemma NodeSpeaks(kind: Kind, n: Node, rows: seq<Row>)
    ensures Of(kind, NodeSteps(n, StatesOf(rows))) == NodeSays(kind, n, rows)
  {
    if n.chat.Some? && n.chat.value.role == "assistant" {
      ReplySpeaks(kind, n, rows);
    } else if n.chat.Some? {
      ViewOfOne(kind, NodeSteps(n, StatesOf(rows))[0]);
      RuledAsStated(rows, n.chat.value.toolCallId);
    }
  }

  lemma {:induction false} ChainSpeaks(kind: Kind, nodes: seq<Node>, chain: seq<nat>, rows: seq<Row>)
    requires forall i :: 0 <= i < |chain| ==> chain[i] < |nodes|
    ensures Of(kind, ChainSteps(nodes, chain, StatesOf(rows))) == ChainSays(kind, nodes, chain, rows)
  {
    if chain != [] {
      var front, n := chain[..|chain| - 1], nodes[chain[|chain| - 1]];
      ChainSpeaks(kind, nodes, front, rows);
      NodeSpeaks(kind, n, rows);
      ViewsAppend(kind, ChainSteps(nodes, front, StatesOf(rows)), NodeSteps(n, StatesOf(rows)));
    }
  }

  lemma {:induction false} SpokenForAreAnswered(nodes: seq<Node>, chain: seq<nat>, states: map<string, Verdict>, id: string)
    requires forall i :: 0 <= i < |chain| ==> chain[i] < |nodes|
    ensures id in SpokenFor(nodes, chain, states) <==> id in states && Answered(nodes, chain, id)
  {
    if chain != [] {
      var front := chain[..|chain| - 1];
      SpokenForAreAnswered(nodes, front, states, id);
      assert forall i :: 0 <= i < |front| ==> front[i] == chain[i];
      if Answered(nodes, front, id) {
        var i :| 0 <= i < |front| && nodes[front[i]].chat.Some?
                 && nodes[front[i]].chat.value.role == "tool" && nodes[front[i]].chat.value.toolCallId == id;
        assert nodes[chain[i]].chat.value.toolCallId == id;
      }
    }
  }

  lemma {:induction false} VerdictsSpeak(kind: Kind, nodes: seq<Node>, chain: seq<nat>, rows: seq<Row>, k: nat)
    requires k <= |rows| && forall i :: 0 <= i < |chain| ==> chain[i] < |nodes|
    ensures Of(kind, VerdictSteps(rows[..k], SpokenFor(nodes, chain, StatesOf(rows)), StatesOf(rows)))
         == View([], [], VerdictsSay(nodes, chain, rows, k))
  {
    if k > 0 {
      var states := StatesOf(rows);
      var answered := SpokenFor(nodes, chain, states);
      VerdictsSpeak(kind, nodes, chain, rows, k - 1);
      assert rows[..k][..k - 1] == rows[..k - 1];
      SpokenForAreAnswered(nodes, chain, states, rows[k - 1].id);
      ViewsAppend(kind, VerdictSteps(rows[..k - 1], answered, states), [VerdictStep(rows[k - 1], states)]);
      ViewOfOne(kind, VerdictStep(rows[k - 1], states));
    }
  }

  /**
   The transcript says, in each kind, exactly what the messages on the chain say, in order and once; and after them it
   hands to the pairing the verdicts no message on the chain answered with, in row order, and nothing else.
   */
  lemma TranscriptSays(kind: Kind, nodes: seq<Node>, chain: seq<nat>, rows: seq<Row>)
    requires forall i :: 0 <= i < |chain| ==> chain[i] < |nodes|
    ensures Of(kind, TranscriptSteps(nodes, chain, rows))
         == Plus(ChainSays(kind, nodes, chain, rows), View([], [], VerdictsSay(nodes, chain, rows, |rows|)))
  {
    var states := StatesOf(rows);
    var answered := SpokenFor(nodes, chain, states);
    ChainSpeaks(kind, nodes, chain, rows);
    VerdictsSpeak(kind, nodes, chain, rows, |rows|);
    assert rows[..|rows|] == rows;
    ViewsAppend(kind, ChainSteps(nodes, chain, states), VerdictSteps(rows, answered, states));
  }

  /** What earlier messages say comes before what later ones do. */
  lemma {:induction false} TranscriptOnward(nodes: seq<Node>, chain: seq<nat>, states: map<string, Verdict>, k: nat)
    requires k <= |chain| && forall i :: 0 <= i < |chain| ==> chain[i] < |nodes|
    ensures ChainSteps(nodes, chain[..k], states) <= ChainSteps(nodes, chain, states)
  {
    if k == |chain| {
      assert chain[..k] == chain;
    } else {
      var front := chain[..|chain| - 1];
      TranscriptOnward(nodes, front, states, k);
      assert front[..k] == chain[..k];
    }
  }

  /** Where a message stands among those of its kind: its thought, then its reply, then its calls. */
  function Rank(s: Step): nat {
    if s.Call? then 2 else if s.ev.kind == Reply then 1 else 0
  }

  lemma {:induction false} CallsRankLast(n: Node, calls: seq<(string, string)>)
    requires n.chat.Some?
    ensures forall i :: 0 <= i < |CallSteps(n, calls)| ==> Rank(CallSteps(n, calls)[i]) == 2
  {
    if calls != [] {
      CallsRankLast(n, calls[..|calls| - 1]);
    }
  }

  lemma ThoughtReplyCalls(n: Node, states: map<string, Verdict>)
    ensures forall i, j :: 0 <= i < j < |NodeSteps(n, states)| ==> Rank(NodeSteps(n, states)[i]) <= Rank(NodeSteps(n, states)[j])
  {
    if n.chat.Some? {
      CallsRankLast(n, n.chat.value.toolCalls);
    }
  }
}
