/** Devin's message forest: the chain capture counts, the chain the reader replays, and the tool verdicts beside it. */
module Devin {
  import opened Wrappers
  import opened Clock
  import opened ParentWalk

  /** A parsed chat_message; at is its own timestamp where it parses, failed its tool verdict. */
  datatype Chat = Chat(role: string, messageId: string, content: string, at: Option<Time>, isUserInput: bool,
                       thinking: Option<string>, toolCalls: seq<(string, string)>, toolCallId: string, failed: bool)

  /** A message_nodes row; chat None is malformed JSON. */
  datatype Node = Node(id: int, parent: Option<int>, chat: Option<Chat>, createdAt: Time)

  /** What a tool_call_state row reads as; hasUpdate says it carries a verdict. */
  datatype Verdict = Verdict(name: string, text: string, isError: bool)
  datatype Row = Row(id: string, hasUpdate: bool, verdict: Verdict)

  datatype Diag = Malformed(node: int) | Cycle(at: int) | Missing(at: int)
  datatype Counts = Counts(users: nat, assistants: nat)

  // ---------- the reference ----------

  function Index(nodes: seq<Node>): (m: map<int, nat>)
    ensures forall id :: id in m ==> m[id] < |nodes| && nodes[m[id]].id == id
    ensures forall i :: 0 <= i < |nodes| ==> nodes[i].id in m
  {
    if nodes == [] then map[] else Index(nodes[..|nodes| - 1])[nodes[|nodes| - 1].id := |nodes| - 1]
  }

  function ForestOf(nodes: seq<Node>): Links<int> {
    var index := Index(nodes);
    map id | id in index :: nodes[index[id]].parent
  }

  /** The walked part of a chain, root first; a missing node or a cycle cuts it short. */
  function ChainBy(nodes: seq<Node>, links: Links<int>, head: Option<int>): (chain: seq<nat>)
    requires links.Keys == Index(nodes).Keys
    ensures forall i :: 0 <= i < |chain| ==> chain[i] < |nodes|
  {
    if head == None then []
    else
      WalkFrom(links, head.value, [], head.value);
      var path, index := Walk(links, [], head.value).path, Index(nodes);
      seq(|path|, i requires 0 <= i < |path| => index[path[|path| - 1 - i]])
  }

  function ActiveChain(nodes: seq<Node>, head: Option<int>): (chain: seq<nat>)
    ensures forall i :: 0 <= i < |chain| ==> chain[i] < |nodes|
  {
    ChainBy(nodes, ForestOf(nodes), head)
  }

  predicate IsPrompt(n: Node) {
    n.chat.Some? && n.chat.value.role == "user" && n.chat.value.isUserInput
  }

  predicate IsReply(n: Node) {
    n.chat.Some? && n.chat.value.role == "assistant"
  }

  function CountsOf(nodes: seq<Node>, chain: seq<nat>): Counts
    requires forall i :: 0 <= i < |chain| ==> chain[i] < |nodes|
  {
    if chain == [] then Counts(0, 0)
    else
      var rest, n := CountsOf(nodes, chain[1..]), nodes[chain[0]];
      Counts(rest.users + if IsPrompt(n) then 1 else 0, rest.assistants + if IsReply(n) then 1 else 0)
  }

  /** The places on a chain where someone of the role speaks; of the user, only what the user typed. */
  ghost function SpokenBy(nodes: seq<Node>, chain: seq<nat>, role: string): set<nat>
    requires forall i :: 0 <= i < |chain| ==> chain[i] < |nodes|
  {
    set i: nat | i < |chain| && nodes[chain[i]].chat.Some? && nodes[chain[i]].chat.value.role == role
                 && (role == "user" ==> nodes[chain[i]].chat.value.isUserInput)
  }

  lemma {:induction false} CountsAppend(nodes: seq<Node>, chain: seq<nat>, i: nat)
    requires i < |nodes| && forall k :: 0 <= k < |chain| ==> chain[k] < |nodes|
    ensures CountsOf(nodes, chain + [i]).users == CountsOf(nodes, chain).users + if IsPrompt(nodes[i]) then 1 else 0
    ensures CountsOf(nodes, chain + [i]).assistants == CountsOf(nodes, chain).assistants + if IsReply(nodes[i]) then 1 else 0
  {
    if chain == [] {
      assert [i][1..] == [];
    } else {
      CountsAppend(nodes, chain[1..], i);
      assert (chain + [i])[1..] == chain[1..] + [i];
    }
  }

  lemma SpokenByGrows(nodes: seq<Node>, front: seq<nat>, i: nat, role: string)
    requires i < |nodes| && forall k :: 0 <= k < |front| ==> front[k] < |nodes|
    ensures var all := SpokenBy(nodes, front + [i], role);
            |all| == |SpokenBy(nodes, front, role)| + if |front| in all then 1 else 0
  {
    var n, chain := |front|, front + [i];
    assert forall k: nat :: k < n ==> chain[k] == front[k];
    assert SpokenBy(nodes, chain, role) == SpokenBy(nodes, front, role) + if n in SpokenBy(nodes, chain, role) then {n} else {};
  }

  /** Users are counted by what the user typed, assistants by role. */
  lemma {:induction false} CountsAreSpoken(nodes: seq<Node>, chain: seq<nat>)
    requires forall i :: 0 <= i < |chain| ==> chain[i] < |nodes|
    ensures CountsOf(nodes, chain).users == |SpokenBy(nodes, chain, "user")|
    ensures CountsOf(nodes, chain).assistants == |SpokenBy(nodes, chain, "assistant")|
  {
    if chain != [] {
      var front, i := chain[..|chain| - 1], chain[|chain| - 1];
      assert chain == front + [i];
      CountsAreSpoken(nodes, front);
      CountsAppend(nodes, front, i);
      SpokenByGrows(nodes, front, i, "user");
      SpokenByGrows(nodes, front, i, "assistant");
    }
  }

  // ---------- capture ----------

  datatype Mark = Mark(parent: Option<int>, user: bool, assistant: bool)

  function MarkOf(n: Node): Mark {
    Mark(n.parent, IsPrompt(n), IsReply(n))
  }

  function MarksOf(nodes: seq<Node>): map<int, Mark> {
    var index := Index(nodes);
    map id | id in index :: MarkOf(nodes[index[id]])
  }

  lemma MarksGrow(nodes: seq<Node>, i: nat)
    requires i < |nodes|
    ensures MarksOf(nodes[..i + 1]) == MarksOf(nodes[..i])[nodes[i].id := MarkOf(nodes[i])]
  {
    assert nodes[..i + 1][..i] == nodes[..i];
  }

  method ReadMarks(nodes: seq<Node>) returns (metas: map<int, Mark>, diags: seq<Diag>)
    ensures metas == MarksOf(nodes)
    ensures forall d :: d in diags ==> d.Malformed?
  {
    metas, diags := map[], [];
    var i := 0;
    while i < |nodes|
      invariant 0 <= i <= |nodes|
      invariant metas == MarksOf(nodes[..i])
      invariant forall d :: d in diags ==> d.Malformed?
    {
      MarksGrow(nodes, i);
      var n := nodes[i];
      var m := Mark(n.parent, false, false);
      if n.chat == None {
        diags := diags + [Malformed(n.id)];
      } else if n.chat.value.role == "user" {
        m := m.(user := n.chat.value.isUserInput);
      } else if n.chat.value.role == "assistant" {
        m := m.(assistant := true);
      }
      metas := metas[n.id := m];
      i := i + 1;
    }
    assert nodes[..i] == nodes;
  }

  /** Counts along the active chain only; anything but a root at its end makes the capture incomplete. */
  method AnalyzeChain(nodes: seq<Node>, head: Option<int>) returns (counts: Counts, diags: seq<Diag>, incomplete: bool)
    ensures counts == CountsOf(nodes, ActiveChain(nodes, head))
    ensures incomplete == (head.Some? && Walk(ForestOf(nodes), [], head.value).Broken?)
    ensures incomplete ==> diags != [] && diags[|diags| - 1] == Anomaly(Walk(ForestOf(nodes), [], head.value))
    ensures !incomplete ==> forall d :: d in diags ==> d.Malformed?
  {
    var metas;
    metas, diags := ReadMarks(nodes);
    counts, incomplete := Counts(0, 0), false;
    if head == None {
      return;
    }
    var anomaly;
    counts, anomaly := CountChain(nodes, metas, head.value);
    if anomaly.Some? {
      diags := diags + [anomaly.value];
      incomplete := true;
    }
  }

  function Anomaly(w: Walked<int>): Diag
    requires w.Broken?
  {
    if w.at in w.path then Cycle(w.at) else Missing(w.at)
  }

  method CountChain(ghost nodes: seq<Node>, metas: map<int, Mark>, head: int)
    returns (counts: Counts, anomaly: Option<Diag>)
    requires metas == MarksOf(nodes)
    ensures counts == CountsOf(nodes, ActiveChain(nodes, Some(head)))
    ensures var w := Walk(ForestOf(nodes), [], head);
            anomaly == if w.Broken? then Some(Anomaly(w)) else None
  {
    ghost var links := ForestOf(nodes);
    ghost var path: seq<int> := [];
    var seen: set<int>, id := {}, head;
    counts, anomaly := Counts(0, 0), None;
    while true
      invariant seen == Elems(path) && seen <= metas.Keys
      invariant Walk(links, path, id) == Walk(links, [], head)
      invariant counts == CountsOf(nodes, Backward(nodes, path))
      decreases metas.Keys - seen
    {
      if id in seen {
        anomaly := Some(Cycle(id));
        break;
      }
      if id !in metas {
        anomaly := Some(Missing(id));
        break;
      }
      seen := seen + {id};
      BackwardGrows(nodes, path, id);
      var m := metas[id];
      CountGrows(nodes, Backward(nodes, path), Index(nodes)[id]);
      path := path + [id];
      if m.user {
        counts := counts.(users := counts.users + 1);
      }
      if m.assistant {
        counts := counts.(assistants := counts.assistants + 1);
      }
      if m.parent == None {
        break;
      }
      id := m.parent.value;
    }
    WalkFrom(links, head, [], head);
    assert path == Walk(links, [], head).path;
    ChainIsBackward(nodes, head);
  }

  lemma CountGrows(nodes: seq<Node>, chain: seq<nat>, i: nat)
    requires i < |nodes| && forall k :: 0 <= k < |chain| ==> chain[k] < |nodes|
    ensures var was, now := CountsOf(nodes, chain), CountsOf(nodes, [i] + chain);
            && now.users == was.users + (if MarkOf(nodes[i]).user then 1 else 0)
            && now.assistants == was.assistants + (if MarkOf(nodes[i]).assistant then 1 else 0)
  {
    assert ([i] + chain)[1..] == chain;
  }

  lemma ChainIsBackward(nodes: seq<Node>, head: int)
    ensures Elems(Walk(ForestOf(nodes), [], head).path) <= Index(nodes).Keys
    ensures ActiveChain(nodes, Some(head)) == Backward(nodes, Walk(ForestOf(nodes), [], head).path)
  {
    WalkFrom(ForestOf(nodes), head, [], head);
  }

  /** A leaf-first path as rows, root first. */
  ghost function Backward(nodes: seq<Node>, path: seq<int>): (rows: seq<nat>)
    requires Elems(path) <= Index(nodes).Keys
    ensures forall i :: 0 <= i < |rows| ==> rows[i] < |nodes|
  {
    assert forall i :: 0 <= i < |path| ==> path[i] in Elems(path);
    seq(|path|, i requires 0 <= i < |path| => Index(nodes)[path[|path| - 1 - i]])
  }

  lemma BackwardGrows(nodes: seq<Node>, path: seq<int>, id: int)
    requires Elems(path) <= Index(nodes).Keys && id in Index(nodes)
    ensures Elems(path + [id]) == Elems(path) + {id}
    ensures Backward(nodes, path + [id]) == [Index(nodes)[id]] + Backward(nodes, path)
  {
  }

  // ---------- the reader's chain ----------

  /** The links the reader keeps: a later row of an id overrides an earlier parent only with a parent of its own. */
  function ReaderLinks(nodes: seq<Node>): (links: Links<int>)
    ensures links.Keys == Index(nodes).Keys
  {
    if nodes == [] then map[]
    else
      var front, n := ReaderLinks(nodes[..|nodes| - 1]), nodes[|nodes| - 1];
      front[n.id := if n.parent.Some? || n.id !in front then n.parent else front[n.id]]
  }

  /** Some row of an id has a parent, and the last row of that id has none. */
  ghost predicate DropsParent(nodes: seq<Node>, i: nat, j: nat) {
    && i < j < |nodes| && nodes[i].id == nodes[j].id
    && nodes[i].parent.Some? && nodes[j].parent == None
    && forall k :: j < k < |nodes| ==> nodes[k].id != nodes[j].id
  }

  lemma {:induction false} IndexIsLast(nodes: seq<Node>, id: int, k: nat)
    requires id in Index(nodes) && Index(nodes)[id] < k < |nodes|
    ensures nodes[k].id != id
  {
    if k < |nodes| - 1 {
      IndexIsLast(nodes[..|nodes| - 1], id, k);
    }
  }

  /** A last row's own parent is the reader's link. */
  lemma {:induction false} OwnParentWins(nodes: seq<Node>, id: int)
    requires id in Index(nodes) && nodes[Index(nodes)[id]].parent.Some?
    ensures ReaderLinks(nodes)[id] == nodes[Index(nodes)[id]].parent
  {
    if nodes[|nodes| - 1].id != id {
      OwnParentWins(nodes[..|nodes| - 1], id);
    }
  }

  /** The reader knows a parent as soon as any row names one. */
  lemma {:induction false} AnyParentStays(nodes: seq<Node>, i: nat)
    requires i < |nodes| && nodes[i].parent.Some?
    ensures ReaderLinks(nodes)[nodes[i].id].Some?
  {
    var front := nodes[..|nodes| - 1];
    if i < |front| {
      AnyParentStays(front, i);
      assert front[i].id in Index(front);
    }
  }

  lemma {:induction false} NoParentNoLink(nodes: seq<Node>, id: int)
    requires id in Index(nodes) && forall i :: 0 <= i < |nodes| && nodes[i].id == id ==> nodes[i].parent == None
    ensures ReaderLinks(nodes)[id] == None
  {
    var front := nodes[..|nodes| - 1];
    if id in Index(front) {
      NoParentNoLink(front, id);
    }
  }

  lemma DropIsSeen(nodes: seq<Node>, i: nat, j: nat)
    requires DropsParent(nodes, i, j)
    ensures ReaderLinks(nodes)[nodes[j].id] != ForestOf(nodes)[nodes[j].id]
  {
    AnyParentStays(nodes, i);
    var last := Index(nodes)[nodes[j].id];
    if last < j {
      IndexIsLast(nodes, nodes[j].id, j);
    }
  }

  /** Capture and reader follow the same links exactly when no id's last row drops a parent an earlier row had. */
  lemma LinksAgreeExactly(nodes: seq<Node>)
    ensures ReaderLinks(nodes) == ForestOf(nodes) <==> forall i: nat, j: nat :: !DropsParent(nodes, i, j)
  {
    if i: nat, j: nat :| DropsParent(nodes, i, j) {
      DropIsSeen(nodes, i, j);
    } else {
      forall id | id in Index(nodes) ensures ReaderLinks(nodes)[id] == ForestOf(nodes)[id] {
        LinkAgrees(nodes, id);
      }
    }
  }

  lemma LinkAgrees(nodes: seq<Node>, id: int)
    requires id in Index(nodes) && forall i: nat :: !DropsParent(nodes, i, Index(nodes)[id])
    ensures ReaderLinks(nodes)[id] == nodes[Index(nodes)[id]].parent
  {
    var last := Index(nodes)[id];
    if nodes[last].parent.Some? {
      OwnParentWins(nodes, id);
    } else {
      forall k | last < k < |nodes| ensures nodes[k].id != id { IndexIsLast(nodes, id, k); }
      forall i | 0 <= i < |nodes| && nodes[i].id == id ensures nodes[i].parent == None {
        assert !DropsParent(nodes, i, last);
      }
      NoParentNoLink(nodes, id);
    }
  }

  // ---------- where the two chains part ----------

  /**
   The node capture takes for the root of the chain is none to the reader: an earlier row of it names a parent its
   last row drops, and that parent is a node the chain has not met.
   */
  ghost predicate GoesOn(nodes: seq<Node>, head: Option<int>) {
    head.Some? && PassesEnd(ForestOf(nodes), ReaderLinks(nodes), Walk(ForestOf(nodes), [], head.value))
  }

  /** A walk that ended at a root by some links goes on to a new node by others. */
  ghost predicate PassesEnd(links: Links<int>, others: Links<int>, w: Walked<int>) {
    && w.Rooted? && w.path != []
    && var root := w.path[|w.path| - 1];
       root in others && others[root].Some? && others[root].value in links && others[root].value !in w.path
  }

  /** The others have a link wherever the first do, the same one. */
  ghost predicate Extends(links: Links<int>, others: Links<int>) {
    others.Keys == links.Keys && forall id :: id in links && links[id].Some? ==> others[id] == links[id]
  }

  lemma {:induction false} WalkGrows(links: Links<int>, path: seq<int>, cur: int)
    ensures path <= Walk(links, path, cur).path
    ensures cur in links && cur !in path ==> |path| < |Walk(links, path, cur).path|
    decreases links.Keys - Elems(path)
  {
    if cur in links && cur !in path && links[cur].Some? {
      assert cur in links.Keys - Elems(path) && cur !in links.Keys - Elems(path + [cur]);
      WalkGrows(links, path + [cur], links[cur].value);
    }
  }

  /** The two walks take the same path unless the first ends where the second goes on, and then the second's is longer. */
  lemma {:induction false} WalksPart(links: Links<int>, others: Links<int>, path: seq<int>, cur: int)
    requires Extends(links, others)
    ensures var w, v := Walk(links, path, cur), Walk(others, path, cur);
            if PassesEnd(links, others, w) then |w.path| < |v.path| else w.path == v.path
    decreases links.Keys - Elems(path)
  {
    if cur in links && cur !in path {
      assert cur in links.Keys - Elems(path) && cur !in links.Keys - Elems(path + [cur]);
      if links[cur].Some? {
        WalksPart(links, others, path + [cur], links[cur].value);
      } else if others[cur].Some? {
        WalkGrows(others, path + [cur], others[cur].value);
      }
    }
  }

  lemma ReaderExtendsCapture(nodes: seq<Node>)
    ensures Extends(ForestOf(nodes), ReaderLinks(nodes))
  {
    forall id | id in ForestOf(nodes) && ForestOf(nodes)[id].Some?
      ensures ReaderLinks(nodes)[id] == ForestOf(nodes)[id]
    {
      OwnParentWins(nodes, id);
    }
  }

  lemma ChainIsAsLong(nodes: seq<Node>, links: Links<int>, head: int)
    requires links.Keys == Index(nodes).Keys
    ensures |ChainBy(nodes, links, Some(head))| == |Walk(links, [], head).path|
  {
  }

  lemma SamePathSameChain(nodes: seq<Node>, links: Links<int>, others: Links<int>, head: int)
    requires links.Keys == Index(nodes).Keys == others.Keys
    requires Walk(links, [], head).path == Walk(others, [], head).path
    ensures ChainBy(nodes, links, Some(head)) == ChainBy(nodes, others, Some(head))
  {
  }

  /** The reader replays the chain capture counted if and only if that chain does not go on for the reader past its root. */
  lemma ChainsAgreeExactly(nodes: seq<Node>, head: Option<int>)
    ensures ChainBy(nodes, ReaderLinks(nodes), head) == ActiveChain(nodes, head) <==> !GoesOn(nodes, head)
  {
    if head.Some? {
      var links, others := ForestOf(nodes), ReaderLinks(nodes);
      ReaderExtendsCapture(nodes);
      WalksPart(links, others, [], head.value);
      if GoesOn(nodes, head) {
        ChainIsAsLong(nodes, links, head.value);
        ChainIsAsLong(nodes, others, head.value);
      } else {
        SamePathSameChain(nodes, links, others, head.value);
      }
    }
  }

  /** A chain that goes on does so at a node whose last row drops a parent an earlier row had. */
  lemma GoingOnDropsAParent(nodes: seq<Node>, head: Option<int>) returns (i: nat)
    requires GoesOn(nodes, head)
    ensures var path := Walk(ForestOf(nodes), [], head.value).path;
            && path[|path| - 1] in Index(nodes)
            && DropsParent(nodes, i, Index(nodes)[path[|path| - 1]])
  {
    WalkFrom(ForestOf(nodes), head.value, [], head.value);
    var path := Walk(ForestOf(nodes), [], head.value).path;
    var root := path[|path| - 1];
    if forall i: nat :: !DropsParent(nodes, i, Index(nodes)[root]) {
      LinkAgrees(nodes, root);
      assert false;
    }
    i :| DropsParent(nodes, i, Index(nodes)[root]);
  }

  method ReadLinks(nodes: seq<Node>) returns (parent: map<int, int>, index: map<int, nat>)
    ensures index == Index(nodes)
    ensures Splits(ReaderLinks(nodes), parent)
  {
    parent, index := map[], map[];
    var i := 0;
    while i < |nodes|
      invariant 0 <= i <= |nodes|
      invariant index == Index(nodes[..i]) && Splits(ReaderLinks(nodes[..i]), parent)
    {
      assert nodes[..i + 1][..i] == nodes[..i];
      var n := nodes[i];
      index := index[n.id := i];
      if n.parent.Some? {
        parent := parent[n.id := n.parent.value];
      }
      i := i + 1;
    }
    assert nodes[..i] == nodes;
  }

  /** The parent map holds the links that lead somewhere. */
  ghost predicate Splits(links: Links<int>, parent: map<int, int>) {
    && parent.Keys <= links.Keys
    && forall id :: id in links ==> links[id] == if id in parent then Some(parent[id]) else None
  }

  /** The reader's chain: walk back from the head, then reverse. */
  method ReadActiveChain(nodes: seq<Node>, head: Option<int>) returns (chain: seq<nat>)
    ensures chain == ChainBy(nodes, ReaderLinks(nodes), head)
  {
    var parent, index := ReadLinks(nodes);
    if head == None {
      return [];
    }
    var rev := WalkBack(parent, index, ReaderLinks(nodes), head.value);
    WalkFrom(ReaderLinks(nodes), head.value, [], head.value);
    chain := Reverse(rev);
  }

  method WalkBack(parent: map<int, int>, index: map<int, nat>, ghost links: Links<int>, head: int) returns (rev: seq<nat>)
    requires links.Keys == index.Keys && Splits(links, parent)
    ensures var path := Walk(links, [], head).path;
            && |rev| == |path|
            && forall i :: 0 <= i < |rev| ==> path[i] in index && rev[i] == index[path[i]]
  {
    ghost var path: seq<int> := [];
    var seen: set<int>, id := {}, head;
    rev := [];
    while true
      invariant seen == Elems(path) && seen <= index.Keys
      invariant Walk(links, path, id) == Walk(links, [], head)
      invariant |rev| == |path|
      invariant forall i :: 0 <= i < |rev| ==> path[i] in index && rev[i] == index[path[i]]
      decreases index.Keys - seen
    {
      if id in seen || id !in index {
        break;
      }
      seen := seen + {id};
      path := path + [id];
      rev := rev + [index[id]];
      if id !in parent {
        break;
      }
      id := parent[id];
    }
    WalkFrom(links, head, [], head);
  }

  method Reverse(rev: seq<nat>) returns (chain: seq<nat>)
    ensures chain == seq(|rev|, i requires 0 <= i < |rev| => rev[|rev| - 1 - i])
  {
    var filled := new nat[|rev|];
    var i := 0;
    while i < |rev|
      invariant 0 <= i <= |rev|
      invariant forall k :: |rev| - i <= k < |rev| ==> filled[k] == rev[|rev| - 1 - k]
    {
      filled[|rev| - 1 - i] := rev[i];
      i := i + 1;
    }
    chain := filled[..];
  }
}
