/** Pi's session lines as entries, and the conversation among them: the leaf path, or the whole file. */
module PiEntries {
  import opened Wrappers
  import opened Clock
  import opened Lines
  import opened ParentWalk

  /** A raw parentId value: absent, a JSON string (null reads as the empty one), or any other JSON. */
  datatype RawParent = Absent | Text(value: string) | Other

  /** A message's role and stop reason, and its content's length when the content is an array. */
  datatype Message = Message(role: string, stopReason: string, blocks: Option<nat>)

  datatype Entry = Entry(kind: string, id: Option<string>, parentId: RawParent, at: Option<Time>,
                         message: Option<Message>)

  datatype HeaderRead = Skipped | Refused | Header(id: string, at: Time)

  /** The parsing this model does not open up. */
  datatype Syntax = Syntax(decode: seq<Byte> -> Option<Entry>, valid: seq<Byte> -> bool, blank: seq<Byte> -> bool,
                           readHeader: seq<Byte> -> HeaderRead)

  /** What JSON grants: a trailing carriage return is white space, and what decodes is valid. */
  ghost predicate Lawful(syn: Syntax) {
    forall l ::
      && syn.decode(l + [RETURN]) == syn.decode(l)
      && syn.blank(l + [RETURN]) == syn.blank(l)
      && (syn.decode(l).Some? ==> syn.valid(l))
  }

  /** A parent is never the empty string, which is what lets the walk report "no break" as one. */
  function ParentOf(raw: RawParent): (p: Option<string>)
    ensures p.Some? ==> p.value != "" && raw == Text(p.value)
  {
    if raw.Text? && raw.value != "" then Some(raw.value) else None
  }

  /** The entry on a line, if the line is one: not over the cap, blank, unparseable, a header, or without an id. */
  function EntryOf(syn: Syntax, line: seq<Byte>): (e: Option<Entry>)
    ensures e.Some? ==> e.value.id.Some?
  {
    if |line| > MAX_LINE || syn.blank(line) then None
    else
      var e := syn.decode(line);
      if e.Some? && e.value.kind != "session" && e.value.id.Some? then e else None
  }

  /** An entry that has its id. */
  type Named = e: Entry | e.id.Some? witness Entry("", Some(""), Absent, None, None)

  /** The entries of a file's lines after the header line. */
  function Entries(syn: Syntax, lines: seq<seq<Byte>>): seq<Named> {
    if |lines| <= 1 then []
    else
      var front := Entries(syn, lines[..|lines| - 1]);
      var e := EntryOf(syn, lines[|lines| - 1]);
      if e.Some? then front + [e.value] else front
  }

  /** The last entry of each id. */
  function LastOf(es: seq<Named>): (m: map<string, Named>)
    ensures es != [] ==> es[|es| - 1].id.value in m
    ensures forall id :: id in m ==> m[id].id == Some(id) && m[id] in es
  {
    if es == [] then map[] else LastOf(es[..|es| - 1])[es[|es| - 1].id.value := es[|es| - 1]]
  }

  function LinksOf(es: seq<Named>): (links: Links<string>)
    ensures forall id :: id in links && links[id].Some? ==> links[id].value != ""
  {
    var last := LastOf(es);
    map id | id in last :: ParentOf(last[id].parentId)
  }

  /** The file's last entry is the leaf. */
  function Leaf(es: seq<Named>): string
    requires es != []
  {
    es[|es| - 1].id.value
  }

  function LeafWalk(es: seq<Named>): Walked<string>
    requires es != []
  {
    Walk(LinksOf(es), [], Leaf(es))
  }

  /** The entries on a path, root first. */
  function OnPath(last: map<string, Named>, path: seq<string>): seq<Named>
    requires forall i :: 0 <= i < |path| ==> path[i] in last
  {
    seq(|path|, i requires 0 <= i < |path| => last[path[|path| - 1 - i]])
  }

  /** What the two sides take for the conversation; a walk that breaks off gives none, so nothing is left out then. */
  function Conversation(es: seq<Named>): seq<Named> {
    if es == [] then []
    else
      var w := LeafWalk(es);
      if w.Broken? then es
      else
        WalkIsTheChain(LinksOf(es), Leaf(es));
        OnPath(LastOf(es), w.path)
  }

  /** The links of some entries from the first, a root, to the last: no entry twice. */
  ghost predicate IsThread(conv: seq<Named>) {
    && conv != []
    && ParentOf(conv[0].parentId) == None
    && (forall i :: 0 < i < |conv| ==> ParentOf(conv[i].parentId) == conv[i - 1].id)
    && (forall i, j :: 0 <= i < j < |conv| ==> conv[i].id != conv[j].id)
  }

  /** An id's thread within a file: made of the last entry of each of its ids. */
  ghost predicate ThreadIn(es: seq<Named>, leaf: string, conv: seq<Named>) {
    && IsThread(conv)
    && conv[|conv| - 1].id == Some(leaf)
    && forall i :: 0 <= i < |conv| ==> conv[i].id.value in LastOf(es) && LastOf(es)[conv[i].id.value] == conv[i]
  }

  /** Reading a root-ended path backwards gives a thread. */
  lemma PathBackwards(last: map<string, Named>, links: Links<string>, leaf: string, path: seq<string>)
    requires forall id :: id in last ==> last[id].id == Some(id)
    requires links == map id | id in last :: ParentOf(last[id].parentId)
    requires ToRoot(links, leaf, path)
    ensures var conv := OnPath(last, path);
            && IsThread(conv) && conv[|conv| - 1].id == Some(leaf)
            && forall i :: 0 <= i < |conv| ==> conv[i].id.value in last && last[conv[i].id.value] == conv[i]
  {
    var conv := OnPath(last, path);
    forall i | 0 < i < |conv| ensures ParentOf(conv[i].parentId) == conv[i - 1].id {
      var k := |conv| - 1 - i;
      assert links[path[k]] == Some(path[k + 1]);
    }
  }

  lemma PathIsThread(es: seq<Named>)
    requires es != [] && LeafWalk(es).Rooted?
    ensures ThreadIn(es, Leaf(es), Conversation(es))
  {
    WalkIsTheChain(LinksOf(es), Leaf(es));
    PathBackwards(LastOf(es), LinksOf(es), Leaf(es), LeafWalk(es).path);
  }

  /** The ids of a thread, leaf first. */
  ghost function Backwards(conv: seq<Named>): seq<string> {
    seq(|conv|, i requires 0 <= i < |conv| => conv[|conv| - 1 - i].id.value)
  }

  lemma ThreadIsPath(es: seq<Named>, conv: seq<Named>)
    requires es != [] && ThreadIn(es, Leaf(es), conv)
    ensures LeafWalk(es) == Rooted(Backwards(conv))
  {
    var leaf, links, path := Leaf(es), LinksOf(es), Backwards(conv);
    forall i | 0 <= i < |path| ensures path[i] in links {
      assert conv[|conv| - 1 - i].id.value in LastOf(es);
    }
    forall i | 0 <= i < |path| - 1 ensures links[path[i]] == Some(path[i + 1]) {
      var k := |conv| - 1 - i;
      assert ParentOf(conv[k].parentId) == conv[k - 1].id;
    }
    assert ToRoot(links, leaf, path);
    WalkIsTheChain(links, leaf);
  }

  /**
   The conversation is the one thread from a root to the file's last entry, whenever there is one; only when
   there is none does the whole file stand in.
   */
  lemma ConversationIsTheThread(es: seq<Named>)
    requires es != []
    ensures LeafWalk(es).Rooted? ==> ThreadIn(es, Leaf(es), Conversation(es))
    ensures LeafWalk(es).Broken? ==> Conversation(es) == es
    ensures forall conv: seq<Named> :: ThreadIn(es, Leaf(es), conv) ==>
                                         LeafWalk(es).Rooted? && conv == Conversation(es)
  {
    if LeafWalk(es).Rooted? {
      PathIsThread(es);
    }
    forall conv: seq<Named> | ThreadIn(es, Leaf(es), conv)
      ensures LeafWalk(es).Rooted? && conv == Conversation(es)
    {
      ThreadIsPath(es, conv);
      PathIsThread(es);
      ThreadIsPath(es, Conversation(es));
      SameBackwards(es, conv, Conversation(es));
    }
  }

  lemma SameBackwards(es: seq<Named>, a: seq<Named>, b: seq<Named>)
    requires es != [] && ThreadIn(es, Leaf(es), a) && ThreadIn(es, Leaf(es), b)
    requires LeafWalk(es) == Rooted(Backwards(a)) == Rooted(Backwards(b))
    ensures a == b
  {
    assert |a| == |Backwards(a)| == |b|;
    forall i | 0 <= i < |a| ensures a[i] == b[i] {
      assert Backwards(a)[|a| - 1 - i] == a[i].id.value;
      assert Backwards(b)[|b| - 1 - i] == b[i].id.value;
    }
  }

  /** What the counts say of some entries. */
  datatype Tally = Tally(users: nat, assistants: nat, substantive: bool)

  predicate IsRole(e: Entry, role: string) {
    e.kind == "message" && e.message.Some? && e.message.value.role == role
  }

  predicate IsSubstantive(e: Entry) {
    && IsRole(e, "assistant")
    && e.message.value.stopReason != "error"
    && e.message.value.blocks.Some? && e.message.value.blocks.value > 0
  }

  function With(t: Tally, e: Entry): Tally {
    Tally(t.users + if IsRole(e, "user") then 1 else 0,
          t.assistants + if IsRole(e, "assistant") then 1 else 0,
          t.substantive || IsSubstantive(e))
  }

  function TallyOf(es: seq<Named>): Tally {
    if es == [] then Tally(0, 0, false) else With(TallyOf(es[1..]), es[0])
  }

  lemma {:induction false} TallyAppend(es: seq<Named>, e: Named)
    ensures TallyOf(es + [e]) == With(TallyOf(es), e)
  {
    if es == [] {
      assert [e][1..] == [];
    } else {
      TallyAppend(es[1..], e);
      assert (es + [e])[1..] == es[1..] + [e];
    }
  }

  /** The entries that are messages of one role. */
  ghost function OfRole(es: seq<Named>, role: string): set<nat> {
    set i: nat | i < |es| && es[i].kind == "message" && es[i].message.Some? && es[i].message.value.role == role
  }

  /** Entry i is a reply that did not fail and holds something. */
  ghost predicate Tells(es: seq<Named>, i: nat) {
    i in OfRole(es, "assistant") && var m := es[i].message.value; m.stopReason != "error" && m.blocks.Some? && m.blocks.value > 0
  }

  lemma OfRoleGrows(es: seq<Named>, role: string)
    requires es != []
    ensures |OfRole(es, role)| == |OfRole(es[..|es| - 1], role)| + if IsRole(es[|es| - 1], role) then 1 else 0
  {
    var n := |es| - 1;
    assert forall i: nat :: i < n ==> es[..n][i] == es[i];
    assert OfRole(es, role) == OfRole(es[..n], role) + if IsRole(es[n], role) then {n} else {};
  }

  /** Users and assistants are counted by role, and it takes one reply with content that did not fail to be substantive. */
  lemma {:induction false} TallyCounts(es: seq<Named>)
    ensures TallyOf(es).users == |OfRole(es, "user")|
    ensures TallyOf(es).assistants == |OfRole(es, "assistant")|
    ensures TallyOf(es).substantive <==> exists i: nat :: Tells(es, i)
  {
    if es != [] {
      var n := |es| - 1;
      TallyCounts(es[..n]);
      TallyAppend(es[..n], es[n]);
      assert es == es[..n] + [es[n]];
      OfRoleGrows(es, "user");
      OfRoleGrows(es, "assistant");
      assert forall i: nat :: i < n ==> (Tells(es, i) <==> Tells(es[..n], i));
      assert Tells(es, n) <==> IsSubstantive(es[n]);
    }
  }

  /**
   The walk both sides share, leaf first; broken is the offending id, or "" when the path reaches a root.
   No link and no first break is ever "", so the two never run together.
   */
  method WalkLeaf(leaf: string, links: Links<string>) returns (path: seq<string>, broken: string)
    requires leaf in links
    requires forall id :: id in links && links[id].Some? ==> links[id].value != ""
    ensures Walk(links, [], leaf).Rooted? <==> broken == ""
    ensures broken == "" ==> Walk(links, [], leaf) == Rooted(path)
    ensures broken != "" ==> Walk(links, [], leaf).at == broken && path == []
  {
    var seen: set<string> := {};
    var cur := leaf;
    path := [];
    while true
      invariant seen == Elems(path) && seen <= links.Keys
      invariant Walk(links, path, cur) == Walk(links, [], leaf)
      invariant if path == [] then cur == leaf else cur != ""
      decreases links.Keys - seen
    {
      if cur !in links || cur in seen {
        return [], cur;
      }
      seen := seen + {cur};
      path := path + [cur];
      if links[cur] == None {
        return path, "";
      }
      cur := links[cur].value;
    }
  }
}
