/** JSON values as ordered trees: objects keep the order of their members. */
module JsonTree {

  datatype Json =
    | Atom(text: string)
    | Str(value: string)
    | Arr(items: seq<Json>)
    | Obj(members: seq<Member>)
  datatype Member = Member(key: string, value: Json)

  /** The first member under a key, or |ms|. */
  function At(ms: seq<Member>, key: string): (i: nat)
    ensures i <= |ms|
    ensures i < |ms| ==> ms[i].key == key
    ensures forall k :: 0 <= k < i ==> ms[k].key != key
  {
    if ms == [] then 0 else if ms[0].key == key then 0 else 1 + At(ms[1..], key)
  }

  predicate Has(j: Json, key: string) {
    j.Obj? && At(j.members, key) < |j.members|
  }

  function Get(j: Json, key: string): Json
    requires Has(j, key)
  {
    j.members[At(j.members, key)].value
  }

  /** Sets a member where it stands, or adds it at the end. */
  function Set(j: Json, key: string, v: Json): (r: Json)
    requires j.Obj?
    ensures Has(r, key) && Get(r, key) == v
  {
    var i := At(j.members, key);
    if i < |j.members| then Replaced(j.members, i, key, v) else Added(j.members, key, v)
  }

  function Replaced(ms: seq<Member>, i: nat, key: string, v: Json): (r: Json)
    requires i < |ms| && i == At(ms, key)
    ensures Has(r, key) && Get(r, key) == v
  {
    var r := ms[i := Member(key, v)];
    AtIs(r, key, i);
    Obj(r)
  }

  function Added(ms: seq<Member>, key: string, v: Json): (r: Json)
    requires At(ms, key) == |ms|
    ensures Has(r, key) && Get(r, key) == v
  {
    var r := ms + [Member(key, v)];
    AtIs(r, key, |ms|);
    Obj(r)
  }

  lemma AtIs(ms: seq<Member>, key: string, i: nat)
    requires i < |ms| && ms[i].key == key && forall k :: 0 <= k < i ==> ms[k].key != key
    ensures At(ms, key) == i
  {
  }

  /** Deletes the first member under a key, if there is one. */
  function Without(ms: seq<Member>, key: string): seq<Member> {
    var i := At(ms, key);
    if i < |ms| then ms[..i] + ms[i + 1..] else ms
  }

  function Delete(j: Json, key: string): Json
    requires j.Obj?
  {
    Obj(Without(j.members, key))
  }

  /** The name occurs at most once, as section 4 of RFC 8259 asks of every name. */
  predicate Once(ms: seq<Member>, key: string) {
    forall i :: At(ms, key) < i < |ms| ==> ms[i].key != key
  }

  lemma WithoutIsGone(j: Json, key: string)
    requires j.Obj? && Once(j.members, key)
    ensures !Has(Delete(j, key), key) && Once(Delete(j, key).members, key)
  {
    var r := Without(j.members, key);
    forall k | 0 <= k < |r| ensures r[k].key != key {
      assert r[k] == j.members[if k < At(j.members, key) then k else k + 1];
    }
  }

  lemma SetIsOnce(j: Json, key: string, v: Json)
    requires j.Obj? && Once(j.members, key)
    ensures Once(Set(j, key, v).members, key)
  {
    var ms, r := j.members, Set(j, key, v).members;
    AtIs(r, key, At(ms, key));
  }

  /** A member set in place keeps the others as they were; one added at the end is all that is deleted again. */
  lemma SetKeepsOthers(j: Json, key: string, v: Json)
    requires j.Obj?
    ensures Without(Set(j, key, v).members, key) == Without(j.members, key)
    ensures !Has(j, key) ==> Delete(Set(j, key, v), key) == j
    ensures Has(j, key) ==> Set(Set(j, key, v), key, Get(j, key)) == j
  {
    var ms := j.members;
    var i := At(ms, key);
    if i < |ms| {
      AtIs(ms[i := Member(key, v)], key, i);
    } else {
      AtIs(ms + [Member(key, v)], key, i);
    }
  }
}

/** Installing and removing one hook in a settings document that belongs to somebody else. */
module Splice {
  import opened Wrappers
  import opened JsonTree

  /** The pinned command, and the group an install appends. */
  const SHIM_COMMAND := "command -v clast >/dev/null 2>&1 && (clast plumbing capture >/dev/null 2>&1 &); exit 0"
  const SHIM_HOOK := Obj([Member("type", Str("command")), Member("command", Str(SHIM_COMMAND))])
  const SHIM_GROUP := Obj([Member("matcher", Str("")), Member("hooks", Arr([SHIM_HOOK]))])

  predicate IsShim(hook: Json) {
    Has(hook, "command") && Get(hook, "command") == Str(SHIM_COMMAND)
  }

  /** The documents this covers: an object whose hooks, SessionStart and group hooks have their usual types. */
  predicate Settings(doc: Json) {
    && doc.Obj?
    && Once(doc.members, "hooks")
    && (Has(doc, "hooks") ==>
          && Get(doc, "hooks").Obj?
          && Once(Get(doc, "hooks").members, "SessionStart")
          && (Has(Get(doc, "hooks"), "SessionStart") ==>
                && Get(Get(doc, "hooks"), "SessionStart").Arr?
                && Groups(Get(Get(doc, "hooks"), "SessionStart").items)))
  }

  predicate Proper(group: Json) {
    Has(group, "hooks") ==> Get(group, "hooks").Arr?
  }

  predicate Groups(groups: seq<Json>) {
    forall i :: 0 <= i < |groups| ==> Proper(groups[i])
  }

  /** The hooks object, empty when there is none. */
  function HooksOf(doc: Json): (h: Json)
    requires Settings(doc)
    ensures h.Obj? && Once(h.members, "SessionStart")
  {
    if Has(doc, "hooks") then Get(doc, "hooks") else Obj([])
  }

  /** The SessionStart groups, none when the key is absent. */
  function GroupsOf(doc: Json): (gs: seq<Json>)
    requires Settings(doc)
    ensures Groups(gs)
  {
    var h := HooksOf(doc);
    if Has(h, "SessionStart") then Get(h, "SessionStart").items else []
  }

  function HooksIn(group: Json): seq<Json>
    requires Proper(group)
  {
    if Has(group, "hooks") then Get(group, "hooks").items else []
  }

  /** The first shim in a list of hooks, or its length. */
  function FirstShim(hooks: seq<Json>): (i: nat)
    ensures i <= |hooks|
    ensures i < |hooks| ==> IsShim(hooks[i])
    ensures forall k :: 0 <= k < i ==> !IsShim(hooks[k])
  {
    if hooks == [] || IsShim(hooks[0]) then 0 else 1 + FirstShim(hooks[1..])
  }

  predicate Holds(group: Json)
    requires Proper(group)
  {
    FirstShim(HooksIn(group)) < |HooksIn(group)|
  }

  /** The first group that holds a shim, or the number of groups. */
  function FirstHolder(groups: seq<Json>): (i: nat)
    requires Groups(groups)
    ensures i <= |groups|
    ensures i < |groups| ==> Holds(groups[i])
    ensures forall k :: 0 <= k < i ==> !Holds(groups[k])
  {
    if groups == [] || Holds(groups[0]) then 0 else 1 + FirstHolder(groups[1..])
  }

  predicate HasShim(doc: Json)
    requires Settings(doc)
  {
    FirstHolder(GroupsOf(doc)) < |GroupsOf(doc)|
  }

  // ---------- the edits ----------

  /** Appends the group, creating what is missing on the way. */
  function Spliced(doc: Json): (r: Json)
    requires Settings(doc)
    ensures Settings(r)
  {
    if HasShim(doc) then doc
    else
      var groups := GroupsOf(doc) + [SHIM_GROUP];
      assert Has(SHIM_GROUP, "hooks") && Get(SHIM_GROUP, "hooks").Arr?;
      SetIsOnce(HooksOf(doc), "SessionStart", Arr(groups));
      SetIsOnce(doc, "hooks", Set(HooksOf(doc), "SessionStart", Arr(groups)));
      Set(doc, "hooks", Set(HooksOf(doc), "SessionStart", Arr(groups)))
  }

  /** Some groups with one hook of one group removed, and the group with it when that was its last. */
  function Pruned(groups: seq<Json>, g: nat, h: nat): (r: seq<Json>)
    requires Groups(groups) && g < |groups| && h < |HooksIn(groups[g])|
    ensures Groups(r)
  {
    var hooks := HooksIn(groups[g]);
    var left := hooks[..h] + hooks[h + 1..];
    if left == [] then groups[..g] + groups[g + 1..]
    else groups[g := Set(groups[g], "hooks", Arr(left))]
  }

  /** Stores the groups back, deleting each container that is empty. */
  function Cascaded(doc: Json, groups: seq<Json>): (r: Json)
    requires Settings(doc) && Has(doc, "hooks") && Groups(groups)
    ensures Settings(r)
  {
    var hooks := Get(doc, "hooks");
    WithoutIsGone(hooks, "SessionStart");
    SetIsOnce(hooks, "SessionStart", Arr(groups));
    var h := if groups == [] then Delete(hooks, "SessionStart") else Set(hooks, "SessionStart", Arr(groups));
    WithoutIsGone(doc, "hooks");
    SetIsOnce(doc, "hooks", h);
    if h.members == [] then Delete(doc, "hooks") else Set(doc, "hooks", h)
  }

  function Unspliced(doc: Json): (r: Json)
    requires Settings(doc)
    ensures Settings(r)
  {
    if !HasShim(doc) then doc
    else
      var g := FirstHolder(GroupsOf(doc));
      Cascaded(doc, Pruned(GroupsOf(doc), g, FirstShim(HooksIn(GroupsOf(doc)[g]))))
  }

  // ---------- the round trip ----------

  /** A container the user wrote and left empty: an empty hooks object, or an empty SessionStart array. */
  predicate HasEmptyContainer(doc: Json)
    requires Settings(doc)
  {
    && Has(doc, "hooks")
    && (|| Get(doc, "hooks").members == []
        || (Has(Get(doc, "hooks"), "SessionStart") && Get(Get(doc, "hooks"), "SessionStart") == Arr([])))
  }

  lemma ShimGroupHolds()
    ensures Has(SHIM_GROUP, "hooks") && HooksIn(SHIM_GROUP) == [SHIM_HOOK] && IsShim(SHIM_HOOK)
    ensures Holds(SHIM_GROUP) && FirstShim(HooksIn(SHIM_GROUP)) == 0
  {
    var ms := SHIM_GROUP.members;
    AtIs(ms, "hooks", 1);
    AtIs(SHIM_HOOK.members, "command", 1);
  }

  lemma {:induction false} FirstHolderAppended(groups: seq<Json>)
    requires Groups(groups) && FirstHolder(groups) == |groups|
    ensures Groups(groups + [SHIM_GROUP]) && FirstHolder(groups + [SHIM_GROUP]) == |groups|
  {
    ShimGroupHolds();
    var all := groups + [SHIM_GROUP];
    forall i | 0 <= i < |all| ensures Proper(all[i]) {
      if i < |groups| { assert all[i] == groups[i]; }
    }
    if groups != [] {
      assert all[1..] == groups[1..] + [SHIM_GROUP];
      FirstHolderAppended(groups[1..]);
    }
  }

  /** After an install the groups are the old ones and the shim's, which is the first to hold a shim. */
  lemma SplicedGroups(doc: Json)
    requires Settings(doc) && !HasShim(doc)
    ensures GroupsOf(Spliced(doc)) == GroupsOf(doc) + [SHIM_GROUP]
    ensures HasShim(Spliced(doc)) && FirstHolder(GroupsOf(Spliced(doc))) == |GroupsOf(doc)|
    ensures Has(Spliced(doc), "hooks") && Has(Get(Spliced(doc), "hooks"), "SessionStart")
  {
    FirstHolderAppended(GroupsOf(doc));
  }

  lemma PruneUndoesAppend(groups: seq<Json>)
    requires Groups(groups) && Groups(groups + [SHIM_GROUP])
    ensures HooksIn((groups + [SHIM_GROUP])[|groups|]) == [SHIM_HOOK]
    ensures Pruned(groups + [SHIM_GROUP], |groups|, 0) == groups
  {
    ShimGroupHolds();
    assert (groups + [SHIM_GROUP])[..|groups|] + (groups + [SHIM_GROUP])[|groups| + 1..] == groups;
  }

  /** Removing right after installing stores the old groups back. */
  lemma UnsplicedIsCascade(doc: Json)
    requires Settings(doc) && !HasShim(doc)
    ensures Unspliced(Spliced(doc)) == Cascaded(Spliced(doc), GroupsOf(doc))
  {
    SplicedGroups(doc);
    ShimGroupHolds();
    PruneUndoesAppend(GroupsOf(doc));
  }

  /**
   Installing and removing again restores the document, key for key and in order, exactly when the user had
   left no empty container on the path: such a container cannot be told from one the install made.
   */
  lemma RoundTripExactly(doc: Json)
    requires Settings(doc) && !HasShim(doc)
    ensures Unspliced(Spliced(doc)) == doc <==> !HasEmptyContainer(doc)
  {
    UnsplicedIsCascade(doc);
    var groups, hooks := GroupsOf(doc), HooksOf(doc);
    var after := Set(hooks, "SessionStart", Arr(groups + [SHIM_GROUP]));
    var spliced := Spliced(doc);
    assert spliced == Set(doc, "hooks", after);
    SetKeepsOthers(doc, "hooks", after);
    SetKeepsOthers(hooks, "SessionStart", Arr(groups + [SHIM_GROUP]));
    if groups == [] {
      CascadeEmpties(doc);
    } else {
      SetTwice(hooks, "SessionStart", Arr(groups + [SHIM_GROUP]), Arr(groups));
      SetTwice(doc, "hooks", after, hooks);
      SetSame(hooks, "SessionStart");
      SetSame(doc, "hooks");
    }
  }

  lemma SetTwice(j: Json, key: string, v: Json, w: Json)
    requires j.Obj?
    ensures Set(Set(j, key, v), key, w) == Set(j, key, w)
  {
    var ms, i := j.members, At(j.members, key);
    if i < |ms| {
      AtIs(ms[i := Member(key, v)], key, i);
      assert ms[i := Member(key, v)][i := Member(key, w)] == ms[i := Member(key, w)];
    } else {
      AtIs(ms + [Member(key, v)], key, i);
      assert (ms + [Member(key, v)])[i := Member(key, w)] == ms + [Member(key, w)];
    }
  }

  lemma SetSame(j: Json, key: string)
    requires Has(j, key)
    ensures Set(j, key, Get(j, key)) == j
  {
  }

  /** With no groups of its own the document keeps hooks only where something else is in it. */
  lemma CascadeEmpties(doc: Json)
    requires Settings(doc) && !HasShim(doc) && GroupsOf(doc) == []
    ensures Cascaded(Spliced(doc), []) == doc <==> !HasEmptyContainer(doc)
  {
    SplicedGroups(doc);
    var hooks := HooksOf(doc);
    var after := Set(hooks, "SessionStart", Arr([SHIM_GROUP]));
    assert [] + [SHIM_GROUP] == [SHIM_GROUP];
    assert Spliced(doc) == Set(doc, "hooks", after);
    SetKeepsOthers(doc, "hooks", after);
    SetKeepsOthers(hooks, "SessionStart", Arr([SHIM_GROUP]));
    var left := Delete(hooks, "SessionStart");
    assert Delete(after, "SessionStart") == left;
    if !Has(doc, "hooks") {
      assert left == hooks;
    } else {
      SetTwice(doc, "hooks", after, left);
      SetSame(doc, "hooks");
      DeleteChanges(hooks, "SessionStart");
      if left.members == [] {
        WithoutIsGone(doc, "hooks");
      } else {
        assert Get(Set(doc, "hooks", left), "hooks") == left;
      }
    }
  }

  lemma DeleteChanges(j: Json, key: string)
    requires j.Obj?
    ensures Delete(j, key) == j <==> !Has(j, key)
  {
    var i := At(j.members, key);
    if i < |j.members| {
      assert |Without(j.members, key)| < |j.members|;
    }
  }

  // ---------- whole runs ----------

  /** How many hooks of a list, and of some groups, are the shim. */
  function ShimsIn(hooks: seq<Json>): nat {
    if hooks == [] then 0 else ShimsIn(hooks[..|hooks| - 1]) + if IsShim(hooks[|hooks| - 1]) then 1 else 0
  }

  function Shims(groups: seq<Json>): nat
    requires Groups(groups)
  {
    if groups == [] then 0 else Shims(groups[..|groups| - 1]) + ShimsIn(HooksIn(groups[|groups| - 1]))
  }

  lemma {:induction false} NoneIn(hooks: seq<Json>)
    requires forall k :: 0 <= k < |hooks| ==> !IsShim(hooks[k])
    ensures ShimsIn(hooks) == 0
  {
    if hooks != [] {
      NoneIn(hooks[..|hooks| - 1]);
    }
  }

  lemma {:induction false} NoneAmong(groups: seq<Json>)
    requires Groups(groups) && forall k :: 0 <= k < |groups| ==> !Holds(groups[k])
    ensures Shims(groups) == 0
  {
    if groups != [] {
      NoneAmong(groups[..|groups| - 1]);
      assert !Holds(groups[|groups| - 1]);
      NoneIn(HooksIn(groups[|groups| - 1]));
    }
  }

  lemma OneAmong(groups: seq<Json>)
    requires Groups(groups) && FirstHolder(groups) == |groups|
    ensures Groups(groups + [SHIM_GROUP]) && Shims(groups + [SHIM_GROUP]) == 1
  {
    FirstHolderAppended(groups);
    NoneAmong(groups);
    ShimGroupHolds();
    assert (groups + [SHIM_GROUP])[..|groups|] == groups;
    assert [SHIM_HOOK][..0] == [];
    assert ShimsIn([SHIM_HOOK]) == 1;
  }

  /** What is not the shim's: the other top-level members, the other hooks members, and the groups. */
  datatype Rest = Rest(top: seq<Member>, inner: seq<Member>, groups: seq<Json>)

  function RestOf(doc: Json): Rest
    requires Settings(doc)
  {
    Rest(Without(doc.members, "hooks"), Without(HooksOf(doc).members, "SessionStart"), GroupsOf(doc))
  }

  lemma SpliceKeepsRest(doc: Json)
    requires Settings(doc) && !HasShim(doc)
    ensures RestOf(Spliced(doc)) == RestOf(doc).(groups := GroupsOf(doc) + [SHIM_GROUP])
  {
    SplicedGroups(doc);
    var after := Set(HooksOf(doc), "SessionStart", Arr(GroupsOf(doc) + [SHIM_GROUP]));
    SetKeepsOthers(doc, "hooks", after);
    SetKeepsOthers(HooksOf(doc), "SessionStart", Arr(GroupsOf(doc) + [SHIM_GROUP]));
  }

  /** Storing groups back touches nothing but the groups, whichever containers go with them. */
  lemma CascadeKeepsRest(doc: Json, groups: seq<Json>)
    requires Settings(doc) && Has(doc, "hooks") && Groups(groups)
    ensures RestOf(Cascaded(doc, groups)) == RestOf(doc).(groups := groups)
  {
    var hooks := Get(doc, "hooks");
    WithoutIsGone(hooks, "SessionStart");
    WithoutIsGone(doc, "hooks");
    SetKeepsOthers(hooks, "SessionStart", Arr(groups));
    var h := if groups == [] then Delete(hooks, "SessionStart") else Set(hooks, "SessionStart", Arr(groups));
    SetKeepsOthers(doc, "hooks", h);
    DeleteChanges(h, "SessionStart");
    DeleteChanges(Delete(doc, "hooks"), "hooks");
  }

  datatype Op = Install | Uninstall

  function After(doc: Json, ops: seq<Op>): (r: Json)
    requires Settings(doc)
    ensures Settings(r)
  {
    if ops == [] then doc
    else
      var d := After(doc, ops[..|ops| - 1]);
      if ops[|ops| - 1] == Install then Spliced(d) else Unspliced(d)
  }

  function WithShim(groups: seq<Json>, installed: bool): seq<Json> {
    if installed then groups + [SHIM_GROUP] else groups
  }

  predicate Installed(ops: seq<Op>) {
    ops != [] && ops[|ops| - 1] == Install
  }

  /**
   Over any series of installs and removals from a document without the shim, every other member, group and hook
   stays, in order; the shim is there once after an install and not at all after a removal.
   */
  lemma {:induction false} RunsTouchOnlyTheShim(doc: Json, ops: seq<Op>)
    requires Settings(doc) && !HasShim(doc)
    ensures var d := After(doc, ops);
            && RestOf(d) == RestOf(doc).(groups := WithShim(GroupsOf(doc), Installed(ops)))
            && HasShim(d) == Installed(ops)
            && Shims(GroupsOf(d)) == if Installed(ops) then 1 else 0
    decreases |ops|
  {
    var groups := GroupsOf(doc);
    if ops != [] {
      var front := ops[..|ops| - 1];
      RunsTouchOnlyTheShim(doc, front);
      StepTouchesOnlyTheShim(After(doc, front), groups, Installed(front));
    }
    if Installed(ops) {
      OneAmong(groups);
    } else {
      NoneAmong(groups);
    }
  }

  lemma StepTouchesOnlyTheShim(d: Json, groups: seq<Json>, installed: bool)
    requires Settings(d) && Groups(groups) && FirstHolder(groups) == |groups| && HasShim(d) == installed
    requires GroupsOf(d) == WithShim(groups, installed)
    ensures RestOf(Spliced(d)) == RestOf(d).(groups := groups + [SHIM_GROUP]) && HasShim(Spliced(d))
    ensures RestOf(Unspliced(d)) == RestOf(d).(groups := groups) && !HasShim(Unspliced(d))
  {
    if installed {
      FirstHolderAppended(groups);
      RemovalUndoes(d, groups);
    } else {
      SplicedGroups(d);
      SpliceKeepsRest(d);
    }
  }

  lemma RemovalUndoes(d: Json, groups: seq<Json>)
    requires Settings(d) && Groups(groups) && FirstHolder(groups) == |groups|
    requires GroupsOf(d) == groups + [SHIM_GROUP] && HasShim(d)
    ensures RestOf(Unspliced(d)) == RestOf(d).(groups := groups) && !HasShim(Unspliced(d))
  {
    FirstHolderAppended(groups);
    ShimGroupHolds();
    PruneUndoesAppend(groups);
    CascadeKeepsRest(d, groups);
  }

  // ---------- a removal from any document ----------

  /** Every hook of some groups, in order. */
  function AllHooks(groups: seq<Json>): seq<Json>
    requires Groups(groups)
  {
    if groups == [] then [] else AllHooks(groups[..|groups| - 1]) + HooksIn(groups[|groups| - 1])
  }

  lemma AllHooksAdd(a: seq<Json>, g: Json)
    requires Groups(a) && Proper(g)
    ensures Groups(a + [g]) && AllHooks(a + [g]) == AllHooks(a) + HooksIn(g)
  {
    assert (a + [g])[..|a|] == a;
  }

  lemma Associates(a: seq<Json>, b: seq<Json>, c: seq<Json>)
    ensures a + (b + c) == a + b + c
  {
  }

  lemma {:induction false} AllHooksAppend(a: seq<Json>, b: seq<Json>)
    requires Groups(a) && Groups(b)
    ensures Groups(a + b) && AllHooks(a + b) == AllHooks(a) + AllHooks(b)
  {
    if b == [] {
      assert a + b == a;
    } else {
      var front, last := b[..|b| - 1], b[|b| - 1];
      AllHooksAppend(a, front);
      AllHooksAdd(a + front, last);
      Associates(a, front, [last]);
      assert b == front + [last];
      Associates(AllHooks(a), AllHooks(front), HooksIn(last));
    }
  }

  lemma OneGroupHooks(g: Json)
    requires Proper(g)
    ensures Groups([g]) && AllHooks([g]) == HooksIn(g)
  {
    assert [g][..0] == [] && AllHooks([g][..0]) == [];
  }

  lemma HooksAround(a: seq<Json>, g: Json, b: seq<Json>)
    requires Groups(a) && Proper(g) && Groups(b)
    ensures Groups(a + [g] + b) && AllHooks(a + [g] + b) == AllHooks(a) + HooksIn(g) + AllHooks(b)
  {
    OneGroupHooks(g);
    AllHooksAppend(a, [g]);
    AllHooksAppend(a + [g], b);
  }

  lemma HooksSplit(groups: seq<Json>, g: nat)
    requires Groups(groups) && g < |groups|
    ensures Groups(groups[..g]) && Groups(groups[g + 1..])
    ensures AllHooks(groups) == AllHooks(groups[..g]) + HooksIn(groups[g]) + AllHooks(groups[g + 1..])
  {
    var a, x, b := groups[..g], groups[g], groups[g + 1..];
    forall i | 0 <= i < |a| ensures Proper(a[i]) { assert Proper(groups[i]); }
    forall i | 0 <= i < |b| ensures Proper(b[i]) { assert Proper(groups[g + 1 + i]); }
    Rejoins(groups, g);
    HooksAround(a, x, b);
  }

  lemma Rejoins(groups: seq<Json>, g: nat)
    requires g < |groups|
    ensures groups[..g] + [groups[g]] + groups[g + 1..] == groups
  {
  }

  /** Pruning one hook of one group takes that hook out of the list of them all. */
  lemma PrunedHooks(groups: seq<Json>, g: nat, h: nat)
    requires Groups(groups) && g < |groups| && h < |HooksIn(groups[g])|
    ensures Groups(groups[..g]) && Groups(groups[g + 1..])
    ensures AllHooks(Pruned(groups, g, h))
         == AllHooks(groups[..g]) + (HooksIn(groups[g])[..h] + HooksIn(groups[g])[h + 1..]) + AllHooks(groups[g + 1..])
  {
    var hooks, a, b := HooksIn(groups[g]), groups[..g], groups[g + 1..];
    var left := hooks[..h] + hooks[h + 1..];
    if left == [] {
      AllHooksAppend(a, b);
      assert AllHooks(a) + left == AllHooks(a);
    } else {
      var now := Set(groups[g], "hooks", Arr(left));
      HooksAround(a, now, b);
      assert groups[g := now] == a + [now] + b;
    }
  }

  lemma FirstInside(a: seq<Json>, hooks: seq<Json>, h: nat, b: seq<Json>)
    requires forall k :: 0 <= k < |a| ==> !IsShim(a[k])
    requires h == FirstShim(hooks) < |hooks|
    ensures FirstShim(a + hooks + b) == |a| + h
  {
    var all := a + hooks + b;
    assert all[|a| + h] == hooks[h];
    forall k | 0 <= k < |a| + h ensures !IsShim(all[k]) {
      assert all[k] == if k < |a| then a[k] else hooks[k - |a|];
    }
  }

  lemma DropsInside(a: seq<Json>, hooks: seq<Json>, h: nat, b: seq<Json>)
    requires forall k :: 0 <= k < |a| ==> !IsShim(a[k])
    requires h == FirstShim(hooks) < |hooks|
    ensures DropsFirst(a + hooks + b, a + (hooks[..h] + hooks[h + 1..]) + b)
  {
    FirstInside(a, hooks, h, b);
  }

  /** No hook of the groups before the first holder is a shim. */
  lemma NoShimAhead(groups: seq<Json>, g: nat)
    requires Groups(groups) && g == FirstHolder(groups)
    ensures Groups(groups[..g]) && forall k :: 0 <= k < |AllHooks(groups[..g])| ==> !IsShim(AllHooks(groups[..g])[k])
  {
    NoShimBefore(groups[..g]);
  }

  /** The first shim of the first group that holds one is the first shim of all, and pruning drops just that. */
  lemma PruneDropsTheFirst(groups: seq<Json>, g: nat, h: nat)
    requires Groups(groups) && g == FirstHolder(groups) < |groups| && h == FirstShim(HooksIn(groups[g]))
    ensures DropsFirst(AllHooks(groups), AllHooks(Pruned(groups, g, h)))
  {
    assert h < |HooksIn(groups[g])|;
    HooksSplit(groups, g);
    NoShimAhead(groups, g);
    PrunedHooks(groups, g, h);
    DropsBetween(AllHooks(groups[..g]), HooksIn(groups[g]), h, AllHooks(groups[g + 1..]),
                 AllHooks(groups), AllHooks(Pruned(groups, g, h)));
  }

  lemma DropsBetween(a: seq<Json>, hooks: seq<Json>, h: nat, b: seq<Json>, was: seq<Json>, now: seq<Json>)
    requires forall k :: 0 <= k < |a| ==> !IsShim(a[k])
    requires h == FirstShim(hooks) < |hooks|
    requires was == a + hooks + b && now == a + (hooks[..h] + hooks[h + 1..]) + b
    ensures DropsFirst(was, now)
  {
    DropsInside(a, hooks, h, b);
  }

  /** The later list is the earlier one without its first shim. */
  predicate DropsFirst(was: seq<Json>, now: seq<Json>) {
    var i := FirstShim(was);
    i < |was| && now == was[..i] + was[i + 1..]
  }

  /** Whatever the user has made of the groups, a removal takes out the first shim and leaves every other hook. */
  lemma RemovalTakesOneHook(doc: Json)
    requires Settings(doc) && HasShim(doc)
    ensures RestOf(Unspliced(doc)).top == RestOf(doc).top && RestOf(Unspliced(doc)).inner == RestOf(doc).inner
    ensures DropsFirst(AllHooks(GroupsOf(doc)), AllHooks(GroupsOf(Unspliced(doc))))
  {
    var groups := GroupsOf(doc);
    var g := FirstHolder(groups);
    var h := FirstShim(HooksIn(groups[g]));
    PruneDropsTheFirst(groups, g, h);
    CascadeKeepsRest(doc, Pruned(groups, g, h));
  }

  lemma {:induction false} NoShimBefore(groups: seq<Json>)
    requires Groups(groups) && forall k :: 0 <= k < |groups| ==> !Holds(groups[k])
    ensures forall k :: 0 <= k < |AllHooks(groups)| ==> !IsShim(AllHooks(groups)[k])
  {
    if groups != [] {
      NoShimBefore(groups[..|groups| - 1]);
      assert !Holds(groups[|groups| - 1]);
    }
  }

  // ---------- the settings file ----------

  datatype Content = Malformed(text: string) | Document(doc: Json)
  datatype Status = JustSpliced | AlreadySpliced | JustUnspliced | NotSpliced | RefusedMalformed

  /** Positions of the first shim, walking groups and their hooks in order; found is false when there is none. */
  method FindShimEntry(doc: Json) returns (g: nat, h: nat, found: bool)
    requires Settings(doc)
    ensures found == HasShim(doc)
    ensures found ==> g == FirstHolder(GroupsOf(doc)) && h == FirstShim(HooksIn(GroupsOf(doc)[g]))
  {
    var groups := GroupsOf(doc);
    g := 0;
    while g < |groups|
      invariant 0 <= g <= |groups|
      invariant forall k :: 0 <= k < g ==> !Holds(groups[k])
    {
      var hooks := HooksIn(groups[g]);
      h := 0;
      while h < |hooks|
        invariant 0 <= h <= |hooks|
        invariant forall k :: 0 <= k < h ==> !IsShim(hooks[k])
      {
        if Has(hooks[h], "command") && Get(hooks[h], "command") == Str(SHIM_COMMAND) {
          return g, h, true;
        }
        h := h + 1;
      }
      g := g + 1;
    }
    return 0, 0, false;
  }

  /** Removes one hook, then each container it leaves empty: the group, the array, the hooks object. */
  method RemoveShimEntry(doc: Json, g: nat, h: nat) returns (out: Json)
    requires Settings(doc) && Has(doc, "hooks") && g < |GroupsOf(doc)| && h < |HooksIn(GroupsOf(doc)[g])|
    ensures out == Cascaded(doc, Pruned(GroupsOf(doc), g, h))
  {
    var groups := GroupsOf(doc);
    var hooks := HooksIn(groups[g]);
    hooks := hooks[..h] + hooks[h + 1..];
    if |hooks| == 0 {
      groups := groups[..g] + groups[g + 1..];
    } else {
      groups := groups[g := Set(groups[g], "hooks", Arr(hooks))];
    }
    var container := Get(doc, "hooks");
    if |groups| == 0 {
      container := Delete(container, "SessionStart");
    } else {
      container := Set(container, "SessionStart", Arr(groups));
    }
    if |container.members| == 0 {
      out := Delete(doc, "hooks");
    } else {
      out := Set(doc, "hooks", container);
    }
  }

  /** settings.json and its one-time backup; None is a file that is not there. */
  class SettingsFile {
    var content: Option<Content>
    var bak: Option<Content>

    ghost predicate Valid()
      reads this
    {
      content.Some? && content.value.Document? ==> Settings(content.value.doc)
    }

    constructor (content: Option<Content>, bak: Option<Content>)
      requires content.Some? && content.value.Document? ==> Settings(content.value.doc)
      ensures Valid() && this.content == content && this.bak == bak
    {
      this.content, this.bak := content, bak;
    }

    /** The backup is written once, before the first write to an existing file, and never again. */
    method WriteBakOnce()
      requires content.Some?
      modifies this`bak
      ensures bak == if old(bak).Some? then old(bak) else content
    {
      if bak == None {
        bak := content;
      }
    }

    method Splice() returns (status: Status)
      requires Valid()
      modifies this
      ensures Valid()
      ensures var was := if old(content) == None then Document(Obj([])) else old(content).value;
              match was
              case Malformed(_) => status == RefusedMalformed && content == old(content) && bak == old(bak)
              case Document(doc) =>
                if HasShim(doc) then status == AlreadySpliced && content == old(content) && bak == old(bak)
                else
                  && status == JustSpliced && content == Some(Document(Spliced(doc)))
                  && bak == if old(content) == None || old(bak).Some? then old(bak) else old(content)
    {
      var missing := content == None;
      var data := if missing then Document(Obj([])) else content.value;
      if data.Malformed? {
        return RefusedMalformed;
      }
      var _, _, found := FindShimEntry(data.doc);
      if found {
        return AlreadySpliced;
      }
      if !missing {
        WriteBakOnce();
      }
      content := Some(Document(Spliced(data.doc)));
      status := JustSpliced;
    }

    method Unsplice() returns (status: Status)
      requires Valid()
      modifies this`content
      ensures Valid()
      ensures match old(content)
              case None => status == NotSpliced && content == None
              case Some(Malformed(_)) => status == RefusedMalformed && content == old(content)
              case Some(Document(doc)) =>
                && status == (if HasShim(doc) then JustUnspliced else NotSpliced)
                && content == Some(Document(Unspliced(doc)))
    {
      if content == None {
        return NotSpliced;
      }
      if content.value.Malformed? {
        return RefusedMalformed;
      }
      var doc := content.value.doc;
      var g, h, found := FindShimEntry(doc);
      if !found {
        return NotSpliced;
      }
      var out := RemoveShimEntry(doc, g, h);
      content := Some(Document(out));
      status := JustUnspliced;
    }
  }
}
