/**
 Tool results and the calls they answer. Every offline reader walks its records in order, keeps the calls it has
 met under their ids, and writes a result into the call it answers through a shared reference; a result that no
 open call awaits becomes an event of its own.
 */
module ToolPairing {
  import opened Wrappers
  import opened Clock

  datatype Kind = Prompt | Reply | Thinking | ToolUse | ToolResult | Meta

  /** An event apart from its tool. */
  datatype Said = Said(kind: Kind, at: Time, id: string, tag: string, text: string, images: nat, redacted: bool)

  datatype Result = Result(at: Time, text: string, images: nat, isError: bool)

  /** What one record, or one block of it, asks of the pairing. */
  datatype Step =
    | Say(ev: Said)
    | Call(ev: Said, id: string, name: string)
    | Answer(ev: Said, id: string, name: string, res: Result)

  // ---------- the reference: events by the position of the step that made them ----------

  datatype Slot = Plain(step: nat) | Asked(step: nat, answer: Option<nat>) | Stray(step: nat)

  /** The events so far, and for each call id the event of the latest call under it. */
  datatype Sheet = Sheet(slots: seq<Slot>, calls: map<string, nat>)

  function Placed(sheet: Sheet, step: Step, n: nat): Sheet
    requires forall id :: id in sheet.calls ==> sheet.calls[id] < |sheet.slots|
  {
    match step
    case Say(_) => sheet.(slots := sheet.slots + [Plain(n)])
    case Call(_, id, _) =>
      Sheet(sheet.slots + [Asked(n, None)], if id == "" then sheet.calls else sheet.calls[id := |sheet.slots|])
    case Answer(_, id, _, _) =>
      if id in sheet.calls && sheet.slots[sheet.calls[id]].Asked? && sheet.slots[sheet.calls[id]].answer == None
      then sheet.(slots := sheet.slots[sheet.calls[id] := Asked(sheet.slots[sheet.calls[id]].step, Some(n))])
      else sheet.(slots := sheet.slots + [Stray(n)])
  }

  function Paired(steps: seq<Step>): (sheet: Sheet)
    ensures forall id :: id in sheet.calls ==> sheet.calls[id] < |sheet.slots| && sheet.slots[sheet.calls[id]].Asked?
  {
    if steps == [] then Sheet([], map[])
    else Placed(Paired(steps[..|steps| - 1]), steps[|steps| - 1], |steps| - 1)
  }

  // ---------- what pairing means ----------

  /** Step k speaks of id: it makes a call under it or answers one. */
  predicate Names(step: Step, id: string) {
    !step.Say? && step.id == id
  }

  /** The answer at j belongs to the call at c: the call is under its id, and nothing in between is. */
  ghost predicate Matches(steps: seq<Step>, c: nat, j: nat) {
    && c < j < |steps|
    && steps[c].Call? && steps[j].Answer?
    && steps[c].id == steps[j].id != ""
    && forall k :: c < k < j ==> !Names(steps[k], steps[c].id)
  }

  /** The latest call under an id. */
  ghost predicate Latest(steps: seq<Step>, id: string, c: nat) {
    c < |steps| && steps[c].Call? && steps[c].id == id != ""
    && forall k :: c < k < |steps| && steps[k].Call? ==> steps[k].id != id
  }

  /** The sheet says about the steps exactly what pairing means. */
  ghost predicate Faithful(steps: seq<Step>, sheet: Sheet) {
    && (forall k :: 0 <= k < |sheet.slots| ==> SlotFits(steps, sheet.slots[k]))
    && (forall k, l :: 0 <= k < l < |sheet.slots| ==> sheet.slots[k].step < sheet.slots[l].step)
    && (forall id :: id in sheet.calls ==>
          && sheet.calls[id] < |sheet.slots|
          && sheet.slots[sheet.calls[id]].Asked?
          && Latest(steps, id, sheet.slots[sheet.calls[id]].step))
    && (forall j :: 0 <= j < |steps| ==> HasPlace(steps, sheet, j))
  }

  ghost predicate SlotFits(steps: seq<Step>, slot: Slot) {
    && slot.step < |steps|
    && match slot
       case Plain(s) => steps[s].Say?
       case Asked(s, a) =>
         && steps[s].Call?
         && (a.Some? ==> Matches(steps, s, a.value))
         && (a == None ==> forall j: nat :: !Matches(steps, s, j))
       case Stray(s) => steps[s].Answer? && forall c: nat :: !Matches(steps, c, s)
  }

  /** Step j made an event, or answered one. */
  ghost predicate HasPlace(steps: seq<Step>, sheet: Sheet, j: nat)
    requires j < |steps|
  {
    && (steps[j].Call? && steps[j].id != "" ==> steps[j].id in sheet.calls)
    && ((exists k :: 0 <= k < |sheet.slots| && sheet.slots[k].step == j)
        || (exists k :: 0 <= k < |sheet.slots| && sheet.slots[k].Asked? && sheet.slots[k].answer == Some(j)))
  }

  lemma MatchesGrows(steps: seq<Step>, more: Step, c: nat, j: nat)
    requires j < |steps|
    ensures Matches(steps + [more], c, j) <==> Matches(steps, c, j)
  {
    var all := steps + [more];
    assert forall k :: 0 <= k < |steps| ==> all[k] == steps[k];
    if Matches(all, c, j) {
      forall k | c < k < j ensures !Names(steps[k], steps[c].id) { assert !Names(all[k], all[c].id); }
    }
  }

  /** Under the latest call, the first answer is the match. */
  lemma {:induction false} FirstAnswerMatches(steps: seq<Step>, id: string, c: nat, j: nat)
    requires Latest(steps, id, c) && c < j < |steps| && Names(steps[j], id)
    ensures exists i: nat :: Matches(steps, c, i)
    decreases j
  {
    if k :| c < k < j && Names(steps[k], id) {
      FirstAnswerMatches(steps, id, c, k);
    } else {
      assert Matches(steps, c, j);
    }
  }

  // ---------- the sheet is faithful ----------

  /** A slot's account does not change when a step that is no match of its call is added. */
  lemma SlotKeeps(steps: seq<Step>, more: Step, slot: Slot)
    requires SlotFits(steps, slot)
    requires slot.Asked? && slot.answer == None ==> !Matches(steps + [more], slot.step, |steps|)
    ensures SlotFits(steps + [more], slot)
  {
    var all := steps + [more];
    assert all[slot.step] == steps[slot.step];
    forall c: nat, j: nat | Matches(all, c, j) && j < |steps| ensures Matches(steps, c, j) {
      MatchesGrows(steps, more, c, j);
    }
    if slot.Asked? && slot.answer.Some? {
      MatchesGrows(steps, more, slot.step, slot.answer.value);
    }
  }

  lemma LatestKeeps(steps: seq<Step>, more: Step, id: string, c: nat)
    requires Latest(steps, id, c) && !(more.Call? && more.id == id)
    ensures Latest(steps + [more], id, c)
  {
  }

  /** A new step's only match can be the latest call under its id. */
  lemma MatchIsLatest(steps: seq<Step>, more: Step, c: nat, id: string, l: nat)
    requires Matches(steps + [more], c, |steps|)
    requires Latest(steps, id, l) && more.id == id
    ensures c == l
  {
    var all := steps + [more];
    assert steps[c] == all[c] && Names(all[c], id);
    if c < l { assert Names(all[l], id); }
  }

  lemma MatchIsLatestCall(steps: seq<Step>, more: Step, c: nat)
    requires Matches(steps + [more], c, |steps|)
    ensures Latest(steps, more.id, c)
  {
    var all := steps + [more];
    assert all[c] == steps[c];
    forall k | c < k < |steps| && steps[k].Call? ensures steps[k].id != more.id {
      assert all[k] == steps[k] && !Names(all[k], all[c].id);
    }
  }

  lemma {:induction false} PairedIsFaithful(steps: seq<Step>)
    ensures Faithful(steps, Paired(steps))
  {
    if steps != [] {
      var front, more := steps[..|steps| - 1], steps[|steps| - 1];
      PairedIsFaithful(front);
      assert steps == front + [more];
      if more.Say? {
        AddSay(front, more, Paired(front));
      } else if more.Call? {
        AddCall(front, more, Paired(front));
      } else {
        AddAnswer(front, more, Paired(front));
      }
    }
  }

  lemma AddSay(steps: seq<Step>, more: Step, sheet: Sheet)
    requires Faithful(steps, sheet) && more.Say?
    ensures Faithful(steps + [more], Placed(sheet, more, |steps|))
  {
    var all, after := steps + [more], Placed(sheet, more, |steps|);
    assert all[|steps|] == more;
    forall k | 0 <= k < |sheet.slots| ensures SlotFits(all, after.slots[k]) {
      SlotKeeps(steps, more, sheet.slots[k]);
    }
    forall id | id in sheet.calls ensures Latest(all, id, after.slots[after.calls[id]].step) {
      LatestKeeps(steps, more, id, sheet.slots[sheet.calls[id]].step);
    }
    PlacesKeep(steps, more, sheet, after);
  }

  lemma AddCall(steps: seq<Step>, more: Step, sheet: Sheet)
    requires Faithful(steps, sheet) && more.Call?
    ensures Faithful(steps + [more], Placed(sheet, more, |steps|))
  {
    var all, after := steps + [more], Placed(sheet, more, |steps|);
    assert all[|steps|] == more;
    forall k | 0 <= k < |sheet.slots| ensures SlotFits(all, after.slots[k]) {
      SlotKeeps(steps, more, sheet.slots[k]);
    }
    CallIsLatest(steps, more, sheet);
    PlacesKeep(steps, more, sheet, after);
  }

  lemma CallIsLatest(steps: seq<Step>, more: Step, sheet: Sheet)
    requires Faithful(steps, sheet) && more.Call?
    ensures var after := Placed(sheet, more, |steps|);
            forall id :: id in after.calls ==>
              && after.calls[id] < |after.slots| && after.slots[after.calls[id]].Asked?
              && Latest(steps + [more], id, after.slots[after.calls[id]].step)
  {
    var all, after := steps + [more], Placed(sheet, more, |steps|);
    assert all[|steps|] == more;
    forall id | id in after.calls
      ensures after.calls[id] < |after.slots| && after.slots[after.calls[id]].Asked?
      ensures Latest(all, id, after.slots[after.calls[id]].step)
    {
      if id != more.id || more.id == "" {
        LatestKeeps(steps, more, id, sheet.slots[sheet.calls[id]].step);
      }
    }
  }

  lemma AddAnswer(steps: seq<Step>, more: Step, sheet: Sheet)
    requires Faithful(steps, sheet) && more.Answer?
    ensures Faithful(steps + [more], Placed(sheet, more, |steps|))
  {
    var all, after := steps + [more], Placed(sheet, more, |steps|);
    assert all[|steps|] == more;
    var open := more.id in sheet.calls && sheet.slots[sheet.calls[more.id]].answer == None;
    if open {
      OpenCallTakes(steps, more, sheet);
    } else {
      NoCallTakes(steps, more, sheet);
    }
    forall id | id in sheet.calls ensures Latest(all, id, after.slots[after.calls[id]].step) {
      LatestKeeps(steps, more, id, sheet.slots[sheet.calls[id]].step);
    }
    PlacesKeep(steps, more, sheet, after);
  }

  /** An open latest call takes the answer, and no other call could. */
  lemma OpenCallTakes(steps: seq<Step>, more: Step, sheet: Sheet)
    requires Faithful(steps, sheet) && more.Answer?
    requires more.id in sheet.calls && sheet.slots[sheet.calls[more.id]].answer == None
    ensures forall k :: 0 <= k < |sheet.slots| ==> SlotFits(steps + [more], Placed(sheet, more, |steps|).slots[k])
  {
    var all, at := steps + [more], sheet.calls[more.id];
    var c := sheet.slots[at].step;
    assert all[|steps|] == more;
    forall k | c < k < |steps| ensures !Names(all[k], more.id) {
      assert all[k] == steps[k];
      if Names(steps[k], more.id) {
        FirstAnswerMatches(steps, more.id, c, k);
      }
    }
    assert all[c] == steps[c];
    assert Matches(all, c, |steps|);
    forall k | 0 <= k < |sheet.slots| && k != at ensures SlotFits(all, sheet.slots[k]) {
      if Matches(all, sheet.slots[k].step, |steps|) {
        MatchIsLatest(steps, more, sheet.slots[k].step, more.id, c);
      }
      SlotKeeps(steps, more, sheet.slots[k]);
    }
  }

  /** With no open call under the id, the answer matches no call at all. */
  lemma NoCallTakes(steps: seq<Step>, more: Step, sheet: Sheet)
    requires Faithful(steps, sheet) && more.Answer?
    requires more.id !in sheet.calls || sheet.slots[sheet.calls[more.id]].answer.Some?
    ensures forall c: nat :: !Matches(steps + [more], c, |steps|)
    ensures forall k :: 0 <= k < |sheet.slots| ==> SlotFits(steps + [more], sheet.slots[k])
  {
    var all := steps + [more];
    forall c: nat ensures !Matches(all, c, |steps|) {
      if Matches(all, c, |steps|) {
        MatchIsLatestCall(steps, more, c);
        assert HasPlace(steps, sheet, c) && steps[c].id == more.id;
        MatchIsLatest(steps, more, c, more.id, sheet.slots[sheet.calls[more.id]].step);
        var j := sheet.slots[sheet.calls[more.id]].answer.value;
        assert Matches(steps, c, j) && all[j] == steps[j] && Names(all[j], all[c].id);
      }
    }
    forall k | 0 <= k < |sheet.slots| ensures SlotFits(all, sheet.slots[k]) {
      SlotKeeps(steps, more, sheet.slots[k]);
    }
  }

  lemma PlacesKeep(steps: seq<Step>, more: Step, sheet: Sheet, after: Sheet)
    requires Faithful(steps, sheet) && after == Placed(sheet, more, |steps|)
    ensures forall j :: 0 <= j <= |steps| ==> HasPlace(steps + [more], after, j)
  {
    var all := steps + [more];
    forall j | 0 <= j <= |steps| ensures HasPlace(all, after, j) {
      if j < |steps| {
        assert HasPlace(steps, sheet, j) && all[j] == steps[j];
        if k :| 0 <= k < |sheet.slots| && sheet.slots[k].step == j {
          assert after.slots[k].step == j;
        } else {
          var k :| 0 <= k < |sheet.slots| && sheet.slots[k].Asked? && sheet.slots[k].answer == Some(j);
          assert after.slots[k] == sheet.slots[k];
        }
      } else if |after.slots| > |sheet.slots| {
        assert after.slots[|sheet.slots|].step == j;
      } else {
        var k := sheet.calls[more.id];
        assert after.slots[k].answer == Some(j);
      }
    }
  }

  // ---------- results are conserved ----------

  predicate Holds(slot: Slot, j: nat) {
    slot == Stray(j) || (slot.Asked? && slot.answer == Some(j))
  }

  /** A result no call matches. */
  ghost predicate IsStray(steps: seq<Step>, j: nat) {
    j < |steps| && steps[j].Answer? && forall c: nat :: !Matches(steps, c, j)
  }

  lemma AnswerIsHeld(steps: seq<Step>, j: nat)
    requires j < |steps| && steps[j].Answer?
    ensures exists k :: 0 <= k < |Paired(steps).slots| && Holds(Paired(steps).slots[k], j)
  {
    PairedIsFaithful(steps);
    var slots := Paired(steps).slots;
    assert HasPlace(steps, Paired(steps), j);
    if k :| 0 <= k < |slots| && slots[k].step == j {
      assert SlotFits(steps, slots[k]);
      assert Holds(slots[k], j);
    } else {
      var k :| 0 <= k < |slots| && slots[k].Asked? && slots[k].answer == Some(j);
      assert Holds(slots[k], j);
    }
  }

  lemma MatchIsUnique(steps: seq<Step>, b: nat, c: nat, j: nat)
    requires Matches(steps, b, j) && Matches(steps, c, j)
    ensures b == c
  {
    assert Names(steps[b], steps[j].id) && Names(steps[c], steps[j].id);
  }

  lemma OneAnswerPerCall(steps: seq<Step>, c: nat, i: nat, j: nat)
    requires Matches(steps, c, i) && Matches(steps, c, j)
    ensures i == j
  {
    assert Names(steps[i], steps[c].id) && Names(steps[j], steps[c].id);
  }

  lemma HeldOnce(steps: seq<Step>, k: nat, l: nat, j: nat)
    requires k < |Paired(steps).slots| && l < |Paired(steps).slots|
    requires Holds(Paired(steps).slots[k], j) && Holds(Paired(steps).slots[l], j)
    ensures k == l
  {
    PairedIsFaithful(steps);
    var slots := Paired(steps).slots;
    assert SlotFits(steps, slots[k]) && SlotFits(steps, slots[l]);
    if slots[k].Asked? && slots[l].Asked? {
      MatchIsUnique(steps, slots[k].step, slots[l].step, j);
    }
    assert slots[k].step == slots[l].step;
  }

  lemma AnsweredByMatch(steps: seq<Step>, k: nat, j: nat)
    requires k < |Paired(steps).slots| && Paired(steps).slots[k].Asked?
    ensures Paired(steps).slots[k].answer == Some(j) <==> Matches(steps, Paired(steps).slots[k].step, j)
  {
    PairedIsFaithful(steps);
    var slot := Paired(steps).slots[k];
    assert SlotFits(steps, slot);
    if Matches(steps, slot.step, j) && slot.answer.Some? {
      OneAnswerPerCall(steps, slot.step, j, slot.answer.value);
    }
  }

  /**
   Every result ends in exactly one event: in the call it matches when one matches, and in an event of its own
   exactly when none does. And a call goes unanswered exactly when nothing matches it.
   */
  lemma ResultsAreConserved(steps: seq<Step>)
    ensures forall j :: 0 <= j < |steps| && steps[j].Answer? ==> HeldExactlyOnce(steps, j)
    ensures forall k, j: nat :: 0 <= k < |Paired(steps).slots| && Paired(steps).slots[k].Asked? ==>
              (Holds(Paired(steps).slots[k], j) <==> Matches(steps, Paired(steps).slots[k].step, j))
    ensures forall k :: 0 <= k < |Paired(steps).slots| && Paired(steps).slots[k].Stray? ==>
              IsStray(steps, Paired(steps).slots[k].step)
  {
    var slots := Paired(steps).slots;
    forall j | 0 <= j < |steps| && steps[j].Answer? ensures HeldExactlyOnce(steps, j) {
      AnswerIsHeld(steps, j);
      forall k, l | 0 <= k < |slots| && 0 <= l < |slots| && Holds(slots[k], j) && Holds(slots[l], j) ensures k == l {
        HeldOnce(steps, k, l, j);
      }
    }
    forall k, j: nat | 0 <= k < |slots| && slots[k].Asked?
      ensures Holds(slots[k], j) <==> Matches(steps, slots[k].step, j)
    {
      AnsweredByMatch(steps, k, j);
    }
    PairedIsFaithful(steps);
    forall k | 0 <= k < |slots| && slots[k].Stray? ensures IsStray(steps, slots[k].step) {
      assert SlotFits(steps, slots[k]);
    }
  }

  ghost predicate HeldExactlyOnce(steps: seq<Step>, j: nat) {
    var slots := Paired(steps).slots;
    exists k :: 0 <= k < |slots| && Holds(slots[k], j)
                && forall l :: 0 <= l < |slots| && Holds(slots[l], j) ==> l == k
  }

  /** The event a reader has made stays where it is, and a result once written stays written. */
  ghost predicate Kept(was: Slot, now: Slot) {
    || now == was
    || (was.Asked? && was.answer == None && now.Asked? && now.step == was.step)
  }

  lemma {:induction false} NothingIsOverwritten(steps: seq<Step>, n: nat)
    requires n <= |steps|
    ensures var was, now := Paired(steps[..n]).slots, Paired(steps).slots;
            |was| <= |now| && forall k :: 0 <= k < |was| ==> Kept(was[k], now[k])
    decreases |steps|
  {
    if n == |steps| {
      assert steps[..n] == steps;
    } else {
      var front := steps[..|steps| - 1];
      NothingIsOverwritten(front, n);
      assert front[..n] == steps[..n];
    }
  }

  // ---------- prompts ----------

  predicate Asks(step: Step) {
    step.ev.kind == Prompt
  }

  function PromptSteps(steps: seq<Step>): nat {
    if steps == [] then 0 else PromptSteps(steps[..|steps| - 1]) + if Asks(steps[|steps| - 1]) then 1 else 0
  }

  function PromptsAmong(said: seq<Said>): nat {
    if said == [] then 0
    else PromptsAmong(said[..|said| - 1]) + if said[|said| - 1].kind == Prompt then 1 else 0
  }

  /** What the events say, in order. */
  function Spoken(steps: seq<Step>, slots: seq<Slot>): seq<Said>
    requires forall k :: 0 <= k < |slots| ==> slots[k].step < |steps|
  {
    seq(|slots|, k requires 0 <= k < |slots| => steps[slots[k].step].ev)
  }

  lemma {:induction false} StepsInRange(steps: seq<Step>)
    ensures forall k :: 0 <= k < |Paired(steps).slots| ==> Paired(steps).slots[k].step < |steps|
  {
    if steps != [] {
      StepsInRange(steps[..|steps| - 1]);
    }
  }

  /** Results are never prompts, so every prompt step is an event and stays one. */
  lemma {:induction false} PromptsAreKept(steps: seq<Step>)
    requires forall j :: 0 <= j < |steps| && steps[j].Answer? ==> !Asks(steps[j])
    ensures forall k :: 0 <= k < |Paired(steps).slots| ==> Paired(steps).slots[k].step < |steps|
    ensures PromptsAmong(Spoken(steps, Paired(steps).slots)) == PromptSteps(steps)
  {
    StepsInRange(steps);
    if steps != [] {
      var front, more := steps[..|steps| - 1], steps[|steps| - 1];
      PromptsAreKept(front);
      StepsInRange(front);
      assert steps == front + [more];
      SpokenGrows(front, more);
      var was := Spoken(front, Paired(front).slots);
      assert (was + [more.ev])[..|was|] == was;
    }
  }

  /** One more step speaks one event more, or answers one that is there. */
  lemma SpokenGrows(front: seq<Step>, more: Step)
    requires forall k :: 0 <= k < |Paired(front).slots| ==> Paired(front).slots[k].step < |front|
    requires forall k :: 0 <= k < |Paired(front + [more]).slots| ==> Paired(front + [more]).slots[k].step < |front + [more]|
    ensures var was, now := Spoken(front, Paired(front).slots), Spoken(front + [more], Paired(front + [more]).slots);
            now == was + [more.ev] || (now == was && more.Answer?)
  {
    assert (front + [more])[..|front|] == front;
    var was, now := Spoken(front, Paired(front).slots), Spoken(front + [more], Paired(front + [more]).slots);
    if |now| > |was| {
      assert now == was + [more.ev];
    } else {
      assert now == was;
    }
  }

  // ---------- the shared objects ----------

  class ToolCall {
    const id: string
    const name: string
    var result: Option<Result>

    constructor (id: string, name: string, result: Option<Result>)
      ensures this.id == id && this.name == name && this.result == result
    {
      this.id, this.name, this.result := id, name, result;
    }
  }

  datatype Event = Event(said: Said, tool: ToolCall?)

  /** The event shows what its slot says of the steps. */
  ghost predicate Shows(steps: seq<Step>, slot: Slot, ev: Event)
    reads ev.tool
  {
    && slot.step < |steps|
    && ev.said == steps[slot.step].ev
    && match slot
       case Plain(s) => ev.tool == null
       case Asked(s, a) =>
         && steps[s].Call? && ev.tool != null && ev.tool.id == steps[s].id && ev.tool.name == steps[s].name
         && (a == None ==> ev.tool.result == None)
         && (a.Some? ==> a.value < |steps| && steps[a.value].Answer? && ev.tool.result == Some(steps[a.value].res))
       case Stray(s) =>
         && steps[s].Answer? && ev.tool != null && ev.tool.id == steps[s].id && ev.tool.name == steps[s].name
         && ev.tool.result == Some(steps[s].res)
  }

  /** A reader at work: the events it returns, and the calls a later result may still reach. */
  class Reading {
    var events: seq<Event>
    var calls: map<string, ToolCall>
    ghost var steps: seq<Step>
    ghost var sheet: Sheet

    /** The calls behind the events. */
    ghost var tools: set<ToolCall>

    ghost predicate Valid()
      reads this, tools
    {
      && sheet == Paired(steps)
      && |events| == |sheet.slots|
      && (forall i :: 0 <= i < |events| && events[i].tool != null ==> events[i].tool in tools)
      && (forall i :: 0 <= i < |events| ==> Shows(steps, sheet.slots[i], events[i]))
      && (forall i, j :: 0 <= i < j < |events| && events[i].tool != null ==> events[i].tool != events[j].tool)
      && calls.Keys == sheet.calls.Keys
      && (forall id :: id in calls ==> events[sheet.calls[id]].tool == calls[id])
    }

    constructor ()
      ensures Valid() && steps == [] && tools == {}
    {
      events, calls, steps, sheet, tools := [], map[], [], Sheet([], map[]), {};
    }

    /** Takes note of a step, once its event or its result is in place. */
    ghost method Note(more: Step)
      requires sheet == Paired(steps)
      modifies this`steps, this`sheet
      ensures steps == old(steps) + [more] && sheet == Placed(old(sheet), more, |old(steps)|) == Paired(steps)
    {
      assert (steps + [more])[..|steps|] == steps;
      sheet := Placed(sheet, more, |steps|);
      steps := steps + [more];
    }

    method Say(ev: Said)
      requires Valid()
      modifies this
      ensures Valid() && steps == old(steps) + [Step.Say(ev)] && tools == old(tools)
    {
      events := events + [Event(ev, null)];
      Note(Step.Say(ev));
    }

    method Call(ev: Said, id: string, name: string)
      requires Valid()
      modifies this
      ensures Valid() && steps == old(steps) + [Step.Call(ev, id, name)] && fresh(tools - old(tools))
    {
      var call := new ToolCall(id, name, None);
      if id != "" {
        calls := calls[id := call];
      }
      events := events + [Event(ev, call)];
      tools := tools + {call};
      Note(Step.Call(ev, id, name));
    }

    method Answer(ev: Said, id: string, name: string, res: Result)
      requires Valid()
      modifies this, tools
      ensures Valid() && steps == old(steps) + [Step.Answer(ev, id, name, res)] && fresh(tools - old(tools))
    {
      assert id in calls ==> events[sheet.calls[id]].tool == calls[id] && calls[id] in tools;
      if id in calls && calls[id].result == None {
        Fill(ev, id, name, res);
      } else {
        AddOrphan(ev, id, name, res);
      }
    }

    /** Writes the result into the open call. */
    method Fill(ev: Said, id: string, name: string, res: Result)
      requires Valid() && id in calls && calls[id].result == None
      modifies this, tools
      ensures Valid() && steps == old(steps) + [Step.Answer(ev, id, name, res)] && tools == old(tools)
    {
      var call := calls[id];
      ghost var at := sheet.calls[id];
      assert events[at].tool == call && call in tools;
      call.result := Some(res);
      Note(Step.Answer(ev, id, name, res));
      assert Shows(steps, sheet.slots[at], events[at]);
    }

    method AddOrphan(ev: Said, id: string, name: string, res: Result)
      requires Valid() && (id !in calls || calls[id].result.Some?)
      modifies this
      ensures Valid() && steps == old(steps) + [Step.Answer(ev, id, name, res)] && fresh(tools - old(tools))
    {
      assert id in calls ==> events[sheet.calls[id]].tool == calls[id];
      var orphan := new ToolCall(id, name, Some(res));
      events := events + [Event(ev, orphan)];
      tools := tools + {orphan};
      Note(Step.Answer(ev, id, name, res));
    }
  }
}
