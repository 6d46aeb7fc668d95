/** What the turns of a conversation say, kind by kind, and that nothing a user said is lost. */
module BlockVoices {
  import opened Clock
  import opened ToolPairing
  import opened StepViews
  import opened BlockReading

  // ---------- a user turn ----------

  /** The runs a list of blocks is cut into: those ended, and the last. */
  datatype Cut = Cut(ended: seq<Run>, last: Run)

  /** The cut with one more block. */
  function CutMore(t: Turn, cut: Cut, b: Block): Cut {
    if Ends(t, b) then Cut(cut.ended + [cut.last], NO_RUN) else Cut(cut.ended, Taking(cut.last, b))
  }

  function CutOf(t: Turn, blocks: seq<Block>): Cut {
    if blocks == [] then Cut([], NO_RUN)
    else
      CutMore(t, CutOf(t, blocks[..|blocks| - 1]), blocks[|blocks| - 1])
  }

  function Both(a: Run, b: Run): Run {
    Run(a.texts + b.texts, a.images + b.images)
  }

  function Together(runs: seq<Run>): Run {
    if runs == [] then NO_RUN else Both(Together(runs[..|runs| - 1]), runs[|runs| - 1])
  }

  /** What the runs say: one event each, unless a run holds nothing. */
  function RunVoices(t: Turn, runs: seq<Run>): seq<Said> {
    if runs == [] then []
    else
      var front, run := RunVoices(t, runs[..|runs| - 1]), runs[|runs| - 1];
      if run == NO_RUN then front
      else front + [Said(if t.tag == "" then Prompt else Meta, t.at, t.id, t.tag, Joined(run.texts), run.images, false)]
  }

  /** The meta events of a turn: amp's hidden text and the blocks that are neither text, image nor result, one each. */
  function Asides(t: Turn, blocks: seq<Block>): seq<Said> {
    if blocks == [] then []
    else
      var front, b := Asides(t, blocks[..|blocks| - 1]), blocks[|blocks| - 1];
      if !t.showsOthers || b.Outcome? || b.Image? then front
      else if b.Text? then if b.hidden then front + [Said(Meta, t.at, t.id, "user:hidden", b.text, 0, false)] else front
      else front + [Said(Meta, t.at, t.id, "user:" + KindOf(b), TextOf(b), 0, false)]
  }

  /** The results a list of blocks holds, in order. */
  function ResultsOf(t: Turn, blocks: seq<Block>): seq<Given> {
    if blocks == [] then []
    else
      var front, b := ResultsOf(t, blocks[..|blocks| - 1]), blocks[|blocks| - 1];
      if b.Outcome? then
        front + [Given(Said(ToolResult, t.at, t.id, "", "", 0, false), b.id, "", Result(t.at, b.text, b.images, b.isError))]
      else front
  }

  /** What the blocks of a user turn say in one kind once the given runs of them have ended. */
  function RunsSay(kind: Kind, t: Turn, runs: seq<Run>, blocks: seq<Block>): View {
    View(if kind == (if t.tag == "" then Prompt else Meta) then RunVoices(t, runs)
         else if kind == Meta then Asides(t, blocks) else [],
         [], ResultsOf(t, blocks))
  }

  function UserSays(kind: Kind, t: Turn, blocks: seq<Block>): View {
    var cut := CutOf(t, blocks);
    RunsSay(kind, t, cut.ended + [cut.last], blocks)
  }

  /** What a run says where it is flushed. */
  function RunSays(kind: Kind, t: Turn, run: Run): View {
    View(if kind == (if t.tag == "" then Prompt else Meta) then RunVoices(t, [run]) else [], [], [])
  }

  lemma FlushedSays(kind: Kind, t: Turn, run: Run)
    ensures Of(kind, Flushed(t, run)) == RunSays(kind, t, run)
  {
    assert [run][..|[run]| - 1] == [];
    if |run.texts| > 0 || run.images > 0 {
      ViewOfOne(kind, Step.Say(Prompted(t, Joined(run.texts), run.images)));
      assert RunVoices(t, []) == [] && RunVoices(t, [run]) == [Prompted(t, Joined(run.texts), run.images)];
    } else {
      assert run == NO_RUN && RunVoices(t, []) == [];
    }
  }

  lemma RunVoicesGrow(t: Turn, runs: seq<Run>, run: Run)
    ensures RunVoices(t, runs + [run]) == RunVoices(t, runs) + RunVoices(t, [run])
  {
    assert (runs + [run])[..|runs + [run]| - 1] == runs;
    assert [run][..|[run]| - 1] == [];
  }

  lemma EndedSays(kind: Kind, t: Turn, steps: seq<Step>, run: Run, b: Block)
    requires Ends(t, b)
    ensures Of(kind, steps + Flushed(t, run) + [Ending(t, b)])
         == Plus(Plus(Of(kind, steps), RunSays(kind, t, run)), Voiced(kind, Ending(t, b)))
  {
    ViewsAppend(kind, steps, Flushed(t, run));
    ViewsAppend(kind, steps + Flushed(t, run), [Ending(t, b)]);
    FlushedSays(kind, t, run);
    ViewOfOne(kind, Ending(t, b));
  }

  lemma RunsSayMore(kind: Kind, t: Turn, ended: seq<Run>, run: Run, blocks: seq<Block>)
    requires t.tag == "" || !t.showsOthers
    requires blocks != [] && Ends(t, blocks[|blocks| - 1])
    ensures RunsSay(kind, t, ended + [run], blocks)
         == Plus(Plus(RunsSay(kind, t, ended, blocks[..|blocks| - 1]), RunSays(kind, t, run)),
                 Voiced(kind, Ending(t, blocks[|blocks| - 1])))
  {
    RunVoicesGrow(t, ended, run);
  }

  lemma {:induction false} WalkSays(kind: Kind, t: Turn, blocks: seq<Block>)
    requires t.tag == "" || !t.showsOthers
    ensures UserWalk(t, blocks).run == CutOf(t, blocks).last
    ensures Of(kind, UserWalk(t, blocks).steps) == RunsSay(kind, t, CutOf(t, blocks).ended, blocks)
  {
    if blocks != [] {
      var front, b := blocks[..|blocks| - 1], blocks[|blocks| - 1];
      WalkSays(kind, t, front);
      var w, cut := UserWalk(t, front), CutOf(t, front);
      if Ends(t, b) {
        EndedSays(kind, t, w.steps, w.run, b);
        RunsSayMore(kind, t, cut.ended, cut.last, blocks);
      }
    }
  }

  /**
   A user turn says exactly this, in each kind in order and once: its runs, an event for each that holds anything;
   amp's asides; and its results. It calls no tool and says nothing of another kind.
   */
  lemma UserTurnSays(kind: Kind, t: Turn, blocks: seq<Block>)
    requires t.tag == "" || !t.showsOthers
    ensures Of(kind, UserSteps(t, blocks)) == UserSays(kind, t, blocks)
  {
    var w, cut := UserWalk(t, blocks), CutOf(t, blocks);
    WalkSays(kind, t, blocks);
    ViewsAppend(kind, w.steps, Flushed(t, w.run));
    FlushedSays(kind, t, w.run);
    RunVoicesGrow(t, cut.ended, cut.last);
  }

  /** Kinds keep their order among each other: what the first blocks end comes before what later ones do. */
  lemma {:induction false} UserTurnOnward(t: Turn, blocks: seq<Block>, k: nat)
    requires k <= |blocks|
    ensures UserWalk(t, blocks[..k]).steps <= UserWalk(t, blocks).steps <= UserSteps(t, blocks)
  {
    if k == |blocks| {
      assert blocks[..k] == blocks;
    } else {
      var front := blocks[..|blocks| - 1];
      UserTurnOnward(t, front, k);
      assert front[..k] == blocks[..k];
    }
  }

  lemma BothTaking(a: Run, r: Run, b: Block)
    ensures Both(a, Taking(r, b)) == Taking(Both(a, r), b)
  {
    if b.Text? && b.text != "" {
      assert a.texts + (r.texts + [b.text]) == a.texts + r.texts + [b.text];
    }
  }

  lemma HeardGrows(t: Turn, blocks: seq<Block>)
    requires blocks != []
    requires var b := blocks[|blocks| - 1]; t.showsOthers || !(b.Text? && b.hidden)
    ensures var front, b := Heard(blocks[..|blocks| - 1]), blocks[|blocks| - 1];
            Heard(blocks) == if Ends(t, b) then front else Taking(front, b)
  {
  }

  lemma TogetherGrows(ended: seq<Run>, last: Run)
    ensures Both(Together(ended + [last]), NO_RUN) == Both(Together(ended), last)
  {
    assert (ended + [last])[..|ended|] == ended;
  }

  /** Hidden text is amp's, which shows it. */
  predicate InTheOpen(t: Turn, blocks: seq<Block>) {
    t.showsOthers || forall i :: 0 <= i < |blocks| ==> !(blocks[i].Text? && blocks[i].hidden)
  }

  lemma MoreKeepsAll(t: Turn, cut: Cut, b: Block)
    ensures var more, all := CutMore(t, cut, b), Both(Together(cut.ended), cut.last);
            Both(Together(more.ended), more.last) == if Ends(t, b) then all else Taking(all, b)
  {
    if Ends(t, b) {
      TogetherGrows(cut.ended, cut.last);
    } else {
      BothTaking(Together(cut.ended), cut.last, b);
    }
  }

  lemma {:induction false} CutKeepsAll(t: Turn, blocks: seq<Block>)
    requires InTheOpen(t, blocks)
    ensures Both(Together(CutOf(t, blocks).ended), CutOf(t, blocks).last) == Heard(blocks)
  {
    if blocks != [] {
      var front, b := blocks[..|blocks| - 1], blocks[|blocks| - 1];
      CutKeepsAll(t, front);
      HeardGrows(t, blocks);
      MoreKeepsAll(t, CutOf(t, front), b);
    }
  }

  /**
   A user turn's prompts are its runs, one event for each that holds anything; and the runs together hold every
   text and every image the user sent, in order and once.
   */
  lemma PromptsKeepEverything(t: Turn, blocks: seq<Block>)
    requires t.tag == ""
    requires t.showsOthers || forall i :: 0 <= i < |blocks| ==> !(blocks[i].Text? && blocks[i].hidden)
    ensures var cut := CutOf(t, blocks);
            && Voices(Prompt, UserSteps(t, blocks)) == RunVoices(t, cut.ended + [cut.last])
            && Together(cut.ended + [cut.last]) == Heard(blocks)
  {
    UserTurnSays(Prompt, t, blocks);
    CutKeepsAll(t, blocks);
    var cut := CutOf(t, blocks);
    assert (cut.ended + [cut.last])[..|cut.ended|] == cut.ended;
  }

  // ---------- an assistant turn ----------

  /** What one block of an assistant turn says: a reply, a thought, a call, or amp's meta event for anything else. */
  function BlockSays(kind: Kind, t: Turn, b: Block): View {
    View(
      match kind
      case Reply =>
        if b.Text? && b.text != "" && !(b.hidden && t.showsOthers) then [Said(Reply, t.at, t.id, "", b.text, 0, false)] else []
      case Thinking =>
        if b.Thought? then [Said(Thinking, t.at, t.id, "", b.text, 0, b.text == "")] else []
      case Meta =>
        if !t.showsOthers then []
        else if b.Text? && b.hidden then [Said(Meta, t.at, t.id, "assistant:hidden", b.text, 0, false)]
        else if b.Image? || b.Outcome? || b.Unknown? then
          [Said(Meta, t.at, t.id, "assistant:" + KindOf(b), TextOf(b), 0, false)]
        else []
      case _ => [],
      if b.Use? then [Opened(Said(ToolUse, t.at, t.id, "", "", 0, false), b.id, b.name)] else [],
      [])
  }

  function AssistantSays(kind: Kind, t: Turn, blocks: seq<Block>): View {
    if blocks == [] then NOTHING
    else Plus(AssistantSays(kind, t, blocks[..|blocks| - 1]), BlockSays(kind, t, blocks[|blocks| - 1]))
  }

  lemma TextSays(kind: Kind, t: Turn, b: Block)
    requires b.Text?
    ensures Of(kind, AssistantStep(t, b)) == BlockSays(kind, t, b)
  {
    if b.hidden && t.showsOthers {
      ViewOfOne(kind, Step.Say(Shown(t, Meta, "assistant:hidden", b.text)));
    } else {
      ViewOfOne(kind, Step.Say(Shown(t, Reply, "", b.text)));
    }
  }

  lemma AssistantBlockSays(kind: Kind, t: Turn, b: Block)
    ensures Of(kind, AssistantStep(t, b)) == BlockSays(kind, t, b)
  {
    match b
    case Text(_, _) => TextSays(kind, t, b);
    case Thought(text) => ViewOfOne(kind, Step.Say(Shown(t, Thinking, "", text)));
    case Use(id, name) => ViewOfOne(kind, Step.Call(Shown(t, ToolUse, "", ""), id, name));
    case _ => ViewOfOne(kind, Step.Say(Shown(t, Meta, "assistant:" + KindOf(b), TextOf(b))));
  }

  /**
   An assistant turn says exactly this, in each kind in order and once: its non-empty shown texts as replies, its
   thoughts, its calls under their ids and names, and a meta event for each block amp shows as such. It answers nothing.
   */
  lemma {:induction false} AssistantTurnSays(kind: Kind, t: Turn, blocks: seq<Block>)
    ensures Of(kind, AssistantSteps(t, blocks)) == AssistantSays(kind, t, blocks)
  {
    if blocks != [] {
      var front, b := blocks[..|blocks| - 1], blocks[|blocks| - 1];
      AssistantTurnSays(kind, t, front);
      AssistantBlockSays(kind, t, b);
      ViewsAppend(kind, AssistantSteps(t, front), AssistantStep(t, b));
    }
  }

  lemma {:induction false} AssistantTurnOnward(t: Turn, blocks: seq<Block>, k: nat)
    requires k <= |blocks|
    ensures AssistantSteps(t, blocks[..k]) <= AssistantSteps(t, blocks)
  {
    if k == |blocks| {
      assert blocks[..k] == blocks;
    } else {
      var front := blocks[..|blocks| - 1];
      AssistantTurnOnward(t, front, k);
      assert front[..k] == blocks[..k];
    }
  }
}
