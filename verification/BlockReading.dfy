/** Content blocks as events: adjacent text and images of a user turn form one prompt, results pair, calls open. */
module BlockReading {
  import opened Clock
  import opened ToolPairing

  /** hidden marks injected text, which only amp carries; Unknown is any type a reader does not know. */
  datatype Block =
    | Text(text: string, hidden: bool)
    | Image
    | Thought(text: string)
    | Use(id: string, name: string)
    | Outcome(id: string, text: string, images: nat, isError: bool)
    | Unknown(kind: string, text: string)

  /**
   The turn the blocks belong to. A tag marks an injected turn, whose text is meta; showsOthers is amp's rule that
   hidden text and unknown blocks are shown as meta events where they stand, while claude passes over them.
   */
  datatype Turn = Turn(at: Time, id: string, tag: string, showsOthers: bool)

  function Joined(texts: seq<string>): string {
    if texts == [] then "" else if |texts| == 1 then texts[0]
    else Joined(texts[..|texts| - 1]) + "\n" + texts[|texts| - 1]
  }

  /** Joining puts one newline between two texts and adds nothing else. */
  lemma {:induction false} JoinedAppend(a: seq<string>, b: seq<string>)
    requires a != [] && b != []
    ensures Joined(a + b) == Joined(a) + "\n" + Joined(b)
  {
    var front, last := b[..|b| - 1], b[|b| - 1];
    assert (a + b)[..|a + b| - 1] == a + front;
    if front == [] {
      assert a + front == a;
    } else {
      JoinedAppend(a, front);
      assert Joined(a) + "\n" + (Joined(front) + "\n" + last) == Joined(a) + "\n" + Joined(front) + "\n" + last;
    }
  }

  function Prompted(t: Turn, text: string, images: nat): Said {
    Said(if t.tag == "" then Prompt else Meta, t.at, t.id, t.tag, text, images, false)
  }

  function Shown(t: Turn, kind: Kind, tag: string, text: string): Said {
    Said(kind, t.at, t.id, tag, text, 0, kind == Thinking && text == "")
  }

  /** A block's own type name, as a meta event shows it. */
  function KindOf(b: Block): string {
    match b
    case Text(_, _) => "text"
    case Image => "image"
    case Thought(_) => "thinking"
    case Use(_, _) => "tool_use"
    case Outcome(_, _, _, _) => "tool_result"
    case Unknown(kind, _) => if kind == "" then "unknown" else kind
  }

  /** The payload a meta event shows of a block. */
  function TextOf(b: Block): string {
    if b.Text? || b.Unknown? then b.text else ""
  }

  // ---------- user blocks ----------

  /** A run of adjacent text and images, not yet an event. */
  datatype Run = Run(texts: seq<string>, images: nat)
  const NO_RUN := Run([], 0)

  function Flushed(t: Turn, run: Run): seq<Step> {
    if |run.texts| > 0 || run.images > 0 then [Step.Say(Prompted(t, Joined(run.texts), run.images))] else []
  }

  /** The run with one more block. */
  function Taking(run: Run, b: Block): Run {
    if b.Image? then Run(run.texts, run.images + 1)
    else if b.Text? && b.text != "" then Run(run.texts + [b.text], run.images)
    else run
  }

  datatype Walk = Walk(steps: seq<Step>, run: Run)

  /** A block that ends the run before it. */
  predicate Ends(t: Turn, b: Block) {
    b.Outcome? || (t.showsOthers && !b.Image? && !(b.Text? && !b.hidden))
  }

  function Ending(t: Turn, b: Block): Step
    requires Ends(t, b)
  {
    if b.Outcome? then
      Step.Answer(Shown(t, ToolResult, "", ""), b.id, "", Result(t.at, b.text, b.images, b.isError))
    else
      Step.Say(Shown(t, Meta, if b.Text? then "user:hidden" else "user:" + KindOf(b), TextOf(b)))
  }

  function UserWalk(t: Turn, blocks: seq<Block>): Walk {
    if blocks == [] then Walk([], NO_RUN)
    else
      var w, b := UserWalk(t, blocks[..|blocks| - 1]), blocks[|blocks| - 1];
      if Ends(t, b) then Walk(w.steps + Flushed(t, w.run) + [Ending(t, b)], NO_RUN)
      else w.(run := Taking(w.run, b))
  }

  function UserSteps(t: Turn, blocks: seq<Block>): seq<Step> {
    var w := UserWalk(t, blocks);
    w.steps + Flushed(t, w.run)
  }

  /** Ends the run, as an event when it holds anything. */
  method Flush(r: Reading, t: Turn, texts: seq<string>, images: nat)
    requires r.Valid()
    modifies r
    ensures r.Valid() && r.steps == old(r.steps) + Flushed(t, Run(texts, images)) && r.tools == old(r.tools)
  {
    if |texts| > 0 || images > 0 {
      r.Say(Prompted(t, Joined(texts), images));
    } else {
      assert r.steps + [] == r.steps;
    }
  }

  lemma UserWalkGrows(t: Turn, blocks: seq<Block>, k: nat, before: seq<Step>)
    requires k < |blocks|
    ensures var w, b, now := UserWalk(t, blocks[..k]), blocks[k], UserWalk(t, blocks[..k + 1]);
            if Ends(t, b) then
              now.run == NO_RUN && before + now.steps == before + w.steps + Flushed(t, w.run) + [Ending(t, b)]
            else
              now.run == Taking(w.run, b) && before + now.steps == before + w.steps
  {
    assert blocks[..k + 1][..k] == blocks[..k];
  }

  method ReadUserBlocks(r: Reading, t: Turn, blocks: seq<Block>)
    requires r.Valid()
    modifies r, r.tools
    ensures r.Valid() && r.steps == old(r.steps) + UserSteps(t, blocks) && fresh(r.tools - old(r.tools))
  {
    var texts: seq<string>, images, k := [], 0, 0;
    while k < |blocks|
      invariant 0 <= k <= |blocks|
      invariant r.Valid() && fresh(r.tools - old(r.tools))
      invariant UserWalk(t, blocks[..k]).run == Run(texts, images)
      invariant r.steps == old(r.steps) + UserWalk(t, blocks[..k]).steps
    {
      UserWalkGrows(t, blocks, k, old(r.steps));
      var b := blocks[k];
      if Ends(t, b) {
        Flush(r, t, texts, images);
        texts, images := [], 0;
        EndRun(r, t, b);
      } else if b.Image? {
        images := images + 1;
      } else if b.Text? && b.text != "" {
        texts := texts + [b.text];
      }
      k := k + 1;
    }
    assert blocks[..k] == blocks;
    Flush(r, t, texts, images);
  }

  /** A result pairs; whatever else ends a run is a meta event. */
  method EndRun(r: Reading, t: Turn, b: Block)
    requires r.Valid() && Ends(t, b)
    modifies r, r.tools
    ensures r.Valid() && r.steps == old(r.steps) + [Ending(t, b)] && fresh(r.tools - old(r.tools))
  {
    if b.Outcome? {
      r.Answer(Shown(t, ToolResult, "", ""), b.id, "", Result(t.at, b.text, b.images, b.isError));
    } else if b.Text? {
      r.Say(Shown(t, Meta, "user:hidden", b.text));
    } else {
      r.Say(Shown(t, Meta, "user:" + KindOf(b), TextOf(b)));
    }
  }

  /** The user's own text, in order, and the images. */
  function Heard(blocks: seq<Block>): Run {
    if blocks == [] then NO_RUN
    else
      var rest, b := Heard(blocks[..|blocks| - 1]), blocks[|blocks| - 1];
      if b.Image? then Run(rest.texts, rest.images + 1)
      else if b.Text? && !b.hidden && b.text != "" then Run(rest.texts + [b.text], rest.images)
      else rest
  }

  // ---------- assistant blocks ----------

  function AssistantStep(t: Turn, b: Block): seq<Step> {
    match b
    case Text(text, hidden) =>
      if hidden && t.showsOthers then [Step.Say(Shown(t, Meta, "assistant:hidden", text))]
      else if text != "" then [Step.Say(Shown(t, Reply, "", text))] else []
    case Thought(text) => [Step.Say(Shown(t, Thinking, "", text))]
    case Use(id, name) => [Step.Call(Shown(t, ToolUse, "", ""), id, name)]
    case _ => if t.showsOthers then [Step.Say(Shown(t, Meta, "assistant:" + KindOf(b), TextOf(b)))] else []
  }

  function AssistantSteps(t: Turn, blocks: seq<Block>): seq<Step> {
    if blocks == [] then [] else AssistantSteps(t, blocks[..|blocks| - 1]) + AssistantStep(t, blocks[|blocks| - 1])
  }

  method ReadAssistantBlock(r: Reading, t: Turn, b: Block)
    requires r.Valid()
    modifies r, r.tools
    ensures r.Valid() && r.steps == old(r.steps) + AssistantStep(t, b) && fresh(r.tools - old(r.tools))
  {
    assert r.steps + [] == r.steps;
    match b
    case Text(text, hidden) =>
      if hidden && t.showsOthers {
        r.Say(Shown(t, Meta, "assistant:hidden", text));
      } else if text != "" {
        r.Say(Shown(t, Reply, "", text));
      }
    case Thought(text) => r.Say(Shown(t, Thinking, "", text));
    case Use(id, name) => r.Call(Shown(t, ToolUse, "", ""), id, name);
    case _ =>
      if t.showsOthers {
        r.Say(Shown(t, Meta, "assistant:" + KindOf(b), TextOf(b)));
      }
  }

  method ReadAssistantBlocks(r: Reading, t: Turn, blocks: seq<Block>)
    requires r.Valid()
    modifies r, r.tools
    ensures r.Valid() && r.steps == old(r.steps) + AssistantSteps(t, blocks) && fresh(r.tools - old(r.tools))
  {
    var k := 0;
    while k < |blocks|
      invariant 0 <= k <= |blocks|
      invariant r.Valid() && fresh(r.tools - old(r.tools))
      invariant r.steps == old(r.steps) + AssistantSteps(t, blocks[..k])
    {
      ReadAssistantBlock(r, t, blocks[k]);
      AssistantGrows(t, blocks, k, old(r.steps));
      k := k + 1;
    }
    assert blocks[..k] == blocks;
  }

  lemma AssistantGrows(t: Turn, blocks: seq<Block>, k: nat, before: seq<Step>)
    requires k < |blocks|
    ensures before + AssistantSteps(t, blocks[..k + 1])
         == before + AssistantSteps(t, blocks[..k]) + AssistantStep(t, blocks[k])
  {
    assert blocks[..k + 1][..k] == blocks[..k];
  }
}
