/** The claude reader: one record a line, copied history dropped by entry id. */
module ClaudeTranscript {
  import opened Wrappers
  import opened Clock
  import opened ToolPairing
  import opened StepViews
  import opened BlockReading
  import opened BlockVoices

  datatype Body = Unreadable | Plain(text: string) | Blocks(blocks: seq<Block>)

  /** A parsed record; metaTag and metaText are what a non-conversation record shows. */
  datatype Record = Record(uuid: string, kind: string, at: Time, origin: Option<string>, isMeta: bool, body: Body,
                           metaTag: string, metaText: string)

  function TurnOf(rec: Record): Turn {
    Turn(rec.at, rec.uuid,
         if rec.origin.Some? && rec.origin.value != "human" then "user:" + rec.origin.value
         else if rec.isMeta then "user:meta" else "",
         false)
  }

  function RecordSteps(rec: Record): seq<Step> {
    var t := TurnOf(rec);
    if rec.kind == "user" then
      match rec.body
      case Unreadable => []
      case Plain(text) => [Step.Say(Prompted(t, text, 0))]
      case Blocks(blocks) => UserSteps(t, blocks)
    else if rec.kind == "assistant" then
      match rec.body
      case Unreadable => []
      case Plain(text) => if text == "" then [] else [Step.Say(Shown(t, Reply, "", text))]
      case Blocks(blocks) => AssistantSteps(t, blocks)
    else
      [Step.Say(Shown(t, Meta, rec.metaTag, rec.metaText))]
  }

  /** A turn that carries an identity. */
  predicate Identified(rec: Record) {
    rec.uuid != "" && rec.kind in {"user", "assistant"}
  }

  datatype Seen = Seen(steps: seq<Step>, ids: set<string>)

  /** Lines in order, None for one that does not parse. */
  function Walked(lines: seq<Option<Record>>): Seen {
    if lines == [] then Seen([], {})
    else
      var w, line := Walked(lines[..|lines| - 1]), lines[|lines| - 1];
      if line == None || (Identified(line.value) && line.value.uuid in w.ids) then w
      else Seen(w.steps + RecordSteps(line.value),
                if Identified(line.value) then w.ids + {line.value.uuid} else w.ids)
  }

  method ReadRecord(r: Reading, rec: Record)
    requires r.Valid()
    modifies r, r.tools
    ensures r.Valid() && r.steps == old(r.steps) + RecordSteps(rec) && fresh(r.tools - old(r.tools))
  {
    assert r.steps + [] == r.steps;
    var t := TurnOf(rec);
    if rec.kind == "user" {
      match rec.body
      case Unreadable =>
      case Plain(text) => r.Say(Prompted(t, text, 0));
      case Blocks(blocks) => ReadUserBlocks(r, t, blocks);
    } else if rec.kind == "assistant" {
      match rec.body
      case Unreadable =>
      case Plain(text) =>
        if text != "" {
          r.Say(Shown(t, Reply, "", text));
        }
      case Blocks(blocks) => ReadAssistantBlocks(r, t, blocks);
    } else {
      r.Say(Shown(t, Meta, rec.metaTag, rec.metaText));
    }
  }

  lemma WalkedGrows(lines: seq<Option<Record>>, k: nat)
    requires k < |lines|
    ensures var w, line, now := Walked(lines[..k]), lines[k], Walked(lines[..k + 1]);
            if line == None || (Identified(line.value) && line.value.uuid in w.ids) then now == w
            else
              && now.steps == w.steps + RecordSteps(line.value)
              && now.ids == if Identified(line.value) then w.ids + {line.value.uuid} else w.ids
  {
    assert lines[..k + 1][..k] == lines[..k];
  }

  method ReadTranscript(lines: seq<Option<Record>>) returns (r: Reading)
    ensures r.Valid() && r.steps == Walked(lines).steps
  {
    r := new Reading();
    var seen: set<string>, k := {}, 0;
    while k < |lines|
      invariant 0 <= k <= |lines|
      invariant fresh(r) && r.Valid() && fresh(r.tools)
      invariant r.steps == Walked(lines[..k]).steps && seen == Walked(lines[..k]).ids
    {
      WalkedGrows(lines, k);
      var line := lines[k];
      k := k + 1;
      if line == None {
        continue;
      }
      if Identified(line.value) {
        if line.value.uuid in seen {
          continue;
        }
        seen := seen + {line.value.uuid};
      }
      ReadRecord(r, line.value);
    }
    assert lines[..k] == lines;
  }

  lemma {:induction false} SpokenIdsAreSeen(lines: seq<Option<Record>>, k: nat)
    requires k < |lines| && lines[k].Some? && Identified(lines[k].value)
    ensures lines[k].value.uuid in Walked(lines).ids
  {
    if k < |lines| - 1 {
      SpokenIdsAreSeen(lines[..|lines| - 1], k);
    }
  }

  /** Replaying turns already read, as a fork's file does, changes nothing: not an event, not a pairing. */
  lemma {:induction false} CopiedTurnsAddNothing(lines: seq<Option<Record>>, copied: seq<Option<Record>>)
    requires forall i :: 0 <= i < |copied| ==> copied[i] == None || (Identified(copied[i].value) && copied[i] in lines)
    ensures Walked(lines + copied) == Walked(lines)
    decreases |copied|
  {
    if copied == [] {
      assert lines + copied == lines;
    } else {
      var front, last := copied[..|copied| - 1], copied[|copied| - 1];
      CopiedTurnsAddNothing(lines, front);
      assert (lines + copied)[..|lines + copied| - 1] == lines + front;
      if last.Some? {
        var k :| 0 <= k < |lines| && lines[k] == last;
        SpokenIdsAreSeen(lines, k);
      }
    }
  }

  // ---------- what the transcript says ----------

  /** The ids under which turns have spoken. */
  function SpokenIds(lines: seq<Option<Record>>): set<string> {
    set line | line in lines && line.Some? && Identified(line.value) :: line.value.uuid
  }

  /** The records read: those that parse, a turn whose id has spoken before left out. */
  function Kept(lines: seq<Option<Record>>): seq<Record> {
    if lines == [] then []
    else
      var front, line := lines[..|lines| - 1], lines[|lines| - 1];
      if line == None || (Identified(line.value) && line.value.uuid in SpokenIds(front)) then Kept(front)
      else Kept(front) + [line.value]
  }

  /** The user's own words, not injected ones. */
  predicate FromHuman(rec: Record) {
    (rec.origin == None || rec.origin == Some("human")) && !rec.isMeta
  }

  function Spoken(kind: Kind, ev: Said): View {
    View(if ev.kind == kind then [ev] else [], [], [])
  }

  /** What one record says. */
  function RecordSays(kind: Kind, rec: Record): View {
    var t := Turn(rec.at, rec.uuid, TurnOf(rec).tag, false);
    if rec.kind == "user" then
      match rec.body
      case Unreadable => NOTHING
      case Plain(text) => Spoken(kind, Said(if FromHuman(rec) then Prompt else Meta, t.at, t.id, t.tag, text, 0, false))
      case Blocks(blocks) => UserSays(kind, t, blocks)
    else if rec.kind == "assistant" then
      match rec.body
      case Unreadable => NOTHING
      case Plain(text) => if text == "" then NOTHING else Spoken(kind, Said(Reply, t.at, t.id, "", text, 0, false))
      case Blocks(blocks) => AssistantSays(kind, t, blocks)
    else
      Spoken(kind, Said(Meta, t.at, t.id, rec.metaTag, rec.metaText, 0, false))
  }

  function RecordsSay(kind: Kind, recs: seq<Record>): View {
    if recs == [] then NOTHING
    else Plus(RecordsSay(kind, recs[..|recs| - 1]), RecordSays(kind, recs[|recs| - 1]))
  }

  lemma RecordSpeaks(kind: Kind, rec: Record)
    ensures Of(kind, RecordSteps(rec)) == RecordSays(kind, rec)
  {
    var steps := RecordSteps(rec);
    if rec.kind == "user" && rec.body.Blocks? {
      UserTurnSays(kind, TurnOf(rec), rec.body.blocks);
    } else if rec.kind == "assistant" && rec.body.Blocks? {
      AssistantTurnSays(kind, TurnOf(rec), rec.body.blocks);
    } else if steps != [] {
      ViewOfOne(kind, steps[0]);
      assert steps == [steps[0]];
    }
  }

  lemma {:induction false} SeenAreSpoken(lines: seq<Option<Record>>)
    ensures Walked(lines).ids == SpokenIds(lines)
  {
    if lines != [] {
      var front, line := lines[..|lines| - 1], lines[|lines| - 1];
      SeenAreSpoken(front);
      assert forall other :: other in lines <==> other in front || other == line;
    }
  }

  /**
   The transcript says, in each kind, exactly what the records read say, in order and once: prompts, replies,
   thoughts, calls, results to pair and meta events.
   */
  lemma {:induction false} TranscriptSays(kind: Kind, lines: seq<Option<Record>>)
    ensures Of(kind, Walked(lines).steps) == RecordsSay(kind, Kept(lines))
  {
    if lines != [] {
      var front, line := lines[..|lines| - 1], lines[|lines| - 1];
      TranscriptSays(kind, front);
      SeenAreSpoken(front);
      if line.Some? && !(Identified(line.value) && line.value.uuid in SpokenIds(front)) {
        ViewsAppend(kind, Walked(front).steps, RecordSteps(line.value));
        RecordSpeaks(kind, line.value);
        assert (Kept(front) + [line.value])[..|Kept(front)|] == Kept(front);
      }
    }
  }

  /** What earlier lines say comes before what later ones do. */
  lemma {:induction false} TranscriptOnward(lines: seq<Option<Record>>, k: nat)
    requires k <= |lines|
    ensures Walked(lines[..k]).steps <= Walked(lines).steps
  {
    if k == |lines| {
      assert lines[..k] == lines;
    } else {
      var front := lines[..|lines| - 1];
      TranscriptOnward(front, k);
      assert front[..k] == lines[..k];
    }
  }
}

/** The amp reader: messages in array order, with a meta event at each change of the model that answers. */
module AmpTranscript {
  import opened Clock
  import opened ToolPairing
  import opened StepViews
  import opened BlockReading
  import opened BlockVoices

  /** A message; readable says its content is a block list, text what the blocks of an unknown role hold. */
  datatype Message = Message(role: string, id: string, at: Time, model: string, readable: bool, blocks: seq<Block>,
                             text: string)

  /** The document around the messages: two places for its mode, what it says of an agent, and how it ended. */
  datatype Document = Document(metaMode: string, mode: string, agentName: string, agentModel: string, pluginKey: string,
                               messages: seq<Message>, state: string)

  function TurnOf(m: Message): Turn {
    Turn(m.at, m.id, "", true)
  }

  function Note(tag: string, text: string): Step {
    Step.Say(Said(Meta, 0, "", tag, text, 0, false))
  }

  function First(a: string, b: string): string {
    if a != "" then a else b
  }

  /** What the document says of itself comes first: its mode, then the agent it names, with that agent's model. */
  function Leading(doc: Document): seq<Step> {
    var mode, name := First(doc.metaMode, doc.mode), First(doc.agentName, doc.pluginKey);
    (if mode != "" then [Note("agentMode", mode)] else [])
    + if name == "" then []
      else [Note("agent", if doc.agentModel != "" && doc.agentModel != name then name + " (" + doc.agentModel + ")" else name)]
  }

  /** And last, where the agent stood when the document was written. */
  function Closing(doc: Document): seq<Step> {
    if doc.state != "" then [Note("lastKnownAgentState", doc.state)] else []
  }

  function DocumentSteps(doc: Document): seq<Step> {
    Leading(doc) + TranscriptSteps(doc.messages) + Closing(doc)
  }

  function InfoSteps(m: Message, blocks: seq<Block>): seq<Step> {
    if blocks == [] then []
    else InfoSteps(m, blocks[..|blocks| - 1]) + [Step.Say(Info(m, blocks[|blocks| - 1]))]
  }

  function Info(m: Message, b: Block): Said {
    Shown(TurnOf(m), Meta, "info:" + KindOf(b), TextOf(b))
  }

  /** A role the reader does not know names itself. */
  function RoleTag(role: string): string {
    if role == "" then "message" else role
  }

  function MessageSteps(m: Message): seq<Step> {
    if !m.readable then [Step.Say(Shown(TurnOf(m), Meta, m.role, ""))]
    else if m.role == "user" then UserSteps(TurnOf(m), m.blocks)
    else if m.role == "assistant" then AssistantSteps(TurnOf(m), m.blocks)
    else if m.role == "info" then
      if m.blocks == [] then [Step.Say(Shown(TurnOf(m), Meta, "info", ""))] else InfoSteps(m, m.blocks)
    else [Step.Say(Shown(TurnOf(m), Meta, RoleTag(m.role), m.text))]
  }

  /** The model of the latest message that names one. */
  function LastModel(ms: seq<Message>): string {
    if ms == [] then ""
    else if ms[|ms| - 1].model != "" then ms[|ms| - 1].model else LastModel(ms[..|ms| - 1])
  }

  predicate Switches(last: string, m: Message) {
    m.role == "assistant" && m.model != "" && m.model != last
  }

  function ModelSteps(last: string, m: Message): seq<Step> {
    if Switches(last, m) then [Step.Say(Shown(TurnOf(m), Meta, "model", m.model))] else []
  }

  function TranscriptSteps(ms: seq<Message>): seq<Step> {
    if ms == [] then []
    else
      var front, m := ms[..|ms| - 1], ms[|ms| - 1];
      TranscriptSteps(front) + ModelSteps(LastModel(front), m) + MessageSteps(m)
  }

  lemma InfoGrows(m: Message, k: nat, before: seq<Step>)
    requires k < |m.blocks|
    ensures before + InfoSteps(m, m.blocks[..k + 1])
         == before + InfoSteps(m, m.blocks[..k]) + [Step.Say(Info(m, m.blocks[k]))]
  {
    assert m.blocks[..k + 1][..k] == m.blocks[..k];
  }

  method ReadInfo(r: Reading, m: Message)
    requires r.Valid()
    modifies r
    ensures r.Valid() && r.tools == old(r.tools)
    ensures r.steps == old(r.steps) + InfoSteps(m, m.blocks)
  {
    var k := 0;
    while k < |m.blocks|
      invariant 0 <= k <= |m.blocks|
      invariant r.Valid() && r.tools == old(r.tools)
      invariant r.steps == old(r.steps) + InfoSteps(m, m.blocks[..k])
    {
      InfoGrows(m, k, old(r.steps));
      r.Say(Info(m, m.blocks[k]));
      k := k + 1;
    }
    assert m.blocks[..k] == m.blocks;
  }

  method ReadMessage(r: Reading, m: Message)
    requires r.Valid()
    modifies r, r.tools
    ensures r.Valid() && r.steps == old(r.steps) + MessageSteps(m) && fresh(r.tools - old(r.tools))
  {
    if !m.readable {
      r.Say(Shown(TurnOf(m), Meta, m.role, ""));
    } else if m.role == "user" {
      ReadUserBlocks(r, TurnOf(m), m.blocks);
    } else if m.role == "assistant" {
      ReadAssistantBlocks(r, TurnOf(m), m.blocks);
    } else if m.role == "info" {
      if |m.blocks| == 0 {
        r.Say(Shown(TurnOf(m), Meta, "info", ""));
      } else {
        ReadInfo(r, m);
      }
    } else {
      r.Say(Shown(TurnOf(m), Meta, RoleTag(m.role), m.text));
    }
  }

  lemma TranscriptGrows(ms: seq<Message>, k: nat, before: seq<Step>)
    requires k < |ms|
    ensures before + TranscriptSteps(ms[..k + 1])
         == before + TranscriptSteps(ms[..k]) + ModelSteps(LastModel(ms[..k]), ms[k]) + MessageSteps(ms[k])
    ensures LastModel(ms[..k + 1]) == if ms[k].model != "" then ms[k].model else LastModel(ms[..k])
  {
    assert ms[..k + 1][..k] == ms[..k];
  }

  method ReadTranscript(doc: Document) returns (r: Reading)
    ensures r.Valid() && r.steps == DocumentSteps(doc)
  {
    r := new Reading();
    ReadLeading(r, doc);
    ReadMessages(r, doc.messages);
    if doc.state != "" {
      r.Say(Said(Meta, 0, "", "lastKnownAgentState", doc.state, 0, false));
    } else {
      assert r.steps + [] == r.steps;
    }
  }

  method ReadLeading(r: Reading, doc: Document)
    requires r.Valid() && r.steps == []
    modifies r
    ensures r.Valid() && r.steps == Leading(doc) && r.tools == old(r.tools)
  {
    var mode := doc.metaMode;
    if mode == "" {
      mode := doc.mode;
    }
    if mode != "" {
      r.Say(Said(Meta, 0, "", "agentMode", mode, 0, false));
    }
    var name := doc.agentName;
    if name == "" {
      name := doc.pluginKey;
    }
    if name != "" {
      var text := name;
      if doc.agentModel != "" && doc.agentModel != name {
        text := text + " (" + doc.agentModel + ")";
      }
      r.Say(Said(Meta, 0, "", "agent", text, 0, false));
    }
  }

  method ReadMessages(r: Reading, ms: seq<Message>)
    requires r.Valid()
    modifies r, r.tools
    ensures r.Valid() && r.steps == old(r.steps) + TranscriptSteps(ms) && fresh(r.tools - old(r.tools))
  {
    var lastModel, k := "", 0;
    while k < |ms|
      invariant 0 <= k <= |ms|
      invariant r.Valid() && fresh(r.tools - old(r.tools))
      invariant r.steps == old(r.steps) + TranscriptSteps(ms[..k]) && lastModel == LastModel(ms[..k])
    {
      TranscriptGrows(ms, k, old(r.steps));
      var m := ms[k];
      ReadModel(r, lastModel, m);
      if m.model != "" {
        lastModel := m.model;
      }
      ReadMessage(r, m);
      k := k + 1;
    }
    assert ms[..k] == ms;
  }

  method ReadModel(r: Reading, last: string, m: Message)
    requires r.Valid()
    modifies r
    ensures r.Valid() && r.steps == old(r.steps) + ModelSteps(last, m) && r.tools == old(r.tools)
  {
    if m.role == "assistant" && m.model != "" && m.model != last {
      r.Say(Shown(TurnOf(m), Meta, "model", m.model));
    } else {
      assert r.steps + [] == r.steps;
    }
  }

  // ---------- what the transcript says ----------

  function Aside(kind: Kind, at: Time, id: string, tag: string, text: string): View {
    View(if kind == Meta then [Said(Meta, at, id, tag, text, 0, false)] else [], [], [])
  }

  function InfoSays(kind: Kind, m: Message, blocks: seq<Block>): View {
    if blocks == [] then NOTHING
    else
      var b := blocks[|blocks| - 1];
      Plus(InfoSays(kind, m, blocks[..|blocks| - 1]), Aside(kind, m.at, m.id, "info:" + KindOf(b), TextOf(b)))
  }

  /** What one message says; whatever the reader does not know is one meta event. */
  function MessageSays(kind: Kind, m: Message): View {
    var t := Turn(m.at, m.id, "", true);
    if !m.readable then Aside(kind, m.at, m.id, m.role, "")
    else if m.role == "user" then UserSays(kind, t, m.blocks)
    else if m.role == "assistant" then AssistantSays(kind, t, m.blocks)
    else if m.role == "info" && m.blocks != [] then InfoSays(kind, m, m.blocks)
    else if m.role == "info" then Aside(kind, m.at, m.id, "info", "")
    else Aside(kind, m.at, m.id, if m.role == "" then "message" else m.role, m.text)
  }

  /** The last of the messages that names a model is message k. */
  ghost predicate NamesLast(ms: seq<Message>, k: nat) {
    k < |ms| && ms[k].model != "" && forall j :: k < j < |ms| ==> ms[j].model == ""
  }

  /** An assistant message names a model, and the last to name one before it, if any did, named another. */
  ghost predicate Announces(before: seq<Message>, m: Message) {
    m.role == "assistant" && m.model != "" && forall k: nat :: NamesLast(before, k) ==> before[k].model != m.model
  }

  lemma NamesLastGrows(ms: seq<Message>, k: nat)
    requires ms != []
    ensures NamesLast(ms, k) <==> if ms[|ms| - 1].model == "" then NamesLast(ms[..|ms| - 1], k) else k == |ms| - 1
  {
    var n := |ms| - 1;
    assert forall j :: 0 <= j < n ==> ms[..n][j] == ms[j];
    if k < n && ms[n].model != "" {
      assert !NamesLast(ms, k);
    } else if k < n && NamesLast(ms[..n], k) {
      forall j | k < j < |ms| ensures ms[j].model == "" {
        assert j < n ==> ms[..n][j].model == "";
      }
    }
  }

  lemma {:induction false} LastModelIsNamedLast(ms: seq<Message>)
    ensures forall k: nat :: NamesLast(ms, k) ==> ms[k].model == LastModel(ms)
    ensures LastModel(ms) == "" || exists k: nat :: NamesLast(ms, k)
  {
    if ms != [] {
      var n := |ms| - 1;
      LastModelIsNamedLast(ms[..n]);
      forall k: nat ensures NamesLast(ms, k) <==> if ms[n].model == "" then NamesLast(ms[..n], k) else k == n {
        NamesLastGrows(ms, k);
      }
      if ms[n].model == "" && LastModel(ms) != "" {
        var k: nat :| NamesLast(ms[..n], k);
        assert NamesLast(ms, k);
      } else if ms[n].model != "" {
        assert NamesLast(ms, n);
      }
    }
  }

  ghost function MessagesSay(kind: Kind, ms: seq<Message>): View {
    if ms == [] then NOTHING
    else
      var front, m := ms[..|ms| - 1], ms[|ms| - 1];
      Plus(Plus(MessagesSay(kind, front), if Announces(front, m) then Aside(kind, m.at, m.id, "model", m.model) else NOTHING),
           MessageSays(kind, m))
  }

  function LeadingSays(kind: Kind, doc: Document): View {
    var mode := if doc.metaMode == "" then doc.mode else doc.metaMode;
    var name := if doc.agentName == "" then doc.pluginKey else doc.agentName;
    var agent := if doc.agentModel in {"", name} then name else name + " (" + doc.agentModel + ")";
    Plus(if mode == "" then NOTHING else Aside(kind, 0, "", "agentMode", mode),
         if name == "" then NOTHING else Aside(kind, 0, "", "agent", agent))
  }

  ghost function DocumentSays(kind: Kind, doc: Document): View {
    Plus(Plus(LeadingSays(kind, doc), MessagesSay(kind, doc.messages)),
         if doc.state == "" then NOTHING else Aside(kind, 0, "", "lastKnownAgentState", doc.state))
  }

  lemma NoteSays(kind: Kind, tag: string, text: string)
    ensures Of(kind, [Note(tag, text)]) == Aside(kind, 0, "", tag, text)
  {
    ViewOfOne(kind, Note(tag, text));
  }

  lemma LeadingSpeaks(kind: Kind, doc: Document)
    ensures Of(kind, Leading(doc)) == LeadingSays(kind, doc)
  {
    var mode, name := First(doc.metaMode, doc.mode), First(doc.agentName, doc.pluginKey);
    var agent := if doc.agentModel != "" && doc.agentModel != name then name + " (" + doc.agentModel + ")" else name;
    var first := if mode != "" then [Note("agentMode", mode)] else [];
    var second := if name == "" then [] else [Note("agent", agent)];
    ViewsAppend(kind, first, second);
    NoteSays(kind, "agentMode", mode);
    NoteSays(kind, "agent", agent);
  }

  lemma ClosingSpeaks(kind: Kind, doc: Document)
    ensures Of(kind, Closing(doc)) == if doc.state == "" then NOTHING else Aside(kind, 0, "", "lastKnownAgentState", doc.state)
  {
    NoteSays(kind, "lastKnownAgentState", doc.state);
  }

  lemma {:induction false} InfoSpeaks(kind: Kind, m: Message, blocks: seq<Block>)
    ensures Of(kind, InfoSteps(m, blocks)) == InfoSays(kind, m, blocks)
  {
    if blocks != [] {
      var front, b := blocks[..|blocks| - 1], blocks[|blocks| - 1];
      InfoSpeaks(kind, m, front);
      ViewsAppend(kind, InfoSteps(m, front), [Step.Say(Info(m, b))]);
      ViewOfOne(kind, Step.Say(Info(m, b)));
    }
  }

  lemma MessageSpeaks(kind: Kind, m: Message)
    ensures Of(kind, MessageSteps(m)) == MessageSays(kind, m)
  {
    if m.readable && m.role == "user" {
      UserTurnSays(kind, TurnOf(m), m.blocks);
    } else if m.readable && m.role == "assistant" {
      AssistantTurnSays(kind, TurnOf(m), m.blocks);
    } else if m.readable && m.role == "info" && m.blocks != [] {
      InfoSpeaks(kind, m, m.blocks);
    } else {
      ViewOfOne(kind, MessageSteps(m)[0]);
      assert MessageSteps(m) == [MessageSteps(m)[0]];
    }
  }

  lemma ModelSpeaks(kind: Kind, before: seq<Message>, m: Message)
    ensures Of(kind, ModelSteps(LastModel(before), m))
         == if Announces(before, m) then Aside(kind, m.at, m.id, "model", m.model) else NOTHING
  {
    LastModelIsNamedLast(before);
    ViewOfOne(kind, Step.Say(Shown(TurnOf(m), Meta, "model", m.model)));
    assert Switches(LastModel(before), m) <==> Announces(before, m);
  }

  lemma {:induction false} MessagesSpeak(kind: Kind, ms: seq<Message>)
    ensures Of(kind, TranscriptSteps(ms)) == MessagesSay(kind, ms)
  {
    if ms != [] {
      var front, m := ms[..|ms| - 1], ms[|ms| - 1];
      MessagesSpeak(kind, front);
      ModelSpeaks(kind, front, m);
      MessageSpeaks(kind, m);
      ViewsAppend(kind, TranscriptSteps(front), ModelSteps(LastModel(front), m));
      ViewsAppend(kind, TranscriptSteps(front) + ModelSteps(LastModel(front), m), MessageSteps(m));
    }
  }

  /**
   The transcript says, in each kind, exactly what the document does, in order and once: its mode and agent, each
   message, the model at each message that changes it, and the state it stopped in.
   */
  lemma TranscriptSays(kind: Kind, doc: Document)
    ensures Of(kind, DocumentSteps(doc)) == DocumentSays(kind, doc)
  {
    LeadingSpeaks(kind, doc);
    MessagesSpeak(kind, doc.messages);
    ClosingSpeaks(kind, doc);
    ViewsAppend(kind, Leading(doc), TranscriptSteps(doc.messages));
    ViewsAppend(kind, Leading(doc) + TranscriptSteps(doc.messages), Closing(doc));
  }

  /** What earlier messages say comes before what later ones do. */
  lemma {:induction false} TranscriptOnward(ms: seq<Message>, k: nat)
    requires k <= |ms|
    ensures TranscriptSteps(ms[..k]) <= TranscriptSteps(ms)
  {
    if k == |ms| {
      assert ms[..k] == ms;
    } else {
      var front := ms[..|ms| - 1];
      TranscriptOnward(front, k);
      assert front[..k] == ms[..k];
    }
  }

  /** The model a message announces comes before what it says. */
  lemma ModelComesFirst(before: seq<Message>, m: Message)
    requires Announces(before, m)
    ensures TranscriptSteps(before) + [Step.Say(Said(Meta, m.at, m.id, "model", m.model, 0, false))]
              <= TranscriptSteps(before + [m])
  {
    LastModelIsNamedLast(before);
    assert (before + [m])[..|before + [m]| - 1] == before;
  }
}

/** The pi reader: the conversation's entries, a message's text blocks joined into one prompt. */
module PiTranscript {
  import opened Wrappers
  import opened Clock
  import opened ToolPairing
  import opened StepViews
  import opened BlockReading
  import opened BlockVoices
  import Lines
  import PiEntries
  import PiReader

  datatype Message = Message(role: string, blocks: seq<Block>, stopReason: string, errorMessage: string,
                             toolCallId: string, toolName: string, isError: bool, command: string)

  /** An entry of the conversation; message None is one that is not readable as a message. */
  datatype Entry = Entry(id: string, isMessage: bool, at: Time, message: Option<Message>, metaTag: string,
                         metaText: string)

  function TurnOf(e: Entry): Turn {
    Turn(e.at, e.id, "", false)
  }

  function FailureSteps(e: Entry, m: Message): seq<Step> {
    if m.errorMessage != "" && (m.stopReason == "error" || m.stopReason == "aborted")
    then [Step.Say(Shown(TurnOf(e), Meta, "assistant:" + m.stopReason, m.errorMessage))]
    else []
  }

  function EntrySteps(e: Entry): seq<Step> {
    var t := TurnOf(e);
    if !e.isMessage then [Step.Say(Shown(t, Meta, e.metaTag, e.metaText))]
    else if e.message == None then []
    else
      var m := e.message.value;
      var heard := Heard(m.blocks);
      if m.role == "user" then
        if Joined(heard.texts) != "" || heard.images > 0
        then [Step.Say(Prompted(t, Joined(heard.texts), heard.images))] else []
      else if m.role == "assistant" then AssistantSteps(t, m.blocks) + FailureSteps(e, m)
      else if m.role == "toolResult" then
        [Step.Answer(Shown(t, ToolResult, "", ""), m.toolCallId, m.toolName,
                     Result(e.at, Joined(heard.texts), heard.images, m.isError))]
      else if m.role == "bashExecution" then [Step.Say(Shown(t, Meta, "bashExecution", m.command))]
      else [Step.Say(Shown(t, Meta, "message:" + m.role, Joined(heard.texts)))]
  }

  function TranscriptSteps(es: seq<Entry>): seq<Step> {
    if es == [] then [] else TranscriptSteps(es[..|es| - 1]) + EntrySteps(es[|es| - 1])
  }

  /** The non-empty text and the images of a message. */
  method Hear(blocks: seq<Block>) returns (texts: seq<string>, images: nat)
    ensures Run(texts, images) == Heard(blocks)
  {
    texts, images := [], 0;
    var k := 0;
    while k < |blocks|
      invariant 0 <= k <= |blocks|
      invariant Run(texts, images) == Heard(blocks[..k])
    {
      assert blocks[..k + 1][..k] == blocks[..k];
      var b := blocks[k];
      if b.Text? && !b.hidden && b.text != "" {
        texts := texts + [b.text];
      } else if b.Image? {
        images := images + 1;
      }
      k := k + 1;
    }
    assert blocks[..k] == blocks;
  }

  method ReadEntry(r: Reading, e: Entry)
    requires r.Valid()
    modifies r, r.tools
    ensures r.Valid() && r.steps == old(r.steps) + EntrySteps(e) && fresh(r.tools - old(r.tools))
  {
    var t := TurnOf(e);
    assert r.steps + [] == r.steps;
    if !e.isMessage {
      r.Say(Shown(t, Meta, e.metaTag, e.metaText));
      return;
    }
    if e.message == None {
      return;
    }
    var m := e.message.value;
    var texts, images := Hear(m.blocks);
    if m.role == "user" {
      if Joined(texts) != "" || images > 0 {
        r.Say(Prompted(t, Joined(texts), images));
      }
    } else if m.role == "assistant" {
      ReadAssistantBlocks(r, t, m.blocks);
      ReadFailure(r, e, m);
    } else if m.role == "toolResult" {
      r.Answer(Shown(t, ToolResult, "", ""), m.toolCallId, m.toolName, Result(e.at, Joined(texts), images, m.isError));
    } else if m.role == "bashExecution" {
      r.Say(Shown(t, Meta, "bashExecution", m.command));
    } else {
      r.Say(Shown(t, Meta, "message:" + m.role, Joined(texts)));
    }
  }

  method ReadFailure(r: Reading, e: Entry, m: Message)
    requires r.Valid()
    modifies r
    ensures r.Valid() && r.steps == old(r.steps) + FailureSteps(e, m) && r.tools == old(r.tools)
  {
    if m.errorMessage != "" && (m.stopReason == "error" || m.stopReason == "aborted") {
      r.Say(Shown(TurnOf(e), Meta, "assistant:" + m.stopReason, m.errorMessage));
    } else {
      assert r.steps + [] == r.steps;
    }
  }

  /** What an entry's own JSON shows beyond what places it in the conversation. */
  datatype Content = Content(message: Option<Message>, metaTag: string, metaText: string)
  type Contents = PiEntries.Entry -> Content

  function Shows(content: Contents, e: PiEntries.Named): Entry {
    var c := content(e);
    Entry(e.id.value, e.kind == "message", if e.at.Some? then e.at.value else 0, c.message, c.metaTag, c.metaText)
  }

  function AllShown(content: Contents, es: seq<PiEntries.Named>): seq<Entry> {
    seq(|es|, i requires 0 <= i < |es| => Shows(content, es[i]))
  }

  /** The conversation of an artifact, as the reader shows it. */
  function Conversed(syn: PiEntries.Syntax, content: Contents, s: seq<Lines.Byte>): seq<Entry> {
    AllShown(content, PiEntries.Conversation(PiEntries.Entries(syn, PiReader.Stripped(s))))
  }

  lemma AllShownGrows(content: Contents, es: seq<PiEntries.Named>, k: nat)
    requires k < |es|
    ensures TranscriptSteps(AllShown(content, es[..k + 1])) ==
              TranscriptSteps(AllShown(content, es[..k])) + EntrySteps(Shows(content, es[k]))
  {
    assert AllShown(content, es[..k + 1])[..k] == AllShown(content, es[..k]);
  }

  method ReadEntries(content: Contents, es: seq<PiEntries.Named>) returns (r: Reading)
    ensures r.Valid() && r.steps == TranscriptSteps(AllShown(content, es))
  {
    r := new Reading();
    var k := 0;
    while k < |es|
      invariant 0 <= k <= |es|
      invariant fresh(r) && r.Valid() && fresh(r.tools)
      invariant r.steps == TranscriptSteps(AllShown(content, es[..k]))
    {
      AllShownGrows(content, es, k);
      ReadEntry(r, Shows(content, es[k]));
      k := k + 1;
    }
    assert es[..k] == es;
  }

  /** The artifact, delivered in any pieces, as events: those of its conversation. */
  method ReadTranscript(syn: PiEntries.Syntax, content: Contents, pieces: seq<PiReader.Piece>, ghost s: seq<Lines.Byte>)
    returns (r: Reading)
    requires PiReader.Delivers(pieces, s)
    ensures r.Valid() && r.steps == TranscriptSteps(Conversed(syn, content, s))
  {
    var es := PiReader.ActiveEntries(syn, pieces, s);
    r := ReadEntries(content, es);
  }

  // ---------- what the transcript says ----------

  function Spoken(kind: Kind, ev: Said): View {
    View(if ev.kind == kind then [ev] else [], [], [])
  }

  /** What one entry says; a message that is not readable says nothing. */
  function EntrySays(kind: Kind, e: Entry): View {
    if !e.isMessage then Spoken(kind, Said(Meta, e.at, e.id, e.metaTag, e.metaText, 0, false))
    else if e.message == None then NOTHING
    else
      var m := e.message.value;
      var heard := Heard(m.blocks);
      var text := Joined(heard.texts);
      if m.role == "user" then
        if text == "" && heard.images == 0 then NOTHING
        else Spoken(kind, Said(Prompt, e.at, e.id, "", text, heard.images, false))
      else if m.role == "assistant" then
        Plus(AssistantSays(kind, Turn(e.at, e.id, "", false), m.blocks),
             if m.stopReason in {"error", "aborted"} && m.errorMessage != ""
             then Spoken(kind, Said(Meta, e.at, e.id, "assistant:" + m.stopReason, m.errorMessage, 0, false)) else NOTHING)
      else if m.role == "toolResult" then
        View([], [], [Given(Said(ToolResult, e.at, e.id, "", "", 0, false), m.toolCallId, m.toolName,
                            Result(e.at, text, heard.images, m.isError))])
      else if m.role == "bashExecution" then Spoken(kind, Said(Meta, e.at, e.id, "bashExecution", m.command, 0, false))
      else Spoken(kind, Said(Meta, e.at, e.id, "message:" + m.role, text, 0, false))
  }

  function EntriesSay(kind: Kind, es: seq<Entry>): View {
    if es == [] then NOTHING else Plus(EntriesSay(kind, es[..|es| - 1]), EntrySays(kind, es[|es| - 1]))
  }

  lemma FailureSpeaks(kind: Kind, e: Entry, m: Message)
    ensures Of(kind, FailureSteps(e, m))
         == if m.stopReason in {"error", "aborted"} && m.errorMessage != ""
            then Spoken(kind, Said(Meta, e.at, e.id, "assistant:" + m.stopReason, m.errorMessage, 0, false)) else NOTHING
  {
    ViewOfOne(kind, Step.Say(Shown(TurnOf(e), Meta, "assistant:" + m.stopReason, m.errorMessage)));
  }

  lemma EntrySpeaks(kind: Kind, e: Entry)
    ensures Of(kind, EntrySteps(e)) == EntrySays(kind, e)
  {
    var steps := EntrySteps(e);
    if e.isMessage && e.message.Some? && e.message.value.role == "assistant" {
      var m := e.message.value;
      AssistantTurnSays(kind, TurnOf(e), m.blocks);
      ViewsAppend(kind, AssistantSteps(TurnOf(e), m.blocks), FailureSteps(e, m));
      FailureSpeaks(kind, e, m);
    } else if steps != [] {
      ViewOfOne(kind, steps[0]);
      assert steps == [steps[0]];
    }
  }

  /**
   The transcript says, in each kind, exactly what the entries of the conversation say, in order and once: prompts,
   replies, thoughts, calls, results to pair and meta events, an error that cut a reply short among them.
   */
  lemma {:induction false} TranscriptSays(kind: Kind, es: seq<Entry>)
    ensures Of(kind, TranscriptSteps(es)) == EntriesSay(kind, es)
  {
    if es != [] {
      var front, e := es[..|es| - 1], es[|es| - 1];
      TranscriptSays(kind, front);
      EntrySpeaks(kind, e);
      ViewsAppend(kind, TranscriptSteps(front), EntrySteps(e));
    }
  }

  /** What earlier entries say comes before what later ones do. */
  lemma {:induction false} TranscriptOnward(es: seq<Entry>, k: nat)
    requires k <= |es|
    ensures TranscriptSteps(es[..k]) <= TranscriptSteps(es)
  {
    if k == |es| {
      assert es[..k] == es;
    } else {
      var front := es[..|es| - 1];
      TranscriptOnward(front, k);
      assert front[..k] == es[..k];
    }
  }

  /** A reply's failure is told after all it said. */
  lemma FailureComesLast(e: Entry)
    requires e.isMessage && e.message.Some? && e.message.value.role == "assistant"
    ensures AssistantSteps(TurnOf(e), e.message.value.blocks) <= EntrySteps(e)
  {
  }
}
