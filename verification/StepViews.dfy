/** What a reader's steps say, kind by kind: the views a transcript is judged by. */
module StepViews {
  import opened ToolPairing

  /** A call as its record makes it. */
  datatype Opened = Opened(said: Said, id: string, name: string)

  /** A result as its record carries it, with the id of the call it answers. */
  datatype Given = Given(said: Said, id: string, name: string, res: Result)

  /** The events of one kind that are neither calls nor results, in order. */
  function Voices(kind: Kind, steps: seq<Step>): seq<Said> {
    if steps == [] then []
    else
      var front, s := Voices(kind, steps[..|steps| - 1]), steps[|steps| - 1];
      if s.Say? && s.ev.kind == kind then front + [s.ev] else front
  }

  /** The calls, in order. */
  function Calls(steps: seq<Step>): seq<Opened> {
    if steps == [] then []
    else
      var front, s := Calls(steps[..|steps| - 1]), steps[|steps| - 1];
      if s.Call? then front + [Opened(s.ev, s.id, s.name)] else front
  }

  /** The results some steps hand to the pairing, in order. */
  function Answers(steps: seq<Step>): seq<Given> {
    if steps == [] then []
    else
      var front, s := Answers(steps[..|steps| - 1]), steps[|steps| - 1];
      if s.Answer? then front + [Given(s.ev, s.id, s.name, s.res)] else front
  }

  lemma {:induction false} VoicesAppend(kind: Kind, a: seq<Step>, b: seq<Step>)
    ensures Voices(kind, a + b) == Voices(kind, a) + Voices(kind, b)
  {
    if b == [] {
      assert a + b == a;
    } else {
      VoicesAppend(kind, a, b[..|b| - 1]);
      assert (a + b)[..|a + b| - 1] == a + b[..|b| - 1];
    }
  }

  lemma {:induction false} CallsAppend(a: seq<Step>, b: seq<Step>)
    ensures Calls(a + b) == Calls(a) + Calls(b)
  {
    if b == [] {
      assert a + b == a;
    } else {
      CallsAppend(a, b[..|b| - 1]);
      assert (a + b)[..|a + b| - 1] == a + b[..|b| - 1];
    }
  }

  lemma {:induction false} AnswersAppend(a: seq<Step>, b: seq<Step>)
    ensures Answers(a + b) == Answers(a) + Answers(b)
  {
    if b == [] {
      assert a + b == a;
    } else {
      AnswersAppend(a, b[..|b| - 1]);
      assert (a + b)[..|a + b| - 1] == a + b[..|b| - 1];
    }
  }

  /** What some steps say in one kind, and the calls and results among them. */
  datatype View = View(voices: seq<Said>, calls: seq<Opened>, answers: seq<Given>)
  const NOTHING := View([], [], [])

  function Of(kind: Kind, steps: seq<Step>): View {
    View(Voices(kind, steps), Calls(steps), Answers(steps))
  }

  function Plus(a: View, b: View): View {
    View(a.voices + b.voices, a.calls + b.calls, a.answers + b.answers)
  }

  lemma ViewsAppend(kind: Kind, a: seq<Step>, b: seq<Step>)
    ensures Of(kind, a + b) == Plus(Of(kind, a), Of(kind, b))
  {
    VoicesAppend(kind, a, b);
    CallsAppend(a, b);
    AnswersAppend(a, b);
  }

  lemma PlusNothing(v: View)
    ensures Plus(v, NOTHING) == v == Plus(NOTHING, v)
  {
  }

  lemma PlusAgain(a: View, b: View, c: View)
    ensures Plus(Plus(a, b), c) == Plus(a, Plus(b, c))
  {
  }

  /** What one step says. */
  function Voiced(kind: Kind, s: Step): View {
    match s
    case Say(ev) => View(if ev.kind == kind then [ev] else [], [], [])
    case Call(ev, id, name) => View([], [Opened(ev, id, name)], [])
    case Answer(ev, id, name, res) => View([], [], [Given(ev, id, name, res)])
  }

  lemma ViewOfOne(kind: Kind, s: Step)
    ensures Of(kind, [s]) == Voiced(kind, s)
  {
    assert [s][..|[s]| - 1] == [];
    assert Of(kind, []) == NOTHING;
  }
}
