/** The streaming reply reader: server-sent events in, one joined text out, each delta reported as it comes. */
module Sse {
  import opened Wrappers

  const DONE := "[DONE]"

  /** What one event's payload decodes to. */
  datatype Chunk =
    | Malformed
    | Failure(message: string)
    | NoChoices
    | Delta(content: string, reasoningContent: string, reasoning: string)
  type Decoder = string -> Chunk

  /** What the caller's observer is told. */
  datatype Told = Content(text: string) | Thinking(text: string)

  datatype Fault = MalformedEvent | StreamError(message: string) | ReadError
  datatype Reply = Text(text: string) | Failed(fault: Fault)

  /** data holds the open event's lines; once done or failed nothing more is read. */
  datatype State = State(data: seq<string>, result: string, told: seq<Told>, done: bool, failed: Option<Fault>)
  const START := State([], "", [], false, None)

  predicate Stopped(s: State) {
    s.done || s.failed.Some?
  }

  function Join(lines: seq<string>): string {
    if lines == [] then "" else if |lines| == 1 then lines[0]
    else Join(lines[..|lines| - 1]) + "\n" + lines[|lines| - 1]
  }

  predicate HasPrefix(s: string, p: string) {
    |p| <= |s| && s[..|p|] == p
  }

  function TrimReturn(line: string): string {
    if line != "" && line[|line| - 1] == '\r' then line[..|line| - 1] else line
  }

  function TrimSpace(v: string): string {
    if v != "" && v[0] == ' ' then v[1..] else v
  }

  // ---------- one payload, one line ----------

  function Heard(s: State, c: Chunk): State {
    match c
    case Malformed => s.(failed := Some(MalformedEvent))
    case Failure(message) => s.(failed := Some(StreamError(message)))
    case NoChoices => s
    case Delta(content, reasoningContent, reasoning) =>
      var thinking := if reasoningContent == "" then reasoning else reasoningContent;
      s.(result := s.result + content,
         told := s.told + (if content != "" then [Content(content)] else [])
                        + if thinking != "" then [Thinking(thinking)] else [])
  }

  function Handled(decode: Decoder, s: State, payload: string): State {
    if payload == DONE then s.(done := true) else Heard(s, decode(payload))
  }

  function Flushed(decode: Decoder, s: State): State {
    if s.data == [] then s else Handled(decode, s.(data := []), Join(s.data))
  }

  /** What one line is: the end of an event, a line of data, or a comment or field with no effect. */
  datatype Token = Blank | DataLine(value: string) | Ignored

  function TokenOf(raw: string): Token {
    var line := TrimReturn(raw);
    if line == "" then Blank
    else if HasPrefix(line, ":") then Ignored
    else if HasPrefix(line, "data:") then DataLine(TrimSpace(line[5..]))
    else Ignored
  }

  function Tokens(lines: seq<string>): seq<Token> {
    seq(|lines|, i requires 0 <= i < |lines| => TokenOf(lines[i]))
  }

  function Taken(decode: Decoder, s: State, t: Token): State {
    match t
    case Blank => Flushed(decode, s)
    case DataLine(value) => s.(data := s.data + [value])
    case Ignored => s
  }

  function Run(decode: Decoder, s: State, tokens: seq<Token>): State
    decreases |tokens|
  {
    if tokens == [] || Stopped(s) then s else Run(decode, Taken(decode, s, tokens[0]), tokens[1..])
  }

  /** The end of the loop: a recorded read error fails the reply, even a finished one; an event still open counts as complete. */
  function Ended(decode: Decoder, s: State, recorded: bool): State {
    if s.failed.Some? then s
    else if recorded then s.(failed := Some(ReadError))
    else if s.done then s
    else Flushed(decode, s)
  }

  function ReplyOf(s: State): Reply {
    if s.failed.Some? then Failed(s.failed.value) else Text(s.result)
  }

  // ---------- the body, read by read ----------

  /** One read of the body: the lines it completes, and whether it came back with an error other than the end. */
  datatype Read = Read(lines: seq<string>, broke: bool)

  /** The lines the scanner can yield: those of every read up to the first that broke, its own included. */
  function LinesOf(body: seq<Read>): seq<string> {
    if body == [] then [] else if body[0].broke then body[0].lines else body[0].lines + LinesOf(body[1..])
  }

  predicate Breaks(body: seq<Read>) {
    body != [] && (body[0].broke || Breaks(body[1..]))
  }

  /** The lines of the reads before the one that broke. */
  function Before(body: seq<Read>): seq<string> {
    if body == [] || body[0].broke then [] else body[0].lines + Before(body[1..])
  }

  /** The scanner has met the broken read: the lines before it did not finish or fail the reply. */
  predicate Records(decode: Decoder, body: seq<Read>) {
    Breaks(body) && !Stopped(Run(decode, START, Tokens(Before(body))))
  }

  /** What becomes of a whole body. */
  function Outcome(decode: Decoder, body: seq<Read>): State {
    Ended(decode, Run(decode, START, Tokens(LinesOf(body))), Records(decode, body))
  }

  /** The scanner: reads still to come, lines in hand, and whether a read error is recorded. */
  datatype Feed = Feed(rest: seq<Read>, held: seq<string>, err: bool)

  function Pulled(f: Feed): Feed
    decreases |f.rest|
  {
    if f.held != [] || f.err || f.rest == [] then f
    else Pulled(Feed(f.rest[1..], f.rest[0].lines, f.rest[0].broke))
  }

  function Left(f: Feed): seq<string> {
    f.held + if f.err then [] else LinesOf(f.rest)
  }

  function LeftBefore(f: Feed): seq<string> {
    f.held + Before(f.rest)
  }

  /** Reading on changes none of the lines left, and records an error only when nothing was left before it. */
  lemma {:induction false} PullingKeeps(f: Feed)
    ensures Left(Pulled(f)) == Left(f)
    ensures !Pulled(f).err ==> LeftBefore(Pulled(f)) == LeftBefore(f) && (Breaks(Pulled(f).rest) <==> Breaks(f.rest))
    ensures Pulled(f).err && !f.err ==> LeftBefore(f) == [] && Breaks(f.rest)
    ensures Pulled(f).held == [] ==> Pulled(f).err || Pulled(f).rest == []
    decreases |f.rest|
  {
    if f.held == [] && !f.err && f.rest != [] {
      var next := Feed(f.rest[1..], f.rest[0].lines, f.rest[0].broke);
      PullingKeeps(next);
    }
  }

  class Scanner {
    var f: Feed

    constructor (body: seq<Read>)
      ensures f == Feed(body, [], false)
    {
      f := Feed(body, [], false);
    }

    /** Reads on until a line is in hand, and hands it over; nothing once an error is recorded or the body has ended. */
    method Scan() returns (line: Option<string>)
      modifies this
      ensures var g := Pulled(old(f));
              if g.held == [] then line == None && f == g
              else line == Some(g.held[0]) && f == g.(held := g.held[1..])
    {
      while f.held == [] && !f.err && f.rest != []
        invariant Pulled(f) == Pulled(old(f))
        decreases |f.rest|
      {
        f := Feed(f.rest[1..], f.rest[0].lines, f.rest[0].broke);
      }
      if f.held == [] {
        return None;
      }
      line := Some(f.held[0]);
      f := f.(held := f.held[1..]);
    }
  }

  // ---------- the reader ----------

  class Reader {
    const decode: Decoder
    var s: State

    constructor (decode: Decoder)
      ensures this.decode == decode && s == START
    {
      this.decode := decode;
      s := START;
    }

    /** Closes the open event: its lines, joined, are one payload, and are then forgotten. */
    method Flush()
      modifies this
      ensures s == Flushed(decode, old(s))
    {
      if |s.data| == 0 {
        return;
      }
      var payload := Join(s.data);
      s := s.(data := []);
      if payload == DONE {
        s := s.(done := true);
        return;
      }
      var c := decode(payload);
      if c.Malformed? {
        s := s.(failed := Some(MalformedEvent));
        return;
      }
      if c.Failure? {
        s := s.(failed := Some(StreamError(c.message)));
        return;
      }
      if c.NoChoices? {
        return;
      }
      if c.content != "" {
        s := s.(result := s.result + c.content, told := s.told + [Content(c.content)]);
      }
      var thinking := c.reasoningContent;
      if thinking == "" {
        thinking := c.reasoning;
      }
      if thinking != "" {
        s := s.(told := s.told + [Thinking(thinking)]);
      }
    }

    method ReadStream(body: seq<Read>) returns (reply: Reply)
      requires s == START
      modifies this
      ensures s == Outcome(decode, body)
      ensures reply == ReplyOf(s)
    {
      var sc := new Scanner(body);
      LoopBegins(decode, body);
      var more := true;
      while more && !s.done && s.failed == None
        invariant Follows(decode, body, s, sc.f)
        invariant !more ==> sc.f.held == [] && (sc.f.err || sc.f.rest == [])
        decreases if more then 1 else 0, |Left(sc.f)|
      {
        ScanFollows(decode, body, s, sc.f);
        var next := sc.Scan();
        if next == None {
          more := false;
        } else {
          var line := TrimReturn(next.value);
          if line == "" {
            Flush();
          } else if HasPrefix(line, ":") {
          } else if HasPrefix(line, "data:") {
            s := s.(data := s.data + [TrimSpace(line[5..])]);
          }
        }
      }
      LoopEnds(decode, body, s, sc.f);
      if s.failed == None {
        if sc.f.err {
          s := s.(failed := Some(ReadError));
        } else if !s.done {
          Flush();
        }
      }
      reply := ReplyOf(s);
    }
  }

  /** What the loop keeps: the lines left finish the run, and an error is recorded exactly when its read was met. */
  predicate Follows(decode: Decoder, body: seq<Read>, s: State, f: Feed) {
    && Run(decode, START, Tokens(LinesOf(body))) == Run(decode, s, Tokens(Left(f)))
    && (f.err ==> Records(decode, body))
    && (!f.err ==> (Breaks(body) <==> Breaks(f.rest))
                   && Run(decode, START, Tokens(Before(body))) == Run(decode, s, Tokens(LeftBefore(f))))
  }

  lemma LoopBegins(decode: Decoder, body: seq<Read>)
    ensures Follows(decode, body, START, Feed(body, [], false))
  {
    assert [] + LinesOf(body) == LinesOf(body) && [] + Before(body) == Before(body);
  }

  lemma Follow(decode: Decoder, body: seq<Read>, s: State, f: Feed)
    requires Follows(decode, body, s, f) && !Stopped(s)
    ensures Follows(decode, body, s, Pulled(f))
  {
    PullingKeeps(f);
  }

  lemma RunLine(decode: Decoder, s: State, line: string, rest: seq<string>)
    requires !Stopped(s)
    ensures Run(decode, s, Tokens([line] + rest)) == Run(decode, Taken(decode, s, TokenOf(line)), Tokens(rest))
  {
    TokensAppend([line], rest);
    assert Tokens([line]) == [TokenOf(line)];
    RunOne(decode, s, TokenOf(line), Tokens(rest));
  }

  lemma LeftAfter(f: Feed)
    requires f.held != []
    ensures var g := f.(held := f.held[1..]);
            Left(f) == [f.held[0]] + Left(g) && LeftBefore(f) == [f.held[0]] + LeftBefore(g)
  {
  }

  lemma TakeOne(decode: Decoder, body: seq<Read>, s: State, f: Feed)
    requires Follows(decode, body, s, f) && !Stopped(s) && f.held != []
    ensures Follows(decode, body, Taken(decode, s, TokenOf(f.held[0])), f.(held := f.held[1..]))
  {
    var g := f.(held := f.held[1..]);
    LeftAfter(f);
    RunLine(decode, s, f.held[0], Left(g));
    RunLine(decode, s, f.held[0], LeftBefore(g));
  }

  /** One more scan: the body has ended, or the next line is taken and fewer are left. */
  lemma ScanFollows(decode: Decoder, body: seq<Read>, s: State, f: Feed)
    requires Follows(decode, body, s, f) && !Stopped(s)
    ensures var g := Pulled(f);
            if g.held == [] then Follows(decode, body, s, g) && (g.err || g.rest == [])
            else && Follows(decode, body, Taken(decode, s, TokenOf(g.held[0])), g.(held := g.held[1..]))
                 && |Left(g.(held := g.held[1..]))| < |Left(f)|
  {
    PullingKeeps(f);
    Follow(decode, body, s, f);
    if Pulled(f).held != [] {
      TakeOne(decode, body, s, Pulled(f));
      LeftAfter(Pulled(f));
    }
  }

  lemma LoopEnds(decode: Decoder, body: seq<Read>, s: State, f: Feed)
    requires Follows(decode, body, s, f)
    requires Stopped(s) || (f.held == [] && (f.err || f.rest == []))
    ensures s == Run(decode, START, Tokens(LinesOf(body))) && (f.err <==> Records(decode, body))
  {
  }

  // ---------- serialisation ----------

  /** A line of an event: data, with or without the optional space, a comment, or a field this reader ignores. */
  datatype Part = Data(value: string, spaced: bool) | Comment(text: string) | Other(line: string)
  type Event = seq<Part>

  /** The part can be written on a line of its own and read as itself. */
  predicate Writable(p: Part) {
    match p
    case Data(value, spaced) =>
      (value == "" || value[|value| - 1] != '\r') && (!spaced ==> value == "" || value[0] != ' ')
    case Comment(text) => text == "" || text[|text| - 1] != '\r'
    case Other(line) =>
      line != "" && line[|line| - 1] != '\r' && !HasPrefix(line, ":") && !HasPrefix(line, "data:")
  }

  function Written(p: Part): string {
    match p
    case Data(value, spaced) => "data:" + (if spaced then " " else "") + value
    case Comment(text) => ":" + text
    case Other(line) => line
  }

  function Lines(e: Event): seq<string> {
    seq(|e|, k requires 0 <= k < |e| => Written(e[k]))
  }

  function Values(e: Event): seq<string> {
    if e == [] then [] else if e[0].Data? then [e[0].value] + Values(e[1..]) else Values(e[1..])
  }

  /** Each event's lines, and a blank line after each. */
  function Serialised(es: seq<Event>): seq<string> {
    if es == [] then [] else Lines(es[0]) + [""] + Serialised(es[1..])
  }

  ghost predicate AllWritable(es: seq<Event>) {
    forall i :: 0 <= i < |es| ==> EventWritable(es[i])
  }

  ghost predicate EventWritable(e: Event) {
    forall k :: 0 <= k < |e| ==> Writable(e[k])
  }

  /** What a list of events says, with no lines in sight: each event with data is one payload. */
  function Interpreted(decode: Decoder, s: State, es: seq<Event>): State
    decreases |es|
  {
    if es == [] || Stopped(s) then s
    else Interpreted(decode, if Values(es[0]) == [] then s else Handled(decode, s, Join(Values(es[0]))), es[1..])
  }

  function Meant(p: Part): Token {
    if p.Data? then DataLine(p.value) else Ignored
  }

  lemma DataIsRead(value: string, spaced: bool)
    requires Writable(Data(value, spaced))
    ensures TokenOf(Written(Data(value, spaced))) == DataLine(value)
  {
    var w := Written(Data(value, spaced));
    assert w[..5] == "data:" && w[5..] == (if spaced then " " else "") + value;
    assert TrimReturn(w) == w && w[0] == 'd';
    assert TrimSpace(w[5..]) == value;
  }

  /** A written part reads back as the part. */
  lemma PartIsRead(p: Part)
    requires Writable(p)
    ensures TokenOf(Written(p)) == Meant(p)
  {
    match p
    case Data(value, spaced) => DataIsRead(value, spaced);
    case Comment(text) =>
      assert TrimReturn(Written(p)) == Written(p) && Written(p)[..1] == ":";
    case Other(line) =>
  }

  function Meanings(e: Event): seq<Token> {
    if e == [] then [] else [Meant(e[0])] + Meanings(e[1..])
  }

  lemma {:induction false} LinesAreMeanings(e: Event)
    requires EventWritable(e)
    ensures Tokens(Lines(e)) == Meanings(e)
    decreases |e|
  {
    if e != [] {
      PartIsRead(e[0]);
      LinesAreMeanings(e[1..]);
      assert Lines(e) == [Written(e[0])] + Lines(e[1..]);
      TokensAppend([Written(e[0])], Lines(e[1..]));
      assert Tokens([Written(e[0])]) == [Meant(e[0])];
    }
  }

  lemma TokensAppend(a: seq<string>, b: seq<string>)
    ensures Tokens(a + b) == Tokens(a) + Tokens(b)
  {
  }

  /** The tokens of a list of events, each closed by a blank. */
  function EventTokens(es: seq<Event>): seq<Token> {
    if es == [] then [] else Meanings(es[0]) + [Blank] + EventTokens(es[1..])
  }

  lemma {:induction false} SerialisedTokens(es: seq<Event>)
    requires AllWritable(es)
    ensures Tokens(Serialised(es)) == EventTokens(es)
    decreases |es|
  {
    if es != [] {
      assert EventWritable(es[0]);
      LinesAreMeanings(es[0]);
      assert Tokens([""]) == [Blank];
      forall i | 0 <= i < |es| - 1 ensures EventWritable(es[1..][i]) { assert EventWritable(es[i + 1]); }
      SerialisedTokens(es[1..]);
      TokensAppend(Lines(es[0]), [""]);
      TokensAppend(Lines(es[0]) + [""], Serialised(es[1..]));
    }
  }

  lemma {:induction false} DataGathers(decode: Decoder, s: State, e: Event)
    requires !Stopped(s)
    ensures Run(decode, s, Meanings(e)) == s.(data := s.data + Values(e))
    decreases |e|
  {
    if e == [] {
      assert s.data + [] == s.data;
    } else {
      var t := Taken(decode, s, Meant(e[0]));
      RunOne(decode, s, Meant(e[0]), Meanings(e[1..]));
      DataGathers(decode, t, e[1..]);
      if e[0].Data? {
        AppendAssociates(s.data, [e[0].value], Values(e[1..]));
      }
    }
  }

  lemma RunOne(decode: Decoder, s: State, t: Token, rest: seq<Token>)
    requires !Stopped(s)
    ensures Run(decode, s, [t] + rest) == Run(decode, Taken(decode, s, t), rest)
  {
    assert ([t] + rest)[1..] == rest;
  }

  lemma AppendAssociates(a: seq<string>, b: seq<string>, c: seq<string>)
    ensures a + (b + c) == a + b + c
  {
  }

  lemma {:induction false} RunAppend(decode: Decoder, s: State, a: seq<Token>, b: seq<Token>)
    ensures Run(decode, s, a + b) == Run(decode, Run(decode, s, a), b)
    decreases |a|
  {
    if a == [] {
      assert a + b == b;
    } else if !Stopped(s) {
      assert (a + b)[1..] == a[1..] + b;
      RunAppend(decode, Taken(decode, s, a[0]), a[1..], b);
    }
  }

  lemma EventIsRead(decode: Decoder, s: State, e: Event)
    requires s.data == [] && !Stopped(s)
    ensures Run(decode, s, Meanings(e) + [Blank]) ==
              if Values(e) == [] then s else Handled(decode, s, Join(Values(e)))
  {
    DataGathers(decode, s, e);
    RunAppend(decode, s, Meanings(e), [Blank]);
    var t := s.(data := Values(e));
    assert s.data + Values(e) == Values(e);
    assert Run(decode, t, [Blank]) == Flushed(decode, t) by { assert [Blank][1..] == []; }
    assert t.(data := []) == s;
  }

  lemma {:induction false} EventsAreRead(decode: Decoder, s: State, es: seq<Event>)
    requires s.data == []
    ensures Run(decode, s, EventTokens(es)) == Interpreted(decode, s, es)
    ensures Interpreted(decode, s, es).data == []
    decreases |es|
  {
    if es != [] && !Stopped(s) {
      EventIsRead(decode, s, es[0]);
      RunAppend(decode, s, Meanings(es[0]) + [Blank], EventTokens(es[1..]));
      EventsAreRead(decode, if Values(es[0]) == [] then s else Handled(decode, s, Join(Values(es[0]))), es[1..]);
    }
  }

  /** Reading inverts serialisation, however the body is cut into reads: the reply and all that is
      reported are what the events themselves say. */
  lemma ReadInvertsWrite(decode: Decoder, es: seq<Event>, body: seq<Read>)
    requires AllWritable(es)
    requires !Breaks(body) && LinesOf(body) == Serialised(es)
    ensures Outcome(decode, body) == Interpreted(decode, START, es)
  {
    SerialisedTokens(es);
    EventsAreRead(decode, START, es);
  }

  /** A body that stops before its last blank line reads the same. */
  lemma LastBlankIsOptional(decode: Decoder, es: seq<Event>, e: Event)
    requires AllWritable(es) && EventWritable(e)
    ensures Ended(decode, Run(decode, START, Tokens(Serialised(es) + Lines(e))), false)
         == Ended(decode, Run(decode, START, Tokens(Serialised(es) + Lines(e) + [""])), false)
  {
    SerialisedTokens(es);
    EventsAreRead(decode, START, es);
    LinesAreMeanings(e);
    TokensAppend(Serialised(es), Lines(e));
    TokensAppend(Serialised(es) + Lines(e), [""]);
    assert Tokens([""]) == [Blank];
    RunAppend(decode, START, EventTokens(es), Meanings(e));
    RunAppend(decode, START, EventTokens(es) + Meanings(e), [Blank]);
    OpenEventCloses(decode, Run(decode, START, EventTokens(es) + Meanings(e)));
  }

  lemma OpenEventCloses(decode: Decoder, s: State)
    ensures Ended(decode, s, false) == Ended(decode, Run(decode, s, [Blank]), false)
  {
    assert [Blank][1..] == [];
  }

  lemma {:induction false} LinesAppend(a: seq<Read>, b: seq<Read>)
    requires !Breaks(a)
    ensures LinesOf(a + b) == LinesOf(a) + LinesOf(b) && Before(a + b) == LinesOf(a) + Before(b)
    ensures Breaks(a + b) <==> Breaks(b)
    decreases |a|
  {
    if a == [] {
      assert a + b == b;
    } else {
      assert (a + b)[0] == a[0] && (a + b)[1..] == a[1..] + b;
      LinesAppend(a[1..], b);
      AppendAssociates(a[0].lines, LinesOf(a[1..]), LinesOf(b));
      AppendAssociates(a[0].lines, LinesOf(a[1..]), Before(b));
    }
  }

  /** Done, nothing changes the run any more. */
  lemma DoneStays(decode: Decoder, a: seq<string>, b: seq<string>)
    requires Run(decode, START, Tokens(a)).done
    ensures Run(decode, START, Tokens(a + b)) == Run(decode, START, Tokens(a))
    ensures Run(decode, START, Tokens(a)).failed == None
  {
    TokensAppend(a, b);
    RunAppend(decode, START, Tokens(a), Tokens(b));
    DoneDidNotFail(decode, START, Tokens(a));
  }

  /** The lines around one read r after a clean beginning. */
  lemma LinesAround(a: seq<Read>, r: Read, b: seq<Read>)
    requires !Breaks(a)
    ensures LinesOf(a + ([r] + b)) == LinesOf(a) + if r.broke then r.lines else r.lines + LinesOf(b)
    ensures Before(a + ([r] + b)) == LinesOf(a) + if r.broke then [] else r.lines + Before(b)
    ensures r.broke ==> Breaks(a + ([r] + b))
  {
    LinesAppend(a, [r] + b);
    assert ([r] + b)[1..] == b;
  }

  /**
   After the done marker nothing that follows has an effect, in the same read or a later one, with one exception:
   the reply fails, complete as it is, if and only if the very read that brought the marker came with an error.
   */
  lemma AfterTheMarker(decode: Decoder, a: seq<Read>, x: seq<string>, y: seq<string>, broke: bool, b: seq<Read>)
    requires !Breaks(a) && !Stopped(Run(decode, START, Tokens(LinesOf(a))))
    requires Run(decode, START, Tokens(LinesOf(a) + x)).done
    ensures var finished := Run(decode, START, Tokens(LinesOf(a) + x));
            Outcome(decode, a + ([Read(x + y, broke)] + b)) == if broke then finished.(failed := Some(ReadError)) else finished
  {
    LinesAround(a, Read(x + y, broke), b);
    if broke {
      AppendAssociates(LinesOf(a), x, y);
      DoneStays(decode, LinesOf(a) + x, y);
      assert LinesOf(a) + [] == LinesOf(a);
    } else {
      FourAssociate(LinesOf(a), x, y, LinesOf(b));
      FourAssociate(LinesOf(a), x, y, Before(b));
      DoneStays(decode, LinesOf(a) + x, y + LinesOf(b));
      DoneStays(decode, LinesOf(a) + x, y + Before(b));
    }
  }

  lemma FourAssociate(a: seq<string>, b: seq<string>, c: seq<string>, d: seq<string>)
    ensures a + (b + c + d) == a + b + (c + d)
  {
  }

  lemma {:induction false} DoneDidNotFail(decode: Decoder, s: State, tokens: seq<Token>)
    requires s.done ==> s.failed == None
    ensures Run(decode, s, tokens).done ==> Run(decode, s, tokens).failed == None
    decreases |tokens|
  {
    if tokens != [] && !Stopped(s) {
      DoneDidNotFail(decode, Taken(decode, s, tokens[0]), tokens[1..]);
    }
  }

  const DONE_EVENT: Event := [Data(DONE, true)]

  lemma {:induction false} InterpretedAppend(decode: Decoder, s: State, a: seq<Event>, b: seq<Event>)
    ensures Interpreted(decode, s, a + b) == Interpreted(decode, Interpreted(decode, s, a), b)
    decreases |a|
  {
    if a == [] {
      assert a + b == b;
    } else if !Stopped(s) {
      assert (a + b)[1..] == a[1..] + b;
      InterpretedAppend(decode, if Values(a[0]) == [] then s else Handled(decode, s, Join(Values(a[0]))), a[1..], b);
    }
  }

  /** A stream closed without its done marker says what it says with one, and with anything after it. */
  lemma DoneMarkerIsOptional(decode: Decoder, es: seq<Event>, more: seq<Event>)
    ensures ReplyOf(Interpreted(decode, START, es + [DONE_EVENT] + more)) == ReplyOf(Interpreted(decode, START, es))
    ensures Interpreted(decode, START, es + [DONE_EVENT] + more).told == Interpreted(decode, START, es).told
  {
    InterpretedAppend(decode, START, es + [DONE_EVENT], more);
    InterpretedAppend(decode, START, es, [DONE_EVENT]);
    assert Values(DONE_EVENT[1..]) == [] && Values(DONE_EVENT) == [DONE];
    assert [DONE_EVENT][1..] == [];
  }

  // ---------- the reply is what the observer was told ----------

  function Contents(told: seq<Told>): string {
    if told == [] then ""
    else Contents(told[..|told| - 1]) + if told[|told| - 1].Content? then told[|told| - 1].text else ""
  }

  lemma ToldOne(told: seq<Told>, t: Told)
    ensures Contents(told + [t]) == Contents(told) + if t.Content? then t.text else ""
  {
    assert (told + [t])[..|told|] == told;
  }

  lemma HeardIsTold(s: State, c: Chunk)
    requires s.result == Contents(s.told)
    ensures Heard(s, c).result == Contents(Heard(s, c).told)
  {
    if c.Delta? {
      var thinking := if c.reasoningContent == "" then c.reasoning else c.reasoningContent;
      var after := s.told + if c.content != "" then [Content(c.content)] else [];
      if c.content != "" {
        ToldOne(s.told, Content(c.content));
      } else {
        assert after == s.told;
      }
      if thinking != "" {
        ToldOne(after, Thinking(thinking));
      } else {
        assert after + [] == after;
      }
    }
  }

  /** On any lines at all, the text so far is the contents told so far, in order and nothing else. */
  lemma {:induction false} ResultIsTold(decode: Decoder, s: State, tokens: seq<Token>)
    requires s.result == Contents(s.told)
    ensures Run(decode, s, tokens).result == Contents(Run(decode, s, tokens).told)
    decreases |tokens|
  {
    if tokens != [] && !Stopped(s) {
      FlushIsTold(decode, s);
      ResultIsTold(decode, Taken(decode, s, tokens[0]), tokens[1..]);
    }
  }

  lemma FlushIsTold(decode: Decoder, s: State)
    requires s.result == Contents(s.told)
    ensures Flushed(decode, s).result == Contents(Flushed(decode, s).told)
  {
    if s.data != [] && Join(s.data) != DONE {
      HeardIsTold(s.(data := []), decode(Join(s.data)));
    }
  }

  /** The reply, when there is one, is the concatenation of the content deltas reported. */
  lemma ReplyIsTold(decode: Decoder, body: seq<Read>)
    ensures var s := Outcome(decode, body);
            ReplyOf(s).Text? ==> ReplyOf(s).text == Contents(s.told)
  {
    ResultIsTold(decode, START, Tokens(LinesOf(body)));
    FlushIsTold(decode, Run(decode, START, Tokens(LinesOf(body))));
  }

  // ---------- what a list of events says, payload by payload ----------

  /** The payloads of the events that have data. */
  function Payloads(es: seq<Event>): seq<string> {
    if es == [] then []
    else (if Values(es[0]) == [] then [] else [Join(Values(es[0]))]) + Payloads(es[1..])
  }

  /** The payload is the last one read: the done marker, an error, or one that does not parse. */
  predicate Closes(decode: Decoder, payload: string) {
    payload == DONE || decode(payload).Malformed? || decode(payload).Failure?
  }

  /** Payload n is the first to close the stream; n is their number when none does. */
  ghost predicate ClosedBy(decode: Decoder, ps: seq<string>, n: nat) {
    && n <= |ps| && (forall i :: 0 <= i < n ==> !Closes(decode, ps[i]))
    && (n < |ps| ==> Closes(decode, ps[n]))
  }

  /** The contents of some payloads, one after the other. */
  function Spoken(decode: Decoder, ps: seq<string>): string {
    if ps == [] then ""
    else (if decode(ps[0]).Delta? then decode(ps[0]).content else "") + Spoken(decode, ps[1..])
  }

  /** What is reported of some payloads: of each, its content and its thinking, where it has any. */
  function Reports(decode: Decoder, ps: seq<string>): seq<Told> {
    if ps == [] then [] else ReportsOf(decode(ps[0])) + Reports(decode, ps[1..])
  }

  function ReportsOf(c: Chunk): seq<Told> {
    if !c.Delta? then []
    else
      (if c.content == "" then [] else [Content(c.content)])
      + if c.reasoningContent != "" then [Thinking(c.reasoningContent)]
        else if c.reasoning != "" then [Thinking(c.reasoning)] else []
  }

  /** Reading s on over payloads of which payload n is the first to close the stream leads to t. */
  ghost predicate LeadsTo(decode: Decoder, s: State, ps: seq<string>, n: nat, t: State)
    requires n <= |ps| && (n < |ps| ==> Closes(decode, ps[n]))
  {
    && t.result == s.result + Spoken(decode, ps[..n])
    && t.told == s.told + Reports(decode, ps[..n])
    && (t.done <==> n < |ps| && ps[n] == DONE)
    && t.failed == if n == |ps| || ps[n] == DONE then None
                   else if decode(ps[n]).Malformed? then Some(MalformedEvent)
                   else Some(StreamError(decode(ps[n]).message))
  }

  lemma LeadsOn(decode: Decoder, s: State, ps: seq<string>, n: nat, t: State)
    requires 0 < n <= |ps| && !Stopped(s) && !Closes(decode, ps[0]) && (n < |ps| ==> Closes(decode, ps[n]))
    requires LeadsTo(decode, Handled(decode, s, ps[0]), ps[1..], n - 1, t)
    ensures LeadsTo(decode, s, ps, n, t)
  {
    assert ps[..n][0] == ps[0] && ps[..n][1..] == ps[1..][..n - 1];
    var now := Handled(decode, s, ps[0]);
    HandledSays(decode, s, ps[0]);
    var c := decode(ps[0]);
    TextsAssociate(s.result, if c.Delta? then c.content else "", Spoken(decode, ps[1..][..n - 1]));
    ReportsAssociate(s.told, ReportsOf(c), Reports(decode, ps[1..][..n - 1]));
  }

  lemma HandledSays(decode: Decoder, s: State, payload: string)
    requires !Closes(decode, payload)
    ensures var c, now := decode(payload), Handled(decode, s, payload);
            && now.result == s.result + (if c.Delta? then c.content else "")
            && now.told == s.told + ReportsOf(c)
            && now.done == s.done && now.failed == s.failed
  {
    var c := decode(payload);
    if c.Delta? {
      var thinking := if c.reasoningContent == "" then c.reasoning else c.reasoningContent;
      ReportsAssociate(s.told, if c.content != "" then [Content(c.content)] else [],
                       if thinking != "" then [Thinking(thinking)] else []);
    } else {
      assert s.told + [] == s.told;
    }
  }

  lemma TextsAssociate(a: string, b: string, c: string)
    ensures a + (b + c) == a + b + c
  {
  }

  lemma ReportsAssociate(a: seq<Told>, b: seq<Told>, c: seq<Told>)
    ensures a + (b + c) == a + b + c
  {
  }

  lemma {:induction false} InterpretedLeads(decode: Decoder, s: State, es: seq<Event>, n: nat)
    requires ClosedBy(decode, Payloads(es), n) && !Stopped(s)
    ensures LeadsTo(decode, s, Payloads(es), n, Interpreted(decode, s, es))
    decreases |es|
  {
    var ps := Payloads(es);
    if es == [] {
      assert s.result + "" == s.result && s.told + [] == s.told;
    } else if Values(es[0]) == [] {
      assert ps == Payloads(es[1..]);
      InterpretedLeads(decode, s, es[1..], n);
    } else {
      assert ps[0] == Join(Values(es[0])) && ps[1..] == Payloads(es[1..]);
      if n == 0 {
        ClosedAtOnce(decode, s, ps, es[1..]);
      } else {
        assert forall i :: 0 <= i < n - 1 ==> ps[1..][i] == ps[i + 1];
        HandledSays(decode, s, ps[0]);
        InterpretedLeads(decode, Handled(decode, s, ps[0]), es[1..], n - 1);
        LeadsOn(decode, s, ps, n, Interpreted(decode, s, es));
      }
    }
  }

  lemma ClosedAtOnce(decode: Decoder, s: State, ps: seq<string>, rest: seq<Event>)
    requires ps != [] && Closes(decode, ps[0]) && !Stopped(s)
    ensures LeadsTo(decode, s, ps, 0, Interpreted(decode, Handled(decode, s, ps[0]), rest))
  {
    assert s.result + "" == s.result && s.told + [] == s.told;
  }

  /**
   What serialised events read as, however the body is cut: the contents up to the payload that closes the stream,
   joined and reported in order, are the reply; and if that payload is an error or does not parse, the reply fails
   with exactly that.
   */
  lemma ReplyIsThePayloads(decode: Decoder, es: seq<Event>, body: seq<Read>, n: nat)
    requires AllWritable(es) && !Breaks(body) && LinesOf(body) == Serialised(es)
    requires ClosedBy(decode, Payloads(es), n)
    ensures var ps, reply := Payloads(es), ReplyOf(Outcome(decode, body));
            && Outcome(decode, body).told == Reports(decode, ps[..n])
            && reply == if n == |ps| || ps[n] == DONE then Text(Spoken(decode, ps[..n]))
                        else if decode(ps[n]).Malformed? then Failed(MalformedEvent)
                        else Failed(StreamError(decode(ps[n]).message))
  {
    ReadInvertsWrite(decode, es, body);
    InterpretedLeads(decode, START, es, n);
    var ps := Payloads(es);
    assert "" + Spoken(decode, ps[..n]) == Spoken(decode, ps[..n]);
    assert [] + Reports(decode, ps[..n]) == Reports(decode, ps[..n]);
  }

  /** An event's lines join with one newline between two and nothing else. */
  lemma {:induction false} JoinAppend(a: seq<string>, b: seq<string>)
    requires a != [] && b != []
    ensures Join(a + b) == Join(a) + "\n" + Join(b)
  {
    var front, last := b[..|b| - 1], b[|b| - 1];
    assert (a + b)[..|a + b| - 1] == a + front;
    if front == [] {
      assert a + front == a;
    } else {
      JoinAppend(a, front);
      assert Join(a) + "\n" + (Join(front) + "\n" + last) == Join(a) + "\n" + Join(front) + "\n" + last;
    }
  }

  /** A carriage return before the newline makes no difference. */
  lemma ReturnsAreTrimmed(line: string)
    requires line == "" || line[|line| - 1] != '\r'
    ensures TokenOf(line + "\r") == TokenOf(line)
  {
    assert TrimReturn(line + "\r") == line;
  }

  // ---------- a body that breaks ----------

  lemma {:induction false} BeforeIsPrefix(body: seq<Read>) returns (rest: seq<string>)
    ensures LinesOf(body) == Before(body) + rest
    decreases |body|
  {
    if body == [] || body[0].broke {
      rest := LinesOf(body);
    } else {
      rest := BeforeIsPrefix(body[1..]);
      AppendAssociates(body[0].lines, Before(body[1..]), rest);
    }
  }

  /**
   A body that breaks before its done marker never passes for a reply: it fails with the read error, unless an event
   had failed it already, and then with that event's.
   */
  lemma BrokenBodyFails(decode: Decoder, body: seq<Read>)
    requires Breaks(body) && !Run(decode, START, Tokens(LinesOf(body))).done
    ensures var s := Run(decode, START, Tokens(LinesOf(body)));
            ReplyOf(Outcome(decode, body)) == Failed(if s.failed == None then ReadError else s.failed.value)
  {
    var rest := BeforeIsPrefix(body);
    TokensAppend(Before(body), rest);
    RunAppend(decode, START, Tokens(Before(body)), Tokens(rest));
  }
}
