/** A byte stream cut into lines: the reference the streaming observers and the re-reader are proved against. */
module Lines {
  type Byte = b: int | 0 <= b < 256
  const NEWLINE: Byte := 10
  const RETURN: Byte := 13

  /** The largest line any observer buffers: 16 MiB. */
  const MAX_LINE: nat := 0x100_0000

  /** The newline-terminated lines of s, without their newlines. */
  function Complete(s: seq<Byte>): seq<seq<Byte>> {
    if s == [] then []
    else
      var rest := s[..|s| - 1];
      if s[|s| - 1] == NEWLINE then Complete(rest) + [Tail(rest)] else Complete(rest)
  }

  /** What follows the last newline of s. */
  function Tail(s: seq<Byte>): seq<Byte> {
    if s == [] || s[|s| - 1] == NEWLINE then [] else Tail(s[..|s| - 1]) + [s[|s| - 1]]
  }

  /** Every line of s: an unterminated final line counts when it is not empty. */
  function All(s: seq<Byte>): seq<seq<Byte>> {
    if Tail(s) == [] then Complete(s) else Complete(s) + [Tail(s)]
  }

  function Flatten(chunks: seq<seq<Byte>>): seq<Byte> {
    if chunks == [] then [] else Flatten(chunks[..|chunks| - 1]) + chunks[|chunks| - 1]
  }

  function Joined(lines: seq<seq<Byte>>): seq<Byte> {
    if lines == [] then [] else Joined(lines[..|lines| - 1]) + lines[|lines| - 1] + [NEWLINE]
  }

  function Newlines(s: seq<Byte>): nat {
    if s == [] then 0 else Newlines(s[..|s| - 1]) + if s[|s| - 1] == NEWLINE then 1 else 0
  }

  lemma {:induction false} TailIsPlain(s: seq<Byte>)
    ensures NEWLINE !in Tail(s)
    ensures Tail(s) == [] <==> s == [] || s[|s| - 1] == NEWLINE
  {
    if s != [] && s[|s| - 1] != NEWLINE {
      TailIsPlain(s[..|s| - 1]);
    }
  }

  /** Appending newline-free bytes only lengthens the open line. */
  lemma {:induction false} AppendPlain(s: seq<Byte>, p: seq<Byte>)
    requires NEWLINE !in p
    ensures Complete(s + p) == Complete(s) && Tail(s + p) == Tail(s) + p
  {
    if p == [] {
      assert s + p == s;
    } else {
      var q := p[..|p| - 1];
      AppendPlain(s, q);
      assert (s + p)[..|s + p| - 1] == s + q;
      assert p == q + [p[|p| - 1]];
    }
  }

  /** Appending the newline closes the open line. */
  lemma AppendNewline(s: seq<Byte>)
    ensures Complete(s + [NEWLINE]) == Complete(s) + [Tail(s)] && Tail(s + [NEWLINE]) == []
  {
    assert (s + [NEWLINE])[..|s|] == s;
  }

  /** The cut loses nothing and leaves no newline inside a line. */
  lemma {:induction false} CutIsExact(s: seq<Byte>)
    ensures Joined(Complete(s)) + Tail(s) == s
    ensures forall l :: l in Complete(s) ==> NEWLINE !in l
  {
    if s != [] {
      var rest, c := s[..|s| - 1], s[|s| - 1];
      CutIsExact(rest);
      TailIsPlain(rest);
      assert s == rest + [c];
      if c == NEWLINE {
        assert Complete(s)[..|Complete(s)| - 1] == Complete(rest);
      }
    }
  }

  /** And it is the only cut with those two properties. */
  lemma {:induction false} CutIsUnique(lines: seq<seq<Byte>>, tail: seq<Byte>)
    requires forall l :: l in lines ==> NEWLINE !in l
    requires NEWLINE !in tail
    ensures Complete(Joined(lines) + tail) == lines && Tail(Joined(lines) + tail) == tail
  {
    if lines == [] {
      AppendPlain([], tail);
    } else {
      var front, line := lines[..|lines| - 1], lines[|lines| - 1];
      CutIsUnique(front, line);
      AppendNewline(Joined(front) + line);
      assert Joined(lines) == Joined(front) + line + [NEWLINE];
      AppendPlain(Joined(lines), tail);
    }
  }

  lemma {:induction false} NewlinesAppend(s: seq<Byte>, t: seq<Byte>)
    ensures Newlines(s + t) == Newlines(s) + Newlines(t)
  {
    if t == [] {
      assert s + t == s;
    } else {
      NewlinesAppend(s, t[..|t| - 1]);
      assert (s + t)[..|s + t| - 1] == s + t[..|t| - 1];
    }
  }

  /** Counting newline bytes, plus one for an unterminated non-empty end, counts the lines. */
  lemma {:induction false} NewlinesCountLines(s: seq<Byte>)
    ensures |Complete(s)| == Newlines(s)
    ensures |All(s)| == Newlines(s) + if s != [] && s[|s| - 1] != NEWLINE then 1 else 0
  {
    TailIsPlain(s);
    if s != [] {
      NewlinesCountLines(s[..|s| - 1]);
    }
  }

  /** Moving one line of the unread bytes over to the read ones keeps the stream. */
  lemma Regroup(fed: seq<Byte>, rest: seq<Byte>, i: nat)
    requires i < |rest| && rest[i] == NEWLINE
    ensures fed + rest[..i] + [NEWLINE] + rest[i + 1..] == fed + rest
  {
    assert rest == rest[..i] + [NEWLINE] + rest[i + 1..];
  }

  /** The first index of b in p, or -1. */
  method IndexByte(p: seq<Byte>, b: Byte) returns (i: int)
    ensures -1 <= i < |p|
    ensures i == -1 ==> b !in p
    ensures i >= 0 ==> p[i] == b && b !in p[..i]
  {
    i := 0;
    while i < |p|
      invariant 0 <= i <= |p|
      invariant b !in p[..i]
    {
      if p[i] == b { return; }
      i := i + 1;
    }
    i := -1;
  }
}

/** The recapture check every file-tail source shares: a streaming line count and hash, compared with the record. */
module FileTail {
  import opened Lines
  import opened Journal

  /** The fingerprint of a stream, whatever way it is read. */
  function Of(sha: seq<Byte> -> string, s: seq<Byte>): Fingerprint {
    Fingerprint(|All(s)|, sha(s))
  }

  method FingerprintFile(reads_: seq<seq<Byte>>, sha: seq<Byte> -> string) returns (fp: Fingerprint)
    ensures fp == Of(sha, Flatten(reads_))
  {
    var lines, hashed, isEmpty, lastByte := 0, [], true, NEWLINE;
    var k := 0;
    while k < |reads_|
      invariant 0 <= k <= |reads_|
      invariant hashed == Flatten(reads_[..k])
      invariant lines == Newlines(hashed)
      invariant isEmpty == (hashed == [])
      invariant hashed != [] ==> lastByte == hashed[|hashed| - 1]
    {
      var buf := reads_[k];
      assert reads_[..k + 1][..k] == reads_[..k];
      if |buf| > 0 {
        isEmpty := false;
        var i := 0;
        while i < |buf|
          invariant 0 <= i <= |buf|
          invariant lines == Newlines(hashed) + Newlines(buf[..i])
        {
          assert buf[..i + 1][..i] == buf[..i];
          if buf[i] == NEWLINE {
            lines := lines + 1;
          }
          i := i + 1;
        }
        assert buf[..i] == buf;
        NewlinesAppend(hashed, buf);
        hashed := hashed + buf;
        lastByte := buf[|buf| - 1];
      } else {
        assert hashed + buf == hashed;
      }
      k := k + 1;
    }
    assert reads_[..k] == reads_;
    NewlinesCountLines(hashed);
    if !isEmpty && lastByte != NEWLINE {
      lines := lines + 1;
    }
    fp := Fingerprint(lines, sha(hashed));
  }

  /** The sweep's verdict: is the file still the revision the record names? */
  method Unchanged(reads_: seq<seq<Byte>>, sha: seq<Byte> -> string, prior: Fingerprint) returns (same: bool)
    ensures same == (Of(sha, Flatten(reads_)) == prior)
  {
    var fp := FingerprintFile(reads_, sha);
    same := fp.lines == prior.lines && fp.sha == prior.sha;
  }
}
