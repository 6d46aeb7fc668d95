/** Numerals: big-endian digit sequences in any base, and their order. */
module Numerals {
  /** The number a digit sequence writes, most significant digit first. */
  function Num(base: nat, digits: seq<nat>): nat {
    if digits == [] then 0 else base * Num(base, digits[..|digits| - 1]) + digits[|digits| - 1]
  }

  ghost predicate Digits(base: nat, s: seq<nat>) {
    forall i :: 0 <= i < |s| ==> s[i] < base
  }

  lemma NumAppend(base: nat, s: seq<nat>, d: nat)
    ensures Num(base, s + [d]) == base * Num(base, s) + d
  {
    assert (s + [d])[..|s|] == s;
  }

  /** The first place two sequences of one length differ, when they do. */
  ghost predicate Less(s: seq<nat>, t: seq<nat>) {
    |s| == |t| && exists k :: FirstDiffers(s, t, k) && s[k] < t[k]
  }

  ghost predicate FirstDiffers(s: seq<nat>, t: seq<nat>, k: int) {
    0 <= k < |s| && k < |t| && s[k] != t[k] && forall i :: 0 <= i < k ==> s[i] == t[i]
  }

  lemma CarryFits(base: nat, x: nat, y: nat, d: nat)
    requires x < y && d < base
    ensures base * x + d < base * y
  {
    assert base * (x + 1) <= base * y by { MulMono(base, x + 1, y); }
  }

  lemma {:induction false} MulMono(base: nat, x: nat, y: nat)
    requires x <= y
    ensures base * x <= base * y
    decreases y
  {
    if x < y {
      MulMono(base, x, y - 1);
    }
  }

  /** Digit order is number order. */
  lemma {:induction false} LessIsNumLess(base: nat, s: seq<nat>, t: seq<nat>)
    requires |s| == |t| && Digits(base, s) && Digits(base, t)
    ensures Less(s, t) <==> Num(base, s) < Num(base, t)
    ensures s == t <==> Num(base, s) == Num(base, t)
    decreases |s|
  {
    if s != [] {
      var n := |s| - 1;
      LessIsNumLess(base, s[..n], t[..n]);
      LessIsNumLess(base, t[..n], s[..n]);
      if Num(base, s[..n]) < Num(base, t[..n]) {
        FrontDecides(base, s, t);
      } else if Num(base, t[..n]) < Num(base, s[..n]) {
        FrontDecides(base, t, s);
      } else {
        LastDecides(base, s, t);
      }
    }
  }

  /** Behind the same front, the last digits decide. */
  lemma LastDecides(base: nat, s: seq<nat>, t: seq<nat>)
    requires |s| == |t| > 0 && Digits(base, s) && Digits(base, t) && s[..|s| - 1] == t[..|t| - 1]
    ensures Less(s, t) <==> Num(base, s) < Num(base, t)
    ensures s == t <==> Num(base, s) == Num(base, t)
  {
    SameFront(s, t);
  }

  /** A smaller front makes a smaller number, whatever the last digits. */
  lemma FrontDecides(base: nat, s: seq<nat>, t: seq<nat>)
    requires |s| == |t| > 0 && Digits(base, s) && Digits(base, t)
    requires var n := |s| - 1; Less(s[..n], t[..n]) && Num(base, s[..n]) < Num(base, t[..n])
    ensures Less(s, t) && !Less(t, s) && Num(base, s) < Num(base, t) && s != t
  {
    var n := |s| - 1;
    CarryFits(base, Num(base, s[..n]), Num(base, t[..n]), s[n]);
    LessExtends(s, t);
    LessIsAsymmetric(t, s);
  }

  lemma LessExtends(s: seq<nat>, t: seq<nat>)
    requires |s| == |t| > 0 && Less(s[..|s| - 1], t[..|t| - 1])
    ensures Less(s, t)
  {
    var a, b := s[..|s| - 1], t[..|t| - 1];
    var k :| FirstDiffers(a, b, k) && a[k] < b[k];
    assert FirstDiffers(s, t, k);
  }

  lemma LessIsAsymmetric(s: seq<nat>, t: seq<nat>)
    requires Less(t, s)
    ensures !Less(s, t)
  {
    var k :| FirstDiffers(t, s, k) && t[k] < s[k];
    forall j | FirstDiffers(s, t, j) ensures j == k {
    }
  }

  lemma OnFront(s: seq<nat>, t: seq<nat>, k: nat)
    requires |s| == |t| > 0 && s[..|s| - 1] == t[..|t| - 1] && k < |s|
    ensures k < |s| - 1 ==> s[k] == t[k]
  {
    if k < |s| - 1 {
      assert s[..|s| - 1][k] == t[..|t| - 1][k];
    }
  }

  lemma SameFront(s: seq<nat>, t: seq<nat>)
    requires |s| == |t| > 0 && s[..|s| - 1] == t[..|t| - 1]
    ensures Less(s, t) <==> s[|s| - 1] < t[|t| - 1]
    ensures s == t <==> s[|s| - 1] == t[|t| - 1]
  {
    var n := |s| - 1;
    assert s == s[..n] + [s[n]] && t == t[..n] + [t[n]];
    if s[n] < t[n] {
      assert FirstDiffers(s, t, n);
    }
    if Less(s, t) {
      var k :| FirstDiffers(s, t, k) && s[k] < t[k];
      assert k >= n by { OnFront(s, t, k); }
    }
  }

  function Pow(base: nat, k: nat): nat {
    if k == 0 then 1 else base * Pow(base, k - 1)
  }

  lemma {:induction false} NumSplit(base: nat, a: seq<nat>, b: seq<nat>)
    ensures Num(base, a + b) == Num(base, a) * Pow(base, |b|) + Num(base, b)
  {
    if b == [] {
      assert a + b == a;
    } else {
      var front, d := b[..|b| - 1], b[|b| - 1];
      NumSplit(base, a, front);
      assert a + b == a + front + [d];
      NumAppend(base, a + front, d);
      Distribute(base, Num(base, a), Pow(base, |b| - 1), Num(base, front));
    }
  }

  lemma Distribute(base: nat, x: nat, y: nat, z: nat)
    ensures base * (x * y + z) == x * (base * y) + base * z
  {
  }

  lemma {:induction false} NumBounded(base: nat, s: seq<nat>)
    requires Digits(base, s)
    ensures Num(base, s) < Pow(base, |s|)
  {
    if s != [] {
      NumBounded(base, s[..|s| - 1]);
      CarryFits(base, Num(base, s[..|s| - 1]), Pow(base, |s| - 1), s[|s| - 1]);
    }
  }
}

/** The monotonic identity source: 48 bits of milliseconds, 80 of entropy, 26 Crockford characters. */
module Ulid {
  import opened Numerals

  const ID_LEN := 26
  const CROCKFORD := "0123456789ABCDEFGHJKMNPQRSTVWXYZ"
  const TWO_48: nat := 0x1_0000_0000_0000
  const TWO_80: nat := 0x1_0000_0000_0000_0000_0000

  // ---------- bits, bytes and characters of one number ----------

  /** b shifted right by k. */
  function Shr(b: nat, k: nat): nat {
    if k == 0 then b else Shr(b, k - 1) / 2
  }

  /** Bit k of a byte, counting from the low end. */
  function BitOf(b: nat, k: nat): nat {
    Shr(b, k) % 2
  }

  function ByteBits(b: nat): (bits: seq<nat>)
    ensures |bits| == 8
  {
    [BitOf(b, 7), BitOf(b, 6), BitOf(b, 5), BitOf(b, 4), BitOf(b, 3), BitOf(b, 2), BitOf(b, 1), BitOf(b, 0)]
  }

  /** All bits of a byte string, most significant first. */
  function Bits(raw: seq<nat>): (bits: seq<nat>)
    ensures |bits| == 8 * |raw|
    ensures forall p :: 0 <= p < |bits| ==> bits[p] == BitOf(raw[p / 8], 7 - p % 8)
  {
    if raw == [] then []
    else
      var front, last := Bits(raw[..|raw| - 1]), ByteBits(raw[|raw| - 1]);
      ByteBitsAt(raw[|raw| - 1]);
      front + last
  }

  lemma ByteBitsAt(b: nat)
    ensures forall p :: 0 <= p < 8 ==> ByteBits(b)[p] == BitOf(b, 7 - p)
  {
  }

  lemma ByteIsItsBits(b: nat)
    requires b < 256
    ensures b == 128 * BitOf(b, 7) + 64 * BitOf(b, 6) + 32 * BitOf(b, 5) + 16 * BitOf(b, 4)
                 + 8 * BitOf(b, 3) + 4 * BitOf(b, 2) + 2 * BitOf(b, 1) + BitOf(b, 0)
  {
    Halve(b, 0);
    Halve(b, 1);
    Halve(b, 2);
    Halve(b, 3);
    Halve(b, 4);
    Halve(b, 5);
    Halve(b, 6);
    assert Shr(b, 7) < 2 by { Halve(b, 7); }
  }

  lemma {:induction false} Halve(b: nat, k: nat)
    requires b < 256 && k < 8
    ensures Shr(b, k) == BitOf(b, k) + 2 * Shr(b, k + 1)
    ensures Shr(b, k + 1) < [128, 64, 32, 16, 8, 4, 2, 1][k]
  {
    if k > 0 {
      Halve(b, k - 1);
    }
  }

  lemma AppendByte(bits: seq<nat>, b: nat)
    requires b < 256
    ensures Num(2, bits + ByteBits(b)) == 256 * Num(2, bits) + b
  {
    var x := ByteBits(b);
    NumAppend(2, bits, x[0]);
    NumAppend(2, bits + x[..1], x[1]);
    NumAppend(2, bits + x[..2], x[2]);
    NumAppend(2, bits + x[..3], x[3]);
    NumAppend(2, bits + x[..4], x[4]);
    NumAppend(2, bits + x[..5], x[5]);
    NumAppend(2, bits + x[..6], x[6]);
    NumAppend(2, bits + x[..7], x[7]);
    assert bits + x[..1] == bits + [x[0]];
    assert bits + x[..2] == bits + x[..1] + [x[1]];
    assert bits + x[..3] == bits + x[..2] + [x[2]];
    assert bits + x[..4] == bits + x[..3] + [x[3]];
    assert bits + x[..5] == bits + x[..4] + [x[4]];
    assert bits + x[..6] == bits + x[..5] + [x[5]];
    assert bits + x[..7] == bits + x[..6] + [x[6]];
    assert bits + x == bits + x[..7] + [x[7]];
    ByteIsItsBits(b);
  }

  /** Bytes and bits write the same number. */
  lemma {:induction false} BytesAreBits(raw: seq<nat>)
    requires Digits(256, raw)
    ensures Num(256, raw) == Num(2, Bits(raw))
  {
    if raw != [] {
      BytesAreBits(raw[..|raw| - 1]);
      AppendByte(Bits(raw[..|raw| - 1]), raw[|raw| - 1]);
    }
  }

  lemma {:induction false} BitsOfPrefix(raw: seq<nat>, n: nat)
    requires n <= |raw|
    ensures Bits(raw[..n]) == Bits(raw)[..8 * n]
    decreases |raw|
  {
    if n < |raw| {
      BitsOfPrefix(raw[..|raw| - 1], n);
      assert raw[..|raw| - 1][..n] == raw[..n];
    } else {
      assert raw[..n] == raw;
    }
  }

  function ValueOf(c: char): (v: int)
    ensures -1 <= v < 32
    ensures v >= 0 ==> CROCKFORD[v] == c
  {
    ValueFrom(c, 0)
  }

  function ValueFrom(c: char, i: nat): (v: int)
    requires i <= 32
    ensures v == -1 || (i <= v < 32 && CROCKFORD[v] == c && forall k :: i <= k < v ==> CROCKFORD[k] != c)
    ensures v == -1 ==> forall k :: i <= k < 32 ==> CROCKFORD[k] != c
    decreases 32 - i
  {
    if i == 32 then -1 else if CROCKFORD[i] == c then i else ValueFrom(c, i + 1)
  }

  /** The alphabet is the digits and the capital letters but I, L, O and U. */
  lemma AlphabetIsCrockfords(c: char)
    ensures |CROCKFORD| == 32
    ensures c in CROCKFORD <==> '0' <= c <= '9' || ('A' <= c <= 'Z' && c !in {'I', 'L', 'O', 'U'})
  {
    assert forall v :: 0 <= v < 10 ==> CROCKFORD[v] as int == '0' as int + v;
    assert forall v :: 10 <= v < 18 ==> CROCKFORD[v] as int == 'A' as int + v - 10;
    assert CROCKFORD[18] == 'J' && CROCKFORD[19] == 'K' && CROCKFORD[20] == 'M' && CROCKFORD[21] == 'N';
    assert forall v :: 22 <= v < 27 ==> CROCKFORD[v] as int == 'P' as int + v - 22;
    assert forall v :: 27 <= v < 32 ==> CROCKFORD[v] as int == 'V' as int + v - 27;
  }

  lemma AlphabetSteps(i: nat)
    requires i < 31
    ensures CROCKFORD[i] < CROCKFORD[i + 1]
  {
  }

  lemma {:induction false} AlphabetAscends(i: nat, j: nat)
    requires i < j < 32
    ensures CROCKFORD[i] < CROCKFORD[j]
    decreases j
  {
    AlphabetSteps(j - 1);
    if i < j - 1 {
      AlphabetAscends(i, j - 1);
    }
  }

  lemma ValueInverts(v: nat)
    requires v < 32
    ensures ValueOf(CROCKFORD[v]) == v
  {
    var w := ValueOf(CROCKFORD[v]);
    if w < v {
      AlphabetAscends(w, v);
    }
  }

  ghost predicate Shaped(s: string) {
    |s| == ID_LEN && forall i :: 0 <= i < |s| ==> ValueOf(s[i]) >= 0
  }

  /** The digits an identity spells. */
  function Values(s: string): (ds: seq<nat>)
    requires forall i :: 0 <= i < |s| ==> ValueOf(s[i]) >= 0
    ensures |ds| == |s| && Digits(32, ds)
    ensures forall i :: 0 <= i < |s| ==> ds[i] == ValueOf(s[i])
  {
    if s == [] then [] else Values(s[..|s| - 1]) + [ValueOf(s[|s| - 1])]
  }

  /** The order strings sort in. */
  ghost predicate Before(s: string, t: string) {
    |s| == |t| && exists k :: CharDiffers(s, t, k) && s[k] < t[k]
  }

  ghost predicate CharDiffers(s: string, t: string, k: int) {
    0 <= k < |s| && k < |t| && s[k] != t[k] && forall i :: 0 <= i < k ==> s[i] == t[i]
  }

  lemma CharOrder(c: char, d: char)
    requires ValueOf(c) >= 0 && ValueOf(d) >= 0
    ensures c < d <==> ValueOf(c) < ValueOf(d)
    ensures c == d <==> ValueOf(c) == ValueOf(d)
  {
    var v, w := ValueOf(c), ValueOf(d);
    if v < w {
      AlphabetAscends(v, w);
    } else if w < v {
      AlphabetAscends(w, v);
    }
  }

  /** As strings, identities sort by the numbers they spell. */
  lemma SortedByNumber(s: string, t: string)
    requires Shaped(s) && Shaped(t)
    ensures Before(s, t) <==> Num(32, Values(s)) < Num(32, Values(t))
    ensures s == t <==> Num(32, Values(s)) == Num(32, Values(t))
  {
    var a, b := Values(s), Values(t);
    forall i | 0 <= i < |s|
      ensures (s[i] < t[i] <==> a[i] < b[i]) && (s[i] == t[i] <==> a[i] == b[i])
    {
      CharOrder(s[i], t[i]);
    }
    assert forall k :: CharDiffers(s, t, k) <==> FirstDiffers(a, b, k);
    LessIsNumLess(32, a, b);
    if a == b {
      assert s == t;
    }
  }

  // ---------- encoding ----------

  /** What the text form promises of 16 bytes: the same number, and every character's place in it. */
  ghost predicate Spells(s: string, raw: seq<nat>) {
    && Shaped(s)
    && Num(32, Values(s)) == Num(256, raw)
    && forall i :: 0 < i <= ID_LEN && 5 * i - 2 <= 8 * |raw| ==>
         Num(32, Values(s)[..i]) == Num(2, Bits(raw)[..5 * i - 2])
  }

  lemma NextBit(bits: seq<nat>, p: nat, q: nat)
    requires p <= q < |bits|
    ensures Num(2, bits[p..q + 1]) == 2 * Num(2, bits[p..q]) + bits[q]
  {
    assert bits[p..q + 1] == bits[p..q] + [bits[q]];
    NumAppend(2, bits[p..q], bits[q]);
  }

  /** Five more bits are one more digit. */
  lemma FiveBits(bits: seq<nat>, p: nat, v: nat)
    requires p + 5 <= |bits| && v == Num(2, bits[p..p + 5])
    ensures Num(2, bits[..p + 5]) == 32 * Num(2, bits[..p]) + v
  {
    NextBit(bits, 0, p);
    NextBit(bits, 0, p + 1);
    NextBit(bits, 0, p + 2);
    NextBit(bits, 0, p + 3);
    NextBit(bits, 0, p + 4);
    NextBit(bits, p, p);
    NextBit(bits, p, p + 1);
    NextBit(bits, p, p + 2);
    NextBit(bits, p, p + 3);
    NextBit(bits, p, p + 4);
  }

  lemma TopOfByte(b: nat)
    requires b < 256
    ensures Shr(b, 5) == 4 * BitOf(b, 7) + 2 * BitOf(b, 6) + BitOf(b, 5) < 8
  {
    Halve(b, 4);
    Halve(b, 5);
    Halve(b, 6);
    Halve(b, 7);
  }

  /** The bits of some bytes, without how they were laid out. */
  ghost predicate Lays(raw: seq<nat>, bits: seq<nat>) {
    |bits| == 8 * |raw| && forall p :: 0 <= p < |bits| ==> bits[p] == BitOf(raw[p / 8], 7 - p % 8)
  }

  lemma TopThreeBits(raw: seq<nat>, bits: seq<nat>)
    requires |raw| > 0 && raw[0] < 256 && Lays(raw, bits)
    ensures Num(2, bits[..3]) == Shr(raw[0], 5) < 8
  {
    TopOfByte(raw[0]);
    assert bits[0] == BitOf(raw[0], 7) && bits[1] == BitOf(raw[0], 6) && bits[2] == BitOf(raw[0], 5);
    NextBit(bits, 0, 0);
    NextBit(bits, 0, 1);
    NextBit(bits, 0, 2);
  }

  method NextFive(raw: seq<nat>, start: nat, ghost bits: seq<nat>) returns (v: nat)
    requires Lays(raw, bits) && start + 5 <= |bits|
    ensures v == Num(2, bits[start..start + 5]) && v < 32
  {
    v := 0;
    var bitPos, j, limit := start, 0, 1;
    while j < 5
      invariant 0 <= j <= 5 && bitPos == start + j
      invariant v == Num(2, bits[start..bitPos]) && v < limit
      invariant limit == [1, 2, 4, 8, 16, 32][j]
    {
      var byteIdx := bitPos / 8;
      var bitIdx := 7 - bitPos % 8;
      assert bits[bitPos] == BitOf(raw[byteIdx], bitIdx);
      var bit := Shr(raw[byteIdx], bitIdx) % 2;
      NextBit(bits, start, bitPos);
      v, limit := v * 2 + bit, 2 * limit;
      bitPos := bitPos + 1;
      j := j + 1;
    }
  }

  /** So many characters spell so many bits. */
  ghost predicate Rendered(s: string, digits: seq<nat>, bits: seq<nat>) {
    && |s| == |digits| && 5 * |s| - 2 <= |bits|
    && (forall k :: 0 <= k < |s| ==> digits[k] < 32 && s[k] == CROCKFORD[digits[k]])
    && (forall k :: 0 < k <= |s| ==> Num(32, digits[..k]) == Num(2, bits[..5 * k - 2]))
  }

  lemma RendersFirst(bits: seq<nat>, v: nat)
    requires |bits| >= 3 && v < 32 && v == Num(2, bits[..3])
    ensures Rendered([CROCKFORD[v]], [v], bits)
  {
    NumAppend(32, [], v);
    assert [] + [v] == [v] == [v][..1];
  }

  lemma RendersMore(s: string, digits: seq<nat>, bits: seq<nat>, v: nat)
    requires |s| > 0 && Rendered(s, digits, bits) && 5 * |s| + 3 <= |bits| && v < 32
    requires v == Num(2, bits[5 * |s| - 2..5 * |s| + 3])
    ensures Rendered(s + [CROCKFORD[v]], digits + [v], bits)
  {
    var more := digits + [v];
    forall k | 0 < k <= |s| + 1 ensures Num(32, more[..k]) == Num(2, bits[..5 * k - 2]) {
      if k <= |s| {
        assert more[..k] == digits[..k];
      } else {
        FiveBits(bits, 5 * |s| - 2, v);
        NumAppend(32, digits, v);
        assert digits[..|s|] == digits && more[..k] == more;
      }
    }
  }

  method EncodeCrockford(raw: seq<nat>) returns (s: string)
    requires |raw| == 16 && Digits(256, raw)
    ensures Spells(s, raw)
  {
    ghost var digits;
    s, digits := Render(raw, Bits(raw));
    RenderedSpells(s, digits, raw);
  }

  lemma RenderedSpells(s: string, digits: seq<nat>, raw: seq<nat>)
    requires |raw| == 16 && Digits(256, raw) && |s| == ID_LEN && Rendered(s, digits, Bits(raw))
    ensures Spells(s, raw)
  {
    forall k | 0 <= k < ID_LEN ensures ValueOf(s[k]) == digits[k] {
      ValueInverts(digits[k]);
    }
    assert Values(s) == digits && digits[..ID_LEN] == digits && Bits(raw)[..5 * ID_LEN - 2] == Bits(raw);
    BytesAreBits(raw);
  }

  /** The loops of the encoder: three bits, then twenty-five times five. */
  method Render(raw: seq<nat>, ghost bits: seq<nat>) returns (s: string, ghost digits: seq<nat>)
    requires |raw| == 16 && Digits(256, raw) && Lays(raw, bits)
    ensures |s| == ID_LEN && Rendered(s, digits, bits)
  {
    TopThreeBits(raw, bits);
    var v := Shr(raw[0], 5);
    digits := [v];
    s := [CROCKFORD[v]];
    RendersFirst(bits, v);
    var bitPos := 3;
    while |s| < ID_LEN
      invariant 1 <= |s| <= ID_LEN && bitPos == 5 * |s| - 2
      invariant Rendered(s, digits, bits)
    {
      v := NextFive(raw, bitPos, bits);
      RendersMore(s, digits, bits, v);
      digits := digits + [v];
      s := s + [CROCKFORD[v]];
      bitPos := bitPos + 5;
    }
  }

  /** Sixteen bytes spelled: distinct bytes never share a text, and bytes in order spell texts in order. */
  lemma SpellingKeepsOrder(s: string, t: string, a: seq<nat>, b: seq<nat>)
    requires |a| == |b| && Digits(256, a) && Digits(256, b) && Spells(s, a) && Spells(t, b)
    ensures s == t <==> a == b
    ensures Before(s, t) <==> Less(a, b)
  {
    SortedByNumber(s, t);
    LessIsNumLess(256, a, b);
  }

  // ---------- the source ----------

  function BigEndian(n: nat, k: nat): (bytes: seq<nat>)
    ensures |bytes| == k && Digits(256, bytes)
  {
    if k == 0 then [] else BigEndian(n / 256, k - 1) + [n % 256]
  }

  lemma {:induction false} BigEndianWrites(n: nat, k: nat)
    requires n < Pow(256, k)
    ensures Num(256, BigEndian(n, k)) == n
  {
    if k > 0 {
      BigEndianWrites(n / 256, k - 1);
      NumAppend(256, BigEndian(n / 256, k - 1), n % 256);
    }
  }

  lemma {:induction false} TopBytesDrop(n: nat, k: nat)
    ensures BigEndian(n, k + 2)[2..] == BigEndian(n, k)
  {
    if k > 0 {
      TopBytesDrop(n / 256, k - 1);
    }
  }

  lemma Widths()
    ensures Pow(256, 6) == TWO_48 && Pow(256, 10) == TWO_80
  {
    assert Pow(256, 3) == 0x100_0000;
    assert Pow(256, 6) == 0x100_0000 * 0x100_0000;
    assert Pow(256, 9) == 0x100_0000 * 0x100_0000 * 0x100_0000;
  }

  class Source {
    var lastMS: nat
    var lastRand: array<nat>

    ghost predicate Valid()
      reads this, lastRand
    {
      lastRand.Length == 10 && Digits(256, lastRand[..]) && lastMS < TWO_48
    }

    /** The random half as a number. */
    ghost function Rand(): nat
      reads this, lastRand
    {
      Num(256, lastRand[..])
    }

    /** The 128-bit number the last identity spelled. */
    ghost function Last(): nat
      reads this, lastRand
    {
      lastMS * TWO_80 + Rand()
    }

    constructor ()
      ensures Valid() && Last() == 0 && lastMS == 0 && fresh(lastRand)
    {
      lastMS := 0;
      lastRand := new nat[10](_ => 0);
      new;
      assert lastRand[..] == BigEndian(0, 10);
      BigEndianWrites(0, 10);
    }

    /** Adds one to the random half; past its last value it wraps to zero, unnoticed. */
    method Increment()
      requires Valid()
      modifies lastRand
      ensures Valid() && Rand() == if old(Rand()) == TWO_80 - 1 then 0 else old(Rand()) + 1
    {
      ghost var was := lastRand[..];
      var i := 9;
      while i >= 0
        invariant -1 <= i <= 9
        invariant lastRand[..i + 1] == was[..i + 1]
        invariant forall k :: i < k < 10 ==> was[k] == 255 && lastRand[k] == 0
      {
        lastRand[i] := (lastRand[i] + 1) % 256;
        if lastRand[i] != 0 {
          break;
        }
        i := i - 1;
      }
      CarryAdds(was, lastRand[..], i);
      NumBounded(256, was);
      Widths();
    }

    /**
     The next identity. It spells a number above the last one's, whatever the clock says, unless the clock has not
     moved on and the random half was full: then, and only then, it starts again from a zero random half.
     */
    method Next(now: nat, entropy: seq<nat>) returns (id: string)
      requires Valid()
      requires now < TWO_48 && |entropy| == 10 && Digits(256, entropy)
      modifies this, lastRand
      ensures Valid() && lastRand == old(lastRand)
      ensures lastMS == if now > old(lastMS) then now else old(lastMS)
      ensures Shaped(id) && Num(32, Values(id)) == Last()
      ensures Num(32, Values(id)[..10]) == lastMS
      ensures now > old(lastMS) ==> lastRand[..] == entropy
      ensures Last() > old(Last()) <==> !(now <= old(lastMS) && old(Rand()) == TWO_80 - 1)
      ensures Last() <= old(Last()) ==> Last() == lastMS * TWO_80
    {
      var ms := now;
      if ms > lastMS {
        lastMS := ms;
        FillFrom(entropy);
      } else {
        ms := lastMS;
        Increment();
      }
      var tsBuf := BigEndian(ms, 8);
      var raw := tsBuf[2..8] + lastRand[..];
      RawIsNumber(ms, lastRand[..], raw);
      id := EncodeCrockford(raw);
      TimestampIsPrefix(id, raw);
      RandFits(old(lastRand[..]));
      RandFits(lastRand[..]);
      StepsUp(old(lastMS), lastMS, old(Rand()), Rand());
    }

    method FillFrom(entropy: seq<nat>)
      requires Valid() && |entropy| == 10 && Digits(256, entropy)
      modifies lastRand
      ensures lastRand[..] == entropy && Valid()
    {
      var i := 0;
      while i < 10
        invariant 0 <= i <= 10
        invariant lastRand[..i] == entropy[..i]
      {
        lastRand[i] := entropy[i];
        i := i + 1;
      }
    }
  }

  /** The 16 bytes laid out for an identity. */
  lemma RawIsNumber(ms: nat, rand: seq<nat>, raw: seq<nat>)
    requires ms < TWO_48 && |rand| == 10 && Digits(256, rand)
    requires raw == BigEndian(ms, 8)[2..8] + rand
    ensures |raw| == 16 && Digits(256, raw)
    ensures Num(256, raw) == ms * TWO_80 + Num(256, rand)
    ensures Num(256, raw[..6]) == ms
  {
    TopBytesDrop(ms, 6);
    Widths();
    BigEndianWrites(ms, 6);
    assert BigEndian(ms, 8)[2..8] == BigEndian(ms, 6) == raw[..6];
    NumSplit(256, BigEndian(ms, 6), rand);
  }

  lemma RandFits(rand: seq<nat>)
    requires |rand| == 10 && Digits(256, rand)
    ensures Num(256, rand) < TWO_80
  {
    NumBounded(256, rand);
    Widths();
  }

  lemma StepsUp(m: nat, n: nat, x: nat, y: nat)
    requires x < TWO_80 && y < TWO_80 && n >= m
    ensures n * TWO_80 + y > m * TWO_80 + x <==> n > m || y > x
  {
  }

  /** The first ten characters hold exactly the first six bytes. */
  lemma TimestampIsPrefix(id: string, raw: seq<nat>)
    requires |raw| == 16 && Digits(256, raw) && Spells(id, raw)
    ensures Num(32, Values(id)[..10]) == Num(256, raw[..6])
  {
    BitsOfPrefix(raw, 6);
    BytesAreBits(raw[..6]);
    assert Num(32, Values(id)[..10]) == Num(2, Bits(raw)[..5 * 10 - 2]);
  }

  /** Counting up through a run of 255s; i is where the carry stopped, or -1 when it ran off the front. */
  lemma {:induction false} CarryAdds(was: seq<nat>, now: seq<nat>, i: int)
    requires |was| == |now| && -1 <= i < |was| && Digits(256, was)
    requires forall k :: 0 <= k < i ==> now[k] == was[k]
    requires i >= 0 ==> now[i] == was[i] + 1 < 256
    requires forall k :: i < k < |was| ==> was[k] == 255 && now[k] == 0
    ensures if i >= 0 then Num(256, now) == Num(256, was) + 1
            else Num(256, now) == 0 && Num(256, was) == Pow(256, |was|) - 1
    ensures i >= 0 ==> Num(256, was) < Pow(256, |was|) - 1
    ensures Digits(256, now)
    decreases |was|
  {
    if was != [] {
      var n := |was| - 1;
      if i == n {
        assert was[..n] == now[..n];
        NumBounded(256, was[..n]);
      } else {
        CarryAdds(was[..n], now[..n], i);
      }
    }
  }

  // ---------- the shape test ----------

  method CrockfordValue(c: char) returns (v: int)
    ensures v == ValueOf(c)
  {
    var i := 0;
    while i < |CROCKFORD|
      invariant 0 <= i <= 32
      invariant ValueFrom(c, 0) == ValueFrom(c, i)
    {
      if CROCKFORD[i] == c {
        return i;
      }
      i := i + 1;
    }
    v := -1;
  }

  method IsIdentityShaped(s: string) returns (ok: bool)
    ensures ok == Shaped(s)
  {
    if |s| != ID_LEN {
      return false;
    }
    var i := 0;
    while i < |s|
      invariant 0 <= i <= |s|
      invariant forall k :: 0 <= k < i ==> ValueOf(s[k]) >= 0
    {
      var v := CrockfordValue(s[i]);
      if v < 0 {
        return false;
      }
      i := i + 1;
    }
    ok := true;
  }

  /** The last sixteen characters hold exactly the random half. */
  lemma RandIsSuffix(id: string, ms: nat, rand: nat)
    requires Shaped(id) && Num(32, Values(id)) == ms * TWO_80 + rand && Num(32, Values(id)[..10]) == ms
    ensures Num(32, Values(id)[10..]) == rand
  {
    var ds := Values(id);
    assert ds == ds[..10] + ds[10..];
    NumSplit(32, ds[..10], ds[10..]);
    assert Pow(32, 4) == 0x10_0000 && Pow(32, 8) == 0x100_0000_0000;
    assert Pow(32, 12) == 0x1000_0000_0000_0000 && Pow(32, 16) == TWO_80;
  }

  lemma SameCharsSameDigits(s: string, t: string, n: nat)
    requires Shaped(s) && Shaped(t) && n <= ID_LEN
    ensures s[..n] == t[..n] <==> Values(s)[..n] == Values(t)[..n]
  {
    var a, b := Values(s)[..n], Values(t)[..n];
    forall i | 0 <= i < n ensures s[..n][i] == t[..n][i] <==> a[i] == b[i] {
      CharOrder(s[i], t[i]);
    }
  }

  lemma SamePrefix(s: string, t: string, n: nat)
    requires Shaped(s) && Shaped(t) && n <= ID_LEN
    ensures s[..n] == t[..n] <==> Num(32, Values(s)[..n]) == Num(32, Values(t)[..n])
  {
    SameCharsSameDigits(s, t, n);
    LessIsNumLess(32, Values(s)[..n], Values(t)[..n]);
  }

  /** The one case the source does not guard: the same timestamp again, after a full random half. */
  ghost predicate Wraps(first: string, second: string)
    requires Shaped(first) && Shaped(second)
  {
    second[..10] == first[..10] && Num(32, Values(first)[10..]) == TWO_80 - 1
  }

  /** The identity the source gave out last. */
  ghost predicate GivenLast(source: Source, id: string)
    reads source, source.lastRand
  {
    && Shaped(id)
    && Num(32, Values(id)) == source.Last()
    && Num(32, Values(id)[..10]) == source.lastMS
  }

  /** The identity after another: it sorts after it as a string, whatever the clock says, unless it wraps. */
  method NextAfter(source: Source, ghost last: string, now: nat, entropy: seq<nat>) returns (id: string)
    requires source.Valid() && GivenLast(source, last)
    requires now < TWO_48 && |entropy| == 10 && Digits(256, entropy)
    modifies source, source.lastRand
    ensures source.Valid() && source.lastRand == old(source.lastRand) && GivenLast(source, id)
    ensures Before(last, id) <==> !Wraps(last, id)
  {
    RandIsSuffix(last, source.lastMS, source.Rand());
    id := source.Next(now, entropy);
    SortedByNumber(last, id);
    SamePrefix(last, id, 10);
  }

  /** Strictly ascending, each after the one before. */
  ghost predicate Climbs(ids: seq<string>) {
    forall k :: 0 < k < |ids| ==> Before(ids[k - 1], ids[k])
  }

  lemma {:induction false} RiseThroughout(nums: seq<nat>, i: nat, j: nat)
    requires forall k :: 0 < k < |nums| ==> nums[k - 1] < nums[k]
    requires i < j < |nums|
    ensures nums[i] < nums[j]
    decreases j
  {
    if i < j - 1 {
      RiseThroughout(nums, i, j - 1);
    }
  }

  ghost predicate AllShaped(ids: seq<string>) {
    forall k :: 0 <= k < |ids| ==> Shaped(ids[k])
  }

  ghost predicate Sorted(ids: seq<string>) {
    forall i, j :: 0 <= i < j < |ids| ==> Before(ids[i], ids[j])
  }

  ghost function Numbers(ids: seq<string>): (nums: seq<nat>)
    requires AllShaped(ids)
    ensures |nums| == |ids| && forall k :: 0 <= k < |ids| ==> nums[k] == Num(32, Values(ids[k]))
  {
    seq(|ids|, k requires 0 <= k < |ids| => Num(32, Values(ids[k])))
  }

  /** A run of identities none of which wraps past the one before it ascends from end to end. */
  lemma ClimbsThroughout(ids: seq<string>)
    requires AllShaped(ids) && Climbs(ids)
    ensures Sorted(ids)
  {
    var nums := Numbers(ids);
    forall k | 0 < k < |nums| ensures nums[k - 1] < nums[k] {
      SortedByNumber(ids[k - 1], ids[k]);
    }
    forall i, j | 0 <= i < j < |ids| ensures Before(ids[i], ids[j]) {
      RiseThroughout(nums, i, j);
      SortedByNumber(ids[i], ids[j]);
    }
  }

  /** No identity of the chain is the one past a full random half under a clock that has not moved on. */
  ghost predicate NeverWraps(ids: seq<string>)
    requires AllShaped(ids)
  {
    forall k :: 0 < k < |ids| ==> !Wraps(ids[k - 1], ids[k])
  }

  /** Both are identities, and the second sorts after the first unless it wraps. */
  ghost predicate ClimbsOrWraps(first: string, second: string) {
    Shaped(first) && Shaped(second) && (Before(first, second) <==> !Wraps(first, second))
  }

  lemma SortedUnlessWrapping(chain: seq<string>)
    requires AllShaped(chain) && forall k :: 0 < k < |chain| ==> ClimbsOrWraps(chain[k - 1], chain[k])
    ensures Sorted(chain) <==> NeverWraps(chain)
  {
    if NeverWraps(chain) {
      ClimbsThroughout(chain);
    }
  }

  /** One source under any run of clock readings, repeated and backward ones included. */
  method MintAll(source: Source, ghost last: string, readings: seq<(nat, seq<nat>)>) returns (ids: seq<string>)
    requires source.Valid() && GivenLast(source, last)
    requires forall k :: 0 <= k < |readings| ==> readings[k].0 < TWO_48 && |readings[k].1| == 10 && Digits(256, readings[k].1)
    modifies source, source.lastRand
    ensures |ids| == |readings| && AllShaped([last] + ids)
    ensures Sorted([last] + ids) <==> NeverWraps([last] + ids)
  {
    ids := [];
    ghost var chain := [last];
    var i := 0;
    while i < |readings|
      invariant 0 <= i <= |readings| && |ids| == i && chain == [last] + ids
      invariant source.Valid() && source.lastRand == old(source.lastRand) && GivenLast(source, chain[i])
      invariant forall k :: 0 < k < |chain| ==> ClimbsOrWraps(chain[k - 1], chain[k])
    {
      var id := NextAfter(source, chain[i], readings[i].0, readings[i].1);
      assert ClimbsOrWraps(chain[i], id);
      ids := ids + [id];
      chain := chain + [id];
      i := i + 1;
    }
    forall k | 0 <= k < |chain| ensures Shaped(chain[k]) {
      assert k > 0 ==> ClimbsOrWraps(chain[k - 1], chain[k]);
      assert k == 0 ==> chain[k] == last;
    }
    SortedUnlessWrapping(chain);
  }
}
