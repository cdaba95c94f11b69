/** Cutting a text to a number of UTF-8 bytes (RFC 3629, section 3). */
module Truncation {
  /** A code point of an ECMAScript string; one in the surrogate range is a surrogate without its partner. */
  type Rune = r: int | 0 <= r <= 0x10FFFF
  type Byte = b: int | 0 <= b <= 0xFF
  type Text = seq<Rune>

  const REPLACEMENT: Rune := 0xFFFD
  const BYTE_ORDER_MARK: Rune := 0xFEFF

  predicate Lone(r: Rune) { 0xD800 <= r <= 0xDFFF }
  predicate Continuation(b: int) { 0x80 <= b < 0xC0 }
  predicate Ascii(t: Text) { forall r | r in t :: r < 0x80 }

  // ---- encoding ----

  function EncodeRune(r: Rune): (bytes: seq<Byte>)
    ensures 1 <= |bytes| <= 4 && !Continuation(bytes[0]) && forall i | 1 <= i < |bytes| :: Continuation(bytes[i])
  {
    if r < 0x80 then [r]
    else if r < 0x800 then [0xC0 + r / 64, 0x80 + r % 64]
    else if Lone(r) then [0xEF, 0xBF, 0xBD]
    else if r < 0x10000 then [0xE0 + r / 4096, 0x80 + r / 64 % 64, 0x80 + r % 64]
    else [0xF0 + r / 262144, 0x80 + r / 4096 % 64, 0x80 + r / 64 % 64, 0x80 + r % 64]
  }

  /** What `TextEncoder` produces: a lone surrogate becomes the replacement character. */
  function Encode(t: Text): seq<Byte> {
    if t == [] then [] else EncodeRune(t[0]) + Encode(t[1..])
  }

  function Repair(t: Text): Text {
    if t == [] then [] else [if Lone(t[0]) then REPLACEMENT else t[0]] + Repair(t[1..])
  }

  // ---- decoding ----

  function Width(lead: Byte): nat {
    if lead < 0x80 then 1 else if 0xC2 <= lead < 0xE0 then 2 else if 0xE0 <= lead < 0xF0 then 3
    else if 0xF0 <= lead < 0xF5 then 4 else 0
  }

  /** The bytes start with one whole sequence: the shortest form of a code point that is no surrogate. */
  predicate Complete(bytes: seq<Byte>) {
    bytes != [] && 0 < Width(bytes[0]) <= |bytes| && (forall i | 1 <= i < Width(bytes[0]) :: Continuation(bytes[i]))
    && 0 <= Payload(bytes) <= 0x10FFFF && Shortest(Payload(bytes)) == Width(bytes[0]) && !Lone(Payload(bytes))
  }

  function Shortest(r: Rune): nat {
    if r < 0x80 then 1 else if r < 0x800 then 2 else if r < 0x10000 then 3 else 4
  }

  function Payload(bytes: seq<Byte>): int
    requires bytes != [] && 0 < Width(bytes[0]) <= |bytes|
    requires forall i | 1 <= i < Width(bytes[0]) :: Continuation(bytes[i])
  {
    var at := (i: int) requires 0 <= i < |bytes| => bytes[i] as int;
    match Width(bytes[0])
    case 1 => at(0)
    case 2 => (at(0) - 0xC0) * 64 + (at(1) - 0x80)
    case 3 => (at(0) - 0xE0) * 4096 + (at(1) - 0x80) * 64 + (at(2) - 0x80)
    case _ => (at(0) - 0xF0) * 262144 + (at(1) - 0x80) * 4096 + (at(2) - 0x80) * 64 + (at(3) - 0x80)
  }

  /** The byte may stand at `n` after the lead: it rules out long forms, surrogates and too large code points. */
  predicate Follows(lead: Byte, n: nat, b: Byte) {
    && Continuation(b)
    && (n == 1 ==> (lead == 0xE0 ==> 0xA0 <= b) && (lead == 0xED ==> b < 0xA0)
                   && (lead == 0xF0 ==> 0x90 <= b) && (lead == 0xF4 ==> b < 0x90))
  }

  /** How many bytes in front belong together, given that the first `n` do. */
  function Together(bytes: seq<Byte>, n: nat): (m: nat)
    requires 1 <= n <= |bytes|
    ensures n <= m <= |bytes| && (n <= Width(bytes[0]) ==> m <= Width(bytes[0]))
    ensures forall i | n <= i < m :: Follows(bytes[0], i, bytes[i])
    ensures m < Width(bytes[0]) && m < |bytes| ==> !Follows(bytes[0], m, bytes[m])
    decreases |bytes| - n
  {
    if n < Width(bytes[0]) && n < |bytes| && Follows(bytes[0], n, bytes[n]) then Together(bytes, n + 1) else n
  }

  /** Bytes that begin a sequence and do not complete it are replaced together (Encoding Standard, section 8.1.1). */
  function Decode(bytes: seq<Byte>): Text
    decreases |bytes|
  {
    if bytes == [] then []
    else if Complete(bytes) then [Payload(bytes)] + Decode(bytes[Width(bytes[0])..])
    else [REPLACEMENT] + Decode(bytes[Together(bytes, 1)..])
  }

  /** What `TextDecoder` returns: a byte order mark in front is not part of the text. */
  function DecodeText(bytes: seq<Byte>): Text {
    var t := Decode(bytes);
    if t != [] && t[0] == BYTE_ORDER_MARK then t[1..] else t
  }

  /** The base-64 digits of a code point. */
  lemma Digits(r: Rune)
    ensures r / 4096 == r / 64 / 64 && r / 262144 == r / 4096 / 64
    ensures r == r / 64 * 64 + r % 64
    ensures r / 64 == r / 4096 * 64 + r / 64 % 64
    ensures r / 4096 == r / 262144 * 64 + r / 4096 % 64
  {
  }

  lemma DecodeTwo(r: Rune, rest: seq<Byte>)
    requires 0x80 <= r < 0x800
    ensures var bytes := EncodeRune(r) + rest; Width(bytes[0]) == 2 && Complete(bytes) && Payload(bytes) == r
  {
    var bytes := EncodeRune(r) + rest;
    assert bytes[0] == 0xC0 + r / 64 && bytes[1] == 0x80 + r % 64;
  }

  lemma DecodeThree(r: Rune, rest: seq<Byte>)
    requires 0x800 <= r < 0x10000
    ensures var bytes := EncodeRune(r) + rest;
            Width(bytes[0]) == 3 && Complete(bytes) && Payload(bytes) == if Lone(r) then REPLACEMENT else r
  {
    var bytes := EncodeRune(r) + rest;
    if Lone(r) {
      assert bytes[0] == 0xEF && bytes[1] == 0xBF && bytes[2] == 0xBD;
    } else {
      Digits(r);
      assert bytes[0] == 0xE0 + r / 4096 && bytes[1] == 0x80 + r / 64 % 64 && bytes[2] == 0x80 + r % 64;
      hide EncodeRune;
    }
  }

  lemma DecodeFour(r: Rune, rest: seq<Byte>)
    requires 0x10000 <= r
    ensures var bytes := EncodeRune(r) + rest; Width(bytes[0]) == 4 && Complete(bytes) && Payload(bytes) == r
  {
    var bytes := EncodeRune(r) + rest;
    Digits(r);
    assert bytes[0] == 0xF0 + r / 262144 && bytes[1] == 0x80 + r / 4096 % 64;
    assert bytes[2] == 0x80 + r / 64 % 64 && bytes[3] == 0x80 + r % 64;
    hide EncodeRune;
  }

  lemma DecodeRune(r: Rune, rest: seq<Byte>)
    ensures Complete(EncodeRune(r) + rest)
    ensures Width((EncodeRune(r) + rest)[0]) == |EncodeRune(r)|
    ensures Payload(EncodeRune(r) + rest) == if Lone(r) then REPLACEMENT else r
  {
    if r < 0x80 {
      assert (EncodeRune(r) + rest)[0] == r;
    } else if r < 0x800 {
      DecodeTwo(r, rest);
    } else if r < 0x10000 {
      DecodeThree(r, rest);
    } else {
      DecodeFour(r, rest);
    }
  }

  /** A sequence is whole exactly when as many bytes belong together as its lead announces. */
  lemma WholeSequence(bytes: seq<Byte>)
    requires bytes != [] && Width(bytes[0]) > 0
    ensures Complete(bytes) <==> Together(bytes, 1) == Width(bytes[0])
  {
    var m := Together(bytes, 1);
    assert m == Width(bytes[0]) ==> forall i | 1 <= i < m :: Follows(bytes[0], i, bytes[i]);
  }

  lemma RuneFollows(r: Rune)
    ensures var bytes := EncodeRune(r);
            Width(bytes[0]) == |bytes| && forall i | 1 <= i < |bytes| :: Follows(bytes[0], i, bytes[i])
  {
    if r >= 0x800 && !Lone(r) { Digits(r); }
  }

  /** A code point cut short decodes to one replacement character. */
  lemma DecodePart(r: Rune, n: nat)
    requires 0 < n < |EncodeRune(r)|
    ensures Decode(EncodeRune(r)[..n]) == [REPLACEMENT]
  {
    var bytes := EncodeRune(r)[..n];
    RuneFollows(r);
    hide EncodeRune, Width, Follows;
    assert Together(bytes, 1) == n;
    assert bytes[n..] == [];
  }

  /** Decoding what was encoded gives the text back, with lone surrogates replaced. */
  lemma {:induction false} DecodeEncode(t: Text)
    ensures Decode(Encode(t)) == Repair(t)
    decreases t
  {
    if t != [] {
      DecodeRune(t[0], Encode(t[1..]));
      DecodeEncode(t[1..]);
      var bytes := EncodeRune(t[0]) + Encode(t[1..]);
      assert bytes[|EncodeRune(t[0])|..] == Encode(t[1..]);
      hide Complete, Payload, EncodeRune;
    }
  }

  lemma {:induction false} RepairEncodes(t: Text)
    ensures Encode(Repair(t)) == Encode(t) && |Repair(t)| == |t|
    ensures Repair(t) == t <==> forall r | r in t :: !Lone(r)
    decreases t
  {
    if t != [] {
      RepairEncodes(t[1..]);
      assert t == [t[0]] + t[1..] && Repair(t)[1..] == Repair(t[1..]);
      assert EncodeRune(REPLACEMENT) == [0xEF, 0xBF, 0xBD];
      hide EncodeRune;
    }
  }

  // ---- boundaries ----

  lemma {:induction false} EncodeAppend(a: Text, b: Text)
    ensures Encode(a + b) == Encode(a) + Encode(b)
    decreases a
  {
    hide EncodeRune;
    if a == [] {
      assert a + b == b;
    } else {
      assert (a + b)[1..] == a[1..] + b;
      EncodeAppend(a[1..], b);
    }
  }

  /** A byte that continues nothing starts a code point. */
  lemma {:induction false} StartsRune(t: Text, e: nat)
    requires e < |Encode(t)| && !Continuation(Encode(t)[e])
    ensures exists k: nat :: k < |t| && |Encode(t[..k])| == e
    decreases t
  {
    var first := EncodeRune(t[0]);
    assert Encode(t) == first + Encode(t[1..]);
    if e < |first| {
      assert Encode(t)[e] == first[e];
      assert e == 0 && t[..0] == [];
    } else {
      assert Encode(t)[e] == Encode(t[1..])[e - |first|];
      StartsRune(t[1..], e - |first|);
      var k: nat :| k < |t[1..]| && |Encode(t[1..][..k])| == e - |first|;
      assert t[..k + 1] == [t[0]] + t[1..][..k];
      assert t[..k + 1][1..] == t[1..][..k];
    }
  }

  lemma RuneStarts(t: Text, k: nat)
    requires k < |t|
    ensures var e := |Encode(t[..k])|; e < |Encode(t)| && !Continuation(Encode(t)[e])
    ensures Encode(t)[..|Encode(t[..k])|] == Encode(t[..k])
  {
    EncodeAppend(t[..k], t[k..]);
    assert t == t[..k] + t[k..];
    assert Encode(t[k..]) == EncodeRune(t[k]) + Encode(t[k..][1..]);
    hide EncodeRune;
  }

  /** The longest prefix of whole code points that fits in `budget` bytes has `k` of them. */
  ghost predicate Fits(t: Text, budget: nat, k: nat) {
    k <= |t| && |Encode(t[..k])| <= budget && forall j | k < j <= |t| :: |Encode(t[..j])| > budget
  }

  lemma {:induction false} LongerEncodes(t: Text, j: nat, k: nat)
    requires j <= k <= |t|
    ensures |Encode(t[..j])| <= |Encode(t[..k])|
  {
    EncodeAppend(t[..j], t[j..k]);
    assert t[..k] == t[..j] + t[j..k];
  }

  // ---- truncation ----

  predicate StartsWithMark(t: Text) { t != [] && t[0] == BYTE_ORDER_MARK }

  function WithoutMark(t: Text): Text { if StartsWithMark(t) then t[1..] else t }

  /** The result for a text too long, whose longest fitting prefix has `k` code points. */
  function Cut(value: Text, marker: Text, k: nat): Text
    requires k <= |value|
  {
    WithoutMark(Repair(value[..k])) + marker
  }

  /** What is left of a marker cut after `k` whole code points and, when `part`, some bytes of the next one. */
  function CutMarker(marker: Text, k: nat, part: bool): Text
    requires k <= |marker|
  {
    WithoutMark(Repair(marker[..k]) + if part then [REPLACEMENT] else [])
  }

  /** One or two bytes of a code point are left over, and the three of the replacement character take their place. */
  predicate Spills(marker: Text, maxBytes: nat, k: nat)
    requires k <= |marker|
  {
    0 < maxBytes - |Encode(marker[..k])| < 3 && !StartsWithMark(marker[..k])
  }

  method TruncateUtf8(value: Text, maxBytes: nat, marker: Text) returns (result: Text, ghost k: nat)
    ensures |Encode(value)| <= maxBytes ==> result == value
    ensures |Encode(value)| > maxBytes > |Encode(marker)| ==>
              Fits(value, maxBytes - |Encode(marker)|, k) && result == Cut(value, marker, k)
    ensures |Encode(value)| > maxBytes && |Encode(marker)| >= maxBytes ==>
              Fits(marker, maxBytes, k) && result == CutMarker(marker, k, |Encode(marker[..k])| < maxBytes)
    ensures |Encode(result)| <= maxBytes
            <==> !(|Encode(value)| > maxBytes && |Encode(marker)| >= maxBytes && Spills(marker, maxBytes, k))
  {
    var encoded := Encode(value);
    k := 0;
    if |encoded| <= maxBytes {
      return value, 0;
    }
    var markerBytes := Encode(marker);
    if |markerBytes| >= maxBytes {
      result := DecodeText(markerBytes[..maxBytes]);
      k := MarkerCut(marker, maxBytes);
      return;
    }
    var available := maxBytes - |markerBytes|;
    var end := available;
    while end > 0 && Continuation(encoded[end])
      invariant 0 <= end <= available && forall i | end < i <= available :: Continuation(encoded[i])
    {
      end := end - 1;
    }
    if end == 0 { FirstStarts(value); }
    StartsRune(value, end);
    k :| k < |value| && |Encode(value[..k])| == end;
    RuneStarts(value, k);
    MaximalCut(value, available, end, k);
    DecodeEncode(value[..k]);
    CutLength(value, marker, k);
    hide Decode, Encode, Repair;
    var prefix := DecodeText(encoded[..end]);
    result := prefix + marker;
  }

  lemma FirstStarts(t: Text)
    requires t != []
    ensures Encode(t) != [] && !Continuation(Encode(t)[0])
  {
    assert Encode(t)[0] == EncodeRune(t[0])[0];
  }

  lemma MaximalCut(value: Text, available: nat, end: nat, k: nat)
    requires end <= available < |Encode(value)| && k < |value| && |Encode(value[..k])| == end
    requires forall i | end < i <= available :: Continuation(Encode(value)[i])
    ensures Fits(value, available, k)
  {
    forall j | k < j <= |value| ensures |Encode(value[..j])| > available {
      LongerEncodes(value, k + 1, j);
      var next := |Encode(value[..k + 1])|;
      assert value[..k + 1] == value[..k] + [value[k]];
      EncodeAppend(value[..k], [value[k]]);
      assert Encode([value[k]]) == EncodeRune(value[k]) + Encode([value[k]][1..]);
      assert next > end;
      if k + 1 < |value| { RuneStarts(value, k + 1); } else { assert value[..k + 1] == value; }
      hide Encode, EncodeRune;
    }
  }

  lemma MarkLength(t: Text)
    ensures |Encode(WithoutMark(t))| == |Encode(t)| - if StartsWithMark(t) then 3 else 0
  {
    if StartsWithMark(t) {
      assert t == [t[0]] + t[1..];
      assert |EncodeRune(t[0])| == 3;
    }
  }

  lemma CutLength(value: Text, marker: Text, k: nat)
    requires k <= |value|
    ensures |Encode(Cut(value, marker, k))| <= |Encode(value[..k])| + |Encode(marker)|
  {
    hide Encode;
    RepairEncodes(value[..k]);
    MarkLength(Repair(value[..k]));
    EncodeAppend(WithoutMark(Repair(value[..k])), marker);
  }

  lemma PrefixCons(t: Text, j: nat)
    requires 0 < j <= |t|
    ensures Encode(t[..j]) == EncodeRune(t[0]) + Encode(t[1..][..j - 1])
    ensures Repair(t[..j]) == Repair([t[0]]) + Repair(t[1..][..j - 1])
  {
    assert t[..j][1..] == t[1..][..j - 1];
  }

  lemma FitsCons(t: Text, n: nat, k: nat)
    requires t != [] && n >= |EncodeRune(t[0])| && Fits(t[1..], n - |EncodeRune(t[0])|, k)
    ensures Fits(t, n, k + 1)
  {
    hide Encode, EncodeRune, Repair;
    forall j | 0 < j <= |t| ensures |Encode(t[..j])| == |EncodeRune(t[0])| + |Encode(t[1..][..j - 1])| {
      PrefixCons(t, j);
    }
  }

  lemma FitsNone(t: Text, n: nat)
    requires t != [] ==> n < |EncodeRune(t[0])|
    ensures Fits(t, n, 0)
  {
    hide EncodeRune;
    forall j | 0 < j <= |t| ensures |Encode(t[..j])| > n {
      PrefixCons(t, j);
    }
  }

  /** Bytes cut anywhere decode to the whole code points in them and one replacement character for the rest. */
  lemma {:induction false} DecodeCut(t: Text, n: nat) returns (k: nat)
    requires n <= |Encode(t)|
    ensures Fits(t, n, k) && n - |Encode(t[..k])| < 4
    ensures Decode(Encode(t)[..n]) == Repair(t[..k]) + if |Encode(t[..k])| < n then [REPLACEMENT] else []
    decreases t
  {
    hide Fits, EncodeRune, Complete, Payload, Width, Together;
    if t == [] || n < |EncodeRune(t[0])| {
      k := 0;
      FitsNone(t, n);
      if n > 0 {
        DecodePart(t[0], n);
        assert Encode(t)[..n] == EncodeRune(t[0])[..n];
      }
    } else {
      var first, rest := EncodeRune(t[0]), Encode(t[1..]);
      var m := n - |first|;
      k := DecodeCut(t[1..], m);
      FitsCons(t, n, k);
      DecodeRune(t[0], rest[..m]);
      var bytes := first + rest[..m];
      assert Encode(t)[..n] == bytes && bytes[|first|..] == rest[..m];
      k := k + 1;
      FitsWhole(t, n, k);
      PrefixCons(t, k);
    }
  }

  lemma FitsWhole(t: Text, n: nat, k: nat)
    requires Fits(t, n, k)
    ensures k <= |t| && |Encode(t[..k])| <= n
  {
  }

  lemma MarkerLength(marker: Text, maxBytes: nat, k: nat)
    requires Fits(marker, maxBytes, k)
    requires maxBytes - |Encode(marker[..k])| < 4
    ensures |Encode(CutMarker(marker, k, |Encode(marker[..k])| < maxBytes))| <= maxBytes
            <==> !Spills(marker, maxBytes, k)
  {
    var whole := Repair(marker[..k]);
    RepairEncodes(marker[..k]);
    assert StartsWithMark(whole) <==> StartsWithMark(marker[..k]);
    EncodeAppend(whole, [REPLACEMENT]);
    assert |Encode([REPLACEMENT])| == 3 by { assert [REPLACEMENT][1..] == []; }
    assert whole + [] == whole;
    MarkLength(whole);
    MarkLength(whole + [REPLACEMENT]);
    hide Encode, Repair;
  }

  lemma {:induction false} AsciiBytes(t: Text)
    requires Ascii(t)
    ensures |Encode(t)| == |t| && forall i | 0 <= i < |t| :: Encode(t)[i] == t[i]
    decreases t
  {
    if t != [] {
      var first := t[0];
      assert first in t && forall r | r in t[1..] :: r in t;
      AsciiBytes(t[1..]);
      assert Encode(t) == [first] + Encode(t[1..]);
    }
  }

  lemma MarkerCut(marker: Text, maxBytes: nat) returns (k: nat)
    requires maxBytes <= |Encode(marker)|
    ensures Fits(marker, maxBytes, k)
    ensures var result := DecodeText(Encode(marker)[..maxBytes]);
            && result == CutMarker(marker, k, |Encode(marker[..k])| < maxBytes)
            && (|Encode(result)| <= maxBytes <==> !Spills(marker, maxBytes, k))
  {
    k := DecodeCut(marker, maxBytes);
    MarkerLength(marker, maxBytes, k);
    hide Encode, Repair, Decode;
    assert Repair(marker[..k]) + [] == Repair(marker[..k]);
  }

  /** An ASCII marker is cut at its characters, and the result never has more than `maxBytes` bytes. */
  lemma AsciiCut(marker: Text, maxBytes: nat, k: nat)
    requires Ascii(marker) && maxBytes <= |marker| && Fits(marker, maxBytes, k)
    ensures CutMarker(marker, k, |Encode(marker[..k])| < maxBytes) == marker[..maxBytes] && !Spills(marker, maxBytes, k)
  {
    assert forall i | 0 <= i < |marker| :: marker[i] in marker;
    assert |Encode(marker[..maxBytes])| == maxBytes by { AsciiBytes(marker[..maxBytes]); }
    assert |Encode(marker[..k])| == k by { AsciiBytes(marker[..k]); }
    RepairEncodes(marker[..maxBytes]);
    hide Encode;
    assert k == maxBytes;
  }

  /**
   A text that is cut is the longest fitting prefix and the marker exactly when that prefix has no lone
   surrogate and does not start with a byte order mark.
   */
  lemma PrefixKept(value: Text, marker: Text, k: nat)
    requires k <= |value|
    ensures Cut(value, marker, k) == value[..k] + marker
            <==> (forall r | r in value[..k] :: !Lone(r)) && !StartsWithMark(value[..k])
  {
    var prefix := value[..k];
    RepairEncodes(prefix);
    var repaired := Repair(prefix);
    assert prefix != [] ==> repaired[0] == (if Lone(prefix[0]) then REPLACEMENT else prefix[0]);
    assert StartsWithMark(repaired) <==> StartsWithMark(prefix);
    if Cut(value, marker, k) == prefix + marker {
      assert |WithoutMark(repaired)| == |prefix|;
      assert (WithoutMark(repaired) + marker)[..|prefix|] == (prefix + marker)[..|prefix|];
    }
  }

  /** A byte order mark in front is lost as soon as its three bytes fit beside the marker. */
  lemma MarkIsLost(value: Text, budget: nat, k: nat)
    requires StartsWithMark(value) && Fits(value, budget, k)
    ensures StartsWithMark(value[..k]) <==> budget >= 3
  {
    assert value[..1] == [BYTE_ORDER_MARK];
    assert Encode([BYTE_ORDER_MARK]) == EncodeRune(BYTE_ORDER_MARK) + Encode([BYTE_ORDER_MARK][1..]);
    assert |Encode(value[..1])| == 3;
    if k >= 1 { LongerEncodes(value, 1, k); }
  }
}
