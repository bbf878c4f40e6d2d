/** Text as sequences of code points, its two encodings, and the order of its UTF-16 form. */
module Utf {
  import opened Records

  type CodePoint = c: int | 0 <= c < 0x110000
  type Byte = b: int | 0 <= b < 256
  type Text = seq<CodePoint>

  predicate Surrogate(c: CodePoint) { 0xD800 <= c <= 0xDFFF }

  const REPLACEMENT: CodePoint := 0xFFFD

  /** What `_validate_unicode` lets through. */
  predicate ValidUnicode(s: Text) { forall i | 0 <= i < |s| :: !Surrogate(s[i]) && s[i] != REPLACEMENT }

  // ---- UTF-8 ----

  function EncodeOne(c: CodePoint): (r: seq<Byte>)
    ensures 1 <= |r| <= 4
  {
    if c < 0x80 then [c]
    else if c < 0x800 then [0xC0 + c / 64, 0x80 + c % 64]
    else if c < 0x10000 then [0xE0 + c / 64 / 64, 0x80 + c / 64 % 64, 0x80 + c % 64]
    else [0xF0 + c / 64 / 64 / 64, 0x80 + c / 64 / 64 % 64, 0x80 + c / 64 % 64, 0x80 + c % 64]
  }

  function Encode(s: Text): seq<Byte> {
    if s == [] then [] else EncodeOne(s[0]) + Encode(s[1..])
  }

  predicate Continues(b: Byte) { 0x80 <= b < 0xC0 }

  /** Six more bits. */
  function Shift(high: int, b: Byte): int { high * 64 + (b as int - 0x80) }

  /** The strict decoder: no overlong form, no surrogate, nothing above U+10FFFF. */
  function DecodeOne(b: seq<Byte>): (r: Option<(CodePoint, seq<Byte>)>)
    ensures r.Some? ==> |r.value.1| < |b|
  {
    if b == [] then None
    else if b[0] < 0x80 then Some((b[0], b[1..]))
    else if 0xC0 <= b[0] < 0xE0 && 2 <= |b| && Continues(b[1]) then
      var c: int := Shift(b[0] as int - 0xC0, b[1]);
      if 0x80 <= c then Some((c, b[2..])) else None
    else if 0xE0 <= b[0] < 0xF0 && 3 <= |b| && Continues(b[1]) && Continues(b[2]) then
      var c: int := Shift(Shift(b[0] as int - 0xE0, b[1]), b[2]);
      if 0x800 <= c && !Surrogate(c) then Some((c, b[3..])) else None
    else if 0xF0 <= b[0] < 0xF8 && 4 <= |b| && Continues(b[1]) && Continues(b[2]) && Continues(b[3]) then
      var c: int := Shift(Shift(Shift(b[0] as int - 0xF0, b[1]), b[2]), b[3]);
      if 0x10000 <= c < 0x110000 then Some((c, b[4..])) else None
    else None
  }

  function Decode(b: seq<Byte>): Option<Text>
    decreases |b|
  {
    if b == [] then Some([])
    else
      match DecodeOne(b)
      case None => None
      case Some((c, rest)) =>
        match Decode(rest)
        case None => None
        case Some(s) => Some([c] + s)
  }

  lemma ShiftBack(c: int)
    requires 0 <= c
    ensures Shift(c / 64, 0x80 + c % 64) == c
  {
  }

  lemma ShiftParts(high: int, b: Byte)
    requires Continues(b)
    ensures Shift(high, b) / 64 == high && 0x80 + Shift(high, b) % 64 == b
  {
  }

  lemma DecodeEncodedOne(c: CodePoint, rest: seq<Byte>)
    requires !Surrogate(c)
    ensures DecodeOne(EncodeOne(c) + rest) == Some((c, rest))
  {
    hide Shift;
    var b := EncodeOne(c) + rest;
    assert b[|EncodeOne(c)|..] == rest;
    ShiftBack(c);
    ShiftBack(c / 64);
    ShiftBack(c / 64 / 64);
  }

  /** What is encoded is decoded to the same text. */
  lemma {:induction false} DecodeEncode(s: Text)
    requires forall i | 0 <= i < |s| :: !Surrogate(s[i])
    ensures Decode(Encode(s)) == Some(s)
  {
    if s != [] {
      DecodeEncodedOne(s[0], Encode(s[1..]));
      DecodeEncode(s[1..]);
      assert [s[0]] + s[1..] == s;
    }
  }

  lemma EncodeDecodedOne(b: seq<Byte>)
    requires DecodeOne(b).Some?
    ensures EncodeOne(DecodeOne(b).value.0) + DecodeOne(b).value.1 == b && !Surrogate(DecodeOne(b).value.0)
  {
    hide Shift;
    if 0xC0 <= b[0] < 0xE0 {
      ShiftParts(b[0] as int - 0xC0, b[1]);
      ShiftBound(b[0] as int - 0xC0, b[1]);
    } else if 0xE0 <= b[0] < 0xF0 {
      var x: int := b[0] as int - 0xE0;
      ShiftParts(x, b[1]);
      ShiftParts(Shift(x, b[1]), b[2]);
      ShiftBound(x, b[1]);
      ShiftBound(Shift(x, b[1]), b[2]);
    } else if 0xF0 <= b[0] {
      var x: int := b[0] as int - 0xF0;
      ShiftParts(x, b[1]);
      ShiftParts(Shift(x, b[1]), b[2]);
      ShiftParts(Shift(Shift(x, b[1]), b[2]), b[3]);
    }
  }

  lemma ShiftBound(high: int, b: Byte)
    requires Continues(b)
    ensures 64 * high <= Shift(high, b) < 64 * high + 64
  {
  }

  /** Strict UTF-8 has one byte form per text, and no surrogates. */
  lemma {:induction false} EncodeDecode(b: seq<Byte>)
    requires Decode(b).Some?
    ensures Encode(Decode(b).value) == b && forall i | 0 <= i < |Decode(b).value| :: !Surrogate(Decode(b).value[i])
    decreases |b|
  {
    if b != [] {
      EncodeDecodedOne(b);
      EncodeDecode(DecodeOne(b).value.1);
    }
  }

  /** Encoding pieces and joining them is encoding the joined text. */
  lemma {:induction false} EncodeConcat(s: Text, t: Text)
    ensures Encode(s + t) == Encode(s) + Encode(t)
  {
    if s == [] {
      assert s + t == t;
    } else {
      assert (s + t)[1..] == s[1..] + t;
      EncodeConcat(s[1..], t);
    }
  }

  // ---- UTF-16, big endian ----

  function Utf16One(c: CodePoint): (r: seq<Byte>)
    ensures |r| == 2 || |r| == 4
  {
    if c < 0x10000 then [c / 256, c % 256]
    else
      var hi, lo := 0xD800 + (c - 0x10000) / 1024, 0xDC00 + (c - 0x10000) % 1024;
      [hi / 256, hi % 256, lo / 256, lo % 256]
  }

  /** `_utf16_sort_key`. */
  function Utf16(s: Text): seq<Byte> {
    if s == [] then [] else Utf16One(s[0]) + Utf16(s[1..])
  }

  /** Python's order of byte strings. */
  predicate Less(a: seq<Byte>, b: seq<Byte>) {
    b != [] && (a == [] || a[0] < b[0] || (a[0] == b[0] && Less(a[1..], b[1..])))
  }

  lemma {:induction false} LessIrreflexive(a: seq<Byte>)
    ensures !Less(a, a)
  {
    if a != [] { LessIrreflexive(a[1..]); }
  }

  lemma {:induction false} LessTransitive(a: seq<Byte>, b: seq<Byte>, c: seq<Byte>)
    requires Less(a, b) && Less(b, c)
    ensures Less(a, c)
  {
    if a != [] && a[0] == b[0] == c[0] { LessTransitive(a[1..], b[1..], c[1..]); }
  }

  lemma {:induction false} LessTotal(a: seq<Byte>, b: seq<Byte>)
    ensures a == b || Less(a, b) || Less(b, a)
  {
    if a != [] && b != [] && a[0] == b[0] {
      LessTotal(a[1..], b[1..]);
      assert a == [a[0]] + a[1..] && b == [b[0]] + b[1..];
    }
  }

  lemma Utf16OneDiffers(c: CodePoint, d: CodePoint, s: seq<Byte>, t: seq<Byte>)
    requires !Surrogate(c) && !Surrogate(d) && Utf16One(c) + s == Utf16One(d) + t
    ensures c == d && s == t
  {
    var a, b := Utf16One(c) + s, Utf16One(d) + t;
    assert a[0] == Utf16One(c)[0] && b[0] == Utf16One(d)[0] && a[1] == Utf16One(c)[1] && b[1] == Utf16One(d)[1];
    if 0x10000 <= c && 0x10000 <= d {
      assert a[2] == Utf16One(c)[2] && b[2] == Utf16One(d)[2] && a[3] == Utf16One(c)[3] && b[3] == Utf16One(d)[3];
    }
    assert a[|Utf16One(c)|..] == s && b[|Utf16One(d)|..] == t;
  }

  /** The sort key determines the text, so that distinct keys never tie. */
  lemma {:induction false} Utf16Injective(s: Text, t: Text)
    requires ValidUnicode(s) && ValidUnicode(t) && Utf16(s) == Utf16(t)
    ensures s == t
  {
    if s != [] && t != [] {
      Utf16OneDiffers(s[0], t[0], Utf16(s[1..]), Utf16(t[1..]));
      Utf16Injective(s[1..], t[1..]);
      assert s == [s[0]] + s[1..] && t == [t[0]] + t[1..];
    }
  }

  /** The order is not that of code points: a surrogate pair sorts before U+FB33. */
  lemma Utf16OrderIsNotCodePointOrder()
    ensures Less(Utf16([0x1F600]), Utf16([0xFB33])) && 0xFB33 < 0x1F600
  {
    assert Utf16([0x1F600])[0] == 0xD8 && Utf16([0xFB33])[0] == 0xFB;
  }

  // ---- What the order is ----

  /** `a` is a proper prefix of `b`, or at the first place where they differ `a` has the smaller number. */
  ghost predicate Precedes(a: seq<int>, b: seq<int>) {
    || (|a| < |b| && b[..|a|] == a)
    || exists i :: 0 <= i < |a| && i < |b| && a[..i] == b[..i] && a[i] < b[i]
  }

  lemma PrecedesTail(x: int, a: seq<int>, y: int, b: seq<int>)
    ensures Precedes([x] + a, [y] + b) <==> x < y || (x == y && Precedes(a, b))
  {
    var s, t := [x] + a, [y] + b;
    assert s[1..] == a && t[1..] == b;
    if x == y && Precedes(a, b) {
      if |a| < |b| && b[..|a|] == a {
        assert t[..|s|] == [y] + b[..|a|];
      } else {
        var i :| 0 <= i < |a| && i < |b| && a[..i] == b[..i] && a[i] < b[i];
        assert s[..i + 1] == [x] + a[..i] && t[..i + 1] == [y] + b[..i] && s[i + 1] < t[i + 1];
      }
    } else if x < y {
      assert s[..0] == t[..0] && s[0] < t[0];
    }
    if Precedes(s, t) {
      if |s| < |t| && t[..|s|] == s {
        assert t[..|s|][0] == y && t[..|s|][1..] == b[..|a|];
      } else {
        var i :| 0 <= i < |s| && i < |t| && s[..i] == t[..i] && s[i] < t[i];
        if i > 0 {
          assert s[..i][0] == x && t[..i][0] == y;
          assert a[..i - 1] == s[..i][1..] && b[..i - 1] == t[..i][1..] && a[i - 1] < b[i - 1];
        }
      }
    }
  }

  /** The order of byte strings puts a proper prefix first, and else decides at the first difference. */
  lemma {:induction false} LessExactly(a: seq<Byte>, b: seq<Byte>)
    ensures Less(a, b) <==> Precedes(a, b)
  {
    if a != [] && b != [] {
      hide Precedes;
      LessExactly(a[1..], b[1..]);
      PrecedesTail(a[0], a[1..], b[0], b[1..]);
      assert [a[0]] + a[1..] == a && [b[0]] + b[1..] == b;
    }
  }

  /** The 16-bit code units of a text (section 2.1 of RFC 2781). */
  function CodeUnits(s: Text): seq<int> {
    if s == [] then []
    else if s[0] < 0x10000 then [s[0]] + CodeUnits(s[1..])
    else [0xD800 + (s[0] - 0x10000) / 0x400, 0xDC00 + (s[0] - 0x10000) % 0x400] + CodeUnits(s[1..])
  }

  /** Big-endian bytes are ordered as their units. */
  lemma UnitTail(u: int, a: seq<int>, v: int, b: seq<int>)
    requires 0 <= u < 0x10000 && 0 <= v < 0x10000
    ensures Precedes([u / 256, u % 256] + a, [v / 256, v % 256] + b) <==> u < v || (u == v && Precedes(a, b))
  {
    hide Precedes;
    PrecedesTail(u / 256, [u % 256] + a, v / 256, [v % 256] + b);
    PrecedesTail(u % 256, a, v % 256, b);
    assert [u / 256, u % 256] + a == [u / 256] + ([u % 256] + a);
    assert [v / 256, v % 256] + b == [v / 256] + ([v % 256] + b);
  }

  function UnitBytes(units: seq<int>): seq<int> {
    if units == [] then [] else [units[0] / 256, units[0] % 256] + UnitBytes(units[1..])
  }

  predicate Units(units: seq<int>) { forall u | u in units :: 0 <= u < 0x10000 }

  lemma {:induction false} UnitBytesOrder(a: seq<int>, b: seq<int>)
    requires Units(a) && Units(b)
    ensures Precedes(UnitBytes(a), UnitBytes(b)) <==> Precedes(a, b)
  {
    if a != [] && b != [] {
      hide Precedes;
      assert a[0] in a && b[0] in b && (forall u | u in a[1..] :: u in a) && (forall u | u in b[1..] :: u in b);
      UnitBytesOrder(a[1..], b[1..]);
      UnitTail(a[0], UnitBytes(a[1..]), b[0], UnitBytes(b[1..]));
      PrecedesTail(a[0], a[1..], b[0], b[1..]);
      assert [a[0]] + a[1..] == a && [b[0]] + b[1..] == b;
    } else {
      assert UnitBytes(a)[..0] == [] && UnitBytes(b)[..0] == [] && a[..0] == [] && b[..0] == [];
    }
  }

  lemma {:induction false} SortKeyBytes(s: Text)
    ensures Units(CodeUnits(s)) && UnitBytes(CodeUnits(s)) == Utf16(s)
  {
    if s != [] {
      SortKeyBytes(s[1..]);
      if s[0] < 0x10000 {
        var rest := CodeUnits(s[1..]);
        assert CodeUnits(s)[1..] == rest;
      } else {
        var hi, lo := 0xD800 + (s[0] - 0x10000) / 0x400, 0xDC00 + (s[0] - 0x10000) % 0x400;
        var rest := CodeUnits(s[1..]);
        assert CodeUnits(s)[1..] == [lo] + rest && ([lo] + rest)[1..] == rest;
      }
    }
  }

  /** Texts are ordered by their 16-bit code units, a proper prefix first (section 3.2.3 of RFC 8785). */
  lemma KeysByCodeUnits(s: Text, t: Text)
    ensures Less(Utf16(s), Utf16(t)) <==> Precedes(CodeUnits(s), CodeUnits(t))
  {
    hide Precedes;
    LessExactly(Utf16(s), Utf16(t));
    SortKeyBytes(s);
    SortKeyBytes(t);
    UnitBytesOrder(CodeUnits(s), CodeUnits(t));
  }
}
