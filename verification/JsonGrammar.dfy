/** The texts that the strict decoder reads: the grammar of JSON (RFC 8259, sections 2 to 7) without
    fractions, exponents and repeated names, as spellings written out token by token. */
module JsonGrammar {
  import opened Records
  import opened Utf
  import opened CanonicalJson
  import opened JsonDecoder

  // ---- Spellings ----

  /** A character of a string: as it is, by a short escape, by its code, or by a pair of surrogate codes. */
  datatype Piece = Plain(c: CodePoint) | Short(letter: CodePoint) | Code(hex: Text) | Pair(high: Text, low: Text)

  /** A value as it is spelled; the texts are white space, and around every item and member there may be
      some. */
  datatype Spelled =
    | SNull | STrue | SFalse
    | SInt(minus: bool, digits: Text)
    | SStr(pieces: seq<Piece>)
    | SNoItems(space: Text)
    | SArr(items: Items)
    | SNoMembers(space: Text)
    | SObj(members: Members)
  datatype Items =
    | LastItem(before: Text, v: Spelled, after: Text)
    | MoreItems(before: Text, v: Spelled, after: Text, more: Items)
  datatype Members =
    | LastMember(before: Text, name: seq<Piece>, colon: Text, gap: Text, v: Spelled, after: Text)
    | MoreMembers(before: Text, name: seq<Piece>, colon: Text, gap: Text, v: Spelled, after: Text, more: Members)

  const U_ESCAPE: Text := [BACKSLASH, 0x75]

  function PieceText(p: Piece): Text {
    match p
    case Plain(c) => [c]
    case Short(letter) => [BACKSLASH, letter]
    case Code(hex) => U_ESCAPE + hex
    case Pair(high, low) => U_ESCAPE + high + (U_ESCAPE + low)
  }

  function PiecesText(ps: seq<Piece>): Text { if ps == [] then [] else PieceText(ps[0]) + PiecesText(ps[1..]) }

  function StringText(ps: seq<Piece>): Text { [QUOTE] + (PiecesText(ps) + [QUOTE]) }

  function TextOf(s: Spelled): Text {
    match s
    case SNull => NULL_TEXT
    case STrue => TRUE_TEXT
    case SFalse => FALSE_TEXT
    case SInt(minus, digits) => (if minus then [MINUS] else []) + digits
    case SStr(ps) => StringText(ps)
    case SNoItems(space) => [0x5B] + (space + [0x5D])
    case SArr(items) => [0x5B] + ItemsText(items)
    case SNoMembers(space) => [0x7B] + (space + [0x7D])
    case SObj(members) => [0x7B] + MembersText(members)
  }

  function ItemsText(x: Items): Text {
    match x
    case LastItem(before, v, after) => before + (TextOf(v) + (after + [0x5D]))
    case MoreItems(before, v, after, more) => before + (TextOf(v) + (after + ([COMMA] + ItemsText(more))))
  }

  function MembersText(x: Members): Text {
    match x
    case LastMember(before, name, colon, gap, v, after) =>
      before + (StringText(name) + (colon + ([COLON] + (gap + (TextOf(v) + (after + [0x7D]))))))
    case MoreMembers(before, name, colon, gap, v, after, more) =>
      before + (StringText(name)
                + (colon + ([COLON] + (gap + (TextOf(v) + (after + ([COMMA] + MembersText(more))))))))
  }

  // ---- Meanings ----

  /** The value of a hexadecimal digit, in either case. */
  function HexDigit(c: CodePoint): int {
    if 0x30 <= c <= 0x39 then c as int - 0x30
    else if 0x41 <= c <= 0x46 then c as int - 0x37
    else if 0x61 <= c <= 0x66 then c as int - 0x57
    else -1
  }

  predicate FourHex(hex: Text) { |hex| == 4 && forall i | 0 <= i < 4 :: HexDigit(hex[i]) >= 0 }

  function HexNumber(hex: Text): int
    requires |hex| == 4
  {
    ((HexDigit(hex[0]) * 16 + HexDigit(hex[1])) * 16 + HexDigit(hex[2])) * 16 + HexDigit(hex[3])
  }

  predicate High(hex: Text) { FourHex(hex) && 0xD800 <= HexNumber(hex) <= 0xDBFF }

  predicate Low(hex: Text) { FourHex(hex) && 0xDC00 <= HexNumber(hex) <= 0xDFFF }

  /** The short escapes, by letter and by what they stand for. */
  const SHORT: map<CodePoint, CodePoint> :=
    map[0x22 := 0x22, 0x5C := 0x5C, 0x2F := 0x2F, 0x62 := 0x08, 0x66 := 0x0C, 0x6E := 0x0A, 0x72 := 0x0D, 0x74 := 0x09]

  predicate PieceOk(p: Piece) {
    match p
    case Plain(c) => c >= 0x20 && c != QUOTE && c != BACKSLASH
    case Short(letter) => letter in SHORT
    case Code(hex) => FourHex(hex)
    case Pair(high, low) => High(high) && Low(low)
  }

  /** Two codes that form a pair are one. */
  predicate PiecesOk(ps: seq<Piece>) {
    && (forall i | 0 <= i < |ps| :: PieceOk(ps[i]))
    && forall i | 0 < i < |ps| :: !(ps[i - 1].Code? && High(ps[i - 1].hex) && ps[i].Code? && Low(ps[i].hex))
  }

  function PieceMeans(p: Piece): CodePoint
    requires PieceOk(p)
  {
    match p
    case Plain(c) => c
    case Short(letter) => SHORT[letter]
    case Code(hex) => HexNumber(hex)
    case Pair(high, low) => 0x10000 + 1024 * (HexNumber(high) - 0xD800) + (HexNumber(low) - 0xDC00)
  }

  function PiecesMean(ps: seq<Piece>): (t: Text)
    requires forall i | 0 <= i < |ps| :: PieceOk(ps[i])
    ensures |t| == |ps|
  {
    seq(|ps|, i requires 0 <= i < |ps| => PieceMeans(ps[i]))
  }

  predicate Spaces(t: Text) { forall i | 0 <= i < |t| :: t[i] == 0x20 || t[i] == 0x09 || t[i] == 0x0A || t[i] == 0x0D }

  /** Digits without a leading zero. */
  predicate NaturalOk(digits: Text) {
    digits != [] && (forall i | 0 <= i < |digits| :: 0x30 <= digits[i] <= 0x39) && (digits[0] == 0x30 ==> |digits| == 1)
  }

  function Decimal(digits: Text): nat
    requires forall i | 0 <= i < |digits| :: 0x30 <= digits[i] <= 0x39
  {
    if digits == [] then 0 else 10 * Decimal(digits[..|digits| - 1]) + (digits[|digits| - 1] as int - 0x30)
  }

  predicate SpelledOk(s: Spelled)
    decreases s, 0
  {
    match s
    case SInt(_, digits) => NaturalOk(digits)
    case SStr(ps) => PiecesOk(ps)
    case SNoItems(space) => Spaces(space)
    case SArr(items) => ItemsOk(items)
    case SNoMembers(space) => Spaces(space)
    case SObj(members) => MembersOk(members) && DistinctKeys(MembersMean(members))
    case _ => true
  }

  predicate ItemsOk(x: Items)
    decreases x, 0
  {
    Spaces(x.before) && SpelledOk(x.v) && Spaces(x.after) && (x.MoreItems? ==> ItemsOk(x.more))
  }

  predicate MembersOk(x: Members)
    decreases x, 0
  {
    && Spaces(x.before) && PiecesOk(x.name) && Spaces(x.colon) && Spaces(x.gap) && SpelledOk(x.v) && Spaces(x.after)
    && (x.MoreMembers? ==> MembersOk(x.more))
  }

  function Means(s: Spelled): Json
    requires SpelledOk(s)
    decreases s, 1
  {
    match s
    case SNull => Null
    case STrue => Bool(true)
    case SFalse => Bool(false)
    case SInt(minus, digits) => Int(if minus then -(Decimal(digits) as int) else Decimal(digits))
    case SStr(ps) => Str(PiecesMean(ps))
    case SNoItems(_) => Arr([])
    case SArr(items) => Arr(ItemsMean(items))
    case SNoMembers(_) => Obj([])
    case SObj(members) => Obj(MembersMean(members))
  }

  function ItemsMean(x: Items): seq<Json>
    requires ItemsOk(x)
    decreases x, 1
  {
    [Means(x.v)] + (if x.MoreItems? then ItemsMean(x.more) else [])
  }

  function MembersMean(x: Members): seq<Entry<Json>>
    requires MembersOk(x)
    decreases x, 1
  {
    [Entry(PiecesMean(x.name), Means(x.v))] + (if x.MoreMembers? then MembersMean(x.more) else [])
  }

  // ---- White space ----

  lemma {:induction false} SpacesSkipped(space: Text, rest: Text)
    requires Spaces(space)
    ensures SkipSpace(space + rest) == SkipSpace(rest)
  {
    if space != [] {
      assert (space + rest)[0] == space[0] && (space + rest)[1..] == space[1..] + rest;
      SpacesSkipped(space[1..], rest);
    } else {
      assert space + rest == rest;
    }
  }

  /** What was skipped. */
  lemma {:induction false} Skipped(s: Text) returns (space: Text)
    ensures Spaces(space) && s == space + SkipSpace(s)
  {
    if s != [] && Space(s[0]) {
      var more := Skipped(s[1..]);
      space := [s[0]] + more;
      assert s == [s[0]] + s[1..];
    } else {
      space := [];
    }
  }

  // ---- Hexadecimal ----

  lemma HexReads(hex: Text, rest: Text)
    requires FourHex(hex)
    ensures ReadHex(hex + rest) == Some(HexNumber(hex))
    ensures 0 <= HexNumber(hex) < 0x10000
  {
    assert forall i | 0 <= i < 4 :: (hex + rest)[i] == hex[i];
    assert HexDigit(hex[0]) >= 0 && HexDigit(hex[1]) >= 0 && HexDigit(hex[2]) >= 0 && HexDigit(hex[3]) >= 0;
  }

  lemma HexWasRead(s: Text)
    requires ReadHex(s).Some?
    ensures FourHex(s[..4]) && ReadHex(s) == Some(HexNumber(s[..4]))
  {
    assert HexValue(s[0]).Some? && HexValue(s[1]).Some? && HexValue(s[2]).Some? && HexValue(s[3]).Some?;
    assert s[..4] + s[4..] == s;
    assert FourHex(s[..4]);
    HexReads(s[..4], s[4..]);
  }

  // ---- Strings ----

  lemma PlainReads(p: Piece, rest: Text)
    requires PieceOk(p) && (p.Plain? || p.Short?)
    ensures ReadChar(PieceText(p) + rest) == Some((PieceMeans(p), rest))
  {
    var s := PieceText(p) + rest;
    match p
    case Plain(c) => assert s[0] == c && s[1..] == rest;
    case Short(letter) =>
      assert s[0] == BACKSLASH && s[1] == letter && s[2..] == rest;
      assert SimpleEscape(letter) == Some(SHORT[letter]);
  }

  /** A code is read as one, unless it is the first half of a pair whose second half follows. */
  lemma CodeReads(hex: Text, rest: Text)
    requires FourHex(hex)
    requires !(High(hex) && 6 <= |rest| && rest[..2] == U_ESCAPE && Low(rest[2..6]))
    ensures ReadChar(U_ESCAPE + hex + rest) == Some((HexNumber(hex), rest))
  {
    var s := U_ESCAPE + hex + rest;
    assert s[0] == BACKSLASH && s[1] == 0x75 && s[2..] == hex + rest && s[6..] == rest;
    HexReads(hex, rest);
    if 12 <= |s| && s[6] == BACKSLASH && s[7] == 0x75 {
      assert rest[..2] == U_ESCAPE && s[8..] == rest[2..];
      if ReadHex(s[8..]).Some? {
        HexWasRead(rest[2..]);
        assert rest[2..][..4] == rest[2..6];
      }
    }
  }

  lemma PairReads(high: Text, low: Text, rest: Text)
    requires High(high) && Low(low)
    ensures ReadChar(PieceText(Pair(high, low)) + rest) == Some((PieceMeans(Pair(high, low)), rest))
  {
    var s := PieceText(Pair(high, low)) + rest;
    assert s[0] == BACKSLASH && s[1] == 0x75 && s[2..] == high + (U_ESCAPE + low + rest);
    assert s[6] == BACKSLASH && s[7] == 0x75 && s[8..] == low + rest && s[12..] == rest;
    HexReads(high, U_ESCAPE + low + rest);
    HexReads(low, rest);
  }

  /** What comes after a code in a string whose pairs are written as pairs. */
  lemma NoHalfFollows(ps: seq<Piece>, rest: Text)
    requires PiecesOk(ps) && ps != [] && ps[0].Code? && High(ps[0].hex)
    ensures var s := PiecesText(ps[1..]) + ([QUOTE] + rest);
            !(6 <= |s| && s[..2] == U_ESCAPE && Low(s[2..6]))
  {
    hide FourHex, HexNumber;
    var s, more := PiecesText(ps[1..]) + ([QUOTE] + rest), ps[1..];
    if more == [] {
      assert s[0] == QUOTE;
    } else {
      assert more[0] == ps[1] && PieceOk(ps[1]);
      assert s == PieceText(more[0]) + (PiecesText(more[1..]) + ([QUOTE] + rest));
      NoHalfStarts(more[0], PiecesText(more[1..]) + ([QUOTE] + rest));
    }
  }

  /** A text that starts like a second half starts with the code of one. */
  lemma NoHalfStarts(p: Piece, tail: Text)
    requires PieceOk(p) && !(p.Code? && Low(p.hex))
    ensures var s := PieceText(p) + tail; !(6 <= |s| && s[..2] == U_ESCAPE && Low(s[2..6]))
  {
    var s := PieceText(p) + tail;
    assert s[0] == PieceText(p)[0];
    match p
    case Plain(_) =>
    case Short(letter) => assert s[1] == letter;
    case Code(hex) => assert s[2..6] == hex;
    case Pair(high, _) => assert s[2..6] == high;
  }

  lemma RestOk(ps: seq<Piece>)
    requires PiecesOk(ps) && ps != []
    ensures PiecesOk(ps[1..]) && PiecesMean(ps) == [PieceMeans(ps[0])] + PiecesMean(ps[1..])
  {
    assert forall i | 0 <= i < |ps[1..]| :: ps[1..][i] == ps[i + 1];
  }

  lemma FirstPieceReads(ps: seq<Piece>, rest: Text)
    requires PiecesOk(ps) && ps != []
    ensures var after := PiecesText(ps[1..]) + ([QUOTE] + rest);
            && ReadChar(PieceText(ps[0]) + after) == Some((PieceMeans(ps[0]), after))
            && PieceText(ps[0])[0] != QUOTE
  {
    hide ReadChar, PiecesText, FourHex, HexNumber;
    var p, after := ps[0], PiecesText(ps[1..]) + ([QUOTE] + rest);
    match p
    case Plain(_) => PlainReads(p, after);
    case Short(_) => PlainReads(p, after);
    case Code(hex) =>
      if High(hex) { NoHalfFollows(ps, rest); }
      CodeReads(hex, after);
    case Pair(high, low) => PairReads(high, low, after);
  }

  lemma OneMoreChar(s: Text, c: CodePoint, rest: Text, t: Text, end: Text)
    requires s != [] && s[0] != QUOTE && ReadChar(s) == Some((c, rest)) && ReadString(rest) == Some((t, end))
    ensures ReadString(s) == Some(([c] + t, end))
  {
    hide ReadChar;
  }

  lemma FirstPiece(ps: seq<Piece>, tail: Text)
    requires ps != []
    ensures PiecesText(ps) + tail == PieceText(ps[0]) + (PiecesText(ps[1..]) + tail)
  {
    hide PieceText;
  }

  lemma {:induction false} StringReads(ps: seq<Piece>, rest: Text)
    requires PiecesOk(ps)
    ensures ReadString(PiecesText(ps) + ([QUOTE] + rest)) == Some((PiecesMean(ps), rest))
    decreases |ps|
  {
    var s := PiecesText(ps) + ([QUOTE] + rest);
    if ps == [] {
      assert s == [QUOTE] + rest && s[0] == QUOTE && s[1..] == rest;
    } else {
      RestOk(ps);
      FirstPieceReads(ps, rest);
      StringReads(ps[1..], rest);
      hide ReadChar, PieceText, PiecesMean, PiecesOk, PieceMeans, PiecesText, ReadString;
      FirstPiece(ps, [QUOTE] + rest);
      PieceStarts(ps[0]);
      assert s[0] == PieceText(ps[0])[0];
      OneMoreChar(s, PieceMeans(ps[0]), PiecesText(ps[1..]) + ([QUOTE] + rest), PiecesMean(ps[1..]), rest);
    }
  }

  lemma PieceStarts(p: Piece)
    ensures PieceText(p) != []
  {
  }

  /** No second half follows a first half that stands alone. */
  predicate Alone(p: Piece, rest: Text) {
    !(p.Code? && High(p.hex) && 6 <= |rest| && rest[..2] == U_ESCAPE && Low(rest[2..6]))
  }

  /** The piece that a character was read from. */
  lemma CharWasRead(s: Text) returns (p: Piece)
    requires ReadChar(s).Some?
    ensures PieceOk(p) && s == PieceText(p) + ReadChar(s).value.1 && PieceMeans(p) == ReadChar(s).value.0
    ensures Alone(p, ReadChar(s).value.1)
  {
    if s[0] != BACKSLASH {
      p := Plain(s[0]);
      assert s == [s[0]] + s[1..];
    } else if s[1] != 0x75 {
      p := Short(s[1]);
      assert s == [BACKSLASH, s[1]] + s[2..];
    } else {
      HexWasRead(s[2..]);
      p := CodeWasRead(s);
    }
  }

  lemma CodeWasRead(s: Text) returns (p: Piece)
    requires 6 <= |s| && s[0] == BACKSLASH && s[1] == 0x75 && FourHex(s[2..][..4])
    ensures ReadChar(s).Some? && PieceOk(p) && s == PieceText(p) + ReadChar(s).value.1
    ensures PieceMeans(p) == ReadChar(s).value.0 && Alone(p, ReadChar(s).value.1)
  {
    hide ReadChar, FourHex, HexNumber;
    var high, tail := s[2..][..4], s[6..];
    assert s == U_ESCAPE + high + tail;
    if High(high) && 6 <= |tail| && tail[..2] == U_ESCAPE && Low(tail[2..6]) {
      p := Pair(high, tail[2..6]);
      assert s == PieceText(p) + tail[6..];
      PairReads(high, tail[2..6], tail[6..]);
    } else {
      p := Code(high);
      CodeReads(high, tail);
    }
  }

  lemma OneMorePiece(p: Piece, more: seq<Piece>, end: Text)
    requires PieceOk(p) && PiecesOk(more)
    requires Alone(p, PiecesText(more) + ([QUOTE] + end))
    ensures PiecesOk([p] + more)
  {
    hide FourHex, HexNumber, Low, High, PieceOk;
    var ps := [p] + more;
    if more != [] && more[0].Code? && Low(more[0].hex) {
      LowIsFour(more[0].hex);
      CodeComesFirst(more, [QUOTE] + end);
    }
    forall i | 0 < i < |ps| ensures !(ps[i - 1].Code? && High(ps[i - 1].hex) && ps[i].Code? && Low(ps[i].hex)) {
      if i > 1 {
        assert ps[i] == more[i - 1] && ps[i - 1] == more[i - 2];
      }
    }
  }

  lemma CodeComesFirst(more: seq<Piece>, tail: Text)
    requires more != [] && more[0].Code? && |more[0].hex| == 4
    ensures var rest := PiecesText(more) + tail;
            6 <= |rest| && rest[..2] == U_ESCAPE && rest[2..6] == more[0].hex
  {
    FirstPiece(more, tail);
  }

  lemma LowIsFour(hex: Text)
    requires Low(hex)
    ensures FourHex(hex) && |hex| == 4
  {
  }

  /** A string that does not end yet starts with a character. */
  lemma StringGoesOn(s: Text)
    requires ReadString(s).Some? && s[0] != QUOTE
    ensures ReadChar(s).Some? && ReadString(ReadChar(s).value.1).Some?
    ensures var (t, end) := ReadString(ReadChar(s).value.1).value;
            ReadString(s).value == ([ReadChar(s).value.0] + t, end)
  {
    hide ReadChar;
  }

  lemma {:induction false} StringWasRead(s: Text) returns (ps: seq<Piece>)
    requires ReadString(s).Some?
    ensures PiecesOk(ps) && s == PiecesText(ps) + ([QUOTE] + ReadString(s).value.1)
    ensures PiecesMean(ps) == ReadString(s).value.0
    decreases |s|
  {
    if s[0] == QUOTE {
      ps := [];
      assert s == [QUOTE] + s[1..];
    } else {
      StringGoesOn(s);
      var p := CharWasRead(s);
      hide ReadChar, ReadString, PieceText, PieceOk, PiecesOk, PieceMeans, PiecesMean, PiecesText, Alone;
      var rest, end := ReadChar(s).value.1, ReadString(s).value.1;
      var more := StringWasRead(rest);
      OneMorePiece(p, more, end);
      ps := [p] + more;
      assert ps[0] == p && ps[1..] == more;
      RestOk(ps);
      FirstPiece(ps, [QUOTE] + end);
    }
  }

  // ---- Numbers ----

  predicate AllDigits(t: Text) { forall i | 0 <= i < |t| :: 0x30 <= t[i] <= 0x39 }

  /** What may come after an integer. */
  predicate Terminates(rest: Text) { rest == [] || (!(0x30 <= rest[0] <= 0x39) && !FloatFollows(rest)) }

  lemma DecimalAppended(t: Text, c: CodePoint)
    requires AllDigits(t) && 0x30 <= c <= 0x39
    ensures AllDigits(t + [c]) && Decimal(t + [c]) == 10 * Decimal(t) + (c as int - 0x30)
  {
    assert (t + [c])[..|t + [c]| - 1] == t;
  }

  lemma {:induction false} DigitsRead(before: Text, digits: Text, rest: Text)
    requires AllDigits(before) && AllDigits(digits) && (rest == [] || !IsDigit(rest[0]))
    ensures AllDigits(before + digits) && ReadDigits(digits + rest, Decimal(before)) == (Decimal(before + digits), rest)
    decreases |digits|
  {
    if digits == [] {
      assert digits + rest == rest && before + digits == before;
    } else {
      var s := digits + rest;
      assert s[0] == digits[0] && s[1..] == digits[1..] + rest;
      DecimalAppended(before, digits[0]);
      DigitsRead(before + [digits[0]], digits[1..], rest);
      assert before + [digits[0]] + digits[1..] == before + digits;
    }
  }

  lemma {:induction false} DigitsWereRead(before: Text, s: Text) returns (digits: Text)
    requires AllDigits(before)
    ensures AllDigits(before + digits) && s == digits + ReadDigits(s, Decimal(before)).1
    ensures ReadDigits(s, Decimal(before)).0 == Decimal(before + digits)
    decreases |s|
  {
    if s != [] && IsDigit(s[0]) {
      DecimalAppended(before, s[0]);
      var more := DigitsWereRead(before + [s[0]], s[1..]);
      digits := [s[0]] + more;
      assert before + [s[0]] + more == before + digits;
      assert s == [s[0]] + s[1..];
    } else {
      digits := [];
      assert before + digits == before;
    }
  }

  lemma NaturalReads(digits: Text, rest: Text)
    requires NaturalOk(digits) && Terminates(rest)
    ensures ReadNatural(digits + rest) == Some((Decimal(digits), rest))
  {
    var s := digits + rest;
    assert s[0] == digits[0] && s[1..] == digits[1..] + rest;
    DecimalAppended([], digits[0]);
    assert [] + [digits[0]] == [digits[0]] && Decimal([]) == 0;
    if digits[0] == 0x30 {
      assert digits == [0x30] && s[1..] == rest;
    } else {
      DigitsRead([digits[0]], digits[1..], rest);
      assert [digits[0]] + digits[1..] == digits;
    }
  }

  lemma NaturalWasRead(s: Text) returns (digits: Text)
    requires ReadNatural(s).Some?
    ensures NaturalOk(digits) && s == digits + ReadNatural(s).value.1 && ReadNatural(s).value.0 == Decimal(digits)
  {
    DecimalAppended([], s[0]);
    assert [] + [s[0]] == [s[0]] && Decimal([]) == 0;
    if s[0] == 0x30 {
      digits := [0x30];
      assert s == [s[0]] + s[1..];
    } else {
      var more := DigitsWereRead([s[0]], s[1..]);
      digits := [s[0]] + more;
      assert s == [s[0]] + s[1..];
    }
  }

  // ---- Everything spelled out is read ----

  /** The value's own text may not run on. */
  predicate Ends(s: Spelled, rest: Text) { s.SInt? ==> Terminates(rest) }

  lemma SpelledStarts(s: Spelled)
    requires SpelledOk(s)
    ensures TextOf(s) != [] && !Space(TextOf(s)[0]) && TextOf(s)[0] != 0x5D && TextOf(s)[0] != 0x7D
  {
    hide PiecesText, ItemsText, MembersText;
  }

  /** Space before a value, or before a name, is skipped. */
  lemma ValueSkipped(before: Text, s: Spelled, rest: Text)
    requires Spaces(before) && SpelledOk(s)
    ensures SkipSpace(before + (TextOf(s) + rest)) == TextOf(s) + rest
  {
    SpacesSkipped(before, TextOf(s) + rest);
    SpelledStarts(s);
    assert (TextOf(s) + rest)[0] == TextOf(s)[0];
  }

  lemma CharSkipped(before: Text, c: CodePoint, rest: Text)
    requires Spaces(before) && !Space(c)
    ensures SkipSpace(before + ([c] + rest)) == [c] + rest
  {
    SpacesSkipped(before, [c] + rest);
  }

  /** Space and then one of the separators end a number. */
  lemma SpaceTerminates(space: Text, c: CodePoint, rest: Text)
    requires Spaces(space) && (c == COMMA || c == 0x5D || c == 0x7D)
    ensures Terminates(space + ([c] + rest))
  {
    var s := space + ([c] + rest);
    assert s[0] == if space == [] then c else space[0];
  }

  lemma NumberReads(minus: bool, digits: Text, rest: Text)
    requires NaturalOk(digits) && Terminates(rest)
    ensures ReadValue(TextOf(SInt(minus, digits)) + rest) == Some((Means(SInt(minus, digits)), rest))
  {
    var s := TextOf(SInt(minus, digits)) + rest;
    NaturalReads(digits, rest);
    if minus {
      assert s[0] == MINUS && s[1..] == digits + rest;
    } else {
      assert s == digits + rest && s[0] == digits[0];
    }
    hide ReadNatural;
    NotConstant(s);
  }

  lemma NotConstant(s: Text)
    requires s != [] && (s[0] == MINUS || 0x30 <= s[0] <= 0x39)
    ensures !StartsWith(s, NULL_TEXT) && !StartsWith(s, TRUE_TEXT) && !StartsWith(s, FALSE_TEXT)
  {
    assert |s| >= 4 ==> s[..4][0] == s[0];
    assert |s| >= 5 ==> s[..5][0] == s[0];
  }

  lemma ConstantReads(s: Spelled, rest: Text)
    requires s.SNull? || s.STrue? || s.SFalse?
    ensures ReadValue(TextOf(s) + rest) == Some((Means(s), rest))
  {
    var t := TextOf(s) + rest;
    assert t[..|TextOf(s)|] == TextOf(s) && t[|TextOf(s)|..] == rest && t[0] == TextOf(s)[0];
    assert s.STrue? ==> t[..4][0] != NULL_TEXT[0];
    assert s.SFalse? ==> t[..4][0] != NULL_TEXT[0] && t[..4][0] != TRUE_TEXT[0];
  }

  lemma TextReads(ps: seq<Piece>, rest: Text)
    requires PiecesOk(ps)
    ensures ReadValue(TextOf(SStr(ps)) + rest) == Some((Means(SStr(ps)), rest))
  {
    hide ReadString, PiecesText, PiecesMean;
    var t := TextOf(SStr(ps)) + rest;
    StringReads(ps, rest);
    assert t[0] == QUOTE && t[1..] == PiecesText(ps) + ([QUOTE] + rest);
  }

  lemma EmptyReads(space: Text, rest: Text)
    requires Spaces(space)
    ensures ReadValue(TextOf(SNoItems(space)) + rest) == Some((Arr([]), rest))
    ensures ReadValue(TextOf(SNoMembers(space)) + rest) == Some((Obj([]), rest))
  {
    hide SkipSpace, ReadItems, ReadMembers;
    var s, t := TextOf(SNoItems(space)) + rest, TextOf(SNoMembers(space)) + rest;
    assert s[0] == 0x5B && s[1..] == space + ([0x5D] + rest);
    CharSkipped(space, 0x5D, rest);
    assert ([0x5D] + rest)[1..] == rest;
    assert t[0] == 0x7B && t[1..] == space + ([0x7D] + rest);
    CharSkipped(space, 0x7D, rest);
    assert ([0x7D] + rest)[1..] == rest;
  }

  lemma ArrayReads(items: Items, rest: Text)
    requires ItemsOk(items)
    requires var body := SkipSpace(ItemsText(items) + rest);
             body != [] && body[0] != 0x5D && ReadItems(body) == Some((ItemsMean(items), rest))
    ensures ReadValue(TextOf(SArr(items)) + rest) == Some((Arr(ItemsMean(items)), rest))
  {
    hide ReadItems, SkipSpace, ItemsText, ItemsMean, ItemsOk;
    var t := TextOf(SArr(items)) + rest;
    assert t[0] == 0x5B && t[1..] == ItemsText(items) + rest;
  }

  lemma ObjectReads(members: Members, rest: Text)
    requires MembersOk(members) && DistinctKeys(MembersMean(members))
    requires var body := SkipSpace(MembersText(members) + rest);
             body != [] && body[0] != 0x7D && ReadMembers(body) == Some((MembersMean(members), rest))
    ensures ReadValue(TextOf(SObj(members)) + rest) == Some((Obj(MembersMean(members)), rest))
  {
    hide ReadMembers, SkipSpace, MembersText, MembersMean, MembersOk;
    var t := TextOf(SObj(members)) + rest;
    assert t[0] == 0x7B && t[1..] == MembersText(members) + rest;
  }

  /** Every spelling is read as what it means, up to its end. */
  lemma {:induction false} ValueReads(s: Spelled, rest: Text)
    requires SpelledOk(s) && Ends(s, rest)
    ensures ReadValue(TextOf(s) + rest) == Some((Means(s), rest))
    decreases s
  {
    hide ReadValue, TextOf, SkipSpace, ReadItems, ReadMembers;
    match s
    case SNull => ConstantReads(s, rest);
    case STrue => ConstantReads(s, rest);
    case SFalse => ConstantReads(s, rest);
    case SInt(minus, digits) => NumberReads(minus, digits, rest);
    case SStr(ps) => TextReads(ps, rest);
    case SNoItems(space) => EmptyReads(space, rest);
    case SNoMembers(space) => EmptyReads(space, rest);
    case SArr(items) =>
      ItemsReads(items, rest);
      ArrayReads(items, rest);
    case SObj(members) =>
      MembersReads(members, rest);
      ObjectReads(members, rest);
  }

  /** What comes after an item or a member. */
  function ItemsTail(x: Items, rest: Text): Text {
    match x
    case LastItem(_, _, _) => [0x5D] + rest
    case MoreItems(_, _, _, more) => [COMMA] + (ItemsText(more) + rest)
  }

  function MembersTail(x: Members, rest: Text): Text {
    match x
    case LastMember(_, _, _, _, _, _) => [0x7D] + rest
    case MoreMembers(_, _, _, _, _, _, more) => [COMMA] + (MembersText(more) + rest)
  }

  lemma ItemsSplit(x: Items, rest: Text)
    ensures ItemsText(x) + rest == x.before + (TextOf(x.v) + (x.after + ItemsTail(x, rest)))
  {
    hide TextOf;
  }

  lemma OneMoreItem(s: Text, v: Json, after: Text, more: Text)
    requires ReadValue(s) == Some((v, after)) && SkipSpace(after) == [COMMA] + more
    requires ReadItems(SkipSpace(more)).Some?
    ensures var (vs, end) := ReadItems(SkipSpace(more)).value; ReadItems(s) == Some(([v] + vs, end))
  {
    hide ReadValue, SkipSpace;
    assert ([COMMA] + more)[1..] == more;
  }

  lemma OnlyItem(s: Text, v: Json, after: Text, rest: Text)
    requires ReadValue(s) == Some((v, after)) && SkipSpace(after) == [0x5D] + rest
    ensures ReadItems(s) == Some(([v], rest))
  {
    hide ReadValue, SkipSpace;
    assert ([0x5D] + rest)[1..] == rest;
  }

  lemma {:induction false} ItemsReads(x: Items, rest: Text)
    requires ItemsOk(x)
    ensures var body := SkipSpace(ItemsText(x) + rest);
            body != [] && body[0] != 0x5D && ReadItems(body) == Some((ItemsMean(x), rest))
    decreases x
  {
    hide SkipSpace, ReadValue, ReadItems, TextOf, Space;
    var after := x.after + ItemsTail(x, rest);
    ItemsSplit(x, rest);
    ValueSkipped(x.before, x.v, after);
    SpelledStarts(x.v);
    assert (TextOf(x.v) + after)[0] == TextOf(x.v)[0];
    match x
    case LastItem(_, _, _) =>
      SpaceTerminates(x.after, 0x5D, rest);
      ValueReads(x.v, after);
      CharSkipped(x.after, 0x5D, rest) by { Separators(); }
      OnlyItem(TextOf(x.v) + after, Means(x.v), after, rest);
      assert ItemsMean(x) == [Means(x.v)];
    case MoreItems(_, _, _, more) =>
      SpaceTerminates(x.after, COMMA, ItemsText(more) + rest);
      ValueReads(x.v, after);
      CharSkipped(x.after, COMMA, ItemsText(more) + rest) by { Separators(); }
      ItemsReads(more, rest);
      OneMoreItem(TextOf(x.v) + after, Means(x.v), after, ItemsText(more) + rest);
  }

  lemma Separators()
    ensures !Space(COMMA) && !Space(COLON) && !Space(0x5D) && !Space(0x7D) && !Space(QUOTE)
  {
  }

  // ---- Members ----

  /** The name of a member, the colon, and where the value starts. */
  predicate NameRead(s: Text, key: Text, value: Text) {
    && s != [] && s[0] == QUOTE && ReadString(s[1..]).Some? && ReadString(s[1..]).value.0 == key
    && var colon := SkipSpace(ReadString(s[1..]).value.1);
       colon != [] && colon[0] == COLON && SkipSpace(colon[1..]) == value
  }

  lemma OneMoreMember(s: Text, key: Text, value: Text, v: Json, after: Text, more: Text)
    requires NameRead(s, key, value) && ReadValue(value) == Some((v, after)) && SkipSpace(after) == [COMMA] + more
    requires ReadMembers(SkipSpace(more)).Some?
    ensures var (m, end) := ReadMembers(SkipSpace(more)).value; ReadMembers(s) == Some(([Entry(key, v)] + m, end))
  {
    hide ReadValue, SkipSpace, ReadString;
    assert ([COMMA] + more)[1..] == more;
  }

  lemma OnlyMember(s: Text, key: Text, value: Text, v: Json, after: Text, rest: Text)
    requires NameRead(s, key, value) && ReadValue(value) == Some((v, after)) && SkipSpace(after) == [0x7D] + rest
    ensures ReadMembers(s) == Some(([Entry(key, v)], rest))
  {
    hide ReadValue, SkipSpace, ReadString;
    assert ([0x7D] + rest)[1..] == rest;
  }

  /** A member from its colon on. */
  function AfterName(x: Members, rest: Text): Text {
    x.colon + ([COLON] + (x.gap + (TextOf(x.v) + (x.after + MembersTail(x, rest)))))
  }

  lemma MembersSplit(x: Members, rest: Text)
    ensures MembersText(x) + rest == x.before + (StringText(x.name) + AfterName(x, rest))
  {
    hide TextOf, StringText;
    match x
    case LastMember(before, name, colon, gap, v, after) =>
      SplitText(before, StringText(name), colon, gap, TextOf(v), after, [0x7D], rest);
    case MoreMembers(before, name, colon, gap, v, after, more) =>
      SplitText(before, StringText(name), colon, gap, TextOf(v), after, [COMMA] + MembersText(more), rest);
      assert [COMMA] + MembersText(more) + rest == [COMMA] + (MembersText(more) + rest);
  }

  lemma SplitText(before: Text, name: Text, colon: Text, gap: Text, v: Text, after: Text, tail: Text, rest: Text)
    ensures before + (name + (colon + ([COLON] + (gap + (v + (after + tail)))))) + rest
            == before + (name + (colon + ([COLON] + (gap + (v + (after + (tail + rest)))))))
  {
  }

  lemma NameReads(x: Members, rest: Text)
    requires MembersOk(x)
    ensures var s := StringText(x.name) + AfterName(x, rest);
            && SkipSpace(s) == s
            && NameRead(s, PiecesMean(x.name), TextOf(x.v) + (x.after + MembersTail(x, rest)))
  {
    hide ReadString, PiecesText, TextOf, PiecesOk, PiecesMean, MembersTail;
    var s, body := StringText(x.name) + AfterName(x, rest), TextOf(x.v) + (x.after + MembersTail(x, rest));
    assert s[0] == QUOTE && s[1..] == PiecesText(x.name) + ([QUOTE] + AfterName(x, rest));
    StringReads(x.name, AfterName(x, rest));
    CharSkipped(x.colon, COLON, x.gap + body);
    ValueSkipped(x.gap, x.v, x.after + MembersTail(x, rest));
    assert ([COLON] + (x.gap + body))[1..] == x.gap + body;
  }

  /** A value inside an array or an object, up to the separator after it. */
  lemma ValueInside(v: Spelled, after: Text, c: CodePoint, rest: Text)
    requires Spaces(after) && (c == COMMA || c == 0x5D || c == 0x7D)
    ensures Ends(v, after + ([c] + rest)) && SkipSpace(after + ([c] + rest)) == [c] + rest
  {
    SpaceTerminates(after, c, rest);
    CharSkipped(after, c, rest);
  }

  lemma {:induction false} MembersReads(x: Members, rest: Text)
    requires MembersOk(x)
    ensures var body := SkipSpace(MembersText(x) + rest);
            body != [] && body[0] != 0x7D && ReadMembers(body) == Some((MembersMean(x), rest))
    decreases x
  {
    var key, s := PiecesMean(x.name), StringText(x.name) + AfterName(x, rest);
    assert s[0] == QUOTE;
    MembersSplit(x, rest);
    NameReads(x, rest);
    SpacesSkipped(x.before, s);
    hide SkipSpace, ReadValue, ReadMembers, TextOf, NameRead, AfterName, PiecesMean, PiecesOk, StringText, Spaces;
    var after := x.after + MembersTail(x, rest);
    match x
    case LastMember(_, _, _, _, _, _) =>
      ValueInside(x.v, x.after, 0x7D, rest);
      ValueReads(x.v, after);
      OnlyMember(s, key, TextOf(x.v) + after, Means(x.v), after, rest);
      assert [Entry(key, Means(x.v))] + [] == [Entry(key, Means(x.v))];
    case MoreMembers(_, _, _, _, _, _, more) =>
      ValueInside(x.v, x.after, COMMA, MembersText(more) + rest);
      ValueReads(x.v, after);
      MembersReads(more, rest);
      OneMoreMember(s, key, TextOf(x.v) + after, Means(x.v), after, MembersText(more) + rest);
  }

  // ---- Everything read was spelled out ----

  lemma PrefixOf(s: Text, prefix: Text)
    requires StartsWith(s, prefix)
    ensures s == prefix + s[|prefix|..]
  {
  }

  lemma NumberWasRead(s: Text) returns (t: Spelled)
    requires ReadNumber(s).Some?
    ensures t.SInt? && NaturalOk(t.digits) && s == TextOf(t) + ReadNumber(s).value.1
    ensures Means(t) == Int(ReadNumber(s).value.0)
  {
    if s != [] && s[0] == MINUS {
      var digits := NaturalWasRead(s[1..]);
      t := SInt(true, digits);
      assert s == [MINUS] + s[1..];
    } else {
      var digits := NaturalWasRead(s);
      t := SInt(false, digits);
      assert [] + digits == digits;
    }
  }

  /** The spelling that a value was read from. */
  lemma {:induction false} ValueWasRead(s: Text) returns (t: Spelled)
    requires ReadValue(s).Some?
    ensures SpelledOk(t) && s == TextOf(t) + ReadValue(s).value.1 && Means(t) == ReadValue(s).value.0
    decreases |s|, 0
  {
    hide ReadItems, ReadMembers, ReadString, SkipSpace, ReadNumber, PiecesText, PiecesMean, PiecesOk, DistinctKeys,
         ItemsText, MembersText, ItemsMean, MembersMean, ItemsOk, MembersOk, Decimal;
    assert s == [s[0]] + s[1..];
    if s[0] == QUOTE {
      var ps := StringWasRead(s[1..]);
      t := SStr(ps);
    } else if s[0] == 0x7B {
      var space := Skipped(s[1..]);
      var body := SkipSpace(s[1..]);
      if body != [] && body[0] == 0x7D {
        t := SNoMembers(space);
        assert body == [0x7D] + body[1..];
      } else {
        var members := MembersWereRead(body, space);
        t := SObj(members);
      }
    } else if s[0] == 0x5B {
      var space := Skipped(s[1..]);
      var body := SkipSpace(s[1..]);
      if body != [] && body[0] == 0x5D {
        t := SNoItems(space);
        assert body == [0x5D] + body[1..];
      } else {
        var items := ItemsWereRead(body, space);
        t := SArr(items);
      }
    } else if StartsWith(s, NULL_TEXT) {
      t := SNull;
      PrefixOf(s, NULL_TEXT);
    } else if StartsWith(s, TRUE_TEXT) {
      t := STrue;
      PrefixOf(s, TRUE_TEXT);
    } else if StartsWith(s, FALSE_TEXT) {
      t := SFalse;
      PrefixOf(s, FALSE_TEXT);
    } else {
      t := NumberWasRead(s);
    }
  }

  lemma {:induction false} ItemsWereRead(s: Text, before: Text) returns (x: Items)
    requires ReadItems(s).Some? && Spaces(before)
    ensures ItemsOk(x) && before + s == ItemsText(x) + ReadItems(s).value.1 && ItemsMean(x) == ReadItems(s).value.0
    decreases |s|, 1
  {
    hide ReadValue, SkipSpace, TextOf, Means, SpelledOk, Spaces;
    var v := ValueWasRead(s);
    var (_, end) := ReadValue(s).value;
    var after := Skipped(end);
    var rest := SkipSpace(end);
    assert rest == [rest[0]] + rest[1..];
    if rest[0] == 0x5D {
      x := LastItem(before, v, after);
      assert before + s == ItemsText(x) + rest[1..];
      assert [Means(v)] + [] == [Means(v)];
    } else {
      var next := Skipped(rest[1..]);
      var more := ItemsWereRead(SkipSpace(rest[1..]), next);
      x := MoreItems(before, v, after, more);
      ItemsSplit(x, ReadItems(s).value.1);
    }
  }

  lemma NameWasRead(s: Text, key: Text, value: Text) returns (name: seq<Piece>, colon: Text, gap: Text)
    requires NameRead(s, key, value)
    ensures PiecesOk(name) && Spaces(colon) && Spaces(gap) && PiecesMean(name) == key
    ensures s == StringText(name) + (colon + ([COLON] + (gap + value)))
  {
    hide ReadString, SkipSpace, PiecesOk, PiecesMean, PiecesText, Spaces;
    name := StringWasRead(s[1..]);
    var end := ReadString(s[1..]).value.1;
    colon := Skipped(end);
    var from := SkipSpace(end);
    gap := Skipped(from[1..]);
    assert s == [QUOTE] + s[1..] && from == [COLON] + from[1..];
    assert s == [QUOTE] + (PiecesText(name) + ([QUOTE] + end));
  }

  /** The start of a member, and what its value leaves. */
  lemma MemberSteps(s: Text)
    requires ReadMembers(s).Some?
    ensures var key := ReadString(s[1..]).value.0;
            var value := SkipSpace(SkipSpace(ReadString(s[1..]).value.1)[1..]);
            && s != [] && ReadString(s[1..]).Some? && SkipSpace(ReadString(s[1..]).value.1) != []
            && NameRead(s, key, value) && |value| < |s| && ReadValue(value).Some?
            && var (v, end) := ReadValue(value).value;
               var rest := SkipSpace(end);
               && rest != [] && |rest| < |s|
               && (rest[0] == 0x7D ==> ReadMembers(s).value == ([Entry(key, v)], rest[1..]))
               && (rest[0] != 0x7D ==>
                     rest[0] == COMMA && ReadMembers(SkipSpace(rest[1..])).Some?
                     && var (m, last) := ReadMembers(SkipSpace(rest[1..])).value;
                        ReadMembers(s).value == ([Entry(key, v)] + m, last))
  {
    hide ReadValue, ReadString, SkipSpace;
  }

  lemma MemberSpelled(s: Text, before: Text, x: Members, value: Text, end: Text, rest: Text)
    requires x.before == before && s == StringText(x.name) + (x.colon + ([COLON] + (x.gap + value)))
    requires value == TextOf(x.v) + end && end == x.after + MembersTail(x, rest)
    ensures before + s == MembersText(x) + rest
  {
    hide TextOf, StringText, MembersText, MembersTail;
    MembersSplit(x, rest);
  }

  lemma {:induction false} MembersWereRead(s: Text, before: Text) returns (x: Members)
    requires ReadMembers(s).Some? && Spaces(before)
    ensures MembersOk(x) && before + s == MembersText(x) + ReadMembers(s).value.1
    ensures MembersMean(x) == ReadMembers(s).value.0
    decreases |s|, 1
  {
    MemberSteps(s);
    hide ReadValue, ReadString, SkipSpace, TextOf, Means, SpelledOk, Spaces, PiecesOk, PiecesMean, PiecesText, NameRead,
         ReadMembers, StringText, MembersText;
    var key := ReadString(s[1..]).value.0;
    var value := SkipSpace(SkipSpace(ReadString(s[1..]).value.1)[1..]);
    var name, colon, gap := NameWasRead(s, key, value);
    var v := ValueWasRead(value);
    var end := ReadValue(value).value.1;
    var after := Skipped(end);
    var rest := SkipSpace(end);
    assert rest == [rest[0]] + rest[1..];
    if rest[0] == 0x7D {
      x := LastMember(before, name, colon, gap, v, after);
      MemberSpelled(s, before, x, value, end, rest[1..]);
      assert [Entry(key, Means(v))] + [] == [Entry(key, Means(v))];
    } else {
      var next := Skipped(rest[1..]);
      var more := MembersWereRead(SkipSpace(rest[1..]), next);
      x := MoreMembers(before, name, colon, gap, v, after, more);
      MemberSpelled(s, before, x, value, end, ReadMembers(s).value.1);
    }
  }

  // ---- Documents ----

  /** White space, a value, white space, and nothing else. */
  ghost predicate Spells(text: Text, v: Json) {
    exists before: Text, s: Spelled, after: Text ::
      Spaces(before) && SpelledOk(s) && Spaces(after) && text == before + TextOf(s) + after && Means(s) == v
  }

  /** The decoder reads a text as a value exactly when the text spells the value. */
  lemma DocumentExactly(text: Text, v: Json)
    ensures ReadDocument(text) == Some(v) <==> Spells(text, v)
  {
    hide ReadValue, SkipSpace, SpelledOk, TextOf, Means;
    if ReadDocument(text) == Some(v) {
      var before := Skipped(text);
      var s := ValueWasRead(SkipSpace(text));
      var after := Skipped(ReadValue(SkipSpace(text)).value.1);
      assert text == before + TextOf(s) + after;
    }
    if Spells(text, v) {
      var before, s, after :|
        Spaces(before) && SpelledOk(s) && Spaces(after) && text == before + TextOf(s) + after && Means(s) == v;
      assert before + TextOf(s) + after == before + (TextOf(s) + after);
      ValueSkipped(before, s, after);
      OnlySpaces(after);
      ValueReads(s, after);
    }
  }

  lemma OnlySpaces(t: Text)
    requires Spaces(t)
    ensures SkipSpace(t) == [] && Terminates(t)
  {
    SpacesSkipped(t, []);
    assert t + [] == t;
  }

  /** Bytes are loaded as a value exactly when they are the UTF-8 of a text that spells it, and the
      canonical printer can print it. */
  lemma LoadsExactly(payload: seq<Byte>, v: Json)
    ensures StrictLoads(payload) == Some(v) <==>
              && Decode(payload).Some? && Spells(Decode(payload).value, v) && CanonicalBytes(v).Some?
  {
    hide Decode, ReadDocument, Spells, CanonicalBytes;
    if Decode(payload).Some? {
      DocumentExactly(Decode(payload).value, v);
      var x := ReadDocument(Decode(payload).value);
      if x.Some? {
        DocumentExactly(Decode(payload).value, x.value);
      }
    }
  }
}