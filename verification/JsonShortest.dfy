/** Canonical text is the shortest text of its value: no other spelling of the same value is
    shorter, whatever its order of members, escapes, numbers and spaces. */
module JsonShortest {
  import opened Records
  import opened Utf
  import opened CanonicalJson
  import opened JsonDecoder
  import opened JsonRoundTrip

  // ---- How long the canonical text is ----

  function TextLength(v: Json): nat
    decreases v, 1
  {
    match v
    case Null => 4
    case Bool(b) => if b then 4 else 5
    case Int(n) => |Number(n)|
    case Str(s) => |Quoted(s)|
    case Arr(items) => 2 + ItemsLength(items)
    case Obj(m) => 2 + MembersLength(m)
    case Unsupported => 0
  }

  function ItemsLength(items: seq<Json>): nat
    decreases items, 0
  {
    if items == [] then 0 else TextLength(items[0]) + ItemsLength(items[1..]) + (if |items| == 1 then 0 else 1)
  }

  function MembersLength(m: seq<Entry<Json>>): nat
    decreases m, 0
  {
    if m == [] then 0
    else |Quoted(m[0].key)| + 1 + TextLength(m[0].value) + MembersLength(m[1..]) + (if |m| == 1 then 0 else 1)
  }

  lemma {:induction false} InsertLength(p: Entry<Text>, s: seq<Entry<Text>>)
    ensures |JoinMembers(Insert(p, s))| == |MemberText(p)| + |JoinMembers(s)| + (if s == [] then 0 else 1)
  {
    hide MemberText;
    if s != [] && !Before(p, s[0]) {
      InsertLength(p, s[1..]);
    }
  }

  lemma {:induction false} SortLength(s: seq<Entry<Text>>)
    ensures |JoinMembers(Sort(s))| == |JoinMembers(s)|
  {
    hide MemberText;
    if s != [] {
      SortLength(s[1..]);
      InsertLength(s[0], Sort(s[1..]));
      SortMembers(s[1..]);
    }
  }

  lemma {:induction false} CanonLength(v: Json, depth: nat)
    requires Canon(v, depth).Some?
    ensures |Canon(v, depth).value| == TextLength(v)
    decreases v, 1
  {
    match v
    case Arr(items) => ItemsCanonLength(items, depth + 1);
    case Obj(m) =>
      MembersCanonLength(m, depth + 1);
      SortLength(CanonMembers(m, depth + 1).value);
    case _ =>
  }

  lemma {:induction false} ItemsCanonLength(items: seq<Json>, depth: nat)
    requires CanonItems(items, depth).Some?
    ensures |JoinItems(CanonItems(items, depth).value)| == ItemsLength(items)
    decreases items, 0
  {
    if items != [] {
      CanonLength(items[0], depth);
      ItemsCanonLength(items[1..], depth);
      assert CanonItems(items, depth).value[1..] == CanonItems(items[1..], depth).value;
    }
  }

  lemma {:induction false} MembersCanonLength(m: seq<Entry<Json>>, depth: nat)
    requires CanonMembers(m, depth).Some?
    ensures |JoinMembers(CanonMembers(m, depth).value)| == MembersLength(m)
    decreases m, 0
  {
    if m != [] {
      CanonLength(m[0].value, depth);
      MembersCanonLength(m[1..], depth);
      assert CanonMembers(m, depth).value[1..] == CanonMembers(m[1..], depth).value;
    }
  }

  // ---- How much a text must spend on a value ----

  /** No spelling of a character is shorter than its canonical escape. */
  lemma CharTakes(s: Text)
    requires ReadChar(s).Some?
    ensures |Escape(ReadChar(s).value.0)| <= |s| - |ReadChar(s).value.1|
  {
    hide ReadHex;
  }

  lemma {:induction false} StringTakes(s: Text)
    requires ReadString(s).Some?
    ensures |Escaped(ReadString(s).value.0)| + 1 <= |s| - |ReadString(s).value.1|
    decreases |s|
  {
    hide ReadChar, Escape;
    if s[0] != QUOTE {
      var (c, rest) := ReadChar(s).value;
      CharTakes(s);
      StringTakes(rest);
      var t := ReadString(rest).value.0;
      assert ([c] + t)[1..] == t;
    }
  }

  lemma OneMoreDigit(v: nat, d: nat)
    requires d < 10
    ensures |Digits(10 * v + d)| <= |Digits(v)| + 1
  {
    if v > 0 {
      assert (10 * v + d) / 10 == v;
    }
  }

  lemma {:induction false} DigitsTake(s: Text, value: nat)
    ensures |Digits(ReadDigits(s, value).0)| <= |Digits(value)| + |s| - |ReadDigits(s, value).1|
  {
    if s != [] && IsDigit(s[0]) {
      OneMoreDigit(value, s[0] as int - 0x30);
      DigitsTake(s[1..], 10 * value + (s[0] as int - 0x30));
    }
  }

  lemma NumberTakes(s: Text)
    requires ReadNumber(s).Some?
    ensures |Number(ReadNumber(s).value.0)| <= |s| - |ReadNumber(s).value.1|
  {
    hide ReadDigits, Digits;
    if s[0] == MINUS {
      NaturalTakes(s[1..]);
    } else {
      NaturalTakes(s);
    }
  }

  lemma NaturalTakes(s: Text)
    requires ReadNatural(s).Some?
    ensures |Digits(ReadNatural(s).value.0)| <= |s| - |ReadNatural(s).value.1|
  {
    if s[0] != 0x30 {
      DigitsTake(s[1..], s[0] as int - 0x30);
    }
  }

  lemma {:induction false} ValueTakes(s: Text)
    requires ReadValue(s).Some?
    ensures TextLength(ReadValue(s).value.0) <= |s| - |ReadValue(s).value.1|
    decreases |s|, 0
  {
    hide ReadString, ReadNumber, SkipSpace, DistinctKeys, Number, Escaped;
    if s[0] == QUOTE {
      StringTakes(s[1..]);
    } else if s[0] == 0x7B {
      var body := SkipSpace(s[1..]);
      if body == [] || body[0] != 0x7D {
        MembersTake(body);
      }
    } else if s[0] == 0x5B {
      var body := SkipSpace(s[1..]);
      if body == [] || body[0] != 0x5D {
        ItemsTake(body);
      }
    } else if !StartsWith(s, NULL_TEXT) && !StartsWith(s, TRUE_TEXT) && !StartsWith(s, FALSE_TEXT) {
      NumberTakes(s);
    }
  }

  lemma {:induction false} ItemsTake(s: Text)
    requires ReadItems(s).Some?
    ensures ItemsLength(ReadItems(s).value.0) + 1 <= |s| - |ReadItems(s).value.1|
    decreases |s|, 1
  {
    hide ReadValue, SkipSpace, TextLength;
    ValueTakes(s);
    var v := ReadValue(s).value.0;
    var rest := SkipSpace(ReadValue(s).value.1);
    if rest[0] == COMMA {
      ItemsTake(SkipSpace(rest[1..]));
      var more := ReadItems(SkipSpace(rest[1..])).value.0;
      assert ([v] + more)[1..] == more;
    } else {
      assert [v][1..] == [];
    }
  }

  lemma {:induction false} MembersTake(s: Text)
    requires ReadMembers(s).Some?
    ensures MembersLength(ReadMembers(s).value.0) + 1 <= |s| - |ReadMembers(s).value.1|
    decreases |s|, 1
  {
    hide ReadValue, ReadString, SkipSpace, TextLength, Escaped;
    StringTakes(s[1..]);
    var key := ReadString(s[1..]).value.0;
    var colon := SkipSpace(ReadString(s[1..]).value.1);
    var at := SkipSpace(colon[1..]);
    ValueTakes(at);
    var e := Entry(key, ReadValue(at).value.0);
    var rest := SkipSpace(ReadValue(at).value.1);
    if rest[0] == COMMA {
      MembersTake(SkipSpace(rest[1..]));
      var more := ReadMembers(SkipSpace(rest[1..])).value.0;
      assert ([e] + more)[1..] == more;
    } else {
      assert [e][1..] == [];
    }
  }

  /** Of all texts that the decoder reads as a value, none is shorter than the canonical one. */
  lemma CanonicalIsShortest(v: Json, text: Text)
    requires Dictionaries(v) && CanonicalText(v).Some?
    requires ReadDocument(text).Some? && SameValue(ReadDocument(text).value, v)
    ensures |CanonicalText(v).value| <= |text|
  {
    hide Canon, ReadValue, SameValue, Dictionaries, TextLength, SkipSpace;
    var u, s := ReadDocument(text).value, SkipSpace(text);
    ReadsDictionaries(s);
    ValueTakes(s);
    SamePrints(u, v, 0);
    CanonLength(u, 0);
  }
}
