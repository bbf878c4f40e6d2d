/** Canonical output is uniquely readable: what it prints, the strict decoder reads back. */
module JsonRoundTrip {
  import opened Records
  import opened Utf
  import opened CanonicalJson
  import opened JsonDecoder

  // ---- Scalars read back ----

  /** What may follow a value: nothing, a separator, a closing bracket. */
  predicate Boundary(rest: Text) {
    rest == [] || rest[0] == COMMA || rest[0] == 0x5D || rest[0] == 0x7D
  }

  lemma HexBack(c: CodePoint)
    requires c < 0x20
    ensures ReadHex([0x30, 0x30, Hex(c / 16), Hex(c % 16)]) == Some(c)
  {
    assert HexValue(Hex(c / 16)) == Some(c / 16) && HexValue(Hex(c % 16)) == Some(c % 16);
  }

  lemma ReadHexPrefix(s: Text, rest: Text)
    requires |s| == 4
    ensures ReadHex(s + rest) == ReadHex(s)
  {
  }

  lemma EscapeReadsBack(c: CodePoint, rest: Text)
    requires !Surrogate(c)
    ensures ReadChar(Escape(c) + rest) == Some((c, rest))
    ensures Escape(c)[0] != QUOTE
  {
    var s := Escape(c) + rest;
    assert s[|Escape(c)|..] == rest;
    if |Escape(c)| == 6 {
      HexBack(c);
      assert s[2..] == [0x30, 0x30, Hex(c / 16), Hex(c % 16)] + rest;
      ReadHexPrefix([0x30, 0x30, Hex(c / 16), Hex(c % 16)], rest);
    }
  }

  lemma {:induction false} StringReadsBack(t: Text, rest: Text)
    requires ValidUnicode(t)
    ensures ReadString(Escaped(t) + [QUOTE] + rest) == Some((t, rest))
    decreases |t|
  {
    var s := Escaped(t) + [QUOTE] + rest;
    if t == [] {
      assert s[1..] == rest;
    } else {
      var after := Escaped(t[1..]) + [QUOTE] + rest;
      assert s == Escape(t[0]) + after;
      EscapeReadsBack(t[0], after);
      StringReadsBack(t[1..], rest);
      assert [t[0]] + t[1..] == t;
    }
  }

  function Scale(n: nat): nat { if n < 10 then 10 else 10 * Scale(n / 10) }

  lemma {:induction false} DigitsRead(n: nat, value: nat, more: Text)
    ensures ReadDigits(Digits(n) + more, value) == ReadDigits(more, value * Scale(n) + n)
    decreases n
  {
    if n < 10 {
      assert (Digits(n) + more)[1..] == more;
    } else {
      var d: CodePoint := 0x30 + n % 10;
      assert Digits(n) + more == Digits(n / 10) + ([d] + more);
      DigitsRead(n / 10, value, [d] + more);
      var x := value * Scale(n / 10) + n / 10;
      Shifted(value, Scale(n / 10), n);
      OneDigit(n % 10, x, more);
    }
  }

  lemma OneDigit(d: nat, value: nat, more: Text)
    requires d < 10
    ensures ReadDigits([0x30 + d] + more, value) == ReadDigits(more, 10 * value + d)
  {
    assert ([0x30 + d] + more)[1..] == more;
  }

  lemma Shifted(value: nat, scale: nat, n: nat)
    ensures 10 * (value * scale + n / 10) + n % 10 == value * (10 * scale) + n
  {
    assert value * (10 * scale) == 10 * (value * scale);
  }

  lemma {:induction false} FirstDigit(n: nat)
    ensures IsDigit(Digits(n)[0]) && (Digits(n)[0] == 0x30 <==> n == 0)
  {
    if n >= 10 {
      FirstDigit(n / 10);
    }
  }

  lemma NaturalReadsBack(n: nat, rest: Text)
    requires Boundary(rest)
    ensures ReadNatural(Digits(n) + rest) == Some((n, rest))
  {
    var s := Digits(n) + rest;
    FirstDigit(n);
    if n == 0 {
      assert s[1..] == rest;
    } else {
      DigitsRead(n, 0, rest);
      assert ReadDigits(s, 0) == ReadDigits(s[1..], s[0] as int - 0x30);
    }
  }

  lemma NumberReadsBack(n: int, rest: Text)
    requires Boundary(rest)
    ensures ReadNumber(Number(n) + rest) == Some((n, rest))
    ensures ReadValue(Number(n) + rest) == Some((Int(n), rest))
  {
    var s := Number(n) + rest;
    FirstDigit(if n < 0 then -n else n);
    if n < 0 {
      assert s[1..] == Digits(-n) + rest;
      NaturalReadsBack(-n, rest);
    } else {
      NaturalReadsBack(n, rest);
    }
    assert !StartsWith(s, NULL_TEXT) && !StartsWith(s, TRUE_TEXT) && !StartsWith(s, FALSE_TEXT) by {
      assert s[0] == MINUS || IsDigit(s[0]);
      FirstOfPrefix(s, NULL_TEXT);
      FirstOfPrefix(s, TRUE_TEXT);
      FirstOfPrefix(s, FALSE_TEXT);
    }
  }

  lemma FirstOfPrefix(s: Text, prefix: Text)
    requires prefix != []
    ensures StartsWith(s, prefix) ==> s[0] == prefix[0]
  {
  }

  // ---- Values read back ----

  /** The value with the members of every object in canonical order. */
  function Normal(v: Json): Json {
    match v
    case Arr(items) => Arr(NormalItems(items))
    case Obj(m) => Obj(Sort(NormalMembers(m)))
    case _ => v
  }

  function NormalItems(items: seq<Json>): (r: seq<Json>)
    ensures |r| == |items| && forall i | 0 <= i < |items| :: r[i] == Normal(items[i])
  {
    if items == [] then [] else [Normal(items[0])] + NormalItems(items[1..])
  }

  function NormalMembers(m: seq<Entry<Json>>): (r: seq<Entry<Json>>)
    ensures |r| == |m| && forall i | 0 <= i < |m| :: r[i] == Entry(m[i].key, Normal(m[i].value))
  {
    if m == [] then [] else [Entry(m[0].key, Normal(m[0].value))] + NormalMembers(m[1..])
  }

  /** A text that is read as a value wherever a value may end. */
  ghost predicate Reads(t: Text, v: Json) {
    && t != [] && !Space(t[0]) && t[0] != 0x5D && t[0] != 0x7D
    && forall rest | Boundary(rest) :: ReadValue(t + rest) == Some((v, rest))
  }

  ghost predicate MemberReads(p: Entry<Text>, e: Entry<Json>) {
    p.key == e.key && ValidUnicode(p.key) && Reads(p.value, e.value)
  }

  ghost predicate AllRead(parts: seq<Entry<Text>>, m: seq<Entry<Json>>) {
    |parts| == |m| && forall i | 0 <= i < |m| :: MemberReads(parts[i], m[i])
  }

  lemma {:induction false} InsertReads(p: Entry<Text>, e: Entry<Json>, parts: seq<Entry<Text>>, m: seq<Entry<Json>>)
    requires MemberReads(p, e) && AllRead(parts, m)
    ensures AllRead(Insert(p, parts), Insert(e, m))
    decreases |m|
  {
    hide MemberReads;
    SameKey(p, e);
    if m != [] {
      SameKey(parts[0], m[0]);
      if !Before(e, m[0]) {
        InsertReads(p, e, parts[1..], m[1..]);
      }
    }
  }

  lemma SameKey(p: Entry<Text>, e: Entry<Json>)
    requires MemberReads(p, e)
    ensures p.key == e.key
  {
  }

  lemma {:induction false} SortReads(parts: seq<Entry<Text>>, m: seq<Entry<Json>>)
    requires AllRead(parts, m)
    ensures AllRead(Sort(parts), Sort(m))
    decreases |m|
  {
    hide MemberReads;
    if m != [] {
      SortReads(parts[1..], m[1..]);
      InsertReads(parts[0], m[0], Sort(parts[1..]), Sort(m[1..]));
    }
  }

  lemma MemberReadsBack(p: Entry<Text>, e: Entry<Json>, rest: Text)
    requires MemberReads(p, e) && Boundary(rest) && rest != []
    ensures var s, after := MemberText(p) + rest, [COLON] + p.value + rest;
            && s[0] == QUOTE && ReadString(s[1..]) == Some((e.key, after))
            && SkipSpace(after) == after && SkipSpace(after[1..]) == p.value + rest
            && ReadValue(p.value + rest) == Some((e.value, rest)) && SkipSpace(rest) == rest
  {
    hide ReadValue, ReadString, ValidUnicode;
    var s, after := MemberText(p) + rest, [COLON] + p.value + rest;
    assert s[1..] == Escaped(p.key) + [QUOTE] + after;
    StringReadsBack(p.key, after);
    assert after[1..] == p.value + rest;
  }

  /** Reading one more member, when what it is made of is known. */
  lemma ReadMember(s: Text, e: Entry<Json>, after: Text, value: Text, rest: Text)
    requires s != [] && s[0] == QUOTE && ReadString(s[1..]) == Some((e.key, after))
    requires after != [] && SkipSpace(after) == after && after[0] == COLON && SkipSpace(after[1..]) == value
    requires ReadValue(value) == Some((e.value, rest)) && SkipSpace(rest) == rest && rest != []
    ensures rest[0] == 0x7D ==> ReadMembers(s) == Some(([e], rest[1..]))
    ensures rest[0] == COMMA ==>
              ReadMembers(s) == match ReadMembers(SkipSpace(rest[1..]))
                                case None => None
                                case Some((pairs, end)) => Some(([e] + pairs, end))
  {
    hide ReadValue, ReadString, SkipSpace;
  }

  lemma {:induction false} MembersReadBack(parts: seq<Entry<Text>>, m: seq<Entry<Json>>, rest: Text)
    requires AllRead(parts, m) && m != []
    ensures ReadMembers(JoinMembers(parts) + [0x7D] + rest) == Some((m, rest))
    ensures JoinMembers(parts) != [] && JoinMembers(parts)[0] == QUOTE
    decreases |m|
  {
    hide ReadValue, ReadString, SkipSpace, MemberReads, ReadMembers, MemberText;
    var s := JoinMembers(parts) + [0x7D] + rest;
    var last := |m| == 1;
    var more := if last then [] else JoinMembers(parts[1..]) + [0x7D] + rest;
    var tail := if last then [0x7D] + rest else [COMMA] + more;
    assert s == MemberText(parts[0]) + tail;
    MemberReadsBack(parts[0], m[0], tail);
    MemberStarts(parts[0]);
    ReadMember(s, m[0], [COLON] + parts[0].value + tail, parts[0].value + tail, tail);
    if last {
      assert tail[1..] == rest && [m[0]] == m;
    } else {
      assert tail[1..] == more;
      MembersReadBack(parts[1..], m[1..], rest);
      NoSpace(more);
      assert [m[0]] + m[1..] == m;
    }
  }

  lemma MemberStarts(p: Entry<Text>)
    ensures MemberText(p) != [] && MemberText(p)[0] == QUOTE
  {
  }

  lemma NoSpace(s: Text)
    requires s != [] && !Space(s[0])
    ensures SkipSpace(s) == s
  {
  }

  ghost predicate ItemsRead(texts: seq<Text>, items: seq<Json>) {
    |texts| == |items| && forall i | 0 <= i < |items| :: Reads(texts[i], items[i])
  }

  lemma ItemReadsBack(t: Text, v: Json, rest: Text)
    requires Reads(t, v) && Boundary(rest) && rest != []
    ensures ReadValue(t + rest) == Some((v, rest)) && SkipSpace(rest) == rest && t != [] && !Space(t[0])
            && t[0] != 0x5D && t[0] != 0x7D
  {
  }

  lemma {:induction false} ItemsReadBack(texts: seq<Text>, items: seq<Json>, rest: Text)
    requires ItemsRead(texts, items) && items != []
    ensures ReadItems(JoinItems(texts) + [0x5D] + rest) == Some((items, rest))
    ensures JoinItems(texts) != [] && !Space(JoinItems(texts)[0]) && JoinItems(texts)[0] != 0x5D
    decreases |items|
  {
    hide ReadValue, SkipSpace, Reads;
    var s := JoinItems(texts) + [0x5D] + rest;
    if |items| == 1 {
      var tail := [0x5D] + rest;
      assert s == texts[0] + tail;
      ItemReadsBack(texts[0], items[0], tail);
      assert tail[1..] == rest && [items[0]] == items;
    } else {
      var more := JoinItems(texts[1..]) + [0x5D] + rest;
      var tail := [COMMA] + more;
      assert s == texts[0] + tail;
      ItemReadsBack(texts[0], items[0], tail);
      assert tail[1..] == more;
      ItemsReadBack(texts[1..], items[1..], rest);
      NoSpace(more);
      assert [items[0]] + items[1..] == items;
    }
  }

  lemma ConstantsRead()
    ensures Reads(NULL_TEXT, Null) && Reads(TRUE_TEXT, Bool(true)) && Reads(FALSE_TEXT, Bool(false))
  {
    forall rest | Boundary(rest)
      ensures ReadValue(NULL_TEXT + rest) == Some((Null, rest))
              && ReadValue(TRUE_TEXT + rest) == Some((Bool(true), rest))
              && ReadValue(FALSE_TEXT + rest) == Some((Bool(false), rest))
    {
      assert (NULL_TEXT + rest)[..4] == NULL_TEXT && (NULL_TEXT + rest)[4..] == rest;
      assert (TRUE_TEXT + rest)[..4] == TRUE_TEXT && (TRUE_TEXT + rest)[4..] == rest;
      assert (FALSE_TEXT + rest)[..5] == FALSE_TEXT && (FALSE_TEXT + rest)[5..] == rest;
      FirstOfPrefix(TRUE_TEXT + rest, NULL_TEXT);
      FirstOfPrefix(FALSE_TEXT + rest, NULL_TEXT);
      FirstOfPrefix(FALSE_TEXT + rest, TRUE_TEXT);
    }
  }

  lemma NumberReads(n: int)
    ensures Reads(Number(n), Int(n))
  {
    hide ReadValue, ReadNumber;
    FirstDigit(if n < 0 then -n else n);
    forall rest | Boundary(rest) ensures ReadValue(Number(n) + rest) == Some((Int(n), rest)) {
      NumberReadsBack(n, rest);
    }
  }

  lemma StringReads(t: Text)
    requires ValidUnicode(t)
    ensures Reads(Quoted(t), Str(t))
  {
    hide ReadString, ValidUnicode;
    forall rest | Boundary(rest) ensures ReadValue(Quoted(t) + rest) == Some((Str(t), rest)) {
      assert (Quoted(t) + rest)[1..] == Escaped(t) + [QUOTE] + rest;
      StringReadsBack(t, rest);
    }
  }

  lemma ArrayReads(texts: seq<Text>, items: seq<Json>)
    requires ItemsRead(texts, items)
    ensures Reads([0x5B] + JoinItems(texts) + [0x5D], Arr(items))
  {
    hide ItemsRead, ReadItems;
    var t := [0x5B] + JoinItems(texts) + [0x5D];
    forall rest | Boundary(rest) ensures ReadValue(t + rest) == Some((Arr(items), rest)) {
      var body := JoinItems(texts) + [0x5D] + rest;
      assert (t + rest)[1..] == body;
      SizesAgree(texts, items);
      if items == [] {
        assert body[1..] == rest;
      } else {
        ItemsReadBack(texts, items, rest);
      }
      NoSpace(body);
    }
  }

  lemma SizesAgree(texts: seq<Text>, items: seq<Json>)
    requires ItemsRead(texts, items)
    ensures |texts| == |items|
  {
  }

  lemma ObjectReads(parts: seq<Entry<Text>>, m: seq<Entry<Json>>)
    requires AllRead(parts, m) && DistinctKeys(m)
    ensures Reads([0x7B] + JoinMembers(parts) + [0x7D], Obj(m))
  {
    hide MemberReads, ReadMembers, DistinctKeys;
    var t := [0x7B] + JoinMembers(parts) + [0x7D];
    forall rest | Boundary(rest) ensures ReadValue(t + rest) == Some((Obj(m), rest)) {
      var body := JoinMembers(parts) + [0x7D] + rest;
      assert (t + rest)[1..] == body;
      if m == [] {
        assert body[1..] == rest;
      } else {
        MembersReadBack(parts, m, rest);
      }
      NoSpace(body);
    }
  }

  lemma ValidNormal(parts: seq<Entry<Text>>, m: seq<Entry<Json>>)
    requires AllRead(parts, m)
    ensures ValidKeys(m)
  {
    forall i | 0 <= i < |m| ensures ValidUnicode(m[i].key) { assert MemberReads(parts[i], m[i]); }
  }

  /** Whatever is printed is read back as the value in canonical order. */
  lemma {:induction false} CanonReads(v: Json, depth: nat)
    requires Canon(v, depth).Some? && Dictionaries(v)
    ensures Reads(Canon(v, depth).value, Normal(v))
    decreases v
  {
    var t := Canon(v, depth).value;
    match v
    case Null => ConstantsRead();
    case Bool(b) => ConstantsRead();
    case Int(n) => NumberReads(n);
    case Str(s) => StringReads(s);
    case Arr(items) =>
      var texts := CanonItems(items, depth + 1).value;
      forall i | 0 <= i < |items| ensures Reads(texts[i], Normal(items[i])) {
        ItemsAt(items, depth + 1, i);
        CanonReads(items[i], depth + 1);
      }
      ArrayReads(texts, NormalItems(items));
    case Obj(m) =>
      var parts := CanonMembers(m, depth + 1).value;
      var normal := NormalMembers(m);
      forall i | 0 <= i < |m| ensures MemberReads(parts[i], normal[i]) {
        MembersAt(m, depth + 1, i);
        CanonReads(m[i].value, depth + 1);
      }
      SortReads(parts, normal);
      ValidNormal(parts, normal);
      SortedAfter(normal);
      SortedDistinct(Sort(normal));
      ObjectReads(Sort(parts), Sort(normal));
  }

  // ---- The same value ----

  /** A value is the same as its normal form. */
  lemma {:induction false} NormalIsSame(v: Json)
    ensures SameValue(v, Normal(v))
    decreases v
  {
    match v
    case Arr(items) =>
      forall i | 0 <= i < |items| ensures SameValue(items[i], Normal(items[i])) { NormalIsSame(items[i]); }
    case Obj(m) =>
      var normal := NormalMembers(m);
      SortMembers(normal);
      forall i | 0 <= i < |m| ensures Matched(m[i], Sort(normal)) {
        NormalIsSame(m[i].value);
        MatchedBy(m[i], normal[i], Sort(normal));
      }
    case _ =>
  }

  lemma MatchedBy(e: Entry<Json>, x: Entry<Json>, t: seq<Entry<Json>>)
    requires x in t && e.key == x.key && SameValue(e.value, x.value)
    ensures Matched(e, t)
  {
    hide SameValue;
    var j :| 0 <= j < |t| && t[j] == x;
  }

  ghost function Elements<V>(s: seq<Entry<V>>): set<Entry<V>> { set x | x in s }

  lemma {:induction false} CountElements<V>(s: seq<Entry<V>>)
    ensures |Elements(s)| <= |s| && (DistinctKeys(s) ==> |Elements(s)| == |s|)
  {
    if s != [] {
      CountElements(s[1..]);
      assert s == [s[0]] + s[1..];
      assert Elements(s) == {s[0]} + Elements(s[1..]);
      if DistinctKeys(s) {
        assert s[0] !in s[1..];
      }
    }
  }

  /** As many distinct members, all of them among the others: the same members. */
  lemma DistinctMembers<V>(s: seq<Entry<V>>, t: seq<Entry<V>>)
    requires DistinctKeys(s) && |t| <= |s| && forall i | 0 <= i < |s| :: s[i] in t
    ensures SameMembers(s, t)
  {
    CountElements(s);
    CountElements(t);
    SubsetOfSameSize(Elements(s), Elements(t));
    forall i | 0 <= i < |t| ensures t[i] in s { assert t[i] in Elements(t); }
  }

  lemma SubsetOfSameSize<T>(a: set<T>, b: set<T>)
    requires a <= b && |b| <= |a|
    ensures a == b
  {
    assert |b - a| == |b| - |a|;
    assert b == a + (b - a);
  }

  // ---- Equal text exactly for the same value ----

  /** The same value prints the same, or fails the same. */
  lemma {:induction false} SamePrints(u: Json, v: Json, depth: nat)
    requires Dictionaries(u) && Dictionaries(v) && SameValue(u, v)
    ensures Canon(u, depth) == Canon(v, depth)
    decreases u
  {
    hide Sort, JoinMembers, JoinItems, ValidUnicode, Number, Quoted, CanonMembers, CanonItems;
    if depth <= MAX_DEPTH {
      match (u, v)
      case (Arr(a), Arr(b)) =>
        forall i | 0 <= i < |a| ensures Canon(a[i], depth + 1) == Canon(b[i], depth + 1) {
          assert SameValue(a[i], b[i]);
          SamePrints(a[i], b[i], depth + 1);
        }
        SameItemsPrint(a, b, depth + 1);
      case (Obj(a), Obj(b)) =>
        var ta, tb := Tried(a, depth + 1), Tried(b, depth + 1);
        forall i | 0 <= i < |a| ensures ta[i] in tb {
          assert Matched(a[i], b);
          var j :| 0 <= j < |b| && a[i].key == b[j].key && SameValue(a[i].value, b[j].value);
          SamePrints(a[i].value, b[j].value, depth + 1);
          assert tb[j] == ta[i];
        }
        SameMembersPrint(a, b, depth + 1);
      case _ =>
    }
  }

  lemma {:induction false} SameItemsPrint(a: seq<Json>, b: seq<Json>, depth: nat)
    requires |a| == |b| && forall i | 0 <= i < |a| :: Canon(a[i], depth) == Canon(b[i], depth)
    ensures CanonItems(a, depth) == CanonItems(b, depth)
  {
    if a != [] {
      SameItemsPrint(a[1..], b[1..], depth);
    }
  }

  /** What becomes of each member when its value is printed. */
  function Tried(m: seq<Entry<Json>>, depth: nat): (r: seq<Entry<Option<Text>>>)
    ensures |r| == |m| && forall i | 0 <= i < |m| :: r[i] == Entry(m[i].key, Canon(m[i].value, depth))
  {
    seq(|m|, i requires 0 <= i < |m| => Entry(m[i].key, Canon(m[i].value, depth)))
  }

  lemma PrintedExactly(m: seq<Entry<Json>>, depth: nat)
    ensures CanonMembers(m, depth).Some? <==> forall x | x in Tried(m, depth) :: x.value.Some? && ValidUnicode(x.key)
  {
    hide Canon;
    var tried := Tried(m, depth);
    if CanonMembers(m, depth).Some? {
      forall i | 0 <= i < |m| ensures tried[i].value.Some? && ValidUnicode(tried[i].key) { MembersAt(m, depth, i); }
    } else if forall x | x in tried :: x.value.Some? && ValidUnicode(x.key) {
      forall i | 0 <= i < |m| ensures Canon(m[i].value, depth).Some? && ValidUnicode(m[i].key) {
        assert tried[i] in tried;
      }
      MembersAll(m, depth);
    }
  }

  lemma PrintedMember(m: seq<Entry<Json>>, depth: nat, i: nat)
    requires CanonMembers(m, depth).Some? && i < |m|
    ensures Tried(m, depth)[i].value.Some? && ValidUnicode(m[i].key)
            && CanonMembers(m, depth).value[i] == Entry(m[i].key, Tried(m, depth)[i].value.value)
  {
    MembersAt(m, depth, i);
  }

  lemma PrintedAmong(a: seq<Entry<Json>>, b: seq<Entry<Json>>, depth: nat, i: nat)
    requires CanonMembers(a, depth).Some? && CanonMembers(b, depth).Some? && i < |a|
    requires Tried(a, depth)[i] in Tried(b, depth)
    ensures CanonMembers(a, depth).value[i] in CanonMembers(b, depth).value
  {
    hide Canon;
    var j :| 0 <= j < |b| && Tried(b, depth)[j] == Tried(a, depth)[i];
    PrintedMember(a, depth, i);
    PrintedMember(b, depth, j);
    assert CanonMembers(a, depth).value[i] == CanonMembers(b, depth).value[j];
  }

  lemma PrintedKeys(m: seq<Entry<Json>>, depth: nat)
    requires CanonMembers(m, depth).Some? && DistinctKeys(m)
    ensures DistinctKeys(CanonMembers(m, depth).value) && ValidKeys(CanonMembers(m, depth).value)
  {
    hide Canon;
    var parts := CanonMembers(m, depth).value;
    forall i | 0 <= i < |m| ensures parts[i].key == m[i].key && ValidUnicode(parts[i].key) { MembersAt(m, depth, i); }
  }

  lemma SameMembersPrint(a: seq<Entry<Json>>, b: seq<Entry<Json>>, depth: nat)
    requires DistinctKeys(a) && DistinctKeys(b) && |a| == |b|
    requires forall i | 0 <= i < |a| :: Tried(a, depth)[i] in Tried(b, depth)
    ensures CanonMembers(a, depth).Some? <==> CanonMembers(b, depth).Some?
    ensures CanonMembers(a, depth).Some? ==> Sort(CanonMembers(a, depth).value) == Sort(CanonMembers(b, depth).value)
  {
    hide Canon, CanonMembers, ValidUnicode;
    var ta, tb := Tried(a, depth), Tried(b, depth);
    DistinctMembers(ta, tb);
    PrintedExactly(a, depth);
    PrintedExactly(b, depth);
    assert forall x | x in tb :: x in ta;
    if CanonMembers(a, depth).Some? {
      forall i | 0 <= i < |a| ensures CanonMembers(a, depth).value[i] in CanonMembers(b, depth).value {
        PrintedAmong(a, b, depth, i);
      }
      forall i | 0 <= i < |b| ensures CanonMembers(b, depth).value[i] in CanonMembers(a, depth).value {
        assert tb[i] in tb;
        PrintedAmong(b, a, depth, i);
      }
      PrintedKeys(a, depth);
      PrintedKeys(b, depth);
      SortIsCanonical(CanonMembers(a, depth).value, CanonMembers(b, depth).value);
    }
  }

  lemma {:induction false} SameNormal(u: Json, v: Json)
    requires Normal(u) == Normal(v)
    ensures SameValue(u, v)
    decreases u
  {
    match (u, v)
    case (Arr(a), Arr(b)) =>
      assert |a| == |NormalItems(a)| && |b| == |NormalItems(b)|;
      forall i | 0 <= i < |a| ensures SameValue(a[i], b[i]) {
        assert NormalItems(a)[i] == NormalItems(b)[i];
        SameNormal(a[i], b[i]);
      }
    case (Obj(a), Obj(b)) =>
      var na, nb := NormalMembers(a), NormalMembers(b);
      SortMembers(na);
      SortMembers(nb);
      Same(na, Sort(na), nb) by { Flip(Sort(na), na); }
      forall i | 0 <= i < |a| ensures Matched(a[i], b) {
        assert na[i] in nb;
        var j :| 0 <= j < |b| && nb[j] == na[i];
        SameNormal(a[i].value, b[j].value);
        assert a[i].key == b[j].key && SameValue(a[i].value, b[j].value);
      }
    case _ =>
  }

  lemma Flip<V>(s: seq<Entry<V>>, t: seq<Entry<V>>)
    requires SameMembers(s, t)
    ensures SameMembers(t, s)
  {
  }

  // ---- What is printed can be encoded ----

  predicate Scalars(t: Text) { forall i | 0 <= i < |t| :: !Surrogate(t[i]) }

  lemma {:induction false} EscapedScalars(t: Text)
    requires ValidUnicode(t)
    ensures Scalars(Escaped(t))
  {
    if t != [] {
      EscapedScalars(t[1..]);
    }
  }

  lemma {:induction false} DigitsScalars(n: nat)
    ensures Scalars(Digits(n))
  {
    if n >= 10 {
      DigitsScalars(n / 10);
    }
  }

  lemma {:induction false} ItemsScalars(texts: seq<Text>)
    requires forall i | 0 <= i < |texts| :: Scalars(texts[i])
    ensures Scalars(JoinItems(texts))
  {
    if |texts| > 1 {
      ItemsScalars(texts[1..]);
    }
  }

  lemma {:induction false} MembersScalars(parts: seq<Entry<Text>>)
    requires forall i | 0 <= i < |parts| :: ValidUnicode(parts[i].key) && Scalars(parts[i].value)
    ensures Scalars(JoinMembers(parts))
  {
    if parts != [] {
      EscapedScalars(parts[0].key);
      MembersScalars(parts[1..]);
    }
  }

  lemma {:induction false} CanonScalars(v: Json, depth: nat)
    requires Canon(v, depth).Some?
    ensures Scalars(Canon(v, depth).value)
    decreases v
  {
    match v
    case Int(n) => DigitsScalars(if n < 0 then -n else n);
    case Str(s) => EscapedScalars(s);
    case Arr(items) =>
      var texts := CanonItems(items, depth + 1).value;
      forall i | 0 <= i < |items| ensures Scalars(texts[i]) {
        ItemsAt(items, depth + 1, i);
        CanonScalars(items[i], depth + 1);
      }
      ItemsScalars(texts);
    case Obj(m) =>
      var parts := CanonMembers(m, depth + 1).value;
      forall i | 0 <= i < |m| ensures ValidUnicode(parts[i].key) && Scalars(parts[i].value) {
        MembersAt(m, depth + 1, i);
        CanonScalars(m[i].value, depth + 1);
      }
      SortMembers(parts);
      forall i | 0 <= i < |m| ensures ValidUnicode(Sort(parts)[i].key) && Scalars(Sort(parts)[i].value) {
        assert Sort(parts)[i] in parts;
      }
      MembersScalars(Sort(parts));
    case _ =>
  }

  // ---- The guarantees ----

  lemma NormalIsDictionary(v: Json)
    requires Dictionaries(v) && CanonicalText(v).Some?
    ensures Dictionaries(Normal(v))
  {
    hide Canon, Dictionaries, ReadValue;
    CanonicalTextReads(v);
    ReadsDictionaries(SkipSpace(CanonicalText(v).value));
  }

  lemma CanonicalTextReads(v: Json)
    requires Dictionaries(v) && CanonicalText(v).Some?
    ensures ReadDocument(CanonicalText(v).value) == Some(Normal(v))
  {
    hide ReadValue;
    var t := CanonicalText(v).value;
    CanonReads(v, 0);
    assert t + [] == t;
    assert ReadValue(t + []) == Some((Normal(v), []));
    NoSpace(t);
  }

  /** Strict decoding of canonical bytes returns the same value, with its members in canonical
      order, and canonicalising that gives the same bytes again. */
  lemma DecodeCanonical(v: Json)
    requires Dictionaries(v) && CanonicalBytes(v).Some?
    ensures var bytes := CanonicalBytes(v).value;
            StrictLoads(bytes) == Some(Normal(v)) && SameValue(v, Normal(v)) && CanonicalBytes(Normal(v)) == Some(bytes)
  {
    hide Canon, ReadDocument, SameValue, Dictionaries;
    CanonicalTextReads(v);
    NormalIsSame(v);
    CanonScalars(v, 0);
    DecodeEncode(CanonicalText(v).value);
    NormalIsDictionary(v);
    SamePrints(v, Normal(v), 0);
  }

  /** Canonical bytes are equal exactly for the same value: they tell a bool from an int, keep
      nesting and strings apart, and forget the order of insertion. */
  lemma CanonicalInjective(u: Json, v: Json)
    requires Dictionaries(u) && Dictionaries(v) && CanonicalBytes(u).Some?
    ensures CanonicalBytes(u) == CanonicalBytes(v) <==> SameValue(u, v)
  {
    hide Canon, SameValue, Dictionaries;
    if SameValue(u, v) {
      SamePrints(u, v, 0);
    }
    if CanonicalBytes(u) == CanonicalBytes(v) {
      DecodeCanonical(u);
      DecodeCanonical(v);
      SameNormal(u, v);
    }
  }

  /** Whatever the strict decoder accepts is a value with distinct keys which canonicalises, and
      canonicalise-after-decode is idempotent. */
  lemma CanonicaliseDecoded(payload: seq<Byte>)
    requires StrictLoads(payload).Some?
    ensures var v := StrictLoads(payload).value;
            && Dictionaries(v) && CanonicalBytes(v).Some?
            && StrictLoads(CanonicalBytes(v).value) == Some(Normal(v))
            && CanonicalBytes(StrictLoads(CanonicalBytes(v).value).value) == CanonicalBytes(v)
  {
    hide Canon, SameValue, Dictionaries, ReadValue;
    var text := Decode(payload).value;
    ReadsDictionaries(SkipSpace(text));
    DecodeCanonical(StrictLoads(payload).value);
  }
}
