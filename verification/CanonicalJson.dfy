/** The canonical printer of the integer-only JSON subset (RFC 8785, section 3.2). */
module CanonicalJson {
  import opened Records
  import opened Utf

  datatype Entry<V> = Entry(key: Text, value: V)

  /** A Python dictionary keeps its insertion order and has distinct keys.  `Unsupported` stands
      for floats, for dictionaries with other keys and for everything that is not JSON. */
  datatype Json =
    | Null
    | Bool(b: bool)
    | Int(n: int)
    | Str(s: Text)
    | Arr(items: seq<Json>)
    | Obj(members: seq<Entry<Json>>)
    | Unsupported

  const MAX_SAFE_INTEGER := 9_007_199_254_740_991
  const MAX_DEPTH := 128

  predicate DistinctKeys<V>(m: seq<Entry<V>>) {
    forall i, j | 0 <= i < j < |m| :: m[i].key != m[j].key
  }

  ghost predicate ValidKeys<V>(m: seq<Entry<V>>) {
    forall e | e in m :: ValidUnicode(e.key)
  }

  /** The dictionary invariant, at every level. */
  predicate Dictionaries(v: Json) {
    match v
    case Arr(items) => forall i | 0 <= i < |items| :: Dictionaries(items[i])
    case Obj(m) => DistinctKeys(m) && forall i | 0 <= i < |m| :: Dictionaries(m[i].value)
    case _ => true
  }

  /** Equality of JSON values: of dictionaries without regard to order, and never of a bool and
      an int. */
  predicate SameValue(u: Json, v: Json) {
    match (u, v)
    case (Arr(a), Arr(b)) => |a| == |b| && forall i | 0 <= i < |a| :: SameValue(a[i], b[i])
    case (Obj(a), Obj(b)) => |a| == |b| && forall i | 0 <= i < |a| :: Matched(a[i], b)
    case _ => u == v
  }

  predicate Matched(e: Entry<Json>, b: seq<Entry<Json>>) {
    exists j | 0 <= j < |b| :: e.key == b[j].key && SameValue(e.value, b[j].value)
  }

  // ---- Scalars ----

  const NULL_TEXT: Text := [0x6E, 0x75, 0x6C, 0x6C]
  const TRUE_TEXT: Text := [0x74, 0x72, 0x75, 0x65]
  const FALSE_TEXT: Text := [0x66, 0x61, 0x6C, 0x73, 0x65]

  const QUOTE: CodePoint := 0x22
  const BACKSLASH: CodePoint := 0x5C
  const COMMA: CodePoint := 0x2C
  const COLON: CodePoint := 0x3A
  const MINUS: CodePoint := 0x2D

  function Digits(n: nat): (t: Text)
    ensures t != []
  {
    if n < 10 then [0x30 + n] else Digits(n / 10) + [0x30 + n % 10]
  }

  function Number(n: int): Text { if n < 0 then [MINUS] + Digits(-n) else Digits(n) }

  function Hex(d: int): CodePoint
    requires 0 <= d < 16
  {
    if d < 10 then 0x30 + d else 0x61 + (d - 10)
  }

  /** `json.dumps(..., ensure_ascii=False)` of one character. */
  function Escape(c: CodePoint): Text {
    if c == QUOTE || c == BACKSLASH then [BACKSLASH, c]
    else if c == 0x08 then [BACKSLASH, 0x62]
    else if c == 0x0C then [BACKSLASH, 0x66]
    else if c == 0x0A then [BACKSLASH, 0x6E]
    else if c == 0x0D then [BACKSLASH, 0x72]
    else if c == 0x09 then [BACKSLASH, 0x74]
    else if c < 0x20 then [BACKSLASH, 0x75, 0x30, 0x30, Hex(c / 16), Hex(c % 16)]
    else [c]
  }

  function Escaped(s: Text): Text {
    if s == [] then [] else Escape(s[0]) + Escaped(s[1..])
  }

  function Quoted(s: Text): Text { [QUOTE] + Escaped(s) + [QUOTE] }

  // ---- Objects ----

  predicate Before<V>(a: Entry<V>, b: Entry<V>) { Less(Utf16(a.key), Utf16(b.key)) }

  function Insert<V>(e: Entry<V>, s: seq<Entry<V>>): seq<Entry<V>> {
    if s == [] || Before(e, s[0]) then [e] + s else [s[0]] + Insert(e, s[1..])
  }

  /** `sorted(..., key=_utf16_sort_key)`. */
  function Sort<V>(s: seq<Entry<V>>): seq<Entry<V>> {
    if s == [] then [] else Insert(s[0], Sort(s[1..]))
  }

  function MemberText(e: Entry<Text>): Text { Quoted(e.key) + [COLON] + e.value }

  function JoinMembers(s: seq<Entry<Text>>): Text {
    if s == [] then [] else if |s| == 1 then MemberText(s[0]) else MemberText(s[0]) + [COMMA] + JoinMembers(s[1..])
  }

  function JoinItems(s: seq<Text>): Text {
    if s == [] then [] else if |s| == 1 then s[0] else s[0] + [COMMA] + JoinItems(s[1..])
  }

  // ---- The specification: print the members, then sort them ----

  function CanonItems(items: seq<Json>, depth: nat): (r: Option<seq<Text>>)
    ensures r.Some? ==> |r.value| == |items|
    decreases items, 0
  {
    if items == [] then Some([])
    else
      match (Canon(items[0], depth), CanonItems(items[1..], depth))
      case (Some(x), Some(rest)) => Some([x] + rest)
      case _ => None
  }

  function CanonMembers(m: seq<Entry<Json>>, depth: nat): (r: Option<seq<Entry<Text>>>)
    ensures r.Some? ==> |r.value| == |m|
    decreases m, 0
  {
    if m == [] then Some([])
    else
      match (Canon(m[0].value, depth), CanonMembers(m[1..], depth))
      case (Some(x), Some(rest)) => if ValidUnicode(m[0].key) then Some([Entry(m[0].key, x)] + rest) else None
      case _ => None
  }

  /** What `_canonicalize` returns, as text. */
  function Canon(v: Json, depth: nat): Option<Text>
    decreases v, 1
  {
    if depth > MAX_DEPTH then None
    else
      match v
      case Null => Some(NULL_TEXT)
      case Bool(b) => Some(if b then TRUE_TEXT else FALSE_TEXT)
      case Int(n) => if -MAX_SAFE_INTEGER <= n <= MAX_SAFE_INTEGER then Some(Number(n)) else None
      case Str(s) => if ValidUnicode(s) then Some(Quoted(s)) else None
      case Arr(items) =>
        (match CanonItems(items, depth + 1)
         case None => None
         case Some(texts) => Some([0x5B] + JoinItems(texts) + [0x5D]))
      case Obj(m) =>
        (match CanonMembers(m, depth + 1)
         case None => None
         case Some(parts) => Some([0x7B] + JoinMembers(Sort(parts)) + [0x7D]))
      case Unsupported => None
  }

  function CanonicalText(v: Json): Option<Text> { Canon(v, 0) }

  /** `canonical_bytes`. */
  function CanonicalBytes(v: Json): Option<seq<Byte>> {
    match CanonicalText(v) case None => None case Some(t) => Some(Encode(t))
  }

  // ---- Sorting ----

  ghost predicate FirstBefore<V>(e: Entry<V>, s: seq<Entry<V>>) { forall x | x in s :: Before(e, x) }

  ghost predicate Sorted<V>(s: seq<Entry<V>>) {
    s == [] || (FirstBefore(s[0], s[1..]) && Sorted(s[1..]))
  }

  ghost predicate SameMembers<V>(s: seq<Entry<V>>, t: seq<Entry<V>>) {
    (forall i | 0 <= i < |s| :: s[i] in t) && (forall i | 0 <= i < |t| :: t[i] in s)
  }

  lemma HeadOrTail<V>(s: seq<Entry<V>>)
    requires s != []
    ensures forall x :: x in s <==> x == s[0] || x in s[1..]
  {
    assert s == [s[0]] + s[1..];
  }

  lemma {:induction false} InsertMembers<V>(e: Entry<V>, s: seq<Entry<V>>)
    ensures |Insert(e, s)| == |s| + 1 && SameMembers(Insert(e, s), [e] + s)
  {
    if s != [] && !Before(e, s[0]) {
      InsertMembers(e, s[1..]);
      var t, u := Insert(e, s[1..]), [e] + s;
      AddHead(s[0], t, [e] + s[1..]);
      assert Insert(e, s) == [s[0]] + t;
      var v := [s[0]] + ([e] + s[1..]);
      assert v[0] == u[1] && v[1] == u[0] && forall i | 2 <= i < |v| :: v[i] == u[i];
      Swapped(v, u);
      Same(Insert(e, s), v, u);
    } else {
      assert Insert(e, s) == [e] + s;
    }
  }

  lemma Same<V>(s: seq<Entry<V>>, t: seq<Entry<V>>, u: seq<Entry<V>>)
    requires SameMembers(s, t) && SameMembers(t, u)
    ensures SameMembers(s, u)
  {
    forall i | 0 <= i < |s| ensures s[i] in u {
      var j :| 0 <= j < |t| && t[j] == s[i];
    }
    forall i | 0 <= i < |u| ensures u[i] in s {
      var j :| 0 <= j < |t| && t[j] == u[i];
    }
  }

  lemma Swapped<V>(s: seq<Entry<V>>, t: seq<Entry<V>>)
    requires |s| == |t| && 2 <= |s| && s[0] == t[1] && s[1] == t[0] && forall i | 2 <= i < |s| :: s[i] == t[i]
    ensures SameMembers(s, t)
  {
    forall i | 0 <= i < |s| ensures s[i] in t && t[i] in s {
      var j := if i == 0 then 1 else if i == 1 then 0 else i;
      assert s[i] == t[j] && t[i] == s[j];
    }
  }

  lemma AddHead<V>(e: Entry<V>, s: seq<Entry<V>>, t: seq<Entry<V>>)
    requires SameMembers(s, t)
    ensures SameMembers([e] + s, [e] + t)
  {
    var u, v := [e] + s, [e] + t;
    forall i | 0 <= i < |u| ensures u[i] in v {
      if i > 0 {
        var j :| 0 <= j < |t| && t[j] == s[i - 1];
        assert v[j + 1] == u[i];
      } else {
        assert v[0] == u[0];
      }
    }
    forall i | 0 <= i < |v| ensures v[i] in u {
      if i > 0 {
        var j :| 0 <= j < |s| && s[j] == t[i - 1];
        assert u[j + 1] == v[i];
      } else {
        assert v[0] == u[0];
      }
    }
  }

  lemma {:induction false} SortMembers<V>(s: seq<Entry<V>>)
    ensures |Sort(s)| == |s| && SameMembers(Sort(s), s)
  {
    if s != [] {
      SortMembers(s[1..]);
      InsertMembers(s[0], Sort(s[1..]));
      AddHead(s[0], Sort(s[1..]), s[1..]);
      assert [s[0]] + s[1..] == s;
      Same(Sort(s), [s[0]] + Sort(s[1..]), s);
    }
  }

  lemma NotBeforeIsAfter<V>(e: Entry<V>, x: Entry<V>)
    requires ValidUnicode(e.key) && ValidUnicode(x.key) && e.key != x.key && !Before(e, x)
    ensures Before(x, e)
  {
    LessTotal(Utf16(e.key), Utf16(x.key));
    if Utf16(e.key) == Utf16(x.key) {
      Utf16Injective(e.key, x.key);
    }
  }

  lemma {:induction false} InsertSorted<V>(e: Entry<V>, s: seq<Entry<V>>)
    requires Sorted(s) && ValidUnicode(e.key) && ValidKeys(s)
    requires forall x | x in s :: x.key != e.key
    ensures Sorted(Insert(e, s))
  {
    hide ValidUnicode;
    if s != [] {
      HeadOrTail(s);
      if Before(e, s[0]) {
        forall x | x in s ensures Before(e, x) {
          if x != s[0] {
            assert Before(s[0], x);
            LessTransitive(Utf16(e.key), Utf16(s[0].key), Utf16(x.key));
          }
        }
      } else {
        NotBeforeIsAfter(e, s[0]);
        InsertSorted(e, s[1..]);
        InsertMembers(e, s[1..]);
        var t := Insert(e, s[1..]);
        assert FirstBefore(s[0], t);
        assert ([s[0]] + t)[1..] == t;
      }
    }
  }

  lemma {:induction false} SortedAfter<V>(s: seq<Entry<V>>)
    requires DistinctKeys(s) && ValidKeys(s)
    ensures Sorted(Sort(s))
  {
    hide ValidUnicode;
    if s != [] {
      SortedAfter(s[1..]);
      SortMembers(s[1..]);
      HeadOrTail(s);
      var t := Sort(s[1..]);
      forall x | x in t ensures x.key != s[0].key && ValidUnicode(x.key) {
        assert x in s[1..] && x in s;
        var j :| 0 < j < |s| && s[j] == x;
      }
      assert s[0] in s;
      InsertSorted(s[0], t);
    }
  }

  lemma {:induction false} SortedPairs<V>(s: seq<Entry<V>>, i: nat, j: nat)
    requires Sorted(s) && i < j < |s|
    ensures Before(s[i], s[j])
  {
    if i == 0 {
      assert s[j] in s[1..];
    } else {
      SortedPairs(s[1..], i - 1, j - 1);
    }
  }

  /** The sorted members are the same ones, and their keys ascend by 16-bit code units, a key before
      every key that it is a proper prefix of. */
  lemma SortSorts<V>(s: seq<Entry<V>>)
    requires DistinctKeys(s) && ValidKeys(s)
    ensures |Sort(s)| == |s| && SameMembers(Sort(s), s)
    ensures forall i, j | 0 <= i < j < |Sort(s)| :: Precedes(CodeUnits(Sort(s)[i].key), CodeUnits(Sort(s)[j].key))
  {
    hide Precedes, SameMembers;
    SortedAfter(s);
    SortMembers(s);
    forall i, j | 0 <= i < j < |Sort(s)|
      ensures Precedes(CodeUnits(Sort(s)[i].key), CodeUnits(Sort(s)[j].key))
    {
      SortedPairs(Sort(s), i, j);
      KeysByCodeUnits(Sort(s)[i].key, Sort(s)[j].key);
    }
  }

  /** The order in which members were inserted leaves no trace. */
  lemma {:induction false} SortedUnique<V>(s: seq<Entry<V>>, t: seq<Entry<V>>)
    requires Sorted(s) && Sorted(t) && SameMembers(s, t)
    ensures s == t
  {
    assert t != [] ==> t[0] in t;
    if s != [] {
      assert s[0] in s;
      HeadOrTail(s);
      HeadOrTail(t);
      if s[0] != t[0] {
        LessTransitive(Utf16(s[0].key), Utf16(t[0].key), Utf16(s[0].key));
        LessIrreflexive(Utf16(s[0].key));
      }
      forall x ensures x in s[1..] <==> x in t[1..] {
        LessIrreflexive(Utf16(s[0].key));
      }
      SortedUnique(s[1..], t[1..]);
      assert s == [s[0]] + s[1..] && t == [t[0]] + t[1..];
    }
  }

  lemma {:induction false} SortedDistinct<V>(s: seq<Entry<V>>)
    requires Sorted(s)
    ensures DistinctKeys(s)
  {
    if s != [] {
      SortedDistinct(s[1..]);
      forall j | 0 < j < |s| ensures s[0].key != s[j].key {
        assert s[j] in s[1..];
        LessIrreflexive(Utf16(s[0].key));
      }
      forall i, j | 0 < i < j < |s| ensures s[i].key != s[j].key {
        assert s[1..][i - 1] == s[i] && s[1..][j - 1] == s[j];
      }
    }
  }

  lemma SortIsCanonical<V>(s: seq<Entry<V>>, t: seq<Entry<V>>)
    requires DistinctKeys(s) && ValidKeys(s) && DistinctKeys(t) && ValidKeys(t)
    requires SameMembers(s, t)
    ensures Sort(s) == Sort(t)
  {
    SortedAfter(s);
    SortedAfter(t);
    SortMembers(s);
    SortMembers(t);
    SortedUnique(Sort(s), Sort(t));
  }

  // ---- The code: sort the members, then print them ----

  lemma {:induction false} MembersAt(m: seq<Entry<Json>>, depth: nat, i: nat)
    requires CanonMembers(m, depth).Some? && i < |m|
    ensures Canon(m[i].value, depth).Some? && ValidUnicode(m[i].key)
            && CanonMembers(m, depth).value[i] == Entry(m[i].key, Canon(m[i].value, depth).value)
  {
    if i > 0 {
      MembersAt(m[1..], depth, i - 1);
    }
  }

  lemma {:induction false} MembersAll(m: seq<Entry<Json>>, depth: nat)
    requires forall i | 0 <= i < |m| :: Canon(m[i].value, depth).Some? && ValidUnicode(m[i].key)
    ensures CanonMembers(m, depth).Some?
  {
    if m != [] {
      MembersAll(m[1..], depth);
    }
  }

  lemma {:induction false} ItemsAt(items: seq<Json>, depth: nat, i: nat)
    requires CanonItems(items, depth).Some? && i < |items|
    ensures Canon(items[i], depth).Some? && CanonItems(items, depth).value[i] == Canon(items[i], depth).value
  {
    if i > 0 {
      ItemsAt(items[1..], depth, i - 1);
    }
  }

  lemma {:induction false} ItemsAll(items: seq<Json>, depth: nat)
    requires forall i | 0 <= i < |items| :: Canon(items[i], depth).Some?
    ensures CanonItems(items, depth).Some?
  {
    if items != [] {
      ItemsAll(items[1..], depth);
    }
  }

  /** One member, printed. */
  function Print(e: Entry<Json>, depth: nat): Option<Entry<Text>> {
    match Canon(e.value, depth)
    case None => None
    case Some(x) => if ValidUnicode(e.key) then Some(Entry(e.key, x)) else None
  }

  lemma {:induction false} PrintInserted(e: Entry<Json>, m: seq<Entry<Json>>, depth: nat)
    ensures CanonMembers(Insert(e, m), depth) ==
            if Print(e, depth).Some? && CanonMembers(m, depth).Some?
            then Some(Insert(Print(e, depth).value, CanonMembers(m, depth).value)) else None
  {
    if m != [] && !Before(e, m[0]) {
      PrintInserted(e, m[1..], depth);
    }
  }

  /** Printing the sorted members is sorting the printed ones. */
  lemma {:induction false} PrintSorted(m: seq<Entry<Json>>, depth: nat)
    ensures CanonMembers(Sort(m), depth) ==
            if CanonMembers(m, depth).Some? then Some(Sort(CanonMembers(m, depth).value)) else None
  {
    if m != [] {
      PrintSorted(m[1..], depth);
      PrintInserted(m[0], Sort(m[1..]), depth);
      if CanonMembers(m, depth).Some? {
        assert CanonMembers(m, depth).value[1..] == CanonMembers(m[1..], depth).value;
      }
    }
  }

  lemma {:induction false} MembersAppended(m: seq<Entry<Json>>, e: Entry<Json>, depth: nat)
    ensures CanonMembers(m + [e], depth) ==
            if CanonMembers(m, depth).Some? && Print(e, depth).Some?
            then Some(CanonMembers(m, depth).value + [Print(e, depth).value]) else None
  {
    if m == [] {
      assert m + [e] == [e] && [e][1..] == [];
      assert CanonMembers([e][1..], depth) == Some([]);
      if Print(e, depth).Some? {
        var x, none: seq<Entry<Text>> := Print(e, depth).value, [];
        assert [x] + none == none + [x];
      }
    } else {
      assert (m + [e])[1..] == m[1..] + [e];
      MembersAppended(m[1..], e, depth);
      if CanonMembers(m, depth).Some? && Print(e, depth).Some? {
        var x, rest, y := Print(m[0], depth).value, CanonMembers(m[1..], depth).value, Print(e, depth).value;
        assert [x] + (rest + [y]) == ([x] + rest) + [y];
      }
    }
  }

  lemma {:induction false} MembersPrefixFails(m: seq<Entry<Json>>, n: nat, depth: nat)
    requires n <= |m| && CanonMembers(m[..n], depth) == None
    ensures CanonMembers(m, depth) == None
  {
    if m != [] && n > 0 {
      assert m[..n][1..] == m[1..][..n - 1];
      if CanonMembers(m[1..][..n - 1], depth) == None {
        MembersPrefixFails(m[1..], n - 1, depth);
      }
    }
  }

  lemma {:induction false} ItemsAppended(items: seq<Json>, v: Json, depth: nat)
    ensures CanonItems(items + [v], depth) ==
            if CanonItems(items, depth).Some? && Canon(v, depth).Some?
            then Some(CanonItems(items, depth).value + [Canon(v, depth).value]) else None
  {
    if items == [] {
      assert items + [v] == [v] && [v][1..] == [];
      assert CanonItems([v][1..], depth) == Some([]);
      if Canon(v, depth).Some? {
        var x, none: seq<Text> := Canon(v, depth).value, [];
        assert [x] + none == none + [x];
      }
    } else {
      assert (items + [v])[1..] == items[1..] + [v];
      ItemsAppended(items[1..], v, depth);
      if CanonItems(items, depth).Some? && Canon(v, depth).Some? {
        var x, rest, y := Canon(items[0], depth).value, CanonItems(items[1..], depth).value, Canon(v, depth).value;
        assert [x] + (rest + [y]) == ([x] + rest) + [y];
      }
    }
  }

  lemma {:induction false} ItemsPrefixFails(items: seq<Json>, n: nat, depth: nat)
    requires n <= |items| && CanonItems(items[..n], depth) == None
    ensures CanonItems(items, depth) == None
  {
    if items != [] && n > 0 {
      assert items[..n][1..] == items[1..][..n - 1];
      if CanonItems(items[1..][..n - 1], depth) == None {
        ItemsPrefixFails(items[1..], n - 1, depth);
      }
    }
  }

  /** The object branch of `_canonicalize` walks the sorted keys and appends each printed member to
      a list of parts. */
  method CanonicalizeMembers(m: seq<Entry<Json>>, depth: nat) returns (r: Option<seq<Entry<Text>>>)
    ensures r == match CanonMembers(m, depth) case None => None case Some(parts) => Some(Sort(parts))
    decreases m, 0
  {
    hide ValidUnicode, Canon, Before;
    var sorted := Sort(m);
    SortMembers(m);
    PrintSorted(m, depth);
    var parts: seq<Entry<Text>> := [];
    for i := 0 to |sorted|
      invariant CanonMembers(sorted[..i], depth) == Some(parts)
    {
      assert sorted[..i + 1] == sorted[..i] + [sorted[i]];
      MembersAppended(sorted[..i], sorted[i], depth);
      assert sorted[i] in m;
      var text := Canonicalize(sorted[i].value, depth);
      if text.None? || !ValidUnicode(sorted[i].key) {
        MembersPrefixFails(sorted, i + 1, depth);
        return None;
      }
      parts := parts + [Entry(sorted[i].key, text.value)];
    }
    assert sorted[..|sorted|] == sorted;
    r := Some(parts);
  }

  /** `_canonicalize`. */
  method Canonicalize(v: Json, depth: nat) returns (r: Option<Text>)
    ensures r == Canon(v, depth)
    decreases v, 1
  {
    hide ValidUnicode, JoinMembers, JoinItems, Sort, Number, Quoted;
    if depth > MAX_DEPTH {
      return None;
    }
    match v {
      case Arr(items) =>
        var texts: seq<Text> := [];
        for i := 0 to |items|
          invariant CanonItems(items[..i], depth + 1) == Some(texts)
        {
          assert items[..i + 1] == items[..i] + [items[i]];
          ItemsAppended(items[..i], items[i], depth + 1);
          var text := Canonicalize(items[i], depth + 1);
          if text.None? {
            ItemsPrefixFails(items, i + 1, depth + 1);
            return None;
          }
          texts := texts + [text.value];
        }
        assert items[..|items|] == items;
        r := Some([0x5B] + JoinItems(texts) + [0x5D]);
      case Obj(m) =>
        var parts := CanonicalizeMembers(m, depth + 1);
        r := match parts case None => None case Some(p) => Some([0x7B] + JoinMembers(p) + [0x7D]);
      case _ =>
        r := Canon(v, depth);
    }
  }

  // ---- Exactly what is printed, and when ----

  /** No surrogates and no replacement characters. */
  predicate PlainText(s: Text) { forall c | c in s :: !(0xD800 <= c <= 0xDFFF) && c != 0xFFFD }

  /** Integers that a double holds exactly, text without surrogates and replacement characters. */
  predicate Interoperable(v: Json) {
    match v
    case Int(n) => -9_007_199_254_740_991 <= n <= 9_007_199_254_740_991
    case Str(s) => PlainText(s)
    case Arr(items) => forall i | 0 <= i < |items| :: Interoperable(items[i])
    case Obj(m) =>
      forall i | 0 <= i < |m| :: PlainText(m[i].key) && Interoperable(m[i].value)
    case Unsupported => false
    case _ => true
  }

  /** How many levels of containers lie around the innermost value. */
  function Height(v: Json): nat
    decreases v, 1
  {
    match v
    case Arr(items) => HighestItem(items)
    case Obj(m) => HighestMember(m)
    case _ => 0
  }

  function Max(a: nat, b: nat): nat { if a < b then b else a }

  function HighestItem(items: seq<Json>): nat
    decreases items, 0
  {
    if items == [] then 0 else Max(1 + Height(items[0]), HighestItem(items[1..]))
  }

  function HighestMember(m: seq<Entry<Json>>): nat
    decreases m, 0
  {
    if m == [] then 0 else Max(1 + Height(m[0].value), HighestMember(m[1..]))
  }

  lemma ValidText(s: Text)
    ensures ValidUnicode(s) <==> PlainText(s)
  {
    forall i | 0 <= i < |s| ensures s[i] in s { }
  }

  lemma {:induction false} ItemsPrintExactly(items: seq<Json>, depth: nat)
    ensures CanonItems(items, depth).Some? <==>
              (forall i | 0 <= i < |items| :: Interoperable(items[i]))
                && (items == [] || depth + HighestItem(items) <= 129)
    decreases items, 0
  {
    if items != [] {
      PrintsExactly(items[0], depth);
      ItemsPrintExactly(items[1..], depth);
      assert forall i | 0 < i < |items| :: items[i] == items[1..][i - 1];
      assert items == [items[0]] + items[1..];
    }
  }

  lemma {:induction false} MembersPrintExactly(m: seq<Entry<Json>>, depth: nat)
    ensures CanonMembers(m, depth).Some? <==>
              (forall i | 0 <= i < |m| :: PlainText(m[i].key) && Interoperable(m[i].value))
              && (m == [] || depth + HighestMember(m) <= 129)
    decreases m, 0
  {
    if m != [] {
      hide ValidUnicode, PlainText;
      ValidText(m[0].key);
      PrintsExactly(m[0].value, depth);
      MembersPrintExactly(m[1..], depth);
      assert forall i | 0 < i < |m| :: m[i] == m[1..][i - 1];
      assert m == [m[0]] + m[1..];
    }
  }

  /** A value is printed exactly when all its numbers and texts are interoperable and no value in it
      lies deeper than 128 levels. */
  lemma {:induction false} PrintsExactly(v: Json, depth: nat)
    ensures Canon(v, depth).Some? <==> Interoperable(v) && depth + Height(v) <= 128
    decreases v, 1
  {
    hide ValidUnicode, PlainText, Sort, JoinItems, JoinMembers, Quoted, Number, CanonItems, CanonMembers;
    match v
    case Str(s) => ValidText(s);
    case Arr(items) => ItemsPrintExactly(items, depth + 1);
    case Obj(m) => MembersPrintExactly(m, depth + 1);
    case _ =>
  }

  /** The value of a lower-case hexadecimal digit. */
  function DigitOf(c: CodePoint): int {
    if 0x30 <= c <= 0x39 then c - 0x30 else if 0x61 <= c <= 0x66 then c - 0x61 + 10 else -1
  }

  /** Section 3.2.2.2 of RFC 8785: quote, backslash and five control characters have short forms, the
      other control characters four lower-case hexadecimal digits, and every other character is
      printed as it is. */
  lemma EscapesExactly(c: CodePoint)
    ensures var short := map[0x22 := 0x22, 0x5C := 0x5C, 0x08 := 0x62, 0x09 := 0x74, 0x0A := 0x6E, 0x0C := 0x66,
                             0x0D := 0x72];
            && (c in short ==> Escape(c) == [0x5C, short[c]])
            && (c !in short && c < 0x20 ==>
                  && |Escape(c)| == 6 && Escape(c)[..4] == [0x5C, 0x75, 0x30, 0x30]
                  && 0 <= DigitOf(Escape(c)[4]) && 0 <= DigitOf(Escape(c)[5])
                  && 16 * DigitOf(Escape(c)[4]) + DigitOf(Escape(c)[5]) == c)
            && (c !in short && 0x20 <= c ==> Escape(c) == [c])
  {
  }
}
