/** The strict wire decoder: UTF-8, then JSON without floats, constants, duplicate keys or values
    that the canonical printer refuses. */
module JsonDecoder {
  import opened Records
  import opened Utf
  import opened CanonicalJson

  predicate Space(c: CodePoint) { c == 0x20 || c == 0x09 || c == 0x0A || c == 0x0D }

  function SkipSpace(s: Text): (r: Text)
    ensures |r| <= |s|
  {
    if s != [] && Space(s[0]) then SkipSpace(s[1..]) else s
  }

  // ---- Numbers ----

  predicate IsDigit(c: CodePoint) { 0x30 <= c <= 0x39 }

  /** Reads digits as far as they go, after `value`. */
  function ReadDigits(s: Text, value: nat): (r: (nat, Text))
    ensures |r.1| <= |s|
  {
    if s != [] && IsDigit(s[0]) then ReadDigits(s[1..], 10 * value + (s[0] as int - 0x30)) else (value, s)
  }

  /** What may not follow an integer: the rest of a float token. */
  predicate FloatFollows(s: Text) { s != [] && (s[0] == 0x2E || s[0] == 0x65 || s[0] == 0x45) }

  /** A natural number without leading zeros. */
  function ReadNatural(s: Text): (r: Option<(nat, Text)>)
    ensures r.Some? ==> |r.value.1| < |s|
  {
    if s == [] || !IsDigit(s[0]) then None
    else
      var (n, rest) := if s[0] == 0x30 then (0, s[1..]) else ReadDigits(s[1..], s[0] as int - 0x30);
      if FloatFollows(rest) then None else Some((n, rest))
  }

  function ReadNumber(s: Text): (r: Option<(int, Text)>)
    ensures r.Some? ==> |r.value.1| < |s|
  {
    if s != [] && s[0] == MINUS then
      match ReadNatural(s[1..]) case None => None case Some((n, rest)) => Some((-(n as int), rest))
    else
      match ReadNatural(s) case None => None case Some((n, rest)) => Some((n, rest))
  }

  // ---- Strings ----

  function HexValue(c: CodePoint): (r: Option<int>)
    ensures r.Some? ==> 0 <= r.value < 16
  {
    if IsDigit(c) then Some(c as int - 0x30)
    else if 0x61 <= c <= 0x66 then Some(c as int - 0x61 + 10)
    else if 0x41 <= c <= 0x46 then Some(c as int - 0x41 + 10)
    else None
  }

  /** Four hexadecimal digits. */
  function ReadHex(s: Text): (r: Option<CodePoint>)
    ensures r.Some? ==> 4 <= |s| && r.value < 0x10000
  {
    if |s| < 4 then None
    else
      match (HexValue(s[0]), HexValue(s[1]), HexValue(s[2]), HexValue(s[3]))
      case (Some(a), Some(b), Some(c), Some(d)) => Some(4096 * a + 256 * b + 16 * c + d)
      case _ => None
  }

  function SimpleEscape(c: CodePoint): Option<CodePoint> {
    if c == QUOTE || c == BACKSLASH || c == 0x2F then Some(c)
    else if c == 0x62 then Some(0x08)
    else if c == 0x66 then Some(0x0C)
    else if c == 0x6E then Some(0x0A)
    else if c == 0x72 then Some(0x0D)
    else if c == 0x74 then Some(0x09)
    else None
  }

  /** One character of a string body: plain, escaped, or two escapes that form a surrogate pair. */
  function ReadChar(s: Text): (r: Option<(CodePoint, Text)>)
    ensures r.Some? ==> |r.value.1| < |s|
  {
    if s == [] || s[0] < 0x20 || s[0] == QUOTE then None
    else if s[0] != BACKSLASH then Some((s[0], s[1..]))
    else if |s| < 2 then None
    else if s[1] != 0x75 then
      match SimpleEscape(s[1]) case None => None case Some(c) => Some((c, s[2..]))
    else
      match ReadHex(s[2..])
      case None => None
      case Some(c) =>
        if 0xD800 <= c < 0xDC00 && 12 <= |s| && s[6] == BACKSLASH && s[7] == 0x75 then
          match ReadHex(s[8..])
          case Some(d) =>
            if 0xDC00 <= d < 0xE000 then Some((0x10000 + 1024 * (c - 0xD800) + (d - 0xDC00), s[12..]))
            else Some((c, s[6..]))
          case None => Some((c, s[6..]))
        else Some((c, s[6..]))
  }

  /** A string body up to its closing quote. */
  function ReadString(s: Text): (r: Option<(Text, Text)>)
    ensures r.Some? ==> |r.value.1| < |s|
    decreases |s|
  {
    if s == [] then None
    else if s[0] == QUOTE then Some(([], s[1..]))
    else
      match ReadChar(s)
      case None => None
      case Some((c, rest)) =>
        match ReadString(rest)
        case None => None
        case Some((t, after)) => Some(([c] + t, after))
  }

  // ---- Values ----

  predicate StartsWith(s: Text, prefix: Text) { |prefix| <= |s| && s[..|prefix|] == prefix }

  function ReadValue(s: Text): (r: Option<(Json, Text)>)
    ensures r.Some? ==> |r.value.1| < |s|
    decreases |s|, 0
  {
    if s == [] then None
    else if s[0] == QUOTE then
      match ReadString(s[1..]) case None => None case Some((t, rest)) => Some((Str(t), rest))
    else if s[0] == 0x7B then
      var body := SkipSpace(s[1..]);
      if body != [] && body[0] == 0x7D then Some((Obj([]), body[1..]))
      else
        match ReadMembers(body)
        case None => None
        case Some((pairs, rest)) => if DistinctKeys(pairs) then Some((Obj(pairs), rest)) else None
    else if s[0] == 0x5B then
      var body := SkipSpace(s[1..]);
      if body != [] && body[0] == 0x5D then Some((Arr([]), body[1..]))
      else
        match ReadItems(body)
        case None => None
        case Some((items, rest)) => Some((Arr(items), rest))
    else if StartsWith(s, NULL_TEXT) then Some((Null, s[4..]))
    else if StartsWith(s, TRUE_TEXT) then Some((Bool(true), s[4..]))
    else if StartsWith(s, FALSE_TEXT) then Some((Bool(false), s[5..]))
    else
      match ReadNumber(s) case None => None case Some((n, rest)) => Some((Int(n), rest))
  }

  /** The items of an array up to its closing bracket. */
  function ReadItems(s: Text): (r: Option<(seq<Json>, Text)>)
    ensures r.Some? ==> |r.value.1| < |s|
    decreases |s|, 1
  {
    match ReadValue(s)
    case None => None
    case Some((v, after)) =>
      var rest := SkipSpace(after);
      if rest == [] then None
      else if rest[0] == 0x5D then Some(([v], rest[1..]))
      else if rest[0] != COMMA then None
      else
        match ReadItems(SkipSpace(rest[1..]))
        case None => None
        case Some((items, end)) => Some(([v] + items, end))
  }

  /** The pairs of an object up to its closing brace. */
  function ReadMembers(s: Text): (r: Option<(seq<Entry<Json>>, Text)>)
    ensures r.Some? ==> |r.value.1| < |s|
    decreases |s|, 1
  {
    if s == [] || s[0] != QUOTE then None
    else
      match ReadString(s[1..])
      case None => None
      case Some((key, afterKey)) =>
        var colon := SkipSpace(afterKey);
        if colon == [] || colon[0] != COLON then None
        else
          match ReadValue(SkipSpace(colon[1..]))
          case None => None
          case Some((v, after)) =>
            var rest := SkipSpace(after);
            if rest == [] then None
            else if rest[0] == 0x7D then Some(([Entry(key, v)], rest[1..]))
            else if rest[0] != COMMA then None
            else
              match ReadMembers(SkipSpace(rest[1..]))
              case None => None
              case Some((pairs, end)) => Some(([Entry(key, v)] + pairs, end))
  }

  /** One JSON document with space around it. */
  function ReadDocument(s: Text): Option<Json> {
    match ReadValue(SkipSpace(s))
    case None => None
    case Some((v, rest)) => if SkipSpace(rest) == [] then Some(v) else None
  }

  /** `strict_json_loads`. */
  function StrictLoads(payload: seq<Byte>): Option<Json> {
    match Decode(payload)
    case None => None
    case Some(text) =>
      match ReadDocument(text)
      case None => None
      case Some(v) => if CanonicalBytes(v).Some? then Some(v) else None
  }

  /** `_object_pairs`: fills a dictionary and rejects the first duplicate. */
  method ObjectPairs(pairs: seq<Entry<Json>>) returns (r: Option<Json>)
    ensures r == if DistinctKeys(pairs) then Some(Obj(pairs)) else None
  {
    var result: seq<Entry<Json>>, seen: set<Text> := [], {};
    for i := 0 to |pairs|
      invariant result == pairs[..i] && DistinctKeys(result)
      invariant forall k :: k in seen <==> exists j | 0 <= j < i :: pairs[j].key == k
    {
      if pairs[i].key in seen {
        assert !DistinctKeys(pairs);
        return None;
      }
      result, seen := result + [pairs[i]], seen + {pairs[i].key};
    }
    assert pairs[..|pairs|] == pairs;
    r := Some(Obj(result));
  }

  // ---- What is read is a value with distinct keys ----

  lemma {:induction false} ReadsDictionaries(s: Text)
    requires ReadValue(s).Some?
    ensures Dictionaries(ReadValue(s).value.0)
    decreases |s|, 0
  {
    if s[0] == 0x7B {
      var body := SkipSpace(s[1..]);
      if body == [] || body[0] != 0x7D {
        MembersAreDictionaries(body);
      }
    } else if s[0] == 0x5B {
      var body := SkipSpace(s[1..]);
      if body == [] || body[0] != 0x5D {
        ItemsAreDictionaries(body);
      }
    }
  }

  lemma {:induction false} ItemsAreDictionaries(s: Text)
    requires ReadItems(s).Some?
    ensures forall i | 0 <= i < |ReadItems(s).value.0| :: Dictionaries(ReadItems(s).value.0[i])
    decreases |s|, 1
  {
    hide Dictionaries, ReadValue, SkipSpace;
    ReadsDictionaries(s);
    var rest := SkipSpace(ReadValue(s).value.1);
    if rest[0] == COMMA {
      ItemsAreDictionaries(SkipSpace(rest[1..]));
    }
  }

  lemma {:induction false} MembersAreDictionaries(s: Text)
    requires ReadMembers(s).Some?
    ensures forall i | 0 <= i < |ReadMembers(s).value.0| :: Dictionaries(ReadMembers(s).value.0[i].value)
    decreases |s|, 1
  {
    hide Dictionaries, ReadValue, SkipSpace, ReadString;
    var colon := SkipSpace(ReadString(s[1..]).value.1);
    var at := SkipSpace(colon[1..]);
    ReadsDictionaries(at);
    var rest := SkipSpace(ReadValue(at).value.1);
    if rest[0] == COMMA {
      MembersAreDictionaries(SkipSpace(rest[1..]));
    }
  }
}
