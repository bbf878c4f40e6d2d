/** The bounded-depth interpreter of the JSON Schema subset. */
module SchemaCheck {
  import opened Records
  import opened Utf
  import opened CanonicalJson
  import opened JsonRoundTrip

  /** One schema node.  `rest` stands for the keywords that look at the value alone and come before
      any descent into it: types, bounds, patterns, formats and required properties. */
  datatype Schema =
    | Always(accept: bool)
    | Node(ref: Option<Id>, allOf: seq<Schema>, oneOf: Option<seq<Schema>>, negated: Option<Schema>,
           branch: Option<Branch>, constant: Option<Json>, enumeration: Option<seq<Json>>, unique: bool,
           rest: Json -> bool, items: Option<Schema>, propertyNames: Option<Schema>, properties: seq<Property>,
           additional: Additional)
  datatype Branch = Branch(test: Schema, yes: Option<Schema>, no: Option<Schema>)
  datatype Additional = Open | Closed | Extras(schema: Schema)
  datatype Property = Property(name: Text, schema: Schema)

  // ---- Equality by canonical bytes ----

  /** `_json_equal`: values that cannot be canonicalised equal nothing. */
  function JsonEqual(u: Json, v: Json): bool {
    CanonicalBytes(u).Some? && CanonicalBytes(u) == CanonicalBytes(v)
  }

  /** `const` and `enum` decide equality of values. */
  lemma JsonEqualIsSameValue(u: Json, v: Json)
    requires Dictionaries(u) && Dictionaries(v)
    ensures JsonEqual(u, v) <==> CanonicalBytes(u).Some? && SameValue(u, v)
  {
    hide CanonicalBytes, SameValue, Dictionaries;
    if CanonicalBytes(u).Some? {
      CanonicalInjective(u, v);
    }
  }

  predicate Repeats(items: seq<Json>) {
    exists i, j | 0 <= i < j < |items| :: CanonicalBytes(items[i]) == CanonicalBytes(items[j])
  }

  /** The `uniqueItems` loop over a set of frozen items. */
  method UniqueItems(items: seq<Json>) returns (ok: bool)
    requires forall i | 0 <= i < |items| :: CanonicalBytes(items[i]).Some?
    ensures ok == !Repeats(items)
  {
    hide CanonicalBytes;
    var seen: set<seq<Byte>> := {};
    for i := 0 to |items|
      invariant forall b :: b in seen <==> exists j | 0 <= j < i :: CanonicalBytes(items[j]) == Some(b)
      invariant forall j, k | 0 <= j < k < i :: CanonicalBytes(items[j]) != CanonicalBytes(items[k])
    {
      var frozen := CanonicalBytes(items[i]).value;
      if frozen in seen {
        var j :| 0 <= j < i && CanonicalBytes(items[j]) == Some(frozen);
        assert CanonicalBytes(items[j]) == CanonicalBytes(items[i]);
        return false;
      }
      seen := seen + {frozen};
    }
    ok := true;
  }

  /** So an array has unique items exactly when no two of them are the same value. */
  lemma UniqueIsNoSameValue(items: seq<Json>)
    requires forall i | 0 <= i < |items| :: Dictionaries(items[i]) && CanonicalBytes(items[i]).Some?
    ensures Repeats(items) <==> exists i, j | 0 <= i < j < |items| :: SameValue(items[i], items[j])
  {
    hide CanonicalBytes, SameValue, Dictionaries;
    forall i, j | 0 <= i < j < |items|
      ensures CanonicalBytes(items[i]) == CanonicalBytes(items[j]) <==> SameValue(items[i], items[j]) {
      CanonicalInjective(items[i], items[j]);
    }
  }

  // ---- What a node asks for, in the order of the code ----

  datatype Task =
    | Must(value: Json, schema: Schema)
    | ExactlyOne(value: Json, schemas: seq<Schema>)
    | MustNot(value: Json, schema: Schema)
    | Choose(value: Json, branch: Branch)
    | Fact(holds: bool)

  type Documents = map<Id, Schema>

  function Musts(v: Json, schemas: seq<Schema>): seq<Task> {
    seq(|schemas|, i requires 0 <= i < |schemas| => Must(v, schemas[i]))
  }

  function ItemTasks(items: seq<Json>, s: Schema): seq<Task> {
    seq(|items|, i requires 0 <= i < |items| => Must(items[i], s))
  }

  function NameTasks(m: seq<Entry<Json>>, s: Schema): seq<Task> {
    seq(|m|, i requires 0 <= i < |m| => Must(Str(m[i].key), s))
  }

  function Member(m: seq<Entry<Json>>, name: Text): Option<Json> {
    if m == [] then None else if m[0].key == name then Some(m[0].value) else Member(m[1..], name)
  }

  function PropertyTasks(m: seq<Entry<Json>>, properties: seq<Property>): seq<Task> {
    if properties == [] then []
    else (match Member(m, properties[0].name) case None => [] case Some(x) => [Must(x, properties[0].schema)])
         + PropertyTasks(m, properties[1..])
  }

  predicate Declared(properties: seq<Property>, name: Text) {
    exists i | 0 <= i < |properties| :: properties[i].name == name
  }

  function ExtraTasks(m: seq<Entry<Json>>, properties: seq<Property>, s: Schema): seq<Task> {
    if m == [] then []
    else (if Declared(properties, m[0].key) then [] else [Must(m[0].value, s)]) + ExtraTasks(m[1..], properties, s)
  }

  function StructureTasks(v: Json, s: Schema): seq<Task>
    requires s.Node?
  {
    match v
    case Arr(items) => [Fact(s.unique ==> !Repeats(items))]
      + (if s.items.Some? then ItemTasks(items, s.items.value) else [])
    case Obj(m) =>
      (if s.propertyNames.Some? then NameTasks(m, s.propertyNames.value) else []) + PropertyTasks(m, s.properties)
      + (match s.additional
         case Open => []
         case Closed => [Fact(forall i | 0 <= i < |m| :: Declared(s.properties, m[i].key))]
         case Extras(extra) => ExtraTasks(m, s.properties, extra))
    case _ => []
  }

  function Tasks(v: Json, s: Schema, docs: Documents): seq<Task>
    requires s.Node?
  {
    (if s.ref.None? then [] else if s.ref.value in docs then [Must(v, docs[s.ref.value])] else [Fact(false)])
    + Musts(v, s.allOf)
    + (if s.oneOf.Some? then [ExactlyOne(v, s.oneOf.value)] else [])
    + (if s.negated.Some? then [MustNot(v, s.negated.value)] else [])
    + (if s.branch.Some? then [Choose(v, s.branch.value)] else [])
    + [Fact(s.constant.Some? ==> JsonEqual(v, s.constant.value)),
       Fact(s.enumeration.Some? ==> exists x | x in s.enumeration.value :: JsonEqual(v, x)),
       Fact(s.rest(v))]
    + StructureTasks(v, s)
  }

  // ---- The interpreter ----

  /** `deep` says whether the depth limit was hit on the way; where `not`, `oneOf` or `if` catch the
      failure, it need not show in the verdict. */
  datatype Judgement = Judgement(ok: bool, deep: bool)

  /** `validate`.  Every call is one deeper, so that cyclic references end too. */
  function Validate(v: Json, s: Schema, docs: Documents, depth: nat, limit: nat): Judgement
    decreases if depth <= limit then limit + 1 - depth else 0, 0, 0
  {
    if depth > limit then Judgement(false, true)
    else
      match s
      case Always(accept) => Judgement(accept, false)
      case _ => RunTasks(Tasks(v, s, docs), docs, depth + 1, limit)
  }

  function RunTasks(tasks: seq<Task>, docs: Documents, depth: nat, limit: nat): Judgement
    decreases if depth <= limit then limit + 1 - depth else 0, 2, |tasks|
  {
    if tasks == [] then Judgement(true, false)
    else
      var first := RunTask(tasks[0], docs, depth, limit);
      if !first.ok then first
      else
        var more := RunTasks(tasks[1..], docs, depth, limit);
        Judgement(more.ok, first.deep || more.deep)
  }

  function RunTask(t: Task, docs: Documents, depth: nat, limit: nat): Judgement
    decreases if depth <= limit then limit + 1 - depth else 0, 1, 1
  {
    match t
    case Must(v, s) => Validate(v, s, docs, depth, limit)
    case ExactlyOne(v, schemas) =>
      var (n, deep) := Matches(v, schemas, docs, depth, limit);
      Judgement(n == 1, deep)
    case MustNot(v, s) =>
      var x := Validate(v, s, docs, depth, limit);
      Judgement(!x.ok, x.deep)
    case Choose(v, b) =>
      var x := Validate(v, b.test, docs, depth, limit);
      (match if x.ok then b.yes else b.no
       case None => Judgement(true, x.deep)
       case Some(s) =>
         var y := Validate(v, s, docs, depth, limit);
         Judgement(y.ok, x.deep || y.deep))
    case Fact(holds) => Judgement(holds, false)
  }

  /** How many alternatives match. */
  function Matches(v: Json, schemas: seq<Schema>, docs: Documents, depth: nat, limit: nat): (nat, bool)
    decreases if depth <= limit then limit + 1 - depth else 0, 1, 0, |schemas|
  {
    if schemas == [] then (0, false)
    else
      var x := Validate(v, schemas[0], docs, depth, limit);
      var (n, deep) := Matches(v, schemas[1..], docs, depth, limit);
      (n + (if x.ok then 1 else 0), x.deep || deep)
  }

  // ---- When the limit does not matter ----

  /** While the limit is not hit, the verdict is that of any larger limit. */
  lemma {:induction false} LimitIrrelevant(v: Json, s: Schema, docs: Documents, depth: nat, limit: nat, larger: nat)
    requires limit <= larger && !Validate(v, s, docs, depth, limit).deep
    ensures Validate(v, s, docs, depth, larger) == Validate(v, s, docs, depth, limit)
    decreases if depth <= limit then limit + 1 - depth else 0, 0, 0
  {
    hide Tasks;
    if s.Node? {
      TasksIrrelevant(Tasks(v, s, docs), docs, depth + 1, limit, larger);
    }
  }

  lemma {:induction false} TasksIrrelevant(tasks: seq<Task>, docs: Documents, depth: nat, limit: nat, larger: nat)
    requires limit <= larger && !RunTasks(tasks, docs, depth, limit).deep
    ensures RunTasks(tasks, docs, depth, larger) == RunTasks(tasks, docs, depth, limit)
    decreases if depth <= limit then limit + 1 - depth else 0, 2, |tasks|
  {
    hide RunTask;
    if tasks != [] {
      TaskIrrelevant(tasks[0], docs, depth, limit, larger);
      if RunTask(tasks[0], docs, depth, limit).ok {
        TasksIrrelevant(tasks[1..], docs, depth, limit, larger);
      }
    }
  }

  lemma {:induction false} TaskIrrelevant(t: Task, docs: Documents, depth: nat, limit: nat, larger: nat)
    requires limit <= larger && !RunTask(t, docs, depth, limit).deep
    ensures RunTask(t, docs, depth, larger) == RunTask(t, docs, depth, limit)
    decreases if depth <= limit then limit + 1 - depth else 0, 1, 1
  {
    hide Validate;
    match t
    case Must(v, s) => LimitIrrelevant(v, s, docs, depth, limit, larger);
    case ExactlyOne(v, schemas) => MatchesIrrelevant(v, schemas, docs, depth, limit, larger);
    case MustNot(v, s) => LimitIrrelevant(v, s, docs, depth, limit, larger);
    case Choose(v, b) =>
      LimitIrrelevant(v, b.test, docs, depth, limit, larger);
      var next := if Validate(v, b.test, docs, depth, limit).ok then b.yes else b.no;
      if next.Some? {
        LimitIrrelevant(v, next.value, docs, depth, limit, larger);
      }
    case Fact(_) =>
  }

  lemma {:induction false} MatchesIrrelevant(v: Json, schemas: seq<Schema>, docs: Documents, depth: nat, limit: nat,
                                             larger: nat)
    requires limit <= larger && !Matches(v, schemas, docs, depth, limit).1
    ensures Matches(v, schemas, docs, depth, larger) == Matches(v, schemas, docs, depth, limit)
    decreases if depth <= limit then limit + 1 - depth else 0, 1, 0, |schemas|
  {
    hide Validate;
    if schemas != [] {
      LimitIrrelevant(v, schemas[0], docs, depth, limit, larger);
      MatchesIrrelevant(v, schemas[1..], docs, depth, limit, larger);
    }
  }

  // ---- Larger limits only accept more, without the keywords that catch failures ----

  predicate Positive(s: Schema) {
    match s
    case Always(_) => true
    case Node(_, allOf, oneOf, negated, branch, _, _, _, _, items, names, properties, additional) =>
      && oneOf.None? && negated.None? && branch.None?
      && (forall i | 0 <= i < |allOf| :: Positive(allOf[i]))
      && (items.Some? ==> Positive(items.value)) && (names.Some? ==> Positive(names.value))
      && (forall i | 0 <= i < |properties| :: Positive(properties[i].schema))
      && (additional.Extras? ==> Positive(additional.schema))
  }

  predicate PositiveTask(t: Task) { t.Fact? || (t.Must? && Positive(t.schema)) }

  predicate PositiveTasks(tasks: seq<Task>) { forall i | 0 <= i < |tasks| :: PositiveTask(tasks[i]) }

  predicate PositiveDocuments(docs: Documents) { forall k | k in docs :: Positive(docs[k]) }

  lemma {:induction false} PropertiesPositive(m: seq<Entry<Json>>, properties: seq<Property>)
    requires forall i | 0 <= i < |properties| :: Positive(properties[i].schema)
    ensures PositiveTasks(PropertyTasks(m, properties))
  {
    if properties != [] {
      PropertiesPositive(m, properties[1..]);
    }
  }

  lemma {:induction false} ExtrasPositive(m: seq<Entry<Json>>, properties: seq<Property>, s: Schema)
    requires Positive(s)
    ensures PositiveTasks(ExtraTasks(m, properties, s))
  {
    if m != [] {
      ExtrasPositive(m[1..], properties, s);
    }
  }

  lemma StructurePositive(v: Json, s: Schema)
    requires s.Node? && Positive(s)
    ensures PositiveTasks(StructureTasks(v, s))
  {
    match v
    case Obj(m) =>
      PropertiesPositive(m, s.properties);
      if s.additional.Extras? {
        ExtrasPositive(m, s.properties, s.additional.schema);
      }
    case _ =>
  }

  lemma TasksPositive(v: Json, s: Schema, docs: Documents)
    requires s.Node? && Positive(s) && PositiveDocuments(docs)
    ensures PositiveTasks(Tasks(v, s, docs))
  {
    StructurePositive(v, s);
    hide StructureTasks;
  }

  lemma {:induction false} LargerLimitAccepts(v: Json, s: Schema, docs: Documents, depth: nat, limit: nat, larger: nat)
    requires limit <= larger && Positive(s) && PositiveDocuments(docs) && Validate(v, s, docs, depth, limit).ok
    ensures Validate(v, s, docs, depth, larger).ok
    decreases if depth <= limit then limit + 1 - depth else 0, 0
  {
    hide Tasks;
    if s.Node? {
      TasksPositive(v, s, docs);
      LargerLimitPasses(Tasks(v, s, docs), docs, depth + 1, limit, larger);
    }
  }

  lemma {:induction false} LargerLimitPasses(tasks: seq<Task>, docs: Documents, depth: nat, limit: nat, larger: nat)
    requires limit <= larger && PositiveTasks(tasks) && PositiveDocuments(docs)
             && RunTasks(tasks, docs, depth, limit).ok
    ensures RunTasks(tasks, docs, depth, larger).ok
    decreases if depth <= limit then limit + 1 - depth else 0, 1, |tasks|
  {
    hide Positive, Validate;
    if tasks != [] {
      assert PositiveTask(tasks[0]);
      if tasks[0].Must? {
        LargerLimitAccepts(tasks[0].value, tasks[0].schema, docs, depth, limit, larger);
      }
      LargerLimitPasses(tasks[1..], docs, depth, limit, larger);
    }
  }

  // ---- Cycles, and what `not` makes of the limit ----

  function Plain(ref: Option<Id>, allOf: seq<Schema>, negated: Option<Schema>): Schema {
    Node(ref, allOf, None, negated, None, None, None, false, _ => true, None, None, [], Open)
  }

  /** A schema that refers to itself rejects everything, at any limit. */
  lemma {:induction false} CyclesReject(v: Json, name: Id, docs: Documents, depth: nat, limit: nat)
    requires name in docs && docs[name] == Plain(Some(name), [], None)
    ensures Validate(v, docs[name], docs, depth, limit) == Judgement(false, true)
    decreases if depth <= limit then limit + 1 - depth else 0
  {
    if depth <= limit {
      CyclesReject(v, name, docs, depth + 1, limit);
      var tasks := Tasks(v, docs[name], docs);
      assert tasks[0] == Must(v, docs[name]);
      assert RunTask(tasks[0], docs, depth + 1, limit) == Validate(v, docs[name], docs, depth + 1, limit);
      assert RunTasks(tasks, docs, depth + 1, limit) == Judgement(false, true);
    }
  }

  /** A chain of `n` nested `allOf`. */
  function Nest(n: nat): Schema { if n == 0 then Always(true) else Plain(None, [Nest(n - 1)], None) }

  lemma FactsPass(tasks: seq<Task>, docs: Documents, depth: nat, limit: nat)
    requires forall i | 0 <= i < |tasks| :: tasks[i] == Fact(true)
    ensures RunTasks(tasks, docs, depth, limit) == Judgement(true, false)
  {
    if tasks != [] {
      FactsPass(tasks[1..], docs, depth, limit);
    }
  }

  /** A nest accepts exactly when it fits under the limit. */
  lemma {:induction false} NestFits(n: nat, docs: Documents, depth: nat, limit: nat)
    ensures Validate(Null, Nest(n), docs, depth, limit).ok <==> depth + n <= limit
    decreases n
  {
    if depth <= limit && n > 0 {
      NestFits(n - 1, docs, depth + 1, limit);
      var tasks := Tasks(Null, Nest(n), docs);
      assert tasks[0] == Must(Null, Nest(n - 1)) && tasks[1..] == [Fact(true), Fact(true), Fact(true)];
      FactsPass(tasks[1..], docs, depth + 1, limit);
      assert RunTask(tasks[0], docs, depth + 1, limit) == Validate(Null, Nest(n - 1), docs, depth + 1, limit);
      assert RunTasks(tasks, docs, depth + 1, limit).ok <==> RunTask(tasks[0], docs, depth + 1, limit).ok;
    }
  }

  /** Under `not` the limit shows: the same schema accepts with a small limit and rejects with a
      larger one, because the code takes a depth failure for a mismatch. */
  lemma NotTurnsDepthIntoAcceptance(n: nat, docs: Documents, limit: nat)
    ensures Validate(Null, Plain(None, [], Some(Nest(n))), docs, 0, limit).ok <==> n >= limit
  {
    NestFits(n, docs, 1, limit);
    var tasks := Tasks(Null, Plain(None, [], Some(Nest(n))), docs);
    assert tasks[0] == MustNot(Null, Nest(n)) && tasks[1..] == [Fact(true), Fact(true), Fact(true)];
    FactsPass(tasks[1..], docs, 1, limit);
    assert RunTask(tasks[0], docs, 1, limit).ok <==> !Validate(Null, Nest(n), docs, 1, limit).ok;
    assert RunTasks(tasks, docs, 1, limit).ok <==> RunTask(tasks[0], docs, 1, limit).ok;
  }

  function OneOfNode(schemas: seq<Schema>): Schema {
    Node(None, [], Some(schemas), None, None, None, None, false, _ => true, None, None, [], Open)
  }

  function IfNode(b: Branch): Schema {
    Node(None, [], None, None, Some(b), None, None, false, _ => true, None, None, [], Open)
  }

  /** The same under `oneOf`, where a depth failure makes one alternative less ... */
  lemma OneOfTurnsDepthIntoAcceptance(n: nat, docs: Documents, limit: nat)
    ensures var s := OneOfNode([Always(true), Nest(n)]);
            0 < limit ==> (Validate(Null, s, docs, 0, limit).ok <==> n >= limit)
  {
    if 0 < limit {
      NestFits(n, docs, 1, limit);
      var s := OneOfNode([Always(true), Nest(n)]);
      var tasks := Tasks(Null, s, docs);
      assert tasks[0] == ExactlyOne(Null, [Always(true), Nest(n)])
             && tasks[1..] == [Fact(true), Fact(true), Fact(true)];
      FactsPass(tasks[1..], docs, 1, limit);
      TwoAlternatives(Always(true), Nest(n), docs, limit);
      assert RunTask(tasks[0], docs, 1, limit).ok <==> !Validate(Null, Nest(n), docs, 1, limit).ok;
      assert RunTasks(tasks, docs, 1, limit).ok <==> RunTask(tasks[0], docs, 1, limit).ok;
    }
  }

  lemma TwoAlternatives(a: Schema, b: Schema, docs: Documents, limit: nat)
    ensures Matches(Null, [a, b], docs, 1, limit).0
            == (if Validate(Null, a, docs, 1, limit).ok then 1 else 0)
               + (if Validate(Null, b, docs, 1, limit).ok then 1 else 0)
  {
    hide Validate;
    assert [a, b][1..] == [b] && [b][1..] == [];
    assert Matches(Null, [b], docs, 1, limit).0 == if Validate(Null, b, docs, 1, limit).ok then 1 else 0;
  }

  /** ... and under `if`, where it selects the other branch. */
  lemma IfTurnsDepthIntoAcceptance(n: nat, docs: Documents, limit: nat)
    ensures var b := Branch(Nest(n), Some(Always(false)), None);
            Validate(Null, IfNode(b), docs, 0, limit).ok <==> n >= limit
  {
    NestFits(n, docs, 1, limit);
    var b := Branch(Nest(n), Some(Always(false)), None);
    var tasks := Tasks(Null, IfNode(b), docs);
    assert tasks[0] == Choose(Null, b) && tasks[1..] == [Fact(true), Fact(true), Fact(true)];
    FactsPass(tasks[1..], docs, 1, limit);
    assert RunTask(tasks[0], docs, 1, limit).ok <==> !Validate(Null, Nest(n), docs, 1, limit).ok;
    assert RunTasks(tasks, docs, 1, limit).ok <==> RunTask(tasks[0], docs, 1, limit).ok;
  }
}
