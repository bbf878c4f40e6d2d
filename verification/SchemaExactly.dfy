/** What a schema node accepts, keyword by keyword and without the order of the code. */
module SchemaExactly {
  import opened Records
  import opened Utf
  import opened CanonicalJson
  import opened JsonRoundTrip
  import opened SchemaCheck

  // ---- A list of tasks is passed by passing each ----

  function Passes(t: Task, docs: Documents, depth: nat, limit: nat): bool { RunTask(t, docs, depth, limit).ok }

  predicate AllPass(tasks: seq<Task>, docs: Documents, depth: nat, limit: nat) {
    forall i | 0 <= i < |tasks| :: Passes(tasks[i], docs, depth, limit)
  }

  lemma {:induction false} RunsAll(tasks: seq<Task>, docs: Documents, depth: nat, limit: nat)
    ensures RunTasks(tasks, docs, depth, limit).ok <==> AllPass(tasks, docs, depth, limit)
  {
    if tasks != [] {
      hide RunTask;
      RunsAll(tasks[1..], docs, depth, limit);
      assert tasks == [tasks[0]] + tasks[1..];
    }
  }

  lemma BothPass(a: seq<Task>, b: seq<Task>, docs: Documents, depth: nat, limit: nat)
    ensures AllPass(a + b, docs, depth, limit) <==> AllPass(a, docs, depth, limit) && AllPass(b, docs, depth, limit)
  {
    hide RunTask;
    if AllPass(a + b, docs, depth, limit) {
      assert forall i | 0 <= i < |a| :: (a + b)[i] == a[i];
      assert forall i | 0 <= i < |b| :: (a + b)[|a| + i] == b[i];
    }
  }

  lemma OnePasses(t: Task, docs: Documents, depth: nat, limit: nat)
    ensures AllPass([t], docs, depth, limit) <==> Passes(t, docs, depth, limit)
    ensures AllPass([], docs, depth, limit)
  {
    hide RunTask;
    assert [t][0] == t;
  }

  // ---- Each keyword ----

  /** The value is accepted one level down. */
  predicate Fits(v: Json, s: Schema, docs: Documents, depth: nat, limit: nat) {
    Validate(v, s, docs, depth, limit).ok
  }

  /** This alternative is accepted, and no other. */
  predicate JustAt(v: Json, schemas: seq<Schema>, i: nat, docs: Documents, depth: nat, limit: nat) {
    i < |schemas| && Fits(v, schemas[i], docs, depth, limit)
      && forall j | 0 <= j < |schemas| && j != i :: !Fits(v, schemas[j], docs, depth, limit)
  }

  predicate JustOne(v: Json, schemas: seq<Schema>, docs: Documents, depth: nat, limit: nat) {
    exists i | 0 <= i < |schemas| :: JustAt(v, schemas, i, docs, depth, limit)
  }

  predicate NoneFits(v: Json, schemas: seq<Schema>, docs: Documents, depth: nat, limit: nat) {
    forall i | 0 <= i < |schemas| :: !Fits(v, schemas[i], docs, depth, limit)
  }

  lemma NoneStep(v: Json, schemas: seq<Schema>, docs: Documents, depth: nat, limit: nat)
    requires schemas != []
    ensures NoneFits(v, schemas, docs, depth, limit)
            <==> !Fits(v, schemas[0], docs, depth, limit) && NoneFits(v, schemas[1..], docs, depth, limit)
    ensures JustAt(v, schemas, 0, docs, depth, limit)
            <==> Fits(v, schemas[0], docs, depth, limit) && NoneFits(v, schemas[1..], docs, depth, limit)
  {
    hide Fits;
    assert forall j | 0 <= j < |schemas[1..]| :: schemas[1..][j] == schemas[j + 1];
    assert forall j | 0 < j < |schemas| :: schemas[j] == schemas[1..][j - 1];
  }

  lemma JustAtStep(v: Json, schemas: seq<Schema>, i: nat, docs: Documents, depth: nat, limit: nat)
    requires schemas != []
    ensures JustAt(v, schemas, i + 1, docs, depth, limit)
            <==> !Fits(v, schemas[0], docs, depth, limit) && JustAt(v, schemas[1..], i, docs, depth, limit)
  {
    hide Fits;
    var rest := schemas[1..];
    assert forall j | 0 <= j < |rest| :: rest[j] == schemas[j + 1];
    assert schemas == [schemas[0]] + rest;
  }

  lemma FirstAlone(v: Json, schemas: seq<Schema>, i: nat, docs: Documents, depth: nat, limit: nat)
    requires schemas != [] && JustAt(v, schemas, i, docs, depth, limit) && Fits(v, schemas[0], docs, depth, limit)
    ensures i == 0
  {
    hide Fits;
  }

  lemma RestInBounds(v: Json, rest: seq<Schema>, i: nat, docs: Documents, depth: nat, limit: nat)
    requires JustAt(v, rest, i, docs, depth, limit)
    ensures JustOne(v, rest, docs, depth, limit)
  {
    hide Fits;
  }

  lemma JustOneStep(v: Json, schemas: seq<Schema>, docs: Documents, depth: nat, limit: nat)
    requires schemas != []
    ensures JustOne(v, schemas, docs, depth, limit) <==>
              if Fits(v, schemas[0], docs, depth, limit) then NoneFits(v, schemas[1..], docs, depth, limit)
              else JustOne(v, schemas[1..], docs, depth, limit)
  {
    hide Fits, JustAt, NoneFits;
    var rest := schemas[1..];
    NoneStep(v, schemas, docs, depth, limit);
    if JustOne(v, schemas, docs, depth, limit) && !Fits(v, schemas[0], docs, depth, limit) {
      var i :| 0 <= i < |schemas| && JustAt(v, schemas, i, docs, depth, limit);
      assert i != 0;
      JustAtStep(v, schemas, i - 1, docs, depth, limit);
      RestInBounds(v, rest, i - 1, docs, depth, limit);
    }
    if JustOne(v, schemas, docs, depth, limit) && Fits(v, schemas[0], docs, depth, limit) {
      var i :| 0 <= i < |schemas| && JustAt(v, schemas, i, docs, depth, limit);
      FirstAlone(v, schemas, i, docs, depth, limit);
    }
    if JustOne(v, rest, docs, depth, limit) && !Fits(v, schemas[0], docs, depth, limit) {
      var i :| 0 <= i < |rest| && JustAt(v, rest, i, docs, depth, limit);
      JustAtStep(v, schemas, i, docs, depth, limit);
    }
  }

  lemma {:induction false} MatchesExactly(v: Json, schemas: seq<Schema>, docs: Documents, depth: nat, limit: nat)
    ensures Matches(v, schemas, docs, depth, limit).0 == 0 <==> NoneFits(v, schemas, docs, depth, limit)
    ensures Matches(v, schemas, docs, depth, limit).0 == 1 <==> JustOne(v, schemas, docs, depth, limit)
    decreases |schemas|
  {
    if schemas != [] {
      hide Validate, NoneFits, JustOne;
      MatchesExactly(v, schemas[1..], docs, depth, limit);
      NoneStep(v, schemas, docs, depth, limit);
      JustOneStep(v, schemas, docs, depth, limit);
    } else {
      hide Validate;
    }
  }

  predicate AllFit(vs: seq<Json>, s: Schema, docs: Documents, depth: nat, limit: nat) {
    forall i | 0 <= i < |vs| :: Fits(vs[i], s, docs, depth, limit)
  }

  /** Every member with a declared name is accepted by what is declared for it. */
  predicate DeclaredFit(m: seq<Entry<Json>>, properties: seq<Property>, docs: Documents, depth: nat, limit: nat) {
    forall i, j | 0 <= i < |m| && 0 <= j < |properties| && m[i].key == properties[j].name ::
      Fits(m[i].value, properties[j].schema, docs, depth, limit)
  }

  /** Every member whose name is declared nowhere is accepted by the schema for extras. */
  predicate ExtrasFit(m: seq<Entry<Json>>, properties: seq<Property>, s: Schema, docs: Documents, depth: nat,
                      limit: nat) {
    forall i | 0 <= i < |m| ::
      Fits(m[i].value, s, docs, depth, limit) || exists j :: 0 <= j < |properties| && properties[j].name == m[i].key
  }

  /** Every name is declared. */
  predicate NothingExtra(m: seq<Entry<Json>>, properties: seq<Property>) {
    forall i | 0 <= i < |m| :: exists j :: 0 <= j < |properties| && properties[j].name == m[i].key
  }

  lemma {:induction false} MemberExactly(m: seq<Entry<Json>>, name: Text)
    requires DistinctKeys(m)
    ensures Member(m, name).None? <==> forall i | 0 <= i < |m| :: m[i].key != name
    ensures forall i | 0 <= i < |m| && m[i].key == name :: Member(m, name) == Some(m[i].value)
  {
    if m != [] {
      DistinctRest(m);
      MemberExactly(m[1..], name);
      assert m == [m[0]] + m[1..];
    }
  }

  lemma {:induction false} SomeMember(m: seq<Entry<Json>>, name: Text)
    ensures Member(m, name).Some? ==> exists i ::
              0 <= i < |m| && m[i].key == name && m[i].value == Member(m, name).value
  {
    if m != [] && m[0].key != name {
      SomeMember(m[1..], name);
      assert m == [m[0]] + m[1..];
    }
  }

  lemma DistinctRest(m: seq<Entry<Json>>)
    requires m != [] && DistinctKeys(m)
    ensures DistinctKeys(m[1..]) && forall i | 0 <= i < |m[1..]| :: m[1..][i].key != m[0].key
  {
    assert forall i | 0 <= i < |m[1..]| :: m[1..][i] == m[i + 1];
  }

  lemma {:induction false} PropertiesExactly(m: seq<Entry<Json>>, properties: seq<Property>, docs: Documents,
                                             depth: nat, limit: nat)
    requires DistinctKeys(m)
    ensures AllPass(PropertyTasks(m, properties), docs, depth, limit)
            <==> DeclaredFit(m, properties, docs, depth, limit)
    decreases |properties|
  {
    if properties != [] {
      hide DistinctKeys, Validate;
      var p, rest := properties[0], properties[1..];
      PropertiesExactly(m, rest, docs, depth, limit);
      MemberExactly(m, p.name);
      var own := match Member(m, p.name) case None => [] case Some(x) => [Must(x, p.schema)];
      BothPass(own, PropertyTasks(m, rest), docs, depth, limit);
      if Member(m, p.name).Some? {
        OnePasses(Must(Member(m, p.name).value, p.schema), docs, depth, limit);
      } else {
        OnePasses(Fact(true), docs, depth, limit);
      }
      hide AllPass;
      assert AllPass(own, docs, depth, limit) <==>
             forall i | 0 <= i < |m| && m[i].key == p.name :: Fits(m[i].value, p.schema, docs, depth, limit) by {
        SomeMember(m, p.name);
      }
      assert properties == [p] + rest;
    }
  }

  lemma ExtrasStep(m: seq<Entry<Json>>, properties: seq<Property>, s: Schema, docs: Documents, depth: nat, limit: nat)
    requires m != []
    ensures ExtrasFit(m, properties, s, docs, depth, limit) <==>
              && (Declared(properties, m[0].key) || Fits(m[0].value, s, docs, depth, limit))
              && ExtrasFit(m[1..], properties, s, docs, depth, limit)
  {
    hide Fits;
    assert m == [m[0]] + m[1..];
    assert forall i | 0 <= i < |m[1..]| :: m[1..][i] == m[i + 1];
  }

  lemma {:induction false} ExtrasExactly(m: seq<Entry<Json>>, properties: seq<Property>, s: Schema, docs: Documents,
                                         depth: nat, limit: nat)
    ensures AllPass(ExtraTasks(m, properties, s), docs, depth, limit)
            <==> ExtrasFit(m, properties, s, docs, depth, limit)
    decreases |m|
  {
    if m != [] {
      hide Validate, ExtrasFit, Declared, AllPass;
      ExtrasExactly(m[1..], properties, s, docs, depth, limit);
      ExtrasStep(m, properties, s, docs, depth, limit);
      var own := if Declared(properties, m[0].key) then [] else [Must(m[0].value, s)];
      BothPass(own, ExtraTasks(m[1..], properties, s), docs, depth, limit);
      OnePasses(Must(m[0].value, s), docs, depth, limit);
    }
  }

  lemma MustsExactly(v: Json, vs: seq<Json>, s: Schema, schemas: seq<Schema>, m: seq<Entry<Json>>, docs: Documents,
                     depth: nat, limit: nat)
    ensures AllPass(Musts(v, schemas), docs, depth, limit)
            <==> forall i | 0 <= i < |schemas| :: Fits(v, schemas[i], docs, depth, limit)
    ensures AllPass(ItemTasks(vs, s), docs, depth, limit) <==> AllFit(vs, s, docs, depth, limit)
    ensures AllPass(NameTasks(m, s), docs, depth, limit)
            <==> forall i | 0 <= i < |m| :: Fits(Str(m[i].key), s, docs, depth, limit)
  {
    hide Validate;
    assert forall i | 0 <= i < |schemas| :: Musts(v, schemas)[i] == Must(v, schemas[i]);
    assert forall i | 0 <= i < |vs| :: ItemTasks(vs, s)[i] == Must(vs[i], s);
    assert forall i | 0 <= i < |m| :: NameTasks(m, s)[i] == Must(Str(m[i].key), s);
  }

  // ---- A node ----

  /** What a node demands of the parts of a value. */
  predicate PartsFit(v: Json, s: Schema, docs: Documents, depth: nat, limit: nat)
    requires s.Node?
  {
    match v
    case Arr(items) =>
      && (s.unique ==>
            forall i, j | 0 <= i < j < |items| :: CanonicalBytes(items[i]) != CanonicalBytes(items[j]))
      && (s.items.Some? ==> AllFit(items, s.items.value, docs, depth, limit))
    case Obj(m) =>
      && (s.propertyNames.Some? ==>
            forall i | 0 <= i < |m| :: Fits(Str(m[i].key), s.propertyNames.value, docs, depth, limit))
      && DeclaredFit(m, s.properties, docs, depth, limit)
      && (s.additional.Closed? ==> NothingExtra(m, s.properties))
      && (s.additional.Extras? ==> ExtrasFit(m, s.properties, s.additional.schema, docs, depth, limit))
    case _ => true
  }

  /** What a node demands of a value: all its keywords, each in terms of the next level. */
  predicate NodeFits(v: Json, s: Schema, docs: Documents, depth: nat, limit: nat)
    requires s.Node?
  {
    && (s.ref.Some? ==> s.ref.value in docs && Fits(v, docs[s.ref.value], docs, depth, limit))
    && (forall i | 0 <= i < |s.allOf| :: Fits(v, s.allOf[i], docs, depth, limit))
    && (s.oneOf.Some? ==> JustOne(v, s.oneOf.value, docs, depth, limit))
    && (s.negated.Some? ==> !Fits(v, s.negated.value, docs, depth, limit))
    && (s.branch.Some? ==>
          var b := s.branch.value;
          && (Fits(v, b.test, docs, depth, limit) && b.yes.Some? ==> Fits(v, b.yes.value, docs, depth, limit))
          && (!Fits(v, b.test, docs, depth, limit) && b.no.Some? ==> Fits(v, b.no.value, docs, depth, limit)))
    && (s.constant.Some? ==> JsonEqual(v, s.constant.value))
    && (s.enumeration.Some? ==> exists i :: 0 <= i < |s.enumeration.value| && JsonEqual(v, s.enumeration.value[i]))
    && s.rest(v) && PartsFit(v, s, docs, depth, limit)
  }

  lemma PartsExactly(v: Json, s: Schema, docs: Documents, depth: nat, limit: nat)
    requires s.Node? && (v.Obj? ==> DistinctKeys(v.members))
    ensures AllPass(StructureTasks(v, s), docs, depth, limit) <==> PartsFit(v, s, docs, depth, limit)
  {
    hide Validate, DistinctKeys, AllFit, DeclaredFit, ExtrasFit, CanonicalBytes;
    match v
    case Arr(items) =>
      var unique := [Fact(s.unique ==> !Repeats(items))];
      var each := if s.items.Some? then ItemTasks(items, s.items.value) else [];
      BothPass(unique, each, docs, depth, limit);
      if s.items.Some? {
        MustsExactly(v, items, s.items.value, [], [], docs, depth, limit);
      }
      OnePasses(unique[0], docs, depth, limit);
      OnePasses(Fact(true), docs, depth, limit);
      assert StructureTasks(v, s) == unique + each;
      hide AllPass;
    case Obj(m) => MembersExactly(m, s, docs, depth, limit);
    case _ =>
  }

  function ExtraFacts(m: seq<Entry<Json>>, s: Schema): seq<Task>
    requires s.Node?
  {
    match s.additional
    case Open => []
    case Closed => [Fact(forall i | 0 <= i < |m| :: Declared(s.properties, m[i].key))]
    case Extras(extra) => ExtraTasks(m, s.properties, extra)
  }

  lemma MembersExactly(m: seq<Entry<Json>>, s: Schema, docs: Documents, depth: nat, limit: nat)
    requires s.Node? && DistinctKeys(m)
    ensures AllPass(StructureTasks(Obj(m), s), docs, depth, limit) <==> PartsFit(Obj(m), s, docs, depth, limit)
  {
    hide Fits, DistinctKeys, AllFit, DeclaredFit, ExtrasFit, PropertyTasks, NameTasks, AllPass, ExtraFacts,
         NothingExtra;
    var names := if s.propertyNames.Some? then NameTasks(m, s.propertyNames.value) else [];
    BothPass(names + PropertyTasks(m, s.properties), ExtraFacts(m, s), docs, depth, limit);
    BothPass(names, PropertyTasks(m, s.properties), docs, depth, limit);
    PropertiesExactly(m, s.properties, docs, depth, limit);
    if s.propertyNames.Some? {
      MustsExactly(Null, [], s.propertyNames.value, [], m, docs, depth, limit);
    } else {
      OnePasses(Fact(true), docs, depth, limit);
    }
    AdditionalExactly(m, s, docs, depth, limit);
    assert AllPass(names, docs, depth, limit) <==>
             (s.propertyNames.Some? ==>
                forall i | 0 <= i < |m| :: Fits(Str(m[i].key), s.propertyNames.value, docs, depth, limit));
    StructureInOrder(m, s);
  }

  lemma StructureInOrder(m: seq<Entry<Json>>, s: Schema)
    requires s.Node?
    ensures StructureTasks(Obj(m), s)
            == (if s.propertyNames.Some? then NameTasks(m, s.propertyNames.value) else [])
               + PropertyTasks(m, s.properties) + ExtraFacts(m, s)
  {
    hide PropertyTasks, NameTasks, ExtraTasks;
  }

  lemma AdditionalExactly(m: seq<Entry<Json>>, s: Schema, docs: Documents, depth: nat, limit: nat)
    requires s.Node?
    ensures AllPass(ExtraFacts(m, s), docs, depth, limit) <==>
              && (s.additional.Closed? ==> NothingExtra(m, s.properties))
              && (s.additional.Extras? ==> ExtrasFit(m, s.properties, s.additional.schema, docs, depth, limit))
  {
    hide Fits, ExtrasFit, ExtraTasks, AllPass;
    match s.additional
    case Open => OnePasses(Fact(true), docs, depth, limit);
    case Closed =>
      var closed := forall i | 0 <= i < |m| :: Declared(s.properties, m[i].key);
      OnePasses(Fact(closed), docs, depth, limit);
      assert Passes(Fact(closed), docs, depth, limit) == closed;
      assert ExtraFacts(m, s) == [Fact(closed)];
    case Extras(extra) => ExtrasExactly(m, s.properties, extra, docs, depth, limit);
  }

  lemma BranchExactly(v: Json, b: Branch, docs: Documents, depth: nat, limit: nat)
    ensures Passes(Choose(v, b), docs, depth, limit) <==>
              && (Fits(v, b.test, docs, depth, limit) && b.yes.Some? ==> Fits(v, b.yes.value, docs, depth, limit))
              && (!Fits(v, b.test, docs, depth, limit) && b.no.Some? ==> Fits(v, b.no.value, docs, depth, limit))
  {
    hide Validate;
  }

  function RefTasks(v: Json, s: Schema, docs: Documents): seq<Task>
    requires s.Node?
  {
    if s.ref.None? then [] else if s.ref.value in docs then [Must(v, docs[s.ref.value])] else [Fact(false)]
  }

  function CatchingTasks(v: Json, s: Schema): seq<Task>
    requires s.Node?
  {
    (if s.oneOf.Some? then [ExactlyOne(v, s.oneOf.value)] else [])
    + (if s.negated.Some? then [MustNot(v, s.negated.value)] else [])
    + (if s.branch.Some? then [Choose(v, s.branch.value)] else [])
  }

  function Facts(v: Json, s: Schema): seq<Task>
    requires s.Node?
  {
    [Fact(s.constant.Some? ==> JsonEqual(v, s.constant.value)),
     Fact(s.enumeration.Some? ==> exists x | x in s.enumeration.value :: JsonEqual(v, x)), Fact(s.rest(v))]
  }

  lemma Regroup(a: seq<Task>, b: seq<Task>, c: seq<Task>, d: seq<Task>, e: seq<Task>, f: seq<Task>, g: seq<Task>)
    ensures a + b + c + d + e + f + g == a + (b + ((c + d + e) + (f + g)))
  {
  }

  lemma TasksInOrder(v: Json, s: Schema, docs: Documents)
    requires s.Node?
    ensures Tasks(v, s, docs)
            == RefTasks(v, s, docs) + (Musts(v, s.allOf) + (CatchingTasks(v, s) + (Facts(v, s) + StructureTasks(v, s))))
  {
    hide StructureTasks, Musts, JsonEqual;
    Regroup(RefTasks(v, s, docs), Musts(v, s.allOf), if s.oneOf.Some? then [ExactlyOne(v, s.oneOf.value)] else [],
            if s.negated.Some? then [MustNot(v, s.negated.value)] else [],
            if s.branch.Some? then [Choose(v, s.branch.value)] else [], Facts(v, s), StructureTasks(v, s));
  }

  /** What a node asks for, one keyword after the other. */
  lemma TasksExactly(v: Json, s: Schema, docs: Documents, depth: nat, limit: nat)
    requires s.Node? && (v.Obj? ==> DistinctKeys(v.members))
    ensures AllPass(Tasks(v, s, docs), docs, depth, limit) <==> NodeFits(v, s, docs, depth, limit)
  {
    hide Fits, DistinctKeys, PartsFit, StructureTasks, JsonEqual, JustOne, Musts, Tasks, AllPass, RefTasks,
         CatchingTasks, Facts;
    var facts := Facts(v, s) + StructureTasks(v, s);
    TasksInOrder(v, s, docs);
    BothPass(RefTasks(v, s, docs), Musts(v, s.allOf) + (CatchingTasks(v, s) + facts), docs, depth, limit);
    BothPass(Musts(v, s.allOf), CatchingTasks(v, s) + facts, docs, depth, limit);
    BothPass(CatchingTasks(v, s), facts, docs, depth, limit);
    BothPass(Facts(v, s), StructureTasks(v, s), docs, depth, limit);
    MustsExactly(v, [], s, s.allOf, [], docs, depth, limit);
    PartsExactly(v, s, docs, depth, limit);
    RefExactly(v, s, docs, depth, limit);
    CatchingExactly(v, s, docs, depth, limit);
    FactsExactly(v, s, docs, depth, limit);
  }

  lemma RefExactly(v: Json, s: Schema, docs: Documents, depth: nat, limit: nat)
    requires s.Node?
    ensures AllPass(RefTasks(v, s, docs), docs, depth, limit) <==>
              (s.ref.Some? ==> s.ref.value in docs && Fits(v, docs[s.ref.value], docs, depth, limit))
  {
    hide Validate;
    OnePasses(Fact(false), docs, depth, limit);
    if s.ref.Some? && s.ref.value in docs {
      OnePasses(Must(v, docs[s.ref.value]), docs, depth, limit);
    }
  }

  lemma CatchingExactly(v: Json, s: Schema, docs: Documents, depth: nat, limit: nat)
    requires s.Node?
    ensures AllPass(CatchingTasks(v, s), docs, depth, limit) <==>
              && (s.oneOf.Some? ==> JustOne(v, s.oneOf.value, docs, depth, limit))
              && (s.negated.Some? ==> !Fits(v, s.negated.value, docs, depth, limit))
              && (s.branch.Some? ==>
                    var b := s.branch.value;
                    && (Fits(v, b.test, docs, depth, limit) && b.yes.Some? ==>
                          Fits(v, b.yes.value, docs, depth, limit))
                    && (!Fits(v, b.test, docs, depth, limit) && b.no.Some? ==>
                          Fits(v, b.no.value, docs, depth, limit)))
  {
    hide Validate, JustOne;
    var one := if s.oneOf.Some? then [ExactlyOne(v, s.oneOf.value)] else [];
    var none := if s.negated.Some? then [MustNot(v, s.negated.value)] else [];
    var choice := if s.branch.Some? then [Choose(v, s.branch.value)] else [];
    BothPass(one + none, choice, docs, depth, limit);
    BothPass(one, none, docs, depth, limit);
    OnePasses(Fact(true), docs, depth, limit);
    if s.oneOf.Some? {
      OnePasses(one[0], docs, depth, limit);
      MatchesExactly(v, s.oneOf.value, docs, depth, limit);
    }
    if s.negated.Some? {
      OnePasses(none[0], docs, depth, limit);
    }
    if s.branch.Some? {
      OnePasses(choice[0], docs, depth, limit);
      BranchExactly(v, s.branch.value, docs, depth, limit);
    }
    hide AllPass;
  }

  lemma FactsExactly(v: Json, s: Schema, docs: Documents, depth: nat, limit: nat)
    requires s.Node?
    ensures AllPass(Facts(v, s), docs, depth, limit) <==>
              && (s.constant.Some? ==> JsonEqual(v, s.constant.value))
              && (s.enumeration.Some? ==>
                    exists i :: 0 <= i < |s.enumeration.value| && JsonEqual(v, s.enumeration.value[i]))
              && s.rest(v)
  {
    hide Validate, JsonEqual;
    var f, g, h := s.constant.Some? ==> JsonEqual(v, s.constant.value),
                   s.enumeration.Some? ==> exists x | x in s.enumeration.value :: JsonEqual(v, x), s.rest(v);
    BothPass([Fact(f)], [Fact(g), Fact(h)], docs, depth, limit);
    BothPass([Fact(g)], [Fact(h)], docs, depth, limit);
    OnePasses(Fact(f), docs, depth, limit);
    OnePasses(Fact(g), docs, depth, limit);
    OnePasses(Fact(h), docs, depth, limit);
    assert [Fact(f)] + [Fact(g), Fact(h)] == [Fact(f), Fact(g), Fact(h)];
    assert [Fact(g)] + [Fact(h)] == [Fact(g), Fact(h)];
  }

  /** Below the limit a node accepts a value exactly when the value fits all its keywords, in whatever
      order, each taken one level deeper; at the limit nothing is accepted. */
  lemma AcceptsExactly(v: Json, s: Schema, docs: Documents, depth: nat, limit: nat)
    requires v.Obj? ==> DistinctKeys(v.members)
    ensures Validate(v, s, docs, depth, limit).ok <==>
              && depth <= limit
              && match s
                 case Always(accept) => accept
                 case _ => NodeFits(v, s, docs, depth + 1, limit)
  {
    hide DistinctKeys, Tasks, RunTasks, NodeFits, AllPass;
    if depth <= limit && s.Node? {
      RunsAll(Tasks(v, s, docs), docs, depth + 1, limit);
      TasksExactly(v, s, docs, depth + 1, limit);
    }
  }
}
