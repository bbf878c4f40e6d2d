/** Packaged migrations, the registry of applied ones, and one locked transaction per release. */
module Migrations {
  import opened Records

  datatype Migration = Migration(version: nat, checksum: Id, sql: Id)

  type Applied = (nat, Id)

  /** What the schema holds besides the registry. */
  datatype Tables = Empty | LegacyExact | Other

  /** A packaged file: a migration, a malformed name, or not a migration at all. */
  datatype Resource = Packaged(migration: Migration) | Malformed(name: Id) | Unrelated

  // ---- Discovery ----

  predicate Contiguous(ms: seq<Migration>) {
    forall i | 0 <= i < |ms| :: ms[i].version == i + 1
  }

  function InsertByVersion(m: Migration, s: seq<Migration>): seq<Migration> {
    if s == [] || m.version < s[0].version then [m] + s else [s[0]] + InsertByVersion(m, s[1..])
  }

  function SortByVersion(s: seq<Migration>): seq<Migration> {
    if s == [] then [] else InsertByVersion(s[0], SortByVersion(s[1..]))
  }

  lemma {:induction false} InsertKeeps(m: Migration, s: seq<Migration>)
    ensures multiset(InsertByVersion(m, s)) == multiset{m} + multiset(s)
  {
    if s != [] && m.version >= s[0].version {
      InsertKeeps(m, s[1..]);
      assert s == [s[0]] + s[1..];
    }
  }

  lemma {:induction false} SortKeeps(s: seq<Migration>)
    ensures multiset(SortByVersion(s)) == multiset(s)
  {
    if s != [] {
      SortKeeps(s[1..]);
      InsertKeeps(s[0], SortByVersion(s[1..]));
      assert s == [s[0]] + s[1..];
    }
  }

  function PackagedIn(resources: seq<Resource>): seq<Migration> {
    if resources == [] then []
    else (if resources[0].Packaged? then [resources[0].migration] else []) + PackagedIn(resources[1..])
  }

  lemma {:induction false} PackagedAppended(resources: seq<Resource>, r: Resource)
    ensures PackagedIn(resources + [r]) == PackagedIn(resources) + (if r.Packaged? then [r.migration] else [])
  {
    if resources == [] {
      assert resources + [r] == [r] && [r][1..] == [];
    } else {
      var all, head := resources + [r], if resources[0].Packaged? then [resources[0].migration] else [];
      var tail := if r.Packaged? then [r.migration] else [];
      assert all[0] == resources[0] && all[1..] == resources[1..] + [r];
      PackagedAppended(resources[1..], r);
      assert PackagedIn(all) == head + PackagedIn(all[1..]);
      assert head + (PackagedIn(resources[1..]) + tail) == (head + PackagedIn(resources[1..])) + tail;
    }
  }

  /** `discover_migrations`. */
  method DiscoverMigrations(resources: seq<Resource>) returns (r: Option<seq<Migration>>)
    ensures r.Some? ==> r.value != [] && Contiguous(r.value) && multiset(r.value) == multiset(PackagedIn(resources))
    ensures r.None? <==> (exists x :: x in resources && x.Malformed?) || PackagedIn(resources) == []
                         || !Covers(PackagedIn(resources))
  {
    var discovered: seq<Migration>, malformed := [], false;
    for i := 0 to |resources|
      invariant discovered == PackagedIn(resources[..i])
      invariant malformed <==> exists x :: x in resources[..i] && x.Malformed?
    {
      assert resources[..i + 1] == resources[..i] + [resources[i]];
      PackagedAppended(resources[..i], resources[i]);
      match resources[i] {
        case Packaged(m) => discovered := discovered + [m];
        case Malformed(_) =>
          malformed := true;
          assert resources[i] in resources[..i + 1];
        case Unrelated =>
      }
    }
    assert resources[..|resources|] == resources;
    var sorted := SortByVersion(discovered);
    SortKeeps(discovered);
    SortedExactly(discovered);
    if malformed || discovered == [] || !Contiguous(sorted) {
      return None;
    }
    assert |multiset(sorted)| == |multiset(discovered)|;
    r := Some(sorted);
  }

  // ---- What discovery accepts ----

  /** Every version from 1 to the number of migrations is packaged. */
  predicate Covers(ms: seq<Migration>) {
    forall v | 1 <= v <= |ms| :: Packages(ms, v)
  }

  predicate Packages(ms: seq<Migration>, v: nat) { exists i :: 0 <= i < |ms| && ms[i].version == v }

  predicate Ascending(ms: seq<Migration>) { forall i, j | 0 <= i < j < |ms| :: ms[i].version <= ms[j].version }

  lemma {:induction false} InsertAscends(m: Migration, s: seq<Migration>)
    requires Ascending(s)
    ensures Ascending(InsertByVersion(m, s))
  {
    var t := InsertByVersion(m, s);
    if s != [] && m.version >= s[0].version {
      InsertAscends(m, s[1..]);
      InsertKeeps(m, s[1..]);
      assert t[1..] == InsertByVersion(m, s[1..]);
      forall j | 0 < j < |t| ensures t[0].version <= t[j].version {
        assert t[j] in multiset(t[1..]) by { assert t[j] == t[1..][j - 1]; }
        assert t[j] == m || t[j] in s[1..];
      }
      assert forall i, j | 0 < i < j < |t| :: t[i] == t[1..][i - 1] && t[j] == t[1..][j - 1];
    } else {
      assert t == [m] + s;
    }
  }

  lemma {:induction false} SortAscends(s: seq<Migration>)
    ensures Ascending(SortByVersion(s))
  {
    if s != [] {
      SortAscends(s[1..]);
      InsertAscends(s[0], SortByVersion(s[1..]));
    }
  }

  /** Where each version is in an ascending list that has them all: at least that far on ... */
  lemma {:induction false} NotBefore(ms: seq<Migration>, v: nat, i: nat)
    requires Ascending(ms) && Covers(ms) && 1 <= v <= |ms| && i < |ms| && ms[i].version == v
    ensures v - 1 <= i
    decreases v
  {
    if v > 1 {
      assert Packages(ms, v - 1);
      var j :| 0 <= j < |ms| && ms[j].version == v - 1;
      NotBefore(ms, v - 1, j);
    }
  }

  /** ... and at most. */
  lemma {:induction false} NotAfter(ms: seq<Migration>, v: nat, i: nat)
    requires Ascending(ms) && Covers(ms) && 1 <= v <= |ms| && i < |ms| && ms[i].version == v
    ensures i <= v - 1
    decreases |ms| - v
  {
    if v < |ms| {
      assert Packages(ms, v + 1);
      var j :| 0 <= j < |ms| && ms[j].version == v + 1;
      NotAfter(ms, v + 1, j);
    }
  }

  lemma CoveringIsContiguous(ms: seq<Migration>)
    requires Ascending(ms) && Covers(ms)
    ensures Contiguous(ms)
  {
    forall i | 0 <= i < |ms| ensures ms[i].version == i + 1 {
      assert Packages(ms, i + 1);
      var j :| 0 <= j < |ms| && ms[j].version == i + 1;
      NotBefore(ms, i + 1, j);
      NotAfter(ms, i + 1, j);
    }
  }

  lemma SamePackages(a: seq<Migration>, b: seq<Migration>, v: nat)
    requires multiset(a) == multiset(b)
    ensures Packages(a, v) ==> Packages(b, v)
  {
    if Packages(a, v) {
      var i :| 0 <= i < |a| && a[i].version == v;
      assert a[i] in multiset(a) && a[i] in b;
    }
  }

  /** Sorting makes a package contiguous exactly when it covers all versions up to its size. */
  lemma SortedExactly(ms: seq<Migration>)
    ensures Contiguous(SortByVersion(ms)) <==> Covers(ms)
  {
    var sorted := SortByVersion(ms);
    SortAscends(ms);
    SortKeeps(ms);
    assert |multiset(sorted)| == |multiset(ms)|;
    if Covers(ms) {
      forall v | 1 <= v <= |sorted| ensures Packages(sorted, v) { SamePackages(ms, sorted, v); }
      CoveringIsContiguous(sorted);
    }
    if Contiguous(sorted) {
      forall v | 1 <= v <= |ms| ensures Packages(ms, v) {
        assert sorted[v - 1].version == v;
        SamePackages(sorted, ms, v);
      }
    }
  }

  // ---- Verification of the history ----

  function EntryOf(m: Migration): Applied { (m.version, m.checksum) }

  function Entries(ms: seq<Migration>): (r: seq<Applied>)
    ensures |r| == |ms| && forall i | 0 <= i < |ms| :: r[i] == EntryOf(ms[i])
  {
    seq(|ms|, i requires 0 <= i < |ms| => EntryOf(ms[i]))
  }

  predicate IsPrefix<T(==)>(a: seq<T>, b: seq<T>) { |a| <= |b| && a == b[..|a|] }

  lemma PrefixAt(applied: seq<Applied>, migrations: seq<Migration>, i: nat)
    requires Contiguous(migrations) && i < |applied|
    ensures IsPrefix(applied, Entries(migrations)) ==>
              i < |migrations| && applied[i] == EntryOf(migrations[i]) && applied[i].0 == i + 1
  {
  }

  /** `_verify_applied` accepts exactly the prefixes of the package, checksums included. */
  method VerifyApplied(applied: seq<Applied>, migrations: seq<Migration>) returns (ok: bool)
    requires Contiguous(migrations)
    ensures ok <==> IsPrefix(applied, Entries(migrations))
  {
    if exists i | 0 <= i < |applied| :: applied[i].0 != i + 1 {
      var i :| 0 <= i < |applied| && applied[i].0 != i + 1;
      PrefixAt(applied, migrations, i);
      return false;
    }
    for i := 0 to |applied|
      invariant i <= |migrations| && applied[..i] == Entries(migrations)[..i]
    {
      var (version, checksum) := applied[i];
      if version > |migrations| {
        return false;
      }
      if checksum != migrations[version - 1].checksum {
        assert applied[i] != Entries(migrations)[i];
        return false;
      }
      assert applied[..i + 1] == applied[..i] + [applied[i]];
      assert Entries(migrations)[..i + 1] == Entries(migrations)[..i] + [Entries(migrations)[i]];
    }
    assert applied[..|applied|] == applied;
    ok := true;
  }

  // ---- One release ----

  /** `executed` lists the versions whose SQL ran, `adopted` those that bootstrap took as given. */
  datatype Database = Database(registry: Option<seq<Applied>>, tables: Tables, executed: seq<nat>, adopted: seq<nat>)

  function Versions(from: nat, to: nat): seq<nat>
    requires from <= to
  {
    seq(to - from, i requires 0 <= i < to - from => from + i + 1)
  }

  /** The history that a release starts from, unless the schema is in an unsafe state. */
  function StartingHistory(db: Database, first: Migration): Option<(seq<Applied>, seq<nat>)> {
    match db.registry
    case None =>
      (match db.tables
       case Empty => Some(([], []))
       case LegacyExact => Some(([EntryOf(first)], [1]))
       case Other => None)
    case Some(applied) => if applied == [] && db.tables != Empty then None else Some((applied, []))
  }

  /** `apply_migrations` in one transaction; `failing` are the migrations whose SQL fails. */
  function Release(db: Database, migrations: seq<Migration>, failing: set<nat>): (Database, bool)
    requires Contiguous(migrations) && migrations != []
  {
    match StartingHistory(db, migrations[0])
    case None => (db, false)
    case Some((applied, adopted)) =>
      if !IsPrefix(applied, Entries(migrations))
         || exists v | v in failing :: |applied| < v <= |migrations|
      then (db, false)
      else
        (Database(Some(Entries(migrations)), if |applied| < |migrations| then Other else db.tables,
                  db.executed + Versions(|applied|, |migrations|), db.adopted + adopted), true)
  }

  /** `applied_versions`. */
  function VersionsOf(applied: seq<Applied>): set<nat> { set a | a in applied :: a.0 }

  lemma PrefixVersions(applied: seq<Applied>, migrations: seq<Migration>)
    requires Contiguous(migrations) && IsPrefix(applied, Entries(migrations))
    ensures forall v :: v in VersionsOf(applied) <==> 1 <= v <= |applied|
  {
    forall i | 0 <= i < |applied| ensures applied[i].0 == i + 1 { PrefixAt(applied, migrations, i); }
    forall v | 1 <= v <= |applied| ensures v in VersionsOf(applied) {
      assert applied[v - 1] in applied;
    }
  }

  class MigrationDatabase {
    var registry: Option<seq<Applied>>
    var tables: Tables
    ghost var executed: seq<nat>
    ghost var adopted: seq<nat>

    ghost function State(): Database
      reads this
    {
      Database(registry, tables, executed, adopted)
    }

    constructor (tables: Tables)
      ensures State() == Database(None, tables, [], [])
    {
      registry, this.tables := None, tables;
      executed, adopted := [], [];
    }

    /** Skips what the registry lists, and executes and registers the rest in order. */
    method ApplyMigrations(migrations: seq<Migration>, failing: set<nat>) returns (ok: bool)
      requires Contiguous(migrations) && migrations != []
      modifies this
      ensures (State(), ok) == Release(old(State()), migrations, failing)
    {
      ghost var before := State();
      var was, wasTables := registry, tables;
      var applied: seq<Applied> := [];
      if registry.None? {
        if tables == Other {
          return false;
        }
        if tables == LegacyExact {
          applied := [EntryOf(migrations[0])];
        }
      } else {
        applied := registry.value;
        if applied == [] && tables != Empty {
          return false;
        }
      }
      var prefix := VerifyApplied(applied, migrations);
      if !prefix {
        return false;
      }
      ghost var start := |applied|;
      ghost var run: seq<nat> := [];
      var versions := VersionsOf(applied);
      PrefixVersions(applied, migrations);
      var registered := applied;
      for i := 0 to |migrations|
        invariant forall v :: v in versions <==> 1 <= v <= (if i < start then start else i)
        invariant registered == Entries(migrations)[..(if i < start then start else i)]
        invariant run == Versions(start, if i < start then start else i)
        invariant forall v | v in failing :: !(start < v <= i)
        invariant State() == before
      {
        var m := migrations[i];
        if m.version in versions {
          continue;
        }
        if m.version in failing {
          return false;
        }
        versions := versions + {m.version};
        registered := registered + [EntryOf(m)];
        assert Entries(migrations)[..i + 1] == Entries(migrations)[..i] + [Entries(migrations)[i]];
        run := run + [m.version];
        assert Versions(start, i + 1) == Versions(start, i) + [i + 1];
      }
      assert Entries(migrations)[..|migrations|] == Entries(migrations);
      adopted := adopted + (if was.None? && wasTables == LegacyExact then [1] else []);
      registry := Some(registered);
      tables := if |applied| < |migrations| then Other else wasTables;
      executed := executed + run;
      ok := true;
    }
  }

  // ---- When a release passes ----

  /** How many migrations a database has behind it, when its state is one that a release may start from and
      its registry lists just the first migrations of the package. */
  predicate StartsAt(db: Database, migrations: seq<Migration>, n: nat) {
    && n <= |migrations|
    && match db.registry
       case None => (db.tables == Empty && n == 0) || (db.tables == LegacyExact && n == 1)
       case Some(applied) =>
         && |applied| == n && (n == 0 ==> db.tables == Empty)
         && forall i | 0 <= i < n :: applied[i] == (i + 1, migrations[i].checksum)
  }

  predicate NoneFails(failing: set<nat>, done: nat, all: nat) { forall v | v in failing :: v <= done || all < v }

  /** A release passes exactly when the database stands at one of its migrations and none of the missing
      ones fails.  It then has executed just those, in order, and lists all; else nothing has changed. */
  lemma ReleasePassesExactly(db: Database, migrations: seq<Migration>, failing: set<nat>)
    requires Contiguous(migrations) && migrations != []
    ensures var (next, ok) := Release(db, migrations, failing);
            && (ok <==> exists n: nat :: StartsAt(db, migrations, n) && NoneFails(failing, n, |migrations|))
            && (!ok ==> next == db)
            && (ok ==>
                  && next.registry.Some? && |next.registry.value| == |migrations|
                  && (forall i | 0 <= i < |migrations| ::
                        next.registry.value[i] == (i + 1, migrations[i].checksum))
                  && forall n: nat | StartsAt(db, migrations, n) ::
                       && |next.executed| == |db.executed| + |migrations| - n
                       && next.executed[..|db.executed|] == db.executed
                       && (forall i | |db.executed| <= i < |next.executed| ::
                             next.executed[i] == n + 1 + i - |db.executed|)
                       && next.adopted == db.adopted + (if db.registry.None? && n == 1 then [1] else []))
  {
    var start := StartingHistory(db, migrations[0]);
    if start.Some? {
      var applied := start.value.0;
      StandsExactly(db, migrations);
      assert StartsAt(db, migrations, |applied|) <==> IsPrefix(applied, Entries(migrations));
    }
  }

  lemma StandsExactly(db: Database, migrations: seq<Migration>)
    requires Contiguous(migrations) && migrations != []
    ensures var start := StartingHistory(db, migrations[0]);
            && (start.None? ==> forall n: nat :: !StartsAt(db, migrations, n))
            && (start.Some? ==>
                  forall n: nat :: StartsAt(db, migrations, n)
                                   <==> n == |start.value.0| && IsPrefix(start.value.0, Entries(migrations)))
  {
  }

  // ---- Any sequence of releases ----

  datatype Attempt = Attempt(migrations: seq<Migration>, failing: set<nat>)

  predicate PackagesOf(attempts: seq<Attempt>) {
    forall i | 0 <= i < |attempts| :: attempts[i].migrations != [] && Contiguous(attempts[i].migrations)
  }

  function Releases(db: Database, attempts: seq<Attempt>): Database
    requires PackagesOf(attempts)
    decreases |attempts|
  {
    if attempts == [] then db
    else
      var last := attempts[|attempts| - 1];
      Release(Releases(db, attempts[..|attempts| - 1]), last.migrations, last.failing).0
  }

  function Length(db: Database): nat { if db.registry.Some? then |db.registry.value| else 0 }

  /** Everything registered was adopted at bootstrap or executed once, in ascending order. */
  predicate HistoryOk(db: Database) {
    && |db.adopted| <= 1 && |db.adopted| <= Length(db)
    && db.adopted == Versions(0, |db.adopted|) && db.executed == Versions(|db.adopted|, Length(db))
    && (db.registry == Some([]) ==> db.tables == Empty)
  }

  lemma VersionsJoin(a: nat, b: nat, c: nat)
    requires a <= b <= c
    ensures Versions(a, b) + Versions(b, c) == Versions(a, c)
  {
  }

  lemma ReleaseKeeps(db: Database, migrations: seq<Migration>, failing: set<nat>)
    requires Contiguous(migrations) && migrations != [] && HistoryOk(db)
    ensures var (next, ok) := Release(db, migrations, failing);
            && HistoryOk(next) && (!ok ==> next == db) && (ok ==> next.registry == Some(Entries(migrations)))
            && (ok && db.registry.Some? ==> IsPrefix(db.registry.value, Entries(migrations)))
  {
    var start := StartingHistory(db, migrations[0]);
    if start.Some? && IsPrefix(start.value.0, Entries(migrations)) {
      var n := |start.value.0|;
      if db.registry.None? {
        assert db.executed == [] && db.adopted == [];
        assert [] + Versions(n, |migrations|) == Versions(n, |migrations|);
        assert Versions(0, 1) == [1] && Versions(0, 0) == [];
      } else {
        VersionsJoin(|db.adopted|, n, |migrations|);
        assert db.adopted + [] == db.adopted;
      }
    }
  }

  /** Over any sequence of releases, failed ones included, each registered migration was executed
      exactly once, in ascending order, or adopted once at bootstrap. */
  lemma {:induction false} EachOnce(tables: Tables, attempts: seq<Attempt>)
    requires PackagesOf(attempts)
    ensures HistoryOk(Releases(Database(None, tables, [], []), attempts))
    decreases |attempts|
  {
    if attempts != [] {
      var rest, last := attempts[..|attempts| - 1], attempts[|attempts| - 1];
      EachOnce(tables, rest);
      ReleaseKeeps(Releases(Database(None, tables, [], []), rest), last.migrations, last.failing);
    }
  }
}
