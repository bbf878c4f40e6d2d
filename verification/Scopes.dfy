/** Memory scopes derived from an actor context, one from the other. */
module Scopes {
  import opened Records

  datatype Selection =
    | PublicLevel
    | ActorLevel
    | SessionLevel(session: Id)
    | UserLevel(user: Id)
    | TeamLevel(team: Id)
    | OrganizationLevel(organization: Id)
    | ProjectLevel(project: Id)
    | WorkspaceLevel(workspace: Id)

  datatype Level = Public | Actor | Session | User | Team | Organization | Project | Workspace

  datatype ScopeAuthority = ScopeAuthority(
    publicAllowed: bool, levels: set<Level>, user: Option<Id>, teams: set<Id>, organizations: set<Id>,
    projects: set<Id>, workspaces: set<Id>)

  datatype Context = Context(tenant: Id, actor: Id, session: Id, issuedAt: int, expiresAt: int,
                             authority: ScopeAuthority)

  datatype Scope = Scope(tenant: Id, actor: Id, selection: Selection, derivedAt: int, validUntil: int, parent: Parent)

  /** The parent's kind and digest; a digest is its record. */
  datatype Parent = OfContext(context: Context) | OfScope(scope: Scope)

  /** The selection is one that the actor context authorises. */
  predicate Authorised(s: Selection, c: Context) {
    match s
    case PublicLevel => c.authority.publicAllowed
    case ActorLevel => Actor in c.authority.levels
    case SessionLevel(id) => Session in c.authority.levels && id == c.session
    case UserLevel(id) => User in c.authority.levels && c.authority.user == Some(id)
    case TeamLevel(id) => Team in c.authority.levels && id in c.authority.teams
    case OrganizationLevel(id) => Organization in c.authority.levels && id in c.authority.organizations
    case ProjectLevel(id) => Project in c.authority.levels && id in c.authority.projects
    case WorkspaceLevel(id) => Workspace in c.authority.levels && id in c.authority.workspaces
  }

  /** `validate_scope_narrowing` against an actor context. */
  predicate NarrowsContext(child: Scope, c: Context) {
    && child.tenant == c.tenant && child.actor == c.actor && child.parent == OfContext(c)
    && c.issuedAt <= child.derivedAt <= child.validUntil <= c.expiresAt
    && Authorised(child.selection, c)
  }

  /** `validate_scope_narrowing` against another scope. */
  predicate NarrowsScope(child: Scope, p: Scope) {
    && child.tenant == p.tenant && child.actor == p.actor && child.parent == OfScope(p)
    && p.derivedAt <= child.derivedAt <= child.validUntil <= p.validUntil
    && child.selection == p.selection
  }

  /** Each scope was validated against its immediate parent only. */
  predicate Derivation(c: Context, chain: seq<Scope>) {
    && (chain != [] ==> NarrowsContext(chain[0], c))
    && forall i | 0 < i < |chain| :: NarrowsScope(chain[i], chain[i - 1])
  }

  /** Along a derivation of any length every scope stays with the actor and in its context's time,
      inside every ancestor, with the first selection, which the actor context authorises. */
  lemma {:induction false} DerivationsNarrow(c: Context, chain: seq<Scope>, i: nat, j: nat)
    requires Derivation(c, chain) && i <= j < |chain|
    ensures chain[j].tenant == c.tenant && chain[j].actor == c.actor
    ensures chain[j].selection == chain[i].selection && Authorised(chain[j].selection, c)
    ensures c.issuedAt <= chain[i].derivedAt <= chain[j].derivedAt
            && chain[j].derivedAt <= chain[j].validUntil <= chain[i].validUntil <= c.expiresAt
    decreases j
  {
    if j > 0 {
      assert NarrowsScope(chain[j], chain[j - 1]);
      DerivationsNarrow(c, chain, if i < j then i else j - 1, j - 1);
      if i == j {
        DerivationsNarrow(c, chain, 0, j - 1);
      }
    }
  }

  /** The last scope determines its whole derivation. */
  lemma {:induction false} DerivationDetermined(c: Context, d: Context, a: seq<Scope>, b: seq<Scope>)
    requires Derivation(c, a) && Derivation(d, b) && a != [] && b != [] && a[|a| - 1] == b[|b| - 1]
    ensures a == b && c == d
    decreases |a|
  {
    var m, n := |a| - 1, |b| - 1;
    if m > 0 && n > 0 {
      assert NarrowsScope(a[m], a[m - 1]) && NarrowsScope(b[n], b[n - 1]);
      DerivationDetermined(c, d, a[..m], b[..n]);
      assert a == a[..m] + [a[m]] && b == b[..n] + [b[n]];
    } else {
      assert m > 0 ==> NarrowsScope(a[m], a[m - 1]);
      assert n > 0 ==> NarrowsScope(b[n], b[n - 1]);
    }
  }

  // ---- What a derivation is, seen from its context ----

  function LevelOf(s: Selection): Level {
    match s
    case PublicLevel => Public
    case ActorLevel => Actor
    case SessionLevel(_) => Session
    case UserLevel(_) => User
    case TeamLevel(_) => Team
    case OrganizationLevel(_) => Organization
    case ProjectLevel(_) => Project
    case WorkspaceLevel(_) => Workspace
  }

  /** The actor's own entries of a level. */
  function Own(l: Level, c: Context): set<Id> {
    match l
    case Session => {c.session}
    case User => (match c.authority.user case None => {} case Some(u) => {u})
    case Team => c.authority.teams
    case Organization => c.authority.organizations
    case Project => c.authority.projects
    case Workspace => c.authority.workspaces
    case _ => {}
  }

  function Named(s: Selection): Option<Id> {
    match s
    case PublicLevel => None
    case ActorLevel => None
    case SessionLevel(id) => Some(id)
    case UserLevel(id) => Some(id)
    case TeamLevel(id) => Some(id)
    case OrganizationLevel(id) => Some(id)
    case ProjectLevel(id) => Some(id)
    case WorkspaceLevel(id) => Some(id)
  }

  /** The public level where that is allowed; any other where the level is granted, and then of what the
      selection names only the actor's own. */
  predicate MaySelect(s: Selection, c: Context) {
    if LevelOf(s) == Public then c.authority.publicAllowed
    else LevelOf(s) in c.authority.levels && (Named(s).Some? ==> Named(s).value in Own(LevelOf(s), c))
  }

  lemma MaySelectExactly(s: Selection, c: Context)
    ensures Authorised(s, c) <==> MaySelect(s, c)
  {
  }

  /** The `i`th scope is the actor's, in the context's time, with the first selection, which may be made,
      and names the one before it. */
  predicate StaysIn(c: Context, chain: seq<Scope>, i: nat)
    requires i < |chain|
  {
    && chain[i].tenant == c.tenant && chain[i].actor == c.actor && chain[i].selection == chain[0].selection
    && MaySelect(chain[i].selection, c) && chain[i].parent == (if i == 0 then OfContext(c) else OfScope(chain[i - 1]))
    && c.issuedAt <= chain[i].derivedAt && chain[i].derivedAt <= chain[i].validUntil
    && chain[i].validUntil <= c.expiresAt
  }

  predicate Nested(outer: Scope, inner: Scope) {
    outer.derivedAt <= inner.derivedAt && inner.validUntil <= outer.validUntil
  }

  /** Checking each scope against its immediate parent alone accepts exactly the chains that stay in the
      context and nest throughout. */
  lemma DerivationExactly(c: Context, chain: seq<Scope>)
    ensures Derivation(c, chain) <==>
              && (forall i | 0 <= i < |chain| :: StaysIn(c, chain, i))
              && (forall i, j | 0 <= i < j < |chain| :: Nested(chain[i], chain[j]))
  {
    hide Authorised, MaySelect;
    forall s: Selection ensures Authorised(s, c) <==> MaySelect(s, c) { MaySelectExactly(s, c); }
    if Derivation(c, chain) {
      forall i, j | 0 <= i <= j < |chain| ensures StaysIn(c, chain, j) && Nested(chain[i], chain[j]) {
        DerivationsNarrow(c, chain, i, j);
        DerivationsNarrow(c, chain, 0, j);
      }
    } else if chain != [] && (forall i | 0 <= i < |chain| :: StaysIn(c, chain, i))
              && forall i, j | 0 <= i < j < |chain| :: Nested(chain[i], chain[j]) {
      assert StaysIn(c, chain, 0);
      forall i | 0 < i < |chain| ensures NarrowsScope(chain[i], chain[i - 1]) {
        assert StaysIn(c, chain, i) && StaysIn(c, chain, i - 1) && Nested(chain[i - 1], chain[i]);
      }
    }
  }
}
