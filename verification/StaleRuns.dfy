/** The search in the worlds of StaleWorld.dfy, up to where it tries a at version 1.  It has no choice:
    one item is queued at a time. */
module StaleRuns {
  import opened Constraints
  import opened Identifiers
  import opened Bridge
  import opened SolverCore
  import opened SolverInvariants
  import opened SolverRuns
  import opened VersionQueues
  import opened Satisfy
  import opened Searches
  import opened Solvers
  import opened ForcedRuns
  import opened ImportConstraints
  import opened StaleWorld
  import opened StaleWork
  import opened StaleMoves

  // ------------------------------------------------------------------ the dependencies in full

  const ANY_Z := CompleteDep(Z, Any, ["z/p"])
  const ANY_C := CompleteDep(C, Any, ["c"])
  const ANY_E := CompleteDep(E, Any, ["e"])
  const ONE_A := CompleteDep(A, Exact(ONE), ["a"])
  const TWO_A := CompleteDep(A, Exact(TWO), ["a"])
  const NINE_C := CompleteDep(C, Exact(NINE), ["c"])
  const OTHER_DEP := CompleteDep(OTHER_Z, Any, ["z/p"])

  function FirstZ(q: Sequel): Version { if q.DeadEnd? then TWO else ONE }

  lemma FromOne(x: Working)
    ensures DepsFrom([x]) == map[x.ident.root := CompleteDep(x.ident, x.constraint, [Main(x.ident.root)])]
  {
    assert [x][..0] == [];
  }

  lemma FromTwo(x: Working, y: Working)
    ensures DepsFrom([x, y]) == DepsFrom([x])[y.ident.root := CompleteDep(y.ident, y.constraint, [Main(y.ident.root)])]
  {
    assert [x, y][..1] == [x];
  }

  lemma OrderOne(r: ProjectRoot)
    ensures Listing([r], {r}) && forall x <- [r] :: x == r
  {
    assert [r][0] == r;
    assert Elems([r]) == {r};
  }

  lemma OrderTwo(r: ProjectRoot, p: ProjectRoot)
    requires r != p
    ensures Listing([r, p], {r, p}) && forall x <- [r, p] :: x == r || x == p
  {
    assert [r, p][0] == r && [r, p][1] == p;
    assert Elems([r, p]) == {r, p};
  }

  lemma DepsOfA(q: Sequel)
    ensures DepsIn(q, A, TWO) == map["z" := ANY_Z] && DepsIn(q, A, ONE) == map[]
  {
    FromOne(Working(Z, Any));
  }

  lemma DepsOfZ(q: Sequel, id: ProjectIdentifier)
    requires id.root == "z"
    ensures DepsIn(q, id, FirstZ(q)) == if q.DeadEnd? then map["a" := TWO_A, "c" := NINE_C] else map["c" := ANY_C]
  {
    FromOne(Working(C, Any));
    FromOne(Working(A, Exact(TWO)));
    FromTwo(Working(A, Exact(TWO)), Working(C, Exact(NINE)));
    hide DepsFrom;
  }

  lemma DepsOfC(q: Sequel)
    requires q.Needless? || q.Rival?
    ensures DepsIn(q, C, ONE) == if q.Rival? then map["a" := ONE_A, "e" := ANY_E] else map["a" := ONE_A]
  {
    FromOne(Working(A, Exact(ONE)));
    FromTwo(Working(A, Exact(ONE)), Working(E, Any));
    hide DepsFrom;
  }

  lemma DepsOfE(q: Sequel)
    ensures DepsIn(q, E, ONE) == map["z" := OTHER_DEP]
  {
    FromOne(Working(OTHER_Z, Any));
  }

  function OrderOfZ(q: Sequel): seq<ProjectRoot> { if q.DeadEnd? then ["a", "c"] else ["c"] }
  function OrderOfC(q: Sequel): seq<ProjectRoot> { if q.Rival? then ["a", "e"] else ["a"] }

  // ------------------------------------------------------------------ the entries and what they bring

  const A2 := Selected(AtomWithPackages(Atom(A, TWO), ["a"]), true)
  const A1 := Selected(AtomWithPackages(Atom(A, ONE), ["a"]), true)
  const C1 := Selected(AtomWithPackages(Atom(C, ONE), ["c"]), true)
  const E1 := Selected(AtomWithPackages(Atom(E, ONE), ["e"]), true)
  ghost const MORE_Z := Selected(AtomWithPackages(Atom(OTHER_Z, ONE), BOTH), false)

  ghost function OfZ(q: Sequel): Selected { Selected(AtomWithPackages(Atom(Z, FirstZ(q)), BOTH), true) }

  lemma EntriesAreOrdinary(q: Sequel)
    requires !q.Orderly?
    ensures Ordinary(q, A2) && Ordinary(q, A1) && Ordinary(q, C1) && Ordinary(q, E1) && Ordinary(q, OfZ(q))
    ensures !q.DeadEnd? ==> Ordinary(q, MORE_Z)
  {
  }

  /** At first: a at version 2. */
  lemma WithA2(q: Sequel)
    ensures Held(q, [], "a") == [RootEdge(q)] && Held(q, [], "z") == []
    ensures Held(q, [A2], "a") == [RootEdge(q)] && Held(q, [A2], "z") == [Dependency(Atom(A, TWO), ANY_Z)] && Held(q, [A2], "c") == []
    ensures Base([A2], "a") == Some(A2.a) && Base([A2], "z").None? && Base([A2], "c").None?
  {
    hide DepsIn;
    DepsOfA(q);
    assert [] + [A2] == [A2];
    forall r { Higher(q, [], A2, r); }
  }

  ghost function EdgeOfZ(q: Sequel): Dependency { Dependency(Atom(Z, FirstZ(q)), if q.DeadEnd? then NINE_C else ANY_C) }

  /** Then z. */
  lemma WithZ(q: Sequel)
    ensures Held(q, [A2, OfZ(q)], "c") == [EdgeOfZ(q)] && Base([A2, OfZ(q)], "c").None?
    ensures Base([A2, OfZ(q)], "a") == Some(A2.a)
    ensures !q.DeadEnd? ==> Held(q, [A2, OfZ(q)], "a") == [RootEdge(q)]
  {
    hide DepsIn, Held;
    WithA2(q);
    DepsOfZ(q, Z);
    assert [A2] + [OfZ(q)] == [A2, OfZ(q)];
    forall r { Higher(q, [A2], OfZ(q), r); }
  }

  /** Later: a at version 1. */
  lemma WithA1(q: Sequel, r: ProjectRoot)
    ensures Held(q, [A1], r) == if r == "a" then [RootEdge(q)] else []
    ensures Base([A1], r) == if r == "a" then Some(A1.a) else None
  {
    hide DepsIn;
    DepsOfA(q);
    assert [] + [A1] == [A1];
    Higher(q, [], A1, r);
  }

  lemma Joined(es: seq<Dependency>)
    ensures es + [] == es == [] + es
  {
  }

  lemma ZBrings(q: Sequel, r: ProjectRoot)
    requires !q.DeadEnd?
    ensures Brought(q, OfZ(q), r) == if r == "c" then [EdgeOfZ(q)] else []
  {
    hide DepsIn;
    DepsOfZ(q, Z);
  }

  lemma CBrings(q: Sequel, r: ProjectRoot)
    requires q.Needless? || q.Rival?
    ensures Brought(q, C1, r) == if r == "a" then [Dependency(Atom(C, ONE), ONE_A)]
                                 else if r == "e" && q.Rival? then [Dependency(Atom(C, ONE), ANY_E)] else []
  {
    hide DepsIn;
    DepsOfC(q);
  }

  lemma EBrings(r: ProjectRoot)
    ensures Brought(Rival, E1, r) == if r == "z" then [Dependency(Atom(E, ONE), OTHER_DEP)] else []
  {
    hide DepsIn;
    DepsOfE(Rival);
  }

  /** Again z, which nobody asks for now. */
  lemma WithLeftZ(q: Sequel, r: ProjectRoot)
    requires !q.DeadEnd?
    ensures Held(q, [A1, OfZ(q)], r) == if r == "a" then [RootEdge(q)] else if r == "c" then [EdgeOfZ(q)] else []
    ensures Base([A1, OfZ(q)], r) == if r == "a" then Some(A1.a) else if r == "z" then Some(OfZ(q).a) else None
  {
    hide Brought, Held, Base;
    WithA1(q, r);
    assert [A1] + [OfZ(q)] == [A1, OfZ(q)];
    Higher(q, [A1], OfZ(q), r);
    ZBrings(q, r);
    Joined(Held(q, [A1], r));
    Joined(Brought(q, OfZ(q), r));
  }

  /** Then c. */
  lemma WithC(q: Sequel, r: ProjectRoot)
    requires (q.Needless? || q.Rival?) && r != "a"
    ensures Held(q, [A1, OfZ(q), C1], r) ==
            if r == "c" then [EdgeOfZ(q)] else if r == "e" && q.Rival? then [Dependency(Atom(C, ONE), ANY_E)] else []
    ensures Base([A1, OfZ(q), C1], r) == if r == "z" then Some(OfZ(q).a) else if r == "c" then Some(C1.a) else None
  {
    hide Brought, Held, Base;
    WithLeftZ(q, r);
    var xs := [A1, OfZ(q)];
    assert xs + [C1] == [A1, OfZ(q), C1];
    Higher(q, xs, C1, r);
    CBrings(q, r);
    Joined(Held(q, xs, r));
    Joined(Brought(q, C1, r));
  }

  /** Then e, which asks for z from elsewhere. */
  lemma WithE(r: ProjectRoot)
    requires r == "z" || r == "c"
    ensures var xs := [A1, OfZ(Rival), C1, E1];
            && Held(Rival, xs, r) == [if r == "z" then Dependency(Atom(E, ONE), OTHER_DEP) else EdgeOfZ(Rival)]
            && Base(xs, r) == if r == "z" then Some(OfZ(Rival).a) else Some(C1.a)
  {
    hide Brought, Held, Base;
    WithC(Rival, r);
    var xs := [A1, OfZ(Rival), C1];
    assert xs + [E1] == [A1, OfZ(Rival), C1, E1];
    Higher(Rival, xs, E1, r);
    EBrings(r);
    Joined(Held(Rival, xs, r));
    Joined(Brought(Rival, E1, r));
  }

  // ------------------------------------------------------------------ what suits

  lemma AgreesWhenOpen(q: Sequel, xs: seq<Selected>, d: CompleteDep)
    requires forall e <- Held(q, xs, d.ident.root) :: e.dep.constraint == Any && e.dep.ident == d.ident
    requires match Base(xs, d.ident.root) case None => true
             case Some(b) => Matches(Stale(q).lib, d.constraint, b.a.v) && Main(d.ident.root) in Packages(q, b.a.id, b.a.v)
    ensures Agrees(q, xs, d)
  {
    hide Held, Base, Matches, Main, Packages, Fold, Conditions;
    var es := Held(q, xs, d.ident.root);
    assert es != [] ==> es[0] in es;
    AllAny(Stale(q), es);
  }

  const WORK_A := Bmi(A, ["a"], None, true)
  const WORK_C := Bmi(C, ["c"], None, false)
  const WORK_E := Bmi(E, ["e"], None, false)
  const WORK_Z := Bmi(Z, ["z/p"], None, false)
  const WORK_OTHER := Bmi(OTHER_Z, ["z/p"], None, false)
  const LEFT_A := Bmi(A, ["a"], None, false)
  ghost const LEFT_Z := Bmi(Z, BOTH, None, false)

  lemma SuitsA2(q: Sequel)
    requires !q.Orderly?
    ensures Suits(q, [], WORK_A, A2)
  {
    hide DepsIn, Imports, NoDup, Agrees, Ordinary, Held;
    EntriesAreOrdinary(q);
    WithA2(q);
    DepsOfA(q);
    OneListed("a");
    ImportsOne(q, A2.a.a, "a");
    AgreesWhenOpen(q, [], ANY_Z);
  }

  lemma SuitsA1(q: Sequel)
    requires !q.Orderly?
    ensures Suits(q, [], LEFT_A, A1)
  {
    hide DepsIn, Imports, NoDup, Agrees, Ordinary, Held;
    EntriesAreOrdinary(q);
    WithA2(q);
    DepsOfA(q);
    OneListed("a");
    ImportsOne(q, A1.a.a, "a");
  }

  lemma SuitsZ(q: Sequel)
    requires !q.Orderly?
    ensures Suits(q, [A2], WORK_Z, OfZ(q))
  {
    hide DepsIn, Imports, NoDup, Agrees, Ordinary, Held, Base;
    EntriesAreOrdinary(q);
    WithA2(q);
    DepsOfZ(q, Z);
    OneListed("z/p");
    ImportsOne(q, OfZ(q).a.a, "z/p");
    if q.DeadEnd? {
      AgreesWhenOpen(q, [A2], TWO_A);
      AgreesWhenOpen(q, [A2], NINE_C);
    } else {
      AgreesWhenOpen(q, [A2], ANY_C);
    }
  }

  lemma SuitsLeftZ(q: Sequel)
    requires q.Needless? || q.Rival?
    ensures Suits(q, [A1], LEFT_Z, OfZ(q))
  {
    hide DepsIn, Imports, NoDup, Agrees, Ordinary, Held, Base;
    EntriesAreOrdinary(q);
    WithA1(q, "z");
    WithA1(q, "c");
    DepsOfZ(q, Z);
    BothAre();
    ImportsBoth(q, OfZ(q).a.a);
    AgreesWhenOpen(q, [A1], ANY_C);
  }

  lemma AgreesC(q: Sequel)
    requires q.Needless? || q.Rival?
    ensures AllAgree(q, [A1, OfZ(q)], DepsIn(q, C, ONE))
  {
    hide DepsIn, Agrees, Held, Base;
    WithLeftZ(q, "a");
    WithLeftZ(q, "e");
    DepsOfC(q);
    AgreesWhenOpen(q, [A1, OfZ(q)], ONE_A);
    AgreesWhenOpen(q, [A1, OfZ(q)], ANY_E);
  }

  lemma SuitsC(q: Sequel)
    requires q.Needless? || q.Rival?
    ensures Suits(q, [A1, OfZ(q)], WORK_C, C1)
  {
    hide DepsIn, Imports, NoDup, AllAgree, Ordinary, Held, Base;
    EntriesAreOrdinary(q);
    WithLeftZ(q, "c");
    OneListed("c");
    ImportsOne(q, C1.a.a, "c");
    AgreesC(q);
  }

  lemma SuitsE()
    ensures Suits(Rival, [A1, OfZ(Rival), C1], WORK_E, E1)
  {
    hide DepsIn, Imports, NoDup, Agrees, Ordinary, Held, Base;
    EntriesAreOrdinary(Rival);
    WithC(Rival, "e");
    WithC(Rival, "z");
    DepsOfE(Rival);
    OneListed("e");
    ImportsOne(Rival, E1.a.a, "e");
    AgreesWhenOpen(Rival, [A1, OfZ(Rival), C1], OTHER_DEP);
  }

  lemma SuitsOther()
    ensures Suits(Rival, [A1, OfZ(Rival), C1, E1], WORK_OTHER, MORE_Z)
  {
    hide DepsIn, Imports, NoDup, Agrees, Ordinary, Held, Base;
    EntriesAreOrdinary(Rival);
    WithE("z");
    WithE("c");
    DepsOfZ(Rival, OTHER_Z);
    OneListed("z/p");
    ImportsOne(Rival, MORE_Z.a.a, "z/p");
    AgreesWhenOpen(Rival, [A1, OfZ(Rival), C1, E1], ANY_C);
  }

  // ------------------------------------------------------------------ the search has no choice

  lemma {:induction false} NothingLocked(w: World, es: seq<Dependency>, id: ProjectIdentifier)
    requires forall i, v :: w.lock(i, v) == []
    ensures DependersLock(w, es, id).None?
  {
    if es != [] { NothingLocked(w, es[..|es| - 1], id); }
  }

  lemma {:induction false} AllUnlisted(l: seq<Version>)
    ensures Unlisted(l, None, None) == l
  {
    if l != [] {
      AllUnlisted(l[..|l| - 1]);
      assert l == l[..|l| - 1] + [l[|l| - 1]];
    }
  }

  /** Without locks and revisions the listed versions are tried in order. */
  lemma CandidatesAre(q: Sequel, s: Core, b: Bmi)
    requires b.prefv.None? && !IsRevision(Composite(Stale(q), s.deps, b.id.root))
    ensures Candidates(Stale(q), s, b) == Listed(Stale(q), b.id)
  {
    var w := Stale(q);
    hide Composite, IsRevision, Listed, DependersLock;
    NothingLocked(w, On(s.deps, b.id.root), b.id);
    AllUnlisted(Listed(w, b.id));
    assert Preferred(w, s, b).None? && RootLockVersion(w, b.id).None?;
    assert [] + [] + Listed(w, b.id) == Listed(w, b.id);
  }

  /** y is at the first version listed. */
  ghost predicate FirstListed(q: Sequel, b: Bmi, y: Selected) {
    var l := Listed(Stale(q), b.id);
    l != [] && l[0] == y.a.a.v
  }

  lemma IsTakenAlone(q: Sequel, s: Core, xs: seq<Selected>, b: Bmi, y: Selected)
    requires At(q, s, xs) && s.unsel == [b] && b.prefv.None? && Suits(q, xs, b, y) && (y.first ==> FirstListed(q, b, y))
    ensures TakenAlone(Stale(q), s, y)
  {
    hide At, Suits, Stale, CheckOk, Listed, Candidates, Composite, Open;
    SuitsFits(q, s, xs, b, y);
    SuitsIs(q, xs, b, y);
    SuitsOpen(q, xs, b, y);
    OpenIs(q, s, xs, y.a.a);
    if y.first {
      CandidatesAre(q, s, b);
      assert Fits(Stale(q), s, b.id, b.pl, Candidates(Stale(q), s, b)[0]);
    }
  }

  lemma SuitsOpen(q: Sequel, xs: seq<Selected>, b: Bmi, y: Selected)
    requires Suits(q, xs, b, y)
    ensures Open(q, xs, y.a.a)
  {
    hide Imports, Ordinary, Open, AllAgree, DepsIn, Base;
  }

  function Last(ss: seq<Core>): Core
    requires ss != []
  {
    ss[|ss| - 1]
  }

  /** A run of the search that was not just unselecting, now with xs on the stack and the queue sl. */
  ghost predicate Runs(q: Sequel, ss: seq<Core>, xs: seq<Selected>, sl: seq<Bmi>) {
    && ss != [] && Forced(Stale(q), ss) && At(q, Last(ss), xs) && Last(ss).unsel == sl
    && (|ss| > 1 ==> !Shrinks(ss[|ss| - 2], Last(ss)))
  }

  ghost function QueueAfter(q: Sequel, xs: seq<Selected>, b: Bmi, y: Selected, order: seq<ProjectRoot>): seq<Bmi>
    requires forall r <- order :: r in DepsIn(q, b.id, y.a.a.v)
  {
    NewItems(q, xs, DepsIn(q, b.id, y.a.a.v), order)
  }

  lemma Grows(s: Core, t: Core, bottom: Selected, xs: seq<Selected>, y: Selected)
    requires s.projects == [bottom] + xs && t.projects == [bottom] + (xs + [y])
    ensures !Shrinks(s, t) && t.projects != [] && Top(t) == y
  {
  }

  lemma Go(q: Sequel, ss: seq<Core>, xs: seq<Selected>, b: Bmi, y: Selected, order: seq<ProjectRoot>) returns (tt: seq<Core>)
    requires Runs(q, ss, xs, [b]) && b.prefv.None? && Suits(q, xs, b, y) && (y.first ==> FirstListed(q, b, y))
    requires var deps := DepsIn(q, b.id, y.a.a.v); Listing(order, deps.Keys) && forall r <- order :: r in deps
    ensures Runs(q, tt, xs + [y], QueueAfter(q, xs, b, y, order)) && |tt| == |ss| + 1
  {
    hide At, Suits, Stale, DepsIn, NewItems, CheckOk, Picks, Backs, Forced, TakenAlone, FirstListed, Bottom, Shrinks, Listing, Arises;
    var s := Last(ss);
    IsTakenAlone(q, s, xs, b, y);
    var t := Take(q, s, xs, b, y, order);
    RemovesOnly(b);
    AtArises(q, s, xs);
    AtArises(q, t, xs + [y]);
    Grows(s, t, Bottom(q), xs, y);
    tt := ss + [t];
    assert ForcedAt(Stale(q), tt, |ss| - 1);
    ForcedPush(Stale(q), ss, t);
    assert [] + t.unsel == t.unsel;
  }

  lemma RemovesOnly(b: Bmi)
    ensures RemoveFirst([b], b.id, b.pl) == []
  {
  }

  // ------------------------------------------------------------------ up to the failure

  lemma FirstWork(q: Sequel)
    ensures Listing(["a"], ROOT_DEPS.Keys) && RootWork(Stale(q), ["a"]) == multiset([WORK_A])
  {
    hide Listing;
    OrderOne("a");
    assert ROOT_DEPS.Keys == {"a"};
    assert ["a"][..0] == [] && Stale(q).rootDeps == ROOT_DEPS;
  }

  lemma FirstState(q: Sequel) returns (s: Core)
    ensures Start(Stale(q), s, ["a"]) && s.projects == [Bottom(q)] && s.unsel == [WORK_A]
  {
    var w := Stale(q);
    hide MarkRoots, AddEdges, Listing, RootWork;
    FirstWork(q);
    assert w.rootDeps == ROOT_DEPS && w.rootList == [];
    s := Core([Bottom(q)], AddEdges(map[], RootAtom(w), ROOT_DEPS, ROOT_DEPS.Keys), MarkRoots(w, map[], map[], ["a"]), [WORK_A]);
  }

  lemma Beginning(q: Sequel) returns (ss: seq<Core>)
    ensures Runs(q, ss, [], [WORK_A]) && |ss| == 1
  {
    hide Start, Stale, Bottom, Arises;
    var s := FirstState(q);
    StartArises(Stale(q), s, ["a"]);
    ss := [s];
    assert ss[0] == s && Follows(Stale(q), ss, 0);
    assert [Bottom(q)] + [] == [Bottom(q)];
  }

  lemma VersionsListed(q: Sequel)
    ensures Listed(Stale(q), A) == [TWO, ONE] && Listed(Stale(q), C) == [ONE]
    ensures Listed(Stale(q), Z) == if q.DeadEnd? then [TWO, ONE] else [ONE]
  {
  }

  /** a is taken at version 2, then z. */
  lemma Climb(q: Sequel) returns (ss: seq<Core>)
    requires !q.Orderly?
    ensures Runs(q, ss, [A2, OfZ(q)], [WORK_C])
  {
    hide Runs, Suits, DepsIn, Held, Listed, Listing, NewItems;
    ss := Beginning(q);
    VersionsListed(q);
    SuitsA2(q);
    OrderOfA2Is(q);
    QueueAfterA2(q);
    ss := Go(q, ss, [], WORK_A, A2, ["z"]);
    assert [] + [A2] == [A2];
    SuitsZ(q);
    OrderOfZIs(q);
    QueueAfterZ(q);
    ss := Go(q, ss, [A2], WORK_Z, OfZ(q), OrderOfZ(q));
    assert [A2] + [OfZ(q)] == [A2, OfZ(q)];
  }

  lemma OrderOfA2Is(q: Sequel)
    ensures Listing(["z"], DepsIn(q, A, TWO).Keys) && forall r <- ["z"] :: r in DepsIn(q, A, TWO)
  {
    hide DepsIn, Listing;
    DepsOfA(q);
    OrderOne("z");
    assert DepsIn(q, A, TWO).Keys == {"z"};
  }

  lemma QueueAfterA2(q: Sequel)
    requires forall r <- ["z"] :: r in DepsIn(q, A, TWO)
    ensures QueueAfter(q, [], WORK_A, A2, ["z"]) == [WORK_Z]
  {
    hide DepsIn, Held;
    DepsOfA(q);
    WithA2(q);
    assert ["z"][..0] == [];
  }

  lemma OrderOfZIs(q: Sequel)
    ensures var deps := DepsIn(q, Z, FirstZ(q)); Listing(OrderOfZ(q), deps.Keys) && forall r <- OrderOfZ(q) :: r in deps
  {
    hide DepsIn, Listing;
    DepsOfZ(q, Z);
    OrderOne("c");
    OrderTwo("a", "c");
    assert DepsIn(q, Z, FirstZ(q)).Keys == if q.DeadEnd? then {"a", "c"} else {"c"};
  }

  lemma QueueAfterZ(q: Sequel)
    requires forall r <- OrderOfZ(q) :: r in DepsIn(q, Z, FirstZ(q))
    ensures QueueAfter(q, [A2], WORK_Z, OfZ(q), OrderOfZ(q)) == [WORK_C]
  {
    hide DepsIn, Held;
    DepsOfZ(q, Z);
    WithA2(q);
    var deps, work := DepsIn(q, Z, FirstZ(q)), OrderOfZ(q);
    if q.DeadEnd? {
      assert NewItems(q, [A2], deps, ["a"]) == [] by { assert ["a"][..0] == []; }
      assert work[..1] == ["a"] && work[1] == "c";
    } else {
      assert work[..0] == [] && work[0] == "c";
      assert NewItems(q, [A2], deps, work) == NewItems(q, [A2], deps, []) + [Bmi(C, ["c"], None, false)];
    }
  }

  // ------------------------------------------------------------------ c fails

  function Blamed(q: Sequel): ProjectIdentifier { if q.DeadEnd? then Z else A }

  lemma RefusedForDep(w: World, s: Core, awp: AtomWithPackages, r: ProjectRoot)
    requires var i := Imports(w, awp.a, awp.pl); i.Imported? && r in i.deps && DepFailure(w, s, awp.a, i.deps[r]).Some?
    ensures !CheckOk(w, s, awp, false)
    ensures Explains(w, s, awp, false, DepFailure(w, s, awp.a, Imports(w, awp.a, awp.pl).deps[r]).value)
  {
    hide Imports, DepFailure, AtomFailure, CheckOk, RequiredFailure;
    NoFailureIffCheckOk(w, s, awp, false);
  }

  lemma RefusedForVersion(w: World, s: Core, awp: AtomWithPackages)
    requires AtomFailure(w, s, awp.a).Some?
    ensures !CheckOk(w, s, awp, false) && Explains(w, s, awp, false, AtomFailure(w, s, awp.a).value)
  {
    hide Imports, DepFailure, AtomFailure, CheckOk, RequiredFailure;
    NoFailureIffCheckOk(w, s, awp, false);
  }

  const OF_C := AtomWithPackages(Atom(C, ONE), ["c"])

  /** c needs a at version 1, but a is there at version 2. */
  lemma CNeedsOther(q: Sequel, s: Core)
    requires (q.Needless? || q.Rival?) && At(q, s, [A2, OfZ(q)])
    ensures DepFailure(Stale(q), s, OF_C.a, ONE_A) == Some(ConstraintNotAllowed(Dependency(OF_C.a, ONE_A), TWO))
  {
    hide At, Held, Base, Fold, Conditions, Arises;
    AtArises(q, s, [A2, OfZ(q)]);
    FoldsAgree(q, s, "a");
    AtIs(q, s, [A2, OfZ(q)], "a");
    WithZ(q);
    assert On(s.deps, "a") == [RootEdge(q)];
    AllAny(Stale(q), [RootEdge(q)]);
  }

  /** z needs c at version 9. */
  lemma NineOnly(q: Sequel, s: Core)
    requires q.DeadEnd? && At(q, s, [A2, OfZ(q)])
    ensures AtomFailure(Stale(q), s, OF_C.a) == Some(VersionNotAllowed(OF_C.a, [EdgeOfZ(q)], Exact(NINE)))
    ensures Composite(Stale(q), s.deps, "c") == Exact(NINE)
  {
    hide At, Held, Base;
    var w, e := Stale(q), EdgeOfZ(q);
    AtIs(q, s, [A2, OfZ(q)], "c");
    WithZ(q);
    FoldMore(w, [], e);
    assert [] + [e] == [e] && Conditions([]) == [] && [e][..0] == [];
    assert Rejecting(w, [e], ONE) == [e];
  }

  lemma CIsRefused(q: Sequel, s: Core) returns (f: Failure)
    requires !q.Orderly? && At(q, s, [A2, OfZ(q)])
    ensures !CheckOk(Stale(q), s, OF_C, false) && Explains(Stale(q), s, OF_C, false, f) && Blamed(q) in Blame(f)
  {
    hide At, Imports, CheckOk, Explains, AtomFailure, DepFailure, Stale, DepsIn, OfZ;
    if q.DeadEnd? {
      NineOnly(q, s);
      RefusedForVersion(Stale(q), s, OF_C);
      f := AtomFailure(Stale(q), s, OF_C.a).value;
      assert Blame(f)[0] == EdgeOfZ(q).depender.id;
    } else {
      CNeedsOther(q, s);
      DepsOfC(q);
      ImportsOne(q, OF_C.a, "c");
      RefusedForDep(Stale(q), s, OF_C, "a");
      f := DepFailure(Stale(q), s, OF_C.a, ONE_A).value;
      assert Blame(f) == [A];
      assert Blame(f)[0] == A;
    }
  }

  lemma CFolds(q: Sequel, s: Core)
    requires !q.Orderly? && At(q, s, [A2, OfZ(q)])
    ensures !IsRevision(Composite(Stale(q), s.deps, "c")) && Base(s.projects, "c").None?
  {
    hide At, Held, Base, Conditions, Fold;
    AtIs(q, s, [A2, OfZ(q)], "c");
    WithZ(q);
    if q.DeadEnd? {
      NineOnly(q, s);
    } else {
      AllAny(Stale(q), On(s.deps, "c"));
    }
  }

  lemma CFails(q: Sequel, s: Core)
    requires !q.Orderly? && At(q, s, [A2, OfZ(q)]) && s.unsel == [WORK_C]
    ensures Fails(Stale(q), s) && BlamedByCheck(Stale(q), s, Blamed(q))
  {
    hide At, Stale, CheckOk, Explains, Candidates, Composite, Blame, Listed, OfZ;
    CFolds(q, s);
    CandidatesAre(q, s, WORK_C);
    VersionsListed(q);
    var f := CIsRefused(q, s);
    assert Candidates(Stale(q), s, WORK_C)[0] == ONE;
  }

  // ------------------------------------------------------------------ z goes, then a is tried again

  lemma RemainsOfZ(q: Sequel)
    requires forall r <- OrderOfZ(q) :: r in DepsIn(q, Z, FirstZ(q))
    ensures Remains(q, [A2], DepsIn(q, Z, FirstZ(q)), [WORK_C, LEFT_Z], OrderOfZ(q)) == [LEFT_Z]
  {
    hide DepsIn, Held;
    DepsOfZ(q, Z);
    WithA2(q);
    var deps, order := DepsIn(q, Z, FirstZ(q)), OrderOfZ(q);
    assert RemoveFirst([WORK_C, LEFT_Z], C, ["c"]) == [LEFT_Z];
    if q.DeadEnd? {
      assert Remains(q, [A2], deps, [WORK_C, LEFT_Z], ["a"]) == [WORK_C, LEFT_Z] by { assert ["a"][..0] == []; }
      assert order[..1] == ["a"] && order[1] == "c";
    } else {
      assert order[..0] == [] && order[0] == "c";
    }
  }

  /** The work for z is not what a asked for, so it stays. */
  lemma RemainsOfA(q: Sequel)
    requires forall r <- ["z"] :: r in DepsIn(q, A, TWO)
    ensures Remains(q, [], DepsIn(q, A, TWO), [LEFT_Z, LEFT_A], ["z"]) == [LEFT_Z, LEFT_A]
  {
    hide DepsIn, Held;
    DepsOfA(q);
    WithA2(q);
    BothAre();
    assert ["z"][..0] == [];
    var sl := [LEFT_Z, LEFT_A];
    assert sl[1..] == [LEFT_A] && [LEFT_A][1..] == [];
    assert RemoveFirst([LEFT_A], Z, ["z/p"]) == [LEFT_A];
    assert RemoveFirst(sl, Z, ["z/p"]) == [LEFT_Z] + [LEFT_A];
  }

  lemma RefusedForImports(w: World, s: Core, awp: AtomWithPackages)
    requires Imports(w, awp.a, awp.pl).ImportFailed?
    ensures !CheckOk(w, s, awp, false)
  {
    hide Imports, Composite, ListPackages, PackagesOk, DepOk;
  }

  lemma LaterVersions(q: Sequel)
    ensures Later(Stale(q), A2) == [ONE] && Later(Stale(q), OfZ(q)) == if q.DeadEnd? then [ONE] else []
  {
    hide Listed;
    VersionsListed(q);
    assert [TWO, ONE][1..] == [ONE] && [ONE][1..] == [];
  }

  /** No later version of z will do. */
  lemma ZIsGivenUp(q: Sequel, s: Core)
    ensures GivenUp(Stale(q), s, OfZ(q))
  {
    hide CheckOk, Later, Imports, Stale;
    LaterVersions(q);
    if q.DeadEnd? {
      ImportsMissing(q, Atom(Z, ONE));
      RefusedForImports(Stale(q), s, AtomWithPackages(Atom(Z, ONE), BOTH));
    }
  }

  lemma AskedByA(q: Sequel, s: Core)
    requires At(q, s, [A2])
    ensures On(s.deps, "z") != [] && On(s.deps, "z")[0].depender.id == A
  {
    hide At, Held, Base;
    AtIs(q, s, [A2], "z");
    WithA2(q);
  }

  /** z is unselected. */
  lemma FallZ(q: Sequel, ss: seq<Core>) returns (t: Core)
    requires Runs(q, ss, [A2, OfZ(q)], [WORK_C]) && !q.Orderly?
    ensures Forced(Stale(q), ss + [t]) && At(q, t, [A2]) && t.unsel == [LEFT_Z]
    ensures Shrinks(Last(ss), t) && Last(ss).projects != [] && Top(Last(ss)) == OfZ(q) && BlamedByCheck(Stale(q), Last(ss), Blamed(q))
  {
    hide At, Stale, DepsIn, Remains, Backs, Forced, BlamedByCheck, Fails, Listing, Bottom, Arises;
    var s := Last(ss);
    OrderOfZIs(q);
    RemainsOfZ(q);
    CFails(q, s);
    assert [A2] + [OfZ(q)] == [A2, OfZ(q)];
    t := Leave(q, s, [A2], OfZ(q), OrderOfZ(q));
    assert s.unsel + [Back(OfZ(q))] == [WORK_C, LEFT_Z];
    AtArises(q, s, [A2, OfZ(q)]);
    AtArises(q, t, [A2]);
    assert ForcedAt(Stale(q), ss + [t], |ss| - 1);
    ForcedPush(Stale(q), ss, t);
  }

  /** Then a. */
  lemma FallA(q: Sequel, ss: seq<Core>, t: Core) returns (u: Core)
    requires ss != [] && Forced(Stale(q), ss + [t]) && At(q, t, [A2]) && t.unsel == [LEFT_Z]
    requires Shrinks(Last(ss), t) && Last(ss).projects != [] && Top(Last(ss)) == OfZ(q) && BlamedByCheck(Stale(q), Last(ss), Blamed(q))
    ensures Forced(Stale(q), ss + [t] + [u]) && At(q, u, []) && u.unsel == [LEFT_Z, LEFT_A]
    ensures Shrinks(t, u) && t.projects != [] && Top(t) == A2
  {
    hide At, Stale, DepsIn, Remains, Backs, Forced, BlamedByCheck, Listing, Bottom, Arises, GivenUp, Later, BlamedByGivingUp;
    var n, tt := |ss| - 1, ss + [t];
    OrderOfA2Is(q);
    RemainsOfA(q);
    assert [] + [A2] == [A2];
    u := Leave(q, t, [], A2, ["z"]);
    assert t.unsel + [Back(A2)] == [LEFT_Z, LEFT_A];
    AtArises(q, t, [A2]);
    AtArises(q, u, []);
    ZIsGivenUp(q, t);
    LaterVersions(q);
    assert tt[n] == Last(ss) && tt[n + 1] == t && (tt + [u])[n] == Last(ss) && (tt + [u])[n + 1] == t && (tt + [u])[n + 2] == u;
    if q.DeadEnd? { assert BlamedBefore(Stale(q), tt + [u], n + 1, Z); }
    assert ForcedAt(Stale(q), tt + [u], n + 1);
    ForcedPush(Stale(q), tt, u);
  }

  lemma ABlamed(q: Sequel, s: Core, t: Core)
    requires At(q, t, [A2]) && BlamedByCheck(Stale(q), s, Blamed(q))
    ensures BlamedByCheck(Stale(q), s, A) || BlamedByGivingUp(Stale(q), t, OfZ(q), A)
  {
    hide At, Stale, BlamedByCheck, GivenUp, Later;
    AskedByA(q, t);
    ZIsGivenUp(q, t);
    LaterVersions(q);
  }

  lemma AIsRetried(q: Sequel, s: Core)
    requires CheckOk(Stale(q), s, AtomWithPackages(A1.a.a, LEFT_A.pl), false)
    ensures Retried(Stale(q), s, A2, A1)
  {
    hide Stale, CheckOk, Later;
    LaterVersions(q);
    assert Later(Stale(q), A2)[0] == ONE && Fits(Stale(q), s, A, ["a"], ONE);
  }

  lemma OrderOfA1Is(q: Sequel)
    ensures DepsIn(q, A, ONE) == map[] && Listing<ProjectRoot>([], DepsIn(q, A, ONE).Keys)
    ensures NewItems(q, [], DepsIn(q, A, ONE), []) == []
  {
    hide DepsIn;
    DepsOfA(q);
  }

  lemma RemovesSecond()
    ensures RemoveFirst([LEFT_Z, LEFT_A], A, ["a"]) == [LEFT_Z]
  {
    assert [LEFT_Z, LEFT_A][1..] == [LEFT_A];
    assert RemoveFirst([LEFT_A], A, ["a"]) == [];
  }

  /** a, which was blamed, is selected again at version 1. */
  lemma Retry(q: Sequel, ss: seq<Core>, t: Core, u: Core) returns (tt: seq<Core>)
    requires ss != [] && Forced(Stale(q), ss + [t] + [u]) && At(q, u, []) && At(q, t, [A2]) && u.unsel == [LEFT_Z, LEFT_A] && !q.Orderly?
    requires Shrinks(Last(ss), t) && Last(ss).projects != [] && Top(Last(ss)) == OfZ(q) && BlamedByCheck(Stale(q), Last(ss), Blamed(q))
    requires Shrinks(t, u) && t.projects != [] && Top(t) == A2
    ensures Runs(q, tt, [A1], [LEFT_Z])
  {
    hide At, Stale, DepsIn, Picks, Forced, BlamedByCheck, Listing, Bottom, Arises, BlamedByGivingUp, Suits, CheckOk, NewItems, Retried;
    var n, uu := |ss| - 1, ss + [t] + [u];
    SuitsA1(q);
    OrderOfA1Is(q);
    RemovesSecond();
    var v := Take(q, u, [], LEFT_A, A1, []);
    assert [] + [A1] == [A1];
    AtArises(q, u, []);
    AtArises(q, v, [A1]);
    ABlamed(q, Last(ss), t);
    AIsRetried(q, u);
    tt := uu + [v];
    assert tt[n] == Last(ss) && tt[n + 1] == t && tt[n + 2] == u && tt[n + 3] == v;
    assert BlamedBefore(Stale(q), tt, n + 2, A);
    assert ForcedAt(Stale(q), tt, n + 2);
    ForcedPush(Stale(q), uu, v);
  }

  /** What they have in common: the queue still asks for z. */
  lemma UpToA1(q: Sequel) returns (ss: seq<Core>)
    requires !q.Orderly?
    ensures Runs(q, ss, [A1], [LEFT_Z])
  {
    hide Runs, Stale, At, Forced, BlamedByCheck, Shrinks;
    ss := Climb(q);
    RunsEndsAbove(q, ss);
    var t := FallZ(q, ss);
    var u := FallA(q, ss, t);
    ss := Retry(q, ss, t, u);
  }

  lemma RunsEndsAbove(q: Sequel, ss: seq<Core>)
    requires Runs(q, ss, [A2, OfZ(q)], [WORK_C])
    ensures ss != []
  {
  }
}
