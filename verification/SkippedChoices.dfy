/** A world in which the search ends without a solution although there is one: the root depends on a; a
    at version 2 depends on c, which has no source; a at version 1 depends on nothing.  Nobody is
    blamed for c, so a is given up without trying version 1. */
module SkippedChoices {
  import opened Constraints
  import opened Identifiers
  import opened Bridge
  import opened SolverCore
  import opened SolverInvariants
  import opened SolverMeasure
  import opened Satisfy
  import opened CaseConflicts
  import opened Completeness
  import opened Consistency
  import opened Searches
  import StaleWorld
  import UniformWorlds
  import VersionQueues
  import opened VersionChoices

  const A := ProjectIdentifier("a", "")
  const C := ProjectIdentifier("c", "")
  const ONE := Bare(Plain("1"))
  const TWO := Bare(Plain("2"))
  const A2 := Atom(A, TWO)
  const ON_A := CompleteDep(A, Any, ["a"])
  const ON_C := CompleteDep(C, Any, ["c"])
  const ROOT_DEPS: Deps := map["a" := ON_A]
  const ALL: set<Package> := {"a", "c"}
  const WORK_A := Bmi(A, ["a"], None, true)
  const WORK_C := Bmi(C, ["c"], None, false)

  function Reached(id: ProjectIdentifier, v: Version): ReachMap {
    map p | p in ALL :: Reach({}, if id == A && v == TWO then {"c"} else {})
  }

  ghost const W := World(
    Library((x, y) => x == y, (r, v) => false, (r, s) => None, (r, v) => false),
    "root", "", [], map[], ROOT_DEPS, map[], {}, false,
    p => false, s => s, s => StaleWorld.SomeListing(s),
    id => id == A, id => false, id => if id == A then Some([TWO, ONE]) else None,
    (id, v) => Some(map p | p in ALL :: Loaded), (id, v) => Reached(id, v),
    (id, v, ex) => Some(if "c" in ex then map["c" := ON_C] else map[]),
    (id, v) => [], (id, rev) => false,
    {"a", "c"}, ALL, 2)

  /** The dependencies of an atom, if it imports any of its packages. */
  function DepsAt(a: Atom): Deps { if a == A2 then map["c" := ON_C] else map[] }

  // ------------------------------------------------------------------ the world

  lemma ImportsAre(a: Atom, pl: seq<Package>)
    ensures Imports(W, a, pl).Imported? ==> Imports(W, a, pl).deps in {map[], DepsAt(a)}
  {
    hide ExtendedList, FirstMissing;
    var rm := Reached(a.id, a.v);
    assert forall p <- rm :: rm[p].externals == if a == A2 then {"c"} else {};
    var ex := ExternalsOf(W, rm, pl);
    assert "c" in ex ==> a == A2;
  }

  lemma OneListed(p: Package)
    ensures Elems([p]) == {p} && NoDup([p])
  {
    assert [p][0] == p;
  }

  lemma ImportsOne(a: Atom)
    requires a.id.root in ALL
    ensures Imports(W, a, [a.id.root]) == ImportResult.Imported([a.id.root], DepsAt(a))
  {
    var p, rm := a.id.root, Reached(a.id, a.v);
    OneListed(p);
    assert [p][0] == p && [p][1..] == [];
    assert FirstMissing(W, rm, [p]) == 1;
    assert WithInternals(rm, [p]) == {p};
    assert p in rm && rm[p].externals == if a == A2 then {"c"} else {};
    var ex := ExternalsOf(W, rm, [p]);
    assert forall e :: e in ex <==> e in rm[p].externals;
  }

  lemma DepsAreGood(a: Atom, pl: seq<Package>)
    ensures GoodDeps(W, a, pl)
  {
    ImportsAre(a, pl);
    OneListed("c");
    hide Imports;
  }

  lemma IsLawful()
    ensures Lawful(W.lib) && (forall s :: Listing(W.sorted(s), s)) && forall r :: W.toFold(r) == r
  {
  }

  lemma IsWellFormed()
    ensures ValidDeps(W, W.rootDeps) && W.rootName !in W.rootDeps
    ensures (forall id, v :: ClosedReach(W, W.reach(id, v))) && forall id :: W.versions(id).Some? ==> |W.versions(id).value| <= W.maxVersions
  {
    OneListed("a");
  }

  lemma IsValid()
    ensures ValidWorld(W) && Lawful(W.lib)
  {
    hide Imports, ValidDeps, ClosedReach, GoodDeps, Listing, Lawful;
    IsLawful();
    IsWellFormed();
    assert Sound(W.lib) by { LawfulIsSound(); }
    forall a, pl ensures GoodDeps(W, a, pl) { DepsAreGood(a, pl); }
    hide W;
  }

  lemma LawfulIsSound()
    requires Lawful(W.lib)
    ensures Sound(W.lib)
  {
  }

  /** Folding changes nothing here. */
  lemma IsCaseClean()
    ensures CaseClean(W)
  {
    IsLawful();
    hide W, Imports;
  }

  ghost const LISTS: UniformWorlds.Lists := r => [r]

  lemma IsUniform()
    ensures UniformWorlds.Uniform(W, LISTS)
  {
    forall a: Atom, pl | Imports(W, a, pl).Imported? ensures UniformWorlds.UniformDeps(LISTS, Imports(W, a, pl).deps) { ImportsAre(a, pl); }
    forall a: Atom | Imports(W, a, LISTS(a.id.root)).Imported? ensures Imports(W, a, LISTS(a.id.root)).pl == LISTS(a.id.root) {
      if a.id.root in ALL { ImportsOne(a); } else { NotThere(a); }
    }
    hide Imports;
    assert UniformWorlds.UniformDeps(LISTS, W.rootDeps);
  }

  lemma NotThere(a: Atom)
    requires a.id.root !in ALL
    ensures Imports(W, a, [a.id.root]).ImportFailed?
  {
    assert [a.id.root][0] == a.id.root;
    assert FirstMissing(W, Reached(a.id, a.v), [a.id.root]) == 0;
  }

  // ------------------------------------------------------------------ there is a solution

  ghost const SOURCES: Sources := r => ProjectIdentifier(r, "")

  const CHOICE: Choice := map["a" := ONE]

  lemma OneIsConsistent()
    ensures Consistent(W, LISTS, SOURCES, CHOICE)
  {
    hide Imports;
    ImportsOne(Atom(A, ONE));
    assert Satisfied(W, Atom(A, ONE), ON_A);
    assert ONE == [TWO, ONE][1] && ONE in VersionQueues.Listed(W, A);
    assert Works(W, LISTS, SOURCES, CHOICE, "a");
  }

  // ------------------------------------------------------------------ the search does not find it

  ghost const BOTTOM := Selected(AtomWithPackages(RootAtom(W), []), true)
  ghost const FIRST := Core([BOTTOM], AddEdges(map[], RootAtom(W), ROOT_DEPS, ROOT_DEPS.Keys), MarkRoots(W, map[], map[], ["a"]), [WORK_A])

  lemma Starts()
    ensures Start(W, FIRST, ["a"])
  {
    OneListed("a");
    assert ROOT_DEPS.Keys == {"a"};
    assert ["a"][..0] == [] && RootWork(W, ["a"]) == multiset{WORK_A} == multiset([WORK_A]);
  }

  lemma FirstHolds(r: ProjectRoot)
    ensures On(FIRST.deps, r) == if r == "a" then [Dependency(RootAtom(W), ON_A)] else []
    ensures Base(FIRST.projects, r) == if r == "root" then Some(BOTTOM.a) else None
    ensures FIRST.foldRoots == map["a" := "a"] && Composite(W, FIRST.deps, r) == Any
  {
    assert FIRST.projects[..0] == [] && ["a"][..0] == [];
    var e := Dependency(RootAtom(W), ON_A);
    OnAddEdges(map[], RootAtom(W), ROOT_DEPS, ROOT_DEPS.Keys, r);
    assert MarkRoots(W, map[], map[], ["a"]) == MarkRoots(W, map[], map[], [])["a" := "a"];
    assert Conditions([]) == [] && Conditions([e]) == [Any] && [Any][..0] == [];
    assert Fold(W.lib, []) == Any && Fold(W.lib, [Any]) == Any;
  }

  ghost const AWP := AtomWithPackages(A2, ["a"])
  ghost const NEXT := Core([BOTTOM, Selected(AWP, true)], AddEdges(FIRST.deps, A2, DepsAt(A2), {"c"}), MarkRoots(W, FIRST.foldRoots, FIRST.deps, ["c"]), [WORK_C])

  lemma TwoFits()
    ensures Fits(W, FIRST, A, ["a"], TWO)
  {
    hide Imports, Base, Composite, AddEdges, MarkRoots;
    ImportsOne(A2);
    CIsOk();
    FirstHolds("a");
    assert On(FIRST.deps, "a") == [Dependency(RootAtom(W), ON_A)];
    assert Matches(W.lib, Composite(W, FIRST.deps, "a"), TWO);
    var t := ListPackages(W, A, TWO);
    assert t.Some? && "a" in t.value;
  }

  lemma CIsOk()
    ensures DepOk(W, FIRST, ON_C)
  {
    FirstHolds("c");
    hide Base, Composite, AddEdges, MarkRoots;
  }

  lemma CIsQueued()
    ensures Enqueued(W, FIRST.deps, A2, DepsAt(A2), ["c"]) == multiset{WORK_C} && RemoveFirst([WORK_A], A, ["a"]) == []
  {
    FirstHolds("c");
    hide Base, Imports, AddEdges, MarkRoots;
    CIsNew(FIRST.deps);
    OneListed("c");
    hide NewBmi, On;
    assert ["c"][..0] == [];
  }

  lemma CIsNew(edges: Edges)
    requires On(edges, "c") == []
    ensures NewBmi(W, edges, A2, ON_C) == WORK_C
  {
    OneListed("c");
    hide NewBmi, On;
    FirstNewBmi(W, edges, A2, ON_C);
  }

  lemma TwoIsSelected()
    ensures Selects(W, FIRST, NEXT, AWP, false, ["c"])
  {
    hide Imports, Enqueued, RemoveFirst, MarkRoots, AddEdges, Reached, NewBmi;
    ImportsOne(A2);
    CIsQueued();
    OneListed("c");
    assert DepsAt(A2).Keys - {"root"} == {"c"} == DepsAt(A2).Keys;
    assert FIRST.projects + [Selected(AWP, true)] == NEXT.projects;
    assert multiset(NEXT.unsel) == multiset(RemoveFirst(FIRST.unsel, A, ["a"])) + Enqueued(W, FIRST.deps, A2, DepsAt(A2), ["c"]);
  }

  ghost const QUEUE := Queue(A, [TWO, ONE], false)

  lemma AreCandidates()
    ensures QueueFailure(W, FIRST, WORK_A).None? && Candidates(W, FIRST, WORK_A) == [TWO, ONE]
  {
    FirstHolds("a");
    hide Base, Composite;
    var e := Dependency(RootAtom(W), ON_A);
    assert [e][..0] == [] && [e][1..] == [];
    assert DependersLock(W, [], A) == None && LastLocked([], A, None) == None;
    assert Preferred(W, FIRST, WORK_A) == DependersLock(W, [e], A) == None;
    assert VersionQueues.Listed(W, A) == [TWO, ONE];
    assert [TWO, ONE][..1] == [TWO] && [TWO][..0] == [];
    assert VersionQueues.Unlisted([TWO], None, None) == [TWO];
    assert VersionQueues.Unlisted([TWO, ONE], None, None) == [TWO, ONE];
  }

  lemma TwoOpens()
    ensures Opening(W, Stage(FIRST, []), Stage(NEXT, [QUEUE]), WORK_A)
  {
    AreCandidates();
    TwoFits();
    TwoIsSelected();
    FirstHolds("a");
    hide Candidates, QueueFailure, Fits, Selects, Base;
    assert [TWO, ONE][0..] == [TWO, ONE];
    assert Finds(W, FIRST, A, ["a"], [TWO, ONE], 0, []);
    assert OpeningAt(W, Stage(FIRST, []), Stage(NEXT, [QUEUE]), WORK_A, QUEUE, 0, [], ["c"]);
  }

  lemma CIsRefused()
    ensures Refusing(W, Stage(NEXT, [QUEUE]), WORK_C, NotLocated(C), [QUEUE])
  {
    assert NEXT.projects[..1] == [BOTTOM] && [BOTTOM][..0] == [];
    assert Base(NEXT.projects, "c").None?;
  }

  /** In a world that meets all conditions of FullSearchesSolve, a solution is missed: a was skipped. */
  lemma SkippingLosesSolutions() returns (ss: seq<Stage>, f: Failure)
    ensures ValidWorld(W) && Lawful(W.lib) && UniformWorlds.Uniform(W, LISTS) && CaseClean(W) && Consistent(W, LISTS, SOURCES, CHOICE)
    ensures SearchRun(W, ss) && ss != [] && Ends(W, ss[|ss| - 1], f)
  {
    hide ValidWorld, Lawful, UniformWorlds.Uniform, CaseClean, Consistent, Opening, Refusing, Start, Turns;
    IsValid();
    IsCaseClean();
    IsUniform();
    OneIsConsistent();
    Starts();
    TwoOpens();
    CIsRefused();
    var a, b := Stage(FIRST, []), Stage(NEXT, [QUEUE]);
    SearchStarts(W, a);
    TurnsForward(W, a, b);
    SearchRunPush(W, [a], b);
    ss, f := [a] + [b], NotLocated(C);
    UnmarkedFalls(W, NEXT.projects, [QUEUE]);
    assert [QUEUE][..0] == [];
    EndsThere(W, b, f, [QUEUE]);
  }
}
