/** Choices of versions that fit together: what makes one, that the search never refuses it, and so
    finds a solution whenever there is one, unless it skips something. */
module Consistency {
  import opened Constraints
  import opened Identifiers
  import opened Bridge
  import opened SolverCore
  import opened SolverInvariants
  import opened SolverSteps
  import opened SolverRuns
  import opened SolverMeasure
  import opened Satisfy
  import opened WantedWork
  import opened UniformWorlds
  import opened CaseConflicts
  import opened Completeness
  import Searches
  import SearchOutcomes
  import Solutions
  import VersionQueues

  /** The identifier each root goes by. */
  type Sources = ProjectRoot -> ProjectIdentifier

  // ------------------------------------------------------------------ what fits together

  /** The chosen version of what d is on satisfies it.  A revision and other constraints on a version
      that knows its revision do not mix. */
  ghost predicate Suits(w: World, ids: Sources, ch: Choice, d: CompleteDep) {
    var r := d.ident.root;
    && (IsRevision(d.constraint) ==> w.revisionPresent(d.ident, d.constraint.v.rev))
    && if r == w.rootName then Satisfied(w, RootAtom(w), d)
       else
         && r in ch && d.ident == ids(r) && Satisfied(w, Atom(ids(r), ch[r]), d)
         && (IsRevision(d.constraint) ==> !ch[r].Pair?)
  }

  ghost predicate AllSuit(w: World, ids: Sources, ch: Choice, deps: Deps) {
    forall r <- deps :: Suits(w, ids, ch, deps[r])
  }

  /** The version chosen for r is on offer, and what it depends on is suited. */
  ghost predicate Works(w: World, list: Lists, ids: Sources, ch: Choice, r: ProjectRoot)
    requires r in ch
  {
    && ids(r).root == r && w.sourceExists(ids(r)) && ch[r] in VersionQueues.Listed(w, ids(r))
    && var i := Imports(w, Atom(ids(r), ch[r]), list(r));
    i.Imported? && AllSuit(w, ids, ch, i.deps)
  }

  /** A solution of the root's dependencies. */
  ghost predicate Consistent(w: World, list: Lists, ids: Sources, ch: Choice) {
    && AllSuit(w, ids, ch, w.rootDeps)
    && (forall r <- ch :: Works(w, list, ids, ch, r))
    && Distinct(w, ch.Keys + {w.rootName})
  }

  // ------------------------------------------------------------------ constraints

  /** What each constraint admits, their fold admits. */
  lemma FoldAdmits(lib: Library, cs: seq<Constraint>, v: Version)
    requires Lawful(lib) && forall c <- cs :: ManifestLevel(c) && Matches(lib, c, v) && (IsRevision(c) ==> !v.Pair?)
    ensures Matches(lib, Fold(lib, cs), v) && (IsRevision(Fold(lib, cs)) ==> !v.Pair?)
  {
    hide Matches, Fold;
    if v.Pair? { FoldIsConjunction(lib, cs, v); } else { UnpairedFoldIsConjunction(lib, cs, v); }
  }

  /** And it has something in common with any further one that admits it. */
  lemma FoldMeets(lib: Library, cs: seq<Constraint>, c: Constraint, v: Version)
    requires Lawful(lib) && forall c <- cs :: ManifestLevel(c) && Matches(lib, c, v) && (IsRevision(c) ==> !v.Pair?)
    requires ManifestLevel(c) && Matches(lib, c, v) && (IsRevision(c) ==> !v.Pair?)
    ensures MatchesAny(lib, Fold(lib, cs), c)
  {
    FoldAdmits(lib, cs, v);
    FoldStaysManifestLevel(lib, cs);
    AnyIsNeutral(lib, c, v);
    var f := Fold(lib, cs);
    hide Fold, MatchesAny, Intersect, Lawful;
    assert f != Nothing;
    IntersectLosesExactly(lib, f, c, v);
    AnyIsNeutral(lib, Intersect(lib, f, c), v);
    MatchesAnyIsNonEmptyIntersection(lib, f, c);
  }

  // ------------------------------------------------------------------ edges

  /** An edge on r that the choice suits. */
  ghost predicate EdgeSuits(w: World, ids: Sources, ch: Choice, r: ProjectRoot, e: Dependency) {
    r != w.rootName && e.dep.ident.root == r && Suits(w, ids, ch, e.dep)
  }

  ghost predicate EdgesSuit(w: World, ids: Sources, ch: Choice, r: ProjectRoot, es: seq<Dependency>) {
    forall e <- es :: EdgeSuits(w, ids, ch, r, e)
  }

  lemma {:induction false} ReplaySuits(w: World, ids: Sources, ch: Choice, projects: seq<Selected>, r: ProjectRoot)
    requires ValidWorld(w) && forall x <- projects :: AllSuit(w, ids, ch, DepsOf(w, x))
    ensures EdgesSuit(w, ids, ch, r, Replay(w, projects, r))
  {
    hide Suits, DepsOf;
    if projects != [] {
      var init, x := projects[..|projects| - 1], projects[|projects| - 1];
      ReplaySuits(w, ids, ch, init, r);
      DepsOfValid(w, x);
      hide ValidWorld;
      assert AllSuit(w, ids, ch, DepsOf(w, x));
      if r in DepsOf(w, x) { assert ValidDep(w, r, DepsOf(w, x)[r]); }
    }
  }

  lemma {:induction false} ReplayPrefix(w: World, projects: seq<Selected>, n: nat, r: ProjectRoot)
    requires n <= |projects|
    ensures Replay(w, projects[..n], r) <= Replay(w, projects, r)
  {
    if n < |projects| {
      ReplayPrefix(w, projects[..|projects| - 1], n, r);
      assert projects[..|projects| - 1][..n] == projects[..n];
    } else {
      assert projects[..n] == projects;
    }
  }

  // ------------------------------------------------------------------ the stack

  ghost predicate NoneTwice(projects: seq<Selected>) {
    forall i, j :: 1 <= i < j < |projects| ==> RootAt(projects, i) != RootAt(projects, j)
  }

  lemma NoneTwiceBelow(projects: seq<Selected>, n: nat)
    requires NoneTwice(projects) && n <= |projects|
    ensures NoneTwice(projects[..n])
  {
    forall i, j | 1 <= i < j < n ensures RootAt(projects[..n], i) != RootAt(projects[..n], j) {
      assert RootAt(projects[..n], i) == RootAt(projects, i) && RootAt(projects[..n], j) == RootAt(projects, j);
    }
  }

  lemma StackBelow(w: World, projects: seq<Selected>, n: nat)
    requires StackOk(w, projects) && 0 < n == |projects| - 1
    ensures StackOk(w, projects[..n])
  {
    var init, x := projects[..n], projects[n];
    assert projects == init + [x];
    PrefixFirsts(init, x);
    PushEntries(w, init, x);
  }

  /** Every entry above the root opens its project. */
  lemma {:induction false} AllFirst(w: World, projects: seq<Selected>)
    requires StackOk(w, projects) && NoneTwice(projects)
    ensures Firsts(projects) == AtomsOf(projects)
  {
    LastIsFirst(w, projects);
    hide StackOk, NoneTwice, Firsts, AtomsOf;
    var n := |projects| - 1;
    var init, x := projects[..n], projects[n];
    assert projects == init + [x];
    FirstsOfPush(init, x);
    AtomsOfPush(init, x);
    if n > 0 {
      StackBelow(w, projects, n);
      NoneTwiceBelow(projects, n);
      AllFirst(w, init);
    } else {
      assert init == [];
      NoAtoms();
    }
  }

  function AtomsOf(projects: seq<Selected>): seq<Atom> {
    seq(|projects|, i requires 0 <= i < |projects| => projects[i].a.a)
  }

  lemma AtomsOfPush(projects: seq<Selected>, x: Selected)
    ensures AtomsOf(projects + [x]) == AtomsOf(projects) + [x.a.a]
  {
  }

  lemma NoAtoms()
    ensures Firsts([]) == AtomsOf([])
  {
  }

  lemma LastIsFirst(w: World, projects: seq<Selected>)
    requires StackOk(w, projects) && NoneTwice(projects)
    ensures projects != [] && projects[|projects| - 1].first
  {
    var n := |projects| - 1;
    assert FirstAt(projects, n);
    if n > 0 { NotYetSelected(w, projects, n); }
  }

  lemma NotYetSelected(w: World, projects: seq<Selected>, n: nat)
    requires Entries(w, projects) && 0 < n < |projects| && NoneTwice(projects)
    ensures Base(projects[..n], projects[n].a.a.id.root).None?
  {
    assert EntryOk(w, projects[n]);
    forall x | x in projects[..n] ensures x.a.a.id.root != projects[n].a.a.id.root {
      var i :| 0 <= i < n && projects[..n][i] == x;
      assert i > 0 ==> RootAt(projects, i) != RootAt(projects, n);
    }
  }

  /** The entry is the project at the version chosen. */
  ghost predicate Chosen(w: World, list: Lists, ids: Sources, ch: Choice, x: Selected) {
    var r := x.a.a.id.root;
    r != w.rootName && r in ch && x.a == AtomWithPackages(Atom(ids(r), ch[r]), list(r))
  }

  lemma ChosenSuits(w: World, list: Lists, ids: Sources, ch: Choice, x: Selected)
    requires Consistent(w, list, ids, ch) && Chosen(w, list, ids, ch, x)
    ensures AllSuit(w, ids, ch, DepsOf(w, x))
  {
    assert Works(w, list, ids, ch, x.a.a.id.root);
  }

  /** A state of the search that agrees with the choice so far. */
  ghost predicate Follows(w: World, list: Lists, ch: Choice, s: Core) {
    Inv(w, s) && Roster(w, list, s) && IndexOk(w, s) && Agrees(ch, Firsts(s.projects))
  }

  lemma FollowsStack(w: World, list: Lists, ch: Choice, s: Core, i: nat)
    requires Follows(w, list, ch, s) && 1 <= i < |s.projects|
    ensures var x := s.projects[i];
            && x.a.a.id.root != w.rootName && x.a.a.id.root in ch && x.a.a.v == ch[x.a.a.id.root] && x.a.pl == list(x.a.a.id.root)
            && Replay(w, s.projects[..i], x.a.a.id.root) != [] && Known(s, x.a.a.id)
            && On(s.deps, x.a.a.id.root) == Replay(w, s.projects, x.a.a.id.root)
  {
    AllFirst(w, s.projects);
    assert EntryOk(w, s.projects[i]);
    assert Firsts(s.projects)[i] == AtomsOf(s.projects)[i] == s.projects[i].a.a;
  }

  lemma FollowsRoot(w: World, list: Lists, ids: Sources, ch: Choice, s: Core)
    requires Follows(w, list, ch, s) && Consistent(w, list, ids, ch)
    ensures s.projects != [] && s.projects[0].a.a == RootAtom(w) && AllSuit(w, ids, ch, DepsOf(w, s.projects[0]))
  {
  }

  lemma {:induction false} EntryIsChosen(w: World, list: Lists, ids: Sources, ch: Choice, s: Core, i: nat)
    requires ValidWorld(w) && Consistent(w, list, ids, ch) && Follows(w, list, ch, s) && 1 <= i < |s.projects|
    ensures Chosen(w, list, ids, ch, s.projects[i])
  {
    hide ValidWorld, Consistent, Follows, AllSuit, DepsOf, Replay, Satisfied;
    var x, below := s.projects[i], s.projects[..i];
    var r := x.a.a.id.root;
    FollowsRoot(w, list, ids, ch, s);
    FollowsStack(w, list, ch, s, i);
    forall y | y in below ensures AllSuit(w, ids, ch, DepsOf(w, y)) {
      var j :| 0 <= j < i && below[j] == y;
      if j > 0 {
        EntryIsChosen(w, list, ids, ch, s, j);
        ChosenSuits(w, list, ids, ch, y);
      }
    }
    ReplaySuits(w, ids, ch, below, r);
    ReplayPrefix(w, s.projects, i, r);
    assert EdgeSuits(w, ids, ch, r, Replay(w, below, r)[0]);
  }

  lemma OnSuits(w: World, list: Lists, ids: Sources, ch: Choice, s: Core, r: ProjectRoot)
    requires ValidWorld(w) && Consistent(w, list, ids, ch) && Follows(w, list, ch, s)
    ensures EdgesSuit(w, ids, ch, r, On(s.deps, r))
  {
    FollowsRoot(w, list, ids, ch, s);
    assert On(s.deps, r) == Replay(w, s.projects, r);
    hide ValidWorld, Consistent, Follows, AllSuit, DepsOf, Replay;
    forall y | y in s.projects ensures AllSuit(w, ids, ch, DepsOf(w, y)) {
      var j :| 0 <= j < |s.projects| && s.projects[j] == y;
      if j > 0 {
        EntryIsChosen(w, list, ids, ch, s, j);
        ChosenSuits(w, list, ids, ch, y);
      }
    }
    ReplaySuits(w, ids, ch, s.projects, r);
  }

  lemma BaseIsChosen(w: World, list: Lists, ids: Sources, ch: Choice, s: Core, r: ProjectRoot)
    requires ValidWorld(w) && Consistent(w, list, ids, ch) && Follows(w, list, ch, s) && Base(s.projects, r).Some?
    ensures Base(s.projects, r).value.a == if r == w.rootName then RootAtom(w) else if r in ch then Atom(ids(r), ch[r]) else Base(s.projects, r).value.a
    ensures r != w.rootName ==> r in ch
  {
    FollowsRoot(w, list, ids, ch, s);
    Solutions.BaseIsSelected(s.projects, r);
    BaseAtBottom(s.projects);
    hide ValidWorld, Consistent, Follows, AllSuit;
    var i :| 0 <= i < |s.projects| && s.projects[i].a == Base(s.projects, r).value;
    if i > 0 { EntryIsChosen(w, list, ids, ch, s, i); }
  }

  // ------------------------------------------------------------------ nothing refuses it

  lemma ConstraintsAdmit(w: World, list: Lists, ids: Sources, ch: Choice, s: Core, r: ProjectRoot)
    requires ValidWorld(w) && Consistent(w, list, ids, ch) && Follows(w, list, ch, s) && r in ch && r != w.rootName
    ensures forall c <- Conditions(On(s.deps, r)) :: ManifestLevel(c) && Matches(w.lib, c, ch[r]) && (IsRevision(c) ==> !ch[r].Pair?)
  {
    OnSuits(w, list, ids, ch, s, r);
    EdgesManifestLevel(w, s, r);
    var es := On(s.deps, r);
    hide ValidWorld, Consistent, Follows, Matches, ManifestLevel, PackagesOk;
    forall c | c in Conditions(es) ensures Matches(w.lib, c, ch[r]) && (IsRevision(c) ==> !ch[r].Pair?) {
      var i :| 0 <= i < |es| && Conditions(es)[i] == c;
      assert EdgeSuits(w, ids, ch, r, es[i]);
    }
  }

  lemma IndexAgrees(w: World, list: Lists, ids: Sources, ch: Choice, s: Core, r: ProjectRoot)
    requires ValidWorld(w) && Consistent(w, list, ids, ch) && Follows(w, list, ch, s) && (r in ch || r == w.rootName)
    ensures w.toFold(r) in s.foldRoots ==> s.foldRoots[w.toFold(r)] == r
  {
    if w.toFold(r) in s.foldRoots {
      var q := s.foldRoots[w.toFold(r)];
      assert w.toFold(q) == w.toFold(r) && On(s.deps, q) != [];
      OnSuits(w, list, ids, ch, s, q);
      assert EdgeSuits(w, ids, ch, q, On(s.deps, q)[0]);
      assert q in ch;
    }
  }

  lemma MeetsComposite(w: World, list: Lists, ids: Sources, ch: Choice, s: Core, d: CompleteDep)
    requires ValidWorld(w) && Lawful(w.lib) && Consistent(w, list, ids, ch) && Follows(w, list, ch, s)
    requires Suits(w, ids, ch, d) && ManifestLevel(d.constraint)
    ensures MatchesAny(w.lib, Composite(w, s.deps, d.ident.root), d.constraint)
  {
    var r := d.ident.root;
    if r == w.rootName {
      NoEdgesOnRoot(w, list, ids, ch, s);
      assert Conditions(On(s.deps, r)) == [];
      AnyIsNeutral(w.lib, d.constraint, RootAtom(w).v);
    } else {
      ConstraintsAdmit(w, list, ids, ch, s, r);
      hide ValidWorld, Lawful, Consistent, Follows, Matches, ManifestLevel, PackagesOk, MatchesAny, Fold;
      FoldMeets(w.lib, Conditions(On(s.deps, r)), d.constraint, ch[r]);
    }
  }

  lemma NoEdgesOnRoot(w: World, list: Lists, ids: Sources, ch: Choice, s: Core)
    requires ValidWorld(w) && Consistent(w, list, ids, ch) && Follows(w, list, ch, s)
    ensures On(s.deps, w.rootName) == []
  {
    OnSuits(w, list, ids, ch, s, w.rootName);
    var es := On(s.deps, w.rootName);
    hide ValidWorld, Consistent, Follows, Suits;
    assert es == [] || EdgeSuits(w, ids, ch, w.rootName, es[0]);
  }

  lemma SuitedIsOk(w: World, list: Lists, ids: Sources, ch: Choice, s: Core, d: CompleteDep)
    requires ValidWorld(w) && Lawful(w.lib) && Consistent(w, list, ids, ch) && Follows(w, list, ch, s)
    requires Suits(w, ids, ch, d) && ManifestLevel(d.constraint)
    ensures DepOk(w, s, d)
  {
    var r := d.ident.root;
    OnSuits(w, list, ids, ch, s, r);
    IndexAgrees(w, list, ids, ch, s, r);
    MeetsComposite(w, list, ids, ch, s, d);
    if Base(s.projects, r).Some? { BaseIsChosen(w, list, ids, ch, s, r); }
    hide ValidWorld, Lawful, Consistent, Follows, Satisfied, ManifestLevel, MatchesAny, Composite;
    if On(s.deps, r) != [] { assert EdgeSuits(w, ids, ch, r, On(s.deps, r)[0]); }
  }

  lemma ChosenImports(w: World, list: Lists, ids: Sources, ch: Choice, r: ProjectRoot)
    requires ValidWorld(w) && Consistent(w, list, ids, ch) && r in ch
    ensures var i := Imports(w, Atom(ids(r), ch[r]), list(r));
            ids(r).root == r && i.Imported? && forall q <- i.deps :: Suits(w, ids, ch, i.deps[q]) && ManifestLevel(i.deps[q].constraint)
  {
    assert Works(w, list, ids, ch, r);
    assert GoodDeps(w, Atom(ids(r), ch[r]), list(r));
    var i := Imports(w, Atom(ids(r), ch[r]), list(r));
    hide ValidWorld, Consistent, Imports, Suits, ManifestLevel;
    forall q | q in i.deps ensures Suits(w, ids, ch, i.deps[q]) && ManifestLevel(i.deps[q].constraint) { assert ValidDep(w, q, i.deps[q]); }
  }

  lemma EdgePackages(w: World, ids: Sources, ch: Choice, r: ProjectRoot, e: Dependency)
    requires EdgeSuits(w, ids, ch, r, e)
    ensures r in ch && PackagesOk(ListPackages(w, ids(r), ch[r]), e.dep.pl) && ListPackages(w, ids(r), ch[r]).Some?
  {
  }

  lemma ChosenIsAllowed(w: World, list: Lists, ids: Sources, ch: Choice, s: Core, r: ProjectRoot)
    requires ValidWorld(w) && Lawful(w.lib) && Consistent(w, list, ids, ch) && Follows(w, list, ch, s) && r in ch && r != w.rootName
    ensures Matches(w.lib, Composite(w, s.deps, r), ch[r])
  {
    ConstraintsAdmit(w, list, ids, ch, s, r);
    hide ValidWorld, Lawful, Consistent, Follows, Matches, Fold, ManifestLevel;
    FoldAdmits(w.lib, Conditions(On(s.deps, r)), ch[r]);
  }

  lemma ChosenHasPackages(w: World, list: Lists, ids: Sources, ch: Choice, s: Core, r: ProjectRoot)
    requires ValidWorld(w) && Consistent(w, list, ids, ch) && Follows(w, list, ch, s) && r in ch && On(s.deps, r) != []
    ensures var t := ListPackages(w, ids(r), ch[r]); t.Some? && forall e <- On(s.deps, r) :: PackagesOk(t, e.dep.pl)
  {
    OnSuits(w, list, ids, ch, s, r);
    var es := On(s.deps, r);
    hide ValidWorld, Consistent, Follows, PackagesOk, ListPackages, EdgeSuits;
    forall e | e in es ensures PackagesOk(ListPackages(w, ids(r), ch[r]), e.dep.pl) { EdgePackages(w, ids, ch, r, e); }
    EdgePackages(w, ids, ch, r, es[0]);
  }

  lemma ChosenPasses(w: World, list: Lists, ids: Sources, ch: Choice, s: Core, r: ProjectRoot)
    requires ValidWorld(w) && Lawful(w.lib) && Consistent(w, list, ids, ch) && Follows(w, list, ch, s)
    requires r in ch && r != w.rootName && On(s.deps, r) != []
    ensures Searches.Fits(w, s, ids(r), list(r), ch[r])
  {
    hide ValidWorld, Lawful, Consistent, Follows, Matches, Imports, DepOk, Fold, ManifestLevel, Suits, PackagesOk, ListPackages;
    ChosenImports(w, list, ids, ch, r);
    ChosenIsAllowed(w, list, ids, ch, s, r);
    ChosenHasPackages(w, list, ids, ch, s, r);
    var deps := Imports(w, Atom(ids(r), ch[r]), list(r)).deps;
    forall q | q in deps ensures DepOk(w, s, deps[q]) { SuitedIsOk(w, list, ids, ch, s, deps[q]); }
  }

  lemma ChosenIsTried(w: World, list: Lists, ids: Sources, ch: Choice, s: Core, b: Bmi)
    requires b.id.root in ch && Works(w, list, ids, ch, b.id.root) && b.id == ids(b.id.root)
    ensures Searches.QueueFailure(w, s, b).None? && ch[b.id.root] in Searches.Candidates(w, s, b)
  {
    hide Imports, AllSuit, Preferred, Composite;
    VersionQueues.OfferIsComplete(w, b.id, Searches.RootLockVersion(w, b.id), Preferred(w, s, b));
  }

  lemma ItemFits(w: World, list: Lists, ids: Sources, ch: Choice, s: Core, b: Bmi)
    requires ValidWorld(w) && Lawful(w.lib) && Consistent(w, list, ids, ch) && Follows(w, list, ch, s) && b in s.unsel
    ensures Accepted(w, ch, s, b)
  {
    var r := b.id.root;
    assert Known(s, b.id) && b.pl == list(r) && r != w.rootName;
    NotSelectedYet(w, list, ch, s, b);
    OnSuits(w, list, ids, ch, s, r);
    hide ValidWorld, Lawful, Follows, Satisfied, Searches.Fits, Searches.Candidates, Searches.QueueFailure, Works;
    assert EdgeSuits(w, ids, ch, r, On(s.deps, r)[0]);
    ChosenPasses(w, list, ids, ch, s, r);
    ChosenIsTried(w, list, ids, ch, s, b);
  }

  lemma NotSelectedYet(w: World, list: Lists, ch: Choice, s: Core, b: Bmi)
    requires Follows(w, list, ch, s) && b in s.unsel
    ensures Base(s.projects, b.id.root).None?
  {
    var r := b.id.root;
    ItemsAre(s.unsel, r);
    forall x | x in s.projects ensures x.a.a.id.root != r {
      var i :| 0 <= i < |s.projects| && s.projects[i] == x;
      if i > 0 { assert Items(s.unsel, RootAt(s.projects, i)) == 0; }
    }
  }

  /** In a steady world in which no single list of dependencies names twins, and with a lawful semver
      library, versions that fit together are never refused. */
  lemma ConsistentIsNeverRefused(w: World, list: Lists, ids: Sources, ch: Choice)
    requires ValidWorld(w) && Lawful(w.lib) && Uniform(w, list) && CaseClean(w) && Consistent(w, list, ids, ch)
    ensures NeverRefused(w, ch)
  {
    hide ValidWorld, Lawful, Uniform, CaseClean, Consistent, Accepted, Arises, Agrees;
    forall s, b | Arises(w, s) && Agrees(ch, Firsts(s.projects)) && b in s.unsel ensures Accepted(w, ch, s, b) {
      ArisingFollows(w, list, ch, s);
      ItemFits(w, list, ids, ch, s, b);
    }
  }

  lemma ArisingFollows(w: World, list: Lists, ch: Choice, s: Core)
    requires ValidWorld(w) && Uniform(w, list) && CaseClean(w) && Arises(w, s) && Agrees(ch, Firsts(s.projects))
    ensures Follows(w, list, ch, s)
  {
    ArisingIsReachable(w, s);
    ReachableWithoutTwins(w, s);
    ArisingInv(w, s);
    var ss :| Scheduled(w, ss) && ss[|ss| - 1] == s;
    RosterRun(w, list, ss);
    hide Inv, Roster, IndexOk, Agrees;
    assert Roster(w, list, ss[|ss| - 1]);
  }

  /** So a search that skips nothing does not end without a solution if there is one. */
  lemma FullSearchesSolve(w: World, list: Lists, ids: Sources, ch: Choice, ss: seq<Searches.Stage>, f: Failure, ms: seq<Searches.Queue>, log: seq<Searches.Drop>)
    requires ValidWorld(w) && Lawful(w.lib) && Uniform(w, list) && CaseClean(w) && Consistent(w, list, ids, ch)
    requires FullRun(w, ss)
    ensures !EndsFully(w, ss[|ss| - 1], f, ms, log)
  {
    var last := ss[|ss| - 1];
    hide ValidWorld, Lawful, Uniform, CaseClean, Consistent, NeverRefused, FullRun, EndsFully;
    if EndsFully(w, last, f, ms, log) {
      ConsistentIsNeverRefused(w, list, ids, ch);
      NoSolutionMeansNone(w, ss, f, ms, log, ch);
    }
  }
}
