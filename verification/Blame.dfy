/** Whom a refusal blames, in terms of the dependencies (gps/satisfy.go): those are the projects the
    search goes back to. */
module Blames {
  import opened Constraints
  import opened Identifiers
  import opened Bridge
  import opened SolverCore
  import opened SolverInvariants
  import opened Satisfy
  import opened Searches

  /** Someone who depends on r, in a way that p says, is this. */
  ghost predicate Depends(s: Core, r: ProjectRoot, p: Dependency -> bool, id: ProjectIdentifier) {
    exists e :: e in On(s.deps, r) && p(e) && e.depender.id == id
  }

  /** Edges are filed under the root they point to. */
  ghost predicate WellFiled(s: Core) {
    forall r, e :: e in On(s.deps, r) ==> e.dep.ident.root == r
  }

  lemma {:induction false} RejectingIs(w: World, es: seq<Dependency>, v: Version, e: Dependency)
    ensures e in Rejecting(w, es, v) <==> e in es && !Matches(w.lib, e.dep.constraint, v)
  {
    if es != [] {
      RejectingIs(w, es[..|es| - 1], v, e);
      assert es == es[..|es| - 1] + [es[|es| - 1]];
    }
  }

  lemma {:induction false} DisjointIs(w: World, es: seq<Dependency>, c: Constraint, fails: bool, e: Dependency)
    ensures e in Disjoint(w, es, c, fails) <==> e in es && MatchesAny(w.lib, e.dep.constraint, c) != fails
  {
    if es != [] {
      DisjointIs(w, es[..|es| - 1], c, fails, e);
      assert es == es[..|es| - 1] + [es[|es| - 1]];
    }
  }

  lemma DependersAre(es: seq<Dependency>, id: ProjectIdentifier)
    ensures id in Dependers(es) <==> exists e :: e in es && e.depender.id == id
  {
    if id in Dependers(es) {
      var i :| 0 <= i < |es| && Dependers(es)[i] == id;
      assert es[i] in es;
    }
    if e :| e in es && e.depender.id == id {
      var i :| 0 <= i < |es| && es[i] == e;
      assert Dependers(es)[i] == id;
    }
  }

  /** A version that the composite constraint rejects blames exactly the projects that reject it
      themselves. */
  lemma RejectedVersionBlames(w: World, s: Core, a: Atom, id: ProjectIdentifier)
    requires AtomFailure(w, s, a).Some?
    ensures id in Blame(AtomFailure(w, s, a).value) <==> Depends(s, a.id.root, (e: Dependency) => !Matches(w.lib, e.dep.constraint, a.v), id)
  {
    hide Matches, Composite;
    var es := On(s.deps, a.id.root);
    forall e { RejectingIs(w, es, a.v, e); }
    DependersAre(Rejecting(w, es, a.v), id);
  }

  /** A constraint that fits none of the others together blames exactly the projects whose constraint
      has no version in common with it. */
  lemma DisjointConstraintBlames(w: World, s: Core, a: Atom, d: CompleteDep, id: ProjectIdentifier)
    requires ConstraintFailure(w, s, a, d).Some?
    ensures id in Blame(ConstraintFailure(w, s, a, d).value) <==>
            Depends(s, d.ident.root, (e: Dependency) => !MatchesAny(w.lib, e.dep.constraint, d.constraint), id)
  {
    hide MatchesAny, Composite;
    var es := On(s.deps, d.ident.root);
    forall e { DisjointIs(w, es, d.constraint, true, e); }
    DependersAre(Disjoint(w, es, d.constraint, true), id);
  }

  /** One that the selected version does not satisfy blames the selected project. */
  lemma SelectedVersionIsBlamed(w: World, s: Core, a: Atom, d: CompleteDep, id: ProjectIdentifier)
    requires SelectedFailure(w, s, a, d).Some?
    ensures Base(s.projects, d.ident.root).Some? && !Matches(w.lib, d.constraint, Base(s.projects, d.ident.root).value.a.v)
    ensures id in Blame(SelectedFailure(w, s, a, d).value) <==> id == d.ident
  {
    hide Matches, Base;
  }

  /** The source a root is known by: the one of the first dependency on it. */
  function KnownSource(s: Core, r: ProjectRoot): Option<string> {
    if On(s.deps, r) == [] then None else Some(On(s.deps, r)[0].dep.ident.source)
  }

  /** A dependency is on another source if it names one, or the known one is none, and they differ: what
      names no source is content with any. */
  lemma OtherSourceIs(w: World, s: Core, a: Atom, d: CompleteDep)
    requires WellFiled(s)
    ensures IdentFailure(w, s, a, d).Some? <==>
            var k := KnownSource(s, d.ident.root); k.Some? && k.value != d.ident.source && (d.ident.source != "" || k.value == "")
  {
    var es := On(s.deps, d.ident.root);
    assert es != [] ==> es[0] in es;
  }

  /** It blames whoever asked for the atom. */
  lemma OtherSourceBlames(w: World, s: Core, a: Atom, d: CompleteDep, id: ProjectIdentifier)
    requires IdentFailure(w, s, a, d).Some?
    ensures id in Blame(IdentFailure(w, s, a, d).value) <==> Depends(s, a.id.root, (e: Dependency) => true, id)
  {
    DependersAre(On(s.deps, a.id.root), id);
  }

  /** One on a root that differs by case only blames whoever asked for the other spelling. */
  lemma OtherCaseBlames(w: World, s: Core, a: Atom, d: CompleteDep, id: ProjectIdentifier)
    requires WellFiled(s) && CaseFailure(w, s, a, d).Some? && On(s.deps, s.foldRoots[w.toFold(d.ident.root)]) != []
    ensures id in Blame(CaseFailure(w, s, a, d).value) <==> Depends(s, s.foldRoots[w.toFold(d.ident.root)], (e: Dependency) => true, id)
  {
    var current := s.foldRoots[w.toFold(d.ident.root)];
    var es := On(s.deps, current);
    assert es[0] in es;
    DependersAre(es, id);
  }

  /** All other refusals blame nobody. */
  lemma OthersBlameNobody(w: World, s: Core, a: Atom, d: CompleteDep, err: ImportError)
    ensures RequiredFailure(w, s, a).Some? ==> Blame(RequiredFailure(w, s, a).value) == []
    ensures RevisionFailure(w, s, a, d).Some? ==> Blame(RevisionFailure(w, s, a, d).value) == []
    ensures ImportsFailure(w, s, a, d).Some? ==> Blame(ImportsFailure(w, s, a, d).value) == []
    ensures Blame(ImportFailure(a, err)) == []
  {
    hide Problems, FailPkg;
  }

  // ------------------------------------------------------------------ whom a search without success blames

  /** The i-th entry is the lowest on the stack to depend on r. */
  ghost predicate Lowest(w: World, projects: seq<Selected>, r: ProjectRoot, i: nat) {
    i < |projects| && r in DepsOf(w, projects[i]) && forall j :: 0 <= j < i ==> r !in DepsOf(w, projects[j])
  }

  lemma {:induction false} ReplayStartsLowest(w: World, projects: seq<Selected>, r: ProjectRoot) returns (i: nat)
    requires Replay(w, projects, r) != []
    ensures Lowest(w, projects, r, i) && Replay(w, projects, r)[0].depender == projects[i].a.a
  {
    hide DepsOf;
    var n := |projects| - 1;
    var init, x := projects[..n], projects[n];
    if Replay(w, init, r) != [] {
      i := ReplayStartsLowest(w, init, r);
    } else {
      i := n;
      NobodyYet(w, init, r);
    }
  }

  lemma {:induction false} NobodyYet(w: World, projects: seq<Selected>, r: ProjectRoot)
    requires Replay(w, projects, r) == [] && r != w.rootName
    ensures forall j :: 0 <= j < |projects| ==> r !in DepsOf(w, projects[j])
  {
    hide DepsOf;
    if projects != [] { NobodyYet(w, projects[..|projects| - 1], r); }
  }

  /** If no version will do, the project that was selected first of those that depend on it is blamed,
      and everyone whom the refusal of a version blames; unless there was no version left to try. */
  lemma NoneBlamesIs(w: World, s: Core, id: ProjectIdentifier, pl: seq<Package>, vs: seq<Version>, fails: seq<FailedVersion>, other: ProjectIdentifier)
    requires Inv(w, s) && FindsNone(w, s, id, pl, vs, fails)
    ensures vs == [] ==> NoneBlames(s, id.root, fails) == []
    ensures vs != [] ==> (other in NoneBlames(s, id.root, fails) <==> FirstToDepend(w, s.projects, id.root, other) || BlamedOnce(fails, other))
  {
    hide Inv, Refusal, Lowest, DepsOf, Blame, BlamedOnce, FirstToDepend;
    if vs != [] {
      EdgesReplay(w, s, id.root);
      var i := ReplayStartsLowest(w, s.projects, id.root);
      FirstToDependIs(w, s.projects, id.root, i, other);
      AllBlameIs(fails, other);
    }
  }

  ghost predicate FirstToDepend(w: World, projects: seq<Selected>, r: ProjectRoot, id: ProjectIdentifier) {
    exists i: nat :: Lowest(w, projects, r, i) && projects[i].a.a.id == id
  }

  lemma FirstToDependIs(w: World, projects: seq<Selected>, r: ProjectRoot, i: nat, id: ProjectIdentifier)
    requires Lowest(w, projects, r, i)
    ensures FirstToDepend(w, projects, r, id) <==> projects[i].a.a.id == id
  {
    hide DepsOf;
    forall j: nat | Lowest(w, projects, r, j) ensures j == i { assert j < i || j == i || i < j; }
  }

  /** One of these failures blames id. */
  ghost predicate BlamedOnce(fails: seq<FailedVersion>, id: ProjectIdentifier) {
    exists k :: 0 <= k < |fails| && id in BlameOf(fails[k].f)
  }

  lemma EdgesReplay(w: World, s: Core, r: ProjectRoot)
    requires Inv(w, s)
    ensures On(s.deps, r) == Replay(w, s.projects, r)
  {
  }

  lemma {:induction false} AllBlameIs(fails: seq<FailedVersion>, other: ProjectIdentifier)
    ensures other in AllBlame(fails) <==> BlamedOnce(fails, other)
  {
    hide Blame, BlameOf;
    if fails != [] {
      var n := |fails| - 1;
      AllBlameIs(fails[..n], other);
      if k :| 0 <= k < n && other in BlameOf(fails[..n][k].f) { assert other in BlameOf(fails[k].f); }
      if k :| 0 <= k < |fails| && other in BlameOf(fails[k].f) { assert k < n ==> fails[..n][k] == fails[k]; }
    }
  }

  // ------------------------------------------------------------------ what it reports

  lemma {:induction false} DeppersAre(ds: seq<(Package, Atom)>, p: Package, a: Atom)
    ensures a in DeppersOf(ds, p) <==> (p, a) in ds
  {
    if ds != [] {
      DeppersAre(ds[..|ds| - 1], p, a);
      assert ds == ds[..|ds| - 1] + [ds[|ds| - 1]];
    }
  }

  lemma {:induction false} DemandIs(es: seq<Dependency>, p: Package, a: Atom)
    ensures (p, a) in Demands(es) <==> exists e :: e in es && p in e.dep.pl && e.depender == a
  {
    if es != [] {
      var init, last := es[..|es| - 1], es[|es| - 1];
      DemandIs(init, p, a);
      assert es == init + [last];
      var ds := DemandsOf(last.depender, last.dep.pl);
      assert (p, a) in ds <==> p in last.dep.pl && a == last.depender by {
        if p in last.dep.pl {
          var i :| 0 <= i < |last.dep.pl| && last.dep.pl[i] == p;
          assert ds[i] == (p, last.depender);
        }
      }
    }
  }

  /** Someone who depends on r names p, and this is the atom. */
  ghost predicate NamesIt(s: Core, r: ProjectRoot, p: Package, a: Atom) {
    exists e :: e in On(s.deps, r) && p in e.dep.pl && e.depender == a
  }

  /** The packages reported for an atom are exactly those that someone names and that are missing or
      broken, each with all who name it. */
  lemma ProblemPackagesAre(w: World, s: Core, a: Atom, p: Package, n: Atom)
    requires RequiredFailure(w, s, a).Some? && RequiredFailure(w, s, a).value.ProblemPackages?
    ensures var t, fp := ListPackages(w, a.id, a.v).value, RequiredFailure(w, s, a).value.failpkg;
            && (p in fp <==> (exists m :: NamesIt(s, a.id.root, p, m)) && (p in t ==> t[p].Broken?))
            && (p in fp ==> (n in fp[p].deppers <==> NamesIt(s, a.id.root, p, n)) && (fp[p].err.Some? <==> p in t))
  {
    hide Demands, DeppersOf, ListPackages, Problematic;
    var es := On(s.deps, a.id.root);
    forall m { DemandIs(es, p, m); }
    assert forall m :: (p, m) in Demands(es) <==> NamesIt(s, a.id.root, p, m);
    DeppersAre(Demands(es), p, n);
    ProblemsDemanded(ListPackages(w, a.id, a.v).value, Demands(es), p);
  }

  lemma ProblemsDemanded(t: PackageTree, ds: seq<(Package, Atom)>, p: Package)
    ensures p in FailPkg(t, ds) <==> Problem(t, p) && exists m :: (p, m) in ds
  {
    if p in FailPkg(t, ds) {
      var d :| d in ds && Problem(t, d.0) && d.0 == p;
      assert (p, d.1) in ds;
    }
    if Problem(t, p) {
      if m :| (p, m) in ds { assert (p, m).0 in Problematic(t, ds); }
    }
  }

  /** A root whose spelling differs is reported as the wrong case if the atom itself has the other
      spelling, and as a mismatch otherwise; with everyone who asked for it. */
  lemma OtherCaseIs(w: World, s: Core, a: Atom, d: CompleteDep)
    requires CaseFailure(w, s, a, d).Some?
    ensures var known := s.foldRoots[w.toFold(d.ident.root)];
            && known != d.ident.root && (CaseFailure(w, s, a, d).value.WrongCase? <==> a.id.root == known)
            && (a.id.root == known ==> CaseFailure(w, s, a, d).value.correct == d.ident.root)
            && (a.id.root != known ==> CaseFailure(w, s, a, d).value.CaseMismatch? && CaseFailure(w, s, a, d).value.other == known)
  {
  }
}
