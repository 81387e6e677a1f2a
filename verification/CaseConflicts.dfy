/** Project roots that differ only by case (selection.findCaseConflicts, checkRootCaseConflicts):
    the index of folded roots, and when it keeps such twins apart. */
module CaseConflicts {
  import opened Constraints
  import opened Identifiers
  import opened Bridge
  import opened SolverCore
  import opened SolverInvariants
  import opened SolverSteps

  /** No two of these roots fold to the same string. */
  ghost predicate Distinct(w: World, rs: set<ProjectRoot>) {
    forall q, r :: q in rs && r in rs && w.toFold(q) == w.toFold(r) ==> q == r
  }

  /** No single list of dependencies names twins. */
  ghost predicate CaseClean(w: World) {
    && Distinct(w, w.rootDeps.Keys)
    && forall a, pl :: Imports(w, a, pl).Imported? ==> Distinct(w, Imports(w, a, pl).deps.Keys)
  }

  /** No two roots that something depends on are twins. */
  ghost predicate NoTwins(w: World, deps: Edges) {
    forall q, r :: On(deps, q) != [] && On(deps, r) != [] && w.toFold(q) == w.toFold(r) ==> q == r
  }

  ghost predicate Indexed(w: World, s: Core, r: ProjectRoot) {
    w.toFold(r) in s.foldRoots && s.foldRoots[w.toFold(r)] == r
  }

  /** The index holds the folded form of exactly the roots that something depends on. */
  ghost predicate IndexOk(w: World, s: Core) {
    && (forall r :: On(s.deps, r) != [] ==> Indexed(w, s, r))
    && (forall f <- s.foldRoots :: w.toFold(s.foldRoots[f]) == f && On(s.deps, s.foldRoots[f]) != [])
  }

  lemma IndexKeepsTwinsApart(w: World, s: Core)
    requires IndexOk(w, s)
    ensures NoTwins(w, s.deps)
  {
    forall q, r | On(s.deps, q) != [] && On(s.deps, r) != [] && w.toFold(q) == w.toFold(r) ensures q == r {
      assert Indexed(w, s, q) && Indexed(w, s, r);
    }
  }

  // ------------------------------------------------------------------ marking and unmarking

  lemma {:induction false} MarkRootsIs(w: World, foldRoots: map<string, ProjectRoot>, edges: Edges, order: seq<ProjectRoot>, f: string)
    requires Distinct(w, Elems(order))
    ensures var after := MarkRoots(w, foldRoots, edges, order);
            && (forall r :: r in order && On(edges, r) == [] && w.toFold(r) == f ==> f in after && after[f] == r)
            && ((forall r :: r in order && On(edges, r) == [] ==> w.toFold(r) != f) ==>
                  (f in after <==> f in foldRoots) && (f in after ==> after[f] == foldRoots[f]))
  {
    if order != [] {
      var init, last := order[..|order| - 1], order[|order| - 1];
      assert order == init + [last];
      ElemsPush(init, last);
      assert last in Elems(order);
      MarkRootsIs(w, foldRoots, edges, init, f);
      forall r | r in init && w.toFold(r) == w.toFold(last) ensures r == last { assert r in Elems(order); }
    }
  }

  lemma {:induction false} UnmarkRootsIs(w: World, foldRoots: map<string, ProjectRoot>, edges: Edges, order: seq<ProjectRoot>, f: string)
    ensures var after := UnmarkRoots(w, foldRoots, edges, order);
            && (f in after <==> f in foldRoots && forall r :: r in order && |On(edges, r)| == 1 ==> w.toFold(r) != f)
            && (f in after ==> after[f] == foldRoots[f])
  {
    if order != [] {
      var init, last := order[..|order| - 1], order[|order| - 1];
      assert order == init + [last];
      UnmarkRootsIs(w, foldRoots, edges, init, f);
    }
  }

  /** Marking keeps the index if no new root has a twin, among themselves or in the index. */
  lemma MarkKeepsIndex(w: World, s: Core, t: Core, order: seq<ProjectRoot>)
    requires IndexOk(w, s) && Distinct(w, Elems(order))
    requires forall r <- order :: w.toFold(r) in s.foldRoots ==> s.foldRoots[w.toFold(r)] == r
    requires forall r :: On(t.deps, r) != [] <==> On(s.deps, r) != [] || r in order
    requires t.foldRoots == MarkRoots(w, s.foldRoots, s.deps, order)
    ensures IndexOk(w, t)
  {
    forall r | On(t.deps, r) != [] ensures Indexed(w, t, r) {
      MarkRootsIs(w, s.foldRoots, s.deps, order, w.toFold(r));
      if On(s.deps, r) != [] {
        assert Indexed(w, s, r);
        forall q | q in order && On(s.deps, q) == [] ensures w.toFold(q) != w.toFold(r) {}
      }
    }
    forall f | f in t.foldRoots ensures w.toFold(t.foldRoots[f]) == f && On(t.deps, t.foldRoots[f]) != [] {
      MarkRootsIs(w, s.foldRoots, s.deps, order, f);
    }
  }

  /** Unmarking keeps it too: a root leaves the index with its last edge. */
  lemma UnmarkKeepsIndex(w: World, s: Core, t: Core, order: seq<ProjectRoot>)
    requires IndexOk(w, s)
    requires forall r :: |On(s.deps, r)| == |On(t.deps, r)| + if r in order then 1 else 0
    requires t.foldRoots == UnmarkRoots(w, s.foldRoots, s.deps, order)
    ensures IndexOk(w, t)
  {
    forall r | On(t.deps, r) != [] ensures Indexed(w, t, r) {
      UnmarkRootsIs(w, s.foldRoots, s.deps, order, w.toFold(r));
      assert On(s.deps, r) != [] && Indexed(w, s, r);
      forall q | q in order && |On(s.deps, q)| == 1 ensures w.toFold(q) != w.toFold(r) {
        assert On(s.deps, q) != [] && Indexed(w, s, q);
        assert |On(t.deps, q)| == 0;
      }
    }
    forall f | f in t.foldRoots ensures w.toFold(t.foldRoots[f]) == f && On(t.deps, t.foldRoots[f]) != [] {
      UnmarkRootsIs(w, s.foldRoots, s.deps, order, f);
      var r := s.foldRoots[f];
      assert |On(s.deps, r)| == |On(t.deps, r)| + if r in order then 1 else 0;
    }
  }

  // ------------------------------------------------------------------ the moves

  lemma ContributionIn(w: World, x: Selected, order: seq<ProjectRoot>, r: ProjectRoot)
    requires Listing(order, DepsOf(w, x).Keys - {w.rootName})
    ensures Contribution(w, x, r) != [] <==> r in order
    ensures |Contribution(w, x, r)| == if r in order then 1 else 0
  {
    assert r in order <==> r in Elems(order);
  }

  lemma SelectKeepsIndex(w: World, s: Core, t: Core, awp: AtomWithPackages, pkgonly: bool, order: seq<ProjectRoot>)
    requires CaseClean(w) && Selecting(w, s, t, awp, pkgonly, order) && IndexOk(w, s)
    ensures IndexOk(w, t)
  {
    var x := Pushed(w, awp, pkgonly);
    PushedOk(w, s, t, awp, pkgonly, order);
    var deps := Imports(w, awp.a, awp.pl).deps;
    forall r ensures On(t.deps, r) != [] <==> On(s.deps, r) != [] || r in order {
      SelectEdges(w, s, t, awp, pkgonly, order, r);
      ContributionIn(w, x, order, r);
    }
    forall r | r in order ensures w.toFold(r) in s.foldRoots ==> s.foldRoots[w.toFold(r)] == r {
      assert r in Elems(order);
      CheckedForTwins(w, s, awp, pkgonly, r);
    }
    assert Distinct(w, deps.Keys) && Elems(order) <= deps.Keys;
    MarkKeepsIndex(w, s, t, order);
  }

  lemma UnselectKeepsIndex(w: World, s: Core, t: Core, queue: seq<Bmi>, order: seq<ProjectRoot>)
    requires Unselecting(w, s, t, queue, order) && IndexOk(w, s)
    ensures IndexOk(w, t)
  {
    PoppedOk(w, s, t, queue, order);
    UnselectAllEdges(w, s, t, queue, order);
    forall r ensures |On(s.deps, r)| == |On(t.deps, r)| + if r in order then 1 else 0 {
      ContributionIn(w, s.projects[|s.projects| - 1], order, r);
    }
    UnmarkKeepsIndex(w, s, t, order);
  }

  lemma StartIndex(w: World, s: Core, order: seq<ProjectRoot>)
    requires ValidWorld(w) && Start(w, s, order) && Distinct(w, w.rootDeps.Keys)
    ensures IndexOk(w, s)
  {
    var none := Core([], map[], map[], []);
    forall r ensures On(s.deps, r) != [] <==> On(none.deps, r) != [] || r in order {
      StartEdges(w, s, order, r);
      assert r in order <==> r in Elems(order);
    }
    MarkKeepsIndex(w, none, s, order);
  }

  lemma StepKeepsIndex(w: World, s: Core, t: Core)
    requires ValidWorld(w) && CaseClean(w) && Inv(w, s) && IndexOk(w, s) && Step(w, s, t)
    ensures IndexOk(w, t)
  {
    if awp, pkgonly, order :| Request(w, s, awp, pkgonly) && CheckOk(w, s, awp, pkgonly) && Selects(w, s, t, awp, pkgonly, order) {
      SelectKeepsIndex(w, s, t, awp, pkgonly, order);
    } else {
      var queue, order :| Unselects(w, s, t, queue, order);
      UnselectKeepsIndex(w, s, t, queue, order);
    }
  }

  lemma {:induction false} RunKeepsIndex(w: World, ss: seq<Core>)
    requires ValidWorld(w) && CaseClean(w) && Run(w, ss)
    ensures IndexOk(w, ss[|ss| - 1])
  {
    hide Inv, ValidWorld, Start, Step, CaseClean;
    assert Link(w, ss, |ss| - 1);
    if |ss| == 1 {
      SomeStartIndex(w, ss[0]);
    } else {
      RunPrefix(w, ss);
      RunKeepsIndex(w, ss[..|ss| - 1]);
      RunInv(w, ss[..|ss| - 1]);
      StepKeepsIndex(w, ss[|ss| - 2], ss[|ss| - 1]);
    }
  }

  lemma SomeStartIndex(w: World, s: Core)
    requires ValidWorld(w) && CaseClean(w) && exists order :: Start(w, s, order)
    ensures IndexOk(w, s)
  {
    var order :| Start(w, s, order);
    StartIndex(w, s, order);
  }

  /** If no single dependency list names twins, no reachable state depends on twins. */
  lemma ReachableWithoutTwins(w: World, s: Core)
    requires ValidWorld(w) && CaseClean(w) && Reachable(w, s)
    ensures NoTwins(w, s.deps) && IndexOk(w, s)
  {
    var ss :| Run(w, ss) && ss[|ss| - 1] == s;
    RunKeepsIndex(w, ss);
    IndexKeepsTwinsApart(w, s);
  }

  /** The condition is needed: selectRoot checks nothing, so the start state is free of twins
      exactly when the root's own dependencies are. */
  lemma StartTwins(w: World, s: Core, order: seq<ProjectRoot>)
    requires ValidWorld(w) && Start(w, s, order)
    ensures NoTwins(w, s.deps) <==> Distinct(w, w.rootDeps.Keys)
  {
    forall r ensures On(s.deps, r) != [] <==> r in w.rootDeps { StartEdges(w, s, order, r); }
  }

  lemma DependedOnAfter(w: World, s: Core, t: Core, awp: AtomWithPackages, pkgonly: bool, order: seq<ProjectRoot>, r: ProjectRoot)
    requires Selecting(w, s, t, awp, pkgonly, order)
    ensures Imports(w, awp.a, awp.pl).Imported?
    ensures On(t.deps, r) != [] <==> On(s.deps, r) != [] || r in Imports(w, awp.a, awp.pl).deps.Keys - {w.rootName}
  {
    PushedOk(w, s, t, awp, pkgonly, order);
    SelectEdges(w, s, t, awp, pkgonly, order, r);
    hide ValidWorld, Inv, CheckOk, Imports;
  }

  lemma CheckedInSelecting(w: World, s: Core, t: Core, awp: AtomWithPackages, pkgonly: bool, order: seq<ProjectRoot>, r: ProjectRoot)
    requires Selecting(w, s, t, awp, pkgonly, order) && Imports(w, awp.a, awp.pl).Imported? && r in Imports(w, awp.a, awp.pl).deps
    ensures w.toFold(r) in s.foldRoots ==> s.foldRoots[w.toFold(r)] == r
  {
    hide ValidWorld, Inv, CheckOk, Imports, Selects;
    CheckedForTwins(w, s, awp, pkgonly, r);
  }

  /** Nor does check compare the dependencies of one atom with each other: a selection it lets
      through brings twins exactly when the atom's own list has them. */
  lemma SelectedTwins(w: World, s: Core, t: Core, awp: AtomWithPackages, pkgonly: bool, order: seq<ProjectRoot>)
    requires Selecting(w, s, t, awp, pkgonly, order) && IndexOk(w, s)
    ensures NoTwins(w, t.deps) <==> Distinct(w, Imports(w, awp.a, awp.pl).deps.Keys - {w.rootName})
  {
    hide Selecting, IndexOk, NoTwins, Distinct, Imports;
    DependedOnAfter(w, s, t, awp, pkgonly, order, w.rootName);
    var rs := Imports(w, awp.a, awp.pl).deps.Keys - {w.rootName};
    forall r ensures On(t.deps, r) != [] <==> On(s.deps, r) != [] || r in rs {
      DependedOnAfter(w, s, t, awp, pkgonly, order, r);
    }
    forall r | r in rs ensures w.toFold(r) in s.foldRoots ==> s.foldRoots[w.toFold(r)] == r {
      CheckedInSelecting(w, s, t, awp, pkgonly, order, r);
    }
    TwinsAfter(w, s, t, rs);
  }

  lemma CheckedForTwins(w: World, s: Core, awp: AtomWithPackages, pkgonly: bool, r: ProjectRoot)
    requires ValidWorld(w) && CheckOk(w, s, awp, pkgonly) && r in Imports(w, awp.a, awp.pl).deps
    ensures w.toFold(r) in s.foldRoots ==> s.foldRoots[w.toFold(r)] == r
  {
    CheckedDep(w, s, awp, pkgonly, r);
    hide ValidWorld, CheckOk, Imports, Composite, PackagesOk;
  }

  lemma TwinsAfter(w: World, s: Core, t: Core, rs: set<ProjectRoot>)
    requires IndexOk(w, s)
    requires forall r :: On(t.deps, r) != [] <==> On(s.deps, r) != [] || r in rs
    requires forall r <- rs :: w.toFold(r) in s.foldRoots ==> s.foldRoots[w.toFold(r)] == r
    ensures NoTwins(w, t.deps) <==> Distinct(w, rs)
  {
    forall q, r | Distinct(w, rs) && On(t.deps, q) != [] && On(t.deps, r) != [] && w.toFold(q) == w.toFold(r) ensures q == r {
      assert On(s.deps, q) != [] ==> Indexed(w, s, q);
      assert On(s.deps, r) != [] ==> Indexed(w, s, r);
    }
  }
}
