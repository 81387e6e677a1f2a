/** The search's moves in the worlds of StaleWorld.dfy: what the state holds and queues after each, in terms
    of the entries on the stack. */
module StaleMoves {
  import opened Constraints
  import opened Identifiers
  import opened Bridge
  import opened SolverCore
  import opened SolverInvariants
  import opened SolverSteps
  import opened SolverRuns
  import opened CaseConflicts
  import opened ImportConstraints
  import opened StaleWorld
  import UniformWorlds
  import opened StaleWork

  // ------------------------------------------------------------------ one step forwards or back

  lemma Forward(w: World, s: Core, awp: AtomWithPackages, pkgonly: bool, ext: seq<Package>, deps: Deps, order: seq<ProjectRoot>, sl: seq<Bmi>)
    returns (t: Core)
    requires Due(s, awp.a.id, awp.pl) && Request(w, s, awp, pkgonly) && CheckOk(w, s, awp, pkgonly)
    requires Imports(w, awp.a, awp.pl) == ImportResult.Imported(ext, deps) && Listing(order, deps.Keys) && w.rootName !in deps
    requires multiset(sl) == multiset(RemoveFirst(s.unsel, awp.a.id, awp.pl)) + Enqueued(w, s.deps, awp.a, deps, order)
    ensures Picks(w, s, t) && t.projects == s.projects + [Selected(AtomWithPackages(awp.a, ext), !pkgonly)] && t.unsel == sl
  {
    hide Due, Request, CheckOk, Imports, RemoveFirst, Enqueued, MarkRoots;
    assert deps.Keys - {w.rootName} == deps.Keys;
    t := Core(s.projects + [Selected(AtomWithPackages(awp.a, ext), !pkgonly)], AddEdges(s.deps, awp.a, deps, deps.Keys),
              MarkRoots(w, s.foldRoots, s.deps, order), sl);
    assert Selects(w, s, t, awp, pkgonly, order);
  }

  lemma PoppedReplay(w: World, s: Core, below: seq<Selected>, x: Selected, deps: Deps)
    requires Inv(w, s) && s.projects == below + [x] && below != []
    requires Imports(w, x.a.a, x.a.pl) == ImportResult.Imported(x.a.pl, deps) && w.rootName !in deps
    ensures forall r :: On(DropEdges(s.deps, deps.Keys), r) == Replay(w, below, r)
  {
    assert EntryOk(w, s.projects[|below|]) && s.projects[|below|] == x;
    assert DepsOf(w, x) == deps;
    forall r ensures On(DropEdges(s.deps, deps.Keys), r) == Replay(w, below, r) {
      ReplayOfPush(w, below, x, r);
      assert On(s.deps, r) == Replay(w, s.projects, r);
    }
  }

  /** What is left of the queue, for dependencies visited in this order. */
  ghost function Left(w: World, below: seq<Selected>, deps: Deps, sl: seq<Bmi>, order: seq<ProjectRoot>): seq<Bmi>
    requires forall r <- order :: r in deps
  {
    if order == [] then sl
    else
      var r, rest := order[|order| - 1], Left(w, below, deps, sl, order[..|order| - 1]);
      if Replay(w, below, r) == [] then RemoveFirst(rest, deps[r].ident, deps[r].pl) else rest
  }

  lemma {:induction false} DropsToLeft(w: World, below: seq<Selected>, edges: Edges, deps: Deps, sl: seq<Bmi>, order: seq<ProjectRoot>)
    requires Elems(order) <= deps.Keys && (forall r <- order :: r in deps) && forall r :: On(edges, r) == Replay(w, below, r)
    ensures DropUnneeded(edges, deps, sl, order) == Left(w, below, deps, sl, order)
  {
    hide Replay, On, RemoveFirst;
    if order != [] {
      var init, r := order[..|order| - 1], order[|order| - 1];
      assert r in Elems(order) && Elems(init) <= Elems(order) && order == init + [r];
      DropsToLeft(w, below, edges, deps, sl, init);
    }
  }

  /** The state after the last entry went. */
  ghost function Popped(w: World, s: Core, below: seq<Selected>, deps: Deps, order: seq<ProjectRoot>, queue: seq<Bmi>): Core
    requires Elems(order) <= deps.Keys
  {
    var edges := DropEdges(s.deps, deps.Keys);
    Core(below, edges, UnmarkRoots(w, s.foldRoots, s.deps, order), DropUnneeded(edges, deps, queue, order))
  }

  lemma PoppedIsNext(w: World, s: Core, below: seq<Selected>, x: Selected, deps: Deps, order: seq<ProjectRoot>)
    requires s.projects == below + [x] && below != []
    requires Imports(w, x.a.a, x.a.pl) == ImportResult.Imported(x.a.pl, deps) && Listing(order, deps.Keys) && w.rootName !in deps
    ensures Backs(w, s, Popped(w, s, below, deps, order, s.unsel + [Back(x)]))
  {
    hide Imports, UnmarkRoots, DropEdges, DropUnneeded;
    var queue := s.unsel + [Back(x)];
    assert deps.Keys - {w.rootName} == deps.Keys;
    assert s.projects[..|s.projects| - 1] == below && s.projects[|s.projects| - 1] == x;
    assert Unselects(w, s, Popped(w, s, below, deps, order, queue), queue, order);
  }

  lemma Backward(w: World, s: Core, below: seq<Selected>, x: Selected, deps: Deps, order: seq<ProjectRoot>) returns (t: Core)
    requires Inv(w, s) && s.projects == below + [x] && below != []
    requires Imports(w, x.a.a, x.a.pl) == ImportResult.Imported(x.a.pl, deps) && Listing(order, deps.Keys) && w.rootName !in deps
    requires forall r <- order :: r in deps
    ensures Backs(w, s, t) && t.projects == below && t.unsel == Left(w, below, deps, s.unsel + [Back(x)], order)
  {
    hide Inv, Imports, Replay, DropEdges, DropUnneeded, Left, Backs, UnmarkRoots;
    PoppedReplay(w, s, below, x, deps);
    DropsToLeft(w, below, DropEdges(s.deps, deps.Keys), deps, s.unsel + [Back(x)], order);
    PoppedIsNext(w, s, below, x, deps, order);
    t := Popped(w, s, below, deps, order, s.unsel + [Back(x)]);
  }

  // ------------------------------------------------------------------ what stands on the stack

  ghost function Bottom(q: Sequel): Selected { Selected(AtomWithPackages(RootAtom(Stale(q)), []), true) }

  /** An entry of these worlds: the package of a project, or both of z. */
  ghost predicate Ordinary(q: Sequel, x: Selected) {
    && x.a.a.id.root in ROOTS && !q.Orderly?
    && if x.a.a.id.root == "z" then x.a.pl == BOTH && "z/p" in Packages(q, x.a.a.id, x.a.a.v) else x.a.pl == [x.a.a.id.root]
  }

  ghost function Brought(q: Sequel, x: Selected, r: ProjectRoot): seq<Dependency> {
    var deps := DepsIn(q, x.a.a.id, x.a.a.v);
    if r in deps then [Dependency(x.a.a, deps[r])] else []
  }

  lemma OrdinaryImports(q: Sequel, x: Selected)
    requires Ordinary(q, x)
    ensures Imports(Stale(q), x.a.a, x.a.pl) == ImportResult.Imported(x.a.pl, DepsIn(q, x.a.a.id, x.a.a.v))
    ensures "root" !in DepsIn(q, x.a.a.id, x.a.a.v) && Stale(q).rootName == "root"
  {
    ExternalsAre(q, x.a.a.id, x.a.a.v);
    hide Imports, DepsIn, Externals;
    if x.a.a.id.root == "z" { ImportsBoth(q, x.a.a); } else { ImportsOne(q, x.a.a, x.a.pl[0]); }
  }

  /** One entry more: its dependencies are added, and it is the base of its project if there was none. */
  lemma Grown(q: Sequel, below: seq<Selected>, x: Selected, r: ProjectRoot)
    requires Ordinary(q, x)
    ensures Replay(Stale(q), below + [x], r) == Replay(Stale(q), below, r) + Brought(q, x, r)
    ensures Base(below + [x], r) == if Base(below, r).Some? then Base(below, r) else if x.a.a.id.root == r then Some(x.a) else None
  {
    hide Imports, DepsIn, Stale;
    OrdinaryImports(q, x);
    ReplayOfPush(Stale(q), below, x, r);
    BaseOfPush(below, x, r);
  }

  ghost function RootEdge(q: Sequel): Dependency { Dependency(RootAtom(Stale(q)), ROOT_DEPS["a"]) }

  lemma AtBottom(q: Sequel, r: ProjectRoot)
    ensures Replay(Stale(q), [Bottom(q)], r) == if r == "a" then [RootEdge(q)] else []
    ensures Base([Bottom(q)], r) == if r == "root" then Some(Bottom(q).a) else None
  {
    ReplayOfPush(Stale(q), [], Bottom(q), r);
    BaseOfPush([], Bottom(q), r);
    assert [] + [Bottom(q)] == [Bottom(q)];
  }

  lemma FoldMore(w: World, es: seq<Dependency>, e: Dependency)
    ensures Fold(w.lib, Conditions(es + [e])) == Intersect(w.lib, Fold(w.lib, Conditions(es)), e.dep.constraint)
  {
    assert Conditions(es + [e])[..|es|] == Conditions(es);
  }

  lemma {:induction false} AllAny(w: World, es: seq<Dependency>)
    requires forall e <- es :: e.dep.constraint == Any
    ensures Fold(w.lib, Conditions(es)) == Any
  {
    if es != [] {
      var init := es[..|es| - 1];
      AllAny(w, init);
      assert es == init + [es[|es| - 1]] && es[|es| - 1] in es;
      FoldMore(w, init, es[|es| - 1]);
    }
  }

  // ------------------------------------------------------------------ what the machine keeps

  lemma NoConflicts(q: Sequel, s: Core)
    requires Arises(Stale(q), s)
    ensures IndexOk(Stale(q), s) && Inv(Stale(q), s) && ValidWorld(Stale(q))
  {
    hide ValidWorld, Inv, IndexOk, CaseClean, Stale;
    StaleIsValid(q);
    StaleIsCaseClean(q);
    ArisingIsReachable(Stale(q), s);
    ReachableWithoutTwins(Stale(q), s);
    ArisingInv(Stale(q), s);
  }

  lemma OnIs(q: Sequel, s: Core, r: ProjectRoot)
    requires Arises(Stale(q), s)
    ensures On(s.deps, r) == Replay(Stale(q), s.projects, r)
  {
    NoConflicts(q, s);
  }
  // ------------------------------------------------------------------ what the state holds

  /** The root with these entries above it. */
  ghost predicate At(q: Sequel, s: Core, xs: seq<Selected>) {
    Arises(Stale(q), s) && s.projects == [Bottom(q)] + xs && forall x <- xs :: Ordinary(q, x)
  }

  /** The edges on r. */
  ghost function Held(q: Sequel, xs: seq<Selected>, r: ProjectRoot): seq<Dependency> {
    if xs == [] then if r == "a" then [RootEdge(q)] else []
    else Held(q, xs[..|xs| - 1], r) + Brought(q, xs[|xs| - 1], r)
  }

  lemma Higher(q: Sequel, xs: seq<Selected>, x: Selected, r: ProjectRoot)
    ensures Held(q, xs + [x], r) == Held(q, xs, r) + Brought(q, x, r)
    ensures Base(xs + [x], r) == if Base(xs, r).Some? then Base(xs, r) else if x.a.a.id.root == r then Some(x.a) else None
  {
    hide Brought;
    assert (xs + [x])[..|xs|] == xs;
    BaseOfPush(xs, x, r);
  }

  lemma {:induction false} StackHolds(q: Sequel, xs: seq<Selected>, r: ProjectRoot)
    requires forall x <- xs :: Ordinary(q, x)
    ensures Replay(Stale(q), [Bottom(q)] + xs, r) == Held(q, xs, r)
    ensures r != "root" ==> Base([Bottom(q)] + xs, r) == Base(xs, r)
  {
    hide Replay, Stale, Ordinary, Brought, Bottom;
    AtBottom(q, r);
    if xs == [] {
      assert [Bottom(q)] + xs == [Bottom(q)];
    } else {
      var init, x := xs[..|xs| - 1], xs[|xs| - 1];
      StackHolds(q, init, r);
      assert xs == init + [x] && [Bottom(q)] + xs == ([Bottom(q)] + init) + [x];
      Grown(q, [Bottom(q)] + init, x, r);
      Higher(q, init, x, r);
    }
  }

  lemma AtArises(q: Sequel, s: Core, xs: seq<Selected>)
    requires At(q, s, xs)
    ensures Arises(Stale(q), s) && s.projects == [Bottom(q)] + xs
  {
  }

  lemma AtIs(q: Sequel, s: Core, xs: seq<Selected>, r: ProjectRoot)
    requires At(q, s, xs)
    ensures On(s.deps, r) == Held(q, xs, r)
    ensures r != "root" ==> Base(s.projects, r) == Base(xs, r)
  {
    hide Arises, Replay, Stale, Ordinary, Held;
    OnIs(q, s, r);
    StackHolds(q, xs, r);
  }

  lemma {:induction false} FromMain(m: seq<Working>)
    requires forall i :: 0 <= i < |m| ==> m[i].ident.root in ROOTS && !IsRevision(m[i].constraint)
    ensures var deps := DepsFrom(m);
            forall r <- deps :: r in ROOTS && deps[r].ident.root == r && deps[r].pl == [Main(r)] && !IsRevision(deps[r].constraint)
  {
    hide Main, IsRevision;
    if m != [] { FromMain(m[..|m| - 1]); }
  }

  lemma DepsMain(q: Sequel, id: ProjectIdentifier, v: Version)
    ensures var deps := DepsIn(q, id, v);
            forall r <- deps :: r in ROOTS && deps[r].ident.root == r && deps[r].pl == [Main(r)] && !IsRevision(deps[r].constraint)
  {
    hide Manifest, Main, IsRevision, DepsFrom;
    FromMain(Manifest(q, id, v));
  }

  lemma {:induction false} HeldMain(q: Sequel, xs: seq<Selected>, r: ProjectRoot)
    ensures forall e <- Held(q, xs, r) :: e.dep.pl == [Main(r)] && e.dep.ident.root == r
  {
    hide DepsIn, Stale;
    if xs != [] {
      var x := xs[|xs| - 1];
      HeldMain(q, xs[..|xs| - 1], r);
      DepsMain(q, x.a.a.id, x.a.a.v);
    }
  }

  // ------------------------------------------------------------------ what check lets through

  /** The dependency agrees with what is held. */
  ghost predicate Agrees(q: Sequel, xs: seq<Selected>, d: CompleteDep) {
    var lib, r := Stale(q).lib, d.ident.root;
    && (Held(q, xs, r) != [] ==> Held(q, xs, r)[0].dep.ident.Equiv(d.ident))
    && MatchesAny(lib, Fold(lib, Conditions(Held(q, xs, r))), d.constraint)
    && match Base(xs, r) case None => true case Some(b) => Matches(lib, d.constraint, b.a.v) && Main(r) in Packages(q, b.a.id, b.a.v)
  }

  lemma FoldsAgree(q: Sequel, s: Core, r: ProjectRoot)
    requires Arises(Stale(q), s)
    ensures r in s.foldRoots ==> s.foldRoots[r] == r
  {
    NoConflicts(q, s);
    hide Arises, Inv, ValidWorld;
  }

  lemma SelectedAgrees(q: Sequel, s: Core, d: CompleteDep)
    requires var b := Base(s.projects, d.ident.root);
             b.Some? ==> Matches(Stale(q).lib, d.constraint, b.value.a.v) && Main(d.ident.root) in Packages(q, b.value.a.id, b.value.a.v)
    requires d.pl == [Main(d.ident.root)] && d.ident.root in ROOTS
    ensures Base(s.projects, d.ident.root).Some? ==> Satisfied(Stale(q), Base(s.projects, d.ident.root).value.a, d)
  {
    hide Base, Matches, Main, Packages;
  }

  lemma AgreeingIsOk(q: Sequel, s: Core, xs: seq<Selected>, d: CompleteDep)
    requires At(q, s, xs) && Agrees(q, xs, d) && d.pl == [Main(d.ident.root)] && !IsRevision(d.constraint) && d.ident.root in ROOTS
    ensures DepOk(Stale(q), s, d)
  {
    hide At, Held, MatchesAny, Matches, Base, Fold, Conditions, Packages, IndexOk, Main, Satisfied, Arises, Bottom;
    AtIs(q, s, xs, d.ident.root);
    AtArises(q, s, xs);
    FoldsAgree(q, s, d.ident.root);
    SelectedAgrees(q, s, d);
  }


  /** Nothing asks for a particular version of the project, and it has its package. */
  ghost predicate Open(q: Sequel, xs: seq<Selected>, a: Atom) {
    (forall e <- Held(q, xs, a.id.root) :: e.dep.constraint == Any) && a.id.root in ROOTS && Main(a.id.root) in Packages(q, a.id, a.v)
  }

  lemma OpenIs(q: Sequel, s: Core, xs: seq<Selected>, a: Atom)
    requires At(q, s, xs) && Open(q, xs, a)
    ensures Composite(Stale(q), s.deps, a.id.root) == Any
    ensures var t := ListPackages(Stale(q), a.id, a.v); t.Some? && forall e <- On(s.deps, a.id.root) :: PackagesOk(t, e.dep.pl)
  {
    hide At, Held, Main, Fold, Conditions, Packages;
    AtIs(q, s, xs, a.id.root);
    HeldMain(q, xs, a.id.root);
    AllAny(Stale(q), On(s.deps, a.id.root));
  }

  ghost predicate AllAgree(q: Sequel, xs: seq<Selected>, deps: Deps) {
    forall r <- deps :: Agrees(q, xs, deps[r])
  }

  lemma Admits(q: Sequel, s: Core, xs: seq<Selected>, awp: AtomWithPackages, pkgonly: bool, ext: seq<Package>)
    requires At(q, s, xs) && Open(q, xs, awp.a) && AllAgree(q, xs, DepsIn(q, awp.a.id, awp.a.v))
    requires Imports(Stale(q), awp.a, awp.pl) == ImportResult.Imported(ext, DepsIn(q, awp.a.id, awp.a.v))
    ensures CheckOk(Stale(q), s, awp, pkgonly)
  {
    hide At, Open, Imports, DepsIn, Composite, ListPackages, PackagesOk, DepOk, Agrees, Stale, Main;
    OpenIs(q, s, xs, awp.a);
    DepsMain(q, awp.a.id, awp.a.v);
    var deps := DepsIn(q, awp.a.id, awp.a.v);
    forall r | r in deps ensures DepOk(Stale(q), s, deps[r]) {
      AgreeingIsOk(q, s, xs, deps[r]);
    }
  }

  // ------------------------------------------------------------------ new work

  /** Work for the dependencies nobody had before. */
  ghost function NewItems(q: Sequel, xs: seq<Selected>, deps: Deps, order: seq<ProjectRoot>): seq<Bmi>
    requires forall r <- order :: r in deps
  {
    if order == [] then []
    else
      var r := order[|order| - 1];
      NewItems(q, xs, deps, order[..|order| - 1]) + if Held(q, xs, r) == [] then [Bmi(deps[r].ident, deps[r].pl, None, false)] else []
  }

  lemma NewWork(q: Sequel, s: Core, a: Atom, d: CompleteDep)
    requires NoDup(d.pl) && d.pl != [] && (On(s.deps, d.ident.root) != [] ==> On(s.deps, d.ident.root)[0].dep.pl == d.pl)
    ensures var b := NewBmi(Stale(q), s.deps, a, d);
            if On(s.deps, d.ident.root) == [] then b == Bmi(d.ident, d.pl, None, false) else b.pl == []
  {
    var es, e := On(s.deps, d.ident.root), Dependency(a, d);
    if es == [] {
      assert es + [e] == [e];
      UniformWorlds.AllNew(e);
    } else {
      UniformWorlds.NoneNew(es, e);
    }
  }

  lemma NewWorkAt(q: Sequel, s: Core, xs: seq<Selected>, a: Atom, d: CompleteDep)
    requires At(q, s, xs) && d.pl == [Main(d.ident.root)]
    ensures var b := NewBmi(Stale(q), s.deps, a, d);
            if Held(q, xs, d.ident.root) == [] then b == Bmi(d.ident, d.pl, None, false) else b.pl == []
  {
    hide At, Held, Main, NewBmi, NoDup;
    OneListed(Main(d.ident.root));
    AtIs(q, s, xs, d.ident.root);
    HeldMain(q, xs, d.ident.root);
    NewWork(q, s, a, d);
  }

  lemma {:induction false} NewItemsAre(q: Sequel, s: Core, xs: seq<Selected>, a: Atom, deps: Deps, order: seq<ProjectRoot>)
    requires At(q, s, xs) && (forall r <- deps :: deps[r].ident.root == r && deps[r].pl == [Main(r)])
    requires Elems(order) <= deps.Keys && forall r <- order :: r in deps
    ensures multiset(NewItems(q, xs, deps, order)) == Enqueued(Stale(q), s.deps, a, deps, order)
  {
    hide At, Held, Main, NewBmi, Stale;
    if order != [] {
      var init, r := order[..|order| - 1], order[|order| - 1];
      assert r in Elems(order) && Elems(init) <= Elems(order) && order == init + [r];
      NewItemsAre(q, s, xs, a, deps, init);
      NewWorkAt(q, s, xs, a, deps[r]);
    }
  }

  // ------------------------------------------------------------------ taking and leaving

  /** What the search makes of the item b: an entry for it, or one more for its project. */
  ghost predicate Suits(q: Sequel, xs: seq<Selected>, b: Bmi, y: Selected) {
    && b.id == y.a.a.id && b.id.root in ROOTS && NoDup(b.pl) && Ordinary(q, y) && Open(q, xs, y.a.a)
    && (match Base(xs, b.id.root) case None => y.first case Some(z) => !y.first && z.a.v == y.a.a.v)
    && Imports(Stale(q), y.a.a, b.pl) == ImportResult.Imported(y.a.pl, DepsIn(q, b.id, y.a.a.v))
    && AllAgree(q, xs, DepsIn(q, b.id, y.a.a.v))
  }

  lemma SuitsFits(q: Sequel, s: Core, xs: seq<Selected>, b: Bmi, y: Selected)
    requires At(q, s, xs) && Suits(q, xs, b, y)
    ensures CheckOk(Stale(q), s, AtomWithPackages(y.a.a, b.pl), !y.first)
    ensures Request(Stale(q), s, AtomWithPackages(y.a.a, b.pl), !y.first)
  {
    hide At, Open, AllAgree, Imports, DepsIn, CheckOk, Ordinary, NoDup, Base;
    AtIs(q, s, xs, b.id.root);
    Admits(q, s, xs, AtomWithPackages(y.a.a, b.pl), !y.first, y.a.pl);
  }

  lemma Take(q: Sequel, s: Core, xs: seq<Selected>, b: Bmi, y: Selected, order: seq<ProjectRoot>) returns (t: Core)
    requires At(q, s, xs) && Suits(q, xs, b, y) && b in s.unsel
    requires var deps := DepsIn(q, b.id, y.a.a.v); Listing(order, deps.Keys) && forall r <- order :: r in deps
    ensures Picks(Stale(q), s, t) && At(q, t, xs + [y])
    ensures t.unsel == RemoveFirst(s.unsel, b.id, b.pl) + NewItems(q, xs, DepsIn(q, b.id, y.a.a.v), order)
    ensures CheckOk(Stale(q), s, AtomWithPackages(y.a.a, b.pl), !y.first)
  {
    hide At, Suits, Stale, DepsIn, Imports, CheckOk, Request, Enqueued, RemoveFirst, NewItems, Picks, Ordinary, Main;
    var deps, awp := DepsIn(q, b.id, y.a.a.v), AtomWithPackages(y.a.a, b.pl);
    SuitsFits(q, s, xs, b, y);
    SuitsIs(q, xs, b, y);
    DepsMain(q, b.id, y.a.a.v);
    NewItemsAre(q, s, xs, y.a.a, deps, order);
    RootIsNoDep(q, b.id, y.a.a.v);
    t := Forward(Stale(q), s, awp, !y.first, y.a.pl, deps, order, RemoveFirst(s.unsel, b.id, b.pl) + NewItems(q, xs, deps, order));
    Risen(q, s, xs, y, t);
  }

  lemma SuitsIs(q: Sequel, xs: seq<Selected>, b: Bmi, y: Selected)
    requires Suits(q, xs, b, y)
    ensures y.a.a.id == b.id && Ordinary(q, y)
    ensures Imports(Stale(q), y.a.a, b.pl) == ImportResult.Imported(y.a.pl, DepsIn(q, b.id, y.a.a.v))
  {
    hide Imports, Ordinary, Open, AllAgree, DepsIn, Base;
  }

  lemma RootIsNoDep(q: Sequel, id: ProjectIdentifier, v: Version)
    ensures Stale(q).rootName == "root" && "root" !in DepsIn(q, id, v)
  {
    hide DepsIn, Main;
    DepsMain(q, id, v);
  }

  lemma Risen(q: Sequel, s: Core, xs: seq<Selected>, y: Selected, t: Core)
    requires At(q, s, xs) && Ordinary(q, y) && Picks(Stale(q), s, t) && t.projects == s.projects + [Selected(AtomWithPackages(y.a.a, y.a.pl), y.first)]
    ensures At(q, t, xs + [y])
  {
    hide Arises, Picks, Stale, Ordinary, Bottom;
    StepArises(Stale(q), s, t);
    assert ([Bottom(q)] + xs) + [y] == [Bottom(q)] + (xs + [y]);
  }

  /** What is left of the queue when the entry above xs goes. */
  ghost function Remains(q: Sequel, xs: seq<Selected>, deps: Deps, sl: seq<Bmi>, order: seq<ProjectRoot>): seq<Bmi>
    requires forall r <- order :: r in deps
  {
    if order == [] then sl
    else
      var r, rest := order[|order| - 1], Remains(q, xs, deps, sl, order[..|order| - 1]);
      if Held(q, xs, r) == [] then RemoveFirst(rest, deps[r].ident, deps[r].pl) else rest
  }

  lemma {:induction false} LeftRemains(q: Sequel, xs: seq<Selected>, deps: Deps, sl: seq<Bmi>, order: seq<ProjectRoot>)
    requires (forall x <- xs :: Ordinary(q, x)) && forall r <- order :: r in deps
    ensures Left(Stale(q), [Bottom(q)] + xs, deps, sl, order) == Remains(q, xs, deps, sl, order)
  {
    hide Ordinary, Held, Replay, Stale, Bottom, RemoveFirst;
    if order != [] {
      LeftRemains(q, xs, deps, sl, order[..|order| - 1]);
      StackHolds(q, xs, order[|order| - 1]);
    }
  }

  lemma Leave(q: Sequel, s: Core, xs: seq<Selected>, x: Selected, order: seq<ProjectRoot>) returns (t: Core)
    requires At(q, s, xs + [x])
    requires var deps := DepsIn(q, x.a.a.id, x.a.a.v); Listing(order, deps.Keys) && forall r <- order :: r in deps
    ensures Backs(Stale(q), s, t) && At(q, t, xs)
    ensures t.unsel == Remains(q, xs, DepsIn(q, x.a.a.id, x.a.a.v), s.unsel + [Back(x)], order)
  {
    hide At, Stale, DepsIn, Imports, Remains, Left, Backs, Ordinary, Inv, ValidWorld, IndexOk, Arises, Bottom;
    var deps := DepsIn(q, x.a.a.id, x.a.a.v);
    AboveIs(q, s, xs, x);
    NoConflicts(q, s);
    OrdinaryImports(q, x);
    LeftRemains(q, xs, deps, s.unsel + [Back(x)], order);
    t := Backward(Stale(q), s, [Bottom(q)] + xs, x, deps, order);
    StepArises(Stale(q), s, t);
    Sunk(q, t, xs);
  }

  lemma AboveIs(q: Sequel, s: Core, xs: seq<Selected>, x: Selected)
    requires At(q, s, xs + [x])
    ensures s.projects == ([Bottom(q)] + xs) + [x] && Arises(Stale(q), s) && Ordinary(q, x) && forall y <- xs :: Ordinary(q, y)
  {
    hide Arises, Ordinary, Stale, Bottom;
    assert x in xs + [x] && forall y <- xs :: y in xs + [x];
  }

  lemma Sunk(q: Sequel, t: Core, xs: seq<Selected>)
    requires Arises(Stale(q), t) && t.projects == [Bottom(q)] + xs && forall y <- xs :: Ordinary(q, y)
    ensures At(q, t, xs)
  {
    hide Arises, Ordinary, Stale, Bottom;
  }
}
