/** What every reachable state of the solver's machine satisfies, whichever moves the search
    makes: edges are a replay of the stack, selections honour the edges on them, required
    packages are selected or queued, composite constraints stay satisfiable. */
module SolverInvariants {
  import opened Constraints
  import opened Identifiers
  import opened Bridge
  import opened SolverCore

  // ------------------------------------------------------------------ stack replay

  /** The dependencies an entry stands for.  The root's come with the world. */
  function DepsOf(w: World, x: Selected): Deps {
    if x.a.a.id.root == w.rootName then w.rootDeps
    else match Imports(w, x.a.a, x.a.pl)
      case Imported(_, deps) => deps
      case ImportFailed(_) => map[]
  }

  /** The edge an entry contributes on r, if any; edges on the root project are skipped. */
  function Contribution(w: World, x: Selected, r: ProjectRoot): seq<Dependency> {
    if r in DepsOf(w, x) && r != w.rootName then [Edge(x.a.a, DepsOf(w, x), r)] else []
  }

  /** The edges on r contributed by the stack, bottom to top. */
  function Replay(w: World, projects: seq<Selected>, r: ProjectRoot): seq<Dependency> {
    if projects == [] then []
    else Replay(w, projects[..|projects| - 1], r) + Contribution(w, projects[|projects| - 1], r)
  }

  ghost predicate Replayed(w: World, s: Core) {
    forall r :: On(s.deps, r) == Replay(w, s.projects, r)
  }

  // ------------------------------------------------------------------ the stack itself

  ghost predicate EntryOk(w: World, x: Selected) {
    && x.a.a.id.root in w.roots && x.a.a.id.root != w.rootName
    && NoDup(x.a.pl)
    && Imports(w, x.a.a, x.a.pl).Imported? && Imports(w, x.a.a, x.a.pl).pl == x.a.pl
  }

  ghost predicate Entries(w: World, projects: seq<Selected>) {
    && projects != [] && projects[0] == Selected(AtomWithPackages(RootAtom(w), w.rootList), true)
    && (forall i :: 1 <= i < |projects| ==> EntryOk(w, projects[i]))
  }

  /** A first selection opens each project and every later entry for it is package-only and at
      the same version. */
  ghost predicate FirstsOk(projects: seq<Selected>) {
    forall i :: 0 <= i < |projects| ==> FirstAt(projects, i)
  }

  ghost predicate FirstAt(projects: seq<Selected>, i: nat)
    requires i < |projects|
  {
    var r := projects[i].a.a.id.root;
    && (projects[i].first <==> Base(projects[..i], r).None?)
    && Base(projects, r).Some? && projects[i].a.a.v == Base(projects, r).value.a.v
  }

  ghost predicate StackOk(w: World, projects: seq<Selected>) {
    Entries(w, projects) && FirstsOk(projects)
  }

  // ------------------------------------------------------------------ safety, closure, composites

  /** Every edge on a selected project is honoured by the selected version. */
  ghost predicate Safe(w: World, s: Core) {
    forall r, k :: Base(s.projects, r).Some? && 0 <= k < |On(s.deps, r)| ==>
      Satisfied(w, Base(s.projects, r).value.a, On(s.deps, r)[k].dep)
  }

  /** Dependencies on the root project leave no edge but were checked against it. */
  ghost predicate RootSafe(w: World, s: Core) {
    forall i :: 1 <= i < |s.projects| && w.rootName in DepsOf(w, s.projects[i]) ==>
      Satisfied(w, RootAtom(w), DepsOf(w, s.projects[i])[w.rootName])
  }

  ghost predicate SelectedPackage(projects: seq<Selected>, r: ProjectRoot, p: Package) {
    exists i :: 0 <= i < |projects| && projects[i].a.a.id.root == r && p in projects[i].a.pl
  }

  ghost predicate QueuedPackage(unsel: seq<Bmi>, r: ProjectRoot, p: Package) {
    exists b :: b in unsel && b.id.root == r && p in b.pl
  }

  ghost predicate Needed(es: seq<Dependency>, p: Package) {
    exists k :: 0 <= k < |es| && p in es[k].dep.pl
  }

  /** Every package some edge names is selected or still queued. */
  ghost predicate Covered(s: Core) {
    forall r, p :: Needed(On(s.deps, r), p) ==> SelectedPackage(s.projects, r, p) || QueuedPackage(s.unsel, r, p)
  }

  ghost predicate CompositesOk(w: World, s: Core) {
    forall r :: Composite(w, s.deps, r) != Nothing
  }

  ghost predicate QueueOk(w: World, unsel: seq<Bmi>) {
    forall b <- unsel :: b.id.root in w.roots && b.id.root != w.rootName && NoDup(b.pl)
  }

  ghost predicate Inv(w: World, s: Core) {
    && StackOk(w, s.projects)
    && Replayed(w, s)
    && Safe(w, s)
    && RootSafe(w, s)
    && Covered(s)
    && CompositesOk(w, s)
    && QueueOk(w, s.unsel)
  }

  // ------------------------------------------------------------------ edges are well formed

  lemma DepsOfValid(w: World, x: Selected)
    requires ValidWorld(w)
    ensures ValidDeps(w, DepsOf(w, x))
  {
    assert GoodDeps(w, x.a.a, x.a.pl);
  }

  lemma {:induction false} ReplayValid(w: World, projects: seq<Selected>, r: ProjectRoot)
    requires ValidWorld(w)
    ensures Replay(w, projects, r) != [] ==> r in w.roots && r != w.rootName
    ensures forall e <- Replay(w, projects, r) :: ValidDep(w, r, e.dep)
  {
    if projects != [] {
      ReplayValid(w, projects[..|projects| - 1], r);
      DepsOfValid(w, projects[|projects| - 1]);
    }
  }

  lemma EdgesManifestLevel(w: World, s: Core, r: ProjectRoot)
    requires ValidWorld(w) && Replayed(w, s)
    ensures forall e <- On(s.deps, r) :: ValidDep(w, r, e.dep)
    ensures forall c <- Conditions(On(s.deps, r)) :: ManifestLevel(c)
  {
    ReplayValid(w, s.projects, r);
    assert On(s.deps, r) == Replay(w, s.projects, r);
    var es := On(s.deps, r);
    forall c | c in Conditions(es) ensures ManifestLevel(c) {
      var i :| 0 <= i < |es| && Conditions(es)[i] == c;
      assert es[i] in es;
    }
  }

  // ------------------------------------------------------------------ lookups after a push or pop

  lemma BaseOfPush(projects: seq<Selected>, x: Selected, r: ProjectRoot)
    ensures var b := Base(projects, r);
            Base(projects + [x], r) == if b.Some? then b else if x.a.a.id.root == r then Some(x.a) else None
  {
    assert (projects + [x])[..|projects|] == projects;
  }

  lemma ReplayOfPush(w: World, projects: seq<Selected>, x: Selected, r: ProjectRoot)
    ensures Replay(w, projects + [x], r) == Replay(w, projects, r) + Contribution(w, x, r)
  {
    assert (projects + [x])[..|projects|] == projects;
  }

  lemma OnAddEdges(edges: Edges, a: Atom, deps: Deps, rs: set<ProjectRoot>, r: ProjectRoot)
    requires rs <= deps.Keys
    ensures On(AddEdges(edges, a, deps, rs), r) == On(edges, r) + if r in rs then [Edge(a, deps, r)] else []
  {
  }

  lemma OnDropEdges(edges: Edges, rs: set<ProjectRoot>, r: ProjectRoot)
    ensures var es := On(edges, r);
            On(DropEdges(edges, rs), r) == if r in rs && es != [] then es[..|es| - 1] else es
  {
  }

  lemma PushFirsts(projects: seq<Selected>, x: Selected)
    requires FirstsOk(projects)
    requires var b := Base(projects, x.a.a.id.root); (x.first <==> b.None?) && (b.Some? ==> x.a.a.v == b.value.a.v)
    ensures FirstsOk(projects + [x])
  {
    var all := projects + [x];
    forall i | 0 <= i < |all| ensures FirstAt(all, i) {
      BaseOfPush(projects, x, all[i].a.a.id.root);
      if i < |projects| {
        assert FirstAt(projects, i) && all[i] == projects[i] && all[..i] == projects[..i];
      } else {
        assert all[..i] == projects;
      }
    }
  }

  lemma PrefixFirsts(projects: seq<Selected>, x: Selected)
    requires FirstsOk(projects + [x])
    ensures FirstsOk(projects)
  {
    var all := projects + [x];
    forall i | 0 <= i < |projects| ensures FirstAt(projects, i) {
      assert FirstAt(all, i) && all[i] == projects[i] && all[..i] == projects[..i];
      BaseOfPush(projects, x, projects[i].a.a.id.root);
    }
  }

  lemma PushEntries(w: World, projects: seq<Selected>, x: Selected)
    ensures projects != [] ==> (Entries(w, projects + [x]) <==> Entries(w, projects) && EntryOk(w, x))
  {
    var all := projects + [x];
    assert forall i :: 0 <= i < |projects| ==> all[i] == projects[i];
    assert all[|projects|] == x;
  }

  /** Pushing an entry adds its contribution to the edges on every root. */
  lemma PushEdges(w: World, projects: seq<Selected>, x: Selected, edges: Edges, r: ProjectRoot)
    requires x.a.a.id.root != w.rootName && On(edges, r) == Replay(w, projects, r)
    ensures var deps := DepsOf(w, x);
            var more := On(AddEdges(edges, x.a.a, deps, deps.Keys - {w.rootName}), r);
            more == On(edges, r) + Contribution(w, x, r) && more == Replay(w, projects + [x], r)
  {
    var deps := DepsOf(w, x);
    OnAddEdges(edges, x.a.a, deps, deps.Keys - {w.rootName}, r);
    ReplayOfPush(w, projects, x, r);
  }

  /** Popping it takes exactly that contribution away. */
  lemma PopEdges(w: World, projects: seq<Selected>, x: Selected, edges: Edges, r: ProjectRoot)
    requires x.a.a.id.root != w.rootName && On(edges, r) == Replay(w, projects + [x], r)
    ensures var fewer := On(DropEdges(edges, DepsOf(w, x).Keys - {w.rootName}), r);
            On(edges, r) == fewer + Contribution(w, x, r) && fewer == Replay(w, projects, r)
  {
    OnDropEdges(edges, DepsOf(w, x).Keys - {w.rootName}, r);
    ReplayOfPush(w, projects, x, r);
  }

  // ------------------------------------------------------------------ one dependency at a time

  lemma AddOneEdge(edges: Edges, a: Atom, deps: Deps, rs: set<ProjectRoot>, r: ProjectRoot)
    requires rs <= deps.Keys && r in deps && r !in rs
    ensures var some := AddEdges(edges, a, deps, rs);
            && On(some, r) == On(edges, r)
            && some[r := On(some, r) + [Edge(a, deps, r)]] == AddEdges(edges, a, deps, rs + {r})
  {
  }

  lemma DropOneEdge(edges: Edges, rs: set<ProjectRoot>, r: ProjectRoot)
    requires r !in rs && On(edges, r) != []
    ensures var some := DropEdges(edges, rs);
            && On(some, r) == On(edges, r)
            && some[r := On(edges, r)[..|On(edges, r)| - 1]] == DropEdges(edges, rs + {r})
  {
  }

  lemma ElemsPush<T>(s: seq<T>, x: T)
    ensures Elems(s + [x]) == Elems(s) + {x}
    ensures x !in s && NoDup(s) ==> NoDup(s + [x])
  {
  }

  lemma EnqueuedPush(w: World, edges: Edges, a: Atom, deps: Deps, order: seq<ProjectRoot>, r: ProjectRoot)
    requires Elems(order + [r]) <= deps.Keys
    ensures Elems(order) <= deps.Keys && r in deps
    ensures var b := NewBmi(w, edges, a, deps[r]);
            Enqueued(w, edges, a, deps, order + [r]) == Enqueued(w, edges, a, deps, order) + if b.pl != [] then multiset{b} else multiset{}
  {
    ElemsPush(order, r);
    assert (order + [r])[..|order|] == order;
  }

  lemma MarkRootsPush(w: World, foldRoots: map<string, ProjectRoot>, edges: Edges, order: seq<ProjectRoot>, r: ProjectRoot)
    ensures var f := MarkRoots(w, foldRoots, edges, order);
            MarkRoots(w, foldRoots, edges, order + [r]) == if On(edges, r) == [] then f[w.toFold(r) := r] else f
    ensures var g := UnmarkRoots(w, foldRoots, edges, order);
            UnmarkRoots(w, foldRoots, edges, order + [r]) == if |On(edges, r)| == 1 then g - {w.toFold(r)} else g
  {
    assert (order + [r])[..|order|] == order;
  }

  lemma DropUnneededPush(edges: Edges, deps: Deps, sl: seq<Bmi>, order: seq<ProjectRoot>, r: ProjectRoot)
    requires Elems(order + [r]) <= deps.Keys
    ensures Elems(order) <= deps.Keys && r in deps
    ensures var rest := DropUnneeded(edges, deps, sl, order);
            DropUnneeded(edges, deps, sl, order + [r]) == if On(edges, r) == [] then RemoveFirst(rest, deps[r].ident, deps[r].pl) else rest
  {
    ElemsPush(order, r);
    assert (order + [r])[..|order|] == order;
  }

  /** t is s with the dependencies in order pushed. */
  ghost predicate Pushing(w: World, s: Core, t: Core, a: Atom, deps: Deps, order: seq<ProjectRoot>) {
    && NoDup(order) && Elems(order) <= deps.Keys && t.projects == s.projects
    && t.deps == AddEdges(s.deps, a, deps, Elems(order))
    && t.foldRoots == MarkRoots(w, s.foldRoots, s.deps, order)
    && multiset(t.unsel) == multiset(s.unsel) + Enqueued(w, s.deps, a, deps, order)
  }

  lemma PushingNone(w: World, s: Core, a: Atom, deps: Deps)
    ensures Pushing(w, s, s, a, deps, [])
  {
    var none := AddEdges(s.deps, a, deps, {});
    forall r | r in s.deps ensures none[r] == s.deps[r] {
      OnAddEdges(s.deps, a, deps, {}, r);
    }
    assert none.Keys == s.deps.Keys;
  }

  lemma PushingOne(w: World, s: Core, t: Core, u: Core, a: Atom, deps: Deps, order: seq<ProjectRoot>, r: ProjectRoot)
    requires Pushing(w, s, t, a, deps, order) && r in deps && r !in Elems(order) && deps[r].ident.root == r
    requires u.projects == t.projects
    requires u.deps == t.deps[r := On(t.deps, r) + [Edge(a, deps, r)]]
    requires u.foldRoots == if On(t.deps, r) == [] then t.foldRoots[w.toFold(r) := r] else t.foldRoots
    requires var b := NewBmi(w, t.deps, a, deps[r]);
             multiset(u.unsel) == multiset(t.unsel) + if b.pl != [] then multiset{b} else multiset{}
    ensures Pushing(w, s, u, a, deps, order + [r])
  {
    ElemsPush(order, r);
    AddOneEdge(s.deps, a, deps, Elems(order), r);
    MarkRootsPush(w, s.foldRoots, s.deps, order, r);
    EnqueuedPush(w, s.deps, a, deps, order, r);
    assert NewBmi(w, t.deps, a, deps[r]) == NewBmi(w, s.deps, a, deps[r]);
  }

  /** t is s with the dependencies in order popped; after are the edges once all are. */
  ghost predicate Popping(w: World, s: Core, t: Core, after: Edges, deps: Deps, order: seq<ProjectRoot>) {
    && NoDup(order) && Elems(order) <= deps.Keys && t.projects == s.projects
    && t.deps == DropEdges(s.deps, Elems(order))
    && t.foldRoots == UnmarkRoots(w, s.foldRoots, s.deps, order)
    && t.unsel == DropUnneeded(after, deps, s.unsel, order)
  }

  lemma PoppingNone(w: World, s: Core, after: Edges, deps: Deps)
    ensures Popping(w, s, s, after, deps, [])
  {
    assert DropEdges(s.deps, {}) == s.deps;
  }

  lemma PoppingOne(w: World, s: Core, t: Core, u: Core, after: Edges, deps: Deps, order: seq<ProjectRoot>, r: ProjectRoot)
    requires Popping(w, s, t, after, deps, order) && r in deps && r !in Elems(order)
    requires On(s.deps, r) != [] && On(after, r) == On(s.deps, r)[..|On(s.deps, r)| - 1]
    requires u.projects == t.projects
    requires var es := On(t.deps, r); es != [] ==>
               && u.deps == t.deps[r := es[..|es| - 1]]
               && u.foldRoots == (if |es| == 1 then t.foldRoots - {w.toFold(r)} else t.foldRoots)
               && u.unsel == if |es| == 1 then RemoveFirst(t.unsel, deps[r].ident, deps[r].pl) else t.unsel
    ensures On(t.deps, r) == On(s.deps, r)
    ensures Popping(w, s, u, after, deps, order + [r])
  {
    ElemsPush(order, r);
    DropOneEdge(s.deps, Elems(order), r);
    MarkRootsPush(w, s.foldRoots, s.deps, order, r);
    DropUnneededPush(after, deps, s.unsel, order, r);
  }

  // ------------------------------------------------------------------ work queue facts

  /** Which entry goes depends on the normal form of the identifier: naming the root as the source is
      naming none. */
  lemma {:induction false} RemovesByNormalForm(sl: seq<Bmi>, i: ProjectIdentifier, j: ProjectIdentifier, pl: seq<Package>)
    requires i.Normalize() == j.Normalize()
    ensures RemoveFirst(sl, i, pl) == RemoveFirst(sl, j, pl)
  {
    if sl != [] {
      EqIsEqualityOfNormalForms(sl[0].id, i);
      EqIsEqualityOfNormalForms(sl[0].id, j);
      RemovesByNormalForm(sl[1..], i, j, pl);
    }
  }

  lemma {:induction false} RemoveFirstKeeps(sl: seq<Bmi>, id: ProjectIdentifier, pl: seq<Package>, b: Bmi)
    ensures b in RemoveFirst(sl, id, pl) ==> b in sl
    ensures b in sl && !SameWork(b, id, pl) ==> b in RemoveFirst(sl, id, pl)
  {
    if sl != [] && !SameWork(sl[0], id, pl) {
      RemoveFirstKeeps(sl[1..], id, pl, b);
    }
  }

  lemma {:induction false} DropUnneededKeeps(edges: Edges, deps: Deps, sl: seq<Bmi>, order: seq<ProjectRoot>, b: Bmi)
    requires Elems(order) <= deps.Keys && forall r <- deps :: deps[r].ident.root == r
    ensures b in DropUnneeded(edges, deps, sl, order) ==> b in sl
    ensures b in sl && On(edges, b.id.root) != [] ==> b in DropUnneeded(edges, deps, sl, order)
  {
    if order != [] {
      var init, r := order[..|order| - 1], order[|order| - 1];
      assert r in Elems(order) && Elems(init) <= Elems(order);
      DropUnneededKeeps(edges, deps, sl, init, b);
      RemoveFirstKeeps(DropUnneeded(edges, deps, sl, init), deps[r].ident, deps[r].pl, b);
    }
  }

  lemma {:induction false} EnqueuedHas(w: World, edges: Edges, a: Atom, deps: Deps, order: seq<ProjectRoot>, r: ProjectRoot)
    requires Elems(order) <= deps.Keys && r in order
    requires r in deps && NewBmi(w, edges, a, deps[r]).pl != []
    ensures NewBmi(w, edges, a, deps[r]) in Enqueued(w, edges, a, deps, order)
  {
    hide NewBmi;
    var init, last := order[..|order| - 1], order[|order| - 1];
    assert last in Elems(order) && Elems(init) <= Elems(order);
    if last != r {
      assert order == init + [last];
      EnqueuedHas(w, edges, a, deps, init, r);
    }
  }

  lemma {:induction false} EnqueuedOnly(w: World, edges: Edges, a: Atom, deps: Deps, order: seq<ProjectRoot>, b: Bmi) returns (r: ProjectRoot)
    requires Elems(order) <= deps.Keys && b in Enqueued(w, edges, a, deps, order)
    ensures r in order && r in deps && b == NewBmi(w, edges, a, deps[r])
  {
    hide NewBmi;
    var init, last := order[..|order| - 1], order[|order| - 1];
    assert last in Elems(order) && Elems(init) <= Elems(order);
    if b == NewBmi(w, edges, a, deps[last]) {
      r := last;
    } else {
      r := EnqueuedOnly(w, edges, a, deps, init, b);
      assert order == init + [last];
    }
  }

  lemma {:induction false} RootWorkIs(w: World, order: seq<ProjectRoot>, b: Bmi)
    requires Elems(order) <= w.rootDeps.Keys
    ensures b in RootWork(w, order) <==> exists r :: r in order && r in w.rootDeps && b == Bmi(w.rootDeps[r].ident, w.rootDeps[r].pl, None, true)
  {
    if order != [] {
      var init, last := order[..|order| - 1], order[|order| - 1];
      assert last in Elems(order) && Elems(init) <= Elems(order);
      RootWorkIs(w, init, b);
      assert order == init + [last];
    }
  }

  // ------------------------------------------------------------------ the start state

  lemma InInMultiset(s: seq<Bmi>, b: Bmi)
    ensures b in s <==> b in multiset(s)
  {
  }

  lemma StartEdges(w: World, s: Core, order: seq<ProjectRoot>, r: ProjectRoot)
    requires ValidWorld(w) && Start(w, s, order)
    ensures On(s.deps, r) == if r in w.rootDeps then [Edge(RootAtom(w), w.rootDeps, r)] else []
    ensures On(s.deps, r) == Replay(w, s.projects, r)
  {
    OnAddEdges(map[], RootAtom(w), w.rootDeps, w.rootDeps.Keys, r);
    assert s.projects[..0] == [];
    assert Replay(w, s.projects, r) == Replay(w, [], r) + Contribution(w, s.projects[0], r);
  }

  lemma StartBase(w: World, s: Core, order: seq<ProjectRoot>, r: ProjectRoot)
    requires Start(w, s, order)
    ensures Base(s.projects, r) == if r == w.rootName then Some(s.projects[0].a) else None
  {
    assert [] + [s.projects[0]] == s.projects;
    BaseOfPush([], s.projects[0], r);
  }

  lemma StartStack(w: World, s: Core, order: seq<ProjectRoot>)
    requires Start(w, s, order)
    ensures StackOk(w, s.projects) && RootSafe(w, s)
    ensures forall r :: Base(s.projects, r).Some? ==> r == w.rootName
  {
    hide RootWork, MarkRoots, AddEdges, DepsOf;
    assert s.projects[..0] == [] && |s.projects| == 1;
    assert FirstAt(s.projects, 0);
    forall r ensures Base(s.projects, r) == if r == w.rootName then Some(s.projects[0].a) else None {
      StartBase(w, s, order, r);
    }
  }

  lemma StartInv(w: World, s: Core, order: seq<ProjectRoot>)
    requires ValidWorld(w) && Start(w, s, order)
    ensures Inv(w, s)
  {
    StartStack(w, s, order);
    forall r {
      StartEdges(w, s, order, r);
    }
    forall r ensures Composite(w, s.deps, r) != Nothing {
      StartComposite(w, s, r);
    }
    StartQueue(w, s, order);
  }

  lemma StartComposite(w: World, s: Core, r: ProjectRoot)
    requires ValidWorld(w)
    requires On(s.deps, r) == if r in w.rootDeps then [Edge(RootAtom(w), w.rootDeps, r)] else []
    ensures Composite(w, s.deps, r) != Nothing
  {
    var cs := Conditions(On(s.deps, r));
    if r in w.rootDeps {
      assert cs[..0] == [] && cs[0] == w.rootDeps[r].constraint;
      assert Fold(w.lib, cs) == Intersect(w.lib, Any, cs[0]);
    }
  }

  lemma StartQueue(w: World, s: Core, order: seq<ProjectRoot>)
    requires ValidWorld(w) && Start(w, s, order)
    requires forall r :: On(s.deps, r) == if r in w.rootDeps then [Edge(RootAtom(w), w.rootDeps, r)] else []
    ensures QueueOk(w, s.unsel) && Covered(s)
  {
    forall b ensures b in s.unsel <==> exists r :: r in order && r in w.rootDeps && b == Bmi(w.rootDeps[r].ident, w.rootDeps[r].pl, None, true) {
      RootWorkIs(w, order, b);
      InInMultiset(s.unsel, b);
    }
    forall r, p | Needed(On(s.deps, r), p) ensures QueuedPackage(s.unsel, r, p) {
      assert r in w.rootDeps;
      assert r in Elems(order);
      assert Bmi(w.rootDeps[r].ident, w.rootDeps[r].pl, None, true) in s.unsel;
    }
  }
}
