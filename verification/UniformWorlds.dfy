/** Worlds in which no stale work arises: every dependency on a project names the same packages, and
    these import no further packages of the project. */
module UniformWorlds {
  import opened Constraints
  import opened Identifiers
  import opened Bridge
  import opened SolverCore
  import opened SolverInvariants
  import opened SolverSteps
  import opened SolverRuns
  import opened WantedWork

  type Lists = ProjectRoot -> seq<Package>

  ghost predicate UniformDeps(list: Lists, deps: Deps) {
    forall r <- deps :: deps[r].pl == list(r)
  }

  ghost predicate Uniform(w: World, list: Lists) {
    && UniformDeps(list, w.rootDeps)
    && (forall a: Atom, pl :: Imports(w, a, pl).Imported? ==> UniformDeps(list, Imports(w, a, pl).deps))
    && forall a: Atom :: Imports(w, a, list(a.id.root)).Imported? ==> Imports(w, a, list(a.id.root)).pl == list(a.id.root)
  }

  ghost predicate Steady(w: World) {
    exists list :: Uniform(w, list)
  }

  // ------------------------------------------------------------------ edges and new work

  lemma UniformEntry(w: World, list: Lists, x: Selected)
    requires Uniform(w, list)
    ensures UniformDeps(list, DepsOf(w, x))
  {
  }

  lemma {:induction false} UniformReplay(w: World, list: Lists, projects: seq<Selected>, q: ProjectRoot)
    requires Uniform(w, list)
    ensures forall k :: 0 <= k < |Replay(w, projects, q)| ==> Replay(w, projects, q)[k].dep.pl == list(q)
  {
    if projects != [] {
      UniformReplay(w, list, projects[..|projects| - 1], q);
      UniformEntry(w, list, projects[|projects| - 1]);
    }
  }

  lemma UniformEdges(w: World, list: Lists, s: Core, q: ProjectRoot)
    requires Uniform(w, list) && Inv(w, s)
    ensures forall k :: 0 <= k < |On(s.deps, q)| ==> On(s.deps, q)[k].dep.pl == list(q)
  {
    UniformReplay(w, list, s.projects, q);
    assert On(s.deps, q) == Replay(w, s.projects, q);
  }

  lemma {:induction false} AllSole(es: seq<Dependency>, pl: seq<Package>)
    requires forall p <- pl :: Occurrences(es, p) == 1
    ensures SoleImports(es, pl) == pl
  {
    if pl != [] {
      AllSole(es, pl[..|pl| - 1]);
      assert pl == pl[..|pl| - 1] + [pl[|pl| - 1]];
    }
  }

  /** A dependency on a new project asks for all its packages; one on another asks for none. */
  lemma UniformWork(w: World, list: Lists, s: Core, a: Atom, d: CompleteDep, q: ProjectRoot)
    requires Uniform(w, list) && Inv(w, s) && ValidDep(w, q, d) && d.pl == list(q)
    ensures NewBmi(w, s.deps, a, d).pl == if On(s.deps, q) == [] then list(q) else []
  {
    UniformEdges(w, list, s, q);
    var es, e := On(s.deps, q), Dependency(a, d);
    hide Inv, Uniform;
    if es == [] {
      assert es + [e] == [e];
      AllNew(e);
    } else {
      NoneNew(es, e);
    }
  }

  lemma AllNew(e: Dependency)
    requires NoDup(e.dep.pl)
    ensures SoleImports([e], e.dep.pl) == e.dep.pl
  {
    forall p | p in e.dep.pl ensures Occurrences([e], p) == 1 {
      NoDupOnce(e.dep.pl, p);
      assert [e][..0] == [];
    }
    AllSole([e], e.dep.pl);
  }

  lemma NoneNew(es: seq<Dependency>, e: Dependency)
    requires es != [] && NoDup(e.dep.pl) && es[0].dep.pl == e.dep.pl
    ensures SoleImports(es + [e], e.dep.pl) == []
  {
    var pl := SoleImports(es + [e], e.dep.pl);
    if pl != [] {
      var p := pl[0];
      assert p in pl && p in es[0].dep.pl;
      QueuedIfNew(es, e, p);
    }
  }

  function EnqueuedSeq(w: World, edges: Edges, a: Atom, deps: Deps, order: seq<ProjectRoot>): seq<Bmi>
    requires Elems(order) <= deps.Keys
  {
    if order == [] then []
    else
      var init, r := order[..|order| - 1], order[|order| - 1];
      assert r in Elems(order) && Elems(init) <= Elems(order);
      var b := NewBmi(w, edges, a, deps[r]);
      EnqueuedSeq(w, edges, a, deps, init) + if b.pl != [] then [b] else []
  }

  lemma {:induction false} EnqueuedIs(w: World, edges: Edges, a: Atom, deps: Deps, order: seq<ProjectRoot>)
    requires Elems(order) <= deps.Keys
    ensures multiset(EnqueuedSeq(w, edges, a, deps, order)) == Enqueued(w, edges, a, deps, order)
  {
    hide NewBmi;
    if order != [] {
      var init, r := order[..|order| - 1], order[|order| - 1];
      assert r in Elems(order) && Elems(init) <= Elems(order);
      EnqueuedIs(w, edges, a, deps, init);
    }
  }

  /** One item at most for each root, and only for roots nobody depended on. */
  lemma {:induction false} EnqueuedItems(w: World, s: Core, a: Atom, deps: Deps, order: seq<ProjectRoot>, q: ProjectRoot)
    requires Elems(order) <= deps.Keys && NoDup(order)
    requires forall r <- deps :: NewBmi(w, s.deps, a, deps[r]).id.root == r && (On(s.deps, r) != [] ==> NewBmi(w, s.deps, a, deps[r]).pl == [])
    ensures Items(EnqueuedSeq(w, s.deps, a, deps, order), q) <= if q in order && On(s.deps, q) == [] then 1 else 0
  {
    hide NewBmi;
    if order != [] {
      var init, r := order[..|order| - 1], order[|order| - 1];
      assert r in Elems(order) && Elems(init) <= Elems(order) && order == init + [r];
      assert r !in init;
      EnqueuedItems(w, s, a, deps, init, q);
      var b := NewBmi(w, s.deps, a, deps[r]);
      var more := EnqueuedSeq(w, s.deps, a, deps, init);
      assert EnqueuedSeq(w, s.deps, a, deps, order) == if b.pl != [] then more + [b] else more;
      ItemsConcat(more, [b], q);
      ItemsOne(b, q);
    }
  }

  // ------------------------------------------------------------------ the roster

  ghost predicate Listed(list: Lists, s: Core) {
    && (forall b <- s.unsel :: b.pl == list(b.id.root))
    && forall i :: 1 <= i < |s.projects| ==> s.projects[i].a.pl == list(s.projects[i].a.a.id.root)
  }

  function RootAt(projects: seq<Selected>, i: nat): ProjectRoot
    requires i < |projects|
  {
    projects[i].a.a.id.root
  }

  lemma RootAtPush(projects: seq<Selected>, x: Selected, i: nat)
    requires i <= |projects|
    ensures RootAt(projects + [x], i) == if i < |projects| then RootAt(projects, i) else x.a.a.id.root
  {
  }

  ghost predicate QueuedOnce(s: Core) {
    forall q :: Items(s.unsel, q) <= 1
  }

  ghost predicate NotQueued(s: Core) {
    forall i :: 1 <= i < |s.projects| ==> Items(s.unsel, RootAt(s.projects, i)) == 0
  }

  ghost predicate SelectedOnce(s: Core) {
    forall i, j :: 1 <= i < j < |s.projects| ==> RootAt(s.projects, i) != RootAt(s.projects, j)
  }

  /** No root is queued twice, selected twice, or both. */
  ghost predicate Once(s: Core) {
    QueuedOnce(s) && NotQueued(s) && SelectedOnce(s)
  }

  ghost predicate Roster(w: World, list: Lists, s: Core) {
    Wanted(w, s) && Sourced(s) && Listed(list, s) && Once(s)
  }

  ghost predicate Fits(list: Lists, s: Core, id: ProjectIdentifier, pl: seq<Package>) {
    Due(s, id, pl) && Known(s, id) && pl == list(id.root)
  }

  // ------------------------------------------------------------------ selecting

  lemma SelectedItems(w: World, list: Lists, s: Core, t: Core, awp: AtomWithPackages, pkgonly: bool, order: seq<ProjectRoot>, q: ProjectRoot)
    requires Uniform(w, list) && Selecting(w, s, t, awp, pkgonly, order)
    ensures Items(t.unsel, q) <= Items(RemoveFirst(s.unsel, awp.a.id, awp.pl), q) + if On(s.deps, q) == [] then 1 else 0
  {
    PushedOk(w, s, t, awp, pkgonly, order);
    var deps := DepsOf(w, Pushed(w, awp, pkgonly));
    UniformEntry(w, list, Pushed(w, awp, pkgonly));
    forall r | r in deps
      ensures NewBmi(w, s.deps, awp.a, deps[r]).id.root == r && (On(s.deps, r) != [] ==> NewBmi(w, s.deps, awp.a, deps[r]).pl == [])
    {
      assert ValidDep(w, r, deps[r]);
      NewBmiRoot(w, s, awp.a, deps[r], r);
      UniformWork(w, list, s, awp.a, deps[r], r);
    }
    hide Inv, NewBmi, ValidWorld, Uniform, CheckOk;
    var rest, more := RemoveFirst(s.unsel, awp.a.id, awp.pl), EnqueuedSeq(w, s.deps, awp.a, deps, order);
    EnqueuedItems(w, s, awp.a, deps, order, q);
    EnqueuedIs(w, s.deps, awp.a, deps, order);
    ItemsPermute(t.unsel, rest + more, q);
    ItemsConcat(rest, more, q);
  }

  lemma SelectListsItem(w: World, list: Lists, s: Core, t: Core, awp: AtomWithPackages, pkgonly: bool, order: seq<ProjectRoot>, b: Bmi)
    requires Uniform(w, list) && Selecting(w, s, t, awp, pkgonly, order) && Listed(list, s) && b in t.unsel
    ensures b.pl == list(b.id.root)
  {
    var r := SelectedQueue(w, s, t, awp, pkgonly, order, b);
    if r.None? {
      RemoveFirstKeeps(s.unsel, awp.a.id, awp.pl, b);
    } else {
      PushedOk(w, s, t, awp, pkgonly, order);
      var d := DepsOf(w, Pushed(w, awp, pkgonly))[r.value];
      assert ValidDep(w, r.value, d);
      UniformEntry(w, list, Pushed(w, awp, pkgonly));
      UniformWork(w, list, s, awp.a, d, r.value);
    }
  }

  lemma SelectKeepsListed(w: World, list: Lists, s: Core, t: Core, awp: AtomWithPackages, pkgonly: bool, order: seq<ProjectRoot>)
    requires Uniform(w, list) && Selecting(w, s, t, awp, pkgonly, order) && Listed(list, s) && awp.pl == list(awp.a.id.root)
    ensures Listed(list, t)
  {
    PushedOk(w, s, t, awp, pkgonly, order);
    assert Pushed(w, awp, pkgonly).a == AtomWithPackages(awp.a, awp.pl);
    hide Selecting, Uniform, Pushed, DepsOf;
    forall b | b in t.unsel ensures b.pl == list(b.id.root) { SelectListsItem(w, list, s, t, awp, pkgonly, order, b); }
    forall i | 1 <= i < |t.projects| ensures t.projects[i].a.pl == list(t.projects[i].a.a.id.root) {
      assert i < |s.projects| ==> t.projects[i] == s.projects[i];
    }
  }

  lemma SelectKeepsItems(w: World, list: Lists, s: Core, t: Core, awp: AtomWithPackages, pkgonly: bool, order: seq<ProjectRoot>, q: ProjectRoot)
    requires Uniform(w, list) && Selecting(w, s, t, awp, pkgonly, order) && Roster(w, list, s) && Fits(list, s, awp.a.id, awp.pl)
    ensures Items(t.unsel, q) <= 1
    ensures On(s.deps, q) != [] ==> Items(t.unsel, q) <= Items(s.unsel, q) - if q == awp.a.id.root then 1 else 0
  {
    SelectedItems(w, list, s, t, awp, pkgonly, order, q);
    var id, pl := awp.a.id, awp.pl;
    RemoveFirstCounts(s.unsel, id, pl, q);
    ItemsAre(s.unsel, q);
    hide Selecting, Uniform, Sourced, Grounded;
    var b :| b in s.unsel && b.id == id && b.pl == pl;
    assert SameWork(b, id, pl);
  }

  /** What is taken is queued once and not selected. */
  lemma TakenOnce(s: Core, list: Lists, id: ProjectIdentifier, pl: seq<Package>, i: nat)
    requires Once(s) && Fits(list, s, id, pl) && 1 <= i < |s.projects|
    ensures Items(s.unsel, id.root) == 1 && RootAt(s.projects, i) != id.root
  {
    ItemsAre(s.unsel, id.root);
  }

  lemma TakenIsQueued(s: Core, list: Lists, id: ProjectIdentifier, pl: seq<Package>)
    requires QueuedOnce(s) && Fits(list, s, id, pl)
    ensures Items(s.unsel, id.root) == 1
  {
    ItemsAre(s.unsel, id.root);
  }

  lemma SelectedIsWanted(s: Core, i: nat)
    requires Sourced(s) && 1 <= i < |s.projects|
    ensures On(s.deps, RootAt(s.projects, i)) != []
  {
    assert Known(s, s.projects[i].a.a.id);
  }

  lemma SelectKeepsApart(w: World, list: Lists, s: Core, t: Core, awp: AtomWithPackages, pkgonly: bool, order: seq<ProjectRoot>, i: nat)
    requires Uniform(w, list) && Selecting(w, s, t, awp, pkgonly, order) && Roster(w, list, s) && Fits(list, s, awp.a.id, awp.pl)
    requires 1 <= i <= |s.projects|
    ensures var q := if i < |s.projects| then RootAt(s.projects, i) else awp.a.id.root; Items(t.unsel, q) == 0
  {
    hide Uniform, Selecting, Wanted, Sourced, Listed, RootAt, Fits;
    var q := if i < |s.projects| then RootAt(s.projects, i) else awp.a.id.root;
    SelectKeepsItems(w, list, s, t, awp, pkgonly, order, q);
    if i < |s.projects| {
      SelectedIsWanted(s, i);
    } else {
      TakenIsQueued(s, list, awp.a.id, awp.pl);
      assert Known(s, awp.a.id) by { FitsIsKnown(s, list, awp.a.id, awp.pl); }
    }
  }

  lemma FitsIsKnown(s: Core, list: Lists, id: ProjectIdentifier, pl: seq<Package>)
    requires Fits(list, s, id, pl)
    ensures Known(s, id)
  {
  }

  lemma SelectKeepsOnce(w: World, list: Lists, s: Core, t: Core, awp: AtomWithPackages, pkgonly: bool, order: seq<ProjectRoot>)
    requires Uniform(w, list) && Selecting(w, s, t, awp, pkgonly, order) && Roster(w, list, s) && Fits(list, s, awp.a.id, awp.pl)
    ensures Once(t)
  {
    var x := Pushed(w, awp, pkgonly);
    assert x.a.a == awp.a;
    PushedOk(w, s, t, awp, pkgonly, order);
    hide Uniform, Selecting, Pushed, DepsOf, EntryOk, ValidDeps, Fits, RootAt;
    forall q ensures Items(t.unsel, q) <= 1 { SelectKeepsItems(w, list, s, t, awp, pkgonly, order, q); }
    forall i | 1 <= i < |t.projects| ensures Items(t.unsel, RootAt(t.projects, i)) == 0 {
      SelectKeepsApart(w, list, s, t, awp, pkgonly, order, i);
      RootAtPush(s.projects, x, i);
    }
    assert Once(s);
    hide Roster;
    forall i | 1 <= i < |s.projects| ensures RootAt(s.projects, i) != awp.a.id.root { TakenOnce(s, list, awp.a.id, awp.pl, i); }
    SelectedOncePush(s, t, x);
  }

  lemma SelectedOncePush(s: Core, t: Core, x: Selected)
    requires SelectedOnce(s) && t.projects == s.projects + [x]
    requires forall i :: 1 <= i < |s.projects| ==> RootAt(s.projects, i) != x.a.a.id.root
    ensures SelectedOnce(t)
  {
    hide RootAt;
    forall i, j | 1 <= i < j < |t.projects| ensures RootAt(t.projects, i) != RootAt(t.projects, j) {
      RootAtPush(s.projects, x, i);
      RootAtPush(s.projects, x, j);
    }
  }

  lemma RosterSelect(w: World, list: Lists, s: Core, t: Core, awp: AtomWithPackages, pkgonly: bool, order: seq<ProjectRoot>)
    requires Uniform(w, list) && Selecting(w, s, t, awp, pkgonly, order) && Roster(w, list, s) && Fits(list, s, awp.a.id, awp.pl)
    ensures Roster(w, list, t)
  {
    hide Uniform, Selecting, Wanted, Sourced, Listed, Once, Due;
    SelectKeepsOnce(w, list, s, t, awp, pkgonly, order);
    SelectKeepsListed(w, list, s, t, awp, pkgonly, order);
    SelectKeepsSourced(w, s, t, awp, pkgonly, order);
    SelectKeepsWanted(w, s, t, awp, pkgonly, order);
  }

  // ------------------------------------------------------------------ unselecting

  lemma RosterOnlyWork(w: World, list: Lists, s: Core, t: Core, queue: seq<Bmi>, order: seq<ProjectRoot>, q: ProjectRoot)
    requires Uniform(w, list) && Unselecting(w, s, t, queue, order) && Roster(w, list, s)
    requires q in DepsOf(w, s.projects[|s.projects| - 1]) && q != w.rootName && |On(s.deps, q)| == 1
    ensures OnlyWork(s.unsel, q, DepsOf(w, s.projects[|s.projects| - 1])[q])
  {
    var x := s.projects[|s.projects| - 1];
    var d := DepsOf(w, x)[q];
    UniformEntry(w, list, x);
    DepsOfValid(w, x);
    assert ValidDep(w, q, d);
    UnselectAllEdges(w, s, t, queue, order);
    assert On(s.deps, q) == On(t.deps, q) + [Edge(x.a.a, DepsOf(w, x), q)];
    hide Unselecting, Uniform, Grounded;
    if Items(s.unsel, q) != 0 {
      ItemsAre(s.unsel, q);
      var b :| b in s.unsel && b.id.root == q;
      assert Known(s, b.id) && b.id == d.ident && b.pl == d.pl;
      assert SameWork(b, d.ident, d.pl);
      assert HasWork(s.unsel, d.ident, d.pl);
    }
  }

  lemma RosterIsTidy(w: World, list: Lists, s: Core, t: Core, queue: seq<Bmi>, order: seq<ProjectRoot>)
    requires Uniform(w, list) && Unselecting(w, s, t, queue, order) && Roster(w, list, s)
    ensures Tidy(w, s)
  {
    assert |s.projects| > 1;
    hide Uniform, Unselecting, Roster, OnlyWork;
    var deps := DepsOf(w, s.projects[|s.projects| - 1]);
    forall q | q in deps && q != w.rootName && |On(s.deps, q)| == 1 ensures OnlyWork(s.unsel, q, deps[q]) {
      RosterOnlyWork(w, list, s, t, queue, order, q);
    }
  }

  lemma UnselectKeepsListed(w: World, list: Lists, s: Core, t: Core, queue: seq<Bmi>, order: seq<ProjectRoot>)
    requires Unselecting(w, s, t, queue, order) && Listed(list, s)
    ensures Listed(list, t)
  {
    UnselectAllEdges(w, s, t, queue, order);
    hide Unselecting;
    forall b | b in t.unsel ensures b.pl == list(b.id.root) { UnselectedQueue(w, s, t, queue, order, b); }
    forall i | 1 <= i < |t.projects| ensures t.projects[i].a.pl == list(t.projects[i].a.a.id.root) { assert t.projects[i] == s.projects[i]; }
  }

  lemma UnselectKeepsItems(w: World, s: Core, t: Core, queue: seq<Bmi>, order: seq<ProjectRoot>, q: ProjectRoot)
    requires Unselecting(w, s, t, queue, order) && Wanted(w, s)
    ensures var x := s.projects[|s.projects| - 1];
            if q == x.a.a.id.root then Items(t.unsel, q) == Items(s.unsel, q) + 1 else Items(t.unsel, q) <= Items(s.unsel, q)
  {
    UnselectedItems(w, s, t, queue, order, q);
    UnselectWants(w, s, t, queue, order);
  }

  lemma UnselectKeepsOnce(w: World, s: Core, t: Core, queue: seq<Bmi>, order: seq<ProjectRoot>)
    requires Unselecting(w, s, t, queue, order) && Wanted(w, s) && Once(s)
    ensures Once(t)
    ensures Items(t.unsel, s.projects[|s.projects| - 1].a.a.id.root) == 1
  {
    UnselectWants(w, s, t, queue, order);
    var n, x := |t.projects|, s.projects[|s.projects| - 1];
    assert x.a.a.id.root == RootAt(s.projects, n);
    hide Unselecting, Wanted, Grounded, Replayed, RootAt;
    UnselectKeepsItems(w, s, t, queue, order, x.a.a.id.root);
    forall q ensures Items(t.unsel, q) <= 1 { UnselectKeepsItems(w, s, t, queue, order, q); }
    forall i | 1 <= i < n ensures Items(t.unsel, RootAt(t.projects, i)) == 0 {
      RootAtPush(t.projects, x, i);
      UnselectKeepsItems(w, s, t, queue, order, RootAt(t.projects, i));
    }
    forall i, j | 1 <= i < j < n ensures RootAt(t.projects, i) != RootAt(t.projects, j) {
      RootAtPush(t.projects, x, i);
      RootAtPush(t.projects, x, j);
    }
  }

  lemma RosterUnselect(w: World, list: Lists, s: Core, t: Core, queue: seq<Bmi>, order: seq<ProjectRoot>)
    requires Uniform(w, list) && Unselecting(w, s, t, queue, order) && Roster(w, list, s)
    ensures Roster(w, list, t)
    ensures Items(t.unsel, s.projects[|s.projects| - 1].a.a.id.root) == 1
  {
    hide Uniform, Unselecting, Sourced, Listed, Once, Tidy;
    RosterIsTidy(w, list, s, t, queue, order);
    UnselectKeepsWanted(w, s, t, queue, order);
    UnselectKeepsSourced(w, s, t, queue, order);
    UnselectKeepsListed(w, list, s, t, queue, order);
    UnselectKeepsOnce(w, s, t, queue, order);
  }

  // ------------------------------------------------------------------ whole runs

  ghost predicate AllRoster(w: World, list: Lists, ss: seq<Core>) {
    forall k :: 0 <= k < |ss| ==> Roster(w, list, ss[k])
  }

  lemma DueFits(w: World, list: Lists, s: Core, id: ProjectIdentifier, pl: seq<Package>)
    requires Roster(w, list, s) && Due(s, id, pl)
    ensures Fits(list, s, id, pl)
  {
  }

  function RootSeq(w: World, order: seq<ProjectRoot>): seq<Bmi>
    requires Elems(order) <= w.rootDeps.Keys
  {
    if order == [] then []
    else
      var init, r := order[..|order| - 1], order[|order| - 1];
      assert r in Elems(order) && Elems(init) <= Elems(order);
      RootSeq(w, init) + [Bmi(w.rootDeps[r].ident, w.rootDeps[r].pl, None, true)]
  }

  lemma {:induction false} RootSeqIs(w: World, order: seq<ProjectRoot>, q: ProjectRoot)
    requires ValidWorld(w) && NoDup(order) && Elems(order) <= w.rootDeps.Keys
    ensures multiset(RootSeq(w, order)) == RootWork(w, order)
    ensures Items(RootSeq(w, order), q) <= if q in order then 1 else 0
  {
    if order != [] {
      var init, r := order[..|order| - 1], order[|order| - 1];
      assert r in Elems(order) && Elems(init) <= Elems(order) && order == init + [r];
      assert r !in init && ValidDep(w, r, w.rootDeps[r]);
      RootSeqIs(w, init, q);
      var b := Bmi(w.rootDeps[r].ident, w.rootDeps[r].pl, None, true);
      hide ValidWorld;
      ItemsConcat(RootSeq(w, init), [b], q);
      ItemsOne(b, q);
    }
  }

  lemma StartRoster(w: World, list: Lists, s: Core, order: seq<ProjectRoot>)
    requires ValidWorld(w) && Uniform(w, list) && Start(w, s, order)
    ensures Roster(w, list, s)
  {
    StartSourced(w, s);
    forall q ensures Items(s.unsel, q) <= 1 {
      RootSeqIs(w, order, q);
      ItemsPermute(s.unsel, RootSeq(w, order), q);
    }
    forall b | b in s.unsel ensures b.pl == list(b.id.root) {
      RootWorkIs(w, order, b);
      InInMultiset(s.unsel, b);
    }
  }

  lemma RosterStep(w: World, list: Lists, s: Core, t: Core)
    requires ValidWorld(w) && Uniform(w, list) && Inv(w, s) && Roster(w, list, s) && (Picks(w, s, t) || Backs(w, s, t))
    ensures Roster(w, list, t)
  {
    hide Uniform, Roster, Fits, Due;
    if Picks(w, s, t) {
      var awp, pkgonly, order :|
        Request(w, s, awp, pkgonly) && CheckOk(w, s, awp, pkgonly) && Selects(w, s, t, awp, pkgonly, order) && Due(s, awp.a.id, awp.pl);
      DueFits(w, list, s, awp.a.id, awp.pl);
      RosterSelect(w, list, s, t, awp, pkgonly, order);
    } else {
      var queue, order :| Unselects(w, s, t, queue, order);
      RosterUnselect(w, list, s, t, queue, order);
    }
  }

  lemma {:induction false} RosterRun(w: World, list: Lists, ss: seq<Core>)
    requires ValidWorld(w) && Uniform(w, list) && Scheduled(w, ss)
    ensures AllRoster(w, list, ss)
  {
    hide Roster, Uniform, ValidWorld, Inv, Start, Scheduled, Follows, Picks, Backs;
    var n := |ss| - 1;
    if n <= 0 {
      FirstState(w, ss);
      var order :| Start(w, ss[0], order);
      StartRoster(w, list, ss[0], order);
    } else {
      LastState(w, ss);
      RosterRun(w, list, ss[..n]);
      RosterStep(w, list, ss[..n][n - 1], ss[n]);
      forall k | 0 <= k <= n ensures Roster(w, list, ss[k]) { if k < n { assert ss[..n][k] == ss[k]; } }
    }
  }

  /** In such a world everything queued or selected is wanted, and under the one identifier its root
      is known by; no root is selected twice. */
  lemma SteadyWorldsStayWanted(w: World, s: Core)
    requires ValidWorld(w) && Steady(w) && Arises(w, s)
    ensures Wanted(w, s) && Sourced(s) && SelectedOnce(s)
  {
    var list :| Uniform(w, list);
    var ss :| Scheduled(w, ss) && ss[|ss| - 1] == s;
    RosterRun(w, list, ss);
    hide Wanted, Sourced, SelectedOnce;
    assert Roster(w, list, s);
  }

  /** And whatever is due has a depender: the list of dependers is never empty where the search
      indexes it. */
  lemma SteadyWorldsHaveDependers(w: World, s: Core, id: ProjectIdentifier, pl: seq<Package>)
    requires ValidWorld(w) && Steady(w) && Arises(w, s) && Due(s, id, pl)
    ensures On(s.deps, id.root) != []
  {
    SteadyWorldsStayWanted(w, s);
  }
}
