/** What a returned solution means, independently of how the search found it. */
module Solutions {
  import opened Constraints
  import opened Identifiers
  import opened Bridge
  import opened SolverCore
  import opened SolverInvariants
  import opened SolverSteps

  type Projects = map<Atom, set<Package>>

  /** The final loop of solve: selected packages, by atom. */
  function Combined(projects: seq<Selected>): Projects {
    if projects == [] then map[]
    else
      var projs, x := Combined(projects[..|projects| - 1]), projects[|projects| - 1].a;
      projs[x.a := (if x.a in projs then projs[x.a] else {}) + Elems(x.pl)]
  }

  ghost predicate Provided(projs: Projects, r: ProjectRoot, p: Package) {
    exists a :: a in projs && a.id.root == r && p in projs[a]
  }

  /** Someone at an allowed version provides every package the dependency names. */
  ghost predicate Met(w: World, projs: Projects, r: ProjectRoot, d: CompleteDep) {
    && (exists a :: a in projs && a.id.root == r && Satisfied(w, a, d))
    && forall p <- d.pl :: Provided(projs, r, p)
  }

  /** Every dependency that these packages of a bring with them is met; one on the root project
      is met by the root. */
  ghost predicate Supported(w: World, projs: Projects, a: Atom, pl: seq<Package>) {
    && Imports(w, a, pl).Imported?
    && var deps := Imports(w, a, pl).deps;
    forall r <- deps ::
      if r == w.rootName then Satisfied(w, RootAtom(w), deps[r]) else Met(w, projs, r, deps[r])
  }

  ghost predicate Solves(w: World, projs: Projects) {
    && (forall r <- w.rootDeps :: Met(w, projs, r, w.rootDeps[r]))
    && (forall a, b :: a in projs && b in projs && a.id.root == b.id.root ==> a.v == b.v)
    && (forall a <- projs :: a.id.root in w.roots && a.id.root != w.rootName)
    && (forall a, p :: a in projs && p in projs[a] ==>
          exists pl :: p in pl && Elems(pl) <= projs[a] && Supported(w, projs, a, pl))
  }

  // ------------------------------------------------------------------ reading the stack

  lemma {:induction false} CombinedIs(projects: seq<Selected>, a: Atom)
    ensures a in Combined(projects) <==> exists i :: 0 <= i < |projects| && projects[i].a.a == a
    ensures a in Combined(projects) ==>
              forall p :: p in Combined(projects)[a] <==> exists i :: 0 <= i < |projects| && projects[i].a.a == a && p in projects[i].a.pl
  {
    if projects != [] {
      var init, x := projects[..|projects| - 1], projects[|projects| - 1].a;
      CombinedIs(init, a);
      assert forall i :: 0 <= i < |init| ==> projects[i] == init[i];
      assert projects[|init|].a == x;
      if x.a != a {
        assert a in Combined(projects) <==> a in Combined(init);
      }
    }
  }

  lemma {:induction false} ReplayHas(w: World, projects: seq<Selected>, i: nat, r: ProjectRoot)
    requires i < |projects| && r in DepsOf(w, projects[i]) && r != w.rootName
    ensures Edge(projects[i].a.a, DepsOf(w, projects[i]), r) in Replay(w, projects, r)
  {
    if i < |projects| - 1 {
      ReplayHas(w, projects[..|projects| - 1], i, r);
    }
  }

  lemma {:induction false} BaseIsSelected(projects: seq<Selected>, r: ProjectRoot)
    requires Base(projects, r).Some?
    ensures exists i :: 0 <= i < |projects| && projects[i].a == Base(projects, r).value
  {
    var init := projects[..|projects| - 1];
    if Base(init, r).Some? {
      BaseIsSelected(init, r);
      var i :| 0 <= i < |init| && init[i].a == Base(init, r).value;
      assert projects[i].a == Base(projects, r).value;
    }
  }

  /** A finished state: nothing is left to select. */
  ghost predicate Finished(w: World, s: Core, projs: Projects) {
    Inv(w, s) && s.unsel == [] && projs == Combined(s.projects[1..])
  }

  lemma AtomIsSelected(w: World, s: Core, projs: Projects, i: nat)
    requires Finished(w, s, projs) && 1 <= i < |s.projects|
    ensures s.projects[i].a.a in projs && Elems(s.projects[i].a.pl) <= projs[s.projects[i].a.a]
  {
    var rest := s.projects[1..];
    CombinedIs(rest, s.projects[i].a.a);
    assert rest[i - 1] == s.projects[i];
  }

  lemma NeededIsProvided(w: World, s: Core, projs: Projects, r: ProjectRoot, p: Package)
    requires Finished(w, s, projs) && r != w.rootName && Needed(On(s.deps, r), p)
    ensures Provided(projs, r, p) && Base(s.projects, r).Some?
  {
    assert SelectedPackage(s.projects, r, p);
    var i :| 0 <= i < |s.projects| && s.projects[i].a.a.id.root == r && p in s.projects[i].a.pl;
    AtomIsSelected(w, s, projs, i);
    assert p in Elems(s.projects[i].a.pl);
    assert s.projects[i] in s.projects;
  }

  lemma EdgeIsMet(w: World, s: Core, projs: Projects, i: nat, r: ProjectRoot)
    requires ValidWorld(w) && Finished(w, s, projs)
    requires i < |s.projects| && r in DepsOf(w, s.projects[i]) && r != w.rootName
    ensures var d := DepsOf(w, s.projects[i])[r];
            Met(w, projs, r, d)
  {
    var e := Edge(s.projects[i].a.a, DepsOf(w, s.projects[i]), r);
    ReplayHas(w, s.projects, i, r);
    assert On(s.deps, r) == Replay(w, s.projects, r);
    var k :| 0 <= k < |On(s.deps, r)| && On(s.deps, r)[k] == e;
    forall p | p in e.dep.pl ensures Provided(projs, r, p) && Base(s.projects, r).Some? {
      assert Needed(On(s.deps, r), p);
      NeededIsProvided(w, s, projs, r, p);
    }
    DepsOfValid(w, s.projects[i]);
    assert ValidDep(w, r, e.dep) && e.dep.pl[0] in e.dep.pl;
    BaseIsSelected(s.projects, r);
    var b :| 0 <= b < |s.projects| && s.projects[b].a == Base(s.projects, r).value;
    AtomIsSelected(w, s, projs, b);
  }

  lemma EntryIsSupported(w: World, s: Core, projs: Projects, i: nat)
    requires ValidWorld(w) && Finished(w, s, projs) && 1 <= i < |s.projects|
    ensures Supported(w, projs, s.projects[i].a.a, s.projects[i].a.pl)
  {
    var x := s.projects[i];
    assert EntryOk(w, x);
    var deps := Imports(w, x.a.a, x.a.pl).deps;
    assert DepsOf(w, x) == deps;
    forall r | r in deps && r != w.rootName {
      EdgeIsMet(w, s, projs, i, r);
    }
  }

  lemma OneVersionEach(w: World, s: Core, i: nat, j: nat)
    requires StackOk(w, s.projects) && i < |s.projects| && j < |s.projects|
    requires s.projects[i].a.a.id.root == s.projects[j].a.a.id.root
    ensures s.projects[i].a.a.v == s.projects[j].a.a.v
  {
    assert FirstAt(s.projects, i) && FirstAt(s.projects, j);
  }

  lemma AtomComesFrom(w: World, s: Core, projs: Projects, a: Atom) returns (i: nat)
    requires Finished(w, s, projs) && a in projs
    ensures 1 <= i < |s.projects| && s.projects[i].a.a == a
  {
    var rest := s.projects[1..];
    CombinedIs(rest, a);
    var k :| 0 <= k < |rest| && rest[k].a.a == a;
    i := k + 1;
  }

  lemma PackageIsSupported(w: World, s: Core, projs: Projects, a: Atom, p: Package)
    requires ValidWorld(w) && Finished(w, s, projs) && a in projs && p in projs[a]
    ensures exists pl :: p in pl && Elems(pl) <= projs[a] && Supported(w, projs, a, pl)
  {
    hide Supported, ValidWorld, Safe, RootSafe, Replayed, Covered, CompositesOk, QueueOk;
    var rest := s.projects[1..];
    CombinedIs(rest, a);
    var k :| 0 <= k < |rest| && rest[k].a.a == a && p in rest[k].a.pl;
    var pl := s.projects[k + 1].a.pl;
    AtomIsSelected(w, s, projs, k + 1);
    EntryIsSupported(w, s, projs, k + 1);
    assert p in pl && Elems(pl) <= projs[a] && Supported(w, projs, a, pl);
  }

  /** Nothing re-checks the answer, and nothing has to: a reachable state without work left
      holds a solution. */
  lemma FinishedSolves(w: World, s: Core, projs: Projects)
    requires ValidWorld(w) && Finished(w, s, projs)
    ensures Solves(w, projs)
  {
    hide Supported, Met;
    forall r | r in w.rootDeps ensures Met(w, projs, r, w.rootDeps[r]) {
      assert DepsOf(w, s.projects[0]) == w.rootDeps;
      EdgeIsMet(w, s, projs, 0, r);
    }
    forall a, b | a in projs && b in projs && a.id.root == b.id.root ensures a.v == b.v {
      var i := AtomComesFrom(w, s, projs, a);
      var j := AtomComesFrom(w, s, projs, b);
      OneVersionEach(w, s, i, j);
    }
    forall a | a in projs ensures a.id.root in w.roots && a.id.root != w.rootName {
      var i := AtomComesFrom(w, s, projs, a);
      assert EntryOk(w, s.projects[i]);
    }
    forall a, p | a in projs && p in projs[a]
      ensures exists pl :: p in pl && Elems(pl) <= projs[a] && Supported(w, projs, a, pl)
    {
      PackageIsSupported(w, s, projs, a, p);
    }
  }

  lemma SolutionIsValid(w: World, s: Core)
    requires ValidWorld(w) && Reachable(w, s) && s.unsel == []
    ensures s.projects != [] && Solves(w, Combined(s.projects[1..]))
  {
    ReachableInv(w, s);
    FinishedSolves(w, s, Combined(s.projects[1..]));
  }
}
