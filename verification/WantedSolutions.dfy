/** What a solution is like if no stale work arose: nothing in it is needless, and no root is there
    twice. */
module WantedSolutions {
  import opened Constraints
  import opened Identifiers
  import opened Bridge
  import opened SolverCore
  import opened SolverInvariants
  import opened SolverSteps
  import opened SolverRuns
  import opened Solutions
  import opened WantedWork
  import opened UniformWorlds

  /** Selected packages of a bring a dependency on r with them. */
  ghost predicate Asks(w: World, projs: Projects, a: Atom, r: ProjectRoot) {
    a in projs && exists pl :: Elems(pl) <= projs[a] && Imports(w, a, pl).Imported? && r in Imports(w, a, pl).deps
  }

  /** From the root project to the last atom, each one a dependency of the one before. */
  ghost predicate Leads(w: World, projs: Projects, c: seq<Atom>) {
    && c != [] && c[0] in projs && c[0].id.root in w.rootDeps
    && forall i :: 0 <= i < |c| - 1 ==> LeadsOn(w, projs, c, i)
  }

  ghost predicate LeadsOn(w: World, projs: Projects, c: seq<Atom>, i: nat)
    requires i + 1 < |c|
  {
    c[i + 1] in projs && Asks(w, projs, c[i], c[i + 1].id.root)
  }

  ghost predicate Justified(w: World, projs: Projects, a: Atom) {
    exists c :: Leads(w, projs, c) && c[|c| - 1] == a
  }

  ghost predicate NothingNeedless(w: World, projs: Projects) {
    forall a <- projs :: Justified(w, projs, a)
  }

  ghost predicate OneEach(projs: Projects) {
    forall a, b :: a in projs && b in projs && a.id.root == b.id.root ==> a == b
  }

  lemma {:induction false} SomeContributes(w: World, projects: seq<Selected>, r: ProjectRoot) returns (i: nat)
    requires Replay(w, projects, r) != []
    ensures i < |projects| && r in DepsOf(w, projects[i])
  {
    var init := projects[..|projects| - 1];
    if Replay(w, init, r) != [] {
      i := SomeContributes(w, init, r);
    } else {
      i := |init|;
    }
  }

  lemma JustifiedFirst(w: World, projs: Projects, a: Atom)
    requires a in projs && a.id.root in w.rootDeps
    ensures Justified(w, projs, a)
  {
    assert Leads(w, projs, [a]) && [a][|[a]| - 1] == a;
  }

  lemma JustifiedNext(w: World, projs: Projects, a: Atom, b: Atom)
    requires Justified(w, projs, a) && b in projs && Asks(w, projs, a, b.id.root)
    ensures Justified(w, projs, b)
  {
    var c :| Leads(w, projs, c) && c[|c| - 1] == a;
    hide Asks;
    var d := c + [b];
    forall i | 0 <= i < |d| - 1 ensures LeadsOn(w, projs, d, i) {
      if i < |c| - 1 { assert LeadsOn(w, projs, c, i); }
    }
    assert d[0] == c[0] && d[|d| - 1] == b;
    assert Leads(w, projs, d);
  }

  lemma EntryAsks(w: World, s: Core, projs: Projects, i: nat, r: ProjectRoot)
    requires Finished(w, s, projs) && 1 <= i < |s.projects| && r in DepsOf(w, s.projects[i])
    ensures Asks(w, projs, s.projects[i].a.a, r)
  {
    AtomIsSelected(w, s, projs, i);
    assert EntryOk(w, s.projects[i]);
  }

  lemma {:induction false} GroundedIsJustified(w: World, s: Core, projs: Projects, i: nat)
    requires Finished(w, s, projs) && Grounded(w, s.projects) && 1 <= i < |s.projects|
    ensures Justified(w, projs, s.projects[i].a.a)
  {
    var a := s.projects[i].a.a;
    assert Replay(w, s.projects[..i], a.id.root) != [];
    var j := SomeContributes(w, s.projects[..i], a.id.root);
    assert s.projects[..i][j] == s.projects[j];
    AtomIsSelected(w, s, projs, i);
    if j == 0 {
      assert s.projects[0] == Selected(AtomWithPackages(RootAtom(w), w.rootList), true);
      JustifiedFirst(w, projs, a);
    } else {
      GroundedIsJustified(w, s, projs, j);
      EntryAsks(w, s, projs, j, a.id.root);
      JustifiedNext(w, projs, s.projects[j].a.a, a);
    }
  }

  /** A solution reached without stale work has nothing needless in it. */
  lemma WantedIsJustified(w: World, s: Core, projs: Projects)
    requires Finished(w, s, projs) && Wanted(w, s)
    ensures NothingNeedless(w, projs)
  {
    hide Finished, Justified;
    forall a | a in projs ensures Justified(w, projs, a) {
      var i := AtomComesFrom(w, s, projs, a);
      GroundedIsJustified(w, s, projs, i);
    }
  }

  /** And no two sources of one root. */
  lemma SourcedIsOneEach(w: World, s: Core, projs: Projects)
    requires Finished(w, s, projs) && Sourced(s)
    ensures OneEach(projs)
  {
    forall a, b | a in projs && b in projs && a.id.root == b.id.root ensures a == b {
      var i := AtomComesFrom(w, s, projs, a);
      var j := AtomComesFrom(w, s, projs, b);
      assert Known(s, s.projects[i].a.a.id) && Known(s, s.projects[j].a.a.id);
      OneVersionEach(w, s, i, j);
    }
  }

  /** A run without stale work ends in a solution with neither. */
  lemma WantedRunsSolveWell(w: World, ss: seq<Core>)
    requires ValidWorld(w) && Scheduled(w, ss) && AllWanted(w, ss) && ss[|ss| - 1].unsel == []
    ensures var s := ss[|ss| - 1];
            s.projects != [] && NothingNeedless(w, Combined(s.projects[1..])) && OneEach(Combined(s.projects[1..]))
  {
    var s := ss[|ss| - 1];
    ScheduledIsRun(w, ss);
    RunInv(w, ss);
    WantedRunsAgree(w, ss);
    hide Inv, Wanted, Sourced, NothingNeedless, OneEach, Scheduled, ValidWorld;
    InvHasRoot(w, s);
    var projs := Combined(s.projects[1..]);
    WantedIsJustified(w, s, projs);
    SourcedIsOneEach(w, s, projs);
  }

  lemma InvHasRoot(w: World, s: Core)
    requires Inv(w, s)
    ensures s.projects != []
  {
  }

  /** In a steady world every solution is so. */
  lemma SteadyWorldsSolveWell(w: World, s: Core)
    requires ValidWorld(w) && Steady(w) && Arises(w, s) && s.unsel == []
    ensures s.projects != [] && NothingNeedless(w, Combined(s.projects[1..])) && OneEach(Combined(s.projects[1..]))
  {
    ArisingInv(w, s);
    SteadyWorldsStayWanted(w, s);
    hide Inv, Wanted, Sourced, NothingNeedless, OneEach, Arises, ValidWorld, Steady, SelectedOnce;
    InvHasRoot(w, s);
    var projs := Combined(s.projects[1..]);
    WantedIsJustified(w, s, projs);
    SourcedIsOneEach(w, s, projs);
  }
}
