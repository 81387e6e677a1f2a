/** Dependencies on a revision (solver.checkRevisionExists). */
module Revisions {
  import opened Constraints
  import opened Identifiers
  import opened Bridge
  import opened SolverCore
  import opened SolverInvariants
  import opened SolverSteps
  import Solutions

  /** If it demands a revision, its source has this revision. */
  predicate RevisionExists(w: World, d: CompleteDep) {
    IsRevision(d.constraint) ==> w.revisionPresent(d.ident, d.constraint.v.rev)
  }

  ghost predicate AllExist(w: World, deps: Deps) {
    forall r <- deps :: RevisionExists(w, deps[r])
  }

  /** All the solver selects on top of the root demands revisions that exist. */
  ghost predicate Checked(w: World, projects: seq<Selected>) {
    forall i :: 1 <= i < |projects| ==> AllExist(w, DepsOf(w, projects[i]))
  }

  lemma PushedExists(w: World, s: Core, t: Core, awp: AtomWithPackages, pkgonly: bool, order: seq<ProjectRoot>)
    requires Selecting(w, s, t, awp, pkgonly, order)
    ensures AllExist(w, DepsOf(w, Pushed(w, awp, pkgonly)))
  {
    PushedOk(w, s, t, awp, pkgonly, order);
    var deps := DepsOf(w, Pushed(w, awp, pkgonly));
    assert ValidWorld(w) && CheckOk(w, s, awp, pkgonly) && deps == Imports(w, awp.a, awp.pl).deps;
    hide Selecting, Selects, ValidWorld, CheckOk, DepsOf, Imports, Pushed, Composite;
    forall r | r in deps ensures RevisionExists(w, deps[r]) {
      CheckedDep(w, s, awp, pkgonly, r);
      DepChecked(w, s, deps[r]);
    }
  }

  lemma DepChecked(w: World, s: Core, d: CompleteDep)
    requires DepOk(w, s, d)
    ensures RevisionExists(w, d)
  {
    hide Composite, Satisfied, MatchesAny;
  }

  lemma SelectChecks(w: World, s: Core, t: Core, awp: AtomWithPackages, pkgonly: bool, order: seq<ProjectRoot>)
    requires Selecting(w, s, t, awp, pkgonly, order) && Checked(w, s.projects)
    ensures Checked(w, t.projects)
  {
    var x := Pushed(w, awp, pkgonly);
    PushedOk(w, s, t, awp, pkgonly, order);
    PushedExists(w, s, t, awp, pkgonly, order);
    hide Selecting, DepsOf, AllExist, Pushed;
    forall i | 1 <= i < |t.projects| ensures AllExist(w, DepsOf(w, t.projects[i])) { assert i < |s.projects| ==> t.projects[i] == s.projects[i]; }
  }

  lemma StepChecks(w: World, s: Core, t: Core)
    requires ValidWorld(w) && Inv(w, s) && Checked(w, s.projects) && Step(w, s, t)
    ensures Checked(w, t.projects)
  {
    hide Inv, ValidWorld, DepsOf, CheckOk;
    if awp, pkgonly, order :| Request(w, s, awp, pkgonly) && CheckOk(w, s, awp, pkgonly) && Selects(w, s, t, awp, pkgonly, order) {
      SelectChecks(w, s, t, awp, pkgonly, order);
    } else {
      var queue, order :| Unselects(w, s, t, queue, order);
      assert forall i :: 0 <= i < |t.projects| ==> t.projects[i] == s.projects[i];
    }
  }

  lemma {:induction false} RunChecks(w: World, ss: seq<Core>)
    requires ValidWorld(w) && Run(w, ss)
    ensures Checked(w, ss[|ss| - 1].projects)
  {
    hide Inv, ValidWorld, Step, Checked, AddEdges, MarkRoots;
    assert Link(w, ss, |ss| - 1);
    if |ss| == 1 {
      assert |ss[0].projects| == 1;
      NothingAbove(w, ss[0].projects);
    } else {
      RunPrefix(w, ss);
      RunChecks(w, ss[..|ss| - 1]);
      RunInv(w, ss[..|ss| - 1]);
      StepChecks(w, ss[|ss| - 2], ss[|ss| - 1]);
    }
  }

  lemma NothingAbove(w: World, projects: seq<Selected>)
    requires |projects| == 1
    ensures Checked(w, projects)
  {
  }

  lemma {:induction false} ReplayExists(w: World, projects: seq<Selected>, r: ProjectRoot)
    requires forall x <- projects :: AllExist(w, DepsOf(w, x))
    ensures forall e <- Replay(w, projects, r) :: RevisionExists(w, e.dep)
  {
    hide DepsOf, RevisionExists;
    if projects != [] {
      ReplayExists(w, projects[..|projects| - 1], r);
      assert projects[|projects| - 1] in projects;
    }
  }

  ghost predicate EdgesExist(w: World, s: Core) {
    forall r, e :: e in On(s.deps, r) ==> RevisionExists(w, e.dep)
  }

  lemma StackOfInv(w: World, s: Core)
    requires Inv(w, s)
    ensures s.projects != [] && s.projects[0].a.a == RootAtom(w) && Replayed(w, s)
  {
  }

  /** The root's own dependencies are not checked, all others are: every revision that a reachable state
      demands exists exactly if those that the root demands do. */
  lemma RevisionsExist(w: World, s: Core)
    requires ValidWorld(w) && Reachable(w, s)
    ensures EdgesExist(w, s) <==> AllExist(w, w.rootDeps)
  {
    ReachableInv(w, s);
    StackOfInv(w, s);
    var ss :| Run(w, ss) && ss[|ss| - 1] == s;
    RunChecks(w, ss);
    assert w.rootName !in w.rootDeps && DepsOf(w, s.projects[0]) == w.rootDeps;
    hide Inv, ValidWorld, DepsOf, RevisionExists, Replay, Run;
    if AllExist(w, w.rootDeps) {
      forall x | x in s.projects ensures AllExist(w, DepsOf(w, x)) {
        var i :| 0 <= i < |s.projects| && s.projects[i] == x;
        assert i > 0 ==> AllExist(w, DepsOf(w, s.projects[i]));
      }
      forall r { ReplayExists(w, s.projects, r); }
    }
    if EdgesExist(w, s) {
      forall r | r in w.rootDeps ensures RevisionExists(w, w.rootDeps[r]) { Solutions.ReplayHas(w, s.projects, 0, r); }
    }
  }
}
