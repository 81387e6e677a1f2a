/** What holds in every state the solver can reach, and where its own comments promise more than
    the code keeps. */
module SolverTheorems {
  import opened Constraints
  import opened Identifiers
  import opened Bridge
  import opened SolverCore
  import opened SolverInvariants
  import opened SolverSteps
  import opened Solutions

  // ------------------------------------------------------------------ safety

  /** All selected entries of the project the edge points to are at a version it allows. */
  ghost predicate Honoured(w: World, s: Core, e: Dependency) {
    forall i :: 0 <= i < |s.projects| && s.projects[i].a.a.id.root == e.dep.ident.root ==>
      Matches(w.lib, e.dep.constraint, s.projects[i].a.a.v)
  }

  ghost predicate AllHonoured(w: World, s: Core) {
    forall r, e :: e in On(s.deps, r) ==> Honoured(w, s, e)
  }

  lemma EdgeTarget(w: World, s: Core, r: ProjectRoot, e: Dependency)
    requires ValidWorld(w) && Replayed(w, s) && e in On(s.deps, r)
    ensures e.dep.ident.root == r != w.rootName && e in Replay(w, s.projects, r)
  {
    ReplayValid(w, s.projects, r);
    assert On(s.deps, r) == Replay(w, s.projects, r);
    assert ValidDep(w, r, e.dep);
  }

  lemma EdgeIsHonoured(w: World, s: Core, r: ProjectRoot, e: Dependency)
    requires ValidWorld(w) && Inv(w, s) && e in On(s.deps, r)
    ensures Honoured(w, s, e)
  {
    EdgeTarget(w, s, r, e);
    hide ValidWorld, DepsOf, Imports, Covered, CompositesOk, QueueOk, RootSafe;
    var k :| 0 <= k < |On(s.deps, r)| && On(s.deps, r)[k] == e;
    forall i | 0 <= i < |s.projects| && s.projects[i].a.a.id.root == r
      ensures Matches(w.lib, e.dep.constraint, s.projects[i].a.a.v)
    {
      assert FirstAt(s.projects, i);
    }
  }

  /** In a reachable state every selected entry is at a version that every recorded dependency
      on its project allows. */
  lemma EdgesAreHonoured(w: World, s: Core)
    requires ValidWorld(w) && Reachable(w, s)
    ensures AllHonoured(w, s)
  {
    ReachableInv(w, s);
    hide Inv, ValidWorld, Reachable, Honoured;
    forall r, e | e in On(s.deps, r) ensures Honoured(w, s, e) { EdgeIsHonoured(w, s, r, e); }
  }

  /** What a selected project imports of the root project is in the root's own tree, without error, and
      the root's revision is one it allows. */
  lemma RootIsHonoured(w: World, s: Core, i: nat)
    requires ValidWorld(w) && Reachable(w, s) && 1 <= i < |s.projects| && w.rootName in DepsOf(w, s.projects[i])
    ensures var d := DepsOf(w, s.projects[i])[w.rootName];
            && Matches(w.lib, d.constraint, Revision(w.rootRevision))
            && forall p <- d.pl :: p in w.rootTree && w.rootTree[p].Loaded?
  {
    ReachableInv(w, s);
    assert RootSafe(w, s);
    hide Inv, ValidWorld, Reachable, DepsOf, Matches;
  }

  // ------------------------------------------------------------------ composite constraints

  /** The folded constraint on a root is satisfiable; and if it is a revision, every dependency
      on the root carries this revision or no constraint at all. */
  lemma CompositesNeverCollapse(w: World, s: Core, r: ProjectRoot)
    requires ValidWorld(w) && Reachable(w, s)
    ensures Composite(w, s.deps, r) != Nothing
    ensures IsRevision(Composite(w, s.deps, r)) ==>
              forall e <- On(s.deps, r) :: e.dep.constraint == Any || e.dep.constraint == Composite(w, s.deps, r)
  {
    ReachableInv(w, s);
    EdgesManifestLevel(w, s, r);
    var es := On(s.deps, r);
    var cs := Conditions(es);
    if IsRevision(Fold(w.lib, cs)) {
      RevisionFoldIsUnanimous(w.lib, cs, Fold(w.lib, cs).v.rev);
      forall e | e in es ensures e.dep.constraint == Any || e.dep.constraint == Fold(w.lib, cs) {
        var i :| 0 <= i < |es| && es[i] == e;
        assert cs[i] in cs;
      }
    }
  }

  lemma ConditionsAre(es: seq<Dependency>, c: Constraint)
    ensures c in Conditions(es) <==> exists e :: e in es && e.dep.constraint == c
  {
    var cs := Conditions(es);
    if c in cs {
      var i :| 0 <= i < |cs| && cs[i] == c;
      assert es[i] in es;
    }
    if e :| e in es && e.dep.constraint == c {
      var i :| 0 <= i < |es| && es[i] == e;
      assert cs[i] == c;
    }
  }

  /** The composite constraint on a root rejects exactly the versions that some dependency on it
      rejects, if versions carry no revision of their own and the semver library loses none. */
  lemma CompositeIsConjunction(w: World, s: Core, r: ProjectRoot, v: Version)
    requires ValidWorld(w) && Reachable(w, s) && Lawful(w.lib) && !v.Pair?
    ensures Matches(w.lib, Composite(w, s.deps, r), v) <==> forall e <- On(s.deps, r) :: Matches(w.lib, e.dep.constraint, v)
  {
    ReachableInv(w, s);
    EdgesManifestLevel(w, s, r);
    hide Inv, ValidWorld, Reachable, Matches, Fold;
    UnpairedFoldIsConjunction(w.lib, Conditions(On(s.deps, r)), v);
    forall c { ConditionsAre(On(s.deps, r), c); }
  }

  // ------------------------------------------------------------------ undoing a selection

  /** unselectLast takes back what selectAtom did: the stack, and the edges on every root,
      although it recomputes them from the extended package list. */
  lemma UnselectUndoesSelect(w: World, s: Core, t: Core, u: Core, awp: AtomWithPackages, pkgonly: bool,
                             order: seq<ProjectRoot>, queue: seq<Bmi>, back: seq<ProjectRoot>)
    requires Selecting(w, s, t, awp, pkgonly, order) && Unselects(w, t, u, queue, back)
    ensures u.projects == s.projects && forall r :: On(u.deps, r) == On(s.deps, r)
  {
    SelectInv(w, s, t, awp, pkgonly, order);
    assert t.projects[..|t.projects| - 1] == s.projects;
    UnselectAllEdges(w, t, u, queue, back);
    forall r ensures On(u.deps, r) == On(s.deps, r) {
      assert On(u.deps, r) == Replay(w, u.projects, r) && On(s.deps, r) == Replay(w, s.projects, r);
    }
  }
}
