/** Where the sources of one project disagree (solver.checkIdentMatches). */
module SourceConflicts {
  import opened Constraints
  import opened Identifiers
  import opened Bridge
  import opened SolverCore
  import opened SolverInvariants
  import opened SolverSteps

  /** The identifier the root is known by absorbs all others: same source, or none given. */
  ghost predicate Agree(es: seq<Dependency>) {
    forall k :: 0 <= k < |es| ==> es[0].dep.ident.Equiv(es[k].dep.ident)
  }

  ghost predicate SourcesAgree(s: Core) {
    forall r :: Agree(On(s.deps, r))
  }

  lemma AgreePrefix(es: seq<Dependency>, more: seq<Dependency>)
    requires Agree(es + more)
    ensures Agree(es)
  {
    forall k | 0 <= k < |es| ensures es[0].dep.ident.Equiv(es[k].dep.ident) {
      assert (es + more)[0] == es[0] && (es + more)[k] == es[k];
    }
  }

  lemma AgreePush(es: seq<Dependency>, e: Dependency)
    requires Agree(es) && (es != [] ==> es[0].dep.ident.Equiv(e.dep.ident))
    ensures Agree(es + [e])
  {
  }

  lemma SelectKeepsSource(w: World, s: Core, t: Core, awp: AtomWithPackages, pkgonly: bool, order: seq<ProjectRoot>, r: ProjectRoot)
    requires Selecting(w, s, t, awp, pkgonly, order) && Agree(On(s.deps, r))
    ensures Agree(On(t.deps, r))
  {
    PushedOk(w, s, t, awp, pkgonly, order);
    SelectEdges(w, s, t, awp, pkgonly, order, r);
    var x := Pushed(w, awp, pkgonly);
    if r in DepsOf(w, x) && r != w.rootName {
      CheckedSource(w, s, awp, pkgonly, r);
      AgreePush(On(s.deps, r), Edge(x.a.a, DepsOf(w, x), r));
    }
  }

  lemma SelectKeepsSources(w: World, s: Core, t: Core, awp: AtomWithPackages, pkgonly: bool, order: seq<ProjectRoot>)
    requires Selecting(w, s, t, awp, pkgonly, order) && SourcesAgree(s)
    ensures SourcesAgree(t)
  {
    hide Selecting, Agree;
    forall r ensures Agree(On(t.deps, r)) { SelectKeepsSource(w, s, t, awp, pkgonly, order, r); }
  }

  lemma CheckedSource(w: World, s: Core, awp: AtomWithPackages, pkgonly: bool, r: ProjectRoot)
    requires ValidWorld(w) && CheckOk(w, s, awp, pkgonly) && r in Imports(w, awp.a, awp.pl).deps
    ensures On(s.deps, r) != [] ==> On(s.deps, r)[0].dep.ident.Equiv(Imports(w, awp.a, awp.pl).deps[r].ident)
  {
    CheckedDep(w, s, awp, pkgonly, r);
    hide ValidWorld, CheckOk, Imports, Composite, PackagesOk;
  }

  lemma UnselectKeepsSources(w: World, s: Core, t: Core, queue: seq<Bmi>, order: seq<ProjectRoot>)
    requires Unselecting(w, s, t, queue, order) && SourcesAgree(s)
    ensures SourcesAgree(t)
  {
    UnselectAllEdges(w, s, t, queue, order);
    forall r ensures Agree(On(t.deps, r)) {
      assert Agree(On(s.deps, r));
      AgreePrefix(On(t.deps, r), Contribution(w, s.projects[|s.projects| - 1], r));
    }
  }

  lemma StartSources(w: World, s: Core)
    requires ValidWorld(w) && exists order :: Start(w, s, order)
    ensures SourcesAgree(s)
  {
    var order :| Start(w, s, order);
  }

  lemma StepKeepsSources(w: World, s: Core, t: Core)
    requires ValidWorld(w) && Inv(w, s) && SourcesAgree(s) && Step(w, s, t)
    ensures SourcesAgree(t)
  {
    hide SourcesAgree;
    if awp, pkgonly, order :| Request(w, s, awp, pkgonly) && CheckOk(w, s, awp, pkgonly) && Selects(w, s, t, awp, pkgonly, order) {
      SelectKeepsSources(w, s, t, awp, pkgonly, order);
    } else {
      var queue, order :| Unselects(w, s, t, queue, order);
      UnselectKeepsSources(w, s, t, queue, order);
    }
  }

  lemma {:induction false} RunKeepsSources(w: World, ss: seq<Core>)
    requires ValidWorld(w) && Run(w, ss)
    ensures SourcesAgree(ss[|ss| - 1])
  {
    hide Inv, ValidWorld, Start, Step, SourcesAgree;
    assert Link(w, ss, |ss| - 1);
    if |ss| == 1 {
      StartSources(w, ss[0]);
    } else {
      RunPrefix(w, ss);
      RunKeepsSources(w, ss[..|ss| - 1]);
      RunInv(w, ss[..|ss| - 1]);
      StepKeepsSources(w, ss[|ss| - 2], ss[|ss| - 1]);
    }
  }

  /** In every reachable state all dependencies on a root agree about where it comes from. */
  lemma ReachableSourcesAgree(w: World, s: Core, r: ProjectRoot, e: Dependency, f: Dependency)
    requires ValidWorld(w) && Reachable(w, s) && e in On(s.deps, r) && f in On(s.deps, r)
    ensures On(s.deps, r)[0].dep.ident.Equiv(e.dep.ident)
    ensures e.dep.ident.source == f.dep.ident.source || e.dep.ident.source == "" || f.dep.ident.source == ""
  {
    var ss :| Run(w, ss) && ss[|ss| - 1] == s;
    RunKeepsSources(w, ss);
    assert Agree(On(s.deps, r));
  }
}
