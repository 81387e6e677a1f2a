/** Both moves keep the solver's invariants, so every run does. */
module SolverSteps {
  import opened Constraints
  import opened Identifiers
  import opened Bridge
  import opened SolverCore
  import opened SolverInvariants

  // ------------------------------------------------------------------ selecting

  /** A move of the search that check has let through. */
  ghost predicate Selecting(w: World, s: Core, t: Core, awp: AtomWithPackages, pkgonly: bool, order: seq<ProjectRoot>) {
    && ValidWorld(w) && Inv(w, s)
    && Request(w, s, awp, pkgonly) && CheckOk(w, s, awp, pkgonly)
    && Selects(w, s, t, awp, pkgonly, order)
  }

  function Pushed(w: World, awp: AtomWithPackages, pkgonly: bool): Selected {
    Selected(AtomWithPackages(awp.a, match Imports(w, awp.a, awp.pl) case Imported(pl, _) => pl case ImportFailed(_) => []), !pkgonly)
  }

  lemma PushedOk(w: World, s: Core, t: Core, awp: AtomWithPackages, pkgonly: bool, order: seq<ProjectRoot>)
    requires Selecting(w, s, t, awp, pkgonly, order)
    ensures var x := Pushed(w, awp, pkgonly);
            && t.projects == s.projects + [x] && EntryOk(w, x)
            && DepsOf(w, x) == Imports(w, awp.a, awp.pl).deps && ValidDeps(w, DepsOf(w, x))
            && Elems(awp.pl) <= Elems(x.a.pl)
  {
    ImportsOfExtended(w, awp.a, awp.pl);
  }

  lemma SelectEdges(w: World, s: Core, t: Core, awp: AtomWithPackages, pkgonly: bool, order: seq<ProjectRoot>, r: ProjectRoot)
    requires Selecting(w, s, t, awp, pkgonly, order)
    ensures On(t.deps, r) == On(s.deps, r) + Contribution(w, Pushed(w, awp, pkgonly), r)
    ensures On(t.deps, r) == Replay(w, t.projects, r)
  {
    PushedOk(w, s, t, awp, pkgonly, order);
    PushEdges(w, s.projects, Pushed(w, awp, pkgonly), s.deps, r);
  }

  lemma SelectStack(w: World, s: Core, t: Core, awp: AtomWithPackages, pkgonly: bool, order: seq<ProjectRoot>)
    requires Selecting(w, s, t, awp, pkgonly, order)
    ensures StackOk(w, t.projects)
  {
    PushedOk(w, s, t, awp, pkgonly, order);
    PushFirsts(s.projects, Pushed(w, awp, pkgonly));
    PushEntries(w, s.projects, Pushed(w, awp, pkgonly));
  }

  /** The new edges are honoured by what is selected already. */
  lemma NewEdgeSafe(w: World, s: Core, t: Core, awp: AtomWithPackages, pkgonly: bool, order: seq<ProjectRoot>, r: ProjectRoot)
    requires Selecting(w, s, t, awp, pkgonly, order)
    requires r in Imports(w, awp.a, awp.pl).deps && Base(s.projects, r).Some?
    ensures Satisfied(w, Base(s.projects, r).value.a, Imports(w, awp.a, awp.pl).deps[r])
  {
    PushedOk(w, s, t, awp, pkgonly, order);
    var d := Imports(w, awp.a, awp.pl).deps[r];
    assert DepOk(w, s, d) && d.ident.root == r;
  }

  /** The old edges on a newly selected project are honoured by it. */
  lemma NewBaseSafe(w: World, s: Core, t: Core, awp: AtomWithPackages, order: seq<ProjectRoot>, k: nat)
    requires Selecting(w, s, t, awp, false, order)
    requires k < |On(s.deps, awp.a.id.root)|
    ensures Satisfied(w, awp.a, On(s.deps, awp.a.id.root)[k].dep)
  {
    var es := On(s.deps, awp.a.id.root);
    EdgesManifestLevel(w, s, awp.a.id.root);
    FoldImpliesMembers(w.lib, Conditions(es), awp.a.v);
    assert Conditions(es)[k] in Conditions(es);
    assert es[k] in es;
  }

  /** What check lets through has agreed with every dependency. */
  lemma CheckedDep(w: World, s: Core, awp: AtomWithPackages, pkgonly: bool, r: ProjectRoot)
    requires ValidWorld(w) && CheckOk(w, s, awp, pkgonly) && r in Imports(w, awp.a, awp.pl).deps
    ensures var d := Imports(w, awp.a, awp.pl).deps[r]; DepOk(w, s, d) && d.ident.root == r
  {
    assert GoodDeps(w, awp.a, awp.pl);
    hide ValidWorld, DepOk, Imports, Composite, PackagesOk;
  }

  lemma NotOnItself(w: World, s: Core, t: Core, awp: AtomWithPackages, pkgonly: bool, order: seq<ProjectRoot>)
    requires Selecting(w, s, t, awp, pkgonly, order)
    ensures awp.a.id.root !in DepsOf(w, Pushed(w, awp, pkgonly))
  {
    PushedOk(w, s, t, awp, pkgonly, order);
    assert GoodDeps(w, awp.a, awp.pl);
  }

  lemma SelectSafe(w: World, s: Core, t: Core, awp: AtomWithPackages, pkgonly: bool, order: seq<ProjectRoot>)
    requires Selecting(w, s, t, awp, pkgonly, order)
    ensures Safe(w, t)
  {
    hide Satisfied, CheckOk, ValidWorld, Covered, CompositesOk, RootSafe, QueueOk;
    var x := Pushed(w, awp, pkgonly);
    PushedOk(w, s, t, awp, pkgonly, order);
    NotOnItself(w, s, t, awp, pkgonly, order);
    forall r, k | Base(t.projects, r).Some? && 0 <= k < |On(t.deps, r)|
      ensures Satisfied(w, Base(t.projects, r).value.a, On(t.deps, r)[k].dep)
    {
      SelectEdges(w, s, t, awp, pkgonly, order, r);
      BaseOfPush(s.projects, x, r);
      if Base(s.projects, r).Some? {
        if k == |On(s.deps, r)| {
          NewEdgeSafe(w, s, t, awp, pkgonly, order, r);
        } else {
          assert On(t.deps, r)[k] == On(s.deps, r)[k];
        }
      } else {
        assert awp.a.id.root == r && !pkgonly;
        assert k < |On(s.deps, r)|;
        NewBaseSafe(w, s, t, awp, order, k);
      }
    }
  }

  lemma {:induction false} BaseAtBottom(projects: seq<Selected>)
    requires projects != []
    ensures Base(projects, projects[0].a.a.id.root) == Some(projects[0].a)
  {
    var init, x := projects[..|projects| - 1], projects[|projects| - 1];
    assert projects == init + [x];
    BaseOfPush(init, x, projects[0].a.a.id.root);
    if |projects| > 1 {
      BaseAtBottom(init);
    }
  }

  lemma SelectRootSafe(w: World, s: Core, t: Core, awp: AtomWithPackages, pkgonly: bool, order: seq<ProjectRoot>)
    requires Selecting(w, s, t, awp, pkgonly, order)
    ensures RootSafe(w, t)
  {
    hide Satisfied, CheckOk, ValidWorld, Covered, CompositesOk, Safe, QueueOk, Replayed;
    PushedOk(w, s, t, awp, pkgonly, order);
    BaseAtBottom(s.projects);
    forall i | 1 <= i < |t.projects| && w.rootName in DepsOf(w, t.projects[i])
      ensures Satisfied(w, RootAtom(w), DepsOf(w, t.projects[i])[w.rootName])
    {
      if i < |s.projects| {
        assert t.projects[i] == s.projects[i];
      } else {
        NewEdgeSafe(w, s, t, awp, pkgonly, order, w.rootName);
      }
    }
  }

  lemma {:induction false} NotNamed(es: seq<Dependency>, p: Package)
    ensures Occurrences(es, p) == 0 <==> !Needed(es, p)
  {
    if es != [] {
      var init, last := es[..|es| - 1], es[|es| - 1];
      NotNamed(init, p);
      assert multiset(last.dep.pl)[p] > 0 <==> p in last.dep.pl;
      if Needed(init, p) {
        var k :| 0 <= k < |init| && p in init[k].dep.pl;
        assert es[k] == init[k];
      } else if p in last.dep.pl {
        assert p in es[|es| - 1].dep.pl;
      } else {
        assert forall k :: 0 <= k < |init| ==> es[k] == init[k];
      }
    }
  }

  lemma NoDupOnce<T>(s: seq<T>, x: T)
    requires NoDup(s) && x in s
    ensures multiset(s)[x] == 1
  {
    var i :| 0 <= i < |s| && s[i] == x;
    assert s == s[..i] + [x] + s[i + 1..];
    assert x !in s[..i] && x !in s[i + 1..];
  }

  /** A package of the new edge is queued by this move exactly when no earlier edge names it. */
  lemma QueuedIfNew(es: seq<Dependency>, e: Dependency, p: Package)
    requires NoDup(e.dep.pl) && p in e.dep.pl
    ensures p in SoleImports(es + [e], e.dep.pl) <==> !Needed(es, p)
  {
    NotNamed(es, p);
    NoDupOnce(e.dep.pl, p);
    assert (es + [e])[..|es|] == es;
  }

  lemma SelectCovered(w: World, s: Core, t: Core, awp: AtomWithPackages, pkgonly: bool, order: seq<ProjectRoot>)
    requires Selecting(w, s, t, awp, pkgonly, order)
    ensures Covered(t)
  {
    forall r, p | Needed(On(t.deps, r), p)
      ensures SelectedPackage(t.projects, r, p) || QueuedPackage(t.unsel, r, p)
    {
      SelectEdges(w, s, t, awp, pkgonly, order, r);
      if Needed(On(s.deps, r), p) {
        SelectKeepsCover(w, s, t, awp, pkgonly, order, r, p);
      } else {
        SelectQueuesNew(w, s, t, awp, pkgonly, order, r, p);
      }
    }
  }

  lemma SelectKeepsCover(w: World, s: Core, t: Core, awp: AtomWithPackages, pkgonly: bool, order: seq<ProjectRoot>, r: ProjectRoot, p: Package)
    requires Selecting(w, s, t, awp, pkgonly, order)
    requires Needed(On(s.deps, r), p)
    ensures SelectedPackage(t.projects, r, p) || QueuedPackage(t.unsel, r, p)
  {
    PushedOk(w, s, t, awp, pkgonly, order);
    if SelectedPackage(s.projects, r, p) {
      var i :| 0 <= i < |s.projects| && s.projects[i].a.a.id.root == r && p in s.projects[i].a.pl;
      assert t.projects[i] == s.projects[i];
    } else {
      var b :| b in s.unsel && b.id.root == r && p in b.pl;
      RemoveFirstKeeps(s.unsel, awp.a.id, awp.pl, b);
      if SameWork(b, awp.a.id, awp.pl) {
        assert p in Elems(awp.pl);
        assert t.projects[|s.projects|].a.a.id.root == r && p in t.projects[|s.projects|].a.pl;
      } else {
        InInMultiset(RemoveFirst(s.unsel, awp.a.id, awp.pl), b);
        InInMultiset(t.unsel, b);
        assert b in t.unsel;
      }
    }
  }

  lemma SelectQueuesNew(w: World, s: Core, t: Core, awp: AtomWithPackages, pkgonly: bool, order: seq<ProjectRoot>, r: ProjectRoot, p: Package)
    requires Selecting(w, s, t, awp, pkgonly, order)
    requires Needed(On(t.deps, r), p) && !Needed(On(s.deps, r), p)
    ensures QueuedPackage(t.unsel, r, p)
  {
    SelectEdges(w, s, t, awp, pkgonly, order, r);
    PushedOk(w, s, t, awp, pkgonly, order);
    var x := Pushed(w, awp, pkgonly);
    NewlyNeeded(w, On(s.deps, r), x, r, p);
    EnqueuedWhenNew(w, s, awp.a, DepsOf(w, x), order, r, p);
    var b := NewBmi(w, s.deps, awp.a, DepsOf(w, x)[r]);
    InInMultiset(t.unsel, b);
  }

  lemma NewlyNeeded(w: World, es: seq<Dependency>, x: Selected, r: ProjectRoot, p: Package)
    requires Needed(es + Contribution(w, x, r), p) && !Needed(es, p)
    ensures r in DepsOf(w, x) && r != w.rootName && p in DepsOf(w, x)[r].pl
  {
    var more := es + Contribution(w, x, r);
    var k :| 0 <= k < |more| && p in more[k].dep.pl;
    assert k < |es| ==> more[k] == es[k];
  }

  lemma EnqueuedWhenNew(w: World, s: Core, a: Atom, deps: Deps, order: seq<ProjectRoot>, r: ProjectRoot, p: Package)
    requires ValidWorld(w) && Replayed(w, s) && ValidDeps(w, deps)
    requires Listing(order, deps.Keys - {w.rootName})
    requires r in deps && r != w.rootName && p in deps[r].pl && !Needed(On(s.deps, r), p)
    ensures var b := NewBmi(w, s.deps, a, deps[r]);
            p in b.pl && b.id.root == r && b in Enqueued(w, s.deps, a, deps, order)
  {
    assert ValidDep(w, r, deps[r]);
    QueuedIfNew(On(s.deps, r), Edge(a, deps, r), p);
    NewBmiRoot(w, s, a, deps[r], r);
    assert r in Elems(order);
    EnqueuedHas(w, s.deps, a, deps, order, r);
  }

  lemma NewBmiRoot(w: World, s: Core, a: Atom, d: CompleteDep, r: ProjectRoot)
    requires ValidWorld(w) && Replayed(w, s) && ValidDep(w, r, d)
    ensures NewBmi(w, s.deps, a, d).id.root == r
  {
    EdgesManifestLevel(w, s, r);
    var es := On(s.deps, r);
    if es != [] {
      assert es[0] in es;
    }
  }

  lemma SelectQueueOk(w: World, s: Core, t: Core, awp: AtomWithPackages, pkgonly: bool, order: seq<ProjectRoot>)
    requires Selecting(w, s, t, awp, pkgonly, order)
    ensures QueueOk(w, t.unsel)
  {
    PushedOk(w, s, t, awp, pkgonly, order);
    var deps := Imports(w, awp.a, awp.pl).deps;
    forall b | b in t.unsel ensures b.id.root in w.roots && b.id.root != w.rootName && NoDup(b.pl) {
      InInMultiset(t.unsel, b);
      InInMultiset(RemoveFirst(s.unsel, awp.a.id, awp.pl), b);
      if b in RemoveFirst(s.unsel, awp.a.id, awp.pl) {
        RemoveFirstKeeps(s.unsel, awp.a.id, awp.pl, b);
      } else {
        var r := EnqueuedOnly(w, s.deps, awp.a, deps, order, b);
        assert r in Elems(order);
        NewBmiRoot(w, s, awp.a, deps[r], r);
      }
    }
  }

  /** Pushing an edge that passed checkDepsConstraintsAllowable leaves a satisfiable composite. */
  lemma PushComposite(w: World, es: seq<Dependency>, e: Dependency)
    requires forall c <- Conditions(es) :: ManifestLevel(c)
    requires ManifestLevel(e.dep.constraint) && Fold(w.lib, Conditions(es)) != Nothing
    ensures MatchesAny(w.lib, Fold(w.lib, Conditions(es)), e.dep.constraint) <==> Fold(w.lib, Conditions(es + [e])) != Nothing
  {
    FoldStaysManifestLevel(w.lib, Conditions(es));
    MatchesAnyIsNonEmptyIntersection(w.lib, Fold(w.lib, Conditions(es)), e.dep.constraint);
    assert Conditions(es + [e])[..|es|] == Conditions(es);
  }

  lemma SelectComposites(w: World, s: Core, t: Core, awp: AtomWithPackages, pkgonly: bool, order: seq<ProjectRoot>, r: ProjectRoot)
    requires Selecting(w, s, t, awp, pkgonly, order)
    ensures Composite(w, t.deps, r) != Nothing
  {
    SelectEdges(w, s, t, awp, pkgonly, order, r);
    EdgesManifestLevel(w, s, r);
    assert Composite(w, s.deps, r) != Nothing;
    var x := Pushed(w, awp, pkgonly);
    if r in DepsOf(w, x) {
      AllowedComposite(w, s, t, awp, pkgonly, order, r);
    }
    ContributeComposite(w, On(s.deps, r), x, r);
  }

  lemma ContributeComposite(w: World, es: seq<Dependency>, x: Selected, r: ProjectRoot)
    requires forall c <- Conditions(es) :: ManifestLevel(c)
    requires Fold(w.lib, Conditions(es)) != Nothing
    requires r in DepsOf(w, x) ==>
               var c := DepsOf(w, x)[r].constraint; ManifestLevel(c) && MatchesAny(w.lib, Fold(w.lib, Conditions(es)), c)
    ensures Fold(w.lib, Conditions(es + Contribution(w, x, r))) != Nothing
  {
    if Contribution(w, x, r) == [] {
      assert es + Contribution(w, x, r) == es;
    } else {
      PushComposite(w, es, Edge(x.a.a, DepsOf(w, x), r));
    }
  }

  lemma AllowedComposite(w: World, s: Core, t: Core, awp: AtomWithPackages, pkgonly: bool, order: seq<ProjectRoot>, r: ProjectRoot)
    requires Selecting(w, s, t, awp, pkgonly, order)
    requires r in DepsOf(w, Pushed(w, awp, pkgonly))
    ensures var c := DepsOf(w, Pushed(w, awp, pkgonly))[r].constraint; ManifestLevel(c) && MatchesAny(w.lib, Composite(w, s.deps, r), c)
  {
    PushedOk(w, s, t, awp, pkgonly, order);
    var d := DepsOf(w, Pushed(w, awp, pkgonly))[r];
    assert DepOk(w, s, d) && ValidDep(w, r, d);
  }

  lemma SelectInv(w: World, s: Core, t: Core, awp: AtomWithPackages, pkgonly: bool, order: seq<ProjectRoot>)
    requires Selecting(w, s, t, awp, pkgonly, order)
    ensures Inv(w, t)
  {
    SelectStack(w, s, t, awp, pkgonly, order);
    forall r ensures On(t.deps, r) == Replay(w, t.projects, r) { SelectEdges(w, s, t, awp, pkgonly, order, r); }
    SelectSafe(w, s, t, awp, pkgonly, order);
    SelectRootSafe(w, s, t, awp, pkgonly, order);
    SelectCovered(w, s, t, awp, pkgonly, order);
    SelectQueueOk(w, s, t, awp, pkgonly, order);
    forall r ensures Composite(w, t.deps, r) != Nothing { SelectComposites(w, s, t, awp, pkgonly, order, r); }
  }

  // ------------------------------------------------------------------ unselecting

  ghost predicate Unselecting(w: World, s: Core, t: Core, queue: seq<Bmi>, order: seq<ProjectRoot>) {
    && ValidWorld(w) && Inv(w, s) && |s.projects| > 1
    && Unselects(w, s, t, queue, order)
  }

  lemma PopAllEdges(w: World, s: Core, t: Core, x: Selected)
    requires Replayed(w, s) && s.projects == t.projects + [x] && x.a.a.id.root != w.rootName
    requires t.deps == DropEdges(s.deps, DepsOf(w, x).Keys - {w.rootName})
    ensures forall r :: On(s.deps, r) == On(t.deps, r) + Contribution(w, x, r)
    ensures Replayed(w, t)
  {
    forall r ensures On(s.deps, r) == On(t.deps, r) + Contribution(w, x, r) && On(t.deps, r) == Replay(w, t.projects, r) {
      assert On(s.deps, r) == Replay(w, s.projects, r);
      PopEdges(w, t.projects, x, s.deps, r);
    }
  }

  lemma PoppedOk(w: World, s: Core, t: Core, queue: seq<Bmi>, order: seq<ProjectRoot>)
    requires Unselecting(w, s, t, queue, order)
    ensures var x := s.projects[|s.projects| - 1];
            && s.projects == t.projects + [x] && EntryOk(w, x)
            && DepsOf(w, x) == Imports(w, x.a.a, x.a.pl).deps
  {
    hide ValidWorld, Inv, Unselects, EntryOk, DepsOf, Imports;
    LastEntryOk(w, s);
    EntryDeps(w, s.projects[|s.projects| - 1]);
    UnselectsPops(w, s, t, queue, order);
  }

  lemma UnselectsPops(w: World, s: Core, t: Core, queue: seq<Bmi>, order: seq<ProjectRoot>)
    requires s.projects != [] && Unselects(w, s, t, queue, order)
    ensures s.projects == t.projects + [s.projects[|s.projects| - 1]]
  {
    hide Imports, DropEdges, UnmarkRoots, DropUnneeded;
  }

  lemma EntryDeps(w: World, x: Selected)
    requires EntryOk(w, x)
    ensures DepsOf(w, x) == Imports(w, x.a.a, x.a.pl).deps
  {
    hide Imports;
  }

  lemma LastEntryOk(w: World, s: Core)
    requires Inv(w, s) && |s.projects| > 1
    ensures EntryOk(w, s.projects[|s.projects| - 1])
  {
    assert StackOk(w, s.projects);
    hide Inv, EntryOk, FirstsOk;
  }

  /** unselectLast takes back exactly the edges the popped entry had contributed. */
  lemma UnselectAllEdges(w: World, s: Core, t: Core, queue: seq<Bmi>, order: seq<ProjectRoot>)
    requires Unselecting(w, s, t, queue, order)
    ensures var x := s.projects[|s.projects| - 1];
            s.projects == t.projects + [x] && forall r :: On(s.deps, r) == On(t.deps, r) + Contribution(w, x, r)
    ensures Replayed(w, t)
  {
    PoppedOk(w, s, t, queue, order);
    PopAllEdges(w, s, t, s.projects[|s.projects| - 1]);
  }

  lemma FewerAreRootSafe(w: World, s: Core, t: Core)
    requires RootSafe(w, s) && |t.projects| <= |s.projects| && forall i :: 0 <= i < |t.projects| ==> t.projects[i] == s.projects[i]
    ensures RootSafe(w, t)
  {
    hide Satisfied, DepsOf;
  }

  lemma PoppedLast(w: World, s: Core, t: Core, queue: seq<Bmi>, order: seq<ProjectRoot>)
    requires Unselecting(w, s, t, queue, order)
    ensures StackOk(w, s.projects) && RootSafe(w, s) && t.projects != [] && s.projects == t.projects + [s.projects[|s.projects| - 1]]
  {
    hide ValidWorld, Covered, CompositesOk, Safe, QueueOk, Replayed, StackOk, RootSafe, Imports, DropUnneeded, DropEdges, UnmarkRoots;
  }

  lemma UnselectStack(w: World, s: Core, t: Core, queue: seq<Bmi>, order: seq<ProjectRoot>)
    requires Unselecting(w, s, t, queue, order)
    ensures StackOk(w, t.projects) && RootSafe(w, t)
  {
    PoppedLast(w, s, t, queue, order);
    hide Unselecting, FirstsOk, Entries, EntryOk, RootSafe;
    var x := s.projects[|s.projects| - 1];
    PrefixFirsts(t.projects, x);
    PushEntries(w, t.projects, x);
    FewerAreRootSafe(w, s, t);
  }

  lemma PopSafe(w: World, s: Core, t: Core, x: Selected)
    requires Safe(w, s) && s.projects == t.projects + [x]
    requires forall r :: On(s.deps, r) == On(t.deps, r) + Contribution(w, x, r)
    ensures Safe(w, t)
  {
    forall r, k | Base(t.projects, r).Some? && 0 <= k < |On(t.deps, r)|
      ensures Satisfied(w, Base(t.projects, r).value.a, On(t.deps, r)[k].dep)
    {
      BaseOfPush(t.projects, x, r);
      assert On(s.deps, r)[k] == On(t.deps, r)[k];
    }
  }

  lemma PopComposite(w: World, s: Core, t: Core, x: Selected, r: ProjectRoot)
    requires Composite(w, s.deps, r) != Nothing
    requires On(s.deps, r) == On(t.deps, r) + Contribution(w, x, r)
    ensures Composite(w, t.deps, r) != Nothing
  {
    var cs := Conditions(On(s.deps, r));
    FoldPrefixNonEmpty(w.lib, cs, |On(t.deps, r)|);
    assert cs[..|On(t.deps, r)|] == Conditions(On(t.deps, r));
  }

  lemma PopComposites(w: World, s: Core, t: Core, x: Selected)
    requires CompositesOk(w, s)
    requires forall r :: On(s.deps, r) == On(t.deps, r) + Contribution(w, x, r)
    ensures CompositesOk(w, t)
  {
    forall r ensures Composite(w, t.deps, r) != Nothing {
      PopComposite(w, s, t, x, r);
    }
  }

  lemma UnselectSafe(w: World, s: Core, t: Core, queue: seq<Bmi>, order: seq<ProjectRoot>)
    requires Unselecting(w, s, t, queue, order)
    ensures Safe(w, t) && CompositesOk(w, t)
  {
    var x := s.projects[|s.projects| - 1];
    UnselectAllEdges(w, s, t, queue, order);
    PopSafe(w, s, t, x);
    PopComposites(w, s, t, x);
  }

  lemma UnselectCovered(w: World, s: Core, t: Core, queue: seq<Bmi>, order: seq<ProjectRoot>)
    requires Unselecting(w, s, t, queue, order)
    ensures Covered(t) && QueueOk(w, t.unsel)
  {
    var x := s.projects[|s.projects| - 1];
    UnselectAllEdges(w, s, t, queue, order);
    PoppedOk(w, s, t, queue, order);
    DepsOfValid(w, x);
    var back := Bmi(x.a.a.id, x.a.pl, None, false);
    forall b ensures b in queue <==> b in s.unsel || b == back {
      InInMultiset(queue, b);
      InInMultiset(s.unsel, b);
    }
    forall r, p | Needed(On(t.deps, r), p)
      ensures SelectedPackage(t.projects, r, p) || QueuedPackage(t.unsel, r, p)
    {
      var k :| 0 <= k < |On(t.deps, r)| && p in On(t.deps, r)[k].dep.pl;
      assert On(s.deps, r)[k] == On(t.deps, r)[k];
      assert Needed(On(s.deps, r), p);
      if !SelectedPackage(t.projects, r, p) {
        var b := UnselectMovesCover(w, s, t, queue, r, p, back);
        DropUnneededKeeps(t.deps, DepsOf(w, x), queue, order, b);
      }
    }
    forall b | b in t.unsel ensures b.id.root in w.roots && b.id.root != w.rootName && NoDup(b.pl) {
      DropUnneededKeeps(t.deps, DepsOf(w, x), queue, order, b);
    }
  }

  lemma UnselectMovesCover(w: World, s: Core, t: Core, queue: seq<Bmi>, r: ProjectRoot, p: Package, back: Bmi) returns (b: Bmi)
    requires s.projects != [] && t.projects == s.projects[..|s.projects| - 1]
    requires var x := s.projects[|s.projects| - 1]; back == Bmi(x.a.a.id, x.a.pl, None, false)
    requires forall b :: b in queue <==> b in s.unsel || b == back
    requires SelectedPackage(s.projects, r, p) || QueuedPackage(s.unsel, r, p)
    requires !SelectedPackage(t.projects, r, p)
    ensures b in queue && b.id.root == r && p in b.pl
  {
    if SelectedPackage(s.projects, r, p) {
      var i :| 0 <= i < |s.projects| && s.projects[i].a.a.id.root == r && p in s.projects[i].a.pl;
      assert forall j :: 0 <= j < |t.projects| ==> t.projects[j] == s.projects[j];
      b := back;
    } else {
      b :| b in s.unsel && b.id.root == r && p in b.pl;
    }
  }

  lemma UnselectInv(w: World, s: Core, t: Core, queue: seq<Bmi>, order: seq<ProjectRoot>)
    requires Unselecting(w, s, t, queue, order)
    ensures Inv(w, t)
  {
    UnselectStack(w, s, t, queue, order);
    UnselectAllEdges(w, s, t, queue, order);
    UnselectSafe(w, s, t, queue, order);
    UnselectCovered(w, s, t, queue, order);
  }

  // ------------------------------------------------------------------ whole runs

  lemma {:induction false} RunInv(w: World, ss: seq<Core>)
    requires ValidWorld(w) && Run(w, ss)
    ensures Inv(w, ss[|ss| - 1])
  {
    hide Inv, ValidWorld, Start, Step;
    assert Link(w, ss, |ss| - 1);
    if |ss| == 1 {
      SomeStartInv(w, ss[0]);
    } else {
      RunPrefix(w, ss);
      RunInv(w, ss[..|ss| - 1]);
      StepInv(w, ss[|ss| - 2], ss[|ss| - 1]);
    }
  }

  lemma SomeStartInv(w: World, s: Core)
    requires ValidWorld(w) && exists order :: Start(w, s, order)
    ensures Inv(w, s)
  {
    var order :| Start(w, s, order);
    StartInv(w, s, order);
  }

  lemma RunPrefix(w: World, ss: seq<Core>)
    requires Run(w, ss) && |ss| > 1
    ensures Run(w, ss[..|ss| - 1])
  {
    var init := ss[..|ss| - 1];
    forall k | 0 <= k < |init| ensures Link(w, init, k) {
      assert Link(w, ss, k) && init[k] == ss[k] && (k > 0 ==> init[k - 1] == ss[k - 1]);
    }
  }

  lemma StepInv(w: World, s: Core, t: Core)
    requires ValidWorld(w) && Inv(w, s) && Step(w, s, t)
    ensures Inv(w, t)
  {
    if awp, pkgonly, order :| Request(w, s, awp, pkgonly) && CheckOk(w, s, awp, pkgonly) && Selects(w, s, t, awp, pkgonly, order) {
      SelectInv(w, s, t, awp, pkgonly, order);
    } else {
      var queue, order :| Unselects(w, s, t, queue, order);
      UnselectInv(w, s, t, queue, order);
    }
  }

  /** Safety of every reachable state. */
  lemma ReachableInv(w: World, s: Core)
    requires ValidWorld(w) && Reachable(w, s)
    ensures Inv(w, s)
  {
    var ss :| Run(w, ss) && ss[|ss| - 1] == s;
    RunInv(w, ss);
  }
}
