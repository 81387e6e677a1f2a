/** Which versions the search tries for a project, and in which order: what the locks and the request
    to change say (gps/solver.go, gps/version_queue.go). */
module VersionChoices {
  import opened Constraints
  import opened Identifiers
  import opened Bridge
  import opened SolverCore
  import opened SolverInvariants
  import opened SolverSteps
  import opened Satisfy
  import opened VersionQueues
  import opened Searches

  // ------------------------------------------------------------------ the root's lock

  /** A change was asked for, by name or for all, and there is a source to get one from. */
  predicate Changing(w: World, id: ProjectIdentifier) {
    (id.root in w.change || w.changeAll) && w.sourceExists(id)
  }

  /** The root's lock decides, unless a change was asked for that is possible. */
  predicate Held(w: World, id: ProjectIdentifier) {
    id.root in w.rootLock && !Changing(w, id)
  }

  lemma LockVersionIs(w: World, id: ProjectIdentifier)
    ensures RootLockVersion(w, id) == if Held(w, id) then Some(w.rootLock[id.root]) else None
  {
  }

  /** A project that is in vendor only cannot change: asking for it by name is an error if there is a
      lock, asking for all to change leaves it at its locked version. */
  lemma VendorOnlyStays(w: World, s: Core, bmi: Bmi)
    requires !w.sourceExists(bmi.id) && w.vendorExists(bmi.id) && w.rootLock != map[]
    ensures bmi.id.root in w.change ==> QueueFailure(w, s, bmi) == Some(MissingSource(bmi.id))
    ensures bmi.id.root !in w.change && bmi.id.root in w.rootLock ==>
              QueueFailure(w, s, bmi).None? && RootLockVersion(w, bmi.id) == Some(w.rootLock[bmi.id.root])
  {
    hide Preferred;
    LockVersionIs(w, bmi.id);
  }

  /** And a project that is nowhere is not looked for. */
  lemma NowhereIsNotLocated(w: World, s: Core, bmi: Bmi)
    ensures QueueFailure(w, s, bmi) == Some(NotLocated(bmi.id)) <==> !w.sourceExists(bmi.id) && !w.vendorExists(bmi.id)
  {
    hide Preferred;
  }

  lemma {:induction false} NoneUnwanted(l: seq<Version>, p: Version)
    requires p !in l
    ensures Unlisted(l, None, Some(p)) == l
  {
    if l != [] {
      var init := l[..|l| - 1];
      assert l == init + [l[|l| - 1]];
      NoneUnwanted(init, p);
    }
  }

  lemma {:induction false} UnlistedConcat(a: seq<Version>, b: seq<Version>, p: Version)
    ensures Unlisted(a + b, None, Some(p)) == Unlisted(a, None, Some(p)) + Unlisted(b, None, Some(p))
  {
    if b == [] {
      assert a + b == a;
    } else {
      var init := b[..|b| - 1];
      UnlistedConcat(a, init, p);
      assert (a + b)[..|a + b| - 1] == a + init;
    }
  }

  /** The versions listed, in that order, without the preferred one. */
  lemma UnlistedKeepsOrder(a: seq<Version>, p: Version, b: seq<Version>)
    requires p !in a && p !in b
    ensures Unlisted(a + [p] + b, None, Some(p)) == a + b
  {
    hide Unlisted;
    OneUnwanted(p);
    NoneUnwanted(a, p);
    NoneUnwanted(b, p);
    UnlistedConcat(a + [p], b, p);
    UnlistedConcat(a, [p], p);
    NothingAdded(a);
  }

  lemma OneUnwanted(p: Version)
    ensures Unlisted([p], None, Some(p)) == []
  {
    assert [p][..0] == [];
  }

  lemma NothingAdded(a: seq<Version>)
    ensures a + [] == a
  {
  }

  lemma {:induction false} AllUnlisted(l: seq<Version>)
    ensures Unlisted(l, None, None) == l
  {
    if l != [] {
      AllUnlisted(l[..|l| - 1]);
      assert l == l[..|l| - 1] + [l[|l| - 1]];
    }
  }

  /** If nothing demands a revision, the root's locked version is tried first, wherever it is listed
      and whatever else is preferred, unless the project is to change. */
  lemma LockedComesFirst(w: World, s: Core, bmi: Bmi)
    requires Held(w, bmi.id) && !IsRevision(Composite(w, s.deps, bmi.id.root))
    ensures Candidates(w, s, bmi) != [] && Candidates(w, s, bmi)[0] == w.rootLock[bmi.id.root]
    ensures Preferred(w, s, bmi).Some? ==> |Candidates(w, s, bmi)| > 1 && Candidates(w, s, bmi)[1] == Preferred(w, s, bmi).value
  {
    hide Preferred, Composite, IsRevision;
    LockVersionIs(w, bmi.id);
  }

  /** If it is, or is not locked, the preferred version comes first, and then the listed ones in the
      order in which they are listed. */
  lemma ChangeForgetsLock(w: World, s: Core, bmi: Bmi, a: seq<Version>, b: seq<Version>)
    requires !Held(w, bmi.id) && !IsRevision(Composite(w, s.deps, bmi.id.root))
    ensures Preferred(w, s, bmi).None? ==> Candidates(w, s, bmi) == Listed(w, bmi.id)
    ensures Preferred(w, s, bmi).Some? ==>
              var p, l, cs := Preferred(w, s, bmi).value, Listed(w, bmi.id), Candidates(w, s, bmi);
              && cs != [] && cs[0] == p && (p !in l ==> cs[1..] == l)
              && (l == a + [p] + b && p !in a && p !in b ==> cs[1..] == a + b)
  {
    hide Preferred, Composite, IsRevision, Unlisted;
    LockVersionIs(w, bmi.id);
    var l := Listed(w, bmi.id);
    match Preferred(w, s, bmi)
    case None =>
      AllUnlisted(l);
      assert [] + [] + l == l;
    case Some(p) =>
      if p !in l { NoneUnwanted(l, p); }
      if p !in a && p !in b { UnlistedKeepsOrder(a, p, b); }
      assert Candidates(w, s, bmi) == [] + [p] + Unlisted(l, None, Some(p));
  }

  /** A revision that is demanded is tried before all of that. */
  lemma RevisionComesFirst(w: World, s: Core, bmi: Bmi)
    requires IsRevision(Composite(w, s.deps, bmi.id.root))
    ensures var r, cs, offer := Composite(w, s.deps, bmi.id.root).v, Candidates(w, s, bmi), Offer(w, bmi.id, RootLockVersion(w, bmi.id), Preferred(w, s, bmi));
            if offer == [] then cs == [] else cs[0] == r && (cs == offer || cs[1..] == offer)
  {
    hide Preferred, Composite, RootLockVersion, Offer;
  }

  // ------------------------------------------------------------------ other locks

  /** A lock records v for the identifier, by this equality, and nothing later. */
  ghost predicate LastFor(lock: seq<LockedProject>, same: ProjectIdentifier -> bool, j: int) {
    0 <= j < |lock| && same(lock[j].ident) && forall k :: j < k < |lock| ==> !same(lock[k].ident)
  }

  ghost predicate NothingFor(lock: seq<LockedProject>, same: ProjectIdentifier -> bool) {
    forall k :: 0 <= k < |lock| ==> !same(lock[k].ident)
  }

  function Same(id: ProjectIdentifier): ProjectIdentifier -> bool { (i: ProjectIdentifier) => i == id }

  function Equal(id: ProjectIdentifier): ProjectIdentifier -> bool { (i: ProjectIdentifier) => i.Eq(id) }

  lemma {:induction false} LockedAtIs(lock: seq<LockedProject>, id: ProjectIdentifier)
    ensures LockedAt(lock, id).None? <==> NothingFor(lock, Same(id))
    ensures forall j :: LastFor(lock, Same(id), j) ==> LockedAt(lock, id) == Some(lock[j].version)
  {
    if lock != [] {
      var init := lock[..|lock| - 1];
      LockedAtIs(init, id);
      forall j | LastFor(lock, Same(id), j) ensures LockedAt(lock, id) == Some(lock[j].version) {
        if j < |init| { assert LastFor(init, Same(id), j); }
      }
    }
  }

  lemma {:induction false} LastLockedIs(lock: seq<LockedProject>, id: ProjectIdentifier, otherwise: Option<Version>)
    ensures NothingFor(lock, Equal(id)) ==> LastLocked(lock, id, otherwise) == otherwise
    ensures forall j :: LastFor(lock, Equal(id), j) ==> LastLocked(lock, id, otherwise) == Some(lock[j].version)
  {
    if lock != [] {
      var init := lock[..|lock| - 1];
      LastLockedIs(init, id, otherwise);
      forall j | LastFor(lock, Equal(id), j) ensures LastLocked(lock, id, otherwise) == Some(lock[j].version) {
        if j < |init| { assert LastFor(init, Equal(id), j); }
      }
    }
  }

  /** The lock of the i-th depender, which is not the root's, has an entry for the project. */
  ghost predicate Speaks(w: World, es: seq<Dependency>, id: ProjectIdentifier, i: nat)
    requires i < |es|
  {
    var a := es[i].depender;
    a.id.root != w.rootName && !NothingFor(w.lock(a.id, a.v), Equal(id))
  }

  /** The i-th is the last whose lock knows it. */
  ghost predicate LastToSpeak(w: World, es: seq<Dependency>, id: ProjectIdentifier, i: nat) {
    i < |es| && Speaks(w, es, id, i) && forall k :: i < k < |es| ==> !Speaks(w, es, id, k)
  }

  ghost predicate Silent(w: World, es: seq<Dependency>, id: ProjectIdentifier) {
    forall i :: 0 <= i < |es| ==> !Speaks(w, es, id, i)
  }

  function LockOf(w: World, e: Dependency): seq<LockedProject> { w.lock(e.depender.id, e.depender.v) }

  /** The last depender counts if it speaks, and else those before it. */
  lemma SpeaksBefore(w: World, es: seq<Dependency>, id: ProjectIdentifier, i: nat)
    requires es != []
    ensures var n := |es| - 1;
            && (Silent(w, es, id) ==> Silent(w, es[..n], id) && !Speaks(w, es, id, n))
            && (LastToSpeak(w, es, id, i) && i < n ==> LastToSpeak(w, es[..n], id, i) && !Speaks(w, es, id, n))
  {
    var n := |es| - 1;
    forall k | 0 <= k < n ensures Speaks(w, es[..n], id, k) <==> Speaks(w, es, id, k) { assert es[..n][k] == es[k]; }
  }

  lemma LastDecides(w: World, es: seq<Dependency>, id: ProjectIdentifier)
    requires es != []
    ensures var n := |es| - 1;
            && (!Speaks(w, es, id, n) ==> DependersLock(w, es, id) == DependersLock(w, es[..n], id))
            && (Speaks(w, es, id, n) ==> forall j :: LastFor(LockOf(w, es[n]), Equal(id), j) ==> DependersLock(w, es, id) == Some(LockOf(w, es[n])[j].version))
  {
    var n := |es| - 1;
    LastLockedIs(LockOf(w, es[n]), id, DependersLock(w, es[..n], id));
    hide NothingFor, LastFor, LastLocked;
  }

  lemma {:induction false} DependersDecide(w: World, es: seq<Dependency>, id: ProjectIdentifier, i: nat, j: int)
    ensures Silent(w, es, id) ==> DependersLock(w, es, id).None?
    ensures LastToSpeak(w, es, id, i) && LastFor(LockOf(w, es[i]), Equal(id), j) ==> DependersLock(w, es, id) == Some(LockOf(w, es[i])[j].version)
  {
    if es != [] {
      SpeaksBefore(w, es, id, i);
      LastDecides(w, es, id);
      hide Silent, Speaks, LastFor, DependersLock, LockOf;
      DependersDecide(w, es[..|es| - 1], id, i, j);
    }
  }

  /** What is preferred for a work item of the root: of the projects that depend on this one by now, the
      last whose lock knows it decides, and in it the last entry; the root's own lock is no depender's.
      For any other item it is what was found when it was queued. */
  lemma PreferenceIs(w: World, s: Core, bmi: Bmi, i: nat, j: int)
    ensures !bmi.fromRoot ==> Preferred(w, s, bmi) == bmi.prefv
    ensures var es := On(s.deps, bmi.id.root);
            bmi.fromRoot ==>
              && (Silent(w, es, bmi.id) ==> Preferred(w, s, bmi).None?)
              && (LastToSpeak(w, es, bmi.id, i) && LastFor(LockOf(w, es[i]), Equal(bmi.id), j) ==> Preferred(w, s, bmi) == Some(LockOf(w, es[i])[j].version))
  {
    DependersDecide(w, On(s.deps, bmi.id.root), bmi.id, i, j);
    hide DependersLock, Silent, LastToSpeak, LastFor, LockOf;
  }

  lemma EnqueuedHas(w: World, edges: Edges, a: Atom, deps: Deps, order: seq<ProjectRoot>, r: ProjectRoot)
    requires Elems(order) <= deps.Keys && r in order && r in deps && NewBmi(w, edges, a, deps[r]).pl != []
    ensures Enqueued(w, edges, a, deps, order)[NewBmi(w, edges, a, deps[r])] > 0
  {
    hide NewBmi;
    if order[|order| - 1] != r {
      var init := order[..|order| - 1];
      assert order == init + [order[|order| - 1]];
      assert Elems(init) <= Elems(order);
      EnqueuedHas(w, edges, a, deps, init, r);
    }
  }

  lemma {:induction false} OneEdgeCounts(e: Dependency, pl: seq<Package>)
    requires NoDup(e.dep.pl) && forall p <- pl :: p in e.dep.pl
    ensures SoleImports([e], pl) == pl
  {
    if pl != [] {
      var init, last := pl[..|pl| - 1], pl[|pl| - 1];
      assert pl == init + [last] && last in pl;
      OneEdgeCounts(e, init);
      OneEdgeOccurs(e, last);
    }
  }

  lemma OneEdgeOccurs(e: Dependency, p: Package)
    requires NoDup(e.dep.pl) && p in e.dep.pl
    ensures Occurrences([e], p) == 1
  {
    assert [e][..0] == [];
    assert Occurrences([], p) == 0;
    OnceOnly(e.dep.pl, p);
  }

  lemma {:induction false} OnceOnly(pl: seq<Package>, p: Package)
    requires NoDup(pl) && p in pl
    ensures multiset(pl)[p] == 1
  {
    var init, last := pl[..|pl| - 1], pl[|pl| - 1];
    assert pl == init + [last];
    if last == p {
      assert p !in init;
    } else {
      OnceOnly(init, p);
    }
  }

  lemma FirstNewBmi(w: World, edges: Edges, a: Atom, d: CompleteDep)
    requires On(edges, d.ident.root) == [] && NoDup(d.pl)
    ensures NewBmi(w, edges, a, d) == Bmi(d.ident, d.pl, LockedAt(w.lock(a.id, a.v), d.ident), false)
  {
    hide LockedAt;
    var e := Dependency(a, d);
    assert [] + [e] == [e];
    OneEdgeCounts(e, d.pl);
  }

  lemma CheckedIsValid(w: World, a: Atom, pl: seq<Package>, r: ProjectRoot)
    requires ValidWorld(w) && Imports(w, a, pl).Imported? && r in Imports(w, a, pl).deps
    ensures ValidDep(w, r, Imports(w, a, pl).deps[r])
  {
    assert GoodDeps(w, a, pl);
  }

  lemma SelectedQueue(w: World, s: Core, t: Core, awp: AtomWithPackages, pkgonly: bool, order: seq<ProjectRoot>)
    requires Selecting(w, s, t, awp, pkgonly, order) && Imports(w, awp.a, awp.pl).Imported?
    ensures ValidWorld(w) && Listing(order, Imports(w, awp.a, awp.pl).deps.Keys - {w.rootName})
    ensures multiset(t.unsel) == multiset(RemoveFirst(s.unsel, awp.a.id, awp.pl)) + Enqueued(w, s.deps, awp.a, Imports(w, awp.a, awp.pl).deps, order)
  {
    hide ValidWorld, Inv, CheckOk, Imports, RemoveFirst, Enqueued, MarkRoots, AddEdges;
  }

  /** When a selection brings the first dependency on a project, the work for it has all its packages,
      is for the source the dependency gives, and prefers what the selected version's lock says. */
  lemma FirstDependencyIsQueued(w: World, s: Core, t: Core, awp: AtomWithPackages, pkgonly: bool, order: seq<ProjectRoot>, r: ProjectRoot)
    requires Selecting(w, s, t, awp, pkgonly, order) && Imports(w, awp.a, awp.pl).Imported? && r in Imports(w, awp.a, awp.pl).deps
    requires r != w.rootName && On(s.deps, r) == []
    ensures var d := Imports(w, awp.a, awp.pl).deps[r];
            Bmi(d.ident, d.pl, LockedAt(w.lock(awp.a.id, awp.a.v), d.ident), false) in t.unsel
  {
    hide Selecting, ValidWorld, Imports, LockedAt, RemoveFirst, Enqueued, NewBmi, On;
    SelectedQueue(w, s, t, awp, pkgonly, order);
    CheckedIsValid(w, awp.a, awp.pl, r);
    var deps := Imports(w, awp.a, awp.pl).deps;
    FirstNewBmi(w, s.deps, awp.a, deps[r]);
    assert r in order by { assert r in Elems(order); }
    EnqueuedHas(w, s.deps, awp.a, deps, order, r);
    AddedIsIn(t.unsel, RemoveFirst(s.unsel, awp.a.id, awp.pl), Enqueued(w, s.deps, awp.a, deps, order), NewBmi(w, s.deps, awp.a, deps[r]));
  }

  lemma AddedIsIn(sl: seq<Bmi>, before: seq<Bmi>, more: multiset<Bmi>, b: Bmi)
    requires multiset(sl) == multiset(before) + more && more[b] > 0
    ensures b in sl
  {
    assert multiset(sl)[b] > 0;
  }
}
