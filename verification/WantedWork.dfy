/** When everything queued and selected is wanted: that something depends on it.  Unselecting can
    break this; what it takes, and what follows as long as it does not happen. */
module WantedWork {
  import opened Constraints
  import opened Identifiers
  import opened Bridge
  import opened SolverCore
  import opened SolverInvariants
  import opened SolverSteps
  import opened SolverRuns

  /** Each selected project is a dependency of something selected before it. */
  ghost predicate Grounded(w: World, projects: seq<Selected>) {
    forall i :: 1 <= i < |projects| ==> Replay(w, projects[..i], projects[i].a.a.id.root) != []
  }

  /** Something depends on each queued project. */
  ghost predicate NoStale(s: Core) {
    forall b <- s.unsel :: On(s.deps, b.id.root) != []
  }

  ghost predicate Wanted(w: World, s: Core) {
    Grounded(w, s.projects) && NoStale(s)
  }

  // ------------------------------------------------------------------ selecting

  lemma GroundedPush(w: World, projects: seq<Selected>, x: Selected)
    requires Grounded(w, projects) && Replay(w, projects, x.a.a.id.root) != []
    ensures Grounded(w, projects + [x])
  {
    var more := projects + [x];
    forall i | 1 <= i < |more| ensures Replay(w, more[..i], more[i].a.a.id.root) != [] {
      assert more[..i] == projects[..i];
      assert i == |projects| ==> projects[..i] == projects;
    }
  }

  lemma GroundedPop(w: World, projects: seq<Selected>, x: Selected)
    requires Grounded(w, projects + [x]) && projects != []
    ensures Grounded(w, projects) && Replay(w, projects, x.a.a.id.root) != []
  {
    var more := projects + [x];
    assert more[..|projects|] == projects && more[|projects|] == x;
    forall i | 1 <= i < |projects| ensures Replay(w, projects[..i], projects[i].a.a.id.root) != [] {
      assert more[..i] == projects[..i] && more[i] == projects[i];
    }
  }

  /** Where an item of the queue after selecting comes from. */
  lemma SelectedQueue(w: World, s: Core, t: Core, awp: AtomWithPackages, pkgonly: bool, order: seq<ProjectRoot>, b: Bmi) returns (r: Option<ProjectRoot>)
    requires Selecting(w, s, t, awp, pkgonly, order) && b in t.unsel
    ensures match r
            case None => b in RemoveFirst(s.unsel, awp.a.id, awp.pl)
            case Some(q) => q != w.rootName && q in DepsOf(w, Pushed(w, awp, pkgonly))
                            && b == NewBmi(w, s.deps, awp.a, DepsOf(w, Pushed(w, awp, pkgonly))[q]) && b.id.root == q && b.pl != []
  {
    PushedOk(w, s, t, awp, pkgonly, order);
    var deps := DepsOf(w, Pushed(w, awp, pkgonly));
    InInMultiset(t.unsel, b);
    InInMultiset(RemoveFirst(s.unsel, awp.a.id, awp.pl), b);
    if b in RemoveFirst(s.unsel, awp.a.id, awp.pl) { return None; }
    var q := EnqueuedOnly(w, s.deps, awp.a, deps, order, b);
    assert q in Elems(order);
    assert ValidDep(w, q, deps[q]);
    NewBmiRoot(w, s, awp.a, deps[q], q);
    EnqueuedNonEmpty(w, s.deps, awp.a, deps, order, b);
    r := Some(q);
  }

  lemma {:induction false} EnqueuedNonEmpty(w: World, edges: Edges, a: Atom, deps: Deps, order: seq<ProjectRoot>, b: Bmi)
    requires Elems(order) <= deps.Keys && b in Enqueued(w, edges, a, deps, order)
    ensures b.pl != []
  {
    hide NewBmi;
    var init, last := order[..|order| - 1], order[|order| - 1];
    assert last in Elems(order) && Elems(init) <= Elems(order);
    if b in Enqueued(w, edges, a, deps, init) { EnqueuedNonEmpty(w, edges, a, deps, init, b); }
  }

  lemma SelectKeepsNoStale(w: World, s: Core, t: Core, awp: AtomWithPackages, pkgonly: bool, order: seq<ProjectRoot>, b: Bmi)
    requires Selecting(w, s, t, awp, pkgonly, order) && NoStale(s) && b in t.unsel
    ensures On(t.deps, b.id.root) != []
  {
    var r := SelectedQueue(w, s, t, awp, pkgonly, order, b);
    SelectEdges(w, s, t, awp, pkgonly, order, b.id.root);
    if r.None? {
      RemoveFirstKeeps(s.unsel, awp.a.id, awp.pl, b);
    }
  }

  /** Selecting what something depends on keeps everything wanted. */
  lemma SelectKeepsWanted(w: World, s: Core, t: Core, awp: AtomWithPackages, pkgonly: bool, order: seq<ProjectRoot>)
    requires Selecting(w, s, t, awp, pkgonly, order) && Wanted(w, s) && On(s.deps, awp.a.id.root) != []
    ensures Wanted(w, t)
  {
    PushedOk(w, s, t, awp, pkgonly, order);
    assert On(s.deps, awp.a.id.root) == Replay(w, s.projects, awp.a.id.root);
    hide Inv, ValidWorld, Selects;
    GroundedPush(w, s.projects, Pushed(w, awp, pkgonly));
    hide Selecting, Grounded;
    forall b | b in t.unsel ensures On(t.deps, b.id.root) != [] { SelectKeepsNoStale(w, s, t, awp, pkgonly, order, b); }

  }

  // ------------------------------------------------------------------ counting the items of a root

  function Items(sl: seq<Bmi>, q: ProjectRoot): nat {
    if sl == [] then 0 else (if sl[0].id.root == q then 1 else 0) + Items(sl[1..], q)
  }

  lemma {:induction false} ItemsConcat(a: seq<Bmi>, b: seq<Bmi>, q: ProjectRoot)
    ensures Items(a + b, q) == Items(a, q) + Items(b, q)
  {
    if a == [] {
      assert a + b == b;
    } else {
      assert (a + b)[1..] == a[1..] + b;
      ItemsConcat(a[1..], b, q);
    }
  }

  lemma ItemsOne(x: Bmi, q: ProjectRoot)
    ensures Items([x], q) == if x.id.root == q then 1 else 0
  {
    assert [x][1..] == [];
  }

  lemma WithoutOne(b: seq<Bmi>, i: nat, q: ProjectRoot)
    requires i < |b|
    ensures multiset(b) == multiset(b[..i] + b[i + 1..]) + multiset{b[i]}
    ensures Items(b, q) == Items(b[..i] + b[i + 1..], q) + if b[i].id.root == q then 1 else 0
  {
    assert b == b[..i] + ([b[i]] + b[i + 1..]);
    ItemsConcat(b[..i], [b[i]] + b[i + 1..], q);
    ItemsConcat([b[i]], b[i + 1..], q);
    ItemsConcat(b[..i], b[i + 1..], q);
    ItemsOne(b[i], q);
  }

  /** b without one x. */
  lemma TakeOne(b: seq<Bmi>, x: Bmi, q: ProjectRoot) returns (rest: seq<Bmi>)
    requires x in multiset(b)
    ensures multiset(b) == multiset(rest) + multiset{x}
    ensures Items(b, q) == Items(rest, q) + if x.id.root == q then 1 else 0
  {
    InInMultiset(b, x);
    var i :| 0 <= i < |b| && b[i] == x;
    WithoutOne(b, i, q);
    rest := b[..i] + b[i + 1..];
  }

  lemma TakeFirst(a: seq<Bmi>, q: ProjectRoot)
    requires a != []
    ensures multiset(a) == multiset(a[1..]) + multiset{a[0]} && a[0] in multiset(a)
    ensures Items(a, q) == Items(a[1..], q) + if a[0].id.root == q then 1 else 0
  {
    assert a == [a[0]] + a[1..];
  }

  lemma NoItems(b: seq<Bmi>, q: ProjectRoot)
    requires multiset(b) == multiset{}
    ensures Items(b, q) == 0
  {
    assert |multiset(b)| == |b|;
  }

  lemma {:induction false} ItemsPermute(a: seq<Bmi>, b: seq<Bmi>, q: ProjectRoot)
    requires multiset(a) == multiset(b)
    ensures Items(a, q) == Items(b, q)
  {
    hide Items;
    if a == [] {
      NoItems(a, q);
      NoItems(b, q);
    } else {
      TakeFirst(a, q);
      var rest := TakeOne(b, a[0], q);
      SameRest(multiset(a[1..]), multiset(rest), a[0]);
      ItemsPermute(a[1..], rest, q);
    }
  }

  lemma SameRest(a: multiset<Bmi>, b: multiset<Bmi>, x: Bmi)
    requires a + multiset{x} == b + multiset{x}
    ensures a == b
  {
    assert a == a + multiset{x} - multiset{x} && b == b + multiset{x} - multiset{x};
  }

  lemma {:induction false} ItemsAre(sl: seq<Bmi>, q: ProjectRoot)
    ensures Items(sl, q) == 0 <==> forall b <- sl :: b.id.root != q
  {
    if sl != [] {
      ItemsAre(sl[1..], q);
      assert sl == [sl[0]] + sl[1..];
    }
  }

  ghost predicate HasWork(sl: seq<Bmi>, id: ProjectIdentifier, pl: seq<Package>) {
    exists b :: b in sl && SameWork(b, id, pl)
  }

  lemma {:induction false} RemoveFirstCounts(sl: seq<Bmi>, id: ProjectIdentifier, pl: seq<Package>, q: ProjectRoot)
    ensures Items(RemoveFirst(sl, id, pl), q) == Items(sl, q) - if q == id.root && HasWork(sl, id, pl) then 1 else 0
  {
    if sl != [] {
      assert sl == [sl[0]] + sl[1..];
      if SameWork(sl[0], id, pl) {
        assert HasWork(sl, id, pl);
      } else {
        RemoveFirstCounts(sl[1..], id, pl, q);
        assert HasWork(sl, id, pl) <==> HasWork(sl[1..], id, pl);
        ItemsConcat([sl[0]], RemoveFirst(sl[1..], id, pl), q);
        ItemsOne(sl[0], q);
      }
    }
  }

  /** Unselecting removes one item at most of a root that lost its last edge, and no others. */
  lemma {:induction false} DropUnneededCounts(edges: Edges, deps: Deps, sl: seq<Bmi>, order: seq<ProjectRoot>, q: ProjectRoot)
    requires Elems(order) <= deps.Keys && NoDup(order) && forall r <- deps :: deps[r].ident.root == r
    ensures Items(DropUnneeded(edges, deps, sl, order), q) ==
            Items(sl, q) - if q in order && On(edges, q) == [] && HasWork(sl, deps[q].ident, deps[q].pl) then 1 else 0
    decreases |order|
  {
    if order != [] {
      var init, r := order[..|order| - 1], order[|order| - 1];
      assert r in Elems(order) && Elems(init) <= Elems(order) && order == init + [r];
      assert r !in init;
      DropUnneededCounts(edges, deps, sl, init, q);
      var rest := DropUnneeded(edges, deps, sl, init);
      RemoveFirstCounts(rest, deps[r].ident, deps[r].pl, q);
      if q == r { UntouchedWork(edges, deps, sl, init, deps[r].ident, deps[r].pl); }
    }
  }

  lemma {:induction false} UntouchedWork(edges: Edges, deps: Deps, sl: seq<Bmi>, order: seq<ProjectRoot>, id: ProjectIdentifier, pl: seq<Package>)
    requires Elems(order) <= deps.Keys && id.root !in order && forall r <- deps :: deps[r].ident.root == r
    ensures HasWork(DropUnneeded(edges, deps, sl, order), id, pl) <==> HasWork(sl, id, pl)
    decreases |order|
  {
    if order != [] {
      var init, r := order[..|order| - 1], order[|order| - 1];
      assert r in Elems(order) && Elems(init) <= Elems(order) && order == init + [r];
      UntouchedWork(edges, deps, sl, init, id, pl);
      var rest := DropUnneeded(edges, deps, sl, init);
      forall b | SameWork(b, id, pl) ensures b in RemoveFirst(rest, deps[r].ident, deps[r].pl) <==> b in rest {
        RemoveFirstKeeps(rest, deps[r].ident, deps[r].pl, b);
      }
    }
  }

  // ------------------------------------------------------------------ unselecting

  /** All work queued for q is the one item that removal looks for. */
  ghost predicate OnlyWork(sl: seq<Bmi>, q: ProjectRoot, d: CompleteDep) {
    Items(sl, q) == 0 || (Items(sl, q) == 1 && HasWork(sl, d.ident, d.pl))
  }

  /** What the last entry alone depends on has no other work queued than this entry asked for. */
  ghost predicate Tidy(w: World, s: Core)
    requires s.projects != []
  {
    var deps := DepsOf(w, s.projects[|s.projects| - 1]);
    forall q :: q in deps && q != w.rootName && |On(s.deps, q)| == 1 ==> OnlyWork(s.unsel, q, deps[q])
  }

  lemma UnselectedItems(w: World, s: Core, t: Core, queue: seq<Bmi>, order: seq<ProjectRoot>, q: ProjectRoot)
    requires Unselecting(w, s, t, queue, order)
    ensures var x := s.projects[|s.projects| - 1];
            var deps := DepsOf(w, x);
            && (On(t.deps, q) != [] || q !in deps || q == w.rootName ==>
                  Items(t.unsel, q) == Items(s.unsel, q) + if x.a.a.id.root == q then 1 else 0)
            && (On(t.deps, q) == [] && q in deps && q != w.rootName && q != x.a.a.id.root ==>
                  Items(t.unsel, q) == Items(s.unsel, q) - if HasWork(s.unsel, deps[q].ident, deps[q].pl) then 1 else 0)
  {
    var x := s.projects[|s.projects| - 1];
    PoppedOk(w, s, t, queue, order);
    DepsOfValid(w, x);
    var deps, back := DepsOf(w, x), Bmi(x.a.a.id, x.a.pl, None, false);
    hide Inv;
    assert Elems(order) == deps.Keys - {w.rootName};
    assert q in order <==> q in Elems(order);
    DropUnneededCounts(t.deps, deps, queue, order, q);
    ItemsPermute(queue, s.unsel + [back], q);
    ItemsConcat(s.unsel, [back], q);
    ItemsOne(back, q);
    if q in deps {
      forall b ensures b in queue <==> b in s.unsel || b == back {
        InInMultiset(queue, b);
        InInMultiset(s.unsel, b);
      }
      assert q != x.a.a.id.root ==> (HasWork(queue, deps[q].ident, deps[q].pl) <==> HasWork(s.unsel, deps[q].ident, deps[q].pl));
    }
  }

  /** What lost its last edge depends on nothing below, hence is not selected. */
  lemma UnselectWants(w: World, s: Core, t: Core, queue: seq<Bmi>, order: seq<ProjectRoot>)
    requires Unselecting(w, s, t, queue, order) && Wanted(w, s)
    ensures var x := s.projects[|s.projects| - 1]; s.projects == t.projects + [x] && On(t.deps, x.a.a.id.root) != []
    ensures Grounded(w, t.projects) && Replayed(w, t)
  {
    UnselectAllEdges(w, s, t, queue, order);
    var x := s.projects[|s.projects| - 1];
    GroundedPop(w, t.projects, x);
    assert On(t.deps, x.a.a.id.root) == Replay(w, t.projects, x.a.a.id.root);
  }

  lemma UnselectedOn(w: World, s: Core, t: Core, queue: seq<Bmi>, order: seq<ProjectRoot>, q: ProjectRoot)
    requires Unselecting(w, s, t, queue, order)
    ensures var deps := DepsOf(w, s.projects[|s.projects| - 1]);
            On(s.deps, q) != [] && On(t.deps, q) == [] <==> q in deps && q != w.rootName && |On(s.deps, q)| == 1
  {
    UnselectAllEdges(w, s, t, queue, order);
  }

  /** Exactly when unselecting keeps everything wanted: if the popped entry was the only one to
      depend on a project, no work for it is queued but, perhaps, the one item this entry asked for. */
  lemma UnselectKeepsWanted(w: World, s: Core, t: Core, queue: seq<Bmi>, order: seq<ProjectRoot>)
    requires Unselecting(w, s, t, queue, order) && Wanted(w, s)
    ensures Wanted(w, t) <==> Tidy(w, s)
  {
    UnselectWants(w, s, t, queue, order);
    var deps := DepsOf(w, s.projects[|s.projects| - 1]);
    hide Unselecting, Grounded, Replayed, OnlyWork;
    if Tidy(w, s) {
      forall b | b in t.unsel ensures On(t.deps, b.id.root) != [] {
        if On(t.deps, b.id.root) == [] { StaleHasReason(w, s, t, queue, order, b); }
      }
    }
    if Wanted(w, t) {
      forall q | q in deps && q != w.rootName && |On(s.deps, q)| == 1 ensures OnlyWork(s.unsel, q, deps[q]) {
        NoStaleHasReason(w, s, t, queue, order, q);
      }
    }
  }

  lemma StaleHasReason(w: World, s: Core, t: Core, queue: seq<Bmi>, order: seq<ProjectRoot>, b: Bmi)
    requires Unselecting(w, s, t, queue, order) && Wanted(w, s) && b in t.unsel && On(t.deps, b.id.root) == []
    ensures !Tidy(w, s)
  {
    var q, deps := b.id.root, DepsOf(w, s.projects[|s.projects| - 1]);
    UnselectWants(w, s, t, queue, order);
    UnselectedItems(w, s, t, queue, order, q);
    UnselectedOn(w, s, t, queue, order, q);
    ItemsAre(t.unsel, q);
    ItemsAre(s.unsel, q);
    hide Unselecting, Grounded, Replayed, HasWork;
    assert Items(t.unsel, q) > 0;
    assert On(s.deps, q) != [];
    assert !OnlyWork(s.unsel, q, deps[q]);
  }

  lemma NoStaleHasReason(w: World, s: Core, t: Core, queue: seq<Bmi>, order: seq<ProjectRoot>, q: ProjectRoot)
    requires Unselecting(w, s, t, queue, order) && Wanted(w, s) && Wanted(w, t)
    requires var deps := DepsOf(w, s.projects[|s.projects| - 1]); q in deps && q != w.rootName && |On(s.deps, q)| == 1
    ensures OnlyWork(s.unsel, q, DepsOf(w, s.projects[|s.projects| - 1])[q])
  {
    UnselectWants(w, s, t, queue, order);
    UnselectedItems(w, s, t, queue, order, q);
    UnselectedOn(w, s, t, queue, order, q);
    ItemsAre(t.unsel, q);
    hide Unselecting, Grounded, Replayed, HasWork;
    assert Items(t.unsel, q) == 0;
  }

  // ------------------------------------------------------------------ sources

  /** The identifier is the one the root is known by. */
  ghost predicate Known(s: Core, id: ProjectIdentifier) {
    On(s.deps, id.root) != [] && id == On(s.deps, id.root)[0].dep.ident
  }

  ghost predicate Sourced(s: Core) {
    && (forall b <- s.unsel :: Known(s, b.id))
    && forall i :: 1 <= i < |s.projects| ==> Known(s, s.projects[i].a.a.id)
  }

  lemma SelectKeepsKnown(w: World, s: Core, t: Core, awp: AtomWithPackages, pkgonly: bool, order: seq<ProjectRoot>, id: ProjectIdentifier)
    requires Selecting(w, s, t, awp, pkgonly, order) && Known(s, id)
    ensures Known(t, id)
  {
    SelectEdges(w, s, t, awp, pkgonly, order, id.root);
  }

  lemma NewIsKnown(w: World, s: Core, t: Core, awp: AtomWithPackages, pkgonly: bool, order: seq<ProjectRoot>, q: ProjectRoot)
    requires Selecting(w, s, t, awp, pkgonly, order) && q in DepsOf(w, Pushed(w, awp, pkgonly)) && q != w.rootName
    ensures Known(t, NewBmi(w, s.deps, awp.a, DepsOf(w, Pushed(w, awp, pkgonly))[q]).id)
  {
    PushedOk(w, s, t, awp, pkgonly, order);
    SelectEdges(w, s, t, awp, pkgonly, order, q);
    var d := DepsOf(w, Pushed(w, awp, pkgonly))[q];
    NewBmiRoot(w, s, awp.a, d, q);
    assert ValidDep(w, q, d);
    hide Selecting, DepsOf;
    assert On(t.deps, q) == On(s.deps, q) + [Dependency(awp.a, d)];
  }

  lemma QueuedIsKnown(w: World, s: Core, t: Core, awp: AtomWithPackages, pkgonly: bool, order: seq<ProjectRoot>, b: Bmi)
    requires Selecting(w, s, t, awp, pkgonly, order) && Sourced(s) && b in t.unsel
    ensures Known(t, b.id)
  {
    var r := SelectedQueue(w, s, t, awp, pkgonly, order, b);
    hide Selecting, Known, Pushed;
    if r.None? {
      RemoveFirstKeeps(s.unsel, awp.a.id, awp.pl, b);
      SelectKeepsKnown(w, s, t, awp, pkgonly, order, b.id);
    } else {
      NewIsKnown(w, s, t, awp, pkgonly, order, r.value);
    }
  }

  lemma SelectedIsKnown(w: World, s: Core, t: Core, awp: AtomWithPackages, pkgonly: bool, order: seq<ProjectRoot>, i: nat)
    requires Selecting(w, s, t, awp, pkgonly, order) && Sourced(s) && Known(s, awp.a.id) && 1 <= i < |t.projects|
    ensures Known(t, t.projects[i].a.a.id)
  {
    PushedOk(w, s, t, awp, pkgonly, order);
    assert i < |s.projects| ==> t.projects[i] == s.projects[i];
    assert i == |s.projects| ==> t.projects[i].a.a == awp.a;
    hide Selecting, Pushed, DepsOf;
    assert Known(s, t.projects[i].a.a.id);
    hide Known;
    SelectKeepsKnown(w, s, t, awp, pkgonly, order, t.projects[i].a.a.id);
  }

  lemma SelectKeepsSourced(w: World, s: Core, t: Core, awp: AtomWithPackages, pkgonly: bool, order: seq<ProjectRoot>)
    requires Selecting(w, s, t, awp, pkgonly, order) && Sourced(s) && Known(s, awp.a.id)
    ensures Sourced(t)
  {
    hide Selecting, Known;
    forall b | b in t.unsel ensures Known(t, b.id) { QueuedIsKnown(w, s, t, awp, pkgonly, order, b); }
    forall i | 1 <= i < |t.projects| ensures Known(t, t.projects[i].a.a.id) { SelectedIsKnown(w, s, t, awp, pkgonly, order, i); }
  }

  lemma {:induction false} ReplayGrows(w: World, projects: seq<Selected>, n: nat, r: ProjectRoot)
    requires n <= |projects|
    ensures Replay(w, projects[..n], r) != [] ==> Replay(w, projects, r) != []
  {
    if n < |projects| {
      ReplayGrows(w, projects[..|projects| - 1], n, r);
      assert projects[..|projects| - 1][..n] == projects[..n];
    } else {
      assert projects[..n] == projects;
    }
  }

  lemma UnselectKeepsKnown(w: World, s: Core, t: Core, queue: seq<Bmi>, order: seq<ProjectRoot>, id: ProjectIdentifier)
    requires Unselecting(w, s, t, queue, order) && Known(s, id) && On(t.deps, id.root) != []
    ensures Known(t, id)
  {
    UnselectAllEdges(w, s, t, queue, order);
  }

  lemma UnselectedQueue(w: World, s: Core, t: Core, queue: seq<Bmi>, order: seq<ProjectRoot>, b: Bmi)
    requires Unselecting(w, s, t, queue, order) && b in t.unsel
    ensures var x := s.projects[|s.projects| - 1]; b in s.unsel || b == Bmi(x.a.a.id, x.a.pl, None, false)
  {
    var x := s.projects[|s.projects| - 1];
    PoppedOk(w, s, t, queue, order);
    DepsOfValid(w, x);
    DropUnneededKeeps(t.deps, DepsOf(w, x), queue, order, b);
    InInMultiset(queue, b);
    InInMultiset(s.unsel, b);
  }

  lemma SelectedStayKnown(w: World, s: Core, t: Core, queue: seq<Bmi>, order: seq<ProjectRoot>, i: nat)
    requires Unselecting(w, s, t, queue, order) && Sourced(s) && 1 <= i < |t.projects|
    requires |t.projects| < |s.projects| && t.projects[i] == s.projects[i] && Grounded(w, t.projects) && Replayed(w, t)
    ensures Known(t, t.projects[i].a.a.id)
  {
    hide Unselecting, Known;
    var r := t.projects[i].a.a.id.root;
    ReplayGrows(w, t.projects, i, r);
    UnselectKeepsKnown(w, s, t, queue, order, t.projects[i].a.a.id);
  }

  lemma QueuedStayKnown(w: World, s: Core, t: Core, queue: seq<Bmi>, order: seq<ProjectRoot>, b: Bmi)
    requires Unselecting(w, s, t, queue, order) && Sourced(s) && s.projects != [] && b in t.unsel && On(t.deps, b.id.root) != []
    requires |s.projects| > 1
    ensures Known(t, b.id)
  {
    hide Unselecting, Known;
    UnselectedQueue(w, s, t, queue, order, b);
    UnselectKeepsKnown(w, s, t, queue, order, b.id);
  }

  lemma UnselectKeepsSourced(w: World, s: Core, t: Core, queue: seq<Bmi>, order: seq<ProjectRoot>)
    requires Unselecting(w, s, t, queue, order) && Sourced(s) && Wanted(w, s) && NoStale(t)
    ensures Sourced(t)
  {
    UnselectWants(w, s, t, queue, order);
    LongerThanOne(w, s, t, queue, order);
    hide Unselecting, Known, Wanted, Grounded, Replayed, Inv;
    forall b | b in t.unsel ensures Known(t, b.id) {
      QueuedStayKnown(w, s, t, queue, order, b);
    }
    forall i | 1 <= i < |t.projects| ensures Known(t, t.projects[i].a.a.id) {
      assert t.projects[i] == s.projects[i];
      SelectedStayKnown(w, s, t, queue, order, i);
    }
  }

  lemma LongerThanOne(w: World, s: Core, t: Core, queue: seq<Bmi>, order: seq<ProjectRoot>)
    requires Unselecting(w, s, t, queue, order)
    ensures |s.projects| > 1
  {
  }

  ghost predicate AllWanted(w: World, ss: seq<Core>) {
    forall k :: 0 <= k < |ss| ==> Wanted(w, ss[k])
  }

  ghost predicate AllSourced(ss: seq<Core>) {
    forall k :: 0 <= k < |ss| ==> Sourced(ss[k])
  }

  lemma DueIsKnown(s: Core, id: ProjectIdentifier, pl: seq<Package>)
    requires Sourced(s) && Due(s, id, pl)
    ensures Known(s, id)
  {
    var b :| b in s.unsel && b.id == id && b.pl == pl;
  }

  lemma StartSourced(w: World, s: Core)
    requires ValidWorld(w) && exists order :: Start(w, s, order)
    ensures Sourced(s) && Wanted(w, s)
  {
    var order :| Start(w, s, order);
    forall b | b in s.unsel ensures Known(s, b.id) {
      RootWorkIs(w, order, b);
      InInMultiset(s.unsel, b);
      StartEdges(w, s, order, b.id.root);
    }
  }

  /** As long as no step leaves stale work, everything queued or selected for a root carries the
      identifier of the first dependency on it, so its sources agree. */
  lemma {:induction false} WantedRunsAgree(w: World, ss: seq<Core>)
    requires ValidWorld(w) && Scheduled(w, ss) && AllWanted(w, ss)
    ensures AllSourced(ss)
  {
    hide Sourced, Wanted, ValidWorld, Inv, Start, Known, Scheduled, Follows, Picks, Backs;
    var n := |ss| - 1;
    if n <= 0 {
      FirstState(w, ss);
      StartSourced(w, ss[0]);
    } else {
      LastState(w, ss);
      WantedRunsAgree(w, ss[..n]);
      WantedStep(w, ss[..n][n - 1], ss[n]);
      forall k | 0 <= k <= n ensures Sourced(ss[k]) { if k < n { assert ss[..n][k] == ss[k]; } }
    }
  }

  lemma FirstState(w: World, ss: seq<Core>)
    requires Scheduled(w, ss)
    ensures ss != [] && exists order :: Start(w, ss[0], order)
  {
    assert Follows(w, ss, 0);
  }

  lemma LastState(w: World, ss: seq<Core>)
    requires ValidWorld(w) && Scheduled(w, ss) && |ss| > 1
    ensures var n := |ss| - 1;
            && Scheduled(w, ss[..n]) && Inv(w, ss[..n][n - 1]) && (Picks(w, ss[..n][n - 1], ss[n]) || Backs(w, ss[..n][n - 1], ss[n]))
  {
    hide ValidWorld, Inv, Picks, Backs, Start;
    var n := |ss| - 1;
    assert Follows(w, ss, n);
    ScheduledPrefix(w, ss, n);
    ScheduledIsRun(w, ss[..n]);
    RunInv(w, ss[..n]);
  }

  lemma WantedStep(w: World, s: Core, t: Core)
    requires ValidWorld(w) && Inv(w, s) && Wanted(w, s) && Sourced(s) && Wanted(w, t) && (Picks(w, s, t) || Backs(w, s, t))
    ensures Sourced(t)
  {
    if Picks(w, s, t) {
      var awp, pkgonly, order :|
        Request(w, s, awp, pkgonly) && CheckOk(w, s, awp, pkgonly) && Selects(w, s, t, awp, pkgonly, order) && Due(s, awp.a.id, awp.pl);
      DueIsKnown(s, awp.a.id, awp.pl);
      SelectKeepsSourced(w, s, t, awp, pkgonly, order);
    } else {
      var queue, order :| Unselects(w, s, t, queue, order);
      UnselectKeepsSourced(w, s, t, queue, order);
    }
  }
}
