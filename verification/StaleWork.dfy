/** What unselectLast leaves in the work queue: it pushes back the extended package list of a
    popped entry but removes work by the list of the dependency that asked for it. */
module StaleWork {
  import opened Constraints
  import opened Identifiers
  import opened Bridge
  import opened SolverCore
  import opened SolverInvariants
  import opened SolverSteps

  /** Work for a project that nothing depends on. */
  ghost predicate Leftover(s: Core, b: Bmi) {
    b in s.unsel && On(s.deps, b.id.root) == []
  }

  ghost predicate SomeLeftover(s: Core, r: ProjectRoot) {
    exists b :: Leftover(s, b) && b.id.root == r
  }

  // ------------------------------------------------------------------ what removal spares

  /** back is the only item of its root. */
  ghost predicate Alone(sl: seq<Bmi>, back: Bmi) {
    multiset(sl)[back] == 1 && forall b <- sl :: b.id.root == back.id.root ==> b == back
  }

  lemma NotAgain(x: Bmi, rest: seq<Bmi>)
    requires multiset([x] + rest)[x] == 1
    ensures x !in rest
  {
    assert multiset([x] + rest) == multiset{x} + multiset(rest);
    InInMultiset(rest, x);
  }

  lemma {:induction false} RemoveFirstAlone(sl: seq<Bmi>, id: ProjectIdentifier, pl: seq<Package>, back: Bmi)
    requires Alone(sl, back)
    ensures if SameWork(back, id, pl) then forall b <- RemoveFirst(sl, id, pl) :: b.id.root != back.id.root
            else Alone(RemoveFirst(sl, id, pl), back)
  {
    var rest := sl[1..];
    assert sl == [sl[0]] + rest;
    if SameWork(sl[0], id, pl) {
      if sl[0] == back { NotAgain(back, rest); }
    } else if sl[0] == back {
      NotAgain(back, rest);
      RemoveFirstSubset(rest, id, pl);
    } else {
      RemoveFirstAlone(rest, id, pl, back);
    }
  }

  lemma {:induction false} RemoveFirstSubset(sl: seq<Bmi>, id: ProjectIdentifier, pl: seq<Package>)
    ensures forall b <- RemoveFirst(sl, id, pl) :: b in sl
  {
    forall b ensures b in RemoveFirst(sl, id, pl) ==> b in sl { RemoveFirstKeeps(sl, id, pl, b); }
  }

  /** The only item of a root that lost its last edge goes if it is the work of the popped
      dependency, and stays if it is not. */
  lemma {:induction false} DropUnneededAlone(edges: Edges, deps: Deps, sl: seq<Bmi>, order: seq<ProjectRoot>, back: Bmi)
    requires Elems(order) <= deps.Keys && NoDup(order) && forall r <- deps :: deps[r].ident.root == r
    requires Alone(sl, back) && On(edges, back.id.root) == []
    ensures var r, rest := back.id.root, DropUnneeded(edges, deps, sl, order);
            if r in order && SameWork(back, deps[r].ident, deps[r].pl) then forall b <- rest :: b.id.root != r
            else Alone(rest, back)
    decreases |order|
  {
    if order != [] {
      var init, q := order[..|order| - 1], order[|order| - 1];
      assert q in Elems(order) && Elems(init) <= Elems(order) && order == init + [q];
      assert q !in init;
      DropUnneededAlone(edges, deps, sl, init, back);
      var rest := DropUnneeded(edges, deps, sl, init);
      if Alone(rest, back) {
        RemoveFirstAlone(rest, deps[q].ident, deps[q].pl, back);
      }
      RemoveFirstSubset(rest, deps[q].ident, deps[q].pl);
    }
  }

  // ------------------------------------------------------------------ popping a project and its depender

  /** The last two entries are a project, for which nothing else is queued, and the only entry that
      depends on it. */
  ghost predicate OnlyDepender(w: World, s: Core, x: Selected, y: Selected) {
    var r, n := y.a.a.id.root, |s.projects|;
    && n > 2 && s.projects[n - 1] == y && s.projects[n - 2] == x
    && r != w.rootName && r in DepsOf(w, x) && x.a.a.id.root != r
    && On(s.deps, r) == [Edge(x.a.a, DepsOf(w, x), r)]
    && y.a.a.id.Eq(DepsOf(w, x)[r].ident)
    && forall b <- s.unsel :: b.id.root != r
  }

  function Back(x: Selected): Bmi { Bmi(x.a.a.id, x.a.pl, None, false) }

  lemma PushedBackAlone(s: seq<Bmi>, queue: seq<Bmi>, x: Selected)
    requires multiset(queue) == multiset(s) + multiset{Back(x)} && forall b <- s :: b.id.root != x.a.a.id.root
    ensures Alone(queue, Back(x))
  {
    InInMultiset(s, Back(x));
    forall b | b in queue && b != Back(x) ensures b in s { InInMultiset(queue, b); InInMultiset(s, b); }
  }

  lemma StaysAlone(s: seq<Bmi>, queue: seq<Bmi>, x: Selected, back: Bmi)
    requires multiset(queue) == multiset(s) + multiset{Back(x)} && Alone(s, back) && back.id.root != x.a.a.id.root
    ensures Alone(queue, back)
  {
    forall b | b in queue && b.id.root == back.id.root ensures b in s { InInMultiset(queue, b); InInMultiset(s, b); }
  }

  lemma OrderHas(order: seq<ProjectRoot>, rs: set<ProjectRoot>)
    requires Listing(order, rs)
    ensures Elems(order) == rs && NoDup(order) && forall r :: r in order <==> r in rs
  {
    forall r ensures r in order <==> r in rs { assert r in Elems(order) <==> r in order; }
  }

  /** The project does not depend on itself, and keeps its edge when it is popped. */
  lemma StillDependedOn(w: World, s: Core, t: Core, queue: seq<Bmi>, order: seq<ProjectRoot>, x: Selected, y: Selected)
    requires Unselecting(w, s, t, queue, order) && OnlyDepender(w, s, x, y)
    ensures var r := y.a.a.id.root; r !in DepsOf(w, y) && On(t.deps, r) == On(s.deps, r)
  {
    var r := y.a.a.id.root;
    UnselectAllEdges(w, s, t, queue, order);
    assert On(t.deps, r) == Replay(w, t.projects, r);
    hide Unselecting, DepsOf;
    assert t.projects[|t.projects| - 1] == x;
    assert Contribution(w, x, r) != [] && |On(t.deps, r)| >= 1;
  }

  lemma FirstPop(w: World, s: Core, t: Core, queue: seq<Bmi>, order: seq<ProjectRoot>, x: Selected, y: Selected)
    requires Unselecting(w, s, t, queue, order) && OnlyDepender(w, s, x, y)
    ensures On(t.deps, y.a.a.id.root) == On(s.deps, y.a.a.id.root)
    ensures Alone(t.unsel, Back(y))
  {
    StillDependedOn(w, s, t, queue, order, x, y);
    PoppedOk(w, s, t, queue, order);
    DepsOfValid(w, y);
    PushedBackAlone(s.unsel, queue, y);
    hide Inv, ValidWorld;
    OrderHas(order, DepsOf(w, y).Keys - {w.rootName});
    SparedByOthers(t.deps, DepsOf(w, y), queue, order, Back(y));
  }

  lemma {:induction false} SparedByOthers(edges: Edges, deps: Deps, sl: seq<Bmi>, order: seq<ProjectRoot>, back: Bmi)
    requires Elems(order) <= deps.Keys && (forall r <- deps :: deps[r].ident.root == r) && back.id.root !in deps
    requires Alone(sl, back)
    ensures Alone(DropUnneeded(edges, deps, sl, order), back)
    decreases |order|
  {
    if order != [] {
      var init, q := order[..|order| - 1], order[|order| - 1];
      assert q in Elems(order) && Elems(init) <= Elems(order);
      SparedByOthers(edges, deps, sl, init, back);
      RemoveFirstAlone(DropUnneeded(edges, deps, sl, init), deps[q].ident, deps[q].pl, back);
    }
  }

  lemma SecondPop(w: World, t: Core, u: Core, queue: seq<Bmi>, order: seq<ProjectRoot>, x: Selected, back: Bmi)
    requires Unselecting(w, t, u, queue, order) && t.projects[|t.projects| - 1] == x
    requires var r := back.id.root;
             && r != w.rootName && r in DepsOf(w, x) && x.a.a.id.root != r && Alone(t.unsel, back)
             && On(t.deps, r) == [Edge(x.a.a, DepsOf(w, x), r)] && back.id.Eq(DepsOf(w, x)[r].ident)
    ensures On(u.deps, back.id.root) == []
    ensures SomeLeftover(u, back.id.root) <==> back.pl != DepsOf(w, x)[back.id.root].pl
  {
    var r, deps := back.id.root, DepsOf(w, x);
    UnselectAllEdges(w, t, u, queue, order);
    PoppedOk(w, t, u, queue, order);
    DepsOfValid(w, x);
    assert On(t.deps, r) == On(u.deps, r) + Contribution(w, x, r);
    StaysAlone(t.unsel, queue, x, back);
    OrderHas(order, deps.Keys - {w.rootName});
    hide Inv, ValidWorld;
    DropUnneededAlone(u.deps, deps, queue, order, back);
    if back.pl != deps[r].pl {
      assert multiset(u.unsel)[back] == 1;
      InInMultiset(u.unsel, back);
      assert Leftover(u, back);
    }
  }

  lemma NextPop(w: World, s: Core, t: Core, u: Core, queue: seq<Bmi>, order: seq<ProjectRoot>, queue2: seq<Bmi>, order2: seq<ProjectRoot>)
    requires Unselecting(w, s, t, queue, order) && Unselects(w, t, u, queue2, order2) && |s.projects| > 2
    ensures Unselecting(w, t, u, queue2, order2) && t.projects == s.projects[..|s.projects| - 1]
  {
    UnselectInv(w, s, t, queue, order);
    hide Inv, ValidWorld, DropUnneeded;
  }

  /** Unselecting both leaves work for the project, on which nothing depends any more, exactly if it
      had been selected with other packages than its depender asked for: if its packages import
      further packages of the project. */
  lemma StaleWorkRemains(w: World, s: Core, t: Core, u: Core, x: Selected, y: Selected,
                         queue: seq<Bmi>, order: seq<ProjectRoot>, queue2: seq<Bmi>, order2: seq<ProjectRoot>)
    requires Unselecting(w, s, t, queue, order) && Unselects(w, t, u, queue2, order2) && OnlyDepender(w, s, x, y)
    ensures On(u.deps, y.a.a.id.root) == []
    ensures SomeLeftover(u, y.a.a.id.root) <==> y.a.pl != DepsOf(w, x)[y.a.a.id.root].pl
  {
    hide Inv, ValidWorld, Unselecting, Unselects, SomeLeftover, Alone;
    NextPop(w, s, t, u, queue, order, queue2, order2);
    FirstPop(w, s, t, queue, order, x, y);
    SecondPop(w, t, u, queue2, order2, x, Back(y));
  }

  // ------------------------------------------------------------------ what becomes of it

  /** Stale work stays until it is selected itself. */
  lemma StaleWorkStays(w: World, s: Core, t: Core, awp: AtomWithPackages, pkgonly: bool, order: seq<ProjectRoot>, b: Bmi)
    requires Selecting(w, s, t, awp, pkgonly, order) && b in s.unsel && !SameWork(b, awp.a.id, awp.pl)
    ensures b in t.unsel
  {
    RemoveFirstKeeps(s.unsel, awp.a.id, awp.pl, b);
    InInMultiset(RemoveFirst(s.unsel, awp.a.id, awp.pl), b);
    InInMultiset(t.unsel, b);
  }
}
