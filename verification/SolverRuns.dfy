/** Runs as the main loop and backtrack make them: whatever is selected comes from the work queue. */
module SolverRuns {
  import opened Constraints
  import opened Identifiers
  import opened Bridge
  import opened SolverCore
  import opened SolverInvariants
  import opened SolverSteps

  ghost predicate Due(s: Core, id: ProjectIdentifier, pl: seq<Package>) {
    exists b :: b in s.unsel && b.id == id && b.pl == pl
  }

  /** t follows s by unselecting the last entry. */
  ghost predicate Backs(w: World, s: Core, t: Core) {
    |s.projects| > 1 && exists queue, order :: Unselects(w, s, t, queue, order)
  }

  /** t follows s by selecting something that is due. */
  ghost predicate Picks(w: World, s: Core, t: Core) {
    exists awp, pkgonly, order ::
      Request(w, s, awp, pkgonly) && CheckOk(w, s, awp, pkgonly) && Selects(w, s, t, awp, pkgonly, order) && Due(s, awp.a.id, awp.pl)
  }

  ghost predicate Follows(w: World, ss: seq<Core>, k: nat)
    requires k < |ss|
  {
    if k == 0 then exists order :: Start(w, ss[0], order) else Picks(w, ss[k - 1], ss[k]) || Backs(w, ss[k - 1], ss[k])
  }

  ghost predicate Scheduled(w: World, ss: seq<Core>) {
    ss != [] && forall k :: 0 <= k < |ss| ==> Follows(w, ss, k)
  }

  /** Some such run ends in s. */
  ghost predicate Arises(w: World, s: Core) {
    exists ss :: Scheduled(w, ss) && ss[|ss| - 1] == s
  }

  // ------------------------------------------------------------------ they are runs of the machine

  lemma ScheduledIsRun(w: World, ss: seq<Core>)
    requires Scheduled(w, ss)
    ensures Run(w, ss)
  {
    forall k | 0 <= k < |ss| ensures Link(w, ss, k) {
      assert Follows(w, ss, k);
    }
  }

  lemma ArisingIsReachable(w: World, s: Core)
    requires Arises(w, s)
    ensures Reachable(w, s)
  {
    var ss :| Scheduled(w, ss) && ss[|ss| - 1] == s;
    ScheduledIsRun(w, ss);
  }

  /** Safety of every arising state. */
  lemma ArisingInv(w: World, s: Core)
    requires ValidWorld(w) && Arises(w, s)
    ensures Inv(w, s)
  {
    ArisingIsReachable(w, s);
    ReachableInv(w, s);
  }

  // ------------------------------------------------------------------ runs get longer

  lemma ScheduledPush(w: World, ss: seq<Core>, t: Core)
    requires Scheduled(w, ss) && (Picks(w, ss[|ss| - 1], t) || Backs(w, ss[|ss| - 1], t))
    ensures Scheduled(w, ss + [t])
  {
    hide Picks, Backs;
    var tt := ss + [t];
    forall k | 0 <= k < |tt| ensures Follows(w, tt, k) {
      if k < |ss| { assert Follows(w, ss, k) && tt[k] == ss[k] && (k > 0 ==> tt[k - 1] == ss[k - 1]); }
    }
  }

  lemma ScheduledPrefix(w: World, ss: seq<Core>, n: nat)
    requires Scheduled(w, ss) && 0 < n <= |ss|
    ensures Scheduled(w, ss[..n])
  {
    hide Picks, Backs;
    forall k | 0 <= k < n ensures Follows(w, ss[..n], k) {
      assert Follows(w, ss, k);
    }
  }

  lemma StartArises(w: World, s: Core, order: seq<ProjectRoot>)
    requires Start(w, s, order)
    ensures Arises(w, s)
  {
    assert [s][0] == s && Follows(w, [s], 0);
    assert Scheduled(w, [s]);
  }

  lemma StepArises(w: World, s: Core, t: Core)
    requires Arises(w, s) && (Picks(w, s, t) || Backs(w, s, t))
    ensures Arises(w, t)
  {
    hide Picks, Backs;
    var ss :| Scheduled(w, ss) && ss[|ss| - 1] == s;
    ScheduledPush(w, ss, t);
    assert (ss + [t])[|ss + [t]| - 1] == t;
  }

  lemma PickArises(w: World, s: Core, t: Core, awp: AtomWithPackages, pkgonly: bool, order: seq<ProjectRoot>)
    requires Arises(w, s) && Due(s, awp.a.id, awp.pl)
    requires Request(w, s, awp, pkgonly) && CheckOk(w, s, awp, pkgonly) && Selects(w, s, t, awp, pkgonly, order)
    ensures Arises(w, t)
  {
    hide Arises, Due, Request, CheckOk, Selects;
    assert Picks(w, s, t);
    StepArises(w, s, t);
  }

  lemma {:induction false} DropUnneededSpares(edges: Edges, deps: Deps, sl: seq<Bmi>, order: seq<ProjectRoot>, b: Bmi)
    requires Elems(order) <= deps.Keys && (forall r <- deps :: deps[r].ident.root == r) && b.id.root !in deps
    ensures b in sl ==> b in DropUnneeded(edges, deps, sl, order)
  {
    if order != [] {
      var init, r := order[..|order| - 1], order[|order| - 1];
      assert r in Elems(order) && Elems(init) <= Elems(order);
      DropUnneededSpares(edges, deps, sl, init, b);
      RemoveFirstKeeps(DropUnneeded(edges, deps, sl, init), deps[r].ident, deps[r].pl, b);
    }
  }

  /** What was unselected is due again. */
  lemma UnselectedIsDue(w: World, s: Core, t: Core, queue: seq<Bmi>, order: seq<ProjectRoot>)
    requires Unselecting(w, s, t, queue, order)
    ensures var x := s.projects[|s.projects| - 1]; Due(t, x.a.a.id, x.a.pl)
  {
    var x := s.projects[|s.projects| - 1];
    PoppedOk(w, s, t, queue, order);
    DepsOfValid(w, x);
    assert GoodDeps(w, x.a.a, x.a.pl);
    var b := Bmi(x.a.a.id, x.a.pl, None, false);
    InInMultiset(queue, b);
    hide Inv, ValidWorld, Imports;
    DropUnneededSpares(t.deps, DepsOf(w, x), queue, order, b);
  }

  lemma BackArises(w: World, s: Core, t: Core, queue: seq<Bmi>, order: seq<ProjectRoot>)
    requires ValidWorld(w) && Arises(w, s) && |s.projects| > 1 && Unselects(w, s, t, queue, order)
    ensures Arises(w, t)
    ensures var x := s.projects[|s.projects| - 1]; Due(t, x.a.a.id, x.a.pl)
  {
    ArisingInv(w, s);
    hide Arises, ValidWorld, Inv, Unselects, Due;
    UnselectedIsDue(w, s, t, queue, order);
    assert Backs(w, s, t);
    StepArises(w, s, t);
  }
}
