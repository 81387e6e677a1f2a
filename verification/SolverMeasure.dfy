/** Why the search ends: the versions left on each queue, read as digits of one number in which
    a queue not yet made counts more than any full one; then the packages nobody requires yet. */
module SolverMeasure {
  import opened Constraints
  import opened Identifiers
  import opened Bridge
  import opened SolverCore
  import opened SolverInvariants
  import opened SolverSteps

  function Pow(b: nat, n: nat): nat {
    if n == 0 then 1 else b * Pow(b, n - 1)
  }

  function Rank(b: nat, digits: seq<nat>, n: nat): nat
    requires b > 0
  {
    if n == 0 then 0
    else if digits == [] then Times(b - 1, Pow(b, n - 1)) + Rank(b, [], n - 1)
    else Times(digits[0], Pow(b, n - 1)) + Rank(b, digits[1..], n - 1)
  }

  function Times(x: nat, y: nat): nat {
    x * y
  }

  lemma {:induction false} EmptyRank(b: nat, n: nat)
    requires b > 0
    ensures Pow(b, n) > 0 && Rank(b, [], n) == Pow(b, n) - 1
  {
    if n > 0 {
      EmptyRank(b, n - 1);
      assert (b - 1) * Pow(b, n - 1) == b * Pow(b, n - 1) - Pow(b, n - 1);
    }
  }

  lemma {:induction false} Product(x: nat, y: nat, p: nat)
    requires y < x
    ensures y * p + p <= x * p
  {
    if x > y + 1 {
      Product(x - 1, y, p);
    }
    assert x * p == (x - 1) * p + p;
  }

  /** Lowering a digit lowers the rank, whatever stood behind it. */
  lemma {:induction false} RankLowered(b: nat, digits: seq<nat>, k: nat, y: nat, n: nat)
    requires b > 0 && k < |digits| && k < n && y < digits[k]
    ensures Rank(b, digits[..k] + [y], n) < Rank(b, digits, n)
  {
    var lower := digits[..k] + [y];
    if k == 0 {
      assert lower[1..] == [];
      EmptyRank(b, n - 1);
      Product(digits[0], y, Pow(b, n - 1));
    } else {
      assert lower[1..] == digits[1..][..k - 1] + [y];
      RankLowered(b, digits[1..], k - 1, y, n - 1);
    }
  }

  /** So does adding a digit below the padding. */
  lemma {:induction false} RankExtended(b: nat, digits: seq<nat>, y: nat, n: nat)
    requires b > 0 && |digits| < n && y < b - 1
    ensures Rank(b, digits + [y], n) < Rank(b, digits, n)
  {
    if digits == [] {
      EmptyRank(b, n - 1);
      Product(b - 1, y, Pow(b, n - 1));
      assert ([] + [y])[1..] == [];
    } else {
      assert (digits + [y])[1..] == digits[1..] + [y];
      RankExtended(b, digits[1..], y, n - 1);
    }
  }

  // ------------------------------------------------------------------ packages nobody requires

  function Unneeded(w: World, deps: Edges): set<(ProjectRoot, Package)> {
    set r, p | r in w.roots && p in w.packages && Occurrences(On(deps, r), p) == 0 :: (r, p)
  }

  lemma OccurrencesGrow(es: seq<Dependency>, e: Dependency, p: Package)
    ensures Occurrences(es + [e], p) == Occurrences(es, p) + multiset(e.dep.pl)[p]
  {
    assert (es + [e])[..|es|] == es;
  }

  lemma MoreEdgesLessUnneeded(w: World, edges: Edges, more: Edges, x: Selected)
    requires forall r :: On(more, r) == On(edges, r) + Contribution(w, x, r)
    ensures Unneeded(w, more) <= Unneeded(w, edges)
  {
    forall r, p | (r, p) in Unneeded(w, more) ensures (r, p) in Unneeded(w, edges) {
      if Contribution(w, x, r) == [] {
        assert On(more, r) == On(edges, r);
      } else {
        OccurrencesGrow(On(edges, r), Contribution(w, x, r)[0], p);
      }
    }
  }

  lemma SelectAllEdges(w: World, s: Core, t: Core, awp: AtomWithPackages, pkgonly: bool, order: seq<ProjectRoot>)
    requires Selecting(w, s, t, awp, pkgonly, order)
    ensures forall r :: On(t.deps, r) == On(s.deps, r) + Contribution(w, Pushed(w, awp, pkgonly), r)
  {
    forall r ensures On(t.deps, r) == On(s.deps, r) + Contribution(w, Pushed(w, awp, pkgonly), r) {
      SelectEdges(w, s, t, awp, pkgonly, order, r);
    }
  }

  /** Selecting never makes a required package unrequired. */
  lemma UnneededShrinks(w: World, s: Core, t: Core, awp: AtomWithPackages, pkgonly: bool, order: seq<ProjectRoot>)
    requires Selecting(w, s, t, awp, pkgonly, order)
    ensures Unneeded(w, t.deps) <= Unneeded(w, s.deps)
  {
    SelectAllEdges(w, s, t, awp, pkgonly, order);
    MoreEdgesLessUnneeded(w, s.deps, t.deps, Pushed(w, awp, pkgonly));
  }

  lemma NewlyRequired(w: World, edges: Edges, more: Edges, e: Dependency, r: ProjectRoot, p: Package)
    requires r in w.roots && ValidDep(w, r, e.dep) && On(more, r) == On(edges, r) + [e]
    requires p in e.dep.pl && p in SoleImports(On(edges, r) + [e], e.dep.pl)
    ensures (r, p) in Unneeded(w, edges) && (r, p) !in Unneeded(w, more)
  {
    OccurrencesGrow(On(edges, r), e, p);
    NoDupOnce(e.dep.pl, p);
    assert p in Elems(e.dep.pl);
  }

  /** If it queues any work, some package has become required. */
  lemma NewWorkNeedsMore(w: World, s: Core, t: Core, awp: AtomWithPackages, pkgonly: bool, order: seq<ProjectRoot>)
    requires Selecting(w, s, t, awp, pkgonly, order)
    requires Enqueued(w, s.deps, awp.a, Imports(w, awp.a, awp.pl).deps, order) != multiset{}
    ensures Unneeded(w, t.deps) < Unneeded(w, s.deps)
  {
    UnneededShrinks(w, s, t, awp, pkgonly, order);
    var x := Pushed(w, awp, pkgonly);
    PushedOk(w, s, t, awp, pkgonly, order);
    var deps := DepsOf(w, x);
    var r := SomeNewWork(w, s.deps, awp.a, deps, order);
    assert r in Elems(order);
    var p := NewBmi(w, s.deps, awp.a, deps[r]).pl[0];
    SelectEdges(w, s, t, awp, pkgonly, order, r);
    assert ValidDep(w, r, deps[r]);
    NewlyRequired(w, s.deps, t.deps, Edge(awp.a, deps, r), r, p);
  }

  lemma {:induction false} SomeNewWork(w: World, edges: Edges, a: Atom, deps: Deps, order: seq<ProjectRoot>) returns (r: ProjectRoot)
    requires Elems(order) <= deps.Keys && Enqueued(w, edges, a, deps, order) != multiset{}
    ensures r in order && r in deps && NewBmi(w, edges, a, deps[r]).pl != []
  {
    var init, last := order[..|order| - 1], order[|order| - 1];
    assert last in Elems(order) && Elems(init) <= Elems(order);
    if NewBmi(w, edges, a, deps[last]).pl != [] {
      r := last;
    } else {
      r := SomeNewWork(w, edges, a, deps, init);
      assert order == init + [last];
    }
  }

  lemma {:induction false} RemoveFirstLength(sl: seq<Bmi>, id: ProjectIdentifier, pl: seq<Package>)
    requires exists b :: b in sl && SameWork(b, id, pl)
    ensures |RemoveFirst(sl, id, pl)| == |sl| - 1
  {
    if !SameWork(sl[0], id, pl) {
      var b :| b in sl && SameWork(b, id, pl);
      assert b in sl[1..];
      RemoveFirstLength(sl[1..], id, pl);
    }
  }

  /** Taking work off the queue either makes packages required or leaves less work. */
  lemma SelectMakesProgress(w: World, s: Core, t: Core, awp: AtomWithPackages, pkgonly: bool, order: seq<ProjectRoot>)
    requires Selecting(w, s, t, awp, pkgonly, order)
    requires exists b :: b in s.unsel && SameWork(b, awp.a.id, awp.pl)
    ensures Unneeded(w, t.deps) < Unneeded(w, s.deps) || (Unneeded(w, t.deps) <= Unneeded(w, s.deps) && |t.unsel| < |s.unsel|)
  {
    var more := Enqueued(w, s.deps, awp.a, Imports(w, awp.a, awp.pl).deps, order);
    if more == multiset{} {
      UnneededShrinks(w, s, t, awp, pkgonly, order);
      RemoveFirstLength(s.unsel, awp.a.id, awp.pl);
      assert |multiset(t.unsel)| == |multiset(RemoveFirst(s.unsel, awp.a.id, awp.pl))|;
    } else {
      NewWorkNeedsMore(w, s, t, awp, pkgonly, order);
    }
  }

  // ------------------------------------------------------------------ first selections

  /** The atoms that opened a project, bottom to top. */
  function Firsts(projects: seq<Selected>): seq<Atom> {
    if projects == [] then []
    else
      var x := projects[|projects| - 1];
      Firsts(projects[..|projects| - 1]) + if x.first then [x.a.a] else []
  }

  lemma FirstsOfPush(projects: seq<Selected>, x: Selected)
    ensures Firsts(projects + [x]) == Firsts(projects) + if x.first then [x.a.a] else []
  {
    assert (projects + [x])[..|projects|] == projects;
  }

  function Roots(atoms: seq<Atom>): (rs: seq<ProjectRoot>)
    ensures |rs| == |atoms| && forall i :: 0 <= i < |atoms| ==> rs[i] == atoms[i].id.root
  {
    seq(|atoms|, i requires 0 <= i < |atoms| => atoms[i].id.root)
  }

  lemma {:induction false} FirstsAreBases(projects: seq<Selected>, a: Atom)
    requires a in Firsts(projects)
    ensures exists x :: x in projects && x.first && x.a.a == a
    ensures Base(projects, a.id.root).Some?
  {
    var init, x := projects[..|projects| - 1], projects[|projects| - 1];
    assert projects == init + [x];
    FirstsOfPush(init, x);
    BaseOfPush(init, x, a.id.root);
    if a in Firsts(init) {
      FirstsAreBases(init, a);
    } else {
      assert x in projects;
    }
  }

  /** Each project is opened once. */
  lemma {:induction false} FirstsDistinct(projects: seq<Selected>)
    requires FirstsOk(projects)
    ensures NoDup(Roots(Firsts(projects)))
  {
    if projects != [] {
      var init, x := projects[..|projects| - 1], projects[|projects| - 1];
      assert projects == init + [x];
      PrefixFirsts(init, x);
      FirstsDistinct(init);
      FirstsOfPush(init, x);
      assert FirstAt(projects, |init|) && projects[..|init|] == init;
      if x.first {
        forall i | 0 <= i < |Firsts(init)| ensures Firsts(init)[i].id.root != x.a.a.id.root {
          FirstsAreBases(init, Firsts(init)[i]);
        }
      }
    }
  }

  lemma FirstInWorld(w: World, projects: seq<Selected>, a: Atom)
    requires Entries(w, projects) && a in Firsts(projects)
    ensures a.id.root in w.roots + {w.rootName} && Base(projects, a.id.root).Some?
  {
    FirstsAreBases(projects, a);
    var x :| x in projects && x.first && x.a.a == a;
    var k :| 0 <= k < |projects| && projects[k] == x;
    assert k >= 1 ==> EntryOk(w, projects[k]);
  }

  /** At most one first selection for each root of the world, and the root project's. */
  lemma FirstsFitWorld(w: World, projects: seq<Selected>)
    requires StackOk(w, projects)
    ensures |Firsts(projects)| <= |w.roots| + 1
  {
    FirstsDistinct(projects);
    var rs := Roots(Firsts(projects));
    NoDupCard(rs);
    forall i | 0 <= i < |rs| ensures rs[i] in w.roots + {w.rootName} {
      FirstInWorld(w, projects, Firsts(projects)[i]);
    }
    SubsetCard(Elems(rs), w.roots + {w.rootName});
  }

  /** There is always room for the queue of one more unselected project. */
  lemma RoomForAnother(w: World, projects: seq<Selected>, r: ProjectRoot)
    requires StackOk(w, projects) && Base(projects, r).None? && r in w.roots
    ensures |Firsts(projects)| <= |w.roots|
  {
    FirstsDistinct(projects);
    var rs := Roots(Firsts(projects));
    NoDupCard(rs);
    forall i | 0 <= i < |rs| ensures rs[i] in w.roots - {r} + {w.rootName} {
      FirstInWorld(w, projects, Firsts(projects)[i]);
    }
    SubsetCard(Elems(rs), w.roots - {r} + {w.rootName});
    assert |w.roots - {r}| == |w.roots| - 1;
  }
}
