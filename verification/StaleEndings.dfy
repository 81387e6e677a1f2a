/** Three runs in which stale work does harm.  The search has no choice in any of them. */
module StaleEndings {
  import opened Constraints
  import opened Identifiers
  import opened Bridge
  import opened SolverCore
  import opened SolverInvariants
  import opened VersionQueues
  import opened Satisfy
  import opened Searches
  import opened Solvers
  import opened ForcedRuns
  import opened Solutions
  import opened WantedSolutions
  import opened ImportConstraints
  import opened StaleWorld
  import opened StaleMoves
  import opened StaleRuns
  import UniformWorlds

  // ------------------------------------------------------------------ the first two endings

  lemma OrderOfLeftZIs(q: Sequel, id: ProjectIdentifier)
    requires id.root == "z" && !q.DeadEnd?
    ensures Listing(["c"], DepsIn(q, id, ONE).Keys) && forall r <- ["c"] :: r in DepsIn(q, id, ONE)
  {
    hide DepsIn, Listing;
    DepsOfZ(q, id);
    OrderOne("c");
    assert DepsIn(q, id, ONE).Keys == {"c"};
  }

  lemma OrderOfCIs(q: Sequel)
    requires q.Needless? || q.Rival?
    ensures var deps := DepsIn(q, C, ONE); Listing(OrderOfC(q), deps.Keys) && forall r <- OrderOfC(q) :: r in deps
  {
    hide DepsIn, Listing;
    DepsOfC(q);
    OrderOne("a");
    OrderTwo("a", "e");
    assert DepsIn(q, C, ONE).Keys == if q.Rival? then {"a", "e"} else {"a"};
  }

  lemma OrderOfEIs()
    ensures Listing(["z"], DepsIn(Rival, E, ONE).Keys) && forall r <- ["z"] :: r in DepsIn(Rival, E, ONE)
  {
    hide DepsIn, Listing;
    DepsOfE(Rival);
    OrderOne("z");
    assert DepsIn(Rival, E, ONE).Keys == {"z"};
  }

  lemma OneNewItem(q: Sequel, xs: seq<Selected>, deps: Deps, r: ProjectRoot)
    requires r in deps && forall x <- [r] :: x in deps
    ensures NewItems(q, xs, deps, [r]) == if Held(q, xs, r) == [] then [Bmi(deps[r].ident, deps[r].pl, None, false)] else []
  {
    hide Held;
    assert [r][..0] == [] && [r][0] == r;
    assert NewItems(q, xs, deps, []) == [];
  }

  lemma QueueAfterLeftZ(q: Sequel)
    requires !q.DeadEnd? && forall r <- ["c"] :: r in DepsIn(q, Z, ONE)
    ensures QueueAfter(q, [A1], LEFT_Z, OfZ(q), ["c"]) == [WORK_C]
  {
    hide DepsIn, Held;
    DepsOfZ(q, Z);
    WithA1(q, "c");
    assert "c" in ["c"];
    OneNewItem(q, [A1], DepsIn(q, Z, ONE), "c");
  }

  function WorkAfterC(q: Sequel): seq<Bmi> { if q.Rival? then [WORK_E] else [] }

  lemma QueueAfterC(q: Sequel)
    requires (q.Needless? || q.Rival?) && forall r <- OrderOfC(q) :: r in DepsIn(q, C, ONE)
    ensures QueueAfter(q, [A1, OfZ(q)], WORK_C, C1, OrderOfC(q)) == WorkAfterC(q)
  {
    hide DepsIn, Held;
    DepsOfC(q);
    WithLeftZ(q, "a");
    WithLeftZ(q, "e");
    var deps, order := DepsIn(q, C, ONE), OrderOfC(q);
    assert NewItems(q, [A1, OfZ(q)], deps, ["a"]) == [] by { assert ["a"][..0] == []; }
    if q.Rival? { assert order[..1] == ["a"] && order[1] == "e"; }
  }

  lemma QueueAfterE()
    requires forall r <- ["z"] :: r in DepsIn(Rival, E, ONE)
    ensures QueueAfter(Rival, [A1, OfZ(Rival), C1], WORK_E, E1, ["z"]) == [WORK_OTHER]
  {
    hide DepsIn, Held;
    DepsOfE(Rival);
    WithC(Rival, "z");
    assert "z" in ["z"];
    OneNewItem(Rival, [A1, OfZ(Rival), C1], DepsIn(Rival, E, ONE), "z");
  }

  lemma QueueAfterOther()
    requires forall r <- ["c"] :: r in DepsIn(Rival, OTHER_Z, ONE)
    ensures QueueAfter(Rival, [A1, OfZ(Rival), C1, E1], WORK_OTHER, MORE_Z, ["c"]) == []
  {
    hide DepsIn, Held;
    WithE("c");
    assert "c" in ["c"];
    OneNewItem(Rival, [A1, OfZ(Rival), C1, E1], DepsIn(Rival, OTHER_Z, ONE), "c");
  }

  /** What was left of z is taken, then c, which is now acceptable. */
  lemma UpToC(q: Sequel) returns (ss: seq<Core>)
    requires q.Needless? || q.Rival?
    ensures Runs(q, ss, [A1, OfZ(q), C1], WorkAfterC(q))
  {
    hide Runs, Suits, DepsIn, Held, Listed, Listing, NewItems;
    ss := UpToA1(q);
    VersionsListed(q);
    SuitsLeftZ(q);
    OrderOfLeftZIs(q, Z);
    QueueAfterLeftZ(q);
    ss := Go(q, ss, [A1], LEFT_Z, OfZ(q), ["c"]);
    assert [A1] + [OfZ(q)] == [A1, OfZ(q)];
    SuitsC(q);
    OrderOfCIs(q);
    QueueAfterC(q);
    ss := Go(q, ss, [A1, OfZ(q)], WORK_C, C1, OrderOfC(q));
    assert [A1, OfZ(q)] + [C1] == [A1, OfZ(q), C1];
  }

  /** Then e, and z from the other source. */
  lemma UpToOther() returns (ss: seq<Core>)
    ensures Runs(Rival, ss, [A1, OfZ(Rival), C1, E1, MORE_Z], [])
  {
    hide Runs, Suits, DepsIn, Held, Listing, NewItems;
    var q := Rival;
    ss := UpToC(q);
    assert FirstListed(q, WORK_E, E1);
    SuitsE();
    OrderOfEIs();
    QueueAfterE();
    ss := Go(q, ss, [A1, OfZ(q), C1], WORK_E, E1, ["z"]);
    assert [A1, OfZ(q), C1] + [E1] == [A1, OfZ(q), C1, E1];
    SuitsOther();
    OrderOfLeftZIs(q, OTHER_Z);
    QueueAfterOther();
    ss := Go(q, ss, [A1, OfZ(q), C1, E1], WORK_OTHER, MORE_Z, ["c"]);
    assert [A1, OfZ(q), C1, E1] + [MORE_Z] == [A1, OfZ(q), C1, E1, MORE_Z];
  }

  lemma LastIsAsked(w: World, projs: Projects, c: seq<Atom>)
    requires Leads(w, projs, c)
    ensures |c| > 1 ==> Asks(w, projs, c[|c| - 2], c[|c| - 1].id.root)
    ensures |c| == 1 ==> c[|c| - 1].id.root in w.rootDeps
  {
    if |c| > 1 { assert LeadsOn(w, projs, c, |c| - 2); }
  }

  /** Whatever is imported, dependencies come from the manifest. */
  lemma ConstrainWithin(q: Sequel, id: ProjectIdentifier, v: Version, ex: set<Package>)
    ensures Stale(q).constrain(id, v, ex).Some? ==> Stale(q).constrain(id, v, ex).value.Keys <= DepsIn(q, id, v).Keys
  {
    var xt := Inserted(Manifest(q, id, v));
    ConstrainIs(q, id, v, ex);
    InsertedAre(Manifest(q, id, v));
    hide Stale, PlaceAll, Inserted, SomeListing, Manifest, DepsFrom;
    if PlaceAll(CONTEXT, xt, SomeListing(ex)).Some? { PlacedKeepsTrie(xt, SomeListing(ex)); }
  }

  lemma NobodyAsks(projs: Projects, a: Atom)
    requires forall x <- projs :: x in {A1.a.a, OfZ(Needless).a.a, C1.a.a}
    ensures !Asks(Stale(Needless), projs, a, "z")
  {
    var q := Needless;
    if a in projs {
      forall pl | Imports(Stale(q), a, pl).Imported? ensures "z" !in Imports(Stale(q), a, pl).deps {
        ImportsWithin(q, a, pl);
        DepsOfA(q);
        DepsOfZ(q, Z);
        DepsOfC(q);
        hide Imports, DepsIn, Stale;
      }
    }
  }

  lemma ImportsWithin(q: Sequel, a: Atom, pl: seq<Package>)
    requires Imports(Stale(q), a, pl).Imported?
    ensures Imports(Stale(q), a, pl).deps.Keys <= DepsIn(q, a.id, a.v).Keys
  {
    hide DepsIn, ExternalsOf, FirstMissing, ExtendedList;
    var w := Stale(q);
    ConstrainWithin(q, a.id, a.v, ExternalsOf(w, w.reach(a.id, a.v), pl));
    hide Stale;
  }

  lemma NotJustified(projs: Projects)
    requires forall x <- projs :: x in {A1.a.a, OfZ(Needless).a.a, C1.a.a}
    ensures !Justified(Stale(Needless), projs, OfZ(Needless).a.a)
  {
    forall a { NobodyAsks(projs, a); }
    hide Asks, Leads;
    forall c | Leads(Stale(Needless), projs, c) && c[|c| - 1] == OfZ(Needless).a.a ensures false {
      LastIsAsked(Stale(Needless), projs, c);
    }
  }

  lemma SelectedAtoms(s: Core, projs: Projects, x: Atom)
    requires s.projects == [Bottom(Needless)] + [A1, OfZ(Needless), C1] && projs == Combined(s.projects[1..])
    ensures x in projs <==> x in {A1.a.a, OfZ(Needless).a.a, C1.a.a}
  {
    var rest := [A1, OfZ(Needless), C1];
    assert s.projects[1..] == rest;
    CombinedIs(rest, x);
    assert rest[0] == A1 && rest[1] == OfZ(Needless) && rest[2] == C1 && |rest| == 3;
  }

  lemma RunsForced(q: Sequel, ss: seq<Core>, xs: seq<Selected>, sl: seq<Bmi>)
    requires Runs(q, ss, xs, sl)
    ensures ss != [] && Forced(Stale(q), ss) && At(q, Last(ss), xs) && Last(ss).unsel == sl && Last(ss).projects == [Bottom(q)] + xs
  {
    hide Forced;
  }

  /** The whole run is the search's own; it ends with the queue empty and with z selected, which
      nothing depends on: not the root, and none of what is selected. */
  lemma NeedlessIsSelected() returns (ss: seq<Core>)
    ensures ValidWorld(Stale(Needless)) && Forced(Stale(Needless), ss) && ss != []
    ensures var s := Last(ss);
            s.unsel == [] && On(s.deps, "z") == [] && s.projects != [] &&
            var projs := Combined(s.projects[1..]);
            Atom(Z, ONE) in projs && !Justified(Stale(Needless), projs, Atom(Z, ONE))
  {
    hide Stale, At, Forced, Combined, Justified, Runs;
    var q := Needless;
    StaleIsValid(q);
    ss := UpToC(q);
    RunsForced(q, ss, [A1, OfZ(q), C1], []);
    AtIs(q, Last(ss), [A1, OfZ(q), C1], "z");
    WithC(q, "z");
    var projs := Combined(Last(ss).projects[1..]);
    forall x { SelectedAtoms(Last(ss), projs, x); }
    NotJustified(projs);
  }

  lemma BothSelected(s: Core, projs: Projects)
    requires s.projects == [Bottom(Rival)] + [A1, OfZ(Rival), C1, E1, MORE_Z] && projs == Combined(s.projects[1..])
    ensures Atom(Z, ONE) in projs && Atom(OTHER_Z, ONE) in projs
  {
    var rest := [A1, OfZ(Rival), C1, E1, MORE_Z];
    assert s.projects[1..] == rest;
    CombinedIs(rest, Atom(Z, ONE));
    CombinedIs(rest, Atom(OTHER_Z, ONE));
    assert rest[1] == OfZ(Rival) && rest[4] == MORE_Z;
  }

  /** Another one ends with z selected from two sources, which checkIdentMatches is to prevent. */
  lemma TwoSourcesAreSelected() returns (ss: seq<Core>)
    ensures ValidWorld(Stale(Rival)) && Forced(Stale(Rival), ss) && ss != []
    ensures var s := Last(ss);
            s.unsel == [] && s.projects != [] &&
            var projs := Combined(s.projects[1..]);
            Atom(Z, ONE) in projs && Atom(OTHER_Z, ONE) in projs && !Z.Eq(OTHER_Z) && !OneEach(projs)
  {
    hide Stale, At, Forced, Combined, Runs;
    StaleIsValid(Rival);
    ss := UpToOther();
    RunsForced(Rival, ss, [A1, OfZ(Rival), C1, E1, MORE_Z], []);
    BothSelected(Last(ss), Combined(Last(ss).projects[1..]));
  }

  // ------------------------------------------------------------------ the third ending

  lemma TwoRefused(s: Core)
    requires Base(s.projects, "a") == Some(A1.a)
    ensures !DepOk(Stale(DeadEnd), s, TWO_A)
  {
    hide Base, Composite;
  }

  lemma RefusedForDependency(w: World, s: Core, awp: AtomWithPackages, r: ProjectRoot)
    requires var i := Imports(w, awp.a, awp.pl); i.Imported? && r in i.deps && !DepOk(w, s, i.deps[r])
    ensures !CheckOk(w, s, awp, false)
  {
    hide Imports, DepOk, Composite, ListPackages, PackagesOk;
  }

  /** At version 2, z wants a at version 2; at version 1 it has no package p. */
  lemma ZRefused(s: Core, v: Version)
    requires At(DeadEnd, s, [A1]) && v in [TWO, ONE]
    ensures !CheckOk(Stale(DeadEnd), s, AtomWithPackages(Atom(Z, v), BOTH), false)
  {
    hide At, Imports, DepsIn, Base, CheckOk, DepOk, Stale, Held;
    var q := DeadEnd;
    if v == TWO {
      AtIs(q, s, [A1], "a");
      WithA1(q, "a");
      ImportsBoth(q, Atom(Z, TWO));
      DepsOfZ(q, Z);
      TwoRefused(s);
      RefusedForDependency(Stale(q), s, AtomWithPackages(Atom(Z, TWO), BOTH), "a");
    } else {
      ImportsMissing(q, Atom(Z, ONE));
      RefusedForImports(Stale(q), s, AtomWithPackages(Atom(Z, ONE), BOTH));
    }
  }

  /** The third ends with work for z alone: nobody depends on z and no version of z is acceptable, so
      that Turn, taking element 0 of the dependers, panics. */
  lemma SearchIsStranded() returns (ss: seq<Core>)
    ensures ValidWorld(Stale(DeadEnd)) && Forced(Stale(DeadEnd), ss) && ss != []
    ensures var s := Last(ss); s.unsel == [LEFT_Z] && Base(s.projects, "z").None? && Stranded(Stale(DeadEnd), s, LEFT_Z)
  {
    hide At, Forced, CheckOk, Base, Composite, Candidates, Runs, Stale;
    var q := DeadEnd;
    StaleIsValid(q);
    ss := UpToA1(q);
    RunsForced(q, ss, [A1], [LEFT_Z]);
    var s := Last(ss);
    ZIsSought(s);
    forall v | v in [TWO, ONE] ensures !CheckOk(Stale(q), s, AtomWithPackages(Atom(Z, v), BOTH), false) { ZRefused(s, v); }
  }

  lemma ZIsSought(s: Core)
    requires At(DeadEnd, s, [A1])
    ensures var w := Stale(DeadEnd);
            && On(s.deps, "z") == [] && Base(s.projects, "z").None? && Candidates(w, s, LEFT_Z) == [TWO, ONE]
            && w.sourceExists(Z) && !ChangeImpossible(w, Z) && w.versions(Z).Some?
  {
    hide At, Candidates, Held, Base;
    var q := DeadEnd;
    AtIs(q, s, [A1], "z");
    WithA1(q, "z");
    AllAny(Stale(q), []);
    CandidatesAre(q, s, LEFT_Z);
    VersionsListed(q);
  }

  // ------------------------------------------------------------------ where p does not import q

  ghost const MAINS: UniformWorlds.Lists := (r: ProjectRoot) => [Main(r)]

  lemma PlacedMains(q: Sequel, a: Atom, pl: seq<Package>)
    requires Imports(Stale(q), a, pl).Imported?
    ensures UniformWorlds.UniformDeps(MAINS, Imports(Stale(q), a, pl).deps)
  {
    var w, rm := Stale(q), ReachOf(q, a.id, a.v);
    hide DepsIn, ExtendedList, FirstMissing, ExternalsOf, ReachOf, Main;
    ImportedExternals(w, q, a, pl);
    DepsArePlaced(q, a.id, a.v);
    DepsMain(q, a.id, a.v);
    ConstrainNothing(q, a.id, a.v);
  }

  lemma ImportedExternals(w: World, q: Sequel, a: Atom, pl: seq<Package>)
    ensures var ex := ExternalsOf(w, ReachOf(q, a.id, a.v), pl); ex == {} || ex == Externals(q, a.id, a.v)
  {
    hide Packages, Externals;
    var rm, all := ReachOf(q, a.id, a.v), Externals(q, a.id, a.v);
    var ex := ExternalsOf(w, rm, pl);
    assert ex <= all;
    if e :| e in ex {
      var p :| p in pl && !w.ignored(p) && p in rm && e in rm[p].externals;
      forall x | x in all ensures x in ex { assert x in rm[p].externals; }
    }
  }

  lemma ConstrainNothing(q: Sequel, id: ProjectIdentifier, v: Version)
    ensures Stale(q).constrain(id, v, {}) == Some(map[])
  {
    ConstrainIs(q, id, v, {});
    assert SomeListing({}) == [];
    hide Stale, Inserted, Manifest;
  }

  lemma OrderlyLists(a: Atom)
    ensures var i := Imports(Stale(Orderly), a, MAINS(a.id.root)); i.Imported? ==> i.pl == MAINS(a.id.root)
  {
    var p := Main(a.id.root);
    if p in Packages(Orderly, a.id, a.v) {
      ImportsOne(Orderly, a, p);
      hide Imports, Stale, Packages, DepsIn, Main;
    } else {
      assert [p][0] == p;
      hide ExternalsOf, ExtendedList, Packages, Main, DepsIn;
    }
  }

  /** The condition of UniformWorlds is met by the same world but for that import: z depends on c at
      any version of a, and c allows one only. */
  lemma OrderlyIsSteady()
    ensures ValidWorld(Stale(Orderly)) && UniformWorlds.Steady(Stale(Orderly))
  {
    var w := Stale(Orderly);
    StaleIsValid(Orderly);
    assert UniformWorlds.UniformDeps(MAINS, w.rootDeps);
    hide Imports, UniformWorlds.UniformDeps, ValidWorld, Stale;
    forall a: Atom, pl | Imports(w, a, pl).Imported? ensures UniformWorlds.UniformDeps(MAINS, Imports(w, a, pl).deps) {
      PlacedMains(Orderly, a, pl);
    }
    forall a: Atom ensures Imports(w, a, MAINS(a.id.root)).Imported? ==> Imports(w, a, MAINS(a.id.root)).pl == MAINS(a.id.root) {
      OrderlyLists(a);
    }
    assert UniformWorlds.Uniform(w, MAINS);
  }
}
