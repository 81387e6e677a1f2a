/** Worlds in which stale work arises, however the queue is ordered: it never holds two items when one
    is taken.  The root depends on a; a at version 2 depends on z, whose package p imports its
    package q; z depends on c, which turns out to have no acceptable version.  Then z and a are
    unselected, and a is tried at version 1, which has no dependencies. */
module StaleWorld {
  import opened Constraints
  import opened Identifiers
  import opened Bridge
  import opened PrefixTrees
  import opened ImportConstraints
  import opened CaseConflicts

  /** How it goes on: z is selected although nobody needs it; c leads to a dependency on z from another
      source; no version of z is acceptable any more.  Or p does not import q, and all is well. */
  datatype Sequel = Needless | Rival | DeadEnd | Orderly

  const A := ProjectIdentifier("a", "")
  const C := ProjectIdentifier("c", "")
  const E := ProjectIdentifier("e", "")
  const Z := ProjectIdentifier("z", "s1")
  const OTHER_Z := ProjectIdentifier("z", "s2")
  const ONE := Bare(Plain("1"))
  const TWO := Bare(Plain("2"))
  const NINE := Bare(Plain("9"))

  const ROOTS: set<ProjectRoot> := {"a", "c", "e", "z"}
  const ALL: set<Package> := {"a", "c", "e", "z/p", "z/q"}

  /** The package of each project that the others use. */
  function Main(r: ProjectRoot): Package { if r == "z" then "z/p" else r }

  const ROOT_DEPS: Deps := map["a" := CompleteDep(A, Any, ["a"])]

  /** What the manifests say, and all of it is imported. */
  function Manifest(q: Sequel, id: ProjectIdentifier, v: Version): (m: seq<Working>)
    ensures |m| <= 2 && forall i :: 0 <= i < |m| ==> m[i].ident.root in ROOTS && ManifestLevel(m[i].constraint) && !IsRevision(m[i].constraint)
    ensures |m| == 2 ==> m[0].ident.root != m[1].ident.root
    ensures forall i :: 0 <= i < |m| ==> m[i].ident.root != id.root
  {
    if id.root == "a" && v == TWO then [Working(Z, Any)]
    else if id.root == "z" && !q.DeadEnd? then [Working(C, Any)]
    else if id.root == "z" && v == TWO then [Working(A, Exact(TWO)), Working(C, Exact(NINE))]
    else if id.root == "c" && q.Rival? then [Working(A, Exact(ONE)), Working(E, Any)]
    else if id.root == "c" && !q.DeadEnd? then [Working(A, Exact(ONE))]
    else if id.root == "e" then [Working(OTHER_Z, Any)]
    else []
  }

  /** The dependencies that makes. */
  function DepsFrom(m: seq<Working>): Deps {
    if m == [] then map[]
    else
      var last := m[|m| - 1];
      DepsFrom(m[..|m| - 1])[last.ident.root := CompleteDep(last.ident, last.constraint, [Main(last.ident.root)])]
  }

  function DepsIn(q: Sequel, id: ProjectIdentifier, v: Version): Deps { DepsFrom(Manifest(q, id, v)) }

  /** z at version 1 lacks p where that is what is wrong. */
  function Packages(q: Sequel, id: ProjectIdentifier, v: Version): set<Package> {
    if q.DeadEnd? && id.root == "z" && v != TWO then ALL - {"z/p"} else ALL
  }

  function Externals(q: Sequel, id: ProjectIdentifier, v: Version): set<Package> {
    set r | r in DepsIn(q, id, v) :: Main(r)
  }

  function ReachOf(q: Sequel, id: ProjectIdentifier, v: Version): ReachMap {
    map p | p in Packages(q, id, v) :: Reach(if p == "z/p" && !q.Orderly? then {"z/q"} else {}, Externals(q, id, v))
  }

  /** No overrides, no standard library, and no deduction: all roots are in the manifests. */
  const CONTEXT := Context(map[], p => false, p => None)

  ghost function SomeListing(s: set<Package>): (l: seq<Package>)
    ensures Listing(l, s)
  {
    if s == {} then [] else
      var x :| x in s;
      var rest := SomeListing(s - {x});
      assert forall y <- rest :: y in Elems(rest);
      assert Elems([x] + rest) == {x} + Elems(rest);
      [x] + rest
  }

  function DepsOfProgress(o: Option<Progress>): Option<Deps> {
    match o case None => None case Some(s) => Some(s.dmap)
  }

  ghost function Stale(q: Sequel): World {
    World(
      Library((x, y) => x == y, (r, v) => false, (r, s) => None, (r, v) => false),
      "root", "", [], map[], ROOT_DEPS, map[], {}, false,
      p => false, s => s, s => SomeListing(s),
      id => true, id => false, (id: ProjectIdentifier) => Some(if id.root == "a" || (q.DeadEnd? && id.root == "z") then [TWO, ONE] else [ONE]),
      (id, v) => Some(map p | p in Packages(q, id, v) :: Loaded), (id, v) => ReachOf(q, id, v),
      (id, v, ex) => DepsOfProgress(PlaceAll(CONTEXT, Inserted(Manifest(q, id, v)), SomeListing(ex))),
      (id, v) => [], (id, rev) => false,
      ROOTS, ALL, 2)
  }

  // ------------------------------------------------------------------ dependencies are made as the solver makes them

  /** All keys are project roots of this world. */
  predicate Known(xt: Trie) {
    forall r <- xt :: r in ROOTS && xt[r].ident.root == r && ManifestLevel(xt[r].constraint)
  }

  predicate InRoots(m: seq<Working>) {
    forall i :: 0 <= i < |m| ==> m[i].ident.root in ROOTS && ManifestLevel(m[i].constraint)
  }

  lemma {:induction false} InsertedAre(m: seq<Working>)
    requires InRoots(m)
    ensures Known(Inserted(m)) && Inserted(m).Keys == DepsFrom(m).Keys <= ROOTS
    ensures forall r <- DepsFrom(m) :: DepsFrom(m)[r] == CompleteDep(Inserted(m)[r].ident, Inserted(m)[r].constraint, [Main(r)])
    ensures forall r <- DepsFrom(m) :: exists i :: 0 <= i < |m| && m[i].ident.root == r
  {
    if m != [] {
      var init := m[..|m| - 1];
      InsertedAre(init);
      forall r | r in DepsFrom(m) ensures exists i :: 0 <= i < |m| && m[i].ident.root == r {
        if r in DepsFrom(init) {
          var i :| 0 <= i < |init| && init[i].ident.root == r;
          assert m[i].ident.root == r;
        }
      }
    }
  }

  /** Each package is found under its project. */
  lemma MainMatches(xt: Trie, r: ProjectRoot)
    requires Known(xt) && r in xt
    ensures Match(xt, Main(r)) == Some(r)
  {
    var p := Main(r);
    assert p[..1] == r && |r| == 1;
    assert Prefix(r, p);
    var pre := LongestPrefix(xt, p);
    assert |pre.value| == 1 && pre.value == p[..1];
    hide LongestUpTo;
  }

  lemma {:induction false} PlacedKeepsTrie(xt: Trie, reach: seq<Package>)
    requires PlaceAll(CONTEXT, xt, reach).Some?
    ensures PlaceAll(CONTEXT, xt, reach).value.xt == xt
    ensures PlaceAll(CONTEXT, xt, reach).value.dmap.Keys <= set r | r in xt :: xt[r].ident.root
  {
    hide Match;
    if reach != [] {
      PlacedKeepsTrie(xt, reach[..|reach| - 1]);
    }
  }

  lemma PlaceMain(s: Progress, r: ProjectRoot)
    requires Known(s.xt) && r in s.xt && r !in s.dmap
    ensures Place(CONTEXT, s, Main(r)) == Some(Progress(s.xt, s.dmap[r := CompleteDep(s.xt[r].ident, s.xt[r].constraint, [Main(r)])]))
  {
    MainMatches(s.xt, r);
    hide Match, Main;
  }

  /** Placing the main packages of different projects gives one dependency each. */
  lemma {:induction false} MainsArePlaced(xt: Trie, rs: seq<ProjectRoot>, reach: seq<Package>)
    requires Known(xt) && NoDup(rs) && |reach| == |rs| && forall i :: 0 <= i < |rs| ==> rs[i] in xt && reach[i] == Main(rs[i])
    ensures PlaceAll(CONTEXT, xt, reach).Some?
    ensures var dmap := PlaceAll(CONTEXT, xt, reach).value.dmap;
            (forall r :: r in dmap <==> r in rs) && forall r <- dmap :: dmap[r] == CompleteDep(xt[r].ident, xt[r].constraint, [Main(r)])
  {
    hide Place, Known, Main, Match;
    if reach != [] {
      var n := |reach| - 1;
      MainsArePlaced(xt, rs[..n], reach[..n]);
      PlacedKeepsTrie(xt, reach[..n]);
      assert rs == rs[..n] + [rs[n]] && rs[n] !in rs[..n];
      PlaceMain(PlaceAll(CONTEXT, xt, reach[..n]).value, rs[n]);
    }
  }

  /** The project whose main package this is. */
  function Owner(p: Package): ProjectRoot { if p == "" then "" else p[..1] }

  lemma MainsOwner(r: ProjectRoot)
    requires r in ROOTS
    ensures Owner(Main(r)) == r
  {
  }

  lemma ExternalsAre(q: Sequel, id: ProjectIdentifier, v: Version)
    ensures DepsIn(q, id, v).Keys <= ROOTS
    ensures forall p <- Externals(q, id, v) :: Owner(p) in DepsIn(q, id, v) && p == Main(Owner(p))
    ensures forall r <- DepsIn(q, id, v) :: Main(r) in Externals(q, id, v)
  {
    InsertedAre(Manifest(q, id, v));
    forall r | r in ROOTS ensures Owner(Main(r)) == r { MainsOwner(r); }
  }

  lemma OwnersOf(reach: seq<Package>, rs: seq<ProjectRoot>, ex: set<Package>, roots: set<ProjectRoot>)
    requires Listing(reach, ex) && |rs| == |reach| && forall i :: 0 <= i < |rs| ==> rs[i] == Owner(reach[i])
    requires roots <= ROOTS && (forall p <- ex :: Owner(p) in roots && p == Main(Owner(p))) && forall r <- roots :: Main(r) in ex
    ensures NoDup(rs) && forall i :: 0 <= i < |rs| ==> rs[i] in roots && reach[i] == Main(rs[i])
    ensures forall r :: r in rs <==> r in roots
  {
    hide Owner;
    forall i | 0 <= i < |rs| ensures rs[i] in roots && reach[i] == Main(rs[i]) { assert reach[i] in Elems(reach); }
    forall r | r in roots ensures r in rs {
      assert Main(r) in Elems(reach);
      var i :| 0 <= i < |reach| && reach[i] == Main(r);
      MainsOwner(r);
      assert rs[i] == r;
    }
  }

  lemma ConstrainIs(q: Sequel, id: ProjectIdentifier, v: Version, ex: set<Package>)
    ensures Stale(q).constrain(id, v, ex) == DepsOfProgress(PlaceAll(CONTEXT, Inserted(Manifest(q, id, v)), SomeListing(ex)))
  {
    hide Manifest, PlaceAll, Inserted, SomeListing;
  }

  lemma PlacedFrom(m: seq<Working>, ex: set<Package>)
    requires InRoots(m)
    requires (forall p <- ex :: Owner(p) in DepsFrom(m) && p == Main(Owner(p))) && forall r <- DepsFrom(m) :: Main(r) in ex
    ensures DepsOfProgress(PlaceAll(CONTEXT, Inserted(m), SomeListing(ex))) == Some(DepsFrom(m))
  {
    hide PlaceAll, Inserted, DepsFrom, Owner, Known, InRoots, SomeListing, Main, Listing;
    var deps, xt, reach := DepsFrom(m), Inserted(m), SomeListing(ex);
    var rs := seq(|reach|, i requires 0 <= i < |reach| => Owner(reach[i]));
    InsertedAre(m);
    OwnersOf(reach, rs, ex, deps.Keys);
    MainsArePlaced(xt, rs, reach);
    var dmap := PlaceAll(CONTEXT, xt, reach).value.dmap;
    assert forall r :: r in dmap <==> r in deps;
    assert dmap == deps;
  }

  /** intersectConstraintsWithImports makes the expected dependencies of each manifest. */
  lemma DepsArePlaced(q: Sequel, id: ProjectIdentifier, v: Version)
    ensures Stale(q).constrain(id, v, Externals(q, id, v)) == Some(DepsIn(q, id, v))
  {
    hide Stale, Manifest, PlaceAll, Inserted, Externals, DepsFrom, Owner, SomeListing;
    assert InRoots(Manifest(q, id, v));
    ConstrainIs(q, id, v, Externals(q, id, v));
    ExternalsAre(q, id, v);
    PlacedFrom(Manifest(q, id, v), Externals(q, id, v));
  }

  // ------------------------------------------------------------------ the worlds are valid

  ghost function Manifests(q: Sequel): (ProjectIdentifier, Version) -> seq<Working> { (id, v) => Manifest(q, id, v) }

  lemma NotOwn(q: Sequel, id: ProjectIdentifier, v: Version)
    ensures forall r <- DepsIn(q, id, v) :: r in ROOTS && id.root in ROOTS && r != id.root
  {
    var m := Manifest(q, id, v);
    InsertedAre(m);
    assert m != [] ==> id.root in ROOTS;
    hide DepsFrom, Inserted;
  }

  lemma MainIsOutside(own: ProjectRoot, r: ProjectRoot)
    requires own in ROOTS && r in ROOTS && own != r
    ensures Outside(own, Main(r)) && Main(r) in ALL
  {
    assert Prefix(own, Main(r)) ==> own == Main(r)[..1];
  }

  lemma ExternalsAreOutside(q: Sequel, id: ProjectIdentifier, v: Version)
    ensures ImportsOutside(Stale(q), id.root, ReachOf(q, id, v))
  {
    assert Stale(q).packages == ALL;
    hide Stale, DepsIn, Outside;
    NotOwn(q, id, v);
    forall r | r in DepsIn(q, id, v) ensures Outside(id.root, Main(r)) && Main(r) in ALL { MainIsOutside(id.root, r); }
  }

  lemma StaleIsFromManifests(q: Sequel)
    ensures FromManifests(Stale(q), CONTEXT, Manifests(q))
  {
    var w := Stale(q);
    forall id: ProjectIdentifier, v ensures ImportsOutside(w, id.root, w.reach(id, v)) { ExternalsAreOutside(q, id, v); }
    hide Manifest, PlaceAll, ImportsOutside, Inserted;
    forall id, v, ex ensures w.constrain(id, v, ex) ==
        match PlaceAll(CONTEXT, Inserted(Manifests(q)(id, v)), w.sorted(ex)) case None => None case Some(s) => Some(s.dmap) {}
  }

  lemma StaleIsInUniverse(q: Sequel)
    ensures InUniverse(Stale(q), CONTEXT, Manifests(q))
  {
    var w := Stale(q);
    forall id, v, ex | PlaceAll(CONTEXT, Inserted(Manifests(q)(id, v)), w.sorted(ex)).Some?
      ensures var s := PlaceAll(CONTEXT, Inserted(Manifests(q)(id, v)), w.sorted(ex)).value;
              s.dmap.Keys <= w.roots && forall r <- s.xt :: ManifestLevel(s.xt[r].constraint)
    {
      var xt := Inserted(Manifest(q, id, v));
      InsertedAre(Manifest(q, id, v));
      PlacedKeepsTrie(xt, w.sorted(ex));
    }
  }

  lemma OneListed(p: Package)
    ensures Elems([p]) == {p} && NoDup([p]) && Listing([p], {p})
  {
    assert [p][0] == p;
  }

  lemma StaleIsValid(q: Sequel)
    ensures ValidWorld(Stale(q))
  {
    var w := Stale(q);
    OneListed("a");
    assert Sound(w.lib) && ValidDeps(w, w.rootDeps);
    forall id, v ensures ClosedReach(w, w.reach(id, v)) {}
    StaleIsFromManifests(q);
    StaleIsInUniverse(q);
    hide ValidDeps, ClosedReach, Sound, FromManifests, InUniverse, Manifest;
    forall a, pl ensures GoodDeps(w, a, pl) { ManifestsGiveGoodDeps(w, CONTEXT, Manifests(q), a, pl); }
  }

  /** Folding changes nothing here. */
  lemma StaleIsCaseClean(q: Sequel)
    ensures CaseClean(Stale(q))
  {
    hide Imports;
  }

  // ------------------------------------------------------------------ what is imported

  /** z's package p and what it imports of z. */
  ghost const BOTH := SomeListing({"z/p", "z/q"})

  /** A package list with what it imports of its project. */
  ghost function Extended(q: Sequel, p: Package): seq<Package> { if p == "z/p" && !q.Orderly? then BOTH else [p] }

  lemma WithInternalsOne(q: Sequel, id: ProjectIdentifier, v: Version, p: Package)
    requires p in Packages(q, id, v)
    ensures WithInternals(ReachOf(q, id, v), [p]) == if p == "z/p" && !q.Orderly? then {"z/p", "z/q"} else {p}
  {
    hide Packages, Externals;
    var rm := ReachOf(q, id, v);
    OneListed(p);
    assert InternalsOf(rm, p) == if p == "z/p" && !q.Orderly? then {"z/q"} else {};
    forall x ensures x in WithInternals(rm, [p]) <==> x == p || x in InternalsOf(rm, p) {
      assert [p][0] == p;
    }
  }

  lemma ExternalsOne(q: Sequel, w: World, id: ProjectIdentifier, v: Version, p: Package)
    requires p in Packages(q, id, v) && !w.ignored(p)
    ensures ExternalsOf(w, ReachOf(q, id, v), [p]) == Externals(q, id, v) && FirstMissing(w, ReachOf(q, id, v), [p]) == 1
  {
    hide Packages, Externals;
    assert [p][0] == p && [p][1..] == [];
    var rm, ex := ReachOf(q, id, v), Externals(q, id, v);
    assert p in [p] && p in rm && rm[p].externals == ex;
    forall e ensures e in ExternalsOf(w, rm, [p]) <==> e in ex {
      if e in ex { assert e in rm[p].externals; }
    }
  }

  lemma StaleIs(q: Sequel, id: ProjectIdentifier, v: Version)
    ensures var w := Stale(q);
            w.reach(id, v) == ReachOf(q, id, v) && w.tree(id, v).Some? && (forall p :: !w.ignored(p)) && forall s :: w.sorted(s) == SomeListing(s)
  {
    hide ReachOf, Packages, DepsIn, Externals, PlaceAll, Inserted, SomeListing;
  }

  lemma ExtendedOne(q: Sequel, id: ProjectIdentifier, v: Version, p: Package)
    requires p in Packages(q, id, v)
    ensures ExtendedList(Stale(q), ReachOf(q, id, v), [p]) == Extended(q, p)
  {
    hide Packages, ReachOf, WithInternals, Stale, SomeListing;
    StaleIs(q, id, v);
    WithInternalsOne(q, id, v, p);
    assert p == "z/p" ==> |{"z/p", "z/q"}| == 2;
  }

  /** A package brings its project's dependencies; p brings q as well. */
  lemma ImportsOne(q: Sequel, a: Atom, p: Package)
    requires p in Packages(q, a.id, a.v)
    ensures Imports(Stale(q), a, [p]) == ImportResult.Imported(Extended(q, p), DepsIn(q, a.id, a.v))
  {
    hide Stale, DepsIn, ReachOf, ExternalsOf, FirstMissing, ExtendedList, Externals, Packages, Extended;
    StaleIs(q, a.id, a.v);
    ExtendedOne(q, a.id, a.v, p);
    ExternalsOne(q, Stale(q), a.id, a.v, p);
    DepsArePlaced(q, a.id, a.v);
  }

  lemma BothAre()
    ensures BOTH != ["z/p"] && NoDup(BOTH) && Elems(BOTH) == {"z/p", "z/q"} && forall p <- BOTH :: p == "z/p" || p == "z/q"
  {
    OneListed("z/p");
    assert "z/q" in Elems(BOTH) && "z/q" !in Elems(["z/p"]);
    forall p | p in BOTH ensures p == "z/p" || p == "z/q" { assert p in Elems(BOTH); }
  }

  /** Once extended, a list stays as it is. */
  lemma ImportsBoth(q: Sequel, a: Atom)
    requires "z/p" in Packages(q, a.id, a.v) && !q.Orderly?
    ensures Imports(Stale(q), a, BOTH) == ImportResult.Imported(BOTH, DepsIn(q, a.id, a.v))
  {
    StaleIsValid(q);
    ImportsOne(q, a, "z/p");
    OneListed("z/p");
    ImportsOfExtended(Stale(q), a, ["z/p"]);
  }

  lemma {:induction false} SomeMissing(w: World, rm: ReachMap, pl: seq<Package>, p: Package)
    requires p in pl && !w.ignored(p) && p !in rm
    ensures FirstMissing(w, rm, pl) < |pl|
  {
    if pl[0] != p {
      SomeMissing(w, rm, pl[1..], p);
    }
  }

  /** Without p the list cannot be had. */
  lemma ImportsMissing(q: Sequel, a: Atom)
    requires "z/p" !in Packages(q, a.id, a.v)
    ensures Imports(Stale(q), a, BOTH).ImportFailed?
  {
    BothAre();
    assert "z/p" in Elems(BOTH);
    SomeMissing(Stale(q), ReachOf(q, a.id, a.v), BOTH, "z/p");
  }
}
