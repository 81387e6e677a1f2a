/** What a solve run is given and cannot change: the root project's data and the answers of
    the source manager, as pure total functions (gps/rootdata.go, gps/bridge.go). */
module Bridge {
  import opened Constraints
  import opened Identifiers

  datatype PackageOrErr = Loaded | Broken(err: string)

  /** One entry of a reach map. */
  datatype Reach = Reach(internals: set<Package>, externals: set<Package>)

  type PackageTree = map<Package, PackageOrErr>
  type ReachMap = map<Package, Reach>
  type Deps = map<ProjectRoot, CompleteDep>

  datatype World = World(
    lib: Library,
    // root project
    rootName: ProjectRoot,
    rootRevision: string,
    rootList: seq<Package>,
    rootTree: PackageTree,
    rootDeps: Deps,
    rootLock: map<ProjectRoot, Version>,
    change: set<ProjectRoot>,
    changeAll: bool,
    // library helpers
    ignored: Package -> bool,
    toFold: string -> string,
    sorted: set<Package> -> seq<Package>,
    // source manager
    sourceExists: ProjectIdentifier -> bool,
    vendorExists: ProjectIdentifier -> bool,
    versions: ProjectIdentifier -> Option<seq<Version>>,
    tree: (ProjectIdentifier, Version) -> Option<PackageTree>,
    reach: (ProjectIdentifier, Version) -> ReachMap,
    constrain: (ProjectIdentifier, Version, set<Package>) -> Option<Deps>,
    lock: (ProjectIdentifier, Version) -> seq<LockedProject>,
    revisionPresent: (ProjectIdentifier, string) -> bool,
    // the finite universe the answers are drawn from
    roots: set<ProjectRoot>,
    packages: set<Package>,
    maxVersions: nat)

  function RootAtom(w: World): Atom {
    Atom(ProjectIdentifier(w.rootName, ""), Revision(w.rootRevision))
  }

  /** bridge.ListPackages: the root's own tree never comes from the source manager. */
  function ListPackages(w: World, id: ProjectIdentifier, v: Version): Option<PackageTree> {
    if id.root == w.rootName then Some(w.rootTree) else w.tree(id, v)
  }

  // ------------------------------------------------------------------ well-formed answers

  ghost predicate ValidDep(w: World, r: ProjectRoot, d: CompleteDep) {
    && d.ident.root == r
    && ManifestLevel(d.constraint)
    && d.pl != [] && NoDup(d.pl) && Elems(d.pl) <= w.packages
  }

  ghost predicate ValidDeps(w: World, deps: Deps) {
    forall r <- deps :: r in w.roots && ValidDep(w, r, deps[r])
  }

  /** Every package a reach map keeps is selectable, and its entry contains the entries of
      the packages it reaches. */
  ghost predicate ClosedReach(w: World, rm: ReachMap) {
    forall p <- rm :: !w.ignored(p) && forall q <- rm[p].internals ::
      q in rm && rm[q].internals <= rm[p].internals && rm[q].externals <= rm[p].externals
  }

  // ------------------------------------------------------------------ getImportsAndConstraintsOf

  datatype ImportError = TreeUnavailable | PackageMissing(pkg: Package) | RootUndeducible

  datatype ImportResult = Imported(pl: seq<Package>, deps: Deps) | ImportFailed(err: ImportError)

  function InternalsOf(rm: ReachMap, p: Package): set<Package> {
    if p in rm then rm[p].internals else {}
  }

  /** The listed packages and all those they reach inside the project. */
  function WithInternals(rm: ReachMap, pl: seq<Package>): set<Package> {
    Elems(pl) + set p, q | p in pl && q in InternalsOf(rm, p) :: q
  }

  function ExtendedList(w: World, rm: ReachMap, pl: seq<Package>): seq<Package> {
    if |WithInternals(rm, pl)| == |pl| then pl else w.sorted(WithInternals(rm, pl))
  }

  /** Position of the first listed package that is neither ignored nor in the reach map. */
  function FirstMissing(w: World, rm: ReachMap, pl: seq<Package>): (k: nat)
    ensures k <= |pl|
    ensures forall i :: 0 <= i < k ==> w.ignored(pl[i]) || pl[i] in rm
    ensures k < |pl| ==> !w.ignored(pl[k]) && pl[k] !in rm
  {
    if pl == [] then 0
    else if !w.ignored(pl[0]) && pl[0] !in rm then 0
    else 1 + FirstMissing(w, rm, pl[1..])
  }

  function ExternalsOf(w: World, rm: ReachMap, pl: seq<Package>): set<Package> {
    set p, e | p in pl && !w.ignored(p) && p in rm && e in rm[p].externals :: e
  }

  function Imports(w: World, a: Atom, pl: seq<Package>): ImportResult {
    if w.tree(a.id, a.v).None? then ImportFailed(TreeUnavailable)
    else
      var rm := w.reach(a.id, a.v);
      var k := FirstMissing(w, rm, pl);
      if k < |pl| then ImportFailed(PackageMissing(pl[k]))
      else match w.constrain(a.id, a.v, ExternalsOf(w, rm, pl))
        case None => ImportFailed(RootUndeducible)
        case Some(deps) => Imported(ExtendedList(w, rm, pl), deps)
  }

  // ------------------------------------------------------------------ well-formed worlds

  /** Dependencies are well formed, and none is on the project itself: what a project imports of its
      own counts as internal. */
  ghost predicate GoodDeps(w: World, a: Atom, pl: seq<Package>) {
    match Imports(w, a, pl)
    case Imported(_, deps) => ValidDeps(w, deps) && (a.id.root != w.rootName ==> a.id.root !in deps)
    case ImportFailed(_) => true
  }

  ghost predicate ValidWorld(w: World) {
    && Sound(w.lib)
    && ValidDeps(w, w.rootDeps) && w.rootName !in w.rootDeps
    && (forall s :: Listing(w.sorted(s), s))
    && (forall id, v :: ClosedReach(w, w.reach(id, v)))
    && (forall a, pl :: GoodDeps(w, a, pl))
    && (forall id :: w.versions(id).Some? ==> |w.versions(id).value| <= w.maxVersions)
  }

  /** The extended list asks for the packages of the original one, and then some. */
  lemma ExtendedListListsAll(w: World, rm: ReachMap, pl: seq<Package>)
    requires ValidWorld(w) && NoDup(pl)
    ensures Listing(ExtendedList(w, rm, pl), WithInternals(rm, pl))
  {
    var all := WithInternals(rm, pl);
    assert Listing(w.sorted(all), all);
    if |all| == |pl| {
      NoDupCard(pl);
      SubsetCard(Elems(pl), all);
    }
  }

  lemma ExtendedMember(w: World, rm: ReachMap, pl: seq<Package>, q: Package)
    requires ValidWorld(w) && ClosedReach(w, rm) && NoDup(pl) && FirstMissing(w, rm, pl) == |pl|
    requires q in ExtendedList(w, rm, pl)
    ensures w.ignored(q) || q in rm
    ensures InternalsOf(rm, q) <= Elems(ExtendedList(w, rm, pl))
    ensures !w.ignored(q) ==> rm[q].externals <= ExternalsOf(w, rm, pl)
  {
    ExtendedListListsAll(w, rm, pl);
    assert q in WithInternals(rm, pl);
    if q in pl {
      var i :| 0 <= i < |pl| && pl[i] == q;
      assert InternalsOf(rm, q) <= WithInternals(rm, pl);
    } else {
      var p :| p in pl && q in InternalsOf(rm, p);
      assert rm[p].internals == InternalsOf(rm, p) <= WithInternals(rm, pl);
      assert rm[p].externals <= ExternalsOf(w, rm, pl);
    }
  }

  ghost predicate AbsorbedBy(w: World, rm: ReachMap, pl: seq<Package>, ext: seq<Package>, q: Package) {
    && (w.ignored(q) || q in rm)
    && InternalsOf(rm, q) <= Elems(ext)
    && (!w.ignored(q) ==> rm[q].externals <= ExternalsOf(w, rm, pl))
  }

  lemma AbsorbingIsStable(w: World, rm: ReachMap, pl: seq<Package>, ext: seq<Package>)
    requires NoDup(ext) && Elems(pl) <= Elems(ext)
    requires forall q <- ext :: AbsorbedBy(w, rm, pl, ext, q)
    ensures FirstMissing(w, rm, ext) == |ext|
    ensures ExtendedList(w, rm, ext) == ext
    ensures ExternalsOf(w, rm, ext) == ExternalsOf(w, rm, pl)
  {
    assert forall k :: 0 <= k < |ext| ==> AbsorbedBy(w, rm, pl, ext, ext[k]);
    assert WithInternals(rm, ext) == Elems(ext);
    NoDupCard(ext);
    forall p | p in pl ensures p in ext { assert p in Elems(pl); }
  }

  /** A transitively closed reach map makes extending idempotent, and invisible to everything
      outside the project. */
  lemma ExtendingIsStable(w: World, rm: ReachMap, pl: seq<Package>)
    requires ValidWorld(w) && ClosedReach(w, rm) && NoDup(pl) && FirstMissing(w, rm, pl) == |pl|
    ensures var ext := ExtendedList(w, rm, pl);
            && NoDup(ext) && Elems(pl) <= Elems(ext)
            && FirstMissing(w, rm, ext) == |ext|
            && ExtendedList(w, rm, ext) == ext
            && ExternalsOf(w, rm, ext) == ExternalsOf(w, rm, pl)
  {
    var ext := ExtendedList(w, rm, pl);
    ExtendedListListsAll(w, rm, pl);
    forall q | q in ext ensures AbsorbedBy(w, rm, pl, ext, q) {
      ExtendedMember(w, rm, pl, q);
    }
    AbsorbingIsStable(w, rm, pl, ext);
  }

  /** Recomputing an atom's dependencies from the list stored for it gives them back. */
  lemma ImportsOfExtended(w: World, a: Atom, pl: seq<Package>)
    requires ValidWorld(w) && NoDup(pl) && Imports(w, a, pl).Imported?
    ensures var r := Imports(w, a, pl);
            NoDup(r.pl) && Elems(pl) <= Elems(r.pl) && ValidDeps(w, r.deps) && Imports(w, a, r.pl) == r
  {
    assert GoodDeps(w, a, pl);
    ExtendingIsStable(w, w.reach(a.id, a.v), pl);
  }

  /** The closure hypothesis is exact: for an error-free, non-ignored package of any reach map,
      asking again with the extended list sees the same packages and the same external imports
      if and only if the map is closed at that package. */
  ghost predicate ClosedAt(w: World, rm: ReachMap, p: Package)
    requires p in rm
  {
    forall q <- rm[p].internals :: !w.ignored(q) ==> q in rm && rm[q].externals <= rm[p].externals
  }

  lemma RecomputationNeedsClosure(w: World, rm: ReachMap, p: Package)
    requires ValidWorld(w) && p in rm && !w.ignored(p)
    ensures var ext := ExtendedList(w, rm, [p]);
            ClosedAt(w, rm, p) <==> FirstMissing(w, rm, ext) == |ext| && ExternalsOf(w, rm, ext) == ExternalsOf(w, rm, [p])
  {
    var ext := ExtendedList(w, rm, [p]);
    ExtendedListListsAll(w, rm, [p]);
    assert Elems([p]) == {p};
    assert [p][0] == p;
    assert WithInternals(rm, [p]) == {p} + rm[p].internals by {
      assert forall x :: x in [p] <==> x == p;
      forall q | q in rm[p].internals ensures q in WithInternals(rm, [p]) { assert p in [p] && q in InternalsOf(rm, p); }
    }
    forall q ensures q in ext <==> q == p || q in rm[p].internals { assert q in ext <==> q in Elems(ext); }
    assert ExternalsOf(w, rm, [p]) == rm[p].externals;
    if ClosedAt(w, rm, p) {
      assert ExternalsOf(w, rm, ext) == rm[p].externals;
    } else {
      var q :| q in rm[p].internals && !w.ignored(q) && !(q in rm && rm[q].externals <= rm[p].externals);
      assert q in ext;
      if q in rm {
        var e :| e in rm[q].externals && e !in rm[p].externals;
        assert e in ExternalsOf(w, rm, ext);
      }
    }
  }

  // ------------------------------------------------------------------ ignored packages

  lemma {:induction false} FirstMissingPush(w: World, rm: ReachMap, pl: seq<Package>, p: Package)
    requires w.ignored(p) || p in rm
    ensures FirstMissing(w, rm, pl + [p]) == if FirstMissing(w, rm, pl) < |pl| then FirstMissing(w, rm, pl) else |pl| + 1
  {
    if pl == [] {
      assert [] + [p] == [p] && [p][1..] == [];
    } else {
      assert (pl + [p])[1..] == pl[1..] + [p];
      FirstMissingPush(w, rm, pl[1..], p);
    }
  }

  /** Asking for an ignored package in addition changes nothing: neither what fails, nor what the atom
      depends on. */
  lemma IgnoredChangesNothing(w: World, a: Atom, pl: seq<Package>, p: Package)
    requires w.ignored(p)
    ensures var i, more := Imports(w, a, pl), Imports(w, a, pl + [p]);
            if i.ImportFailed? then more == i else more.Imported? && more.deps == i.deps
  {
    var rm := w.reach(a.id, a.v);
    FirstMissingPush(w, rm, pl, p);
    assert ExternalsOf(w, rm, pl + [p]) == ExternalsOf(w, rm, pl) by { ExternalsPush(w, rm, pl, p); }
    hide FirstMissing, ExternalsOf, ExtendedList;
  }

  // ------------------------------------------------------------------ its loops

  lemma WithInternalsPush(rm: ReachMap, pl: seq<Package>, p: Package)
    ensures WithInternals(rm, pl + [p]) == WithInternals(rm, pl) + {p} + InternalsOf(rm, p)
  {
    assert p in pl + [p];
    forall q | q in InternalsOf(rm, p) ensures q in WithInternals(rm, pl + [p]) { assert p in pl + [p]; }
    forall q | q in WithInternals(rm, pl) ensures q in WithInternals(rm, pl + [p]) {
      if q !in pl {
        var o :| o in pl && q in InternalsOf(rm, o);
        assert o in pl + [p];
      }
    }
  }

  lemma ExternalsPush(w: World, rm: ReachMap, pl: seq<Package>, p: Package)
    ensures ExternalsOf(w, rm, pl + [p]) == ExternalsOf(w, rm, pl) + if !w.ignored(p) && p in rm then rm[p].externals else {}
  {
    assert p in pl + [p];
    forall e | e in ExternalsOf(w, rm, pl) ensures e in ExternalsOf(w, rm, pl + [p]) {
      var o :| o in pl && !w.ignored(o) && o in rm && e in rm[o].externals;
      assert o in pl + [p];
    }
  }

  method CollectInternals(rm: ReachMap, pl: seq<Package>) returns (inmap: set<Package>)
    ensures inmap == WithInternals(rm, pl)
  {
    inmap := {};
    for i := 0 to |pl|
      invariant inmap == WithInternals(rm, pl[..i])
    {
      assert pl[..i + 1] == pl[..i] + [pl[i]];
      WithInternalsPush(rm, pl[..i], pl[i]);
      inmap := inmap + {pl[i]} + InternalsOf(rm, pl[i]);
    }
    assert pl[..|pl|] == pl;
  }

  /** The externally reached packages, or the first package that is not there. */
  method CollectExternals(w: World, rm: ReachMap, pl: seq<Package>) returns (missing: Option<Package>, exmap: set<Package>)
    ensures missing == (var k := FirstMissing(w, rm, pl); if k < |pl| then Some(pl[k]) else None)
    ensures missing.None? ==> exmap == ExternalsOf(w, rm, pl)
  {
    exmap := {};
    for i := 0 to |pl|
      invariant FirstMissing(w, rm, pl) >= i
      invariant exmap == ExternalsOf(w, rm, pl[..i])
    {
      assert pl[..i + 1] == pl[..i] + [pl[i]];
      ExternalsPush(w, rm, pl[..i], pl[i]);
      if w.ignored(pl[i]) {
        continue;
      }
      if pl[i] !in rm {
        return Some(pl[i]), {};
      }
      exmap := exmap + rm[pl[i]].externals;
    }
    assert pl[..|pl|] == pl;
    return None, exmap;
  }

  /** The iteration order of a map is not determined. */
  method AnyOrder<T>(s: set<T>) returns (order: seq<T>)
    ensures Listing(order, s)
  {
    order := [];
    var todo := s;
    while todo != {}
      invariant todo <= s && NoDup(order) && Elems(order) == s - todo
      decreases |todo|
    {
      var x :| x in todo;
      todo := todo - {x};
      assert x !in Elems(order) && Elems(order + [x]) == Elems(order) + {x};
      order := order + [x];
    }
  }

  method GetImportsAndConstraintsOf(w: World, a: AtomWithPackages) returns (r: ImportResult, order: seq<ProjectRoot>)
    ensures r == Imports(w, a.a, a.pl)
    ensures r.Imported? ==> Listing(order, r.deps.Keys)
  {
    order := [];
    if w.tree(a.a.id, a.a.v).None? {
      return ImportFailed(TreeUnavailable), [];
    }
    var rm := w.reach(a.a.id, a.a.v);
    var inmap := CollectInternals(rm, a.pl);
    var pl := if |inmap| == |a.pl| then a.pl else w.sorted(inmap);
    var missing, exmap := CollectExternals(w, rm, a.pl);
    if missing.Some? {
      return ImportFailed(PackageMissing(missing.value)), [];
    }
    var cd := w.constrain(a.a.id, a.a.v, exmap);
    if cd.None? {
      return ImportFailed(RootUndeducible), [];
    }
    order := AnyOrder(cd.value.Keys);
    return Imported(pl, cd.value), order;
  }
}
