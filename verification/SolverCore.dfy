/** The state the solver keeps about its partial solution, and the two moves that change it:
    selecting an atom and unselecting the last one (gps/selection.go, gps/solver.go).  The
    version queues only steer which moves are made; they are added in Solver.dfy. */
module SolverCore {
  import opened Constraints
  import opened Identifiers
  import opened Bridge

  type Edges = map<ProjectRoot, seq<Dependency>>

  datatype Selected = Selected(a: AtomWithPackages, first: bool)

  datatype Core = Core(
    projects: seq<Selected>,
    deps: Edges,
    foldRoots: map<string, ProjectRoot>,
    unsel: seq<Bmi>)

  // ------------------------------------------------------------------ looking things up

  function On(deps: Edges, r: ProjectRoot): seq<Dependency> {
    if r in deps then deps[r] else []
  }

  function Conditions(es: seq<Dependency>): (cs: seq<Constraint>)
    ensures |cs| == |es| && forall i :: 0 <= i < |es| ==> cs[i] == es[i].dep.constraint
  {
    seq(|es|, i requires 0 <= i < |es| => es[i].dep.constraint)
  }

  /** The composite constraint on a root: the fold over its inbound edges. */
  function Composite(w: World, deps: Edges, r: ProjectRoot): Constraint {
    Fold(w.lib, Conditions(On(deps, r)))
  }

  /** The base selection of a root: the first stack entry for it. */
  function Base(projects: seq<Selected>, r: ProjectRoot): (b: Option<AtomWithPackages>)
    ensures b.None? <==> forall x <- projects :: x.a.a.id.root != r
    ensures b.Some? ==> b.value.a.id.root == r
  {
    if projects == [] then None
    else
      var b := Base(projects[..|projects| - 1], r);
      var x := projects[|projects| - 1];
      assert projects == projects[..|projects| - 1] + [x];
      if b.Some? then b else if x.a.a.id.root == r then Some(x.a) else None
  }

  /** How often pkg is named by the edges es. */
  function Occurrences(es: seq<Dependency>, pkg: Package): nat {
    if es == [] then 0
    else Occurrences(es[..|es| - 1], pkg) + multiset(es[|es| - 1].dep.pl)[pkg]
  }

  /** The packages of dep that its edge is the only one to name. */
  function SoleImports(es: seq<Dependency>, pl: seq<Package>): (r: seq<Package>)
    ensures forall p :: p in r <==> p in pl && Occurrences(es, p) == 1
    ensures NoDup(pl) ==> NoDup(r)
  {
    if pl == [] then []
    else
      var last := pl[|pl| - 1];
      assert pl == pl[..|pl| - 1] + [last];
      SoleImports(es, pl[..|pl| - 1]) + if Occurrences(es, last) == 1 then [last] else []
  }

  /** The version a lock records for exactly this identifier; the last entry wins. */
  function LockedAt(lock: seq<LockedProject>, id: ProjectIdentifier): Option<Version> {
    if lock == [] then None
    else if lock[|lock| - 1].ident == id then Some(lock[|lock| - 1].version)
    else LockedAt(lock[..|lock| - 1], id)
  }

  // ------------------------------------------------------------------ the moves, piece by piece

  function Edge(a: Atom, deps: Deps, r: ProjectRoot): Dependency
    requires r in deps
  {
    Dependency(a, deps[r])
  }

  function AddEdges(edges: Edges, a: Atom, deps: Deps, rs: set<ProjectRoot>): Edges
    requires rs <= deps.Keys
  {
    map r | r in edges.Keys + rs :: On(edges, r) + if r in rs then [Edge(a, deps, r)] else []
  }

  function DropEdges(edges: Edges, rs: set<ProjectRoot>): Edges {
    map r | r in edges.Keys :: if r in rs && edges[r] != [] then edges[r][..|edges[r]| - 1] else edges[r]
  }

  function MarkRoots(w: World, foldRoots: map<string, ProjectRoot>, edges: Edges, order: seq<ProjectRoot>): map<string, ProjectRoot> {
    if order == [] then foldRoots
    else
      var f := MarkRoots(w, foldRoots, edges, order[..|order| - 1]);
      var r := order[|order| - 1];
      if On(edges, r) == [] then f[w.toFold(r) := r] else f
  }

  function UnmarkRoots(w: World, foldRoots: map<string, ProjectRoot>, edges: Edges, order: seq<ProjectRoot>): map<string, ProjectRoot> {
    if order == [] then foldRoots
    else
      var f := UnmarkRoots(w, foldRoots, edges, order[..|order| - 1]);
      var r := order[|order| - 1];
      if |On(edges, r)| == 1 then f - {w.toFold(r)} else f
  }

  /** The work item for the packages that only the new edge on d's root asks for. */
  function NewBmi(w: World, edges: Edges, a: Atom, d: CompleteDep): Bmi {
    var es := On(edges, d.ident.root) + [Dependency(a, d)];
    Bmi(es[0].dep.ident, SoleImports(es, d.pl), LockedAt(w.lock(a.id, a.v), d.ident), false)
  }

  function Enqueued(w: World, edges: Edges, a: Atom, deps: Deps, order: seq<ProjectRoot>): multiset<Bmi>
    requires Elems(order) <= deps.Keys
  {
    if order == [] then multiset{}
    else
      var init, r := order[..|order| - 1], order[|order| - 1];
      assert r in Elems(order) && Elems(init) <= Elems(order);
      var b := NewBmi(w, edges, a, deps[r]);
      Enqueued(w, edges, a, deps, init) + if b.pl != [] then multiset{b} else multiset{}
  }

  predicate SameWork(b: Bmi, id: ProjectIdentifier, pl: seq<Package>) {
    b.id.Eq(id) && b.pl == pl
  }

  /** unselected.remove: the first queue entry for this identifier and package list goes. */
  function RemoveFirst(sl: seq<Bmi>, id: ProjectIdentifier, pl: seq<Package>): seq<Bmi> {
    if sl == [] then []
    else if SameWork(sl[0], id, pl) then sl[1..]
    else [sl[0]] + RemoveFirst(sl[1..], id, pl)
  }

  function DropUnneeded(edges: Edges, deps: Deps, sl: seq<Bmi>, order: seq<ProjectRoot>): seq<Bmi>
    requires Elems(order) <= deps.Keys
  {
    if order == [] then sl
    else
      var init, r := order[..|order| - 1], order[|order| - 1];
      assert r in Elems(order) && Elems(init) <= Elems(order);
      var rest := DropUnneeded(edges, deps, sl, init);
      if On(edges, r) == [] then RemoveFirst(rest, deps[r].ident, deps[r].pl) else rest
  }

  // ------------------------------------------------------------------ the guards (gps/satisfy.go)

  predicate PackagesOk(t: Option<PackageTree>, pl: seq<Package>) {
    t.Some? && forall p <- pl :: p in t.value && t.value[p].Loaded?
  }

  /** The atom is at a version the dependency allows and has all packages it names. */
  predicate Satisfied(w: World, a: Atom, d: CompleteDep) {
    Matches(w.lib, d.constraint, a.v) && PackagesOk(ListPackages(w, a.id, a.v), d.pl)
  }

  predicate DepOk(w: World, s: Core, d: CompleteDep) {
    var r := d.ident.root;
    && (On(s.deps, r) != [] ==> On(s.deps, r)[0].dep.ident.Equiv(d.ident))
    && (w.toFold(r) in s.foldRoots ==> s.foldRoots[w.toFold(r)] == r)
    && MatchesAny(w.lib, Composite(w, s.deps, r), d.constraint)
    && (Base(s.projects, r).Some? ==> Satisfied(w, Base(s.projects, r).value.a, d))
    && (IsRevision(d.constraint) ==> w.revisionPresent(d.ident, d.constraint.v.rev))
  }

  /** What check accepts. */
  predicate CheckOk(w: World, s: Core, awp: AtomWithPackages, pkgonly: bool) {
    var a := awp.a;
    var t := ListPackages(w, a.id, a.v);
    var i := Imports(w, a, awp.pl);
    && (!pkgonly ==> Matches(w.lib, Composite(w, s.deps, a.id.root), a.v))
    && t.Some? && (forall e <- On(s.deps, a.id.root) :: PackagesOk(t, e.dep.pl))
    && i.Imported? && forall r <- i.deps :: DepOk(w, s, i.deps[r])
  }

  // ------------------------------------------------------------------ the machine

  ghost predicate Start(w: World, s: Core, order: seq<ProjectRoot>) {
    && Listing(order, w.rootDeps.Keys)
    && s.projects == [Selected(AtomWithPackages(RootAtom(w), w.rootList), true)]
    && s.deps == AddEdges(map[], RootAtom(w), w.rootDeps, w.rootDeps.Keys)
    && s.foldRoots == MarkRoots(w, map[], map[], order)
    && multiset(s.unsel) == RootWork(w, order)
  }

  function RootWork(w: World, order: seq<ProjectRoot>): multiset<Bmi>
    requires Elems(order) <= w.rootDeps.Keys
  {
    if order == [] then multiset{}
    else
      var init, r := order[..|order| - 1], order[|order| - 1];
      assert r in Elems(order) && Elems(init) <= Elems(order);
      var d := w.rootDeps[r];
      RootWork(w, init) + multiset{Bmi(d.ident, d.pl, None, true)}
  }

  /** selectAtom, for dependencies visited in the given order. */
  ghost predicate Selects(w: World, s: Core, t: Core, awp: AtomWithPackages, pkgonly: bool, order: seq<ProjectRoot>) {
    var i := Imports(w, awp.a, awp.pl);
    && i.Imported? && Listing(order, i.deps.Keys - {w.rootName})
    && t.projects == s.projects + [Selected(AtomWithPackages(awp.a, i.pl), !pkgonly)]
    && t.deps == AddEdges(s.deps, awp.a, i.deps, i.deps.Keys - {w.rootName})
    && t.foldRoots == MarkRoots(w, s.foldRoots, s.deps, order)
    && multiset(t.unsel) == multiset(RemoveFirst(s.unsel, awp.a.id, awp.pl)) + Enqueued(w, s.deps, awp.a, i.deps, order)
  }

  /** unselectLast; queue is the work queue with the popped atom pushed back. */
  ghost predicate Unselects(w: World, s: Core, t: Core, queue: seq<Bmi>, order: seq<ProjectRoot>) {
    && s.projects != []
    && var awp := s.projects[|s.projects| - 1].a;
    var i := Imports(w, awp.a, awp.pl);
    && i.Imported? && Listing(order, i.deps.Keys - {w.rootName})
    && t.projects == s.projects[..|s.projects| - 1]
    && t.deps == DropEdges(s.deps, i.deps.Keys - {w.rootName})
    && t.foldRoots == UnmarkRoots(w, s.foldRoots, s.deps, order)
    && multiset(queue) == multiset(s.unsel) + multiset{Bmi(awp.a.id, awp.pl, None, false)}
    && t.unsel == DropUnneeded(t.deps, i.deps, queue, order)
  }

  /** What the search asks to select: a new project at any version, or more packages of a
      selected project at the version it already has. */
  ghost predicate Request(w: World, s: Core, awp: AtomWithPackages, pkgonly: bool) {
    && awp.a.id.root in w.roots && awp.a.id.root != w.rootName && NoDup(awp.pl)
    && (pkgonly <==> Base(s.projects, awp.a.id.root).Some?)
    && (pkgonly ==> awp.a.v == Base(s.projects, awp.a.id.root).value.a.v)
  }

  ghost predicate Step(w: World, s: Core, t: Core) {
    || (exists awp, pkgonly, order ::
          Request(w, s, awp, pkgonly) && CheckOk(w, s, awp, pkgonly) && Selects(w, s, t, awp, pkgonly, order))
    || (|s.projects| > 1 && exists queue, order :: Unselects(w, s, t, queue, order))
  }

  /** The first state of a run is a start state, every other follows from the one before. */
  ghost predicate Link(w: World, ss: seq<Core>, k: nat)
    requires k < |ss|
  {
    if k == 0 then exists order :: Start(w, ss[0], order) else Step(w, ss[k - 1], ss[k])
  }

  /** A run of the machine, whatever strategy picks its moves. */
  ghost predicate Run(w: World, ss: seq<Core>) {
    ss != [] && forall k :: 0 <= k < |ss| ==> Link(w, ss, k)
  }

  ghost predicate Reachable(w: World, s: Core) {
    exists ss :: Run(w, ss) && ss[|ss| - 1] == s
  }
}
