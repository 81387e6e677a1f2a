/** The dependency graph of a Poetry lock file (snyk-poetry-lockfile-parser,
    lib/poetry-dep-graph-builder.ts). */
module PoetryGraph {
  import opened Constraints
  import opened Identifiers

  datatype PkgInfo = PkgInfo(name: string, version: string)

  datatype LockEntry = LockEntry(name: string, version: string, dependencies: seq<string>)

  /** A lock file, and the lower-casing of the host language. */
  datatype Lock = Lock(specs: seq<LockEntry>, lower: string -> string)

  const IGNORED := {"setuptools", "distribute", "pip", "wheel"}

  // ------------------------------------------------------------------ names

  function Replace(s: string, a: char, b: char): (r: string)
    ensures |r| == |s| && forall i :: 0 <= i < |s| ==> r[i] == if s[i] == a then b else s[i]
  {
    seq(|s|, i requires 0 <= i < |s| => if s[i] == a then b else s[i])
  }

  function Hyphens(l: Lock, name: string): string { Replace(l.lower(name), '_', '-') }

  function Underscores(l: Lock, name: string): string { Replace(l.lower(name), '-', '_') }

  predicate Equivalent(l: Lock, a: string, b: string) {
    Hyphens(l, a) == Hyphens(l, b) || Underscores(l, a) == Underscores(l, b)
  }

  /** The two comparisons agree, so equivalence is equality of one normal form. */
  lemma EquivalentIsSameNormalForm(l: Lock, a: string, b: string)
    ensures Equivalent(l, a, b) <==> Hyphens(l, a) == Hyphens(l, b)
  {
    if Underscores(l, a) == Underscores(l, b) {
      var x, y := l.lower(a), l.lower(b);
      assert |x| == |Underscores(l, a)| == |y|;
      forall i | 0 <= i < |x| ensures Hyphens(l, a)[i] == Hyphens(l, b)[i] {
        assert Underscores(l, a)[i] == Underscores(l, b)[i];
      }
      assert Hyphens(l, a) == Hyphens(l, b);
    }
  }

  function Find(l: Lock, specs: seq<LockEntry>, name: string): Option<LockEntry> {
    if specs == [] then None
    else if Equivalent(l, specs[0].name, name) then Some(specs[0])
    else Find(l, specs[1..], name)
  }

  /** pkgLockInfoFor: the first entry with an equivalent name. */
  function Lookup(l: Lock, name: string): Option<LockEntry> { Find(l, l.specs, name) }

  /** The lock entry a dependency name stands for in the graph. */
  function Resolve(l: Lock, name: string): Option<LockEntry> {
    if name in IGNORED then None else Lookup(l, name)
  }

  /** The i-th entry is the first with an equivalent name. */
  predicate FirstNamed(l: Lock, specs: seq<LockEntry>, name: string, i: int) {
    0 <= i < |specs| && Equivalent(l, specs[i].name, name) && forall j :: 0 <= j < i ==> !Equivalent(l, specs[j].name, name)
  }

  /** What is found is that entry, and nothing only if there is none. */
  lemma {:induction false} FindIs(l: Lock, specs: seq<LockEntry>, name: string)
    ensures Find(l, specs, name).None? <==> forall j :: 0 <= j < |specs| ==> !Equivalent(l, specs[j].name, name)
    ensures forall i :: FirstNamed(l, specs, name, i) ==> Find(l, specs, name) == Some(specs[i])
    ensures Find(l, specs, name).Some? ==> Find(l, specs, name).value in specs && Equivalent(l, Find(l, specs, name).value.name, name)
  {
    hide Equivalent;
    if specs != [] && !Equivalent(l, specs[0].name, name) {
      FindIs(l, specs[1..], name);
      forall i | FirstNamed(l, specs, name, i) ensures Find(l, specs, name) == Some(specs[i]) {
        assert FirstNamed(l, specs[1..], name, i - 1);
      }
      assert forall j :: 1 <= j < |specs| ==> specs[j] == specs[1..][j - 1];
    }
  }

  lemma {:induction false} FindSame(l: Lock, specs: seq<LockEntry>, a: string, b: string)
    requires Equivalent(l, a, b)
    ensures Find(l, specs, a) == Find(l, specs, b)
  {
    if specs != [] {
      EquivalentIsSameNormalForm(l, a, b);
      EquivalentIsSameNormalForm(l, specs[0].name, a);
      EquivalentIsSameNormalForm(l, specs[0].name, b);
      FindSame(l, specs[1..], a, b);
    }
  }

  /** The lookup is a function of the normalised name. */
  lemma LookupIsByNormalForm(l: Lock, a: string, b: string)
    requires Hyphens(l, a) == Hyphens(l, b)
    ensures Lookup(l, a) == Lookup(l, b)
  {
    FindSame(l, l.specs, a, b);
  }

  /** An entry that some name resolves to is what its own name resolves to. */
  lemma LookupSelf(l: Lock, name: string)
    requires Lookup(l, name).Some?
    ensures var e := Lookup(l, name).value; e in l.specs && Lookup(l, e.name) == Some(e)
  {
    FindIs(l, l.specs, name);
    FindSame(l, l.specs, Lookup(l, name).value.name, name);
  }

  /** Resolution is not, because the names to ignore are compared as they are written: it agrees on
      equivalent names exactly if both or none of them is ignored, or there is nothing to find. */
  lemma ResolutionAgreesExactly(l: Lock, a: string, b: string)
    requires Hyphens(l, a) == Hyphens(l, b)
    ensures Resolve(l, a) == Resolve(l, b) <==> Lookup(l, a).None? || (a in IGNORED <==> b in IGNORED)
  {
    LookupIsByNormalForm(l, a, b);
  }

  /** A name stands for nothing exactly if it is one of the tools Poetry installs itself, as written
      here, or no entry has an equivalent name. */
  lemma ResolvesUnlessIgnored(l: Lock, name: string)
    ensures Resolve(l, name).None? <==>
            || name == "setuptools" || name == "distribute" || name == "pip" || name == "wheel"
            || forall j :: 0 <= j < |l.specs| ==> !Equivalent(l, l.specs[j].name, name)
  {
    hide Equivalent;
    FindIs(l, l.specs, name);
  }

  const PIP := LockEntry("pip", "1", [])

  /** A lock file with pip in it, in a language that lowers Pip to pip. */
  function PipLock(): Lock { Lock([PIP], name => if name == "Pip" then "pip" else name) }

  /** pip is ignored, but Pip is resolved to it. */
  lemma CapitalPipIsNotIgnored()
    ensures Hyphens(PipLock(), "Pip") == Hyphens(PipLock(), "pip")
    ensures Resolve(PipLock(), "pip") == None && Resolve(PipLock(), "Pip") == Some(PIP)
  {
  }

  // ------------------------------------------------------------------ the closure

  /** A chain of lock entries, each a resolved dependency of the one before, the first of a name
      in the manifest. */
  ghost predicate Linked(l: Lock, names: seq<string>, e: LockEntry) {
    exists n :: n in names && Resolve(l, n) == Some(e)
  }

  ghost predicate Chain(l: Lock, names: seq<string>, c: seq<LockEntry>) {
    && c != [] && Linked(l, names, c[0])
    && forall i, j :: 0 <= i && j == i + 1 && j < |c| ==> Linked(l, c[i].dependencies, c[j])
  }

  ghost predicate Reached(l: Lock, names: seq<string>, e: LockEntry) {
    exists c :: Chain(l, names, c) && c[|c| - 1] == e
  }

  lemma ReachedFirst(l: Lock, names: seq<string>, e: LockEntry)
    requires Linked(l, names, e)
    ensures Reached(l, names, e)
  {
    assert Chain(l, names, [e]);
    assert [e][|[e]| - 1] == e;
  }

  lemma ReachedNext(l: Lock, names: seq<string>, e: LockEntry, f: LockEntry)
    requires Reached(l, names, e) && Linked(l, e.dependencies, f)
    ensures Reached(l, names, f)
  {
    var c :| Chain(l, names, c) && c[|c| - 1] == e;
    assert Chain(l, names, c + [f]);
    assert (c + [f])[|c + [f]| - 1] == f;
  }

  // ------------------------------------------------------------------ the graph

  datatype Node = RootNode | PkgNode(name: string)

  type Edges = set<(Node, string)>

  /** Nodes are keyed by package name; the root is a node of its own. */
  class DepGraphBuilder {
    const rootPkg: PkgInfo
    var nodes: map<string, PkgInfo>
    var edges: Edges

    constructor (rootPkg: PkgInfo)
      ensures this.rootPkg == rootPkg && nodes == map[] && edges == {}
    {
      this.rootPkg := rootPkg;
      nodes, edges := map[], {};
    }

    predicate HasPkg(p: PkgInfo)
      reads this
    {
      p == rootPkg || p in nodes.Values
    }

    predicate HasNode(n: Node)
      reads this
    {
      n.RootNode? || n.name in nodes
    }

    method AddPkgNode(p: PkgInfo, id: string)
      modifies this`nodes
      ensures nodes == old(nodes)[id := p]
    {
      nodes := nodes[id := p];
    }

    /** The library refuses to connect nodes it does not have. */
    method ConnectDep(parent: Node, child: string) returns (ok: bool)
      modifies this`edges
      ensures ok <==> HasNode(parent) && child in nodes
      ensures edges == if ok then old(edges) + {(parent, child)} else old(edges)
    {
      if !HasNode(parent) || child !in nodes {
        return false;
      }
      edges := edges + {(parent, child)};
      return true;
    }
  }

  // ------------------------------------------------------------------ what the builder keeps

  function Info(e: LockEntry): PkgInfo { PkgInfo(e.name, e.version) }

  /** Every node is a lock entry the manifest leads to. */
  ghost predicate NodesOk(l: Lock, names: seq<string>, root: PkgInfo, nodes: map<string, PkgInfo>) {
    forall n <- nodes :: Lookup(l, n).Some? && nodes[n] == Info(Lookup(l, n).value) && Lookup(l, n).value.name == n
                         && Reached(l, names, Lookup(l, n).value) && nodes[n] != root
  }

  /** The dependencies that the graph shows for a node. */
  function DeclaredBy(l: Lock, names: seq<string>, p: Node): seq<string> {
    match p
    case RootNode => names
    case PkgNode(n) => match Lookup(l, n) case Some(e) => e.dependencies case None => []
  }

  /** p declares a dependency that resolves to the entry named n. */
  ghost predicate Declares(l: Lock, names: seq<string>, p: Node, n: string) {
    exists d :: d in DeclaredBy(l, names, p) && Resolve(l, d).Some? && Resolve(l, d).value.name == n
  }

  /** Every edge is a declared, resolvable dependency between nodes of the graph. */
  ghost predicate EdgesOk(l: Lock, names: seq<string>, nodes: map<string, PkgInfo>, edges: Edges) {
    forall p, n :: (p, n) in edges ==> (p.PkgNode? ==> p.name in nodes) && n in nodes && Declares(l, names, p, n)
  }

  /** d, declared by p, is in the graph and connected, if it resolves. */
  predicate Shown(l: Lock, nodes: map<string, PkgInfo>, edges: Edges, p: Node, d: string) {
    Resolve(l, d).Some? ==> Resolve(l, d).value.name in nodes && (p, Resolve(l, d).value.name) in edges
  }

  predicate Complete(l: Lock, names: seq<string>, nodes: map<string, PkgInfo>, edges: Edges, p: Node) {
    forall d <- DeclaredBy(l, names, p) :: Shown(l, nodes, edges, p, d)
  }

  ghost predicate GraphOk(l: Lock, names: seq<string>, root: PkgInfo, nodes: map<string, PkgInfo>, edges: Edges) {
    NodesOk(l, names, root, nodes) && EdgesOk(l, names, nodes, edges)
  }

  /** Between two moments: nothing disappears, and what is new has all its dependencies. */
  ghost predicate Progress(l: Lock, names: seq<string>, nodes: map<string, PkgInfo>, edges: Edges, nodes2: map<string, PkgInfo>, edges2: Edges) {
    && nodes.Keys <= nodes2.Keys && edges <= edges2
    && forall n :: n in nodes2 && n !in nodes ==> Complete(l, names, nodes2, edges2, PkgNode(n))
  }

  lemma ShownStays(l: Lock, nodes: map<string, PkgInfo>, edges: Edges, nodes2: map<string, PkgInfo>, edges2: Edges, p: Node, d: string)
    requires Shown(l, nodes, edges, p, d) && nodes.Keys <= nodes2.Keys && edges <= edges2
    ensures Shown(l, nodes2, edges2, p, d)
  {
  }

  lemma ProgressTwice(l: Lock, names: seq<string>, n0: map<string, PkgInfo>, e0: Edges, n1: map<string, PkgInfo>, e1: Edges,
                      n2: map<string, PkgInfo>, e2: Edges)
    requires Progress(l, names, n0, e0, n1, e1) && Progress(l, names, n1, e1, n2, e2)
    ensures Progress(l, names, n0, e0, n2, e2)
  {
    forall n | n in n2 && n !in n0 ensures Complete(l, names, n2, e2, PkgNode(n)) {
      if n in n1 {
        assert Complete(l, names, n1, e1, PkgNode(n));
        forall d | d in DeclaredBy(l, names, PkgNode(n)) ensures Shown(l, n2, e2, PkgNode(n), d) {
          ShownStays(l, n1, e1, n2, e2, PkgNode(n), d);
        }
      }
    }
  }

  /** A resolved entry is in the graph under its name or not at all. */
  lemma PresentByName(l: Lock, names: seq<string>, root: PkgInfo, nodes: map<string, PkgInfo>, e: LockEntry)
    requires NodesOk(l, names, root, nodes) && Lookup(l, e.name) == Some(e)
    ensures Info(e) in nodes.Values <==> e.name in nodes
  {
    if e.name in nodes { assert nodes[e.name] == Info(e); }
  }

  /** Some package the manifest leads to is the root package itself. */
  ghost predicate RootIsLocked(l: Lock, names: seq<string>, root: PkgInfo) {
    exists e :: Reached(l, names, e) && Info(e) == root
  }

  function EntryNames(l: Lock): set<string> {
    set e | e in l.specs :: e.name
  }

  lemma FewerLeft(l: Lock, before: set<string>, after: set<string>)
    requires before <= after
    ensures |EntryNames(l) - after| <= |EntryNames(l) - before|
    ensures (exists n :: n in EntryNames(l) && n in after && n !in before) ==> |EntryNames(l) - after| < |EntryNames(l) - before|
  {
    SubsetCard(EntryNames(l) - after, EntryNames(l) - before);
  }

  lemma NewNode(l: Lock, names: seq<string>, root: PkgInfo, nodes: map<string, PkgInfo>, edges: Edges, p: Node, e: LockEntry)
    requires GraphOk(l, names, root, nodes, edges)
    requires e.name !in nodes && Lookup(l, e.name) == Some(e) && Reached(l, names, e) && Info(e) != root
    requires (p.PkgNode? ==> p.name in nodes) && Declares(l, names, p, e.name)
    ensures GraphOk(l, names, root, nodes[e.name := Info(e)], edges + {(p, e.name)})
  {
    hide Declares, Reached;
  }

  lemma NewEdge(l: Lock, names: seq<string>, root: PkgInfo, nodes: map<string, PkgInfo>, edges: Edges, p: Node, n: string)
    requires GraphOk(l, names, root, nodes, edges)
    requires (p.PkgNode? ==> p.name in nodes) && n in nodes && Declares(l, names, p, n)
    ensures GraphOk(l, names, root, nodes, edges + {(p, n)})
  {
    hide Declares;
  }

  // ------------------------------------------------------------------ the recursion

  /** What one dependency of parent resolves to, and how it is reached. */
  lemma ResolvedIsReached(l: Lock, names: seq<string>, root: PkgInfo, nodes: map<string, PkgInfo>, parent: Node, d: string)
    requires NodesOk(l, names, root, nodes) && d in DeclaredBy(l, names, parent) && Resolve(l, d).Some?
    requires parent.PkgNode? ==> parent.name in nodes
    ensures var e := Resolve(l, d).value;
            e in l.specs && Lookup(l, e.name) == Some(e) && Reached(l, names, e) && Declares(l, names, parent, e.name)
  {
    LookupSelf(l, d);
    var e := Resolve(l, d).value;
    match parent
    case RootNode =>
      assert Linked(l, names, e);
      ReachedFirst(l, names, e);
    case PkgNode(n) =>
      assert Linked(l, Lookup(l, n).value.dependencies, e);
      ReachedNext(l, names, Lookup(l, n).value, e);
  }

  method AddDependenciesToGraph(l: Lock, ghost names: seq<string>, pkgNames: seq<string>, parent: Node, builder: DepGraphBuilder)
    returns (ok: bool)
    requires GraphOk(l, names, builder.rootPkg, builder.nodes, builder.edges) && builder.HasNode(parent)
    requires forall d <- pkgNames :: d in DeclaredBy(l, names, parent)
    modifies builder
    ensures ok ==> GraphOk(l, names, builder.rootPkg, builder.nodes, builder.edges)
    ensures ok ==> Progress(l, names, old(builder.nodes), old(builder.edges), builder.nodes, builder.edges)
    ensures ok ==> AllShown(l, builder.nodes, builder.edges, parent, pkgNames)
    ensures !ok ==> RootIsLocked(l, names, builder.rootPkg)
    decreases |EntryNames(l) - builder.nodes.Keys|, 1
  {
    hide GraphOk, Progress, AllShown, RootIsLocked;
    ghost var n0, e0 := builder.nodes, builder.edges;
    ProgressNone(l, names, n0, e0);
    NoneShown(l, n0, e0, parent);
    for i := 0 to |pkgNames|
      invariant GraphOk(l, names, builder.rootPkg, builder.nodes, builder.edges) && builder.HasNode(parent)
      invariant Progress(l, names, n0, e0, builder.nodes, builder.edges)
      invariant AllShown(l, builder.nodes, builder.edges, parent, pkgNames[..i])
    {
      ghost var n1, e1 := builder.nodes, builder.edges;
      ProgressKeeps(l, names, n0, e0, n1, e1);
      FewerLeft(l, n0.Keys, n1.Keys);
      ok := AddDependenciesForPkg(l, names, pkgNames[i], parent, builder);
      if !ok { return; }
      ProgressKeeps(l, names, n1, e1, builder.nodes, builder.edges);
      ProgressTwice(l, names, n0, e0, n1, e1, builder.nodes, builder.edges);
      OneMoreShown(l, n1, e1, builder.nodes, builder.edges, parent, pkgNames, i);
    }
    assert pkgNames[..|pkgNames|] == pkgNames;
    return true;
  }

  predicate AllShown(l: Lock, nodes: map<string, PkgInfo>, edges: Edges, p: Node, ds: seq<string>) {
    forall d <- ds :: Shown(l, nodes, edges, p, d)
  }

  lemma NoneShown(l: Lock, nodes: map<string, PkgInfo>, edges: Edges, p: Node)
    ensures AllShown(l, nodes, edges, p, [])
  {
  }

  lemma OneMoreShown(l: Lock, n1: map<string, PkgInfo>, e1: Edges, n2: map<string, PkgInfo>, e2: Edges, p: Node, ds: seq<string>, i: nat)
    requires i < |ds| && AllShown(l, n1, e1, p, ds[..i]) && n1.Keys <= n2.Keys && e1 <= e2 && Shown(l, n2, e2, p, ds[i])
    ensures AllShown(l, n2, e2, p, ds[..i + 1])
  {
    assert ds[..i + 1] == ds[..i] + [ds[i]];
    forall d | d in ds[..i] ensures Shown(l, n2, e2, p, d) { ShownStays(l, n1, e1, n2, e2, p, d); }
  }

  lemma ProgressNone(l: Lock, names: seq<string>, n: map<string, PkgInfo>, e: Edges)
    ensures Progress(l, names, n, e, n, e)
  {
  }

  lemma ProgressKeeps(l: Lock, names: seq<string>, n0: map<string, PkgInfo>, e0: Edges, n1: map<string, PkgInfo>, e1: Edges)
    requires Progress(l, names, n0, e0, n1, e1)
    ensures n0.Keys <= n1.Keys && e0 <= e1
  {
  }

  method AddDependenciesForPkg(l: Lock, ghost names: seq<string>, pkgName: string, parent: Node, builder: DepGraphBuilder)
    returns (ok: bool)
    requires GraphOk(l, names, builder.rootPkg, builder.nodes, builder.edges) && builder.HasNode(parent)
    requires pkgName in DeclaredBy(l, names, parent)
    modifies builder
    ensures ok ==> GraphOk(l, names, builder.rootPkg, builder.nodes, builder.edges)
    ensures ok ==> Progress(l, names, old(builder.nodes), old(builder.edges), builder.nodes, builder.edges)
    ensures ok ==> Shown(l, builder.nodes, builder.edges, parent, pkgName)
    ensures !ok ==> RootIsLocked(l, names, builder.rootPkg)
    decreases |EntryNames(l) - builder.nodes.Keys|, 0
  {
    ghost var n0, e0 := builder.nodes, builder.edges;
    ProgressNone(l, names, n0, e0);
    if pkgName in IGNORED {
      return true;
    }
    var found := Lookup(l, pkgName);
    if found.None? {
      return true;
    }
    var pkg := found.value;
    ResolvedIsReached(l, names, builder.rootPkg, n0, parent, pkgName);
    PresentByName(l, names, builder.rootPkg, n0, pkg);
    if builder.HasPkg(Info(pkg)) {
      ok := builder.ConnectDep(parent, pkg.name);
      if ok {
        NewEdge(l, names, builder.rootPkg, n0, e0, parent, pkg.name);
      }
      return;
    }
    builder.AddPkgNode(Info(pkg), pkg.name);
    ok := builder.ConnectDep(parent, pkg.name);
    NewNode(l, names, builder.rootPkg, n0, e0, parent, pkg);
    ghost var n1, e1 := builder.nodes, builder.edges;
    FewerLeft(l, n0.Keys, n1.Keys);
    ok := AddDependenciesToGraph(l, names, pkg.dependencies, PkgNode(pkg.name), builder);
    if ok {
      NodeCompleted(l, names, n0, e0, n1, e1, builder.nodes, builder.edges, parent, pkg);
    }
  }

  lemma NodeCompleted(l: Lock, names: seq<string>, n0: map<string, PkgInfo>, e0: Edges, n1: map<string, PkgInfo>, e1: Edges,
                      n2: map<string, PkgInfo>, e2: Edges, parent: Node, e: LockEntry)
    requires n1 == n0[e.name := Info(e)] && e1 == e0 + {(parent, e.name)} && Lookup(l, e.name) == Some(e)
    requires Progress(l, names, n1, e1, n2, e2) && AllShown(l, n2, e2, PkgNode(e.name), e.dependencies)
    ensures Progress(l, names, n0, e0, n2, e2) && e.name in n2 && (parent, e.name) in e2
  {
  }

  // ------------------------------------------------------------------ the result

  /** The graph holds exactly the lock entries the manifest leads to, and exactly their
      resolvable dependencies. */
  ghost predicate IsClosure(l: Lock, names: seq<string>, nodes: map<string, PkgInfo>, edges: Edges) {
    && (forall n :: n in nodes <==> exists e :: Reached(l, names, e) && e.name == n)
    && (forall n <- nodes :: Lookup(l, n).Some? && nodes[n] == Info(Lookup(l, n).value))
    && (forall p, n :: (p, n) in edges <==> (p.PkgNode? ==> p.name in nodes) && Declares(l, names, p, n))
  }

  method Build(l: Lock, pkgDetails: PkgInfo, pkgDependencyNames: seq<string>) returns (builder: DepGraphBuilder, ok: bool)
    ensures ok <==> !RootIsLocked(l, pkgDependencyNames, pkgDetails)
    ensures ok ==> IsClosure(l, pkgDependencyNames, builder.nodes, builder.edges)
  {
    builder := new DepGraphBuilder(pkgDetails);
    ok := AddDependenciesToGraph(l, pkgDependencyNames, pkgDependencyNames, RootNode, builder);
    if ok {
      BuiltIsClosure(l, pkgDependencyNames, pkgDetails, builder.nodes, builder.edges);
    }
  }

  lemma LinkedIsShown(l: Lock, names: seq<string>, nodes: map<string, PkgInfo>, edges: Edges, p: Node, e: LockEntry)
    requires Complete(l, names, nodes, edges, p) && Linked(l, DeclaredBy(l, names, p), e)
    ensures e.name in nodes && (p, e.name) in edges && Lookup(l, e.name) == Some(e)
  {
    var d :| d in DeclaredBy(l, names, p) && Resolve(l, d) == Some(e);
    assert Shown(l, nodes, edges, p, d);
    LookupSelf(l, d);
  }

  /** A graph in which every node has its dependencies contains all that is reached. */
  lemma {:induction false} ChainInGraph(l: Lock, names: seq<string>, nodes: map<string, PkgInfo>, edges: Edges, c: seq<LockEntry>)
    requires (forall n <- nodes :: Complete(l, names, nodes, edges, PkgNode(n))) && Complete(l, names, nodes, edges, RootNode)
    requires Chain(l, names, c)
    ensures var e := c[|c| - 1]; e.name in nodes && Lookup(l, e.name) == Some(e)
    decreases |c|
  {
    if |c| == 1 {
      LinkedIsShown(l, names, nodes, edges, RootNode, c[0]);
    } else {
      var d := c[|c| - 2];
      assert Chain(l, names, c[..|c| - 1]);
      ChainInGraph(l, names, nodes, edges, c[..|c| - 1]);
      assert Linked(l, d.dependencies, c[|c| - 1]);
      LinkedIsShown(l, names, nodes, edges, PkgNode(d.name), c[|c| - 1]);
    }
  }

  lemma ReachedInGraph(l: Lock, names: seq<string>, nodes: map<string, PkgInfo>, edges: Edges, e: LockEntry)
    requires (forall n <- nodes :: Complete(l, names, nodes, edges, PkgNode(n))) && Complete(l, names, nodes, edges, RootNode)
    requires Reached(l, names, e)
    ensures e.name in nodes && Lookup(l, e.name) == Some(e)
  {
    var c :| Chain(l, names, c) && c[|c| - 1] == e;
    ChainInGraph(l, names, nodes, edges, c);
  }

  lemma DeclaredIsConnected(l: Lock, names: seq<string>, nodes: map<string, PkgInfo>, edges: Edges, p: Node, n: string)
    requires Complete(l, names, nodes, edges, p) && Declares(l, names, p, n)
    ensures (p, n) in edges
  {
    var d :| d in DeclaredBy(l, names, p) && Resolve(l, d).Some? && Resolve(l, d).value.name == n;
    assert Shown(l, nodes, edges, p, d);
  }

  lemma BuiltIsClosure(l: Lock, names: seq<string>, root: PkgInfo, nodes: map<string, PkgInfo>, edges: Edges)
    requires GraphOk(l, names, root, nodes, edges) && (forall n <- nodes :: Complete(l, names, nodes, edges, PkgNode(n)))
    requires Complete(l, names, nodes, edges, RootNode)
    ensures IsClosure(l, names, nodes, edges) && !RootIsLocked(l, names, root)
  {
    forall e | Reached(l, names, e) ensures e.name in nodes && Lookup(l, e.name) == Some(e) {
      ReachedInGraph(l, names, nodes, edges, e);
    }
    hide Complete, Reached;
    forall n | n in nodes ensures exists e :: Reached(l, names, e) && e.name == n {
      assert Reached(l, names, Lookup(l, n).value);
    }
    forall p: Node, n | (p.PkgNode? ==> p.name in nodes) && Declares(l, names, p, n) ensures (p, n) in edges {
      DeclaredIsConnected(l, names, nodes, edges, p, n);
    }
    hide Declares;
  }
}
