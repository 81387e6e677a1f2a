/** The internal import graph of a package tree and what is reachable in it
    (gps/pkgtree/pkgtree.go, the input and the specification of wmToReach). */
module ImportGraph {
  import opened Constraints
  import opened Identifiers

  /** A workmap entry: the package's own error, or its external and internal imports. */
  datatype Wm = Wm(err: Option<string>, ex: set<Package>, ins: set<Package>)

  type Graph = map<Package, Wm>

  datatype Kind = External | Internal

  function Label(g: Graph, kind: Kind, p: Package): set<Package> {
    if p !in g then {} else if kind.External? then g[p].ex else g[p].ins
  }

  predicate Ok(g: Graph, p: Package) { p in g && g[p].err.None? }

  predicate Edge(g: Graph, p: Package, q: Package) { p in g && q in g[p].ins }

  /** All packages that can come up: those present and those they import. */
  function Nodes(g: Graph): set<Package> {
    g.Keys + set p, q | p in g && q in g[p].ins :: q
  }

  // ------------------------------------------------------------------ chains of imports

  ghost predicate Chain(g: Graph, c: seq<Package>) {
    && c != []
    && (forall i :: 0 <= i < |c| ==> Ok(g, c[i]))
    && (forall i, j :: 0 <= i && j == i + 1 && j < |c| ==> Edge(g, c[i], c[j]))
  }

  ghost predicate Connects(g: Graph, c: seq<Package>, p: Package, q: Package) {
    Chain(g, c) && c[0] == p && c[|c| - 1] == q
  }

  /** q is reached from p through present, error-free packages; every such package reaches itself. */
  ghost predicate Reaches(g: Graph, p: Package, q: Package) {
    exists c :: Connects(g, c, p, q)
  }

  /** A chain of imports to a package that is missing or has an error. */
  ghost predicate BadChain(g: Graph, c: seq<Package>) {
    && c != [] && !Ok(g, c[|c| - 1])
    && (|c| > 1 ==> Chain(g, c[..|c| - 1]) && Edge(g, c[|c| - 2], c[|c| - 1]))
  }

  ghost predicate ReachesBad(g: Graph, p: Package) {
    exists c :: BadChain(g, c) && c[0] == p
  }

  /** No import cycle but self-imports. */
  ghost predicate Acyclic(g: Graph) {
    forall p, q :: Reaches(g, p, q) && Reaches(g, q, p) ==> p == q
  }

  /** x is imported by something p reaches. */
  ghost predicate Imported(g: Graph, kind: Kind, p: Package, x: Package) {
    exists q :: Reaches(g, p, q) && x in Label(g, kind, q)
  }

  // ------------------------------------------------------------------ laws

  lemma ReachesSelf(g: Graph, p: Package)
    requires Ok(g, p)
    ensures Reaches(g, p, p)
  {
    assert Connects(g, [p], p, p);
  }

  lemma ChainPush(g: Graph, c: seq<Package>, q: Package)
    requires Ok(g, q) && (c == [] || (Chain(g, c) && Edge(g, c[|c| - 1], q)))
    ensures Chain(g, c + [q])
  {
  }

  lemma ReachesNext(g: Graph, p: Package, q: Package, r: Package)
    requires Reaches(g, p, q) && Edge(g, q, r) && Ok(g, r)
    ensures Reaches(g, p, r)
  {
    var c :| Connects(g, c, p, q);
    ChainPush(g, c, r);
    assert Connects(g, c + [r], p, r);
  }

  lemma {:induction false} ReachesAll(g: Graph, p: Package, c: seq<Package>)
    requires Chain(g, c) && Reaches(g, p, c[0])
    ensures Reaches(g, p, c[|c| - 1])
    decreases |c|
  {
    if |c| > 1 {
      var init := c[..|c| - 1];
      assert Chain(g, init);
      ReachesAll(g, p, init);
      ReachesNext(g, p, c[|c| - 2], c[|c| - 1]);
    }
  }

  lemma ReachesTransitive(g: Graph, p: Package, q: Package, r: Package)
    requires Reaches(g, p, q) && Reaches(g, q, r)
    ensures Reaches(g, p, r)
  {
    var c :| Connects(g, c, q, r);
    ReachesAll(g, p, c);
  }

  lemma ChainReaches(g: Graph, c: seq<Package>, i: nat, j: nat)
    requires Chain(g, c) && i <= j < |c|
    ensures Reaches(g, c[i], c[j])
  {
    assert Connects(g, c[i..j + 1], c[i], c[j]);
  }

  lemma ImportedFrom(g: Graph, kind: Kind, p: Package, q: Package, x: Package)
    requires Reaches(g, p, q) && Imported(g, kind, q, x)
    ensures Imported(g, kind, p, x)
  {
    var r :| Reaches(g, q, r) && x in Label(g, kind, r);
    ReachesTransitive(g, p, q, r);
  }

  lemma OwnImports(g: Graph, kind: Kind, p: Package, x: Package)
    requires Ok(g, p) && x in Label(g, kind, p)
    ensures Imported(g, kind, p, x)
  {
    ReachesSelf(g, p);
  }

  /** A bad chain can be entered earlier. */
  lemma BadChainFrom(g: Graph, p: Package, c: seq<Package>)
    requires Ok(g, p) && BadChain(g, c) && Edge(g, p, c[0])
    ensures BadChain(g, [p] + c)
  {
    var all := [p] + c;
    var init := all[..|all| - 1];
    assert init == [p] + c[..|c| - 1];
    assert all[|all| - 1] == c[|c| - 1];
    if |c| > 1 {
      assert Chain(g, c[..|c| - 1]);
      assert all[|all| - 2] == c[|c| - 2];
    }
  }

  /** A path followed by a bad chain is bad from every point of the path. */
  lemma {:induction false} PathToBad(g: Graph, path: seq<Package>, c: seq<Package>, k: nat)
    requires k < |path| && Chain(g, path) && BadChain(g, c) && Edge(g, path[|path| - 1], c[0])
    ensures BadChain(g, path[k..] + c)
    decreases |path| - k
  {
    if k == |path| - 1 {
      assert path[k..] == [path[k]];
      BadChainFrom(g, path[k], c);
    } else {
      PathToBad(g, path, c, k + 1);
      assert path[k..] + c == [path[k]] + (path[k + 1..] + c);
      BadChainFrom(g, path[k], path[k + 1..] + c);
    }
  }

  lemma MissingIsBad(g: Graph, p: Package)
    requires !Ok(g, p)
    ensures BadChain(g, [p]) && ReachesBad(g, p)
  {
    assert BadChain(g, [p]) && [p][0] == p;
  }
}
