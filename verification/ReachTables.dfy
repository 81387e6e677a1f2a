/** The reach sets wmToReach keeps while it explores: packages refer to sets, several packages
    may refer to the same one.  What one write through such a reference does to everyone. */
module ReachTables {
  import opened Constraints
  import opened Identifiers
  import opened ImportGraph

  class ReachSet {
    var elems: set<Package>

    constructor (elems: set<Package>)
      ensures this.elems == elems
    {
      this.elems := elems;
    }
  }

  /** refs says which set a package has, vals what is in it at the moment. */
  datatype Table = Table(refs: map<Package, ReachSet>, vals: map<Package, set<Package>>)

  ghost predicate Shared(t: Table, p: Package, q: Package) {
    p in t.refs && q in t.refs && t.refs[p] == t.refs[q]
  }

  ghost predicate Consistent(t: Table) {
    && t.refs.Keys == t.vals.Keys
    && forall p, q :: Shared(t, p, q) ==> t.vals[p] == t.vals[q]
  }

  // ------------------------------------------------------------------ the writes

  /** Some package on the path has the set of p. */
  ghost predicate Touched(t: Table, path: seq<Package>, p: Package) {
    exists k :: 0 <= k < |path| && Shared(t, path[k], p)
  }

  /** items go into the set of every package on the path that has one. */
  ghost function Pushed(t: Table, path: seq<Package>, items: set<Package>): Table
    requires Consistent(t)
  {
    Table(t.refs, map p | p in t.refs :: t.vals[p] + if Touched(t, path, p) then items else {})
  }

  /** Packages on the path after position k take over the set of the package there. */
  ghost function Merged(t: Table, path: seq<Package>, k: nat): Table
    requires Consistent(t) && k < |path| && path[k] in t.refs
  {
    Table(map p | p in t.refs :: if p in path[k + 1..] then t.refs[path[k]] else t.refs[p],
          map p | p in t.refs :: if p in path[k + 1..] then t.vals[path[k]] else t.vals[p])
  }

  ghost function Opened(t: Table, p: Package, o: ReachSet, items: set<Package>): Table {
    Table(t.refs[p := o], t.vals[p := items])
  }

  ghost function Dropped(t: Table, path: seq<Package>): Table {
    Table(t.refs - Elems(path), t.vals - Elems(path))
  }

  // ------------------------------------------------------------------ what they keep

  ghost predicate OnPath(t: Table, path: seq<Package>) {
    forall k :: 0 <= k < |path| ==> path[k] in t.vals
  }

  /** Sets lie inside each other along the path. */
  ghost predicate Nested(t: Table, path: seq<Package>) {
    forall j, k :: 0 <= j <= k < |path| && path[j] in t.vals && path[k] in t.vals ==> t.vals[path[k]] <= t.vals[path[j]]
  }

  ghost predicate EntryOk(g: Graph, kind: Kind, t: Table, p: Package) {
    p in t.vals ==>
      && Ok(g, p) && Label(g, kind, p) <= t.vals[p]
      && forall x :: x in t.vals[p] ==> Imported(g, kind, p, x)
  }

  ghost predicate SharersReach(g: Graph, t: Table) {
    forall p, q :: Shared(t, p, q) ==> Reaches(g, p, q)
  }

  ghost predicate TableOk(g: Graph, kind: Kind, t: Table, path: seq<Package>) {
    && Consistent(t) && OnPath(t, path) && Nested(t, path)
    && (forall p :: EntryOk(g, kind, t, p))
    && SharersReach(g, t)
  }

  lemma OpenKeeps(g: Graph, kind: Kind, t: Table, path: seq<Package>, p: Package, o: ReachSet)
    requires TableOk(g, kind, t, path) && Chain(g, path + [p]) && p !in t.refs && o !in t.refs.Values
    ensures var u := Opened(t, p, o, Label(g, kind, p));
            Consistent(u) && SharersReach(g, u) && OnPath(u, path + [p]) && forall q :: EntryOk(g, kind, u, q)
  {
    assert (path + [p])[|path|] == p;
    ReachesSelf(g, p);
    var u := Opened(t, p, o, Label(g, kind, p));
    forall q, r | Shared(u, q, r) ensures u.vals[q] == u.vals[r] && Reaches(g, q, r) {
      if q != p && r != p { assert Shared(t, q, r); }
    }
    forall q ensures EntryOk(g, kind, u, q) {
      assert EntryOk(g, kind, t, q);
      forall x | q == p && x in u.vals[p] ensures Imported(g, kind, p, x) { OwnImports(g, kind, p, x); }
    }
  }

  /** Whatever the last package of the path imports, transitively, may be pushed. */
  lemma PushKeeps(g: Graph, kind: Kind, t: Table, path: seq<Package>, items: set<Package>)
    requires Consistent(t) && SharersReach(g, t) && OnPath(t, path) && (forall p :: EntryOk(g, kind, t, p))
    requires path == [] || (Chain(g, path) && forall x :: x in items ==> Imported(g, kind, path[|path| - 1], x))
    ensures var u := Pushed(t, path, items);
            Consistent(u) && SharersReach(g, u) && OnPath(u, path) && forall p :: EntryOk(g, kind, u, p)
  {
    var u := Pushed(t, path, items);
    forall q, r | Shared(u, q, r) ensures u.vals[q] == u.vals[r] && Reaches(g, q, r) {
      assert Shared(t, q, r);
      TouchedTogether(t, path, q, r);
    }
    forall p ensures EntryOk(g, kind, u, p) {
      assert EntryOk(g, kind, t, p);
      if Touched(t, path, p) {
        TouchedReaches(g, kind, t, path, items, p);
      }
    }
  }

  lemma TouchedTogether(t: Table, path: seq<Package>, p: Package, q: Package)
    requires Shared(t, p, q)
    ensures Touched(t, path, p) <==> Touched(t, path, q)
  {
    if Touched(t, path, p) {
      var k :| 0 <= k < |path| && Shared(t, path[k], p);
      assert Shared(t, path[k], q);
    }
    if Touched(t, path, q) {
      var k :| 0 <= k < |path| && Shared(t, path[k], q);
      assert Shared(t, path[k], p);
    }
  }

  lemma TouchedReaches(g: Graph, kind: Kind, t: Table, path: seq<Package>, items: set<Package>, p: Package)
    requires SharersReach(g, t) && Touched(t, path, p)
    requires Chain(g, path) && forall x :: x in items ==> Imported(g, kind, path[|path| - 1], x)
    ensures forall x :: x in items ==> Imported(g, kind, p, x)
  {
    var k :| 0 <= k < |path| && Shared(t, path[k], p);
    assert Shared(t, p, path[k]);
    ChainReaches(g, path, k, |path| - 1);
    ReachesTransitive(g, p, path[k], path[|path| - 1]);
    forall x | x in items ensures Imported(g, kind, p, x) {
      ImportedFrom(g, kind, p, path[|path| - 1], x);
    }
  }

  /** Pushing reaches the whole path, so it keeps the sets nested, and nests a new last one. */
  lemma PushNests(t: Table, path: seq<Package>, items: set<Package>)
    requires Consistent(t) && OnPath(t, path) && Nested(t, path)
    ensures Nested(Pushed(t, path, items), path)
    ensures forall k :: 0 <= k < |path| ==> items <= Pushed(t, path, items).vals[path[k]]
  {
    forall k | 0 <= k < |path| ensures Touched(t, path, path[k]) {
      assert Shared(t, path[k], path[k]);
    }
  }

  lemma OpenNests(t: Table, path: seq<Package>, p: Package, o: ReachSet, items: set<Package>)
    requires Consistent(t) && Consistent(Opened(t, p, o, items)) && OnPath(t, path) && Nested(t, path) && p !in path
    ensures Nested(Pushed(Opened(t, p, o, items), path + [p], items), path + [p])
  {
    var u, all := Opened(t, p, o, items), path + [p];
    var v := Pushed(u, all, items);
    forall k | 0 <= k < |all| ensures Touched(u, all, all[k]) { assert Shared(u, all[k], all[k]); }
    forall j, k | 0 <= j <= k < |all| ensures v.vals[all[k]] <= v.vals[all[j]] {
      if k < |path| { assert path[j] == all[j] && path[k] == all[k]; }
    }
  }

  /** Sharing the set of the package the path comes back to: a cycle reaches all it reaches, and
      nothing is lost because the set shared contains the ones given up. */
  lemma MergeKeeps(g: Graph, kind: Kind, t: Table, path: seq<Package>, k: nat)
    requires TableOk(g, kind, t, path) && Chain(g, path) && NoDup(path)
    requires k < |path| && Edge(g, path[|path| - 1], path[k])
    ensures var u := Merged(t, path, k);
            TableOk(g, kind, u, path) && forall p :: p in t.vals ==> t.vals[p] <= u.vals[p]
  {
    var u := Merged(t, path, k);
    forall p | p in path[k + 1..]
      ensures p in t.vals && Reaches(g, p, path[k]) && Reaches(g, path[k], p) && t.vals[p] <= t.vals[path[k]]
    {
      var j :| 0 <= j < |path[k + 1..]| && path[k + 1..][j] == p;
      CycleReaches(g, path, k, k + 1 + j);
    }
    MergeSharers(g, t, path, k);
    MergeEntries(g, kind, t, path, k);
    forall i, j | 0 <= i <= j < |path| ensures u.vals[path[j]] <= u.vals[path[i]] {
      MergedAt(t, path, k, i);
      MergedAt(t, path, k, j);
    }
  }

  lemma CycleReaches(g: Graph, path: seq<Package>, k: nat, j: nat)
    requires Chain(g, path) && k <= j < |path| && Edge(g, path[|path| - 1], path[k])
    ensures Reaches(g, path[j], path[k]) && Reaches(g, path[k], path[j])
  {
    ChainReaches(g, path, k, j);
    ChainReaches(g, path, j, |path| - 1);
    ReachesNext(g, path[j], path[|path| - 1], path[k]);
  }

  lemma MergedAt(t: Table, path: seq<Package>, k: nat, i: nat)
    requires Consistent(t) && OnPath(t, path) && NoDup(path) && k < |path| && i < |path|
    ensures Merged(t, path, k).vals[path[i]] == if i > k then t.vals[path[k]] else t.vals[path[i]]
  {
    if i > k {
      assert path[k + 1..][i - k - 1] == path[i];
    }
  }

  lemma MergeSharers(g: Graph, t: Table, path: seq<Package>, k: nat)
    requires Consistent(t) && SharersReach(g, t) && k < |path| && path[k] in t.vals
    requires forall p :: p in path[k + 1..] ==> p in t.vals && Reaches(g, p, path[k]) && Reaches(g, path[k], p)
    ensures Consistent(Merged(t, path, k)) && SharersReach(g, Merged(t, path, k))
  {
    var u, head := Merged(t, path, k), path[k];
    assert Shared(t, head, head);
    forall p, q | Shared(u, p, q) ensures u.vals[p] == u.vals[q] && Reaches(g, p, q) {
      // each of them has the set of h in the table before, h being itself or the head
      var hp, hq := if p in path[k + 1..] then head else p, if q in path[k + 1..] then head else q;
      assert Shared(t, hp, hq) && Shared(t, p, p) && Shared(t, q, q);
      ReachesTransitive(g, p, hp, hq);
      ReachesTransitive(g, p, hq, q);
    }
  }

  lemma MergeEntries(g: Graph, kind: Kind, t: Table, path: seq<Package>, k: nat)
    requires Consistent(t) && (forall p :: EntryOk(g, kind, t, p)) && k < |path| && path[k] in t.vals
    requires forall p :: p in path[k + 1..] ==> p in t.vals && Reaches(g, p, path[k]) && t.vals[p] <= t.vals[path[k]]
    ensures forall p :: EntryOk(g, kind, Merged(t, path, k), p)
  {
    var u := Merged(t, path, k);
    forall p ensures EntryOk(g, kind, u, p) {
      assert EntryOk(g, kind, t, p) && EntryOk(g, kind, t, path[k]);
      if p in path[k + 1..] {
        forall x | x in u.vals[p] ensures Imported(g, kind, p, x) { ImportedFrom(g, kind, p, path[k], x); }
      }
    }
  }

  lemma DropKeeps(g: Graph, kind: Kind, t: Table, path: seq<Package>)
    requires TableOk(g, kind, t, path)
    ensures TableOk(g, kind, Dropped(t, path), [])
  {
    var u := Dropped(t, path);
    forall p, q | Shared(u, p, q) ensures u.vals[p] == u.vals[q] && Reaches(g, p, q) { assert Shared(t, p, q); }
    forall p ensures EntryOk(g, kind, u, p) { assert EntryOk(g, kind, t, p); }
  }
}
