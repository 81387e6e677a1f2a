/** The state of wmToReach's exploration and what every step of it keeps: colours, reach sets,
    and error explanations. */
module ReachState {
  import opened Constraints
  import opened Identifiers
  import opened ImportGraph
  import opened ReachTables

  datatype Color = White | Grey | Black

  datatype ImportErr = OwnErr(msg: string) | NoPackage(pkg: Package) | UnknownErr(pkg: Package)

  datatype Problem = ProblemImportError(importPath: Package, cause: seq<Package>, err: ImportErr)

  type Problems = map<Package, Problem>

  datatype St = St(colors: map<Package, Color>, ex: Table, ins: Table, errs: Problems)

  function ColorOf(colors: map<Package, Color>, p: Package): Color {
    if p in colors then colors[p] else White
  }

  ghost predicate Done(s: St, p: Package) { ColorOf(s.colors, p) == Black }

  ghost predicate Kept(s: St, p: Package) { p in s.ex.vals && p in s.ins.vals }

  // ------------------------------------------------------------------ explanations

  ghost predicate ErrOf(g: Graph, p: Package, e: ImportErr) {
    if p in g then g[p].err.Some? && e == OwnErr(g[p].err.value) else e == NoPackage(p) || e == UnknownErr(p)
  }

  /** The package followed by its cause is a chain of imports to the package whose error it is. */
  ghost predicate Genuine(g: Graph, p: Package, e: Problem) {
    var c := [p] + e.cause;
    e.importPath == p && BadChain(g, c) && ErrOf(g, c[|c| - 1], e.err)
  }

  // ------------------------------------------------------------------ the invariant

  ghost predicate ColorFits(s: St, path: seq<Package>, p: Package) {
    && (ColorOf(s.colors, p) == Grey <==> p in path)
    && (p in s.ex.vals ==> ColorOf(s.colors, p) != White)
  }

  /** Grey packages are exactly those on the current path. */
  ghost predicate ColorsOk(g: Graph, s: St, path: seq<Package>) {
    && NoDup(path) && (path != [] ==> Chain(g, path)) && s.colors.Keys <= Nodes(g)
    && forall p :: ColorFits(s, path, p)
  }

  /** With back-propagation every explored package either has its sets or is explained, and every
      explanation is genuine.  Without, exactly the erroneous packages are dropped, and listed. */
  ghost predicate Accounted(g: Graph, bp: bool, s: St, p: Package) {
    && (p in s.errs ==> p in g && ColorOf(s.colors, p) != White && p !in s.ex.vals && Genuine(g, p, s.errs[p]))
    && (Done(s, p) && p in g && p !in s.ex.vals ==> p in s.errs)
    && (!bp ==> (p in s.errs ==> !Ok(g, p)) && (Done(s, p) && Ok(g, p) ==> p in s.ex.vals))
  }

  ghost predicate ErrsOk(g: Graph, bp: bool, s: St) {
    forall p :: Accounted(g, bp, s, p)
  }

  /** The import c of p needs no more attention. */
  ghost predicate Settled(g: Graph, bp: bool, s: St, p: Package, c: Package) {
    c != p && (bp || Ok(g, c)) ==>
      && Done(s, c) && Kept(s, c) && Kept(s, p)
      && s.ex.vals[c] <= s.ex.vals[p] && s.ins.vals[c] <= s.ins.vals[p]
  }

  ghost predicate ClosedAt(g: Graph, bp: bool, s: St, p: Package) {
    Done(s, p) && Kept(s, p) ==> forall c :: Edge(g, p, c) ==> Settled(g, bp, s, p, c)
  }

  ghost predicate Closed(g: Graph, bp: bool, s: St) {
    forall p :: ClosedAt(g, bp, s, p)
  }

  /** The packages on the path have reach sets, each inside those before it. */
  ghost predicate Alive(g: Graph, s: St, path: seq<Package>) {
    TableOk(g, External, s.ex, path) && TableOk(g, Internal, s.ins, path) && s.ex.vals.Keys == s.ins.vals.Keys
  }

  /** They have been poisoned. */
  ghost predicate Dead(s: St, path: seq<Package>) {
    forall p :: p in path ==> p !in s.ex.vals && p in s.errs
  }

  ghost predicate Common(g: Graph, bp: bool, s: St, path: seq<Package>) {
    ColorsOk(g, s, path) && ErrsOk(g, bp, s) && (Acyclic(g) ==> Closed(g, bp, s))
  }

  ghost predicate Inv(g: Graph, bp: bool, s: St, path: seq<Package>) {
    Common(g, bp, s, path) && Alive(g, s, path)
  }

  ghost predicate Poisoned(g: Graph, bp: bool, s: St, path: seq<Package>) {
    Common(g, bp, s, path) && Alive(g, s, []) && Dead(s, path)
  }

  // ------------------------------------------------------------------ what a visit leaves alone

  ghost predicate Fixed(s: St, t: St, p: Package) {
    Done(s, p) && Kept(s, p) ==> Kept(t, p) && t.ex.vals[p] == s.ex.vals[p] && t.ins.vals[p] == s.ins.vals[p]
  }

  /** Colours only darken, finished packages keep their sets, sets only grow, and a package that
      lost its sets gets no new ones; without cycles the sets of finished packages stand still. */
  ghost predicate Later(g: Graph, s: St, t: St, p: Package) {
    && (ColorOf(s.colors, p) != White ==> ColorOf(t.colors, p) != White)
    && (Done(s, p) ==> Done(t, p) && (Kept(s, p) ==> Kept(t, p)))
    && (Kept(t, p) ==> Kept(s, p) || ColorOf(s.colors, p) == White)
    && (Kept(s, p) && Kept(t, p) ==> s.ex.vals[p] <= t.ex.vals[p] && s.ins.vals[p] <= t.ins.vals[p])
    && (Acyclic(g) ==> Fixed(s, t, p))
  }

  ghost predicate Extends(g: Graph, s: St, t: St) {
    forall p :: Later(g, s, t, p)
  }

  lemma ExtendsSelf(g: Graph, s: St)
    ensures Extends(g, s, s)
  {
  }

  lemma ExtendsTwice(g: Graph, s: St, t: St, u: St)
    requires Extends(g, s, t) && Extends(g, t, u)
    requires forall p :: Kept(s, p) ==> ColorOf(s.colors, p) != White
    ensures Extends(g, s, u)
  {
    forall p ensures Later(g, s, u, p) {
      assert Later(g, s, t, p) && Later(g, t, u, p);
    }
  }

  // ------------------------------------------------------------------ finishing

  /** The last package of the path is done. */
  ghost function Finish(s: St, p: Package): St {
    s.(colors := s.colors[p := Black])
  }

  lemma FinishExtends(g: Graph, s: St, p: Package)
    ensures Extends(g, s, Finish(s, p))
  {
    forall q ensures Later(g, s, Finish(s, p), q) {}
  }

  /** Finishing p keeps the rest if p itself is closed and accounted for. */
  lemma FinishCommon(g: Graph, bp: bool, s: St, path: seq<Package>, p: Package)
    requires Common(g, bp, s, path + [p])
    requires Acyclic(g) && Kept(s, p) ==> forall c :: Edge(g, p, c) ==> Settled(g, bp, s, p, c)
    requires p in s.ex.vals || (p in s.errs && (bp || !Ok(g, p)))
    ensures Common(g, bp, Finish(s, p), path)
  {
    var t := Finish(s, p);
    FinishColors(g, s, path, p);
    hide ColorsOk, Genuine, Acyclic;
    forall q ensures Accounted(g, bp, t, q) { assert Accounted(g, bp, s, q); }
    if Acyclic(g) {
      forall q ensures ClosedAt(g, bp, t, q) {
        assert ClosedAt(g, bp, s, q);
        forall c | Done(t, q) && Kept(t, q) && Edge(g, q, c) ensures Settled(g, bp, t, q, c) {
          assert Settled(g, bp, s, q, c);
        }
      }
    }
  }

  lemma FinishAlive(g: Graph, bp: bool, s: St, path: seq<Package>, p: Package)
    requires Inv(g, bp, s, path + [p])
    requires Acyclic(g) ==> forall c :: Edge(g, p, c) ==> Settled(g, bp, s, p, c)
    ensures Inv(g, bp, Finish(s, p), path) && Kept(s, p)
    ensures path != [] ==>
      var last := path[|path| - 1]; Kept(s, last) && s.ex.vals[p] <= s.ex.vals[last] && s.ins.vals[p] <= s.ins.vals[last]
  {
    ShorterPath(g, External, s.ex, path, p);
    ShorterPath(g, Internal, s.ins, path, p);
    hide TableOk, ColorsOk, Acyclic;
    FinishCommon(g, bp, s, path, p);
  }

  lemma FinishDead(g: Graph, bp: bool, s: St, path: seq<Package>, p: Package)
    requires Poisoned(g, bp, s, path + [p]) && bp
    ensures Poisoned(g, bp, Finish(s, p), path)
  {
    hide TableOk, ColorsOk, Acyclic, ErrsOk, Closed;
    assert p in path + [p] && forall q :: q in path ==> q in path + [p];
    FinishCommon(g, bp, s, path, p);
  }

  lemma FinishColors(g: Graph, s: St, path: seq<Package>, p: Package)
    requires ColorsOk(g, s, path + [p])
    ensures ColorsOk(g, Finish(s, p), path)
  {
    var all, t := path + [p], Finish(s, p);
    assert all[|path|] == p && forall i :: 0 <= i < |path| ==> all[i] == path[i];
    assert path != [] ==> Chain(g, path);
    assert p in all && ColorFits(s, all, p);
    forall q ensures ColorFits(t, path, q) {
      assert ColorFits(s, all, q);
      assert q in all <==> q in path || q == p;
    }
  }

  lemma ShorterPath(g: Graph, kind: Kind, t: Table, path: seq<Package>, p: Package)
    requires TableOk(g, kind, t, path + [p])
    ensures TableOk(g, kind, t, path) && p in t.vals
    ensures path != [] ==> path[|path| - 1] in t.vals && t.vals[p] <= t.vals[path[|path| - 1]]
  {
    var all := path + [p];
    assert all[|path|] == p && forall i :: 0 <= i < |path| ==> all[i] == path[i];
  }

  // ------------------------------------------------------------------ entering a package

  /** A white, error-free package: grey, with sets holding its own imports, which also go into
      every set on the path. */
  ghost function Entered(g: Graph, s: St, path: seq<Package>, p: Package, o: ReachSet, i: ReachSet): St
    requires Consistent(Opened(s.ex, p, o, Label(g, External, p))) && Consistent(Opened(s.ins, p, i, Label(g, Internal, p)))
  {
    St(s.colors[p := Grey],
       Pushed(Opened(s.ex, p, o, Label(g, External, p)), path + [p], Label(g, External, p)),
       Pushed(Opened(s.ins, p, i, Label(g, Internal, p)), path + [p], Label(g, Internal, p)),
       s.errs)
  }

  lemma EnterTable(g: Graph, kind: Kind, t: Table, path: seq<Package>, p: Package, o: ReachSet)
    requires TableOk(g, kind, t, path) && Chain(g, path + [p]) && p !in t.vals && p !in path && o !in t.refs.Values
    ensures var u := Opened(t, p, o, Label(g, kind, p));
            && Consistent(u) && TableOk(g, kind, Pushed(u, path + [p], Label(g, kind, p)), path + [p])
            && Pushed(u, path + [p], Label(g, kind, p)).vals.Keys == t.vals.Keys + {p}
            && forall q :: q in t.vals ==> t.vals[q] <= Pushed(u, path + [p], Label(g, kind, p)).vals[q]
  {
    var items, all := Label(g, kind, p), path + [p];
    OpenKeeps(g, kind, t, path, p, o);
    var u := Opened(t, p, o, items);
    assert all[|path|] == p && all[|all| - 1] == p;
    forall x | x in items ensures Imported(g, kind, p, x) { OwnImports(g, kind, p, x); }
    PushKeeps(g, kind, u, all, items);
    OpenNests(t, path, p, o, items);
  }

  /** Acyclic graphs: what is done shares no set with the path, so pushing leaves it alone. */
  lemma PushFixes(g: Graph, t: Table, path: seq<Package>, items: set<Package>, p: Package)
    requires Acyclic(g) && Consistent(t) && SharersReach(g, t) && p !in path && p in t.vals
    ensures Pushed(t, path, items).vals[p] == t.vals[p]
  {
    if Touched(t, path, p) {
      var k :| 0 <= k < |path| && Shared(t, path[k], p);
      assert Shared(t, p, path[k]);
    }
  }

  lemma EnterFixes(g: Graph, kind: Kind, t: Table, path: seq<Package>, p: Package, o: ReachSet, q: Package)
    requires TableOk(g, kind, t, path) && Chain(g, path + [p]) && p !in t.vals && o !in t.refs.Values
    requires Acyclic(g) && q in t.vals && q !in path && q != p
    ensures var u := Opened(t, p, o, Label(g, kind, p));
            Consistent(u) && q in u.refs && Pushed(u, path + [p], Label(g, kind, p)).vals[q] == t.vals[q]
  {
    OpenKeeps(g, kind, t, path, p, o);
    PushFixes(g, Opened(t, p, o, Label(g, kind, p)), path + [p], Label(g, kind, p), q);
  }

  /** One table's part of entering p, seen from another package q. */
  lemma EnterTableAt(g: Graph, kind: Kind, t: Table, path: seq<Package>, p: Package, o: ReachSet, q: Package)
    requires TableOk(g, kind, t, path) && Chain(g, path + [p]) && p !in t.vals && p !in path && o !in t.refs.Values && q in t.vals
    ensures Consistent(Opened(t, p, o, Label(g, kind, p)))
    ensures var u := Pushed(Opened(t, p, o, Label(g, kind, p)), path + [p], Label(g, kind, p));
            q in u.vals && t.vals[q] <= u.vals[q] && (Acyclic(g) && q !in path ==> u.vals[q] == t.vals[q])
  {
    hide Chain, Acyclic;
    EnterTable(g, kind, t, path, p, o);
    if Acyclic(g) && q !in path {
      EnterFixes(g, kind, t, path, p, o, q);
    }
  }

  lemma EnterAt(g: Graph, s: St, path: seq<Package>, p: Package, o: ReachSet, i: ReachSet, q: Package)
    requires ColorFits(s, path, q) && Alive(g, s, path) && ColorOf(s.colors, p) == White && Chain(g, path + [p]) && p !in path
    requires o !in s.ex.refs.Values && i !in s.ins.refs.Values && p !in s.ex.vals
    requires Consistent(Opened(s.ex, p, o, Label(g, External, p))) && Consistent(Opened(s.ins, p, i, Label(g, Internal, p)))
    ensures Later(g, s, Entered(g, s, path, p, o, i), q)
  {
    if q in s.ex.vals {
      EnterTableAt(g, External, s.ex, path, p, o, q);
      EnterTableAt(g, Internal, s.ins, path, p, i, q);
    }
    hide Chain, Acyclic, TableOk, Consistent;
  }

  lemma EnterAlive(g: Graph, s: St, path: seq<Package>, p: Package, o: ReachSet, i: ReachSet)
    requires ColorsOk(g, s, path) && Alive(g, s, path) && ColorOf(s.colors, p) == White && Ok(g, p)
    requires path != [] ==> Edge(g, path[|path| - 1], p)
    requires o !in s.ex.refs.Values && i !in s.ins.refs.Values
    ensures Chain(g, path + [p]) && p !in path && p !in s.ex.vals
    ensures Consistent(Opened(s.ex, p, o, Label(g, External, p))) && Consistent(Opened(s.ins, p, i, Label(g, Internal, p)))
    ensures var t := Entered(g, s, path, p, o, i);
            Alive(g, t, path + [p]) && t.ex.vals.Keys == s.ex.vals.Keys + {p} && t.ins.vals.Keys == s.ins.vals.Keys + {p}
  {
    ChainPush(g, path, p);
    assert ColorFits(s, path, p);
    hide Chain, TableOk;
    EnterTable(g, External, s.ex, path, p, o);
    EnterTable(g, Internal, s.ins, path, p, i);
    hide Consistent, Opened, Pushed, ColorsOk;
  }

  lemma EnterKeeps(g: Graph, bp: bool, s: St, path: seq<Package>, p: Package, o: ReachSet, i: ReachSet)
    requires Inv(g, bp, s, path) && ColorOf(s.colors, p) == White && Ok(g, p)
    requires path != [] ==> Edge(g, path[|path| - 1], p)
    requires o !in s.ex.refs.Values && i !in s.ins.refs.Values
    ensures Consistent(Opened(s.ex, p, o, Label(g, External, p))) && Consistent(Opened(s.ins, p, i, Label(g, Internal, p)))
    ensures var t := Entered(g, s, path, p, o, i); Inv(g, bp, t, path + [p]) && Extends(g, s, t)
  {
    hide Chain, Alive, Acyclic, Consistent, Opened, Pushed, Extends, ErrsOk, Closed, ColorsOk;
    EnterAlive(g, s, path, p, o, i);
    EnterExtends(g, s, path, p, o, i);
    var t := Entered(g, s, path, p, o, i);
    EnterColors(g, s, t, path, p);
    EnterCommon(g, bp, s, t, path, p);
  }

  lemma EnterExtends(g: Graph, s: St, path: seq<Package>, p: Package, o: ReachSet, i: ReachSet)
    requires ColorsOk(g, s, path) && Alive(g, s, path) && ColorOf(s.colors, p) == White && Chain(g, path + [p]) && p !in path
    requires o !in s.ex.refs.Values && i !in s.ins.refs.Values && p !in s.ex.vals
    requires Consistent(Opened(s.ex, p, o, Label(g, External, p))) && Consistent(Opened(s.ins, p, i, Label(g, Internal, p)))
    ensures Extends(g, s, Entered(g, s, path, p, o, i))
  {
    hide Later, Alive, Chain, Consistent, Entered;
    forall q ensures Later(g, s, Entered(g, s, path, p, o, i), q) {
      assert ColorFits(s, path, q);
      EnterAt(g, s, path, p, o, i, q);
    }
  }

  lemma EnterColors(g: Graph, s: St, t: St, path: seq<Package>, p: Package)
    requires ColorsOk(g, s, path) && ColorOf(s.colors, p) == White && p in Nodes(g) && Chain(g, path + [p])
    requires t.colors == s.colors[p := Grey] && t.ex.vals.Keys == s.ex.vals.Keys + {p}
    ensures ColorsOk(g, t, path + [p])
  {
    assert ColorFits(s, path, p);
    forall q ensures ColorFits(t, path + [p], q) {
      assert ColorFits(s, path, q);
    }
  }

  lemma EnterCommon(g: Graph, bp: bool, s: St, t: St, path: seq<Package>, p: Package)
    requires ErrsOk(g, bp, s) && (Acyclic(g) ==> Closed(g, bp, s)) && Extends(g, s, t) && p in g
    requires ColorOf(s.colors, p) == White && t.colors == s.colors[p := Grey] && t.errs == s.errs
    requires t.ex.vals.Keys == s.ex.vals.Keys + {p} && t.ins.vals.Keys == s.ins.vals.Keys + {p}
    ensures ErrsOk(g, bp, t) && (Acyclic(g) ==> Closed(g, bp, t))
  {
    hide Genuine, Acyclic;
    forall q ensures Accounted(g, bp, t, q) { assert Accounted(g, bp, s, q); }
    if Acyclic(g) {
      FixedStaysClosed(g, bp, s, t);
    }
  }

  /** Closedness only looks at what is done. */
  lemma FixedStaysClosed(g: Graph, bp: bool, s: St, t: St)
    requires Acyclic(g) && Closed(g, bp, s) && Extends(g, s, t)
    requires forall p :: Done(t, p) && Kept(t, p) ==> Done(s, p) && Kept(s, p)
    ensures Closed(g, bp, t)
  {
    forall q ensures ClosedAt(g, bp, t, q) {
      assert ClosedAt(g, bp, s, q);
      forall c | Done(t, q) && Kept(t, q) && Edge(g, q, c) ensures Settled(g, bp, t, q, c) {
        assert Settled(g, bp, s, q, c) && Later(g, s, t, q) && Later(g, s, t, c);
      }
    }
  }

  /** Steps that touch neither colours nor explanations and drop nothing. */
  lemma WritesKeepCommon(g: Graph, bp: bool, s: St, t: St, path: seq<Package>)
    requires Common(g, bp, s, path) && Extends(g, s, t)
    requires t.colors == s.colors && t.errs == s.errs && t.ex.vals.Keys == s.ex.vals.Keys && t.ins.vals.Keys == s.ins.vals.Keys
    ensures Common(g, bp, t, path)
  {
    hide Genuine, Acyclic, Chain, NoDup;
    forall q ensures Accounted(g, bp, t, q) { assert Accounted(g, bp, s, q); }
    forall q ensures ColorFits(t, path, q) { assert ColorFits(s, path, q); }
    if Acyclic(g) {
      FixedStaysClosed(g, bp, s, t);
    }
  }

  // ------------------------------------------------------------------ coming back to the path

  lemma MergeFixes(t: Table, path: seq<Package>, k: nat, p: Package)
    requires Consistent(t) && k < |path| && path[k] in t.refs && p in t.vals && p !in path
    ensures Merged(t, path, k).vals[p] == t.vals[p]
  {
    assert p !in path[k + 1..];
  }

  lemma BackEdgeAt(g: Graph, s: St, path: seq<Package>, k: nat, p: Package)
    requires ColorFits(s, path, p) && Alive(g, s, path) && Chain(g, path) && NoDup(path)
    requires k < |path| && Edge(g, path[|path| - 1], path[k])
    ensures Later(g, s, s.(ex := Merged(s.ex, path, k), ins := Merged(s.ins, path, k)), p)
  {
    MergeKeeps(g, External, s.ex, path, k);
    MergeKeeps(g, Internal, s.ins, path, k);
    if Done(s, p) && Kept(s, p) {
      MergeFixes(s.ex, path, k, p);
      MergeFixes(s.ins, path, k, p);
    }
    hide Chain, TableOk, NoDup;
  }

  lemma BackEdgeKeeps(g: Graph, bp: bool, s: St, path: seq<Package>, k: nat)
    requires Inv(g, bp, s, path) && k < |path| && Edge(g, path[|path| - 1], path[k])
    ensures var t := s.(ex := Merged(s.ex, path, k), ins := Merged(s.ins, path, k));
            Inv(g, bp, t, path) && Extends(g, s, t)
  {
    var t := s.(ex := Merged(s.ex, path, k), ins := Merged(s.ins, path, k));
    assert t.ex.vals.Keys == s.ex.vals.Keys && t.ins.vals.Keys == s.ins.vals.Keys;
    assert Chain(g, path) && NoDup(path);
    hide Chain, TableOk, NoDup, Merged, Later, Acyclic, ErrsOk, Closed;
    MergeKeeps(g, External, s.ex, path, k);
    MergeKeeps(g, Internal, s.ins, path, k);
    forall p ensures Later(g, s, t, p) {
      assert ColorFits(s, path, p);
      BackEdgeAt(g, s, path, k, p);
    }
    WritesKeepCommon(g, bp, s, t, path);
  }

  // ------------------------------------------------------------------ reusing a finished package

  lemma ReuseTable(g: Graph, kind: Kind, t: Table, path: seq<Package>, p: Package)
    requires TableOk(g, kind, t, path) && Chain(g, path) && Edge(g, path[|path| - 1], p) && p in t.vals
    ensures var u := Pushed(t, path, t.vals[p]);
            && TableOk(g, kind, u, path) && u.vals[p] == t.vals[p] && u.vals[p] <= u.vals[path[|path| - 1]]
            && forall q :: q in t.vals ==> q in u.vals && t.vals[q] <= u.vals[q]
  {
    var last := path[|path| - 1];
    forall x | x in t.vals[p] ensures Imported(g, kind, last, x) { ReuseImports(g, kind, t, path, p, x); }
    hide Imported, Reaches, Chain, EntryOk, SharersReach, Touched;
    PushKeeps(g, kind, t, path, t.vals[p]);
    PushNests(t, path, t.vals[p]);
  }

  lemma ReuseImports(g: Graph, kind: Kind, t: Table, path: seq<Package>, p: Package, x: Package)
    requires TableOk(g, kind, t, path) && Chain(g, path) && Edge(g, path[|path| - 1], p) && p in t.vals && x in t.vals[p]
    ensures Imported(g, kind, path[|path| - 1], x)
  {
    var last := path[|path| - 1];
    assert EntryOk(g, kind, t, p);
    ChainReaches(g, path, |path| - 1, |path| - 1);
    ReachesNext(g, last, last, p);
    ImportedFrom(g, kind, last, p, x);
  }

  lemma ReuseTableAt(g: Graph, kind: Kind, t: Table, path: seq<Package>, p: Package, q: Package)
    requires TableOk(g, kind, t, path) && Chain(g, path) && Edge(g, path[|path| - 1], p) && p in t.vals && q in t.vals
    ensures var u := Pushed(t, path, t.vals[p]);
            q in u.vals && t.vals[q] <= u.vals[q] && (Acyclic(g) && q !in path ==> u.vals[q] == t.vals[q])
  {
    ReuseTable(g, kind, t, path, p);
    hide Chain, Acyclic;
    if Acyclic(g) && q !in path {
      PushFixes(g, t, path, t.vals[p], q);
    }
  }

  lemma ReuseAt(g: Graph, s: St, path: seq<Package>, p: Package, q: Package)
    requires ColorsOk(g, s, path) && Alive(g, s, path) && Kept(s, p) && path != [] && Edge(g, path[|path| - 1], p)
    ensures Later(g, s, s.(ex := Pushed(s.ex, path, s.ex.vals[p]), ins := Pushed(s.ins, path, s.ins.vals[p])), q)
  {
    assert ColorFits(s, path, q);
    assert Consistent(s.ex) && Consistent(s.ins);
    if q in s.ex.vals {
      ReuseTableAt(g, External, s.ex, path, p, q);
      ReuseTableAt(g, Internal, s.ins, path, p, q);
    }
    hide Chain, Acyclic, TableOk;
  }

  lemma ReuseKeeps(g: Graph, bp: bool, s: St, path: seq<Package>, p: Package)
    requires Inv(g, bp, s, path) && Kept(s, p) && path != [] && Edge(g, path[|path| - 1], p)
    ensures var t, last := s.(ex := Pushed(s.ex, path, s.ex.vals[p]), ins := Pushed(s.ins, path, s.ins.vals[p])), path[|path| - 1];
            && Inv(g, bp, t, path) && Extends(g, s, t) && Kept(t, p) && Kept(t, last)
            && t.ex.vals[p] <= t.ex.vals[last] && t.ins.vals[p] <= t.ins.vals[last]
  {
    var t := s.(ex := Pushed(s.ex, path, s.ex.vals[p]), ins := Pushed(s.ins, path, s.ins.vals[p]));
    ReuseTable(g, External, s.ex, path, p);
    ReuseTable(g, Internal, s.ins, path, p);
    assert t.ex.vals.Keys == s.ex.vals.Keys && t.ins.vals.Keys == s.ins.vals.Keys;
    assert OnPath(t.ex, path) && OnPath(t.ins, path);
    hide Chain, TableOk, Pushed, Common, Later, Consistent;
    forall q ensures Later(g, s, t, q) { ReuseAt(g, s, path, p, q); }
    WritesKeepCommon(g, bp, s, t, path);
  }

  // ------------------------------------------------------------------ poisoning

  /** after is before plus an explanation for every package on the path: the rest of the path,
      then tail. */
  ghost predicate Explained(before: Problems, after: Problems, path: seq<Package>, tail: seq<Package>, e: ImportErr) {
    && after.Keys == before.Keys + Elems(path)
    && (forall q :: q in before && q !in path ==> after[q] == before[q])
    && forall k :: 0 <= k < |path| ==> path[k] in after && after[path[k]] == ProblemImportError(path[k], (path + tail)[k + 1..], e)
  }

  lemma ExplainedAt(g: Graph, path: seq<Package>, tail: seq<Package>, e: ImportErr, k: nat)
    requires BadChain(g, tail) && ErrOf(g, tail[|tail| - 1], e)
    requires k < |path| && Chain(g, path) && Edge(g, path[|path| - 1], tail[0])
    ensures Genuine(g, path[k], ProblemImportError(path[k], (path + tail)[k + 1..], e))
  {
    PathToBad(g, path, tail, k);
    assert [path[k]] + (path + tail)[k + 1..] == path[k..] + tail;
  }

  lemma ExplainedGenuinely(g: Graph, before: Problems, after: Problems, path: seq<Package>, tail: seq<Package>, e: ImportErr)
    requires Explained(before, after, path, tail, e)
    requires BadChain(g, tail) && ErrOf(g, tail[|tail| - 1], e)
    requires path != [] ==> Chain(g, path) && Edge(g, path[|path| - 1], tail[0])
    ensures forall q :: q in path ==> q in g && Genuine(g, q, after[q])
  {
    forall q | q in path ensures q in g && Genuine(g, q, after[q]) {
      var k :| 0 <= k < |path| && path[k] == q;
      assert Ok(g, path[k]);
      hide Genuine, Chain, BadChain, ErrOf;
      ExplainedAt(g, path, tail, e, k);
    }
  }

  lemma PoisonAt(g: Graph, s: St, t: St, path: seq<Package>, q: Package)
    requires ColorsOk(g, s, path) && ErrsOk(g, true, s) && s.ex.vals.Keys == s.ins.vals.Keys
    requires t.colors == s.colors && t.ex == Dropped(s.ex, path) && t.ins == Dropped(s.ins, path)
    requires t.errs.Keys == s.errs.Keys + Elems(path) && (forall r :: r in s.errs && r !in path ==> t.errs[r] == s.errs[r])
    requires forall r :: r in path ==> r in g && Genuine(g, r, t.errs[r])
    ensures Later(g, s, t, q) && Accounted(g, true, t, q) && ColorFits(t, path, q)
  {
    hide Genuine, Acyclic, Chain, NoDup;
    assert ColorFits(s, path, q) && Accounted(g, true, s, q);
    assert q in Elems(path) <==> q in path;
  }

  /** Poisoning a path drops the sets of the whole path and explains why. */
  lemma PoisonKeeps(g: Graph, s: St, t: St, path: seq<Package>, tail: seq<Package>, e: ImportErr)
    requires Inv(g, true, s, path)
    requires t.colors == s.colors && t.ex == Dropped(s.ex, path) && t.ins == Dropped(s.ins, path)
    requires Explained(s.errs, t.errs, path, tail, e)
    requires BadChain(g, tail) && ErrOf(g, tail[|tail| - 1], e)
    requires path != [] ==> Edge(g, path[|path| - 1], tail[0])
    ensures Poisoned(g, true, t, path) && Extends(g, s, t)
  {
    ExplainedGenuinely(g, s.errs, t.errs, path, tail, e);
    hide Chain, BadChain, Acyclic, Genuine, ErrOf, NoDup, TableOk, ErrsOk, Closed;
    DropKeeps(g, External, s.ex, path);
    DropKeeps(g, Internal, s.ins, path);
    PoisonExtends(g, s, t, path);
    PoisonKills(s, t, path);
    hide Dead, Dropped, Explained;
  }

  lemma PoisonKills(s: St, t: St, path: seq<Package>)
    requires t.ex == Dropped(s.ex, path) && t.ins == Dropped(s.ins, path) && t.errs.Keys == s.errs.Keys + Elems(path)
    ensures Dead(t, path) && (s.ex.vals.Keys == s.ins.vals.Keys ==> t.ex.vals.Keys == t.ins.vals.Keys)
  {
    assert forall q :: q in path ==> q in Elems(path);
  }

  lemma PoisonExtends(g: Graph, s: St, t: St, path: seq<Package>)
    requires Common(g, true, s, path) && s.ex.vals.Keys == s.ins.vals.Keys
    requires t.colors == s.colors && t.ex == Dropped(s.ex, path) && t.ins == Dropped(s.ins, path)
    requires t.errs.Keys == s.errs.Keys + Elems(path) && (forall r :: r in s.errs && r !in path ==> t.errs[r] == s.errs[r])
    requires forall r :: r in path ==> r in g && Genuine(g, r, t.errs[r])
    ensures Common(g, true, t, path) && Extends(g, s, t)
  {
    hide Genuine, Chain, Acyclic, NoDup;
    forall q ensures Later(g, s, t, q) && Accounted(g, true, t, q) && ColorFits(t, path, q) { PoisonAt(g, s, t, path, q); }
    hide Later, Accounted, ColorFits;
    if Acyclic(g) {
      FixedStaysClosed(g, true, s, t);
    }
  }

  /** A bad package that is not on any path yet is recorded and done. */
  ghost function Recorded(g: Graph, s: St, p: Package): St {
    s.(colors := s.colors[p := Black],
       errs := if p in g && g[p].err.Some? then s.errs[p := ProblemImportError(p, [], OwnErr(g[p].err.value))] else s.errs)
  }

  lemma RecordedErr(g: Graph, p: Package)
    requires p in g && !Ok(g, p)
    ensures Genuine(g, p, ProblemImportError(p, [], OwnErr(g[p].err.value)))
  {
    assert [p] + [] == [p];
    MissingIsBad(g, p);
  }

  lemma RecordAt(g: Graph, bp: bool, s: St, path: seq<Package>, p: Package, q: Package)
    requires Common(g, bp, s, path) && ColorOf(s.colors, p) == White && !Ok(g, p)
    ensures var t := Recorded(g, s, p); Later(g, s, t, q) && Accounted(g, bp, t, q) && ColorFits(t, path, q)
  {
    assert ColorFits(s, path, q) && Accounted(g, bp, s, q);
    if p in g { RecordedErr(g, p); }
  }

  lemma RecordCommon(g: Graph, bp: bool, s: St, path: seq<Package>, p: Package)
    requires Common(g, bp, s, path) && ColorOf(s.colors, p) == White && !Ok(g, p) && p in Nodes(g)
    ensures Common(g, bp, Recorded(g, s, p), path) && Extends(g, s, Recorded(g, s, p)) && p !in s.ex.vals
  {
    var t := Recorded(g, s, p);
    assert ColorFits(s, path, p);
    forall q ensures Later(g, s, t, q) && Accounted(g, bp, t, q) && ColorFits(t, path, q) { RecordAt(g, bp, s, path, p, q); }
    hide Later, Accounted, ColorFits, Chain, NoDup, Acyclic;
    if Acyclic(g) {
      FixedStaysClosed(g, bp, s, t);
    }
  }

  lemma RecordKeeps(g: Graph, bp: bool, s: St, path: seq<Package>, p: Package)
    requires ColorOf(s.colors, p) == White && !Ok(g, p) && p in Nodes(g)
    ensures Inv(g, bp, s, path) ==> Inv(g, bp, Recorded(g, s, p), path) && Extends(g, s, Recorded(g, s, p))
    ensures Poisoned(g, bp, s, path) ==> Poisoned(g, bp, Recorded(g, s, p), path) && Extends(g, s, Recorded(g, s, p))
  {
    if Common(g, bp, s, path) {
      RecordCommon(g, bp, s, path, p);
    }
  }
}
