/** The steps of wmToReach's exploration, one at a time, as they change the colours and the external
    sets (gps/pkgtree/pkgtree.go), for a given order of exploration: the recursion of dfe is a stack.
    The internal sets are written where the external ones are. */
module DepthFirst {
  import opened Constraints
  import opened Identifiers
  import opened ImportGraph
  import opened ReachTables
  import opened ReachState

  /** A package being explored, and those of its imports that are still to be visited. */
  datatype Frame = Frame(pkg: Package, todo: seq<Package>)

  /** failed says that the path is being abandoned. */
  datatype Conf = Conf(colors: map<Package, Color>, ex: Table, stack: seq<Frame>, failed: bool)

  /** The order in which the loops over maps happen to go: over all packages, and over the imports of
      each.  A package is entered once at most. */
  datatype Order = Order(roots: seq<Package>, ins: Package -> seq<Package>)

  ghost predicate Orders(g: Graph, o: Order) {
    Listing(o.roots, g.Keys) && forall p <- g :: Listing(o.ins(p), g[p].ins)
  }

  const START := Conf(map[], Table(map[], map[]), [], false)

  function Path(stack: seq<Frame>): (path: seq<Package>)
    ensures |path| == |stack| && forall i :: 0 <= i < |stack| ==> path[i] == stack[i].pkg
  {
    seq(|stack|, i requires 0 <= i < |stack| => stack[i].pkg)
  }

  /** First visit to an error-free package, which gets the set r. */
  ghost predicate EntersWith(g: Graph, o: Order, c: Conf, d: Conf, p: Package, r: ReachSet) {
    && p in g && r !in c.ex.refs.Values
    && var mine := Opened(c.ex, p, r, g[p].ex);
    Consistent(mine)
    && d == Conf(c.colors[p := Grey], Pushed(mine, Path(c.stack) + [p], g[p].ex), c.stack + [Frame(p, o.ins(p))], false)
  }

  ghost predicate SharesAt(c: Conf, d: Conf, p: Package, k: nat) {
    && k < |c.stack| && c.stack[k].pkg == p && Consistent(c.ex) && p in c.ex.refs
    && d == c.(ex := Merged(c.ex, Path(c.stack), k))
  }

  /** dfe is called for p. */
  ghost predicate Visits(g: Graph, o: Order, bp: bool, c: Conf, d: Conf, p: Package) {
    match ColorOf(c.colors, p)
    case White =>
      if Ok(g, p) then p in d.ex.refs && EntersWith(g, o, c, d, p, d.ex.refs[p])
      else if bp then d == Conf(c.colors[p := Black], Dropped(c.ex, Path(c.stack) + [p]), c.stack, true)
      else d == c.(colors := c.colors[p := Black])
    case Grey => exists k :: SharesAt(c, d, p, k)
    case Black =>
      if p in c.ex.vals then Consistent(c.ex) && d == c.(ex := Pushed(c.ex, Path(c.stack), c.ex.vals[p]))
      else if bp then d == c.(ex := Dropped(c.ex, Path(c.stack)), failed := true)
      else d == c
  }

  /** The last package is done with, or given up. */
  predicate Leaves(c: Conf, d: Conf) {
    && c.stack != []
    && d == c.(colors := c.colors[c.stack[|c.stack| - 1].pkg := Black], stack := c.stack[..|c.stack| - 1])
  }

  function Advanced(c: Conf): Conf
    requires c.stack != [] && c.stack[|c.stack| - 1].todo != []
  {
    var top := c.stack[|c.stack| - 1];
    c.(stack := c.stack[..|c.stack| - 1] + [Frame(top.pkg, top.todo[1..])])
  }

  /** Where the outer loop goes on. */
  function FirstOpen(colors: map<Package, Color>, roots: seq<Package>): Option<Package> {
    if roots == [] then None
    else if ColorOf(colors, roots[0]) != Black then Some(roots[0])
    else FirstOpen(colors, roots[1..])
  }

  ghost predicate Step(g: Graph, o: Order, bp: bool, c: Conf, d: Conf) {
    if c.stack == [] then
      if c.failed then d == c.(failed := false)
      else FirstOpen(c.colors, o.roots).Some? && Visits(g, o, bp, c, d, FirstOpen(c.colors, o.roots).value)
    else if c.failed || c.stack[|c.stack| - 1].todo == [] then Leaves(c, d)
    else Visits(g, o, bp, Advanced(c), d, c.stack[|c.stack| - 1].todo[0])
  }

  ghost predicate Run(g: Graph, o: Order, bp: bool, cs: seq<Conf>) {
    && cs != [] && cs[0] == START
    && forall i, j :: 0 <= i && j == i + 1 && j < |cs| ==> Step(g, o, bp, cs[i], cs[j])
  }

  /** The outer loop has no package left. */
  predicate Finished(o: Order, c: Conf) {
    c.stack == [] && !c.failed && FirstOpen(c.colors, o.roots).None?
  }

  function Last(cs: seq<Conf>): Conf {
    if cs == [] then START else cs[|cs| - 1]
  }

  // ------------------------------------------------------------------ making runs

  lemma Beginning(g: Graph, o: Order, bp: bool) returns (cs: seq<Conf>)
    ensures Run(g, o, bp, cs) && Last(cs) == START
  {
    cs := [START];
  }

  lemma RunPush(g: Graph, o: Order, bp: bool, cs: seq<Conf>, d: Conf) returns (ds: seq<Conf>)
    requires Run(g, o, bp, cs) && Step(g, o, bp, Last(cs), d)
    ensures Run(g, o, bp, ds) && Last(ds) == d
  {
    hide Step;
    ds := cs + [d];
    forall i, j | 0 <= i && j == i + 1 && j < |ds| ensures Step(g, o, bp, ds[i], ds[j]) {
      assert ds[i] == cs[i] && (j < |cs| ==> ds[j] == cs[j]);
    }
  }

  /** The next thing is that p is visited from c. */
  ghost predicate Ready(g: Graph, o: Order, bp: bool, cs: seq<Conf>, c: Conf, p: Package) {
    && Run(g, o, bp, cs) && !Last(cs).failed
    && if Last(cs).stack == [] then FirstOpen(Last(cs).colors, o.roots) == Some(p) && c == Last(cs)
       else var f := Last(cs).stack[|Last(cs).stack| - 1]; f.todo != [] && f.todo[0] == p && c == Advanced(Last(cs))
  }

  lemma Visiting(g: Graph, o: Order, bp: bool, cs: seq<Conf>, c: Conf, d: Conf, p: Package) returns (ds: seq<Conf>)
    requires Ready(g, o, bp, cs, c, p) && Visits(g, o, bp, c, d, p)
    ensures Run(g, o, bp, ds) && Last(ds) == d
  {
    hide Run, Visits;
    ds := RunPush(g, o, bp, cs, d);
  }

  lemma ReadyForImport(g: Graph, o: Order, bp: bool, cs: seq<Conf>, stack: seq<Frame>, f: Frame)
    requires Run(g, o, bp, cs) && Last(cs).stack == stack + [f] && f.todo != [] && !Last(cs).failed
    ensures Ready(g, o, bp, cs, Last(cs).(stack := stack + [Frame(f.pkg, f.todo[1..])]), f.todo[0])
  {
    hide Run, Visits;
    var c := Last(cs);
    assert c.stack[..|c.stack| - 1] == stack && c.stack[|c.stack| - 1] == f;
    assert Advanced(c) == c.(stack := stack + [Frame(f.pkg, f.todo[1..])]);
  }

  lemma ReadyForRoot(g: Graph, o: Order, bp: bool, cs: seq<Conf>, p: Package)
    requires Run(g, o, bp, cs) && Last(cs).stack == [] && !Last(cs).failed && FirstOpen(Last(cs).colors, o.roots) == Some(p)
    ensures Ready(g, o, bp, cs, Last(cs), p)
  {
    hide Run, Visits;
  }

  lemma Leaving(g: Graph, o: Order, bp: bool, cs: seq<Conf>, stack: seq<Frame>, f: Frame) returns (ds: seq<Conf>)
    requires Run(g, o, bp, cs) && Last(cs).stack == stack + [f] && (Last(cs).failed || f.todo == [])
    ensures Run(g, o, bp, ds)
    ensures Last(ds) == Last(cs).(colors := Last(cs).colors[f.pkg := Black], stack := stack)
  {
    hide Run;
    var c := Last(cs);
    var d := c.(colors := c.colors[f.pkg := Black], stack := stack);
    assert c.stack[..|c.stack| - 1] == stack && c.stack[|c.stack| - 1] == f;
    assert Step(g, o, bp, c, d);
    ds := RunPush(g, o, bp, cs, d);
  }

  lemma Recovering(g: Graph, o: Order, bp: bool, cs: seq<Conf>) returns (ds: seq<Conf>)
    requires Run(g, o, bp, cs) && Last(cs).stack == []
    ensures Run(g, o, bp, ds) && Last(ds) == Last(cs).(failed := false)
  {
    if Last(cs).failed {
      ds := RunPush(g, o, bp, cs, Last(cs).(failed := false));
    } else {
      ds := cs;
    }
  }

  /** All before the i-th are done, so that is where the outer loop is. */
  lemma {:induction false} OpenAt(colors: map<Package, Color>, roots: seq<Package>, i: nat)
    requires i <= |roots| && (forall k :: 0 <= k < i ==> ColorOf(colors, roots[k]) == Black)
    requires i < |roots| ==> ColorOf(colors, roots[i]) != Black
    ensures FirstOpen(colors, roots) == if i < |roots| then Some(roots[i]) else None
  {
    if i > 0 { OpenAt(colors, roots[1..], i - 1); }
  }

  // ------------------------------------------------------------------ following runs

  lemma FinishedStops(g: Graph, o: Order, bp: bool, c: Conf, d: Conf)
    requires Finished(o, c)
    ensures !Step(g, o, bp, c, d)
  {
  }

  /** A run that ends finished goes on from where it is not, and ends where it is. */
  lemma GoesOn(g: Graph, o: Order, bp: bool, cs: seq<Conf>, k: nat)
    requires Run(g, o, bp, cs) && Finished(o, Last(cs)) && k < |cs|
    ensures if Finished(o, cs[k]) then cs[k] == Last(cs) else k + 1 < |cs| && Step(g, o, bp, cs[k], cs[k + 1])
  {
    if Finished(o, cs[k]) && k + 1 < |cs| {
      FinishedStops(g, o, bp, cs[k], cs[k + 1]);
      assert false;
    }
  }

  /** The stack while the next import of f is visited. */
  function On(stack: seq<Frame>, f: Frame): seq<Frame>
    requires f.todo != []
  {
    stack + [Frame(f.pkg, f.todo[1..])]
  }

  lemma VisitFollows(g: Graph, o: Order, bp: bool, c: Conf, d: Conf, stack: seq<Frame>, f: Frame)
    requires Step(g, o, bp, c, d) && c.stack == stack + [f] && !c.failed && f.todo != []
    ensures Visits(g, o, bp, c.(stack := On(stack, f)), d, f.todo[0])
  {
    hide Visits;
    assert c.stack[..|c.stack| - 1] == stack && c.stack[|c.stack| - 1] == f;
  }

  lemma LeaveFollows(g: Graph, o: Order, bp: bool, c: Conf, d: Conf, stack: seq<Frame>, f: Frame)
    requires Step(g, o, bp, c, d) && c.stack == stack + [f] && (c.failed || f.todo == [])
    ensures d == c.(colors := c.colors[f.pkg := Black], stack := stack)
  {
    assert c.stack[..|c.stack| - 1] == stack && c.stack[|c.stack| - 1] == f;
  }
}
