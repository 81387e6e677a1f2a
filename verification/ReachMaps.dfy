/** wmToReach: depth-first exploration of the internal imports with shared reach sets and
    poisoning (gps/pkgtree/pkgtree.go). */
module ReachMaps {
  import opened Constraints
  import opened Identifiers
  import Bridge
  import opened ImportGraph
  import opened ReachTables
  import opened ReachState
  import opened ReachTheorems
  import opened DepthFirst

  ghost function TableOf(rsets: map<Package, ReachSet>): (t: Table)
    reads rsets.Values
    ensures Consistent(t) && t.refs == rsets
  {
    Table(rsets, map p | p in rsets :: rsets[p].elems)
  }

  lemma PushedNone(t: Table, items: set<Package>)
    requires Consistent(t)
    ensures Pushed(t, [], items) == t
  {
    assert forall p :: !Touched(t, [], p);
    var u := Pushed(t, [], items);
    assert u.vals.Keys == t.vals.Keys && forall p <- t.vals :: u.vals[p] == t.vals[p];
  }

  lemma TouchedPush(t: Table, path: seq<Package>, p: Package, q: Package)
    ensures Touched(t, path + [p], q) <==> Touched(t, path, q) || Shared(t, p, q)
    ensures Touched(t, [p], q) <==> Shared(t, p, q)
  {
    var all := path + [p];
    assert all[|path|] == p && forall k :: 0 <= k < |path| ==> all[k] == path[k];
    assert [p][0] == p;
  }

  lemma PushedOnce(t: Table, path: seq<Package>, p: Package, items: set<Package>)
    requires Consistent(t)
    ensures Consistent(Pushed(t, path, items))
    ensures Pushed(Pushed(t, path, items), [p], items) == Pushed(t, path + [p], items)
  {
    PushedConsistent(t, path, items);
    var u := Pushed(t, path, items);
    var v, w := Pushed(u, [p], items), Pushed(t, path + [p], items);
    forall q | q in t.refs ensures v.vals[q] == w.vals[q] {
      PushedOnceAt(t, path, p, items, q);
    }
    hide Touched, Shared, Consistent;
    assert v.vals.Keys == t.refs.Keys == w.vals.Keys;
  }

  lemma PushedOnceAt(t: Table, path: seq<Package>, p: Package, items: set<Package>, q: Package)
    requires Consistent(t) && Consistent(Pushed(t, path, items)) && q in t.refs
    ensures Pushed(Pushed(t, path, items), [p], items).vals[q] == Pushed(t, path + [p], items).vals[q]
  {
    var u := Pushed(t, path, items);
    TouchedPush(t, path, p, q);
    TouchedPush(u, path, p, q);
    assert Shared(u, p, q) <==> Shared(t, p, q);
  }

  lemma PushedConsistent(t: Table, path: seq<Package>, items: set<Package>)
    requires Consistent(t)
    ensures Consistent(Pushed(t, path, items))
  {
    forall q, r | Shared(Pushed(t, path, items), q, r) ensures Pushed(t, path, items).vals[q] == Pushed(t, path, items).vals[r] {
      assert Shared(t, q, r);
      TouchedTogether(t, path, q, r);
    }
  }

  function After(c: seq<Package>, n: nat): seq<Package> {
    if n < |c| then c[n..] else []
  }

  /** Adds items to the set p has, if it has one. */
  method AddTo(rsets: map<Package, ReachSet>, p: Package, items: set<Package>)
    modifies rsets.Values
    ensures TableOf(rsets) == Pushed(old(TableOf(rsets)), [p], items)
  {
    ghost var t := TableOf(rsets);
    if p in rsets {
      var prs := rsets[p];
      prs.elems := prs.elems + items;
    }
    forall q | q in rsets ensures rsets[q].elems == Pushed(t, [p], items).vals[q] {
      if p in rsets && rsets[p] == rsets[q] { assert Shared(t, [p][0], q); }
    }
  }

  /** Gives p a new set of its own. */
  method OpenSet(rsets: map<Package, ReachSet>, p: Package, items: set<Package>) returns (rsets': map<Package, ReachSet>, ghost o: ReachSet)
    ensures fresh(o) && rsets'.Values <= rsets.Values + {o}
    ensures TableOf(rsets') == Opened(old(TableOf(rsets)), p, o, items)
  {
    ghost var t := TableOf(rsets);
    var rs := new ReachSet(items);
    OpenTable(rsets, p, rs);
    assert TableOf(rsets) == t;
    rsets', o := rsets[p := rs], rs;
  }

  class Explorer {
    const g: Graph
    const backprop: bool
    const order: Order
    var colors: map<Package, Color>
    var exrsets: map<Package, ReachSet>
    var inrsets: map<Package, ReachSet>
    var errmap: Problems

    constructor (g: Graph, backprop: bool, order: Order)
      ensures this.g == g && this.backprop == backprop && this.order == order
      ensures colors == map[] && exrsets == map[] && inrsets == map[] && errmap == map[]
    {
      this.g, this.backprop, this.order := g, backprop, order;
      colors, exrsets, inrsets, errmap := map[], map[], map[], map[];
    }

    ghost function Sets(): set<ReachSet>
      reads this`exrsets, this`inrsets
    {
      exrsets.Values + inrsets.Values
    }

    ghost function State(): St
      reads this, Sets()
    {
      St(colors, TableOf(exrsets), TableOf(inrsets), errmap)
    }

    /** No set is both external and internal. */
    ghost predicate Apart()
      reads this`exrsets, this`inrsets
    {
      exrsets.Values !! inrsets.Values
    }

    ghost predicate Valid(path: seq<Package>)
      reads this, Sets()
    {
      Apart() && Orders(g, order) && Inv(g, backprop, State(), path)
    }

    /** The state as the steps of DepthFirst.dfy see it. */
    ghost function Now(stack: seq<Frame>, failed: bool): Conf
      reads this, Sets()
    {
      Conf(colors, TableOf(exrsets), stack, failed)
    }

    // ---------------------------------------------------------------- writing along the path

    /** Pushes imports into the sets of everything on the path. */
    method PushUp(path: seq<Package>, exs: set<Package>, ins: set<Package>)
      requires Apart()
      modifies Sets()
      ensures TableOf(exrsets) == Pushed(old(TableOf(exrsets)), path, exs)
      ensures TableOf(inrsets) == Pushed(old(TableOf(inrsets)), path, ins)
    {
      ghost var t, u := TableOf(exrsets), TableOf(inrsets);
      PushedNone(t, exs);
      PushedNone(u, ins);
      hide Pushed;
      for k := 0 to |path|
        invariant TableOf(exrsets) == Pushed(t, path[..k], exs)
        invariant TableOf(inrsets) == Pushed(u, path[..k], ins)
      {
        PushedOnce(t, path[..k], path[k], exs);
        PushedOnce(u, path[..k], path[k], ins);
        assert path[..k + 1] == path[..k] + [path[k]];
        AddTo(exrsets, path[k], exs);
        AddTo(inrsets, path[k], ins);
      }
      assert path[..|path|] == path;
    }

    /** All packages of an import cycle share the sets of the one the path came back to. */
    method ShareCycle(pkg: Package, path: seq<Package>) returns (ghost at: nat)
      requires NoDup(path) && pkg in path && (forall p <- path :: p in exrsets && p in inrsets)
      modifies this`exrsets, this`inrsets
      ensures at < |path| && path[at] == pkg
      ensures TableOf(exrsets) == Merged(old(TableOf(exrsets)), path, at)
      ensures TableOf(inrsets) == Merged(old(TableOf(inrsets)), path, at)
    {
      at :| 0 <= at < |path| && path[at] == pkg;
      hide Redirected, Merged, TableOf;
      ghost var ex, ins := exrsets, inrsets;
      ghost var t, u := TableOf(ex), TableOf(ins);
      RedirectNone(ex, path, at);
      RedirectNone(ins, path, at);
      var cycleStarted := false;
      for k := 0 to |path|
        invariant cycleStarted <==> at < k
        invariant exrsets == Redirected(ex, path, at, k) && inrsets == Redirected(ins, path, at, k)
      {
        RedirectOne(ex, path, at, k);
        RedirectOne(ins, path, at, k);
        cycleStarted := ShareOne(pkg, path[k], cycleStarted);
      }
      // where the source would panic: the path did include the cycle
      assert cycleStarted;
      assert TableOf(ex) == t && TableOf(ins) == u;
      RedirectedAll(ex, path, at);
      RedirectedAll(ins, path, at);
    }

    /** The body of that loop. */
    method ShareOne(pkg: Package, ppkg: Package, cycleStarted: bool) returns (started: bool)
      requires pkg in exrsets && pkg in inrsets
      modifies this`exrsets, this`inrsets
      ensures exrsets == if cycleStarted then old(exrsets)[ppkg := old(exrsets)[pkg]] else old(exrsets)
      ensures inrsets == if cycleStarted then old(inrsets)[ppkg := old(inrsets)[pkg]] else old(inrsets)
      ensures started == (cycleStarted || ppkg == pkg)
    {
      started := cycleStarted;
      if cycleStarted {
        exrsets := exrsets[ppkg := exrsets[pkg]];
        inrsets := inrsets[ppkg := inrsets[pkg]];
      } else if ppkg == pkg {
        started := true;
      }
    }

    // ---------------------------------------------------------------- poisoning

    /** Eliminates the sets of the path and records the problem; a last package that does not
        exist is not recorded. */
    method Poison(path: seq<Package>, cause: seq<Package>, err: ImportErr)
      requires NoDup(path) && Apart()
      modifies this`exrsets, this`inrsets, this`errmap
      ensures TableOf(exrsets) == Dropped(old(TableOf(exrsets)), path) && TableOf(inrsets) == Dropped(old(TableOf(inrsets)), path)
      ensures Apart() && Sets() <= old(Sets())
      ensures Noted(g, old(errmap), errmap, path, cause, err, |path|)
    {
      hide Noted;
      NoteNone(g, errmap, path, cause, err);
      for k := 0 to |path|
        invariant exrsets == old(exrsets) - Elems(path[..k]) && inrsets == old(inrsets) - Elems(path[..k])
        invariant Noted(g, old(errmap), errmap, path, cause, err, k)
      {
        var ppkg := path[k];
        assert Elems(path[..k + 1]) == Elems(path[..k]) + {ppkg};
        exrsets := exrsets - {ppkg};
        inrsets := inrsets - {ppkg};
        NoteOne(g, old(errmap), errmap, path, cause, err, k);
        if k == |path| - 1 && ppkg !in g {
          continue;
        }
        errmap := errmap[ppkg := ProblemImportError(ppkg, After(cause, k + 1), err)];
      }
      assert path[..|path|] == path;
      FewerSets(old(exrsets), Elems(path));
      FewerSets(old(inrsets), Elems(path));
      DropTable(old(exrsets), path);
      DropTable(old(inrsets), path);
      hide TableOf, Dropped;
    }

    /** Records why a new poison path is bad: its last package has an error or does not exist. */
    method PoisonWhite(path: seq<Package>)
      requires NoDup(path) && Apart() && path != [] && !Ok(g, path[|path| - 1])
      modifies this`exrsets, this`inrsets, this`errmap
      ensures TableOf(exrsets) == Dropped(old(TableOf(exrsets)), path) && TableOf(inrsets) == Dropped(old(TableOf(inrsets)), path)
      ensures Apart() && Sets() <= old(Sets())
      ensures Noted(g, old(errmap), errmap, path, path, TailErr(g, path[|path| - 1]), |path|)
    {
      var tail := path[|path| - 1];
      var err := if tail in g then OwnErr(g[tail].err.value) else NoPackage(tail);
      Poison(path, path, err);
    }

    /** Connects the path to an existing poison path.  from is without an explanation exactly when
        it does not exist, the case the source thinks impossible. */
    method PoisonBlack(path: seq<Package>, from: Package) returns (ghost tail: seq<Package>, ghost err: ImportErr)
      requires NoDup(path) && Apart() && Accounted(g, true, State(), from) && Done(State(), from) && from !in exrsets
      modifies this`exrsets, this`inrsets, this`errmap
      ensures TableOf(exrsets) == Dropped(old(TableOf(exrsets)), path) && TableOf(inrsets) == Dropped(old(TableOf(inrsets)), path)
      ensures Apart() && Sets() <= old(Sets())
      ensures from !in old(errmap) <==> from !in g
      ensures tail != [] && tail[0] == from && BadChain(g, tail) && ErrOf(g, tail[|tail| - 1], err)
      ensures Noted(g, old(errmap), errmap, path, path + tail, err, |path|)
    {
      var fromErr := if from in errmap then errmap[from] else ProblemImportError("", [], UnknownErr(from));
      var cause := path + [from] + fromErr.cause;
      tail, err := [from] + fromErr.cause, fromErr.err;
      assert cause == path + tail;
      if from !in g { MissingIsBad(g, from); }
      Poison(path, cause, fromErr.err);
    }

    // ---------------------------------------------------------------- exploring

    /** The package is on the path already: an import cycle. */
    method VisitGrey(pkg: Package, path: seq<Package>, ghost stack: seq<Frame>)
      requires Valid(path) && ColorOf(colors, pkg) == Grey && pkg in path && Edge(g, path[|path| - 1], pkg) && Path(stack) == path
      modifies this`exrsets, this`inrsets
      ensures Apart() && Sets() <= old(Sets())
      ensures Visited(g, backprop, old(State()), State(), path, pkg, true)
      ensures Visits(g, order, backprop, old(Now(stack, false)), Now(stack, false), pkg)
    {
      hide Visited, Inv, Merged;
      ghost var s, c := State(), Now(stack, false);
      GreyHasSets(g, backprop, s, path);
      ghost var at := ShareCycle(pkg, path);
      assert SharesAt(c, Now(stack, false), pkg, at);
      MergedRefs(s.ex, path, at);
      MergedRefs(s.ins, path, at);
      BackEdge(g, backprop, s, path, at);
    }

    /** The package was explored before and has sets: everything on the path imports them. */
    method ReuseSets(pkg: Package, path: seq<Package>, ghost stack: seq<Frame>)
      requires Valid(path) && Done(State(), pkg) && path != [] && Edge(g, path[|path| - 1], pkg) && pkg in exrsets && Path(stack) == path
      modifies Sets()
      ensures Visited(g, backprop, old(State()), State(), path, pkg, true)
      ensures Visits(g, order, backprop, old(Now(stack, false)), Now(stack, false), pkg)
    {
      hide Visited, Common, TableOk, Pushed;
      ghost var s := State();
      PushUp(path, exrsets[pkg].elems, inrsets[pkg].elems);
      BlackGood(g, backprop, s, path, pkg);
    }

    /** The package was explored before and has no sets: bubble its poison up. */
    method BubblePoison(pkg: Package, path: seq<Package>, ghost stack: seq<Frame>)
      requires Valid(path) && Done(State(), pkg) && path != [] && Edge(g, path[|path| - 1], pkg) && pkg !in exrsets && backprop && Path(stack) == path
      modifies this`exrsets, this`inrsets, this`errmap
      ensures Apart() && Sets() <= old(Sets())
      ensures Visited(g, backprop, old(State()), State(), path, pkg, false)
      ensures Visits(g, order, backprop, old(Now(stack, false)), Now(stack, true), pkg)
    {
      hide Visited, TableOk, Noted, Chain, BadChain, Genuine, ErrOf, Closed;
      ghost var s := State();
      assert Accounted(g, true, s, pkg);
      ghost var tail, err := PoisonBlack(path, pkg);
      hide Inv, Dropped, TableOf;
      PoisonedByBlack(g, s, State(), path, pkg, tail, err);
    }

    method VisitBlack(pkg: Package, path: seq<Package>, ghost stack: seq<Frame>) returns (clean: bool)
      requires Valid(path) && Done(State(), pkg) && path != [] && Edge(g, path[|path| - 1], pkg) && Path(stack) == path
      modifies this`exrsets, this`inrsets, this`errmap, Sets()
      ensures Apart() && Sets() <= old(Sets())
      ensures Visited(g, backprop, old(State()), State(), path, pkg, clean)
      ensures Visits(g, order, backprop, old(Now(stack, false)), Now(stack, !clean && backprop), pkg)
    {
      hide Visited, Inv;
      if pkg !in exrsets {
        if backprop {
          BubblePoison(pkg, path, stack);
        } else {
          BlackBad(g, State(), path, pkg);
        }
        return false;
      }
      ReuseSets(pkg, path, stack);
      return true;
    }

    /** The package does not exist or has an error: poison self and all parents. */
    method VisitBad(pkg: Package, path: seq<Package>, ghost stack: seq<Frame>)
      requires Valid(path) && ColorOf(colors, pkg) == White && !Ok(g, pkg) && pkg in Nodes(g)
      requires path != [] ==> Edge(g, path[|path| - 1], pkg)
      requires Path(stack) == path
      modifies this
      ensures Apart() && Sets() <= old(Sets())
      ensures Visited(g, backprop, old(State()), State(), path, pkg, false)
      ensures Visits(g, order, backprop, old(Now(stack, false)), Now(stack, backprop), pkg)
    {
      hide Visited, Inv;
      if backprop {
        PoisonNew(pkg, path, stack);
      } else {
        ghost var s := State();
        assert s.colors[pkg := Grey][pkg := Black] == s.colors[pkg := Black];
        colors := colors[pkg := Grey];
        if pkg in g {
          errmap := errmap[pkg := ProblemImportError(pkg, [], OwnErr(g[pkg].err.value))];
        }
        colors := colors[pkg := Black];
        assert State() == ReachState.Recorded(g, s, pkg);
        RecordedBad(g, s, path, pkg);
      }
    }

    method PoisonNew(pkg: Package, path: seq<Package>, ghost stack: seq<Frame>)
      requires Valid(path) && ColorOf(colors, pkg) == White && !Ok(g, pkg) && pkg in Nodes(g) && backprop
      requires path != [] ==> Edge(g, path[|path| - 1], pkg)
      requires Path(stack) == path
      modifies this
      ensures Apart() && Sets() <= old(Sets())
      ensures Visited(g, true, old(State()), State(), path, pkg, false)
      ensures Visits(g, order, true, old(Now(stack, false)), Now(stack, true), pkg)
    {
      hide Visited, Inv, Dropped, Explained;
      ghost var s := State();
      assert s.colors[pkg := Grey][pkg := Black] == s.colors[pkg := Black];
      colors := colors[pkg := Grey];
      ghost var mid := StartPoison(pkg, path, s);
      ghost var t := State();
      colors := colors[pkg := Black];
      assert State() == t.(colors := s.colors[pkg := Black]);
      PoisonedByWhite(g, s, State(), path, pkg, mid);
    }

    method StartPoison(pkg: Package, path: seq<Package>, ghost s: St) returns (ghost mid: Problems)
      requires Apart() && Inv(g, true, s, path) && ColorOf(s.colors, pkg) == White && !Ok(g, pkg) && pkg in Nodes(g)
      requires State() == s.(colors := s.colors[pkg := Grey])
      modifies this`exrsets, this`inrsets, this`errmap
      ensures Apart() && Sets() <= old(Sets())
      ensures TableOf(exrsets) == Dropped(s.ex, path + [pkg]) && TableOf(inrsets) == Dropped(s.ins, path + [pkg])
      ensures Explained(s.errs, mid, path, [pkg], TailErr(g, pkg))
      ensures errmap == if pkg in g then mid[pkg := ProblemImportError(pkg, [], TailErr(g, pkg))] else mid
    {
      BadOnPath(g, s, path, pkg);
      hide Inv, Noted, Dropped, TableOf, Explained;
      PoisonWhite(path + [pkg]);
      mid := NotedTail(g, s.errs, errmap, path, pkg, TailErr(g, pkg));
    }

    /** First visit to an error-free package: it gets sets of its own, and its imports go into
        the sets of all its parents. */
    method Enter(pkg: Package, path: seq<Package>, ghost stack: seq<Frame>)
      requires Valid(path) && ColorOf(colors, pkg) == White && Ok(g, pkg)
      requires path != [] ==> Edge(g, path[|path| - 1], pkg)
      requires Path(stack) == path
      modifies this, Sets()
      ensures Apart() && forall o <- Sets() :: o in old(Sets()) || fresh(o)
      ensures Inv(g, backprop, State(), path + [pkg]) && Extends(g, old(State()), State())
      ensures Visits(g, order, backprop, old(Now(stack, false)), Now(stack + [Frame(pkg, order.ins(pkg))], false), pkg)
    {
      hide Inv, Extends, Pushed, Opened, Visits;
      ghost var s, c := State(), Now(stack, false);
      colors := colors[pkg := Grey];
      ghost var rs, irs := OpenSets(pkg);
      EnterKeeps(g, backprop, s, path, pkg, rs, irs);
      PushUp(path + [pkg], g[pkg].ex, g[pkg].ins);
      EntersIs(g, order, backprop, c, Now(stack + [Frame(pkg, order.ins(pkg))], false), pkg, rs);
    }

    method OpenSets(pkg: Package) returns (ghost o: ReachSet, ghost i: ReachSet)
      requires Apart() && pkg in g
      modifies this`exrsets, this`inrsets
      ensures fresh(o) && fresh(i) && Apart() && Sets() <= old(Sets()) + {o, i}
      ensures TableOf(exrsets) == Opened(old(TableOf(exrsets)), pkg, o, g[pkg].ex)
      ensures TableOf(inrsets) == Opened(old(TableOf(inrsets)), pkg, i, g[pkg].ins)
    {
      hide TableOf, Opened;
      exrsets, o := OpenSet(exrsets, pkg, g[pkg].ex);
      inrsets, i := OpenSet(inrsets, pkg, g[pkg].ins);
    }

    /** Explores pkg, to which path leads.  False means the path is poisoned. */
    method Dfe(pkg: Package, path: seq<Package>, ghost stack: seq<Frame>, ghost cs: seq<Conf>) returns (clean: bool, ghost ds: seq<Conf>)
      requires Valid(path) && pkg in Nodes(g)
      requires if path == [] then ColorOf(colors, pkg) == White else Edge(g, path[|path| - 1], pkg)
      requires Path(stack) == path && Ready(g, order, backprop, cs, Now(stack, false), pkg)
      modifies this, Sets()
      ensures Apart() && forall o <- Sets() :: o in old(Sets()) || fresh(o)
      ensures Visited(g, backprop, old(State()), State(), path, pkg, clean)
      ensures Run(g, order, backprop, ds) && Last(ds) == Now(stack, !clean && backprop)
      decreases |Whites(g, colors)|, 1
    {
      hide Inv, Visited, Visits, Ready, Run, TableOf;
      ghost var c := Now(stack, false);
      match ColorOf(colors, pkg) {
        case White =>
          if !Ok(g, pkg) {
            VisitBad(pkg, path, stack);
            ds := Visiting(g, order, backprop, cs, c, Now(stack, backprop), pkg);
            return false, ds;
          }
          clean, ds := Explore(pkg, path, stack, cs);
        case Grey =>
          GreyOnPath(g, backprop, State(), path, pkg);
          VisitGrey(pkg, path, stack);
          ds := Visiting(g, order, backprop, cs, c, Now(stack, false), pkg);
          return true, ds;
        case Black =>
          clean := VisitBlack(pkg, path, stack);
          ds := Visiting(g, order, backprop, cs, c, Now(stack, !clean && backprop), pkg);
      }
    }

    /** The outer loop comes to pkg. */
    method DfeFrom(pkg: Package, ghost cs: seq<Conf>) returns (clean: bool, ghost ds: seq<Conf>)
      requires Valid([]) && pkg in Nodes(g) && FirstOpen(colors, order.roots) == Some(pkg) && ColorOf(colors, pkg) == White
      requires Run(g, order, backprop, cs) && Last(cs) == Now([], false)
      modifies this, Sets()
      ensures Apart() && forall o <- Sets() :: o in old(Sets()) || fresh(o)
      ensures Visited(g, backprop, old(State()), State(), [], pkg, clean)
      ensures Run(g, order, backprop, ds) && Last(ds) == Now([], false)
    {
      hide Inv, Visited, Run, Ready, TableOf;
      ReadyForRoot(g, order, backprop, cs, pkg);
      clean, ds := Dfe(pkg, [], [], cs);
      ds := Recovering(g, order, backprop, ds);
    }

    /** The outer loop. */
    method DfeAll(ghost cs: seq<Conf>) returns (ghost ds: seq<Conf>)
      requires Valid([]) && Run(g, order, backprop, cs) && Last(cs) == Now([], false)
      modifies this, Sets()
      ensures Valid([]) && DoneAll(State(), order.roots)
      ensures Run(g, order, backprop, ds) && Last(ds) == Now([], false) && Finished(order, Last(ds))
    {
      hide Inv, Run, Visited, TableOf, DoneAll;
      var roots := order.roots;
      ds := cs;
      NoneDone(State());
      for i := 0 to |roots|
        invariant Valid([]) && DoneAll(State(), roots[..i])
        invariant forall o <- Sets() :: o in old(Sets()) || fresh(o)
        invariant Run(g, order, backprop, ds) && Last(ds) == Now([], false)
      {
        ghost var s := State();
        if ColorOf(colors, roots[i]) != Black {
          InRoots(g, order, i);
          NotGrey(g, backprop, s, roots[i]);
          OpenIsNext(s, roots, i);
          var clean;
          clean, ds := DfeFrom(roots[i], ds);
          RootVisited(g, backprop, s, State(), roots, i, clean);
        } else {
          OneMoreDone(s, roots, i);
        }
      }
      assert roots[..|roots|] == roots;
      OpenIsNext(State(), roots, |roots|);
    }

    method Explore(pkg: Package, path: seq<Package>, ghost stack: seq<Frame>, ghost cs: seq<Conf>) returns (clean: bool, ghost ds: seq<Conf>)
      requires Valid(path) && ColorOf(colors, pkg) == White && Ok(g, pkg)
      requires path != [] ==> Edge(g, path[|path| - 1], pkg)
      requires Path(stack) == path && Ready(g, order, backprop, cs, Now(stack, false), pkg)
      modifies this, Sets()
      ensures Apart() && forall o <- Sets() :: o in old(Sets()) || fresh(o)
      ensures Visited(g, backprop, old(State()), State(), path, pkg, clean)
      ensures Run(g, order, backprop, ds) && Last(ds) == Now(stack, !clean && backprop)
      decreases |Whites(g, colors)|, 0, 1
    {
      hide Inv, Visited, Extends, AllSettled, KeptColored, TableOf, Whites, Acyclic, Finish, Visits, Ready, Run;
      ghost var s, c := State(), Now(stack, false);
      InvColors(g, backprop, s, path);
      Enter(pkg, path, stack);
      var todo := order.ins(pkg);
      ds := Visiting(g, order, backprop, cs, c, Now(stack + [Frame(pkg, todo)], false), pkg);
      NoneSettled(g, backprop, State(), pkg);
      for i := 0 to |todo|
        invariant Apart() && forall o <- Sets() :: o in old(Sets()) || fresh(o)
        invariant Inv(g, backprop, State(), path + [pkg]) && Extends(g, s, State())
        invariant AllSettled(g, backprop, State(), pkg, todo[..i])
        invariant Run(g, order, backprop, ds) && Last(ds) == Now(stack + [Frame(pkg, todo[i..])], false)
      {
        clean, ds := ExploreNext(pkg, path, todo, i, s, stack, ds);
        if !clean && backprop {
          ds := Leaving(g, order, backprop, ds, stack, Frame(pkg, todo[i + 1..]));
          Blacken(pkg);
          return false, ds;
        }
      }
      assert todo[..|todo|] == todo && todo[|todo|..] == [];
      FinishImports(g, backprop, s, State(), path, pkg, todo);
      ds := Leaving(g, order, backprop, ds, stack, Frame(pkg, []));
      Blacken(pkg);
      return true, ds;
    }

    method Blacken(pkg: Package)
      modifies this`colors
      ensures State() == Finish(old(State()), pkg) && (old(Apart()) ==> Apart()) && Sets() == old(Sets())
      ensures colors == old(colors)[pkg := Black]
    {
      colors := colors[pkg := Black];
    }

    /** One import of pkg. */
    method ExploreNext(pkg: Package, path: seq<Package>, todo: seq<Package>, i: nat, ghost s: St, ghost stack: seq<Frame>, ghost cs: seq<Conf>)
      returns (clean: bool, ghost ds: seq<Conf>)
      requires pkg in g && Listing(todo, g[pkg].ins) && i < |todo|
      requires ColorOf(s.colors, pkg) == White && KeptColored(s)
      requires Valid(path + [pkg]) && Extends(g, s, State()) && AllSettled(g, backprop, State(), pkg, todo[..i])
      requires Path(stack) == path && Run(g, order, backprop, cs) && Last(cs) == Now(stack + [Frame(pkg, todo[i..])], false)
      modifies this, Sets()
      ensures Apart() && forall o <- Sets() :: o in old(Sets()) || fresh(o)
      ensures if clean || !backprop
              then Inv(g, backprop, State(), path + [pkg]) && Extends(g, s, State()) && AllSettled(g, backprop, State(), pkg, todo[..i + 1])
              else Visited(g, true, s, Finish(State(), pkg), path, pkg, false)
      ensures Run(g, order, backprop, ds) && Last(ds) == Now(stack + [Frame(pkg, todo[i + 1..])], !clean && backprop)
      decreases |Whites(g, s.colors)|, 0, 0
    {
      hide Inv, Visited, Extends, AllSettled, KeptColored, TableOf, Acyclic, Run, Ready;
      ghost var t := State();
      NextImport(g, backprop, s, t, path, pkg, todo, i);
      ghost var f := Frame(pkg, todo[i..]);
      assert f.todo[1..] == todo[i + 1..];
      ReadyForImport(g, order, backprop, cs, stack, f);
      assert Path(stack + [Frame(pkg, todo[i + 1..])]) == path + [pkg];
      clean, ds := Dfe(todo[i], path + [pkg], stack + [Frame(pkg, todo[i + 1..])], cs);
      if !clean && backprop {
        AbandonImports(g, s, t, State(), path, pkg, todo[i]);
      } else {
        OneMoreSettled(g, backprop, s, t, State(), path, pkg, todo, i, clean);
      }
    }

    method ListExternals() returns (rm: ReachMap)
      ensures rm.Keys == exrsets.Keys && forall p <- rm :: rm[p] == Bridge.Reach({}, exrsets[p].elems)
    {
      rm := map[];
      var todo := exrsets.Keys;
      while todo != {}
        invariant todo <= exrsets.Keys && rm.Keys == exrsets.Keys - todo
        invariant forall p <- rm :: rm[p] == Bridge.Reach({}, exrsets[p].elems)
        decreases |todo|
      {
        var pkg :| pkg in todo;
        todo := todo - {pkg};
        rm := rm[pkg := Bridge.Reach({}, exrsets[pkg].elems)];
      }
    }

    method ListInternals(listed: ReachMap) returns (rm: ReachMap)
      requires listed.Keys == inrsets.Keys && forall p <- listed :: listed[p].internals == {}
      ensures rm.Keys == listed.Keys && forall p <- rm :: rm[p] == Bridge.Reach(inrsets[p].elems, listed[p].externals)
    {
      rm := listed;
      var todo := inrsets.Keys;
      while todo != {}
        invariant todo <= inrsets.Keys && rm.Keys == listed.Keys
        invariant forall p <- rm :: rm[p] == if p in todo then listed[p] else Bridge.Reach(inrsets[p].elems, listed[p].externals)
        decreases |todo|
      {
        var pkg :| pkg in todo;
        todo := todo - {pkg};
        if |inrsets[pkg].elems| > 0 {
          rm := rm[pkg := Bridge.Reach(inrsets[pkg].elems, rm[pkg].externals)];
        }
      }
    }

    /** Turns the sets into a reach map; empty internal lists are left out. */
    method Flatten() returns (rm: ReachMap)
      requires exrsets.Keys == inrsets.Keys
      ensures rm == MapOf(State())
    {
      var listed := ListExternals();
      rm := ListInternals(listed);
    }
  }

  /** order stands for how the loops over maps happen to go; cs is how the exploration went. */
  method WmToReach(g: Graph, backprop: bool, order: Order) returns (rm: ReachMap, errmap: Problems, ghost cs: seq<Conf>)
    requires Orders(g, order)
    ensures Reached(g, backprop, rm, errmap)
    ensures Run(g, order, backprop, cs) && Finished(order, Last(cs)) && rm.Keys == Last(cs).ex.vals.Keys
    ensures forall p <- rm :: rm[p].externals == Last(cs).ex.vals[p]
  {
    var x := new Explorer(g, backprop, order);
    EmptyOk(g, backprop, x.State());
    hide Inv, Reached, Run;
    cs := Beginning(g, order, backprop);
    cs := x.DfeAll(cs);
    AllExplored(g, backprop, x.State(), order.roots);
    rm := x.Flatten();
    errmap := x.errmap;
    FinalReached(g, backprop, x.State());
  }

  lemma EntersIs(g: Graph, o: Order, bp: bool, c: Conf, d: Conf, p: Package, r: ReachSet)
    requires ColorOf(c.colors, p) == White && Ok(g, p) && r !in c.ex.refs.Values && Consistent(Opened(c.ex, p, r, g[p].ex))
    requires d == Conf(c.colors[p := Grey], Pushed(Opened(c.ex, p, r, g[p].ex), Path(c.stack) + [p], g[p].ex), c.stack + [Frame(p, o.ins(p))], false)
    ensures Visits(g, o, bp, c, d, p)
  {
    assert d.ex.refs[p] == r;
    hide Opened, Pushed, Consistent;
  }

  lemma NoneDone(s: St)
    ensures DoneAll(s, [])
  {
  }

  lemma OneMoreDone(s: St, roots: seq<Package>, i: nat)
    requires i < |roots| && DoneAll(s, roots[..i]) && ColorOf(s.colors, roots[i]) == Black
    ensures DoneAll(s, roots[..i + 1])
  {
    assert roots[..i + 1] == roots[..i] + [roots[i]];
  }

  lemma InRoots(g: Graph, o: Order, i: nat)
    requires Orders(g, o) && i < |o.roots|
    ensures o.roots[i] in g && o.roots[i] in Nodes(g)
  {
    assert o.roots[i] in Elems(o.roots);
  }

  lemma OpenIsNext(s: St, roots: seq<Package>, i: nat)
    requires i <= |roots| && DoneAll(s, roots[..i]) && (i < |roots| ==> ColorOf(s.colors, roots[i]) != Black)
    ensures FirstOpen(s.colors, roots) == if i < |roots| then Some(roots[i]) else None
  {
    forall k | 0 <= k < i ensures ColorOf(s.colors, roots[k]) == Black { assert roots[..i][k] == roots[k] && roots[k] in roots[..i]; }
    OpenAt(s.colors, roots, i);
  }

  // ------------------------------------------------------------------ what a visit achieves

  /** pkg was visited from the end of the path, s becoming t. */
  ghost predicate Visited(g: Graph, bp: bool, s: St, t: St, path: seq<Package>, pkg: Package, clean: bool) {
    && (if clean || !bp then Inv(g, bp, t, path) else Poisoned(g, bp, t, path))
    && Extends(g, s, t) && (pkg in path || Done(t, pkg))
    && ((clean || !bp) && path != [] && Acyclic(g) ==> Settled(g, bp, t, path[|path| - 1], pkg))
  }

  lemma GreyHasSets(g: Graph, bp: bool, s: St, path: seq<Package>)
    requires Inv(g, bp, s, path)
    ensures NoDup(path) && forall p <- path :: p in s.ex.refs && p in s.ins.refs
  {
  }

  lemma MergedRefs(t: Table, path: seq<Package>, at: nat)
    requires Consistent(t) && at < |path| && path[at] in t.refs
    ensures Merged(t, path, at).refs.Values <= t.refs.Values
  {
  }

  lemma BackEdge(g: Graph, bp: bool, s: St, path: seq<Package>, at: nat)
    requires Inv(g, bp, s, path) && at < |path| && Edge(g, path[|path| - 1], path[at])
    ensures Consistent(s.ex) && Consistent(s.ins) && path[at] in s.ex.refs && path[at] in s.ins.refs
    ensures Visited(g, bp, s, s.(ex := Merged(s.ex, path, at), ins := Merged(s.ins, path, at)), path, path[at], true)
  {
    assert Chain(g, path) && path[at] in s.ex.vals && path[at] in s.ins.vals;
    hide TableOk, Chain, Merged, Extends, Common;
    BackEdgeKeeps(g, bp, s, path, at);
    CycleReaches(g, path, at, |path| - 1);
  }

  lemma BlackGood(g: Graph, bp: bool, s: St, path: seq<Package>, p: Package)
    requires Inv(g, bp, s, path) && Done(s, p) && p in s.ex.vals && path != [] && Edge(g, path[|path| - 1], p)
    ensures p in s.ins.vals && Consistent(s.ex) && Consistent(s.ins)
    ensures Visited(g, bp, s, s.(ex := Pushed(s.ex, path, s.ex.vals[p]), ins := Pushed(s.ins, path, s.ins.vals[p])), path, p, true)
  {
    assert Kept(s, p);
    hide TableOk, Chain, Extends, Common, Pushed;
    ReuseKeeps(g, bp, s, path, p);
  }

  lemma BlackBad(g: Graph, s: St, path: seq<Package>, p: Package)
    requires Inv(g, false, s, path) && Done(s, p) && p !in s.ex.vals
    ensures Visited(g, false, s, s, path, p, false)
  {
    assert Accounted(g, false, s, p);
    ExtendsSelf(g, s);
  }

  lemma OpenTable(rsets: map<Package, ReachSet>, p: Package, o: ReachSet)
    ensures TableOf(rsets[p := o]) == Opened(TableOf(rsets), p, o, o.elems)
    ensures rsets[p := o].Values <= rsets.Values + {o}
  {
  }

  lemma FewerSets(rsets: map<Package, ReachSet>, ps: set<Package>)
    ensures (rsets - ps).Values <= rsets.Values
  {
  }

  lemma DropTable(rsets: map<Package, ReachSet>, path: seq<Package>)
    ensures TableOf(rsets - Elems(path)) == Dropped(TableOf(rsets), path)
  {
  }

  lemma PoisonedByBlack(g: Graph, s: St, t: St, path: seq<Package>, p: Package, tail: seq<Package>, err: ImportErr)
    requires Inv(g, true, s, path) && Done(s, p) && path != [] && Edge(g, path[|path| - 1], p)
    requires t.colors == s.colors && t.ex == Dropped(s.ex, path) && t.ins == Dropped(s.ins, path)
    requires tail != [] && tail[0] == p && BadChain(g, tail) && ErrOf(g, tail[|tail| - 1], err)
    requires Noted(g, s.errs, t.errs, path, path + tail, err, |path|)
    ensures Visited(g, true, s, t, path, p, false)
  {
    assert forall q <- path :: Ok(g, q) by { assert Chain(g, path); }
    hide TableOk, Chain, BadChain, Noted, Extends, Dropped, ErrOf;
    NotedExplains(g, s.errs, t.errs, path, tail, err);
    PoisonKeeps(g, s, t, path, tail, err);
  }

  lemma PoisonedByWhite(g: Graph, s: St, t: St, path: seq<Package>, p: Package, mid: Problems)
    requires Inv(g, true, s, path) && ColorOf(s.colors, p) == White && !Ok(g, p) && p in Nodes(g)
    requires path != [] ==> Edge(g, path[|path| - 1], p)
    requires t.colors == s.colors[p := Black] && t.ex == Dropped(s.ex, path + [p]) && t.ins == Dropped(s.ins, path + [p])
    requires Explained(s.errs, mid, path, [p], TailErr(g, p))
    requires t.errs == if p in g then mid[p := ProblemImportError(p, [], TailErr(g, p))] else mid
    ensures Visited(g, true, s, t, path, p, false)
  {
    var m := St(s.colors, Dropped(s.ex, path), Dropped(s.ins, path), mid);
    assert ColorFits(s, path, p);
    NothingToDrop(s.ex, path, p);
    NothingToDrop(s.ins, path, p);
    MissingIsBad(g, p);
    PoisonKeeps(g, s, m, path, [p], TailErr(g, p));
    RecordKeeps(g, true, m, path, p);
    assert t == Recorded(g, m, p);
    assert forall q :: Kept(s, q) ==> ColorFits(s, path, q);
    hide Inv, Extends, Poisoned;
    ExtendsTwice(g, s, m, t);
  }

  lemma NothingToDrop(t: Table, path: seq<Package>, p: Package)
    requires p !in t.refs && p !in t.vals
    ensures Dropped(t, path + [p]) == Dropped(t, path)
  {
    assert Elems(path + [p]) == Elems(path) + {p};
  }

  lemma RecordedBad(g: Graph, s: St, path: seq<Package>, p: Package)
    requires Inv(g, false, s, path) && ColorOf(s.colors, p) == White && !Ok(g, p) && p in Nodes(g)
    ensures Visited(g, false, s, Recorded(g, s, p), path, p, false)
  {
    hide Inv, Extends;
    RecordKeeps(g, false, s, path, p);
  }

  lemma BadOnPath(g: Graph, s: St, path: seq<Package>, p: Package)
    requires Inv(g, true, s, path) && ColorOf(s.colors, p) == White
    ensures NoDup(path + [p]) && p !in s.errs && p !in path && p !in s.ex.refs && forall q <- path :: q in g
  {
    assert ColorFits(s, path, p) && Accounted(g, true, s, p);
    if path != [] { assert forall q <- path :: Ok(g, q); }
  }

  function TailErr(g: Graph, p: Package): ImportErr
    requires !Ok(g, p)
  {
    if p in g then OwnErr(g[p].err.value) else NoPackage(p)
  }

  /** The packages among the first k of the path that get an explanation. */
  ghost function Written(g: Graph, path: seq<Package>, k: nat): set<Package>
    requires k <= |path|
  {
    set j | 0 <= j < k && (j < |path| - 1 || path[j] in g) :: path[j]
  }

  /** Position k of the path is recorded: all but a last package that does not exist. */
  predicate Recordable(g: Graph, path: seq<Package>, k: nat)
    requires k < |path|
  {
    k < |path| - 1 || path[k] in g
  }

  /** The first k packages of the path are explained, each by the part of cause after it. */
  ghost predicate Noted(g: Graph, before: Problems, after: Problems, path: seq<Package>, cause: seq<Package>, err: ImportErr, k: nat)
    requires k <= |path|
  {
    && after.Keys == before.Keys + Written(g, path, k)
    && (forall q :: q in before && q !in path[..k] ==> after[q] == before[q])
    && forall j :: 0 <= j < k && Recordable(g, path, j) ==>
         path[j] in after && after[path[j]] == ProblemImportError(path[j], After(cause, j + 1), err)
  }

  lemma NoteNone(g: Graph, before: Problems, path: seq<Package>, cause: seq<Package>, err: ImportErr)
    ensures Noted(g, before, before, path, cause, err, 0)
  {
    assert Written(g, path, 0) == {};
  }

  lemma WrittenPush(g: Graph, path: seq<Package>, k: nat)
    requires k < |path|
    ensures Written(g, path, k + 1) == Written(g, path, k) + if Recordable(g, path, k) then {path[k]} else {}
  {
  }

  lemma NoteOne(g: Graph, before: Problems, after: Problems, path: seq<Package>, cause: seq<Package>, err: ImportErr, k: nat)
    requires k < |path| && NoDup(path) && Noted(g, before, after, path, cause, err, k)
    ensures Noted(g, before,
                     if Recordable(g, path, k) then after[path[k] := ProblemImportError(path[k], After(cause, k + 1), err)] else after,
                     path, cause, err, k + 1)
  {
    hide Written, After;
    WrittenPush(g, path, k);
    assert path[..k + 1] == path[..k] + [path[k]];
    assert forall j :: 0 <= j < k ==> path[j] != path[k];
  }

  /** The references after k turns of the cycle loop. */
  ghost function Redirected(rsets: map<Package, ReachSet>, path: seq<Package>, at: nat, k: nat): map<Package, ReachSet>
    requires at < |path| && k <= |path| && path[at] in rsets
  {
    if k <= at + 1 then rsets
    else var before := Redirected(rsets, path, at, k - 1); before[path[k - 1] := rsets[path[at]]]
  }

  lemma RedirectNone(rsets: map<Package, ReachSet>, path: seq<Package>, at: nat)
    requires at < |path| && path[at] in rsets
    ensures Redirected(rsets, path, at, 0) == rsets
  {
  }

  lemma RedirectOne(rsets: map<Package, ReachSet>, path: seq<Package>, at: nat, k: nat)
    requires at < |path| && k < |path| && (forall q <- path :: q in rsets) && NoDup(path)
    ensures var r := Redirected(rsets, path, at, k);
            && path[at] in r && r[path[at]] == rsets[path[at]]
            && Redirected(rsets, path, at, k + 1) == if k <= at then r else r[path[k] := r[path[at]]]
  {
    RedirectedIs(rsets, path, at, k, path[at]);
  }

  lemma {:induction false} RedirectedIs(rsets: map<Package, ReachSet>, path: seq<Package>, at: nat, k: nat, p: Package)
    requires at < |path| && k <= |path| && (forall q <- path :: q in rsets)
    ensures var r := Redirected(rsets, path, at, k);
            r.Keys == rsets.Keys && (p in r ==> r[p] == if at < k && p in path[at + 1..k] then rsets[path[at]] else rsets[p])
  {
    if k > at + 1 {
      RedirectedIs(rsets, path, at, k - 1, p);
      assert path[at + 1..k] == path[at + 1..k - 1] + [path[k - 1]];
    }
  }

  lemma RedirectedAll(rsets: map<Package, ReachSet>, path: seq<Package>, at: nat)
    requires at < |path| && (forall q <- path :: q in rsets)
    ensures TableOf(Redirected(rsets, path, at, |path|)) == Merged(TableOf(rsets), path, at)
  {
    forall p { RedirectedIs(rsets, path, at, |path|, p); }
    assert path[at + 1..|path|] == path[at + 1..];
  }

  lemma NotedExplains(g: Graph, before: Problems, after: Problems, path: seq<Package>, tail: seq<Package>, err: ImportErr)
    requires Noted(g, before, after, path, path + tail, err, |path|) && tail != [] && forall p <- path :: p in g
    ensures Explained(before, after, path, tail, err)
  {
    assert path[..|path|] == path;
    forall p | p in path ensures p in Written(g, path, |path|) {
      var k :| 0 <= k < |path| && path[k] == p;
      assert Recordable(g, path, k);
    }
    assert Written(g, path, |path|) == Elems(path);
    assert forall k :: 0 <= k < |path| ==> Recordable(g, path, k);
  }

  lemma NotedPath(g: Graph, before: Problems, after: Problems, path: seq<Package>, p: Package, err: ImportErr, k: nat)
    requires Noted(g, before, after, path + [p], path + [p], err, |path| + 1) && k <= |path|
    ensures k < |path| ==> path[k] in after && after[path[k]] == ProblemImportError(path[k], (path + [p])[k + 1..], err)
    ensures k == |path| && p in g ==> p in after && after[p] == ProblemImportError(p, [], err)
  {
    var all := path + [p];
    assert all[|path|] == p && (k < |path| ==> all[k] == path[k]);
    if k < |path| || p in g {
      NotedAt(g, before, after, all, all, err, |all|, k);
    }
  }

  lemma NotedKeys(g: Graph, before: Problems, after: Problems, path: seq<Package>, p: Package, err: ImportErr)
    requires Noted(g, before, after, path + [p], path + [p], err, |path| + 1) && forall q <- path :: q in g
    ensures after.Keys == before.Keys + Elems(path) + if p in g then {p} else {}
    ensures forall q :: q in before && q !in path && q != p ==> after[q] == before[q]
  {
    WrittenAll(g, path, p);
    assert (path + [p])[..|path| + 1] == path + [p];
  }

  /** On a new poison path the last package is noted only if it exists. */
  lemma NotedTail(g: Graph, before: Problems, after: Problems, path: seq<Package>, p: Package, err: ImportErr) returns (mid: Problems)
    requires Noted(g, before, after, path + [p], path + [p], err, |path| + 1)
    requires p !in before && p !in path && forall q <- path :: q in g
    ensures Explained(before, mid, path, [p], err)
    ensures after == if p in g then mid[p := ProblemImportError(p, [], err)] else mid
  {
    hide Noted;
    mid := after - {p};
    NotedKeys(g, before, after, path, p, err);
    NotedPath(g, before, after, path, p, err, |path|);
    assert p !in Elems(path);
    forall k | 0 <= k < |path| ensures path[k] in mid && mid[path[k]] == ProblemImportError(path[k], (path + [p])[k + 1..], err) {
      NotedPath(g, before, after, path, p, err, k);
    }
    assert mid.Keys == before.Keys + Elems(path);
  }

  lemma NotedAt(g: Graph, before: Problems, after: Problems, path: seq<Package>, cause: seq<Package>, err: ImportErr, n: nat, k: nat)
    requires n <= |path| && Noted(g, before, after, path, cause, err, n) && k < n && Recordable(g, path, k)
    ensures path[k] in after && after[path[k]] == ProblemImportError(path[k], After(cause, k + 1), err)
  {
  }

  lemma WrittenAll(g: Graph, path: seq<Package>, p: Package)
    requires forall q <- path :: q in g
    ensures Written(g, path + [p], |path| + 1) == Elems(path) + if p in g then {p} else {}
  {
    var all := path + [p];
    assert all[|path|] == p;
    forall q | q in path ensures q in Written(g, all, |all|) {
      var k :| 0 <= k < |path| && path[k] == q;
      assert all[k] == q;
    }
  }

  // ------------------------------------------------------------------ the loop over the imports

  function Whites(g: Graph, colors: map<Package, Color>): set<Package> {
    set p | p in Nodes(g) && ColorOf(colors, p) == White
  }

  ghost predicate AllSettled(g: Graph, bp: bool, s: St, p: Package, cs: seq<Package>) {
    Acyclic(g) ==> forall c <- cs :: Settled(g, bp, s, p, c)
  }

  lemma NoneSettled(g: Graph, bp: bool, s: St, p: Package)
    ensures AllSettled(g, bp, s, p, [])
  {
  }

  lemma GreyOnPath(g: Graph, bp: bool, s: St, path: seq<Package>, p: Package)
    requires Inv(g, bp, s, path) && ColorOf(s.colors, p) == Grey
    ensures p in path
  {
    assert ColorFits(s, path, p);
  }

  lemma FewerWhites(g: Graph, s: St, t: St, p: Package)
    requires Extends(g, s, t) && p in Nodes(g) && ColorOf(s.colors, p) == White && ColorOf(t.colors, p) != White
    ensures |Whites(g, t.colors)| < |Whites(g, s.colors)|
  {
    var a, b := Whites(g, t.colors), Whites(g, s.colors);
    forall q | q in a ensures q in b { assert Later(g, s, t, q); }
    SubsetCard(a, b);
    assert p in b && p !in a;
  }

  lemma NextImport(g: Graph, bp: bool, s: St, t: St, path: seq<Package>, p: Package, order: seq<Package>, i: nat)
    requires Inv(g, bp, t, path + [p]) && Extends(g, s, t) && ColorOf(s.colors, p) == White && p in g
    requires Listing(order, g[p].ins) && i < |order|
    ensures order[i] in Nodes(g) && Edge(g, (path + [p])[|path|], order[i])
    ensures |Whites(g, t.colors)| < |Whites(g, s.colors)|
  {
    assert order[i] in Elems(order);
    assert (path + [p])[|path|] == p && p in path + [p];
    assert ColorFits(t, path + [p], p);
    hide Inv, Extends;
    FewerWhites(g, s, t, p);
  }

  lemma SettledLater(g: Graph, bp: bool, s: St, t: St, p: Package, c: Package)
    requires Acyclic(g) && Settled(g, bp, s, p, c) && Extends(g, s, t) && Kept(t, p)
    ensures Settled(g, bp, t, p, c)
  {
    assert Later(g, s, t, p) && Later(g, s, t, c);
  }

  lemma LastIsKept(g: Graph, bp: bool, s: St, path: seq<Package>, p: Package)
    requires Inv(g, bp, s, path + [p])
    ensures Kept(s, p)
  {
    assert (path + [p])[|path|] == p;
  }

  ghost predicate KeptColored(s: St) {
    forall q :: Kept(s, q) ==> ColorOf(s.colors, q) != White
  }

  lemma InvColors(g: Graph, bp: bool, s: St, path: seq<Package>)
    requires Inv(g, bp, s, path)
    ensures KeptColored(s)
  {
    forall q | Kept(s, q) ensures ColorOf(s.colors, q) != White { assert ColorFits(s, path, q); }
  }

  lemma OneMoreSettled(g: Graph, bp: bool, s: St, t: St, u: St, path: seq<Package>, p: Package, order: seq<Package>, i: nat, clean: bool)
    requires Inv(g, bp, t, path + [p]) && Extends(g, s, t) && i < |order| && (clean || !bp)
    requires AllSettled(g, bp, t, p, order[..i]) && Visited(g, bp, t, u, path + [p], order[i], clean)
    requires KeptColored(s)
    ensures Inv(g, bp, u, path + [p]) && Extends(g, s, u) && AllSettled(g, bp, u, p, order[..i + 1])
  {
    hide Inv, Settled, Extends;
    assert (path + [p])[|path + [p]| - 1] == p;
    LastIsKept(g, bp, u, path, p);
    ExtendsTwice(g, s, t, u);
    if Acyclic(g) {
      forall c | c in order[..i + 1] ensures Settled(g, bp, u, p, c) {
        if c != order[i] {
          assert c in order[..i];
          SettledLater(g, bp, t, u, p, c);
        }
      }
    }
  }

  lemma AbandonImports(g: Graph, s: St, t: St, u: St, path: seq<Package>, p: Package, c: Package)
    requires Extends(g, s, t) && Visited(g, true, t, u, path + [p], c, false)
    requires KeptColored(s)
    ensures Visited(g, true, s, Finish(u, p), path, p, false)
  {
    hide Inv, Extends, Poisoned;
    FinishDead(g, true, u, path, p);
    FinishExtends(g, u, p);
    ExtendsTwice(g, s, t, u);
    ExtendsTwice(g, s, u, Finish(u, p));
  }

  lemma FinishImports(g: Graph, bp: bool, s: St, t: St, path: seq<Package>, p: Package, order: seq<Package>)
    requires Inv(g, bp, t, path + [p]) && Extends(g, s, t) && p in g
    requires Listing(order, g[p].ins) && AllSettled(g, bp, t, p, order)
    requires KeptColored(s)
    ensures Visited(g, bp, s, Finish(t, p), path, p, true)
  {
    hide Inv, Extends;
    forall c | Edge(g, p, c) && Acyclic(g) ensures Settled(g, bp, t, p, c) {
      assert c in Elems(order);
    }
    FinishAlive(g, bp, t, path, p);
    FinishExtends(g, t, p);
    ExtendsTwice(g, s, t, Finish(t, p));
  }

  // ------------------------------------------------------------------ the outer loop

  ghost predicate DoneAll(s: St, ps: seq<Package>) {
    forall p <- ps :: Done(s, p)
  }

  lemma EmptyOk(g: Graph, bp: bool, s: St)
    requires s == St(map[], Table(map[], map[]), Table(map[], map[]), map[])
    ensures Inv(g, bp, s, [])
  {
    assert forall p :: Accounted(g, bp, s, p) && ColorFits(s, [], p) && ClosedAt(g, bp, s, p);
    assert forall kind, p :: EntryOk(g, kind, s.ex, p);
  }

  lemma NotGrey(g: Graph, bp: bool, s: St, p: Package)
    requires Inv(g, bp, s, []) && !Done(s, p)
    ensures ColorOf(s.colors, p) == White
  {
    assert ColorFits(s, [], p);
  }

  lemma RootVisited(g: Graph, bp: bool, s: St, t: St, order: seq<Package>, i: nat, clean: bool)
    requires i < |order| && DoneAll(s, order[..i]) && Visited(g, bp, s, t, [], order[i], clean)
    ensures Inv(g, bp, t, []) && DoneAll(t, order[..i + 1])
  {
    assert order[..i + 1] == order[..i] + [order[i]];
    forall p | p in order[..i + 1] ensures Done(t, p) { assert Later(g, s, t, p); }
  }

  lemma AllExplored(g: Graph, bp: bool, s: St, order: seq<Package>)
    requires Inv(g, bp, s, []) && Listing(order, g.Keys) && DoneAll(s, order)
    ensures Explored(g, bp, s) && s.ex.refs.Keys == s.ins.refs.Keys
  {
    forall p | p in g ensures Done(s, p) { assert p in Elems(order); }
  }
}
