/** Why reach sets are exact only without import cycles: two explorations, followed step by step. */
module InnerCycles {
  import opened Constraints
  import opened Identifiers
  import Bridge
  import opened ImportGraph
  import opened ReachTables
  import opened ReachState
  import opened DepthFirst
  import opened ReachTheorems
  import opened ReachMaps

  // ------------------------------------------------------------------ while all sets are empty

  ghost predicate AllEmpty(t: Table) {
    t.refs.Keys == t.vals.Keys && forall q <- t.vals :: t.vals[q] == {}
  }

  /** p gets the set r; nothing is in it. */
  function Adding(t: Table, p: Package, r: ReachSet): Table {
    Table(t.refs[p := r], t.vals[p := {}])
  }

  /** Nobody has anything to share yet. */
  lemma EnteringPlain(t: Table, path: seq<Package>, p: Package, r: ReachSet)
    requires AllEmpty(t)
    ensures Pushed(Opened(t, p, r, {}), path, {}) == Adding(t, p, r) && AllEmpty(Adding(t, p, r))
  {
    var u, v := Adding(t, p, r), Pushed(Opened(t, p, r, {}), path, {});
    assert forall q <- u.refs :: v.vals[q] == u.vals[q];
    assert v.vals == u.vals;
  }

  /** The last package of the path takes over the set of the one at k. */
  lemma Merging(t: Table, u: Table, path: seq<Package>, k: nat, last: Package)
    requires AllEmpty(t) && k < |path| && path[k] in t.refs && last in t.refs && path[k + 1..] == [last]
    requires u == Adding(t, last, t.refs[path[k]])
    ensures u == Merged(t, path, k) && AllEmpty(u)
  {
    assert Merged(t, path, k).vals == u.vals;
    assert Merged(t, path, k).refs == u.refs;
  }

  // ------------------------------------------------------------------ what the next step must be

  ghost predicate Ends(g: Graph, o: Order, cs: seq<Conf>) {
    Run(g, o, true, cs) && Finished(o, Last(cs)) && cs != []
  }

  /** The run goes on while something is on the stack. */
  lemma Next(g: Graph, o: Order, cs: seq<Conf>, k: nat)
    requires Ends(g, o, cs) && k < |cs| && cs[k].stack != []
    ensures k + 1 < |cs| && Step(g, o, true, cs[k], cs[k + 1])
  {
    GoesOn(g, o, true, cs, k);
  }

  lemma First(g: Graph, o: Order, cs: seq<Conf>)
    requires Ends(g, o, cs) && FirstOpen(map[], o.roots).Some?
    ensures 1 < |cs| && Step(g, o, true, START, cs[1])
  {
    GoesOn(g, o, true, cs, 0);
  }

  lemma EnteredFirst(g: Graph, o: Order, c: Conf, d: Conf, p: Package)
    requires Step(g, o, true, c, d) && c == START && FirstOpen(map[], o.roots) == Some(p) && Ok(g, p) && g[p].ex == {}
    ensures p in d.ex.refs && d == Conf(map[p := Grey], Adding(START.ex, p, d.ex.refs[p]), [Frame(p, o.ins(p))], false) && AllEmpty(d.ex)
  {
    var r := d.ex.refs[p];
    EnteringPlain(START.ex, [p], p, r);
    hide Pushed, Opened, Consistent;
    assert Path(c.stack) + [p] == [p];
  }

  /** The next import of f is entered. */
  lemma EnteredNext(g: Graph, o: Order, c: Conf, d: Conf, stack: seq<Frame>, f: Frame)
    requires Step(g, o, true, c, d) && c.stack == stack + [f] && f.todo != [] && !c.failed && AllEmpty(c.ex)
    requires var p := f.todo[0]; Ok(g, p) && g[p].ex == {} && ColorOf(c.colors, p) == White
    ensures AllEmpty(d.ex)
    ensures var p := f.todo[0];
            && p in d.ex.refs && d.ex.refs[p] !in c.ex.refs.Values
            && d == Conf(c.colors[p := Grey], Adding(c.ex, p, d.ex.refs[p]), On(stack, f) + [Frame(p, o.ins(p))], false)
  {
    hide Pushed, Opened, Consistent, AllEmpty;
    VisitFollows(g, o, true, c, d, stack, f);
    var p := f.todo[0];
    EnteringPlain(c.ex, Path(On(stack, f)) + [p], p, d.ex.refs[p]);
  }

  /** Only the package before the last is this one. */
  ghost predicate OnlyBefore(stack: seq<Frame>, p: Package) {
    |stack| > 1 && stack[|stack| - 2].pkg == p && forall k :: 0 <= k < |stack| && stack[k].pkg == p ==> k == |stack| - 2
  }

  /** The last package of the stack imports the one before it, whose set it takes over. */
  lemma SharedNext(g: Graph, o: Order, c: Conf, d: Conf, stack: seq<Frame>, f: Frame)
    requires Step(g, o, true, c, d) && c.stack == stack + [f] && f.todo != [] && !c.failed && AllEmpty(c.ex)
    requires var p := f.todo[0]; ColorOf(c.colors, p) == Grey && OnlyBefore(On(stack, f), p) && p in c.ex.refs && f.pkg in c.ex.refs
    ensures AllEmpty(d.ex) && d == Conf(c.colors, Adding(c.ex, f.pkg, c.ex.refs[f.todo[0]]), On(stack, f), false)
  {
    hide Merged, Consistent, AllEmpty;
    VisitFollows(g, o, true, c, d, stack, f);
    var on := On(stack, f);
    var k, path := |on| - 2, Path(on);
    assert path[k] == f.todo[0] && path[k + 1..] == [f.pkg];
    Merging(c.ex, Adding(c.ex, f.pkg, c.ex.refs[f.todo[0]]), path, k, f.pkg);
  }

  // ------------------------------------------------------------------ a lost import

  /** a imports b and d, b imports c and a, c imports b; d imports x from elsewhere. */
  const NESTED: Graph := map[
    "a" := Wm(None, {}, {"b", "d"}), "b" := Wm(None, {}, {"c", "a"}),
    "c" := Wm(None, {}, {"b"}), "d" := Wm(None, {"x"}, {})]

  /** Imports are visited in the order just given, a first. */
  const NESTED_ORDER := Order(["a", "b", "c", "d"],
    (p: Package) => if p == "a" then ["b", "d"] else if p == "b" then ["c", "a"] else if p == "c" then ["b"] else [])

  lemma Pair(p: Package, q: Package)
    requires p != q
    ensures Listing([p, q], {p, q}) && Listing([p], {p}) && Listing<Package>([], {})
  {
    assert [p, q][0] == p && [p, q][1] == q && [p][0] == p;
    assert Elems([p, q]) == {p, q} && Elems([p]) == {p} && Elems<Package>([]) == {};
  }

  lemma NestedOrders()
    ensures Orders(NESTED, NESTED_ORDER)
  {
    Pair("b", "d");
    Pair("c", "a");
    var rs := NESTED_ORDER.roots;
    assert rs[0] == "a" && rs[1] == "b" && rs[2] == "c" && rs[3] == "d";
    assert Elems(rs) == {"a", "b", "c", "d"} == NESTED.Keys;
    hide Elems;
  }

  /** a, b and c are entered. */
  ghost predicate Entered3(c: Conf) {
    && c.colors == map["a" := Grey, "b" := Grey, "c" := Grey] && !c.failed
    && c.stack == [Frame("a", ["d"]), Frame("b", ["a"])] + [Frame("c", ["b"])]
    && c.ex.refs.Keys == {"a", "b", "c"} && c.ex.refs["a"] != c.ex.refs["b"] && AllEmpty(c.ex)
  }

  lemma ThreeEntered(cs: seq<Conf>)
    requires Ends(NESTED, NESTED_ORDER, cs)
    ensures 3 < |cs| && Entered3(cs[3])
  {
    hide Step, AllEmpty, Ends;
    var g, o := NESTED, NESTED_ORDER;
    First(g, o, cs);
    EnteredFirst(g, o, START, cs[1], "a");
    assert cs[1].stack == [] + [Frame("a", ["b", "d"])] && ["b", "d"][1..] == ["d"];
    Next(g, o, cs, 1);
    EnteredNext(g, o, cs[1], cs[2], [], Frame("a", ["b", "d"]));
    assert On([], Frame("a", ["b", "d"])) == [Frame("a", ["d"])] && ["c", "a"][1..] == ["a"];
    Next(g, o, cs, 2);
    EnteredNext(g, o, cs[2], cs[3], [Frame("a", ["d"])], Frame("b", ["c", "a"]));
    assert On([Frame("a", ["d"])], Frame("b", ["c", "a"])) == [Frame("a", ["d"]), Frame("b", ["a"])];
  }

  ghost predicate AfterInner(c: Conf) {
    && c.colors == map["a" := Grey, "b" := Grey, "c" := Black] && !c.failed
    && c.stack == [Frame("a", ["d"])] + [Frame("b", ["a"])]
    && c.ex.refs.Keys == {"a", "b", "c"} && c.ex.refs["a"] != c.ex.refs["b"] && c.ex.refs["c"] == c.ex.refs["b"] && AllEmpty(c.ex)
  }

  /** c imports b, which is on the path: c takes over the set of b, and is done with. */
  lemma InnerFound(cs: seq<Conf>)
    requires Ends(NESTED, NESTED_ORDER, cs) && 3 < |cs| && Entered3(cs[3])
    ensures 5 < |cs| && AfterInner(cs[5])
  {
    hide Step, AllEmpty, Ends;
    var g, o, two := NESTED, NESTED_ORDER, [Frame("a", ["d"]), Frame("b", ["a"])];
    assert ["b"][1..] == [] && On(two, Frame("c", ["b"])) == two + [Frame("c", [])];
    Next(g, o, cs, 3);
    SharedNext(g, o, cs[3], cs[4], two, Frame("c", ["b"]));
    Next(g, o, cs, 4);
    LeaveFollows(g, o, true, cs[4], cs[5], two, Frame("c", []));
    assert two == [Frame("a", ["d"])] + [Frame("b", ["a"])];
  }

  ghost predicate AfterOuter(c: Conf) {
    && c.colors == map["a" := Grey, "b" := Black, "c" := Black] && !c.failed && c.stack == [] + [Frame("a", ["d"])]
    && c.ex.refs.Keys == {"a", "b", "c"} && c.ex.refs["b"] == c.ex.refs["a"] != c.ex.refs["c"] && AllEmpty(c.ex)
  }

  /** b imports a: b takes over the set of a, but c, which is done with, does not. */
  lemma OuterFound(cs: seq<Conf>)
    requires Ends(NESTED, NESTED_ORDER, cs) && 5 < |cs| && AfterInner(cs[5])
    ensures 7 < |cs| && AfterOuter(cs[7])
  {
    hide Step, AllEmpty, Ends;
    var g, o, one := NESTED, NESTED_ORDER, [Frame("a", ["d"])];
    assert ["a"][1..] == [] && On(one, Frame("b", ["a"])) == one + [Frame("b", [])];
    Next(g, o, cs, 5);
    SharedNext(g, o, cs[5], cs[6], one, Frame("b", ["a"]));
    Next(g, o, cs, 6);
    LeaveFollows(g, o, true, cs[6], cs[7], one, Frame("b", []));
    assert [] + one == one;
  }

  lemma XPushed(t: Table, r: ReachSet)
    requires AllEmpty(t) && t.refs.Keys == {"a", "b", "c"} && t.refs["a"] == t.refs["b"] != t.refs["c"] && r !in t.refs.Values
    ensures Pushed(Opened(t, "d", r, {"x"}), ["a", "d"], {"x"}).vals == map["a" := {"x"}, "b" := {"x"}, "c" := {}, "d" := {"x"}]
  {
    var o, path := Opened(t, "d", r, {"x"}), ["a", "d"];
    var u := Pushed(o, path, {"x"});
    assert path[0] == "a" && path[1] == "d";
    assert Shared(o, path[0], "a") && Shared(o, path[0], "b") && Shared(o, path[1], "d");
    assert !Touched(o, path, "c");
    hide Touched;
    assert u.vals["a"] == {"x"} && u.vals["b"] == {"x"} && u.vals["c"] == {} && u.vals["d"] == {"x"};
    assert u.vals.Keys == {"a", "b", "c", "d"};
  }

  const LOST: map<Package, set<Package>> := map["a" := {"x"}, "b" := {"x"}, "c" := {}, "d" := {"x"}]

  /** d is entered, which puts x into the set of a and b. */
  lemma DEntered(c7: Conf, c8: Conf)
    requires Step(NESTED, NESTED_ORDER, true, c7, c8) && AfterOuter(c7)
    ensures c8.ex.vals == LOST && !c8.failed && c8.stack == [Frame("a", [])] + [Frame("d", [])]
    ensures c8.colors == map["a" := Grey, "b" := Black, "c" := Black, "d" := Grey]
  {
    hide AllEmpty, Pushed, Opened, Consistent;
    assert ["d"][1..] == [] && On([], Frame("a", ["d"])) == [Frame("a", [])];
    VisitFollows(NESTED, NESTED_ORDER, true, c7, c8, [], Frame("a", ["d"]));
    assert Path([Frame("a", [])]) + ["d"] == ["a", "d"];
    XPushed(c7.ex, c8.ex.refs["d"]);
  }

  lemma LostInTheEnd(cs: seq<Conf>)
    requires Ends(NESTED, NESTED_ORDER, cs) && 7 < |cs| && AfterOuter(cs[7])
    ensures Last(cs).ex.vals == LOST
  {
    hide Step, Ends, AllEmpty;
    var g, o := NESTED, NESTED_ORDER;
    Next(g, o, cs, 7);
    DEntered(cs[7], cs[8]);
    Next(g, o, cs, 8);
    LeaveFollows(g, o, true, cs[8], cs[9], [Frame("a", [])], Frame("d", []));
    assert [] + [Frame("a", [])] == [Frame("a", [])];
    Next(g, o, cs, 9);
    LeaveFollows(g, o, true, cs[9], cs[10], [], Frame("a", []));
    OpenAt(cs[10].colors, o.roots, 4);
    Over(g, o, cs, 10);
  }

  lemma Over(g: Graph, o: Order, cs: seq<Conf>, k: nat)
    requires Ends(g, o, cs) && k < |cs| && Finished(o, cs[k])
    ensures cs[k] == Last(cs)
  {
    GoesOn(g, o, true, cs, k);
  }

  lemma XIsReached()
    ensures Imported(NESTED, External, "c", "x")
  {
    var c := ["c", "b", "a", "d"];
    assert Edge(NESTED, "c", "b") && Edge(NESTED, "b", "a") && Edge(NESTED, "a", "d");
    assert Chain(NESTED, c);
    assert Connects(NESTED, c, "c", "d");
    assert Reaches(NESTED, "c", "d");
    assert "x" in Label(NESTED, External, "d");
  }

  /** c misses x, which it reaches through b and a; b, which c is in a cycle with, has it. */
  method InnerCyclesLoseImports() returns (rm: Bridge.ReachMap)
    ensures "b" in rm && rm["b"].externals == {"x"} && "c" in rm && rm["c"].externals == {}
    ensures Imported(NESTED, External, "c", "x")
  {
    hide Imported, Reached, Run, Entered3, AfterInner, AfterOuter;
    XIsReached();
    NestedOrders();
    var errs;
    ghost var cs;
    rm, errs, cs := WmToReach(NESTED, true, NESTED_ORDER);
    ThreeEntered(cs);
    InnerFound(cs);
    OuterFound(cs);
    LostInTheEnd(cs);
  }

  // ------------------------------------------------------------------ a kept importer of an error

  /** a imports b and bad, b imports a. */
  const MIXED: Graph := map[
    "a" := Wm(None, {}, {"b", "bad"}), "b" := Wm(None, {}, {"a"}), "bad" := Wm(Some("error"), {}, {})]

  const MIXED_ORDER := Order(["a", "b", "bad"], (p: Package) => if p == "a" then ["b", "bad"] else if p == "b" then ["a"] else [])

  lemma MixedOrders()
    ensures Orders(MIXED, MIXED_ORDER)
  {
    Pair("b", "bad");
    Pair("a", "b");
    var rs := MIXED_ORDER.roots;
    assert rs[0] == "a" && rs[1] == "b" && rs[2] == "bad";
    assert Elems(rs) == {"a", "b", "bad"} == MIXED.Keys;
    hide Elems;
  }

  ghost predicate AfterB(c: Conf) {
    && c.colors == map["a" := Grey, "b" := Black] && !c.failed && c.stack == [] + [Frame("a", ["bad"])]
    && c.ex.refs.Keys == {"a", "b"} && AllEmpty(c.ex)
  }

  /** a and b are entered; b imports a, takes over its set, and is done with. */
  lemma BFound(cs: seq<Conf>)
    requires Ends(MIXED, MIXED_ORDER, cs)
    ensures 4 < |cs| && AfterB(cs[4])
  {
    hide Step, AllEmpty, Ends;
    var g, o, one := MIXED, MIXED_ORDER, [Frame("a", ["bad"])];
    First(g, o, cs);
    EnteredFirst(g, o, START, cs[1], "a");
    assert cs[1].stack == [] + [Frame("a", ["b", "bad"])] && ["b", "bad"][1..] == ["bad"];
    Next(g, o, cs, 1);
    EnteredNext(g, o, cs[1], cs[2], [], Frame("a", ["b", "bad"]));
    assert On([], Frame("a", ["b", "bad"])) == one && ["a"][1..] == [];
    assert On(one, Frame("b", ["a"])) == one + [Frame("b", [])];
    Next(g, o, cs, 2);
    SharedNext(g, o, cs[2], cs[3], one, Frame("b", ["a"]));
    Next(g, o, cs, 3);
    LeaveFollows(g, o, true, cs[3], cs[4], one, Frame("b", []));
    assert [] + one == one;
  }

  ghost predicate BWithoutA(c: Conf) { "b" in c.ex.vals && "a" !in c.ex.vals }

  /** Only then bad is found, which poisons a. */
  lemma BadFound(c: Conf, d: Conf)
    requires Step(MIXED, MIXED_ORDER, true, c, d) && AfterB(c)
    ensures BWithoutA(d) && d.failed && d.stack == [] + [Frame("a", [])]
    ensures d.colors == map["a" := Grey, "b" := Black, "bad" := Black]
  {
    hide AllEmpty;
    assert c.ex.refs.Keys == c.ex.vals.Keys by { AllEmptyKeys(c.ex); }
    assert ["bad"][1..] == [] && On([], Frame("a", ["bad"])) == [Frame("a", [])];
    VisitFollows(MIXED, MIXED_ORDER, true, c, d, [], Frame("a", ["bad"]));
    var path := Path([Frame("a", [])]) + ["bad"];
    assert path == ["a", "bad"] && path[0] == "a" && path[1] == "bad";
    assert Elems(path) == {"a", "bad"};
  }

  lemma AllEmptyKeys(t: Table)
    requires AllEmpty(t)
    ensures t.refs.Keys == t.vals.Keys
  {
  }

  lemma KeptInTheEnd(cs: seq<Conf>)
    requires Ends(MIXED, MIXED_ORDER, cs) && 4 < |cs| && AfterB(cs[4])
    ensures BWithoutA(Last(cs))
  {
    hide Step, Ends, AllEmpty;
    var g, o := MIXED, MIXED_ORDER;
    Next(g, o, cs, 4);
    BadFound(cs[4], cs[5]);
    Next(g, o, cs, 5);
    LeaveFollows(g, o, true, cs[5], cs[6], [], Frame("a", []));
    Recovers(cs, 6);
    OpenAt(cs[7].colors, o.roots, 3);
    Over(g, o, cs, 7);
  }

  lemma Recovers(cs: seq<Conf>, k: nat)
    requires Ends(MIXED, MIXED_ORDER, cs) && k < |cs| && cs[k].stack == [] && cs[k].failed
    ensures k + 1 < |cs| && cs[k + 1] == cs[k].(failed := false)
  {
    GoesOn(MIXED, MIXED_ORDER, true, cs, k);
  }

  lemma BReachesBad()
    ensures ReachesBad(MIXED, "b")
  {
    var c := ["b", "a", "bad"];
    assert Edge(MIXED, "b", "a") && Edge(MIXED, "a", "bad");
    assert c[..2] == ["b", "a"] && Chain(MIXED, ["b", "a"]);
    assert BadChain(MIXED, c) && c[0] == "b";
  }

  /** a is dropped, as it imports bad; b, which imports a, is kept. */
  method CyclesKeepBadImporters() returns (rm: Bridge.ReachMap)
    ensures "b" in rm && "a" !in rm && ReachesBad(MIXED, "b")
  {
    hide ReachesBad, Reached, Run, AfterB;
    BReachesBad();
    MixedOrders();
    var errs;
    ghost var cs;
    rm, errs, cs := WmToReach(MIXED, true, MIXED_ORDER);
    BFound(cs);
    KeptInTheEnd(cs);
  }
}
