/** Turning a manifest's constraints and the packages actually imported into dependencies
    (solver.intersectConstraintsWithImports, gps/solver.go; override, gps/constraint.go). */
module ImportConstraints {
  import opened Constraints
  import opened Identifiers
  import opened Bridge
  import opened PrefixTrees

  /** A manifest entry after overrides. */
  datatype Working = Working(ident: ProjectIdentifier, constraint: Constraint)

  datatype Override = Override(source: string, constraint: Option<Constraint>)

  /** What the function consults: overrides, the standard library, and root deduction. */
  datatype Context = Context(overrides: map<ProjectRoot, Override>, stdLib: Package -> bool, deduce: Package -> Option<ProjectRoot>)

  function Overridden(c: Context, pr: ProjectRoot, source: string, constraint: Constraint): (wc: Working)
    ensures wc.ident.root == pr
  {
    if pr !in c.overrides then Working(ProjectIdentifier(pr, source), constraint)
    else
      var o := c.overrides[pr];
      Working(ProjectIdentifier(pr, if o.source != "" then o.source else source),
              match o.constraint case Some(oc) => oc case None => constraint)
  }

  type Trie = map<string, Working>

  /** A prefix that a trie found is one of whole path elements. */
  predicate IsPathPrefixOrEqual(pre: string, path: string)
    requires |pre| <= |path|
  {
    |path| != |pre| + 1 && (|pre| == |path| || path[|pre|] == '/')
  }

  /** It is the path, or the path goes on with a slash and something more: one slash alone does not
      count. */
  lemma WholeElements(pre: string, path: string)
    requires Prefix(pre, path)
    ensures IsPathPrefixOrEqual(pre, path) <==> path == pre || exists rest :: rest != [] && path == pre + "/" + rest
  {
    if IsPathPrefixOrEqual(pre, path) && path != pre {
      var rest := path[|pre| + 1..];
      assert path == pre + "/" + rest && rest != [];
    }
  }

  /** The root a package is put under without deduction. */
  function Match(t: Trie, rp: Package): (r: Option<ProjectRoot>)
    ensures r.Some? ==> r.value in t && Prefix(r.value, rp)
  {
    var pre := LongestPrefix(t, rp);
    if pre.Some? && IsPathPrefixOrEqual(pre.value, rp) then pre else None
  }

  datatype Progress = Progress(xt: Trie, dmap: Deps)

  /** The root one package goes to. */
  function Home(c: Context, xt: Trie, rp: Package): Option<ProjectRoot> {
    match Match(xt, rp)
    case Some(pre) => Some(xt[pre].ident.root)
    case None => c.deduce(rp)
  }

  /** One turn of the loop; None if the root cannot be deduced. */
  function Place(c: Context, s: Progress, rp: Package): Option<Progress> {
    if c.stdLib(rp) then Some(s)
    else match Match(s.xt, rp)
      case Some(pre) =>
        var wc := s.xt[pre];
        var r := wc.ident.root;
        Some(Progress(s.xt, s.dmap[r := if r in s.dmap then s.dmap[r].(pl := s.dmap[r].pl + [rp])
                                        else CompleteDep(wc.ident, wc.constraint, [rp])]))
      case None =>
        match c.deduce(rp)
        case None => None
        case Some(root) =>
          var pd := Overridden(c, root, "", Any);
          Some(Progress(s.xt[root := pd], s.dmap[root := CompleteDep(pd.ident, pd.constraint, [rp])]))
  }

  function PlaceAll(c: Context, xt: Trie, reach: seq<Package>): Option<Progress> {
    if reach == [] then Some(Progress(xt, map[]))
    else
      match PlaceAll(c, xt, reach[..|reach| - 1])
      case None => None
      case Some(s) => Place(c, s, reach[|reach| - 1])
  }

  // ------------------------------------------------------------------ what comes out is well formed

  /** Every entry is filed under its own root. */
  predicate Filed(xt: Trie) {
    forall r <- xt :: xt[r].ident.root == r
  }

  predicate Holds(dmap: Deps, rp: Package) {
    exists r :: r in dmap && rp in dmap[r].pl
  }

  ghost predicate FormedAt(s: Progress, seen: set<Package>, r: ProjectRoot) {
    r in s.dmap ==>
      && r in s.xt && s.dmap[r].ident == s.xt[r].ident && s.dmap[r].constraint == s.xt[r].constraint
      && s.dmap[r].pl != [] && NoDup(s.dmap[r].pl) && Elems(s.dmap[r].pl) <= seen
  }

  /** No package is listed for two roots. */
  ghost predicate Apart(dmap: Deps) {
    forall q, r, p :: q in dmap && r in dmap && p in dmap[q].pl && p in dmap[r].pl ==> q == r
  }

  ghost predicate Formed(s: Progress, seen: set<Package>) {
    Filed(s.xt) && Apart(s.dmap) && forall r :: FormedAt(s, seen, r)
  }

  lemma ListedIsSeen(s: Progress, seen: set<Package>, r: ProjectRoot, p: Package)
    requires Formed(s, seen) && r in s.dmap && p in s.dmap[r].pl
    ensures p in seen
  {
    assert FormedAt(s, seen, r);
    assert p in Elems(s.dmap[r].pl);
  }

  lemma StaysApart(s: Progress, seen: set<Package>, rp: Package, r: ProjectRoot, d: CompleteDep)
    requires Formed(s, seen) && rp !in seen && (d.pl == [rp] || (r in s.dmap && d.pl == s.dmap[r].pl + [rp]))
    ensures Apart(s.dmap[r := d])
  {
    forall q, p | q in s.dmap && p in s.dmap[q].pl ensures p in seen { ListedIsSeen(s, seen, q, p); }
    hide FormedAt;
    var t := s.dmap[r := d];
    forall a, b, p | a in t && b in t && p in t[a].pl && p in t[b].pl ensures a == b {
      assert a != r ==> a in s.dmap && t[a] == s.dmap[a];
      assert b != r ==> b in s.dmap && t[b] == s.dmap[b];
    }
  }

  /** The dependency of r is replaced by d, which lists rp besides some of what r listed. */
  lemma FormedUpdate(s: Progress, seen: set<Package>, rp: Package, xt: Trie, r: ProjectRoot, d: CompleteDep)
    requires Formed(s, seen) && rp !in seen
    requires Filed(xt) && r in xt && d.ident == xt[r].ident && d.constraint == xt[r].constraint
    requires forall q <- s.xt :: q in xt && (q != r ==> xt[q] == s.xt[q])
    requires d.pl == [rp] || (r in s.dmap && d.pl == s.dmap[r].pl + [rp])
    ensures Formed(Progress(xt, s.dmap[r := d]), seen + {rp})
  {
    StaysApart(s, seen, rp, r, d);
    ListFormed(s, seen, rp, r, d);
    hide Elems, NoDup, Apart;
    var t, all := Progress(xt, s.dmap[r := d]), seen + {rp};
    forall q ensures FormedAt(t, all, q) { assert FormedAt(s, seen, q); }
  }

  lemma ListFormed(s: Progress, seen: set<Package>, rp: Package, r: ProjectRoot, d: CompleteDep)
    requires Formed(s, seen) && rp !in seen && (d.pl == [rp] || (r in s.dmap && d.pl == s.dmap[r].pl + [rp]))
    ensures d.pl != [] && NoDup(d.pl) && Elems(d.pl) <= seen + {rp}
  {
    if d.pl == [rp] {
      ElemsOfPush([], rp);
      assert [] + [rp] == [rp];
    } else {
      assert FormedAt(s, seen, r);
      ElemsOfPush(s.dmap[r].pl, rp);
      if rp in s.dmap[r].pl { ListedIsSeen(s, seen, r, rp); }
    }
  }

  lemma ElemsOfPush(pl: seq<Package>, rp: Package)
    ensures Elems(pl + [rp]) == Elems(pl) + {rp}
    ensures NoDup(pl) && rp !in pl ==> NoDup(pl + [rp])
    ensures Elems(pl) == {} <==> pl == []
  {
    if pl != [] { assert pl[0] in Elems(pl); }
  }

  lemma PlaceForms(c: Context, s: Progress, seen: set<Package>, rp: Package)
    requires Formed(s, seen) && rp !in seen && Place(c, s, rp).Some?
    ensures Formed(Place(c, s, rp).value, seen + {rp})
  {
    if c.stdLib(rp) {
      var all := seen + {rp};
      forall r ensures FormedAt(s, all, r) { assert FormedAt(s, seen, r); }
    } else {
      match Match(s.xt, rp)
      case Some(pre) =>
        var wc := s.xt[pre];
        assert FormedAt(s, seen, pre);
        FormedUpdate(s, seen, rp, s.xt, pre, if pre in s.dmap then s.dmap[pre].(pl := s.dmap[pre].pl + [rp]) else CompleteDep(wc.ident, wc.constraint, [rp]));
      case None =>
        var root := c.deduce(rp).value;
        var pd := Overridden(c, root, "", Any);
        FormedUpdate(s, seen, rp, s.xt[root := pd], root, CompleteDep(pd.ident, pd.constraint, [rp]));
    }
  }

  // ------------------------------------------------------------------ is every package there?

  /** A package no known root matches is deduced to belong to a root that has packages already:
      its new entry replaces theirs. */
  predicate Collides(c: Context, s: Progress, rp: Package) {
    !c.stdLib(rp) && Match(s.xt, rp).None? && c.deduce(rp).Some? && c.deduce(rp).value in s.dmap
  }

  predicate CollidesAt(c: Context, xt: Trie, reach: seq<Package>, i: nat)
    requires i < |reach|
  {
    PlaceAll(c, xt, reach[..i]).Some? && Collides(c, PlaceAll(c, xt, reach[..i]).value, reach[i])
  }

  predicate NoCollision(c: Context, xt: Trie, reach: seq<Package>) {
    forall i :: 0 <= i < |reach| ==> !CollidesAt(c, xt, reach, i)
  }

  /** All imported packages outside the standard library are listed. */
  ghost predicate Complete(c: Context, dmap: Deps, reach: seq<Package>) {
    forall rp <- reach :: !c.stdLib(rp) ==> Holds(dmap, rp)
  }

  lemma PlacedHolds(c: Context, s: Progress, rp: Package, p: Package)
    requires Place(c, s, rp).Some? && !Collides(c, s, rp) && Holds(s.dmap, p)
    ensures Holds(Place(c, s, rp).value.dmap, p)
  {
    var r :| r in s.dmap && p in s.dmap[r].pl;
    var t := Place(c, s, rp).value;
    assert r in t.dmap && p in t.dmap[r].pl;
  }

  lemma PlacedIsHeld(c: Context, s: Progress, rp: Package)
    requires Place(c, s, rp).Some? && !c.stdLib(rp)
    ensures Holds(Place(c, s, rp).value.dmap, rp)
  {
    var t := Place(c, s, rp).value;
    var r := Home(c, s.xt, rp).value;
    assert r in t.dmap && rp in t.dmap[r].pl;
  }

  /** Placing a package brings no other one back. */
  lemma HeldBefore(c: Context, s: Progress, rp: Package, p: Package)
    requires Place(c, s, rp).Some? && Holds(Place(c, s, rp).value.dmap, p)
    ensures Holds(s.dmap, p) || (p == rp && !c.stdLib(rp))
  {
    var t := Place(c, s, rp).value;
    var r :| r in t.dmap && p in t.dmap[r].pl;
    if p != rp || c.stdLib(rp) {
      assert r in s.dmap && p in s.dmap[r].pl;
    }
  }

  /** A collision loses a package. */
  lemma CollisionLoses(c: Context, s: Progress, seen: set<Package>, rp: Package) returns (p: Package)
    requires Formed(s, seen) && rp !in seen && Collides(c, s, rp)
    ensures Place(c, s, rp).Some? && p in seen && Holds(s.dmap, p) && !Holds(Place(c, s, rp).value.dmap, p)
  {
    var r := c.deduce(rp).value;
    assert FormedAt(s, seen, r);
    p := s.dmap[r].pl[0];
    assert p in s.dmap[r].pl && p in Elems(s.dmap[r].pl);
    var t := Place(c, s, rp).value;
    forall q | q in t.dmap ensures p !in t.dmap[q].pl {
      assert q != r ==> q in s.dmap && t.dmap[q] == s.dmap[q];
    }
  }

  lemma {:induction false} AllFormed(c: Context, xt: Trie, reach: seq<Package>)
    requires Filed(xt) && NoDup(reach) && PlaceAll(c, xt, reach).Some?
    ensures Formed(PlaceAll(c, xt, reach).value, Elems(reach))
    ensures forall rp :: Holds(PlaceAll(c, xt, reach).value.dmap, rp) ==> rp in reach && !c.stdLib(rp)
  {
    if reach != [] {
      var init, rp := reach[..|reach| - 1], reach[|reach| - 1];
      AllFormed(c, xt, init);
      assert reach == init + [rp];
      assert Elems(reach) == Elems(init) + {rp} && rp !in Elems(init);
      var s := PlaceAll(c, xt, init).value;
      PlaceForms(c, s, Elems(init), rp);
      forall p | Holds(PlaceAll(c, xt, reach).value.dmap, p) ensures p in reach && !c.stdLib(p) {
        HeldBefore(c, s, rp, p);
      }
    }
  }

  /** The promise of the source, that every imported package is included, holds exactly if no
      package collides. */
  lemma {:induction false} CompleteUnlessCollision(c: Context, xt: Trie, reach: seq<Package>)
    requires Filed(xt) && NoDup(reach) && PlaceAll(c, xt, reach).Some?
    ensures Complete(c, PlaceAll(c, xt, reach).value.dmap, reach) <==> NoCollision(c, xt, reach)
  {
    if reach != [] {
      var init, rp := reach[..|reach| - 1], reach[|reach| - 1];
      CompleteUnlessCollision(c, xt, init);
      AllFormed(c, xt, init);
      CollisionsSplit(c, xt, reach);
      assert reach == init + [rp] && rp !in Elems(init) && rp !in init;
      hide NoCollision, Formed, NoDup, PlaceAll;
      OneMoreComplete(c, PlaceAll(c, xt, init).value, init, rp);
    }
  }

  lemma OneMoreComplete(c: Context, s: Progress, init: seq<Package>, rp: Package)
    requires Place(c, s, rp).Some? && Formed(s, Elems(init)) && rp !in init
    requires forall p :: Holds(s.dmap, p) ==> p in init && !c.stdLib(p)
    ensures Complete(c, Place(c, s, rp).value.dmap, init + [rp]) <==> Complete(c, s.dmap, init) && !Collides(c, s, rp)
  {
    var t, reach := Place(c, s, rp).value, init + [rp];
    assert forall p :: p in reach <==> p in init || p == rp;
    if !c.stdLib(rp) { PlacedIsHeld(c, s, rp); }
    if Collides(c, s, rp) {
      assert rp !in Elems(init);
      var p := CollisionLoses(c, s, Elems(init), rp);
      assert p in init && !c.stdLib(p);
    } else {
      forall p | p in init ensures Holds(t.dmap, p) <==> Holds(s.dmap, p) {
        if Holds(s.dmap, p) { PlacedHolds(c, s, rp, p); }
        if Holds(t.dmap, p) { HeldBefore(c, s, rp, p); }
      }
    }
  }

  lemma CollisionsSplit(c: Context, xt: Trie, reach: seq<Package>)
    requires reach != [] && PlaceAll(c, xt, reach).Some?
    ensures var init := reach[..|reach| - 1];
            NoCollision(c, xt, reach) <==> NoCollision(c, xt, init) && !Collides(c, PlaceAll(c, xt, init).value, reach[|reach| - 1])
  {
    var init := reach[..|reach| - 1];
    hide Collides;
    assert CollidesAt(c, xt, reach, |init|) <==> Collides(c, PlaceAll(c, xt, init).value, reach[|init|]);
    hide PlaceAll;
    forall i | 0 <= i < |init| ensures CollidesAt(c, xt, init, i) <==> CollidesAt(c, xt, reach, i) {
      assert init[..i] == reach[..i] && init[i] == reach[i];
    }
    hide CollidesAt;
  }

  // ------------------------------------------------------------------ when nothing collides

  predicate PathPrefix(pre: string, path: string) {
    Prefix(pre, path) && IsPathPrefixOrEqual(pre, path)
  }

  predicate Root(c: Context, xt: Trie, reach: seq<Package>, r: ProjectRoot) {
    r in xt || exists i :: 0 <= i < |reach| && c.deduce(reach[i]) == Some(r)
  }

  predicate NoFalsePrefix(rp: Package, r: ProjectRoot, k: ProjectRoot) {
    PathPrefix(r, rp) && Prefix(k, rp) && |r| <= |k| ==> PathPrefix(k, rp)
  }

  /** Deduced roots are above their packages; and if a root is above a package, no longer root is
      a prefix of its name without being above it too. */
  ghost predicate Unambiguous(c: Context, xt: Trie, reach: seq<Package>) {
    && (forall rp <- reach :: c.deduce(rp).Some? ==> PathPrefix(c.deduce(rp).value, rp))
    && (forall rp, r, k :: rp in reach && Root(c, xt, reach, r) && Root(c, xt, reach, k) ==> NoFalsePrefix(rp, r, k))
  }

  lemma {:induction false} TrieHasRoots(c: Context, xt: Trie, reach: seq<Package>)
    requires PlaceAll(c, xt, reach).Some?
    ensures forall r <- PlaceAll(c, xt, reach).value.xt :: Root(c, xt, reach, r)
  {
    if reach != [] {
      var init, rp := reach[..|reach| - 1], reach[|reach| - 1];
      TrieHasRoots(c, xt, init);
      forall r | r in PlaceAll(c, xt, reach).value.xt ensures Root(c, xt, reach, r) {
        if r in PlaceAll(c, xt, init).value.xt {
          assert Root(c, xt, init, r);
          assert forall i :: 0 <= i < |init| ==> init[i] == reach[i];
        } else {
          assert c.deduce(reach[|init|]) == Some(r);
        }
      }
    }
  }

  lemma RootOfMore(c: Context, xt: Trie, reach: seq<Package>, n: nat, r: ProjectRoot)
    requires n <= |reach| && Root(c, xt, reach[..n], r)
    ensures Root(c, xt, reach, r)
  {
    if r !in xt {
      var i :| 0 <= i < n && c.deduce(reach[..n][i]) == Some(r);
      assert c.deduce(reach[i]) == Some(r);
    }
  }

  /** A condition on the roots alone that rules collisions out. */
  lemma UnambiguousRootsNeverCollide(c: Context, xt: Trie, reach: seq<Package>)
    requires Filed(xt) && NoDup(reach) && Unambiguous(c, xt, reach)
    ensures NoCollision(c, xt, reach)
  {
    forall i | 0 <= i < |reach| ensures !CollidesAt(c, xt, reach, i) {
      if PlaceAll(c, xt, reach[..i]).Some? {
        UnambiguousAt(c, xt, reach, i);
      }
    }
  }

  lemma UnambiguousAt(c: Context, xt: Trie, reach: seq<Package>, i: nat)
    requires Filed(xt) && NoDup(reach) && Unambiguous(c, xt, reach) && i < |reach| && PlaceAll(c, xt, reach[..i]).Some?
    ensures !Collides(c, PlaceAll(c, xt, reach[..i]).value, reach[i])
  {
    var s, rp := PlaceAll(c, xt, reach[..i]).value, reach[i];
    AllFormed(c, xt, reach[..i]);
    TrieHasRoots(c, xt, reach[..i]);
    hide PlaceAll;
    if c.deduce(rp).Some? && c.deduce(rp).value in s.dmap {
      var r := c.deduce(rp).value;
      assert FormedAt(s, Elems(reach[..i]), r);
      hide Formed, FormedAt, Unambiguous, PathPrefix, NoFalsePrefix, Root;
      DeducedIsAbove(c, xt, reach, rp);
      LongestExists(s.xt, r, rp);
      var k := LongestPrefix(s.xt, rp).value;
      RootOfMore(c, xt, reach, i, r);
      RootOfMore(c, xt, reach, i, k);
      LongestMatches(c, xt, reach, s.xt, rp, r, k);
    }
  }

  lemma DeducedIsAbove(c: Context, xt: Trie, reach: seq<Package>, rp: Package)
    requires Unambiguous(c, xt, reach) && rp in reach && c.deduce(rp).Some?
    ensures PathPrefix(c.deduce(rp).value, rp) && Prefix(c.deduce(rp).value, rp)
  {
  }

  lemma LongestExists(t: Trie, r: ProjectRoot, rp: Package)
    requires r in t && Prefix(r, rp)
    ensures LongestPrefix(t, rp).Some? && LongestPrefix(t, rp).value in t && Prefix(LongestPrefix(t, rp).value, rp)
    ensures |r| <= |LongestPrefix(t, rp).value|
  {
  }

  lemma LongestMatches(c: Context, xt: Trie, reach: seq<Package>, t: Trie, rp: Package, r: ProjectRoot, k: ProjectRoot)
    requires Unambiguous(c, xt, reach) && rp in reach && Root(c, xt, reach, r) && Root(c, xt, reach, k)
    requires PathPrefix(r, rp) && Prefix(k, rp) && |r| <= |k| && LongestPrefix(t, rp) == Some(k)
    ensures Match(t, rp).Some?
  {
    hide Root;
    assert NoFalsePrefix(rp, r, k);
  }

  // ------------------------------------------------------------------ and when something does

  const NESTED: Trie :=
    map["r" := Working(ProjectIdentifier("r", ""), Any), "r/s" := Working(ProjectIdentifier("r/s", ""), Any)]

  function OneRoot(): Context { Context(map[], p => false, p => Some("r")) }

  lemma NestedMatches()
    ensures Match(NESTED, "r/a") == Some("r") && Match(NESTED, "r/st") == None
  {
    assert "r/a"[..3] == "r/a" && "r/a"[..2] == "r/" && "r/a"[..1] == "r";
    assert LongestUpTo(NESTED, "r/a", 1) == Some("r");
    assert LongestUpTo(NESTED, "r/a", 2) == Some("r");
    assert "r/st"[..4] == "r/st" && "r/st"[..3] == "r/s";
    assert LongestUpTo(NESTED, "r/st", 3) == Some("r/s");
  }

  /** With constraints on r and on r/s, the packages r/a and r/st both belong to r, but the longest
      matching prefix of r/st is r/s, which is not above it; so r/st replaces r/a. */
  lemma NestedRootsLosePackages()
    ensures PlaceAll(OneRoot(), NESTED, ["r/a", "r/st"]).Some?
    ensures !Complete(OneRoot(), PlaceAll(OneRoot(), NESTED, ["r/a", "r/st"]).value.dmap, ["r/a", "r/st"])
  {
    var c, reach := OneRoot(), ["r/a", "r/st"];
    NestedMatches();
    hide Match;
    assert reach[..1] == ["r/a"] && ["r/a"][..0] == [];
    assert PlaceAll(c, NESTED, []) == Some(Progress(NESTED, map[]));
    var s := Progress(NESTED, map["r" := CompleteDep(ProjectIdentifier("r", ""), Any, ["r/a"])]);
    assert PlaceAll(c, NESTED, ["r/a"]) == Some(s);
    assert CollidesAt(c, NESTED, reach, 1);
    assert "r/a"[2] == 'a' && "r/st"[2] == 's';
    CompleteUnlessCollision(c, NESTED, reach);
  }

  // ------------------------------------------------------------------ the code

  method IntersectConstraintsWithImports(c: Context, deps: seq<Working>, reach: seq<Package>) returns (r: Option<Deps>)
    requires NoDup(reach)
    ensures r == match PlaceAll(c, Inserted(deps), reach) case None => None case Some(s) => Some(s.dmap)
    ensures r.Some? ==> Formed(PlaceAll(c, Inserted(deps), reach).value, Elems(reach))
    ensures r.Some? ==> (Complete(c, r.value, reach) <==> NoCollision(c, Inserted(deps), reach))
  {
    InsertedIsFiled(deps);
    var xt: Trie := map[];
    for i := 0 to |deps|
      invariant xt == Inserted(deps[..i])
    {
      assert deps[..i + 1][..i] == deps[..i];
      xt := xt[deps[i].ident.root := deps[i]];
    }
    assert deps[..|deps|] == deps;
    var dmap: Deps := map[];
    var i := 0;
    while i < |reach|
      invariant 0 <= i <= |reach| && PlaceAll(c, Inserted(deps), reach[..i]) == Some(Progress(xt, dmap))
    {
      var rp := reach[i];
      assert reach[..i + 1][..i] == reach[..i];
      i := i + 1;
      if c.stdLib(rp) {
        continue;
      }
      var pre := LongestPrefix(xt, rp);
      if pre.Some? && IsPathPrefixOrEqual(pre.value, rp) {
        var dep := xt[pre.value];
        if dep.ident.root in dmap {
          var cdep := dmap[dep.ident.root];
          dmap := dmap[dep.ident.root := cdep.(pl := cdep.pl + [rp])];
        } else {
          dmap := dmap[dep.ident.root := CompleteDep(dep.ident, dep.constraint, [rp])];
        }
        continue;
      }
      var root := c.deduce(rp);
      if root.None? {
        FailsForGood(c, Inserted(deps), reach, i);
        return None;
      }
      var pd := Overridden(c, root.value, "", Any);
      xt := xt[root.value := pd];
      dmap := dmap[root.value := CompleteDep(pd.ident, pd.constraint, [rp])];
    }
    assert reach[..|reach|] == reach;
    AllFormed(c, Inserted(deps), reach);
    CompleteUnlessCollision(c, Inserted(deps), reach);
    return Some(dmap);
  }

  function Inserted(deps: seq<Working>): Trie {
    if deps == [] then map[] else Inserted(deps[..|deps| - 1])[deps[|deps| - 1].ident.root := deps[|deps| - 1]]
  }

  lemma {:induction false} InsertedIsFiled(deps: seq<Working>)
    ensures Filed(Inserted(deps))
  {
    if deps != [] {
      InsertedIsFiled(deps[..|deps| - 1]);
    }
  }

  lemma {:induction false} FailsForGood(c: Context, xt: Trie, reach: seq<Package>, n: nat)
    requires n <= |reach| && PlaceAll(c, xt, reach[..n]).None?
    ensures PlaceAll(c, xt, reach).None?
  {
    if n < |reach| {
      assert reach[..|reach| - 1][..n] == reach[..n];
      FailsForGood(c, xt, reach[..|reach| - 1], n);
    } else {
      assert reach[..n] == reach;
    }
  }

  // ------------------------------------------------------------------ what the solver is given

  /** Deduced roots are above the packages they are deduced from. */
  predicate DeducesAbove(c: Context, reach: seq<Package>) {
    forall rp <- reach :: c.deduce(rp).Some? ==> PathPrefix(c.deduce(rp).value, rp)
  }

  ghost predicate AboveSome(reach: seq<Package>, r: ProjectRoot) {
    exists rp :: rp in reach && PathPrefix(r, rp)
  }

  lemma PlacedRootIsAbove(c: Context, s: Progress, rp: Package, r: ProjectRoot)
    requires Filed(s.xt) && Place(c, s, rp).Some? && r in Place(c, s, rp).value.dmap && r !in s.dmap
    requires c.deduce(rp).Some? ==> PathPrefix(c.deduce(rp).value, rp)
    ensures PathPrefix(r, rp)
  {
  }

  /** Every root in the result is above a package that was reached. */
  lemma {:induction false} ListedRootsAreAbove(c: Context, xt: Trie, reach: seq<Package>)
    requires Filed(xt) && NoDup(reach) && DeducesAbove(c, reach) && PlaceAll(c, xt, reach).Some?
    ensures forall r <- PlaceAll(c, xt, reach).value.dmap :: AboveSome(reach, r)
  {
    if reach != [] {
      var init, rp := reach[..|reach| - 1], reach[|reach| - 1];
      assert reach == init + [rp] && rp in reach;
      ListedRootsAreAbove(c, xt, init);
      AllFormed(c, xt, init);
      var s := PlaceAll(c, xt, init).value;
      var t := PlaceAll(c, xt, reach).value;
      assert Some(t) == Place(c, s, rp) && Filed(s.xt);
      hide Place, PlaceAll, FormedAt, Apart, Filed, PathPrefix;
      forall r | r in t.dmap ensures AboveSome(reach, r) {
        if r in s.dmap {
          var p :| p in init && PathPrefix(r, p);
          assert p in reach;
        } else {
          PlacedRootIsAbove(c, s, rp, r);
        }
      }
    }
  }

  /** An import of a project's own is never external (ToReachMap's eqOrSlashedPrefix). */
  predicate Outside(own: ProjectRoot, rp: Package) {
    !(Prefix(own, rp) && (|own| == |rp| || rp[|own|] == '/'))
  }

  /** So no project depends on itself. */
  lemma OwnRootIsNotListed(c: Context, xt: Trie, reach: seq<Package>, own: ProjectRoot)
    requires Filed(xt) && NoDup(reach) && DeducesAbove(c, reach) && PlaceAll(c, xt, reach).Some?
    requires forall rp <- reach :: Outside(own, rp)
    ensures own !in PlaceAll(c, xt, reach).value.dmap
  {
    ListedRootsAreAbove(c, xt, reach);
    assert !AboveSome(reach, own);
  }

  /** What the solver assumes of every list of dependencies. */
  lemma FormedDepsAreValid(w: World, s: Progress, seen: set<Package>)
    requires Formed(s, seen) && seen <= w.packages && s.dmap.Keys <= w.roots
    requires forall r <- s.xt :: ManifestLevel(s.xt[r].constraint)
    ensures ValidDeps(w, s.dmap)
  {
    forall r | r in s.dmap ensures ValidDep(w, r, s.dmap[r]) {
      assert FormedAt(s, seen, r);
    }
  }

  ghost predicate ImportsOutside(w: World, own: ProjectRoot, rm: ReachMap) {
    forall p <- rm :: forall rp <- rm[p].externals :: Outside(own, rp) && rp in w.packages
  }

  lemma ReachedIsOutside(w: World, own: ProjectRoot, rm: ReachMap, pl: seq<Package>)
    requires ImportsOutside(w, own, rm)
    ensures forall rp <- ExternalsOf(w, rm, pl) :: Outside(own, rp) && rp in w.packages
  {
    hide Outside;
  }

  /** The dependencies of this world are those that intersectConstraintsWithImports makes of the
      manifests' constraints and the imports reached, which lie outside the importing project. */
  ghost predicate FromManifests(w: World, c: Context, manifest: (ProjectIdentifier, Version) -> seq<Working>) {
    && (forall id, v, ex :: w.constrain(id, v, ex) ==
          match PlaceAll(c, Inserted(manifest(id, v)), w.sorted(ex)) case None => None case Some(s) => Some(s.dmap))
    && (forall id: ProjectIdentifier, v :: ImportsOutside(w, id.root, w.reach(id, v)))
    && (forall rp: Package :: c.deduce(rp).Some? ==> PathPrefix(c.deduce(rp).value, rp))
    && (forall s :: Listing(w.sorted(s), s))
  }

  /** All roots known from the manifest or deduced are in the universe, and constraints are of a kind
      that manifests and overrides hold. */
  ghost predicate InUniverse(w: World, c: Context, manifest: (ProjectIdentifier, Version) -> seq<Working>) {
    forall id, v, ex :: PlaceAll(c, Inserted(manifest(id, v)), w.sorted(ex)).Some? ==>
      var s := PlaceAll(c, Inserted(manifest(id, v)), w.sorted(ex)).value;
      s.dmap.Keys <= w.roots && forall r <- s.xt :: ManifestLevel(s.xt[r].constraint)
  }

  /** In such a world dependencies are as the solver assumes. */
  lemma ManifestsGiveGoodDeps(w: World, c: Context, manifest: (ProjectIdentifier, Version) -> seq<Working>, a: Atom, pl: seq<Package>)
    requires FromManifests(w, c, manifest) && InUniverse(w, c, manifest)
    ensures GoodDeps(w, a, pl)
  {
    if Imports(w, a, pl).Imported? {
      var rm, xt := w.reach(a.id, a.v), Inserted(manifest(a.id, a.v));
      var ex := ExternalsOf(w, rm, pl);
      var reach := w.sorted(ex);
      assert w.constrain(a.id, a.v, ex).Some?;
      assert PlaceAll(c, xt, reach).Some?;
      assert ImportsOutside(w, a.id.root, rm);
      ReachedIsOutside(w, a.id.root, rm, pl);
      hide Outside, PlaceAll, ExternalsOf, ImportsOutside, PathPrefix;
      forall rp | rp in reach ensures Outside(a.id.root, rp) && rp in w.packages { assert rp in Elems(reach); }
      InsertedIsFiled(manifest(a.id, a.v));
      AllFormed(c, xt, reach);
      FormedDepsAreValid(w, PlaceAll(c, xt, reach).value, Elems(reach));
      OwnRootIsNotListed(c, xt, reach, a.id.root);
    }
  }
}
