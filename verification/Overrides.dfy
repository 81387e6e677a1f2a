/** What the dependencies made of a manifest demand: the root project's overrides, else the manifest,
    else nothing (override and overrideAll in gps/constraint.go), and which project a package counts
    for (intersectConstraintsWithImports in gps/solver.go). */
module Overrides {
  import opened Constraints
  import opened Identifiers
  import opened Bridge
  import opened PrefixTrees
  import opened ImportConstraints

  /** What a manifest says about a project it depends on. */
  datatype Properties = Properties(source: string, constraint: Constraint)

  type Manifest = map<ProjectRoot, Properties>

  /** overrideAll, for the manifest's entries in the given order. */
  function OverrideAll(c: Context, m: Manifest, order: seq<ProjectRoot>): (ws: seq<Working>)
    requires forall r <- order :: r in m
    ensures |ws| == |order|
  {
    seq(|order|, i requires 0 <= i < |order| => Overridden(c, order[i], m[order[i]].source, m[order[i]].constraint))
  }

  /** The loop of overrideAll. */
  method OverrideEach(c: Context, m: Manifest, order: seq<ProjectRoot>) returns (out: seq<Working>)
    requires forall r <- order :: r in m
    ensures out == OverrideAll(c, m, order)
  {
    out := [];
    for k := 0 to |order|
      invariant out == OverrideAll(c, m, order)[..k]
    {
      out := out + [Overridden(c, order[k], m[order[k]].source, m[order[k]].constraint)];
    }
  }

  // ------------------------------------------------------------------ who decides

  /** The constraint that holds for r: that of an override that has one, else the manifest's. */
  ghost predicate Decides(c: Context, m: Manifest, r: ProjectRoot, constraint: Constraint) {
    if r in c.overrides && c.overrides[r].constraint.Some? then Some(constraint) == c.overrides[r].constraint
    else if r in m then constraint == m[r].constraint
    else constraint == Any
  }

  /** The source: that of an override that has one, else the manifest's, else none. */
  ghost predicate Sources(c: Context, m: Manifest, r: ProjectRoot, source: string) {
    if r in c.overrides && c.overrides[r].source != "" then source == c.overrides[r].source
    else if r in m then source == m[r].source
    else source == ""
  }

  ghost predicate Follows(c: Context, m: Manifest, r: ProjectRoot, w: Working) {
    w.ident.root == r && Decides(c, m, r, w.constraint) && Sources(c, m, r, w.ident.source)
  }

  ghost predicate TrieFollows(c: Context, m: Manifest, xt: Trie) {
    forall r <- xt :: Follows(c, m, r, xt[r])
  }

  lemma ManifestEntryFollows(c: Context, m: Manifest, r: ProjectRoot)
    requires r in m
    ensures Follows(c, m, r, Overridden(c, r, m[r].source, m[r].constraint))
  {
  }

  lemma DeducedEntryFollows(c: Context, m: Manifest, r: ProjectRoot)
    requires r !in m
    ensures Follows(c, m, r, Overridden(c, r, "", Any))
  {
  }

  lemma {:induction false} InsertedFollows(c: Context, m: Manifest, ws: seq<Working>, order: seq<ProjectRoot>)
    requires (forall r <- order :: r in m) && ws == OverrideAll(c, m, order)
    ensures TrieFollows(c, m, Inserted(ws)) && forall r :: r in Inserted(ws) <==> r in order
    decreases |ws|
  {
    hide Follows, Overridden;
    if ws != [] {
      var n := |ws| - 1;
      assert order == order[..n] + [order[n]];
      assert ws[..n] == OverrideAll(c, m, order[..n]);
      InsertedFollows(c, m, ws[..n], order[..n]);
      ManifestEntryFollows(c, m, order[n]);
      RootOfOverridden(c, order[n], m[order[n]].source, m[order[n]].constraint);
    }
  }

  lemma RootOfOverridden(c: Context, r: ProjectRoot, source: string, constraint: Constraint)
    ensures Overridden(c, r, source, constraint).ident.root == r
  {
  }

  /** A root is deduced for a package only if no known one is above it, so never one of the
      manifest's, as deduced roots are above their packages. */
  ghost predicate NewRoots(c: Context, xt: Trie, m: Manifest, reach: seq<Package>) {
    forall i :: 0 <= i < |reach| ==> NewRootAt(c, xt, m, reach, i)
  }

  ghost predicate NewRootAt(c: Context, xt: Trie, m: Manifest, reach: seq<Package>, i: nat)
    requires i < |reach|
  {
    PlaceAll(c, xt, reach[..i]).Some? ==> var s := PlaceAll(c, xt, reach[..i]).value;
      Match(s.xt, reach[i]).None? && c.deduce(reach[i]).Some? && !c.stdLib(reach[i]) ==> c.deduce(reach[i]).value !in m
  }

  lemma {:induction false} PlacedFollows(c: Context, m: Manifest, xt: Trie, reach: seq<Package>)
    requires TrieFollows(c, m, xt) && NewRoots(c, xt, m, reach) && PlaceAll(c, xt, reach).Some?
    ensures TrieFollows(c, m, PlaceAll(c, xt, reach).value.xt)
  {
    hide Follows, Match, Overridden;
    if reach != [] {
      var n := |reach| - 1;
      var init := reach[..n];
      assert NewRootAt(c, xt, m, reach, n);
      forall i | 0 <= i < n ensures NewRootAt(c, xt, m, init, i) { assert NewRootAt(c, xt, m, reach, i) && init[..i] == reach[..i]; }
      PlacedFollows(c, m, xt, init);
      var s := PlaceAll(c, xt, init).value;
      if !c.stdLib(reach[n]) && Match(s.xt, reach[n]).None? {
        DeducedEntryFollows(c, m, c.deduce(reach[n]).value);
      }
    }
  }

  /** Each dependency has the constraint and the source that the root's overrides give its project, or
      else the manifest, or else none. */
  lemma DependenciesFollowOverrides(c: Context, m: Manifest, order: seq<ProjectRoot>, reach: seq<Package>)
    requires (forall r <- order :: r in m) && NoDup(reach)
    requires var xt := Inserted(OverrideAll(c, m, order)); NewRoots(c, xt, m, reach) && PlaceAll(c, xt, reach).Some?
    ensures var dmap := PlaceAll(c, Inserted(OverrideAll(c, m, order)), reach).value.dmap;
            forall r <- dmap :: Decides(c, m, r, dmap[r].constraint) && Sources(c, m, r, dmap[r].ident.source) && dmap[r].ident.root == r
  {
    var xt := Inserted(OverrideAll(c, m, order));
    InsertedFollows(c, m, OverrideAll(c, m, order), order);
    InsertedIsFiled(OverrideAll(c, m, order));
    PlacedFollows(c, m, xt, reach);
    AllFormed(c, xt, reach);
    var s := PlaceAll(c, xt, reach).value;
    hide PlaceAll, Decides, Sources;
    forall r | r in s.dmap ensures Follows(c, m, r, Working(s.dmap[r].ident, s.dmap[r].constraint)) {
      assert FormedAt(s, Elems(reach), r);
    }
  }

  lemma UnambiguousRootIsNew(c: Context, m: Manifest, order: seq<ProjectRoot>, reach: seq<Package>, i: nat)
    requires Listing(order, m.Keys) && (forall r <- order :: r in m) && i < |reach|
    requires var xt := Inserted(OverrideAll(c, m, order)); NoDup(reach) && Unambiguous(c, xt, reach) && PlaceAll(c, xt, reach[..i]).Some?
    ensures NewRootAt(c, Inserted(OverrideAll(c, m, order)), m, reach, i)
  {
    var xt := Inserted(OverrideAll(c, m, order));
    var s, rp := PlaceAll(c, xt, reach[..i]).value, reach[i];
    InsertedFollows(c, m, OverrideAll(c, m, order), order);
    TrieGrows(c, xt, reach[..i]);
    TrieHasRoots(c, xt, reach[..i]);
    hide PlaceAll, Unambiguous, PathPrefix, Root, TrieFollows, Inserted;
    if c.deduce(rp).Some? && c.deduce(rp).value in m {
      var r := c.deduce(rp).value;
      assert r in order by { assert r in Elems(order); }
      DeducedIsAbove(c, xt, reach, rp);
      LongestExists(s.xt, r, rp);
      var k := LongestPrefix(s.xt, rp).value;
      RootHere(c, xt, reach, r);
      RootOfMore(c, xt, reach, i, k);
      LongestMatches(c, xt, reach, s.xt, rp, r, k);
    }
  }

  lemma RootHere(c: Context, xt: Trie, reach: seq<Package>, r: ProjectRoot)
    requires r in xt
    ensures Root(c, xt, reach, r)
  {
  }

  lemma {:induction false} TrieGrows(c: Context, xt: Trie, reach: seq<Package>)
    requires PlaceAll(c, xt, reach).Some?
    ensures forall r <- xt :: r in PlaceAll(c, xt, reach).value.xt
  {
    hide Match;
    if reach != [] { TrieGrows(c, xt, reach[..|reach| - 1]); }
  }

  /** That is always so if the roots are unambiguous. */
  lemma UnambiguousRootsAreNew(c: Context, m: Manifest, order: seq<ProjectRoot>, reach: seq<Package>)
    requires Listing(order, m.Keys) && (forall r <- order :: r in m)
    requires var xt := Inserted(OverrideAll(c, m, order)); NoDup(reach) && Unambiguous(c, xt, reach) && PlaceAll(c, xt, reach).Some?
    ensures NewRoots(c, Inserted(OverrideAll(c, m, order)), m, reach)
  {
    var xt := Inserted(OverrideAll(c, m, order));
    hide NewRootAt, Inserted;
    forall i | 0 <= i < |reach| ensures NewRootAt(c, xt, m, reach, i) {
      if PlaceAll(c, xt, reach[..i]).Some? {
        UnambiguousRootIsNew(c, m, order, reach, i);
      } else {
        FailsForGood(c, xt, reach, i);
        assert false;
      }
    }
  }

  // ------------------------------------------------------------------ which project a package counts for

  /** r is the longest of these roots that is above the package. */
  ghost predicate Nearest(xt: Trie, rp: Package, r: ProjectRoot) {
    r in xt && PathPrefix(r, rp) && forall k <- xt :: PathPrefix(k, rp) ==> |k| <= |r|
  }

  /** A package counts for the nearest known root above it, if no other known name is a false prefix
      of it; and for its deduced root if no known root is above it. */
  lemma NearestRootIsHome(c: Context, xt: Trie, rp: Package, r: ProjectRoot)
    requires Filed(xt) && forall k <- xt :: Prefix(k, rp) ==> PathPrefix(k, rp)
    ensures Nearest(xt, rp, r) ==> Home(c, xt, rp) == Some(r)
    ensures (forall k <- xt :: !PathPrefix(k, rp)) ==> Home(c, xt, rp) == c.deduce(rp)
  {
    var pre := LongestPrefix(xt, rp);
    if Nearest(xt, rp, r) {
      assert |pre.value| == |r|;
      PrefixesCompare(pre.value, r, rp);
    }
  }

  /** A package outside the standard library goes where it counts, the rest stays as it is. */
  lemma PlacedAtHome(c: Context, s: Progress, rp: Package)
    requires Place(c, s, rp).Some? && Filed(s.xt)
    ensures c.stdLib(rp) ==> Place(c, s, rp).value == s
    ensures !c.stdLib(rp) ==>
              && Home(c, s.xt, rp).Some?
              && var r, t := Home(c, s.xt, rp).value, Place(c, s, rp).value;
              r in t.dmap && rp in t.dmap[r].pl && forall q :: q != r ==> (q in t.dmap <==> q in s.dmap) && (q in s.dmap ==> t.dmap[q] == s.dmap[q])
  {
  }
}
