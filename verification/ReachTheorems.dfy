/** What wmToReach returns, on every graph and, exactly, on graphs without import cycles. */
module ReachTheorems {
  import opened Constraints
  import opened Identifiers
  import Bridge
  import opened ImportGraph
  import opened ReachTables
  import opened ReachState

  type ReachMap = Bridge.ReachMap

  /** Whatever is listed for a package is imported by something it reaches, and its own imports
      are listed. */
  ghost predicate SoundAt(g: Graph, rm: ReachMap, p: Package) {
    p in rm ==>
      && Ok(g, p) && g[p].ex <= rm[p].externals && g[p].ins <= rm[p].internals
      && (forall x :: x in rm[p].externals ==> Imported(g, External, p, x))
      && (forall x :: x in rm[p].internals ==> Imported(g, Internal, p, x))
  }

  /** Every package is listed or explained, never both; explanations lead to an actual error. */
  ghost predicate AccountedAt(g: Graph, bp: bool, rm: ReachMap, errs: Problems, p: Package) {
    && (p in g ==> (p in rm <==> p !in errs))
    && (p in errs ==> p in g && Genuine(g, p, errs[p]))
    && (!bp && p in g ==> (p in rm <==> Ok(g, p)))
  }

  /** The package is listed exactly if nothing is wrong with what it imports, and its lists are
      its transitive closures. */
  ghost predicate ExactAt(g: Graph, bp: bool, rm: ReachMap, p: Package) {
    && (p in rm <==> Ok(g, p) && (bp ==> !ReachesBad(g, p)))
    && (p in rm ==> (forall x :: x in rm[p].externals <==> Imported(g, External, p, x))
                    && forall x :: x in rm[p].internals <==> Imported(g, Internal, p, x))
  }

  ghost predicate Reached(g: Graph, bp: bool, rm: ReachMap, errs: Problems) {
    && (forall p :: SoundAt(g, rm, p))
    && (forall p :: AccountedAt(g, bp, rm, errs, p))
    && (Acyclic(g) ==> forall p :: ExactAt(g, bp, rm, p))
  }

  // ------------------------------------------------------------------ from the final state

  ghost predicate Explored(g: Graph, bp: bool, s: St) {
    Inv(g, bp, s, []) && forall p <- g :: Done(s, p)
  }

  /** The two tables, package by package. */
  ghost function MapOf(s: St): ReachMap {
    map p | p in s.ex.vals && p in s.ins.vals :: Bridge.Reach(s.ins.vals[p], s.ex.vals[p])
  }

  lemma FinalSound(g: Graph, bp: bool, s: St, p: Package)
    requires Explored(g, bp, s)
    ensures SoundAt(g, MapOf(s), p)
  {
    assert EntryOk(g, External, s.ex, p) && EntryOk(g, Internal, s.ins, p);
  }

  lemma FinalAccounted(g: Graph, bp: bool, s: St, p: Package)
    requires Explored(g, bp, s)
    ensures AccountedAt(g, bp, MapOf(s), s.errs, p)
  {
    assert Accounted(g, bp, s, p) && EntryOk(g, External, s.ex, p);
    hide Genuine;
  }

  /** Without cycles everything a kept package reaches is kept, with smaller sets. */
  lemma {:induction false} ReachedIsInside(g: Graph, bp: bool, s: St, p: Package, c: seq<Package>)
    requires Closed(g, bp, s) && Done(s, p) && Kept(s, p) && Chain(g, c) && c[0] == p
    ensures var q := c[|c| - 1];
            Done(s, q) && Kept(s, q) && s.ex.vals[q] <= s.ex.vals[p] && s.ins.vals[q] <= s.ins.vals[p]
    decreases |c|
  {
    if |c| > 1 {
      var init := c[..|c| - 1];
      var q, r := c[|c| - 2], c[|c| - 1];
      assert Chain(g, init);
      ReachedIsInside(g, bp, s, p, init);
      assert ClosedAt(g, bp, s, q) && Edge(g, q, r);
      assert Settled(g, bp, s, q, r) && Ok(g, r);
    }
  }

  lemma ImportedIsListed(g: Graph, bp: bool, s: St, kind: Kind, p: Package, x: Package)
    requires Explored(g, bp, s) && Closed(g, bp, s) && Done(s, p) && Kept(s, p) && Imported(g, kind, p, x)
    ensures x in (if kind.External? then s.ex.vals[p] else s.ins.vals[p])
  {
    var q :| Reaches(g, p, q) && x in Label(g, kind, q);
    var c :| Connects(g, c, p, q);
    ReachedIsInside(g, bp, s, p, c);
    assert EntryOk(g, External, s.ex, q) && EntryOk(g, Internal, s.ins, q);
  }

  /** What a kept package leads to has no error. */
  lemma NextIsOk(g: Graph, s: St, p: Package, c: seq<Package>, r: Package)
    requires Explored(g, true, s) && Closed(g, true, s) && Done(s, p) && Kept(s, p)
    requires Chain(g, c) && c[0] == p && Edge(g, c[|c| - 1], r)
    ensures Ok(g, r)
  {
    var q := c[|c| - 1];
    ReachedIsInside(g, true, s, p, c);
    assert ClosedAt(g, true, s, q) && Settled(g, true, s, q, r);
    assert EntryOk(g, External, s.ex, r);
  }

  lemma KeptReachesNoBad(g: Graph, s: St, p: Package, c: seq<Package>)
    requires Explored(g, true, s) && Closed(g, true, s) && Done(s, p) && Kept(s, p) && c != [] && c[0] == p
    ensures !BadChain(g, c)
  {
    assert EntryOk(g, External, s.ex, p);
    if |c| > 1 && Chain(g, c[..|c| - 1]) && Edge(g, c[|c| - 2], c[|c| - 1]) {
      NextIsOk(g, s, p, c[..|c| - 1], c[|c| - 1]);
    }
  }

  lemma FinalExact(g: Graph, bp: bool, s: St, p: Package)
    requires Explored(g, bp, s) && Acyclic(g)
    ensures ExactAt(g, bp, MapOf(s), p)
  {
    FinalSound(g, bp, s, p);
    FinalAccounted(g, bp, s, p);
    if Kept(s, p) {
      assert ColorFits(s, [], p);
      forall x | Imported(g, External, p, x) ensures x in s.ex.vals[p] { ImportedIsListed(g, bp, s, External, p, x); }
      forall x | Imported(g, Internal, p, x) ensures x in s.ins.vals[p] { ImportedIsListed(g, bp, s, Internal, p, x); }
      if bp && ReachesBad(g, p) {
        var c :| BadChain(g, c) && c[0] == p;
        KeptReachesNoBad(g, s, p, c);
      }
    } else if Ok(g, p) && bp {
      assert p in s.errs && BadChain(g, [p] + s.errs[p].cause);
    }
  }

  lemma FinalReached(g: Graph, bp: bool, s: St)
    requires Explored(g, bp, s)
    ensures Reached(g, bp, MapOf(s), s.errs)
  {
    hide Explored, SoundAt, AccountedAt, ExactAt;
    forall p ensures SoundAt(g, MapOf(s), p) { FinalSound(g, bp, s, p); }
    forall p ensures AccountedAt(g, bp, MapOf(s), s.errs, p) { FinalAccounted(g, bp, s, p); }
    if Acyclic(g) {
      forall p ensures ExactAt(g, bp, MapOf(s), p) { FinalExact(g, bp, s, p); }
    }
  }

  // ------------------------------------------------------------------ what the solver needs

  /** Without import cycles the reach map is closed, which the solver's undoing relies on. */
  lemma AcyclicMapIsClosed(w: Bridge.World, g: Graph, rm: ReachMap, errs: Problems)
    requires Reached(g, true, rm, errs) && Acyclic(g) && forall p :: Ok(g, p) ==> !w.ignored(p)
    ensures Bridge.ClosedReach(w, rm)
  {
    forall p, q | p in rm && q in rm[p].internals
      ensures q in rm && rm[q].internals <= rm[p].internals && rm[q].externals <= rm[p].externals
    {
      assert ExactAt(g, true, rm, p);
      ListedIsKept(g, rm, p, q);
      forall x | x in rm[q].internals ensures x in rm[p].internals {
        assert ExactAt(g, true, rm, q);
        ImportedFrom(g, Internal, p, q, x);
      }
      forall x | x in rm[q].externals ensures x in rm[p].externals {
        assert ExactAt(g, true, rm, q);
        ImportedFrom(g, External, p, q, x);
      }
    }
    forall p | p in rm ensures !w.ignored(p) { assert SoundAt(g, rm, p); }
  }

  lemma ListedIsKept(g: Graph, rm: ReachMap, p: Package, q: Package)
    requires (forall r :: ExactAt(g, true, rm, r)) && p in rm && q in rm[p].internals
    ensures q in rm && Reaches(g, p, q)
  {
    assert ExactAt(g, true, rm, p) && ExactAt(g, true, rm, q);
    var r :| Reaches(g, p, r) && q in Label(g, Internal, r);
    if !Ok(g, q) { MissingIsBad(g, q); }
    if ReachesBad(g, q) {
      BadIsReached(g, p, r, q);
      assert false;
    }
    ReachesNext(g, p, r, q);
  }

  lemma BadIsReached(g: Graph, p: Package, r: Package, q: Package)
    requires Reaches(g, p, r) && Edge(g, r, q) && ReachesBad(g, q)
    ensures ReachesBad(g, p)
  {
    var c :| Connects(g, c, p, r);
    var d :| BadChain(g, d) && d[0] == q;
    PathToBad(g, c, d, 0);
    assert c[0..] == c && (c + d)[0] == p;
  }
}
