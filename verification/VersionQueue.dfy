/** The lazily filled queue of versions still to try for a project (gps/version_queue.go). */
module VersionQueues {
  import opened Constraints
  import opened Identifiers
  import opened Bridge
  import opened Satisfy

  /** The listed versions that are neither the lock's nor the preferred one, in list order. */
  function Unlisted(l: seq<Version>, lockv: Option<Version>, prefv: Option<Version>): (r: seq<Version>)
    ensures |r| <= |l|
  {
    if l == [] then []
    else
      var last := l[|l| - 1];
      Unlisted(l[..|l| - 1], lockv, prefv) + if Some(last) == lockv || Some(last) == prefv then [] else [last]
  }

  function Given(o: Option<Version>): seq<Version> {
    match o case Some(v) => [v] case None => []
  }

  function Listed(w: World, id: ProjectIdentifier): seq<Version> {
    match w.versions(id) case Some(l) => l case None => []
  }

  /** Everything a fresh queue will offer. */
  function Offer(w: World, id: ProjectIdentifier, lockv: Option<Version>, prefv: Option<Version>): seq<Version> {
    Given(lockv) + Given(prefv) + Unlisted(Listed(w, id), lockv, prefv)
  }

  lemma {:induction false} UnlistedIs(l: seq<Version>, lockv: Option<Version>, prefv: Option<Version>)
    ensures forall v :: v in Unlisted(l, lockv, prefv) <==> v in l && Some(v) != lockv && Some(v) != prefv
    ensures NoDup(l) ==> NoDup(Unlisted(l, lockv, prefv))
  {
    if l != [] {
      UnlistedIs(l[..|l| - 1], lockv, prefv);
      assert l == l[..|l| - 1] + [l[|l| - 1]];
    }
  }

  /** Nothing is lost and, unless lock and preference coincide, nothing is tried twice. */
  lemma OfferIsComplete(w: World, id: ProjectIdentifier, lockv: Option<Version>, prefv: Option<Version>)
    ensures forall v :: v in Offer(w, id, lockv, prefv) <==> v in Listed(w, id) || Some(v) == lockv || Some(v) == prefv
    ensures NoDup(Listed(w, id)) && (lockv.None? || lockv != prefv) ==> NoDup(Offer(w, id, lockv, prefv))
  {
    UnlistedIs(Listed(w, id), lockv, prefv);
  }

  lemma UnlistedSplit(l: seq<Version>, lockv: Option<Version>, prefv: Option<Version>, a: nat, b: nat)
    requires a <= b <= |l|
    requires forall i :: a <= i < b ==> Some(l[i]) != lockv && Some(l[i]) != prefv
    ensures Unlisted(l[..b], lockv, prefv) == Unlisted(l[..a], lockv, prefv) + l[a..b]
    decreases b
  {
    if a < b {
      UnlistedSplit(l, lockv, prefv, a, b - 1);
      assert l[..b][..b - 1] == l[..b - 1];
      assert l[a..b] == l[a..b - 1] + [l[b - 1]];
    } else {
      assert l[a..b] == [];
    }
  }

  predicate Unwanted(v: Version, lockv: Option<Version>, prefv: Option<Version>) {
    Some(v) == lockv || Some(v) == prefv
  }

  /** keys are, in order, the positions of the unwanted versions among the first n. */
  ghost predicate Keys(l: seq<Version>, lockv: Option<Version>, prefv: Option<Version>, n: nat, keys: seq<nat>)
    requires n <= |l|
  {
    && (forall k :: 0 <= k < |keys| ==> keys[k] < n)
    && (forall j, k :: 0 <= j < k < |keys| ==> keys[j] < keys[k])
    && (forall m :: 0 <= m < n ==> (m in keys <==> Unwanted(l[m], lockv, prefv)))
  }

  /** Between two recorded positions nothing is unwanted. */
  ghost predicate Point(l: seq<Version>, lockv: Option<Version>, prefv: Option<Version>, delkeys: seq<nat>, k: nat)
    requires k < |delkeys|
  {
    var done, key := Done(delkeys, k), delkeys[k];
    && done <= key < |l|
    && Unlisted(l[..key], lockv, prefv) == Unlisted(l[..done], lockv, prefv) + l[done..key]
    && Unlisted(l[..key + 1], lockv, prefv) == Unlisted(l[..key], lockv, prefv)
  }

  lemma KeysGivePoint(l: seq<Version>, lockv: Option<Version>, prefv: Option<Version>, delkeys: seq<nat>, k: nat)
    requires k < |delkeys| && Keys(l, lockv, prefv, |l|, delkeys)
    ensures Point(l, lockv, prefv, delkeys, k)
  {
    var done := Done(delkeys, k);
    assert forall m :: done <= m < delkeys[k] ==> m !in delkeys;
    UnlistedSplit(l, lockv, prefv, done, delkeys[k]);
    assert l[..delkeys[k] + 1][..delkeys[k]] == l[..delkeys[k]];
    assert delkeys[k] in delkeys;
  }

  function Done(delkeys: seq<nat>, k: nat): nat
    requires k <= |delkeys|
  {
    if k == 0 then 0 else delkeys[k - 1] + 1
  }

  /** The list after k of the deletions, each at its recorded position less those before it. */
  function Deleted(l: seq<Version>, delkeys: seq<nat>, k: nat): seq<Version>
    requires k <= |delkeys|
  {
    if k == 0 then l
    else
      var now, dk := Deleted(l, delkeys, k - 1), delkeys[k - 1] - (k - 1);
      if 0 <= dk < |now| then now[..dk] + now[dk + 1..] else now
  }

  /** It is the filtered start of the list followed by its untouched end. */
  ghost predicate DeletedSoFar(l: seq<Version>, lockv: Option<Version>, prefv: Option<Version>, delkeys: seq<nat>, k: nat)
    requires k <= |delkeys|
  {
    var done := Done(delkeys, k);
    && done <= |l| && |Unlisted(l[..done], lockv, prefv)| == done - k
    && Deleted(l, delkeys, k) == Unlisted(l[..done], lockv, prefv) + l[done..]
  }

  lemma DeleteNext(l: seq<Version>, delkeys: seq<nat>, k: nat)
    requires k < |delkeys| && k <= delkeys[k] < k + |Deleted(l, delkeys, k)|
    ensures var now, dk := Deleted(l, delkeys, k), delkeys[k] - k;
            Deleted(l, delkeys, k + 1) == now[..dk] + now[dk + 1..]
  {
  }

  lemma OneMoreDeleted(l: seq<Version>, lockv: Option<Version>, prefv: Option<Version>, delkeys: seq<nat>, k: nat)
    requires k < |delkeys| && Point(l, lockv, prefv, delkeys, k) && DeletedSoFar(l, lockv, prefv, delkeys, k)
    ensures DeletedSoFar(l, lockv, prefv, delkeys, k + 1)
  {
    hide Unlisted, Deleted;
    var done, key := Done(delkeys, k), delkeys[k];
    var u0, u := Unlisted(l[..done], lockv, prefv), Unlisted(l[..key], lockv, prefv);
    assert |u| == key - k;
    DeletionStep(u0, u, l, done, key, k);
    DeleteNext(l, delkeys, k);
  }

  lemma {:induction false} DeletedIs(l: seq<Version>, lockv: Option<Version>, prefv: Option<Version>, delkeys: seq<nat>, k: nat)
    requires k <= |delkeys| && forall j :: 0 <= j < |delkeys| ==> Point(l, lockv, prefv, delkeys, j)
    ensures DeletedSoFar(l, lockv, prefv, delkeys, k)
  {
    if k == 0 {
      assert l[..0] == [] && l[0..] == l;
    } else {
      hide Unlisted, Point, Deleted;
      DeletedIs(l, lockv, prefv, delkeys, k - 1);
      OneMoreDeleted(l, lockv, prefv, delkeys, k - 1);
    }
  }

  lemma DeletionStep(u0: seq<Version>, u: seq<Version>, l: seq<Version>, done: nat, key: nat, k: nat)
    requires done <= key < |l| && u == u0 + l[done..key] && |u| == key - k
    ensures var now := u0 + l[done..];
            0 <= key - k < |now| && now[..key - k] + now[key - k + 1..] == u + l[key + 1..]
  {
    assert l[done..] == l[done..key] + l[key..];
    assert u0 + l[done..] == u + l[key..];
  }

  ghost predicate DeletionFits(l: seq<Version>, delkeys: seq<nat>, k: nat)
    requires k < |delkeys|
  {
    k <= delkeys[k] < |l| && |Deleted(l, delkeys, k)| == |l| - k
  }

  lemma DeletedAll(l: seq<Version>, lockv: Option<Version>, prefv: Option<Version>, delkeys: seq<nat>)
    requires Keys(l, lockv, prefv, |l|, delkeys)
    ensures Deleted(l, delkeys, |delkeys|) == Unlisted(l, lockv, prefv)
    ensures forall k :: 0 <= k < |delkeys| ==> DeletionFits(l, delkeys, k)
  {
    forall k | 0 <= k < |delkeys| ensures Point(l, lockv, prefv, delkeys, k) { KeysGivePoint(l, lockv, prefv, delkeys, k); }
    DeletedIs(l, lockv, prefv, delkeys, |delkeys|);
    var done := Done(delkeys, |delkeys|);
    assert forall m :: done <= m < |l| ==> m !in delkeys;
    UnlistedSplit(l, lockv, prefv, done, |l|);
    assert l[..|l|] == l;
    forall k | 0 <= k < |delkeys| ensures DeletionFits(l, delkeys, k) {
      DeletedIs(l, lockv, prefv, delkeys, k);
      assert Point(l, lockv, prefv, delkeys, k);
    }
  }

  method FindKeys(l: seq<Version>, lockv: Option<Version>, prefv: Option<Version>) returns (delkeys: seq<nat>)
    ensures Keys(l, lockv, prefv, |l|, delkeys)
  {
    delkeys := [];
    for i := 0 to |l|
      invariant Keys(l, lockv, prefv, i, delkeys)
    {
      if Unwanted(l[i], lockv, prefv) {
        delkeys := delkeys + [i];
      }
    }
  }

  /** Shifts everything above dk down by one; copy(pi[dk:], pi[dk+1:]) in the source. */
  method DeleteAt(pi: array<Version>, n: nat, dk: nat)
    requires dk < n <= pi.Length
    modifies pi
    ensures pi[..n - 1] == old(pi[..n])[..dk] + old(pi[..n])[dk + 1..]
  {
    forall j | dk <= j < n - 1 {
      pi[j] := pi[j + 1];
    }
  }

  /** Deletes the recorded positions from pi in place; n elements remain. */
  method DeleteKeys(pi: array<Version>, ghost l: seq<Version>, delkeys: seq<nat>) returns (n: nat)
    requires pi[..] == l
    requires forall k :: 0 <= k < |delkeys| ==> DeletionFits(l, delkeys, k)
    modifies pi
    ensures n <= pi.Length && pi[..n] == Deleted(l, delkeys, |delkeys|)
  {
    n := pi.Length;
    for k := 0 to |delkeys|
      invariant n == |l| - k && 0 <= n <= pi.Length
      invariant pi[..n] == Deleted(l, delkeys, k)
    {
      assert DeletionFits(l, delkeys, k);
      DeleteAt(pi, n, delkeys[k] - k);
      n := n - 1;
    }
  }

  /** The listed versions without lockv and prefv.  The list itself is not touched: deletion
      works on a copy. */
  method CopyWithout(l: seq<Version>, lockv: Option<Version>, prefv: Option<Version>) returns (kept: seq<Version>)
    ensures kept == Unlisted(l, lockv, prefv)
  {
    var pi := new Version[|l|](i requires 0 <= i < |l| => l[i]);
    assert pi[..] == l;
    var delkeys := FindKeys(l, lockv, prefv);
    DeletedAll(l, lockv, prefv, delkeys);
    var n := DeleteKeys(pi, l, delkeys);
    kept := pi[..n];
  }

  class VersionQueue {
    const id: ProjectIdentifier
    const lockv: Option<Version>
    const prefv: Option<Version>
    var pi: seq<Version>
    var fails: seq<FailedVersion>
    var failed: bool
    var allLoaded: bool
    var adverr: bool

    /** Every version not yet given up on, in the order they will be tried. */
    function Rest(w: World): seq<Version>
      reads this`pi, this`allLoaded
    {
      pi + if allLoaded then [] else Unlisted(Listed(w, id), lockv, prefv)
    }

    ghost predicate Valid()
      reads this`pi, this`allLoaded, this`adverr
    {
      (pi == [] ==> allLoaded) && (adverr ==> pi == [])
    }

    constructor (id: ProjectIdentifier, lockv: Option<Version>, prefv: Option<Version>)
      ensures this.id == id && this.lockv == lockv && this.prefv == prefv
      ensures pi == Given(lockv) + Given(prefv) && fails == [] && !failed && !allLoaded && !adverr
    {
      this.id := id;
      this.lockv := lockv;
      this.prefv := prefv;
      fails, failed, allLoaded, adverr := [], false, false, false;
      new;
      pi := [];
      if lockv.Some? {
        pi := pi + [lockv.value];
      }
      if prefv.Some? {
        pi := pi + [prefv.value];
      }
    }

    function Current(): Option<Version>
      reads this`pi
    {
      if |pi| > 0 then Some(pi[0]) else None
    }

    /** Gives up on the current version.  The rest moves up by one, whatever mix of loaded and
        unloaded versions it consists of; a queue that runs dry keeps its failure mark. */
    method Advance(w: World, fail: Option<Failure>) returns (ok: bool)
      requires Valid()
      modifies this
      ensures Valid()
      ensures ok == !adverr
      ensures old(adverr) || old(pi) == [] ==>
                pi == old(pi) && fails == old(fails) && failed == old(failed) && allLoaded == old(allLoaded) && adverr == old(adverr)
      ensures !old(adverr) && old(pi) != [] ==>
                && Rest(w) == old(Rest(w))[1..]
                && fails == old(fails) + [FailedVersion(old(pi)[0], fail)]
                && failed == (old(failed) && pi == [])
                && adverr == (pi == [] && !old(allLoaded) && w.versions(id).None?)
    {
      if adverr || |pi| == 0 {
        return !adverr;
      }
      fails := fails + [FailedVersion(pi[0], fail)];
      pi := pi[1..];
      if |pi| == 0 {
        if allLoaded {
          return true;
        }
        allLoaded := true;
        var l := w.versions(id);
        if l.None? {
          adverr := true;
          return false;
        }
        pi := CopyWithout(l.value, lockv, prefv);
        if |pi| == 0 {
          return true;
        }
      }
      failed := false;
      return true;
    }

    function IsExhausted(): bool
      reads this`pi, this`allLoaded
    {
      if !allLoaded then false else |pi| == 0
    }
  }

  /** Fails only when the versions had to be listed at once and could not be. */
  method NewVersionQueue(w: World, id: ProjectIdentifier, lockv: Option<Version>, prefv: Option<Version>) returns (q: VersionQueue?)
    ensures q == null <==> lockv.None? && prefv.None? && w.versions(id).None?
    ensures q != null ==> fresh(q) && q.Valid() && q.id == id && q.lockv == lockv && q.prefv == prefv
    ensures q != null ==> q.Rest(w) == Offer(w, id, lockv, prefv)
    ensures q != null ==> q.pi == (if lockv.None? && prefv.None? then Listed(w, id) else Given(lockv) + Given(prefv))
    ensures q != null ==> q.fails == [] && !q.failed && !q.adverr && (q.allLoaded <==> lockv.None? && prefv.None?)
  {
    q := new VersionQueue(id, lockv, prefv);
    if |q.pi| == 0 {
      var l := w.versions(id);
      if l.None? {
        return null;
      }
      q.pi := l.value;
      q.allLoaded := true;
      UnlistedSplit(l.value, None, None, 0, |l.value|);
      assert l.value[..|l.value|] == l.value;
    }
  }
}
