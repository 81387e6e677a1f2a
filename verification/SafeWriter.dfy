/** Writing manifest, lock and vendor tree in one transaction: new ones are moved in one by one,
    and a failed move puts the old ones back (txn_writer.go). */
module SafeWriters {
  import opened Constraints
  import opened Identifiers

  datatype Target = Manifest | LockFile | VendorTree

  /** The targets themselves, the directory vendor.orig beside them, and in the temporary
      directory what is to be moved in and what was moved out. */
  datatype Path = At(t: Target) | VendorOrig | Prepared(t: Target) | MovedOut(t: Target)

  datatype Content = File(text: string) | Dir(tree: map<string, string>)

  type Disk = map<Path, Content>
  type News = map<Target, Content>

  /** The order in which targets are replaced. */
  function Order(): seq<Target> { [Manifest, LockFile, VendorTree] }

  /** Which renames fail: moving a target out, moving the new one in, moving the old one back;
      and whether removing vendor.orig at the end does. */
  datatype Faults = Faults(out: Target -> bool, into: Target -> bool, back: Target -> bool, cleanup: bool)

  function Get(d: Disk, p: Path): Option<Content> { if p in d then Some(d[p]) else None }

  /** Manifest and lock are files; the vendor tree is a directory. */
  predicate Shaped(news: News) {
    forall t <- news :: !t.VendorTree? ==> news[t].File?
  }

  predicate NoTemp(d: Disk) {
    forall t :: Prepared(t) !in d && MovedOut(t) !in d
  }

  // ------------------------------------------------------------------ the outcome

  /** Replacing t fails. */
  predicate Fails(before: Disk, news: News, f: Faults, t: Target) {
    t in news && ((At(t) in before && f.out(t)) || f.into(t))
  }

  /** How many targets are dealt with before the first failure. */
  function Progress(before: Disk, news: News, f: Faults, i: nat): (k: nat)
    requires i <= |Order()|
    ensures i <= k <= |Order()|
    ensures forall j :: i <= j < k ==> !Fails(before, news, f, Order()[j])
    ensures k < |Order()| ==> Fails(before, news, f, Order()[k])
    decreases |Order()| - i
  {
    if i == |Order()| || Fails(before, news, f, Order()[i]) then i else Progress(before, news, f, i + 1)
  }

  /** What the i-th target holds afterwards, k being how far the writing came. */
  function Final(before: Disk, news: News, f: Faults, k: nat, i: nat): Option<Content>
    requires i < |Order()|
  {
    var t := Order()[i];
    var old0 := Get(before, At(t));
    if t !in news || i > k then old0
    else if k == |Order()| then Some(news[t])
    else if old0.None? then (if i < k then Some(news[t]) else None)
    else if i == k && f.out(t) then old0
    else if f.back(t) then (if i < k then Some(news[t]) else None)
    else old0
  }

  predicate Ended(before: Disk, after: Disk, news: News, f: Faults, k: nat) {
    && (forall i :: 0 <= i < |Order()| ==> Get(after, At(Order()[i])) == Final(before, news, f, k, i))
    && NoTemp(after)
  }

  /** All or nothing, for what existed: if the renames that restore succeed, a failed write leaves
      every target that existed as it was. */
  lemma FailedWriteRestores(before: Disk, after: Disk, news: News, f: Faults, t: Target)
    requires var k := Progress(before, news, f, 0); k < |Order()| && Ended(before, after, news, f, k)
    requires At(t) in before && !f.back(t)
    ensures Get(after, At(t)) == Get(before, At(t))
  {
    var i := if t.Manifest? then 0 else if t.LockFile? then 1 else 2;
    assert Order()[i] == t;
  }

  /** But not for what did not: a new file moved in before the failure stays. */
  lemma FailedWriteLeaves(before: Disk, after: Disk, news: News, f: Faults, i: nat)
    requires var k := Progress(before, news, f, 0); k < |Order()| && Ended(before, after, news, f, k)
    requires i < |Order()| && At(Order()[i]) !in before
    ensures At(Order()[i]) in after <==> Order()[i] in news && i < Progress(before, news, f, 0)
  {
    assert Get(after, At(Order()[i])) == Final(before, news, f, Progress(before, news, f, 0), i);
  }

  /** A target that existed is lost exactly if it was moved out and could not be moved back. */
  lemma FailedWriteLoses(before: Disk, after: Disk, news: News, f: Faults, i: nat)
    requires var k := Progress(before, news, f, 0); k < |Order()| && Ended(before, after, news, f, k)
    requires i < |Order()| && At(Order()[i]) in before
    requires Order()[i] in news ==> news[Order()[i]] != before[At(Order()[i])]
    ensures var t, k := Order()[i], Progress(before, news, f, 0);
            Get(after, At(t)) != Get(before, At(t)) <==> t in news && i <= k && !(i == k && f.out(t)) && f.back(t)
  {
    assert Get(after, At(Order()[i])) == Final(before, news, f, Progress(before, news, f, 0), i);
  }

  /** Everything is written exactly if no rename that is needed fails: each new target must be moved in,
      and what it replaces must be moved out before. */
  lemma SucceedsUnlessFaulty(before: Disk, news: News, f: Faults)
    ensures Progress(before, news, f, 0) == |Order()| <==>
            forall t <- news :: !f.into(t) && (At(t) in before ==> !f.out(t))
  {
    var k := Progress(before, news, f, 0);
    assert Order()[0] == Manifest && Order()[1] == LockFile && Order()[2] == VendorTree;
    if k == |Order()| {
      forall t | t in news ensures !f.into(t) && (At(t) in before ==> !f.out(t)) {
        var i := if t.Manifest? then 0 else if t.LockFile? then 1 else 2;
        assert !Fails(before, news, f, Order()[i]);
      }
    } else {
      assert Fails(before, news, f, Order()[k]);
    }
  }

  /** The vendor tree comes last and the manifest first: if replacing either of the files fails, the tree
      is not touched, and a manifest that is new stays although the lock file failed. */
  lemma VendorTreeIsLast(before: Disk, after: Disk, news: News, f: Faults)
    requires Ended(before, after, news, f, Progress(before, news, f, 0))
    requires Fails(before, news, f, Manifest) || Fails(before, news, f, LockFile)
    ensures Get(after, At(VendorTree)) == Get(before, At(VendorTree))
    ensures !Fails(before, news, f, Manifest) && Manifest in news && At(Manifest) !in before ==> Get(after, At(Manifest)) == Some(news[Manifest])
  {
    var k := Progress(before, news, f, 0);
    assert Order()[0] == Manifest && Order()[1] == LockFile && Order()[2] == VendorTree;
    assert k <= 1 by { assert k > 0 ==> !Fails(before, news, f, Order()[0]); }
    assert Get(after, At(Order()[2])) == Final(before, news, f, k, 2);
    assert Get(after, At(Order()[0])) == Final(before, news, f, k, 0);
  }

  lemma FinishedWrite(before: Disk, after: Disk, news: News, f: Faults, t: Target)
    requires Progress(before, news, f, 0) == |Order()| && Ended(before, after, news, f, |Order()|)
    ensures Get(after, At(t)) == if t in news then Some(news[t]) else Get(before, At(t))
  {
    var i := if t.Manifest? then 0 else if t.LockFile? then 1 else 2;
    assert Order()[i] == t;
  }

  // ------------------------------------------------------------------ the code

  class FileSystem {
    var disk: Disk

    constructor (disk: Disk)
      ensures this.disk == disk
    {
      this.disk := disk;
    }

    /** A rename moves everything or nothing; it replaces a file but not a directory. */
    method Rename(src: Path, dst: Path, fault: bool) returns (ok: bool)
      requires src != dst
      modifies this
      ensures ok <==> !fault && src in old(disk) && (dst in old(disk) ==> old(disk)[dst].File?)
      ensures disk == if ok then old(disk)[dst := old(disk)[src]] - {src} else old(disk)
    {
      if fault || src !in disk || (dst in disk && disk[dst].Dir?) {
        return false;
      }
      disk := disk[dst := disk[src]] - {src};
      return true;
    }
  }

  /** Where the old content of a target waits: vendor goes beside itself if it can. */
  function Backup(before: Disk, t: Target): Path {
    if t.VendorTree? && VendorOrig !in before then VendorOrig else MovedOut(t)
  }

  function Position(t: Target): (i: nat)
    ensures i < |Order()| && Order()[i] == t
  {
    if t.Manifest? then 0 else if t.LockFile? then 1 else 2
  }

  /** Where everything about t is once the targets before position k are replaced. */
  ghost predicate Placed(before: Disk, d: Disk, news: News, k: nat, t: Target) {
    if t in news && Position(t) < k then
      && Get(d, At(t)) == Some(news[t]) && Prepared(t) !in d
      && (if At(t) in before then Get(d, Backup(before, t)) == Get(before, At(t)) else MovedOut(t) !in d)
    else
      && Get(d, At(t)) == Get(before, At(t)) && MovedOut(t) !in d
      && Get(d, Prepared(t)) == if t in news then Some(news[t]) else None
  }

  /** The same at the failing target: out of the way, or not even that. */
  ghost predicate Halted(before: Disk, d: Disk, news: News, f: Faults, k: nat, t: Target) {
    if Position(t) == k && At(t) in before && !f.out(t) then
      At(t) !in d && Get(d, Backup(before, t)) == Get(before, At(t))
    else Placed(before, d, news, k, t)
  }

  predicate MovesOut(before: Disk, news: News, f: Faults, k: nat, t: Target) {
    t in news && At(t) in before && (Position(t) < k || (Position(t) == k && !f.out(t)))
  }

  /** vendor.orig is as it was, unless it serves as the backup. */
  ghost predicate OrigOk(before: Disk, d: Disk, used: bool) {
    Get(d, VendorOrig) == if VendorOrig !in before && used then Get(before, At(VendorTree)) else Get(before, VendorOrig)
  }

  ghost predicate Running(before: Disk, d: Disk, news: News, f: Faults, k: nat, moved: seq<Target>) {
    && (forall t :: Placed(before, d, news, k, t))
    && OrigOk(before, d, VendorTree in moved)
    && NoDup(moved) && forall t :: t in moved <==> t in news && At(t) in before && Position(t) < k
  }

  ghost predicate Stopped(before: Disk, d: Disk, news: News, f: Faults, k: nat, moved: seq<Target>) {
    && (forall t :: Halted(before, d, news, f, k, t))
    && OrigOk(before, d, VendorTree in moved)
    && NoDup(moved) && forall t :: t in moved <==> MovesOut(before, news, f, k, t)
  }

  class SafeWriter {
    const fs: FileSystem
    const news: News
    const f: Faults

    constructor (fs: FileSystem, news: News, f: Faults)
      ensures this.fs == fs && this.news == news && this.f == f
    {
      this.fs, this.news, this.f := fs, news, f;
    }

    /** Moves the old target out, if there is one, and the new one in. */
    method Replace(t: Target, restore: seq<(Path, Path)>, ghost before: Disk, ghost moved: seq<Target>)
      returns (ok: bool, restore': seq<(Path, Path)>, ghost moved': seq<Target>)
      requires t in news && Shaped(news)
      requires Running(before, fs.disk, news, f, Position(t), moved) && restore == Pairs(before, moved)
      modifies fs
      ensures ok <==> !Fails(before, news, f, t)
      ensures if ok then Running(before, fs.disk, news, f, Position(t) + 1, moved')
              else Stopped(before, fs.disk, news, f, Position(t), moved')
      ensures restore' == Pairs(before, moved')
    {
      restore', moved' := restore, moved;
      ghost var d := fs.disk;
      CanReplace(before, d, news, f, t, moved);
      if At(t) in fs.disk {
        var backup := if t.VendorTree? && VendorOrig !in fs.disk then VendorOrig else MovedOut(t);
        ok := fs.Rename(At(t), backup, f.out(t));
        if !ok {
          NotMovedOut(before, d, news, f, t, moved);
          return;
        }
        restore', moved' := restore + [(backup, At(t))], moved + [t];
      }
      ghost var out := fs.disk;
      NotMovedIn(before, d, out, news, f, t, moved);
      ok := fs.Rename(Prepared(t), At(t), f.into(t));
      if ok {
        MovedIn(before, d, out, fs.disk, news, f, t, moved);
      }
    }

    /** Moves everything back, whatever fails on the way. */
    method Restore(restore: seq<(Path, Path)>, ghost before: Disk, ghost k: nat, ghost moved: seq<Target>)
      requires Shaped(news) && k < |Order()|
      requires Stopped(before, fs.disk, news, f, k, moved) && restore == Pairs(before, moved)
      modifies fs
      ensures Restored(before, fs.disk, news, f, k, moved, |moved|)
    {
      NoneRestored(before, fs.disk, news, f, k, moved);
      for j := 0 to |restore|
        invariant Restored(before, fs.disk, news, f, k, moved, j)
      {
        ghost var d := fs.disk;
        CanRestore(before, d, news, f, k, moved, j);
        var back := fs.Rename(restore[j].0, restore[j].1, f.back(restore[j].1.t));
        OneRestored(before, d, fs.disk, news, f, k, moved, j);
      }
    }

    /** Replaces the requested targets one after the other, up to the first failure. */
    method ReplaceAll(ghost before: Disk) returns (ok: bool, restore: seq<(Path, Path)>, ghost k: nat, ghost moved: seq<Target>)
      requires Shaped(news) && Running(before, fs.disk, news, f, 0, [])
      modifies fs
      ensures k == Progress(before, news, f, 0) && (ok <==> k == |Order()|) && restore == Pairs(before, moved)
      ensures if ok then Running(before, fs.disk, news, f, k, moved) else Stopped(before, fs.disk, news, f, k, moved)
    {
      hide Running, Stopped;
      var i := 0;
      restore, moved, ok := [], [], true;
      while i < |Order()| && ok
        invariant i <= |Order()| && restore == Pairs(before, moved)
        invariant if ok then Running(before, fs.disk, news, f, i, moved) else i < |Order()| && Stopped(before, fs.disk, news, f, i, moved)
        invariant Progress(before, news, f, 0) == if ok then Progress(before, news, f, i) else i
        decreases |Order()| - i, ok
      {
        var t := Order()[i];
        assert Position(t) == i;
        if t in news {
          ok, restore, moved := Replace(t, restore, before, moved);
        } else {
          NotRequested(before, fs.disk, news, f, i, moved);
        }
        if ok { i := i + 1; }
      }
      k := i;
    }

    /** The temporary directory goes, whatever happened. */
    method RemoveTemp()
      modifies fs
      ensures WithoutTemp(old(fs.disk), fs.disk)
    {
      fs.disk := map p | p in fs.disk && !p.Prepared? && !p.MovedOut? :: fs.disk[p];
    }

    /** Writes the new contents to the temporary directory. */
    method Prepare() returns (vendorbak: Option<Path>)
      requires NoTemp(fs.disk)
      modifies fs
      ensures Running(old(fs.disk), fs.disk, news, f, 0, [])
      ensures vendorbak == if At(VendorTree) in old(fs.disk) then Some(Backup(old(fs.disk), VendorTree)) else None
    {
      ghost var before := fs.disk;
      vendorbak := if At(VendorTree) in fs.disk then Some(Backup(fs.disk, VendorTree)) else None;
      fs.disk := fs.disk + map t | t in news :: Prepared(t) := news[t];
      ReadyToRun(before, fs.disk, news, f);
    }

    /** Everything is in place: the old vendor tree goes, if it can. */
    method Finish(vendorbak: Option<Path>, ghost before: Disk, ghost moved: seq<Target>)
      requires Running(before, fs.disk, news, f, |Order()|, moved)
      requires vendorbak == if At(VendorTree) in before then Some(Backup(before, VendorTree)) else None
      modifies fs
      ensures Ended(before, fs.disk, news, f, |Order()|) && Get(fs.disk, VendorOrig) == OrigAfter(before, news, f, |Order()|)
    {
      hide Running, Ended, WithoutTemp, OrigAfter;
      ghost var d := fs.disk;
      if VendorTree in news && vendorbak.Some? && !f.cleanup {
        fs.disk := fs.disk - {vendorbak.value};
      }
      RemoveTemp();
      AllReplaced(before, d, fs.disk, news, f, moved);
    }

    /** Writes all requested targets or, if a rename fails, puts the old ones back. */
    method Write() returns (ok: bool, ghost k: nat)
      requires Shaped(news) && NoTemp(fs.disk)
      modifies fs
      ensures k == Progress(old(fs.disk), news, f, 0) && (ok <==> k == |Order()|)
      ensures Ended(old(fs.disk), fs.disk, news, f, k)
      ensures Get(fs.disk, VendorOrig) == OrigAfter(old(fs.disk), news, f, k)
    {
      hide Running, Stopped, Restored, WithoutTemp, Ended, NoTemp, OrigAfter, Backup, Fails, Shaped;
      ghost var before := fs.disk;
      var vendorbak := Prepare();
      var restore;
      ghost var moved;
      ok, restore, k, moved := ReplaceAll(before);
      if ok {
        Finish(vendorbak, before, moved);
      } else {
        Restore(restore, before, k, moved);
        ghost var d := fs.disk;
        RemoveTemp();
        AllRestored(before, d, fs.disk, news, f, k, moved);
      }
    }
  }

  function Pairs(before: Disk, moved: seq<Target>): (ps: seq<(Path, Path)>)
    ensures |ps| == |moved| && forall i :: 0 <= i < |moved| ==> ps[i] == (Backup(before, moved[i]), At(moved[i]))
  {
    seq(|moved|, i requires 0 <= i < |moved| => (Backup(before, moved[i]), At(moved[i])))
  }

  lemma CanReplace(before: Disk, d: Disk, news: News, f: Faults, t: Target, moved: seq<Target>)
    requires t in news && Running(before, d, news, f, Position(t), moved)
    ensures Get(d, At(t)) == Get(before, At(t)) && Get(d, Prepared(t)) == Some(news[t]) && t !in moved
    ensures MovedOut(t) !in d && Backup(before, t) !in d && (t.VendorTree? ==> (VendorOrig in d <==> VendorOrig in before))
  {
    assert Placed(before, d, news, Position(t), t);
  }

  lemma NotMovedOut(before: Disk, d: Disk, news: News, f: Faults, t: Target, moved: seq<Target>)
    requires t in news && Running(before, d, news, f, Position(t), moved) && At(t) in before && f.out(t)
    ensures Stopped(before, d, news, f, Position(t), moved)
  {
    forall u ensures Halted(before, d, news, f, Position(t), u) { assert Placed(before, d, news, Position(t), u); }
    assert forall u :: Position(u) == Position(t) ==> u == t;
  }

  /** The old target is out of the way, if there was one. */
  ghost predicate Cleared(before: Disk, d: Disk, out: Disk, t: Target) {
    if At(t) in before then At(t) in d && out == d[Backup(before, t) := d[At(t)]] - {At(t)} else out == d
  }

  lemma NotMovedIn(before: Disk, d: Disk, out: Disk, news: News, f: Faults, t: Target, moved: seq<Target>)
    requires t in news && Running(before, d, news, f, Position(t), moved) && Cleared(before, d, out, t)
    requires At(t) in before ==> !f.out(t)
    ensures var m := if At(t) in before then moved + [t] else moved; Stopped(before, out, news, f, Position(t), m)
    ensures At(t) !in out && Get(out, Prepared(t)) == Some(news[t])
  {
    CanReplace(before, d, news, f, t, moved);
    assert forall u :: Position(u) == Position(t) ==> u == t;
    forall u ensures Halted(before, out, news, f, Position(t), u) { assert Placed(before, d, news, Position(t), u); }
  }

  lemma MovedInAt(before: Disk, d: Disk, out: Disk, d2: Disk, news: News, t: Target, u: Target)
    requires t in news && Placed(before, d, news, Position(t), t) && Placed(before, d, news, Position(t), u) && Cleared(before, d, out, t)
    requires VendorOrig in before ==> VendorOrig in d
    requires Prepared(t) in out && d2 == out[At(t) := out[Prepared(t)]] - {Prepared(t)}
    ensures Placed(before, d2, news, Position(t) + 1, u)
  {
    if u != t {
      assert Position(u) != Position(t) && Backup(before, t) != Backup(before, u);
      assert d2 == if At(t) in before then d[Backup(before, t) := d[At(t)]][At(t) := news[t]] - {Prepared(t)} else d[At(t) := news[t]] - {Prepared(t)};
    }
  }

  lemma MovedIn(before: Disk, d: Disk, out: Disk, d2: Disk, news: News, f: Faults, t: Target, moved: seq<Target>)
    requires t in news && Running(before, d, news, f, Position(t), moved) && Cleared(before, d, out, t)
    requires Prepared(t) in out && d2 == out[At(t) := out[Prepared(t)]] - {Prepared(t)}
    ensures var m := if At(t) in before then moved + [t] else moved; Running(before, d2, news, f, Position(t) + 1, m)
  {
    CanReplace(before, d, news, f, t, moved);
    assert forall u :: Position(u) == Position(t) ==> u == t;
    var k := Position(t) + 1;
    forall u ensures Placed(before, d2, news, k, u) {
      assert Placed(before, d, news, Position(t), u);
      MovedInAt(before, d, out, d2, news, t, u);
    }
    hide Placed;
  }

  // ------------------------------------------------------------------ moving back

  ghost predicate BackAt(before: Disk, d: Disk, news: News, f: Faults, k: nat, moved: seq<Target>, j: nat, t: Target)
    requires j <= |moved|
  {
    if t in moved[..j] && !f.back(t) then Get(d, At(t)) == Get(before, At(t)) && Backup(before, t) !in d
    else Halted(before, d, news, f, k, t)
  }

  /** The first j of the moved targets have been moved back, those that could be. */
  ghost predicate Restored(before: Disk, d: Disk, news: News, f: Faults, k: nat, moved: seq<Target>, j: nat)
    requires j <= |moved|
  {
    && (forall t :: BackAt(before, d, news, f, k, moved, j, t))
    && OrigOk(before, d, VendorTree in moved && !(VendorTree in moved[..j] && !f.back(VendorTree)))
    && NoDup(moved) && forall t :: t in moved <==> MovesOut(before, news, f, k, t)
  }

  lemma NoneRestored(before: Disk, d: Disk, news: News, f: Faults, k: nat, moved: seq<Target>)
    requires Stopped(before, d, news, f, k, moved)
    ensures Restored(before, d, news, f, k, moved, 0)
  {
  }

  lemma CanRestore(before: Disk, d: Disk, news: News, f: Faults, k: nat, moved: seq<Target>, j: nat)
    requires Shaped(news) && k < |Order()| && j < |moved| && Restored(before, d, news, f, k, moved, j)
    ensures var t := moved[j];
            && t !in moved[..j] && Get(d, Backup(before, t)) == Get(before, At(t)) && At(t) in before
            && (At(t) in d ==> d[At(t)].File?)
  {
    var t := moved[j];
    assert t !in moved[..j];
    assert BackAt(before, d, news, f, k, moved, j, t);
    assert t in moved;
  }

  lemma OneRestored(before: Disk, d: Disk, d2: Disk, news: News, f: Faults, k: nat, moved: seq<Target>, j: nat)
    requires Shaped(news) && k < |Order()| && j < |moved| && Restored(before, d, news, f, k, moved, j)
    requires var t := moved[j]; Backup(before, t) in d && d2 == if f.back(t) then d else d[At(t) := d[Backup(before, t)]] - {Backup(before, t)}
    ensures Restored(before, d2, news, f, k, moved, j + 1)
  {
    var t, j1 := moved[j], j + 1;
    CanRestore(before, d, news, f, k, moved, j);
    assert moved[..j1] == moved[..j] + [t];
    forall u ensures BackAt(before, d2, news, f, k, moved, j1, u) {
      assert BackAt(before, d, news, f, k, moved, j, u);
    }
  }

  // ------------------------------------------------------------------ beginning and end

  /** What vendor.orig holds afterwards: what it held, or an old vendor tree that could not be
      removed or moved back. */
  function OrigAfter(before: Disk, news: News, f: Faults, k: nat): Option<Content> {
    if VendorOrig in before then Get(before, VendorOrig)
    else if VendorTree in news && At(VendorTree) in before && ((k == 3 && f.cleanup) || (k == 2 && !f.out(VendorTree) && f.back(VendorTree)))
    then Get(before, At(VendorTree))
    else None
  }

  lemma ReadyToRun(before: Disk, d: Disk, news: News, f: Faults)
    requires NoTemp(before) && d == before + map t | t in news :: Prepared(t) := news[t]
    ensures Running(before, d, news, f, 0, [])
  {
    forall t ensures Placed(before, d, news, 0, t) {}
  }

  lemma NotRequested(before: Disk, d: Disk, news: News, f: Faults, k: nat, moved: seq<Target>)
    requires k < |Order()| && Order()[k] !in news && Running(before, d, news, f, k, moved)
    ensures Running(before, d, news, f, k + 1, moved)
  {
    var k1 := k + 1;
    forall t ensures Placed(before, d, news, k1, t) {
      assert Placed(before, d, news, k, t);
      assert Position(t) == k ==> t == Order()[k];
    }
  }

  /** Nothing but the temporary directory is gone. */
  predicate WithoutTemp(d: Disk, after: Disk) {
    NoTemp(after) && (forall t :: Get(after, At(t)) == Get(d, At(t))) && Get(after, VendorOrig) == Get(d, VendorOrig)
  }

  lemma AllReplaced(before: Disk, d: Disk, after: Disk, news: News, f: Faults, moved: seq<Target>)
    requires Running(before, d, news, f, |Order()|, moved)
    requires WithoutTemp(if VendorTree in news && At(VendorTree) in before && !f.cleanup then d - {Backup(before, VendorTree)} else d, after)
    ensures Ended(before, after, news, f, |Order()|) && Get(after, VendorOrig) == OrigAfter(before, news, f, |Order()|)
  {
    forall i | 0 <= i < |Order()| ensures Get(after, At(Order()[i])) == Final(before, news, f, |Order()|, i) {
      assert Placed(before, d, news, |Order()|, Order()[i]) && Position(Order()[i]) == i;
    }
    assert VendorTree in moved <==> VendorTree in news && At(VendorTree) in before;
  }

  lemma AllRestored(before: Disk, d: Disk, after: Disk, news: News, f: Faults, k: nat, moved: seq<Target>)
    requires k < |Order()| && Restored(before, d, news, f, k, moved, |moved|) && WithoutTemp(d, after)
    requires Fails(before, news, f, Order()[k])
    ensures Ended(before, after, news, f, k) && Get(after, VendorOrig) == OrigAfter(before, news, f, k)
  {
    assert moved[..|moved|] == moved;
    forall i | 0 <= i < |Order()| ensures Get(after, At(Order()[i])) == Final(before, news, f, k, i) {
      assert BackAt(before, d, news, f, k, moved, |moved|, Order()[i]) && Position(Order()[i]) == i;
    }
    assert VendorTree in moved <==> MovesOut(before, news, f, k, VendorTree);
  }
}
