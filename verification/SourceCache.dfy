/** The two-level source cache (gps/source_cache_multi.go): values are set in memory at once and
    on disk by one background writer.  Calls on one source are serialised by its gateway; calls
    on different sources and the writer interleave in any way. */
module SourceCaches {
  import opened Constraints
  import opened Identifiers

  type Source = nat
  type Value = string

  /** What is stored per source: manifest and lock of a revision as one analyser sees them, or the
      package tree of a revision. */
  datatype Slot = Info(analyzer: string, rev: string) | Tree(rev: string)

  datatype Key = Key(src: Source, slot: Slot)

  type Store = map<Key, Value>

  datatype Entry = Entry(key: Key, value: Value)

  /** How far a get on a source has come: it missed in memory, or it found a value on disk. */
  datatype Call = Reading(slot: Slot) | Storing(slot: Slot, value: Value)

  /** log records every set in order; the program itself keeps no such list.  Once crashed, it is gone. */
  datatype State = State(
    mem: Store,
    disk: Store,
    async: seq<Entry>,
    closing: bool,
    closed: bool,
    crashed: bool,
    calls: map<Source, Call>,
    log: seq<Entry>)

  const CAPACITY := 50

  function Lookup(st: Store, k: Key): Option<Value> { if k in st then Some(st[k]) else None }

  function Apply(st: Store, es: seq<Entry>): Store {
    if es == [] then st
    else
      var last := es[|es| - 1];
      Apply(st, es[..|es| - 1])[last.key := last.value]
  }

  /** The single map the two levels stand for: the last value set in this process, else what was
      on disk at the beginning. */
  function Expected(disk0: Store, s: State, k: Key): Option<Value> {
    Lookup(Apply(disk0, s.log), k)
  }

  // ------------------------------------------------------------------ the steps

  predicate Initial(disk0: Store, s: State) {
    s == State(map[], disk0, [], false, false, false, map[], [])
  }

  /** A set: in memory now, on disk later; it blocks while the queue is full. */
  predicate Set(s: State, t: State, k: Key, v: Value) {
    && k.src !in s.calls && !s.closing && |s.async| < CAPACITY
    && t == s.(mem := s.mem[k := v], async := s.async + [Entry(k, v)], log := s.log + [Entry(k, v)])
  }

  /** A set after close has begun sends on a closed channel. */
  predicate LateSet(s: State, t: State, k: Key, v: Value) {
    k.src !in s.calls && s.closing && t == s.(crashed := true)
  }

  /** A second close closes a closed channel. */
  predicate LateClose(s: State, t: State) {
    s.closing && t == s.(crashed := true)
  }

  /** A get that finds its value in memory. */
  predicate GetHit(s: State, t: State, k: Key, r: Option<Value>) {
    k.src !in s.calls && k in s.mem && r == Some(s.mem[k]) && t == s
  }

  /** One that does not, and goes to disk. */
  predicate GetMiss(s: State, t: State, k: Key) {
    k.src !in s.calls && k !in s.mem && t == s.(calls := s.calls[k.src := Reading(k.slot)])
  }

  /** The disk does not have it either: the call returns. */
  predicate DiskMiss(s: State, t: State, k: Key, r: Option<Value>) {
    && k.src in s.calls && s.calls[k.src] == Reading(k.slot) && !s.closed
    && k !in s.disk && r == None && t == s.(calls := s.calls - {k.src})
  }

  predicate DiskHit(s: State, t: State, k: Key) {
    && k.src in s.calls && s.calls[k.src] == Reading(k.slot) && !s.closed
    && k in s.disk && t == s.(calls := s.calls[k.src := Storing(k.slot, s.disk[k])])
  }

  /** What the disk had is kept in memory, and the call returns. */
  predicate Fill(s: State, t: State, k: Key, r: Option<Value>) {
    && k.src in s.calls && s.calls[k.src].Storing? && s.calls[k.src].slot == k.slot
    && var v := s.calls[k.src].value;
    r == Some(v) && t == s.(mem := s.mem[k := v], calls := s.calls - {k.src})
  }

  /** The background writer: one pending write, in order. */
  predicate Flush(s: State, t: State) {
    && s.async != [] && !s.closed
    && var e := s.async[0];
    t == s.(disk := s.disk[e.key := e.value], async := s.async[1..])
  }

  predicate CloseQueue(s: State, t: State) {
    !s.closing && t == s.(closing := true)
  }

  /** close returns once the writer has nothing left. */
  predicate CloseDisk(s: State, t: State) {
    s.closing && s.async == [] && !s.closed && t == s.(closed := true)
  }

  ghost predicate Next(s: State, t: State) {
    !s.crashed && (Works(s, t) || Crashes(s, t))
  }

  ghost predicate Crashes(s: State, t: State) {
    (exists k, v :: LateSet(s, t, k, v)) || LateClose(s, t)
  }

  ghost predicate Works(s: State, t: State) {
    || (exists k, v :: Set(s, t, k, v)) || (exists k, r :: GetHit(s, t, k, r)) || (exists k :: GetMiss(s, t, k))
    || (exists k, r :: DiskMiss(s, t, k, r)) || (exists k :: DiskHit(s, t, k)) || (exists k, r :: Fill(s, t, k, r))
    || Flush(s, t) || CloseQueue(s, t) || CloseDisk(s, t)
  }

  ghost predicate Link(disk0: Store, ss: seq<State>, i: nat)
    requires i < |ss|
  {
    if i == 0 then Initial(disk0, ss[0]) else Next(ss[i - 1], ss[i])
  }

  ghost predicate Run(disk0: Store, ss: seq<State>) {
    ss != [] && forall i :: 0 <= i < |ss| ==> Link(disk0, ss, i)
  }

  // ------------------------------------------------------------------ the invariant

  /** The disk is behind by exactly the pending writes. */
  ghost predicate DiskOk(disk0: Store, s: State) {
    && |s.async| <= |s.log| && s.async == s.log[|s.log| - |s.async|..]
    && s.disk == Apply(disk0, s.log[..|s.log| - |s.async|])
  }

  predicate Touched(es: seq<Entry>, k: Key) {
    exists i :: 0 <= i < |es| && es[i].key == k
  }

  ghost predicate KeyOk(disk0: Store, s: State, k: Key) {
    && (k in s.mem ==> Expected(disk0, s, k) == Some(s.mem[k]))
    && (Touched(s.log, k) ==> k in s.mem)
    && (k.src in s.calls && s.calls[k.src].slot == k.slot ==>
          k !in s.mem && (s.calls[k.src].Storing? ==> Lookup(disk0, k) == Some(s.calls[k.src].value)))
  }

  ghost predicate Inv(disk0: Store, s: State) {
    DiskOk(disk0, s) && (s.closed ==> s.closing && s.async == []) && forall k :: KeyOk(disk0, s, k)
  }

  lemma {:induction false} Untouched(st: Store, es: seq<Entry>, k: Key)
    requires !Touched(es, k)
    ensures Lookup(Apply(st, es), k) == Lookup(st, k)
  {
    if es != [] {
      var init := es[..|es| - 1];
      forall i | 0 <= i < |init| ensures init[i].key != k { assert es[i].key != k; }
      Untouched(st, init, k);
    }
  }

  lemma ApplyPush(st: Store, es: seq<Entry>, e: Entry)
    ensures Apply(st, es + [e]) == Apply(st, es)[e.key := e.value]
    ensures forall k :: Touched(es + [e], k) <==> Touched(es, k) || e.key == k
  {
    assert (es + [e])[..|es|] == es;
    assert (es + [e])[|es|] == e && forall i :: 0 <= i < |es| ==> (es + [e])[i] == es[i];
  }

  /** A key never set reads the same from disk all along, whatever the writer has done. */
  lemma DiskStandsStill(disk0: Store, s: State, k: Key)
    requires DiskOk(disk0, s) && !Touched(s.log, k)
    ensures Lookup(s.disk, k) == Lookup(disk0, k) == Expected(disk0, s, k)
  {
    Untouched(disk0, s.log, k);
    var done := s.log[..|s.log| - |s.async|];
    forall i | 0 <= i < |done| ensures done[i].key != k { assert s.log[i].key != k; }
    Untouched(disk0, done, k);
  }

  lemma SetKeeps(disk0: Store, s: State, t: State, k: Key, v: Value)
    requires Inv(disk0, s) && Set(s, t, k, v)
    ensures Inv(disk0, t)
  {
    ApplyPush(disk0, s.log, Entry(k, v));
    forall q ensures KeyOk(disk0, t, q) { assert KeyOk(disk0, s, q); }
    var n := |s.log| - |s.async|;
    assert t.log[..n] == s.log[..n] && t.log[n..] == s.log[n..] + [Entry(k, v)];
  }

  lemma FlushKeeps(disk0: Store, s: State, t: State)
    requires Inv(disk0, s) && Flush(s, t)
    ensures Inv(disk0, t)
  {
    var n := |s.log| - |s.async|;
    assert s.log[n] == s.async[0];
    assert s.log[..n + 1] == s.log[..n] + [s.async[0]];
    ApplyPush(disk0, s.log[..n], s.async[0]);
    assert t.async == s.log[n + 1..];
    forall q ensures KeyOk(disk0, t, q) { assert KeyOk(disk0, s, q); }
  }

  lemma FillKeeps(disk0: Store, s: State, t: State, k: Key, r: Option<Value>)
    requires Inv(disk0, s) && Fill(s, t, k, r)
    ensures Inv(disk0, t) && r == Expected(disk0, t, k)
  {
    assert KeyOk(disk0, s, k);
    DiskStandsStill(disk0, s, k);
    forall q ensures KeyOk(disk0, t, q) { assert KeyOk(disk0, s, q); }
  }

  lemma DiskHitKeeps(disk0: Store, s: State, t: State, k: Key)
    requires Inv(disk0, s) && DiskHit(s, t, k)
    ensures Inv(disk0, t)
  {
    assert KeyOk(disk0, s, k);
    DiskStandsStill(disk0, s, k);
    forall q ensures KeyOk(disk0, t, q) { assert KeyOk(disk0, s, q); }
  }

  lemma OthersKeep(disk0: Store, s: State, t: State)
    requires Inv(disk0, s)
    requires (exists k, r :: GetHit(s, t, k, r)) || (exists k :: GetMiss(s, t, k)) || (exists k, r :: DiskMiss(s, t, k, r))
             || CloseQueue(s, t) || CloseDisk(s, t)
    ensures Inv(disk0, t)
  {
    forall q ensures KeyOk(disk0, t, q) { assert KeyOk(disk0, s, q); }
  }

  lemma CrashKeeps(disk0: Store, s: State, t: State)
    requires Inv(disk0, s) && Crashes(s, t)
    ensures Inv(disk0, t)
  {
    forall q ensures KeyOk(disk0, t, q) { assert KeyOk(disk0, s, q); }
  }

  lemma NextKeeps(disk0: Store, s: State, t: State)
    requires Inv(disk0, s) && Next(s, t)
    ensures Inv(disk0, t)
  {
    hide Inv, Set, Fill, DiskHit, Flush, GetHit, GetMiss, DiskMiss, CloseQueue, CloseDisk, Crashes;
    if k, v :| Set(s, t, k, v) { SetKeeps(disk0, s, t, k, v); }
    else if k, r :| Fill(s, t, k, r) { FillKeeps(disk0, s, t, k, r); }
    else if k :| DiskHit(s, t, k) { DiskHitKeeps(disk0, s, t, k); }
    else if Flush(s, t) { FlushKeeps(disk0, s, t); }
    else if Crashes(s, t) { CrashKeeps(disk0, s, t); }
    else { OthersKeep(disk0, s, t); }
  }

  lemma {:induction false} RunInv(disk0: Store, ss: seq<State>)
    requires Run(disk0, ss)
    ensures Inv(disk0, ss[|ss| - 1])
  {
    hide Next, Initial;
    assert Link(disk0, ss, |ss| - 1);
    if |ss| == 1 {
      InitialInv(disk0, ss[0]);
    } else {
      var init := ss[..|ss| - 1];
      forall i | 0 <= i < |init| ensures Link(disk0, init, i) { assert Link(disk0, ss, i); }
      RunInv(disk0, init);
      NextKeeps(disk0, ss[|ss| - 2], ss[|ss| - 1]);
    }
  }

  lemma InitialInv(disk0: Store, s: State)
    requires Initial(disk0, s)
    ensures Inv(disk0, s)
  {
    assert s.log == [] && s.async == [] && s.disk == disk0;
    assert DiskOk(disk0, s);
    forall k ensures KeyOk(disk0, s, k) { assert !Touched(s.log, k); }
    hide DiskOk, KeyOk;
  }

  ghost predicate Reachable(disk0: Store, s: State) {
    exists ss :: Run(disk0, ss) && ss[|ss| - 1] == s
  }

  lemma ReachableInv(disk0: Store, s: State)
    requires Reachable(disk0, s)
    ensures Inv(disk0, s)
  {
    var ss :| Run(disk0, ss) && ss[|ss| - 1] == s;
    RunInv(disk0, ss);
  }

  // ------------------------------------------------------------------ what callers see

  /** The step that ends a get. */
  predicate Returns(s: State, t: State, k: Key, r: Option<Value>) {
    GetHit(s, t, k, r) || DiskMiss(s, t, k, r) || Fill(s, t, k, r)
  }

  /** In every interleaving a get answers like a single map. */
  lemma GetIsExpected(disk0: Store, s: State, t: State, k: Key, r: Option<Value>)
    requires Reachable(disk0, s) && Returns(s, t, k, r)
    ensures r == Expected(disk0, t, k)
  {
    ReachableInv(disk0, s);
    assert KeyOk(disk0, s, k);
    if DiskMiss(s, t, k, r) {
      DiskStandsStill(disk0, s, k);
    } else if Fill(s, t, k, r) {
      FillKeeps(disk0, s, t, k, r);
    }
  }

  /** After close the disk has received every set, in order. */
  lemma ClosedDiskIsComplete(disk0: Store, s: State)
    requires Reachable(disk0, s) && s.closed
    ensures s.disk == Apply(disk0, s.log)
  {
    ReachableInv(disk0, s);
    assert s.log[..|s.log|] == s.log;
  }

  /** At any moment the disk has received some prefix of the sets. */
  lemma DiskIsPrefix(disk0: Store, s: State)
    requires Reachable(disk0, s)
    ensures exists n: nat :: n <= |s.log| && s.disk == Apply(disk0, s.log[..n])
  {
    ReachableInv(disk0, s);
    var n: nat := |s.log| - |s.async|;
    assert s.disk == Apply(disk0, s.log[..n]);
  }

  /** Step i sets or closes after close has begun. */
  ghost predicate Late(ss: seq<State>, i: nat)
    requires 0 < i < |ss|
  {
    ss[i - 1].closing && Crashes(ss[i - 1], ss[i])
  }

  lemma StepBefore(disk0: Store, ss: seq<State>, i: nat)
    requires Run(disk0, ss) && 0 < i < |ss|
    ensures !ss[i - 1].crashed && (ss[i].crashed <==> Late(ss, i))
  {
    assert Link(disk0, ss, i);
    assert Works(ss[i - 1], ss[i]) ==> ss[i].crashed == ss[i - 1].crashed;
  }

  /** The process crashes exactly when something is set or closed after close has begun, and that
      ends the run. */
  lemma CrashesExactlyWhenLate(disk0: Store, ss: seq<State>)
    requires Run(disk0, ss)
    ensures ss[|ss| - 1].crashed <==> exists i :: 0 < i < |ss| && Late(ss, i)
    ensures forall i :: 0 < i < |ss| && Late(ss, i) ==> i == |ss| - 1
  {
    assert |ss| > 0;
    hide Next, Late, Run;
    if |ss| == 1 { Alone(disk0, ss); } else { StepBefore(disk0, ss, |ss| - 1); }
    forall i | 0 < i < |ss| ensures (ss[i].crashed <==> Late(ss, i)) && (ss[i].crashed ==> i == |ss| - 1) {
      StepBefore(disk0, ss, i);
      if i + 1 < |ss| { StepBefore(disk0, ss, i + 1); }
    }
  }

  lemma Alone(disk0: Store, ss: seq<State>)
    requires Run(disk0, ss) && |ss| == 1
    ensures !ss[0].crashed
  {
    assert Link(disk0, ss, 0);
  }
}
