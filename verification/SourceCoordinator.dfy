/** getSourceGatewayFor called by any number of goroutines at once (gps/source.go): one of those
    asking for the same folded name sets the gateway up, the others wait for its answer.  Every
    critical section is one step; any interleaving of steps is a run. */
module SourceCoordinators {
  import opened Constraints
  import opened Identifiers

  type Pid = nat
  type Gateway = nat
  type Url = string

  datatype Result = Got(g: Gateway) | Failed

  /** One source to try: its URL, and the gateway made for it unless that fails. */
  datatype Attempt = Attempt(url: Url, made: Option<Gateway>)

  datatype Pc =
    | Start                                   // about to look the name up
    | Upgrading(url: Url, gate: Option<Gateway>)  // found under the folded name, will record it
    | Missed                                  // not found
    | Waiting                                 // attached to another caller's work
    | Leading                                 // doing the work: deduce the sources
    | Deduced(attempts: seq<Attempt>)         // look the folded name up again
    | Creating(attempts: seq<Attempt>)        // make a gateway
    | Replying(r: Result)                     // tell those waiting
    | Returned(r: Result)
    | Panicked

  datatype Proc = Proc(name: string, pc: Pc)

  /** srcs and urls are guarded by one lock, which writer holds exclusively while a gateway is
      recorded and reported; protos by another.  inbox are the reply channels, of capacity one.
      follows only records whom a waiting caller attached to. */
  datatype State = State(
    srcs: map<Url, Gateway>,
    urls: map<string, Url>,
    protos: map<string, seq<Pid>>,
    inbox: map<Pid, Result>,
    procs: map<Pid, Proc>,
    writer: Option<Pid>,
    follows: map<Pid, Pid>)

  type Fold = string -> string

  function Folded(fold: Fold, s: State, p: Pid): string
    requires p in s.procs
  {
    fold(s.procs[p].name)
  }

  predicate IsLeader(pc: Pc) { pc.Leading? || pc.Deduced? || pc.Creating? || pc.Replying? }

  function At(s: State, p: Pid, pc: Pc): State
    requires p in s.procs
  {
    s.(procs := s.procs[p := s.procs[p].(pc := pc)])
  }

  // ------------------------------------------------------------------ the steps

  function LookUp(fold: Fold, s: State, p: Pid): Pc
    requires p in s.procs
  {
    var name, folded := s.procs[p].name, Folded(fold, s, p);
    if name in s.urls then (if s.urls[name] in s.srcs then Returned(Got(s.srcs[s.urls[name]])) else Panicked)
    else if folded != name && folded in s.urls
    then Upgrading(s.urls[folded], if s.urls[folded] in s.srcs then Some(s.srcs[s.urls[folded]]) else None)
    else Missed
  }

  predicate Check(fold: Fold, s: State, t: State, p: Pid) {
    p in s.procs && s.procs[p].pc.Start? && s.writer.None? && t == At(s, p, LookUp(fold, s, p))
  }

  predicate Upgrade(fold: Fold, s: State, t: State, p: Pid) {
    && p in s.procs && s.procs[p].pc.Upgrading? && s.writer.None?
    && var pc := s.procs[p].pc;
    t == At(s.(urls := s.urls[s.procs[p].name := pc.url]), p, if pc.gate.Some? then Returned(Got(pc.gate.value)) else Panicked)
  }

  /** The caller becomes the leader for its folded name, or attaches to lead. */
  predicate Join(fold: Fold, s: State, t: State, p: Pid, lead: Pid) {
    && p in s.procs && s.procs[p].pc.Missed?
    && var f := Folded(fold, s, p);
    if f in s.protos then
      && lead in s.procs && IsLeader(s.procs[lead].pc) && Folded(fold, s, lead) == f
      && t == At(s.(protos := s.protos[f := s.protos[f] + [p]], follows := s.follows[p := lead]), p, Waiting)
    else t == At(s.(protos := s.protos[f := []]), p, Leading)
  }

  predicate Receive(s: State, t: State, p: Pid) {
    p in s.procs && s.procs[p].pc.Waiting? && p in s.inbox && t == At(s.(inbox := s.inbox - {p}), p, Returned(s.inbox[p]))
  }

  predicate Deduce(s: State, t: State, p: Pid, attempts: Option<seq<Attempt>>) {
    && p in s.procs && s.procs[p].pc.Leading?
    && t == At(s, p, match attempts case Some(l) => Deduced(l) case None => Replying(Failed))
  }

  predicate Recheck(fold: Fold, s: State, t: State, p: Pid) {
    && p in s.procs && s.procs[p].pc.Deduced? && s.writer.None?
    && var f := Folded(fold, s, p);
    t == At(s, p, if f !in s.urls then Creating(s.procs[p].pc.attempts)
                  else if s.urls[f] in s.srcs then Replying(Got(s.srcs[s.urls[f]])) else Panicked)
  }

  /** The name a URL is known by: folded if the caller's name needed folding. */
  function Key(fold: Fold, folding: bool, url: Url): Url { if folding then fold(url) else url }

  /** The first attempt whose gateway exists already or can be made. */
  function FirstGood(fold: Fold, srcs: map<Url, Gateway>, folding: bool, attempts: seq<Attempt>): Option<Attempt> {
    if attempts == [] then None
    else if Key(fold, folding, attempts[0].url) in srcs || attempts[0].made.Some? then Some(attempts[0])
    else FirstGood(fold, srcs, folding, attempts[1..])
  }

  /** The gateway and all names it is known by, recorded. */
  function Record(fold: Fold, s: State, p: Pid, a: Attempt): State
    requires p in s.procs
    requires Key(fold, Folded(fold, s, p) != s.procs[p].name, a.url) in s.srcs || a.made.Some?
  {
    var name, f := s.procs[p].name, Folded(fold, s, p);
    var url := Key(fold, f != name, a.url);
    var srcs := if url in s.srcs then s.srcs else s.srcs[url := a.made.value];
    var urls := s.urls[f := url][url := url];
    At(s.(srcs := srcs, urls := if f != name then urls[name := url][a.url := url] else urls, writer := Some(p)), p, Replying(Got(srcs[url])))
  }

  predicate Create(fold: Fold, s: State, t: State, p: Pid) {
    && p in s.procs && s.procs[p].pc.Creating? && s.writer.None?
    && var folding := Folded(fold, s, p) != s.procs[p].name;
    match FirstGood(fold, s.srcs, folding, s.procs[p].pc.attempts)
    case None => t == At(s.(writer := Some(p)), p, Replying(Failed))
    case Some(a) => (Key(fold, folding, a.url) in s.srcs || a.made.Some?) && t == Record(fold, s, p, a)
  }

  /** doReturn, and the return that follows it. */
  predicate Reply(fold: Fold, s: State, t: State, p: Pid) {
    && p in s.procs && s.procs[p].pc.Replying? && Folded(fold, s, p) in s.protos
    && var r, f := s.procs[p].pc.r, Folded(fold, s, p);
    t == At(s.(inbox := s.inbox + map q | q in s.protos[f] :: r, protos := s.protos - {f},
               writer := if s.writer == Some(p) then None else s.writer), p, Returned(r))
  }

  ghost predicate Step(fold: Fold, s: State, t: State, p: Pid) {
    || Check(fold, s, t, p) || Upgrade(fold, s, t, p) || (exists lead :: Join(fold, s, t, p, lead))
    || Receive(s, t, p) || (exists attempts :: Deduce(s, t, p, attempts)) || Recheck(fold, s, t, p)
    || Create(fold, s, t, p) || Reply(fold, s, t, p)
  }

  predicate Initial(s: State) {
    && s.srcs == map[] && s.urls == map[] && s.protos == map[] && s.inbox == map[] && s.writer.None? && s.follows == map[]
    && forall p <- s.procs :: s.procs[p].pc.Start?
  }

  ghost predicate Next(fold: Fold, s: State, t: State) {
    exists p :: Step(fold, s, t, p)
  }

  ghost predicate Link(fold: Fold, ss: seq<State>, k: nat)
    requires k < |ss|
  {
    if k == 0 then Initial(ss[0]) else Next(fold, ss[k - 1], ss[k])
  }

  ghost predicate Run(fold: Fold, ss: seq<State>) {
    ss != [] && forall k :: 0 <= k < |ss| ==> Link(fold, ss, k)
  }

  // ------------------------------------------------------------------ the invariant

  predicate Known(s: State, r: Result) {
    r.Got? ==> r.g in s.srcs.Values
  }

  predicate IsResult(s: State, q: Pid, r: Result) {
    q in s.procs && s.procs[q].pc == Returned(r)
  }

  ghost predicate LeaderOf(fold: Fold, s: State, p: Pid, f: string) {
    p in s.procs && IsLeader(s.procs[p].pc) && Folded(fold, s, p) == f
  }

  /** Where a waiting caller stands: on its leader's list, or with the leader's answer. */
  ghost predicate Served(fold: Fold, s: State, p: Pid)
    requires p in s.procs
  {
    var f := Folded(fold, s, p);
    && p in s.follows && s.follows[p] in s.procs && Folded(fold, s, s.follows[p]) == f
    && (p in s.inbox ==> IsResult(s, s.follows[p], s.inbox[p]) && (f in s.protos ==> p !in s.protos[f]))
    && (p !in s.inbox ==> f in s.protos && p in s.protos[f] && LeaderOf(fold, s, s.follows[p], f))
  }

  ghost predicate ProcOk(fold: Fold, s: State, p: Pid) {
    p in s.procs ==>
      var pc := s.procs[p].pc;
      && !pc.Panicked?
      && (pc.Upgrading? ==> pc.url in s.srcs && pc.gate == Some(s.srcs[pc.url]))
      && (IsLeader(pc) ==> Folded(fold, s, p) in s.protos)
      && (pc.Waiting? ==> Served(fold, s, p))
      && (pc.Replying? || pc.Returned? ==> Known(s, pc.r))
      && (pc.Returned? && p in s.follows ==> IsResult(s, s.follows[p], pc.r))
      && (p in s.inbox ==> pc.Waiting?)
      && (p in s.follows ==> pc.Waiting? || pc.Returned?)
      && (s.writer == Some(p) ==> pc.Replying?)
  }

  ghost predicate ListOk(fold: Fold, s: State, f: string) {
    f in s.protos ==>
      && NoDup(s.protos[f])
      && (forall q :: q in s.protos[f] ==> q in s.procs && s.procs[q].pc.Waiting? && q !in s.inbox && Folded(fold, s, q) == f)
      && exists p :: LeaderOf(fold, s, p, f)
  }

  ghost predicate OneLeader(fold: Fold, s: State) {
    forall p, q, f :: LeaderOf(fold, s, p, f) && LeaderOf(fold, s, q, f) ==> p == q
  }

  predicate UrlsOk(s: State) {
    forall n <- s.urls :: s.urls[n] in s.srcs
  }

  ghost predicate Inv(fold: Fold, s: State) {
    && UrlsOk(s) && OneLeader(fold, s)
    && (forall p :: ProcOk(fold, s, p)) && (forall f :: ListOk(fold, s, f))
    && (s.writer.Some? ==> s.writer.value in s.procs)
  }

  lemma InitialInv(fold: Fold, s: State)
    requires Initial(s)
    ensures Inv(fold, s)
  {
  }

  // ------------------------------------------------------------------ steps that only move one caller on

  /** Nothing but the caller's position and more knowledge changes, and a leader stays a leader. */
  ghost predicate Moves(fold: Fold, s: State, t: State, p: Pid, pc: Pc) {
    && p in s.procs && t.procs == s.procs[p := s.procs[p].(pc := pc)]
    && t.protos == s.protos && t.inbox == s.inbox && t.follows == s.follows
    && !s.procs[p].pc.Waiting? && !s.procs[p].pc.Returned? && !pc.Waiting? && !pc.Panicked?
    && (IsLeader(pc) <==> IsLeader(s.procs[p].pc))
    && (forall u <- s.srcs :: u in t.srcs && t.srcs[u] == s.srcs[u])
    && (pc.Upgrading? ==> pc.url in t.srcs && pc.gate == Some(t.srcs[pc.url]))
    && (pc.Replying? || pc.Returned? ==> Known(t, pc.r))
    && (t.writer == s.writer || (t.writer == Some(p) && pc.Replying? && s.writer.None?))
    && (s.writer == Some(p) ==> pc.Replying?)
  }

  lemma MoveProc(fold: Fold, s: State, t: State, p: Pid, pc: Pc, q: Pid)
    requires Inv(fold, s) && Moves(fold, s, t, p, pc)
    ensures ProcOk(fold, t, q)
  {
    assert ProcOk(fold, s, q) && ProcOk(fold, s, p);
    if q in s.procs && q in s.follows { assert ProcOk(fold, s, s.follows[q]); }
  }

  lemma MoveList(fold: Fold, s: State, t: State, p: Pid, pc: Pc, f: string)
    requires Inv(fold, s) && Moves(fold, s, t, p, pc)
    ensures ListOk(fold, t, f)
  {
    assert ListOk(fold, s, f);
    if f in s.protos {
      var l :| LeaderOf(fold, s, l, f);
      assert LeaderOf(fold, t, l, f);
    }
  }

  lemma MoveKeeps(fold: Fold, s: State, t: State, p: Pid, pc: Pc)
    requires Inv(fold, s) && Moves(fold, s, t, p, pc) && UrlsOk(t)
    ensures Inv(fold, t)
  {
    forall q ensures ProcOk(fold, t, q) { MoveProc(fold, s, t, p, pc, q); }
    forall f ensures ListOk(fold, t, f) { MoveList(fold, s, t, p, pc, f); }
    hide ProcOk, ListOk;
    forall q, r, f | LeaderOf(fold, t, q, f) && LeaderOf(fold, t, r, f) ensures q == r {
      assert LeaderOf(fold, s, q, f) && LeaderOf(fold, s, r, f);
    }
  }

  lemma {:induction false} FirstGoodIs(fold: Fold, srcs: map<Url, Gateway>, folding: bool, attempts: seq<Attempt>)
    ensures var a := FirstGood(fold, srcs, folding, attempts);
            a.Some? ==> Key(fold, folding, a.value.url) in srcs || a.value.made.Some?
  {
    if attempts != [] {
      FirstGoodIs(fold, srcs, folding, attempts[1..]);
    }
  }

  lemma CheckKeeps(fold: Fold, s: State, t: State, p: Pid)
    requires Inv(fold, s) && Check(fold, s, t, p)
    ensures Inv(fold, t)
  {
    assert ProcOk(fold, s, p);
    MoveKeeps(fold, s, t, p, LookUp(fold, s, p));
  }

  lemma UpgradeKeeps(fold: Fold, s: State, t: State, p: Pid)
    requires Inv(fold, s) && Upgrade(fold, s, t, p)
    ensures Inv(fold, t)
  {
    assert ProcOk(fold, s, p);
    MoveKeeps(fold, s, t, p, t.procs[p].pc);
  }

  lemma DeduceKeeps(fold: Fold, s: State, t: State, p: Pid, attempts: Option<seq<Attempt>>)
    requires Inv(fold, s) && Deduce(s, t, p, attempts)
    ensures Inv(fold, t)
  {
    assert ProcOk(fold, s, p);
    MoveKeeps(fold, s, t, p, t.procs[p].pc);
  }

  lemma RecheckKeeps(fold: Fold, s: State, t: State, p: Pid)
    requires Inv(fold, s) && Recheck(fold, s, t, p)
    ensures Inv(fold, t)
  {
    assert ProcOk(fold, s, p);
    MoveKeeps(fold, s, t, p, t.procs[p].pc);
  }

  lemma RecordMoves(fold: Fold, s: State, p: Pid, a: Attempt)
    requires p in s.procs && s.procs[p].pc.Creating? && s.writer.None?
    requires Key(fold, Folded(fold, s, p) != s.procs[p].name, a.url) in s.srcs || a.made.Some?
    ensures var t := Record(fold, s, p, a); p in t.procs && Moves(fold, s, t, p, t.procs[p].pc)
  {
    var url := Key(fold, Folded(fold, s, p) != s.procs[p].name, a.url);
    hide Key, Folded;
    var t := Record(fold, s, p, a);
    assert url in t.srcs && t.srcs[url] in t.srcs.Values;
  }

  lemma CreateMoves(fold: Fold, s: State, t: State, p: Pid)
    requires Create(fold, s, t, p)
    ensures p in t.procs && Moves(fold, s, t, p, t.procs[p].pc)
  {
    hide Folded, FirstGood, Key, Record;
    match FirstGood(fold, s.srcs, Folded(fold, s, p) != s.procs[p].name, s.procs[p].pc.attempts)
    case None =>
    case Some(a) => RecordMoves(fold, s, p, a);
  }

  lemma CreateUrls(fold: Fold, s: State, t: State, p: Pid)
    requires UrlsOk(s) && Create(fold, s, t, p)
    ensures UrlsOk(t)
  {
  }

  lemma CreateKeeps(fold: Fold, s: State, t: State, p: Pid)
    requires Inv(fold, s) && Create(fold, s, t, p)
    ensures Inv(fold, t)
  {
    hide Create, OneLeader, ListOk, ProcOk, UrlsOk, Moves;
    CreateMoves(fold, s, t, p);
    CreateUrls(fold, s, t, p);
    MoveKeeps(fold, s, t, p, t.procs[p].pc);
  }

  // ------------------------------------------------------------------ joining, replying, receiving

  lemma JoinProc(fold: Fold, s: State, t: State, p: Pid, lead: Pid, q: Pid)
    requires Inv(fold, s) && Join(fold, s, t, p, lead)
    ensures ProcOk(fold, t, q)
  {
    assert ProcOk(fold, s, p) && ProcOk(fold, s, q);
    assert ListOk(fold, s, Folded(fold, s, p));
    if q in s.procs && q in s.follows { assert ProcOk(fold, s, s.follows[q]); }
    hide OneLeader, UrlsOk, ListOk;
    if Folded(fold, s, p) in s.protos {
      assert LeaderOf(fold, s, lead, Folded(fold, s, p));
      JoinFollows(fold, s, t, p, lead, q);
    } else {
      JoinLeads(fold, s, t, p, lead, q);
    }
  }

  lemma JoinLeads(fold: Fold, s: State, t: State, p: Pid, lead: Pid, q: Pid)
    requires Join(fold, s, t, p, lead) && Folded(fold, s, p) !in s.protos && ProcOk(fold, s, p) && ProcOk(fold, s, q)
    requires q in s.procs && q in s.follows ==> ProcOk(fold, s, s.follows[q])
    ensures ProcOk(fold, t, q)
  {
  }

  lemma JoinFollows(fold: Fold, s: State, t: State, p: Pid, lead: Pid, q: Pid)
    requires Join(fold, s, t, p, lead) && Folded(fold, s, p) in s.protos && ProcOk(fold, s, p) && ProcOk(fold, s, q)
    requires q in s.procs && q in s.follows ==> ProcOk(fold, s, s.follows[q])
    ensures ProcOk(fold, t, q)
  {
    var f := Folded(fold, s, p);
    assert t.protos[f] == s.protos[f] + [p];
    assert p in t.protos[f] && forall r :: r in s.protos[f] ==> r in t.protos[f];
  }

  lemma JoinList(fold: Fold, s: State, t: State, p: Pid, lead: Pid, f: string)
    requires Inv(fold, s) && Join(fold, s, t, p, lead)
    ensures ListOk(fold, t, f)
  {
    assert ProcOk(fold, s, p) && ListOk(fold, s, f);
    if f in s.protos {
      var l :| LeaderOf(fold, s, l, f);
      assert LeaderOf(fold, t, l, f);
    } else if f in t.protos {
      assert LeaderOf(fold, t, p, f);
    }
  }

  lemma JoinLeaders(fold: Fold, s: State, t: State, p: Pid, lead: Pid)
    requires Inv(fold, s) && Join(fold, s, t, p, lead)
    ensures OneLeader(fold, t)
  {
    forall q, r, f | LeaderOf(fold, t, q, f) && LeaderOf(fold, t, r, f) ensures q == r {
      assert ProcOk(fold, s, q) && ProcOk(fold, s, r);
      if q != p && r != p { assert LeaderOf(fold, s, q, f) && LeaderOf(fold, s, r, f); }
    }
  }

  lemma JoinKeeps(fold: Fold, s: State, t: State, p: Pid, lead: Pid)
    requires Inv(fold, s) && Join(fold, s, t, p, lead)
    ensures Inv(fold, t)
  {
    assert ProcOk(fold, s, p);
    forall q ensures ProcOk(fold, t, q) { JoinProc(fold, s, t, p, lead, q); }
    forall f ensures ListOk(fold, t, f) { JoinList(fold, s, t, p, lead, f); }
    hide ProcOk, ListOk, OneLeader;
    JoinLeaders(fold, s, t, p, lead);
  }

  lemma ReceiveKeeps(fold: Fold, s: State, t: State, p: Pid)
    requires Inv(fold, s) && Receive(s, t, p)
    ensures Inv(fold, t)
  {
    assert ProcOk(fold, s, p);
    assert ProcOk(fold, s, s.follows[p]);
    forall q ensures ProcOk(fold, t, q) {
      assert ProcOk(fold, s, q);
      if q in s.procs && q in s.follows { assert ProcOk(fold, s, s.follows[q]); }
    }
    forall f ensures ListOk(fold, t, f) {
      assert ListOk(fold, s, f);
      if f in s.protos {
        var l :| LeaderOf(fold, s, l, f);
        assert LeaderOf(fold, t, l, f);
      }
    }
    forall q, r, f | LeaderOf(fold, t, q, f) && LeaderOf(fold, t, r, f) ensures q == r {
      assert LeaderOf(fold, s, q, f) && LeaderOf(fold, s, r, f);
    }
  }

  lemma ReplyKeeps(fold: Fold, s: State, t: State, p: Pid)
    requires Inv(fold, s) && Reply(fold, s, t, p)
    ensures Inv(fold, t)
  {
    var f0 := Folded(fold, s, p);
    assert ProcOk(fold, s, p) && ListOk(fold, s, f0) && LeaderOf(fold, s, p, f0);
    forall q ensures ProcOk(fold, t, q) {
      assert ProcOk(fold, s, q);
      if q in s.procs && IsLeader(s.procs[q].pc) { assert LeaderOf(fold, s, q, Folded(fold, s, q)); }
      if q in s.procs && q in s.follows { assert ProcOk(fold, s, s.follows[q]); }
    }
    forall f ensures ListOk(fold, t, f) {
      assert ListOk(fold, s, f);
      if f in t.protos {
        var l :| LeaderOf(fold, s, l, f);
        assert LeaderOf(fold, t, l, f);
      }
    }
    forall q, r, f | LeaderOf(fold, t, q, f) && LeaderOf(fold, t, r, f) ensures q == r {
      assert LeaderOf(fold, s, q, f) && LeaderOf(fold, s, r, f);
    }
  }

  // ------------------------------------------------------------------ whole runs

  lemma StepKeeps(fold: Fold, s: State, t: State)
    requires Inv(fold, s) && Next(fold, s, t)
    ensures Inv(fold, t)
  {
    var p :| Step(fold, s, t, p);
    hide Inv, Check, Upgrade, Join, Receive, Deduce, Recheck, Create, Reply;
    if Check(fold, s, t, p) { CheckKeeps(fold, s, t, p); }
    else if Upgrade(fold, s, t, p) { UpgradeKeeps(fold, s, t, p); }
    else if lead :| Join(fold, s, t, p, lead) { JoinKeeps(fold, s, t, p, lead); }
    else if Receive(s, t, p) { ReceiveKeeps(fold, s, t, p); }
    else if attempts :| Deduce(s, t, p, attempts) { DeduceKeeps(fold, s, t, p, attempts); }
    else if Recheck(fold, s, t, p) { RecheckKeeps(fold, s, t, p); }
    else if Create(fold, s, t, p) { CreateKeeps(fold, s, t, p); }
    else { ReplyKeeps(fold, s, t, p); }
  }

  lemma {:induction false} RunInv(fold: Fold, ss: seq<State>)
    requires Run(fold, ss)
    ensures Inv(fold, ss[|ss| - 1])
  {
    hide Inv, Initial, Next;
    assert Link(fold, ss, |ss| - 1);
    if |ss| == 1 {
      InitialInv(fold, ss[0]);
    } else {
      var init := ss[..|ss| - 1];
      forall k | 0 <= k < |init| ensures Link(fold, init, k) { assert Link(fold, ss, k); }
      RunInv(fold, init);
      StepKeeps(fold, ss[|ss| - 2], ss[|ss| - 1]);
    }
  }

  ghost predicate Reachable(fold: Fold, s: State) {
    exists ss :: Run(fold, ss) && ss[|ss| - 1] == s
  }

  lemma ReachableInv(fold: Fold, s: State)
    requires Reachable(fold, s)
    ensures Inv(fold, s)
  {
    var ss :| Run(fold, ss) && ss[|ss| - 1] == s;
    RunInv(fold, ss);
  }

  /** No interleaving reaches a panic: every recorded URL has its gateway. */
  lemma NeverPanics(fold: Fold, s: State)
    requires Reachable(fold, s)
    ensures forall p <- s.procs :: !s.procs[p].pc.Panicked?
    ensures forall n <- s.urls :: s.urls[n] in s.srcs
  {
    ReachableInv(fold, s);
    forall p | p in s.procs ensures !s.procs[p].pc.Panicked? { assert ProcOk(fold, s, p); }
  }

  /** At most one caller works on a folded name, and exactly one while others wait for it. */
  lemma SingleFlight(fold: Fold, s: State, f: string)
    requires Reachable(fold, s)
    ensures forall p, q :: LeaderOf(fold, s, p, f) && LeaderOf(fold, s, q, f) ==> p == q
    ensures f in s.protos <==> exists p :: LeaderOf(fold, s, p, f)
  {
    ReachableInv(fold, s);
    assert ListOk(fold, s, f);
    if p :| LeaderOf(fold, s, p, f) { assert ProcOk(fold, s, p); }
  }

  /** A caller that attached returns what the caller it attached to returns, a gateway only if it
      is recorded. */
  lemma FollowersAgree(fold: Fold, s: State, p: Pid)
    requires Reachable(fold, s) && p in s.procs && s.procs[p].pc.Returned?
    ensures p in s.follows ==> s.follows[p] in s.procs && s.procs[s.follows[p]].pc == s.procs[p].pc
    ensures Known(s, s.procs[p].pc.r)
  {
    ReachableInv(fold, s);
    assert ProcOk(fold, s, p);
  }

  /** Sending an answer never blocks: no waiting caller has one already, and every caller gets
      it once. */
  lemma ChannelsAreEmpty(fold: Fold, s: State, t: State, p: Pid, q: Pid)
    requires Reachable(fold, s) && Reply(fold, s, t, p) && q in s.protos[Folded(fold, s, p)]
    ensures q in s.procs && s.procs[q].pc.Waiting? && q !in s.inbox && q in t.inbox && t.inbox[q] == s.procs[p].pc.r
    ensures NoDup(s.protos[Folded(fold, s, p)])
  {
    ReachableInv(fold, s);
    assert ListOk(fold, s, Folded(fold, s, p));
  }

  /** Under which name a caller finds what is recorded: its own, or else the folded one. */
  function FoundUnder(fold: Fold, s: State, p: Pid): Option<string>
    requires p in s.procs
  {
    var name, f := s.procs[p].name, Folded(fold, s, p);
    if name in s.urls then Some(name) else if f in s.urls then Some(f) else None
  }

  /** A caller whose name is known, as it is or folded, starts no work and waits for nobody: it gets the
      gateway recorded, at once or after one more step, which records its own spelling as well. */
  lemma KnownNamesAreReturned(fold: Fold, s: State, t: State, u: State, p: Pid)
    requires Reachable(fold, s) && Check(fold, s, t, p) && FoundUnder(fold, s, p).Some?
    ensures var n := FoundUnder(fold, s, p).value;
            var url, name := s.urls[n], s.procs[p].name;
            && url in s.srcs
            && (n == name ==> t.procs[p].pc == Returned(Got(s.srcs[url])))
            && (n != name && Upgrade(fold, t, u, p) ==> u.procs[p].pc == Returned(Got(s.srcs[url])) && u.urls == s.urls[name := url])
            && (n != name ==> t.procs[p].pc.Upgrading?)
  {
    NeverPanics(fold, s);
  }

  /** So is one that has deduced its sources when another caller has recorded the folded name by then:
      it makes no gateway. */
  lemma RecordedInTheMeantime(fold: Fold, s: State, t: State, p: Pid)
    requires Reachable(fold, s) && Recheck(fold, s, t, p)
    ensures var f := Folded(fold, s, p);
            if f in s.urls then s.urls[f] in s.srcs && t.procs[p].pc == Replying(Got(s.srcs[s.urls[f]])) else t.procs[p].pc == Creating(s.procs[p].pc.attempts)
  {
    NeverPanics(fold, s);
  }

  // ------------------------------------------------------------------ nobody waits for ever

  ghost predicate CanStep(fold: Fold, s: State) {
    exists t :: Next(fold, s, t)
  }

  lemma StepsTo(fold: Fold, s: State, t: State, p: Pid)
    requires Step(fold, s, t, p)
    ensures CanStep(fold, s)
  {
    assert Next(fold, s, t);
  }

  /** A caller that is neither finished nor waiting can go on, once nobody holds the lock. */
  lemma ActiveCanStep(fold: Fold, s: State, p: Pid)
    requires Inv(fold, s) && p in s.procs && (s.writer.None? || s.writer == Some(p))
    requires !s.procs[p].pc.Waiting? && !s.procs[p].pc.Returned?
    ensures CanStep(fold, s)
  {
    assert ProcOk(fold, s, p);
    var pc, f, name := s.procs[p].pc, Folded(fold, s, p), s.procs[p].name;
    match pc {
      case Start => StepsTo(fold, s, At(s, p, LookUp(fold, s, p)), p);
      case Upgrading(url, gate) =>
        var t := At(s.(urls := s.urls[name := url]), p, Returned(Got(gate.value)));
        assert Upgrade(fold, s, t, p);
        StepsTo(fold, s, t, p);
      case Missed => JoinIsPossible(fold, s, p);
      case Leading =>
        var t := At(s, p, Replying(Failed));
        assert Deduce(s, t, p, None);
        StepsTo(fold, s, t, p);
      case Deduced(attempts) =>
        var t := At(s, p, if f !in s.urls then Creating(attempts) else if s.urls[f] in s.srcs then Replying(Got(s.srcs[s.urls[f]])) else Panicked);
        assert Recheck(fold, s, t, p);
        StepsTo(fold, s, t, p);
      case Creating(attempts) => CreateIsPossible(fold, s, p);
      case Replying(r) => ReplyIsPossible(fold, s, p);
    }
  }

  lemma JoinIsPossible(fold: Fold, s: State, p: Pid)
    requires Inv(fold, s) && p in s.procs && s.procs[p].pc.Missed?
    ensures CanStep(fold, s)
  {
    var f := Folded(fold, s, p);
    assert ListOk(fold, s, f);
    if f in s.protos {
      var lead :| LeaderOf(fold, s, lead, f);
      var t := At(s.(protos := s.protos[f := s.protos[f] + [p]], follows := s.follows[p := lead]), p, Waiting);
      assert Join(fold, s, t, p, lead);
      StepsTo(fold, s, t, p);
    } else {
      var t := At(s.(protos := s.protos[f := []]), p, Leading);
      assert Join(fold, s, t, p, p);
      StepsTo(fold, s, t, p);
    }
  }

  lemma CreateIsPossible(fold: Fold, s: State, p: Pid)
    requires p in s.procs && s.procs[p].pc.Creating? && s.writer.None?
    ensures CanStep(fold, s)
  {
    var name, f := s.procs[p].name, Folded(fold, s, p);
    FirstGoodIs(fold, s.srcs, f != name, s.procs[p].pc.attempts);
    match FirstGood(fold, s.srcs, f != name, s.procs[p].pc.attempts) {
      case None =>
        var t := At(s.(writer := Some(p)), p, Replying(Failed));
        assert Create(fold, s, t, p);
        StepsTo(fold, s, t, p);
      case Some(a) =>
        var t := Record(fold, s, p, a);
        assert Create(fold, s, t, p);
        StepsTo(fold, s, t, p);
    }
  }

  lemma ReplyIsPossible(fold: Fold, s: State, p: Pid)
    requires Inv(fold, s) && p in s.procs && s.procs[p].pc.Replying?
    ensures CanStep(fold, s)
  {
    assert ProcOk(fold, s, p);
    var r, f := s.procs[p].pc.r, Folded(fold, s, p);
    var t := At(s.(inbox := s.inbox + map q | q in s.protos[f] :: r, protos := s.protos - {f},
                   writer := if s.writer == Some(p) then None else s.writer), p, Returned(r));
    assert Reply(fold, s, t, p);
    StepsTo(fold, s, t, p);
  }

  /** As long as some caller has not returned, some caller can take a step. */
  lemma NoDeadlock(fold: Fold, s: State, p: Pid)
    requires Reachable(fold, s) && p in s.procs && !s.procs[p].pc.Returned?
    ensures CanStep(fold, s)
  {
    ReachableInv(fold, s);
    assert ProcOk(fold, s, p);
    hide CanStep;
    if s.writer.Some? {
      assert ProcOk(fold, s, s.writer.value);
      ActiveCanStep(fold, s, s.writer.value);
    } else if !s.procs[p].pc.Waiting? {
      ActiveCanStep(fold, s, p);
    } else if p in s.inbox {
      AnswerArrives(fold, s, p);
    } else {
      ActiveCanStep(fold, s, s.follows[p]);
    }
  }

  lemma AnswerArrives(fold: Fold, s: State, p: Pid)
    requires p in s.procs && s.procs[p].pc.Waiting? && p in s.inbox
    ensures CanStep(fold, s)
  {
    var t := At(s.(inbox := s.inbox - {p}), p, Returned(s.inbox[p]));
    assert Receive(s, t, p);
    StepsTo(fold, s, t, p);
  }

  // ------------------------------------------------------------------ every run ends

  /** How many steps a caller has left at most. */
  function Left(pc: Pc): nat {
    match pc
    case Start => 7 case Missed => 6 case Leading => 5 case Deduced(_) => 4 case Creating(_) => 3
    case Replying(_) => 2 case Upgrading(_, _) => 1 case Waiting => 1 case Returned(_) => 0 case Panicked => 0
  }

  ghost function Work(procs: map<Pid, Proc>, ps: set<Pid>): nat
    requires ps <= procs.Keys
  {
    if ps == {} then 0 else
      var p :| p in ps;
      Left(procs[p].pc) + Work(procs, ps - {p})
  }

  lemma {:induction false} WorkSplits(procs: map<Pid, Proc>, ps: set<Pid>, p: Pid)
    requires ps <= procs.Keys && p in ps
    ensures Work(procs, ps) == Left(procs[p].pc) + Work(procs, ps - {p})
    decreases |ps|
  {
    var q :| q in ps && Work(procs, ps) == Left(procs[q].pc) + Work(procs, ps - {q});
    if q != p {
      WorkSplits(procs, ps - {q}, p);
      WorkSplits(procs, ps - {p}, q);
      assert ps - {q} - {p} == ps - {p} - {q};
    }
  }

  lemma {:induction false} WorkSame(procs: map<Pid, Proc>, others: map<Pid, Proc>, ps: set<Pid>)
    requires ps <= procs.Keys && ps <= others.Keys && forall p <- ps :: procs[p] == others[p]
    ensures Work(procs, ps) == Work(others, ps)
    decreases |ps|
  {
    if ps != {} {
      var p :| p in ps;
      WorkSplits(procs, ps, p);
      WorkSplits(others, ps, p);
      WorkSame(procs, others, ps - {p});
    }
  }

  lemma {:induction false} WorkBounded(procs: map<Pid, Proc>, ps: set<Pid>)
    requires ps <= procs.Keys
    ensures Work(procs, ps) <= 7 * |ps|
    decreases |ps|
  {
    if ps != {} {
      var p :| p in ps;
      WorkSplits(procs, ps, p);
      WorkBounded(procs, ps - {p});
    }
  }

  ghost predicate Advances(s: State, t: State, p: Pid) {
    p in s.procs && p in t.procs && t.procs == s.procs[p := t.procs[p]] && Left(t.procs[p].pc) < Left(s.procs[p].pc)
  }

  lemma CreateAdvances(fold: Fold, s: State, t: State, p: Pid)
    requires Create(fold, s, t, p)
    ensures Advances(s, t, p)
  {
    hide FirstGood, Key;
  }

  lemma JoinAdvances(fold: Fold, s: State, t: State, p: Pid, lead: Pid)
    requires Join(fold, s, t, p, lead)
    ensures Advances(s, t, p)
  {
    assert t.procs[p].pc.Waiting? || t.procs[p].pc.Leading?;
  }

  /** A step brings one caller closer to its end and moves no other. */
  lemma StepMovesOne(fold: Fold, s: State, t: State, p: Pid)
    requires Step(fold, s, t, p)
    ensures Advances(s, t, p)
  {
    hide Create, Join, Advances;
    if Create(fold, s, t, p) { CreateAdvances(fold, s, t, p); }
    else if lead :| Join(fold, s, t, p, lead) { JoinAdvances(fold, s, t, p, lead); }
    else { OtherAdvances(fold, s, t, p); }
  }

  lemma OtherAdvances(fold: Fold, s: State, t: State, p: Pid)
    requires Check(fold, s, t, p) || Upgrade(fold, s, t, p) || Receive(s, t, p) || (exists attempts :: Deduce(s, t, p, attempts))
             || Recheck(fold, s, t, p) || Reply(fold, s, t, p)
    ensures Advances(s, t, p)
  {
    hide Check, Upgrade, Receive, Deduce, Recheck, Reply, Advances;
    if Check(fold, s, t, p) { CheckAdvances(fold, s, t, p); }
    else if Upgrade(fold, s, t, p) { UpgradeAdvances(fold, s, t, p); }
    else if Receive(s, t, p) { ReceiveAdvances(s, t, p); }
    else if attempts :| Deduce(s, t, p, attempts) { DeduceAdvances(s, t, p, attempts); }
    else if Recheck(fold, s, t, p) { RecheckAdvances(fold, s, t, p); }
    else { ReplyAdvances(fold, s, t, p); }
  }

  lemma CheckAdvances(fold: Fold, s: State, t: State, p: Pid)
    requires Check(fold, s, t, p)
    ensures Advances(s, t, p)
  {
  }

  lemma UpgradeAdvances(fold: Fold, s: State, t: State, p: Pid)
    requires Upgrade(fold, s, t, p)
    ensures Advances(s, t, p)
  {
  }

  lemma ReceiveAdvances(s: State, t: State, p: Pid)
    requires Receive(s, t, p)
    ensures Advances(s, t, p)
  {
  }

  lemma DeduceAdvances(s: State, t: State, p: Pid, attempts: Option<seq<Attempt>>)
    requires Deduce(s, t, p, attempts)
    ensures Advances(s, t, p)
  {
  }

  lemma RecheckAdvances(fold: Fold, s: State, t: State, p: Pid)
    requires Recheck(fold, s, t, p)
    ensures Advances(s, t, p)
  {
  }

  lemma ReplyAdvances(fold: Fold, s: State, t: State, p: Pid)
    requires Reply(fold, s, t, p)
    ensures Advances(s, t, p)
  {
  }

  lemma StepWorks(fold: Fold, s: State, t: State)
    requires Next(fold, s, t)
    ensures t.procs.Keys == s.procs.Keys && Work(t.procs, t.procs.Keys) < Work(s.procs, s.procs.Keys)
  {
    var p :| Step(fold, s, t, p);
    StepMovesOne(fold, s, t, p);
    assert t.procs.Keys == s.procs.Keys;
    hide Step;
    WorkSplits(s.procs, s.procs.Keys, p);
    WorkSplits(t.procs, t.procs.Keys, p);
    WorkSame(s.procs, t.procs, s.procs.Keys - {p});
  }

  lemma {:induction false} RunWorks(fold: Fold, ss: seq<State>)
    requires Run(fold, ss)
    ensures var last := ss[|ss| - 1];
            last.procs.Keys == ss[0].procs.Keys && Work(last.procs, last.procs.Keys) + |ss| <= Work(ss[0].procs, ss[0].procs.Keys) + 1
  {
    hide Step, Next, Work, Initial;
    if |ss| > 1 {
      var init := ss[..|ss| - 1];
      forall k | 0 <= k < |init| ensures Link(fold, init, k) { assert Link(fold, ss, k); }
      RunWorks(fold, init);
      assert Link(fold, ss, |ss| - 1);
      StepWorks(fold, ss[|ss| - 2], ss[|ss| - 1]);
    }
  }

  /** Every interleaving ends after a bounded number of steps, and by NoDeadlock it ends with
      every caller having returned. */
  lemma EveryRunEnds(fold: Fold, ss: seq<State>)
    requires Run(fold, ss)
    ensures |ss| <= 7 * |ss[0].procs.Keys| + 1
    ensures !CanStep(fold, ss[|ss| - 1]) ==> forall p :: p in ss[0].procs ==> p in ss[|ss| - 1].procs && ss[|ss| - 1].procs[p].pc.Returned?
  {
    RunWorks(fold, ss);
    WorkBounded(ss[0].procs, ss[0].procs.Keys);
    var last := ss[|ss| - 1];
    forall p | p in ss[0].procs && !CanStep(fold, last) ensures p in last.procs && last.procs[p].pc.Returned? {
      assert p in last.procs.Keys;
      if !last.procs[p].pc.Returned? { NoDeadlock(fold, last, p); }
    }
  }
}
