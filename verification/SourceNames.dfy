/** Whether all callers of one name get one gateway (gps/source.go).  A name is recorded with its
    URL, and every URL as a name of itself; that may overwrite what the URL, used as a name, was
    recorded with.  It does not if URLs lead to themselves. */
module SourceNames {
  import opened Constraints
  import opened Identifiers
  import opened SourceCoordinators

  type Kind = string -> bool

  /** Folding is done with after one time, and does not make a name a URL. */
  ghost predicate Folds(fold: Fold, isUrl: Kind) {
    forall n :: fold(fold(n)) == fold(n) && isUrl(fold(n)) == isUrl(n)
  }

  /** What deducing a name may come up with: folded URLs unless the name needs folding itself, and
      for a URL nothing but that URL. */
  predicate LeadsHome(fold: Fold, isUrl: Kind, name: string, a: Attempt) {
    var key := Key(fold, fold(name) != name, a.url);
    && isUrl(a.url) && fold(a.url) == key
    && (isUrl(name) ==> key == fold(name))
  }

  ghost predicate Deduces(fold: Fold, isUrl: Kind, s: State) {
    forall p, a :: p in s.procs && (s.procs[p].pc.Deduced? || s.procs[p].pc.Creating?) && a in s.procs[p].pc.attempts ==>
      LeadsHome(fold, isUrl, s.procs[p].name, a)
  }

  // ------------------------------------------------------------------ the invariant

  /** Each name has the URL of its folded form, and a URL itself. */
  ghost predicate NameOk(fold: Fold, isUrl: Kind, s: State, n: string) {
    n in s.urls ==> fold(n) in s.urls && s.urls[n] == s.urls[fold(n)] && (isUrl(n) ==> s.urls[n] == fold(n))
  }

  /** The result is the gateway that the name has now. */
  ghost predicate Current(fold: Fold, s: State, p: Pid, r: Result)
    requires p in s.procs
  {
    var f := Folded(fold, s, p);
    r.Got? ==> f in s.urls && s.urls[f] in s.srcs && s.srcs[s.urls[f]] == r.g
  }

  ghost predicate PcOk(fold: Fold, isUrl: Kind, s: State, p: Pid) {
    p in s.procs ==>
      var pc, f := s.procs[p].pc, Folded(fold, s, p);
      && (pc.Upgrading? ==> f in s.urls && s.urls[f] == pc.url && f != s.procs[p].name)
      && (pc.Creating? && f in s.urls ==> isUrl(f))
      && (pc.Replying? || pc.Returned? ==> Current(fold, s, p, pc.r))
  }

  ghost predicate Named(fold: Fold, isUrl: Kind, s: State) {
    (forall n :: NameOk(fold, isUrl, s, n)) && forall p :: PcOk(fold, isUrl, s, p)
  }

  /** Nothing recorded is lost or changed. */
  ghost predicate Keeps(s: State, t: State) {
    && (forall n <- s.urls :: n in t.urls && t.urls[n] == s.urls[n])
    && (forall u <- s.srcs :: u in t.srcs && t.srcs[u] == s.srcs[u])
  }

  // ------------------------------------------------------------------ steps that record nothing

  lemma SameMaps(fold: Fold, isUrl: Kind, s: State, t: State, p: Pid)
    requires Named(fold, isUrl, s) && t.urls == s.urls && t.srcs == s.srcs
    requires p in s.procs && p in t.procs && t.procs == s.procs[p := t.procs[p]] && PcOk(fold, isUrl, t, p)
    ensures Named(fold, isUrl, t) && Keeps(s, t)
  {
    forall n ensures NameOk(fold, isUrl, t, n) { assert NameOk(fold, isUrl, s, n); }
    forall q ensures PcOk(fold, isUrl, t, q) { assert PcOk(fold, isUrl, s, q); }
  }

  lemma CheckNames(fold: Fold, isUrl: Kind, s: State, t: State, p: Pid)
    requires Folds(fold, isUrl) && Named(fold, isUrl, s) && Inv(fold, s) && Check(fold, s, t, p)
    ensures Named(fold, isUrl, t) && Keeps(s, t)
  {
    assert NameOk(fold, isUrl, s, s.procs[p].name) && NameOk(fold, isUrl, s, Folded(fold, s, p));
    SameMaps(fold, isUrl, s, t, p);
  }

  lemma ReceiveNames(fold: Fold, isUrl: Kind, s: State, t: State, p: Pid)
    requires Named(fold, isUrl, s) && Inv(fold, s) && Receive(s, t, p)
    ensures Named(fold, isUrl, t) && Keeps(s, t)
  {
    assert ProcOk(fold, s, p);
    assert PcOk(fold, isUrl, s, s.follows[p]);
    SameMaps(fold, isUrl, s, t, p);
  }

  lemma RecheckNames(fold: Fold, isUrl: Kind, s: State, t: State, p: Pid)
    requires Named(fold, isUrl, s) && Inv(fold, s) && Recheck(fold, s, t, p)
    ensures Named(fold, isUrl, t) && Keeps(s, t)
  {
    SameMaps(fold, isUrl, s, t, p);
  }

  lemma ReplyNames(fold: Fold, isUrl: Kind, s: State, t: State, p: Pid)
    requires Named(fold, isUrl, s) && Reply(fold, s, t, p)
    ensures Named(fold, isUrl, t) && Keeps(s, t)
  {
    assert PcOk(fold, isUrl, s, p);
    SameMaps(fold, isUrl, s, t, p);
  }

  lemma QuietNames(fold: Fold, isUrl: Kind, s: State, t: State, p: Pid)
    requires Named(fold, isUrl, s) && ((exists lead :: Join(fold, s, t, p, lead)) || exists attempts :: Deduce(s, t, p, attempts))
    ensures Named(fold, isUrl, t) && Keeps(s, t)
  {
    if lead :| Join(fold, s, t, p, lead) {
      SameMaps(fold, isUrl, s, t, p);
    } else {
      var attempts :| Deduce(s, t, p, attempts);
      SameMaps(fold, isUrl, s, t, p);
    }
  }

  // ------------------------------------------------------------------ steps that do

  /** The new names are no one's folded name but a URL's. */
  lemma OthersStay(fold: Fold, isUrl: Kind, s: State, t: State, q: Pid)
    requires PcOk(fold, isUrl, s, q) && Keeps(s, t)
    requires q in t.procs ==> q in s.procs && t.procs[q] == s.procs[q]
    requires q in s.procs && s.procs[q].pc.Creating? && Folded(fold, s, q) in t.urls && Folded(fold, s, q) !in s.urls ==> isUrl(Folded(fold, s, q))
    ensures PcOk(fold, isUrl, t, q)
  {
  }

  /** Upgrades of one name that race record the same URL. */
  lemma UpgradeNames(fold: Fold, isUrl: Kind, s: State, t: State, p: Pid)
    requires Folds(fold, isUrl) && Named(fold, isUrl, s) && Inv(fold, s) && Upgrade(fold, s, t, p)
    ensures Named(fold, isUrl, t) && Keeps(s, t)
    ensures s.procs[p].name in s.urls ==> t.urls == s.urls
  {
    var name, f, url := s.procs[p].name, Folded(fold, s, p), s.procs[p].pc.url;
    assert PcOk(fold, isUrl, s, p) && ProcOk(fold, s, p);
    assert NameOk(fold, isUrl, s, name) && NameOk(fold, isUrl, s, f);
    assert t.urls == s.urls[name := url];
    forall n ensures NameOk(fold, isUrl, t, n) { assert NameOk(fold, isUrl, s, n); }
    forall q ensures PcOk(fold, isUrl, t, q) {
      if q != p {
        assert PcOk(fold, isUrl, s, q);
        OthersStay(fold, isUrl, s, t, q);
      }
    }
  }

  /** The attempt a leader settles on is one that was deduced. */
  lemma {:induction false} FirstGoodIn(fold: Fold, srcs: map<Url, Gateway>, folding: bool, attempts: seq<Attempt>)
    ensures FirstGood(fold, srcs, folding, attempts).Some? ==> FirstGood(fold, srcs, folding, attempts).value in attempts
  {
    if attempts != [] {
      FirstGoodIn(fold, srcs, folding, attempts[1..]);
      assert attempts == [attempts[0]] + attempts[1..];
    }
  }

  /** The name under which a record may be overwritten already has this URL. */
  lemma RecordedAlready(fold: Fold, isUrl: Kind, s: State, p: Pid, a: Attempt, n: string)
    requires Folds(fold, isUrl) && Named(fold, isUrl, s) && p in s.procs && s.procs[p].pc.Creating?
    requires LeadsHome(fold, isUrl, s.procs[p].name, a) && n in s.urls
    requires var name := s.procs[p].name; n == name || n == fold(name) || n == a.url || n == Key(fold, fold(name) != name, a.url)
    ensures s.urls[n] == Key(fold, fold(s.procs[p].name) != s.procs[p].name, a.url)
  {
    assert NameOk(fold, isUrl, s, n) && PcOk(fold, isUrl, s, p);
    assert fold(fold(s.procs[p].name)) == fold(s.procs[p].name);
    assert isUrl(fold(a.url)) == isUrl(a.url) && fold(fold(a.url)) == fold(a.url);
    assert isUrl(fold(s.procs[p].name)) == isUrl(s.procs[p].name);
  }

  lemma RecordMaps(fold: Fold, s: State, p: Pid, a: Attempt)
    requires p in s.procs && (Key(fold, Folded(fold, s, p) != s.procs[p].name, a.url) in s.srcs || a.made.Some?)
    ensures var t, name, f := Record(fold, s, p, a), s.procs[p].name, Folded(fold, s, p);
            var url := Key(fold, f != name, a.url);
            && (forall n :: n in t.urls <==> n in s.urls || n == f || n == url || (f != name && (n == name || n == a.url)))
            && (forall n <- t.urls :: t.urls[n] == if n == f || n == url || (f != name && (n == name || n == a.url)) then url else s.urls[n])
            && url in t.srcs && t.procs == s.procs[p := Proc(name, Replying(Got(t.srcs[url])))]
            && forall u <- s.srcs :: u in t.srcs && t.srcs[u] == s.srcs[u]
  {
  }

  lemma RecordPc(fold: Fold, isUrl: Kind, s: State, p: Pid, a: Attempt, q: Pid)
    requires Folds(fold, isUrl) && Named(fold, isUrl, s) && Inv(fold, s) && p in s.procs && s.procs[p].pc.Creating?
    requires LeadsHome(fold, isUrl, s.procs[p].name, a)
    requires Key(fold, Folded(fold, s, p) != s.procs[p].name, a.url) in s.srcs || a.made.Some?
    requires Keeps(s, Record(fold, s, p, a))
    ensures PcOk(fold, isUrl, Record(fold, s, p, a), q)
  {
    var t, name, f := Record(fold, s, p, a), s.procs[p].name, Folded(fold, s, p);
    RecordMaps(fold, s, p, a);
    hide Record;
    if q != p && q in s.procs {
      var fq := Folded(fold, s, q);
      assert fold(fq) == fq && (isUrl(fold(a.url)) <==> isUrl(a.url));
      assert PcOk(fold, isUrl, s, q);
      assert fq == f ==> LeaderOf(fold, s, p, f) && (s.procs[q].pc.Creating? ==> LeaderOf(fold, s, q, f));
      OthersStay(fold, isUrl, s, t, q);
    }
  }

  lemma RecordNames(fold: Fold, isUrl: Kind, s: State, p: Pid, a: Attempt)
    requires Folds(fold, isUrl) && Named(fold, isUrl, s) && Inv(fold, s) && p in s.procs && s.procs[p].pc.Creating?
    requires LeadsHome(fold, isUrl, s.procs[p].name, a)
    requires Key(fold, Folded(fold, s, p) != s.procs[p].name, a.url) in s.srcs || a.made.Some?
    ensures Named(fold, isUrl, Record(fold, s, p, a)) && Keeps(s, Record(fold, s, p, a))
  {
    var t, name, f := Record(fold, s, p, a), s.procs[p].name, Folded(fold, s, p);
    var url := Key(fold, f != name, a.url);
    RecordMaps(fold, s, p, a);
    hide Record;
    assert fold(f) == f && fold(url) == url && isUrl(url) && isUrl(f) == isUrl(name) by {
      assert fold(fold(a.url)) == fold(a.url) && isUrl(fold(a.url)) == isUrl(a.url);
    }
    forall n | n in s.urls ensures t.urls[n] == s.urls[n] {
      if n == f || n == url || (f != name && (n == name || n == a.url)) { RecordedAlready(fold, isUrl, s, p, a, n); }
    }
    forall n ensures NameOk(fold, isUrl, t, n) {
      assert NameOk(fold, isUrl, s, n);
    }
    assert Keeps(s, t);
    hide Named, Inv, NameOk, Keeps, PcOk, LeadsHome, Folds;
    forall q ensures PcOk(fold, isUrl, t, q) { RecordPc(fold, isUrl, s, p, a, q); }
    NamedIs(fold, isUrl, t);
  }

  lemma NamedIs(fold: Fold, isUrl: Kind, t: State)
    requires (forall n :: NameOk(fold, isUrl, t, n)) && forall q :: PcOk(fold, isUrl, t, q)
    ensures Named(fold, isUrl, t)
  {
  }

  lemma CreateNames(fold: Fold, isUrl: Kind, s: State, t: State, p: Pid)
    requires Folds(fold, isUrl) && Named(fold, isUrl, s) && Inv(fold, s) && Deduces(fold, isUrl, s) && Create(fold, s, t, p)
    ensures Named(fold, isUrl, t) && Keeps(s, t)
  {
    var folding := Folded(fold, s, p) != s.procs[p].name;
    FirstGoodIn(fold, s.srcs, folding, s.procs[p].pc.attempts);
    match FirstGood(fold, s.srcs, folding, s.procs[p].pc.attempts)
    case None =>
      SameMaps(fold, isUrl, s, t, p);
    case Some(a) =>
      hide Record, FirstGood, Named, Inv;
      RecordNames(fold, isUrl, s, p, a);
  }

  // ------------------------------------------------------------------ whole runs

  lemma StepNames(fold: Fold, isUrl: Kind, s: State, t: State)
    requires Folds(fold, isUrl) && Named(fold, isUrl, s) && Inv(fold, s) && Deduces(fold, isUrl, s) && Next(fold, s, t)
    ensures Named(fold, isUrl, t) && Keeps(s, t)
  {
    var p :| Step(fold, s, t, p);
    hide Inv, Named, Keeps, Folds, Deduces, Check, Upgrade, Join, Receive, Deduce, Recheck, Create, Reply;
    if Check(fold, s, t, p) { CheckNames(fold, isUrl, s, t, p); }
    else if Upgrade(fold, s, t, p) { UpgradeNames(fold, isUrl, s, t, p); }
    else if Receive(s, t, p) { ReceiveNames(fold, isUrl, s, t, p); }
    else if Recheck(fold, s, t, p) { RecheckNames(fold, isUrl, s, t, p); }
    else if Create(fold, s, t, p) { CreateNames(fold, isUrl, s, t, p); }
    else if Reply(fold, s, t, p) { ReplyNames(fold, isUrl, s, t, p); }
    else { QuietNames(fold, isUrl, s, t, p); }
  }

  /** In this run every deduction leads home. */
  ghost predicate LedHome(fold: Fold, isUrl: Kind, ss: seq<State>) {
    Folds(fold, isUrl) && forall k :: 0 <= k < |ss| ==> Deduces(fold, isUrl, ss[k])
  }

  lemma {:induction false} RunNamed(fold: Fold, isUrl: Kind, ss: seq<State>)
    requires Run(fold, ss) && LedHome(fold, isUrl, ss)
    ensures Named(fold, isUrl, ss[|ss| - 1])
  {
    assert Link(fold, ss, |ss| - 1);
    if |ss| > 1 {
      hide Named, Inv, Next, Deduces;
      var init := ss[..|ss| - 1];
      forall k | 0 <= k < |init| ensures Link(fold, init, k) { assert Link(fold, ss, k); }
      RunNamed(fold, isUrl, init);
      RunInv(fold, init);
      StepNames(fold, isUrl, ss[|ss| - 2], ss[|ss| - 1]);
    }
  }

  /** If URLs lead to themselves, all callers of one folded name that get a gateway get the same,
      the one it is recorded with. */
  lemma OneGatewayEach(fold: Fold, isUrl: Kind, ss: seq<State>, p: Pid, q: Pid)
    requires Run(fold, ss) && LedHome(fold, isUrl, ss)
    requires var s := ss[|ss| - 1];
             && p in s.procs && q in s.procs && Folded(fold, s, p) == Folded(fold, s, q)
             && s.procs[p].pc.Returned? && s.procs[p].pc.r.Got? && s.procs[q].pc.Returned? && s.procs[q].pc.r.Got?
    ensures var s, f := ss[|ss| - 1], Folded(fold, ss[|ss| - 1], p);
            s.procs[p].pc == s.procs[q].pc && f in s.urls && s.urls[f] in s.srcs && s.procs[p].pc.r.g == s.srcs[s.urls[f]]
  {
    RunNamed(fold, isUrl, ss);
    assert PcOk(fold, isUrl, ss[|ss| - 1], p) && PcOk(fold, isUrl, ss[|ss| - 1], q);
  }

  /** And no step changes the URL of a name, or the gateway of a URL. */
  lemma NamesKeepTheirUrl(fold: Fold, isUrl: Kind, ss: seq<State>, t: State)
    requires Run(fold, ss) && LedHome(fold, isUrl, ss) && Next(fold, ss[|ss| - 1], t)
    ensures Keeps(ss[|ss| - 1], t)
  {
    RunNamed(fold, isUrl, ss);
    RunInv(fold, ss);
    StepNames(fold, isUrl, ss[|ss| - 1], t);
  }

  /** Upgrades of one name may race: the later one records what is there. */
  lemma RacingUpgradesAgree(fold: Fold, isUrl: Kind, ss: seq<State>, t: State, p: Pid)
    requires Run(fold, ss) && LedHome(fold, isUrl, ss) && Upgrade(fold, ss[|ss| - 1], t, p)
    requires ss[|ss| - 1].procs[p].name in ss[|ss| - 1].urls
    ensures t.urls == ss[|ss| - 1].urls
  {
    RunNamed(fold, isUrl, ss);
    RunInv(fold, ss);
    UpgradeNames(fold, isUrl, ss[|ss| - 1], t, p);
  }
}
