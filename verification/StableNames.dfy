/** When every name is deduced to the same URLs each time, and names need no folding: which
    deductions give all callers of a name one gateway, however the calls interleave and whichever
    gateways can be made (gps/source.go). */
module StableNames {
  import opened Constraints
  import opened Identifiers
  import opened SourceCoordinators
  import opened SourceNames

  type Deducer = string -> seq<Url>

  const SAME: Fold := n => n

  predicate Tries(l: seq<Attempt>, urls: seq<Url>) {
    |l| == |urls| && forall i :: 0 <= i < |l| ==> l[i].url == urls[i]
  }

  /** All that is deduced is what the deducer says. */
  ghost predicate Obeys(d: Deducer, s: State) {
    forall p :: p in s.procs && (s.procs[p].pc.Deduced? || s.procs[p].pc.Creating?) ==> Tries(s.procs[p].pc.attempts, d(s.procs[p].name))
  }

  ghost predicate Led(d: Deducer, ss: seq<State>) {
    Run(SAME, ss) && forall k :: 0 <= k < |ss| ==> Obeys(d, ss[k])
  }

  predicate HasGateway(s: State, p: Pid) {
    p in s.procs && s.procs[p].pc.Returned? && s.procs[p].pc.r.Got?
  }

  /** Callers of one name that got a gateway got the same. */
  ghost predicate OneEach(s: State) {
    forall p, q :: HasGateway(s, p) && HasGateway(s, q) && s.procs[p].name == s.procs[q].name ==> s.procs[p].pc == s.procs[q].pc
  }

  ghost predicate AlwaysOneEach(d: Deducer) {
    forall ss :: Led(d, ss) ==> OneEach(ss[|ss| - 1])
  }

  /** x is listed with no y at or before it. */
  ghost predicate Before(l: seq<Url>, x: Url, y: Url) {
    exists i :: 0 <= i < |l| && l[i] == x && forall j :: 0 <= j <= i ==> l[j] != y
  }

  /** A URL that another name leads to as well comes first among its own URLs, and after all the
      others of these where it is led to. */
  ghost predicate Stable(d: Deducer) {
    forall h, u, v :: h != u && u != v && u in d(h) && v in d(u) ==> Before(d(h), v, u) && Before(d(u), u, v)
  }

  // ------------------------------------------------------------------ the invariant

  ghost predicate Yielded(d: Deducer, n: string) {
    exists h :: h != n && n in d(h)
  }

  predicate NameFrom(d: Deducer, s: State, n: string) {
    n in s.urls ==> s.urls[n] == n || s.urls[n] in d(n)
  }

  /** A URL with a gateway is recorded as a name of itself. */
  predicate SourceNamed(s: State, u: Url) {
    u in s.srcs ==> u in s.urls && s.urls[u] == u
  }

  /** A name recorded while its gateway is being made is a URL that some other name led to. */
  ghost predicate CallerOk(d: Deducer, s: State, p: Pid) {
    p in s.procs ==>
      var pc, n := s.procs[p].pc, s.procs[p].name;
      && !pc.Upgrading?
      && (pc.Creating? && n in s.urls ==> s.urls[n] == n && n in s.srcs && Yielded(d, n))
      && (pc.Replying? || pc.Returned? ==> Current(SAME, s, p, pc.r))
  }

  ghost predicate AllNamed(d: Deducer, s: State) {
    (forall n :: NameFrom(d, s, n)) && (forall u :: SourceNamed(s, u)) && forall p :: CallerOk(d, s, p)
  }

  lemma QuietStep(d: Deducer, s: State, t: State, p: Pid)
    requires AllNamed(d, s) && t.urls == s.urls && t.srcs == s.srcs
    requires p in s.procs && p in t.procs && t.procs == s.procs[p := t.procs[p]] && CallerOk(d, t, p)
    ensures AllNamed(d, t)
  {
    forall n ensures NameFrom(d, t, n) { assert NameFrom(d, s, n); }
    forall u ensures SourceNamed(t, u) { assert SourceNamed(s, u); }
    forall q ensures CallerOk(d, t, q) { assert CallerOk(d, s, q); }
  }

  lemma ReceiveStep(d: Deducer, s: State, t: State, p: Pid)
    requires AllNamed(d, s) && Inv(SAME, s) && Receive(s, t, p)
    ensures AllNamed(d, t)
  {
    assert ProcOk(SAME, s, p);
    assert CallerOk(d, s, s.follows[p]);
    QuietStep(d, s, t, p);
  }

  lemma ReplyStep(d: Deducer, s: State, t: State, p: Pid)
    requires AllNamed(d, s) && Reply(SAME, s, t, p)
    ensures AllNamed(d, t)
  {
    assert CallerOk(d, s, p);
    QuietStep(d, s, t, p);
  }

  lemma OtherStep(d: Deducer, s: State, t: State, p: Pid)
    requires AllNamed(d, s) && UrlsOk(s)
    requires Check(SAME, s, t, p) || (exists lead :: Join(SAME, s, t, p, lead)) || (exists l :: Deduce(s, t, p, l)) || Recheck(SAME, s, t, p)
    ensures AllNamed(d, t)
  {
    if lead :| Join(SAME, s, t, p, lead) {
      QuietStep(d, s, t, p);
    } else if l :| Deduce(s, t, p, l) {
      QuietStep(d, s, t, p);
    } else {
      assert s.procs[p].name in s.urls ==> s.urls[s.procs[p].name] in s.srcs;
      QuietStep(d, s, t, p);
    }
  }

  // ------------------------------------------------------------------ making a gateway

  /** The attempt settled on comes before everything else that already has a gateway. */
  lemma {:induction false} FirstGoodIs(srcs: map<Url, Gateway>, l: seq<Attempt>) returns (i: nat)
    requires FirstGood(SAME, srcs, false, l).Some?
    ensures i < |l| && l[i] == FirstGood(SAME, srcs, false, l).value && (l[i].url in srcs || l[i].made.Some?)
    ensures forall j :: 0 <= j < i ==> l[j].url !in srcs && l[j].made.None?
  {
    if l[0].url in srcs || l[0].made.Some? {
      i := 0;
    } else {
      var k := FirstGoodIs(srcs, l[1..]);
      i := k + 1;
    }
  }

  /** So it is not listed behind one that has. */
  lemma NotBehind(srcs: map<Url, Gateway>, l: seq<Attempt>, urls: seq<Url>, x: Url)
    requires Tries(l, urls) && FirstGood(SAME, srcs, false, l).Some? && x in srcs
    ensures var y := FirstGood(SAME, srcs, false, l).value.url; y in urls && !Before(urls, x, y)
  {
    var i := FirstGoodIs(srcs, l);
    assert urls[i] == l[i].url;
  }

  /** p settles on x, one of those its name leads to. */
  ghost predicate Settles(d: Deducer, s: State, p: Pid, x: Url) {
    && p in s.procs && s.procs[p].pc.Creating? && x in d(s.procs[p].name)
    && forall y <- s.srcs :: !Before(d(s.procs[p].name), y, x)
  }

  lemma IsSettled(d: Deducer, s: State, p: Pid)
    requires Obeys(d, s) && p in s.procs && s.procs[p].pc.Creating?
    requires FirstGood(SAME, s.srcs, false, s.procs[p].pc.attempts).Some?
    ensures Settles(d, s, p, FirstGood(SAME, s.srcs, false, s.procs[p].pc.attempts).value.url)
  {
    var l, urls := s.procs[p].pc.attempts, d(s.procs[p].name);
    hide FirstGood, Before;
    var i := FirstGoodIs(s.srcs, l);
    assert urls[i] == l[i].url;
    forall y | y in s.srcs ensures !Before(urls, y, FirstGood(SAME, s.srcs, false, l).value.url) { NotBehind(s.srcs, l, urls, y); }
  }

  /** In a stable world what is settled on agrees with what is recorded of the name. */
  lemma SettledAgrees(d: Deducer, s: State, p: Pid, x: Url)
    requires Stable(d) && AllNamed(d, s) && Settles(d, s, p, x)
    ensures s.procs[p].name in s.urls ==> s.urls[s.procs[p].name] == x
  {
    hide Before;
    assert CallerOk(d, s, p);
  }

  /** And with what is recorded of the URL. */
  lemma SettledIsItself(d: Deducer, s: State, p: Pid, x: Url)
    requires Stable(d) && AllNamed(d, s) && UrlsOk(s) && Settles(d, s, p, x)
    ensures x in s.urls ==> s.urls[x] == x
  {
    hide Before;
    SettledAgrees(d, s, p, x);
    assert NameFrom(d, s, x);
  }

  lemma RecordCaller(d: Deducer, s: State, p: Pid, a: Attempt, q: Pid)
    requires AllNamed(d, s) && Inv(SAME, s) && p in s.procs && s.procs[p].pc.Creating? && (a.url in s.srcs || a.made.Some?)
    requires a.url in d(s.procs[p].name) && Keeps(s, Record(SAME, s, p, a))
    ensures CallerOk(d, Record(SAME, s, p, a), q)
  {
    var t, n := Record(SAME, s, p, a), s.procs[p].name;
    RecordMaps(SAME, s, p, a);
    hide Record;
    assert CallerOk(d, s, q);
    if q != p && q in s.procs && s.procs[q].name == n { assert LeaderOf(SAME, s, p, n) && (IsLeader(s.procs[q].pc) ==> LeaderOf(SAME, s, q, n)); }
  }

  lemma RecordKeeps(d: Deducer, s: State, p: Pid, a: Attempt)
    requires Stable(d) && AllNamed(d, s) && UrlsOk(s) && Settles(d, s, p, a.url) && (a.url in s.srcs || a.made.Some?)
    ensures Keeps(s, Record(SAME, s, p, a))
    ensures var t := Record(SAME, s, p, a); (forall n :: NameFrom(d, t, n)) && forall u :: SourceNamed(t, u)
  {
    RecordMaps(SAME, s, p, a);
    SettledAgrees(d, s, p, a.url);
    SettledIsItself(d, s, p, a.url);
    hide Record, Stable;
    var t := Record(SAME, s, p, a);
    forall n ensures NameFrom(d, t, n) { assert NameFrom(d, s, n); }
    forall u ensures SourceNamed(t, u) { assert SourceNamed(s, u); }
  }

  lemma RecordStep(d: Deducer, s: State, p: Pid, a: Attempt)
    requires Stable(d) && AllNamed(d, s) && Inv(SAME, s) && Settles(d, s, p, a.url) && (a.url in s.srcs || a.made.Some?)
    ensures AllNamed(d, Record(SAME, s, p, a))
  {
    RecordKeeps(d, s, p, a);
    hide Record, Stable, Keeps;
    forall q ensures CallerOk(d, Record(SAME, s, p, a), q) { RecordCaller(d, s, p, a, q); }
  }

  lemma CreateStep(d: Deducer, s: State, t: State, p: Pid)
    requires Stable(d) && Obeys(d, s) && AllNamed(d, s) && Inv(SAME, s) && Create(SAME, s, t, p)
    ensures AllNamed(d, t)
  {
    var n, l := s.procs[p].name, s.procs[p].pc.attempts;
    if FirstGood(SAME, s.srcs, false, l).None? {
      QuietStep(d, s, t, p);
    } else {
      IsSettled(d, s, p);
      hide Record, FirstGood, Stable, Obeys, AllNamed, Inv;
      RecordStep(d, s, p, FirstGood(SAME, s.srcs, false, l).value);
    }
  }

  // ------------------------------------------------------------------ stability is enough

  lemma StepNamed(d: Deducer, s: State, t: State)
    requires Stable(d) && Obeys(d, s) && AllNamed(d, s) && Inv(SAME, s) && Next(SAME, s, t)
    ensures AllNamed(d, t)
  {
    var p :| Step(SAME, s, t, p);
    NoUpgrade(d, s, p);
    assert UrlsOk(s);
    hide Stable, Obeys, AllNamed, Inv, Check, Upgrade, Join, Receive, Deduce, Recheck, Create, Reply;
    if Create(SAME, s, t, p) { CreateStep(d, s, t, p); }
    else if Receive(s, t, p) { ReceiveStep(d, s, t, p); }
    else if Reply(SAME, s, t, p) { ReplyStep(d, s, t, p); }
    else if Upgrade(SAME, s, t, p) { UpgradingNeeded(s, t, p); }
    else { OtherStep(d, s, t, p); }
  }

  lemma NoUpgrade(d: Deducer, s: State, p: Pid)
    requires AllNamed(d, s)
    ensures p in s.procs ==> !s.procs[p].pc.Upgrading?
  {
    assert CallerOk(d, s, p);
  }

  lemma UpgradingNeeded(s: State, t: State, p: Pid)
    requires Upgrade(SAME, s, t, p)
    ensures p in s.procs && s.procs[p].pc.Upgrading?
  {
  }

  lemma {:induction false} LedNamed(d: Deducer, ss: seq<State>)
    requires Stable(d) && Led(d, ss)
    ensures AllNamed(d, ss[|ss| - 1])
  {
    hide Stable, AllNamed, Inv, Next, Obeys, Initial;
    assert Link(SAME, ss, |ss| - 1);
    if |ss| > 1 {
      var init := ss[..|ss| - 1];
      forall k | 0 <= k < |init| ensures Link(SAME, init, k) { assert Link(SAME, ss, k); }
      LedNamed(d, init);
      RunInv(SAME, init);
      StepNamed(d, ss[|ss| - 2], ss[|ss| - 1]);
    } else {
      InitialNamed(d, ss[0]);
    }
  }

  lemma InitialNamed(d: Deducer, s: State)
    requires Initial(s)
    ensures AllNamed(d, s)
  {
  }

  lemma StableIsEnough(d: Deducer, ss: seq<State>)
    requires Stable(d) && Led(d, ss)
    ensures OneEach(ss[|ss| - 1])
  {
    LedNamed(d, ss);
    hide Led, Stable;
    var s := ss[|ss| - 1];
    forall p, q | HasGateway(s, p) && HasGateway(s, q) && s.procs[p].name == s.procs[q].name ensures s.procs[p].pc == s.procs[q].pc {
      assert CallerOk(d, s, p) && CallerOk(d, s, q);
    }
  }

  // ------------------------------------------------------------------ and needed

  lemma OneMore(d: Deducer, ss: seq<State>, t: State, p: Pid) returns (tt: seq<State>)
    requires Led(d, ss) && Step(SAME, ss[|ss| - 1], t, p) && Obeys(d, t)
    ensures Led(d, tt) && tt != [] && tt[|tt| - 1] == t
  {
    hide Step, Obeys;
    tt := ss + [t];
    forall k | 0 <= k < |tt| ensures Link(SAME, tt, k) && Obeys(d, tt[k]) {
      if k < |ss| { assert Link(SAME, ss, k) && tt[k] == ss[k] && (k > 0 ==> tt[k - 1] == ss[k - 1]); }
      else { assert Next(SAME, tt[k - 1], tt[k]); }
    }
  }

  /** A caller finds nothing and deduces its URLs. */
  lemma Lead(d: Deducer, ss: seq<State>, p: Pid, l: seq<Attempt>) returns (tt: seq<State>)
    requires Led(d, ss)
    requires var s := ss[|ss| - 1];
             && p in s.procs && s.procs[p].pc.Start? && s.writer.None? && s.procs[p].name !in s.protos && s.procs[p].name !in s.urls
             && Tries(l, d(s.procs[p].name))
    ensures Led(d, tt) && tt != []
    ensures var s, n := ss[|ss| - 1], ss[|ss| - 1].procs[p].name;
            tt[|tt| - 1] == s.(protos := s.protos[n := []], procs := s.procs[p := Proc(n, Creating(l))])
  {
    var s, n := ss[|ss| - 1], ss[|ss| - 1].procs[p].name;
    assert Obeys(d, s);
    hide Led, Tries;
    var s1 := At(s, p, Missed);
    assert Check(SAME, s, s1, p);
    tt := OneMore(d, ss, s1, p);
    var s2 := At(s1.(protos := s.protos[n := []]), p, Leading);
    assert Join(SAME, s1, s2, p, p);
    tt := OneMore(d, tt, s2, p);
    var s3 := At(s2, p, Deduced(l));
    assert Deduce(s2, s3, p, Some(l));
    tt := OneMore(d, tt, s3, p);
    var s4 := s.(protos := s.protos[n := []], procs := s.procs[p := Proc(n, Creating(l))]);
    assert Recheck(SAME, s3, s4, p);
    tt := OneMore(d, tt, s4, p);
  }

  /** Only the gateway for x can be made. */
  function Only(urls: seq<Url>, x: Url, g: Gateway): (l: seq<Attempt>)
    ensures Tries(l, urls)
  {
    seq(|urls|, i requires 0 <= i < |urls| => Attempt(urls[i], if urls[i] == x then Some(g) else None))
  }

  /** It is, unless another is listed before it that exists. */
  lemma OnlyIsMade(srcs: map<Url, Gateway>, urls: seq<Url>, x: Url, g: Gateway)
    requires x in urls && x !in srcs && forall y <- srcs :: !Before(urls, y, x)
    ensures FirstGood(SAME, srcs, false, Only(urls, x, g)) == Some(Attempt(x, Some(g)))
  {
    var l := Only(urls, x, g);
    var k :| 0 <= k < |urls| && urls[k] == x;
    SomeIsGood(srcs, l, k);
    var i := FirstGoodIs(srcs, l);
    assert urls[i] in srcs ==> !Before(urls, urls[i], x);
  }

  lemma {:induction false} SomeIsGood(srcs: map<Url, Gateway>, l: seq<Attempt>, k: nat)
    requires k < |l| && l[k].made.Some?
    ensures FirstGood(SAME, srcs, false, l).Some?
  {
    if k > 0 { SomeIsGood(srcs, l[1..], k - 1); }
  }

  /** A caller makes the gateway for x. */
  lemma Make(d: Deducer, ss: seq<State>, p: Pid, n: string, x: Url, g: Gateway) returns (tt: seq<State>)
    requires Led(d, ss)
    requires var s := ss[|ss| - 1];
             && p in s.procs && s.procs[p] == Proc(n, Creating(Only(d(n), x, g))) && s.writer.None?
             && n in s.protos && s.protos[n] == [] && s.inbox == map[]
             && x in d(n) && x !in s.srcs && forall y <- s.srcs :: !Before(d(n), y, x)
    ensures Led(d, tt) && tt != []
    ensures var s := ss[|ss| - 1];
            tt[|tt| - 1] == s.(srcs := s.srcs[x := g], urls := s.urls[n := x][x := x], protos := s.protos - {n},
                               procs := s.procs[p := Proc(n, Returned(Got(g)))])
  {
    var s, a := ss[|ss| - 1], Attempt(x, Some(g));
    assert Obeys(d, s);
    OnlyIsMade(s.srcs, d(n), x, g);
    hide Led, FirstGood, Before, Only, Tries;
    var s1 := Record(SAME, s, p, a);
    assert Create(SAME, s, s1, p);
    tt := OneMore(d, ss, s1, p);
    var s2 := s.(srcs := s.srcs[x := g], urls := s.urls[n := x][x := x], protos := s.protos - {n}, procs := s.procs[p := Proc(n, Returned(Got(g)))]);
    assert Reply(SAME, s1, s2, p);
    tt := OneMore(d, tt, s2, p);
  }

  /** A caller finds the name recorded. */
  lemma Find(d: Deducer, ss: seq<State>, p: Pid) returns (tt: seq<State>)
    requires Led(d, ss)
    requires var s := ss[|ss| - 1];
             && p in s.procs && s.procs[p].pc.Start? && s.writer.None?
             && s.procs[p].name in s.urls && s.urls[s.procs[p].name] in s.srcs
    ensures Led(d, tt) && tt != []
    ensures var s := ss[|ss| - 1]; tt[|tt| - 1] == At(s, p, Returned(Got(s.srcs[s.urls[s.procs[p].name]])))
  {
    var s := ss[|ss| - 1];
    assert Obeys(d, s);
    hide Led, Tries;
    var t := At(s, p, Returned(Got(s.srcs[s.urls[s.procs[p].name]])));
    assert Check(SAME, s, t, p);
    tt := OneMore(d, ss, t, p);
  }

  function Callers(u: Url, h: string): State {
    State(map[], map[], map[], map[], map[0 := Proc(u, Start), 1 := Proc(h, Start), 2 := Proc(u, Start)], None, map[])
  }

  /** Callers of u and of h are about to make gateways, for v and for u. */
  function Racing(d: Deducer, h: string, u: Url, v: Url): State {
    Callers(u, h).(protos := map[u := [], h := []],
                   procs := map[0 := Proc(u, Creating(Only(d(u), v, 10))), 1 := Proc(h, Creating(Only(d(h), u, 11))), 2 := Proc(u, Start)])
  }

  lemma Race(d: Deducer, h: string, u: Url, v: Url) returns (ss: seq<State>)
    requires h != u
    ensures Led(d, ss) && ss != [] && ss[|ss| - 1] == Racing(d, h, u, v)
  {
    ss := [Callers(u, h)];
    assert Link(SAME, ss, 0);
    hide Tries, Only;
    ss := Lead(d, ss, 0, Only(d(u), v, 10));
    ss := Lead(d, ss, 1, Only(d(h), u, 11));
  }

  /** If u may be made for h although v exists, a later caller of u gets another gateway than the
      earlier one got. */
  lemma LaterDiffers(d: Deducer, h: string, u: Url, v: Url) returns (ss: seq<State>)
    requires h != u && u != v && u in d(h) && v in d(u) && !Before(d(h), v, u)
    ensures Led(d, ss) && !OneEach(ss[|ss| - 1])
  {
    hide Led, Before, Only;
    ss := Race(d, h, u, v);
    ss := Make(d, ss, 0, u, v, 10);
    ss := Make(d, ss, 1, h, u, 11);
    ss := Find(d, ss, 2);
    var s := ss[|ss| - 1];
    assert HasGateway(s, 0) && HasGateway(s, 2);
  }

  /** If v may be made for u although u exists, so does the slower one. */
  lemma SlowerDiffers(d: Deducer, h: string, u: Url, v: Url) returns (ss: seq<State>)
    requires h != u && u != v && u in d(h) && v in d(u) && !Before(d(u), u, v)
    ensures Led(d, ss) && !OneEach(ss[|ss| - 1])
  {
    hide Led, Before, Only;
    ss := Race(d, h, u, v);
    ss := Make(d, ss, 1, h, u, 11);
    ss := Find(d, ss, 2);
    ss := Make(d, ss, 0, u, v, 10);
    var s := ss[|ss| - 1];
    assert HasGateway(s, 0) && HasGateway(s, 2);
  }

  lemma StableIsNeeded(d: Deducer)
    requires AlwaysOneEach(d)
    ensures Stable(d)
  {
    hide Led, Before, OneEach;
    forall h, u, v | h != u && u != v && u in d(h) && v in d(u) ensures Before(d(h), v, u) && Before(d(u), u, v) {
      if !Before(d(h), v, u) {
        var ss := LaterDiffers(d, h, u, v);
        assert false;
      }
      if !Before(d(u), u, v) {
        var ss := SlowerDiffers(d, h, u, v);
        assert false;
      }
    }
  }

  /** All callers of a name get one gateway, in every run, if and only if the deductions are stable. */
  lemma OneGatewayIffStable(d: Deducer)
    ensures AlwaysOneEach(d) <==> Stable(d)
  {
    hide Stable, OneEach, Obeys;
    if Stable(d) {
      forall ss | Led(d, ss) ensures OneEach(ss[|ss| - 1]) { StableIsEnough(d, ss); }
    }
    if AlwaysOneEach(d) { StableIsNeeded(d); }
  }

  lemma SingleStable(f: string -> Url)
    ensures Stable(n => [f(n)]) <==> forall n :: f(f(n)) == f(n)
  {
    var d: Deducer := n => [f(n)];
    if Stable(d) {
      forall n ensures f(f(n)) == f(n) {
        var u, v := f(n), f(f(n));
        assert [u][0] == u && [v][0] == v;
        assert u in d(n) && v in d(u);
        assert n != u && u != v ==> Before(d(n), v, u);
      }
    }
  }

  /** Where every name leads to one URL, that is so if and only if these URLs lead to themselves. */
  lemma OneGatewayIffIdempotent(f: string -> Url)
    ensures AlwaysOneEach(n => [f(n)]) <==> forall n :: f(f(n)) == f(n)
  {
    hide AlwaysOneEach, Stable;
    OneGatewayIffStable(n => [f(n)]);
    SingleStable(f);
  }
}
