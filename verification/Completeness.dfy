/** When "no solution" is the right answer: if the search never passed over an opened project just
    because nobody had blamed it, then no choice of versions gets through. */
module Completeness {
  import opened Constraints
  import opened Identifiers
  import opened Bridge
  import opened SolverCore
  import opened SolverInvariants
  import opened SolverRuns
  import opened SolverMeasure
  import opened Satisfy
  import opened Searches
  import opened SearchOutcomes

  // ------------------------------------------------------------------ choices that are never refused

  /** A version for each project. */
  type Choice = map<ProjectRoot, Version>

  /** Everything opened above the root is at the version chosen. */
  ghost predicate Agrees(ch: Choice, atoms: seq<Atom>) {
    forall i :: 1 <= i < |atoms| ==> atoms[i].id.root in ch && ch[atoms[i].id.root] == atoms[i].v
  }

  /** The item can be had at the version chosen, which is one the search tries. */
  ghost predicate Accepted(w: World, ch: Choice, s: Core, b: Bmi) {
    match Base(s.projects, b.id.root)
    case Some(x) => CheckOk(w, s, AtomWithPackages(Atom(b.id, x.a.v), b.pl), true)
    case None => b.id.root in ch && QueueFailure(w, s, b).None? && ch[b.id.root] in Candidates(w, s, b) && Fits(w, s, b.id, b.pl, ch[b.id.root])
  }

  ghost predicate NeverRefused(w: World, ch: Choice) {
    forall s, b :: Arises(w, s) && Agrees(ch, Firsts(s.projects)) && b in s.unsel ==> Accepted(w, ch, s, b)
  }

  // ------------------------------------------------------------------ searches that skip nothing

  ghost predicate NoneSkipped(log: seq<Drop>) {
    forall d <- log :: d.Spent?
  }

  ghost predicate BackBy(w: World, a: Stage, b: Stage, f: Failure, ms: seq<Queue>, r: Return) {
    a.core.unsel != [] && Refusing(w, a, a.core.unsel[0], f, ms) && ResumesBy(w, a.core.projects, ms, b, r) && NoneSkipped(r.log)
  }

  /** A turn in which no project is given up unless its later versions were tried. */
  ghost predicate TurnsFully(w: World, a: Stage, b: Stage) {
    && a.core.unsel != []
    && var bmi := a.core.unsel[0];
    (Extending(w, a.core, b.core, bmi) && b.queues == a.queues) || Opening(w, a, b, bmi) || exists f, ms, r :: BackBy(w, a, b, f, ms, r)
  }

  ghost predicate EndsFully(w: World, a: Stage, f: Failure, ms: seq<Queue>, log: seq<Drop>) {
    a.core.unsel != [] && Refusing(w, a, a.core.unsel[0], f, ms) && Falls(w, a.core.projects, ms, log, []) && NoneSkipped(log)
  }

  ghost predicate FullAt(w: World, ss: seq<Stage>, k: nat)
    requires k < |ss|
  {
    if k == 0 then ss[0].queues == [] && exists order :: Start(w, ss[0].core, order) else TurnsFully(w, ss[k - 1], ss[k])
  }

  ghost predicate FullRun(w: World, ss: seq<Stage>) {
    ss != [] && forall k :: 0 <= k < |ss| ==> FullAt(w, ss, k)
  }

  lemma FullTurnIsTurn(w: World, a: Stage, b: Stage)
    requires TurnsFully(w, a, b)
    ensures Turns(w, a, b)
  {
    hide Extending, Opening, Refusing, ResumesBy;
    var bmi := a.core.unsel[0];
    if (Extending(w, a.core, b.core, bmi) && b.queues == a.queues) || Opening(w, a, b, bmi) {
      TurnsForward(w, a, b);
    } else {
      var f, ms, r :| BackBy(w, a, b, f, ms, r);
      TurnsBack(w, a, f, ms, b);
    }
  }

  /** They are runs of the search. */
  lemma FullRunIsSearch(w: World, ss: seq<Stage>)
    requires FullRun(w, ss)
    ensures SearchRun(w, ss)
  {
    hide Turns, TurnsFully;
    forall k | 0 <= k < |ss| ensures TurnsAt(w, ss, k) {
      assert FullAt(w, ss, k);
      if k > 0 { FullTurnIsTurn(w, ss[k - 1], ss[k]); }
    }
  }

  // ------------------------------------------------------------------ the stack and the queues

  function Current(q: Queue): Atom
    requires q.rest != []
  {
    Atom(q.id, q.rest[0])
  }

  /** The queues stand on what was opened above the root. */
  ghost predicate Matched(atoms: seq<Atom>, qs: seq<Queue>) {
    |atoms| == |qs| + 1 && forall i :: 0 <= i < |qs| ==> qs[i].rest != [] && atoms[i + 1] == Current(qs[i])
  }

  lemma {:induction false} FirstsOfUpTo(projects: seq<Selected>, n: nat)
    requires n < |Firsts(projects)|
    ensures var k := |UpTo(projects, n)|;
            Firsts(UpTo(projects, n)) == Firsts(projects)[..n] && k < |projects| && projects[k].first && projects[k].a.a == Firsts(projects)[n]
  {
    var init, x := projects[..|projects| - 1], projects[|projects| - 1];
    assert projects == init + [x];
    FirstsOfPush(init, x);
    if |Firsts(init)| > n {
      FirstsOfUpTo(init, n);
      UpToPush(init, x, n);
    } else {
      UpToPush(init, x, n);
      assert UpTo(init, n) == init;
    }
  }

  /** The first j queues stand on the versions chosen; the next one has its chosen version still to
      come. */
  ghost predicate Tracks(ch: Choice, qs: seq<Queue>, j: nat) {
    && j <= |qs|
    && (forall i :: 0 <= i < j ==> qs[i].rest != [] && qs[i].id.root in ch && ch[qs[i].id.root] == qs[i].rest[0])
    && (j < |qs| ==> qs[j].rest != [] && qs[j].id.root in ch && ch[qs[j].id.root] in qs[j].rest[1..])
  }

  lemma TracksSame(ch: Choice, qs: seq<Queue>, more: seq<Queue>, j: nat)
    requires Tracks(ch, qs, j) && |more| <= |qs| && j <= |more|
    requires forall i :: 0 <= i < |more| ==> more[i].id == qs[i].id && more[i].rest == qs[i].rest
    ensures Tracks(ch, more, j)
  {
  }

  lemma AgreesWithFirst(ch: Choice, atoms: seq<Atom>, qs: seq<Queue>, j: nat, n: nat)
    requires Matched(atoms, qs) && Tracks(ch, qs, j) && n <= j + 1 && n <= |atoms|
    ensures Agrees(ch, atoms[..n])
  {
    forall i | 1 <= i < n ensures atoms[i].id.root in ch && ch[atoms[i].id.root] == atoms[i].v { assert atoms[i] == Current(qs[i - 1]); }
  }

  // ------------------------------------------------------------------ going back keeps on track

  /** With the choices below it selected, a queue that still has its chosen version is not given up. */
  lemma NotSpent(w: World, ch: Choice, projects: seq<Selected>, qs: seq<Queue>, d: Drop)
    requires NeverRefused(w, ch) && Matched(Firsts(projects), qs) && qs != [] && Tracks(ch, qs, |qs| - 1) && d.Spent?
    ensures !SpentAt(w, projects, qs, d)
  {
    if SpentAt(w, projects, qs, d) {
      RetriedFits(w, ch, projects, qs, d.mid);
      var q := qs[|qs| - 1];
      hide Fits, Refusals, NeverRefused, Below;
      RefusalsDoNotFit(w, d.mid, q.id, projects[|d.mid.projects|].a.pl, q.rest[1..], d.fails);
      assert false;
    }
  }

  lemma RetriedFits(w: World, ch: Choice, projects: seq<Selected>, qs: seq<Queue>, mid: Core)
    requires NeverRefused(w, ch) && Matched(Firsts(projects), qs) && qs != [] && Tracks(ch, qs, |qs| - 1)
    requires Below(w, projects, |qs|, mid)
    ensures var q := qs[|qs| - 1]; Fits(w, mid, q.id, projects[|mid.projects|].a.pl, ch[q.id.root])
  {
    var n := |qs| - 1;
    FirstsOfUpTo(projects, |qs|);
    AgreesWithFirst(ch, Firsts(projects), qs, n, n + 1);
    var x := projects[|mid.projects|];
    assert x.a.a == Current(qs[n]);
    hide Fits, CheckOk, Candidates, QueueFailure, UpTo, Matched, Tracks, Arises;
    var b :| b in mid.unsel && b.id == x.a.a.id && b.pl == x.a.pl;
    assert Accepted(w, ch, mid, b);
  }

  lemma {:induction false} FallsOnTrack(w: World, ch: Choice, projects: seq<Selected>, qs: seq<Queue>, log: seq<Drop>, rest: seq<Queue>, j: nat)
    requires NeverRefused(w, ch) && Falls(w, projects, qs, log, rest) && NoneSkipped(log)
    requires |Firsts(projects)| > |qs| && Matched(Firsts(projects)[..|qs| + 1], qs) && Tracks(ch, qs, j) && j < |qs|
    ensures j < |rest| <= |qs| && Tracks(ch, rest, j) && Matched(Firsts(projects)[..|rest| + 1], rest)
    decreases |log|
  {
    hide NeverRefused, SpentAt, Marking, NoneBlames, Tracks, Matched, NoneSkipped;
    if log != [] {
      var last, d := |qs| - 1, log[0];
      FirstIsSpent(log);
      var blamed := NoneBlames(d.mid, qs[last].id.root, d.fails);
      var ms := Marking(w, qs[..last], blamed);
      NotLast(w, ch, projects, qs, d, j);
      ShorterOnTrack(w, ch, Firsts(projects), qs, blamed, j);
      FallsOnTrack(w, ch, projects, ms, log[1..], rest, j);
    }
  }

  lemma FirstIsSpent(log: seq<Drop>)
    requires NoneSkipped(log) && log != []
    ensures log[0].Spent? && NoneSkipped(log[1..])
  {
  }

  lemma NotLast(w: World, ch: Choice, projects: seq<Selected>, qs: seq<Queue>, d: Drop, j: nat)
    requires NeverRefused(w, ch) && |Firsts(projects)| > |qs| && Matched(Firsts(projects)[..|qs| + 1], qs) && Tracks(ch, qs, j) && j < |qs|
    requires d.Spent? && SpentAt(w, projects, qs, d)
    ensures j < |qs| - 1
  {
    hide NeverRefused, SpentAt, Tracks, Matched, UpTo;
    if j == |qs| - 1 {
      CutAt(w, projects, qs, d);
      NotSpent(w, ch, UpTo(projects, |qs| + 1), qs, d);
      assert false;
    }
  }

  /** What was opened above does not matter. */
  lemma CutAt(w: World, projects: seq<Selected>, qs: seq<Queue>, d: Drop)
    requires qs != [] && d.Spent? && SpentAt(w, projects, qs, d) && |Firsts(projects)| > |qs|
    ensures SpentAt(w, UpTo(projects, |qs| + 1), qs, d) && Firsts(UpTo(projects, |qs| + 1)) == Firsts(projects)[..|qs| + 1]
  {
    hide FindsNone, Reopens, Arises;
    var cut := UpTo(projects, |qs| + 1);
    UpToTwice(projects, |qs| + 1, |qs|);
    FirstsOfUpTo(projects, |qs|);
    if |Firsts(projects)| > |qs| + 1 {
      FirstsOfUpTo(projects, |qs| + 1);
      FirstsOfUpTo(cut, |qs|);
    } else {
      assert cut == projects && Firsts(projects)[..|qs| + 1] == Firsts(projects);
    }
  }

  lemma ShorterOnTrack(w: World, ch: Choice, atoms: seq<Atom>, qs: seq<Queue>, blamed: seq<ProjectIdentifier>, j: nat)
    requires |atoms| > |qs| && Matched(atoms[..|qs| + 1], qs) && Tracks(ch, qs, j) && j < |qs| - 1
    ensures var ms := Marking(w, qs[..|qs| - 1], blamed); Matched(atoms[..|ms| + 1], ms) && Tracks(ch, ms, j)
  {
    var init := qs[..|qs| - 1];
    var ms := Marking(w, init, blamed);
    forall n | 0 <= n < |ms| ensures ms[n].id == qs[n].id && ms[n].rest == qs[n].rest { MarkingAt(w, init, blamed, n); }
    hide Marking;
    TracksSame(ch, qs, ms, j);
    forall i | 0 <= i < |ms| ensures ms[i].rest != [] && atoms[..|ms| + 1][i + 1] == Current(ms[i]) { assert atoms[..|qs| + 1][i + 1] == Current(qs[i]); }
  }

  // ------------------------------------------------------------------ so does every turn

  /** What fits is taken, or is still to come. */
  lemma TakenOrToCome(w: World, s: Core, id: ProjectIdentifier, pl: seq<Package>, vs: seq<Version>, k: nat, fails: seq<FailedVersion>, c: Version)
    requires Finds(w, s, id, pl, vs, k, fails) && c in vs && Fits(w, s, id, pl, c)
    ensures k < |vs| && (vs[k..][0] == c || c in vs[k..][1..])
  {
    hide Fits, Refusals;
    RefusalsDoNotFit(w, s, id, pl, vs[..k], fails);
    assert c !in vs[..k] && vs == vs[..k] + vs[k..] && vs[k..] == [vs[k]] + vs[k..][1..];
  }

  /** A version chosen for the last queue. */
  lemma TracksLast(ch: Choice, qs: seq<Queue>, n: nat) returns (j: nat)
    requires |qs| == n + 1 && (forall i :: 0 <= i < n ==> qs[i].rest != [] && qs[i].id.root in ch && ch[qs[i].id.root] == qs[i].rest[0])
    requires qs[n].rest != [] && qs[n].id.root in ch && (qs[n].rest[0] == ch[qs[n].id.root] || ch[qs[n].id.root] in qs[n].rest[1..])
    ensures Tracks(ch, qs, j)
  {
    j := if qs[n].rest[0] == ch[qs[n].id.root] then n + 1 else n;
  }

  ghost predicate OnTrack(w: World, ch: Choice, a: Stage, j: nat) {
    Arises(w, a.core) && Matched(Firsts(a.core.projects), a.queues) && Tracks(ch, a.queues, j)
  }

  lemma OpenedArises(w: World, s: Core, t: Core, b: Bmi, v: Version, order: seq<ProjectRoot>)
    requires ValidWorld(w) && Arises(w, s) && b in s.unsel && Base(s.projects, b.id.root).None? && Fits(w, s, b.id, b.pl, v)
    requires Selects(w, s, t, AtomWithPackages(Atom(b.id, v), b.pl), false, order)
    ensures Arises(w, t) && Firsts(t.projects) == Firsts(s.projects) + [Atom(b.id, v)]
  {
    QueuedCanOpen(w, s, b);
    hide ValidWorld, Arises, CheckOk, Selects, Due;
    PickArises(w, s, t, AtomWithPackages(Atom(b.id, v), b.pl), false, order);
    OpenedEntry(w, s, t, AtomWithPackages(Atom(b.id, v), b.pl), order);
    FirstsOfPush(s.projects, t.projects[|s.projects|]);
    assert t.projects == s.projects + [t.projects[|s.projects|]];
  }

  /** All accounted for: the item is accepted at the version chosen. */
  lemma ItemAccepted(w: World, ch: Choice, a: Stage)
    requires NeverRefused(w, ch) && OnTrack(w, ch, a, |a.queues|) && a.core.unsel != []
    ensures Accepted(w, ch, a.core, a.core.unsel[0])
  {
    hide Accepted, Arises;
    var atoms := Firsts(a.core.projects);
    AgreesWithFirst(ch, atoms, a.queues, |a.queues|, |atoms|);
    assert atoms[..|atoms|] == atoms;
  }

  lemma OpeningOnTrack(w: World, ch: Choice, a: Stage, b: Stage, j: nat) returns (i: nat)
    requires ValidWorld(w) && NeverRefused(w, ch) && OnTrack(w, ch, a, j) && a.core.unsel != [] && Opening(w, a, b, a.core.unsel[0])
    ensures OnTrack(w, ch, b, i)
  {
    hide NeverRefused, ValidWorld, Arises, Fits, Candidates, QueueFailure, Marking, Selects, Refusals;
    var bmi := a.core.unsel[0];
    var q: Queue, k: nat, fails, order :| OpeningAt(w, a, b, bmi, q, k, fails, order);
    var n, vs := |a.queues|, Candidates(w, a.core, bmi);
    assert k < |vs| && q.rest == vs[k..] && q.rest[0] == vs[k];
    OpenedArises(w, a.core, b.core, bmi, vs[k], order);
    forall m | 0 <= m < n ensures b.queues[m].id == a.queues[m].id && b.queues[m].rest == a.queues[m].rest { MarkingAt(w, a.queues, AllBlame(fails), m); }
    assert b.queues[n] == q;
    OpenedMatches(Firsts(a.core.projects), a.queues, b.queues, Current(q));
    if j == n {
      ItemAccepted(w, ch, a);
      TakenOrToCome(w, a.core, bmi.id, bmi.pl, vs, k, fails, ch[bmi.id.root]);
      i := TracksLast(ch, b.queues, n);
    } else {
      i := j;
    }
  }

  lemma OpenedMatches(atoms: seq<Atom>, qs: seq<Queue>, more: seq<Queue>, x: Atom)
    requires Matched(atoms, qs) && |more| == |qs| + 1 && (forall i :: 0 <= i < |qs| ==> more[i].id == qs[i].id && more[i].rest == qs[i].rest)
    requires more[|qs|].rest != [] && Current(more[|qs|]) == x
    ensures Matched(atoms + [x], more)
  {
    forall i | 0 <= i < |more| ensures more[i].rest != [] && (atoms + [x])[i + 1] == Current(more[i]) {
      if i < |qs| { assert atoms[i + 1] == Current(qs[i]); }
    }
  }

  lemma ExtendingOnTrack(w: World, ch: Choice, a: Stage, b: Stage, j: nat)
    requires ValidWorld(w) && OnTrack(w, ch, a, j) && a.core.unsel != [] && Extending(w, a.core, b.core, a.core.unsel[0]) && b.queues == a.queues
    ensures OnTrack(w, ch, b, j)
  {
    var bmi := a.core.unsel[0];
    QueuedCanOpen(w, a.core, bmi);
    hide ValidWorld, Arises, CheckOk, Selects, Due;
    var awp := AtomWithPackages(Atom(bmi.id, Base(a.core.projects, bmi.id.root).value.a.v), bmi.pl);
    var order :| Selects(w, a.core, b.core, awp, true, order);
    PickArises(w, a.core, b.core, awp, true, order);
    AddedEntry(w, a.core, b.core, awp, order);
  }

  lemma AddedEntry(w: World, s: Core, t: Core, awp: AtomWithPackages, order: seq<ProjectRoot>)
    requires Selects(w, s, t, awp, true, order)
    ensures Firsts(t.projects) == Firsts(s.projects)
  {
    hide Imports, RemoveFirst, Enqueued, MarkRoots, AddEdges;
    FirstsOfPush(s.projects, t.projects[|s.projects|]);
  }

  /** A refusal means that some queue is not at the version chosen. */
  lemma RefusedOffTrack(w: World, ch: Choice, a: Stage, j: nat, f: Failure, ms: seq<Queue>)
    requires NeverRefused(w, ch) && OnTrack(w, ch, a, j) && a.core.unsel != [] && Refusing(w, a, a.core.unsel[0], f, ms)
    ensures j < |a.queues| == |ms| && Tracks(ch, ms, j) && Matched(Firsts(a.core.projects), ms)
  {
    hide NeverRefused, Arises, Refusing, CheckOk, Fits, Candidates, QueueFailure;
    RefusingIsHopeless(w, a, a.core.unsel[0], f, ms);
    if j == |a.queues| { ItemAccepted(w, ch, a); }
    TracksSame(ch, a.queues, ms, j);
    forall i | 0 <= i < |ms| ensures ms[i].rest != [] && Firsts(a.core.projects)[i + 1] == Current(ms[i]) {
      assert Firsts(a.core.projects)[i + 1] == Current(a.queues[i]);
    }
  }

  lemma CutBelow(w: World, projects: seq<Selected>, n: nat, mid: Core)
    requires Below(w, projects, n, mid) && |Firsts(projects)| > n
    ensures var cut := UpTo(projects, n + 1);
            Below(w, cut, n, mid) && cut[|mid.projects|] == projects[|mid.projects|] && Firsts(cut) == Firsts(projects)[..n + 1]
  {
    hide Reopens, Arises;
    var cut := UpTo(projects, n + 1);
    UpToTwice(projects, n + 1, n);
    FirstsOfUpTo(projects, n);
    if |Firsts(projects)| > n + 1 {
      FirstsOfUpTo(projects, n + 1);
      FirstsOfUpTo(cut, n);
    } else {
      assert cut == projects && Firsts(projects)[..n + 1] == Firsts(projects);
    }
  }

  /** The project retried takes up where its queue was. */
  lemma RetriedArises(w: World, projects: seq<Selected>, n: nat, mid: Core, t: Core, x: AtomWithPackages, v: Version, order: seq<ProjectRoot>)
    requires ValidWorld(w) && Below(w, projects, n, mid) && x == projects[|mid.projects|].a && |Firsts(projects)| > n
    requires Fits(w, mid, x.a.id, x.pl, v) && Selects(w, mid, t, AtomWithPackages(Atom(x.a.id, v), x.pl), false, order)
    ensures Arises(w, t) && Firsts(t.projects) == Firsts(projects)[..n] + [Atom(x.a.id, v)]
  {
    var awp := AtomWithPackages(Atom(x.a.id, v), x.pl);
    FirstsOfUpTo(projects, n);
    assert Request(w, mid, awp, false) && Due(mid, awp.a.id, awp.pl);
    hide ValidWorld, Arises, CheckOk, Selects, Due, Request, UpTo;
    PickArises(w, mid, t, awp, false, order);
    OpenedEntry(w, mid, t, awp, order);
    FirstsOfPush(mid.projects, t.projects[|mid.projects|]);
    assert t.projects == mid.projects + [t.projects[|mid.projects|]];
  }

  lemma RetryingOnTrack(w: World, ch: Choice, projects: seq<Selected>, left: seq<Queue>, mid: Core, k: nat, fails: seq<FailedVersion>, order: seq<ProjectRoot>, b: Stage, j: nat)
    returns (i: nat)
    requires ValidWorld(w) && NeverRefused(w, ch) && Retries(w, projects, left, mid, k, fails, order, b)
    requires |Firsts(projects)| > |left| && Matched(Firsts(projects)[..|left| + 1], left) && Tracks(ch, left, j) && j < |left|
    ensures OnTrack(w, ch, b, i)
  {
    hide NeverRefused, ValidWorld, Arises, Fits, Marking, Selects, Refusals, UpTo, Below, NoneBlames, AllBlame;
    RetriedEntry(w, projects, left, mid);
    var n := |left| - 1;
    var q, next, x := left[n], b.queues[n], projects[|mid.projects|].a;
    var vs := q.rest[1..];
    assert next.rest[0] == vs[k];
    RetriedArises(w, projects, n + 1, mid, b.core, x, vs[k], order);
    forall m | 0 <= m < n ensures b.queues[m].id == left[m].id && b.queues[m].rest == left[m].rest {
      MarkingAt(w, left[..n], AllBlame(fails), m);
      assert b.queues[..n][m] == b.queues[m];
    }
    var atoms := Firsts(projects)[..n + 1];
    forall m | 0 <= m < n ensures left[..n][m].rest != [] && atoms[m + 1] == Current(left[..n][m]) { assert Firsts(projects)[..|left| + 1][m + 1] == Current(left[m]); }
    OpenedMatches(atoms, left[..n], b.queues, Current(next));
    if j == n {
      CutBelow(w, projects, |left|, mid);
      RetriedFits(w, ch, UpTo(projects, |left| + 1), left, mid);
      TakenOrToCome(w, mid, q.id, x.pl, vs, k, fails, ch[q.id.root]);
      i := TracksLast(ch, b.queues, n);
    } else {
      i := j;
    }
  }

  lemma RetriedEntry(w: World, projects: seq<Selected>, left: seq<Queue>, mid: Core)
    requires left != [] && |Firsts(projects)| > |left| && Matched(Firsts(projects)[..|left| + 1], left) && Below(w, projects, |left|, mid)
    ensures |mid.projects| < |projects| && projects[|mid.projects|].a.a == Current(left[|left| - 1])
  {
    hide Reopens, Arises;
    FirstsOfUpTo(projects, |left|);
    assert Firsts(projects)[..|left| + 1][|left|] == Current(left[|left| - 1]);
  }

  lemma GoingBackOnTrack(w: World, ch: Choice, a: Stage, b: Stage, j: nat, f: Failure, ms: seq<Queue>, r: Return) returns (i: nat)
    requires ValidWorld(w) && NeverRefused(w, ch) && OnTrack(w, ch, a, j) && BackBy(w, a, b, f, ms, r)
    ensures OnTrack(w, ch, b, i)
  {
    hide NeverRefused, ValidWorld, Arises, Refusing, Falls, Retries, NoneSkipped, Tracks, Matched;
    var projects := a.core.projects;
    RefusedOffTrack(w, ch, a, j, f, ms);
    MatchedAll(Firsts(projects), ms);
    FallsOnTrack(w, ch, projects, ms, r.log, r.left, j);
    i := RetryingOnTrack(w, ch, projects, r.left, r.mid, r.k, r.fails, r.order, b, j);
  }

  lemma MatchedAll(atoms: seq<Atom>, qs: seq<Queue>)
    requires Matched(atoms, qs)
    ensures |atoms| > |qs| && Matched(atoms[..|qs| + 1], qs)
  {
    assert atoms[..|qs| + 1] == atoms;
  }

  lemma TurnOnTrack(w: World, ch: Choice, a: Stage, b: Stage, j: nat) returns (i: nat)
    requires ValidWorld(w) && NeverRefused(w, ch) && OnTrack(w, ch, a, j) && TurnsFully(w, a, b)
    ensures OnTrack(w, ch, b, i)
  {
    hide NeverRefused, ValidWorld, OnTrack, Extending, Opening, BackBy;
    var bmi := a.core.unsel[0];
    if Opening(w, a, b, bmi) {
      i := OpeningOnTrack(w, ch, a, b, j);
    } else if Extending(w, a.core, b.core, bmi) && b.queues == a.queues {
      ExtendingOnTrack(w, ch, a, b, j);
      i := j;
    } else {
      var f, ms, r :| BackBy(w, a, b, f, ms, r);
      i := GoingBackOnTrack(w, ch, a, b, j, f, ms, r);
    }
  }

  lemma StartOnTrack(w: World, ch: Choice, a: Stage)
    requires a.queues == [] && exists order :: Start(w, a.core, order)
    ensures OnTrack(w, ch, a, 0)
  {
    var order :| Start(w, a.core, order);
    StartArises(w, a.core, order);
    assert a.core.projects == [] + [a.core.projects[0]];
    FirstsOfPush([], a.core.projects[0]);
  }

  lemma {:induction false} FullRunOnTrack(w: World, ch: Choice, ss: seq<Stage>) returns (j: nat)
    requires ValidWorld(w) && NeverRefused(w, ch) && FullRun(w, ss)
    ensures ss != [] && OnTrack(w, ch, ss[|ss| - 1], j)
    decreases |ss|
  {
    hide ValidWorld, NeverRefused, OnTrack, TurnsFully, Start;
    var n := |ss| - 1;
    assert FullAt(w, ss, n);
    if n == 0 {
      StartOnTrack(w, ch, ss[0]);
      j := 0;
    } else {
      forall k | 0 <= k < n ensures FullAt(w, ss[..n], k) { assert FullAt(w, ss, k); }
      var i := FullRunOnTrack(w, ch, ss[..n]);
      j := TurnOnTrack(w, ch, ss[n - 1], ss[n], i);
    }
  }

  /** A search that skips nothing and ends without a solution leaves no choice: each is refused in some
      state that agrees with it. */
  lemma NoSolutionMeansNone(w: World, ss: seq<Stage>, f: Failure, ms: seq<Queue>, log: seq<Drop>, ch: Choice)
    requires ValidWorld(w) && FullRun(w, ss) && EndsFully(w, ss[|ss| - 1], f, ms, log)
    ensures !NeverRefused(w, ch)
  {
    hide NeverRefused, ValidWorld, FullRun, Refusing, Falls, NoneSkipped, Tracks, Matched, Arises;
    if NeverRefused(w, ch) {
      var j := FullRunOnTrack(w, ch, ss);
      var a := ss[|ss| - 1];
      RefusedOffTrack(w, ch, a, j, f, ms);
      MatchedAll(Firsts(a.core.projects), ms);
      FallsOnTrack(w, ch, a.core.projects, ms, log, [], j);
      assert false;
    }
  }
}
