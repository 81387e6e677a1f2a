/** What the search does between two looks at its work queue, as a relation on the selection and
    the stack of version queues (gps/solver.go): which version is taken, who is blamed, and what
    is given up when it goes back. */
module Searches {
  import opened Constraints
  import opened Identifiers
  import opened Bridge
  import opened SolverCore
  import opened SolverInvariants
  import opened SolverRuns
  import opened SolverMeasure
  import opened Satisfy
  import opened VersionQueues

  /** A version queue: the versions not given up, the current one first, and whether it is marked. */
  datatype Queue = Queue(id: ProjectIdentifier, rest: seq<Version>, failed: bool)

  /** Where the search stands. */
  datatype Stage = Stage(core: Core, queues: seq<Queue>)

  function Names(qs: seq<Queue>): (ids: seq<ProjectIdentifier>)
    ensures |ids| == |qs| && forall i :: 0 <= i < |qs| ==> ids[i] == qs[i].id
  {
    seq(|qs|, i requires 0 <= i < |qs| => qs[i].id)
  }

  /** The queues with those of the blamed projects marked. */
  ghost function Marking(w: World, qs: seq<Queue>, blamed: seq<ProjectIdentifier>): (ms: seq<Queue>)
    ensures |ms| == |qs|
  {
    seq(|qs|, i requires 0 <= i < |qs| => Queue(qs[i].id, qs[i].rest, qs[i].failed || Hit(w, Names(qs), blamed, i)))
  }

  /** The stack without the projects opened after the first n, and what was added to them. */
  function UpTo(projects: seq<Selected>, n: nat): (below: seq<Selected>)
    ensures |below| <= |projects| && below == projects[..|below|]
    ensures |Firsts(below)| <= n
    ensures |Firsts(projects)| <= n ==> below == projects
    ensures |Firsts(projects)| > n ==> |below| < |projects| && |Firsts(below)| == n && projects[|below|].first
  {
    if |Firsts(projects)| <= n then projects
    else
      var init := projects[..|projects| - 1];
      assert projects == init + [projects[|projects| - 1]];
      FirstsOfPush(init, projects[|projects| - 1]);
      UpTo(init, n)
  }

  lemma UpToPush(projects: seq<Selected>, x: Selected, n: nat)
    requires |Firsts(projects + [x])| > n
    ensures UpTo(projects + [x], n) == UpTo(projects, n)
  {
    assert (projects + [x])[..|projects|] == projects;
  }

  lemma {:induction false} UpToTwice(projects: seq<Selected>, m: nat, n: nat)
    requires n <= m
    ensures UpTo(UpTo(projects, m), n) == UpTo(projects, n)
  {
    if |Firsts(projects)| > m {
      UpToTwice(projects[..|projects| - 1], m, n);
    }
  }

  // ------------------------------------------------------------------ which versions to try

  /** Every version the search will try for a work item, in order. */
  function Candidates(w: World, s: Core, bmi: Bmi): seq<Version> {
    RevisionFirst(Composite(w, s.deps, bmi.id.root), Offer(w, bmi.id, RootLockVersion(w, bmi.id), Preferred(w, s, bmi)))
  }

  function RootLockVersion(w: World, id: ProjectIdentifier): Option<Version> {
    if w.rootLock == map[] then None else LockVersion(w, id)
  }

  lemma CandidatesBounded(w: World, s: Core, bmi: Bmi)
    requires ValidWorld(w)
    ensures |Candidates(w, s, bmi)| <= w.maxVersions + 3
  {
  }

  /** Why there is nothing to try. */
  function QueueFailure(w: World, s: Core, bmi: Bmi): Option<Failure> {
    var id := bmi.id;
    if !w.sourceExists(id) && !w.vendorExists(id) then Some(NotLocated(id))
    else if ChangeImpossible(w, id) then Some(MissingSource(id))
    else if RootLockVersion(w, id).None? && Preferred(w, s, bmi).None? && w.versions(id).None? then Some(VersionsUnavailable(id))
    else None
  }

  // ------------------------------------------------------------------ trying versions

  predicate Fits(w: World, s: Core, id: ProjectIdentifier, pl: seq<Package>, v: Version) {
    CheckOk(w, s, AtomWithPackages(Atom(id, v), pl), false)
  }

  /** v was checked and refused, for the reason given. */
  ghost predicate Refusal(w: World, s: Core, id: ProjectIdentifier, pl: seq<Package>, v: Version, x: FailedVersion) {
    x.v == v && x.f.Some? && Explains(w, s, AtomWithPackages(Atom(id, v), pl), false, x.f.value)
  }

  ghost predicate Refusals(w: World, s: Core, id: ProjectIdentifier, pl: seq<Package>, vs: seq<Version>, fails: seq<FailedVersion>) {
    |fails| == |vs| && forall i :: 0 <= i < |vs| ==> Refusal(w, s, id, pl, vs[i], fails[i])
  }

  /** Everyone blamed by these failures. */
  function AllBlame(fs: seq<FailedVersion>): seq<ProjectIdentifier> {
    if fs == [] then [] else AllBlame(fs[..|fs| - 1]) + BlameOf(fs[|fs| - 1].f)
  }

  /** The first to depend on a project, blamed when no version of it will do. */
  function FirstDepender(s: Core, r: ProjectRoot): seq<ProjectIdentifier> {
    if On(s.deps, r) == [] then [] else [On(s.deps, r)[0].depender.id]
  }

  /** The first acceptable one of these versions is the k-th. */
  ghost predicate Finds(w: World, s: Core, id: ProjectIdentifier, pl: seq<Package>, vs: seq<Version>, k: nat, fails: seq<FailedVersion>) {
    k < |vs| && Refusals(w, s, id, pl, vs[..k], fails) && Fits(w, s, id, pl, vs[k])
  }

  /** All are refused, and somebody depends on the project. */
  ghost predicate FindsNone(w: World, s: Core, id: ProjectIdentifier, pl: seq<Package>, vs: seq<Version>, fails: seq<FailedVersion>) {
    Refusals(w, s, id, pl, vs, fails) && (vs != [] ==> On(s.deps, id.root) != [])
  }

  /** Whom that blames. */
  function NoneBlames(s: Core, r: ProjectRoot, fails: seq<FailedVersion>): seq<ProjectIdentifier> {
    if fails == [] then [] else AllBlame(fails) + FirstDepender(s, r)
  }

  lemma RefusalsPush(w: World, s: Core, id: ProjectIdentifier, pl: seq<Package>, vs: seq<Version>, k: nat, fails: seq<FailedVersion>, x: FailedVersion)
    requires k < |vs| && Refusals(w, s, id, pl, vs[..k], fails) && Refusal(w, s, id, pl, vs[k], x)
    ensures Refusals(w, s, id, pl, vs[..k + 1], fails + [x])
  {
    hide Refusal;
    assert vs[..k + 1] == vs[..k] + [vs[k]];
  }

  lemma ExplainedIsRefused(w: World, s: Core, awp: AtomWithPackages, pkgonly: bool, f: Failure)
    requires Explains(w, s, awp, pkgonly, f)
    ensures !CheckOk(w, s, awp, pkgonly)
  {
    hide CheckOk, Imports, AtomFailure, DepFailure, RequiredFailure;
    NoFailureIffCheckOk(w, s, awp, pkgonly);
  }

  lemma RefusalsDoNotFit(w: World, s: Core, id: ProjectIdentifier, pl: seq<Package>, vs: seq<Version>, fails: seq<FailedVersion>)
    requires Refusals(w, s, id, pl, vs, fails)
    ensures forall v <- vs :: !Fits(w, s, id, pl, v)
  {
    hide Explains, Fits;
    forall v | v in vs ensures !Fits(w, s, id, pl, v) {
      var i :| 0 <= i < |vs| && vs[i] == v;
      assert Refusal(w, s, id, pl, vs[i], fails[i]);
      DoesNotFit(w, s, id, pl, v, fails[i].f.value);
    }
  }

  lemma DoesNotFit(w: World, s: Core, id: ProjectIdentifier, pl: seq<Package>, v: Version, f: Failure)
    requires Explains(w, s, AtomWithPackages(Atom(id, v), pl), false, f)
    ensures !Fits(w, s, id, pl, v)
  {
    hide Explains, CheckOk;
    ExplainedIsRefused(w, s, AtomWithPackages(Atom(id, v), pl), false, f);
  }

  lemma FirstDoNotFit(w: World, s: Core, id: ProjectIdentifier, pl: seq<Package>, vs: seq<Version>, k: nat, fails: seq<FailedVersion>)
    requires k <= |vs| && Refusals(w, s, id, pl, vs[..k], fails)
    ensures forall i :: 0 <= i < k ==> !Fits(w, s, id, pl, vs[i])
  {
    hide Fits, Refusals;
    RefusalsDoNotFit(w, s, id, pl, vs[..k], fails);
    forall i | 0 <= i < k ensures !Fits(w, s, id, pl, vs[i]) { assert vs[..k][i] in vs[..k]; }
  }

  lemma QueuedCanOpen(w: World, s: Core, bmi: Bmi)
    requires ValidWorld(w) && Arises(w, s) && bmi in s.unsel
    ensures bmi.id.root in w.roots && bmi.id.root != w.rootName && NoDup(bmi.pl)
    ensures Due(s, bmi.id, bmi.pl)
  {
    ArisingInv(w, s);
  }

  // ------------------------------------------------------------------ going forward

  /** More packages of a selected project, at the version it has. */
  ghost predicate Extending(w: World, s: Core, t: Core, bmi: Bmi) {
    && Base(s.projects, bmi.id.root).Some?
    && var awp := AtomWithPackages(Atom(bmi.id, Base(s.projects, bmi.id.root).value.a.v), bmi.pl);
    CheckOk(w, s, awp, true) && exists order :: Selects(w, s, t, awp, true, order)
  }

  /** q stands on the first acceptable candidate, with the others still to try. */
  ghost predicate StandsOn(w: World, s: Core, bmi: Bmi, q: Queue, k: nat, fails: seq<FailedVersion>) {
    var vs := Candidates(w, s, bmi);
    QueueFailure(w, s, bmi).None? && Finds(w, s, bmi.id, bmi.pl, vs, k, fails) && q == Queue(bmi.id, vs[k..], false)
  }

  /** A new project is selected at that version. */
  ghost predicate OpeningAt(w: World, a: Stage, b: Stage, bmi: Bmi, q: Queue, k: nat, fails: seq<FailedVersion>, order: seq<ProjectRoot>) {
    && Base(a.core.projects, bmi.id.root).None? && StandsOn(w, a.core, bmi, q, k, fails)
    && Selects(w, a.core, b.core, AtomWithPackages(Atom(bmi.id, q.rest[0]), bmi.pl), false, order)
    && b.queues == Marking(w, a.queues, AllBlame(fails)) + [q]
  }

  ghost predicate Opening(w: World, a: Stage, b: Stage, bmi: Bmi) {
    exists q, k, fails, order :: OpeningAt(w, a, b, bmi, q, k, fails, order)
  }

  /** Neither is possible, because of f; ms are the queues with those blamed marked. */
  ghost predicate Refusing(w: World, a: Stage, bmi: Bmi, f: Failure, ms: seq<Queue>) {
    match Base(a.core.projects, bmi.id.root)
    case Some(b) =>
      Explains(w, a.core, AtomWithPackages(Atom(bmi.id, b.a.v), bmi.pl), true, f) && ms == Marking(w, a.queues, Blame(f))
    case None =>
      if QueueFailure(w, a.core, bmi).Some? then f == QueueFailure(w, a.core, bmi).value && ms == a.queues
      else f.NoVersion? && RefusingAll(w, a, bmi, f, ms)
  }

  ghost predicate RefusingAll(w: World, a: Stage, bmi: Bmi, f: Failure, ms: seq<Queue>)
    requires f.NoVersion?
  {
    var vs := Candidates(w, a.core, bmi);
    && f.id == bmi.id && vs != [] && FindsNone(w, a.core, bmi.id, bmi.pl, vs, f.fails)
    && ms == Marking(w, a.queues, NoneBlames(a.core, bmi.id.root, f.fails))
  }

  // ------------------------------------------------------------------ going back

  /** How a queue was given up: nobody had blamed its project, or every later version of it was
      refused in the state mid, in which the project was not selected any more. */
  datatype Drop = Unmarked | Spent(mid: Core, fails: seq<FailedVersion>)

  /** awp can be selected as a new project again. */
  ghost predicate Reopens(w: World, s: Core, awp: AtomWithPackages) {
    && awp.a.id.root in w.roots && awp.a.id.root != w.rootName && NoDup(awp.pl)
    && Base(s.projects, awp.a.id.root).None?
    && Due(s, awp.a.id, awp.pl)
  }

  /** mid has the projects below the n-th one opened above the root, which can be selected again. */
  ghost predicate Below(w: World, projects: seq<Selected>, n: nat, mid: Core) {
    mid.projects == UpTo(projects, n) && |mid.projects| < |projects| && Arises(w, mid) && Reopens(w, mid, projects[|mid.projects|].a)
  }

  /** The last queue is marked, and its project was tried at later versions in the state mid. */
  ghost predicate SpentAt(w: World, projects: seq<Selected>, qs: seq<Queue>, d: Drop)
    requires qs != [] && d.Spent?
  {
    var q := qs[|qs| - 1];
    && q.failed && q.rest != [] && Below(w, projects, |qs|, d.mid)
    && FindsNone(w, d.mid, q.id, projects[|d.mid.projects|].a.pl, q.rest[1..], d.fails)
  }

  /** Giving up the last queues for the reasons in log, from the last one downwards, leaves rest;
      those blamed by the tries on the way are marked. */
  ghost predicate Falls(w: World, projects: seq<Selected>, qs: seq<Queue>, log: seq<Drop>, rest: seq<Queue>)
    decreases |log|
  {
    if log == [] then rest == qs
    else
      && qs != []
      && var init, d := qs[..|qs| - 1], log[0];
      match d
      case Unmarked => !qs[|qs| - 1].failed && Falls(w, projects, init, log[1..], rest)
      case Spent(mid, fails) =>
        && SpentAt(w, projects, qs, d)
        && Falls(w, projects, Marking(w, init, NoneBlames(mid, qs[|qs| - 1].id.root, fails)), log[1..], rest)
  }

  /** Of the versions in rest, q stands on the first acceptable one; those blamed on the way there are
      marked. */
  ghost predicate MovesOn(w: World, mid: Core, pl: seq<Package>, rest: seq<Version>, before: seq<Queue>, q: Queue, after: seq<Queue>, k: nat, fails: seq<FailedVersion>) {
    Finds(w, mid, q.id, pl, rest, k, fails) && q == Queue(q.id, rest[k..], false) && after == Marking(w, before, AllBlame(fails))
  }

  /** None of them is acceptable. */
  ghost predicate RunsDry(w: World, mid: Core, id: ProjectIdentifier, pl: seq<Package>, rest: seq<Version>, before: seq<Queue>, after: seq<Queue>, fails: seq<FailedVersion>) {
    FindsNone(w, mid, id, pl, rest, fails) && after == Marking(w, before, NoneBlames(mid, id.root, fails))
  }

  /** The project of the last queue in left, which is marked, is selected again at its first later
      version that is acceptable. */
  ghost predicate Retries(w: World, projects: seq<Selected>, left: seq<Queue>, mid: Core, k: nat, fails: seq<FailedVersion>, order: seq<ProjectRoot>, b: Stage) {
    && left != [] && |b.queues| == |left|
    && var n := |left| - 1;
    var q, next := left[n], b.queues[n];
    && q.failed && q.rest != [] && next.id == q.id && next.rest != [] && Below(w, projects, |left|, mid)
    && var pl := projects[|mid.projects|].a.pl;
    && MovesOn(w, mid, pl, q.rest[1..], left[..n], next, b.queues[..n], k, fails)
    && Selects(w, mid, b.core, AtomWithPackages(Atom(q.id, next.rest[0]), pl), false, order)
  }

  /** What goes back and resumes. */
  datatype Return = Return(log: seq<Drop>, left: seq<Queue>, mid: Core, k: nat, fails: seq<FailedVersion>, order: seq<ProjectRoot>)

  ghost predicate ResumesBy(w: World, projects: seq<Selected>, qs: seq<Queue>, b: Stage, r: Return) {
    Falls(w, projects, qs, r.log, r.left) && Retries(w, projects, r.left, r.mid, r.k, r.fails, r.order, b)
  }

  ghost predicate Resumes(w: World, projects: seq<Selected>, qs: seq<Queue>, b: Stage) {
    exists r :: ResumesBy(w, projects, qs, b, r)
  }

  /** What goes back and does not. */
  ghost predicate GivesUp(w: World, projects: seq<Selected>, qs: seq<Queue>) {
    exists log :: Falls(w, projects, qs, log, [])
  }

  /** What was given up in one go and then in another. */
  lemma {:induction false} FallsConcat(w: World, projects: seq<Selected>, qs: seq<Queue>, a: seq<Drop>, mid: seq<Queue>, b: seq<Drop>, rest: seq<Queue>)
    requires Falls(w, projects, qs, a, mid) && Falls(w, projects, mid, b, rest)
    ensures Falls(w, projects, qs, a + b, rest)
    decreases |a|
  {
    hide SpentAt, Marking, NoneBlames;
    if a == [] {
      assert a + b == b;
    } else {
      assert (a + b)[0] == a[0] && (a + b)[1..] == a[1..] + b;
      var init := qs[..|qs| - 1];
      match a[0]
      case Unmarked => FallsConcat(w, projects, init, a[1..], mid, b, rest);
      case Spent(m, fails) =>
        FallsConcat(w, projects, Marking(w, init, NoneBlames(m, qs[|qs| - 1].id.root, fails)), a[1..], mid, b, rest);
    }
  }

  /** It does not matter that more was selected on top before. */
  lemma BelowFurther(w: World, projects: seq<Selected>, m: nat, n: nat, mid: Core)
    requires n <= m && Below(w, UpTo(projects, m), n, mid)
    ensures Below(w, projects, n, mid) && projects[|mid.projects|] == UpTo(projects, m)[|mid.projects|]
  {
    hide Arises, Reopens, UpTo;
    UpToTwice(projects, m, n);
  }

  lemma {:induction false} FallsFurther(w: World, projects: seq<Selected>, m: nat, qs: seq<Queue>, log: seq<Drop>, rest: seq<Queue>)
    requires |qs| <= m && Falls(w, UpTo(projects, m), qs, log, rest)
    ensures Falls(w, projects, qs, log, rest)
    decreases |log|
  {
    hide Marking, NoneBlames, FindsNone, Below, UpTo;
    if log != [] {
      var init := qs[..|qs| - 1];
      match log[0]
      case Unmarked => FallsFurther(w, projects, m, init, log[1..], rest);
      case Spent(mid, fails) =>
        BelowIsLess(w, UpTo(projects, m), |qs|, mid);
        BelowFurther(w, projects, m, |qs|, mid);
        FallsFurther(w, projects, m, Marking(w, init, NoneBlames(mid, qs[|qs| - 1].id.root, fails)), log[1..], rest);
    }
  }

  lemma BelowIsLess(w: World, projects: seq<Selected>, n: nat, mid: Core)
    requires Below(w, projects, n, mid)
    ensures |mid.projects| < |projects|
  {
  }

  lemma RetriesFurther(w: World, projects: seq<Selected>, m: nat, left: seq<Queue>, mid: Core, k: nat, fails: seq<FailedVersion>, order: seq<ProjectRoot>, b: Stage)
    requires |left| <= m && Retries(w, UpTo(projects, m), left, mid, k, fails, order, b)
    ensures Retries(w, projects, left, mid, k, fails, order, b)
  {
    hide MovesOn, Selects, Below, UpTo;
    BelowIsLess(w, UpTo(projects, m), |left|, mid);
    BelowFurther(w, projects, m, |left|, mid);
  }

  lemma {:induction false} FallsShorter(w: World, projects: seq<Selected>, qs: seq<Queue>, log: seq<Drop>, rest: seq<Queue>)
    requires Falls(w, projects, qs, log, rest)
    ensures |rest| + |log| == |qs|
    decreases |log|
  {
    hide SpentAt, Marking, NoneBlames;
    if log != [] {
      var init := qs[..|qs| - 1];
      match log[0]
      case Unmarked => FallsShorter(w, projects, init, log[1..], rest);
      case Spent(mid, fails) => FallsShorter(w, projects, Marking(w, init, NoneBlames(mid, qs[|qs| - 1].id.root, fails)), log[1..], rest);
    }
  }

  function Lens(qs: seq<Queue>): (ns: seq<nat>)
    ensures |ns| == |qs|
  {
    seq(|qs|, i requires 0 <= i < |qs| => |qs[i].rest|)
  }

  lemma LensMarking(w: World, qs: seq<Queue>, blamed: seq<ProjectIdentifier>)
    ensures Lens(Marking(w, qs, blamed)) == Lens(qs)
  {
    hide Hit;
  }

  /** Queues that are not given up keep all they offer. */
  lemma {:induction false} FallsKeepsLens(w: World, projects: seq<Selected>, qs: seq<Queue>, log: seq<Drop>, rest: seq<Queue>)
    requires Falls(w, projects, qs, log, rest)
    ensures |rest| <= |qs| && Lens(rest) == Lens(qs)[..|rest|]
    decreases |log|
  {
    hide SpentAt, Marking, NoneBlames;
    if log != [] {
      var init := qs[..|qs| - 1];
      assert Lens(init) == Lens(qs)[..|init|];
      match log[0]
      case Unmarked => FallsKeepsLens(w, projects, init, log[1..], rest);
      case Spent(mid, fails) =>
        var blamed := NoneBlames(mid, qs[|qs| - 1].id.root, fails);
        LensMarking(w, init, blamed);
        FallsKeepsLens(w, projects, Marking(w, init, blamed), log[1..], rest);
    }
  }

  /** now ends with a digit lower than before has at that place. */
  ghost predicate Lowered(now: seq<nat>, before: seq<nat>) {
    0 < |now| <= |before| && now[..|now| - 1] == before[..|now| - 1] && now[|now| - 1] < before[|now| - 1]
  }

  lemma LensAt(qs: seq<Queue>, n: nat)
    requires n <= |qs|
    ensures Lens(qs[..n]) == Lens(qs)[..n]
  {
  }

  lemma RetriesLower(w: World, projects: seq<Selected>, left: seq<Queue>, mid: Core, k: nat, fails: seq<FailedVersion>, order: seq<ProjectRoot>, b: Stage)
    requires Retries(w, projects, left, mid, k, fails, order, b)
    ensures Lowered(Lens(b.queues), Lens(left)) && |b.queues| == |left|
  {
    var n := |left| - 1;
    hide Marking, Below, Selects, Refusals, Fits;
    LensMarking(w, left[..n], AllBlame(fails));
    LensAt(left, n);
    LensAt(b.queues, n);
    hide Retries, AllBlame;
  }

  lemma LoweredInPrefix(now: seq<nat>, before: seq<nat>, n: nat)
    requires n <= |before| && Lowered(now, before[..n])
    ensures Lowered(now, before)
  {
    assert before[..n][..|now| - 1] == before[..|now| - 1];
  }

  /** Resuming leaves fewer versions to try. */
  lemma ResumesLowers(w: World, projects: seq<Selected>, qs: seq<Queue>, b: Stage, r: Return)
    requires ResumesBy(w, projects, qs, b, r)
    ensures Lowered(Lens(b.queues), Lens(qs))
  {
    hide Falls, Retries, Lens, Lowered;
    FallsKeepsLens(w, projects, qs, r.log, r.left);
    RetriesLower(w, projects, r.left, r.mid, r.k, r.fails, r.order, b);
    LoweredInPrefix(Lens(b.queues), Lens(qs), |r.left|);
  }

  lemma UnmarkedFalls(w: World, projects: seq<Selected>, qs: seq<Queue>)
    requires qs != [] && !qs[|qs| - 1].failed
    ensures Falls(w, projects, qs, [Unmarked], qs[..|qs| - 1])
  {
    assert [Unmarked][1..] == [];
  }

  lemma SpentFalls(w: World, projects: seq<Selected>, qs: seq<Queue>, mid: Core, fails: seq<FailedVersion>)
    requires qs != [] && SpentAt(w, projects, qs, Spent(mid, fails))
    ensures Falls(w, projects, qs, [Spent(mid, fails)], Marking(w, qs[..|qs| - 1], NoneBlames(mid, qs[|qs| - 1].id.root, fails)))
  {
    hide SpentAt, Marking, NoneBlames;
    assert [Spent(mid, fails)][1..] == [];
  }

  // ------------------------------------------------------------------ turns and runs

  ghost predicate WentBack(w: World, a: Stage, b: Stage, bmi: Bmi) {
    exists f, ms :: Refusing(w, a, bmi, f, ms) && Resumes(w, a.core.projects, ms, b)
  }

  /** One turn of the main loop. */
  ghost predicate Turns(w: World, a: Stage, b: Stage) {
    && a.core.unsel != []
    && var bmi := a.core.unsel[0];
    (Extending(w, a.core, b.core, bmi) && b.queues == a.queues) || Opening(w, a, b, bmi) || WentBack(w, a, b, bmi)
  }

  /** The turn that ends the search without a solution. */
  ghost predicate Ends(w: World, a: Stage, f: Failure) {
    a.core.unsel != [] && exists ms :: Refusing(w, a, a.core.unsel[0], f, ms) && GivesUp(w, a.core.projects, ms)
  }

  lemma TurnsForward(w: World, a: Stage, b: Stage)
    requires a.core.unsel != []
    requires (Extending(w, a.core, b.core, a.core.unsel[0]) && b.queues == a.queues) || Opening(w, a, b, a.core.unsel[0])
    ensures Turns(w, a, b)
  {
  }

  lemma TurnsBack(w: World, a: Stage, f: Failure, ms: seq<Queue>, b: Stage)
    requires a.core.unsel != [] && Refusing(w, a, a.core.unsel[0], f, ms) && Resumes(w, a.core.projects, ms, b)
    ensures Turns(w, a, b)
  {
    hide Refusing, Resumes;
  }

  lemma EndsThere(w: World, a: Stage, f: Failure, ms: seq<Queue>)
    requires a.core.unsel != [] && Refusing(w, a, a.core.unsel[0], f, ms) && GivesUp(w, a.core.projects, ms)
    ensures Ends(w, a, f)
  {
    hide Refusing, GivesUp;
  }

  ghost predicate TurnsAt(w: World, ss: seq<Stage>, k: nat)
    requires k < |ss|
  {
    if k == 0 then ss[0].queues == [] && exists order :: Start(w, ss[0].core, order) else Turns(w, ss[k - 1], ss[k])
  }

  ghost predicate SearchRun(w: World, ss: seq<Stage>) {
    ss != [] && forall k :: 0 <= k < |ss| ==> TurnsAt(w, ss, k)
  }

  lemma SearchStarts(w: World, a: Stage)
    requires a.queues == [] && exists order :: Start(w, a.core, order)
    ensures SearchRun(w, [a])
  {
    hide Start;
    assert [a][0] == a && TurnsAt(w, [a], 0);
  }

  lemma SearchRunPush(w: World, ss: seq<Stage>, b: Stage)
    requires SearchRun(w, ss) && Turns(w, ss[|ss| - 1], b)
    ensures SearchRun(w, ss + [b])
  {
    hide Turns;
    var tt := ss + [b];
    forall k | 0 <= k < |tt| ensures TurnsAt(w, tt, k) {
      if k < |ss| { assert TurnsAt(w, ss, k) && tt[k] == ss[k] && (k > 0 ==> tt[k - 1] == ss[k - 1]); }
    }
  }
}
