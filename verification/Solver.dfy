/** The solver itself: satisfiability checks over mutable state, selection and its undoing, the
    search for a version, backtracking, and the main loop (gps/solver.go, gps/satisfy.go). */
module Solvers {
  import opened Constraints
  import opened Identifiers
  import opened Bridge
  import opened SolverCore
  import opened SolverInvariants
  import opened SolverSteps
  import opened SolverRuns
  import opened SolverMeasure
  import opened Satisfy
  import opened VersionQueues
  import opened Selections
  import opened Solutions
  import opened UniformWorlds
  import opened WantedSolutions
  import opened Searches
  import opened VersionChoices

  // ------------------------------------------------------------------ the stack of queues

  function Ids(qs: seq<VersionQueue>): (ids: seq<ProjectIdentifier>)
    ensures |ids| == |qs| && forall i :: 0 <= i < |qs| ==> ids[i] == qs[i].id
  {
    seq(|qs|, i requires 0 <= i < |qs| => qs[i].id)
  }

  function Flags(qs: seq<VersionQueue>): (fs: seq<bool>)
    reads qs`failed
    ensures |fs| == |qs| && forall i :: 0 <= i < |qs| ==> fs[i] == qs[i].failed
  {
    if qs == [] then [] else Flags(qs[..|qs| - 1]) + [qs[|qs| - 1].failed]
  }

  /** The atom each queue currently stands on. */
  function Tops(qs: seq<VersionQueue>): (ts: seq<Atom>)
    reads qs`pi
    requires forall q <- qs :: q.pi != []
    ensures |ts| == |qs| && forall i :: 0 <= i < |qs| ==> ts[i] == Atom(qs[i].id, qs[i].pi[0])
  {
    if qs == [] then [] else
      var last := qs[|qs| - 1];
      assert last in qs;
      Tops(qs[..|qs| - 1]) + [Atom(last.id, last.pi[0])]
  }

  function Lefts(w: World, qs: seq<VersionQueue>): (ns: seq<nat>)
    reads qs`pi, qs`allLoaded
    ensures |ns| == |qs| && forall i :: 0 <= i < |qs| ==> ns[i] == |qs[i].Rest(w)|
  {
    if qs == [] then [] else Lefts(w, qs[..|qs| - 1]) + [|qs[|qs| - 1].Rest(w)|]
  }

  /** What each queue still offers; marks do not matter here. */
  function Rests(w: World, qs: seq<VersionQueue>): (v: seq<(ProjectIdentifier, seq<Version>)>)
    reads qs`pi, qs`allLoaded
    ensures |v| == |qs|
  {
    if qs == [] then [] else Rests(w, qs[..|qs| - 1]) + [(qs[|qs| - 1].id, qs[|qs| - 1].Rest(w))]
  }

  lemma RestsAt(w: World, qs: seq<VersionQueue>)
    ensures forall i :: 0 <= i < |qs| ==> Rests(w, qs)[i] == (qs[i].id, qs[i].Rest(w))
  {
    if qs != [] { RestsAt(w, qs[..|qs| - 1]); }
  }

  function Zip(v: seq<(ProjectIdentifier, seq<Version>)>, flags: seq<bool>): (qs: seq<Queue>)
    requires |v| == |flags|
    ensures |qs| == |v|
  {
    seq(|v|, i requires 0 <= i < |v| => Queue(v[i].0, v[i].1, flags[i]))
  }

  /** The queues as the search sees them. */
  function Standing(w: World, qs: seq<VersionQueue>): (v: seq<Queue>)
    reads qs`pi, qs`allLoaded, qs`failed
    ensures |v| == |qs|
  {
    Zip(Rests(w, qs), Flags(qs))
  }

  lemma ZipMarked(w: World, v: seq<(ProjectIdentifier, seq<Version>)>, ids: seq<ProjectIdentifier>, before: seq<bool>, after: seq<bool>, blamed: seq<ProjectIdentifier>)
    requires |v| == |ids| && (forall i :: 0 <= i < |v| ==> v[i].0 == ids[i]) && |before| == |v| && Marked(w, ids, before, after, blamed)
    ensures Zip(v, after) == Marking(w, Zip(v, before), blamed)
  {
    hide Hit;
    assert Names(Zip(v, before)) == ids;
  }

  /** Since then only marks have changed, as these blamed say. */
  lemma MarksAre(w: World, qs: seq<VersionQueue>, v: seq<(ProjectIdentifier, seq<Version>)>, before: seq<bool>, blamed: seq<ProjectIdentifier>)
    requires Rests(w, qs) == v && |before| == |qs| && Marked(w, Ids(qs), before, Flags(qs), blamed)
    ensures Standing(w, qs) == Marking(w, Zip(v, before), blamed)
  {
    hide Marked, Marking;
    RestsAt(w, qs);
    ZipMarked(w, v, Ids(qs), before, Flags(qs), blamed);
  }

  lemma NothingMarking(w: World, v: seq<Queue>)
    ensures Marking(w, v, []) == v
  {
  }

  /** Of the queues but q, exactly those of the blamed identifiers were marked. */
  ghost predicate MarkedBut(w: World, qs: seq<VersionQueue>, q: VersionQueue, before: seq<bool>, after: seq<bool>, blamed: seq<ProjectIdentifier>) {
    && |before| == |after| == |qs|
    && forall i :: 0 <= i < |qs| && qs[i] != q ==> (after[i] <==> before[i] || Hit(w, Ids(qs), blamed, i))
  }

  lemma MarkedAll(w: World, qs: seq<VersionQueue>, q: VersionQueue, before: seq<bool>, after: seq<bool>, blamed: seq<ProjectIdentifier>)
    requires Marked(w, Ids(qs), before, after, blamed) && |before| == |qs|
    ensures MarkedBut(w, qs, q, before, after, blamed)
  {
  }

  /** The mark of q itself does not matter. */
  lemma MarkedOwn(w: World, qs: seq<VersionQueue>, q: VersionQueue, before: seq<bool>, after: seq<bool>, late: seq<bool>, blamed: seq<ProjectIdentifier>)
    requires MarkedBut(w, qs, q, before, after, blamed) && |late| == |after|
    requires forall i :: 0 <= i < |qs| && qs[i] != q ==> late[i] == after[i]
    ensures MarkedBut(w, qs, q, before, late, blamed)
  {
  }

  lemma MarkedNone(w: World, qs: seq<VersionQueue>, q: VersionQueue, flags: seq<bool>)
    requires |flags| == |qs|
    ensures MarkedBut(w, qs, q, flags, flags, [])
  {
  }

  lemma HitConcat(w: World, ids: seq<ProjectIdentifier>, a: seq<ProjectIdentifier>, b: seq<ProjectIdentifier>, i: nat)
    ensures Hit(w, ids, a + b, i) <==> Hit(w, ids, a, i) || Hit(w, ids, b, i)
  {
    var c := a + b;
    if k :| 0 <= k < |a| && a[k].root != w.rootName && FirstQueue(ids, a[k]) == i { assert c[k] == a[k]; }
    if k :| 0 <= k < |b| && b[k].root != w.rootName && FirstQueue(ids, b[k]) == i { assert c[|a| + k] == b[k]; }
    if k :| 0 <= k < |c| && c[k].root != w.rootName && FirstQueue(ids, c[k]) == i { assert k < |a| ==> c[k] == a[k]; assert k >= |a| ==> c[k] == b[k - |a|]; }
  }

  lemma MarkedMore(w: World, qs: seq<VersionQueue>, q: VersionQueue, f0: seq<bool>, f1: seq<bool>, f2: seq<bool>,
                   a: seq<ProjectIdentifier>, b: seq<ProjectIdentifier>)
    requires MarkedBut(w, qs, q, f0, f1, a) && MarkedBut(w, qs, q, f1, f2, b)
    ensures MarkedBut(w, qs, q, f0, f2, a + b)
  {
    hide Hit;
    forall i | 0 <= i < |qs| && qs[i] != q ensures f2[i] <==> f0[i] || Hit(w, Ids(qs), a + b, i) { HitConcat(w, Ids(qs), a, b, i); }
  }

  lemma FlagsInit(qs: seq<VersionQueue>)
    requires qs != []
    ensures Flags(qs[..|qs| - 1]) == Flags(qs)[..|qs| - 1]
  {
  }

  /** The marks on all queues but the last. */
  lemma InitMarked(w: World, qs: seq<VersionQueue>, q: VersionQueue, before: seq<bool>, after: seq<bool>, blamed: seq<ProjectIdentifier>)
    requires qs != [] && NoDup(qs) && q == qs[|qs| - 1] && MarkedBut(w, qs, q, before, after, blamed)
    ensures Marked(w, Ids(qs[..|qs| - 1]), before[..|qs| - 1], after[..|qs| - 1], blamed)
  {
    hide Hit;
    var n, ids := |qs| - 1, Ids(qs[..|qs| - 1]);
    assert Ids(qs)[..n] == ids;
    forall i | 0 <= i < n ensures after[i] <==> before[i] || Hit(w, ids, blamed, i) { HitInit(w, Ids(qs), blamed, n, i); }
  }

  lemma RetriesIs(w: World, projects: seq<Selected>, v: seq<Queue>, mid: Core, pl: seq<Package>, k: nat, fails: seq<FailedVersion>, order: seq<ProjectRoot>,
                  next: Queue, after: seq<Queue>, b: Stage)
    requires v != [] && v[|v| - 1].failed && v[|v| - 1].rest != []
    requires Below(w, projects, |v|, mid) && |mid.projects| < |projects| && pl == projects[|mid.projects|].a.pl
    requires next.id == v[|v| - 1].id && next.rest != [] && |after| == |v| - 1
    requires MovesOn(w, mid, pl, v[|v| - 1].rest[1..], v[..|v| - 1], next, after, k, fails)
    requires Selects(w, mid, b.core, AtomWithPackages(Atom(next.id, next.rest[0]), pl), false, order)
    requires |b.queues| == |v| && b.queues[..|v| - 1] == after && b.queues[|v| - 1] == next
    ensures Retries(w, projects, v, mid, k, fails, order, b)
  {
    hide Below, MovesOn, Selects;
  }

  lemma SpentIs(w: World, projects: seq<Selected>, v: seq<Queue>, mid: Core, pl: seq<Package>, fails: seq<FailedVersion>, after: seq<Queue>)
    requires v != [] && v[|v| - 1].failed && v[|v| - 1].rest != []
    requires Below(w, projects, |v|, mid) && |mid.projects| < |projects| && pl == projects[|mid.projects|].a.pl
    requires RunsDry(w, mid, v[|v| - 1].id, pl, v[|v| - 1].rest[1..], v[..|v| - 1], after, fails)
    ensures Falls(w, projects, v, [Spent(mid, fails)], after)
  {
    hide FindsNone, Marking, NoneBlames, Falls, Arises;
    SpentFalls(w, projects, v, mid, fails);
  }

  lemma BelowUpTo(w: World, projects: seq<Selected>, n: nat, mid: Core)
    requires Below(w, projects, n, mid)
    ensures mid.projects == UpTo(projects, n) && |mid.projects| < |projects|
  {
  }

  lemma RetriedFurther(w: World, projects: seq<Selected>, v: seq<Queue>, log: seq<Drop>, mids: seq<Selected>, u: seq<Queue>, step: Return, b: Stage)
    requires Falls(w, projects, v, log, u) && mids == UpTo(projects, |u| + 1)
    requires step.left == u && Retries(w, mids, u, step.mid, step.k, step.fails, step.order, b)
    ensures ResumesBy(w, projects, v, b, step.(log := log))
  {
    hide Falls, Retries, UpTo;
    RetriesFurther(w, projects, |u| + 1, u, step.mid, step.k, step.fails, step.order, b);
  }

  lemma RefusingIs(w: World, a: Stage, bmi: Bmi, f: Failure, ms: seq<Queue>, fails: seq<FailedVersion>)
    requires Base(a.core.projects, bmi.id.root).None?
    requires if QueueFailure(w, a.core, bmi).Some? then f == QueueFailure(w, a.core, bmi).value && ms == a.queues
             else f == NoVersion(bmi.id, fails) && fails != [] && FindsNone(w, a.core, bmi.id, bmi.pl, Candidates(w, a.core, bmi), fails)
                  && ms == Marking(w, a.queues, AllBlame(fails) + FirstDepender(a.core, bmi.id.root))
    ensures Refusing(w, a, bmi, f, ms)
  {
    hide Marking, QueueFailure, Candidates, Refusal, Base;
  }

  lemma OpeningIs(w: World, a: Stage, b: Stage, bmi: Bmi, q: Queue, k: nat, fails: seq<FailedVersion>, order: seq<ProjectRoot>)
    requires OpeningAt(w, a, b, bmi, q, k, fails, order)
    ensures Opening(w, a, b, bmi)
  {
    hide OpeningAt;
  }

  lemma RestIsShort(w: World, s: Core, bmi: Bmi, q: Queue, k: nat, fails: seq<FailedVersion>)
    requires StandsOn(w, s, bmi, q, k, fails)
    ensures |q.rest| <= |Candidates(w, s, bmi)|
  {
    hide Candidates, QueueFailure, Refusals;
  }

  lemma FreshMarks(w: World, qs: seq<VersionQueue>, q: VersionQueue, before: seq<bool>, after: seq<bool>, blamed: seq<ProjectIdentifier>)
    requires MarkedBut(w, qs, q, before, after, blamed) && q !in qs
    ensures Marked(w, Ids(qs), before, after, blamed)
  {
  }

  /** At most one failure was added. */
  predicate Grows(fails: seq<FailedVersion>, more: seq<FailedVersion>) {
    more == fails || (|more| == |fails| + 1 && more[..|fails|] == fails)
  }

  function NewBlame(fails: seq<FailedVersion>, more: seq<FailedVersion>): seq<ProjectIdentifier> {
    if |more| > |fails| then BlameOf(more[|more| - 1].f) else []
  }

  lemma NoRefusals(w: World, s: Core, id: ProjectIdentifier, pl: seq<Package>, vs: seq<Version>, fails: seq<FailedVersion>, n: nat)
    requires n == |fails|
    ensures Refusals(w, s, id, pl, vs[..0], fails[n..])
  {
  }

  lemma NoBlame(fs: seq<FailedVersion>)
    ensures fs == [] ==> AllBlame(fs) == []
  {
  }

  lemma BlameMore(fails: seq<FailedVersion>, more: seq<FailedVersion>, n: nat)
    requires Grows(fails, more) && n <= |fails|
    ensures AllBlame(more[n..]) == AllBlame(fails[n..]) + NewBlame(fails, more)
  {
    if |more| > |fails| {
      assert more[n..][..|fails| - n] == fails[n..];
    }
  }

  lemma MarkedByMore(w: World, qs: seq<VersionQueue>, q: VersionQueue, f0: seq<bool>, f1: seq<bool>, f2: seq<bool>,
                     fails: seq<FailedVersion>, more: seq<FailedVersion>, n: nat)
    requires Grows(fails, more) && n <= |fails|
    requires MarkedBut(w, qs, q, f0, f1, AllBlame(fails[n..])) && MarkedBut(w, qs, q, f1, f2, NewBlame(fails, more))
    ensures MarkedBut(w, qs, q, f0, f2, AllBlame(more[n..]))
  {
    hide MarkedBut;
    BlameMore(fails, more, n);
    MarkedMore(w, qs, q, f0, f1, f2, AllBlame(fails[n..]), NewBlame(fails, more));
  }

  lemma RefusedMore(w: World, s: Core, id: ProjectIdentifier, pl: seq<Package>, vs: seq<Version>, k: nat,
                    fails: seq<FailedVersion>, more: seq<FailedVersion>, n: nat)
    requires k < |vs| && n <= |fails| && Refusals(w, s, id, pl, vs[..k], fails[n..])
    requires exists x :: Refusal(w, s, id, pl, vs[k], x) && more == fails + [x]
    ensures Refusals(w, s, id, pl, vs[..k + 1], more[n..])
  {
    hide Refusal, Refusals;
    var x :| Refusal(w, s, id, pl, vs[k], x) && more == fails + [x];
    assert more[n..] == fails[n..] + [x];
    RefusalsPush(w, s, id, pl, vs, k, fails[n..], x);
  }

  ghost predicate QueuesOk(w: World, qs: seq<VersionQueue>)
    reads qs`pi, qs`allLoaded, qs`adverr
  {
    && NoDup(qs)
    && forall q <- qs :: q.Valid() && q.pi != [] && |q.Rest(w)| <= w.maxVersions + 3
  }

  lemma InitQueues(w: World, qs: seq<VersionQueue>)
    requires qs != [] && QueuesOk(w, qs)
    ensures QueuesOk(w, qs[..|qs| - 1])
    ensures Tops(qs) == Tops(qs[..|qs| - 1]) + [Atom(qs[|qs| - 1].id, qs[|qs| - 1].pi[0])]
    ensures Lefts(w, qs) == Lefts(w, qs[..|qs| - 1]) + [|qs[|qs| - 1].Rest(w)|]
    ensures qs[|qs| - 1].Valid() && |qs[|qs| - 1].Rest(w)| <= w.maxVersions + 3
  {
    assert qs[|qs| - 1] in qs;
  }

  lemma PushQueue(w: World, qs: seq<VersionQueue>, q: VersionQueue)
    requires QueuesOk(w, qs) && q !in qs && q.Valid() && q.pi != [] && |q.Rest(w)| <= w.maxVersions + 3
    ensures QueuesOk(w, qs + [q])
    ensures Tops(qs + [q]) == Tops(qs) + [Atom(q.id, q.pi[0])]
    ensures Lefts(w, qs + [q]) == Lefts(w, qs) + [|q.Rest(w)|]
  {
  }

  lemma LastQueue(w: World, qs: seq<VersionQueue>, q: VersionQueue)
    requires NoDup(qs) && qs != [] && q == qs[|qs| - 1] && QueuesOk(w, qs[..|qs| - 1])
    requires q.Valid() && q.pi != [] && |q.Rest(w)| <= w.maxVersions + 3
    ensures QueuesOk(w, qs)
    ensures Tops(qs) == Tops(qs[..|qs| - 1]) + [Atom(q.id, q.pi[0])]
    ensures Lefts(w, qs) == Lefts(w, qs[..|qs| - 1]) + [|q.Rest(w)|]
  {
    assert qs[..|qs| - 1] + [q] == qs;
    assert forall i :: 0 <= i < |qs| - 1 ==> qs[..|qs| - 1][i] == qs[i];
    PushQueue(w, qs[..|qs| - 1], q);
  }

  class Solver {
    const w: World
    const sel: Selection
    const unsel: Unselected
    var vqs: seq<VersionQueue>
    var attempts: nat
    // whether the run is cancelled by the time it asks for the n-th time, and how often it has asked
    const done: nat -> bool
    var asked: nat

    constructor (w: World, done: nat -> bool)
      ensures this.w == w && this.done == done && vqs == [] && attempts == 0 && asked == 0 && fresh(sel) && fresh(unsel)
      ensures State() == Core([], map[], map[], [])
    {
      this.w := w;
      sel := new Selection();
      unsel := new Unselected();
      this.done := done;
      vqs, attempts, asked := [], 0, 0;
    }

    /** No answer since the n-th said that the run is cancelled. */
    ghost predicate Going(n: nat)
      reads this`asked
    {
      n <= asked && forall k :: n <= k < asked ==> !done(k)
    }

    /** Only the last one did. */
    ghost predicate Stopped(n: nat)
      reads this`asked
    {
      n < asked && done(asked - 1) && forall k :: n <= k < asked - 1 ==> !done(k)
    }

    method AskDone(ghost n: nat) returns (stop: bool)
      requires Going(n)
      modifies this`asked
      ensures if stop then Stopped(n) else Going(n)
    {
      stop := done(asked);
      asked := asked + 1;
    }

    lemma NotAsked()
      ensures Going(asked)
    {
    }

    function State(): Core
      reads sel, unsel
    {
      Core(sel.projects, sel.deps, sel.foldRoots, unsel.sl)
    }

    /** Where the search stands. */
    ghost function Now(): Stage
      reads this`vqs, sel, unsel, vqs`pi, vqs`allLoaded, vqs`failed
    {
      Stage(State(), Standing(w, vqs))
    }

    // ---------------------------------------------------------------- marking failures

    method Fail(id: ProjectIdentifier)
      modifies (set q <- vqs)`failed
      requires NoDup(vqs)
      ensures forall i :: 0 <= i < |vqs| ==>
                (vqs[i].failed <==> old(vqs[i].failed) || (id.root != w.rootName && FirstQueue(Ids(vqs), id) == i))
    {
      if id.root != w.rootName {
        var i := 0;
        while i < |vqs|
          invariant 0 <= i <= |vqs|
          invariant forall j :: 0 <= j < i ==> !vqs[j].id.Eq(id)
          invariant forall j :: 0 <= j < |vqs| ==> vqs[j].failed == old(vqs[j].failed)
        {
          if vqs[i].id.Eq(id) {
            vqs[i].failed := true;
            assert FirstQueue(Ids(vqs), id) == i;
            return;
          }
          i := i + 1;
        }
        assert FirstQueue(Ids(vqs), id) == |vqs|;
      }
    }

    method FailAll(blamed: seq<ProjectIdentifier>)
      modifies (set q <- vqs)`failed
      requires NoDup(vqs)
      ensures Marked(w, Ids(vqs), old(Flags(vqs)), Flags(vqs), blamed)
    {
      for k := 0 to |blamed|
        invariant forall i :: 0 <= i < |vqs| ==> (vqs[i].failed <==> old(vqs[i].failed) || Hit(w, Ids(vqs), blamed[..k], i))
      {
        Fail(blamed[k]);
        assert blamed[..k + 1] == blamed[..k] + [blamed[k]];
        HitPush(w, Ids(vqs), blamed[..k], blamed[k]);
      }
      assert blamed[..|blamed|] == blamed;
    }

    // ---------------------------------------------------------------- the checks

    method CheckAtomAllowable(pa: Atom) returns (f: Option<Failure>)
      requires NoDup(vqs)
      modifies (set q <- vqs)`failed
      ensures f == AtomFailure(w, State(), pa)
      ensures Marked(w, Ids(vqs), old(Flags(vqs)), Flags(vqs), BlameOf(f))
    {
      hide Marked, Flags;
      NothingMarked(w, Ids(vqs), Flags(vqs), Flags(vqs));
      var constraint := sel.GetConstraint(w, pa.id);
      if Matches(w.lib, constraint, pa.v) {
        return None;
      }
      var deps := sel.GetDependenciesOn(pa.id);
      var failparent := CollectRejecting(deps, pa.v);
      FailAll(Dependers(failparent));
      return Some(VersionNotAllowed(pa, failparent, constraint));
    }

    method CollectRejecting(deps: seq<Dependency>, v: Version) returns (failparent: seq<Dependency>)
      ensures failparent == Rejecting(w, deps, v)
    {
      failparent := [];
      for i := 0 to |deps|
        invariant failparent == Rejecting(w, deps[..i], v)
      {
        assert deps[..i + 1][..i] == deps[..i];
        if !Matches(w.lib, deps[i].dep.constraint, v) {
          failparent := failparent + [deps[i]];
        }
      }
      assert deps[..|deps|] == deps;
    }

    method CheckRequiredPackagesExist(a: Atom) returns (f: Option<Failure>)
      ensures f == RequiredFailure(w, State(), a)
    {
      var o := ListPackages(w, a.id, a.v);
      if o.None? {
        return Some(PackagesUnavailable(a));
      }
      var ptree := o.value;
      var deps := sel.GetDependenciesOn(a.id);
      var fp: map<Package, ErrDeppers> := map[];
      for i := 0 to |deps|
        invariant fp == FailPkg(ptree, Demands(deps[..i]))
      {
        assert deps[..i + 1][..i] == deps[..i];
        fp := NoteProblems(ptree, fp, Demands(deps[..i]), deps[i]);
      }
      assert deps[..|deps|] == deps;
      if |fp| > 0 {
        return Some(ProblemPackages(a, fp));
      }
      return None;
    }

    /** The inner loop of checkRequiredPackagesExist. */
    static method NoteProblems(ptree: PackageTree, before: map<Package, ErrDeppers>, ghost ds: seq<(Package, Atom)>, dep: Dependency)
      returns (fp: map<Package, ErrDeppers>)
      requires before == FailPkg(ptree, ds)
      ensures fp == FailPkg(ptree, ds + DemandsOf(dep.depender, dep.dep.pl))
    {
      var pl := dep.dep.pl;
      ghost var all := DemandsOf(dep.depender, pl);
      fp := before;
      assert ds + all[..0] == ds;
      for j := 0 to |pl|
        invariant fp == FailPkg(ptree, ds + all[..j])
      {
        var pkg := pl[j];
        assert ds + all[..j + 1] == ds + all[..j] + [(pkg, dep.depender)];
        FailPkgPush(ptree, ds + all[..j], pkg, dep.depender);
        if pkg in fp {
          fp := fp[pkg := ErrDeppers(fp[pkg].err, fp[pkg].deppers + [dep.depender])];
        } else if pkg !in ptree || ptree[pkg].Broken? {
          fp := fp[pkg := ErrDeppers(if pkg in ptree then Some(ptree[pkg].err) else None, [dep.depender])];
        }
      }
      assert all[..|pl|] == all;
    }

    method CheckIdentMatches(a: Atom, d: CompleteDep) returns (f: Option<Failure>)
      requires NoDup(vqs)
      modifies (set q <- vqs)`failed
      ensures f == IdentFailure(w, State(), a, d)
      ensures Marked(w, Ids(vqs), old(Flags(vqs)), Flags(vqs), BlameOf(f))
    {
      hide Marked, Flags;
      NothingMarked(w, Ids(vqs), Flags(vqs), Flags(vqs));
      var curid := sel.GetIdentFor(d.ident.root);
      if curid.Some? && !curid.value.Equiv(d.ident) {
        var deps := sel.GetDependenciesOn(a.id);
        FailAll(Dependers(deps));
        return Some(SourceMismatch(d.ident.root, deps, curid.value.NormalizedSource(), d.ident.NormalizedSource(), a));
      }
      return None;
    }

    method CheckRootCaseConflicts(a: Atom, d: CompleteDep) returns (f: Option<Failure>)
      requires NoDup(vqs)
      modifies (set q <- vqs)`failed
      ensures f == CaseFailure(w, State(), a, d)
      ensures Marked(w, Ids(vqs), old(Flags(vqs)), Flags(vqs), BlameOf(f))
    {
      hide Marked, Flags;
      NothingMarked(w, Ids(vqs), Flags(vqs), Flags(vqs));
      var pr := d.ident.root;
      var conflict := sel.FindCaseConflicts(w, pr);
      if conflict.None? {
        return None;
      }
      var current := conflict.value;
      var curid := sel.GetIdentFor(current);
      var deps := sel.GetDependenciesOn(if curid.Some? then curid.value else ProjectIdentifier("", ""));
      FailAll(Dependers(deps));
      f := Some(if current == a.id.root then WrongCase(pr, Dependency(a, d), deps) else CaseMismatch(Dependency(a, d), current, deps));
      assert BlameOf(f) == Dependers(deps);
    }

    method CheckDepsConstraintsAllowable(a: Atom, d: CompleteDep) returns (f: Option<Failure>)
      requires NoDup(vqs)
      modifies (set q <- vqs)`failed
      ensures f == ConstraintFailure(w, State(), a, d)
      ensures Marked(w, Ids(vqs), old(Flags(vqs)), Flags(vqs), BlameOf(f))
    {
      hide Marked, Flags;
      NothingMarked(w, Ids(vqs), Flags(vqs), Flags(vqs));
      var constraint := sel.GetConstraint(w, d.ident);
      if MatchesAny(w.lib, constraint, d.constraint) {
        return None;
      }
      var siblings := sel.GetDependenciesOn(d.ident);
      var failsib, nofailsib := SplitSiblings(siblings, d.constraint);
      FailAll(Dependers(failsib));
      f := Some(DisjointConstraint(Dependency(a, d), failsib, nofailsib, constraint));
      assert BlameOf(f) == Dependers(failsib);
    }

    method SplitSiblings(siblings: seq<Dependency>, c: Constraint) returns (failsib: seq<Dependency>, nofailsib: seq<Dependency>)
      ensures failsib == Disjoint(w, siblings, c, true) && nofailsib == Disjoint(w, siblings, c, false)
    {
      failsib, nofailsib := [], [];
      for i := 0 to |siblings|
        invariant failsib == Disjoint(w, siblings[..i], c, true) && nofailsib == Disjoint(w, siblings[..i], c, false)
      {
        assert siblings[..i + 1][..i] == siblings[..i];
        if !MatchesAny(w.lib, siblings[i].dep.constraint, c) {
          failsib := failsib + [siblings[i]];
        } else {
          nofailsib := nofailsib + [siblings[i]];
        }
      }
      assert siblings[..|siblings|] == siblings;
    }

    method CheckDepsDisallowsSelected(a: Atom, d: CompleteDep) returns (f: Option<Failure>)
      requires NoDup(vqs)
      modifies (set q <- vqs)`failed
      ensures f == SelectedFailure(w, State(), a, d)
      ensures Marked(w, Ids(vqs), old(Flags(vqs)), Flags(vqs), BlameOf(f))
    {
      hide Marked, Flags;
      NothingMarked(w, Ids(vqs), Flags(vqs), Flags(vqs));
      var selected := sel.SelectedFor(d.ident);
      if selected.Some? && !Matches(w.lib, d.constraint, selected.value.a.v) {
        FailAll([d.ident]);
        f := Some(ConstraintNotAllowed(Dependency(a, d), selected.value.a.v));
        assert BlameOf(f) == [d.ident];
        return;
      }
      return None;
    }

    method CheckRevisionExists(a: Atom, d: CompleteDep) returns (f: Option<Failure>)
      ensures f == RevisionFailure(w, State(), a, d)
    {
      if !IsRevision(d.constraint) {
        return None;
      }
      var present := w.revisionPresent(d.ident, d.constraint.v.rev);
      if present {
        return None;
      }
      return Some(NonexistentRevision(Dependency(a, d), d.constraint.v.rev));
    }

    method CheckPackageImportsFromDepExist(a: Atom, d: CompleteDep) returns (f: Option<Failure>)
      ensures f == ImportsFailure(w, State(), a, d)
    {
      var selected := sel.SelectedFor(d.ident);
      if selected.None? {
        return None;
      }
      var o := ListPackages(w, selected.value.a.id, selected.value.a.v);
      if o.None? {
        return Some(PackagesUnavailable(selected.value.a));
      }
      var prob := CollectProblems(o.value, d.pl);
      if |prob| > 0 {
        return Some(DepProblemPackages(Dependency(a, d), selected.value.a.v, prob));
      }
      return None;
    }

    static method CollectProblems(ptree: PackageTree, pl: seq<Package>) returns (prob: map<Package, Option<string>>)
      ensures prob == Problems(ptree, pl)
    {
      prob := map[];
      for i := 0 to |pl|
        invariant prob == Problems(ptree, pl[..i])
      {
        assert pl[..i + 1] == pl[..i] + [pl[i]];
        if pl[i] !in ptree || ptree[pl[i]].Broken? {
          prob := prob[pl[i] := if pl[i] in ptree then Some(ptree[pl[i]].err) else None];
        }
      }
      assert pl[..|pl|] == pl;
    }

    /** The six checks check makes on each dependency. */
    method CheckDep(a: Atom, d: CompleteDep) returns (f: Option<Failure>)
      requires NoDup(vqs)
      modifies (set q <- vqs)`failed
      ensures f == DepFailure(w, State(), a, d)
      ensures Marked(w, Ids(vqs), old(Flags(vqs)), Flags(vqs), BlameOf(f))
    {
      hide Marked, Flags, IdentFailure, CaseFailure, ConstraintFailure, SelectedFailure, RevisionFailure, ImportsFailure;
      ghost var before := Flags(vqs);
      f := CheckIdentMatches(a, d);
      if f.Some? { return; }
      NothingMarked(w, Ids(vqs), before, Flags(vqs));
      f := CheckRootCaseConflicts(a, d);
      if f.Some? { return; }
      NothingMarked(w, Ids(vqs), before, Flags(vqs));
      f := CheckDepsConstraintsAllowable(a, d);
      if f.Some? { return; }
      NothingMarked(w, Ids(vqs), before, Flags(vqs));
      f := CheckDepsDisallowsSelected(a, d);
      if f.Some? { return; }
      f := CheckUnblamed(a, d);
    }

    /** The two checks whose failure blames nobody. */
    method CheckUnblamed(a: Atom, d: CompleteDep) returns (f: Option<Failure>)
      ensures f == FirstFailure(RevisionFailure(w, State(), a, d), ImportsFailure(w, State(), a, d))
      ensures BlameOf(f) == []
    {
      f := CheckRevisionExists(a, d);
      if f.None? {
        f := CheckPackageImportsFromDepExist(a, d);
      }
    }

    /** Lets the move through exactly when every requirement stays satisfied, and otherwise
        marks exactly the queues its failure blames. */
    method Check(awp: AtomWithPackages, pkgonly: bool) returns (f: Option<Failure>)
      requires NoDup(vqs)
      modifies (set q <- vqs)`failed
      ensures f.None? <==> CheckOk(w, State(), awp, pkgonly)
      ensures f.Some? ==> Explains(w, State(), awp, pkgonly, f.value)
      ensures Marked(w, Ids(vqs), old(Flags(vqs)), Flags(vqs), BlameOf(f))
    {
      hide Marked, Flags, CheckOk, DepFailure, AtomFailure, Imports;
      NoFailureIffCheckOk(w, State(), awp, pkgonly);
      ghost var before := Flags(vqs);
      NothingMarked(w, Ids(vqs), before, before);
      if !pkgonly {
        f := CheckAtomAllowable(awp.a);
        if f.Some? { return; }
        NothingMarked(w, Ids(vqs), before, Flags(vqs));
      }
      f := CheckRequiredPackagesExist(awp.a);
      if f.Some? { return; }
      var r, order := GetImportsAndConstraintsOf(w, awp);
      if r.ImportFailed? {
        return Some(ImportFailure(awp.a, r.err));
      }
      f := CheckDeps(awp.a, r.deps, order);
    }

    method CheckDeps(a: Atom, deps: Deps, order: seq<ProjectRoot>) returns (f: Option<Failure>)
      requires NoDup(vqs) && Listing(order, deps.Keys)
      modifies (set q <- vqs)`failed
      ensures f.None? <==> forall r <- deps :: DepFailure(w, State(), a, deps[r]).None?
      ensures f.Some? ==> exists r :: r in deps && DepFailure(w, State(), a, deps[r]) == f
      ensures Marked(w, Ids(vqs), old(Flags(vqs)), Flags(vqs), BlameOf(f))
    {
      hide Marked, Flags, DepFailure;
      ghost var before := Flags(vqs);
      NothingMarked(w, Ids(vqs), before, before);
      var i := 0;
      while i < |order|
        invariant 0 <= i <= |order| && Flags(vqs) == before
        invariant forall j :: 0 <= j < i ==> order[j] in deps && DepFailure(w, State(), a, deps[order[j]]).None?
      {
        assert order[i] in Elems(order);
        f := CheckDep(a, deps[order[i]]);
        if f.Some? { return; }
        NothingMarked(w, Ids(vqs), before, Flags(vqs));
        i := i + 1;
      }
      assert forall r <- deps :: r in Elems(order);
      return None;
    }

    // ---------------------------------------------------------------- selecting

    static method LockMap(lock: seq<LockedProject>) returns (lmap: map<ProjectIdentifier, Version>)
      ensures forall id :: LockedAt(lock, id) == if id in lmap then Some(lmap[id]) else None
    {
      lmap := map[];
      for i := 0 to |lock|
        invariant forall id :: LockedAt(lock[..i], id) == if id in lmap then Some(lmap[id]) else None
      {
        assert lock[..i + 1][..i] == lock[..i];
        lmap := lmap[lock[i].ident := lock[i].version];
      }
      assert lock[..|lock|] == lock;
    }

    /** The packages of a dependency that no earlier edge asks for. */
    method SolePackages(d: CompleteDep) returns (newp: seq<Package>)
      ensures newp == SoleImports(On(sel.deps, d.ident.root), d.pl)
    {
      var rpm := sel.GetRequiredPackagesIn(d.ident);
      newp := [];
      for i := 0 to |d.pl|
        invariant newp == SoleImports(On(sel.deps, d.ident.root), d.pl[..i])
      {
        assert d.pl[..i + 1][..i] == d.pl[..i];
        if d.pl[i] in rpm && rpm[d.pl[i]] == 1 {
          newp := newp + [d.pl[i]];
        }
      }
      assert d.pl[..|d.pl|] == d.pl;
    }

    /** The loop body of selectAtom: one edge, and work for what only it asks for. */
    method PushOneDep(a: Atom, d: CompleteDep, lmap: map<ProjectIdentifier, Version>)
      requires forall id :: LockedAt(w.lock(a.id, a.v), id) == if id in lmap then Some(lmap[id]) else None
      modifies sel`deps, sel`foldRoots, unsel
      ensures sel.deps == old(sel.deps)[d.ident.root := On(old(sel.deps), d.ident.root) + [Dependency(a, d)]]
      ensures sel.foldRoots == if On(old(sel.deps), d.ident.root) == [] then old(sel.foldRoots)[w.toFold(d.ident.root) := d.ident.root]
                               else old(sel.foldRoots)
      ensures var b := NewBmi(w, old(sel.deps), a, d);
              multiset(unsel.sl) == multiset(old(unsel.sl)) + if b.pl != [] then multiset{b} else multiset{}
    {
      sel.PushDep(w, Dependency(a, d));
      var newp := SolePackages(d);
      if |newp| > 0 {
        var id := sel.GetIdentFor(d.ident.root);
        unsel.Push(Bmi(id.value, newp, if d.ident in lmap then Some(lmap[d.ident]) else None, false));
      }
    }

    /** One turn of that loop; dependencies on the root project are skipped. */
    method PushNext(a: Atom, deps: Deps, r: ProjectRoot, lmap: map<ProjectIdentifier, Version>, ghost s: Core, ghost order: seq<ProjectRoot>)
      requires ValidDeps(w, deps) && r in deps && r !in Elems(order)
      requires forall id :: LockedAt(w.lock(a.id, a.v), id) == if id in lmap then Some(lmap[id]) else None
      requires Pushing(w, s, State(), a, deps, order)
      modifies sel`deps, sel`foldRoots, unsel
      ensures Pushing(w, s, State(), a, deps, if r == w.rootName then order else order + [r])
    {
      if r != w.rootName {
        assert ValidDep(w, r, deps[r]);
        ghost var before := State();
        PushOneDep(a, deps[r], lmap);
        PushingOne(w, s, before, State(), a, deps, order, r);
      }
    }

    method PushDeps(a: Atom, deps: Deps, all: seq<ProjectRoot>) returns (ghost order: seq<ProjectRoot>)
      requires ValidDeps(w, deps) && Listing(all, deps.Keys)
      modifies sel`deps, sel`foldRoots, unsel
      ensures Elems(order) == deps.Keys - {w.rootName}
      ensures Pushing(w, old(State()), State(), a, deps, order)
    {
      var lmap := LockMap(w.lock(a.id, a.v));
      PushingNone(w, State(), a, deps);
      for k := 0 to |all|
        invariant Pushing(w, old(State()), State(), a, deps, Live(w, all[..k]))
      {
        NextLive(w, all, k);
        PushNext(a, deps, all[k], lmap, old(State()), Live(w, all[..k]));
      }
      assert all[..|all|] == all;
      LiveElems(w, all);
      order := Live(w, all);
    }

    method SelectAtom(a: AtomWithPackages, pkgonly: bool) returns (ghost order: seq<ProjectRoot>)
      requires ValidWorld(w) && NoDup(a.pl) && CheckOk(w, State(), a, pkgonly)
      modifies sel, unsel
      ensures Selects(w, old(State()), State(), a, pkgonly, order)
    {
      unsel.Remove(a.a.id, a.pl);
      var r, all := GetImportsAndConstraintsOf(w, a);
      ImportsOfExtended(w, a.a, a.pl);
      sel.PushSelection(AtomWithPackages(a.a, r.pl), pkgonly);
      order := PushDeps(a.a, r.deps, all);
    }

    // ---------------------------------------------------------------- unselecting

    /** The loop body of unselectLast. */
    method PopOneDep(d: CompleteDep)
      requires On(sel.deps, d.ident.root) != []
      modifies sel`deps, sel`foldRoots, unsel
      ensures var es := On(old(sel.deps), d.ident.root);
              && sel.deps == old(sel.deps)[d.ident.root := es[..|es| - 1]]
              && sel.foldRoots == (if |es| == 1 then old(sel.foldRoots) - {w.toFold(d.ident.root)} else old(sel.foldRoots))
              && unsel.sl == if |es| == 1 then RemoveFirst(old(unsel.sl), d.ident, d.pl) else old(unsel.sl)
    {
      var _ := sel.PopDep(w, d.ident);
      if sel.DepperCount(d.ident) == 0 {
        unsel.Remove(d.ident, d.pl);
      }
    }

    /** One turn of that loop. */
    method PopNext(deps: Deps, r: ProjectRoot, ghost s: Core, ghost after: Edges, ghost order: seq<ProjectRoot>)
      requires ValidDeps(w, deps) && r in deps && r !in Elems(order)
      requires r != w.rootName ==> On(s.deps, r) != []
      requires after == DropEdges(s.deps, deps.Keys - {w.rootName}) && Popping(w, s, State(), after, deps, order)
      modifies sel`deps, sel`foldRoots, unsel
      ensures Popping(w, s, State(), after, deps, if r == w.rootName then order else order + [r])
    {
      if r != w.rootName {
        assert ValidDep(w, r, deps[r]);
        DropOneEdge(s.deps, Elems(order), r);
        OnDropEdges(s.deps, deps.Keys - {w.rootName}, r);
        ghost var before := State();
        PopOneDep(deps[r]);
        PoppingOne(w, s, before, State(), after, deps, order, r);
      }
    }

    method PopDeps(deps: Deps, all: seq<ProjectRoot>) returns (ghost order: seq<ProjectRoot>)
      requires ValidDeps(w, deps) && Listing(all, deps.Keys)
      requires forall r :: r in deps && r != w.rootName ==> On(sel.deps, r) != []
      modifies sel`deps, sel`foldRoots, unsel
      ensures Elems(order) == deps.Keys - {w.rootName}
      ensures Popping(w, old(State()), State(), DropEdges(old(sel.deps), deps.Keys - {w.rootName}), deps, order)
    {
      ghost var s, after := State(), DropEdges(sel.deps, deps.Keys - {w.rootName});
      PoppingNone(w, s, after, deps);
      hide Popping, DropEdges;
      for k := 0 to |all|
        invariant Popping(w, s, State(), after, deps, Live(w, all[..k]))
      {
        NextLive(w, all, k);
        PopNext(deps, all[k], s, after, Live(w, all[..k]));
      }
      assert all[..|all|] == all;
      LiveElems(w, all);
      order := Live(w, all);
    }

    method UnselectLast() returns (awp: AtomWithPackages, first: bool, ghost queue: seq<Bmi>, ghost order: seq<ProjectRoot>)
      requires ValidWorld(w) && Inv(w, State()) && |sel.projects| > 1
      modifies sel, unsel
      ensures old(sel.projects) == sel.projects + [Selected(awp, first)]
      ensures Unselects(w, old(State()), State(), queue, order)
    {
      ghost var s := State();
      assert EntryOk(w, s.projects[|s.projects| - 1]);
      awp, first := sel.PopSelection();
      unsel.Push(Bmi(awp.a.id, awp.pl, None, false));
      queue := unsel.sl;
      var r, all := GetImportsAndConstraintsOf(w, awp);
      PoppedEdgesExist(w, s);
      order := PopDeps(r.deps, all);
    }

    // ---------------------------------------------------------------- looking for a version

    method GetLockVersionIfValid(id: ProjectIdentifier) returns (v: Option<Version>, f: Option<Failure>)
      requires w.rootLock != map[]
      ensures f == if ChangeImpossible(w, id) then Some(MissingSource(id)) else None
      ensures f.None? ==> v == LockVersion(w, id)
    {
      var explicit := id.root in w.change;
      if explicit || w.changeAll {
        if w.sourceExists(id) {
          return None, None;
        }
        if explicit {
          return None, Some(MissingSource(id));
        }
      }
      if id.root !in w.rootLock {
        return None, None;
      }
      return Some(w.rootLock[id.root]), None;
    }

    method PreferredVersion(bmi: Bmi) returns (prefv: Option<Version>)
      ensures prefv == Preferred(w, State(), bmi)
    {
      if !bmi.fromRoot {
        return bmi.prefv;
      }
      prefv := None;
      var es := sel.GetDependenciesOn(bmi.id);
      for i := 0 to |es|
        invariant prefv == DependersLock(w, es[..i], bmi.id)
      {
        assert es[..i + 1][..i] == es[..i];
        var a := es[i].depender;
        if a.id.root == w.rootName {
          continue;
        }
        prefv := SearchLock(w.lock(a.id, a.v), bmi.id, prefv);
      }
      assert es[..|es|] == es;
    }

    static method SearchLock(lock: seq<LockedProject>, id: ProjectIdentifier, before: Option<Version>) returns (prefv: Option<Version>)
      ensures prefv == LastLocked(lock, id, before)
    {
      prefv := before;
      for j := 0 to |lock|
        invariant prefv == LastLocked(lock[..j], id, before)
      {
        assert lock[..j + 1][..j] == lock[..j];
        if lock[j].ident.Eq(id) {
          prefv := Some(lock[j].version);
        }
      }
      assert lock[..|lock|] == lock;
    }

    predicate Acceptable(id: ProjectIdentifier, v: Version, pl: seq<Package>)
      reads sel, unsel
    {
      CheckOk(w, State(), AtomWithPackages(Atom(id, v), pl), false)
    }

    /** The first queue of the project is marked, if it has one. */
    predicate Blamed(id: ProjectIdentifier)
      reads this`vqs, vqs`failed
    {
      var k := FirstQueue(Ids(vqs), id);
      id.root != w.rootName && k < |vqs| ==> vqs[k].failed
    }

    /** The rest of a queue is what it was but for the first tried versions, none acceptable. */
    ghost predicate PassedOver(id: ProjectIdentifier, pl: seq<Package>, before: seq<Version>, rest: seq<Version>, tried: nat)
      reads sel, unsel
    {
      tried <= |before| && rest == before[tried..] && forall i :: 0 <= i < tried ==> !Acceptable(id, before[i], pl)
    }

    /** Stops at the first acceptable version left on the queue; every version it passes over is
        unacceptable, and it gives up only when none is left. */
    method FindValidVersion(q: VersionQueue, pl: seq<Package>) returns (r: Search, ghost tried: nat)
      requires NoDup(vqs) && q.Valid()
      modifies q, (set v <- vqs)`failed
      ensures q.Valid() && |q.fails| >= |old(q.fails)|
      ensures tried <= |old(q.Rest(w))| && q.Rest(w) == old(q.Rest(w))[tried..]
      ensures forall i :: 0 <= i < tried ==> !Acceptable(q.id, old(q.Rest(w))[i], pl)
      ensures r.Found? ==> q.pi != [] && Acceptable(q.id, q.pi[0], pl) && q.failed == (old(q.failed) && tried == 0)
      ensures !r.Found? ==> q.Rest(w) == [] && (old(q.pi) != [] ==> tried == |old(q.Rest(w))|)
      ensures old(q.pi) != [] ==> Refusals(w, State(), q.id, pl, old(q.Rest(w))[..tried], q.fails[|old(q.fails)|..])
      ensures r == Crashed(NoVersions(q.id)) <==> old(q.pi) == []
      ensures r == Crashed(NoDepender(q.id)) <==> !r.Found? && old(q.pi) != [] && On(sel.deps, q.id.root) == []
      ensures r.Crashed? ==> r.c == NoVersions(q.id) || r.c == NoDepender(q.id)
      ensures r.Refused? ==> r.f == NoVersion(q.id, q.fails[|old(q.fails)|..])
      // who is blamed: by each version that failed, and in the end
      ensures MarkedBut(w, vqs, q, old(Flags(vqs)), Flags(vqs), AllBlame(q.fails[|old(q.fails)|..]) + LastBlame(r, q.id))
      // and then the search may go back to the project that first asked for this one
      ensures r.Refused? ==> On(sel.deps, q.id.root) != [] && Blamed(On(sel.deps, q.id.root)[0].depender.id)
    {
      hide CheckOk, MarkedBut, Flags, Refusals, Refusal;
      ghost var before := Flags(vqs);
      if q.Current().None? {
        MarkedNone(w, vqs, q, before);
        return Crashed(NoVersions(q.id)), 0;
      }
      var faillen := |q.fails|;
      var found;
      found, tried := FirstAcceptable(q, pl);
      FirstDoNotFit(w, State(), q.id, pl, old(q.Rest(w)), tried, q.fails[faillen..]);
      ghost var blamed, between := AllBlame(q.fails[faillen..]), Flags(vqs);
      assert blamed + [] == blamed;
      if found {
        return Found, tried;
      }
      r := BlameFirstDepender(q.id, q.fails[faillen..]);
      MarkedAll(w, vqs, q, between, Flags(vqs), LastBlame(r, q.id));
      MarkedMore(w, vqs, q, before, between, Flags(vqs), blamed, LastBlame(r, q.id));
    }

    /** When no version is left, the project that first asked for this one is blamed. */
    function LastBlame(r: Search, id: ProjectIdentifier): seq<ProjectIdentifier>
      reads sel
    {
      if r.Refused? && On(sel.deps, id.root) != [] then [On(sel.deps, id.root)[0].depender.id] else []
    }

    /** The loop of findValidVersion. */
    method FirstAcceptable(q: VersionQueue, pl: seq<Package>) returns (found: bool, ghost tried: nat)
      requires NoDup(vqs) && q.Valid() && q.pi != []
      modifies q, (set v <- vqs)`failed
      ensures q.Valid() && |q.fails| >= |old(q.fails)|
      ensures MarkedBut(w, vqs, q, old(Flags(vqs)), Flags(vqs), AllBlame(q.fails[|old(q.fails)|..]))
      ensures tried <= |old(q.Rest(w))| && q.Rest(w) == old(q.Rest(w))[tried..]
      ensures found ==> q.pi != [] && Acceptable(q.id, q.pi[0], pl) && q.failed == (old(q.failed) && tried == 0)
      ensures !found ==> q.Rest(w) == [] && tried == |old(q.Rest(w))|
      ensures Refusals(w, State(), q.id, pl, old(q.Rest(w))[..tried], q.fails[|old(q.fails)|..])
    {
      hide CheckOk, MarkedBut, Flags, AllBlame, Refusal, Refusals;
      tried := 0;
      ghost var n, before := |q.fails|, Flags(vqs);
      NoRefusals(w, State(), q.id, pl, q.Rest(w), q.fails, n);
      MarkedNone(w, vqs, q, before);
      NoBlame(q.fails[n..]);
      while true
        invariant q.Valid() && q.pi != [] && |q.fails| >= n
        invariant MarkedBut(w, vqs, q, before, Flags(vqs), AllBlame(q.fails[n..]))
        invariant tried <= |old(q.Rest(w))| && q.Rest(w) == old(q.Rest(w))[tried..]
        invariant Refusals(w, State(), q.id, pl, old(q.Rest(w))[..tried], q.fails[n..])
        invariant q.failed == (old(q.failed) && tried == 0)
        decreases |q.Rest(w)|
      {
        assert q.pi[0] == old(q.Rest(w))[tried];
        ghost var fails, flags := q.fails, Flags(vqs);
        var more;
        found, more := TryCurrent(q, pl);
        MarkedByMore(w, vqs, q, before, flags, Flags(vqs), fails, q.fails, n);
        if found {
          return;
        }
        RefusedMore(w, State(), q.id, pl, old(q.Rest(w)), tried, fails, q.fails, n);
        tried := tried + 1;
        if !more {
          return;
        }
      }
    }

    /** No version is left: the failure is put on the project that first asked for this one. */
    method BlameFirstDepender(id: ProjectIdentifier, fails: seq<FailedVersion>) returns (r: Search)
      requires NoDup(vqs)
      modifies (set v <- vqs)`failed
      ensures r == if On(sel.deps, id.root) == [] then Crashed(NoDepender(id)) else Refused(NoVersion(id, fails))
      ensures r.Refused? ==> Blamed(On(sel.deps, id.root)[0].depender.id)
      ensures Marked(w, Ids(vqs), old(Flags(vqs)), Flags(vqs), LastBlame(r, id))
    {
      var deps := sel.GetDependenciesOn(id);
      if |deps| == 0 {
        return Crashed(NoDepender(id));
      }
      Fail(deps[0].depender.id);
      HitPush(w, Ids(vqs), [], deps[0].depender.id);
      assert [] + [deps[0].depender.id] == [deps[0].depender.id];
      return Refused(NoVersion(id, fails));
    }

    /** The body of that loop: check the current version, and advance past it if it fails. */
    method TryCurrent(q: VersionQueue, pl: seq<Package>) returns (found: bool, more: bool)
      requires NoDup(vqs) && q.Valid() && q.pi != []
      modifies q, (set v <- vqs)`failed
      ensures q.Valid() && Grows(old(q.fails), q.fails)
      ensures MarkedBut(w, vqs, q, old(Flags(vqs)), Flags(vqs), NewBlame(old(q.fails), q.fails))
      ensures found <==> Acceptable(q.id, old(q.pi[0]), pl)
      ensures found ==> q.pi == old(q.pi) && q.Rest(w) == old(q.Rest(w)) && q.fails == old(q.fails) && q.failed == old(q.failed)
      ensures !found ==> q.Rest(w) == old(q.Rest(w))[1..] && if more then q.pi != [] && !q.failed else q.Rest(w) == []
      ensures !found ==> exists x :: Refusal(w, State(), q.id, pl, old(q.pi[0]), x) && q.fails == old(q.fails) + [x]
    {
      hide CheckOk, Marked, Explains, MarkedBut;
      ghost var before, fails := Flags(vqs), q.fails;
      var f := Check(AtomWithPackages(Atom(q.id, q.pi[0]), pl), false);
      ghost var after := Flags(vqs);
      MarkedAll(w, vqs, q, before, after, BlameOf(f));
      if f.None? {
        NothingMarked(w, Ids(vqs), before, after);
        return true, true;
      }
      assert Refusal(w, State(), q.id, pl, q.pi[0], FailedVersion(q.pi[0], f));
      var ok := q.Advance(w, f);
      MarkedOwn(w, vqs, q, before, after, Flags(vqs), BlameOf(f));
      return false, ok && !q.IsExhausted();
    }

    /** The fresh queue for a work item, holding its lock, preferred and listed versions. */
    method FreshQueue(bmi: Bmi) returns (q: VersionQueue?, f: Option<Failure>)
      ensures q == null <==> f.Some?
      ensures f == QueueFailure(w, State(), bmi)
      ensures q != null ==> fresh(q) && q.Valid() && q.id == bmi.id && q.fails == [] && !q.failed
      ensures q != null ==> q.Rest(w) == Offer(w, bmi.id, RootLockVersion(w, bmi.id), Preferred(w, State(), bmi))
      // the locked version comes first, unless the project is to change
      ensures q != null && Held(w, bmi.id) ==> q.Rest(w) != [] && q.Rest(w)[0] == w.rootLock[bmi.id.root]
      ensures q != null && !Held(w, bmi.id) ==>
                q.Rest(w) == Given(Preferred(w, State(), bmi)) + Unlisted(VersionQueues.Listed(w, bmi.id), None, Preferred(w, State(), bmi))
      ensures q != null && q.pi == [] ==> w.versions(bmi.id) == Some([])
      ensures (w.sourceExists(bmi.id) || w.vendorExists(bmi.id)) && !ChangeImpossible(w, bmi.id) && w.versions(bmi.id).Some? ==> q != null
    {
      hide Preferred;
      LockVersionIs(w, bmi.id);
      var id := bmi.id;
      if !w.sourceExists(id) && !w.vendorExists(id) {
        return null, Some(NotLocated(id));
      }
      var lockv: Option<Version> := None;
      if |w.rootLock| > 0 {
        lockv, f := GetLockVersionIfValid(id);
        if f.Some? {
          return null, f;
        }
      }
      var prefv := PreferredVersion(bmi);
      q := NewVersionQueue(w, id, lockv, prefv);
      f := if q == null then Some(VersionsUnavailable(id)) else None;
    }

    /** Revisions are not listed, so one that the dependers demand goes in at the front. */
    method PushRevision(q: VersionQueue) returns (ok: bool)
      requires q.Valid()
      modifies q
      ensures q.Valid() && q.fails == old(q.fails) && q.failed == old(q.failed)
      ensures ok <==> !IsRevision(Composite(w, sel.deps, q.id.root)) || old(q.pi) != []
      ensures ok ==> q.Rest(w) == RevisionFirst(Composite(w, sel.deps, q.id.root), old(q.Rest(w)))
      ensures !ok ==> q.Rest(w) == old(q.Rest(w)) == []
      ensures ok && old(q.pi) != [] ==> q.pi != []
      ensures ok && old(q.pi) == [] ==> q.pi == []
    {
      var tc := sel.GetConstraint(w, q.id);
      if IsRevision(tc) {
        if |q.pi| == 0 {
          return false;
        }
        if q.pi[0] != tc.v {
          q.pi := [tc.v] + q.pi;
          assert q.Rest(w) == [tc.v] + old(q.Rest(w));
        }
      }
      return true;
    }

    /** The queue of a project to be selected, with everything there is to try; or why there is
        none. */
    method AssembleQueue(bmi: Bmi) returns (q: VersionQueue?, r: Option<Search>)
      ensures q == null <==> QueueFailure(w, State(), bmi).Some?
      ensures q == null ==> r == Some(Refused(QueueFailure(w, State(), bmi).value))
      ensures q != null ==> fresh(q) && q.Valid() && q.id == bmi.id && q.fails == [] && !q.failed && (r.None? || r == Some(Crashed(NoVersions(bmi.id))))
      ensures q != null ==> q.Rest(w) == Candidates(w, State(), bmi)
      ensures q != null && r.Some? ==> q.Rest(w) == [] && w.versions(bmi.id) == Some([])
      ensures q != null && q.pi == [] ==> w.versions(bmi.id) == Some([])
      ensures Stranded(w, State(), bmi) ==> q != null && r.None? && q.pi != []
    {
      hide CheckOk, Preferred, Offer, LockVersion, Stranded, ChangeImpossible, QueueFailure;
      if Stranded(w, State(), bmi) { StrandedIsSearched(w, State(), bmi); }
      var f;
      q, f := FreshQueue(bmi);
      if q == null {
        return null, Some(Refused(f.value));
      }
      var ok := PushRevision(q);
      r := if ok then None else Some(Crashed(NoVersions(q.id)));
    }

    /** The queue of a project to be selected, advanced to its first acceptable version. */
    method CreateVersionQueue(bmi: Bmi) returns (q: VersionQueue?, r: Search, ghost tried: nat)
      requires ValidWorld(w) && NoDup(vqs) && bmi.id.root != w.rootName
      modifies (set v <- vqs)`failed
      ensures q == null <==> QueueFailure(w, State(), bmi).Some?
      ensures q == null ==> r == Refused(QueueFailure(w, State(), bmi).value)
      ensures q != null ==> fresh(q) && q.Valid() && q.id == bmi.id
      ensures r.Found? ==> q != null && q.pi != [] && Acceptable(bmi.id, q.pi[0], bmi.pl) && !q.failed
      ensures r.Found? ==> Finds(w, State(), bmi.id, bmi.pl, Candidates(w, State(), bmi), tried, q.fails)
      ensures r.Refused? && q != null ==> r.f == NoVersion(bmi.id, q.fails) && q.fails != []
      ensures r.Refused? && q != null ==> FindsNone(w, State(), bmi.id, bmi.pl, Candidates(w, State(), bmi), q.fails)
      ensures q != null ==> Searched(State(), bmi, q.Rest(w), r, tried)
      ensures r.Crashed? ==> r.c.id == bmi.id && Empty(w, State(), r.c)
      ensures Stranded(w, State(), bmi) ==> r == Crashed(NoDepender(bmi.id))
      ensures Marked(w, Ids(vqs), old(Flags(vqs)), Flags(vqs), if q == null then [] else AllBlame(q.fails) + LastBlame(r, bmi.id))
    {
      hide CheckOk, Candidates, Stranded, Marked, MarkedBut, Flags, Refusal, QueueFailure;
      ghost var flags := Flags(vqs);
      NothingMarked(w, Ids(vqs), flags, flags);
      var early;
      q, early := AssembleQueue(bmi);
      assert AllBlame([]) + [] == [];
      tried := 0;
      if early.Some? {
        return q, early.value, 0;
      }
      if Stranded(w, State(), bmi) { StrandedIsSearched(w, State(), bmi); }
      r, tried := FindValidVersion(q, bmi.pl);
      assert q.fails[0..] == q.fails;
      FreshMarks(w, vqs, q, flags, Flags(vqs), AllBlame(q.fails) + LastBlame(r, q.id));
      if Stranded(w, State(), bmi) && r.Found? {
        StrandedFails(w, State(), bmi, tried);
      }
    }

    /** tried candidates were unacceptable; unless one was found these were all of them. */
    ghost predicate Searched(s: Core, bmi: Bmi, rest: seq<Version>, r: Search, tried: nat) {
      var all := Candidates(w, s, bmi);
      && tried <= |all| && rest == all[tried..]
      && (!r.Found? ==> tried == |all|)
      && forall i :: 0 <= i < tried ==> !CheckOk(w, s, AtomWithPackages(Atom(bmi.id, all[i]), bmi.pl), false)
    }

    // ---------------------------------------------------------------- backtracking

    /** The state arises in a run, and the queues qs stand one for one on the projects opened
        above the root. */
    ghost predicate Aligned(qs: seq<VersionQueue>)
      reads sel, unsel, qs`pi, qs`allLoaded, qs`adverr
    {
      && ValidWorld(w) && Arises(w, State())
      && QueuesOk(w, qs)
      && Firsts(sel.projects) == [RootAtom(w)] + Tops(qs)
    }

    /** What holds between two turns of the main loop. */
    ghost predicate Valid()
      reads this`vqs, sel, unsel, vqs`pi, vqs`allLoaded, vqs`adverr
    {
      Aligned(vqs)
    }

    /** unselectLast, seen from outside. */
    method UnselectOne() returns (awp: AtomWithPackages, first: bool)
      requires ValidWorld(w) && Arises(w, State()) && |sel.projects| > 1
      modifies sel, unsel
      ensures Arises(w, State()) && old(sel.projects) == sel.projects + [Selected(awp, first)]
      ensures first ==> old(Firsts(sel.projects)) == Firsts(sel.projects) + [awp.a] && Reopens(w, State(), awp)
      ensures !first ==> old(Firsts(sel.projects)) == Firsts(sel.projects)
    {
      ghost var s := State();
      ArisingInv(w, s);
      ghost var queue, order;
      awp, first, queue, order := UnselectLast();
      UnselectedStep(w, s, State(), queue, order, Selected(awp, first));
      FirstsOfPush(sel.projects, Selected(awp, first));
    }

    /** Undoes selections up to and including the last opened project. */
    method UnselectToProject(ghost below: seq<Atom>, ghost top: Atom) returns (awp: AtomWithPackages)
      requires ValidWorld(w) && Arises(w, State())
      requires below != [] && Firsts(sel.projects) == below + [top]
      modifies sel, unsel
      ensures Arises(w, State()) && Firsts(sel.projects) == below
      ensures awp.a == top && Reopens(w, State(), awp)
      ensures sel.projects == UpTo(old(sel.projects), |below|)
      ensures |sel.projects| < |old(sel.projects)| && awp == old(sel.projects)[|sel.projects|].a
    {
      hide Arises, Due, ValidWorld, Reopens, Tops, Lefts, Flags, UpTo;
      var proj := false;
      awp := AtomWithPackages(RootAtom(w), []);
      while !proj
        invariant Arises(w, State())
        invariant Firsts(sel.projects) == if proj then below else below + [top]
        invariant proj ==> awp.a == top && Reopens(w, State(), awp)
        invariant UpTo(sel.projects, |below|) == UpTo(old(sel.projects), |below|)
        invariant |sel.projects| <= |old(sel.projects)| && sel.projects == old(sel.projects)[..|sel.projects|]
        invariant proj ==> |sel.projects| < |old(sel.projects)| && awp == old(sel.projects)[|sel.projects|].a
        decreases |sel.projects|
      {
        FirstsFit(sel.projects);
        ghost var all := sel.projects;
        awp, proj := UnselectOne();
        UpToPush(sel.projects, Selected(awp, proj), |below|);
        assert all[|sel.projects|] == Selected(awp, proj);
        if proj {
          SameEnds(Firsts(sel.projects), awp.a, below, top);
        }
      }
    }

    method DropLast()
      requires Valid() && vqs != []
      modifies this`vqs, sel, unsel
      ensures Valid() && vqs == old(vqs)[..|old(vqs)| - 1]
      ensures Standing(w, vqs) == old(Standing(w, vqs))[..|vqs|] && sel.projects == UpTo(old(sel.projects), |vqs| + 1)
    {
      hide Arises, Due, ValidWorld, Reopens, Tops, Lefts, Flags, Standing, UpTo;
      InitQueues(w, vqs);
      StandingInit(vqs);
      ghost var top := Tops(vqs)[|vqs| - 1];
      vqs := vqs[..|vqs| - 1];
      var _ := UnselectToProject([RootAtom(w)] + Tops(vqs), top);
    }

    lemma StandingInit(qs: seq<VersionQueue>)
      requires qs != []
      ensures Standing(w, qs)[..|qs| - 1] == Standing(w, qs[..|qs| - 1]) && Standing(w, qs)[|qs| - 1] == Seen(qs[|qs| - 1])
    {
      var init, q := qs[..|qs| - 1], qs[|qs| - 1];
      assert Rests(w, qs) == Rests(w, init) + [(q.id, q.Rest(w))] && Flags(qs) == Flags(init) + [q.failed];
    }

    /** What is left after giving up some of the queues v, with these projects selected. */
    ghost predicate Fallen(projects: seq<Selected>, v: seq<Queue>, log: seq<Drop>)
      reads this`vqs, sel, vqs`pi, vqs`allLoaded, vqs`failed
    {
      Falls(w, projects, v, log, Standing(w, vqs)) && sel.projects == UpTo(projects, |vqs| + 1)
    }

    method DropUnmarked(ghost projects: seq<Selected>, ghost v: seq<Queue>, ghost log: seq<Drop>) returns (ghost more: seq<Drop>)
      requires Valid() && vqs != [] && !vqs[|vqs| - 1].failed && Fallen(projects, v, log)
      modifies this`vqs, sel, unsel
      ensures Valid() && vqs == old(vqs)[..|old(vqs)| - 1]
      ensures Fallen(projects, v, more)
    {
      hide Valid, Aligned, Lefts, Standing, UpTo, Falls;
      ghost var u, n := Standing(w, vqs), |vqs|;
      StandingInit(vqs);
      DropLast();
      UnmarkedFalls(w, projects, u);
      FallsConcat(w, projects, v, log, u, [Unmarked], u[..n - 1]);
      UpToTwice(projects, n + 1, n);
      more := log + [Unmarked];
    }

    /** The inner loop of backtrack: drop projects whose queue nobody blamed. */
    method SkipUnfailed(ghost projects: seq<Selected>, ghost v: seq<Queue>, ghost log: seq<Drop>) returns (cancelled: bool, ghost more: seq<Drop>)
      requires Valid() && Fallen(projects, v, log)
      modifies this`vqs, this`asked, sel, unsel
      ensures Valid() && Fallen(projects, v, more)
      ensures |vqs| <= |old(vqs)| && vqs == old(vqs)[..|vqs|]
      ensures forall i :: |vqs| <= i < |old(vqs)| ==> !old(vqs)[i].failed
      ensures !cancelled ==> vqs == [] || vqs[|vqs| - 1].failed
      ensures if cancelled then Stopped(old(asked)) else Going(old(asked))
    {
      hide Aligned, Lefts, Standing, Fallen, Going, Stopped;
      more := log;
      NotAsked();
      while true
        invariant Valid() && |vqs| <= |old(vqs)| && vqs == old(vqs)[..|vqs|]
        invariant forall i :: |vqs| <= i < |old(vqs)| ==> !old(vqs)[i].failed
        invariant Going(old(asked)) && Fallen(projects, v, more)
        decreases |vqs|
      {
        var stop := AskDone(old(asked));
        if stop {
          return true, more;
        }
        if |vqs| == 0 || vqs[|vqs| - 1].failed {
          return false, more;
        }
        more := DropUnmarked(projects, v, more);
      }
    }

    /** Giving up more. */
    lemma FallenFurther(projects: seq<Selected>, v: seq<Queue>, log: seq<Drop>, mids: seq<Selected>, u: seq<Queue>, more: seq<Drop>)
      requires Falls(w, projects, v, log, u) && mids == UpTo(projects, |u| + 1) && Fallen(mids, u, more)
      ensures Fallen(projects, v, log + more)
    {
      hide Standing, UpTo, Falls;
      FallsShorter(w, mids, u, more, Standing(w, vqs));
      FallsFurther(w, projects, |u| + 1, u, more, Standing(w, vqs));
      FallsConcat(w, projects, v, log, u, more, Standing(w, vqs));
      UpToTwice(projects, |u| + 1, |vqs| + 1);
    }

    lemma NothingFallen() returns (log: seq<Drop>)
      requires Valid()
      ensures log == [] && Fallen(sel.projects, Standing(w, vqs), log)
    {
      hide Standing;
      AllUpTo();
      log := [];
    }

    /** There are no projects but the root and those the queues stand for. */
    lemma AllUpTo()
      requires Valid()
      ensures UpTo(sel.projects, |vqs| + 1) == sel.projects
    {
      hide Arises, ValidWorld, QueuesOk, Tops;
    }

    /** The backtrack window: the project of the last queue is not selected. */
    ghost predicate Suspended()
      reads this`vqs, sel, unsel, vqs`pi, vqs`allLoaded, vqs`adverr
    {
      vqs != [] && NoDup(vqs) && vqs[|vqs| - 1].Valid() && Aligned(vqs[..|vqs| - 1])
    }

    method OpenLast() returns (awp: AtomWithPackages)
      requires Valid() && vqs != []
      modifies sel, unsel
      ensures Suspended() && Reopens(w, State(), awp)
      // the canary: the queue and the selection belong together
      ensures awp.a == Atom(vqs[|vqs| - 1].id, vqs[|vqs| - 1].pi[0])
      ensures Below(w, old(sel.projects), |vqs|, State()) && awp == old(sel.projects)[|sel.projects|].a
    {
      hide Arises, Due, ValidWorld, Reopens, Tops, Lefts, Flags, UpTo;
      InitQueues(w, vqs);
      awp := UnselectToProject([RootAtom(w)] + Tops(vqs[..|vqs| - 1]), Tops(vqs)[|vqs| - 1]);
    }

    lemma AlignedQueues(qs: seq<VersionQueue>)
      requires Aligned(qs)
      ensures QueuesOk(w, qs)
    {
    }

    method ReselectLast(q: VersionQueue, awp: AtomWithPackages) returns (ghost order: seq<ProjectRoot>)
      requires Suspended() && q == vqs[|vqs| - 1] && Reopens(w, State(), awp)
      requires q.pi != [] && |q.Rest(w)| <= w.maxVersions + 3
      requires awp.a.id == q.id && Acceptable(q.id, q.pi[0], awp.pl)
      modifies sel, unsel
      ensures Valid()
      ensures Selects(w, old(State()), State(), AtomWithPackages(Atom(q.id, q.pi[0]), awp.pl), false, order)
    {
      hide Arises, Due, ValidWorld, CheckOk, Tops, Lefts, Flags, Selects;
      AlignedQueues(vqs[..|vqs| - 1]);
      LastQueue(w, vqs, q);
      order := OpenProject(AtomWithPackages(Atom(q.id, q.pi[0]), awp.pl));
    }

    /** The queues below the last one. */
    ghost function Others(): seq<VersionQueue>
      requires vqs != []
      reads this`vqs
    {
      vqs[..|vqs| - 1]
    }

    method AdvanceLast(q: VersionQueue) returns (ok: bool)
      requires Suspended() && q == vqs[|vqs| - 1] && q.pi != []
      modifies q
      ensures Suspended()
      ensures Standing(w, Others()) == old(Standing(w, Others()))
      ensures old(q.Rest(w)) != [] && q.Rest(w) == old(q.Rest(w))[1..]
      ensures if ok && !q.IsExhausted() then q.pi != [] && !q.failed else q.Rest(w) == []
    {
      hide ValidWorld, Arises, Due, Tops, Lefts, Flags, Standing;
      assert forall i :: 0 <= i < |vqs| - 1 ==> vqs[i] != q && vqs[i] in Others();
      ghost var tops := Tops(Others());
      ok := q.Advance(w, None);
      assert Tops(Others()) == tops;
    }

    /** findValidVersion on the last queue, with the marks it leaves on the others. */
    method SearchLast(q: VersionQueue, pl: seq<Package>) returns (r: Search, ghost tried: nat, ghost fails: seq<FailedVersion>)
      requires vqs != [] && NoDup(vqs) && q == vqs[|vqs| - 1] && q.Valid() && q.pi != [] && !q.failed
      modifies q, (set v <- vqs)`failed
      ensures q.Valid() && PassedOver(q.id, pl, old(q.Rest(w)), q.Rest(w), tried) && (!r.Found? ==> q.Rest(w) == [])
      ensures r.Found? ==> q.pi != [] && Acceptable(q.id, q.pi[0], pl)
      ensures r.Found? ==> MovesOn(w, State(), pl, old(q.Rest(w)), old(Standing(w, Others())), Seen(q), Standing(w, Others()), tried, fails)
      ensures r.Refused? ==> RunsDry(w, State(), q.id, pl, old(q.Rest(w)), old(Standing(w, Others())), Standing(w, Others()), fails)
      ensures r.Crashed? ==> r.c == NoDepender(q.id) && On(sel.deps, q.id.root) == []
    {
      hide CheckOk, Flags, Rests, Zip, MarkedBut, Marked, Marking, Refusal, AllBlame;
      ghost var n, flags, rests, inits := |q.fails|, Flags(vqs), Rests(w, Others()), Flags(Others());
      assert forall i :: 0 <= i < |vqs| - 1 ==> vqs[i] != q && vqs[i] in Others();
      FlagsInit(vqs);
      ghost var v := q.Rest(w);
      r, tried := FindValidVersion(q, pl);
      fails := q.fails[n..];
      FlagsInit(vqs);
      assert Rests(w, Others()) == rests;
      ghost var blamed := AllBlame(fails) + LastBlame(r, q.id);
      InitMarked(w, vqs, q, flags, Flags(vqs), blamed);
      MarksAre(w, Others(), rests, inits, blamed);
      assert AllBlame(fails) + [] == AllBlame(fails);
      assert v[..|v|] == v && q.Rest(w) == v[tried..];
      if r.Found? { assert q.Rest(w)[0] == q.pi[0] == v[tried]; }
    }

    method FindOnLast(q: VersionQueue, pl: seq<Package>) returns (r: Search, ghost tried: nat, ghost fails: seq<FailedVersion>)
      requires Suspended() && q == vqs[|vqs| - 1] && q.pi != [] && !q.failed
      modifies q, (set v <- vqs)`failed
      ensures Suspended()
      ensures PassedOver(q.id, pl, old(q.Rest(w)), q.Rest(w), tried) && (!r.Found? ==> q.Rest(w) == [])
      ensures r.Found? ==> q.pi != [] && Acceptable(q.id, q.pi[0], pl)
      ensures r.Found? ==> MovesOn(w, State(), pl, old(q.Rest(w)), old(Standing(w, Others())), Seen(q), Standing(w, Others()), tried, fails)
      ensures r.Refused? ==> RunsDry(w, State(), q.id, pl, old(q.Rest(w)), old(Standing(w, Others())), Standing(w, Others()), fails)
      ensures r.Crashed? ==> r.c == NoDepender(q.id) && On(sel.deps, q.id.root) == []
    {
      hide CheckOk, ValidWorld, Arises, Due, Tops, Lefts, Flags, Standing, MovesOn, RunsDry;
      assert forall i :: 0 <= i < |vqs| - 1 ==> vqs[i] != q && vqs[i] in Others();
      ghost var tops := Tops(Others());
      r, tried, fails := SearchLast(q, pl);
      assert Tops(Others()) == tops;
    }

    /** Advances past the current version, which is known to be bad, and searches the rest. */
    method SearchOn(q: VersionQueue, pl: seq<Package>) returns (r: Search, ghost tried: nat, ghost fails: seq<FailedVersion>)
      requires Suspended() && q == vqs[|vqs| - 1] && q.pi != []
      modifies vqs
      ensures Suspended() && |q.Rest(w)| < old(|q.Rest(w)|)
      // no acceptable version is passed over, and the search gives up only when none is left
      ensures PassedOver(q.id, pl, old(q.Rest(w))[1..], q.Rest(w), tried) && (!r.Found? ==> q.Rest(w) == [])
      ensures r.Found? ==> q.pi != [] && Acceptable(q.id, q.pi[0], pl)
      ensures r.Found? ==> MovesOn(w, State(), pl, old(q.Rest(w))[1..], old(Standing(w, Others())), Seen(q), Standing(w, Others()), tried, fails)
      ensures r.Refused? ==> RunsDry(w, State(), q.id, pl, old(q.Rest(w))[1..], old(Standing(w, Others())), Standing(w, Others()), fails)
      ensures r.Crashed? ==> r.c == NoDepender(q.id) && On(sel.deps, q.id.root) == []
    {
      hide Acceptable, NoDup, Standing, MovesOn, Marking;
      hide CheckOk, Aligned, Tops, Lefts, Flags, Lowered;
      ghost var v := Standing(w, Others());
      var ok := AdvanceLast(q);
      r, tried, fails := Refused(NoVersion(q.id, [])), 0, [];
      NothingMarking(w, v);
      if ok && !q.IsExhausted() {
        r, tried, fails := FindOnLast(q, pl);
      }
    }

    /** Moves the last queue on to its next acceptable version and selects that. */
    method TryNext(q: VersionQueue, awp: AtomWithPackages) returns (r: Search, ghost k: nat, ghost fails: seq<FailedVersion>, ghost order: seq<ProjectRoot>)
      requires vqs != [] && Suspended() && q == vqs[|vqs| - 1] && q.pi != [] && |q.Rest(w)| <= w.maxVersions + 3
      requires Reopens(w, State(), awp) && awp.a.id == q.id
      modifies sel, unsel, vqs
      ensures if r.Found? then Valid() else Suspended()
      ensures r.Crashed? ==> r.c == NoDepender(q.id) && On(sel.deps, q.id.root) == []
      ensures !r.Found? ==> State() == old(State())
      ensures r.Found? ==> MovesOn(w, old(State()), awp.pl, old(q.Rest(w))[1..], old(Standing(w, Others())), Seen(q), Standing(w, Others()), k, fails)
      ensures r.Found? ==> q.Rest(w) != [] && Selects(w, old(State()), State(), AtomWithPackages(Atom(q.id, q.Rest(w)[0]), awp.pl), false, order)
      ensures r.Refused? ==> RunsDry(w, State(), q.id, awp.pl, old(q.Rest(w))[1..], old(Standing(w, Others())), Standing(w, Others()), fails)
    {
      hide Suspended, Valid, Reopens, Acceptable, Lefts, Lowered, On, Standing, MovesOn, RunsDry, Selects, PassedOver;
      ghost var s := State();
      r, k, fails := SearchOn(q, awp.pl);
      assert State() == s;
      order := [];
      if r.Found? {
        order := ReselectLast(q, awp);
        assert q.Rest(w)[0] == q.pi[0];
      }
    }

    /** The project of the last queue, which is marked, was just unselected; v are the queues, and
        projects was the stack when the search began to go back. */
    ghost predicate Reopened(q: VersionQueue, awp: AtomWithPackages, projects: seq<Selected>, v: seq<Queue>)
      reads this`vqs, sel, unsel, vqs`pi, vqs`allLoaded, vqs`adverr, vqs`failed, q
    {
      && vqs != [] && Suspended() && q == vqs[|vqs| - 1] && q.pi != [] && |q.Rest(w)| <= w.maxVersions + 3
      && Reopens(w, State(), awp) && awp.a.id == q.id
      && Below(w, projects, |vqs|, State()) && |sel.projects| < |projects| && awp == projects[|sel.projects|].a
      && |v| == |vqs| && v[..|v| - 1] == Standing(w, Others()) && v[|v| - 1] == Queue(q.id, q.Rest(w), true)
    }

    /** The second half of RetryLast. */
    method RetryReopened(q: VersionQueue, awp: AtomWithPackages, ghost projects: seq<Selected>, ghost v: seq<Queue>) returns (r: Search, ghost step: Return)
      requires Reopened(q, awp, projects, v)
      modifies sel, unsel, vqs
      ensures if r.Found? then Valid() else Suspended()
      ensures vqs != []
      ensures r.Crashed? ==> r.c == NoDepender(q.id) && On(sel.deps, q.id.root) == []
      ensures !r.Found? ==> State() == old(State())
      ensures r.Found? ==> step.left == v && Retries(w, projects, v, step.mid, step.k, step.fails, step.order, Now())
      ensures r.Refused? ==> Falls(w, projects, v, step.log, Standing(w, Others()))
    {
      hide Valid, Suspended, Reopens, CheckOk, Lefts, Lowered, On, Standing, MovesOn, RunsDry, Selects, Below, Falls, Retries;
      ghost var mid := State();
      ghost var k, fails, order;
      LastRest(q);
      r, k, fails, order := TryNext(q, awp);
      step := Return([Spent(mid, fails)], v, mid, k, fails, order);
      if r.Found? {
        StandingInit(vqs);
        RetriesIs(w, projects, v, mid, awp.pl, k, fails, order, Seen(q), Standing(w, Others()), Now());
      } else if r.Refused? {
        SpentIs(w, projects, v, mid, awp.pl, fails, Standing(w, Others()));
      }
    }

    lemma LastRest(q: VersionQueue)
      requires q.pi != []
      ensures q.Rest(w) != []
    {
    }

    method ReopenLast(q: VersionQueue) returns (awp: AtomWithPackages)
      requires Valid() && vqs != [] && q == vqs[|vqs| - 1] && q.failed
      modifies sel, unsel
      ensures Reopened(q, awp, old(sel.projects), old(Standing(w, vqs))) && Due(State(), q.id, awp.pl)
    {
      hide Due, Valid, Suspended, Reopens, Lefts, Standing, Below;
      ghost var projects := sel.projects;
      LastIsShort();
      StandingInit(vqs);
      awp := OpenLast();
      BelowUpTo(w, projects, |vqs|, State());
      ReopeningIsDue(w, State(), awp);
    }

    /** Reopens the last project at the next version of its queue that is acceptable, or drops
        its queue, no later version being acceptable. */
    method RetryLast() returns (r: Search, ghost step: Return)
      requires Valid() && vqs != [] && vqs[|vqs| - 1].failed
      modifies this`vqs, sel, unsel, vqs
      ensures r.Found? ==> Valid() && vqs == old(vqs)
      ensures r.Found? ==> step.left == old(Standing(w, vqs))
      ensures r.Found? ==> Retries(w, old(sel.projects), old(Standing(w, vqs)), step.mid, step.k, step.fails, step.order, Now())
      ensures r.Refused? ==> Valid() && vqs == old(vqs)[..|old(vqs)| - 1]
      ensures r.Refused? ==> Fallen(old(sel.projects), old(Standing(w, vqs)), step.log)
      ensures r.Crashed? ==> vqs == old(vqs) && Unguarded(w, State(), r.c)
    {
      hide Due, Unguarded, Valid, Suspended, Lowered, Lefts, Standing, Retries, UpTo, Falls, Reopened, Fallen;
      var q := vqs[|vqs| - 1];
      ghost var projects, v, n := sel.projects, Standing(w, vqs), |vqs|;
      var awp := ReopenLast(q);
      ReopenedBelow(q, awp, projects, v);
      r, step := RetryReopened(q, awp, projects, v);
      if r.Crashed? {
        SuspendedArises();
        DueIsUnguarded(w, State(), r.c, awp.pl);
      }
      if r.Refused? {
        DropSuspended();
        FallenThere(projects, v, step.log);
      }
    }

    lemma FallenThere(projects: seq<Selected>, v: seq<Queue>, log: seq<Drop>)
      requires Falls(w, projects, v, log, Standing(w, vqs)) && sel.projects == UpTo(projects, |vqs| + 1)
      ensures Fallen(projects, v, log)
    {
    }

    lemma ReopenedBelow(q: VersionQueue, awp: AtomWithPackages, projects: seq<Selected>, v: seq<Queue>)
      requires Reopened(q, awp, projects, v)
      ensures sel.projects == UpTo(projects, |vqs|)
    {
      hide Suspended, Reopens, UpTo, Arises, Standing;
    }

    lemma SuspendedArises()
      requires Suspended()
      ensures Arises(w, State())
    {
    }

    method DropSuspended()
      requires Suspended()
      modifies this`vqs
      ensures Valid() && vqs == old(vqs)[..|old(vqs)| - 1]
    {
      vqs := vqs[..|vqs| - 1];
    }

    lemma LastIsShort()
      requires Valid() && vqs != []
      ensures vqs[|vqs| - 1].pi != [] && |vqs[|vqs| - 1].Rest(w)| <= w.maxVersions + 3
    {
      InitQueues(w, vqs);
      assert vqs[|vqs| - 1] in vqs;
    }

    /** The same, after giving up the queues in log. */
    method RetryFrom(ghost projects: seq<Selected>, ghost v: seq<Queue>, ghost log: seq<Drop>) returns (r: Search, ghost step: Return)
      requires Valid() && vqs != [] && vqs[|vqs| - 1].failed && Fallen(projects, v, log)
      modifies this`vqs, sel, unsel, vqs
      ensures r.Found? ==> Valid() && vqs == old(vqs)
      ensures r.Found? ==> ResumesBy(w, projects, v, Now(), step)
      ensures r.Refused? ==> Valid() && vqs == old(vqs)[..|old(vqs)| - 1]
      ensures r.Refused? ==> Fallen(projects, v, step.log)
      ensures r.Crashed? ==> vqs == old(vqs) && Unguarded(w, State(), r.c)
    {
      hide Valid, Lowered, Unguarded, Lefts, Standing, Fallen, Retries, ResumesBy, Falls, UpTo, Flags, NoDup;
      ghost var u, mids := Standing(w, vqs), sel.projects;
      FallenIs(projects, v, log);
      r, step := RetryLast();
      if r.Found? {
        RetriedFurther(w, projects, v, log, mids, u, step, Now());
        step := step.(log := log);
      } else if r.Refused? {
        FallenFurther(projects, v, log, mids, u, step.log);
        step := step.(log := log + step.log);
      }
    }

    /** One turn of backtrack's loop, after giving up the queues in log; None means another turn is
        needed. */
    method GoBack(ghost projects: seq<Selected>, ghost v: seq<Queue>, ghost log: seq<Drop>) returns (b: Option<Backtracking>, ghost step: Return)
      requires Valid() && Fallen(projects, v, log)
      modifies this`vqs, this`asked, sel, unsel, vqs
      ensures b.None? || !b.value.Stuck? ==> Valid()
      ensures |vqs| <= |old(vqs)| && vqs == old(vqs)[..|vqs|]
      ensures b.None? ==> |vqs| < |old(vqs)|
      ensures b == Some(Exhausted) ==> vqs == [] && |sel.projects| == 1
      ensures b.Some? && b.value.Stuck? ==> Unguarded(w, State(), b.value.c)
      ensures if b == Some(Cancelled) then Stopped(old(asked)) else Going(old(asked))
      ensures b == Some(Resumed) ==> ResumesBy(w, projects, v, Now(), step)
      ensures b.None? || b == Some(Exhausted) ==> Fallen(projects, v, step.log)
    {
      hide Valid, Lowered, Unguarded, Lefts, Standing, Fallen, ResumesBy, Going, Stopped;
      var cancelled;
      ghost var more;
      cancelled, more := SkipUnfailed(projects, v, log);
      step := Return(more, [], State(), 0, [], []);
      if cancelled {
        return Some(Cancelled), step;
      }
      if |vqs| == 0 {
        OnlyRootLeft();
        return Some(Exhausted), step;
      }
      var r;
      r, step := RetryFrom(projects, v, more);
      if r.Found? {
        return Some(Resumed), step;
      }
      return if r.Crashed? then Some(Stuck(r.c)) else None, step;
    }

    lemma FallenIs(projects: seq<Selected>, v: seq<Queue>, log: seq<Drop>)
      requires Fallen(projects, v, log)
      ensures Falls(w, projects, v, log, Standing(w, vqs)) && sel.projects == UpTo(projects, |vqs| + 1)
    {
    }

    /** Goes back to the last blamed project that has another acceptable version; whatever is given
        up on the way was blamed by nobody, or has none. */
    method Backtrack() returns (b: Backtracking, ghost step: Return)
      requires Valid()
      modifies this`vqs, this`attempts, this`asked, sel, unsel, vqs
      ensures !b.Stuck? ==> Valid()
      ensures |vqs| <= |old(vqs)| && vqs == old(vqs)[..|vqs|]
      ensures b.Resumed? ==> Lowered(Lefts(w, vqs), old(Lefts(w, vqs)))
      ensures attempts == if b.Resumed? then old(attempts) + 1 else old(attempts)
      ensures b.Exhausted? ==> vqs == [] && |sel.projects| == 1
      ensures b.Stuck? ==> Unguarded(w, State(), b.c)
      ensures if b.Cancelled? then Stopped(old(asked)) else Going(old(asked))
      ensures b.Resumed? ==> ResumesBy(w, old(sel.projects), old(Standing(w, vqs)), Now(), step)
      ensures b.Exhausted? ==> Falls(w, old(sel.projects), old(Standing(w, vqs)), step.log, [])
    {
      hide Valid, Lowered, Unguarded, Lefts, Standing, Fallen, ResumesBy, Going, Stopped, Lens;
      ghost var projects, v := sel.projects, Standing(w, vqs);
      ghost var log := NothingFallen();
      LensAre(vqs);
      NotAsked();
      step := Return(log, [], State(), 0, [], []);
      if |vqs| == 0 {
        // nothing to go back to
        OnlyRootLeft();
        FallenIs(projects, v, log);
        return Exhausted, step;
      }
      b, step := KeepGoingBack(projects, v, log);
      if b.Resumed? {
        attempts := attempts + 1;
        ResumesLowers(w, projects, v, Now(), step);
        LensAre(vqs);
      } else if b.Exhausted? {
        FallenIs(projects, v, step.log);
      }
    }

    /** The loop of backtrack. */
    method KeepGoingBack(ghost projects: seq<Selected>, ghost v: seq<Queue>, ghost log: seq<Drop>) returns (b: Backtracking, ghost step: Return)
      requires Valid() && Fallen(projects, v, log)
      modifies this`vqs, this`asked, sel, unsel, vqs
      ensures !b.Stuck? ==> Valid()
      ensures |vqs| <= |old(vqs)| && vqs == old(vqs)[..|vqs|]
      ensures b.Exhausted? ==> vqs == [] && |sel.projects| == 1
      ensures b.Stuck? ==> Unguarded(w, State(), b.c)
      ensures if b.Cancelled? then Stopped(old(asked)) else Going(old(asked))
      ensures b.Resumed? ==> ResumesBy(w, projects, v, Now(), step)
      ensures b.Exhausted? ==> Fallen(projects, v, step.log)
    {
      hide Valid, Unguarded, Standing, Fallen, ResumesBy, Going, Stopped;
      NotAsked();
      var turn: Option<Backtracking> := None;
      step := Return(log, [], State(), 0, [], []);
      while turn.None?
        invariant turn.None? || !turn.value.Stuck? ==> Valid()
        invariant |vqs| <= |old(vqs)| && vqs == old(vqs)[..|vqs|]
        invariant turn == Some(Exhausted) ==> vqs == [] && |sel.projects| == 1
        invariant turn.Some? && turn.value.Stuck? ==> Unguarded(w, State(), turn.value.c)
        invariant if turn == Some(Cancelled) then Stopped(old(asked)) else Going(old(asked))
        invariant turn.None? || turn == Some(Exhausted) ==> Fallen(projects, v, step.log)
        invariant turn == Some(Resumed) ==> ResumesBy(w, projects, v, Now(), step)
        decreases turn.None?, |vqs|
      {
        ghost var m := asked;
        GoingIs(old(asked));
        turn, step := GoBack(projects, v, step.log);
        GoesOn(old(asked), m);
      }
      b := turn.value;
    }

    lemma LensAre(qs: seq<VersionQueue>)
      ensures Lens(Standing(w, qs)) == Lefts(w, qs)
    {
      RestsAt(w, qs);
    }

    lemma GoingIs(n: nat)
      requires Going(n)
      ensures n <= asked && forall k :: n <= k < asked ==> !done(k)
    {
    }

    lemma OnlyRootLeft()
      requires Valid() && vqs == []
      ensures |sel.projects| == 1
    {
      ArisingInv(w, State());
      if |sel.projects| > 1 {
        TwoOpened(w, sel.projects);
      }
    }

    method OpenProject(awp: AtomWithPackages) returns (ghost order: seq<ProjectRoot>)
      requires ValidWorld(w) && Arises(w, State()) && Reopens(w, State(), awp) && Acceptable(awp.a.id, awp.a.v, awp.pl)
      modifies sel, unsel
      ensures Arises(w, State()) && Firsts(sel.projects) == old(Firsts(sel.projects)) + [awp.a]
      ensures Selects(w, old(State()), State(), awp, false, order)
    {
      ghost var s := State();
      order := SelectAtom(awp, false);
      PickArises(w, s, State(), awp, false, order);
      FirstsOfPush(s.projects, State().projects[|s.projects|]);
    }

    // ---------------------------------------------------------------- the run

    /** Puts the root project on the stack and its dependencies on the queue. */
    method SelectRoot()
      requires ValidWorld(w) && vqs == [] && State() == Core([], map[], map[], [])
      modifies sel, unsel
      ensures Valid() && exists order :: Start(w, State(), order)
    {
      hide ValidWorld, Arises, Due, Tops, Lefts, Flags;
      sel.PushSelection(AtomWithPackages(RootAtom(w), w.rootList), false);
      var order := AnyOrder(w.rootDeps.Keys);
      StartingNone(w, State());
      for k := 0 to |order|
        invariant Starting(w, State(), order[..k])
      {
        NextRoot(w, order, k);
        RequireForRoot(order[k], order[..k]);
      }
      assert order[..|order|] == order;
      StartedAligned(w, State(), order);
    }

    method RequireForRoot(r: ProjectRoot, ghost order: seq<ProjectRoot>)
      requires ValidWorld(w) && r in w.rootDeps && r !in Elems(order)
      requires Starting(w, State(), order)
      modifies sel`deps, sel`foldRoots, unsel
      ensures Starting(w, State(), order + [r])
    {
      ghost var before := State();
      assert ValidDep(w, r, w.rootDeps[r]);
      var dep := w.rootDeps[r];
      sel.PushDep(w, Dependency(RootAtom(w), dep));
      unsel.Push(Bmi(dep.ident, dep.pl, None, true));
      StartingOne(w, before, State(), order, r);
    }

    /** How far the run still can go, most significant part first. */
    ghost function VersionsLeft(): nat
      reads this`vqs, vqs`pi, vqs`allLoaded
    {
      Rank(w.maxVersions + 5, Lefts(w, vqs), |w.roots|)
    }

    ghost function PackagesLeft(): nat
      reads sel
    {
      |Unneeded(w, sel.deps)|
    }

    /** The queue as the search sees it. */
    function Seen(q: VersionQueue): Queue
      reads q`pi, q`allLoaded, q`failed
    {
      Queue(q.id, q.Rest(w), q.failed)
    }

    /** createVersionQueue, with the marks it leaves on the other queues. */
    method SearchCandidates(bmi: Bmi) returns (q: VersionQueue?, r: Search, ghost tried: nat)
      requires ValidWorld(w) && NoDup(vqs) && bmi.id.root != w.rootName && Base(sel.projects, bmi.id.root).None?
      modifies (set v <- vqs)`failed
      ensures q != null ==> fresh(q) && q.Valid() && q.id == bmi.id
      ensures r.Found? ==> q != null && q.pi != [] && Acceptable(bmi.id, q.pi[0], bmi.pl)
      ensures r.Found? ==> StandsOn(w, State(), bmi, Seen(q), tried, q.fails)
      ensures r.Found? ==> Standing(w, vqs) == Marking(w, old(Standing(w, vqs)), AllBlame(q.fails))
      ensures r.Refused? ==> Refusing(w, Stage(State(), old(Standing(w, vqs))), bmi, r.f, Standing(w, vqs))
      ensures r.Crashed? ==> r.c.id == bmi.id && Empty(w, State(), r.c)
      ensures Stranded(w, State(), bmi) ==> r == Crashed(NoDepender(bmi.id))
    {
      hide ValidWorld, CheckOk, Flags, Rests, Zip, Stranded, Marked, FindsNone, Finds, QueueFailure, Candidates, Marking, Empty, Base, Refusing;
      ghost var v, rests, flags := Standing(w, vqs), Rests(w, vqs), Flags(vqs);
      assert v == Zip(rests, flags);
      q, r, tried := CreateVersionQueue(bmi);
      ghost var blamed := if q == null then [] else AllBlame(q.fails) + LastBlame(r, bmi.id);
      assert Rests(w, vqs) == rests;
      MarksAre(w, vqs, rests, flags, blamed);
      NothingMarking(w, v);
      if r.Refused? {
        ghost var fails := if q == null then [] else q.fails;
        RefusingIs(w, Stage(State(), v), bmi, r.f, Standing(w, vqs), fails);
      } else if r.Found? {
        assert AllBlame(q.fails) + [] == AllBlame(q.fails);
      }
    }

    /** The same, seen from the main loop. */
    method FindProject(bmi: Bmi) returns (q: VersionQueue?, r: Search, ghost tried: nat)
      requires Valid() && bmi in unsel.sl && Base(sel.projects, bmi.id.root).None?
      modifies (set v <- vqs)`failed
      ensures Valid() && Lefts(w, vqs) == old(Lefts(w, vqs))
      ensures r.Found? ==> q != null && fresh(q) && q.Valid() && q.pi != [] && |q.Rest(w)| <= w.maxVersions + 3
      ensures r.Found? ==> q.id == bmi.id && Acceptable(q.id, q.pi[0], bmi.pl)
      ensures r.Found? ==> StandsOn(w, State(), bmi, Seen(q), tried, q.fails)
      ensures r.Found? ==> Standing(w, vqs) == Marking(w, old(Standing(w, vqs)), AllBlame(q.fails))
      ensures r.Refused? ==> Refusing(w, Stage(State(), old(Standing(w, vqs))), bmi, r.f, Standing(w, vqs))
      ensures r.Crashed? ==> Unguarded(w, State(), r.c)
      ensures Stranded(w, State(), bmi) ==> r == Crashed(NoDepender(bmi.id))
    {
      hide ValidWorld, Arises, Due, CheckOk, Tops, Lefts, Flags, Stranded, Unguarded, Refusing, Candidates, Marking, Standing, StandsOn;
      ghost var lefts, tops := Lefts(w, vqs), Tops(vqs);
      QueuedCanOpen(w, State(), bmi);
      CandidatesBounded(w, State(), bmi);
      q, r, tried := SearchCandidates(bmi);
      if r.Crashed? { DueIsUnguarded(w, State(), r.c, bmi.pl); }
      if r.Found? { RestIsShort(w, State(), bmi, Seen(q), tried, q.fails); }
      assert Lefts(w, vqs) == lefts && Tops(vqs) == tops;
    }

    /** Selects the version a fresh queue stands on and appends the queue. */
    method PushProject(q: VersionQueue, pl: seq<Package>) returns (ghost order: seq<ProjectRoot>)
      requires Valid() && q !in vqs && q.Valid() && q.pi != [] && |q.Rest(w)| <= w.maxVersions + 3
      requires Reopens(w, State(), AtomWithPackages(Atom(q.id, q.pi[0]), pl)) && Acceptable(q.id, q.pi[0], pl)
      modifies this`vqs, sel, unsel
      ensures Valid() && vqs == old(vqs) + [q]
      ensures VersionsLeft() < old(VersionsLeft())
      ensures Selects(w, old(State()), State(), AtomWithPackages(Atom(q.id, q.pi[0]), pl), false, order)
      ensures Standing(w, vqs) == old(Standing(w, vqs)) + [Seen(q)]
    {
      hide ValidWorld, Arises, Due, CheckOk, Rank, Tops, Lefts, Flags, Selects, Standing;
      PushQueue(w, vqs, q);
      OneMoreQueue(vqs, q);
      StandingPush(vqs, q);
      ghost var lefts, more, v := Lefts(w, vqs), Lefts(w, vqs + [q]), Standing(w, vqs + [q]);
      order := OpenProject(AtomWithPackages(Atom(q.id, q.pi[0]), pl));
      vqs := vqs + [q];
      assert Lefts(w, vqs) == more && Standing(w, vqs) == v;
    }

    lemma StandingPush(qs: seq<VersionQueue>, q: VersionQueue)
      ensures Standing(w, qs + [q]) == Standing(w, qs) + [Seen(q)]
    {
      var more := qs + [q];
      assert more[..|qs|] == qs && more[|qs|] == q;
      assert Rests(w, more) == Rests(w, qs) + [(q.id, q.Rest(w))] && Flags(more) == Flags(qs) + [q.failed];
    }

    lemma OneMoreQueue(qs: seq<VersionQueue>, q: VersionQueue)
      requires Aligned(qs) && q.id.root in w.roots && Base(sel.projects, q.id.root).None? && |q.Rest(w)| <= w.maxVersions + 3
      ensures Rank(w.maxVersions + 5, Lefts(w, qs) + [|q.Rest(w)|], |w.roots|) < Rank(w.maxVersions + 5, Lefts(w, qs), |w.roots|)
    {
      StackFits(w, State(), q.id.root);
      RankExtended(w.maxVersions + 5, Lefts(w, qs), |q.Rest(w)|, |w.roots|);
    }

    /** A project not selected yet: make its queue, search it, select what was found. */
    method SelectNew(bmi: Bmi) returns (r: Search)
      requires Valid() && bmi in unsel.sl && Base(sel.projects, bmi.id.root).None?
      modifies this`vqs, sel, unsel, (set v <- vqs)`failed
      ensures Valid()
      ensures r.Found? ==> (forall q <- vqs :: q in old(vqs) || fresh(q)) && VersionsLeft() < old(VersionsLeft())
      ensures r.Found? ==> Opening(w, old(Now()), Now(), bmi)
      ensures !r.Found? ==> vqs == old(vqs) && Lefts(w, vqs) == old(Lefts(w, vqs)) && State() == old(State())
      ensures r.Refused? ==> Refusing(w, old(Now()), bmi, r.f, Standing(w, vqs))
      ensures r.Crashed? ==> Unguarded(w, State(), r.c)
      ensures Stranded(w, old(State()), bmi) ==> r == Crashed(NoDepender(bmi.id))
    {
      hide Stranded, Unguarded, Refusing, StandsOn, Opening, Marking, Standing;
      hide ValidWorld, Arises, Due, CheckOk, Rank, Tops, Lefts, Flags, Selects;
      QueuedCanOpen(w, State(), bmi);
      ghost var a := Now();
      var q;
      ghost var tried;
      q, r, tried := FindProject(bmi);
      if r.Found? {
        ghost var order := PushProject(q, bmi.pl);
        assert q.Rest(w)[0] == q.pi[0];
        OpeningIs(w, a, Now(), bmi, Seen(q), tried, q.fails, order);
      }
    }

    /** check, seen from the main loop: only failure marks change. */
    method CheckAddition(nawp: AtomWithPackages) returns (f: Option<Failure>)
      requires Valid()
      modifies (set q <- vqs)`failed
      ensures Valid() && Lefts(w, vqs) == old(Lefts(w, vqs))
      ensures f.None? <==> CheckOk(w, State(), nawp, true)
      ensures f.Some? ==> Explains(w, State(), nawp, true, f.value)
      ensures Standing(w, vqs) == Marking(w, old(Standing(w, vqs)), BlameOf(f))
    {
      hide ValidWorld, Arises, Due, CheckOk, Marked, Explains, Tops, Lefts, Flags, Rests, Zip, Marking;
      ghost var lefts, tops, rests, flags := Lefts(w, vqs), Tops(vqs), Rests(w, vqs), Flags(vqs);
      f := Check(nawp, true);
      assert Lefts(w, vqs) == lefts && Tops(vqs) == tops && Rests(w, vqs) == rests;
      MarksAre(w, vqs, rests, flags, BlameOf(f));
    }

    /** More packages of a selected project, at the version it has. */
    method AddPackages(bmi: Bmi, v: Version) returns (r: Search)
      requires Valid() && bmi in unsel.sl
      requires Base(sel.projects, bmi.id.root).Some? && v == Base(sel.projects, bmi.id.root).value.a.v
      modifies sel, unsel, (set q <- vqs)`failed
      ensures Valid() && Lefts(w, vqs) == old(Lefts(w, vqs)) && !r.Crashed?
      ensures r.Found? ==> Advanced(w, old(State()), State())
      ensures r.Found? ==> Extending(w, old(State()), State(), bmi) && Standing(w, vqs) == old(Standing(w, vqs))
      ensures r.Refused? ==> State() == old(State()) && Refusing(w, old(Now()), bmi, r.f, Standing(w, vqs))
    {
      hide ValidWorld, Arises, Due, CheckOk, Advanced, Tops, Lefts, Flags, Explains, Selects, Standing, Marking, Base, RefusingAll;
      var nawp := AtomWithPackages(Atom(bmi.id, v), bmi.pl);
      QueuedCanOpen(w, State(), bmi);
      ghost var s, before := State(), Standing(w, vqs);
      var f := CheckAddition(nawp);
      if f.Some? {
        return Refused(f.value);
      }
      NothingMarking(w, before);
      ghost var order := ExtendProject(nawp);
      assert Selects(w, s, State(), nawp, true, order);
      return Found;
    }

    method ExtendProject(nawp: AtomWithPackages) returns (ghost order: seq<ProjectRoot>)
      requires Valid() && Request(w, State(), nawp, true) && CheckOk(w, State(), nawp, true)
      requires Due(State(), nawp.a.id, nawp.pl)
      modifies sel, unsel
      ensures Valid() && Advanced(w, old(State()), State())
      ensures Selects(w, old(State()), State(), nawp, true, order)
    {
      hide ValidWorld, Arises, Due, CheckOk, Advanced, Tops, Lefts, Flags, Selects;
      ghost var s := State();
      order := SelectAtom(nawp, true);
      AddedPackages(w, s, State(), nawp, order);
    }

    /** One turn of the main loop: the first item of the queue is dealt with, or the search goes
        back.  None means there is more to do. */
    method Turn(bmi: Bmi) returns (r: Option<Result>)
      requires Valid() && unsel.sl != [] && bmi == unsel.sl[0]
      modifies this`vqs, this`attempts, this`asked, sel, unsel, vqs
      ensures r.None? ==> Valid() && forall q <- vqs :: q in old(vqs) || fresh(q)
      ensures r.None? ==> VersionsLeft() < old(VersionsLeft()) || (VersionsLeft() == old(VersionsLeft()) && Advanced(w, old(State()), State()))
      ensures r.None? ==> Turns(w, old(Now()), Now())
      ensures r.Some? ==> !r.value.Solution? && (r.value.Panicked? ==> Unguarded(w, State(), r.value.c))
      // the search ends without a solution only where nothing is left to go back to
      ensures r.Some? && r.value.NoSolution? ==> Ends(w, old(Now()), r.value.f) && vqs == [] && |sel.projects| == 1
      ensures if r == Some(Interrupted) then Stopped(old(asked)) else Going(old(asked))
      ensures Stranded(w, old(State()), bmi) && Base(old(sel.projects), bmi.id.root).None? ==> r == Some(Panicked(NoDepender(bmi.id)))
    {
      hide Stranded, Unguarded, Extending, Opening, Refusing, Resumes, GivesUp;
      hide Aligned, CheckOk, Rank, Advanced, Tops, Lefts, Flags, Standing, Turns, Ends;
      ghost var a := Now();
      var selected := sel.SelectedFor(bmi.id);
      var s: Search;
      if selected.None? {
        s := SelectNew(bmi);
      } else {
        s := AddPackages(bmi, selected.value.a.v);
      }
      match s {
        case Found =>
          TurnsForward(w, a, Now());
          return None;
        case Crashed(c) => return Some(Panicked(c));
        case Refused(f) =>
          ghost var ms := Standing(w, vqs);
          var b := GiveUpOrBack();
          match b {
            case Resumed =>
              TurnsBack(w, a, f, ms, Now());
              return None;
            case Exhausted =>
              EndsThere(w, a, f, ms);
              return Some(NoSolution(f));
            case Cancelled => return Some(Interrupted);
            case Stuck(c) => return Some(Panicked(c));
          }
      }
    }

    /** backtrack, with what it does to the measure. */
    method GiveUpOrBack() returns (b: Backtracking)
      requires Valid()
      modifies this`vqs, this`attempts, this`asked, sel, unsel, vqs
      ensures b.Resumed? ==> Valid() && VersionsLeft() < old(VersionsLeft()) && forall q <- vqs :: q in old(vqs)
      ensures b.Stuck? ==> Unguarded(w, State(), b.c)
      ensures b.Resumed? ==> Resumes(w, old(sel.projects), old(Standing(w, vqs)), Now())
      ensures b.Exhausted? ==> GivesUp(w, old(sel.projects), old(Standing(w, vqs))) && vqs == [] && |sel.projects| == 1
      ensures if b.Cancelled? then Stopped(old(asked)) else Going(old(asked))
    {
      hide Aligned, Rank, Lowered, Tops, Lefts, Flags, Standing, ResumesBy, Falls;
      ghost var lefts := Lefts(w, vqs);
      ghost var step;
      b, step := Backtrack();
      if b.Resumed? {
        FewerVersionsLeft(lefts);
      }
    }

    lemma FewerVersionsLeft(before: seq<nat>)
      requires Valid() && Lowered(Lefts(w, vqs), before)
      ensures VersionsLeft() < Rank(w.maxVersions + 5, before, |w.roots|)
    {
      hide Rank, Lowered, Tops, Lefts, Flags;
      ArisingInv(w, State());
      FirstsFitWorld(w, sel.projects);
      LoweredRank(w.maxVersions + 5, Lefts(w, vqs), before, |w.roots|);
    }

    /** The main loop.  It ends; what it returns as a solution is one; and ss, how it went, is a run
        of the search, at the end of which there is nothing to do, or nothing left to try. */
    method Solve() returns (r: Result, ghost ss: seq<Stage>)
      requires ValidWorld(w) && vqs == [] && State() == Core([], map[], map[], [])
      modifies this`vqs, this`attempts, this`asked, sel, unsel
      ensures r.Solution? ==> Solves(w, r.projs)
      ensures r.Solution? ==> Arises(w, State()) && State().unsel == [] && sel.projects != [] && r.projs == Combined(sel.projects[1..])
      ensures r.Panicked? ==> Unguarded(w, State(), r.c)
      ensures SearchRun(w, ss) && (r.Solution? ==> ss[|ss| - 1] == Now())
      ensures r.NoSolution? ==> Ends(w, ss[|ss| - 1], r.f) && vqs == [] && |sel.projects| == 1
      ensures if r.Interrupted? then Stopped(old(asked)) else Going(old(asked))
      // without stale work: nothing needless, one source each, always a depender
      ensures Steady(w) && r.Solution? ==> NothingNeedless(w, r.projs) && OneEach(r.projs)
      ensures Steady(w) && r.Panicked? ==> r.c.NoVersions?
    {
      hide Steady, NothingNeedless, OneEach, Unguarded, Turns, Ends, SearchRun, Stopped, Going;
      hide Valid, Rank, Unneeded, Solves, Combined, Lefts, Standing, Advanced, Arises, UniformWorlds.Uniform;
      SelectRoot();
      ss := Begin();
      NotAsked();
      while true
        invariant Valid() && forall q <- vqs :: fresh(q)
        invariant ss != [] && SearchRun(w, ss) && ss[|ss| - 1] == Now()
        invariant Going(old(asked))
        decreases VersionsLeft(), PackagesLeft(), |unsel.sl|
      {
        var stop := AskDone(old(asked));
        if stop {
          return Interrupted, ss;
        }
        if |unsel.sl| == 0 {
          break;
        }
        forall i | 0 <= i < |vqs| ensures fresh(vqs[i]) { assert vqs[i] in vqs; }
        var t;
        t, ss := NextTurn(ss, old(asked));
        if t.Some? {
          return t.value, ss;
        }
      }
      r := Finish();
    }

    method Finish() returns (r: Result)
      requires Valid() && unsel.sl == []
      ensures r.Solution? && Solves(w, r.projs)
      ensures Arises(w, State()) && sel.projects != [] && r.projs == Combined(sel.projects[1..])
      ensures Steady(w) ==> NothingNeedless(w, r.projs) && OneEach(r.projs)
    {
      hide Valid, Solves, Combined, Steady, NothingNeedless, OneEach, Arises;
      NothingLeft();
      var projs := Collect();
      return Solution(projs);
    }

    lemma Begin() returns (ss: seq<Stage>)
      requires vqs == [] && exists order :: Start(w, State(), order)
      ensures ss == [Now()] && SearchRun(w, ss)
    {
      hide SearchRun, Start;
      ss := [Now()];
      SearchStarts(w, Now());
    }

    /** A turn, added to the record of the run. */
    method NextTurn(ghost ss: seq<Stage>, ghost n: nat) returns (t: Option<Result>, ghost more: seq<Stage>)
      requires Valid() && unsel.sl != [] && Going(n) && ss != [] && SearchRun(w, ss) && ss[|ss| - 1] == Now()
      modifies this`vqs, this`attempts, this`asked, sel, unsel, vqs
      ensures t.None? ==> Valid() && forall q <- vqs :: q in old(vqs) || fresh(q)
      ensures t.None? ==> || VersionsLeft() < old(VersionsLeft())
                          || (VersionsLeft() == old(VersionsLeft()) && PackagesLeft() < old(PackagesLeft()))
                          || (VersionsLeft() == old(VersionsLeft()) && PackagesLeft() == old(PackagesLeft()) && |unsel.sl| < |old(unsel.sl)|)
      ensures more != [] && SearchRun(w, more) && (t.None? ==> more[|more| - 1] == Now())
      ensures t.Some? ==> !t.value.Solution? && (t.value.Panicked? ==> Unguarded(w, State(), t.value.c))
      ensures t.Some? && t.value.Panicked? && Steady(w) ==> t.value.c.NoVersions?
      ensures t.Some? && t.value.NoSolution? ==> Ends(w, more[|more| - 1], t.value.f) && vqs == [] && |sel.projects| == 1
      ensures if t == Some(Interrupted) then Stopped(n) else Going(n)
    {
      hide Aligned, Rank, Lefts, Standing, Turns, Ends, SearchRun, Unguarded, Steady, Unneeded;
      ArisingWorld();
      ghost var m := asked;
      t := Turn(unsel.sl[0]);
      GoesOn(n, m);
      more := ss;
      if t.None? {
        SearchRunPush(w, ss, Now());
        more := ss + [Now()];
      } else if t.value.Panicked? {
        SteadyHasDepender(w, State(), t.value.c);
      }
    }

    lemma ArisingWorld()
      requires Valid()
      ensures ValidWorld(w)
    {
    }

    lemma GoesOn(n: nat, m: nat)
      requires n <= m && forall k :: n <= k < m ==> !done(k)
      ensures Going(m) ==> Going(n)
      ensures Stopped(m) ==> Stopped(n)
    {
    }

    lemma NothingLeft()
      requires Valid() && unsel.sl == []
      ensures Arises(w, State()) && sel.projects != [] && Solves(w, Combined(sel.projects[1..]))
      ensures Steady(w) ==> NothingNeedless(w, Combined(sel.projects[1..])) && OneEach(Combined(sel.projects[1..]))
    {
      hide Solves, Combined, Steady, NothingNeedless, OneEach, Arises, ValidWorld, QueuesOk, Tops, Firsts;
      if Steady(w) { SteadyWorldsSolveWell(w, State()); }
      ArisingIsReachable(w, State());
      SolutionIsValid(w, State());
    }

    /** Selected projects and packages, without the root. */
    method Collect() returns (projs: Projects)
      requires sel.projects != []
      ensures projs == Combined(sel.projects[1..])
    {
      var rest := sel.projects[1..];
      projs := map[];
      for i := 0 to |rest|
        invariant projs == Combined(rest[..i])
      {
        assert rest[..i + 1][..i] == rest[..i];
        var pm := if rest[i].a.a in projs then projs[rest[i].a.a] else {};
        for j := 0 to |rest[i].a.pl|
          invariant pm == (if rest[i].a.a in projs then projs[rest[i].a.a] else {}) + Elems(rest[i].a.pl[..j])
        {
          assert rest[i].a.pl[..j + 1] == rest[i].a.pl[..j] + [rest[i].a.pl[j]];
          ElemsPush(rest[i].a.pl[..j], rest[i].a.pl[j]);
          pm := pm + {rest[i].a.pl[j]};
        }
        assert rest[i].a.pl[..|rest[i].a.pl|] == rest[i].a.pl;
        projs := projs[rest[i].a.a := pm];
      }
      assert rest[..|rest|] == rest;
    }
  }

  /** Some packages have become required, or there is less work. */
  ghost predicate Advanced(w: World, s: Core, t: Core) {
    || |Unneeded(w, t.deps)| < |Unneeded(w, s.deps)|
    || (|Unneeded(w, t.deps)| == |Unneeded(w, s.deps)| && |t.unsel| < |s.unsel|)
  }

  lemma AddedPackages(w: World, s: Core, t: Core, awp: AtomWithPackages, order: seq<ProjectRoot>)
    requires ValidWorld(w) && Arises(w, s)
    requires Request(w, s, awp, true) && CheckOk(w, s, awp, true) && Selects(w, s, t, awp, true, order)
    requires Due(s, awp.a.id, awp.pl)
    ensures Arises(w, t) && Firsts(t.projects) == Firsts(s.projects) && Advanced(w, s, t)
  {
    ArisingInv(w, s);
    var b :| b in s.unsel && b.id == awp.a.id && b.pl == awp.pl;
    assert SameWork(b, awp.a.id, awp.pl);
    PickArises(w, s, t, awp, true, order);
    FirstsOfPush(s.projects, t.projects[|s.projects|]);
    SelectMakesProgress(w, s, t, awp, true, order);
    SubsetCard(Unneeded(w, t.deps), Unneeded(w, s.deps));
  }

  /** The index operations that fail: nobody depends on the project any more, or its list of
      versions is empty. */
  ghost predicate Unguarded(w: World, s: Core, c: Crash) {
    Empty(w, s, c) && (c.NoDepender? ==> Arises(w, s) && exists pl :: Due(s, c.id, pl))
  }

  predicate Empty(w: World, s: Core, c: Crash) {
    match c
    case NoDepender(id) => On(s.deps, id.root) == []
    case NoVersions(id) => w.versions(id) == Some([])
  }

  lemma SteadyHasDepender(w: World, s: Core, c: Crash)
    requires ValidWorld(w) && Unguarded(w, s, c)
    ensures Steady(w) ==> c.NoVersions?
  {
    if Steady(w) && c.NoDepender? {
      var pl :| Due(s, c.id, pl);
      SteadyWorldsHaveDependers(w, s, c.id, pl);
    }
  }

  lemma DueIsUnguarded(w: World, s: Core, c: Crash, pl: seq<Package>)
    requires Empty(w, s, c) && Arises(w, s) && Due(s, c.id, pl)
    ensures Unguarded(w, s, c)
  {
  }

  /** Nobody depends on the project of this work item, which has versions but no acceptable one. */
  ghost predicate Stranded(w: World, s: Core, bmi: Bmi) {
    && On(s.deps, bmi.id.root) == []
    && (w.sourceExists(bmi.id) || w.vendorExists(bmi.id)) && !ChangeImpossible(w, bmi.id) && w.versions(bmi.id).Some?
    && Candidates(w, s, bmi) != []
    && forall v <- Candidates(w, s, bmi) :: !CheckOk(w, s, AtomWithPackages(Atom(bmi.id, v), bmi.pl), false)
  }

  lemma StrandedIsSearched(w: World, s: Core, bmi: Bmi)
    requires Stranded(w, s, bmi)
    ensures (w.sourceExists(bmi.id) || w.vendorExists(bmi.id)) && !ChangeImpossible(w, bmi.id) && w.versions(bmi.id).Some?
    ensures On(s.deps, bmi.id.root) == [] && Candidates(w, s, bmi) != [] && !IsRevision(Composite(w, s.deps, bmi.id.root))
  {
    assert Conditions(On(s.deps, bmi.id.root)) == [];
  }

  lemma StrandedFails(w: World, s: Core, bmi: Bmi, i: nat)
    requires Stranded(w, s, bmi) && i < |Candidates(w, s, bmi)|
    ensures !CheckOk(w, s, AtomWithPackages(Atom(bmi.id, Candidates(w, s, bmi)[i]), bmi.pl), false)
  {
  }

  lemma StackFits(w: World, s: Core, r: ProjectRoot)
    requires ValidWorld(w) && Arises(w, s) && r in w.roots && Base(s.projects, r).None?
    ensures |Firsts(s.projects)| <= |w.roots|
  {
    ArisingInv(w, s);
    RoomForAnother(w, s.projects, r);
  }

  ghost predicate Starting(w: World, s: Core, order: seq<ProjectRoot>) {
    && NoDup(order) && Elems(order) <= w.rootDeps.Keys
    && s.projects == [Selected(AtomWithPackages(RootAtom(w), w.rootList), true)]
    && s.deps == AddEdges(map[], RootAtom(w), w.rootDeps, Elems(order))
    && s.foldRoots == MarkRoots(w, map[], map[], order)
    && multiset(s.unsel) == RootWork(w, order)
  }

  lemma StartingNone(w: World, s: Core)
    requires s == Core([Selected(AtomWithPackages(RootAtom(w), w.rootList), true)], map[], map[], [])
    ensures Starting(w, s, [])
  {
  }

  lemma NextRoot(w: World, order: seq<ProjectRoot>, k: nat)
    requires Listing(order, w.rootDeps.Keys) && k < |order|
    ensures order[k] in w.rootDeps && order[k] !in Elems(order[..k])
    ensures order[..k + 1] == order[..k] + [order[k]]
  {
    assert order[k] in Elems(order);
  }

  lemma StartingOne(w: World, s: Core, t: Core, order: seq<ProjectRoot>, r: ProjectRoot)
    requires Starting(w, s, order) && r in w.rootDeps && r !in Elems(order)
    requires t.projects == s.projects
    requires t.deps == s.deps[r := On(s.deps, r) + [Edge(RootAtom(w), w.rootDeps, r)]]
    requires t.foldRoots == if On(s.deps, r) == [] then s.foldRoots[w.toFold(r) := r] else s.foldRoots
    requires multiset(t.unsel) == multiset(s.unsel) + multiset{Bmi(w.rootDeps[r].ident, w.rootDeps[r].pl, None, true)}
    ensures Starting(w, t, order + [r])
  {
    ElemsPush(order, r);
    AddOneEdge(map[], RootAtom(w), w.rootDeps, Elems(order), r);
    MarkRootsPush(w, map[], map[], order, r);
    assert (order + [r])[..|order|] == order;
  }

  lemma StartedAligned(w: World, s: Core, order: seq<ProjectRoot>)
    requires ValidWorld(w) && Starting(w, s, order) && Listing(order, w.rootDeps.Keys)
    ensures Arises(w, s) && Firsts(s.projects) == [RootAtom(w)]
    ensures Start(w, s, order)
  {
    StartArises(w, s, order);
    FirstsOfPush([], s.projects[0]);
    assert [] + [s.projects[0]] == s.projects;
  }

  lemma ReopeningIsDue(w: World, s: Core, awp: AtomWithPackages)
    requires Reopens(w, s, awp)
    ensures Due(s, awp.a.id, awp.pl)
  {
  }

  lemma LoweredRank(b: nat, now: seq<nat>, before: seq<nat>, n: nat)
    requires b > 0 && Lowered(now, before) && |now| <= n
    ensures Rank(b, now, n) < Rank(b, before, n)
  {
    assert now == before[..|now| - 1] + [now[|now| - 1]];
    RankLowered(b, before, |now| - 1, now[|now| - 1], n);
  }

  datatype Backtracking = Resumed | Exhausted | Cancelled | Stuck(c: Crash)

  datatype Result = Solution(projs: Projects) | NoSolution(f: Failure) | Interrupted | Panicked(c: Crash)

  /** Package-only entries need a project to belong to, so the second entry opens one. */
  lemma SecondIsFirst(w: World, projects: seq<Selected>)
    requires StackOk(w, projects) && |projects| > 1
    ensures projects[0].first && projects[1].first
  {
    assert EntryOk(w, projects[1]) && FirstAt(projects, 1) && FirstAt(projects, 0);
    assert projects[..1] == [] + [projects[0]];
    BaseOfPush([], projects[0], projects[1].a.a.id.root);
  }

  lemma TwoOpened(w: World, projects: seq<Selected>)
    requires StackOk(w, projects) && |projects| > 1
    ensures |Firsts(projects)| > 1
  {
    hide ValidWorld, StackOk;
    SecondIsFirst(w, projects);
    FirstsOfPrefix(projects, 2);
    FirstsOfPush([], projects[0]);
    FirstsOfPush([projects[0]], projects[1]);
    assert projects[..2] == [projects[0]] + [projects[1]] && [] + [projects[0]] == [projects[0]];
  }

  lemma {:induction false} FirstsOfPrefix(projects: seq<Selected>, n: nat)
    requires n <= |projects|
    ensures |Firsts(projects[..n])| <= |Firsts(projects)|
  {
    if n < |projects| {
      FirstsOfPrefix(projects[..|projects| - 1], n);
      assert projects[..|projects| - 1][..n] == projects[..n];
    } else {
      assert projects[..n] == projects;
    }
  }

  lemma SameEnds(a: seq<Atom>, x: Atom, b: seq<Atom>, y: Atom)
    requires a + [x] == b + [y]
    ensures a == b && x == y
  {
    assert (a + [x])[|a|] == x && (b + [y])[|b|] == y;
    assert a == (a + [x])[..|a|] && b == (b + [y])[..|b|];
  }

  lemma {:induction false} FirstsFit(projects: seq<Selected>)
    ensures |Firsts(projects)| <= |projects|
  {
    if projects != [] {
      FirstsFit(projects[..|projects| - 1]);
    }
  }

  lemma UnselectedStep(w: World, s: Core, t: Core, queue: seq<Bmi>, order: seq<ProjectRoot>, x: Selected)
    requires ValidWorld(w) && Arises(w, s) && |s.projects| > 1
    requires Unselects(w, s, t, queue, order) && s.projects == t.projects + [x]
    ensures Arises(w, t)
    ensures x.first ==> Reopens(w, t, x.a)
  {
    BackArises(w, s, t, queue, order);
    ArisingInv(w, s);
    assert EntryOk(w, s.projects[|t.projects|]) && FirstAt(s.projects, |t.projects|);
    assert s.projects[..|t.projects|] == t.projects;
  }

  /** The roots that get edges: all but the root project. */
  function Live(w: World, rs: seq<ProjectRoot>): seq<ProjectRoot> {
    if rs == [] then []
    else
      var r := rs[|rs| - 1];
      if r == w.rootName then Live(w, rs[..|rs| - 1]) else Live(w, rs[..|rs| - 1]) + [r]
  }

  lemma {:induction false} LiveElems(w: World, rs: seq<ProjectRoot>)
    ensures Elems(Live(w, rs)) == Elems(rs) - {w.rootName}
  {
    if rs != [] {
      var init, r := rs[..|rs| - 1], rs[|rs| - 1];
      LiveElems(w, init);
      ElemsPush(init, r);
      ElemsPush(Live(w, init), r);
      assert rs == init + [r];
    }
  }

  lemma NextLive(w: World, all: seq<ProjectRoot>, k: nat)
    requires NoDup(all) && k < |all|
    ensures all[k] in Elems(all) && all[k] !in Elems(Live(w, all[..k]))
    ensures Live(w, all[..k + 1]) == if all[k] == w.rootName then Live(w, all[..k]) else Live(w, all[..k]) + [all[k]]
  {
    LiveElems(w, all[..k]);
    assert all[..k + 1][..k] == all[..k];
  }

  lemma PoppedEdgesExist(w: World, s: Core)
    requires ValidWorld(w) && Inv(w, s) && |s.projects| > 1
    ensures var x := s.projects[|s.projects| - 1];
            && Imports(w, x.a.a, x.a.pl).Imported?
            && var deps := Imports(w, x.a.a, x.a.pl).deps;
            ValidDeps(w, deps) && forall r :: r in deps && r != w.rootName ==> On(s.deps, r) != []
  {
    var x := s.projects[|s.projects| - 1];
    assert EntryOk(w, x);
    DepsOfValid(w, x);
    forall r | r in DepsOf(w, x) && r != w.rootName ensures On(s.deps, r) != [] {
      assert On(s.deps, r) == Replay(w, s.projects, r);
    }
  }
}
