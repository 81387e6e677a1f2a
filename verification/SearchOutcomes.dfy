/** What it means that the search finds a version, goes back, or gives up; and when giving up means
    that there is no solution. */
module SearchOutcomes {
  import opened Constraints
  import opened Identifiers
  import opened Bridge
  import opened SolverCore
  import opened SolverInvariants
  import opened SolverRuns
  import opened SolverMeasure
  import opened Satisfy
  import opened Searches

  // ------------------------------------------------------------------ what is found

  /** The first candidate that fits. */
  ghost predicate FirstFitting(w: World, s: Core, bmi: Bmi, v: Version) {
    var cs := Candidates(w, s, bmi);
    exists k :: 0 <= k < |cs| && cs[k] == v && Fits(w, s, bmi.id, bmi.pl, v) && forall i :: 0 <= i < k ==> !Fits(w, s, bmi.id, bmi.pl, cs[i])
  }

  /** A new project is selected at the first candidate that fits, and its queue keeps the others. */
  lemma OpensAtFirstFitting(w: World, a: Stage, b: Stage, bmi: Bmi)
    requires Opening(w, a, b, bmi)
    ensures |b.queues| == |a.queues| + 1 && |b.core.projects| == |a.core.projects| + 1
    ensures var q, x := b.queues[|a.queues|], b.core.projects[|a.core.projects|];
            && x.first && x.a.a.id == q.id == bmi.id && q.rest != [] && x.a.a.v == q.rest[0] && !q.failed
            && FirstFitting(w, a.core, bmi, x.a.a.v) && Suffix(q.rest, Candidates(w, a.core, bmi))
  {
    hide Candidates, QueueFailure, Fits, Imports, Marking, Refusal, StandsOn, Selects, FirstFitting, Suffix;
    var q, k, fails, order :| OpeningAt(w, a, b, bmi, q, k, fails, order);
    StandsFirst(w, a.core, bmi, q, k, fails);
    OpenedEntry(w, a.core, b.core, AtomWithPackages(Atom(bmi.id, q.rest[0]), bmi.pl), order);
  }

  predicate Suffix(a: seq<Version>, b: seq<Version>) { |a| <= |b| && b[|b| - |a|..] == a }

  lemma StandsFirst(w: World, s: Core, bmi: Bmi, q: Queue, k: nat, fails: seq<FailedVersion>)
    requires StandsOn(w, s, bmi, q, k, fails)
    ensures q.id == bmi.id && q.rest != [] && !q.failed && FirstFitting(w, s, bmi, q.rest[0]) && Suffix(q.rest, Candidates(w, s, bmi))
  {
    hide Candidates, QueueFailure, Fits, Refusals;
    var cs := Candidates(w, s, bmi);
    FirstDoNotFit(w, s, bmi.id, bmi.pl, cs, k, fails);
    assert q.rest[0] == cs[k];
  }

  lemma OpenedEntry(w: World, s: Core, t: Core, awp: AtomWithPackages, order: seq<ProjectRoot>)
    requires Selects(w, s, t, awp, false, order)
    ensures |t.projects| == |s.projects| + 1 && t.projects[..|s.projects|] == s.projects
    ensures t.projects[|s.projects|].first && t.projects[|s.projects|].a.a == awp.a
  {
    hide Imports, RemoveFirst, Enqueued, MarkRoots, AddEdges;
  }

  // ------------------------------------------------------------------ what is given up

  /** Every later version of the n-th opened project was refused, with only those below it selected. */
  ghost predicate NothingLater(w: World, projects: seq<Selected>, qs: seq<Queue>, n: nat)
    requires n < |qs|
  {
    exists mid :: Below(w, projects, n + 1, mid) && RefusedAt(w, projects, qs[n], mid)
  }

  ghost predicate RefusedAt(w: World, projects: seq<Selected>, q: Queue, mid: Core) {
    && q.rest != [] && |mid.projects| < |projects|
    && forall v <- q.rest[1..] :: !Fits(w, mid, q.id, projects[|mid.projects|].a.pl, v)
  }

  /** Whom the tries of a queue that was given up have blamed. */
  function DropBlame(d: Drop, r: ProjectRoot): seq<ProjectIdentifier> {
    match d case Unmarked => [] case Spent(mid, fails) => NoneBlames(mid, r, fails)
  }

  /** The n-th queue is not marked, nor are those blamed that are given up before it, one of the tries on
      a queue above. */
  ghost predicate NotBlamed(w: World, qs: seq<Queue>, log: seq<Drop>, n: nat)
    requires n < |qs|
  {
    !qs[n].failed && forall m :: 0 <= m < |log| && m < |qs| - 1 - n ==> !BlamedBy(w, qs, log, m, n)
  }

  ghost predicate BlamedBy(w: World, qs: seq<Queue>, log: seq<Drop>, m: nat, n: nat)
    requires m < |log| && m < |qs| && n < |qs|
  {
    Hit(w, Names(qs), DropBlame(log[m], qs[|qs| - 1 - m].id.root), n)
  }

  /** The n-th queue was given up for good reason: nobody had blamed its project, or somebody had but no
      later version of it would do. */
  ghost predicate GoodReason(w: World, projects: seq<Selected>, qs: seq<Queue>, log: seq<Drop>, n: nat)
    requires n < |qs|
  {
    NotBlamed(w, qs, log, n) || NothingLater(w, projects, qs, n)
  }

  /** Whatever is given up, is for good reason. */
  lemma {:induction false} GivenUpWithReason(w: World, projects: seq<Selected>, qs: seq<Queue>, log: seq<Drop>, rest: seq<Queue>)
    requires Falls(w, projects, qs, log, rest)
    ensures |rest| + |log| == |qs|
    ensures forall n :: |rest| <= n < |qs| ==> GoodReason(w, projects, qs, log, n)
    decreases |log|
  {
    hide Marking, NoneBlames, Below, NothingLater, NotBlamed;
    if log != [] {
      var last, blamed := |qs| - 1, DropBlame(log[0], qs[|qs| - 1].id.root);
      var ms := Marking(w, qs[..last], blamed);
      NothingIsMarked(w, qs[..last]);
      assert Falls(w, projects, ms, log[1..], rest);
      GivenUpWithReason(w, projects, ms, log[1..], rest);
      match log[0] {
        case Unmarked => LastNotBlamed(w, qs, log);
        case Spent(_, _) => SpentForReason(w, projects, qs, log[0]);
      }
      forall n | |rest| <= n < last ensures GoodReason(w, projects, qs, log, n) {
        assert GoodReason(w, projects, ms, log[1..], n);
        MarkingAt(w, qs[..last], blamed, n);
        SameReason(w, projects, ms, qs, n);
        SameBlame(w, qs, log, n);
      }
    }
  }

  lemma NothingIsMarked(w: World, qs: seq<Queue>)
    ensures Marking(w, qs, []) == qs
  {
  }

  lemma LastNotBlamed(w: World, qs: seq<Queue>, log: seq<Drop>)
    requires qs != [] && !qs[|qs| - 1].failed
    ensures NotBlamed(w, qs, log, |qs| - 1)
  {
  }

  lemma BlamedHigher(w: World, qs: seq<Queue>, ms: seq<Queue>, log: seq<Drop>, m: nat, n: nat)
    requires 0 < m < |log| && m < |qs| && n < |ms| == |qs| - 1 && Names(ms) == Names(qs)[..|qs| - 1]
    ensures BlamedBy(w, qs, log, m, n) <==> BlamedBy(w, ms, log[1..], m - 1, n)
  {
    hide Hit, DropBlame;
    var k := |qs| - 1 - m;
    assert Names(ms)[k] == Names(qs)[k];
    HitInit(w, Names(qs), DropBlame(log[m], qs[k].id.root), |qs| - 1, n);
  }

  /** Not being blamed, seen one queue further up. */
  lemma SameBlame(w: World, qs: seq<Queue>, log: seq<Drop>, n: nat)
    requires log != [] && n < |qs| - 1
    ensures NotBlamed(w, Marking(w, qs[..|qs| - 1], DropBlame(log[0], qs[|qs| - 1].id.root)), log[1..], n) ==> NotBlamed(w, qs, log, n)
  {
    var last, blamed := |qs| - 1, DropBlame(log[0], qs[|qs| - 1].id.root);
    var ms := Marking(w, qs[..last], blamed);
    MarkingIs(w, qs[..last], blamed, n);
    NamesOfMarking(w, qs[..last], blamed);
    assert Names(qs)[..last] == Names(qs[..last]);
    HitInit(w, Names(qs), blamed, last, n);
    assert BlamedBy(w, qs, log, 0, n) <==> Hit(w, Names(qs), blamed, n);
    hide Hit, Marking, DropBlame, BlamedBy;
    if NotBlamed(w, ms, log[1..], n) {
      forall m | 0 <= m < |log| && m < |qs| - 1 - n ensures !BlamedBy(w, qs, log, m, n) {
        if m > 0 {
          BlamedHigher(w, qs, ms, log, m, n);
          assert !BlamedBy(w, ms, log[1..], m - 1, n);
        }
      }
    }
  }

  lemma NamesOfMarking(w: World, qs: seq<Queue>, blamed: seq<ProjectIdentifier>)
    ensures Names(Marking(w, qs, blamed)) == Names(qs) && forall i :: 0 <= i < |qs| ==> Marking(w, qs, blamed)[i].id == qs[i].id
  {
    hide Hit;
  }

  lemma MarkingIs(w: World, qs: seq<Queue>, blamed: seq<ProjectIdentifier>, n: nat)
    requires n < |qs|
    ensures Marking(w, qs, blamed)[n].failed <==> qs[n].failed || Hit(w, Names(qs), blamed, n)
  {
    hide Hit;
  }

  lemma MarkingAt(w: World, qs: seq<Queue>, blamed: seq<ProjectIdentifier>, n: nat)
    requires n < |qs|
    ensures var m := Marking(w, qs, blamed)[n]; m.id == qs[n].id && m.rest == qs[n].rest && (qs[n].failed ==> m.failed)
  {
    hide Hit;
  }

  lemma SameReason(w: World, projects: seq<Selected>, qs: seq<Queue>, more: seq<Queue>, n: nat)
    requires n < |qs| && n < |more| && qs[n].id == more[n].id && qs[n].rest == more[n].rest
    ensures NothingLater(w, projects, qs, n) ==> NothingLater(w, projects, more, n)
  {
    hide Below, Fits;
    if NothingLater(w, projects, qs, n) {
      var mid :| Below(w, projects, n + 1, mid) && RefusedAt(w, projects, qs[n], mid);
      assert RefusedAt(w, projects, more[n], mid);
    }
  }

  lemma SpentForReason(w: World, projects: seq<Selected>, qs: seq<Queue>, d: Drop)
    requires qs != [] && d.Spent? && SpentAt(w, projects, qs, d)
    ensures NothingLater(w, projects, qs, |qs| - 1)
  {
    hide Fits, Refusals, Arises, Reopens, UpTo;
    var q := qs[|qs| - 1];
    RefusalsDoNotFit(w, d.mid, q.id, projects[|d.mid.projects|].a.pl, q.rest[1..], d.fails);
    assert RefusedAt(w, projects, q, d.mid);
  }

  /** The item cannot be had: its packages are refused at the selected version, or there is nothing to
      try, or nothing that fits. */
  ghost predicate Hopeless(w: World, s: Core, bmi: Bmi) {
    match Base(s.projects, bmi.id.root)
    case Some(b) => !CheckOk(w, s, AtomWithPackages(Atom(bmi.id, b.a.v), bmi.pl), true)
    case None => QueueFailure(w, s, bmi).Some? || forall v <- Candidates(w, s, bmi) :: !Fits(w, s, bmi.id, bmi.pl, v)
  }

  lemma RefusingIsHopeless(w: World, a: Stage, bmi: Bmi, f: Failure, ms: seq<Queue>)
    requires Refusing(w, a, bmi, f, ms)
    ensures Hopeless(w, a.core, bmi) && |ms| == |a.queues|
    ensures forall n :: 0 <= n < |ms| ==> ms[n].id == a.queues[n].id && ms[n].rest == a.queues[n].rest && (a.queues[n].failed ==> ms[n].failed)
  {
    hide CheckOk, Explains, QueueFailure, Candidates, Fits, Marking, NoneBlames, Refusals;
    match Base(a.core.projects, bmi.id.root)
    case Some(b) =>
      ExplainedIsRefused(w, a.core, AtomWithPackages(Atom(bmi.id, b.a.v), bmi.pl), true, f);
      forall n | 0 <= n < |ms| { MarkingAt(w, a.queues, Blame(f), n); }
    case None =>
      if QueueFailure(w, a.core, bmi).None? {
        RefusalsDoNotFit(w, a.core, bmi.id, bmi.pl, Candidates(w, a.core, bmi), f.fails);
        forall n | 0 <= n < |ms| { MarkingAt(w, a.queues, NoneBlames(a.core, bmi.id.root, f.fails), n); }
      }
  }

  /** When the search ends without a solution, the first item of the queue cannot be had, and every
      opened project was given up for good reason, counting those blamed for the item. */
  lemma NoSolutionHasReasons(w: World, a: Stage, f: Failure) returns (ms: seq<Queue>, log: seq<Drop>)
    requires Ends(w, a, f)
    ensures a.core.unsel != [] && Hopeless(w, a.core, a.core.unsel[0]) && Refusing(w, a, a.core.unsel[0], f, ms)
    ensures |ms| == |a.queues| && forall n :: 0 <= n < |ms| ==> GoodReason(w, a.core.projects, ms, log, n)
  {
    hide Refusing, Falls, Hopeless, GoodReason;
    ms :| Refusing(w, a, a.core.unsel[0], f, ms) && GivesUp(w, a.core.projects, ms);
    RefusingIsHopeless(w, a, a.core.unsel[0], f, ms);
    log :| Falls(w, a.core.projects, ms, log, []);
    GivenUpWithReason(w, a.core.projects, ms, log, []);
  }
}
