/** Runs that the search makes whatever the order of its work queue: an item is taken when it is the
    only one, versions are tried in order, and nothing is unselected unless a search failed. */
module ForcedRuns {
  import opened Constraints
  import opened Identifiers
  import opened Bridge
  import opened SolverCore
  import opened SolverInvariants
  import opened SolverRuns
  import opened Satisfy
  import opened VersionQueues
  import opened Searches
  import opened Solvers

  /** v is the first acceptable one of these versions. */
  ghost predicate FirstFit(w: World, s: Core, id: ProjectIdentifier, pl: seq<Package>, l: seq<Version>, v: Version) {
    exists i :: 0 <= i < |l| && l[i] == v && Fits(w, s, id, pl, v) && forall j :: 0 <= j < i ==> !Fits(w, s, id, pl, l[j])
  }

  ghost predicate NoneFits(w: World, s: Core, id: ProjectIdentifier, pl: seq<Package>, l: seq<Version>) {
    forall v <- l :: !Fits(w, s, id, pl, v)
  }

  /** The versions listed after v. */
  function After(l: seq<Version>, v: Version): seq<Version> {
    if l == [] then [] else if l[0] == v then l[1..] else After(l[1..], v)
  }

  function Later(w: World, x: Selected): seq<Version> { After(Listed(w, x.a.a.id), x.a.a.v) }

  function Top(s: Core): Selected
    requires s.projects != []
  {
    s.projects[|s.projects| - 1]
  }

  predicate Shrinks(s: Core, t: Core) { |t.projects| < |s.projects| }

  /** The only item in the queue is for a new project, none of whose candidates is acceptable. */
  ghost predicate Fails(w: World, s: Core) {
    && |s.unsel| == 1
    && var b := s.unsel[0];
    Base(s.projects, b.id.root).None? && Candidates(w, s, b) != [] && NoneFits(w, s, b.id, b.pl, Candidates(w, s, b))
  }

  /** x, unselected, is not selected again: no later version of it is acceptable. */
  ghost predicate GivenUp(w: World, s: Core, x: Selected) {
    x.first && NoneFits(w, s, x.a.a.id, x.a.pl, Later(w, x))
  }

  /** x, unselected, is selected again at the first acceptable of its later versions. */
  ghost predicate Retried(w: World, s: Core, x: Selected, y: Selected) {
    x.first && y.first && y.a.a.id == x.a.a.id && FirstFit(w, s, x.a.a.id, x.a.pl, Later(w, x), y.a.a.v)
  }

  /** y is the only item in the queue, at its first acceptable candidate. */
  ghost predicate TakenAlone(w: World, s: Core, y: Selected) {
    && |s.unsel| == 1
    && var b := s.unsel[0];
    y.a.a.id == b.id && (y.first ==> FirstFit(w, s, b.id, b.pl, Candidates(w, s, b), y.a.a.v))
  }

  /** A failing check on the only item blames id. */
  ghost predicate BlamedByCheck(w: World, s: Core, id: ProjectIdentifier) {
    && Fails(w, s)
    && exists v, f :: v in Candidates(w, s, s.unsel[0]) && id in Blame(f)
                      && Explains(w, s, AtomWithPackages(Atom(s.unsel[0].id, v), s.unsel[0].pl), false, f)
  }

  /** x was given up after trying later versions, and id asked for it first. */
  ghost predicate BlamedByGivingUp(w: World, s: Core, x: Selected, id: ProjectIdentifier) {
    && GivenUp(w, s, x) && Later(w, x) != []
    && On(s.deps, x.a.a.id.root) != [] && On(s.deps, x.a.a.id.root)[0].depender.id == id
  }

  /** Before step k, id was blamed by the search that failed. */
  ghost predicate BlamedBefore(w: World, ss: seq<Core>, k: nat, id: ProjectIdentifier)
    requires k < |ss|
  {
    exists j :: 0 <= j < k && Shrinks(ss[j], ss[j + 1]) && ss[j].projects != [] &&
                (BlamedByCheck(w, ss[j], id) || BlamedByGivingUp(w, ss[j + 1], Top(ss[j]), id))
  }

  /** The step from k is the search's own. */
  ghost predicate ForcedAt(w: World, ss: seq<Core>, k: nat)
    requires k + 1 < |ss|
  {
    var s, t := ss[k], ss[k + 1];
    if k > 0 && Shrinks(ss[k - 1], s) && ss[k - 1].projects != [] then
      var x := Top(ss[k - 1]);
      if Shrinks(s, t) then GivenUp(w, s, x) && (Later(w, x) != [] ==> BlamedBefore(w, ss, k, x.a.a.id))
      else t.projects != [] && Retried(w, s, x, Top(t)) && BlamedBefore(w, ss, k, x.a.a.id)
    else if Shrinks(s, t) then Fails(w, s)
    else t.projects != [] && TakenAlone(w, s, Top(t))
  }

  ghost predicate Forced(w: World, ss: seq<Core>) {
    Scheduled(w, ss) && forall k :: 0 <= k < |ss| - 1 ==> ForcedAt(w, ss, k)
  }

  lemma ForcedPush(w: World, ss: seq<Core>, t: Core)
    requires Forced(w, ss) && (Picks(w, ss[|ss| - 1], t) || Backs(w, ss[|ss| - 1], t)) && ForcedAt(w, ss + [t], |ss| - 1)
    ensures Forced(w, ss + [t])
  {
    ScheduledPush(w, ss, t);
    var tt := ss + [t];
    hide Scheduled, Picks, Backs, TakenAlone, Retried, GivenUp, Fails, BlamedByCheck, BlamedByGivingUp;
    forall k | 0 <= k < |tt| - 1 ensures ForcedAt(w, tt, k) {
      if k < |ss| - 1 { ForcedEarlier(w, ss, t, k); }
    }
  }

  lemma ForcedEarlier(w: World, ss: seq<Core>, t: Core, k: nat)
    requires k + 1 < |ss| && ForcedAt(w, ss, k)
    ensures ForcedAt(w, ss + [t], k)
  {
    hide TakenAlone, Retried, GivenUp, Fails, BlamedByCheck, BlamedByGivingUp;
    var tt := ss + [t];
    assert tt[k] == ss[k] && tt[k + 1] == ss[k + 1] && (k > 0 ==> tt[k - 1] == ss[k - 1]);
    forall id | BlamedBefore(w, ss, k, id) ensures BlamedBefore(w, tt, k, id) {
      var j :| 0 <= j < k && Shrinks(ss[j], ss[j + 1]) && ss[j].projects != [] &&
               (BlamedByCheck(w, ss[j], id) || BlamedByGivingUp(w, ss[j + 1], Top(ss[j]), id));
      assert tt[j] == ss[j] && tt[j + 1] == ss[j + 1];
    }
  }
}
