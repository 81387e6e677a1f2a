/** Why a move is refused, and whom the refusal blames (gps/satisfy.go). */
module Satisfy {
  import opened Constraints
  import opened Identifiers
  import opened Bridge
  import opened SolverCore

  datatype ErrDeppers = ErrDeppers(err: Option<string>, deppers: seq<Atom>)

  datatype Failure =
    | VersionNotAllowed(goal: Atom, failparent: seq<Dependency>, c: Constraint)
    | ProblemPackages(goal: Atom, failpkg: map<Package, ErrDeppers>)
    | PackagesUnavailable(goal: Atom)
    | ImportFailure(goal: Atom, importErr: ImportError)
    | SourceMismatch(shared: ProjectRoot, sel: seq<Dependency>, current: string, mismatch: string, prob: Atom)
    | WrongCase(correct: ProjectRoot, edge: Dependency, badcase: seq<Dependency>)
    | CaseMismatch(edge: Dependency, other: ProjectRoot, badcase: seq<Dependency>)
    | DisjointConstraint(edge: Dependency, failsib: seq<Dependency>, nofailsib: seq<Dependency>, c: Constraint)
    | ConstraintNotAllowed(edge: Dependency, v: Version)
    | NonexistentRevision(edge: Dependency, r: string)
    | DepProblemPackages(edge: Dependency, v: Version, problems: map<Package, Option<string>>)
    | NotLocated(id: ProjectIdentifier)
    | MissingSource(id: ProjectIdentifier)
    | VersionsUnavailable(id: ProjectIdentifier)
    | NoVersion(id: ProjectIdentifier, fails: seq<FailedVersion>)

  datatype FailedVersion = FailedVersion(v: Version, f: Option<Failure>)

  /** The two index operations of the source that nothing guards. */
  datatype Crash = NoVersions(id: ProjectIdentifier) | NoDepender(id: ProjectIdentifier)

  /** The outcome of looking for a version. */
  datatype Search = Found | Refused(f: Failure) | Crashed(c: Crash)

  function Dependers(es: seq<Dependency>): (ids: seq<ProjectIdentifier>)
    ensures |ids| == |es|
  {
    seq(|es|, i requires 0 <= i < |es| => es[i].depender.id)
  }

  /** The identifiers whose version queues a failure marks, in order. */
  function Blame(f: Failure): seq<ProjectIdentifier> {
    match f
    case VersionNotAllowed(_, failparent, _) => Dependers(failparent)
    case SourceMismatch(_, sel, _, _, _) => Dependers(sel)
    case WrongCase(_, _, badcase) => Dependers(badcase)
    case CaseMismatch(_, _, badcase) => Dependers(badcase)
    case DisjointConstraint(_, failsib, _, _) => Dependers(failsib)
    case ConstraintNotAllowed(edge, _) => [edge.dep.ident]
    case _ => []
  }

  // ------------------------------------------------------------------ the atom itself

  /** The edges whose constraint rejects v. */
  function Rejecting(w: World, es: seq<Dependency>, v: Version): seq<Dependency> {
    if es == [] then []
    else
      var last := es[|es| - 1];
      Rejecting(w, es[..|es| - 1], v) + if Matches(w.lib, last.dep.constraint, v) then [] else [last]
  }

  function AtomFailure(w: World, s: Core, a: Atom): Option<Failure> {
    var c := Composite(w, s.deps, a.id.root);
    if Matches(w.lib, c, a.v) then None
    else Some(VersionNotAllowed(a, Rejecting(w, On(s.deps, a.id.root), a.v), c))
  }

  predicate Problem(t: PackageTree, p: Package) { p !in t || t[p].Broken? }

  function ProblemErr(t: PackageTree, p: Package): Option<string> {
    if p in t && t[p].Broken? then Some(t[p].err) else None
  }

  /** What the edges ask for, one demand at a time. */
  function Demands(es: seq<Dependency>): seq<(Package, Atom)> {
    if es == [] then []
    else Demands(es[..|es| - 1]) + DemandsOf(es[|es| - 1].depender, es[|es| - 1].dep.pl)
  }

  function DemandsOf(a: Atom, pl: seq<Package>): (ds: seq<(Package, Atom)>)
    ensures |ds| == |pl| && forall i :: 0 <= i < |pl| ==> ds[i] == (pl[i], a)
  {
    seq(|pl|, i requires 0 <= i < |pl| => (pl[i], a))
  }

  /** Everyone who demanded p, in order. */
  function DeppersOf(ds: seq<(Package, Atom)>, p: Package): seq<Atom> {
    if ds == [] then []
    else DeppersOf(ds[..|ds| - 1], p) + if ds[|ds| - 1].0 == p then [ds[|ds| - 1].1] else []
  }

  function Problematic(t: PackageTree, ds: seq<(Package, Atom)>): set<Package> {
    set d | d in ds && Problem(t, d.0) :: d.0
  }

  function FailPkg(t: PackageTree, ds: seq<(Package, Atom)>): map<Package, ErrDeppers> {
    map p | p in Problematic(t, ds) :: ErrDeppers(ProblemErr(t, p), DeppersOf(ds, p))
  }

  function RequiredFailure(w: World, s: Core, a: Atom): Option<Failure> {
    match ListPackages(w, a.id, a.v)
    case None => Some(PackagesUnavailable(a))
    case Some(t) =>
      var fp := FailPkg(t, Demands(On(s.deps, a.id.root)));
      if fp == map[] then None else Some(ProblemPackages(a, fp))
  }

  // ------------------------------------------------------------------ one dependency

  function IdentFailure(w: World, s: Core, a: Atom, d: CompleteDep): Option<Failure> {
    var es := On(s.deps, d.ident.root);
    if es != [] && !es[0].dep.ident.Equiv(d.ident)
    then Some(SourceMismatch(d.ident.root, On(s.deps, a.id.root), es[0].dep.ident.NormalizedSource(), d.ident.NormalizedSource(), a))
    else None
  }

  function CaseFailure(w: World, s: Core, a: Atom, d: CompleteDep): Option<Failure> {
    var r := d.ident.root;
    if w.toFold(r) in s.foldRoots && s.foldRoots[w.toFold(r)] != r then
      var current := s.foldRoots[w.toFold(r)];
      var es := On(s.deps, current);
      // getIdentFor gives the empty identifier for a root without edges
      var seen := if es != [] then On(s.deps, es[0].dep.ident.root) else On(s.deps, "");
      Some(if current == a.id.root then WrongCase(r, Dependency(a, d), seen) else CaseMismatch(Dependency(a, d), current, seen))
    else None
  }

  function Disjoint(w: World, es: seq<Dependency>, c: Constraint, fails: bool): seq<Dependency> {
    if es == [] then []
    else
      var last := es[|es| - 1];
      Disjoint(w, es[..|es| - 1], c, fails) + if MatchesAny(w.lib, last.dep.constraint, c) != fails then [last] else []
  }

  function ConstraintFailure(w: World, s: Core, a: Atom, d: CompleteDep): Option<Failure> {
    var es := On(s.deps, d.ident.root);
    var c := Composite(w, s.deps, d.ident.root);
    if MatchesAny(w.lib, c, d.constraint) then None
    else Some(DisjointConstraint(Dependency(a, d), Disjoint(w, es, d.constraint, true), Disjoint(w, es, d.constraint, false), c))
  }

  function SelectedFailure(w: World, s: Core, a: Atom, d: CompleteDep): Option<Failure> {
    match Base(s.projects, d.ident.root)
    case Some(b) => if Matches(w.lib, d.constraint, b.a.v) then None else Some(ConstraintNotAllowed(Dependency(a, d), b.a.v))
    case None => None
  }

  function RevisionFailure(w: World, s: Core, a: Atom, d: CompleteDep): Option<Failure> {
    if IsRevision(d.constraint) && !w.revisionPresent(d.ident, d.constraint.v.rev)
    then Some(NonexistentRevision(Dependency(a, d), d.constraint.v.rev))
    else None
  }

  function Problems(t: PackageTree, pl: seq<Package>): map<Package, Option<string>> {
    map p | p in pl && Problem(t, p) :: ProblemErr(t, p)
  }

  function ImportsFailure(w: World, s: Core, a: Atom, d: CompleteDep): Option<Failure> {
    match Base(s.projects, d.ident.root)
    case None => None
    case Some(b) =>
      match ListPackages(w, b.a.id, b.a.v)
      case None => Some(PackagesUnavailable(b.a))
      case Some(t) =>
        var prob := Problems(t, d.pl);
        if prob == map[] then None else Some(DepProblemPackages(Dependency(a, d), b.a.v, prob))
  }

  function FirstFailure(a: Option<Failure>, b: Option<Failure>): Option<Failure> {
    if a.Some? then a else b
  }

  /** The six checks on one dependency, in the order check makes them. */
  function DepFailure(w: World, s: Core, a: Atom, d: CompleteDep): Option<Failure> {
    FirstFailure(IdentFailure(w, s, a, d),
    FirstFailure(CaseFailure(w, s, a, d),
    FirstFailure(ConstraintFailure(w, s, a, d),
    FirstFailure(SelectedFailure(w, s, a, d),
    FirstFailure(RevisionFailure(w, s, a, d), ImportsFailure(w, s, a, d))))))
  }

  /** f is the failure of some check on this move. */
  ghost predicate Explains(w: World, s: Core, awp: AtomWithPackages, pkgonly: bool, f: Failure) {
    || (!pkgonly && AtomFailure(w, s, awp.a) == Some(f))
    || RequiredFailure(w, s, awp.a) == Some(f)
    || (Imports(w, awp.a, awp.pl).ImportFailed? && f == ImportFailure(awp.a, Imports(w, awp.a, awp.pl).err))
    || (Imports(w, awp.a, awp.pl).Imported? &&
        exists r :: r in Imports(w, awp.a, awp.pl).deps && DepFailure(w, s, awp.a, Imports(w, awp.a, awp.pl).deps[r]) == Some(f))
  }

  // ------------------------------------------------------------------ failures and guards agree

  lemma EmptyMap<K, V>(m: map<K, V>)
    ensures m == map[] <==> m.Keys == {}
  {
  }

  lemma ProblemsEmpty(t: PackageTree, pl: seq<Package>)
    ensures Problems(t, pl) == map[] <==> PackagesOk(Some(t), pl)
  {
    EmptyMap(Problems(t, pl));
    if p :| p in pl && Problem(t, p) {
      assert p in Problems(t, pl);
    }
  }

  lemma DepFailureIffNotOk(w: World, s: Core, a: Atom, d: CompleteDep)
    ensures DepFailure(w, s, a, d).None? <==> DepOk(w, s, d)
  {
    var b := Base(s.projects, d.ident.root);
    if b.Some? && ListPackages(w, b.value.a.id, b.value.a.v).Some? {
      ProblemsEmpty(ListPackages(w, b.value.a.id, b.value.a.v).value, d.pl);
    }
  }

  ghost predicate Demanded(ds: seq<(Package, Atom)>, p: Package) {
    exists d :: d in ds && d.0 == p
  }

  lemma {:induction false} DemandsAre(es: seq<Dependency>, p: Package)
    ensures Demanded(Demands(es), p) <==> exists e :: e in es && p in e.dep.pl
  {
    if es != [] {
      var init, last := es[..|es| - 1], es[|es| - 1];
      DemandsAre(init, p);
      assert es == init + [last];
      var ds := DemandsOf(last.depender, last.dep.pl);
      if p in last.dep.pl {
        var i :| 0 <= i < |last.dep.pl| && last.dep.pl[i] == p;
        assert ds[i] in Demands(es) && last in es;
      }
      if d :| d in ds && d.0 == p {
        var i :| 0 <= i < |ds| && ds[i] == d;
        assert last.dep.pl[i] == p;
      }
    }
  }

  lemma RequiredFailureIffNotOk(w: World, s: Core, a: Atom)
    ensures RequiredFailure(w, s, a).None? <==>
            var t := ListPackages(w, a.id, a.v); t.Some? && forall e <- On(s.deps, a.id.root) :: PackagesOk(t, e.dep.pl)
  {
    var es := On(s.deps, a.id.root);
    var o := ListPackages(w, a.id, a.v);
    if o.Some? {
      var t := o.value;
      EmptyMap(FailPkg(t, Demands(es)));
      forall p ensures Demanded(Demands(es), p) <==> exists e :: e in es && p in e.dep.pl { DemandsAre(es, p); }
      if FailPkg(t, Demands(es)) == map[] {
        forall e | e in es ensures PackagesOk(o, e.dep.pl) {
          forall p | p in e.dep.pl ensures !Problem(t, p) {
            assert Demanded(Demands(es), p);
            var d :| d in Demands(es) && d.0 == p;
            assert Problem(t, d.0) ==> d.0 in FailPkg(t, Demands(es));
          }
        }
      } else {
        var p :| p in FailPkg(t, Demands(es));
        assert Demanded(Demands(es), p);
        var e :| e in es && p in e.dep.pl;
      }
    }
  }

  /** check lets a move through exactly when none of its failures arises. */
  lemma NoFailureIffCheckOk(w: World, s: Core, awp: AtomWithPackages, pkgonly: bool)
    ensures CheckOk(w, s, awp, pkgonly) <==>
            && (pkgonly || AtomFailure(w, s, awp.a).None?)
            && RequiredFailure(w, s, awp.a).None?
            && Imports(w, awp.a, awp.pl).Imported?
            && forall r <- Imports(w, awp.a, awp.pl).deps :: DepFailure(w, s, awp.a, Imports(w, awp.a, awp.pl).deps[r]).None?
  {
    RequiredFailureIffNotOk(w, s, awp.a);
    if Imports(w, awp.a, awp.pl).Imported? {
      forall d { DepFailureIffNotOk(w, s, awp.a, d); }
    }
  }

  // ------------------------------------------------------------------ one demand more

  lemma {:induction false} NoDeppers(ds: seq<(Package, Atom)>, p: Package)
    requires forall d <- ds :: d.0 != p
    ensures DeppersOf(ds, p) == []
  {
    if ds != [] {
      NoDeppers(ds[..|ds| - 1], p);
    }
  }

  lemma ProblematicPush(t: PackageTree, ds: seq<(Package, Atom)>, p: Package, a: Atom)
    ensures Problematic(t, ds + [(p, a)]) == Problematic(t, ds) + if Problem(t, p) then {p} else {}
  {
    var more := ds + [(p, a)];
    forall q ensures q in Problematic(t, more) <==> q in Problematic(t, ds) || (q == p && Problem(t, p)) {
      assert more[|ds|] == (p, a) && forall d :: d in more <==> d in ds || d == (p, a);
    }
  }

  lemma DeppersPush(ds: seq<(Package, Atom)>, p: Package, a: Atom, q: Package)
    ensures DeppersOf(ds + [(p, a)], q) == if q == p then DeppersOf(ds, q) + [a] else DeppersOf(ds, q)
  {
    assert (ds + [(p, a)])[..|ds|] == ds;
  }

  lemma FailPkgAt(t: PackageTree, ds: seq<(Package, Atom)>, p: Package, a: Atom, q: Package)
    ensures var fp, more := FailPkg(t, ds), FailPkg(t, ds + [(p, a)]);
            && (q in more <==> q in fp || (q == p && Problem(t, p)))
            && (q in more && q != p ==> more[q] == fp[q])
            && (q in more && q == p ==> more[q] == ErrDeppers(ProblemErr(t, p), DeppersOf(ds, p) + [a]))
  {
    ProblematicPush(t, ds, p, a);
    DeppersPush(ds, p, a, q);
  }

  lemma FailPkgPush(t: PackageTree, ds: seq<(Package, Atom)>, p: Package, a: Atom)
    ensures var fp := FailPkg(t, ds);
            FailPkg(t, ds + [(p, a)]) ==
            if p in fp then fp[p := ErrDeppers(fp[p].err, fp[p].deppers + [a])]
            else if Problem(t, p) then fp[p := ErrDeppers(ProblemErr(t, p), [a])]
            else fp
  {
    hide Problem, DeppersOf;
    var fp := FailPkg(t, ds);
    if p !in fp && Problem(t, p) {
      NoDeppers(ds, p);
      assert [] + [a] == [a];
    }
    forall q { FailPkgAt(t, ds, p, a, q); }
  }

  // ------------------------------------------------------------------ marking queues

  /** solver.fail: the first queue for this identifier, unless it is the root's. */
  function FirstQueue(ids: seq<ProjectIdentifier>, id: ProjectIdentifier): (k: nat)
    ensures k <= |ids|
    ensures forall i :: 0 <= i < k ==> !ids[i].Eq(id)
    ensures k < |ids| ==> ids[k].Eq(id)
  {
    if ids == [] || ids[0].Eq(id) then 0 else 1 + FirstQueue(ids[1..], id)
  }

  /** One of the blamed identifiers has its first queue at position i. */
  ghost predicate Hit(w: World, ids: seq<ProjectIdentifier>, blamed: seq<ProjectIdentifier>, i: nat) {
    exists k :: 0 <= k < |blamed| && blamed[k].root != w.rootName && FirstQueue(ids, blamed[k]) == i
  }

  lemma {:induction false} FirstQueueInit(ids: seq<ProjectIdentifier>, id: ProjectIdentifier, n: nat)
    requires n <= |ids|
    ensures FirstQueue(ids, id) < n ==> FirstQueue(ids[..n], id) == FirstQueue(ids, id)
    ensures FirstQueue(ids[..n], id) < n ==> FirstQueue(ids, id) == FirstQueue(ids[..n], id)
  {
    if n > 0 {
      assert ids[..n][1..] == ids[1..][..n - 1];
      FirstQueueInit(ids[1..], id, n - 1);
    }
  }

  lemma HitInit(w: World, ids: seq<ProjectIdentifier>, blamed: seq<ProjectIdentifier>, n: nat, i: nat)
    requires i < n <= |ids|
    ensures Hit(w, ids, blamed, i) <==> Hit(w, ids[..n], blamed, i)
  {
    forall id { FirstQueueInit(ids, id, n); }
  }

  /** after is before with exactly the queues of the blamed identifiers marked. */
  ghost predicate Marked(w: World, ids: seq<ProjectIdentifier>, before: seq<bool>, after: seq<bool>, blamed: seq<ProjectIdentifier>) {
    && |before| == |after| == |ids|
    && forall i :: 0 <= i < |ids| ==> (after[i] <==> before[i] || Hit(w, ids, blamed, i))
  }

  lemma NothingMarked(w: World, ids: seq<ProjectIdentifier>, before: seq<bool>, after: seq<bool>)
    requires |before| == |ids|
    ensures Marked(w, ids, before, after, []) <==> before == after
  {
  }

  function BlameOf(f: Option<Failure>): seq<ProjectIdentifier> {
    match f case Some(x) => Blame(x) case None => []
  }

  lemma HitPush(w: World, ids: seq<ProjectIdentifier>, blamed: seq<ProjectIdentifier>, id: ProjectIdentifier)
    ensures forall i :: Hit(w, ids, blamed + [id], i) <==> Hit(w, ids, blamed, i) || (id.root != w.rootName && FirstQueue(ids, id) == i)
  {
    var more := blamed + [id];
    forall i ensures Hit(w, ids, more, i) <==> Hit(w, ids, blamed, i) || (id.root != w.rootName && FirstQueue(ids, id) == i) {
      assert more[|blamed|] == id && forall k :: 0 <= k < |blamed| ==> more[k] == blamed[k];
    }
  }

  // ------------------------------------------------------------------ which versions to try

  /** getLockVersionIfValid: the root lock's version unless a change was asked for. */
  function LockVersion(w: World, id: ProjectIdentifier): Option<Version> {
    if (id.root in w.change || w.changeAll) && w.sourceExists(id) then None
    else if id.root in w.rootLock then Some(w.rootLock[id.root]) else None
  }

  /** A change was asked for explicitly but no source could supply one. */
  predicate ChangeImpossible(w: World, id: ProjectIdentifier) {
    w.rootLock != map[] && id.root in w.change && !w.sourceExists(id)
  }

  /** The last version a lock records for an equivalent identifier. */
  function LastLocked(lock: seq<LockedProject>, id: ProjectIdentifier, otherwise: Option<Version>): Option<Version> {
    if lock == [] then otherwise
    else if lock[|lock| - 1].ident.Eq(id) then Some(lock[|lock| - 1].version)
    else LastLocked(lock[..|lock| - 1], id, otherwise)
  }

  /** What the locks of the projects depending on id say, the latest depender winning. */
  function DependersLock(w: World, es: seq<Dependency>, id: ProjectIdentifier): Option<Version> {
    if es == [] then None
    else
      var a, before := es[|es| - 1].depender, DependersLock(w, es[..|es| - 1], id);
      if a.id.root == w.rootName then before else LastLocked(w.lock(a.id, a.v), id, before)
  }

  function Preferred(w: World, s: Core, bmi: Bmi): Option<Version> {
    if bmi.fromRoot then DependersLock(w, On(s.deps, bmi.id.root), bmi.id) else bmi.prefv
  }

  /** A revision demanded by the dependers is tried before anything else. */
  function RevisionFirst(c: Constraint, offer: seq<Version>): seq<Version> {
    if IsRevision(c) && offer != [] && offer[0] != c.v then [c.v] + offer else offer
  }
}
