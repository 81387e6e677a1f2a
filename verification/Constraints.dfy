/** Versions and constraints of gps (gps/version.go, gps/constraint.go) over a semver
    library that is a parameter.  The type switches of Matches, MatchesAny and Intersect are
    kept case by case, paired versions in constraint position included. */
module Constraints {

  datatype Option<+T> = None | Some(value: T)

  /** A parsed semantic version of the semver library. */
  datatype SemVer = SemVer(major: nat, minor: nat, patch: nat, pre: string, metadata: string, original: string)

  /** A semver constraint other than the library's "none". */
  datatype SemRange = SemRange(text: string)

  /** The calls gps makes into the semver library: Version.Equal, Constraint.Matches, and
      Constraint.Intersect with a range (None stands for the library's "none") or with a
      version (true when the result is not "none"). */
  datatype Library = Library(
    equal: (SemVer, SemVer) -> bool,
    admits: (SemRange, SemVer) -> bool,
    meet: (SemRange, SemRange) -> Option<SemRange>,
    meetVersion: (SemRange, SemVer) -> bool)

  /** Equal is an equivalence that the ranges respect. */
  ghost predicate EqualIsCongruence(lib: Library) {
    && (forall a :: lib.equal(a, a))
    && (forall a, b :: lib.equal(a, b) ==> lib.equal(b, a))
    && (forall a, b, c :: lib.equal(a, b) && lib.equal(b, c) ==> lib.equal(a, c))
    && (forall r, a, b :: lib.equal(a, b) && lib.admits(r, a) ==> lib.admits(r, b))
  }

  /** The half of the intersection law the solver's safety rests on. */
  ghost predicate SoundMeet(lib: Library) {
    && (forall r, s, v :: lib.meet(r, s).Some? && lib.admits(lib.meet(r, s).value, v) ==> lib.admits(r, v) && lib.admits(s, v))
    && (forall r, v :: lib.meetVersion(r, v) ==> lib.admits(r, v))
  }

  /** The other half: no version both ranges admit is lost. */
  ghost predicate CompleteMeet(lib: Library) {
    && (forall r, s, v :: lib.admits(r, v) && lib.admits(s, v) ==> lib.meet(r, s).Some? && lib.admits(lib.meet(r, s).value, v))
    && (forall r, v :: lib.admits(r, v) ==> lib.meetVersion(r, v))
  }

  ghost predicate Sound(lib: Library) { EqualIsCongruence(lib) && SoundMeet(lib) }

  ghost predicate Lawful(lib: Library) { Sound(lib) && CompleteMeet(lib) }

  datatype Unpaired = Branch(name: string, isDefault: bool) | Plain(body: string) | Sem(sv: SemVer)

  datatype Version = Revision(rev: string) | Bare(u: Unpaired) | Pair(pu: Unpaired, pr: string)

  datatype Constraint = Any | Nothing | Range(c: SemRange) | Exact(v: Version)

  /** What a manifest can hold; paired versions and "none" never come from one. */
  predicate ManifestLevel(c: Constraint) {
    match c
    case Any => true
    case Nothing => false
    case Range(_) => true
    case Exact(v) => !v.Pair?
  }

  predicate UnpairedMatches(lib: Library, a: Unpaired, b: Unpaired) {
    match (a, b)
    case (Branch(n, _), Branch(m, _)) => n == m
    case (Plain(n), Plain(m)) => n == m
    case (Sem(x), Sem(y)) => lib.equal(x, y)
    case _ => false
  }

  predicate Matches(lib: Library, c: Constraint, v: Version) {
    match c
    case Any => true
    case Nothing => false
    case Range(r) =>
      (match v
       case Bare(Sem(sv)) => lib.admits(r, sv)
       case Pair(Sem(sv), _) => lib.admits(r, sv)
       case _ => false)
    case Exact(Revision(r)) =>
      (match v
       case Revision(r2) => r == r2
       case Pair(_, r2) => r == r2
       case Bare(_) => false)
    case Exact(Bare(u)) =>
      (match v
       case Revision(_) => false
       case Bare(u2) => UnpairedMatches(lib, u, u2)
       case Pair(u2, _) => if u.Sem? then UnpairedMatches(lib, u2, u) else UnpairedMatches(lib, u, u2))
    case Exact(Pair(u, r)) =>
      (match v
       case Revision(r2) => r == r2
       case Pair(_, r2) => r == r2
       case Bare(u2) => UnpairedMatches(lib, u, u2))
  }

  function Intersect(lib: Library, a: Constraint, b: Constraint): Constraint {
    match a
    case Any => b
    case Nothing => Nothing
    case Range(r) => IntersectRange(lib, r, b)
    case Exact(Revision(r)) =>
      (match b
       case Any => a
       case Exact(Revision(r2)) => if r == r2 then a else Nothing
       case Exact(Pair(_, r2)) => if r == r2 then a else Nothing
       case _ => Nothing)
    case Exact(Bare(u)) =>
      (match b
       case Any => a
       case Nothing => Nothing
       case Range(r) => if u.Sem? then IntersectRange(lib, r, a) else Nothing
       case Exact(Revision(_)) => Nothing
       case Exact(Bare(u2)) => if UnpairedMatches(lib, u, u2) then a else Nothing
       case Exact(Pair(u2, _)) => if UnpairedMatches(lib, u, u2) then a else Nothing)
    case Exact(Pair(u, r)) =>
      (match b
       case Any => a
       case Nothing => Nothing
       case Exact(Pair(_, r2)) => if r == r2 then Exact(Revision(r)) else Nothing
       case Exact(Revision(r2)) => if r == r2 then Exact(Revision(r)) else Nothing
       case Range(c) => if u.Sem? && IntersectRange(lib, c, Exact(Bare(u))) == Exact(Bare(u)) then a else Nothing
       case Exact(Bare(u2)) =>
         if u.Sem? then (if u2.Sem? && lib.equal(u.sv, u2.sv) then a else Nothing)
         else if Matches(lib, b, a.v) then a else Nothing)
  }

  function IntersectRange(lib: Library, r: SemRange, b: Constraint): Constraint {
    match b
    case Any => Range(r)
    case Range(s) => (match lib.meet(r, s) case Some(m) => Range(m) case None => Nothing)
    case Exact(Bare(Sem(sv))) => if lib.meetVersion(r, sv) then b else Nothing
    case Exact(Pair(Sem(sv), _)) => if lib.meetVersion(r, sv) then b else Nothing
    case _ => Nothing
  }

  predicate MatchesAny(lib: Library, a: Constraint, b: Constraint) {
    match a
    case Any => true
    case Nothing => false
    case Range(_) => Intersect(lib, a, b) != Nothing
    case Exact(Revision(r)) =>
      (match b
       case Any => true
       case Exact(Revision(r2)) => r == r2
       case Exact(Pair(_, r2)) => r == r2
       case _ => false)
    case Exact(Bare(u)) =>
      (match b
       case Any => true
       case Nothing => false
       case Range(_) => u.Sem? && Intersect(lib, b, a) != Nothing
       case Exact(Revision(_)) => false
       case Exact(Bare(u2)) => UnpairedMatches(lib, u, u2)
       case Exact(Pair(u2, _)) => if u.Sem? then UnpairedMatches(lib, u2, u) else UnpairedMatches(lib, u, u2))
    case Exact(Pair(_, _)) => Matches(lib, b, a.v)
  }

  /** The loop of selection.getConstraint: start from "any" and intersect in list order. */
  function Fold(lib: Library, cs: seq<Constraint>): Constraint {
    if cs == [] then Any else Intersect(lib, Fold(lib, cs[..|cs| - 1]), cs[|cs| - 1])
  }

  // ------------------------------------------------------------------ algebra

  /** The cheap test agrees with the intersection it stands for. */
  lemma MatchesAnyIsNonEmptyIntersection(lib: Library, a: Constraint, b: Constraint)
    requires ManifestLevel(a) && ManifestLevel(b)
    ensures MatchesAny(lib, a, b) <==> Intersect(lib, a, b) != Nothing
  {
  }

  /** An intersection admits only what both sides admit. */
  lemma IntersectImpliesBoth(lib: Library, a: Constraint, b: Constraint, v: Version)
    requires Sound(lib) && ManifestLevel(a) && ManifestLevel(b)
    requires Matches(lib, Intersect(lib, a, b), v)
    ensures Matches(lib, a, v) && Matches(lib, b, v)
  {
  }

  predicate IsRevision(c: Constraint) { c.Exact? && c.v.Revision? }

  /** It admits all of it too, unless exactly one side is a revision and the other is not "any". */
  lemma IntersectIsConjunction(lib: Library, a: Constraint, b: Constraint, v: Version)
    requires Lawful(lib) && ManifestLevel(a) && ManifestLevel(b)
    requires IsRevision(a) == IsRevision(b) || a.Any? || b.Any?
    ensures Matches(lib, Intersect(lib, a, b), v) <==> Matches(lib, a, v) && Matches(lib, b, v)
  {
  }

  /** The excluded case really fails: a branch, tag or semver constraint against a revision
      is rejected although a paired version satisfies both. */
  lemma RevisionLosesPairedVersions(lib: Library, r: string, c: Constraint, u: Unpaired)
    requires ManifestLevel(c) && !IsRevision(c) && !c.Any?
    requires Matches(lib, c, Pair(u, r))
    ensures Intersect(lib, Exact(Revision(r)), c) == Nothing && Intersect(lib, c, Exact(Revision(r))) == Nothing
    ensures Matches(lib, Exact(Revision(r)), Pair(u, r))
  {
  }

  /** And nothing else fails: an intersection loses a version that both sides admit exactly when
      the version is paired and just one side is a revision, the other not being "any". */
  lemma IntersectLosesExactly(lib: Library, a: Constraint, b: Constraint, v: Version)
    requires Lawful(lib) && ManifestLevel(a) && ManifestLevel(b) && Matches(lib, a, v) && Matches(lib, b, v)
    ensures !Matches(lib, Intersect(lib, a, b), v) <==> v.Pair? && IsRevision(a) != IsRevision(b) && !a.Any? && !b.Any?
  {
  }

  // ------------------------------------------------------------------ what constraints tell apart

  /** Some version satisfies both. */
  ghost predicate Overlap(lib: Library, a: Constraint, b: Constraint) {
    exists v :: Matches(lib, a, v) && Matches(lib, b, v)
  }

  /** The branch, tag or semantic version of a version. */
  function LabelOf(v: Version): Option<Unpaired> {
    match v case Revision(_) => None case Bare(u) => Some(u) case Pair(u, _) => Some(u)
  }

  function HashOf(v: Version): Option<string> {
    match v case Revision(r) => Some(r) case Bare(_) => None case Pair(_, r) => Some(r)
  }

  /** A constraint to a branch is satisfied by exactly the versions on a branch of that name, and
      overlaps exactly with constraints to that branch. */
  lemma BranchesGoByName(lib: Library, n: string, m: string, c: bool, d: bool, v: Version)
    ensures var a, b := Exact(Bare(Branch(n, c))), Exact(Bare(Branch(m, d)));
            && (Matches(lib, a, v) <==> exists e :: LabelOf(v) == Some(Branch(n, e)))
            && (Overlap(lib, a, b) <==> n == m) && (MatchesAny(lib, a, b) <==> n == m) && (Intersect(lib, a, b) != Nothing <==> n == m)
  {
    var a, b := Exact(Bare(Branch(n, c))), Exact(Bare(Branch(m, d)));
    assert Matches(lib, a, Bare(Branch(n, c)));
    assert Matches(lib, a, v) ==> LabelOf(v) == Some(Branch(n, LabelOf(v).value.isDefault));
  }

  /** Plain tags likewise by their text. */
  lemma TagsGoByText(lib: Library, n: string, m: string, v: Version)
    ensures var a, b := Exact(Bare(Plain(n))), Exact(Bare(Plain(m)));
            && (Matches(lib, a, v) <==> LabelOf(v) == Some(Plain(n)))
            && (Overlap(lib, a, b) <==> n == m) && (MatchesAny(lib, a, b) <==> n == m) && (Intersect(lib, a, b) != Nothing <==> n == m)
  {
    assert Matches(lib, Exact(Bare(Plain(n))), Bare(Plain(n)));
  }

  /** Revisions by their hash, whatever else a version carries. */
  lemma RevisionsGoByHash(lib: Library, r: string, q: string, v: Version)
    ensures var a, b := Exact(Revision(r)), Exact(Revision(q));
            && (Matches(lib, a, v) <==> HashOf(v) == Some(r))
            && (Overlap(lib, a, b) <==> r == q) && (MatchesAny(lib, a, b) <==> r == q) && (Intersect(lib, a, b) != Nothing <==> r == q)
  {
    assert Matches(lib, Exact(Revision(r)), Revision(r));
  }

  /** Semantic versions by the library's equality, ranges by what the library admits. */
  lemma SemVersGoByLibrary(lib: Library, x: SemVer, y: SemVer, r: SemRange, v: Version)
    requires EqualIsCongruence(lib)
    ensures var a, b := Exact(Bare(Sem(x))), Exact(Bare(Sem(y)));
            && (Matches(lib, a, v) <==> exists z :: LabelOf(v) == Some(Sem(z)) && lib.equal(x, z))
            && (Overlap(lib, a, b) <==> lib.equal(x, y)) && (MatchesAny(lib, a, b) <==> lib.equal(x, y)) && (Intersect(lib, a, b) != Nothing <==> lib.equal(x, y))
    ensures Matches(lib, Range(r), v) <==> exists z :: LabelOf(v) == Some(Sem(z)) && lib.admits(r, z)
  {
    var a, b := Exact(Bare(Sem(x))), Exact(Bare(Sem(y)));
    assert Matches(lib, a, Bare(Sem(x)));
    if LabelOf(v).Some? && LabelOf(v).value.Sem? { assert LabelOf(v) == Some(Sem(LabelOf(v).value.sv)); }
    if lib.equal(x, y) { assert Matches(lib, b, Bare(Sem(x))); }
    if u :| Matches(lib, a, u) && Matches(lib, b, u) { assert lib.equal(x, LabelOf(u).value.sv) && lib.equal(y, LabelOf(u).value.sv); }
  }

  predicate SameKind(u: Unpaired, v: Unpaired) {
    (u.Branch? && v.Branch?) || (u.Plain? && v.Plain?) || (u.Sem? && v.Sem?)
  }

  /** Different kinds have nothing in common; nor do revisions with versions that carry none, nor
      ranges with anything but semantic versions. */
  lemma KindsDoNotMix(lib: Library, u: Unpaired, v: Unpaired, q: string, r: SemRange)
    ensures var a, b := Exact(Bare(u)), Exact(Bare(v));
            SameKind(u, v) || (!Matches(lib, a, Bare(v)) && !Matches(lib, a, Pair(v, q)) && !Overlap(lib, a, b) && !MatchesAny(lib, a, b)
                               && Intersect(lib, a, b) == Nothing)
    ensures var a, h := Exact(Bare(u)), Exact(Revision(q));
            && !Matches(lib, h, Bare(u)) && !Matches(lib, a, Revision(q)) && !MatchesAny(lib, h, a) && !MatchesAny(lib, a, h)
            && Intersect(lib, a, h) == Intersect(lib, h, a) == Nothing
    ensures !u.Sem? ==> !Matches(lib, Range(r), Bare(u)) && !Matches(lib, Range(r), Pair(u, q))
                        && Intersect(lib, Range(r), Exact(Bare(u))) == Intersect(lib, Exact(Bare(u)), Range(r)) == Nothing
    ensures !Matches(lib, Range(r), Revision(q))
  {
  }

  /** A paired version, taken as a constraint, is met by what has its revision, and by what has none if
      the label agrees; two of them intersect if and only if the revision is the same, in all that has
      this revision. */
  lemma PairsGoByRevision(lib: Library, u: Unpaired, r: string, x: Unpaired, q: string, v: Version)
    ensures var a, b := Exact(Pair(u, r)), Exact(Pair(x, q));
            && (HashOf(v).Some? ==> (Matches(lib, a, v) <==> HashOf(v) == Some(r)))
            && (HashOf(v).None? ==> (Matches(lib, a, v) <==> Matches(lib, Exact(Bare(u)), v)))
            && (Intersect(lib, a, b) != Nothing <==> r == q)
            && (r == q ==> (Matches(lib, Intersect(lib, a, b), v) <==> HashOf(v) == Some(r)))
  {
  }

  /** "Any" admits everything and changes nothing, "none" admits nothing. */
  lemma AnyIsNeutral(lib: Library, c: Constraint, v: Version)
    ensures Matches(lib, Any, v) && !Matches(lib, Nothing, v)
    ensures ManifestLevel(c) ==> Intersect(lib, Any, c) == c == Intersect(lib, c, Any)
    ensures ManifestLevel(c) ==> MatchesAny(lib, Any, c) && MatchesAny(lib, c, Any)
  {
  }

  // ------------------------------------------------------------------ folding

  lemma FoldStaysManifestLevel(lib: Library, cs: seq<Constraint>)
    requires forall c <- cs :: ManifestLevel(c)
    ensures Fold(lib, cs) == Nothing || ManifestLevel(Fold(lib, cs))
  {
    if cs != [] {
      FoldStaysManifestLevel(lib, cs[..|cs| - 1]);
    }
  }

  /** The composite constraint implies every constraint folded into it. */
  lemma {:induction false} FoldImpliesMembers(lib: Library, cs: seq<Constraint>, v: Version)
    requires Sound(lib) && forall c <- cs :: ManifestLevel(c)
    requires Matches(lib, Fold(lib, cs), v)
    ensures forall c <- cs :: Matches(lib, c, v)
  {
    if cs != [] {
      var init, last := cs[..|cs| - 1], cs[|cs| - 1];
      FoldStaysManifestLevel(lib, init);
      IntersectImpliesBoth(lib, Fold(lib, init), last, v);
      FoldImpliesMembers(lib, init, v);
      assert cs == init + [last];
    }
  }

  /** Without revisions the fold is exactly the conjunction of its members. */
  lemma {:induction false} FoldIsConjunction(lib: Library, cs: seq<Constraint>, v: Version)
    requires Lawful(lib) && forall c <- cs :: ManifestLevel(c) && !IsRevision(c)
    ensures !IsRevision(Fold(lib, cs))
    ensures Matches(lib, Fold(lib, cs), v) <==> forall c <- cs :: Matches(lib, c, v)
  {
    if cs != [] {
      var init, last := cs[..|cs| - 1], cs[|cs| - 1];
      FoldIsConjunction(lib, init, v);
      FoldStaysManifestLevel(lib, init);
      if Fold(lib, init) != Nothing {
        IntersectIsConjunction(lib, Fold(lib, init), last, v);
      }
      assert cs == init + [last];
    }
  }

  lemma UnpairedIsConjunction(lib: Library, a: Constraint, b: Constraint, v: Version)
    requires Lawful(lib) && (a == Nothing || ManifestLevel(a)) && ManifestLevel(b) && !v.Pair?
    ensures Matches(lib, Intersect(lib, a, b), v) <==> Matches(lib, a, v) && Matches(lib, b, v)
  {
  }

  /** On versions without a revision of their own it is so whatever the members are. */
  lemma {:induction false} UnpairedFoldIsConjunction(lib: Library, cs: seq<Constraint>, v: Version)
    requires Lawful(lib) && (forall c <- cs :: ManifestLevel(c)) && !v.Pair?
    ensures Matches(lib, Fold(lib, cs), v) <==> forall c <- cs :: Matches(lib, c, v)
  {
    if cs != [] {
      var init, last := cs[..|cs| - 1], cs[|cs| - 1];
      UnpairedFoldIsConjunction(lib, init, v);
      FoldStaysManifestLevel(lib, init);
      UnpairedIsConjunction(lib, Fold(lib, init), last, v);
      assert cs == init + [last];
    }
  }

  /** Once empty, always empty: every prefix of a non-empty fold is non-empty. */
  lemma {:induction false} FoldPrefixNonEmpty(lib: Library, cs: seq<Constraint>, n: nat)
    requires n <= |cs| && Fold(lib, cs) != Nothing
    ensures Fold(lib, cs[..n]) != Nothing
    decreases |cs|
  {
    if n == |cs| {
      assert cs[..n] == cs;
    } else {
      FoldPrefixNonEmpty(lib, cs[..|cs| - 1], n);
      assert cs[..|cs| - 1][..n] == cs[..n];
    }
  }

  lemma IntersectIsRevision(lib: Library, a: Constraint, b: Constraint, r: string)
    requires a == Nothing || ManifestLevel(a)
    requires ManifestLevel(b)
    requires Intersect(lib, a, b) == Exact(Revision(r))
    ensures a == Any || a == Exact(Revision(r))
    ensures b == Any || b == Exact(Revision(r))
  {
  }

  /** If the composite is a revision then every member is that revision or "any". */
  lemma {:induction false} RevisionFoldIsUnanimous(lib: Library, cs: seq<Constraint>, r: string)
    requires forall c <- cs :: ManifestLevel(c)
    requires Fold(lib, cs) == Exact(Revision(r))
    ensures forall c <- cs :: c == Any || c == Exact(Revision(r))
  {
    var init, last := cs[..|cs| - 1], cs[|cs| - 1];
    FoldStaysManifestLevel(lib, init);
    IntersectIsRevision(lib, Fold(lib, init), last, r);
    if Fold(lib, init) == Any {
      AnyFoldIsAny(lib, init);
    } else {
      RevisionFoldIsUnanimous(lib, init, r);
    }
    assert cs == init + [last];
  }

  lemma {:induction false} AnyFoldIsAny(lib: Library, cs: seq<Constraint>)
    requires forall c <- cs :: ManifestLevel(c)
    requires Fold(lib, cs) == Any
    ensures forall c <- cs :: c == Any
  {
    if cs != [] {
      var init, last := cs[..|cs| - 1], cs[|cs| - 1];
      FoldStaysManifestLevel(lib, init);
      assert Fold(lib, init) == Any && last == Any;
      AnyFoldIsAny(lib, init);
      assert cs == init + [last];
    }
  }

  /** The library laws are needed, not only enough: a semver library whose intersection with
      a version is inexact (as vendor/github.com/Masterminds/semver/union.go:29-30 is) makes
      a two-member fold admit a version its first member rejects. */
  lemma InexactVersionMeetBreaksFold(lib: Library, r: SemRange, sv: SemVer)
    requires EqualIsCongruence(lib)
    requires lib.meetVersion(r, sv) && !lib.admits(r, sv)
    ensures var cs := [Range(r), Exact(Bare(Sem(sv)))];
            Matches(lib, Fold(lib, cs), Bare(Sem(sv))) && !Matches(lib, cs[0], Bare(Sem(sv)))
  {
    var cs := [Range(r), Exact(Bare(Sem(sv)))];
    assert cs[..1] == [Range(r)] && cs[..1][..0] == [];
    assert Fold(lib, cs[..1]) == Range(r);
  }

  /** Every list's fold implies its members. */
  ghost predicate FoldIsSound(lib: Library) {
    forall cs: seq<Constraint>, v, k | (forall c <- cs :: ManifestLevel(c)) && Matches(lib, Fold(lib, cs), v) && 0 <= k < |cs| ::
      Matches(lib, cs[k], v)
  }

  lemma InexactMeetBreaksFold(lib: Library, r: SemRange, s: SemRange, sv: SemVer)
    requires lib.meet(r, s).Some? && lib.admits(lib.meet(r, s).value, sv) && !(lib.admits(r, sv) && lib.admits(s, sv))
    ensures !FoldIsSound(lib)
  {
    var cs := [Range(r), Range(s)];
    assert cs[..1] == [Range(r)] && cs[..1][..0] == [];
    assert Fold(lib, cs[..1]) == Range(r);
    assert Matches(lib, Fold(lib, cs), Bare(Sem(sv)));
    var k := if lib.admits(r, sv) then 1 else 0;
    assert !Matches(lib, cs[k], Bare(Sem(sv)));
  }

  /** That holds exactly when the library's own intersection is sound. */
  lemma FoldSoundIffMeetSound(lib: Library)
    requires EqualIsCongruence(lib)
    ensures FoldIsSound(lib) <==> SoundMeet(lib)
  {
    if SoundMeet(lib) {
      forall cs: seq<Constraint>, v, k | (forall c <- cs :: ManifestLevel(c)) && Matches(lib, Fold(lib, cs), v) && 0 <= k < |cs|
        ensures Matches(lib, cs[k], v)
      {
        FoldImpliesMembers(lib, cs, v);
      }
    } else {
      forall r, sv | lib.meetVersion(r, sv) && !lib.admits(r, sv)
        ensures !FoldIsSound(lib)
      {
        InexactVersionMeetBreaksFold(lib, r, sv);
        assert !Matches(lib, [Range(r), Exact(Bare(Sem(sv)))][0], Bare(Sem(sv)));
      }
      forall r, s, sv | lib.meet(r, s).Some? && lib.admits(lib.meet(r, s).value, sv) && !(lib.admits(r, sv) && lib.admits(s, sv))
        ensures !FoldIsSound(lib)
      {
        InexactMeetBreaksFold(lib, r, s, sv);
      }
    }
  }
}
