/** Project identifiers and the small records the solver passes around (gps/identifier.go). */
module Identifiers {
  import opened Constraints

  type ProjectRoot = string
  type Package = string

  datatype ProjectIdentifier = ProjectIdentifier(root: ProjectRoot, source: string) {
    predicate Eq(j: ProjectIdentifier) {
      && root == j.root
      && (source == j.source || (source == "" && j.source == j.root) || (j.source == "" && source == root))
    }

    /** Deliberately asymmetric: an explicit source may absorb an absent one. */
    predicate Equiv(j: ProjectIdentifier) {
      root == j.root && (source == j.source || (source != "" && j.source == ""))
    }

    function NormalizedSource(): string {
      if source == "" then root else source
    }

    function Normalize(): ProjectIdentifier {
      ProjectIdentifier(root, NormalizedSource())
    }
  }

  /** eq compares normal forms, hence is an equivalence.  To name no source is to name the root; any
      other source stays as it is. */
  lemma EqIsEqualityOfNormalForms(i: ProjectIdentifier, j: ProjectIdentifier)
    ensures i.Eq(j) <==> i.Normalize() == j.Normalize()
    ensures i.(source := "").Eq(i.(source := i.root)) && (i.source != "" ==> i.Normalize() == i)
    ensures i.source != "" && j.source != "" ==> (i.Eq(j) <==> i == j)
  {
  }

  datatype Atom = Atom(id: ProjectIdentifier, v: Version)

  datatype AtomWithPackages = AtomWithPackages(a: Atom, pl: seq<Package>)

  /** A unit of work in the unselected queue. */
  datatype Bmi = Bmi(id: ProjectIdentifier, pl: seq<Package>, prefv: Option<Version>, fromRoot: bool)

  /** A working constraint together with the packages needed under its root. */
  datatype CompleteDep = CompleteDep(ident: ProjectIdentifier, constraint: Constraint, pl: seq<Package>)

  /** An inbound edge: who depends, and what is demanded of the target. */
  datatype Dependency = Dependency(depender: Atom, dep: CompleteDep)

  datatype LockedProject = LockedProject(ident: ProjectIdentifier, version: Version)

  ghost predicate NoDup<T>(s: seq<T>) {
    forall i, j :: 0 <= i < j < |s| ==> s[i] != s[j]
  }

  function Elems<T>(s: seq<T>): set<T> {
    set x | x in s
  }

  /** s lists every element of e exactly once. */
  ghost predicate Listing<T>(s: seq<T>, e: set<T>) {
    NoDup(s) && Elems(s) == e
  }

  lemma {:induction false} NoDupCard<T>(s: seq<T>)
    requires NoDup(s)
    ensures |Elems(s)| == |s|
  {
    if s != [] {
      var init := s[..|s| - 1];
      NoDupCard(init);
      assert s == init + [s[|s| - 1]];
      assert Elems(s) == Elems(init) + {s[|s| - 1]};
      assert s[|s| - 1] !in Elems(init);
    }
  }

  lemma SubsetCard<T>(a: set<T>, b: set<T>)
    requires a <= b
    ensures |a| <= |b|
    ensures |a| == |b| ==> a == b
  {
    assert b == a + (b - a);
    assert |b| == |a| + |b - a|;
  }
}
