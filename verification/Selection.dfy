/** The two mutable containers of the solver: the selection stack with its inbound edges, and the
    queue of work still to select (gps/selection.go). */
module Selections {
  import opened Constraints
  import opened Identifiers
  import opened Bridge
  import opened SolverCore
  import opened SolverInvariants

  lemma {:induction false} BaseIsFirstMatch(projects: seq<Selected>, i: nat)
    requires i < |projects| && Base(projects[..i], projects[i].a.a.id.root).None?
    ensures Base(projects, projects[i].a.a.id.root) == Some(projects[i].a)
  {
    var init, x := projects[..|projects| - 1], projects[|projects| - 1];
    assert projects == init + [x];
    BaseOfPush(init, x, projects[i].a.a.id.root);
    if i < |init| {
      assert init[..i] == projects[..i];
      BaseIsFirstMatch(init, i);
    }
  }

  class Selection {
    var projects: seq<Selected>
    var deps: Edges
    var foldRoots: map<string, ProjectRoot>

    constructor ()
      ensures projects == [] && deps == map[] && foldRoots == map[]
    {
      projects, deps, foldRoots := [], map[], map[];
    }

    function GetDependenciesOn(id: ProjectIdentifier): seq<Dependency>
      reads this
    {
      On(deps, id.root)
    }

    function GetIdentFor(pr: ProjectRoot): Option<ProjectIdentifier>
      reads this
    {
      var es := On(deps, pr);
      if |es| == 0 then None else Some(es[0].dep.ident)
    }

    method PushSelection(a: AtomWithPackages, pkgonly: bool)
      modifies this`projects
      ensures projects == old(projects) + [Selected(a, !pkgonly)]
    {
      projects := projects + [Selected(a, !pkgonly)];
    }

    method PopSelection() returns (a: AtomWithPackages, first: bool)
      requires projects != []
      modifies this`projects
      ensures old(projects) == projects + [Selected(a, first)]
    {
      var sel := projects[|projects| - 1];
      projects := projects[..|projects| - 1];
      return sel.a, sel.first;
    }

    function FindCaseConflicts(w: World, pr: ProjectRoot): Option<ProjectRoot>
      reads this
    {
      var f := w.toFold(pr);
      if f in foldRoots && foldRoots[f] != pr then Some(foldRoots[f]) else None
    }

    method PushDep(w: World, dep: Dependency)
      modifies this`deps, this`foldRoots
      ensures deps == old(deps)[dep.dep.ident.root := On(old(deps), dep.dep.ident.root) + [dep]]
      ensures foldRoots == if On(old(deps), dep.dep.ident.root) == [] then old(foldRoots)[w.toFold(dep.dep.ident.root) := dep.dep.ident.root]
                           else old(foldRoots)
    {
      var pr := dep.dep.ident.root;
      var es := On(deps, pr);
      if |es| == 0 {
        foldRoots := foldRoots[w.toFold(pr) := pr];
      }
      deps := deps[pr := es + [dep]];
    }

    method PopDep(w: World, id: ProjectIdentifier) returns (dep: Dependency)
      requires On(deps, id.root) != []
      modifies this`deps, this`foldRoots
      ensures On(old(deps), id.root) == On(deps, id.root) + [dep]
      ensures deps == old(deps)[id.root := On(deps, id.root)]
      ensures foldRoots == if |On(old(deps), id.root)| == 1 then old(foldRoots) - {w.toFold(id.root)} else old(foldRoots)
    {
      var es := deps[id.root];
      var dlen := |es|;
      if dlen == 1 {
        foldRoots := foldRoots - {w.toFold(id.root)};
      }
      dep := es[dlen - 1];
      deps := deps[id.root := es[..dlen - 1]];
    }

    function DepperCount(id: ProjectIdentifier): nat
      reads this
    {
      |On(deps, id.root)|
    }

    /** How many dependers each required package of a project has. */
    method GetRequiredPackagesIn(id: ProjectIdentifier) returns (uniq: map<Package, nat>)
      ensures forall p :: Occurrences(On(deps, id.root), p) == if p in uniq then uniq[p] else 0
    {
      var es := On(deps, id.root);
      uniq := map[];
      for i := 0 to |es|
        invariant forall p :: Occurrences(es[..i], p) == if p in uniq then uniq[p] else 0
      {
        var pl := es[i].dep.pl;
        for j := 0 to |pl|
          invariant forall p :: Occurrences(es[..i], p) + multiset(pl[..j])[p] == if p in uniq then uniq[p] else 0
        {
          assert pl[..j + 1] == pl[..j] + [pl[j]];
          uniq := uniq[pl[j] := (if pl[j] in uniq then uniq[pl[j]] else 0) + 1];
        }
        assert pl[..|pl|] == pl && es[..i + 1][..i] == es[..i];
      }
      assert es[..|es|] == es;
    }

    method GetConstraint(w: World, id: ProjectIdentifier) returns (ret: Constraint)
      ensures ret == Composite(w, deps, id.root)
    {
      ret := Any;
      if id.root !in deps || |deps[id.root]| == 0 {
        return;
      }
      var es := deps[id.root];
      ghost var cs := Conditions(es);
      for i := 0 to |es|
        invariant ret == Fold(w.lib, cs[..i])
      {
        assert cs[..i + 1][..i] == cs[..i];
        ret := Intersect(w.lib, ret, es[i].dep.constraint);
      }
      assert cs[..|es|] == cs;
    }

    /** The first stack entry for the root, walking front to back. */
    method SelectedFor(id: ProjectIdentifier) returns (awp: Option<AtomWithPackages>)
      ensures awp == Base(projects, id.root)
    {
      for i := 0 to |projects|
        invariant Base(projects[..i], id.root).None?
      {
        var p := projects[i];
        if p.a.a.id.root == id.root {
          BaseIsFirstMatch(projects, i);
          return Some(p.a);
        }
        assert projects[..i + 1] == projects[..i] + [p];
      }
      assert projects[..|projects|] == projects;
      return None;
    }
  }

  lemma {:induction false} RemoveFirstAt(sl: seq<Bmi>, id: ProjectIdentifier, pl: seq<Package>, i: nat)
    requires i <= |sl| && forall j :: 0 <= j < i ==> !SameWork(sl[j], id, pl)
    requires i < |sl| ==> SameWork(sl[i], id, pl)
    ensures RemoveFirst(sl, id, pl) == if i < |sl| then sl[..i] + sl[i + 1..] else sl
  {
    if i > 0 {
      RemoveFirstAt(sl[1..], id, pl, i - 1);
    }
  }

  class Unselected {
    var sl: seq<Bmi>

    constructor ()
      ensures sl == []
    {
      sl := [];
    }

    /** heap.Push: append, then sift up.  What the comparator answers is left open. */
    method Push(x: Bmi)
      modifies this
      ensures multiset(sl) == multiset(old(sl)) + multiset{x}
    {
      sl := sl + [x];
      var j := |sl| - 1;
      while j > 0
        invariant 0 <= j < |sl|
        invariant multiset(sl) == multiset(old(sl)) + multiset{x}
      {
        var i := (j - 1) / 2;
        if * {
          break;
        }
        sl := sl[i := sl[j]][j := sl[i]];
        j := i;
      }
    }

    /** Entries compare by identifier and then package by package. */
    static method Same(pi: Bmi, id: ProjectIdentifier, pl: seq<Package>) returns (same: bool)
      ensures same == SameWork(pi, id, pl)
    {
      if !pi.id.Eq(id) || |pi.pl| != |pl| {
        return false;
      }
      for i2 := 0 to |pi.pl|
        invariant pi.pl[..i2] == pl[..i2]
      {
        if pl[i2] != pi.pl[i2] {
          return false;
        }
      }
      return true;
    }

    method Remove(id: ProjectIdentifier, pl: seq<Package>)
      modifies this
      ensures sl == RemoveFirst(old(sl), id, pl)
    {
      var i := 0;
      while i < |sl|
        invariant 0 <= i <= |sl| && sl == old(sl)
        invariant forall j :: 0 <= j < i ==> !SameWork(sl[j], id, pl)
      {
        var same := Same(sl[i], id, pl);
        if same {
          RemoveFirstAt(sl, id, pl, i);
          sl := sl[..i] + sl[i + 1..];
          return;
        }
        i := i + 1;
      }
      RemoveFirstAt(sl, id, pl, i);
    }
  }
}
