# Verified models: the gps solver, package reachability, and other cores

Dafny models of the parts of this repository whose correctness rests on invariants rather than
on anything the code checks. `dafny verify dfyconfig.toml` verifies all of it.

**The gps solver** (`Constraints`, `Identifiers`, `Bridge`, `SolverCore`, `SolverInvariants`,
`SolverSteps`, `SolverMeasure`, `Satisfy`, `VersionQueues`, `Selections`, `Solvers`, `Solutions`,
`SolverTheorems`, `SolverRuns`, `Searches`, `SearchOutcomes`, `Completeness`, `Consistency`,
`SkippedChoices`, `VersionChoices`, `Blames`, `CaseConflicts`, `SourceConflicts`, `Revisions`,
`StaleWork`, `ForcedRuns`, `StaleWorld`, `StaleMoves`, `StaleRuns`, `StaleEndings`, `WantedWork`,
`WantedSolutions`, `UniformWorlds`, `ImportConstraints`, `Overrides`). A solve run is a stack of
selected atoms, the inbound dependency edges of every root, a work queue and a stack of version queues.
It is modelled twice. `SolverCore` has the stack, the edges, the index of folded roots and the work queue
as a value, with the two moves that change them, and a run is any sequence of guarded moves. `Solvers.Solver`, `Selections.Selection`, `Selections.Unselected` and
`VersionQueues.VersionQueue` are the classes of the source with their methods, loops and updates
in place; every method is proved to make only moves of the machine, and to select only what is due
(`SolverRuns`). So what holds in all reachable, or all arising, states holds of the code:

* whatever is selected is at a version that every dependency on it allows (`EdgesAreHonoured`), and
  whatever is returned as a solution satisfies the root's and every selected project's dependencies,
  at one version per project, with all required packages (`Solve`, `FinishedSolves`);
* how the search gets there is a relation between one look at the work queue and the next
  (`Searches.Turns`): which version is taken, which queues are marked, what is given up on the way
  back and why. `Solve` returns a run of it as a ghost, and answers that there is no solution only at
  its end: the item looked at cannot be had, and every opened project was given up, either unblamed or
  with all later versions refused (`NoSolutionHasReasons`);
* if no project was given up unblamed, no solution means that there is none: every choice of versions
  is refused somewhere (`NoSolutionMeansNone`), so, with one package list per project, no case twins and
  a lawful semver library, no versions fit together (`FullSearchesSolve`);
* the run ends, by a lexicographic measure: versions left per open project, then packages nobody
  requires yet, then the length of the work queue (`Solve` has a `decreases` clause);
* edges are the replay of the stack, so undoing a selection restores them, although they are
  recomputed from a longer package list; version queues and opened projects stay aligned, so the
  misalignment canary cannot fire; every required package is selected or queued; the composite
  constraint on a root never becomes "none".

**Package reachability** (`ImportGraph`, `ReachTables`, `ReachState`, `ReachTheorems`, `ReachMaps`,
`DepthFirst`, `InnerCycles`).
`wmToReach` as a class whose reach sets are heap objects that import cycles share. On every graph its
lists are sound, every package is listed or explained, and explanations are genuine chains; without
cycles (self-imports aside) its lists are exactly the transitive closures, which is the closure property
the solver's undoing needs. How the loops over maps go is an input, `Order`; for each order the
exploration is proved to be a run of the small steps of `DepthFirst`, so that single explorations can be
followed to their result.

**Command lines** (`ProcessArguments`), **the Poetry dependency graph** (`PoetryGraph`), **the
transactional writer** (`SafeWriters`), **the ignore ruleset** (`PrefixTrees`, `IgnoredRulesets`,
`HiddenRules`), and two concurrent protocols, **the single-flight source coordinator**
(`SourceCoordinators`, `SourceNames`, `StableNames`) and **the two-level cache** (`SourceCaches`), as
state machines over all interleavings.

## Where the code keeps less than it says

* Case twins are looked for between a new dependency and what is depended on already, not within one
  dependency list and not among the root's own: `ReachableWithoutTwins`, `StartTwins`,
  `SelectedTwins` (solver.go calls no check in selectRoot).
* `findValidVersion` takes element 0 of the dependers, and `createVersionQueue` element 0 of the
  versions, without looking. Both are modelled as the outcome `Panicked`, and `Solve` says that it
  happens only where such a list is empty.
* A project that nobody blamed is given up without trying its other versions, and some failures blame
  nobody. `SkippingLosesSolutions` is a search that ends without a solution where there is one, in a
  world that meets all that `FullSearchesSolve` asks of a world: a at version 2 depends on a project without
  a source, a at version 1 on nothing, and version 1 is never tried.
* The root's own dependencies may demand revisions that do not exist; all others are checked
  (`RevisionsExist`).
* unselectLast pushes back the extended package list of a popped project but removes work by the list
  its depender asked for. What is left over (`StaleWorkRemains`) opens the project again later, with no
  constraint to ask. `StaleEndings` has three runs that end so: in a solution with a project nobody needs,
  in one with two sources of one project, which checkIdentMatches promises to prevent, and in the
  panic. The search has no choice in them (`Forced`): an item is taken only when the queue holds no
  other, versions are tried in the order listed, and what is unselected was searched for in vain.
  `UnselectKeepsWanted` says exactly which unselecting leaves such work; without any, solutions have neither (`WantedRunsSolveWell`), which is so in every run of a steady world (`Solve`). Among
  dependencies sources agree in any case (`ReachableSourcesAgree`).
* `intersectConstraintsWithImports` promises to include all packages reached. A package whose deduced
  root has packages already replaces them: `CompleteUnlessCollision` is the exact condition,
  `NestedRootsLosePackages` an input, `UnambiguousRootsNeverCollide` a condition on the roots alone.
* An intersection of a revision with a branch, tag or semver constraint loses every version that is
  both (`IntersectLosesExactly`). The semver library's intersection of a union with a version returns
  the version unchecked; `FoldSoundIffMeetSound` says that soundness of the composite constraint is
  equivalent to soundness of the library's intersections, and the solver's results assume the latter.
* pkgtree.go calls a poisoned package without an error record impossible and keeps a workaround. It
  happens exactly when the package does not exist (`PoisonBlack`).
* All packages of an import cycle are meant to reach the same. A set shared along an inner cycle is not
  shared again when an outer cycle is found: `InnerCyclesLoseImports` is an input and an order for which
  the reach map returned misses a reachable import, so the solver's assumption of closed reach maps is
  one. Nor does back-propagation drop all importers of errors then (`CyclesKeepBadImporters`).
* `AddBackslashes` expands runs of backslashes that need no escape, so a UNC path is not parsed back
  to itself (`RoundTrip` is the exact condition, `UncPathsAreDoubled` the example).
* A failed `SafeWriter.Write` leaves new files that did not exist before, and loses a target whose
  restoring rename fails (`FailedWriteLeaves`, `FailedWriteLoses`).
* Ignore rules with characters that sort before the asterisk can hide a wildcard
  (`ExclamationHidesWildcard`); `AgreesUnlessHiddenIn` says for which lists of rules and which paths.
* A URL is recorded as a name of itself even if, used as a name, it leads elsewhere; then callers of
  one name may get different gateways. Without folding, they get one in every run if and only if each URL
  that another name leads to comes first among its own URLs and last among them for that name
  (`OneGatewayIffStable`); with one URL for each name, if and only if URLs lead to themselves
  (`OneGatewayIffIdempotent`), which is enough with folding too (`OneGatewayEach`).
* The Poetry builder compares names with the ignored ones as they are written: pip is ignored and Pip is
  not (`ResolutionAgreesExactly`).
* The Poetry builder fails if the manifest leads to a lock entry with the root's own name and version
  (`Build`).

## Assumptions

The source manager, the semver library, case folding, lower-casing, sorting, root deduction and the
standard library test are function parameters. `Bridge.ValidWorld` collects what the solver's proofs
use: sound semver intersections, transitively closed reach maps (proved of `wmToReach` for acyclic
internal imports by `AcyclicMapIsClosed`, needed by `RecomputationNeedsClosure`), dependency lists that
are well formed and never name the project's own root, answers drawn from a finite set of roots,
packages and versions, and a root project that does not depend on itself. What is assumed of dependency
lists is proved of `intersectConstraintsWithImports` for any manifest (`ManifestsGiveGoodDeps`), given
that what a project imports from outside is not below its root (pkgtree.go:591) and that deduced roots
are path prefixes of their packages. When the run is cancelled is an input, a function of how often it
asked. The order of the work queue and, but for `wmToReach`, map iteration are nondeterministic.

## Model

| member | source | states |
|---|---|---|
| Constraints.MatchesAnyIsNonEmptyIntersection | golangdep-master/gps/version.go:237-273 | on manifest constraints the cheap compatibility test agrees with the intersection it stands for being satisfiable |
| Constraints.IntersectImpliesBoth | golangdep-master/gps/constraint.go:187-214 | a version matching an intersection of manifest constraints matches both sides |
| Constraints.IntersectIsConjunction | golangdep-master/gps/version.go:254-273 | the converse too, for a semver library that loses nothing, when neither or both sides are revisions or one is "any" |
| Constraints.IntersectLosesExactly | golangdep-master/gps/version.go:172-189 | a version both sides match is lost exactly if it is paired and one side is a revision, the other not being "any" |
| Constraints.RevisionLosesPairedVersions | golangdep-master/gps/version.go:141-189 | witness family: a paired version satisfying a revision and a tag, branch or range, whose intersection is "none" in both orders |
| Constraints.FoldImpliesMembers | golangdep-master/gps/selection.go:168-188 | the composite constraint implies each constraint folded into it |
| Constraints.FoldIsConjunction | golangdep-master/gps/selection.go:168-188 | without revisions, and with such a library, the composite is exactly the conjunction of its members |
| Constraints.UnpairedFoldIsConjunction | golangdep-master/gps/selection.go:168-188 | on unpaired versions it is so whatever the members are |
| Constraints.RevisionFoldIsUnanimous | golangdep-master/gps/solver.go:886-888 | if the composite is a revision, every member is that revision or "any", as the comment claims |
| Constraints.FoldSoundIffMeetSound | golangdep-master/gps/constraint.go:187-214 | the composite implies its members for all lists if and only if the semver library's own intersections are sound |
| Constraints.InexactVersionMeetBreaksFold | golangdep-master/vendor/github.com/Masterminds/semver/union.go:21-36 | what the library does for unions: a composite then admits a version its first member rejects |
| Constraints.BranchesGoByName | golangdep-master/gps/version.go:225-273 | an exact branch constraint is met by the versions of that name, and two of them have a common version, pass the compatibility test and intersect if and only if the names are equal |
| Constraints.TagsGoByText | golangdep-master/gps/version.go:317-365 | the same of plain tags and their text |
| Constraints.RevisionsGoByHash | golangdep-master/gps/version.go:141-189 | the same of revisions, which paired versions carry too |
| Constraints.SemVersGoByLibrary | golangdep-master/gps/version.go:411-463 | the same of semver versions, by the library's equality; a range is met exactly by the semver versions it admits |
| Constraints.KindsDoNotMix | golangdep-master/gps/version.go:225-463 | a branch, a plain tag and a semver version never meet a constraint of another kind, nor does a bare one meet a revision; such constraints have nothing in common |
| Constraints.PairsGoByRevision | golangdep-master/gps/version.go:514-580 | a paired version as a constraint is met by what has its revision, and by what has none if the label agrees; two of them intersect exactly if the revision is the same, in all that has it |
| Identifiers.EqIsEqualityOfNormalForms | golangdep-master/gps/identifier.go:94-108 | eq is equality of normalised identifiers, hence an equivalence; to name no source is to name the root, and explicit sources are equal only as such |
| Bridge.GetImportsAndConstraintsOf | golangdep-master/gps/solver.go:645-722 | computes the extended package list and dependencies, or the first missing package; the dependencies come in some order |
| Bridge.ExtendingIsStable | golangdep-master/gps/solver.go:664-711 | with a closed reach map, extending a package list is idempotent and changes neither missing packages nor external imports |
| Bridge.ImportsOfExtended | golangdep-master/gps/solver.go:1311-1325 | recomputing from the stored, extended list gives the stored list and the same dependencies back |
| Bridge.IgnoredChangesNothing | golangdep-master/gps/solver.go:689-711 | asking for an ignored package in addition changes neither what fails nor what the atom depends on |
| Bridge.RecomputationNeedsClosure | golangdep-master/gps/solver.go:664-711 | for a single package recomputation agrees if and only if the reach map is closed at it |
| VersionQueues.OfferIsComplete | golangdep-master/gps/version_queue.go:28-59 | a queue offers exactly the lock, preferred and listed versions, none twice unless lock and preference coincide |
| VersionQueues.DeletedAll | golangdep-master/gps/version_queue.go:107-120 | deleting recorded positions with shifted indices, in place and within bounds, is filtering out lock and preferred version |
| VersionQueues.CopyWithout | golangdep-master/gps/version_queue.go:98-120 | the array copy after all deletions holds the filtered list; the bridge's list is not written |
| VersionQueues.VersionQueue.Advance | golangdep-master/gps/version_queue.go:71-137 | the sequence of versions still to try loses exactly its head, whether loaded or not; failures are appended; the mark survives only a queue that ran dry |
| VersionQueues.NewVersionQueue | golangdep-master/gps/version_queue.go:28-59 | fails exactly if versions must be listed at once and cannot be; otherwise offers lock, preference, rest, in order |
| Selections.Selection.PushDep | golangdep-master/gps/selection.go:81-89 | appends one edge; the folded root is indexed exactly on the first edge |
| Selections.Selection.PopDep | golangdep-master/gps/selection.go:91-100 | removes and returns the last edge; the folded root is dropped exactly with the last one |
| Selections.Selection.GetRequiredPackagesIn | golangdep-master/gps/selection.go:108-120 | counts for each package how often edges on the project name it |
| Selections.Selection.GetConstraint | golangdep-master/gps/selection.go:168-188 | returns the fold, from "any", of the constraints on the project |
| Selections.Selection.SelectedFor | golangdep-master/gps/selection.go:197-205 | finds the base selection: the entry that opened the project, whatever package-only entries follow |
| Selections.Unselected.Push | golangdep-master/gps/selection.go:224-226 | adds one work item and loses none, for any answers of the comparator |
| Selections.Unselected.Remove | golangdep-master/gps/selection.go:243-264 | splices out the first item with an equivalent identifier and the same package list, and only it |
| Satisfy.NoFailureIffCheckOk | golangdep-master/gps/satisfy.go:13-77 | no sub-check fails if and only if the move keeps every requirement satisfied |
| Satisfy.RequiredFailureIffNotOk | golangdep-master/gps/satisfy.go:108-144 | the package check passes exactly if all packages that edges name exist without error |
| Satisfy.DepFailureIffNotOk | golangdep-master/gps/satisfy.go:53-74 | the six checks of a dependency pass exactly if source, case, composite, selection, packages and revision agree with it |
| Solvers.Solver.CheckAtomAllowable | golangdep-master/gps/satisfy.go:81-104 | fails with exactly the edges that reject the version and marks their dependers' queues |
| Solvers.Solver.CheckRequiredPackagesExist | golangdep-master/gps/satisfy.go:108-144 | fails with exactly the missing or broken packages that edges name, each with all who name it |
| Solvers.Solver.CheckDepsConstraintsAllowable | golangdep-master/gps/satisfy.go:148-176 | fails if the new constraint is disjoint from the composite; splits siblings and blames those it is disjoint from |
| Solvers.Solver.CheckDepsDisallowsSelected | golangdep-master/gps/satisfy.go:181-193 | fails if the selected version is not allowed, and blames the selected project |
| Solvers.Solver.CheckIdentMatches | golangdep-master/gps/satisfy.go:202-222 | fails if the source differs from the one the root is known by; what is blamed are the dependers of the atom |
| Solvers.Solver.CheckRootCaseConflicts | golangdep-master/gps/satisfy.go:229-273 | fails if a root differing only by case is depended on, telling the wrong case from a mismatch |
| Solvers.Solver.CheckPackageImportsFromDepExist | golangdep-master/gps/satisfy.go:277-314 | fails with exactly the named packages that the selected version lacks or has broken |
| Solvers.Solver.Check | golangdep-master/gps/satisfy.go:13-77 | lets a move through if and only if the machine's guard holds; otherwise explains it, and marks exactly the queues the failure blames |
| Blames.RejectedVersionBlames | golangdep-master/gps/satisfy.go:81-104 | a version the composite rejects blames exactly the projects whose own constraint rejects it |
| Blames.DisjointConstraintBlames | golangdep-master/gps/satisfy.go:148-176 | a constraint that does not fit blames exactly the projects whose constraint has no version in common with it |
| Blames.SelectedVersionIsBlamed | golangdep-master/gps/satisfy.go:181-193 | one that the selected version does not meet blames the selected project and nobody else |
| Blames.OtherSourceIs | golangdep-master/gps/satisfy.go:202-222 | a dependency is refused for its source exactly if it names one, or the known one is none, and they differ |
| Blames.OtherSourceBlames | golangdep-master/gps/satisfy.go:208-213 | it blames whoever depends on the atom |
| Blames.OtherCaseBlames | golangdep-master/gps/satisfy.go:229-273 | a root differing by case only blames whoever depends on the other spelling |
| Blames.OtherCaseIs | golangdep-master/gps/satisfy.go:246-272 | it is reported as the wrong case exactly if the atom itself has the other spelling |
| Blames.OthersBlameNobody | golangdep-master/gps/satisfy.go:277-337 | missing packages, imports that cannot be had and revisions that do not exist blame nobody |
| Blames.ProblemPackagesAre | golangdep-master/gps/satisfy.go:108-144 | the packages reported are exactly those that a dependency names and that are missing or broken, each with all who name it, and with an error exactly if it is there |
| Blames.NoneBlamesIs | golangdep-master/gps/solver.go:939-945 | a search that finds nothing blames everyone its refusals blame and whoever was selected first of those that depend on the project; if no version was left to try, nobody |
| Revisions.RevisionsExist | golangdep-master/gps/satisfy.go:318-337 | in every reachable state all revisions demanded exist if and only if those that the root demands do, which nothing checks |
| SolverInvariants.RemovesByNormalForm | golangdep-master/gps/selection.go:243-264 | which work item is removed depends on the normal form of the identifier |
| Solvers.Solver.Fail | golangdep-master/gps/solver.go:1190-1205 | marks the first queue with an equivalent identifier, and no other; never the root |
| SolverSteps.SelectEdges | golangdep-master/gps/solver.go:1248-1272 | selecting appends exactly the entry's edge on each root, and edges stay the replay of the stack |
| SolverSteps.SelectSafe | golangdep-master/gps/satisfy.go:148-193 | selecting keeps every edge from another project on a selected one satisfied, in version and packages |
| SolverSteps.SelectCovered | golangdep-master/gps/solver.go:1272-1302 | after selecting, every package an edge names is selected or queued |
| SolverSteps.SelectInv | golangdep-master/gps/solver.go:1212-1309 | selectAtom keeps the whole invariant: stack, replay, safety, coverage, satisfiable composites |
| SolverSteps.UnselectAllEdges | golangdep-master/gps/solver.go:1314-1334 | unselecting removes exactly the last entry's edges, recomputed from its extended list |
| SolverSteps.UnselectCovered | golangdep-master/gps/solver.go:1311-1343 | after unselecting, every package an edge still names is selected or queued, though the queue is not what it was |
| SolverSteps.UnselectInv | golangdep-master/gps/solver.go:1311-1343 | unselectLast keeps the whole invariant |
| SolverSteps.RunInv | golangdep-master/gps/solver.go:474-586 | the invariant holds at the end of every run of guarded moves |
| SolverSteps.ReachableInv | golangdep-master/gps/solver.go:474-586 | hence in every reachable state |
| SolverRuns.ArisingInv | golangdep-master/gps/solver.go:474-586 | and in every state of a run that selects only what is queued, as the code does |
| SolverMeasure.SelectMakesProgress | golangdep-master/gps/solver.go:1212-1309 | selecting queued work leaves fewer packages unrequired, or no more of them and less work |
| SolverMeasure.FirstsFitWorld | golangdep-master/gps/solver.go:531-538 | no root is opened twice, so the queue stack is bounded by the number of roots |
| SolverMeasure.RankLowered | golangdep-master/gps/solver.go:1076-1093 | moving one queue on lowers the measure whatever the queues above it were |
| SolverMeasure.RankExtended | golangdep-master/gps/solver.go:531-538 | opening one more queue lowers the measure |
| Solvers.Solver.SelectAtom | golangdep-master/gps/solver.go:1212-1309 | performs the select move: entry with extended list, one edge per dependency but the root's, work for newly required packages |
| Solvers.Solver.UnselectLast | golangdep-master/gps/solver.go:1311-1343 | performs the unselect move and returns the popped entry |
| Solvers.Solver.SelectRoot | golangdep-master/gps/solver.go:610-643 | establishes the start state: reachable, and aligned with no queue |
| Solvers.Solver.GetLockVersionIfValid | golangdep-master/gps/solver.go:964-1004 | the lock version that VersionChoices pins: none if a change was asked for that is possible; an error exactly if it was explicit and is not |
| Solvers.Solver.PreferredVersion | golangdep-master/gps/solver.go:826-870 | the last lock entry for an equivalent identifier among non-root dependers, or the item's own preference |
| Solvers.Solver.FindValidVersion | golangdep-master/gps/solver.go:911-953 | stops at the first acceptable version; all before it are refused, each for the failure recorded; gives up only when none is left; it marks exactly the queues blamed by the failures and, giving up, the first depender's; the one searched is unmarked |
| Solvers.Solver.CreateVersionQueue | golangdep-master/gps/solver.go:792-903 | same for the list: demanded revision, lock, preference, listed versions, in the order of VersionChoices; no queue exactly if the source, a possible change, or the versions are missing; marks exactly the queues blamed; crashes only on an empty list of versions or dependers, and does if nobody depends on the project and no version is acceptable |
| Solvers.Solver.PushRevision | golangdep-master/gps/solver.go:893-898 | a demanded revision comes first unless it is first already; impossible exactly on an empty queue |
| Solvers.Solver.SkipUnfailed | golangdep-master/gps/solver.go:1018-1049 | drops queues, and the projects they belong to, up to the last marked one, and no marked one; the rest keeps its versions |
| Solvers.Solver.OpenLast | golangdep-master/gps/solver.go:1051-1072 | pops down to the last opened project; the popped atom is what the last queue stands on, so the canary cannot fire |
| Solvers.Solver.SearchOn | golangdep-master/gps/solver.go:1074-1079 | advances the last queue past its bad version to the next acceptable one, passing over none, with fewer versions left |
| Solvers.Solver.RetryLast | golangdep-master/gps/solver.go:1051-1101 | reopens the last project at its first later version that fits, every one before refused with a reason; or drops its queue after each later version was refused in the state without it |
| Solvers.Solver.Backtrack | golangdep-master/gps/solver.go:1008-1110 | resumes at the last queue that is marked when reached and has a later version that fits; what is given up on the way was unmarked or had every later version refused; those blamed by these tries are marked; gives up only with no queue left and the root alone selected |
| Solvers.Solver.AddPackages | golangdep-master/gps/solver.go:548-575 | adds packages of a selected project at its version if allowed, with progress; otherwise changes marks only |
| Solvers.Solver.SelectNew | golangdep-master/gps/solver.go:501-538 | opens a project at the first candidate that fits, with the rest as its queue, or refuses because there is none, marking exactly those blamed |
| Solvers.Solver.Turn | golangdep-master/gps/solver.go:487-586 | one turn of the main loop is a turn of the search relation, and lowers the lexicographic measure; no solution only when going back reached the root; cancelled exactly if the input says so; stranded work makes it panic |
| Solvers.Solver.Solve | golangdep-master/gps/solver.go:474-606 | ends for every world; returns a run of the search; a returned solution solves; no solution only where that run ends with every queue given up for a reason and the root alone selected; interrupted exactly if cancelled; a panic only on an empty list of dependers or versions; in steady worlds never of dependers, and no solution has a needless project or two sources of one |
| VersionChoices.LockedComesFirst | golangdep-master/gps/solver.go:816-824 | the root's locked version is the first to be tried, before the preferred one, unless the project is to change or a revision is demanded |
| VersionChoices.ChangeForgetsLock | golangdep-master/gps/solver.go:964-1004 | a project not locked, or asked to change (by name or all) with a source to change it from, is tried at its preferred version and then at the listed ones in their order |
| VersionChoices.VendorOnlyStays | golangdep-master/gps/solver.go:964-1004 | a project in vendor only cannot change: asked for by name, with a lock, it is an error; if all are to change it keeps its locked version |
| VersionChoices.NowhereIsNotLocated | golangdep-master/gps/solver.go:799-814 | a project is refused as not located exactly if neither a source nor vendored code exists |
| VersionChoices.RevisionComesFirst | golangdep-master/gps/solver.go:886-898 | a revision that the composite constraint demands is tried before everything else, once |
| VersionChoices.PreferenceIs | golangdep-master/gps/solver.go:826-870 | for a dependency of the root the preferred version is what the last lock that mentions the project says, of those of its dependers, in the order they were selected; otherwise the item's own |
| VersionChoices.FirstDependencyIsQueued | golangdep-master/gps/solver.go:1279-1302 | the first dependency on a project queues it with its packages and, as preference, the version in the depender's lock for exactly this identifier |
| SearchOutcomes.OpensAtFirstFitting | golangdep-master/gps/solver.go:911-943 | a project is opened at the first candidate that fits in the state, and its queue keeps exactly the ones after |
| SearchOutcomes.GivenUpWithReason | golangdep-master/gps/solver.go:1014-1101 | of what going back gives up, each project was not blamed, by then or by the tries on the way, or every later version of it was refused with only the projects below it selected |
| SearchOutcomes.RefusingIsHopeless | golangdep-master/gps/solver.go:501-575 | going back starts only where the item's packages are refused at the selected version, there is nothing to try, or nothing to try fits |
| SearchOutcomes.NoSolutionHasReasons | golangdep-master/gps/solver.go:566-577 | when the search ends without a solution both hold, for all projects opened |
| Completeness.FullRunIsSearch | golangdep-master/gps/solver.go:474-606 | runs in which no project is given up unblamed are runs of the search |
| Completeness.NoSolutionMeansNone | golangdep-master/gps/solver.go:1008-1110 | if no project was given up unblamed and the search ends without a solution, each choice of versions is refused in some state that agrees with it |
| Consistency.ConsistentIsNeverRefused | golangdep-master/gps/satisfy.go:13-77 | in steady worlds without case twins and with a lawful semver library, versions that satisfy all dependencies of each other and of the root are never refused |
| Consistency.FullSearchesSolve | golangdep-master/gps/solver.go:474-606 | so a search that gives up no project unblamed never ends without a solution if there is one |
| SkippedChoices.SkippingLosesSolutions | golangdep-master/gps/solver.go:1029-1048 | a world that meets all these conditions, and a whole search of it that ends without a solution although there is one, because a project was given up unblamed |
| Solvers.Solver.Collect | golangdep-master/gps/solver.go:588-606 | combines the selected packages by atom, without the root |
| Solutions.FinishedSolves | golangdep-master/gps/solver.go:474-606 | a reachable state without work left satisfies all dependencies of root and selection, independently of the search |
| Solutions.SolutionIsValid | golangdep-master/gps/solver.go:588-606 | so does what the final loop collects from it |
| SolverTheorems.EdgesAreHonoured | golangdep-master/gps/satisfy.go:81-104 | in every reachable state every selected entry is at a version that every dependency on it allows, without exception |
| SolverTheorems.RootIsHonoured | golangdep-master/gps/satisfy.go:277-314 | in every reachable state what a selected project imports of the root project is in the root's own tree without error, and its constraint allows the root's revision |
| SolverTheorems.CompositesNeverCollapse | golangdep-master/gps/solver.go:886-888 | composite constraints never become "none", and a composite revision is carried by every edge or the edge is unconstrained |
| SolverTheorems.CompositeIsConjunction | golangdep-master/gps/selection.go:168-188 | with such a library the composite rejects an unpaired version exactly if some edge does |
| SolverTheorems.UnselectUndoesSelect | golangdep-master/gps/selection.go:53-100 | unselecting right after selecting restores the stack and the edges on every root |
| CaseConflicts.ReachableWithoutTwins | golangdep-master/gps/satisfy.go:229-273 | if no single dependency list names case twins, no reachable state depends on twins, and the index holds exactly the roots depended on |
| CaseConflicts.StartTwins | golangdep-master/gps/solver.go:629-638 | the start state is free of twins exactly if the root's dependencies are |
| CaseConflicts.SelectedTwins | golangdep-master/gps/satisfy.go:229-273 | a selection let through brings twins exactly if the atom's own list has them |
| SourceConflicts.ReachableSourcesAgree | golangdep-master/gps/satisfy.go:195-222 | in every reachable state all dependencies on a root agree about its source, the first one absorbing those that give none |
| StaleWork.StaleWorkRemains | golangdep-master/gps/solver.go:1311-1343 | unselecting a project, with nothing else queued for it, and its only depender leaves work for it if and only if it was selected with other packages than were asked for |
| StaleWork.StaleWorkStays | golangdep-master/gps/selection.go:233-264 | selecting anything else leaves that work queued |
| StaleEndings.NeedlessIsSelected | golangdep-master/gps/solver.go:1311-1343 | a whole run without choices, its queue never holding a second item when one is taken, that ends in a solution with a project that neither the root nor anything selected asks for |
| StaleEndings.TwoSourcesAreSelected | golangdep-master/gps/satisfy.go:195-222 | such a run that ends with one root selected from two different sources |
| StaleEndings.SearchIsStranded | golangdep-master/gps/solver.go:945 | such a run to a state in which the search takes element 0 of an empty list of dependers |
| WantedWork.SelectKeepsWanted | golangdep-master/gps/solver.go:1212-1309 | if something depends on each queued project, and on each selected one from below, that is still so after selecting what something depends on |
| WantedWork.UnselectKeepsWanted | golangdep-master/gps/solver.go:1327-1340 | after unselecting it is so if and only if, for each project only the popped entry depended on, nothing is queued but the item this entry asked for |
| WantedWork.WantedRunsAgree | golangdep-master/gps/satisfy.go:195-222 | as long as it is so, everything queued or selected for a root has the identifier of the first dependency on it |
| WantedSolutions.WantedRunsSolveWell | golangdep-master/gps/solver.go:588-606 | a run in which it stays so ends in a solution where a chain of dependencies leads from the root to each project, and no root has two sources |
| UniformWorlds.SteadyWorldsStayWanted | golangdep-master/gps/solver.go:1248-1343 | it stays so in worlds where all dependencies on a project name the same packages and these import no others of it; then no root is selected twice |
| UniformWorlds.SteadyWorldsHaveDependers | golangdep-master/gps/solver.go:945 | in such worlds whatever the search looks for has a depender |
| WantedSolutions.SteadyWorldsSolveWell | golangdep-master/gps/solver.go:588-606 | in such worlds every solution is so |
| StaleEndings.OrderlyIsSteady | golangdep-master/gps/solver.go:1327-1340 | such a world in which the package asked for imports no other of its project is valid and steady |
| ImportConstraints.IntersectConstraintsWithImports | golangdep-master/gps/solver.go:728-790 | well-formed dependencies, each package under one root only; complete exactly if nothing collides |
| Overrides.DependenciesFollowOverrides | golangdep-master/gps/constraint.go:370-418 | each dependency has the constraint and the source that the root's overrides give its project, or else its manifest, or else none |
| Overrides.OverrideEach | golangdep-master/gps/constraint.go:370-381 | overrides each entry of a manifest, in order |
| Overrides.UnambiguousRootsAreNew | golangdep-master/gps/solver.go:734-779 | with unambiguous roots, none is deduced that the manifest or another package has already |
| Overrides.PlacedAtHome | golangdep-master/gps/solver.go:734-779 | a package outside the standard library is added under the root it counts for, and nothing else changes; one inside changes nothing |
| Overrides.NearestRootIsHome | golangdep-master/gps/solver.go:745-769 | a package goes to the longest known root above it, if no other known name is a false prefix; to its deduced root if no known one is above it |
| ImportConstraints.WholeElements | golangdep-master/gps/typed_radix.go:82-92 | a prefix found counts exactly if it is the path, or the path goes on with a slash and something more |
| ImportConstraints.AllFormed | golangdep-master/gps/solver.go:728-790 | what it lists are reached packages outside the standard library, without repetition, under their root's identifier and constraint |
| ImportConstraints.CompleteUnlessCollision | golangdep-master/gps/solver.go:724-728 | the promise to include all packages reached holds if and only if no package is deduced to a root that has packages already |
| ImportConstraints.UnambiguousRootsNeverCollide | golangdep-master/gps/solver.go:734-779 | no collision if deduced roots are above their packages and no longer root is a false prefix |
| ImportConstraints.NestedRootsLosePackages | golangdep-master/gps/solver.go:734-779 | constraints on two nested roots for which a reached package is lost |
| ImportConstraints.FormedDepsAreValid | golangdep-master/gps/solver.go:728-790 | such dependencies are what the solver assumes |
| ImportConstraints.OwnRootIsNotListed | golangdep-master/gps/solver.go:734-779 | a project's own root is never among its dependencies, whatever its manifest constrains, if nothing it reaches outside lies below that root |
| ImportConstraints.ManifestsGiveGoodDeps | golangdep-master/gps/solver.go:728-790 | in a world whose dependencies are made so from manifests and reach maps, the solver's assumption holds of every atom and package list |
| ReachMaps.WmToReach | golangdep-master/gps/pkgtree/pkgtree.go:719-1053 | every graph: lists sound, each package listed or genuinely explained; acyclic: kept exactly if nothing bad is reached, lists exactly the closures; external lists are those in which a run of the small steps ends |
| ReachMaps.Explorer.Dfe | golangdep-master/gps/pkgtree/pkgtree.go:834-992 | ends; keeps colours, nesting, soundness and explanations; poisons the path exactly when it reports so; what it does to colours and external sets is a run of the small steps, for the given order |
| ReachMaps.Explorer.PushUp | golangdep-master/gps/pkgtree/pkgtree.go:887-899 | adds to the sets of everything on the path and, through sharing, to exactly those sharing with it |
| ReachMaps.Explorer.ShareCycle | golangdep-master/gps/pkgtree/pkgtree.go:942-954 | everything after the revisited package shares its sets; the panic for a path without the cycle is unreachable |
| ReachMaps.Explorer.Poison | golangdep-master/gps/pkgtree/pkgtree.go:738-776 | removes the path's sets and records each package with the rest of the cause, but not a last package that does not exist |
| ReachMaps.Explorer.PoisonWhite | golangdep-master/gps/pkgtree/pkgtree.go:780-797 | the recorded error is the last package's own, or that it is missing |
| ReachMaps.Explorer.PoisonBlack | golangdep-master/gps/pkgtree/pkgtree.go:800-823 | the spliced cause leads to an erroneous or missing package; the black package has no record exactly if it does not exist |
| ReachMaps.Explorer.Enter | golangdep-master/gps/pkgtree/pkgtree.go:868-899 | a first visit opens sets and pushes imports up, keeping the invariant with the package on the path |
| ReachMaps.Explorer.VisitGrey | golangdep-master/gps/pkgtree/pkgtree.go:925-954 | a cycle keeps all sets sound and nested |
| ReachMaps.Explorer.VisitBlack | golangdep-master/gps/pkgtree/pkgtree.go:956-987 | a finished package's sets are reused, or its poison bubbles up |
| ReachTables.PushKeeps | golangdep-master/gps/pkgtree/pkgtree.go:887-899 | pushing what the end of the path imports keeps every set sound, shared or not |
| ReachTables.MergeKeeps | golangdep-master/gps/pkgtree/pkgtree.go:942-950 | sharing along a cycle keeps sets sound and nested and loses no element |
| ReachTheorems.FinalReached | golangdep-master/gps/pkgtree/pkgtree.go:994-1053 | the final state of any exploration has the properties promised of the result |
| ReachTheorems.KeptReachesNoBad | golangdep-master/gps/pkgtree/pkgtree.go:716-718 | with back-propagation, once explored packages have their imports settled, as on acyclic graphs, a kept one starts no chain of imports to an erroneous or missing one |
| ReachTheorems.AcyclicMapIsClosed | golangdep-master/gps/pkgtree/pkgtree.go:719-1053 | with back-propagation the reach map of an acyclic graph is transitively closed, as the solver needs |
| InnerCycles.InnerCyclesLoseImports | golangdep-master/gps/pkgtree/pkgtree.go:934-954 | for four packages in two nested cycles and an order of exploration, wmToReach returns a map in which one misses an external import it reaches |
| InnerCycles.CyclesKeepBadImporters | golangdep-master/gps/pkgtree/pkgtree.go:716-718 | for a cycle of two packages, one importing an erroneous one, and an order of exploration, it drops that one and keeps the other, which reaches the error |
| ProcessArguments.AddBackslashes | Paket-master/src/Paket.Bootstrapper/WindowsProcessArguments.cs:8-27 | appends the escaped form of a run of backslashes |
| ProcessArguments.AppendEscaped | Paket-master/src/Paket.Bootstrapper/WindowsProcessArguments.cs:29-91 | appends an argument quoted if empty or containing a blank, with runs and quotes escaped; whatever needs no quoting is copied |
| ProcessArguments.ToString | Paket-master/src/Paket.Bootstrapper/WindowsProcessArguments.cs:93-105 | the command line is the escaped arguments separated by single spaces, empty exactly for no arguments |
| ProcessArguments.ParseBackslashes | Paket-master/src/Paket.Bootstrapper/WindowsProcessArguments.cs:107-144 | agrees with the scanner's treatment of pending backslashes before any character |
| ProcessArguments.Parse | Paket-master/src/Paket.Bootstrapper/WindowsProcessArguments.cs:146-229 | agrees with the scanner on every string, null included |
| ProcessArguments.AnyBlanksSeparate | Paket-master/src/Paket.Bootstrapper/WindowsProcessArguments.cs:146-229 | for every list of arguments, with any runs of blanks and tabs between, before and after, parsing gives the same: each argument with its harmed runs expanded |
| ProcessArguments.DoubledQuoteIsOne | Paket-master/src/Paket.Bootstrapper/WindowsProcessArguments.cs:183-200 | inside a quoted part a doubled quote adds one quote and stays quoted |
| ProcessArguments.QuotedPartJoins | Paket-master/src/Paket.Bootstrapper/WindowsProcessArguments.cs:146-229 | a quoted part in the middle of an argument joins what is around it |
| ProcessArguments.TextIsWritten | Paket-master/src/Paket.Bootstrapper/WindowsProcessArguments.cs:29-91 | an argument without quotes and backslashes is written as it is, in quotes exactly if it is empty or contains a blank |
| ProcessArguments.QuoteIsWritten | Paket-master/src/Paket.Bootstrapper/WindowsProcessArguments.cs:29-91 | a quote inside an argument is written with one backslash before it |
| ProcessArguments.PrintThenParse | Paket-master/src/Paket.Bootstrapper/WindowsProcessArguments.cs:8-229 | for every list, parsing the printed line gives each argument with its harmed runs expanded, same number and order |
| ProcessArguments.RoundTrip | Paket-master/src/Paket.Bootstrapper/WindowsProcessArguments.cs:8-229 | parsing is the inverse of printing if and only if every backslash run of two or more ends at a quote, or at the end of an argument with a blank |
| ProcessArguments.UncPathsAreDoubled | Paket-master/src/Paket.Bootstrapper/WindowsProcessArguments.cs:8-27 | every UNC path whose other runs are harmless comes back with its two leading backslashes doubled |
| PoetryGraph.EquivalentIsSameNormalForm | snyk-poetry-lockfile-parser-master/lib/poetry-dep-graph-builder.ts:80-89 | the two name comparisons are one: equality of the lower-cased, hyphenated name (Name section of PEP 426) |
| PoetryGraph.LookupIsByNormalForm | snyk-poetry-lockfile-parser-master/lib/poetry-dep-graph-builder.ts:76-97 | the lookup of an entry depends on the normal form of the name only |
| PoetryGraph.FindIs | snyk-poetry-lockfile-parser-master/lib/poetry-dep-graph-builder.ts:76-97 | what is found is the first entry with an equivalent name, and nothing exactly if there is none |
| PoetryGraph.ResolvesUnlessIgnored | snyk-poetry-lockfile-parser-master/lib/poetry-dep-graph-builder.ts:7-12 | a name stands for nothing exactly if it is one of the four tools, as written, or no entry is equivalent |
| PoetryGraph.ResolutionAgreesExactly | snyk-poetry-lockfile-parser-master/lib/poetry-dep-graph-builder.ts:46-50 | what a dependency name becomes does not: for equivalent names it is the same if and only if both or none is in the raw list of ignored names, or there is no entry |
| PoetryGraph.CapitalPipIsNotIgnored | snyk-poetry-lockfile-parser-master/lib/poetry-dep-graph-builder.ts:46-48 | a lock file in which pip is ignored and Pip, the same name, is not |
| PoetryGraph.AddDependenciesToGraph | snyk-poetry-lockfile-parser-master/lib/poetry-dep-graph-builder.ts:29-38 | ends, cycles included; all resolvable names get node and edge, all new nodes their dependencies; fails only if the root is reached |
| PoetryGraph.AddDependenciesForPkg | snyk-poetry-lockfile-parser-master/lib/poetry-dep-graph-builder.ts:40-62 | the same for one name |
| PoetryGraph.Build | snyk-poetry-lockfile-parser-master/lib/poetry-dep-graph-builder.ts:14-27 | succeeds exactly if the root is not a reached lock entry; then nodes are exactly the reached entries and edges exactly their declared resolvable dependencies |
| SafeWriters.SafeWriter.Write | golangdep-master/txn_writer.go:271-359 | for every choice of failing renames: succeeds exactly if none fails, every target and vendor.orig end as stated, no temporary file stays |
| SafeWriters.SafeWriter.Replace | golangdep-master/txn_writer.go:280-341 | moves one target out and its successor in, or stops with the move recorded for undoing |
| SafeWriters.SafeWriter.Restore | golangdep-master/txn_writer.go:352-358 | moves everything back, one failing restore not affecting the others |
| SafeWriters.FinishedWrite | golangdep-master/txn_writer.go:343-350 | after success requested targets hold the new content, others what they held |
| SafeWriters.SucceedsUnlessFaulty | golangdep-master/txn_writer.go:280-341 | everything is written exactly if no rename needed fails: moving each new target in, and out what it replaces |
| SafeWriters.VendorTreeIsLast | golangdep-master/txn_writer.go:280-341 | if replacing the manifest or the lock file fails, the vendor tree is not touched; a new manifest stays although the lock file failed |
| SafeWriters.FailedWriteRestores | golangdep-master/txn_writer.go:352-358 | after a failure every target that existed, and whose restore does not fail, holds what it held |
| SafeWriters.FailedWriteLeaves | golangdep-master/txn_writer.go:291-315 | a target that did not exist is there after a failure exactly if it was moved in before it |
| SafeWriters.FailedWriteLoses | golangdep-master/txn_writer.go:352-358 | a target that existed, and was to change, is changed exactly if it was moved out and its restore failed |
| IgnoredRulesets.IgnoredRuleset.constructor | golangdep-master/gps/pkgtree/ignored_ruleset.go:27-67 | the tree is built from a sorted permutation of the rules, empty and global rules skipped |
| IgnoredRulesets.IgnoredRuleset.ToSlice | golangdep-master/gps/pkgtree/ignored_ruleset.go:92-111 | lists exactly the stored rules with their asterisks |
| IgnoredRulesets.BuildIsBuilt | golangdep-master/gps/pkgtree/ignored_ruleset.go:38-60 | every accepted rule is stored or subsumed and nothing else is; with no character below the asterisk no key extends a wildcard |
| IgnoredRulesets.RulesetIsAnyRuleList | golangdep-master/gps/pkgtree/ignored_ruleset.go:20-78 | the ruleset made of any list, in any order, with no character below the asterisk, ignores a path if and only if some rule equals it or is a wildcard above it |
| IgnoredRulesets.RebuildingDecidesTheSame | golangdep-master/gps/pkgtree/ignored_ruleset.go:89-111 | a ruleset made of what another one lists, in any order, decides every path the same way |
| HiddenRules.AgreesUnlessHiddenIn | golangdep-master/gps/pkgtree/ignored_ruleset.go:20-78 | for any list of rules, ruleset and list agree on a path unless, and only unless, a literal rule above the path sorts before every wildcard rule above it, there is one, and the path is no rule itself |
| IgnoredRulesets.ExclamationHidesWildcard | golangdep-master/gps/pkgtree/ignored_ruleset.go:27-67 | two rules and a path on which they disagree |
| SourceCoordinators.NeverPanics | golangdep-master/gps/source.go:105-156 | in every interleaving each recorded name has a URL with a gateway, so no lookup panics |
| SourceCoordinators.SingleFlight | golangdep-master/gps/source.go:159-173 | at most one caller works on a folded name, and one does exactly as long as the name is in protoSrcs |
| SourceCoordinators.FollowersAgree | golangdep-master/gps/source.go:162-170 | a caller that attached returns exactly what the caller it attached to returns |
| SourceCoordinators.KnownNamesAreReturned | golangdep-master/gps/source.go:98-156 | a caller whose name is recorded, as it is or folded, starts no work and waits for nobody: it gets the gateway recorded, at once or after recording its own spelling |
| SourceCoordinators.RecordedInTheMeantime | golangdep-master/gps/source.go:193-207 | a caller that has deduced its sources makes no gateway if the folded name was recorded in the meantime |
| SourceCoordinators.ChannelsAreEmpty | golangdep-master/gps/source.go:175-183 | each attached caller is sent one answer, and sending never blocks |
| SourceCoordinators.NoDeadlock | golangdep-master/gps/source.go:98-260 | while some caller has not returned, some caller can move |
| SourceCoordinators.EveryRunEnds | golangdep-master/gps/source.go:98-260 | every interleaving is bounded by seven steps a caller, and stops only when all have returned |
| SourceNames.OneGatewayEach | golangdep-master/gps/source.go:244-259 | if URLs deduce to themselves, and folded names to folded URLs, all callers of one folded name that get a gateway get the same one |
| SourceNames.NamesKeepTheirUrl | golangdep-master/gps/source.go:244-256 | then no step changes the URL of a name or the gateway of a URL |
| SourceNames.RacingUpgradesAgree | golangdep-master/gps/source.go:139-150 | then upgrades that race record the same URL, as the comment says |
| StableNames.OneGatewayIffStable | golangdep-master/gps/source.go:208-249 | for each assignment of URLs to names, all callers of a name get one gateway in every interleaving if and only if a URL that another name leads to comes first among its own, and after all the others of these for that name |
| StableNames.OneGatewayIffIdempotent | golangdep-master/gps/source.go:208-249 | where each name leads to one URL, if and only if URLs lead to themselves |
| SourceCaches.GetIsExpected | golangdep-master/gps/source_cache_multi.go:71-109 | in every interleaving with the background writer a get answers as a single map would: last value set, else initial disk value |
| SourceCaches.ClosedDiskIsComplete | golangdep-master/gps/source_cache_multi.go:33-46 | after close the disk has received every set, in order |
| SourceCaches.DiskIsPrefix | golangdep-master/gps/source_cache_multi.go:33-38 | at any moment it has received a prefix of them |
| SourceCaches.CrashesExactlyWhenLate | golangdep-master/gps/source_cache_multi.go:41-46 | the process panics exactly when something is set, or closed again, after close has begun; that ends the run |

## Left out

- UniformWorlds.SteadyWorldsStayWanted: steadiness is enough for no stale work to arise, not necessary; what is exact is the condition for a single step (WantedWork.UnselectKeepsWanted).
- ImportConstraints.ManifestsGiveGoodDeps: deduced roots are assumed to be path prefixes of their packages; a metadata server may name a mere string prefix as the root (deduce.go:995), whose constraint is then "any" or the override all other edges carry.
- StableNames.OneGatewayIffStable: names that need folding are left out of the equivalence; for them SourceNames.OneGatewayEach has a sufficient condition.
- Consistency.FullSearchesSolve: the condition, that nothing is given up unblamed, is about the run; it is enough, not necessary. Which of several solutions is found follows from the search relation only step by step.
- Consistency.ConsistentIsNeverRefused: where dependencies on one project name different packages or sources, versions that fit together may be refused because of stale work or of which source was named first (StaleEndings, Blames.OtherSourceIs).
- Solvers.Solver.SelectRoot: the root's dependencies are given; how they follow from its manifest and imports is stated of ImportConstraints only.
- Selections.Unselected.Push: the order of the heap is left open (any answers of unselectedComparator), because remove splices the slice and the order is no invariant.
- Solvers.Solver.UnselectLast: the work queue is not restored to what it was before the selection; what is proved is that coverage is.
- Solvers.Solver.CreateVersionQueue: the branch for the root project is left out, because work items never name it (part of the invariant).
- Solvers.Solver.CheckIdentMatches: failures are values without message text; their formatting (solve_failures.go) is not modelled.
- ReachMaps.WmToReach: on graphs with import cycles the lists are proved sound and to contain each package's own imports, not complete, and importers of errors may be kept, because that is so (InnerCyclesLoseImports, CyclesKeepBadImporters); which packages are affected depends on the order of exploration, which is an input here.
- ReachMaps.Explorer.Poison: errors are values naming their package; slices of causes are values, so sharing of their backing arrays is not captured.
- SafeWriters.SafeWriter.Write: a rename moves everything or nothing; partial copies by fs.RenameWithFallback and the preservation of vendor/.git are not modelled.
- IgnoredRulesets.IgnoredRuleset.constructor: sorting the caller's slice in place is not captured; the rules are sorted into a new sequence.
- SourceCoordinators.NoDeadlock: each critical section is one step, deduction and the creation of gateways are choices, and cancellation while waiting is not modelled.
- SourceCaches.GetIsExpected: version lists, revision lookups and the existence of revisions are not modelled, only manifest-and-lock pairs and package trees.
- PoetryGraph.Build: the dep-graph library is modelled by what is used of it: nodes keyed by name, and connectDep refusing unknown nodes.
- ProcessArguments.ParseBackslashes: the ref parameter is a second result; strings are sequences of UTF-16 units without normalisation.
- Bridge.GetImportsAndConstraintsOf: manifests, package trees and reach maps are given per version; file walking, Go parsing and ToReachMap's filtering of tests and ignored packages are foreign calls. The root's own package list and dependencies are given too.
- Metrics, tracing, prefetching, and breakLock: no effect on results; a released source manager ends a run as cancellation does.
- The internals of the radix tree, semver and dep-graph libraries: they are specified, not implemented. A radix tree is a map with a longest stored prefix.
- Version sorting, input hashing, lock diffing, the delta writer, VCS commands, HTTP metadata and persistent encodings: foreign to the cores above or only easy members.
- Paket's version ordering, IceCreamShop, Paket.VisualStudio, laravel-paket and the other sample projects: user interface, routing and plumbing.
