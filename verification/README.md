# Coverage conversion and browser run protocol: a verified model

Two components of the test runner are modelled and proved.

**Coverage (`packages/coverage-v8`, with the fast merge of its `utils.ts` and the brace scan of `packages/coverage-istanbul`).**
A V8 report, a list of nested ranges with counts, is flattened into disjoint runs in one of two ways. A walk over the
syntax tree allocates statement, function and branch counters. Looking the descriptors' offsets up in the runs fills the
counters. `V8Ranges` gives the independent meaning: the count at an offset is that of the most specific range covering
it (smallest area, then greatest end, then latest in the report), or 0. Both flattening algorithms, the binary search,
the in-place counter updates, the merging of raw entries before conversion and the fast merge after it are proved
against that meaning. `Convert.ConvertCoverage` joins the parts: every counter of a converted script is the sum of the
counts stored for the starts of the spans that stand for its location, which are the most specific counts wherever these
fit the form. `AstPaths` says which spans those are: the walk's calls are those of the reached nodes in preorder, a path
being reached when no node on it is ignored and no step goes into a lost child. `AstTree` and `AstReports` tie the walk
to the grammar: it sees every sub-node, and what it reports at a node is told by the node's kind, sub-nodes and hints
alone. `Entries` shows that the templates hold exactly the entries these calls stand for, and `CallCounts` follows
single calls to their counters. `FileConversion` joins the grouping of a file's raw entries to their conversion: group
after group leaves what entry by entry would, when the sums fit.

**Browser runs (`packages/browser`).** The headed registry, the inbound gate with its handlers, the serial queue, the
frame-set acknowledgements, the headless worker pool and the watch planner are state machines: the code between two awaits
is one step, timers fire only while pending, and handlers, coverage, recovery and deliveries end either way. Invariants are
proved for every step and then for every finite run of steps. The classes carry the source's fields, and each of their
methods is proved to make exactly the corresponding step.

Every lemma is written with `{:induction false}`: no proof rests on automatic induction.

## What the proofs brought out

- `HeadedScheduler` comments say that a handler failure rejects the run. A handler that throws an empty message leaves
  `response.error` empty, which tests as no error, so the run is resolved (`DispatchGate.FileCompleteResolvesIff` gives the
  exact condition, `DispatchGate.EmptyFailureResolves` the run of events).
- The registry alone does not keep the boot timer off a claimed run: `armCleanupDeadline` leaves it pending. One step breaks
  this, a cleanup deadline expiring on a run never heard of (`RunRegistry.BootTimerOnClaimedIff`, with the run of steps in
  `RunRegistry.UngatedArmingLosesClaim`). The gate arms only after an admit, and then it cannot happen.
- The painted array keeps counts modulo 2^32, the sweep does not: the forms agree exactly when every count that shows
  anywhere fits in 32 bits (`RangeNormalizer.NormalizeBothWays`); a character run 2^32 times is lost by one and kept by the
  other (`RangeNormalizer.CountLost`), and merging two entries can bring that about (`EntryMerge.SumLost`).
- Equal hashes are believed without comparing counters, and that is the only way unequal counters are accepted
  (`FastMerge.AcceptanceIsSafeIff`, with the pair in `FastMerge.HashHidesShape`). What such a merge leaves is right exactly
  when no incoming counter or arm is missing (`FastMerge.MergeIsRightIff`).
- Nothing inside a nested part of a logical chain is ever reported, under any hints: skipping the inner chain prunes its
  whole subtree (`AstPaths.NestedIsLost`, with an instance in `AstPaths.NestedFunctionIsLost`).
- A watch key joins project name and path with a colon. Colons in names do no harm as such: a changed file set can go
  unnoticed exactly when one project's name runs on from another's by a colon, and, as test paths are absolute
  (`packages/core/src/utils/testFiles.ts:160-165`), on POSIX by a colon and a slash
  (`WatchRerunPlanner.KeysDecideIff`, `WatchRerunPlanner.AbsoluteKeysDecideIff`, `WatchRerunPlanner.ColonHidesChange`).
- A group key joins its parts with NUL, so sources could collide by a NUL in a root and a path (`GroupKey.KeysAgreeIff`),
  which file systems rule out; the entries of one file never collide (`SourceGroups.KeysOverTime`). A missing root counts as
  the empty one.
- A wait for frame-set version zero would end without any acknowledgement; committed versions start at one
  (`FrameSet.EmptyWaitIff`).

## Files

| module | models |
|---|---|
| `StableSort`, `Decimal`, `Wrappers`, `Protocol` | the engine's stable sort, decimal numerals, optional values, test files |
| `V8Ranges`, `SortedReport`, `PaintedArray`, `EventSweep`, `CoverageRuns`, `RangeNormalizer` | flattening a report and looking offsets up |
| `AstWalk`, `AstPaths`, `AstTree`, `AstReports` | walking the syntax tree |
| `LineLocator`, `CoverageBuilder`, `Entries`, `Prepare` | from the walk's calls to descriptors and templates |
| `CoverageModel`, `CoverageApply`, `ScriptOrder`, `FastMerge`, `Convert`, `CallCounts` | counters, scripts and their merging |
| `EntryMerge`, `EntryGroups`, `GroupKey`, `SourceGroups`, `FileConversion` | raw entries, grouped and converted |
| `InitialCoverage` | the brace scan for instrumented code |
| `RunRegistry`, `ContainerRpc`, `DispatchRouter`, `DispatchGate`, `SerialTaskQueue`, `HeadedScheduler`, `FrameSet` | headed runs |
| `RunSession`, `WorkerPool` | headless runs |
| `WatchRerunPlanner` | watch reruns |

## Model

| member | source | states |
|---|---|---|
| V8Ranges.MostSpecificIsUnique | packages/coverage-v8/src/v8AstConverter.ts:1166-1183 | at most one covering range beats all others, so the count at an offset is well defined |
| V8Ranges.MostSpecificExists | packages/coverage-v8/src/v8AstConverter.ts:1166-1183 | whenever some range covers an offset, one of them beats all others |
| V8Ranges.FlattenSplits | packages/coverage-v8/src/v8AstConverter.ts:1045-1057 | the report is read function by function and range by range, nothing left out |
| V8Ranges.InnermostDecides | packages/coverage-v8/src/v8AstConverter.ts:1166-1183 | where ranges nest the innermost one gives the count, of ranges with the same ends the one reported last |
| StableSort.SortIsStable | packages/coverage-v8/src/v8AstConverter.ts:1059-1067 | a stable sort strictly orders the list by the comparison with ties broken by original position |
| SortedReport.GetSortedRawCoverageRanges | packages/coverage-v8/src/v8AstConverter.ts:1045-1068 | the sorted list holds exactly the report's ranges, the least specific first |
| SortedReport.WinnerDecides | packages/coverage-v8/src/v8AstConverter.ts:1045-1068 | the greatest covering range of the sorted list has the report's count at the offset |
| PaintedArray.PaintedIsCount | packages/coverage-v8/src/v8AstConverter.ts:1070-1104 | painting in sorted order leaves at every offset the count of the most specific range |
| PaintedArray.NormalizeWithCoverageArray | packages/coverage-v8/src/v8AstConverter.ts:1070-1104 | the runs cut from the painted array are sorted, disjoint, with no two touching runs of equal count, and give every offset its painted count modulo 2^32 |
| EventSweep.SortedEvents | packages/coverage-v8/src/v8AstConverter.ts:1106-1130 | the events are exactly both ends of every range, in sweep order, a range opening before it closes |
| EventSweep.GetMostSpecificRange | packages/coverage-v8/src/v8AstConverter.ts:1166-1183 | the winner of a non-empty active list is in it and more specific than every other |
| EventSweep.NormalizeWithCoverageEvents | packages/coverage-v8/src/v8AstConverter.ts:1106-1164 | the swept runs are sorted, disjoint and merged where equal, and give every offset the count of its most specific range |
| CoverageRuns.GetCount | packages/coverage-v8/src/v8AstConverter.ts:1185-1214 | the binary search finds the run containing the offset, or gives 0 when none does |
| RangeNormalizer.Normalize | packages/coverage-v8/src/v8AstConverter.ts:1024-1043 | whichever form is chosen, the runs are canonical and give every offset its stored count |
| RangeNormalizer.FitsAtIff | packages/coverage-v8/src/v8AstConverter.ts:1070-1104 | the stored count of an offset is the true one exactly when the deciding count fits in 32 bits |
| RangeNormalizer.LargeScriptsKeepCounts | packages/coverage-v8/src/v8AstConverter.ts:1038-1042 | a count of 2^32 is lost in a script that ends at 2,000,000 and kept in one that ends at 2,000,001 |
| RangeNormalizer.NormalizeBothWays | packages/coverage-v8/src/v8AstConverter.ts:1024-1164 | the two forms of one report answer an offset alike exactly when the count that shows there fits in 32 bits, and every offset exactly when all do |
| RangeNormalizer.CountBothWays | packages/coverage-v8/src/v8AstConverter.ts:1024-1214 | one offset looked up in both forms: the first count is the second truncated, the same exactly when it fits |
| RangeNormalizer.CountLost | packages/coverage-v8/src/v8AstConverter.ts:1070-1104 | a one-range report with count 2^32 counts 0 in the array form and 2^32 in the sweep form |
| LineLocator.BaseLocator.OffsetToNeedle | packages/coverage-v8/src/v8AstConverter.ts:754-796 | for any offset and history the line is one more than the newlines before it, and line start plus column is the offset again; the cache changes nothing |
| LineLocator.NeedleInjective | packages/coverage-v8/src/v8AstConverter.ts:766-795 | different offsets have different positions |
| LineLocator.BaseLocator.GetLoc | packages/coverage-v8/src/v8AstConverter.ts:812-829 | the location of a span in unmapped code, none when its first line is ignored |
| LineLocator.LocationDecidesSpan | packages/coverage-v8/src/v8AstConverter.ts:812-829 | in unmapped code a location belongs to one span only |
| LineLocator.LocationCoversSpan | packages/coverage-v8/src/v8AstConverter.ts:812-829 | a span in unmapped code is located at its first and, columns being inclusive, its last character, a newline there giving column -1 |
| CoverageBuilder.UniqueName | packages/coverage-v8/src/v8AstConverter.ts:594-617 | the name is new, a free base is kept as it is, a taken one is numbered; the search ends because the taken names are finitely many |
| CoverageBuilder.FunctionName | packages/coverage-v8/src/v8AstConverter.ts:594-624 | an unnamed function gets the anonymous name of its index, a named one its name if that is free, else a numbered one |
| CoverageBuilder.AllocateStatement | packages/coverage-v8/src/v8AstConverter.ts:636-643 | one index per location, the next one for a new location, nothing allocated is changed |
| CoverageBuilder.AllocateFunction | packages/coverage-v8/src/v8AstConverter.ts:587-624 | one index per declaration, known ones changing nothing; a new entry has the declaration, location and line given, and the name its place calls for; names are distinct |
| CoverageBuilder.AllocateBranch | packages/coverage-v8/src/v8AstConverter.ts:702-716 | one index per list of arm locations, known ones changing nothing; a new entry has the type, location and line given |
| CoverageBuilder.CollectArms | packages/coverage-v8/src/v8AstConverter.ts:668-694 | one location and range per mapped or missing arm, in order, block braces left out |
| CoverageBuilder.MappedAre | packages/coverage-v8/src/v8AstConverter.ts:668-694 | exactly the missing and the located arms are kept, in order |
| CoverageBuilder.Builder.constructor | packages/coverage-v8/src/v8AstConverter.ts:553-564 | every file starts under its own path, with nothing in it |
| CoverageBuilder.Builder.AddFunction | packages/coverage-v8/src/v8AstConverter.ts:569-627 | a located function gets one descriptor with the index of its declaration, and gives a new declaration its entry; the builder stays in order |
| CoverageBuilder.Builder.AddStatement | packages/coverage-v8/src/v8AstConverter.ts:629-653 | a located statement gets one descriptor with the index of its location; the builder stays in order |
| CoverageBuilder.Builder.AddBranch | packages/coverage-v8/src/v8AstConverter.ts:655-719 | a located branch with a mapped arm gets one descriptor with one range per arm, and gives new arm locations their entry; the builder stays in order |
| CoverageBuilder.Builder.ToPreparedCoverage | packages/coverage-v8/src/v8AstConverter.ts:721-734 | each file has its path, indices are exactly 0 to count-1, one per distinct key, and no descriptor dangles; a branch descriptor has as many ranges as its recorded length |
| AstTree.ChildrenAreFields | packages/coverage-v8/src/v8AstConverter.ts:344-415 | the walk visits every sub-node of a node in the grammar's order and nothing else; arms of an `if` are seen as blocks, arrow bodies and conditional arms without parentheses |
| AstTree.EveryNodeIsSeen | packages/coverage-v8/src/v8AstConverter.ts:270-286 | every node of a source tree is on a path of the walk, but for the parentheses dropped there |
| AstTree.SeenIsSource | packages/coverage-v8/src/v8AstConverter.ts:512-523 | every node the walk sees is one of the source tree or a block added around one that is no block |
| AstWalk.LeavesInOrder | packages/coverage-v8/src/v8AstConverter.ts:473-495 | the operands of a chain stand in source order inside it, and none is itself an unhinted logical expression |
| AstWalk.ChainTraversal | packages/coverage-v8/src/v8AstConverter.ts:473-495 | a maximal unhinted chain yields one branch with its leaves as arms, and only its outermost non-logical operands are walked further |
| AstWalk.Walker.Enter | packages/coverage-v8/src/v8AstConverter.ts:275-501 | entering an ignored or pruned node calls nothing; otherwise the node reports what the recursive traversal does, recorded with its path, and marks exactly the children that prunes or covers |
| AstWalk.Walker.Walk | packages/coverage-v8/src/v8AstConverter.ts:274-507 | the enter/leave machine with its one slot makes the calls of the pruning recursive traversal, each at the node the traversal makes it for, and leaves the slot free |
| AstWalk.WalkProgram | packages/coverage-v8/src/v8AstConverter.ts:270-509 | for every tree and hint set the calls, each with its node, are those of the recursive traversal, and nothing is being ignored at the end |
| AstPaths.ReachedAre | packages/coverage-v8/src/v8AstConverter.ts:274-291 | the listed paths are exactly those on which no node is hinted to be ignored and no parent skips a child |
| AstPaths.ReachedOrdered | packages/coverage-v8/src/v8AstConverter.ts:274-291 | they stand in preorder, each once |
| AstPaths.TraverseIsPreorder | packages/coverage-v8/src/v8AstConverter.ts:274-507 | the traversal makes the reached nodes' own calls, in preorder, and no others |
| AstPaths.TraceIsLabelled | packages/coverage-v8/src/v8AstConverter.ts:274-507 | the traversal that records the node of every call makes exactly the own calls of the reached nodes, in preorder, each at that node |
| AstPaths.WalkWithPaths | packages/coverage-v8/src/v8AstConverter.ts:270-509 | what the flat machine records, call by call with the node it was in, is the own calls of the reached nodes in preorder |
| AstPaths.ReportedIffReached | packages/coverage-v8/src/v8AstConverter.ts:274-507 | a call is made at a node exactly when it is one of its own and the node is reached |
| AstPaths.NestedIsLost | packages/coverage-v8/src/v8AstConverter.ts:473-495 | nothing inside a nested part of a logical chain is reported, under any hints |
| AstPaths.FunctionReportedIffReached | packages/coverage-v8/src/v8AstConverter.ts:288-352 | a function that its method or property does not report is reported exactly when it is reached |
| AstPaths.NestedFunctionIsLost | packages/coverage-v8/src/v8AstConverter.ts:288-291 | a function in the middle of a three-part chain is not reported, although its own traversal reports it |
| AstReports.OwnIsReport | packages/coverage-v8/src/v8AstConverter.ts:293-500 | what a node reports, told by its kind, sub-nodes and hints: one call per kind with exactly these spans and this type; an `if` has the arms of its unignored consequent, then of its alternate or the missing one; a switch and a conditional one arm per unignored case, in order; a class body one statement per initialised field, in order |
| AstReports.WalkReports | packages/coverage-v8/src/v8AstConverter.ts:274-507 | for every tree and hints the record of the walk holds at each reached path exactly that report, and nothing at any other path |
| AstReports.WalkAndReport | packages/coverage-v8/src/v8AstConverter.ts:270-509 | the flat machine makes the calls of such a record, those of one node together and the nodes in preorder |
| AstReports.ReachedIff | packages/coverage-v8/src/v8AstConverter.ts:274-291 | a path is reached exactly when no node on it is ignored and no step goes into the ignored arm of an `if` or from one logical expression into another |
| AstReports.CoveredIff | packages/coverage-v8/src/v8AstConverter.ts:305-342 | a function value is left to its parent exactly right under a method or property |
| AstReports.ReportsLieInTheirNode | packages/coverage-v8/src/v8AstConverter.ts:293-500 | reported statements and functions carry spans of sub-nodes of their node, an unnamed function that of its first character; where sub-nodes lie in order, the arms of every reported branch lie in its node, in source order, a missing one last |
| Prepare.TraversedNames | packages/coverage-v8/src/v8AstConverter.ts:1386-1400 | every name handed to the builder is missing or an identifier |
| Entries.EnteredComesFrom | packages/coverage-v8/src/v8AstConverter.ts:569-719 | a file filled call by call has exactly the entries its calls stand for, each with the attributes of the first such call, indexed in the order of these |
| Entries.HasEnteredNext | packages/coverage-v8/src/v8AstConverter.ts:569-719 | every call keeps that: a known key changes nothing, a new one gets the next index of its kind |
| Prepare.Replay | packages/coverage-v8/src/v8AstConverter.ts:569-734 | one descriptor per located call of its kind, in order, whose index stands for the call's location; and the entries the calls stand for |
| Prepare.PrepareCoverage | packages/coverage-v8/src/v8AstConverter.ts:201-510 | for every tree: each file under its path with exactly the entries the traversal's calls stand for (type, location, line and name of the first one), no dangling descriptor, one descriptor per located call |
| CoverageApply.CreateFileCoverage | packages/coverage-v8/src/v8AstConverter.ts:948-970 | every counter of the template exists and is zero |
| CoverageApply.AddArmHits | packages/coverage-v8/src/v8AstConverter.ts:1009-1019 | an explicit arm grows by the count at its own start, an implicit one and its predecessor together by the count at the implicit one's start; an arm that is not there becomes no number |
| CoverageApply.ScriptArmsGrow | packages/coverage-v8/src/v8AstConverter.ts:1007-1021 | the same for the arms of a branch when a whole script is applied |
| CoverageApply.CoverageStore.ApplyCoverageHits | packages/coverage-v8/src/v8AstConverter.ts:991-1022 | every counter grows by the hits of the descriptors that name it, a missing one becomes no number, and nothing else changes; it throws exactly at the first branch with arms that is missing, with all before it applied |
| CoverageApply.CoverageStore.ApplyCoverageToMap | packages/coverage-v8/src/v8AstConverter.ts:934-946 | a script applied straight into any existing coverage: missing files start at zero, missing counters become no number, and a missing branch with arms throws with all before it applied |
| CoverageApply.ApplyCoverage | packages/coverage-v8/src/v8AstConverter.ts:919-932 | converting one script into coverage of its own |
| CoverageModel.AddHitsTwice | packages/coverage-v8/src/v8AstConverter.ts:991-1022 | adding two scripts' hits is adding the hits of the summed counts, through implicit arms too |
| CoverageModel.ArmHitSplits | packages/coverage-v8/src/v8AstConverter.ts:1009-1019 | an implicit arm and the one before it share the count at the implicit arm's start; every other arm has the count at its own |
| CoverageModel.ArmSumsSplit | packages/coverage-v8/src/v8AstConverter.ts:1007-1021 | the same for all that a script adds to a branch |
| CoverageModel.NeverMissing | packages/coverage-v8/src/v8AstConverter.ts:972-1022 | over any coverage built from the same templates no descriptor misses its counter |
| CoverageModel.ScriptKeepsShape | packages/coverage-v8/src/v8AstConverter.ts:934-989 | applying a script that names only its own templates' counters keeps every file built from its template |
| Convert.StatementSum | packages/coverage-v8/src/v8AstConverter.ts:991-1005 | a statement counter's hits are those of the calls with its location |
| Convert.ArmsSum | packages/coverage-v8/src/v8AstConverter.ts:1007-1021 | an arm counter's hits are those of the calls with the same arms |
| Convert.ConvertCoverage | packages/coverage-v8/src/v8AstConverter.ts:154-164 | every counter of a converted script is the sum, over the calls standing for its location, of the count stored for the call's start; where all counts fit the form used, of the most specific count there. Each file has its path and exactly the entries the calls stand for |
| Convert.StoredAreReportedIff | packages/coverage-v8/src/v8AstConverter.ts:1024-1043 | the stored counts are the most specific ones everywhere exactly when the script is large or every count that shows fits in 32 bits |
| CallCounts.StatementCounts | packages/coverage-v8/src/v8AstConverter.ts:991-1005 | a statement call that alone stands for its location: its counter is the count where the call's span starts |
| CallCounts.FunctionCounts | packages/coverage-v8/src/v8AstConverter.ts:991-998 | a function call that alone stands for its declaration: its counter is the count where the call's span starts |
| CallCounts.ConvertBranches | packages/coverage-v8/src/v8AstConverter.ts:154-164 | converting a script leaves every branch call that alone stands for its arms its branch, with its own arms' hits |
| CallCounts.ArmCounts | packages/coverage-v8/src/v8AstConverter.ts:680-719 | an arm that is there counts where its code starts, behind the brace of a block, and has its own location, the first arm of an `if` the statement's |
| CallCounts.IfWithoutElse | packages/coverage-v8/src/v8AstConverter.ts:409-434 | a reached `if` without else, in any converted script in which it alone stands for its location: with count c at the statement and t behind the brace its arms are [t, c - t] |
| CallCounts.IfElse | packages/coverage-v8/src/v8AstConverter.ts:409-434 | one with an else: the consequent's count first, then the alternate's |
| CallCounts.RunFiveTimes | packages/coverage-v8/src/v8AstConverter.ts:154-164 | `if (x) { return; }` run five times, its block three times, converts to arms [3, 2] |
| ScriptOrder.ScriptsCommute | packages/coverage-v8/src/v8AstConverter.ts:934-946 | two scripts with agreeing templates can be applied in either order |
| ScriptOrder.OrderIrrelevant | packages/coverage-v8/src/v8AstConverter.ts:934-946 | the result of any list of scripts does not depend on its order |
| FastMerge.SameKeysIff | packages/coverage-v8/src/utils.ts:44-53 | counting keys and testing one inclusion compares the key sets |
| FastMerge.AcceptsIff | packages/coverage-v8/src/utils.ts:127-160 | for any two file coverages: incoming `all` coverage is accepted, existing one is not, two hashes decide by being equal, and without two the maps and counters must be the same |
| FastMerge.AcceptanceIsSafeIff | packages/coverage-v8/src/utils.ts:143-145 | acceptance guarantees equal counters, over all coverage with two given hashes, exactly when these are not truthy and equal |
| FastMerge.HashHidesShape | packages/coverage-v8/src/utils.ts:143-145 | for every truthy hash two file coverages, each counting exactly its own map, that are accepted although a counter is missing |
| FastMerge.MergeNumberHits | packages/coverage-v8/src/utils.ts:162-169 | every counter grows by the source's, and one the target lacks becomes no number |
| FastMerge.MergeBranchHits | packages/coverage-v8/src/utils.ts:171-179 | in the order of the keys every arm grows by the source's and missing arms become no number; it throws exactly at the first missing branch with arms, with those before it added |
| FastMerge.FastMergeFileCoverage | packages/coverage-v8/src/utils.ts:181-202 | for any pair: refused, ignored, thrown or added, with the existing coverage as it is left |
| FastMerge.MergeIsRightIff | packages/coverage-v8/src/utils.ts:181-202 | an accepted merge leaves exactly the sums if and only if no incoming counter or arm is missing |
| FastMerge.UnhashedMergeIsRight | packages/coverage-v8/src/utils.ts:181-202 | without two truthy hashes every accepted merge leaves the sums |
| FastMerge.MergeEqualsAdd | packages/coverage-v8/src/utils.ts:181-202 | fresh coverage of a script, merged into any coverage that accepts it, misses nothing and adds the script's hits |
| FastMerge.BuiltIsAccepted | packages/coverage-v8/src/utils.ts:127-160 | coverage built from the script's template accepts it and keeps its shape |
| FastMerge.FastCoverageMap.AddFileCoverage | packages/coverage-v8/src/utils.ts:209-228 | for any coverage: a new file is added, a known one merged fast where accepted and slowly otherwise; it throws exactly when the fast merge does, and keeps what that leaves |
| FastMerge.FastCoverageMap.Merge | packages/coverage-v8/src/utils.ts:230-242 | the first merge is slow for every file, later ones fast where accepted; it stops at a file that throws, with the files before it merged and the rest as before |
| FastMerge.MergeIsApply | packages/coverage-v8/src/utils.ts:204-245 | over coverage built from the templates, merging a script's own coverage is applying the script |
| FastMerge.ConvertAndMerge | packages/coverage-v8/src/utils.ts:204-245 | converting afresh and merging, into any map, never throws: files that accept get the hits added, others go to the slow merge; over coverage built from the templates the map is what direct application leaves |
| EntryMerge.TryMergeCoverageEntry | packages/coverage-v8/src/provider.ts:1144-1201 | counts are added in place exactly when the shapes agree; otherwise the target is unchanged |
| EntryMerge.MergedCount | packages/coverage-v8/src/provider.ts:1144-1201 | at every offset the merged entry's count is the sum, and it is flattened by the same form |
| EntryMerge.MergedStoredIff | packages/coverage-v8/src/provider.ts:1144-1201 | what is stored for the merged entry is the sum exactly when the sum fits the form used |
| EntryMerge.SumLost | packages/coverage-v8/src/provider.ts:1144-1201 | two entries with counts of 2^31, which both forms keep, merge into one that the array form reads as 0 and the sweep as 2^32 |
| EntryMerge.MergeThenConvert | packages/coverage-v8/src/provider.ts:1144-1201 | merging first and converting once leaves the hits of converting both, implicit arms included |
| EntryGroups.AbsorbShapes | packages/coverage-v8/src/provider.ts:1116-1142 | a shape already stored is stored no second time |
| EntryGroups.GroupingLosesNothing | packages/coverage-v8/src/provider.ts:1116-1142 | in each group the stored counts add up, at every offset, to those of all inputs with its key |
| EntryGroups.GroupStoredIff | packages/coverage-v8/src/provider.ts:1116-1142 | what is stored for an entry of a group is the sum of what would be stored for the inputs of its shape exactly when that sum fits the form used |
| EntryGroups.GroupConverts | packages/coverage-v8/src/provider.ts:1116-1142 | converting what a group stores leaves the hits of converting every input with its key, when for each shape of a small script the stored counts add up below 2^32 |
| EntryGroups.Groups.MergeIntoCoverageEntries | packages/coverage-v8/src/provider.ts:1116-1142 | the first stored entry of the same shape takes the counts, otherwise the entry is stored; the group's options take in the entry's and its root stays; other groups stay |
| EntryGroups.GroupOptionsAre | packages/coverage-v8/src/provider.ts:1124-1133 | a group is kept with the root of its first entry, the first output module given and the last text of its asset and of its source map |
| GroupKey.SourceIdentities.GetStringIdentity | packages/coverage-v8/src/provider.ts:1090-1103 | the same text keeps its id, a new one gets the next, unused id |
| GroupKey.SourceIdentities.GetRawCoverageGroupKey | packages/coverage-v8/src/provider.ts:1048-1065 | the key of an entry under the ids known afterwards |
| GroupKey.KeyIsStable | packages/coverage-v8/src/provider.ts:1090-1103 | a key never changes as later texts get their ids |
| GroupKey.KeyPartsDecide | packages/coverage-v8/src/provider.ts:1048-1065 | keys agree exactly when module kind, source text, source map text and the joined root and path agree |
| GroupKey.JoinsAgreeIff | packages/coverage-v8/src/provider.ts:1058-1064 | the joins of root and path agree exactly when both parts do, or one root runs on by NUL into the other's path |
| GroupKey.KeysAgreeIff | packages/coverage-v8/src/provider.ts:1048-1065 | keys agree exactly when the sources are the same or collide by such a NUL |
| GroupKey.KeyDecides | packages/coverage-v8/src/provider.ts:1048-1065 | for equal paths, NUL-free roots or NUL-free paths, keys agree exactly when root, path, module kind, source text and source map text do |
| GroupKey.NulCollides | packages/coverage-v8/src/provider.ts:1058-1064 | two different files sharing a key by a NUL in a root and a path, which file systems do not allow |
| SourceGroups.KeysOverTime | packages/coverage-v8/src/provider.ts:946-962 | keys made at different times agree exactly when the sources collide; for the entries of one file, exactly when they are the same |
| SourceGroups.GroupHoldsSource | packages/coverage-v8/src/provider.ts:946-969 | a group of one file's entries holds the counts of exactly the entries with one source, each shape once, and is kept with their options and root |
| SourceGroups.SourceConverts | packages/coverage-v8/src/provider.ts:946-1017 | converting a group leaves the hits of converting every entry with its source, when the sums fit |
| SourceGroups.GroupRetained | packages/coverage-v8/src/provider.ts:946-969 | the loop over a file's retained entries leaves the groups of their values, each entry under the key made when it was reached |
| FileConversion.GroupedIsEach | packages/coverage-v8/src/provider.ts:946-1027 | for the entries of one file with agreeing templates, converting group after group, in any order of the groups, leaves the coverage of converting every entry on its own as it arrived, when the sums fit |
| FileConversion.NothingFails | packages/coverage-v8/src/provider.ts:998-1015 | when all preparations name only their own counters, share templates and fit the coverage that is there, no entry fails, and all scripts are applied in full |
| FileConversion.FileConverter.ConvertOneByOne | packages/coverage-v8/src/provider.ts:593-645 | entry after entry flattened and applied; an entry that throws is applied up to there and noted, and the next one goes on; when the preparations share templates that fit what is there, none throws and all hits are added |
| FileConversion.FileConverter.ConvertRetained | packages/coverage-v8/src/provider.ts:946-1027 | the retained entries of one file are grouped, and every group converted once, entries that throw only being noted; when the preparations share templates that fit what is there and the sums fit, none throws and the coverage is that of converting every entry on its own as it arrived |
| InitialCoverage.FindSlice | packages/coverage-istanbul/src/utils.ts:48-75 | the slice is the innermost balanced brace pair around the first magic value, found exactly when some pair encloses it; each error case exactly |
| InitialCoverage.ScansGiveInnermost | packages/coverage-istanbul/src/utils.ts:54-73 | what both scans find is a matching pair with balanced text inside, and no enclosing pair is smaller |
| InitialCoverage.NoPairAround | packages/coverage-istanbul/src/utils.ts:54-73 | when one side has no unmatched brace no pair encloses the magic value |
| RunRegistry.StepKeepsSound | packages/browser/src/headedRunRegistry.ts:56-239 | every registry call and timer keeps: settled once or live, claimed at most once, one open run per path, current epoch, no timer of a run that is gone |
| RunRegistry.StepKeepsGated | packages/browser/src/headedRunRegistry.ts:168-185 | with arming only after an admit no claimed run keeps a boot timer |
| RunRegistry.BootTimerOnClaimedIff | packages/browser/src/headedRunRegistry.ts:168-185 | without that rule exactly one kind of step breaks it |
| RunRegistry.UngatedArmingLosesClaim | packages/browser/src/headedRunRegistry.ts:104-185 | four steps after which a boot timer rejects a claimed run |
| RunRegistry.DisarmedCannotClaim | packages/browser/src/headedRunRegistry.ts:187-194 | a disarmed deadline cannot claim its run, through anything but arming it again |
| RunRegistry.ArmedCanClaim | packages/browser/src/headedRunRegistry.ts:168-185 | a deadline armed for an open run can expire, and claims it |
| RunRegistry.HeardIsBooted | packages/browser/src/headedRunRegistry.ts:140-153 | a run that was heard of is never rejected by its boot timer |
| RunRegistry.BootTimerRejects | packages/browser/src/headedRunRegistry.ts:104-115 | a boot timer that fires rejects its run |
| RunRegistry.SettledAndClaimedAtMostOnce | packages/browser/src/headedRunRegistry.ts:60-237 | over every run of steps: a promise is settled once exactly when its run has left the table, claims at most once, one open run per path, current epoch |
| RunRegistry.ClaimedUntilNamed | packages/browser/src/headedRunRegistry.ts:75-88 | a claimed run stays pending through everything but a resolve or reject naming it |
| RunRegistry.SettledStaysSettled | packages/browser/src/headedRunRegistry.ts:60-73 | a run that left the table is never admitted again and keeps its outcome |
| RunRegistry.NewTransportSweeps | packages/browser/src/headedRunRegistry.ts:231-237 | a new epoch rejects every open run and leaves claimed ones |
| RunRegistry.CommitSweeps | packages/browser/src/headedRunRegistry.ts:215-218 | a commit resolves exactly the open runs whose path left the set |
| RunRegistry.DisconnectSweeps | packages/browser/src/headedRunRegistry.ts:221-223 | losing the transport rejects exactly the open runs |
| RunRegistry.MintSupersedes | packages/browser/src/headedRunRegistry.ts:97-126 | a new run is open and pending, and resolves exactly an open predecessor of its path |
| RunRegistry.HeadedRunRegistry.SweepOpen | packages/browser/src/headedRunRegistry.ts:79-88 | settles the matching open runs and no others |
| RunRegistry.HeadedRunRegistry.Mint | packages/browser/src/headedRunRegistry.ts:97-126 | makes the minting step |
| RunRegistry.HeadedRunRegistry.Admit | packages/browser/src/headedRunRegistry.ts:140-153 | admits exactly live runs, terminal messages only while open; makes the admitting step |
| RunRegistry.HeadedRunRegistry.CleanupDeadlineExpires | packages/browser/src/headedRunRegistry.ts:174-182 | claims the run exactly when it is still open |
| RunRegistry.HeadedRunRegistry.SetTransportEpoch | packages/browser/src/headedRunRegistry.ts:231-237 | makes the epoch step |
| ContainerRpc.ContainerRpcManager.AttachWebSocket | packages/browser/src/containerRpc.ts:116-126 | the epoch grows with every attachment, and no open run of an older one is left |
| ContainerRpc.ContainerRpcManager.SocketCloses | packages/browser/src/containerRpc.ts:162-188 | only the attached socket's close counts, and it leaves no open run |
| DispatchRouter.HostDispatchRouter.Dispatch | packages/browser/src/dispatchRouter.ts:41-81 | a response in every case: stale only with a test for run tokens that says so, a result exactly when a handler returns, an error exactly when none exists or it throws |
| DispatchGate.NextKeepsOk | packages/browser/src/headedScheduler.ts:353-531 | in every interleaving a run is claimed exactly when a handler owns or owned it, and a handler's word decides unless a failed delivery came first |
| DispatchGate.TerminalDecides | packages/browser/src/headedScheduler.ts:477-531 | over events alone: when the first terminal message of a run is admitted, later its coverage taken or not, and later the router answers, with anything in between, the run is resolved exactly for a file-complete with coverage taken, no error text and no failed delivery before, else rejected |
| DispatchGate.ExpiryDecides | packages/browser/src/headedScheduler.ts:359-383 | over events alone: a run its deadline claims is resolved exactly when the recovery succeeds and no delivery failed before |
| DispatchGate.FatalRejects | packages/browser/src/headedScheduler.ts:516-528 | a fatal rejects its run, whatever its coverage and handler come to |
| DispatchGate.HandledThrough | packages/browser/src/headedScheduler.ts:477-531 | a handler stays at its point through all events but its own, and exactly a failed delivery takes its run away |
| DispatchGate.NoExpiryAfterEnd | packages/browser/src/headedScheduler.ts:382-384 | after the cleanup has ended its deadline cannot expire, unless a cleanup starts again |
| DispatchGate.ExpiryAfterStart | packages/browser/src/headedScheduler.ts:358-361 | an open run whose cleanup starts can be claimed by the deadline |
| DispatchGate.NoBootDeadlineAfter | packages/browser/src/headedScheduler.ts:477-488 | once a run has spoken its boot deadline cannot reject it |
| DispatchGate.DeliveredOnce | packages/browser/src/headedScheduler.ts:408-410 | a delivery ends once, well or not |
| DispatchGate.CommitResolves | packages/browser/src/headedRunRegistry.ts:215-218 | at the gate a commit resolves exactly the open runs outside the set |
| DispatchGate.DisconnectRejects | packages/browser/src/headedRunRegistry.ts:221-223 | at the gate a lost transport rejects exactly the open runs |
| DispatchGate.AttachRejects | packages/browser/src/headedRunRegistry.ts:231-237 | at the gate a new transport rejects every open run |
| DispatchGate.BootDeadlineRejects | packages/browser/src/headedRunRegistry.ts:104-115 | at the gate a boot deadline rejects its run |
| DispatchGate.DispatchSettles | packages/browser/src/headedScheduler.ts:477-531 | when the dispatch of an admitted terminal returns, its run is settled: resolved exactly for a file-complete with coverage taken and no error text, unless a failed delivery rejected it before |
| DispatchGate.RecoverySettles | packages/browser/src/headedScheduler.ts:359-383 | a run claimed by its cleanup deadline is settled when the recovery ends, resolved exactly when that succeeded |
| DispatchGate.OutcomeStays | packages/browser/src/headedRunRegistry.ts:60-73 | a settled run keeps its outcome through everything that can still happen |
| DispatchGate.OnlyHandlerOrDelivery | packages/browser/src/headedScheduler.ts:391-426 | nothing but its own handler or a failed delivery ends a claimed run |
| DispatchGate.GateRunsRegistry | packages/browser/src/headedScheduler.ts:353-531 | every event of the gate moves the registry by possible steps that keep the arming rule |
| DispatchGate.FileCompleteResolvesIff | packages/browser/src/headedScheduler.ts:505-515 | a file-complete resolves exactly when coverage was taken and the handler returned or threw an empty message; a fatal never does |
| DispatchGate.EmptyFailureResolves | packages/browser/src/headedScheduler.ts:477-531 | a run of events after which a throwing handler has resolved its run, exactly if the message is empty |
| DispatchGate.InboundGate.RouteComplete | packages/browser/src/headedScheduler.ts:496-531 | routing a file-complete through the headed router never answers stale and settles the run by coverage and handler |
| DispatchGate.InboundGate.MessageArrives | packages/browser/src/headedScheduler.ts:477-488 | the gate's first stretch: stale exactly when not admitted; an admitted terminal message goes to its handler with its own kind |
| DispatchGate.InboundGate.RouterReturns | packages/browser/src/headedScheduler.ts:500-530 | the gate's last stretch settles the run as the machine does |
| SerialTaskQueue.AlwaysSerial | packages/browser/src/headedSerialTaskQueue.ts:11-24 | over every run tasks start in enqueue order and at most one is running |
| SerialTaskQueue.NextKeepsSerial | packages/browser/src/headedSerialTaskQueue.ts:14-18 | a task starts only after all before it have finished, rejected or not |
| SerialTaskQueue.NeverBlocked | packages/browser/src/headedSerialTaskQueue.ts:14-18 | a rejected task never blocks a waiting one |
| SerialTaskQueue.FinishedStays | packages/browser/src/headedSerialTaskQueue.ts:11-24 | a finished task stays as it finished |
| SerialTaskQueue.HeadedSerialTaskQueue.Enqueue | packages/browser/src/headedSerialTaskQueue.ts:14-18 | the new task is chained on the previous tail |
| HeadedScheduler.StrictlySerial | packages/browser/src/headedScheduler.ts:391-426 | one entry has at most one live run, and mints only when every earlier one has left the registry |
| HeadedScheduler.OneCoverageSession | packages/browser/src/headedScheduler.ts:278-307 | a coverage session opens only when none is on, and belongs to the running task |
| HeadedScheduler.NeverStalls | packages/browser/src/headedScheduler.ts:572-593 | a waiting task is next, or a tail is due, whenever no task is running |
| HeadedScheduler.TaskEndsAsItsRun | packages/browser/src/headedScheduler.ts:411-426 | in every reachable state, the run of a task that is over has left the registry, settled once, and the task is fulfilled exactly when the run was resolved |
| HeadedScheduler.EndsWithoutRun | packages/browser/src/headedScheduler.ts:572-593 | a skipped task is fulfilled, one whose coverage cannot be opened rejected; neither ever mints a run |
| HeadedScheduler.SessionIff | packages/browser/src/headedScheduler.ts:278-307 | a session is on exactly for the task that opened it, until a terminal message is admitted or its run is settled |
| FrameSet.AlwaysOk | packages/browser/src/headedScheduler.ts:151-197 | the accepted acknowledgement stays within the committed version, and every pending wait wants more |
| FrameSet.ReadyOnlyAfterAck | packages/browser/src/headedScheduler.ts:159-197 | a wait ends normally only when some event since the last reset acknowledged at least its version |
| FrameSet.CountsCommits | packages/browser/src/headedScheduler.ts:151-176 | the committed version counts the commits, and what counts as acknowledged was so by an event since the last reset |
| FrameSet.EmptyWaitIff | packages/browser/src/headedScheduler.ts:178-181 | before any acknowledgement a wait ends at once exactly for version zero or less |
| FrameSet.AckReleases | packages/browser/src/headedScheduler.ts:159-176 | an accepted acknowledgement ends exactly the waits it reaches |
| FrameSet.FrameSetTracker.MarkFrameSetReady | packages/browser/src/headedScheduler.ts:159-176 | makes the acknowledging step, ignoring versions never committed |
| FrameSet.FrameSetTracker.WaitForFrameSet | packages/browser/src/headedScheduler.ts:178-197 | makes the waiting step |
| RunSession.RunSessionLifecycle.CreateSession | packages/browser/src/runSession.ts:65-69 | a token no session had before, with every earlier one stale |
| RunSession.RunSessionLifecycle.InvalidateActiveToken | packages/browser/src/runSession.ts:79-82 | no issued token is active afterwards |
| RunSession.RunSessionLifecycle.Cancel | packages/browser/src/runSession.ts:90-102 | over any calls the signal goes out once and at most one cancel callback is called; a caller waits for the work unless it asked not to |
| WorkerPool.NextKeepsOk | packages/browser/src/headlessScheduler.ts:674-749 | every turn of any worker keeps the files accounted for in order, batches well formed, and a stopped pool stopped |
| WorkerPool.EachFileLandsOnce | packages/browser/src/headlessScheduler.ts:674-749 | over every interleaving each file is in one batch, one skip or the rest; a rest remains only after a cancel, a stale token or a crash of every worker |
| WorkerPool.SkipsComeLast | packages/browser/src/headlessScheduler.ts:714-722 | a skip needs a bail, and only skips come after the first one |
| WorkerPool.NothingStartsAfterBail | packages/browser/src/headlessScheduler.ts:714-722 | once a worker has seen the failed tests reach the limit, whatever happens after only skips files |
| WorkerPool.StoppedIff | packages/browser/src/headlessScheduler.ts:702-706 | a pool is stopped exactly by a cancel or by its token going stale |
| WorkerPool.NothingStartsAfterStop | packages/browser/src/headlessScheduler.ts:701-722 | after a cancel or a stale token, whatever happens, no batch starts: a drain under way may go on skipping, and without one nothing is taken |
| WorkerPool.OverStays | packages/browser/src/headlessScheduler.ts:701-737 | a worker that has finished or crashed never takes a turn again |
| WorkerPool.BatchEndsWorker | packages/browser/src/headlessScheduler.ts:736-748 | a crash ends its worker, a batch that ends well leaves it to its next turn |
| WorkerPool.BatchSizeIs | packages/browser/src/headlessScheduler.ts:696-699 | with a bail limit files go one by one; without, batches are the smallest that give every lane at most one |
| WorkerPool.WorkersAre | packages/browser/src/headlessScheduler.ts:740-745 | as many workers as files, at most the concurrency, at least one lane |
| WorkerPool.SameProjectIsMaximal | packages/browser/src/headlessScheduler.ts:728-735 | a batch of non-isolated files stops only at its size, the end, or another project |
| WorkerPool.AtMostOneBatchPerLane | packages/browser/src/headlessScheduler.ts:696-699 | without bail one non-isolated project makes at most max(concurrency, 1) batches |
| WorkerPool.PoolRun.NextBatch | packages/browser/src/headlessScheduler.ts:723-735 | shifts exactly the next batch off the shared queue |
| WorkerPool.PoolRun.WorkerTurn | packages/browser/src/headlessScheduler.ts:701-737 | one turn makes the pool's step: with an empty queue, a cancel or a stale token the queue and the log stay and the worker is finished; at the bail limit the first file is skipped; otherwise the next batch is taken |
| WorkerPool.PoolRun.DrainTurn | packages/browser/src/headlessScheduler.ts:715-720 | the bail drain skips the next file, without looking at cancellation, or ends |
| WatchRerunPlanner.SameSortedIff | packages/browser/src/watchRerunPlanner.ts:42-46 | comparing the sorted keys compares their multisets |
| WatchRerunPlanner.KeysCollideIff | packages/browser/src/watchRerunPlanner.ts:42-46 | two files share a key exactly when they are equal or one project name runs on by a colon from the other and the paths make up for it |
| WatchRerunPlanner.KeysDecideIff | packages/browser/src/watchRerunPlanner.ts:42-46 | over any set of project names and any paths, equal keys mean equal files up to order exactly when no name runs on from another by a colon |
| WatchRerunPlanner.AbsoluteKeysDecideIff | packages/browser/src/watchRerunPlanner.ts:42-46 | at absolute POSIX paths, exactly when no name runs on from another by a colon and a slash |
| WatchRerunPlanner.RerunPaths | packages/browser/src/watchRerunPlanner.ts:80-141 | rerun paths are distinct and current; all of them after a change, else exactly the affected ones; no affected current file is left out |
| WatchRerunPlanner.UpdatesAndIdle | packages/browser/src/watchRerunPlanner.ts:80-141 | an update exactly when the multiset of keys changed, with exactly the deleted paths; idle exactly when nothing changed or is affected |
| WatchRerunPlanner.WatchState.DrainPendingAffectedTestFiles | packages/browser/src/browserRsbuild.ts:217-228 | every pending file of every project, each once; nothing stays pending |
| WatchRerunPlanner.WatchState.CommitWatchFileSetUpdate | packages/browser/src/watchRerunPlanner.ts:143-155 | an update replaces the stored files and prunes the deleted ones, if any |
| WatchRerunPlanner.WatchState.PlanAndCommit | packages/browser/src/headedScheduler.ts:692-704 | after a dispatch the stored files have the current keys up to order, and are the current files when no name runs on by a colon and a slash; every pending current file is rerun |
| WatchRerunPlanner.KeysDecideFiles | packages/browser/src/watchRerunPlanner.ts:42-46 | with such names two lists of files have the same keys exactly when they are the same files up to order |
| WatchRerunPlanner.ColonHidesChange | packages/browser/src/watchRerunPlanner.ts:42-46 | with other names a change goes unnoticed: /a:/b of web, replaced by /b of web:/a, plans nothing |
| WatchRerunPlanner.CollectedAre | packages/browser/src/watchRerunPlanner.ts:69-78 | the current files are every path of every project, normalised, under the project's name |

## Left out

- Source maps, parsing, comment hints, glob matching and Istanbul's slow merge are libraries: a locator is any function from
  spans to optional locations, hints are any function of a node's start, and the slow merge of coverage the fast test refuses
  is not part of this model.
- The file-level ignore hint, unparsable code and the cache of prepared scripts, which only avoid or repeat the conversion.
- Location keys are values instead of strings; the source's key strings name four integers per location unambiguously. A
  location without a file name makes the source throw; here a located span always has one.
- AstWalk.WalkProgram: the walker is a library, taken to call enter before and leave after a node's children, reading them
  after enter; a node is identified by its path. A computed key that is a named class expression gives its method a name in
  the source and none here.
- AstReports.ReportsLieInTheirNode: sub-nodes are asked to lie in order except in shorthand properties, loops and the other
  statements that report nothing but themselves.
- CallCounts.IfWithoutElse: is about a branch that one call stands for; where several calls share a location, their hits are
  added up as Convert.ConvertCoverage says.
- CoverageBuilder.UniqueName: names are any text, and the builder's distinct names need identifiers not to open with a
  parenthesis, which the language guarantees.
- FastMerge.FastMergeFileCoverage: the merge helpers return new maps; sharing one coverage object between two files is not
  modelled.
- CoverageApply.CoverageStore.ApplyCoverageToMap: counters are numbers or no number; which of them the report prints, and
  how, is not modelled.
- FileConversion.FileConverter.ConvertRetained: a script is prepared by any function of its source, one that is not
  converted as the empty script; failures to load, parse or map a source, and other files converted meanwhile, are not
  modelled.
- EntryGroups.Groups.MergeIntoCoverageEntries: each dictionary of an entry's options is its one text, the entry's own
  file's, as the resolver builds them.
- SourceGroups.GroupRetained: the retained entries are distinct objects; reading their source maps and dropping entries by
  them happens before and is not modelled.
- InitialCoverage.FindSlice: evaluating the slice and checking the magic key in the result belong to the JavaScript engine.
- DispatchRouter.HostDispatchRouter.Dispatch: a handler is a function to a returned value or a thrown message; the effects
  it has on other state are the events of DispatchGate.
- HeadedScheduler.StrictlySerial: starts from a fresh registry; other entries act through gate events only. The page, its
  coverage and the reload calls are outcomes of events.
- WorkerPool.EachFileLandsOnce: the concurrency is any integer and the failed-test count any number at each turn; what a
  worker does with a batch is one event that ends or crashes.
- RunSession.RunSessionLifecycle.Cancel: what the callback and the session's work do is not modelled, only what is called
  and waited for; the source waits for the callback first.
- WatchRerunPlanner.WatchState.PlanAndCommit: path normalisation is any idempotent function.
- Real time, logging, pages, contexts, sockets' contents, configuration, the user interface and the editor extension.
