# Verified model of the cost and risk aware GitOps platform

A Dafny 4.11 model of what decides in this repository: the pre-merge cost gate from rendered
manifests to exit code, the live cost exporter and the check that the two agree, the discovery of
manifest roots and the splitting of YAML streams, the job queue with its producers and consumers, the
demonstration runner, and the rewriting of pinned image digests. `dafny verify dfyconfig.toml` checks
all of it.

Code that loops or updates state is a method or a class here, proved against a specification function
of its inputs; the theorems are lemmas about those functions. Where the program's answer depends on
the iteration order of a Go map or on how an unstable sort leaves ties, the specification is a
predicate that every possible answer satisfies (`IsEstimate`, `IsComparison`, `IsCollection`), and a
lemma shows when only one answer satisfies it. Every lemma carries `{:induction false}`: each
induction is written out. Money and quantities are exact reals.

## Modules

| module | models |
|---|---|
| `Manifests`, `Pricing`, `Cost` | decoded objects, the rate table, `Calculator` |
| `Timeline` | a pod's start-up, as the reference for what it is charged |
| `Additivity`, `Determinism` | pricing sets apart and together; order of the objects |
| `Delta` | the comparison, and the rows the report lists |
| `Config`, `Verdict`, `Decisions` | the configuration, the decision procedure, what a decision means |
| `Gate`, `Estate`, `Budget` | one run; touched roots against the estate; histories of merges |
| `Documents`, `Render`, `Paths` | YAML documents; manifest roots; directories above and below each other |
| `Snapshots`, `Listing` | the files of a commit, what a run sees of them and what the estate counts; the walk of a tree |
| `Diffs` | what git prints for the files that differ, and what the gate reads of it |
| `Merges`, `Escapes` | from exit codes to budgets; families of changes that exit zero and exceed them |
| `Toys`, `Shelves`, `Yards`, `Places` | a change of each family, with its files, tools, amounts and run |
| `Attribution`, `Owners`, `Reconcile` | the exporter; pods and their workloads; prediction against measurement |
| `Queue`, `Protocol`, `Worker`, `Api` | the queue, all its interleavings, its consumers and its producer |
| `Dashboard` | the demonstrations and their single-runner rule |
| `Digests` | reading and writing pinned digests |
| `Results`, `Ordering`, `Folds` | shared vocabulary: results, sorting, folds, indexes |

## What the proofs found

Each item is a theorem below; where a claim is not true of the code, the exact condition is proved, and
a lemma exhibits inputs that fail.

- **What exit code zero bounds.** Over any number of merges that the gate exited zero on, committed
  spend grows by at most the limit each time and authorised spend by at most the limit and the burst cap
  (`ExitCodesBoundSpend`), or compounds by the percentage (`ExitCodesBoundGrowth`), provided each change
  is sound (`Merges.Sound`): the head contains the tip of the base; the configuration is the base's; git
  lists no file as moved, and no changed manifest has a name that git quotes or the gate trims; the rate
  table lies under the manifests path, and the base has one; no two builds of the head enclose a changed
  file; a build that is removed had all its manifests in its own directory; no directory is named like a
  kustomization; and no build looks outside its directory. All of it can be checked before the run.
  `Escapes` takes the conditions away one by one. In each family every run that is answered exits zero
  (`ExitsZero`, `RunExitsZero`), while merging adds more than was judged; `Shelves` and `Yards` hold a change
  of each family, with a run, for any amounts, and `Places` the paths they need:
  - a head behind the base tip: the listing is against the merge base but the prices are against the tip,
    so what the base has gained counts as a saving (`StaleHeadPasses`, `StaleMergeAdds`). Under a limit of
    25, a branch at 10 takes a change of 25 and then one of 50: both runs exit zero, and the branch is at 85
    (`StaleHistory`);
  - a configuration that the change brings: the gate reads it from the checkout of the change. A change of
    nothing else exits zero unevaluated, though every DaemonSet costs more by it (`ConfigAlonePasses`,
    `NodesSample`), and a change with a higher limit is judged by that (`RaisedLimitPasses`, `RaisedSample`);
  - a name that git quotes, such as one with a letter outside ASCII: the gate looks for the quoted text in a
    directory that does not exist, on both sides (`QuotedNamePasses`, `QuotedSample`);
  - a rate table outside the manifests path, which the configuration check accepts: a change to nothing
    but the rates exits zero unevaluated (`RatesAlonePass`, `RatesSample`);
  - an overlay that reads another directory changes without being evaluated (`OverlayPasses`,
    `OverlaySample`);
  - a change below the inner of two nested builds is judged by the inner one, while the outer one is what
    the estate counts (`NestedPasses`, `NestedSample`);
  - a removed build whose manifests lie partly in subdirectories counts those as savings twice
    (`RemovedBuildPasses`, `RemovedSample`);
  - a moved file is listed where it is now, so what its leaving does to its old directory is not judged:
    a deployment whose autoscaler is moved away costs all its replicas (`MovedFilePasses`, `MovedSample`).
- **When the judged difference is the true one.** With unchanged rates a sound change is judged at the true
  difference of the estates if no build of the head covers what was a root of the base (`JudgedIsTrue`), and
  every root that is gone without being evaluated is covered like that (`GoneIsCovered`).
- **Gone roots.** The judged difference exceeds the true one by exactly what the roots used to cost that
  are gone from the head and were not evaluated (`ScopedExceedsWholeByRemoved`); with changed rates no
  root that is gone is evaluated (`RemovedUnderNewRates`).
- **Shutdown.** A job in hand at the signal is cut short, because the work is given the signal's own
  context, and is still counted as processed. Every popped entry is accounted for, completed or cut
  short, at most one cut for each consumer (`ShutdownAccountsForAll`, `OnlyJobsInFlightAreCut`). Whether the
  shutdown loses work is decided at the signal: every way it can go on completes every popped job if and
  only if no consumer works on a job that takes time, the list has an entry for each consumer inside a
  dequeue, and none of those oldest entries is such a job (`LosslessExactlyWhen`).
- **Unmapped owners.** The exporter maps pods of ReplicaSets, StatefulSets, DaemonSets and Jobs to a
  workload. The pods of a ReplicationController drop out, and those of a bare ReplicaSet are filed under
  its name less the last segment; the gate prices both kinds, and their prediction is reported missing
  unless pods of something else carry their name (`UnmappedMeasuredExactlyWhen`, `UnmappedFails`). A
  Deployment of the shortened name is measured with the bare ReplicaSet's pods (`BareReplicaSetShares`).
- **Init containers.** `podResources` ignores the order of init containers. CPU and memory are charged
  at the true start-up peak, whatever the containers hold, exactly for the shapes in which no ordinary
  init container follows a sidecar; for every other shape there is a pod that is charged half of its
  peak. The charge is never above the peak and never short by more than the sidecars. Storage is
  added up instead and always covers its peak (`Timeline`; `MigrationIsUndercharged` is a manifest).
- **Autoscalers in another root.** Roots are priced one by one, so an autoscaler only reaches the
  workloads of its own root. Merging the estimates of any number of parts is exact if and only if every
  priced workload is under the same bounds in its own part as in the whole (`MergeIsExact`); a workload
  whose autoscaler lives elsewhere is always mispriced (`ScalerInAnotherRoot`).
- **Bounds of autoscalers** are taken as they are: the floor of a workload that costs anything is within
  its ceiling exactly when the minimum does not exceed the maximum (`FloorWithinExactlyWhen`).
- **Duplicate references.** The rows of a comparison add up to the headline difference if and only if
  workloads replaced by a later one of the same reference hide the same money on both sides
  (`RowsConserveMoney`, `DuplicatesHideMoney`). Objects of distinct kind, namespace and name, without
  slashes, never share a reference, and then have one estimate in any order (`NamedEstimatesAgree`).
- **Burst ratio.** A workload's ceiling-to-floor ratio is only judged when the change as a whole adds
  headroom (`CostPassesExactlyWhen` states the condition as the code has it). In percent mode without
  a baseline the absolute limit stands in, although the configuration check does not ask for one.
- **Scale to zero.** A floor of zero is omitted from the gate's JSON output, and `tools/reconcile.sh`
  then reads the ceiling in its place. So an autoscaled workload with a minimum of zero is accepted
  only near its maximum, while with any other minimum its whole band is accepted (`BandAccepts`).
- **Nested kustomizations.** The root found by walking up from a file is one of those found by walking
  the tree down if and only if the kustomizations enclosing the file are one and the same directory
  (`RootsAgreeExactlyWhen`, `NestedBuildsDisagree`). Without one, every YAML file still has exactly one
  owner.
- **Document separators.** The second column-zero check in `isDocumentSeparator` is implied by the
  first (`SeparatorExactly` needs neither more nor less than three hyphens at the start of the line).
- **Digest rewriting.** The writer's flag outlives an entry that has no digest of its own, so the digest of
  another entry is rewritten in exactly the files that `OnlyOwnExactlyWhen` describes, of which
  `StrayDigest` is one of four lines. A file is skipped although a write would change it
  exactly when its first entry of the image is current and a later one is not (`SkippedExactlyWhen`). The script accepts any text after the first hexadecimal digit;
  one with an ampersand is not read back (`ReadsBackExactlyWhen`).

## Model

| member | source | states |
|---|---|---|
| `Pricing.MonthlyScales` | pricing/pricing.go:102-113 | pricing is linear: n equal reservations cost n times one |
| `Pricing.MonthlyNonNegative` | pricing/pricing.go:86-113 | a table that passes validation never prices a reservation below zero |
| `Cost.Calculator.CollectAutoscalers` | gate/internal/cost/cost.go:103-153 | the loop indexes every autoscaler of the set by its target, the last of a target winning, with the defaults of each kind |
| `Cost.Calculator.AppResources` | gate/internal/cost/cost.go:353-364 | the container loop adds up all app containers and their flags, or fails with the first container that does not parse |
| `Cost.Calculator.InitResources` | gate/internal/cost/cost.go:366-382 | the init loop joins sidecars to what is held and keeps the largest ordinary container in each dimension |
| `Cost.Calculator.PodResources` | gate/internal/cost/cost.go:347-390 | a pod is charged the larger of what runs and the largest ordinary init container for CPU and memory, and their sum for storage |
| `Cost.Calculator.VolumeClaimStorage` | gate/internal/cost/cost.go:457-470 | claim templates add up, failing with the first that does not parse |
| `Cost.Calculator.PriceOne` | gate/internal/cost/cost.go:211-332 | an autoscaled workload is priced at its maximum with the minimum as floor, any other at its declared count for both |
| `Cost.Calculator.constructor` | gate/internal/cost/cost.go:155-160 | a calculator holds its table and node count and has collected nothing |
| `Cost.Calculator.Estimate` | gate/internal/cost/cost.go:177-207 | the estimate lists exactly the priced workloads, sorted by reference, and totals them; nothing left over from an earlier call matters |
| `Timeline.ChargeWithinSidecarsOfPeak` | gate/internal/cost/cost.go:334-390 | CPU and memory charge, true start-up peak and charge plus sidecars are in that order, with equality when no ordinary init container follows a sidecar |
| `Timeline.StorageChargeCoversPeak` | gate/internal/cost/cost.go:334-390 | the storage charge covers the true peak and exceeds it by at most the largest ordinary init container |
| `Timeline.DisorderUndercharges` | gate/internal/cost/cost.go:366-390 | for every shape with an ordinary init container after a sidecar, a pod charged half of its peak |
| `Timeline.ExactShapes` | gate/internal/cost/cost.go:334-390 | exactly the orderly shapes are charged at their peak whatever their containers hold |
| `Timeline.HighestIsMaximum` | gate/internal/cost/cost.go:334-346 | the peak used as reference is reached during the start-up and never exceeded |
| `Timeline.MigrationIsUndercharged` | gate/internal/cost/cost.go:347-390 | a pod manifest with a proxy sidecar and a migration behind it is charged below its peak exactly when the proxy needs something and the migration more than the app |
| `Additivity.TogetherFailsAsParts` | gate/cmd/gate/main.go:284-318 | pricing everything together fails exactly when pricing one of any number of parts fails |
| `Additivity.MergeOfUnaffected` | gate/cmd/gate/main.go:418-430 | without autoscalers reaching across, merging the estimates of any number of parts gives the workloads and all totals of the whole |
| `Additivity.MergeIsExact` | gate/cmd/gate/main.go:418-430 | the merged workloads of any number of parts are those of the whole exactly when each priced one has the same bounds in its part as in the whole |
| `Additivity.ScalerInAnotherRoot` | gate/cmd/gate/main.go:284-318 | an autoscaler priced in another part than its workload always breaks the merge |
| `Additivity.WorkloadApartFromScaler` | gate/internal/cost/cost.go:304-330 | in the smallest such case the ceiling is the declared count's cost instead of the maximum's |
| `Determinism.RefInjective` | gate/internal/cost/cost.go:63-68 | without slashes in them, the reference tells kind, namespace and name apart |
| `Determinism.EstimateIgnoresOrder` | gate/internal/cost/cost.go:177-207 | any two estimates of the same objects in any order agree, if no two autoscalers share a target and no two workloads a reference |
| `Determinism.NamesGiveRefs` | gate/internal/cost/cost.go:63-68 | objects of distinct kind, namespace and name, without slashes, are listed under distinct references |
| `Determinism.NamedEstimatesAgree` | gate/internal/cost/cost.go:177-207 | so such objects have one estimate, in any order and under any sort |
| `Determinism.UnchangedRatesPriceAlike` | gate/cmd/gate/main.go:386-391 | tables between which no rate change is reported price every manifest set alike |
| `Delta.IndexWorkloads` | gate/internal/cost/delta.go:96-104 | workloads are filed by reference, a later one replacing an earlier |
| `Delta.Rows` | gate/internal/cost/delta.go:105-152 | one row for each reference of either side, sorted by difference and then by reference |
| `Delta.Compare` | gate/internal/cost/delta.go:63-157 | headline figures of ceiling and commitment with their percentage bases, and the rows |
| `Delta.RowsAddUp` | gate/internal/cost/delta.go:96-143 | the rows add up to the listed money of head less base, less what duplicates hide on either side |
| `Delta.RowsConserveMoney` | gate/internal/cost/delta.go:63-143 | the rows account for the headline difference exactly when duplicates hide the same money on both sides |
| `Delta.NothingShadowed` | gate/internal/cost/delta.go:96-104 | with distinct references nothing is hidden |
| `Delta.DuplicatesHideMoney` | gate/internal/cost/delta.go:96-143 | of two added workloads with one reference the rows show the second only, the headline both |
| `Delta.CompareIsDeterministic` | gate/internal/cost/delta.go:113-152 | a comparison has one answer whatever the map order and the sort |
| `Delta.ListRows` | gate/internal/report/report.go:97-116 | the report lists every row that is not unchanged, in order |
| `Delta.ReportConservesMoney` | gate/internal/report/report.go:95-116 | the listed rows still add up to the headline difference |
| `Verdict.CostVerdict.EvaluateAutoscaling` | gate/internal/verdict/verdict.go:181-217 | headroom findings and advice: total burst against cap and warning level, then each autoscaled row's ratio |
| `Verdict.CostVerdict.EvaluateCommitted` | gate/internal/verdict/verdict.go:132-175 | committed findings and advice by mode, with the absolute limit standing in for a percentage without a basis |
| `Verdict.EvaluateCost` | gate/internal/verdict/verdict.go:117-177 | the whole cost outcome; with errors nothing is judged and nothing passes |
| `Verdict.EvaluatePolicy` | gate/internal/verdict/verdict.go:219-240 | violations split by effective severity in order, overrides noted in the message, errors failing when they block |
| `Verdict.Aggregate` | gate/internal/verdict/verdict.go:77-115 | decision and reasons of the two outcomes |
| `Decisions.CostPassesExactlyWhen` | gate/internal/verdict/verdict.go:117-217 | the cost sub-gate passes exactly when there is no error and headroom and commitment are within every limit that applies |
| `Decisions.PassesExactlyWhen` | gate/internal/verdict/verdict.go:77-115 | Pass exactly when both sub-gates were evaluated, both budgets hold and no violation blocks at its effective severity |
| `Decisions.PassesWithoutReasons` | gate/internal/verdict/verdict.go:77-115 | Pass exactly when no reason is given |
| `Decisions.FailsExactlyWhen` | gate/internal/verdict/verdict.go:77-115 | an evaluated change fails exactly when a budget is exceeded or a violation blocks; one that was not evaluated is inconclusive whatever else holds |
| `Decisions.ViolationsPartition` | gate/internal/verdict/verdict.go:219-240 | blocking and warning lists partition the reported violations by effective severity |
| `Decisions.OverridesAreVisible` | gate/internal/verdict/verdict.go:222-230 | an override keeps rule and object, and shows in the message exactly when it changes the severity |
| `Decisions.IncreasesAreAlwaysLimited` | gate/internal/verdict/verdict.go:134-175 | under a valid configuration some limit applies to every increase, and a pass is within each that does |
| `Decisions.BlocksAreStable` | gate/internal/verdict/verdict.go:77-240 | more errors, more violations or a higher commitment with headroom, rows and basis fixed never turn a block into a pass |
| `Gate.Evaluator.EvaluateHead` | gate/cmd/gate/main.go:290-305 | the head side of one turn: its objects and workloads are joined to those of the roots so far and its cost to their sum, or a failure is recorded |
| `Gate.Evaluator.EvaluateBase` | gate/cmd/gate/main.go:307-317 | the base side of one turn, in the same way |
| `Gate.Evaluator.EvaluateRoot` | gate/cmd/gate/main.go:284-318 | one turn keeps: objects seen, the workloads and costs of both estimates, and errors empty exactly when every root so far rendered and priced on both sides |
| `Gate.Evaluator.EvaluateRoots` | gate/cmd/gate/main.go:284-318 | the same for the whole loop |
| `Gate.PriceEstate` | gate/cmd/gate/main.go:398-416 | the estate is the ceiling of every base root that can be priced, zero if roots cannot be listed |
| `Gate.Run` | gate/cmd/gate/main.go:166-356 | a run ends without evaluation only when no file changed, and otherwise exits with the decision on an evaluation of its inputs; it answers whenever everything it asks for is answered |
| `Gate.PassIsEarned` | gate/cmd/gate/main.go:284-356 | a pass rests on every evaluated root rendered and priced on both sides, estimates with the workloads and costs of all of them and, where errors block, a policy engine that loaded, saw every head object and reported no error |
| `Gate.EvaluateCommand` | gate/cmd/gate/main.go:144-164 | exit code zero means nothing changed or an earned pass; any failure of the gate itself is inconclusive |
| `Estate.ScopedIsWhole` | gate/cmd/gate/main.go:246-318 | with unchanged rates, and every root that differs evaluated, the judged difference is that of the whole estate, in ceiling and commitment |
| `Estate.ScopedExceedsWholeByRemoved` | gate/cmd/gate/main.go:246-318 | the judged difference exceeds the true one by exactly what the roots cost that are gone from the head and were not evaluated, with or without changed rates |
| `Estate.RemovedUnderNewRates` | gate/cmd/gate/main.go:254-268 | with changed rates and the only root removed, the run judges no difference while the estate shrank by all it cost |
| `Estate.ScopedNeverTooLow` | gate/cmd/gate/main.go:246-318 | if every head root is evaluated or was the same before, and costs are not negative, the judged difference is never below the true one |
| `Estate.FloorWithinCeiling` | gate/internal/cost/cost.go:304-330 | for quantities and counts that are not negative and minimums within maximums, commitment is not negative and never exceeds the ceiling |
| `Estate.FloorWithinExactlyWhen` | gate/internal/cost/cost.go:304-330 | whatever the bounds, the floor of a workload that costs anything is within its ceiling exactly when the minimum does not exceed the maximum |
| `Budget.MergeWithinJudged` | gate/internal/verdict/verdict.go:117-217 | a passing merge raises committed spend by at most the judged increase, and the ceiling by at most that and the burst cap |
| `Budget.AbsoluteStep` | gate/internal/verdict/verdict.go:134-175 | under an absolute limit one merge adds at most that limit |
| `Budget.PercentStep` | gate/internal/verdict/verdict.go:134-175 | under a percentage one merge adds at most that share of a positive estate |
| `Budget.BudgetOverHistory` | gate/internal/verdict/verdict.go:117-217 | after n passing merges commitment is at most start + n·L and the ceiling at most start + n·(L + B) |
| `Budget.CompoundOverHistory` | gate/internal/verdict/verdict.go:134-175 | under a percentage the authorised estate compounds by at most that share at each merge, and commitment stays below it |
| `Snapshots.TheRoot` | gate/internal/render/render.go:134-169 | where no two builds enclose a file, its root is the one that does, or its own directory |
| `Snapshots.UntouchedAgrees` | gate/cmd/gate/main.go:242-268 | a root of the head to which no file belongs that differs was a root of the base and rendered to the same objects |
| `Snapshots.SeenOnBothSides` | gate/cmd/gate/main.go:284-318 | at a touched root, and at any root of the head, a run that renders it sees on both sides what the estates count there |
| `Listing.WalkIsRoots` | gate/internal/render/render.go:177-243 | walking the tree returns a directory exactly when it is a topmost build, or plain YAML under no build |
| `Listing.AllRootsAreRoots` | gate/internal/render/render.go:177-212 | the enumeration lists every such directory of the commit, once |
| `Diffs.ChangedFiles` | gate/internal/render/render.go:51-66 | the files are the non-empty lines of the trimmed output, sorted |
| `Diffs.ListedAsPrinted` | gate/internal/render/render.go:51-66 | what the gate takes for paths is what git prints for them, quotes and escapes included |
| `Diffs.ListedAsIs` | gate/internal/render/render.go:51-66 | names that git does not quote and that are not trimmed are read as they are |
| `Snapshots.RenderPlain` | gate/internal/render/render.go:276-302 | a plain directory gives the objects of its YAML files, one file after the other, or the first failure to decode |
| `Merges.Gather` | gate/cmd/gate/main.go:196-282 | what a run is given is what git's output and the walks of both trees make of the files of fork, base and head |
| `Merges.JudgeChange` | gate/cmd/gate/main.go:144-356 | a run on a change, with the configuration of the checkout: inconclusive if that cannot be read, and otherwise exit code zero on a sound change is a passing merge of the two estates |
| `Merges.ExitZeroPasses` | gate/cmd/gate/main.go:144-356 | any run that answers zero on a sound change has judged at least the true change of the estate, or the estate has not grown |
| `Merges.MergeIsHead` | gate/internal/render/render.go:46-67 | merging a branch that contains the base tip gives the head that was judged |
| `Merges.MergedKeepsConfig` | gate/cmd/gate/main.go:144-170 | merging a sound change leaves the configuration that it was judged by |
| `Merges.JudgedIsTrue` | gate/cmd/gate/main.go:246-318 | a sound change with unchanged rates that covers no former root is judged at the true difference of the estates |
| `Merges.GoneIsCovered` | gate/cmd/gate/main.go:246-318 | a root that is gone from the head without being evaluated has a build above it now |
| `Merges.ExitCodesBoundSpend` | gate/internal/verdict/verdict.go:117-217 | after n merges of sound changes that exited zero, committed spend over the roots of the commit is at most start + n·L, and authorised spend at most start + n·(L + B) |
| `Merges.ExitCodesBoundGrowth` | gate/internal/verdict/verdict.go:134-175 | under a percentage the authorised spend of such a branch compounds by at most that share and the burst cap |
| `Escapes.RunExitsZero` | gate/cmd/gate/main.go:144-164 | on inputs that are answered and whose every answer is zero, the process exits zero |
| `Escapes.WorthOfFiles` | gate/internal/render/render.go:276-302 | a plain directory of files without autoscalers costs what its files cost one by one |
| `Escapes.PlainIsSound` | gate/cmd/gate/main.go:166-356 | a change of plain manifests against the base tip, with the rate table among them, is sound, and within the limit exits zero |
| `Escapes.StaleHeadPasses` | gate/cmd/gate/main.go:214-224 | with a head behind the base tip a run exits zero when the change exceeds what the base gained since the fork by no more than the limit, and merging adds all of the change |
| `Escapes.StaleMergeAdds` | gate/internal/render/render.go:46-67 | what two branches add to a directory adds up in their merge, file by file |
| `Escapes.RatesAlonePass` | gate/cmd/gate/main.go:204-212 | with the rate table outside the manifests path, a change to nothing but the rates exits zero, whatever the estate costs before and after |
| `Escapes.ConfigAlonePasses` | gate/cmd/gate/main.go:144-170 | so does a change to nothing but the configuration, whatever the estate costs by the old one and by the new |
| `Escapes.RaisedLimitPasses` | gate/cmd/gate/main.go:144-170 | a change with its own configuration exits zero within the limit it brings, whatever the base's |
| `Escapes.QuotedNamePasses` | gate/internal/render/render.go:51-66 | a change to one manifest whose name git quotes exits zero, whatever the manifest costs |
| `Escapes.OverlayPasses` | gate/internal/render/render.go:134-169 | a change in a directory that an overlay elsewhere reads exits zero when it adds little in that directory, whatever it adds to the overlay |
| `Escapes.OverlayLooksOutside` | gate/internal/render/render.go:263-274 | an overlay that comes out differently after such a change looks outside its directory |
| `Escapes.NestedPasses` | gate/internal/render/render.go:140-206 | a change below the inner of two nested builds exits zero when it adds little to the inner, whatever it adds to the outer, which alone counts |
| `Escapes.RemovedBuildPasses` | gate/cmd/gate/main.go:284-318 | when a build is removed, what replaces it exits zero although it costs what the build's subdirectory held more than the limit allows |
| `Escapes.MovedFilePasses` | gate/internal/render/render.go:51-64 | what the leaving of a moved file does to its directory is not judged |
| `Toys.Answerable` | gate/cmd/gate/main.go:166-356 | every change between commits with rate tables and listed roots has inputs on which the run is answered |
| `Toys.ToyIsLawful` | gate/internal/render/render.go:263-274 | the builds of the samples depend on nothing but what they look at |
| `Shelves.StaleHistory` | gate/internal/render/render.go:46-67 | under a limit of 25, two merges whose runs exit zero take a branch from 10 to 85 |
| `Shelves.RatesSample` | gate/cmd/gate/main.go:204-212 | doubling the rates doubles any estate, and exits zero under any limit |
| `Shelves.NodesSample` | gate/cmd/gate/main.go:144-170 | assuming any other number of nodes prices a DaemonSet by it, and exits zero |
| `Shelves.RaisedSample` | gate/cmd/gate/main.go:144-170 | a change that adds as much as the limit it brings exits zero, whatever the limit was |
| `Shelves.QuotedSample` | gate/internal/render/render.go:51-66 | a new manifest whose name git quotes exits zero under any limit, whatever it costs |
| `Yards.OverlaySample` | gate/internal/render/render.go:134-169 | a manifest that adds any amount up to the limit, with an overlay of it elsewhere: together they add twice that, and the run exits zero |
| `Yards.NestedSample` | gate/internal/render/render.go:140-206 | an inner build that adds any amount up to the limit, in an outer one of it twice over: the estate grows by twice that, and the run exits zero |
| `Yards.RemovedSample` | gate/cmd/gate/main.go:284-318 | a build of one manifest in a subdirectory is replaced by a plain manifest of up to twice its cost and the limit, and the run exits zero |
| `Yards.MovedSample` | gate/internal/render/render.go:51-64 | an autoscaler that holds a deployment at one replica is moved away: the deployment costs all its replicas, and the run exits zero |
| `Places.ShelfExists` | gate/internal/render/render.go:134-212 | paths for the samples of plain manifests |
| `Places.QuotedExists` | gate/internal/render/render.go:51-66 | and for the one with a name that git quotes |
| `Places.YardExists` | gate/internal/render/render.go:134-212 | paths for the samples with builds and with a moved file |
| `Attribution.ReadSamples` | exporter/internal/attribution/attribution.go:122-147 | one query's samples are joined into the usage map: keys are the workloads measured, each with the last value of each metric |
| `Attribution.Collector.PriceRows` | exporter/internal/attribution/attribution.go:149-171 | one sorted priced row for each workload and basis |
| `Attribution.Collector.Collect` | exporter/internal/attribution/attribution.go:115-173 | the rows of all four answers, or an error if any query failed |
| `Attribution.CollectIsDeterministic` | exporter/internal/attribution/attribution.go:115-173 | the rows do not depend on the order of queries, usage or ties |
| `Owners.OwnLabel` | exporter/internal/attribution/attribution.go:28-38 | the pods of a Deployment, StatefulSet or DaemonSet carry the name of their manifest as workload |
| `Owners.NeverOwnLabel` | exporter/internal/attribution/attribution.go:34-38 | those of a ReplicationController carry none, and those of a bare ReplicaSet its name less the last segment |
| `Owners.FiledIsOwned` | exporter/internal/attribution/attribution.go:34-38 | for the first three kinds, what is filed under the name is exactly what the object owns, if nothing else carries it |
| `Owners.UnmappedFiledExactlyWhen` | exporter/internal/attribution/attribution.go:34-38 | for the other two, something is filed under the name exactly when a pod of something else is |
| `Owners.BareReplicaSetIsMisfiled` | exporter/internal/attribution/attribution.go:34-38 | the pods of a bare ReplicaSet are booked on the workload named like the rest of its name |
| `Owners.BareReplicaSetShares` | exporter/internal/attribution/attribution.go:34-38 | a Deployment of that name is then measured with pods that are not its own |
| `Reconcile.Compare` | tools/reconcile.sh:78-155 | the comparison passes exactly when every prediction was measured and agrees, and something was compared |
| `Reconcile.BandAccepts` | tools/reconcile.sh:103-121 | an autoscaled workload is accepted exactly between its bounds up to the tolerance, with a minimum of zero read as the maximum |
| `Reconcile.WithinBandAgrees` | tools/reconcile.sh:103-121 | every count between a positive minimum and the maximum is accepted |
| `Reconcile.MeasuredCost` | exporter/internal/attribution/attribution.go:149-161 | the exporter prices n equal pods at n times the gate's price of one |
| `Reconcile.PredictedCost` | gate/internal/cost/cost.go:304-330 | the gate prices a plain workload at its count, or at both its bounds, times the same unit |
| `Reconcile.ComparableAgrees` | tools/reconcile.sh:78-130 | a plain workload run as declared, its pods found through their owners, is measured in agreement with its prediction |
| `Reconcile.PredictionMeetsMeasurement` | tools/reconcile.sh:50-155 | if every priced manifest of every root is a plain Deployment, StatefulSet or DaemonSet that the cluster runs as declared, the merged estimates of the roots pass at any tolerance, wherever the autoscalers stand |
| `Reconcile.UnmappedMeasuredExactlyWhen` | exporter/internal/attribution/attribution.go:34-38 | a ReplicationController or bare ReplicaSet is measured under its name exactly when a pod of something else is filed there |
| `Reconcile.UnmappedFails` | tools/reconcile.sh:78-101 | otherwise its prediction is missing and the comparison fails |
| `Documents.SplitLines` | gate/internal/render/render.go:334 | the pieces between newlines |
| `Documents.SplitDocuments` | gate/internal/render/render.go:331-346 | the documents are the groups of lines between separators, joined again |
| `Documents.SeparatorExactly` | gate/internal/render/render.go:348-355 | a separator is three hyphens at column zero followed by blanks only |
| `Documents.LinesOfJoined` | gate/internal/render/render.go:331-346 | splitting into lines undoes joining them |
| `Documents.JoinedLines` | gate/internal/render/render.go:331-346 | joining the lines of a stream gives it back |
| `Documents.DocumentsAreSeparated` | gate/internal/render/render.go:331-346 | one document more than separators, none containing a separator line, every other line kept in order |
| `Documents.SplitUndoesJoin` | gate/internal/render/render.go:331-355 | documents without separator lines survive being joined and split |
| `Render.Visit` | gate/internal/render/render.go:184-206 | the walk appends a directory's own root and stops below a kustomization |
| `Render.AllRoots` | gate/internal/render/render.go:177-212 | all roots of the tree, sorted, each as often as the walk finds it |
| `Render.RootsPartitionFiles` | gate/internal/render/render.go:177-212 | every YAML file under the manifests path is owned by exactly one returned root |
| `Render.FindRoot` | gate/internal/render/render.go:140-160 | the upward loop ends and finds the file's root |
| `Render.Roots` | gate/internal/render/render.go:134-169 | the roots of the changed files, all of them and no other, sorted and without duplicates |
| `Render.RootIsNearest` | gate/internal/render/render.go:140-160 | that root is the nearest enclosing kustomization within the manifests path, or the file's own directory |
| `Render.WalkReturnsTopmost` | gate/internal/render/render.go:184-206 | of a file's enclosing directories the walk returns the topmost kustomization, or its own directory |
| `Render.RootsAgreeExactlyWhen` | gate/internal/render/render.go:134-212 | both enumerations agree on a file exactly when no two different kustomizations enclose it |
| `Render.NestedBuildsDisagree` | gate/internal/render/render.go:134-212 | for a build in a folder of a build, the change finds the inner and the walk only the outer |
| `Queue.Queue.Enqueue` | app/internal/queue/queue.go:71-82 | a job enters at the head, or nothing changes when the store is unreachable |
| `Queue.Queue.Dequeue` | app/internal/queue/queue.go:87-106 | the oldest entry leaves; a malformed one is dropped and reported; every other answer leaves the list alone |
| `Queue.PushKeepsFifo` | app/internal/queue/queue.go:71-82 | a push keeps what was pushed equal to what was popped and then the list from its tail |
| `Queue.PopKeepsFifo` | app/internal/queue/queue.go:87-106 | a pop keeps it too, and takes the oldest entry not yet popped |
| `Protocol.StepKeepsAccounts` | app/cmd/worker/main.go:96-134 | every atomic step keeps: first in first out, each popped job held, completed or cut short once, each malformed entry dropped once |
| `Protocol.RunsAreAccounted` | app/cmd/worker/main.go:65-134 | so does every run, in any interleaving of any producers and consumers |
| `Protocol.ShutdownAccountsForAll` | app/cmd/worker/main.go:65-79 | once all consumers have returned, what was completed or cut short is exactly what was popped, and the rest is in the list |
| `Protocol.OnlyJobsInFlightAreCut` | app/internal/work/work.go:16-52 | what was cut short was in hand at the signal or was handed over after it to a consumer that had asked before it, at most one for each consumer |
| `Protocol.LosslessExactlyWhen` | app/cmd/worker/main.go:74-79 | from the state at the signal, every continuation completes every popped job exactly when no consumer works on a job that takes time and each consumer inside a dequeue has an entry that is no such job |
| `Protocol.IdleShutdownIsLossless` | app/cmd/worker/main.go:74-79 | so it is when no job that takes time is in hand and no consumer is inside a dequeue |
| `Protocol.ShutdownCanCut` | app/internal/work/work.go:43-50 | for every job that takes time there is a run in which it is popped, cut short and never completed |
| `Protocol.StoppedForGood` | app/cmd/worker/main.go:96-109 | a consumer that returned never works again |
| `Worker.Consumer.Consume` | app/cmd/worker/main.go:87-135 | jobs executed, waits taken and backoff as the outcomes determine, and the turn at which the loop returns |
| `Worker.BackoffIsDetermined` | app/cmd/worker/main.go:88-121 | after k failures since the last empty or successful dequeue the backoff is min(500·2^k, 15000) ms |
| `Api.HandleEnqueue` | app/cmd/api/main.go:148-214 | a batch reports exactly the jobs it pushed, stops at the first push that fails, and a bad request pushes none |
| `Api.Server.Probed` | app/cmd/api/main.go:108-125 | one probe's effect on the failure count and on readiness |
| `Api.Server.PublishQueueDepth` | app/cmd/api/main.go:101-134 | after any probes readiness and failure count are those their history determines |
| `Api.ReadyExactlyWhen` | app/cmd/api/main.go:108-125 | ready exactly when one of the last three probes succeeded |
| `Dashboard.PollUntil` | dashboard/runs.go:129-167 | a stage that succeeds saw every count in bounds, reached its goal in time, and returns the largest count |
| `Dashboard.WatchLoad` | dashboard/runs.go:169-188 | both stages, with the largest count of the two |
| `Dashboard.RunLoad` | dashboard/runs.go:94-195 | a load run passes only when its trace shows what it claims, and then ends its stream with that |
| `Dashboard.LoadPassMeans` | dashboard/runs.go:94-195 | a pass means every count was between the bounds, one exceeded the start, a later poll read depth zero, and the peak was polled and is the largest count |
| `Dashboard.RunDrift` | dashboard/runs.go:20-88 | a drift run passes only when the declared limit was replaced and read back later |
| `Dashboard.RunAccepted` | dashboard/main.go:277-296 | an accepted run ends with exactly one terminal event, the last one |
| `Dashboard.Runner.Begin` | dashboard/main.go:237-245 | a request is accepted exactly when no run is marked, and then marks it |
| `Dashboard.Runner.Finish` | dashboard/main.go:246-250 | the end of a run clears the mark |
| `Dashboard.OneRunAtATime` | dashboard/main.go:237-250 | in every reachable state at most one run is active and the mark is empty exactly when none is |
| `Digests.ReadPinned` | tools/bump-digests.sh:54-57 | the reader's loop over the lines answers as its specification does, the flag carried across lines |
| `Digests.WritePinned` | tools/bump-digests.sh:66-70 | the writer's loop over the lines gives the file its specification gives |
| `Digests.ReadsFirstTarget` | tools/bump-digests.sh:54-57 | the reader answers with the first digest line that follows a line naming the image |
| `Digests.WriteTouchesOnlyTargets` | tools/bump-digests.sh:66-70 | the writer keeps the number of lines and changes exactly the first digest line after each line naming the image |
| `Digests.ReadsBackExactlyWhen` | tools/bump-digests.sh:41-70 | on a well-formed first entry what is written is read back exactly when it holds no ampersand, as no proper digest does |
| `Digests.UsableIsLoose` | tools/bump-digests.sh:41-46 | the script's check accepts a text that is no digest and holds an ampersand |
| `Digests.LastWriteWins` | tools/bump-digests.sh:66-70 | a second write overrides the first on any file; writing twice is writing once |
| `Digests.UnchangedExactlyWhen` | tools/bump-digests.sh:59-70 | a write changes nothing exactly when every digest line of the image holds that digest |
| `Digests.SkipsStaleEntry` | tools/bump-digests.sh:54-62 | a file with a current first entry and a stale later one reads as current although a write would change it |
| `Digests.SkippedExactlyWhen` | tools/bump-digests.sh:50-84 | a file is left alone although a write would change it exactly when it mentions the image, its first digest of the image is current and some other is not |
| `Digests.OnlyOwnExactlyWhen` | tools/bump-digests.sh:64-70 | every digest rewritten stands in an entry of the image exactly when, after each entry of the image that is left without a digest, the next entry that holds one is of the image too |
| `Digests.StrayDigest` | tools/bump-digests.sh:64-70 | four lines, an entry of the image without a digest and one of another image with, in which the other's digest is rewritten |
| `Digests.BumpSettles` | tools/bump-digests.sh:50-84 | a well-formed manifest never fails, reads back the digest, and is unchanged the second time |

## Left out

- Floating point: sums and percentages are exact reals; rounding of float64 and int64 overflow are not modelled.
- Parsing of quantities, YAML, JSON and configuration files, kustomize and the policy engine: their results, failures included, are inputs; the Rego rules are not modelled.
- Git, worktrees, file reading and writing, HTTP, Prometheus, Kubernetes and Redis clients: what they answer is an input, or a step.
- Which files git takes to have moved: the set is given, and a sound change has none. How git merges a file that both sides changed: such a merge may hold anything. Names are the strings of their bytes; git is taken to quote as it does by default.
- The workflow builds the gate from the change's own checkout; the gate that runs is taken to be the one modelled here.
- Samples for the two conditions of `Sound` that no directory is named like a kustomization and that the base has a rate table.
- Estate.FloorWithinCeiling: is stated for quantities and counts that are not negative and minimums within maximums, although the code accepts others; `FloorWithinExactlyWhen` is the exact condition for the bounds.
- Merges.ExitCodesBoundSpend: needs quantities and replica counts that are not negative and minimums within maximums at every commit (`Sensible`), which the code does not check; `FloorWithinExactlyWhen` is the exact condition for the bounds.
- Merges.ExitCodesBoundGrowth: also needs the spend to be positive at every commit and the base tree to be listed in every run, since the gate then applies no percentage.
- A base commit without a rate table, which the gate prices with the head's: there is no earlier cost to bound.
- Symbolic links, and paths with dots or doubled slashes: paths are clean, up to slashes at the end of the configured ones.
- Message texts: reasons, findings, advice and flags are structured values; only the severity note in a violation's message is text.
- Report formatting, money formatting, provenance and the deduplicated list of assumptions: presentation.
- Flags of ordinary init containers are dropped by the code, and so here.
- A pop or push whose reply is lost on cancellation or timeout: each is one atomic step here, so a job lost between the store and the consumer is not represented.
- What a job computes, metrics, logging, the clock and ticker: waits and readings are a trace, and a job's end, on time or early, is a step.
- Writes of the event stream that fail, and an event that does not encode: every emitted event arrives.
- A manifests path that is the file system's root or the current directory in the agreement and ownership theorems.
- `tools/bump-digests.sh` treats dots of the image name as wildcards in its first search and backslashes of the digest as escapes; both are taken literally here, and the loop over images and files is left to one call per file.
- The remaining shell scripts, the edge worker, the pages, the status tiles, the exporter's gauges and the gate's `price` command: thin drivers or presentation.
- Decisions.BlocksAreStable: holds the headroom, the rows and the percentage basis fixed, because raising the commitment alone lowers the headroom and may clear a burst finding.
- Reconcile.PredictionMeetsMeasurement: is stated for Deployments, StatefulSets and DaemonSets (`UnmappedFails` has the other two replicated kinds), for autoscalers with a minimum of at least one, because the comparison misreads a floor of zero (`BandAccepts`), and for workloads with at least one running pod, because one without any is reported missing.
