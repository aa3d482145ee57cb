# Koptan, verified

Koptan turns a Service (a git repository) into an image and a running
Deployment with three reconcilers: Service points a CI at a commit, CI builds
it in a Pod, CD deploys the image. They share one versioned object store, read
it through a cache that may lag, and race with users, the kubelet and each
other. This project models that pipeline as a step system and proves what it
guarantees over every run. It also models the alerts, the event streams, the
coding agent and the lookup algorithms around it.

Run `dafny verify dfyconfig.toml` in this directory.

## How the pipeline is modelled

- `Common`: two helpers. `Objects`: the resources and the pure decisions on
  them. `System`: the store, the three passes call by call, the environment,
  and `Step` and `Run`. A store object is the list of its versions; the index
  of a version is its resourceVersion, and a cached read may return any of
  them. Pods are numbered as they are created. Every call is one step; a pass
  may be given up after any of them, for an error or a restart.
- `Fields`: what each field of the objects that are written holds, and the name
  of an image, spelled out.
- `Histories`, `BuildSafety`, `DeploySafety`: invariants of every run, and what
  they say about builds, images, Ready and what is deployed. `StalePasses`: all that a
  pass with an outdated copy can still write.
- `FreshPasses`: what undisturbed passes do. `Convergence`: exactly when they
  make a Service Ready, in any order. `Delivered`: what it then runs, in terms of
  the Service itself. `Quiescence`: when they write nothing.
  `Limits`: where each guarantee ends, with the exact condition, and states,
  shown to be reached, in which the situation arises.
- `Effects`: what a step does to the store for good, and what a whole pass does
  that decides on a given place. `Decisions`: which passes point a CI, start a
  build or refuse one.
- `Api`, `CIReconciler`, `ServiceReconciler`, `CDReconciler`, `Operator`: the
  reconcilers as the programs they are. They change their own copy in place and
  call an API server that lets anyone else act in between. What meets a call
  (whether it is lost, refused or unheard, and what the cache returns) is fixed
  by its number, so that no program chooses it. The server notes every step,
  and whose it was; each program is proved to do what `Effects` says its pass
  does when it meets these replies, and to give up only for a lost call, and
  `Operator.Operate` runs any script of passes. Every execution is a run of the
  step system, so all theorems hold of it.

The rest: `Alerts`, `AlertRuns` and `Notifications` (what an Alert sends, of
what, and what it remembers), `Sse`
(one printer, two incremental parsers), `Transcripts`, `AgentLoop`, `Providers`
and `Session` (the agent), `Plugins`, `GitRefs`, `Secrets` and `Join` (the fast
form of a simple rule). `Text` has the string lemmas that these share.

## Assumptions

- The CD and Alert reconcilers read their own object fresh: their status patches
  carry no lock. `Limits.UnlockedPatchIsExact` and
  `Limits.StalePatchClaimsTooMuch` say exactly what that rests on.
- Alerts: an Alert pass is one step, since no one else writes its status; its
  status write may be lost after its notifications went out. A pass that could
  not read a Service, or a channel's Secret, changes none of the modelled state
  and is no step.
- A lost call of a program is lost before its effect. In the step system, and
  so in every theorem on runs, it may also take effect and the pass end there:
  the step and then a stop. An ensureCI that is refused although it took effect
  is a user's edit and a refusal; a Pod that is made although its create failed
  is an outcome of its own.
- Convergence: passes read fresh, the branch and the plugins stay as they are,
  running build Pods succeed and rollouts finish.
- JSON encoding and parsing are inverse, and an encoding has no raw newline.
  Field validators, hashes and the short form of a git reference are parameters.
- Kubernetes names and namespaces have no slash, and names are unique in a
  namespace.

## Where code and comments disagree

- The comment on the CI reconciler says that a revision is built once per spec
  generation and a failed build is not retried until one of them changes
  (internal/controller/ci_controller.go:60-61). A failed Service lookup forgets
  that (lines 96-99), also of a rebuild that was rejected:
  `Limits.FailedLookupRebuilds` and `Limits.RejectedRebuildSettles`. With
  lookups that succeed the comment holds: `BuildSafety.OneBuildPerGeneration`,
  `BuildSafety.SettledIsFinal` and `Limits.RejectedRebuildIsFinal`.
- The comment at internal/controller/ci_controller.go:158-160 says that a
  rejected Pod leaves the build to be tried again. That holds if and only if the
  CI had not observed this revision and generation before
  (`Limits.RejectionIsRetriedIff`).
- The comment on an Alert's status says that nothing is sent twice
  (api/v1/alert_types.go:95). A notification whose pass loses its status write
  goes out again: `AlertRuns.SentAgainIff`, `AlertRuns.LostWriteSendsTwice`.
  What a committed pass handled is not repeated: `AlertRuns.NothingTwice`.
- The tool loop refuses a tool call that was cut off at the token limit
  (agent/src/agent/loop.js:45-46). With chat completions that cannot happen: any
  response with tool calls is taken as complete
  (agent/src/providers/openai.js:110): `Providers.CutOffCalls`.

## Model

| member | source | states |
|---|---|---|
| `BuildSafety.TruthfulSuccess` | internal/controller/ci_controller.go:111-224 | In every run, whatever stale copies, conflicts, unheard creates and spec edits it has, an image or revision that any CI version records was built by a Pod that reached Succeeded and was made from the whole spec of some version of the CI, for that very SHA under that very image name, and that cloned the repository of some version of the Service, with its credential, which had validated just that build. |
| `BuildSafety.RecordedImageIsNamed` | internal/controller/ci_build.go:117-122 | In every run, whatever image any CI version records is registry/repo:tag of a spec that asked for the commit recorded with it: the registry without a final slash, the repository without outer slashes, and the first twelve characters of that commit, which is a full SHA. |
| `BuildSafety.CommitsDoNotShareImages` | internal/controller/ci_build.go:117-122 | In every run, two CI versions that record the same image record revisions with the same first twelve characters. |
| `BuildSafety.RunSourceInv` | internal/controller/ci_build.go:147-160 | In every run every build Pod, recorded or not, clones the repository and uses the credential of one version of the Service, however stale the copy was, and its build is valid for that version: a full SHA and a valid URL. |
| `BuildSafety.BuildingNamesItsPod` | internal/controller/ci_controller.go:111-176 | A Building CI names a Pod made from the whole spec (Dockerfile, context, plugins, steps, credentials) that the CI had at its observed generation, for its building revision; not from the spec it was edited to since. |
| `BuildSafety.LostIsTrue` | internal/controller/ci_controller.go:183-193 | A committed BuildPodLost is never false: the Pod that this CI version names is gone from the store. |
| `BuildSafety.OlderPodWritesNothing` | internal/controller/ci_controller.go:316-344 | When a pass compares the Pod names and the CI names another Pod now than its copy, the pass ends, and any status write it could try would conflict. What such a pass can have written before is in StalePasses. |
| `StalePasses.WritesAreAll` | internal/controller/ci_controller.go:71-176 | What a CI step does to the store is exactly the write that is noted of it: it marks the Pods, creates one Pod, adds one CI version or writes the CD, and without a noted write the store stays. |
| `StalePasses.StalePass` | internal/controller/ci_controller.go:346-351 | From wherever a pass with an outdated copy stands, and whatever everyone does until the next pass begins, it never writes the CI; all it can still write is the marks on old Pods and one new Pod, where a build starts, or the CD, where a success is followed up. |
| `StalePasses.StalePassAddsNoVersion` | internal/controller/ci_controller.go:346-351 | In every run, no call of a pass whose copy was outdated adds a CI version. |
| `StalePasses.StaleDecision` | internal/controller/ci_controller.go:111-176 | The same for a whole pass over an outdated copy: its writes are those that its decision on that copy allows. |
| `StalePasses.StaleBuildHappens` | internal/controller/ci_controller.go:143-175 | These writes do occur: undisturbed, such a pass that starts a build marks every Pod and creates another. |
| `StalePasses.StaleEnsureHappens` | internal/controller/ci_controller.go:119-125 | And one over a copy that had succeeded writes the CD. |
| `BuildSafety.AtMostOneLivePod` | internal/controller/ci_controller.go:143-175 | At every step of every run at most one build Pod is not marked for deletion, even across stale passes that conflict. |
| `BuildSafety.OneBuildPerGeneration` | internal/controller/ci_controller.go:112-175 | On runs where the Service lookup succeeds, no two committed build starts of a CI have the same spec generation, whatever is stale, conflicts or is rejected. |
| `BuildSafety.SettledIsFinal` | internal/controller/ci_controller.go:119-125 | From a settled build on, in every run in which the Service lookup succeeds, no build of that generation starts again. |
| `BuildSafety.BuildCountCountsPods` | internal/controller/ci_controller.go:206-212 | On every run BuildCount never decreases and equals the number of distinct Pods recorded as succeeded. |
| `Histories.RunExtends` | internal/controller/ci_controller.go:343-351 | No run rewrites a version that was read: histories only grow, and a Pod keeps its revision, image and end result. |
| `Histories.GenerationsNameSpecs` | internal/controller/ci_controller.go:112 | Two CI versions of the same generation have the same spec, and generations never decrease. |
| `Histories.ServiceGenerationsNameSpecs` | internal/controller/service_controller.go:80-105 | The same for Services: generations never decrease, and one generation has one spec. |
| `DeploySafety.DiscoveredWasDiscovered` | internal/controller/service_pipeline.go:30-41 | Every Service version that counts as discovered holds a revision and a Dockerfile that one completed discovery wrote together, under the generation of its spec. |
| `DeploySafety.ReadyWasEarned` | internal/controller/service_pipeline.go:61-109 | A Service version that is Ready at r implies an earlier CI version asking for r and Succeeded at r, and an earlier CD version Running at r. |
| `DeploySafety.ReadyMeansBuiltAndRolledOut` | internal/controller/service_pipeline.go:61-109 | End to end: Ready at r implies one image that a succeeded Pod built from r, whose tag is the start of r, and that a Deployment with this image in its template rolled out to every replica. |
| `DeploySafety.DeployedWasBuilt` | internal/controller/cd_controller.go:84-120 | Every Deployment version runs an image that a Pod built and that succeeded, from the commit that its tag names, in every run. |
| `DeploySafety.OnlySuccessChangesTheImage` | internal/controller/ci_controller.go:195-212 | Only the commit of a succeeded build changes the image or revision that a CI offers: running, failed, rejected and lost builds leave what is deployed alone. |
| `DeploySafety.FreshPatchWritesAll` | internal/controller/cd_controller.go:254-258 | A status merge patch computed from the current copy leaves exactly the status the pass computed. |
| `Fields.ImageRefNames` | internal/controller/ci_build.go:117-122 | The image of a build is the only text of the form host/path:tag with host the registry without one final slash, path the repository without the slashes around it, and tag the SHA or its first twelve characters. |
| `Fields.PutCIFields` | internal/controller/service_discovery.go:182-222 | What ensureCI leaves, from any cached copy, field by field: revision, Dockerfile and plugins of the target, the context of the build, registry, repository and credentials of spec.image if there is one and else those the CI had, the defaults where they are empty, login and extra steps kept; one generation more exactly if the spec changed, the status carried over; and exactly when it conflicts or writes nothing. |
| `Fields.PutCDFields` | internal/controller/ci_controller.go:287-315 | What ensureCD leaves: replicas (1 if unset), environment and port (8080 for 0) of the Service, the Secret of the registry or the one made from the deprecated login, default resources only where there are none; and when it conflicts or writes nothing. |
| `Fields.SyncCDLeaves` | internal/controller/service_sync.go:12-42 | What syncCD leaves, from any listed copy: each of replicas, environment and port is what the Service says where that differs from the copy, and else stays; the pull Secret and the resources stay. |
| `Fields.PutDeploymentFields` | internal/controller/cd_controller.go:158-228 | What reconcileDeployment leaves: the replicas of the CD (1 if negative), the image, environment, port (8080 for 0), pull Secret and resources; an update counts the generation up, so that the status is about the rollout before. |
| `Fields.PatchCDLeaves` | internal/controller/cd_controller.go:254-258 | What the status patch of a CD leaves, from any copy: phase, revision and image are each what the pass computed where that differs from the copy, and else stay; spec and generation stay, and there is a new version exactly if something changed. |
| `Delivered.ReadyDelivers` | internal/controller/service_controller.go:80-174 | In every reachable state that is Ready at the head, the CI asks for the head with the build settings of the Service, and the newest Deployment is rolled out with the replicas, environment and port of the Service and an image named after the head. |
| `Delivered.ConvergesToService` | internal/controller/service_controller.go:80-174 | From any reachable state at rest with a valid source and a CI that is not hopeless, any order of fresh passes that meets the road ends Ready with that, for the spec that the Service had at the start. |
| `Decisions.PassPointsAtRemote` | internal/controller/service_controller.go:126-174 | Whatever a whole Service pass asks of its CI is the commit that the remote answered, with the attached plugins: as it was discovered before if the spec and the commit are known, and else as it is discovered now, and only for a Service with a good source and its Secret at hand. |
| `Decisions.BadSourceIsRefused` | internal/controller/service_controller.go:106-116 | With a bad source a whole pass does nothing but write InvalidSource, and not even that where it is Failed for this spec already. |
| `Decisions.PassStartsGoodBuilds` | internal/controller/ci_controller.go:100-176 | A whole CI pass marks or creates Pods only for a full SHA with a Dockerfile, an image with registry and repository and a valid URL and context, which is not built or being built, with Secrets and plugins at hand. |
| `Decisions.BadBuildIsRefused` | internal/controller/ci_controller.go:100-117 | Any other build is not started: the pass does nothing but wait for a revision and a Dockerfile, or write InvalidSpec. |
| `Convergence.PassProgress` | internal/controller/service_controller.go:80-174 | With fresh reads and fixed inputs, no pass of any reconciler, no finished Pod and no finished rollout loses what was reached on the way to Ready, and the one that is next on the road reaches the next stage. |
| `Convergence.OrderProgress` | internal/controller/service_controller.go:80-174 | After any order of passes, with any repetitions, the Service is at the stage that the order has met of the road Service, CI, Pod, CI, CD, rollout, CD, Service. |
| `Convergence.AnyOrderWillDo` | internal/controller/service_controller.go:80-174 | Any order meets the road that has eight stretches in each of which every pass occurs, in whatever order and however often. |
| `Convergence.FourRoundsWillDo` | internal/controller/service_controller.go:80-174 | In the order of the pipeline four rounds meet the road, and so do more. |
| `Convergence.Converges` | internal/controller/ci_controller.go:71-224 | For every reachable state at rest and any order of fresh passes that meets the road: the Service is Ready at the head of its branch if and only if its source is valid and its CI is not hopeless, that is, not failed for its current generation, nor following a Pod that failed or is gone, with a spec that the next Service pass leaves as it is. |
| `Convergence.HopelessIsReported` | internal/controller/ci_controller.go:117-125 | From every reachable state at rest with a valid source and a hopeless CI, any order with a Service, a CI and a Service pass ends with the CI Failed for the head and the Service reporting it. |
| `Convergence.FailedBuildStays` | internal/controller/ci_controller.go:117-125 | A CI that failed for its current generation and matches its Service gets no new version from any order of fresh passes, and from the first Service pass on the Service reports CIFailed. |
| `Convergence.RejectedStays` | internal/controller/service_controller.go:109-116 | A Service whose source is invalid is Failed from its next pass on, in any order of passes. |
| `Quiescence.Quiescent` | internal/controller/service_discovery.go:162-203 | Once all objects match the head, a further pass of any reconciler writes no spec, no status, no generation and no Pod. |
| `Quiescence.HandEditReverted` | internal/controller/service_discovery.go:182-203 | A hand edit of the CI spec is undone by one Service pass if and only if it touched only fields the Service owns; without spec.image the registry fields are the user's. |
| `FreshPasses.PointCIIdempotent` | internal/controller/service_discovery.go:182-222 | Pointing a CI twice at the same target changes nothing the second time. |
| `FreshPasses.PointCDIdempotent` | internal/controller/ci_controller.go:287-315 | ensureCD and syncCD are idempotent and agree on the fields that both write. |
| `Quiescence.OwnFailureRests` | internal/controller/service_controller.go:106-124 | After a failure of its own a Service does nothing if and only if its source is invalid or the retry pause lasts. |
| `Quiescence.PipelineFailureGoesOn` | internal/controller/service_pipeline.go:21-41 | A failure of the CI or CD does not stop the Service: with a remote that answers it goes on to point its CI, with a new discovery only where the branch moved. |
| `FreshPasses.RelabelingIsNoRebuild` | internal/controller/service_discovery.go:182-190 | A new language changes the label of the CI and neither its generation nor its build. |
| `Limits.FailedLookupRebuilds` | internal/controller/ci_controller.go:96-99 | For every settled CI, one failed Service lookup makes the next pass build the same generation again in a second Pod. |
| `Limits.RejectedRebuildIsFinal` | internal/controller/ci_controller.go:154-168 | If the create of that second Pod ends with an error, whether or not the Pod was made, the CI is Failed for its current generation, and in every later run in which the Service lookup succeeds no build of that generation starts again. |
| `Limits.RejectedRebuildSettles` | internal/controller/ci_controller.go:96-99 | Only that long: the CI is settled again, so that one more failed lookup rebuilds it as before. |
| `Limits.RejectionIsRetriedIff` | internal/controller/ci_controller.go:154-168 | A build whose create ended with an error is tried again by the next pass if and only if the CI had not observed this revision and generation before. |
| `Limits.UnheardPodIsAnOrphan` | internal/controller/ci_controller.go:157-168 | A create that is answered with an error although the Pod was made leaves the one live Pod, and in every later run no version of the CI names it: what it builds is never recorded. |
| `Limits.OrphanLivesOn` | internal/controller/ci_controller.go:143-168 | Such a Pod stays unmarked, and keeps building the spec it was made from, in every run in which no build starts and nobody removes it. |
| `Limits.StalePassReplacesThePod` | internal/controller/ci_controller.go:143-175 | In every state that the invariants allow, a new build leaves the CI naming the one live Pod if and only if its pass has the current copy; from an older one the CI goes on naming a Pod that is being deleted. |
| `Limits.FailureIsOfAnyRevision` | internal/controller/service_pipeline.go:73-82 | One Service pass over a CI that exists reports CIFailed at the head if and only if that CI is Failed, whatever it failed on and before any Pod is made; and the failure is one of the spec that the CI then has if and only if it was before and pointing left that spec alone. |
| `Limits.OldFailureAtTheHead` | internal/controller/service_pipeline.go:73-82 | So when the failed build was of another revision than the head, CIFailed is reported at a head that nothing has tried to build. |
| `Limits.OldFailureIsReached` | internal/controller/service_pipeline.go:73-82 | That state is reached: any first build that fails while the branch is at another commit. |
| `Limits.SettledIsReached` | internal/controller/ci_controller.go:143-175 | The settled CI from which a failed lookup rebuilds is reached by any first build. |
| `Limits.StaleDeletingIsReached` | internal/controller/ci_controller.go:143-175 | The outdated pass that is about to replace the live Pod is reached after any first build. |
| `Limits.UnlockedPatchIsExact` | internal/controller/cd_controller.go:254-258 | A merge patch without a lock leaves what the pass computed if and only if no field that it left as read has changed since. |
| `Limits.StalePatchClaimsTooMuch` | internal/controller/cd_controller.go:121-143 | A pass that began with any version that the CD had leaves the CD Running at a revision other than the one it found rolled out if and only if that revision was on its copy already and has been replaced since, and the phase, where it is not sent, is Running anyway. |
| `Limits.StalePatchIsReached` | internal/controller/cd_controller.go:121-143 | That situation is reached for any valid Service and any two commits: both are built and deployed by ordinary passes, and the copy is the version that reported the first. |
| `Api.ExecutionRuns` | internal/controller/ci_controller.go:71-176 | A sequence of states that steps one action at a time ends in the state of the run of these actions. |
| `Api.Server.Reached` | internal/controller/ci_controller.go:71-176 | The state of a server is that of a run of the step system. |
| `Api.Server.Others` | internal/controller/ci_controller.go:343-351 | Between two calls of a pass anyone else may take any number of steps; they rewrite nothing and leave the pass where it stands. |
| `Effects.EffectHolds` | internal/controller/ci_controller.go:143-175 | Whatever a step is noted to have done is then in the store: the Pod made from the copy's spec, the status on the version after the copy, the CI, the CD and the Deployment with each of their fields as the objects they come from say. |
| `Api.Server.Take` | internal/controller/ci_controller.go:71-176 | A call is one step of the step system, and notes for its actor exactly what that step did. |
| `Api.Server.DoneHolds` | internal/controller/ci_controller.go:71-176 | All that the three actors are noted to have done, in an execution of any length, is in the store. |
| `Api.Server.Call` | internal/controller/ci_controller.go:62-70 | Before every call anyone else may act; what meets the call is what the replies say of its number, and lost calls are counted. |
| `Api.Server.Turn` | internal/controller/ci_controller.go:62-70 | A call of any of the three actors keeps what was there and what the actor had done; a lost one ends its pass and is noted. |
| `Api.LostBetween` | internal/controller/ci_controller.go:62-70 | Two counts of lost calls are equal if and only if no call between was lost. |
| `Operator.ServerIsSafe` | internal/controller/ci_controller.go:62-70 | Every invariant of runs holds of a server at any time. |
| `Operator.Operate` | internal/controller/ci_controller.go:62-70 | For any script of passes, with anyone acting within and between them: the reports are chained from the server as it was to the server as it is, through moments of its own execution; exactly the passes that can begin take place; each adds to its actor's log just its beginning, what a pass does that decides as it and meets its replies, and that it gave up if it did; all it did stays in the store, and the build and deployment invariants hold. |
| `Operator.PassIsInTheLog` | internal/controller/ci_controller.go:62-70 | Each pass of a script stands as a whole in the final log of its actor, after all that was there when the script began. |
| `Operator.PassesInOrder` | internal/controller/ci_controller.go:62-70 | A later pass of a script begins after an earlier one ended: its calls, its steps and its part of every log come after. |
| `Operator.GaveUpIff` | internal/controller/ci_controller.go:62-70 | A pass gives up if and only if one of its own calls was lost. |
| `CIReconciler.CICopy.SetPhase` | internal/controller/ci_controller.go:353-362 | The phase and its reason change, nothing else. |
| `CIReconciler.CICopy.MarkFailed` | internal/controller/ci_controller.go:364-374 | Failed with the reason, and the generation observed. |
| `CIReconciler.CICopy.Succeed` | internal/controller/ci_controller.go:207-219 | Succeeded with the image, the revision and one more build counted, nothing else. |
| `CIReconciler.PatchStatus` | internal/controller/ci_controller.go:346-351 | The write with the optimistic lock: when it is accepted, the current version is the copy that was read with the new status; it conflicts only if a later version exists. |
| `CIReconciler.DeleteBuildPods` | internal/controller/ci_controller.go:270-275 | Every Pod is then marked, and the pass goes on to the Secret check. |
| `CIReconciler.CreatePod` | internal/controller/ci_controller.go:146-170 | Unless the create was refused a live Pod exists, made from the two copies; its number is known unless the answer was an error, and after an error the pass goes on to record that. |
| `CIReconciler.GetLivePod` | internal/controller/ci_controller.go:323-344 | Returns the Pod as the store has it now, or that it is gone, and goes on accordingly. |
| `CIReconciler.GetLiveBuildPod` | internal/controller/ci_controller.go:335-344 | Returns the Pod that the current version of the CI names, and goes on to BuildPodLost only if the copy names the same. |
| `CIReconciler.FindPod` | internal/controller/ci_controller.go:316-344 | Ends with the Pod as the store has it, or lost only where the current CI still names it, or none only where the current CI names another. |
| `CIReconciler.RecordOutcome` | internal/controller/ci_controller.go:195-224 | Records running, failed or succeeded as the Pod is, all of it at once, and after a success ensures the CD; a pass that records nothing did not end well. |
| `CIReconciler.FollowBuild` | internal/controller/ci_controller.go:180-224 | followBuild writes the outcome of the Pod it saw; for a Pod that the cache has not, one of the four outcomes, or nothing where the copy was stale. |
| `CIReconciler.FollowMissing` | internal/controller/ci_controller.go:183-193 | Ends well without a write only if the current CI names another Pod. |
| `CIReconciler.StartBuild` | internal/controller/ci_controller.go:143-176 | Marks the old Pods first; then the Secret failure is written, or a Pod created and recorded, or its rejection. |
| `CIReconciler.FailStart` | internal/controller/ci_controller.go:127-141 | Writes Failed with the reason for this revision and generation. |
| `CIReconciler.RunPod` | internal/controller/ci_controller.go:154-176 | As the create is answered: one Pod is created and recorded with its revision and generation, or the error is recorded with both left unobserved, also where the Pod was made. |
| `CIReconciler.EnsureCD` | internal/controller/ci_controller.go:287-315 | CreateOrUpdate from the copy that the cache has: when done, some CD version has every field as this CI and Service give it (Fields.CDFields); it conflicts only if there is a CD. |
| `CIReconciler.Reconcile` | internal/controller/ci_controller.go:71-176 | Whatever others do between its calls, the pass begins with exactly this view, did just what a pass does that decides as DecideCI on it and meets these replies call by call, conflicts only if its copy was outdated, gave up if and only if a call was lost, and ends at rest. |
| `ServiceReconciler.ServiceCopy.SetPhase` | internal/controller/service_status.go:79-90 | The phase and the reason of Ready change, nothing else. |
| `ServiceReconciler.ServiceCopy.MarkFailed` | internal/controller/service_status.go:93-105 | Failed with the reason, and the generation observed. |
| `ServiceReconciler.ServiceCopy.SetPipelineFailed` | internal/controller/service_pipeline.go:111-119 | Failed with the reason of the CI or CD, and no generation observed. |
| `ServiceReconciler.ServiceCopy.RecordDiscovery` | internal/controller/service_discovery.go:63-71 | Language, revision, Dockerfile, CI name and generation change together, and the phase is Building. |
| `ServiceReconciler.PatchStatus` | internal/controller/service_status.go:71-76 | The write with the optimistic lock: when it is accepted, the current version is the copy that was read with the new status; it conflicts only if a later version exists. |
| `ServiceReconciler.EnsureCI` | internal/controller/service_discovery.go:162-203 | Refused exactly if the call is; when done, some CI version has every field as the Service and the target give it, spelled out in Fields.CIFields; a conflict and a refusal lead to the status their branch asks for, or end a poll. |
| `ServiceReconciler.DiscoverAndBuild` | internal/controller/service_discovery.go:27-73 | Completed only with the CI pointed and revision, Dockerfile, language, CI name and generation all recorded together; otherwise the pass is over, and if it wrote, it wrote the status of its way out. |
| `ServiceReconciler.SyncCD` | internal/controller/service_sync.go:12-32 | The CD reference is set if and only if a CD is listed, nothing else changes, and the pass goes on. |
| `ServiceReconciler.DerivePhase` | internal/controller/service_pipeline.go:61-109 | Ready if and only if the CI has built the latest revision and the CD runs it; the failures if and only if the CI is Failed on it, or the CD is with the CI done; else Building, and nothing but phase and reason changes. |
| `ServiceReconciler.SetPipelinePhase` | internal/controller/service_pipeline.go:61-109 | The phase is the one that the copies of the CI and CD give that the cache returned, and is what the pass then writes. |
| `ServiceReconciler.FollowRemote` | internal/controller/service_controller.go:126-196 | From the answer of the remote to the end of the pass, polling included: it did what a pass does that decides as DecideService. |
| `ServiceReconciler.Finish` | internal/controller/service_controller.go:164-174 | Lists the CD, derives the phase and writes it, in this order, and stops earlier only for a lost call. |
| `ServiceReconciler.Reconcile` | internal/controller/service_controller.go:80-174 | As for the CI: begins with exactly this view, did just what a pass does that decides as DecideService on it and meets these replies, gave up if and only if a call was lost. |
| `CDReconciler.CDCopy.SetCondition` | internal/controller/cd_controller.go:260-267 | The phase changes, nothing else. |
| `CDReconciler.DeployFailed` | internal/controller/cd_controller.go:148-156 | True if and only if the conditions have Progressing False for ProgressDeadlineExceeded. |
| `CDReconciler.Progress` | internal/controller/cd_controller.go:121-140 | The phase is Running, Failed or Deploying as the rollout of this Deployment says. |
| `CDReconciler.GetCI` | internal/controller/cd_controller.go:77-99 | Waiting without an image, Failed where a Secret is not allowed, else the image and revision of one CI version together. |
| `CDReconciler.ReconcileDeployment` | internal/controller/cd_controller.go:100-119 | On success the store has the Deployment with the replicas, image, environment, port, pull Secret and resources that the CD asks for, each by itself (Fields.DeploymentFields), and what is recorded next is about it. |
| `CDReconciler.PatchStatus` | internal/controller/cd_controller.go:254-258 | The merge patch: every field that the pass changed is then in the current version. |
| `CDReconciler.Deploy` | internal/controller/cd_controller.go:100-143 | As the calls are answered: applies the Deployment, then writes the status its rollout gives, or Failed where it or the Kubernetes Service was refused; a conflict writes nothing. |
| `CDReconciler.Reconcile` | internal/controller/cd_controller.go:52-146 | As for the CI: begins with the current version of the CD, did just what a pass does with the CI version that its cache gave and meets these replies, gave up if and only if a call was lost. |
| `Alerts.BuildKeyNamesTheBuild` | internal/alerting/events.go:53-60 | Two builds have the same key if and only if they agree on revision, spec generation and Pod. |
| `Alerts.StateKeyParts` | internal/alerting/plan.go:38-41 | A key is service/kind/channel; the cut at the first slash gives the service back and the cut at the last one the channel. |
| `Alerts.StateKeyInjective` | internal/alerting/plan.go:38-41 | State keys of slash-free parts are equal if and only if all three parts are. |
| `Alerts.Prune` | internal/alerting/plan.go:66-75 | Exactly the entries of the selected services remain, in whatever order the map is iterated. |
| `Alerts.ChannelsInState` | internal/alerting/plan.go:77-86 | Exactly the channels that follow the last slash of some key. |
| `Alerts.Plan` | internal/alerting/plan.go:43-64 | The nested loops send exactly the pairs judged to need it, in order, and record exactly the baselines and unwanted kinds. |
| `Alerts.AlertCopy.BaselineChannels` | internal/controller/alert_controller.go:127-140 | All channels of a new or suspended Alert, and after a spec change those that no state knows. |
| `Alerts.AlertCopy.Deliver` | internal/controller/alert_controller.go:100-125 | The failures counted, the accepted keys recorded in order, the newest twenty deliveries first. |
| `Alerts.AlertCopy.Reconcile` | internal/controller/alert_controller.go:46-98 | One pass computes the new status as specified and returns the number of failed deliveries. |
| `AlertRuns.OneOfAKind` | internal/alerting/events.go:29-51 | A snapshot shows at most one occurrence of a kind, each with a key. |
| `AlertRuns.SentIff` | internal/alerting/plan.go:43-64 | A pass notifies a channel of an occurrence if and only if the Alert is initialized and not suspended, the channel is not new, the kind is wanted and the key is not the one remembered. |
| `Notifications.EventsAreWhatIsTold` | internal/alerting/events.go:29-105 | The events of a Service, each kind with its key and revision, exactly as its status and those of its CI and CD are: CIFailed for a CI that is Failed for the revision it builds, CDSucceeded for a CD that is Running with an image, and so on. |
| `Notifications.NotifiedIff` | internal/alerting/plan.go:43-64 | A pass notifies a channel if and only if some Service tells just this, the Alert has made a pass before, is not suspended and wants the kind, the channel is listed and not new, and what is remembered for this Service, kind and channel is not this key. |
| `Notifications.FailureIsTold` | internal/alerting/events.go:53-105 | CIFailed and CISucceeded are sent only of a Service whose CI is in that phase for that revision, CDFailed and CDSucceeded only of one whose CD is Failed or Running. |
| `Notifications.DeliveriesAreTheNewest` | internal/controller/alert_controller.go:100-125 | The deliveries that a pass leaves are what it sent, the last first, each with its Service, kind, channel, revision and success, then those before, twenty at most. |
| `AlertRuns.UnhandledAreTheFailed` | internal/controller/alert_controller.go:72-98 | After a committed pass the occurrences and channels still unhandled number exactly the failed deliveries. |
| `AlertRuns.RetriesExactlyTheFailed` | internal/controller/alert_controller.go:100-125 | The next pass over the same Services sends exactly the failed deliveries, in order, and nothing else. |
| `AlertRuns.StateIsTheLastHandled` | internal/controller/alert_controller.go:72-98 | Over every life of an Alert, with spec edits, failed deliveries and lost writes, the state holds at each place the key that a pass whose write got through last handled there since its service was last pruned, and nothing else: what a pass sent whose write was lost is not remembered. |
| `AlertRuns.NothingTwice` | internal/alerting/plan.go:43-64 | Between a key that a committed pass handled at a place and any later pass, committed or not, that handles or sends the same key there, its service was dropped or another key was handled there. |
| `AlertRuns.SentAgainIff` | internal/controller/alert_controller.go:82-93 | The exact rule: a notification that got through goes out again with the next pass over the same Services if and only if the status write of its own pass was lost. |
| `AlertRuns.LostWriteSendsTwice` | internal/controller/alert_controller.go:82-93 | So for any service, revision and channel there is a life in which the same notification goes out twice with nothing in between. |
| `AlertRuns.KnownChannelsAreThose` | internal/alerting/plan.go:77-86 | Over every life, a channel counts as known if and only if something is remembered for it. |
| `Sse.ReadEvents` | web/plugins/koptan-react/src/sse.ts:5-36 | For every way to cut the text into chunks, the events are those of the frames that a reader of single characters finds in the whole text. |
| `Sse.DoneWatcher.Transform` | web/plugins/koptan-backend/src/service/selfservice/agent.ts:69-95 | Passes each chunk on unchanged, and what it reported is always what the text seen so far calls for. |
| `Sse.Watch` | web/plugins/koptan-backend/src/service/selfservice/agent.ts:69-95 | A printed stream in any chunks is forwarded as it is, and the commits reported are exactly the non-empty ones of the done events, in order. |
| `Sse.TakeFrame` | web/plugins/koptan-react/src/sse.ts:17-33 | Cutting the buffer at its first blank line does what reading it character by character does. |
| `Sse.RestHasNoBlankLine` | web/plugins/koptan-react/src/sse.ts:12-17 | Whatever has been read, what waits in the buffer has no blank line. |
| `Sse.Resume` | web/plugins/koptan-react/src/sse.ts:12-17 | So scanning the rest of the buffer again with the next chunk loses no frame and finds none too many. |
| `Sse.FramesOfPrint` | agent/src/server.js:60-62 | The printed text has one frame per event and nothing after them. |
| `Sse.ReadsBack` | agent/src/server.js:60-62 | Whatever the chunks, reading what was printed gives exactly the events sent. |
| `Sse.ReadsPrefix` | web/plugins/koptan-react/src/sse.ts:5-36 | A stream that is cut off anywhere gives a prefix of the events sent. |
| `Sse.DataOfLines` | web/plugins/koptan-react/src/sse.ts:19-25 | The data of a frame of any lines are its data lines without their mark, joined by newlines again. |
| `Sse.LinesOfJoined` | web/plugins/koptan-react/src/sse.ts:19-25 | Splitting into lines gives back what was joined. |
| `Transcripts.TranscriptIsPaired` | agent/src/agent/loop.js:48-70 | A transcript is user (assistant tool)*, each tool message holding one result per call of the message before it, with the same ids and names in order. |
| `AgentLoop.RunPlan` | agent/src/agent/plan.js:62-93 | One request, without tools; the planned changes are run in order exactly if the plan parses. |
| `AgentLoop.RunCalls` | agent/src/agent/loop.js:54-69 | The tools run once per call, in order, and each result carries the id and name of its call. |
| `AgentLoop.RunWithTools` | agent/src/agent/loop.js:21-73 | The requests are the transcripts of the turns so far, the answer follows from the last outcome or from running out of steps, and a model that rejects tools gets one plan request. |
| `AgentLoop.RunAgent` | agent/src/agent/loop.js:21-73 | As above, or one plan request where the provider has no tools. |
| `AgentLoop.RequestsArePaired` | agent/src/agent/loop.js:21-73 | Every request with tools keeps the pairing and starts from the prompt; there are at most maxSteps of them, and a plan request can only be the last. |
| `AgentLoop.RequestsCarryOn` | agent/src/agent/loop.js:48-70 | Each request is the one before it with the model's answer, unchanged, and one result per call. |
| `AgentLoop.SummaryIff` | agent/src/agent/loop.js:38-46 | A run has a summary if and only if its last exchange is an answer without calls that is neither refused nor cut off, or a plan that parses, and then that is the summary. |
| `AgentLoop.FailureIff` | agent/src/agent/loop.js:38-72 | Each failure says why, exactly: no steps left, the provider failed, the model declined, it ran out of tokens without or with calls, or the plan does not parse. |
| `AgentLoop.PlanIsCarriedOut` | agent/src/agent/plan.js:62-93 | After a plan that parses the tools have been used for the calls of the turns and then for each change in order: write_file for one that writes, delete_file for one that deletes. |
| `Providers.ToOpenAIMessages` | agent/src/providers/openai.js:13-36 | The loop computes the specified translation after the system message. |
| `Providers.ChatIsAnswered` | agent/src/providers/openai.js:13-36 | In the translation of a paired conversation each assistant message is followed at once by one tool message per call, in order, and there is no other. |
| `Providers.ChatRoundTrip` | agent/src/providers/openai.js:13-36 | The conversation can be read back: texts, calls with their inputs, and outputs; only error flags and raw responses are lost. |
| `Providers.FillContent` | agent/src/providers/anthropic.js:23-34 | The content array of a turn that is not replayed: its text, then its calls. |
| `Providers.AnthropicIsAnswered` | agent/src/providers/anthropic.js:20-46 | The roles alternate and each message of results answers the calls of the assistant message before it in order, also when raw content is replayed. |
| `Providers.AnthropicRoundTrip` | agent/src/providers/anthropic.js:20-46 | From the API messages alone the conversation can be read back: the prompt, the text and calls of each turn that is not replayed, the id, name, output and error flag of each result, and the raw content of a replayed turn, unchanged. |
| `Providers.WhatEndsARun` | agent/src/agent/loop.js:38-46 | What ends a run, by the stop or finish reason of either provider: declined, cut off, out of tokens, or the summary with the texts of the answer. |
| `Providers.ChatCallsAre` | agent/src/providers/openai.js:38-45 | The calls of a chat-completions answer with their parsed arguments: none are the empty object, malformed ones an input that the tool rejects. |
| `Providers.OneMoreBlock` | agent/src/providers/anthropic.js:101-110 | The calls of a Messages API response are those of its tool_use blocks, in order, and of no other block. |
| `Providers.CutOffCalls` | agent/src/providers/openai.js:98-113 | The loop goes on after tool calls unless a Messages API response declined or ran out of tokens; a chat-completions response with tool calls never counts as cut off, whatever its finish reason. |
| `Providers.RunKeepsBothProtocols` | agent/src/agent/loop.js:21-73 | Every request with tools of every run keeps the protocol of either provider, when the answers come from the providers, and the whole conversation can be read back from what the Messages API is sent. |
| `Session.AllRunsOk` | agent/src/session.js:29-85 | The invariant of the session holds after every interleaving of calls. |
| `Session.SingleFlight` | agent/src/session.js:29-39 | In every interleaving the session is busy if and only if exactly one run is running, and that run is the first of the list. |
| `Session.HistoryIsNewestFirst` | agent/src/session.js:38-39 | The list holds the newest runs, newest first, all of them or the newest fifty. |
| `Session.OneTerminalEvent` | agent/src/session.js:42-83 | A run that is over has exactly one done or error event, its last, which says how it ended; a running one has none. |
| `Session.OverIsOver` | agent/src/session.js:42-83 | Nothing that happens later changes a run that is over. |
| `Session.EventLoop` | agent/src/session.js:29-85 | Calls resumed in any order with any outcome take the class through that run of the step system. |
| `Session.Session.Begin` | agent/src/session.js:29-48 | A busy session is left as it is; otherwise the run is first in the list and has said that it syncs. |
| `Session.Session.Succeed` | agent/src/session.js:71-82 | The record, the done event and the release of the session. |
| `Session.Session.Catch` | agent/src/session.js:75-82 | The error, its event and the release of the session. |
| `Plugins.SortPlugins` | internal/plugins/resolve.go:41-46 | A permutation, strictly sorted by order, then name. |
| `Plugins.Resolve` | internal/plugins/resolve.go:11-48 | Sorted and free of duplicates, with exactly the attached plugins of the namespace that are not being deleted; missing lists the other names in order. |
| `Plugins.ResolveIsDetermined` | internal/plugins/resolve.go:11-48 | The result depends neither on the iteration order of the map nor on the order of the list. |
| `Plugins.ResolvedIffAttached` | internal/plugins/resolve.go:72-80 | A plugin is in the result if and only if it is of the namespace, not being deleted, and listed by the Service, or refers to it as a Service or without a kind, or has a selector whose terms, at least one, its labels all meet. |
| `Plugins.ResolvedInOrder` | internal/plugins/resolve.go:41-46 | A lower order comes first, and where the orders are equal the name that is a start of the other or has the smaller character where they first differ. |
| `Plugins.ResolvedNoTwice` | internal/plugins/resolve.go:22-28 | No name occurs twice in the result. |
| `Plugins.Refs` | internal/plugins/resolve.go:82-92 | Each plugin in order, pinned at its generation. |
| `Plugins.ContainerNameFits` | internal/plugins/steps.go:61-70 | A container is named plugin-<name>, or where that has more than 63 characters after the first 47 of the name and its hash, which fit. |
| `Plugins.ContainerNamesClash` | internal/plugins/steps.go:61-70 | Two plugins share a container name if and only if both are long with equal starts and hashes, or a short one is spelled like a shortened one. |
| `Plugins.Steps` | internal/plugins/steps.go:16-28 | Succeeds if and only if every plugin renders; then one container per plugin, in order, under its name. |
| `Plugins.PluginSteps` | internal/controller/ci_plugins.go:17-47 | Fails if and only if a pinned plugin is missing or does not render. |
| `Plugins.InitContainers` | internal/controller/ci_build.go:166-180 | The clone, then the extra steps, then the plugin steps, each in order. |
| `Plugins.PluginResults` | internal/controller/ci_plugins.go:61-91 | One result per pinned plugin, in order, from the container named after it. |
| `Plugins.BuildAndReport` | internal/controller/ci_plugins.go:17-91 | From Resolve to the results: there is a build Pod if and only if no named plugin is missing and every attached one renders; and when no two init containers share a name, the i-th result is the state of the i-th plugin's own container: succeeded if and only if it ended with exit code 0. |
| `GitRefs.FindRevision` | internal/utils/git.go:88-109 | The loop finds the first branch of the name, else the last peeled tag, else the first tag. |
| `GitRefs.ResolveRevision` | internal/utils/git.go:59-109 | A full SHA without asking the remote, else the branch or tag, and for an empty revision HEAD or what it points to. |
| `GitRefs.HasRevisionChanged` | internal/utils/git.go:111-119 | Changed if and only if the revision resolves to another SHA than the known one. |
| `GitRefs.OrderDoesNotMatter` | internal/utils/git.go:59-109 | For distinct names the result is the same for every order of the remote's references. |
| `GitRefs.PriorityChoice` | internal/utils/git.go:63-109 | The name asked for, whether it is the revision or what a symbolic HEAD stands for, resolves to what refs/heads/<name> points at, else the peeled entry of refs/tags/<name>, else that tag itself, and fails if and only if the remote has none. |
| `GitRefs.UnaskedChoice` | internal/utils/git.go:59-87 | Otherwise a full SHA is itself, and the default branch is what a direct HEAD says, which fails if and only if there is no HEAD. |
| `GitRefs.AskedIff` | internal/utils/git.go:59-87 | A name is asked for unless the revision is 40 lower-case hexadecimal digits: the revision, or for an empty one the short target of a symbolic HEAD. |
| `Secrets.Collector.Add` | internal/controller/credentials.go:54-62 | The captured variables stay the names in order of first reference and the conjunction of their flags. |
| `Secrets.OptionalMeansAll` | internal/controller/credentials.go:54-62 | A name counts as optional if and only if every reference to it is. |
| `Secrets.CheckNames` | internal/controller/credentials.go:91-104 | Stops at the first name that may not be used, and accepts if and only if there is none. |
| `Secrets.CheckPodSpec` | internal/controller/credentials.go:50-105 | Accepts if and only if every env, envFrom, volume, projected and pull entry of the spec refers to a Secret that is there and labelled or allowed without, or is missing and optional there, for any mix and order and any read errors; a refusal names an offender. |
| `Join.Group` | web/plugins/koptan-backend/src/service/pipelines/join.ts:13-17 | Each entry holds exactly the items with its key, in their order. |
| `Join.BuildPipelines` | web/plugins/koptan-backend/src/service/pipelines/join.ts:24-47 | The grouped join is the nested-loop left outer join, as a list, in the same order. |
| `Join.KeyInjective` | web/plugins/koptan-backend/src/service/pipelines/join.ts:11 | Keys are equal if and only if namespace and name are, as long as no namespace has a slash. |
| `Join.JoinIsComplete` | web/plugins/koptan-backend/src/service/pipelines/join.ts:19-47 | A row is in the join if and only if it is a Service without CI, a CI without CD, or a chain. |
| `Join.OneMoreSvc` | web/plugins/koptan-backend/src/service/pipelines/join.ts:24-47 | The rows come in the order of the Services: one more adds its rows at the end. |
| `Join.OneMoreCi` | web/plugins/koptan-backend/src/service/pipelines/join.ts:24-47 | And of the CIs of a Service: one more adds its rows after theirs, the first in place of the row without one, and one of another Service or namespace changes nothing. |
| `Join.OneMoreCd` | web/plugins/koptan-backend/src/service/pipelines/join.ts:24-47 | And of the CDs of a CI, each in one row. |
| `Join.EveryoneAppears` | web/plugins/koptan-backend/src/service/pipelines/join.ts:19-47 | Every Service and every CI of a Service has a row. |

## Left out

- Deletion, finalizers and owner references of Services, CIs and CDs, and the
  garbage collection they cause.
- Several CIs of one Service and several CDs of one CI: the pipeline has one of
  each, and syncCD patches one listed CD.
- The Secret written for the deprecated loginSecret, and labels other than the
  language: they carry no state that a decision reads.
- Message texts, timestamps, metrics and all conditions but the reason of Ready,
  including the messages that podResult builds.
- The Kubernetes Service of a CD: only whether writing it succeeds, conflicts or
  is refused.
- User edits of the Deployment other than its replicas, and the variables
  CONTAINER_IMAGE and PORT and the probe of the app container, which follow from
  the image and the port.
- Git cloning, language detection and Dockerfile templates: a discovery is one
  answer, and a remote head one SHA.
- Wall-clock intervals: that a retry wait has passed is part of what a pass sees.
- The HTTP notifiers, the model APIs and the tools of the agent: each call has
  any outcome.
- SelfService provisioning, permissions, redaction, React components and the
  shell scripts of the build Pod.
- Plugins.Resolve: label selectors have equality terms only.
- Sse.DoneWatcher.Transform: chunks are texts, so a character split between
  two byte chunks is not captured.
- AgentLoop.RunWithTools: progress events and the truncation of their previews
  are not modelled.
- Session.Session.Begin: whether a client still listens is not modelled; the
  events are those emitted.
- CDReconciler.Reconcile: its own object is read fresh, which the code does
  not ensure.
