# jdix-sandbox: a verified model

jdix-sandbox runs untrusted code in single-use Kubernetes Pods. This project models the parts of
it whose correctness depends on more than one function, in Dafny 4.11, and proves what they
promise. `dafny verify dfyconfig.toml` checks all of it.

| part | files | main results |
|---|---|---|
| The Pod binding protocol: Sandbox and pool reconcilers over a versioned store, and the daemon in the Pod | `Execd`, `Binding`, `BindingSafety`, `BindingEvents`, `BindingRuns`, `BindingOutcomes`, `BindingHistory`, `BindingWitnesses` | a claim is for life and a Pod has one Sandbox; exactly when a Running status matches the daemon; at most one Pod is held; exactly when a terminal Sandbox still holds its Pod; phases only go forward; only ready Pods are bound |
| The mount compiler: specification to bubblewrap command line, the file API's roots, pinned descriptors | `Paths`, `PathLaws`, `Decimal`, `Bwrap`, `Admission`, `CommandLine`, `Generate`, `MountView`, `Confinement`, `FileRoots`, `Launch` | the deepest declared mount is what a path shows; protected paths are the platform's; the file API picks the same bind; each descriptor is its own mount's; what is admitted, by segments; where every bind comes from, what is hidden, and which isolation each tier gets |
| The seccomp program generator | `Seccomp` | the compiled program means the policy, for every deny list and every system call |
| The exit-status exchange | `Reaper` | a bounded duplicate-free queue; a started process is never lost; the bound of 256 is exact |
| Warm supply, warm-up budget, quota and idempotency | `Pool`, `Totals`, `Warmup`, `Quota` | passes conserve Pods and converge; approvals stay in budget; quotas hold in every minute; a key creates once |
| The gateway's routers | `Gateway` | every URL and hostname the routers render is routed back, with the exact exceptions |

## How the code is modelled

**The store.** The API server keeps every version of every object. An update names the version it
was read at and is refused unless that is the last one. A cached read returns any version ever
stored. A write may take effect while its reply is lost. A call to a daemon that the controller stops
waiting for (pkg/controller/execdclient.go:64) stays behind, and may arrive, pass its check and publish
at any later time. Each step of a run is one API call, or one
locked section of the daemon, and the steps of any number of Sandbox reconciles, pool passes,
kubelet reports, deletions and TTL expiries interleave freely.

**The daemon.** `handleBind` checks under its lock, releases it to launch, and takes it again to
publish without looking. The two sections are separate steps. That no other reconcile comes between
them is proved from ownership of the Pod; a call left behind can, and the theorems say exactly what
follows. `spoiled` is a history field: the Pods where such a call has taken effect.

**The command line.** `Generate` is modelled down to the argument strings. A reader of bubblewrap's
option syntax gives the strings their meaning, and the view at a path is the last mount option
whose target contains it.

**Classes and loops.** `handleBind`'s state, the reaper, the in-memory store and the warm-up server
are classes whose methods are tied to functions on their abstract state; `Validate`, `Generate`,
`itoa`, `resolveRoot`, `configureInit`, `launch`, `WorkloadFilter`, `classify`, the supply pass and
the counting loops are methods with loops. The theorems are about those functions.

**Integers.** `itoa` and port numbers are 64-bit, replica counts go through the 32-bit conversions
of `upsertPool`, and BPF words are 32-bit vectors with 8-bit jumps. Instants are nanoseconds.

### Assumptions

- Pod, Sandbox, warm-up request and sandbox record names are never reused.
- Reconciles of one Sandbox do not overlap. Nothing else orders two bind calls to one Pod.
- `AtMostOnePodHeld` alone assumes that `findClaimedPod`'s list shows the controller's own earlier
  claims; `StaleListTakesTwoPods` shows that it must.
- A pid is not reused while a status or waiter for it is held; `Reaper.WaitIsOwnIff` shows that a
  started process needs exactly that.
- `Pool.PassesConverge` is about rounds in which creates go through, started Pods become ready at the
  floor, and nothing is claimed or reaches its idle TTL; time passes and Pods age in every round.
- API server handlers (warm-up, create) run one at a time over `MemStore`, with fixed quotas and
  budget. Within a create, the record's clock reading is not before the quota check's.

### Where the code differs from what it says

- The concurrency quota's message says to delete a sandbox or wait for its TTL
  (pkg/apiserver/quota.go:42). No code path marks a record deleted: `deleteSandbox`
  (pkg/apiserver/server.go:356-379) leaves the record alone. `Quota.LimitIsForLife` proves that the
  limit then bounds all sandboxes a tenant ever creates.
- Idempotency keys are stored under tenant, slash, key (pkg/apiserver/memstore.go:182). If a tenant id
  continues another with a slash, one tenant can be answered with the other's sandbox
  (`Quota.NestedTenantsShare`); otherwise never (`Quota.ReplaysAreOwnIff`).
- `itoa` of the smallest integer is "-" (`Decimal.ItoaRoundTrips`); no descriptor reaches it.
- A terminal phase is documented to mean that the Pod is gone (pkg/controller/sandbox_controller.go:139).
  It need not be: after a bind refused without a deletion (`BindingWitnesses.FailedCanHold`), a cold
  create whose reply is lost (`FailedCanHoldUnnamed`), or a cached NotFound in `deletePod`
  (`ExpiredCanHold`). `BindingOutcomes.TerminalHoldsIff` has the exact condition.
- A status token is documented to be the one the daemon was given
  (pkg/controller/sandbox_controller.go:380). A bind call left behind can overwrite it
  (`BindingWitnesses.LatePublishBreaksIt`); `BindingOutcomes.RunningMatchesIff` has the exact condition.
- Trimming a pool is documented as oldest first (pkg/controller/pool_controller.go:133). The code
  trims in list order (`Pool.TrimCanSpareTheOldest`); `Pool.TrimsOldestIff` has the exact condition.
- The endpoint hostname of a sandbox whose id reads as another existing id, a hyphen and a port is
  routed to that port (`Gateway.EndpointHostRoutesBack` has the exact condition).
- A warm-up approval of a pool that was there before with a higher floor can raise supply above what
  was approved (`Warmup.ImmodestPoolBreaksIt`); `Warmup.SupplyIsBoundedIff` has the exact condition.

## Model

| member | source | states |
|---|---|---|
| BindingRuns.ClaimIsForLife | pkg/controller/sandbox_controller.go:229-290 | In every run, a Pod labelled bound for a Sandbox has that state, sandbox-id and owner at every later moment and in every version since the claim |
| BindingRuns.PodHasOneSandbox | pkg/controller/sandbox_controller.go:149-306 | Two Sandbox versions that name one Pod, at any two moments of a run, belong to one Sandbox |
| BindingOutcomes.RunningMatchesDaemon | pkg/controller/sandbox_controller.go:310-405 | Whenever a stored version is Running, the daemon of the Pod it names is bound to exactly that Sandbox and token or torn down for good, and accepts no other token, unless a call the controller gave up on took effect there |
| BindingOutcomes.RunningMatchesIff | pkg/execd/server.go:126-213 | With or without such calls, exactly when: nothing was published in the Pod after a teardown and, unless torn down, this Sandbox's grant was published last |
| BindingOutcomes.ServesIff | pkg/execd/server.go:126-213 | Whom any daemon serves at any moment of a run, told from the order of publishes and teardowns alone |
| BindingOutcomes.BoundAndExpiredIff | pkg/execd/server.go:169-213 | A daemon is both bound and expired exactly when something was published after its teardown, which only a call left behind can bring about |
| BindingOutcomes.BindsDoNotOverlap | pkg/execd/server.go:126-186 | Two reconciles are never launching in one Pod; between check and publish the daemon is still fresh exactly if no call left behind has taken effect there |
| BindingOutcomes.TerminalHoldsIff | pkg/controller/sandbox_controller.go:423-470 | When Failed or Expired is recorded, the Sandbox still holds the Pod it names exactly when this reconcile had no deletion accepted and the Pod was not leaving already, that is, when no step of the run deleted or removed it |
| BindingOutcomes.HeldUntilDeleted | pkg/controller/sandbox_controller.go:149-470 | A Pod a Sandbox owns, named or not, is held at any moment exactly when no step has deleted or removed it |
| BindingOutcomes.LeavesForGood | pkg/controller/sandbox_controller.go:451-470 | A Pod on its way out is never held again |
| BindingOutcomes.FinalizedHoldsIff | pkg/controller/sandbox_controller.go:443-470 | A deleted Sandbox goes while still holding the Pod it names under exactly the same condition |
| BindingOutcomes.TokenOpensIff | pkg/execd/server.go:216-224 | While a Pod has not been torn down, the token published last opens it and no other, and never an empty one |
| BindingHistory.OnlyReadyPodsAreBound | pkg/controller/sandbox_controller.go:318-364 | In every run a bind is only under way, and a grant only ever published, in a Pod some version of which was ready and not terminated |
| BindingHistory.PublishedWasLetThrough | pkg/execd/server.go:132-174 | Whatever is published in a Pod was let through there by an earlier check of that very request, on a daemon neither bound nor expired, and has an id and a token |
| BindingHistory.WarmClaimWasACandidate | pkg/controller/sandbox_controller.go:229-290 | A Pod not made for its Sandbox was idle, ready, measured and not being deleted in the very version its claim was laid on, and the claim changed nothing else |
| BindingHistory.AdoptionIsOfALiveClaim | pkg/controller/sandbox_controller.go:209-224 | An adopted Pod is the Sandbox's own and shown not to be going away; none is adopted only if every listed Pod is another's or going away |
| BindingHistory.PhasesGoForward | pkg/controller/sandbox_controller.go:131-145 | Whatever stale copies reconciles work on, phases only go forward and terminal ones for good, the named Pod and the token never change, and a token is shown exactly while Running |
| BindingHistory.RunIsOrderly | pkg/controller/sandbox_controller.go:106-470 | Every version follows from the one before by one of the seven writes the code makes, and every reconcile's copy is the version it was read at |
| BindingEvents.StepLeaves | pkg/controller/sandbox_controller.go:310-470 | Which steps put a Pod on its way out: exactly the accepted deletions and the removal |
| BindingEvents.StepDaemons | pkg/execd/server.go:126-213 | Which steps change a daemon: exactly its publishes and teardowns, by a waiting controller or not |
| BindingRuns.AtMostOnePodHeld | pkg/controller/sandbox_controller.go:149-224 | With a list that shows earlier claims, a Sandbox never holds two non-deleting Pods, whatever writes and replies are lost |
| BindingRuns.NothingListedNothingHeld | pkg/controller/sandbox_controller.go:209-224 | If such a list shows no live claim, the Sandbox holds no Pod now, however old the listed versions are |
| BindingWitnesses.StaleListTakesTwoPods | pkg/controller/sandbox_controller.go:149-224 | A reachable state in which a list that misses the first claim has made a Sandbox hold two Pods |
| BindingWitnesses.ClaimCanBeLost | pkg/controller/sandbox_controller.go:180-202 | A reachable state in which a Pod is claimed and the status write recording it has lost its race |
| BindingWitnesses.LostClaimIsAdopted | pkg/controller/sandbox_controller.go:160-224 | From there the same Pod is recorded and no second one exists |
| BindingWitnesses.AdoptedPodRuns | pkg/controller/sandbox_controller.go:310-405 | From there Running is reached with the token the daemon was given |
| BindingWitnesses.LatePublishBreaksIt | pkg/controller/execdclient.go:80-128 | A reachable state in which a Sandbox is Running with one token and its Pod honours another, published late by a call left behind |
| BindingWitnesses.FailedCanHold | pkg/controller/sandbox_controller.go:326-347 | A reachable Failed Sandbox that still holds the Pod it names |
| BindingWitnesses.FailedCanHoldUnnamed | pkg/controller/sandbox_controller.go:185-193 | A reachable Failed Sandbox that holds a Pod it does not name |
| BindingWitnesses.ExpiredCanHold | pkg/controller/sandbox_controller.go:451-459 | A reachable Expired Sandbox whose Pod is held and still bound |
| BindingWitnesses.WarmPodIsClaimed | pkg/controller/sandbox_controller.go:229-290 | A reachable state in which a Pod made and measured by the pool is claimed and recorded |
| BindingWitnesses.ExpiryTearsDown | pkg/controller/sandbox_controller.go:423-470 | A reachable expiry with the daemon torn down, the Pod deleted and the token cleared |
| BindingWitnesses.DeletionFinalizes | pkg/controller/sandbox_controller.go:443-470 | A reachable deletion that goes after its Pod has been dealt with |
| BindingWitnesses.TimedOutBindFails | pkg/controller/sandbox_controller.go:351-364 | A reachable timed-out bind: Failed, the Pod deleted, the call left behind |
| BindingRuns.RunGrows | pkg/controller/sandbox_controller.go:106-470 | Versions of every object at one moment are a prefix of those at any later moment |
| BindingRuns.RunKeepsInv | pkg/controller/sandbox_controller.go:106-470 | Every state of every run satisfies the protocol invariant |
| BindingSafety.StepKeepsInv | pkg/controller/sandbox_controller.go:106-470 | Every step of reconcilers, daemon, kubelet and tenants keeps the invariant tying Pod histories, Sandbox versions, in-flight reconciles and daemons together |
| BindingSafety.ClaimSeenIsClaimHeld | pkg/controller/sandbox_controller.go:209-224 | A claim seen in any cached version of a Pod is the claim the store has now |
| BindingSafety.AcquireKeepsInv | pkg/controller/sandbox_controller.go:149-306 | Finalizer, search, warm claim, cold create and recording keep the invariant |
| BindingSafety.BindKeepsInv | pkg/controller/sandbox_controller.go:310-405 | The bind call, seen from controller and daemon, with every reply lost or timed out or not, keeps the invariant (readiness of the Pod: BindingHistory.OnlyReadyPodsAreBound; the check before the publish: BindingHistory.PublishedWasLetThrough) |
| BindingSafety.TeardownKeepsInv | pkg/controller/sandbox_controller.go:411-470 | Expiry, finalizing and Pod deletion keep the invariant |
| BindingSafety.StrayKeepsInv | pkg/execd/server.go:126-213 | Calls left behind that check, publish, unbind or end keep the invariant |
| BindingSafety.EnvironmentKeepsInv | pkg/controller/pool_controller.go:235-271 | The pool's tier label, its deletes and creates, and everything around the reconcilers keep the invariant |
| BindingSafety.PublishKeeps | pkg/execd/server.go:137-174 | Publishing a bind hits a daemon that is still fresh unless a call left behind has acted there, because no other reconcile can be launching in it |
| BindingSafety.NoLaunchElsewhere | pkg/execd/server.go:137-174 | In a Pod a Sandbox owns, no other Sandbox is launching |
| Execd.CheckStillHolds | pkg/execd/server.go:126-186 | A bind's check still holds when it publishes exactly when no other publish or teardown came in between |
| Execd.NeverFreshAgain | pkg/execd/server.go:126-213 | Once bound or expired, a daemon is never unbound and alive again |
| Execd.Guarded.CheckSection | pkg/execd/server.go:132-151 | The first locked section lets a request through exactly on a fresh daemon with an id and a token, and publishing it then and there serves exactly that grant |
| Execd.Guarded.PublishSection | pkg/execd/server.go:169-174 | The second locked section serves the requested id and token on a fresh Pod |
| Execd.Guarded.ExpireSection | pkg/execd/server.go:195-213 | Teardown is idempotent, returns the sandbox to stop once, and keeps a served grant or its expiry |
| MountView.ViewIsDeepestDeclared | pkg/bwrap/generate.go:82-110 | For every accepted specification, a path under no hide shows the deepest declared mount containing it, else the workspace, else the platform |
| MountView.EveryMountIsVisible | pkg/bwrap/generate.go:82-110 | Every declared mount is what its own target shows |
| MountView.ProtectedPathsAreThePlatforms | pkg/bwrap/validate.go:48-209 | At or below a protected path the view equals that of the platform's own options alone |
| MountView.PlatformPathsAreUntouched | pkg/bwrap/validate.go:64-71 | The nine protected paths by name, each with what is below it |
| MountView.SupervisorIsVisible | pkg/bwrap/generate.go:72-79 | The socket directory is always shown as the platform bound it, past the tmpfs over /run; the init binary exactly when it is not under the socket directory |
| MountView.SkeletonFilesAreVisible | pkg/bwrap/generate.go:53-64 | passwd, group and resolv.conf are the platform's, whatever system paths are bound before them |
| Confinement.ProcAndDevAreThePlatforms | pkg/bwrap/generate.go:66-72 | /proc is a fresh one, or the Pod's read-only in the filesystem tier, and /dev a minimal one |
| Confinement.ScratchDirectoriesAreEmpty | pkg/bwrap/generate.go:73-75 | /tmp, /run and /home are empty wherever the request puts nothing there |
| Confinement.HiddenPathsAreBlank | pkg/bwrap/generate.go:102-110 | At and below every hidden path the view is an empty directory or file, whatever else is mounted; a directory exactly for a directory |
| Confinement.EveryBindIsAccountedFor | pkg/bwrap/generate.go:53-110 | Every mount of an accepted request's command line is the platform's own, an allowlisted system path onto itself, the workspace, part of a volume the request names, or a blank over what it hides |
| Confinement.MountShowsItsSource | pkg/bwrap/generate.go:85-100 | Each target shows its own volume and subpath, inside that volume, or its own descriptor, read-only exactly as asked |
| Confinement.WorkspaceShowsItsDirectory | pkg/bwrap/generate.go:82-83 | The workspace path shows the Pod's workspace directory, writable |
| Confinement.SystemBindsAreTheRequested | pkg/bwrap/generate.go:54-61 | The system paths bound are exactly the request's, or the whole allowlist if it lists none |
| Confinement.SystemPathsAreNotReplaced | pkg/bwrap/validate.go:76-80 | No accepted mount or hide is at or above an allowlisted system path |
| Confinement.SystemPathsAreVisible | pkg/bwrap/generate.go:58-61 | A system path the request gets is shown from the host, read-only, unless the platform's mounts or the workspace are above it |
| Confinement.EnvironmentIsThePlatforms | pkg/bwrap/generate.go:113-118 | Whatever is inherited, the process starts with exactly HOME, PATH, TERM and JDIX_SANDBOX as the platform sets them |
| Confinement.IsolationByTier | pkg/bwrap/generate.go:33-51 | Which namespaces, ids, capabilities, session and start directory each tier gets, exactly |
| Confinement.InitIsWhatRuns | pkg/bwrap/generate.go:126-135 | The program run is the platform's init with its socket and workspace, told to drop ids exactly where bubblewrap did not and to reap exactly where it is not process one |
| MountView.MountOrderIsIrrelevant | pkg/bwrap/generate.go:159-170 | Permuting a request's mounts changes neither the verdict nor a single argument |
| MountView.DeepestIsLast | pkg/bwrap/generate.go:159-170 | Sorted by depth, the last covering mount is the deepest one |
| MountView.DeepestExists | pkg/bwrap/validate.go:48-62 | A path inside some mounts is inside a deepest one |
| MountView.ViewByLayer | pkg/bwrap/generate.go:53-110 | Hides cover tenant mounts, tenant mounts cover the platform |
| FileRoots.FileApiMatchesView | pkg/initd/files.go:30-57 | The root the file API picks is the tenant bind the sandbox shows at the cleaned path, with the same read-only flag; it fails exactly when no tenant bind covers it |
| FileRoots.BestIsLongest | pkg/initd/files.go:30-57 | The chosen root matches, no matching root is longer, and none is chosen only if none matches |
| FileRoots.ResolvedPathIsSafe | pkg/initd/files.go:30-57 | For a NUL-free path the relative part passes the lexical gate and joins with its root to the cleaned path |
| FileRoots.ConfigureRoots | pkg/execd/proxy.go:42-53 | The root list is the workspace followed by the mounts in request order |
| FileRoots.ResolveRoot | pkg/initd/files.go:30-57 | The loop computes the best match over all roots, or refuses a relative path (by segments: PathLaws.ResolveBySegments) |
| PathLaws.ResolveBySegments | pkg/initd/files.go:30-57 | By segments: an absolute path goes to a root with the most names among those whose names it starts with, with its remaining names as the relative part; to none exactly if there is none; a relative path goes nowhere |
| PathLaws.ResolveIgnoresDetours | pkg/initd/files.go:34-34 | Going down a directory and up again on the way makes no difference |
| Paths.SubPathStaysInside | pkg/bwrap/validate.go:217-236 | An accepted subpath passes the lexical gate and joins to a path inside the cleaned volume root |
| Paths.AncestorsAreComparable | pkg/bwrap/validate.go:48-62 | Two paths containing a third overlap |
| Paths.AncestorIsShallower | pkg/bwrap/generate.go:159-170 | A proper ancestor has fewer slashes and is shorter |
| Paths.CleanIsIdempotent | pkg/bwrap/validate.go:32-46 | Cleaning a cleaned absolute path changes nothing |
| PathLaws.CleanOfChild | pkg/initd/files.go:34-34 | Cleaning appends a named segment to the cleaned path |
| PathLaws.CleanOfParent | pkg/initd/files.go:34-34 | A double dot takes the last name off, and stops at the root |
| PathLaws.CleanOfDetour | pkg/initd/files.go:34-34 | So down and up again is the cleaned path itself |
| PathLaws.CleanOfDot | pkg/initd/files.go:34-34 | Single dots and empty segments change nothing |
| PathLaws.CleanOfRoot | pkg/initd/files.go:34-34 | The root is its own parent |
| PathLaws.CleanOfRootParent | pkg/initd/files.go:34-34 | And so is whatever cleans to it |
| PathLaws.CleanOfRelative | pkg/bwrap/validate.go:217-236 | A relative path cleans to its steps joined, or a dot if there are none |
| PathLaws.StepsOfMore | pkg/bwrap/validate.go:217-236 | The same laws for relative paths, which keep the double dots that lead above their start |
| PathLaws.IsAbsCleanIff | pkg/bwrap/validate.go:32-46 | isAbsClean accepts exactly a slash and proper names joined by single slashes, without NUL |
| PathLaws.ContainsIff | pkg/bwrap/validate.go:48-62 | Containment of canonical paths is being a prefix segment by segment |
| PathLaws.RelativeFormIff | pkg/safepath/safepath.go:28-47 | validateSubPath and checkRel accept the same relative forms: empty, a dot, or proper names joined by single slashes, without NUL |
| PathLaws.LessAtDifference | pkg/bwrap/generate.go:159-170 | Paths are compared by their first differing byte |
| PathLaws.PrefixIsLess | pkg/bwrap/generate.go:159-170 | And a path comes before what continues it |
| Paths.SubPathIsRelative | pkg/safepath/safepath.go:28-47 | Every accepted subpath is accepted by the lexical gate before the filesystem walk |
| Bwrap.Validate | pkg/bwrap/validate.go:92-209 | Accepts exactly the admissible specifications, and otherwise names a field that is at fault |
| Admission.AcceptsIff | pkg/bwrap/validate.go:92-209 | By segments, for a canonically configured platform: accepted exactly if everything is put at canonical places clear of the platform's in both directions and above no system path, mount or workspace, from volumes that exist, with allowlisted system paths only, and within the limits of number and tier |
| Admission.FaultMeansRefusal | pkg/bwrap/validate.go:92-209 | A field named at fault is a reason to refuse |
| Admission.MountedByDepthThenName | pkg/bwrap/generate.go:159-170 | Mounts are applied by number of slashes, then by name |
| Admission.WorkspaceByDefault | pkg/bwrap/validate.go:82-90 | The workspace is the request's, or /workspace |
| Bwrap.CheckMounts | pkg/bwrap/validate.go:134-178 | The mount loop, with its set of targets seen, accepts exactly when every mount is admissible |
| Bwrap.CheckTarget | pkg/bwrap/validate.go:136-165 | One target is accepted exactly when it is clean, below the root, unseen, overlaps no protected path, and replaces neither a system path nor the workspace |
| Bwrap.CheckHide | pkg/bwrap/validate.go:180-209 | A hide is accepted exactly when it is clean, not the root, covers no mount, workspace or shared system path, and overlaps no protected path |
| Bwrap.OrderedIsSorted | pkg/bwrap/generate.go:159-170 | On distinct targets the mounting order is strictly sorted by depth, then name |
| Bwrap.OrderedKeepsAll | pkg/bwrap/generate.go:159-170 | The mounting order is a permutation of the request |
| Bwrap.SortedIsUnique | pkg/bwrap/generate.go:159-170 | There is only one sorted order, so the order of the request's mounts cannot show through the sort |
| CommandLine.ReadsBackAll | pkg/bwrap/generate.go:25-140 | Reading a rendered command line gives back its options, one for one and in order |
| Generate.BuildArgv | pkg/bwrap/generate.go:25-140 | Succeeds exactly on accepted specifications with all sources pinned; the result reads as platform, tenant and process options in that order; the refusal says which condition failed |
| Generate.ArgvReadsAsPlan | pkg/bwrap/generate.go:25-140 | The emitted strings, read by bubblewrap's option syntax, are the plan |
| Generate.EmitMounts | pkg/bwrap/generate.go:85-100 | The mount loop fails exactly on an unpinned source, and otherwise emits one bind per mount |
| Generate.EmitSystem | pkg/bwrap/generate.go:33-79 | The namespace, system path and skeleton part emits exactly the platform's options |
| Generate.EmitHides | pkg/bwrap/generate.go:102-110 | The hide loop emits one option per hidden path (what it hides: Confinement.HiddenPathsAreBlank) |
| Decimal.Itoa | pkg/bwrap/generate.go:172-192 | The 20-byte buffer never overflows and the text is the decimal one |
| Decimal.WriteDigits | pkg/bwrap/generate.go:180-186 | The backward digit loop leaves exactly the decimal digits at the end of the buffer |
| Decimal.ItoaRoundTrips | pkg/bwrap/generate.go:172-192 | Parsing undoes itoa exactly on integers other than the smallest |
| Decimal.AtoiReads | pkg/gateway/route.go:181-182 | Parsing takes a sign and leading zeros, and nothing but digits after that |
| Launch.BuildLaunch | pkg/execd/sandbox.go:111-148 | A launch succeeds exactly when the specification is accepted and, in the filesystem tier, its sources open and the filter can be made: it never fails for an unpinned source |
| Launch.PinSources | pkg/execd/sandbox.go:125-135 | Pinning succeeds exactly when every source opens, and records for each target its file's place |
| Launch.DescriptorsMatchSources | pkg/execd/sandbox.go:125-148 | At each mount's target the sandbox sees a bind whose descriptor text decodes to the file opened for that mount's volume and subpath |
| Launch.FilterHasItsOwnDescriptor | pkg/execd/sandbox.go:141-148 | The filter's descriptor is the last file and none of the mounts' |
| Launch.PinningKeepsAcceptance | pkg/execd/sandbox.go:122-139 | Pinning cannot change the second validation's verdict |
| Seccomp.CompiledMeansPolicy | pkg/isolation/filesystem_linux.go:33-63 | For every deny list and every system call the program ends in a return and returns the policy's verdict |
| Seccomp.WorkloadFilter | pkg/isolation/filesystem_linux.go:33-63 | The generator loop produces that program, of length 13 plus two per denied call |
| Seccomp.FilterFor | pkg/isolation/filesystem_linux.go:23-63 | A filter exists for exactly two architectures, and means the policy with the source's list of calls |
| Seccomp.OrdinaryCloneIsAllowed | pkg/isolation/filesystem_linux.go:54-63 | With that list, clone without a namespace flag is allowed and clone3 is answered with ENOSYS on both |
| Seccomp.NamespaceFlagsAreRefused | pkg/isolation/filesystem_linux.go:56-63 | A clone is refused exactly if it has one of the seven namespace flags, each by its own bit, and allowed exactly if none |
| Seccomp.JumpsStayInside | pkg/isolation/filesystem_linux.go:33-63 | Both targets of every jump are instructions of the program |
| Seccomp.PrologueRuns | pkg/isolation/filesystem_linux.go:33-45 | A wrong architecture or bit 30 is killed, anything else goes on with the call number loaded |
| Seccomp.DenyChain | pkg/isolation/filesystem_linux.go:46-55 | From any pair on, the chain decides membership in the rest of the list |
| Seccomp.CloneTail | pkg/isolation/filesystem_linux.go:56-63 | clone with a namespace flag is refused and everything else is allowed |
| Reaper.StartedProcessIsNeverLost | pkg/reaper/reaper.go:65-115 | Under every interleaving, a Wait for a started process finds its channel, which holds a status exactly when the process has exited, and then its own |
| Reaper.WaitIsOwnIff | pkg/reaper/reaper.go:68-104 | That holds in every run exactly when no status of an earlier process with that pid is pending; otherwise Wait returns that one |
| Reaper.StartedProcessIsNeverDropped | pkg/reaper/reaper.go:133-142 | The drop branch of deliver is never taken for a started process |
| Reaper.AdoptedProcessIsNeverLost | pkg/reaper/reaper.go:79-115 | A process adopted while it runs: its Wait finds the channel, which holds its own status exactly once it has exited |
| Reaper.AdoptedProcessIsNeverDropped | pkg/reaper/reaper.go:84-142 | And its status is never dropped |
| Reaper.AdoptIsIdempotent | pkg/reaper/reaper.go:84-93 | Adopting again, or what was started or has exited, changes nothing |
| Reaper.FullChannelKeepsItsStatus | pkg/reaper/reaper.go:136-141 | A status in a channel is not overwritten by any delivery |
| Reaper.TakenOnce | pkg/reaper/reaper.go:109-109 | A status is taken from its channel once, and from no other |
| Reaper.FinishedWaitForgets | pkg/reaper/reaper.go:104-115 | A finished Wait leaves no trace of the pid and touches no other |
| Reaper.ClaimedStatusIsForgotten | pkg/reaper/reaper.go:96-103 | Nor does one that found its status pending |
| Reaper.AlwaysValid | pkg/reaper/reaper.go:84-167 | Every run keeps pending and order a duplicate-free queue of at most 256 with equal key sets |
| Reaper.DeliverEnqueues | pkg/reaper/reaper.go:143-155 | An unclaimed delivery appends, evicting only the oldest when full; a repeated one replaces in place |
| Reaper.LookDequeues | pkg/reaper/reaper.go:96-115 | Claiming a pending status returns it and removes exactly its entry |
| Reaper.StatusSurvives | pkg/reaper/reaper.go:133-155 | A pending status stays, with its code, while fewer than 256 others are behind it |
| Reaper.EarlyStatusIsReturned | pkg/reaper/reaper.go:79-115 | A status that came before Adopt is what Wait returns after any run with at most 255 insertions |
| Reaper.BoundIsExact | pkg/reaper/reaper.go:32-41 | Among unclaimed arrivals the status is still held exactly when fewer than 256 came |
| Reaper.Reaper.DeliverStatus | pkg/reaper/reaper.go:133-155 | The method with its eviction loop is the delivery step |
| Reaper.Reaper.StartCmd | pkg/reaper/reaper.go:68-77 | From the start on, a status delivered for the pid goes to its waiter, and a Wait blocks for it exactly if none is pending; the queue stays valid |
| Reaper.Reaper.AdoptPid | pkg/reaper/reaper.go:84-93 | After Adopt of an unknown pid a Wait blocks on an empty channel that the next status goes to; nothing changes for a pid already waited for or exited |
| Reaper.Reaper.WaitDone | pkg/reaper/reaper.go:111-113 | After the second locked section no Wait blocks on the pid, and every other pid is answered as before |
| Reaper.Reaper.Forget | pkg/reaper/reaper.go:159-167 | The removal loop takes the pid out of both fields and leaves the rest in order |
| Reaper.Reaper.WaitLook | pkg/reaper/reaper.go:96-108 | The first locked section of Wait: a pending status, a channel to block on, or none |
| Pool.PassesConverge | pkg/controller/pool_controller.go:94-137 | With a fixed template and target, Pods aging but none claimed or expiring, passes reach exactly the target of current Pods and no stale, starting, stuck, too old or orphaned ones, once the surge has covered what was not current, and stay there |
| Pool.RoundsShrinkStale | pkg/controller/pool_controller.go:96-108 | After each round stale Pods have dropped by the surge, and from the second on exactly the target is warm |
| Pool.PassRespectsTarget | pkg/controller/pool_controller.go:121-137 | A pass never takes idle plus pending above the target or what it found, leaves at most the target idle, and retires at most the surge |
| Pool.TrimsOldestIff | pkg/controller/pool_controller.go:133-137 | No warm Pod is kept that is older than one trimmed, exactly when the list shows each of the first surplus warm Pods no younger than each later one |
| Pool.TrimCanSpareTheOldest | pkg/controller/pool_controller.go:133-137 | A snapshot in which the younger Pod goes and the older stays |
| Pool.SortedListTrimsOldest | pkg/controller/pool_controller.go:133-137 | A list sorted by age would make trimming oldest first |
| Pool.PassSparesTheLiving | pkg/controller/pool_controller.go:102-137 | A deleted Pod is from the snapshot, not deleting, draining or starting, and if bound then its Sandbox is gone |
| Pool.PassLeavesTheRest | pkg/controller/pool_controller.go:94-137 | What remains and what is deleted make up the snapshot, Pod for Pod |
| Pool.ClassesPartition | pkg/controller/pool_controller.go:158-231 | Each Pod is in exactly one class, as often as in the snapshot |
| Pool.ClassMeans | pkg/controller/pool_controller.go:158-231 | What each of the nine classes means in terms of deletion, label, Sandbox, phase, readiness, grace period, hash, idle TTL, tier label and probe |
| Pool.Classify | pkg/controller/pool_controller.go:158-231 | The loop's slices and counter are exactly the classes, in list order |
| Pool.SupplyPass | pkg/controller/pool_controller.go:94-137 | The loops of a pass delete exactly the doomed classes, the surge of stale and the surplus of idle Pods, and create what is missing until a create fails |
| Pool.RoundCounts | pkg/controller/pool_controller.go:94-137 | One round in numbers: warm, starting and stale Pods afterwards |
| Warmup.SupplyIsBoundedIff | pkg/apiserver/warmup.go:125-235 | In every run the pools that approvals wrote want together at most what was approved, exactly when each tenant's prior pool has a floor of at most one, or a ceiling of one with a floor of two or a budget of one |
| Warmup.ApprovalsStayWithinBudget | pkg/apiserver/warmup.go:125-195 | In every run, approved replicas sum to at most the budget, whatever the pools and however often a template is approved again |
| Warmup.NextKeepsBudget | pkg/apiserver/warmup.go:48-195 | Each request, rejection, refusal and approval keeps the approved sum in bounds |
| Warmup.NextKeepsSupply | pkg/apiserver/warmup.go:48-235 | And keeps each written pool at no more than it has been approved for |
| Warmup.UpsertWantsNoMore | pkg/apiserver/warmup.go:198-235 | Through every 32-bit conversion, one write makes a pool want at most what was approved exactly when its prior floor is not above it or its prior ceiling, tripled if too low, is not |
| Warmup.UpsertWantsExactly | pkg/apiserver/warmup.go:198-235 | In range, a new pool, or one whose floor is not above it, wants exactly what was approved, and keeps its floor and a sufficient ceiling |
| Warmup.ReviewGoesThroughIff | pkg/apiserver/warmup.go:125-195 | A review goes through exactly for a pending request and, to approve it, with budget, tenant and pool at hand |
| Warmup.ApprovalGrantsExactly | pkg/apiserver/warmup.go:149-195 | An approval grants the administrator's number, or else what was asked, to that request and its tenant's pool of that template, and touches no other |
| Warmup.RejectionGrantsNothing | pkg/apiserver/warmup.go:157-165 | A rejection grants nothing and touches no pool |
| Warmup.ImmodestPoolBreaksIt | pkg/controller/pool_controller.go:290-302 | For every other prior pool, one request and its approval make supply exceed what was approved |
| Warmup.Server.ReviewWarmup | pkg/apiserver/warmup.go:125-195 | The method's verdict and new state: not found, already reviewed, rejected, over budget, pool write failed, approved |
| Warmup.Server.RequestWarmup | pkg/apiserver/warmup.go:48-93 | A request stays within budget and grants nothing: only a review allocates |
| Warmup.Server.AllocatedNow | pkg/apiserver/memstore.go:237-251 | The loop sums the replicas of the approved requests |
| Warmup.Server.UpsertPool | pkg/apiserver/warmup.go:198-235 | The method's new state, in which a pool whose floor was not above the approval wants no more than it |
| Quota.LimitsHold | pkg/apiserver/quota.go:25-65 | In every run, a tenant's undeleted sandboxes stay within its concurrency limit, and its creates in every half-open minute within its rate limit |
| Quota.AnswerIff | pkg/apiserver/server.go:159-219 | How a create is answered, case by case: a used key first, then a positive limit that is reached, concurrency before rate, then the object |
| Quota.CreatedIsRecorded | pkg/apiserver/server.go:221-234 | A create leaves exactly its record and its key in the store |
| Quota.RunStaysWithinQuota | pkg/apiserver/server.go:159-234 | From any store within quota, every run of creates, deletes and marks stays within it |
| Quota.WindowPut | pkg/apiserver/memstore.go:103-113 | A record adds only to minutes that the check which let it through had counted |
| Quota.ClosedMinuteHoldsOneMore | pkg/apiserver/quota.go:49-63 | With both ends included, a minute can hold two creates at a limit of one |
| Quota.RunningCounts | pkg/apiserver/memstore.go:91-121 | The running count after any run is what it was, plus what was made, less what was marked deleted |
| Quota.DeletingFreesNothing | pkg/apiserver/server.go:356-379 | Without a mark, the running count grows by one for each sandbox made and deleting changes nothing |
| Quota.LimitIsForLife | pkg/apiserver/quota.go:34-47 | So the concurrency limit bounds how many sandboxes a tenant ever makes |
| Quota.KeyCreatesOnce | pkg/apiserver/server.go:159-179 | After a create with a key, every later one of that tenant and key is answered with that sandbox or a mismatch, by its checksum |
| Quota.ReplayIsTheFirst | pkg/apiserver/memstore.go:179-195 | A replay names the sandbox made earlier in the run for the same tenant, key and request, if no tenant id continues another with a slash |
| Quota.SlotsAreApart | pkg/apiserver/memstore.go:179-195 | Under that condition a slot determines its tenant and key |
| Quota.SlashFreeTenantsAreApart | pkg/apiserver/memstore.go:179-195 | Tenant ids without a slash meet it |
| Quota.ReplaysAreOwnIff | pkg/apiserver/memstore.go:179-195 | Whatever the quotas, every replay in every run of a set of tenants is one's own exactly when no tenant id continues another with a slash |
| Quota.NestedTenantsShare | pkg/apiserver/memstore.go:179-195 | Whenever one does, the shorter tenant can name a key that is answered with the longer one's sandbox |
| Quota.MemStore.CreateSandbox | pkg/apiserver/server.go:159-234 | The sequence idempotency, quota, object, record, key, with every way out, and the store it leaves |
| Quota.MemStore.CheckQuota | pkg/apiserver/quota.go:25-65 | Refuses exactly when a positive limit is reached, concurrency first; no quota row means no limit |
| Quota.MemStore.RecordSandbox | pkg/apiserver/memstore.go:115-121 | A new record raises its tenant's running count by one and no other's |
| Quota.MemStore.SaveIdempotency | pkg/apiserver/memstore.go:189-195 | Saving a key changes the answer for no other key of that tenant, and for no tenant whose id is not nested with it |
| Quota.MemStore.CountRunning | pkg/apiserver/memstore.go:91-101 | The loop counts the tenant's undeleted records |
| Quota.MemStore.CountCreatedSince | pkg/apiserver/memstore.go:103-113 | The loop counts the tenant's records later than an instant |
| Gateway.RouteSplitsPath | pkg/gateway/route.go:164-196 | For every accepted path, stripped prefix and raw rest concatenate to the escaped path, and the rest is the raw rest unescaped |
| Gateway.EndpointRoutesBack | pkg/gateway/route.go:157-204 | A `/v1/` path on a rendered endpoint comes back to that sandbox's data plane, untouched |
| Gateway.PortRoutesBack | pkg/gateway/route.go:157-204 | A rendered port URL comes back to that sandbox and port |
| Gateway.RoutesIff | pkg/gateway/route.go:164-196 | The grammar of routed paths: prefix, one segment for the sandbox, and a rest on the data plane or on a valid port, each path in one way |
| Gateway.PrefixIsTrimmed | pkg/gateway/route.go:157-162 | The prefix is the configured one with one slash in front and none behind, /s by default |
| Gateway.UnescapeUndoes | pkg/gateway/route.go:190-194 | Unescaping undoes percent-escaping of any byte string, whichever bytes were escaped |
| Gateway.MalformedIsRefused | pkg/gateway/route.go:190-193 | A per cent sign without two hexadecimal digits is refused |
| Gateway.RouteRequest | pkg/gateway/route.go:164-196 | The step-by-step route is the one the theorems speak of, and loses nothing of the path |
| Gateway.CutPastes | pkg/gateway/route.go:236-245 | A cut path is a slash, a slash-free segment and a rest that is empty or starts with a slash |
| Gateway.ReadHost | pkg/gateway/route.go:256-284 | Whatever the Host header, an accepted one leads to a known sandbox, by a dot-free id, on the data plane or on a valid port |
| Gateway.CaseIsIgnored | pkg/gateway/route.go:256-262 | The case of the header and of the domain does not matter |
| Gateway.LeadingDotIsIgnored | pkg/gateway/route.go:261-262 | Nor a dot in front of the domain |
| Gateway.PortAndDotAreIgnored | pkg/gateway/route.go:257-260 | Nor a port or a trailing dot in the header |
| Gateway.LabelComesBack | pkg/gateway/route.go:256-269 | The label of a rendered hostname is found again exactly when the configured domain is not empty, has no colon and no trailing dot |
| Gateway.PortHostRoutesBack | pkg/gateway/route.go:132-145 | A rendered port hostname comes back to that sandbox and port exactly under such a domain |
| Gateway.EndpointHostRoutesBack | pkg/gateway/route.go:256-284 | A rendered endpoint hostname comes back to the sandbox's data plane exactly when also its id does not split as an existing id, a hyphen and a valid port |

## Left out

- HTTP handlers, JSON, WebSocket and PTY streaming, reverse proxying, header and cookie rewriting.
- The kernel and bubblewrap themselves: the model ends at the command line, the descriptors and the BPF instructions.
- The little-endian encoding of the BPF instructions into the sealed memfd.
- The chroot, namespace and filesystem probes and how a tier is measured; the pool takes the probe's answer as given.
- Process reaping itself (SIGCHLD, wait4) and the mapping of wait statuses to codes.
- `pkg/apiserver/pgstore.go`: SQL semantics; some of its upserts differ from the in-memory store's.
- Store failures in the API server: the in-memory store has none.
- Concurrent API server handlers, whose quota check and record are not atomic.
- The template controller and image admission: their verdicts depend on registry replies.
- Pod specifications, generated copy code, both SDKs and command-line flag wiring: only easy members.
- TTL arithmetic and keepalive: an expiry is a step that may happen at any moment while a daemon is bound.
- That a client going away cancels part of a bind in progress; a call left behind may get any distance.
- Liveness: readiness waits, poll intervals, requeue delays and grace periods.
- API keys, tokens, checksums and random ids are opaque; freshness is assumed where it is needed.
- `ChainRouter`: the first router that accepts; it adds nothing to its parts.
- Gateway.Lower: strings.ToLower on ASCII letters only; ids with other letters are not modelled.
- Gateway.EndpointHost: the hostname alone; the scheme in front and the slash after it do not reach the parser.
- Launch.PinSources: which volume directories open is a parameter; the openat2 walk is not modelled.
