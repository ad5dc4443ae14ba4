# Run controllers and their evidence: a Dafny model

The repository's run controllers create things in a world they do not control (machines at a cloud
provider, process groups, API keys, files) and must say truthfully what they own and what they left
behind, whichever call fails. This project models them in Dafny and proves what holds on every run.

Each outside world is a small state with an adversary: a finite script says how each call goes. A call
may work, fail, fail after taking effect, or be interrupted; when the script is used up every further call
fails or is interrupted. Clocks only move forward. The outside world keeps the log of what it was asked, so that
a claim about a call is about a call that was made, and its outcome is the script's.
Code that changes state is a class with methods, loops included; each method is proved against its
specification, and the claims about whole runs are about those specifications.

| module | what it models |
|---|---|
| `BoundedReader` | two threads draining a child's output under one lock and one byte budget, as a state machine over all interleavings |
| `FlyJournal`, `FlyProvider`, `FlyHistory`, `FlyCleanup`, `FlyProvision` | the Fly run: the journal's writer and reader, what a history shows, the reconciliation loop, the controller's cleanup, provisioning with its outer trap |
| `GcpPlans`, `GcpProvider` | the create and delete lists of the three GCP plans, dependencies included, and one cleanup pass |
| `CacheLifecycle` | the image-cache lifecycle |
| `RouteSamples`, `RouteMonitor`, `Secrets`, `LocalSecret`, `RouteCredential`, `RouteLifecycle` | the public-route lifecycle: sample chain, monitoring, credential buffers, the private credential file, what is left of a credential by the calls made, fifteen stages and their `finally` |
| `RouteHost`, `ImagePull` | the route host's actions over its private record and Docker, and its image-pull loop |
| `Ledger`, `LedgerText` | the spend ceiling as a protocol, and the ledger as text |
| `CostBound` | the cost estimates against the machines the plans start |
| `Download` | the all-or-nothing download and commit without replacing |
| `LinkTargets`, `TarArchive`, `PackageInstall` | lexical link targets, the archive writer and verifier, the three-pass installation and what the file system makes of links |
| `UnitOwner` | ownership of systemd units by their cgroups |
| `TemporaryKey` | a temporary API key with lost and late replies |
| `SnapshotWalk` | the explicit-stack tree walk and the layout check |
| `GpuAttribution` | GPU bytes per process, per route and in all |
| `Environment` | the runner's environment file |
| `Prelude`, `Sorting`, `Text` | options and results, sorting, the string operations |

`dafny verify dfyconfig.toml` checks the whole project.

## Where the code does less than it is meant to

Each of these is a lemma or a postcondition; the model keeps the code as it is.

- `load_state(require_ready=True)` accepts a journal whose one bootstrap is not the resource `bootstrap-a`,
  and then `_topology` has no route to build (`FlyProvision.TopologyNeedsBootstrapA`, `MisboundReadyJournal`).
  It also accepts a schema version of `true` (`FlyJournal.BooleanSchemaVersionIsAccepted`).
- A clean-up of the public route cut short by an interrupt writes a report that says the registry
  credentials are removed, whatever is left (`RouteLifecycle.InterruptedCleanupOverclaims`, a whole run; when
  the claim is true is a postcondition of `Execute`).
  The host's `cleanup-registry` acknowledgement removes the Docker login and is taken for the uploaded file
  as well. A local file is left without its error getting out exactly when its removal did not happen and
  was interrupted, or the removal of the upload failed afterwards (`RouteLifecycle.Run.Execute`, and
  `HiddenFileOverclaims` for a whole run).
- The look that notices a changed route identity records the new one. The controller's start-up and restore
  loops discard a rejected sample and ask again, and the next sample finds nothing changed
  (`RouteHost.AcceptedLooksMean`, `IdentityForgotten`). A health action that fails after rewriting the
  record loses a change in the same way.
- A start loses its container exactly when `docker run` took effect and failed, or worked and the record was not
  rewritten (`RouteHost.Host.Start`); `cleanup` then reports no remaining route while the
  container runs on (`Host.Cleanup`, `Serve`; `LostContainer` is a concrete run).
- A link target is checked lexically: a link whose text walks through a directory that is not there passes
  the audit and dangles on disk (`PackageInstall.LinkLeadsExactly`, `LexicalIsNotPhysical`). When the last
  verification finds that out, the extracted tree stays (`PackageInstall.ExtractPackage`).
- The link pass makes no directory for a link, and the audit does not ask for one: an audited archive is installed by
  calls that all work exactly when no file or link stands where another member needs a directory and every link lies in
  a directory made for something else (`PackageInstall.ExtractPackage`, `Installer.Passes`; `AuditedIsNotInstallable` is
  a package that is not). An archive in which every member lies in a directory member, as the builder's walk makes
  them, can be installed (`CompleteIsInstallable`).
- A local credential file found in the way is refused and left alone by the function that refuses it, and
  then removed by its caller's clean-up: on every exit it is gone exactly when the unlink took effect
  (`LocalSecret.Workstation.Create`, `Upload`; `FoundFileIsRemoved` is a run from a workstation with such a file).
- A registry token of 3070 to 4095 bytes is read and can never be uploaded (`Secrets.UploadableExactly`): the
  upload refuses it before any call, and a run with one never gets past its registry stage
  (`RouteLifecycle.Run.Upload`, `Execute`).
- A purpose may contain line separators other than CR and LF; the row demanded for it makes the ledger
  unreadable (`LedgerText.RequiredRowRoundTrip`, `VerticalTabBreaksTheLedger`). The environment file has the same
  gap (`Environment.MergeReadsBack`, `EnvironmentFile.WriteBroken`, `VerticalTabBreaksTheFile`).
- A download that raises leaves its target in place exactly when the link took effect and then the link itself,
  or a call between it and the return of `_commit_no_replace`, was interrupted, or one of those calls failed and
  the handler's lstat did not work or its unlink did not take effect (`Download.LeftAfterRaising`, carried to
  every exit by `Download.Download`). Two whole runs from an empty directory get there with every removal that is
  tried working: an interrupted link, and a failed sync followed by a failed lstat (`TargetLeftBehind`).
- A failed image-cache run keeps the repository it made exactly when the delete command in the provider's log did
  not take effect, or an interrupt came before it (`CacheLifecycle.ExecuteCacheLifecycle`).
- A systemd unit that was launched but never adopted is nobody's to stop: a normal return of `stop_all` empties
  what was launched exactly when such units are empty (`UnitOwner.SystemdUnitOwner.StopAll`,
  `LaunchedButNotAdopted`).
- A create request that the key server carries out after the clean-up's first look leaves an active key; by the
  replies of any script, `TemporaryKey.Qualify` says exactly when the run leaves one (`LeavesNothing`), and
  `LateCreate` is a concrete run.
- A process with two lines in the GPU inventory counts only its last (`GpuAttribution.LinesAgainstTable`,
  `TwoLinesOfOneProcess`).
- Between two samples that name the primary, one that leaves it out breaks the comparison
  (`RouteSamples.PrimaryRestarts`).

## Model

| member | source | states |
|---|---|---|
| BoundedReader.RunKeepsInv | scripts/fly_qualification_adapter.py:597-656 | Every legal interleaving of the child, the two readers, their lock and the main thread keeps the invariant: each buffer is what its reader has read, cut at the budget |
| BoundedReader.BudgetAndExclusionInEveryRun | scripts/fly_qualification_adapter.py:604-618 | In every interleaving the two buffers together never exceed the limit plus one byte, and the readers are never both in the locked section |
| BoundedReader.NormalReturnIsComplete | scripts/fly_qualification_adapter.py:645-660 | When the call returns normally, both buffers are the child's complete streams: no truncation goes unreported |
| BoundedReader.OverflowIsReal | scripts/fly_qualification_adapter.py:611-618 | The overflow flag is raised only when the child really wrote more than the limit |
| BoundedReader.VerdictIsExact | scripts/fly_qualification_adapter.py:651-656 | With both readers joined in time and no reader error, the call returns normally exactly when the child wrote no more than the limit |
| BoundedReader.StepLowersRank | scripts/fly_qualification_adapter.py:599-618 | Once both pipes have ended, every further step lowers a rank |
| BoundedReader.RunsAreBounded | scripts/fly_qualification_adapter.py:599-644 | So every run from there has at most that many steps |
| BoundedReader.ReadersNeverDeadlock | scripts/fly_qualification_adapter.py:604-618 | An unfinished reader can move, or the other one, holding the lock, can |
| FlyJournal.LoadState | scripts/fly_qualification_adapter.py:303-373 | The reader's loop over the raw records, equal to its specification: the same acceptances and the same error in the same order, the TypeError of an unhashable status or role included |
| FlyJournal.RecordRoundTrip | scripts/fly_qualification_adapter.py:150-169 | A record written and read is the same record, exactly when it is valid |
| FlyJournal.RecordsRoundTrip | scripts/fly_qualification_adapter.py:316-347 | The same for the whole record list |
| FlyJournal.RepetitionCheckIsExact | scripts/fly_qualification_adapter.py:348-355 | The length-against-set check finds a repeated identity exactly when there is one |
| FlyJournal.WriterCarries | scripts/fly_qualification_adapter.py:183-191 | A document has the writer's fields for a state, and schema version 1, exactly when it is what the writer writes |
| FlyJournal.WrittenStateIsReadBack | scripts/fly_qualification_adapter.py:183-373 | What the writer writes, the reader accepts as the same state exactly when the state is valid and, where readiness is asked, binds its five resources |
| FlyJournal.AcceptedStateIsValid | scripts/fly_qualification_adapter.py:303-373 | Whatever the reader accepts is valid: labels, distinct identities, spans that match roles |
| FlyJournal.AcceptedJournalIsRewritten | scripts/fly_qualification_adapter.py:183-373 | An accepted document, written again, differs from itself at most in how its schema version is spelt |
| FlyJournal.BooleanSchemaVersionIsAccepted | scripts/fly_qualification_adapter.py:306-307 | Such a difference exists: a schema version of `true` is accepted as 1 |
| FlyProvider.EventsAreReplies | scripts/fly_qualification_adapter.py:426-458 | Nothing is seen or done but by a request in the log and the reply at its place in the script |
| FlyProvider.FlyAPI.GetMachine | scripts/fly_qualification_adapter.py:516-523 | The result, and what is seen, are the reply to the one request, which names the machine |
| FlyProvider.FlyAPI.ListRunMachines | scripts/fly_qualification_adapter.py:467-472 | The result, and the scan that is seen, are the provider's listing for this run, taken exactly when it has at most 64 machines |
| FlyProvider.FlyAPI.DestroyMachine | scripts/fly_qualification_adapter.py:563-569 | DELETE, then only waits for this machine to be gone: done exactly when the DELETE and the last wait were answered so; a failure has one of the two unanswered or the time run out |
| FlyProvider.FlyAPI.WaitState | scripts/fly_qualification_adapter.py:481-514 | The wait asks again exactly while the provider's own wait times out, ends, returns only on an answer asked for before its deadline, and gives up only at the deadline or on another reply |
| FlyProvider.FlyAPI.ReadPeerId | scripts/fly_qualification_adapter.py:719-753 | Asks this machine until it shows a valid PeerID, which is the one returned; gives up only at the deadline or when interrupted |
| FlyHistory.CleanSuffixGrows | scripts/fly_qualification_adapter.py:917-920 | One more scan either extends the clean suffix of the scan history by one or resets it |
| FlyHistory.CleanSuffixMeansClean | scripts/fly_qualification_adapter.py:899-922 | A clean suffix of length n means the last n scans showed nothing alive |
| FlyHistory.TrackedKeepsAll | scripts/fly_qualification_adapter.py:853 | With distinct provider machines the tracking dictionary forgets no record |
| FlyHistory.DestructionLogged | scripts/fly_qualification_adapter.py:871-889 | A confirmed destruction comes after the machine was seen alive under exactly its binding |
| FlyCleanup.Reconciliation.NoteBinding | scripts/fly_qualification_adapter.py:867-882 | The bookkeeping of one machine: pending shrinks exactly on the exact binding, an error is noted exactly on a bad one |
| FlyCleanup.Reconciliation.DestroyObserved | scripts/fly_qualification_adapter.py:863-890 | A machine is sent a DELETE exactly when it is alive and the run-tag query returned it or its metadata carries the run; the bookkeeping changes exactly as its binding says |
| FlyCleanup.Reconciliation.ResolveTracked | scripts/fly_qualification_adapter.py:892-897 | Every journaled machine is looked at directly, in order of its name, and acted on |
| FlyHistory.ObservationSettled | scripts/fly_qualification_adapter.py:863-920 | After each observation that was acted on: there are binding errors exactly when some machine was shown alive under a binding it should not have, what is pending was never seen bound, and whatever a scan showed alive is removed |
| FlyCleanup.Reconciliation.ScanOnce | scripts/fly_qualification_adapter.py:901-920 | One scan: everything the provider's listing shows alive is destroyed after it, and the counter is the clean suffix of the scans so far |
| FlyCleanup.Reconciliation.ScanUntilStable | scripts/fly_qualification_adapter.py:899-926 | The loop ends normally only with three clean scans in a row |
| FlyCleanup.Reconciliation.Conclude | scripts/fly_qualification_adapter.py:928-932 | After the last scan: a bad binding was shown exactly when that error is raised, and a tracked machine was never seen bound when the other one is |
| FlyCleanup.Reconciliation.Run | scripts/fly_qualification_adapter.py:845-932 | A normal return: three clean answers, nothing remaining, everything an answer showed alive destroyed after it, every tracked machine looked at, seen under its exact binding and destroyed, nothing seen alive under another binding |
| FlyCleanup.CleanupRun | scripts/fly_qualification_adapter.py:845-932 | The same for its callers, of the provider's replies; on every exit every destroy call was entitled; and each error says what was seen: nothing stable in time, a bad binding, a machine never seen, or the reply the run could not go on with |
| FlyCleanup.TrackedResourcesAreAll | scripts/fly_qualification_adapter.py:853-873 | The resources of the tracked machines are those of all records |
| FlyCleanup.ControlCleanup | scripts/fly_qualification_adapter.py:1187-1208 | For every journal, provider and clock, control's last check never fires; what it writes is the same state marked cleaned, which the reader accepts |
| FlyProvision.AddressIsRead | scripts/fly_qualification_adapter.py:1055 | The bootstrap's address reads back as the private address, the port and the PeerID it was made of |
| FlyProvision.Provisioning.CreateNext | scripts/fly_qualification_adapter.py:1068-1097 | The next place of the layout is ordered, made, awaited and identified under its own machine, recorded without a repeated machine or PeerID, and journaled; or how far the log went says why not |
| FlyProvision.OneMoreAccounted | scripts/fly_qualification_adapter.py:1068-1097 | One more record with the log of its creation keeps the account: only the first record may come with a new address |
| FlyProvision.Provisioning.Attempt | scripts/fly_qualification_adapter.py:1041-1108 | The guarded part: each record has its order, machine, start and PeerID in the log, in order; it returns only with a ready state its own reader accepts and with both plan files written |
| FlyProvision.Provision | scripts/fly_qualification_adapter.py:1015-1130 | Refuses exactly unless the arguments serve and the run-tag answer shows nothing alive. After that: record i has the machine and PeerID of the i-th replies, each after an answered wait; the workers are told the first machine's own address, the run's port and its PeerID; each record is journaled before the next order. It ends ready with a file read back as the same five records, or re-raises with the cleanup proved and written, or says that cleanup is unproved, and why |
| FlyProvision.Provisioning.Guarded | scripts/fly_qualification_adapter.py:1041-1130 | The try and its outer trap: of the machines asked for, at most the last is missing from the records handed to the cleanup, and the cleanup is always tried after a failure |
| FlyProvision.WriterIsInjective | scripts/fly_qualification_adapter.py:183-191 | A journal has only one reading |
| FlyProvision.SplitTiles | scripts/fly_qualification_adapter.py:1029-1037 | For every model of at least two blocks, both routes cover each block exactly once |
| FlyProvision.LaidOutStateHasTopology | scripts/fly_qualification_adapter.py:935-962 | A fully laid out state has a topology whose routes tile the model |
| FlyProvision.TopologyNeedsBootstrapA | scripts/fly_qualification_adapter.py:935-962 | For a state the reader accepts as ready, the topology can be built exactly when its bootstrap is the resource bootstrap-a |
| FlyProvision.MisboundReadyJournal | scripts/fly_qualification_adapter.py:362-372 | The reader does not check that: a concrete journal is accepted as ready and has no topology |
| GcpPlans.OrderedDeletesSucceed | scripts/qualification_cost_guard.py:996-1022 | An ordered delete list, against a provider that refuses to delete what is in use, removes everything it names |
| GcpPlans.RecoveryFromAnyPrefix | scripts/qualification_cost_guard.py:870-1098 | From any prefix of a create list, each command possibly refused, an ordered cleanup list naming what the creates make restores the provider exactly |
| GcpPlans.DeletesTouchOnlyTheirs | scripts/qualification_cost_guard.py:996-1022 | Whichever deletes fail, nothing outside their names is removed |
| GcpPlans.CreatesAddOnlyTheirs | scripts/qualification_cost_guard.py:870-980 | Creates add only their own resources and dependencies |
| GcpPlans.RoutePlanRecovers | scripts/qualification_cost_guard.py:870-1098 | The public-route cleanup list is ordered, names exactly what the creates make, and the six absence checks ask about exactly those |
| GcpPlans.RouteRunRecovers | scripts/qualification_cost_guard.py:861-1098 | The route plan of any run restores the provider from any prefix |
| GcpPlans.CachePlanRecovers | scripts/qualification_cost_guard.py:431-660 | The builder cleanup removes everything but the repository; with the repository's deletion, everything |
| GcpPlans.CacheRunRecovers | scripts/qualification_cost_guard.py:401-776 | The cache plan of any run restores the provider from any prefix |
| GcpPlans.BuilderIsChecked | scripts/qualification_cost_guard.py:622-700 | The six absence checks ask about the whole builder but its reader binding |
| GcpPlans.FleetPlanRecovers | scripts/qualification_cost_guard.py:1328-1860 | For any number of regional networks, the phase's cleanup followed by the fleet's recovers from any prefix of the fleet's creates and the phase's |
| GcpPlans.FleetRunRecovers | scripts/qualification_cost_guard.py:1295-1860 | The same for the plan as named, with one region or two |
| GcpPlans.FleetRegionsAreDistinct | scripts/qualification_cost_guard.py:1302-1326 | The primary and fallback networks share no resource, whatever the run is called |
| GcpPlans.BuildFleetPlan | scripts/qualification_cost_guard.py:1328-1716 | The list-building loops build exactly the lists proved to recover |
| GcpProvider.CleanupAndCheck | scripts/gcp_public_route_lifecycle.py:1781-1797 | One cleanup pass: its deletes and then its listings are given in order, all of them or up to one that is interrupted; nothing outside the list goes; deletes of an ordered list that work are all counted, and then the provider is as the list leaves it; an absence is claimed exactly when its listing worked and the resource is not there |
| CacheLifecycle.CacheRun.Preflight | scripts/gcp_public_route_cache_lifecycle.py:607-636 | Before anything is created: the run goes on only when none of the plan's resources exists |
| CacheLifecycle.CacheRun.Cleanup | scripts/gcp_public_route_cache_lifecycle.py:571-586 | The builder cleanup never removes the repository; its commands are given in order, and when its deletes work all six are counted |
| CacheLifecycle.CacheRun.Attempt | scripts/gcp_public_route_cache_lifecycle.py:607-675 | The guarded part passes only once every question of the preflight, the warming and the verification was answered in order, with the builder proved absent, the policy empty, four digests and the protected instance running; and it does pass when its forty-two commands work, its fourteen answers are yes and nothing of the plan was there |
| CacheLifecycle.CacheRun.Finally | scripts/gcp_public_route_cache_lifecycle.py:676-692 | The log goes on with the builder's cleanup unless it was proved absent, after a failure the repository's delete and listing, and the last question, in order or up to an interrupt; an absence is never claimed untested |
| CacheLifecycle.CacheRun.WorkingEndRestores | scripts/gcp_public_route_cache_lifecycle.py:676-692 | When the commands after a failure work, nothing of the plan is left |
| CacheLifecycle.ExecuteCacheLifecycle | scripts/gcp_public_route_cache_lifecycle.py:589-731 | On every exit nothing that was there is deleted, the log ends with the commands of the finally block, and after a creation was begun the repository is there exactly when its create command in the log took effect and its delete command did not; a failed run whose last commands work leaves the provider as it was; a passed run leaves the repository and nothing else; a pass means that all its questions were answered, in order, and where nothing of the plan was, commands that work and answers that are yes make one |
| RouteSamples.JudgeExtendsChain | scripts/gcp_public_route_lifecycle.py:1743-1778 | An accepted sample extends the chain of the run; a required primary is in it |
| RouteSamples.HealthExactly | scripts/gcp_public_route_lifecycle.py:979-1031 | A worker's document is taken exactly when it is its own, healthy, at most 330 seconds old and at most five ahead, has six counters in range, and is later than the last one with no counter gone back |
| RouteSamples.ResourcesExactly | scripts/gcp_public_route_lifecycle.py:1034-1082 | Resources are taken exactly when all seven metrics are there and within their ceilings, nothing is unattributed, and no container was restarted |
| RouteSamples.JudgeExactly | scripts/gcp_public_route_lifecycle.py:1743-1778 | A reply is accepted exactly when it is well formed, has the standby and any required primary, each believable, with identities continuous and resources within limits; the sample is what the reply says |
| RouteSamples.StretchAdvances | scripts/gcp_public_route_lifecycle.py:1022-1030 | Over any stretch of samples naming a worker its timestamps strictly increase and no counter decreases, between any two |
| RouteSamples.StandbyAdvances | scripts/gcp_public_route_lifecycle.py:1022-1030 | For the standby the stretch is the whole run |
| RouteSamples.PrimaryRestarts | scripts/gcp_public_route_lifecycle.py:1760-1772 | For the primary it is not: a concrete run of three accepted replies, the second without the primary, after which its counters have fallen |
| RouteSamples.PeakIsMaximum | scripts/gcp_public_route_lifecycle.py:1967-1968 | The fold by which maxima are specified is the greatest observed value |
| RouteSamples.RaiseMaxima | scripts/gcp_public_route_lifecycle.py:1967-1968 | The loop over one sample's metrics raises exactly those that are higher |
| RouteSamples.RaisedIsObserved | scripts/gcp_public_route_lifecycle.py:1967-1968 | The raised maxima are those of the longer run |
| RouteSamples.MaximaWithinCeilings | scripts/gcp_public_route_lifecycle.py:1070-1081 | Whatever a report gives as a maximum is within its ceiling |
| RouteSamples.SampleLog.Take | scripts/gcp_public_route_lifecycle.py:1955-1968 | Each asking takes the reply at its place, and keeps it exactly when it is acceptable after the last one kept; over a whole run every sample is that of an acceptable reply, in order; count, maxima and last sample are those of the samples kept |
| Secrets.StrictVisibleLine | scripts/gcp_public_route_lifecycle.py:584-602 | The line is accepted exactly when it is one visible nonempty line within the limit; the input buffer is wiped either way, a rejected copy too |
| Secrets.Base64 | scripts/gcp_public_route_lifecycle.py:1870 | The encoded form has four visible bytes for every three begun |
| Secrets.DecodeOfBase64 | scripts/gcp_public_route_lifecycle.py:523-528 | Decoding inverts encoding, for every sequence of bytes |
| Secrets.CanonicalExactly | scripts/gcp_public_route_lifecycle.py:523-528 | The uploader's check, decode and encode again, accepts exactly the encodings of nonempty byte sequences |
| Secrets.Acceptable | scripts/gcp_public_route_lifecycle.py:501-533 | The checks accept exactly one visible line within the limit that is such an encoding |
| Secrets.UploadableExactly | scripts/gcp_public_route_lifecycle.py:496-533 | A token the reader accepts reaches the host exactly when it has at most 3069 bytes: the uploader applies the token's limit to its encoded form |
| RouteLifecycle.Run.Preflight | scripts/gcp_public_route_lifecycle.py:1251-1331 | Ends normally only when none of the plan's six resources exists |
| RouteLifecycle.Run.ReadToken | scripts/gcp_public_route_lifecycle.py:1334-1351 | Of the mutable buffers, only the encoded line still holds the credential |
| RouteLifecycle.Run.Create | scripts/gcp_public_route_lifecycle.py:1876-1889 | Creation stays inside the plan's names; the stage is marked only at its end |
| RouteLifecycle.StagesMean | scripts/gcp_public_route_lifecycle.py:1816-1832 | Marked stages are in order, and each stands for its steps, asked and answered in order before the next |
| RouteLifecycle.Run.Upload | scripts/gcp_public_route_lifecycle.py:496-581 | An unacceptable secret is refused before any call; the buffer is wiped on every way out; a local file remains exactly when one was written and its removal did not happen, and which error is raised follows from the calls |
| RouteLifecycle.Run.SendCredential | scripts/gcp_public_route_lifecycle.py:1921-1932 | Returns only with an uploadable token, its encoded line wiped, and no file or login of it left |
| RouteLifecycle.Run.Consume | scripts/gcp_public_route_host.py:1220-1238 | The host action that reads the uploaded file removes it first, and a failure after that may leave a login |
| RouteLifecycle.Run.SecretAction | scripts/gcp_public_route_lifecycle.py:1617-1696 | In the log: the preparation, the calls of the transfer in order, and the removal of the upload whatever became of them; the payload is wiped, and a normal return leaves no local file, no uploaded file and no login; after an error, what is left is what the calls say, and the error of the local removal got out exactly when it was raised and the upload's removal was acknowledged |
| RouteLifecycle.Run.AwaitHost | scripts/gcp_public_route_lifecycle.py:1706-1740 | The preflight retry loop ends, swallows only the plain action failure and no interrupt |
| RouteLifecycle.Run.AwaitSample | scripts/gcp_public_route_lifecycle.py:1953-1973 | The retry loop ends, accepts at most one sample, naming the primary, swallows only the module's own errors, and raises one of those only at its deadline |
| RouteLifecycle.Run.FallBack | scripts/gcp_public_route_lifecycle.py:1990-2007 | In the log: the primary stopped, 35 seconds slept, one sample without the primary, and automatic selection naming the standby |
| RouteLifecycle.Run.Monitor | scripts/gcp_public_route_lifecycle.py:2038-2052 | The stage is marked only after it was watched: the clock was read right after the last probe, and passes of a sleep and an accepted sample follow until it shows the monitoring time or more |
| RouteMonitor.OneMorePass | scripts/gcp_public_route_lifecycle.py:2040-2052 | Two readings, an uninterrupted sleep of the period or what is left, and a look that worked make one more pass |
| RouteMonitor.WatchedAtLeastOnce | scripts/gcp_public_route_lifecycle.py:2039-2052 | If the clock, read again, was before the deadline, at least one sample belongs to the monitoring |
| RouteLifecycle.Run.Attempt | scripts/gcp_public_route_lifecycle.py:1866-2054 | The try block: stages reached in order, everything created inside the plan, every credential accounted for; past the registry stage only with a token that can be uploaded |
| RouteLifecycle.Run.CleanHost | scripts/gcp_public_route_lifecycle.py:2066-2079 | The three host actions are given in order, each one's Exception ignored; cleanup-registry and cleanup each remove the login, by the outcomes of their commands, and only the first one's acknowledgement is noted |
| RouteLifecycle.Run.CleanProvider | scripts/gcp_public_route_lifecycle.py:2080-2086 | The log goes on with the five deletes, the six listings and the question about the protected instance, in order or up to an interrupt; all six absent, or all five deletes counted, means the provider is as it was |
| RouteLifecycle.Run.WorkingCleanupRestores | scripts/gcp_public_route_lifecycle.py:1781-2097 | When the five deletes and the six listings of a clean-up work, the six absences are proved and the provider is as it was before the run |
| RouteLifecycle.Run.Conclude | scripts/gcp_public_route_lifecycle.py:2087-2097 | The cleanup flag is what is known of credentials, absences and the protected instance |
| RouteLifecycle.Run.Settle | scripts/gcp_public_route_lifecycle.py:2063-2097 | What the credential claim amounts to, by the calls of the run: always made after an interrupted clean-up; otherwise made exactly if no error of the local removal got out and the clean-up knows of the instance; and true exactly when the local file was removed and the instance is gone or rid of upload and login |
| RouteLifecycle.Run.Finally | scripts/gcp_public_route_lifecycle.py:2063-2101 | Whenever creation was begun the log goes on with the fifteen commands of the clean-up, in order or up to an interrupt of one; passed survives only with the cleanup flag |
| RouteLifecycle.Run.Execute | scripts/gcp_public_route_lifecycle.py:1800-2139 | On every exit: stages in order, each with its steps answered in order; a passed run was watched for its time, every pass with an accepted sample, every sample but the fallback's naming the primary; passed exactly when all fifteen are true, which forces six proved absences and the protected instance; nothing present before is deleted; once creation was begun the log ends with the commands of the clean-up, all fifteen or up to an interrupt of one, and when its deletes and listings work the absences are proved and the provider is as it was; every mutable credential buffer is zero; a token too long to be uploaded never gets past the registry stage; count and maxima are those of the accepted samples; when the credential claim is made, when it is true, and when a local file is left without its error getting out, each exactly, by the outcomes of the calls; a run that ends between its registry stage and its clean-up has a reason in the logs: a command that did not work, an answer that was not yes, a reply that was not kept, or a start-up that came to its time limit |
| RouteLifecycle.InterruptedCleanupOverclaims | scripts/gcp_public_route_lifecycle.py:1848-2103 | A whole run, from an empty provider: everything works up to the action that reads the uploaded credential, that and the upload's removal fail, the clean-up is interrupted; the report says the credential is removed and it is on the running instance |
| RouteLifecycle.HiddenFileOverclaims | scripts/gcp_public_route_lifecycle.py:1684-2103 | A whole run whose clean-up works: the local file's removal fails, its error is replaced by that of the upload's removal, and the report says the credentials are removed while the local file is there |
| RouteLifecycle.PlanCleanupRestores | scripts/qualification_cost_guard.py:996-1022 | From any state a run can leave, the whole cleanup list restores the provider |
| LocalSecret.Workstation.Fill | scripts/gcp_public_route_lifecycle.py:457-489 | However the writes are split, a normal return means the file holds exactly the secret |
| LocalSecret.Workstation.Create | scripts/gcp_public_route_lifecycle.py:446-493 | The file holds exactly the secret, or the attempt is removed again and an error of the removal takes the place of the first; it returns exactly when all its calls go well; on every exit a file is there exactly when one was found or opened and no unlink took effect, by the calls made; something that was there is refused |
| LocalSecret.Workstation.Overwrite | scripts/gcp_public_route_lifecycle.py:404-419 | However the writes are split, the file is at every moment the old one with a stretch of zeros at its front, and in the end all zeros |
| LocalSecret.Workstation.Remove | scripts/gcp_public_route_lifecycle.py:395-443 | It returns exactly when its calls go well, otherwise the last of them failed; a normal return means nothing is left; on every exit the file is gone exactly when its unlink took effect, and the directory when its removal did; no file is unlinked before every byte of it is overwritten |
| LocalSecret.Workstation.Upload | scripts/gcp_public_route_lifecycle.py:496-581 | An unacceptable secret is refused before any call; it returns exactly when nothing is in the way and all calls go well; on every exit the buffer is zero, the last removal was made, and a file is left exactly when one was found or made and neither removal's unlink took effect, by the calls made; the copy command finds exactly the secret or is not run |
| LocalSecret.FoundFileIsRemoved | scripts/gcp_public_route_lifecycle.py:446-581 | A run from a workstation with any file in the way: the upload is refused, nothing is copied, and the file is gone |
| RouteHost.ContinuityExactly | scripts/gcp_public_route_host.py:929-943 | Comparing each look with the recorded fingerprint finds every look continuous exactly when the identity never changed |
| RouteHost.AcceptedLooksMean | scripts/gcp_public_route_lifecycle.py:1953-1973 | If the controller accepts only continuous looks, the identity was constant exactly when no look it rejected or never received was a change |
| RouteHost.AskingAgainForgets | scripts/gcp_public_route_host.py:929-943 | The look that notices a change records the new identity, so asking again finds nothing changed |
| RouteHost.IdentityForgotten | scripts/gcp_public_route_host.py:727-947 | The same from an empty host: two starts, a first look, a look that notices the change, a look that does not |
| RouteHost.Host.Start | scripts/gcp_public_route_host.py:727-808 | A start returns exactly when docker run and the write of the record work; its container is made exactly when docker run took effect, and lost exactly when it then was not recorded |
| RouteHost.Host.Health | scripts/gcp_public_route_host.py:920-947 | Only the running routes are looked at, and each flag compares with all looks before; it returns exactly when every command works and each running route answers; a look can be recorded and never reported |
| RouteHost.Host.SetPrimaryRunning | scripts/gcp_public_route_host.py:950-964 | The record follows Docker, never the other way; it returns exactly when its commands work and the primary is recorded and there, and then both agree |
| RouteHost.Host.Probe | scripts/gcp_public_route_host.py:967-1042 | Automatic selection answers with the primary exactly while it is recorded as running; there is an answer exactly when the commands work and a candidate is available |
| RouteHost.Host.StopAll | scripts/gcp_public_route_host.py:1045-1058 | It returns exactly when its commands work and every running container is there, and then every route recorded as running was stopped and is recorded so |
| RouteHost.Host.Cleanup | scripts/gcp_public_route_host.py:1061-1079 | Only recorded containers are removed; it returns exactly when every command worked, and then there is no record, and no container but the lost ones |
| RouteHost.Serve | scripts/gcp_public_route_host.py:1082-1176 | For any actions, any of them failing anywhere: while all return the record is true of Docker; what is lost is what some start lost by its two commands, so a cleanup that returns leaves no container exactly when no start lost one |
| RouteHost.FallBackAndRestore | scripts/gcp_public_route_lifecycle.py:1988-2034 | After a stop that returned automatic selection can only answer standby, after a restore that returned only primary |
| RouteHost.LostContainer | scripts/gcp_public_route_host.py:758-800 | A concrete start that fails after docker run took effect: the cleanup reports no remaining route and the container is there |
| ImagePull.Puller.PullImmutableImage | scripts/gcp_public_route_host.py:174-207 | At most five pulls, each begun with a second left and ending less than a second late; it returns exactly when the last one worked and gives up only when attempts or time run out |
| ImagePull.AttemptsAreSpaced | scripts/gcp_public_route_host.py:186-194 | The attempts are at least the listed delays apart |
| Ledger.AuthorizedExactly | scripts/qualification_cost_guard.py:2156-2182 | Provisioning is authorized exactly when the one row of the run is its planned, matching row and the whole ledger is within the ceiling, however its rows got there |
| Ledger.GivenExactly | scripts/qualification_cost_guard.py:2156-2203 | An authorization is given exactly when the run has no row, or only the planned one of this request, and the other runs leave room for it; its figures are what the other runs commit and leave |
| Ledger.CommittedMeans | scripts/qualification_cost_guard.py:117-125 | An open row commits the larger of its maximum and what it has cost; a cleaned or cancelled one its cost; a released one nothing |
| Ledger.RaceIsCaught | scripts/qualification_cost_guard.py:2156-2182 | Two reservations made on one snapshot that together break the ceiling leave nothing authorized |
| Ledger.AskingAgain | scripts/qualification_cost_guard.py:2176-2203 | With the demanded row added the same request gets the same report, with the two flags set |
| Ledger.CeilingHolds | scripts/qualification_cost_guard.py:117-125 | No sequence of reserving, progressing, closing, cancelling and releasing takes the committed sum over the ceiling or enters a run twice |
| Ledger.OverrunExactly | scripts/qualification_cost_guard.py:117-125 | A cost above its maximum keeps the ceiling exactly when the ledger has room for the excess |
| Ledger.TotalOfUpdate | scripts/qualification_cost_guard.py:2159 | Changing one row changes the sum by that row's difference |
| LedgerText.ParseSpendLedger | scripts/qualification_cost_guard.py:147-227 | The flag-driven line loop, equal to its specification, errors included |
| LedgerText.UsdExactly | scripts/qualification_cost_guard.py:128-144 | A text is read as an amount exactly when it spells it: whole dollars, with no cents, tenths or cents |
| LedgerText.RowExactly | scripts/qualification_cost_guard.py:178-220 | A row is read as an entry exactly when its seven columns say that entry, maximum and observed cost each in its own, and the entry is a valid one |
| LedgerText.EntryRowAdds | scripts/qualification_cost_guard.py:159-220 | The printed row of any valid entry, in any state, with or without an observed cost, adds exactly that entry |
| LedgerText.TableRoundTrip | scripts/qualification_cost_guard.py:147-227 | Any list of valid entries, printed into a table with amounts in two decimals or as few as they need, parses to what was there and that list, unless a run is entered twice |
| LedgerText.UsdRoundTrip | scripts/qualification_cost_guard.py:128-144 | An amount printed and parsed is the same amount |
| LedgerText.AcceptedPurposeMakesCell | scripts/qualification_cost_guard.py:1907-2154 | A purpose the command accepts makes a trimmed cell without bars, within the ledger's limit; its line separators are those inside the purpose as typed |
| LedgerText.RequiredRowIsRead | scripts/qualification_cost_guard.py:159-220 | The demanded row, as one line of a table, adds exactly the planned entry |
| LedgerText.CutRowIsRefused | scripts/qualification_cost_guard.py:171-173 | The row cut inside its purpose has three columns and is refused |
| LedgerText.RequiredRowRoundTrip | scripts/qualification_cost_guard.py:147-227 | The demanded row, appended to a table, reads back as the planned entry exactly when its purpose has no line separator; otherwise the ledger cannot be read at all |
| LedgerText.VerticalTabBreaksTheLedger | scripts/qualification_cost_guard.py:1907-2154 | A purpose with a vertical tab in it is accepted, and the row demanded for it makes any ledger it is appended to unreadable |
| LedgerText.DemandThenAuthorization | scripts/qualification_cost_guard.py:2151-2203 | Following a demand and asking again gives the same report with both flags set, through the text of the ledger |
| CostBound.RatesAgree | scripts/qualification_cost_guard.py:268-297 | For any list of profiles, the hourly rates of the hosts the plan creates add up to the rate of the estimate |
| CostBound.FleetMaximumIsLeast | scripts/qualification_cost_guard.py:257-302 | The reserved maximum is the least whole amount that covers a quarter more than the planned hosts and addresses for the hours, and ten dollars |
| CostBound.RouteMaximumIsLeast | scripts/qualification_cost_guard.py:784-791 | The same for the route host |
| CostBound.StatedEstimates | tests/test_qualification_cost_guard.py:250-781 | The tests' figures: 70 for 14 hours on N1T4 in one region, 69 for 13.5 and 72 for 14 hours of G2 over two, 26 for 14 hours of the route |
| CostBound.FleetIsCovered | scripts/qualification_cost_guard.py:257-302 | For all hours up to 14, both shapes, one region or two: hosts one at a time within their rounded-up limits, with their addresses, cost no more than the reserved maximum |
| CostBound.HeadroomCoversRounding | scripts/qualification_cost_guard.py:1283 | From four seconds on, the headroom alone covers the rounding |
| CostBound.RouteIsCovered | scripts/qualification_cost_guard.py:784-791 | The route host within its rounded-down limit costs no more than the estimate, without its contingency |
| Download.CopyExact | scripts/gate13_download_artifact.py:214-231 | Under any short reads no more than the expected bytes are written, and it returns exactly when the source has that many and no call fails |
| Download.CopyChunk | scripts/gate13_download_artifact.py:217-226 | One turn of the loop |
| Download.Commit | scripts/gate13_download_artifact.py:304-330 | A second link, never over an existing file; it returns exactly when its calls work; on every exit the target is ours exactly when the link took effect and the handler's unlink did not, and the partial name exactly when its removal did not take effect |
| Download.LeftAfterRaising | scripts/gate13_download_artifact.py:304-330 | When a commit that raises leaves the target, by the outcomes of its calls, exactly: both failing families, interrupt and failed handler |
| Download.OneFailureIsUndone | scripts/gate13_download_artifact.py:324-330 | One failed call and no interrupt: nothing is committed |
| Download.Undo | scripts/gate13_download_artifact.py:324-330 | The link is removed only while it is still the same file, and exactly when the lstat works and the unlink takes effect |
| Download.ExtractMember | scripts/gate13_download_artifact.py:254-284 | The partial file is ours and holds exactly the declared bytes |
| Download.LastRemovals | scripts/gate13_download_artifact.py:354-357 | Both partial names are removed last, the second only if the first removal works; each is left exactly when made and never removed |
| Download.Download | scripts/gate13_download_artifact.py:333-365 | All or nothing: it returns exactly when its calls do, with the declared bytes at the target and no partial file of ours; on every exit, interrupts and any number of failures included, each of the three names holds a file of ours exactly when its making took effect and no removal of it did, each call at its place among those made; what was there, and what others put at the target, stays |
| Download.TargetLeftBehind | scripts/gate13_download_artifact.py:304-365 | Two whole runs from an empty directory that raise with the target left, every removal that is tried working: an interrupted link, and a failed sync with a failed lstat after it |
| LinkTargets.Resolve | desktop/build_desktop.py:281-291 | The stack loop computes lexical normalisation, where each .. cancels the name before it |
| LinkTargets.EscapesExactly | desktop/build_desktop.py:285-288 | A path escapes exactly when some prefix of it leads above its start |
| LinkTargets.CanonicalArchiveLinkTarget | desktop/build_desktop.py:273-292 | The builder's resolver computes the link's lexical target |
| LinkTargets.CanonicalLinkTarget | scripts/gate13_linux_packaged_lifecycle.py:1071-1090 | The installer's resolver, with its own validator, computes the same target for every member and link |
| LinkTargets.ValidatorsDiffer | scripts/gate13_linux_packaged_lifecycle.py:1054-1068 | The two path validators agree on everything but one trailing slash |
| LinkTargets.TargetStaysInside | desktop/build_desktop.py:136-144 | A target is below the application root and never goes up |
| LinkTargets.PartsOfJoin | desktop/build_desktop.py:291 | Printing path components and reading them is the identity |
| TarArchive.WriteTar | desktop/build_desktop.py:354-375 | The writer makes one member of each entry, or fails exactly when some file became shorter than recorded |
| TarArchive.VerifyTar | desktop/build_desktop.py:439-482 | The verifier accepts exactly the archives with valid, uniquely folded names that say of every path, and of no other, what the bundle says |
| TarArchive.WriterVerifies | desktop/build_desktop.py:354-480 | What the writer wrote is accepted exactly when every link's lexical target is its recorded file and every file is still what was recorded |
| TarArchive.InstallArchiveEntries | desktop/build_desktop.py:295-340 | The entry list of a bundle is made exactly when all member paths are valid and fold apart, and is then what the writer and the verifier are proved for |
| UnitOwner.SystemdUnitOwner.Stop | scripts/gate13_linux_packaged_lifecycle.py:986-998 | An owned unit is asked to stop, and killed if it is not empty in time; it leaves the owned list only after its cgroup was seen empty; a normal return means it left, and when all goes well the call returns |
| UnitOwner.SystemdUnitOwner.StopGracefully | scripts/gate13_linux_packaged_lifecycle.py:973-984 | The same for the graceful stop, which asks first the unit's main process and raises whenever force was needed |
| UnitOwner.SystemdUnitOwner.FaultKill | scripts/gate13_linux_packaged_lifecycle.py:1000-1007 | The same for the fault injection, which kills the whole unit |
| UnitOwner.SystemdUnitOwner.CompletedIdentity | scripts/gate13_linux_packaged_lifecycle.py:835-865 | A unit already over is adopted exactly when the exchanges about it go well and its cgroup is seen empty |
| UnitOwner.SystemdUnitOwner.WaitForIdentity | scripts/gate13_linux_packaged_lifecycle.py:867-882 | A unit is adopted exactly when the wait returns; one whose wrapper is over when first looked for is adopted if its cgroup is empty |
| UnitOwner.SystemdUnitOwner.WaitEmpty | scripts/gate13_linux_packaged_lifecycle.py:967-971 | True only when the last look saw no process |
| UnitOwner.SystemdUnitOwner.Start | scripts/gate13_linux_packaged_lifecycle.py:884-902 | systemd is asked to run the unit; it is adopted or lost, and lost exactly when the launch did not report success or the wait failed |
| UnitOwner.SystemdUnitOwner.RunCapture | scripts/gate13_linux_packaged_lifecycle.py:904-948 | On every exit what was let go of is empty, and no other owned unit is touched; a normal return means its unit is empty; its unit is lost exactly when the launch raised or the wait failed |
| UnitOwner.SystemdUnitOwner.StopAll | scripts/gate13_linux_packaged_lifecycle.py:1012-1020 | Every owned unit is asked to stop, last adopted first, whatever fails; it returns when every stop goes well; a normal return means nothing is owned and every unit ever adopted is empty, so that everything ever launched is empty exactly when the lost units are |
| UnitOwner.Serve | scripts/gate13_linux_packaged_lifecycle.py:884-1020 | For any actions, each failing or not, and stop_all at the end: a normal return empties everything ever launched if no start or capture lost its unit |
| UnitOwner.LaunchedButNotAdopted | scripts/gate13_linux_packaged_lifecycle.py:884-902 | Lost units are not covered: a concrete run where start raises, stop_all returns and the unit still has a process |
| TemporaryKey.Candidates | scripts/gate13_linux_localhost_inference.py:342-349 | The candidates for revocation are exactly the active keys this run made, whenever the inventory is answered |
| TemporaryKey.RevokeAndCheck | scripts/gate13_linux_localhost_inference.py:352-356 | It succeeds exactly when the DELETE and the inventory after it go well; the key is revoked, and the active keys are the baseline, exactly when the DELETE takes effect |
| TemporaryKey.CleanUp | scripts/gate13_linux_localhost_inference.py:339-358 | By its replies: which requests it makes, that it succeeds exactly when a key of the run is there and all three go well, and that the active keys end as they began exactly when no create is still under way and a key that is there is found and its DELETE takes effect |
| TemporaryKey.Qualify | scripts/gate13_linux_localhost_inference.py:283-363 | No key that was there is ever changed; for every script the replies say exactly which requests are made, when the run passes, and when the active keys end as they began, the reply to the create itself lost or not; a normal return means one key was made and the same one revoked |
| TemporaryKey.LateCreate | scripts/gate13_linux_localhost_inference.py:283-363 | A concrete run: the create is accepted, its reply lost, and carried out after the clean-up has looked; a key of the run stays active |
| SnapshotWalk.ScanDirectory | scripts/qualification_image_contract.py:296-323 | Reading one directory moves its files and subdirectories from what is left to what is found, and fails only for a tree that may not be used |
| SnapshotWalk.WalkSnapshot | scripts/qualification_image_contract.py:287-324 | The explicit-stack walk ends with exactly the tree's files, sizes and directories, or refuses exactly the trees outside the limits |
| SnapshotWalk.ExpectedDirectories | scripts/qualification_image_contract.py:327-334 | Climbing from every path finds exactly the proper prefixes |
| SnapshotWalk.LayoutExactly | scripts/qualification_image_contract.py:337-341 | A tree's directories are those above its files exactly when none is empty |
| SnapshotWalk.VerifyLayout | scripts/qualification_image_contract.py:337-341 | The layout check accepts exactly the usable trees with the manifest's files at their sizes, no other file and no empty directory |
| GpuAttribution.SampleDevices | scripts/gcp_public_route_host.py:858-912 | The loops compute each route's bytes, the unattributed bytes and their sum |
| GpuAttribution.BytesAreConserved | scripts/gcp_public_route_host.py:867-912 | The combined figure is at least what the process table holds, and equal exactly when no process holding memory is claimed by two running routes |
| GpuAttribution.DisjointRoutesClaimOnce | scripts/gcp_public_route_host.py:869-875 | Containers without a common process claim each process at most once |
| GpuAttribution.LinesAgainstTable | scripts/gcp_public_route_host.py:858-865 | The inventory's lines add up to the table and what was overwritten: a process listed twice is undercounted by its earlier line |
| GpuAttribution.TwoLinesOfOneProcess | scripts/gcp_public_route_host.py:858-912 | A concrete inventory whose combined figure misses five of seven bytes |
| GpuAttribution.DistinctLinesAreKept | scripts/gcp_public_route_host.py:858-865 | With one line a process nothing is lost |
| GpuAttribution.AcceptedSampleMeans | scripts/gcp_public_route_lifecycle.py:1034-1082 | An accepted sample means total GPU use within the combined ceiling and every process holding memory attributed to a running route |
| Environment.ParseExistingEnvironment | scripts/prepare_qualification_runner.py:107-125 | The line loop with its seen set, equal to its specification |
| Environment.PrintThenParse | scripts/prepare_qualification_runner.py:107-133 | Printed entries parse back to themselves, within the size limit |
| Environment.ParseGivesPrintable | scripts/prepare_qualification_runner.py:107-125 | Whatever parses can be printed and parsed again |
| Environment.MergingTwice | scripts/prepare_qualification_runner.py:128-133 | Merging twice is merging once |
| Environment.MergeContents | scripts/prepare_qualification_runner.py:128-133 | Unmanaged entries keep order and values; managed ones are exactly those supplied, in the fixed order |
| Environment.MergeIsStable | scripts/prepare_qualification_runner.py:128-133 | With clean values, merging a merge's own output gives the same text exactly when it is within the size the parser accepts |
| Environment.EnvironmentFile.Write | scripts/prepare_qualification_runner.py:136-173 | The file becomes the merge of what it was, in one step, or stays as it was |
| Environment.EnvironmentFile.WriteTwice | scripts/prepare_qualification_runner.py:136-173 | A second write of the same values reports unchanged, exactly when the first left no more than the parser accepts |
| Environment.BrokenValueIsRefused | scripts/prepare_qualification_runner.py:78-81 | Whatever the file holds and whatever else is supplied, a managed value that the value check lets through and that breaks in two makes a merge the parser refuses |
| Environment.EnvironmentFile.WriteBroken | scripts/prepare_qualification_runner.py:136-173 | After a write of such a value that worked, the next write fails |
| Environment.VerticalTabBreaksTheFile | scripts/prepare_qualification_runner.py:78-173 | A concrete value: the first write creates the file, the second cannot read it |
| Environment.MergeReadsBack | scripts/prepare_qualification_runner.py:107-133 | What a merge wrote reads back as what was merged exactly when no supplied value has a line separator |
| PackageInstall.FollowingAFileName | scripts/gate13_linux_packaged_lifecycle.py:1071-1090 | In a tree whose links all name files lexically, the file system following a link ends at that file or nowhere: never at a directory, never outside the root |
| PackageInstall.DirectoriesAreLexical | scripts/gate13_linux_packaged_lifecycle.py:1601-1608 | So every directory it reaches is the one the path says, links or not |
| PackageInstall.LinkLeadsExactly | scripts/gate13_linux_packaged_lifecycle.py:1631-1640 | A link leads to its lexical file exactly when every directory its text walks through is real |
| PackageInstall.LexicalIsNotPhysical | scripts/gate13_linux_packaged_lifecycle.py:1522-1530 | A concrete link the audit accepts and the file system cannot follow |
| PackageInstall.AuditedItems | scripts/gate13_linux_packaged_lifecycle.py:1493-1530 | What the audit checks of names and link targets, in components |
| PackageInstall.Installer.Place | scripts/gate13_linux_packaged_lifecycle.py:1582-1608 | Whatever is created lies where its path says, inside the root |
| PackageInstall.Installer.DirectoryPass | scripts/gate13_linux_packaged_lifecycle.py:1582-1587 | After the first pass every directory member is there with its mode |
| PackageInstall.Installer.FilePass | scripts/gate13_linux_packaged_lifecycle.py:1588-1600 | After the second pass every file member is there too, with its contents, and nothing unexplained |
| PackageInstall.Installer.LinkPass | scripts/gate13_linux_packaged_lifecycle.py:1601-1608 | After the third pass every link is there too, each naming a file |
| PackageInstall.Installer.Passes | scripts/gate13_linux_packaged_lifecycle.py:1580-1608 | The three passes succeed exactly when every call they make works, no file or link stands where another member needs a directory, and every link lies in a directory made for something else |
| PackageInstall.AuditedIsNotInstallable | scripts/gate13_linux_packaged_lifecycle.py:1493-1530 | A concrete package of one file and one link, accepted by the audit of its members, that no installation of working calls can install |
| PackageInstall.CompleteIsInstallable | desktop/build_desktop.py:302-324 | An archive in which every member lies in a directory member, as the builder's walk gives them, can be installed |
| PackageInstall.VerifyInstall | scripts/gate13_linux_packaged_lifecycle.py:1616-1640 | The verification accepts exactly the trees whose links lead on disk where they lead lexically, to the recorded contents |
| PackageInstall.ExtractPackage | scripts/gate13_linux_packaged_lifecycle.py:1574-1614 | All or nothing up to the verification: an existing root is refused and untouched, an empty place is refused only when making the root fails; the passes then succeed exactly when every call works and the archive can be installed; a failed pass is followed by the removal of the root, the last call made, and the tree is gone exactly when that takes effect; a return means exactly the archive's members |
| Sorting.SortingAgrees | scripts/fly_qualification_adapter.py:1195-1196 | Sorting the resources as a list and as a set gives the same list when none is repeated |

## Left out

- Nobody else uses a run's names, its API key label or the key server while it runs; listings and
  inventories that answer, answer truly. The download alone has other actors, who may create files at free
  names but not remove or replace files.
- JSON text, SHA-256, casefold, gzip, zip and tar encodings: values, parameters, or a format taken as
  faithful.
- Regular expressions are predicates on characters, and `str.upper` is modelled on ASCII letters only.
- `hard_kill` and the controller's interrupt action, which only check a record and make two calls; the timeout
  sent along with each request of a wait.
- FlyProvision.Provisioning.CreateNext: of a create request's payload, the run, resource, role, first peer and span; image,
  guest, region and paths are left out. Addresses arrive in compressed form, checked by alphabet and network prefix.
- RouteSamples.JudgeExactly: a worker's document arrives parsed: its schema, identity, span and type checks are one flag,
  and so are the eight ways of being unhealthy.
- FlyCleanup.ControlCleanup: does not model the atomic write of the journal it returns.
- Run.Execute: does not model the writing of the report file itself, its size limit, or elapsed times; a
  host action is a call that is acknowledged, fails, or is interrupted, and its effects on the host are
  modelled only where credentials are concerned.
- Run.ReadToken: immutable copies of the credential (what the command printed, the slice and the base64 line
  made of it) are not buffers of the model; nothing in the source wipes them.
- Run.Upload: the local secret file is a flag here; `LocalSecret` has the file itself. Windows access lists
  and reparse points are left out.
- ExecuteCacheLifecycle: the polling loops for the instance and the prewarm marker are one check each.
- RouteHost: a route's fingerprint is what `docker exec` answers; log sizes, file ownership and the parsing of
  worker health are left out, and a removal of the state directory that stops half-way has removed the record.
- RouteHost.Serve: a container keeps running until it is stopped.
- PackageInstall.ExtractPackage: the archive is the one that was audited; the digest recorded for a directory
  means nothing; the removal of the root is one step, whose outcome is `removed`.
- GcpPlans.BuildFleetPlan: commands are reduced to what they make, need and remove; verification commands
  appear only as the absence checks of the route and cache plans.
- Ledger.CeilingHolds: sums are exact, where Python rounds to 28 digits.
- CostBound.FleetIsCovered: hours are real numbers; the NAT addresses are taken to live no longer than the
  hosts together.
- LedgerText.RequiredRowRoundTrip: the new row is the last of its table.
- Environment.EnvironmentFile.Write: failing writes, symbolic links and line-ending translation are left
  out; replacing the file is one step.
- Environment.BrokenValueIsRefused: for values whose second line is not an entry; a value whose further lines
  are empty, or entries of managed names that were not supplied, is merged away, and the file stays readable
  though it does not read back as what was merged.
- TarArchive.InstallArchiveEntries: does not sort, and takes the walk of the bundle's directories as given.
- SnapshotWalk.VerifyLayout: paths are component lists; the root is an unlinked directory that does not
  change while it is read; artifact digests are left out.
- Download.Download: `Config` carries the digest and the one-member archive reader as functions; the signed
  URL and the response's headers are one call.
- UnitOwner: a cgroup that is empty stays empty, and a unit has one cgroup; the identity strings, the
  output of a captured command and the clock are replies.
- `ProcessGroupOwner`, the zip variants, the evidence validators, the
  publication checks, argument parsing and the other scripts: they repeat what is here with other calls, or
  are settled by reading one function.
