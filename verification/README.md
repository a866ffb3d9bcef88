# CamAdmiral: verified models

CamAdmiral discovers network cameras, adopts them behind a relay with stable stream names, and keeps one or more
Frigate installations configured to read them. This project models the parts of it that carry state across
failures, and proves what they promise. `dafny verify dfyconfig.toml` checks everything.

## What is modelled

**Taking over a Frigate camera entry** (`FrigateConfig`, `StreamGraph`, `ManagedConfig`, `TakeoverState`,
`TakeoverSteps`, `Takeover`, `TakeoverLimits`). An existing entry of Frigate is moved onto CamAdmiral's relay under
a write-ahead journal. `Takeover.Site` holds Frigate's saved configuration, the journal row, the job rows and the
camera repository; every call to the surroundings can be refused, can take effect and be reported lost, and can be
the last thing the process does. The invariant `Fits` says that the journal covers whatever is saved. From it
follow exact restoration, the exact condition under which `applied` is true, recovery at startup and the
synchronisation of active takeovers, over any run. Beside it stand the graph of go2rtc aliases (resolution, the alias visitor, the guards that make a
release invisible to everyone else) and the translation of an entry into its managed form, which preserves what
every alias means, to its own camera and to every other reader.

**Health, incidents and alerts** (`HealthRules`, `HealthIncidents`). Stream counters feed a camera state, the
camera states feed incidents, incidents feed an outbox. The open incident is the fold over the camera's history;
alerts are queued at most once, and a recovery is announced only beside its opening.

**Availability** (`Availability`). The report partitions the window truthfully, and its buckets conserve time.

**Address recovery** (`AddressRecovery`). A batch of cameras that moved to new addresses is recovered completely or
not at all, with failures at any call, and with a second failure while undoing.

**Finding and remembering devices** (`TargetedDiscovery`, `Inventory`, `CameraIdentity`, `ScanQueue`, `Grouping`).
Which announced device is which camera, which inventory entry an observation continues, what anchors a camera's
physical identity, and which cameras the next recovery scan looks for.

**Authentication** (`AuthLockout`, `AuthRetry`). The lockout of the web interface, and the retry schedule for
streams whose credentials were refused.

**Reconciling Frigate** (`FrigateState`, `FrigateSync`, `FrigateAgreement`). The reconciler as a fixpoint, when its
own writes pass its own comparison, and the frame of full sync and removal: nothing outside CamAdmiral's own names
changes. Each run synchronises the imported cameras first; that this is a fixpoint as well is
`Takeover.Site.SyncAgain`.

The modules follow the source's own form. Objects that update fields are classes whose methods carry the loops;
what a method must achieve is said by functions and predicates on values, and the properties of those are lemmas.
Outcomes of probes, restarts, polls and calls are arbitrary.

## Where the code promises less than it seems to

The code is modelled as it is. These are the places where a promise has a condition, stated exactly.

- Pausing and restoring go through Frigate's mapping merge, in which an empty string deletes a key. An entry that
  holds an empty string in a mapping is not saved as journaled, and exactly then
  (`TakeoverLimits.PauseIsSavedIffClean`). An entry without inputs of its own is not restored exactly
  (`TakeoverLimits.RestoredFromManagedIffOwnInputs`). The takeover theorems assume an entry with neither
  (`Importable`).
- A live alias that exists only in the effective configuration is not restored as absent
  (`TakeoverLimits.UnsavedAliasIsNotRestored`); previews are assumed to record saved aliases (`PreviewOk`).
- `sync_imported` writes Frigate before it journals. Stopped between the two, a restore can refuse
  (`TakeoverLimits.SyncCutShort`), and the next run heals this if and only if it wants the same values
  (`TakeoverLimits.SyncHealsIffUnchanged`).
- A job skips a row that it marks as applied, and a restore leaves the mark. So a job that is restored and executed
  again reports `applied` over the original configuration (`Takeover.Site.RestoredThenExecuted`). A restore of an
  active takeover that stops after its write leaves an active row over the original entry, and a job executed then
  reports `applied` too (`TakeoverLimits.CutShortRestoreLooksActive`, the doubt `Undone`). Whatever a job says, the
  takeover is in place if and only if the journal row is active and no restore has written since
  (`Takeover.Site.InPlaceIff`); without a restore by an operator every `applied` is true (`Takeover.Site.Run`).
- Source resolution follows relay links of every scheme, the release guard only RTSP ones
  (`StreamGraph.OtherSchemeEscapesTheGuard`). What other readers are served is unaffected without condition. What
  the importer resolves for them is unaffected if and only if it follows no released alias
  (`StreamGraph.IgnoredIffUnfollowed`), and else ends at the unusable feed (`TakeoverState.ParkedOutcome`).
- Undoing an address recovery is exact if and only if every moved stream had a saved source
  (`AddressRecovery.UndoneIsExactIff`).
- The reconciler cannot settle a camera whose saved entry shows a live stream under another name: the merge keeps
  the name, the comparison refuses it, and it does so exactly then (`FrigateAgreement.WrittenEntryAgreesIff`).
- Two targets under one identifier, such as the empty one, can overwrite each other's match
  (`TargetedDiscovery.BothOrders`). Discovery computes the matching if and only if no identifier wins two addresses
  (`TargetedDiscovery.Discover`).
- The owner of an endpoint reference can lose its inventory entry to a recycled MAC observed earlier
  (`Inventory.RecycledMacTakesTheEntry`), directly or through a chain of such losses, and exactly then
  (`Inventory.EndpointOwnerKeeps`).
- The n-th retry of a stream that stays refused can start before 1260 + 1800 (n - 3) seconds have passed since its
  first refusal. A retry row can be older than the period of refusals (`AuthRetry.Monitor.RefusedAgain`), and
  disabling a stream drops its row, so that enabling it again starts the schedule anew
  (`AuthRetry.Monitor.DisabledBetween`). The bound holds for all retries that can follow if and only if the row was
  retried before the period or is not due within its first minute (`AuthRetry.BeginsOnTrackIff`), and for a row made
  anew, if and only if each retry so far had half an hour (`AuthRetry.RemadeOnTrackIff`, `AuthRetry.OnTrackIff`). An
  older row costs a minute at most (`AuthRetry.AMinuteAtMost`).

## Model

| member | source | states |
|---|---|---|
| FrigateConfig.CleanIsNeverRejected | camadmiral/frigate_import.py:501-507 | a `config/set` request without a deletion is accepted, whatever is saved |
| FrigateConfig.MergeLeavesUpdateIffCovered | camadmiral/frigate_import.py:501-507 | writing a mapping leaves exactly that mapping if and only if it gives every mapping key already saved, level by level |
| FrigateConfig.RewriteIsHarmlessIffClean | camadmiral/frigate_import.py:501-507 | saving a mapping over itself changes nothing if and only if no mapping in it holds an empty string |
| StreamGraph.Collect | camadmiral/frigate_import.py:351-371 | the visitor that fills a shared set returns the set it was given and exactly the aliases visited from the value, or an error exactly when the visit is refused |
| StreamGraph.VisitIsReachability | camadmiral/frigate_import.py:348-381 | visiting succeeds if and only if every walk through aliases meets only strings, closes no cycle and stays within the bound, and then finds exactly the reachable aliases; a link to an alias that does not exist ends a walk |
| StreamGraph.RefusalHasAWalk | camadmiral/frigate_import.py:351-371 | a refused visit has a concrete walk that ends unacceptably |
| StreamGraph.CollectMediaAliases | camadmiral/frigate_import.py:348-381 | the set of a camera entry is exactly what its inputs and live names reach; malformed entries, cycles and chains beyond the bound are errors |
| StreamGraph.ExpandUnaffected | camadmiral/frigate_import.py:463-478 | a value whose visited aliases avoid the overwritten ones serves the same media tree to any depth |
| StreamGraph.UnfollowedIsIgnored | camadmiral/frigate_import.py:91-130 | changing, adding or removing aliases that the resolution of a value does not follow leaves what it resolves to, whatever the schemes of its links |
| StreamGraph.FollowedIsNoticed | camadmiral/frigate_import.py:91-130 | and an alias that it does follow can be given a value that changes the result, wherever it stands in the chain |
| StreamGraph.IgnoredIffUnfollowed | camadmiral/frigate_import.py:91-130 | so no change of a set of aliases alters what a value resolves to if and only if its resolution follows none of them |
| StreamGraph.VisitedByRtsp | camadmiral/frigate_import.py:91-130 | where resolution goes by RTSP links, the aliases that the release guard visits include those it follows |
| StreamGraph.PrivateAliasesAreInvisible | camadmiral/frigate_import.py:463-478 | the release guards imply that overwriting the released aliases leaves the media of every other camera entry unchanged |
| StreamGraph.PrivateAliasesFeedNoOther | camadmiral/frigate_import.py:463-478 | and of every other alias |
| StreamGraph.PrivateAliasesResolveAsBefore | camadmiral/frigate_import.py:463-478 | under the release guards no overwriting of the released aliases changes what another camera's source resolves to if and only if its resolution follows none of them, which it can only do through a relay link of another scheme than RTSP |
| StreamGraph.OtherAliasesResolveAsBefore | camadmiral/frigate_import.py:463-478 | the same for what another alias resolves to |
| StreamGraph.OtherSchemeEscapesTheGuard | camadmiral/frigate_import.py:348-381 | such a link exists: a configuration in which the guards pass and another camera resolves differently afterwards |
| ManagedConfig.InspectInputs | camadmiral/frigate_import.py:137-145 | sources are keyed by their identity, roles point to known sources |
| ManagedConfig.CompleteRoles | camadmiral/frigate_import.py:148-151 | a single capture role stands in for the missing one; afterwards both exist |
| ManagedConfig.InspectLive | camadmiral/frigate_import.py:152-166 | each recorded live alias has one source, which resolves to the recorded identity and conversion |
| ManagedConfig.InspectCamera | camadmiral/frigate_import.py:133-173 | an accepted entry has both roles, at most the bounded number of sources, one account, and exactly its saved live aliases recorded |
| ManagedConfig.BuildManaged | camadmiral/frigate_import.py:297-345 | there is a managed configuration if and only if the camera is enabled with both roles, a stream stands for the source of each alias, and every input has a capture role; it is the original with its inputs split, and the streams are the role aliases, the live aliases and the remaining released ones |
| ManagedConfig.ManagedStreamsAreUnique | camadmiral/frigate_import.py:297-345 | the view of the camera, the row and the relay determine the managed streams |
| ManagedConfig.ResolveWithShorterTrail | camadmiral/frigate_import.py:91-130 | resolution does not depend on the trail that led to a value, as long as it succeeds |
| ManagedConfig.LiveWasInspected | camadmiral/frigate_import.py:156-166 | what the inspection noted of a live alias is what the alias resolves to |
| ManagedConfig.ManagedAliasKeepsItsMeaning | camadmiral/frigate_import.py:297-345 | every live alias as inspected in the streams used then, and every released one as recorded, resolves under the managed streams to the relay URL of the stream that stands for its original source, with the same conversion, and reads no other alias |
| ManagedConfig.ReadersKeepTheirSource | camadmiral/frigate_import.py:700-709 | the managed write is safe for every other reader: whatever resolved before resolves to the same source, or, if it follows a managed alias at any depth, to the relay URL of the stream that stands for its source, with the same conversion |
| ManagedConfig.RoleAliasServesItsRole | camadmiral/frigate_import.py:305-306 | a role alias resolves to the relay URL of the current stream of its role and reads no other alias |
| ManagedConfig.SplitConserves | camadmiral/frigate_import.py:331-343 | splitting one input keeps who records, who detects and who listens, each as often as before |
| ManagedConfig.SplitAllConserves | camadmiral/frigate_import.py:327-344 | and so does splitting all inputs |
| ManagedConfig.SplitAllKeepsSettings | camadmiral/frigate_import.py:327-344 | every managed input comes from an original one and keeps its other settings |
| ManagedConfig.ManagedEntryKeepsSettings | camadmiral/frigate_import.py:297-345 | outside the inputs the managed entry equals the original; its inputs carry the same roles |
| TakeoverState.VariantWrite | camadmiral/frigate_import.py:501-507 | writing one variant of an entry over another leaves exactly the one written, including the deletion of a temporary `enabled` |
| TakeoverState.AdmittedStream | camadmiral/frigate_import.py:539-549 | under a covering journal row each alias holds its original, paused or managed value |
| TakeoverState.GuardsAccept | camadmiral/frigate_import.py:529-549 | under a covering journal row no conflict guard of a restore objects |
| TakeoverState.RestoreIsExact | camadmiral/frigate_import.py:566-568 | the request of a restore turns any covered configuration into the original one, aliases and temporary flag included, and is not refused |
| TakeoverState.PauseIsExact | camadmiral/frigate_import.py:474-484 | pausing saves exactly the paused configuration |
| TakeoverState.ParkedOutcome | camadmiral/frigate_import.py:474-484 | releasing aliases leaves what any value resolved to, or, exactly if its resolution follows one of them, makes it end at the unusable feed |
| TakeoverState.ApplyIsExact | camadmiral/frigate_import.py:700-709 | applying saves exactly the managed configuration, from the original or the paused one |
| TakeoverState.ChangedIsJournaled | camadmiral/frigate_import.py:457-498 | write-ahead safety: whenever the saved configuration differs from the original, the journal holds a row that records the original and whose paused or managed values are what is saved, apart from streams that a synchronisation has not journaled yet; the guards of a restore pass unless such a stream is neither journaled nor original |
| TakeoverState.RestoreSteps | camadmiral/frigate_import.py:521-580 | the request of a restore leaves the original configuration and keeps the journal covering it |
| TakeoverState.RestoredIsOriginal | camadmiral/frigate_import.py:521-580 | a restored row means the original configuration is saved |
| TakeoverState.UntouchedIsOriginal | camadmiral/frigate_import.py:534-538 | an entry that still looks original, without handoff, is the whole original configuration |
| TakeoverState.GuardsHold | camadmiral/frigate_import.py:529-549 | the entry check passes in every state that fits, and the guards unless a synchronisation was cut short with other values |
| TakeoverSteps.CheckedIsReady | camadmiral/frigate_import.py:384-400 | an attempt whose original was just seen unchanged starts from the original configuration |
| TakeoverSteps.ReleaseSteps | camadmiral/frigate_import.py:474-484 | the row journaled before a reader is paused covers the original and the paused configuration |
| TakeoverSteps.PausedIsReady | camadmiral/frigate_import.py:486-494 | after the pause the attempt continues from the paused configuration |
| TakeoverSteps.AdoptSteps | camadmiral/frigate_import.py:661-674 | adopting the camera and journaling its id keeps the journal covering, in either order of loss |
| TakeoverSteps.ApplySteps | camadmiral/frigate_import.py:700-709 | the row journaled before the managed configuration is written covers what is saved now, what will be saved, and the finished takeover |
| TakeoverSteps.UndoneIsNotSynced | camadmiral/frigate_import.py:814-817 | a synchronisation is refused where a restore has put the original back |
| TakeoverSteps.SyncSteps | camadmiral/frigate_import.py:814-823 | an allowed synchronisation leaves exactly the managed configuration with the wanted streams, and the journal row with those streams covers it |
| Takeover.Site.SetConfig | camadmiral/frigate_import.py:566-568 | one `config/set` request: merged as a whole or not at all, and the answer can be lost |
| Takeover.Site.YieldCamera | camadmiral/frigate_import.py:552-565 | the camera of a handoff is disabled, unless another target uses it |
| Takeover.Site.PutBack | camadmiral/frigate_import.py:566-580 | a restore that reached its write and finished leaves the original configuration and no journal row |
| Takeover.Site.RestoreEntry | camadmiral/frigate_import.py:521-580 | a completed restore leaves Frigate exactly as before the takeover, no journal row, nothing in doubt and the camera of a handoff disabled; cut short anywhere it keeps the invariant; given acknowledgements it completes, unless a synchronisation was cut short with other values |
| Takeover.Site.CheckOriginal | camadmiral/frigate_import.py:384-400 | success means the saved entry and its live aliases are as recorded, or as paused |
| Takeover.Site.GuardRelease | camadmiral/frigate_import.py:463-473 | success means that no other entry and no other alias reads the released aliases |
| Takeover.Site.ReleaseReader | camadmiral/frigate_import.py:457-498 | success means the attempt can go on from a paused entry under a covering journal row; every failure leaves the journal covering |
| Takeover.Site.AwaitPause | camadmiral/frigate_import.py:486-498 | success means the paused row is the journaled one; it is journaled only after the old reader was seen stopped |
| Takeover.Site.AdoptCamera | camadmiral/frigate_import.py:661-674 | the adopted camera is named by the row, and by the pending journal row through its candidate even if the process stops first |
| Takeover.Site.ApplyManaged | camadmiral/frigate_import.py:700-733 | success means the saved entry equals the managed one under an active journal row; otherwise the journal still covers |
| Takeover.Site.TakeOver | camadmiral/frigate_import.py:646-733 | one attempt after validation: done only with an active row and the managed entry saved |
| Takeover.Site.Attempt | camadmiral/frigate_import.py:613-733 | one attempt from the check of the original on |
| Takeover.Site.ExecuteRow | camadmiral/frigate_import.py:583-751 | a row that its job already marks as applied is skipped, and reported as applied whatever became of it. Any other row reports `applied` only if the takeover is in place, or over an active row whose restore was cut short after its write. An error that does not ask for a rollback left the original configuration and no journal row, or an active takeover; an unknown job or a row that is not eligible changes nothing, no other job is touched, and reports that were true stay true |
| Takeover.Site.InPlaceIff | camadmiral/frigate_import.py:594-597 | the exact condition for every row marked as applied: the managed configuration is what is saved if and only if the journal row is active and no restore has written since |
| Takeover.Site.RestoredThenExecuted | camadmiral/frigate_import.py:594-597 | an applied job that is restored and executed again reports `applied` over the original configuration with no journal row; given acknowledgements, this happens whenever no guard stops the restore |
| Takeover.Site.RecoverHandoff | camadmiral/frigate_import.py:754-789 | a startup that finishes recovery has undone every unfinished handoff exactly, marks its job as failed, and leaves the camera adopted for it disabled, even if the process stopped between adopting it and journaling its identifier |
| Takeover.Site.WriteStreams | camadmiral/frigate_import.py:818-823 | a synchronisation cut short anywhere leaves the old streams, or the new ones with the old journal row, or both new |
| Takeover.Site.SyncImported | camadmiral/frigate_import.py:792-827 | an active, selected takeover with a managed configuration is synchronised: its entry is never touched, streams that somebody else changed are left alone, and a completed pass has exactly the wanted streams saved and journaled; a pass that wants what is journaled only reads; given acknowledgements it completes if and only if no stream is neither journaled nor wanted |
| Takeover.Site.SyncAgain | camadmiral/frigate_import.py:818-823 | a completed pass is a fixpoint: while the camera and the relay stay as they are, any number of later passes write nothing |
| Takeover.Site.Run | camadmiral/frigate_import.py:583-827 | over any sequence of previews, attempts, restores, startups and synchronisations, each refused, lost or cut short at any call, the journal covers the saved configuration; and as long as no operator restores, every row that any job marks as applied is in place |
| TakeoverLimits.PauseIsSavedIffClean | camadmiral/frigate_import.py:474-484 | pausing is saved as journaled if and only if no mapping of the original entry holds an empty string |
| TakeoverLimits.RestoredFromManagedIffOwnInputs | camadmiral/frigate_import.py:566-568 | restoring over the managed entry is exact if and only if the original has inputs of its own |
| TakeoverLimits.UnsavedAliasIsNotRestored | camadmiral/frigate_import.py:233-236 | a live alias that only the effective configuration has does not come back as absent |
| TakeoverLimits.SyncCutShort | camadmiral/frigate_import.py:818-823 | `sync_imported` stopped between its write and its journal leaves a state that a restore accepts if and only if each new value is the journaled or the original one, or the parked one where the managed entry is the paused one |
| TakeoverLimits.SyncHealsIffUnchanged | camadmiral/frigate_import.py:814-823 | the next synchronisation is allowed if and only if it wants every changed stream as written; then its row covers what is saved and the guards of a restore pass again |
| TakeoverLimits.CutShortRestoreLooksActive | camadmiral/frigate_import.py:566-580 | a restore of an active takeover stopped after its write leaves an active row over the original entry |
| HealthRules.ObservedAgrees | camadmiral/storage.py:2705-2719 | the failure counter is the number of failed observations in a row, and only three or more make a stream offline |
| HealthRules.OfflineMeans | camadmiral/storage.py:609-643 | a camera is offline if and only if it is enabled and all its role-bound streams, at least one, are offline |
| HealthRules.HealthyMeans | camadmiral/storage.py:609-643 | it is healthy if and only if it is enabled, some stream is healthy and the others are healthy or unknown |
| HealthRules.PendingMeans | camadmiral/storage.py:609-643 | it is pending if and only if it is enabled and no role-bound stream has been observed; the last branch is never taken |
| HealthRules.LoggedFolds | camadmiral/storage.py:646-670 | leaving repetitions out of the event log does not change the fold over it |
| HealthRules.NeverOverlap | camadmiral/storage.py:673-756 | incidents of a series do not overlap and only the last can be open |
| HealthRules.DisabledIsClosed | camadmiral/storage.py:673-728 | a disabled camera has no open health incident |
| HealthRules.NextKeeps | camadmiral/storage.py:673-728 | what a state does to a series of incidents keeps it ordered and what is resolved, and the open kind is the fold of the old one and the state |
| HealthIncidents.Store.EnqueueOpening | camadmiral/storage.py:759-823 | an opening alert is queued if and only if alerts are on, the camera exists and is not silenced; never twice |
| HealthIncidents.Store.EnqueueRecovery | camadmiral/storage.py:759-823 | a recovery alert is queued if and only if alerts are on and the opening alert is in the outbox; never twice |
| HealthIncidents.Store.OpenIncident | camadmiral/storage.py:704-722 | a new incident is appended and the fate of its opening alert decided |
| HealthIncidents.Store.CloseIncident | camadmiral/storage.py:731-756 | the open incident is resolved, with its recovery alert |
| HealthIncidents.Store.ReconcileIncident | camadmiral/storage.py:673-728 | the open incident follows the fold: its kind is the fold of its old kind and the state; nothing already resolved changes; reasons and times are the stated ones |
| HealthIncidents.Store.OfflineMeansFailing | camadmiral/storage.py:2705-2719 | an offline camera has role-bound streams, and each failed at least three times since it was last ready, idle or reset |
| HealthIncidents.Store.RecordTransition | camadmiral/storage.py:646-670 | afterwards the last event is the present state, the open incident is the fold over the camera's events, and a media incident opened only if all role-bound streams failed three times in a row |
| HealthIncidents.Store.RecordProbeResults | camadmiral/storage.py:2685-2760 | a batch updates exactly the listed known streams and brings every camera of them up to date |
| HealthIncidents.Store.ResetStreams | camadmiral/storage.py:2616-2661 | the listed streams start over and the camera is brought up to date |
| HealthIncidents.Store.BindRoles | camadmiral/storage.py:2450-2474 | changed role bindings bring the camera up to date |
| HealthIncidents.Store.SetCameraEnabled | camadmiral/storage.py:1794-1804 | disabling a camera closes its health incident |
| HealthIncidents.Store.OpenMove | camadmiral/storage.py:825-872 | one open address incident for a camera: touched again, or opened with its alert |
| HealthIncidents.Store.ResolveMove | camadmiral/storage.py:874-888 | only an open address incident is resolved; afterwards it is |
| HealthIncidents.Store.SetSilenced | camadmiral/storage.py:1806-1821 | silencing drops exactly the camera's waiting alerts, and withdraws their incidents for good |
| HealthIncidents.Store.Deliver | camadmiral/storage.py:1290-1328 | an attempt counts once; a message still waits only if it can be retried and has had fewer than eight attempts |
| HealthIncidents.Store.Perform | camadmiral/storage.py:609-823 | every transaction keeps streams, incidents and outbox consistent and every fate final |
| HealthIncidents.Run | camadmiral/storage.py:730-823 | over any run from any point no alert is ever queued twice, incidents are only added to, every fate stands, and an incident that was opened silently or withdrawn before the run has no recovery alert after it |
| Availability.LatestAt | camadmiral/storage.py:963-975 | the state at an instant is that of the latest event at or before it |
| Availability.Segments | camadmiral/storage.py:948-975 | the segments tile the window without gap or overlap, each in the state of the latest event at every instant of it |
| Availability.Totals | camadmiral/storage.py:977-984 | the percentage exists if and only if something was observed, lies in [0, 100] and is the healthy share of the observed time |
| Availability.ClipAdds | camadmiral/storage.py:996-1010 | cutting a stretch in two loses no time of any state |
| Availability.ClipTiles | camadmiral/storage.py:991-1010 | the clipped segments tile their bucket |
| Availability.BucketStateMeans | camadmiral/storage.py:1011-1022 | the state of a bucket held all through a last stretch of it |
| Availability.Buckets | camadmiral/storage.py:986-1022 | the buckets tile the window; each tells the truth at every instant; over all buckets every state keeps its duration |
| Availability.CameraAvailability | camadmiral/storage.py:932-1035 | the whole report, with an error exactly for a window or bucket count that is not positive |
| AddressRecovery.ReplacedBack | camadmiral/recovery.py:75-80 | replacing the host back restores a source if and only if it had no user information, fragment or port 0 |
| AddressRecovery.WriteOne | camadmiral/recovery.py:250-258 | one more camera of the batch is written |
| AddressRecovery.UndoOne | camadmiral/recovery.py:309-310 | one more camera of the batch is taken back |
| AddressRecovery.UndoneIsExactIff | camadmiral/recovery.py:302-310 | undoing the batch restores every saved source if and only if every stream it moved had a saved source |
| AddressRecovery.CamerasStayWhole | camadmiral/recovery.py:309-310 | if undoing itself stops, each camera is still entirely moved or entirely undone |
| AddressRecovery.OthersKept | camadmiral/recovery.py:249-310 | streams of cameras outside the batch are not touched |
| AddressRecovery.Recovery.ValidatedUpdates | camadmiral/recovery.py:92-149 | validated updates are the new sources, reach every enabled stream that has a source, lead to the new address, and each answered a probe of this very validation; otherwise there are none or one of an enabled stream did not answer in it |
| AddressRecovery.Recovery.ProbeDirect | camadmiral/recovery.py:134-148 | ready means that every enabled stream's new source answered in this validation; otherwise one did not |
| AddressRecovery.Recovery.RecordRevision | camadmiral/storage.py:2545-2585 | the newest revision is used again unless it differs or failed; the last good one is unaffected |
| AddressRecovery.Recovery.ClaimAttempt | camadmiral/recovery.py:193-205 | attempts for a camera and an address keep the fast interval, and the slow one after the fast retries |
| AddressRecovery.Recovery.PlanFor | camadmiral/recovery.py:165-239 | a plan is made if and only if a trusted online device was found for an enabled camera whose enabled sources are all at one other address, the last try is long enough ago, credentials exist and every new source answered now; other cameras' attempts stay |
| AddressRecovery.Recovery.Attempt | camadmiral/recovery.py:249-301 | success means all plans written, the relay restarted and serving every stream of theirs |
| AddressRecovery.Recovery.Undo | camadmiral/recovery.py:302-325 | the written plans are taken back and the revision is marked failed |
| AddressRecovery.Recovery.RecoverBatch | camadmiral/recovery.py:244-338 | all or nothing, for a batch of any size and a failure at any step; the last good revision follows |
| AddressRecovery.Recovery.PlanArrives | camadmiral/recovery.py:249-338 | a recovered plan moved every enabled stream of its camera |
| AddressRecovery.Recovery.RecoverAddresses | camadmiral/recovery.py:152-359 | planned are exactly the cameras that are to be tried and whose new sources answered in this round; after a recovery the table has all plans written and nothing else, every enabled stream of a planned camera is at the new address, answered there directly in this round and is served by the relay, and their attempts are forgotten; after a rollback every saved source is as it was, given that each moved stream had one |
| TargetedDiscovery.OneTargetPerAddress | camadmiral/discovery.py:928-961 | no two targets win one address |
| TargetedDiscovery.OneAddressPerTarget | camadmiral/discovery.py:928-961 | no target wins two addresses |
| TargetedDiscovery.MatchingIsInjective | camadmiral/discovery.py:928-961 | a matching sends different candidates to different addresses |
| TargetedDiscovery.MatchingIsUnambiguous | camadmiral/discovery.py:928-961 | and where one does, no map is |
| TargetedDiscovery.DistinctIsUnambiguous | camadmiral/discovery.py:916-926 | distinct identifiers are enough |
| TargetedDiscovery.ContestedClaimsLose | camadmiral/discovery.py:928-961 | two targets with evidence of one kind for one address are matched to nothing |
| TargetedDiscovery.OrderDoesNotMatter | camadmiral/discovery.py:887-961 | permuting announcements and targets gives the same map |
| TargetedDiscovery.BothOrders | camadmiral/discovery.py:924-941 | two targets under one identifier that both win an address by their endpoint references are recorded one over the other: the two orders give two results |
| TargetedDiscovery.ContestedAddressCanBeMatchedByMac | camadmiral/discovery.py:928-961 | an address contested by endpoint claims still goes to a third target that alone has its MAC |
| TargetedDiscovery.Claims | camadmiral/discovery.py:916-926 | a target claims an address if and only if its endpoint reference was announced exactly once |
| TargetedDiscovery.MatchEndpoints | camadmiral/discovery.py:928-944 | endpoint matches are exactly the uncontested claims unless an identifier wins twice; the addresses they take are kept in any case, and only targets whose endpoint was not seen fall back |
| TargetedDiscovery.ClaimMacs | camadmiral/discovery.py:946-952 | a fallback claims an address if and only if it is the only untaken one of its MAC |
| TargetedDiscovery.Discover | camadmiral/discovery.py:887-961 | for all announcements, MAC tables and targets: the computed map is exactly the set of justified matches if and only if no identifier wins two addresses |
| Grouping.Group | camadmiral/discovery.py:902-914 | the positions of each key, in order |
| Inventory.MatchesAreSound | camadmiral/inventory.py:115-137 | no entry is continued twice, and an identifier moves only on a key that no other entry and no other observation holds, or by address for an observation without a key |
| Inventory.Continuations | camadmiral/inventory.py:93-137 | the entry that each observation continues, chosen in the order of the observations |
| Inventory.EachEntryOnce | camadmiral/inventory.py:93-171 | every previous entry is continued by exactly one entry of the next inventory |
| Inventory.IdentifiersAreKept | camadmiral/inventory.py:54-84 | and its identifier lives on there |
| Inventory.IdentifiersStayDistinct | camadmiral/inventory.py:87-178 | the inventory never holds an identifier twice |
| Inventory.Annotate | camadmiral/inventory.py:32-51 | conflict marks are computed for every entry |
| Inventory.AnnotatedChangesMarksOnly | camadmiral/inventory.py:32-51 | an entry is marked if and only if another one holds one of its keys, and marking changes nothing else |
| Inventory.Reconcile | camadmiral/inventory.py:87-178 | the next inventory as a whole |
| Inventory.RecycledMacTakesTheEntry | camadmiral/inventory.py:117-137 | the order of observations decides: a recycled MAC observed first takes the entry from the device with its endpoint reference |
| Inventory.TakenIffRobbed | camadmiral/inventory.py:117-137 | an entry whose endpoint reference belongs to a later observation is taken before it if and only if it is robbed: through the entry's MAC by one without an entry of its own, or robbed of that in the same way, or by one without any key at its address |
| Inventory.EndpointOwnerKeeps | camadmiral/inventory.py:117-137 | the observation with the entry's endpoint reference continues the entry if and only if no earlier one has robbed it |
| Inventory.RobbedDirectly | camadmiral/inventory.py:117-137 | where the observation with the entry's MAC owns no entry by its endpoint reference, robbed means that it, or one without any key at the address, was observed earlier |
| Inventory.RescanKeepsIdentifiers | camadmiral/inventory.py:87-178 | scanning the same keyed observations again over a conflict-free inventory, stored in any order, reproduces every identifier |
| Inventory.PartsAreAll | camadmiral/inventory.py:181-205 | the split by scanned subnets loses and duplicates no entry |
| Inventory.ReconcileScanned | camadmiral/inventory.py:181-221 | entries that the scan says nothing about come through unchanged but for their conflict marks |
| Inventory.ScannedStaysDistinct | camadmiral/inventory.py:181-221 | a scan of some subnets does not make the inventory hold an identifier twice |
| CameraIdentity.LinkedCandidate | camadmiral/camera_identity.py:70-84 | a linked camera resolves to the one device of its identity, to its saved link, or to nothing when that is ambiguous or in conflict |
| CameraIdentity.BoundIsAnchored | camadmiral/storage.py:1592-1600 | binding keeps a known endpoint reference, and the MAC while none is known |
| CameraIdentity.ObservedIsContiguous | camadmiral/storage.py:1409-1465 | an observation keeps the periods contiguous with one current, changes no closed one, and the current one then says what was observed |
| CameraIdentity.Repository.Observe | camadmiral/storage.py:1409-1465 | the new periods, and whether a row was written |
| CameraIdentity.Repository.Bind | camadmiral/storage.py:1575-1604 | binding succeeds if and only if the device is verified and is the one already linked and observed; an error changes nothing; success keeps the anchor and brings the current period in line with the link |
| CameraIdentity.Run | camadmiral/storage.py:1409-1604 | over any run of bindings and observations every link keeps its anchor, and each value of a period is set at most once |
| AuthLockout.AtMostFive | camadmiral/auth.py:14-16 | spaced failures never exceed five in any half-open window of 300 seconds |
| AuthLockout.OneMoreFailure | camadmiral/auth.py:47-57 | one more evaluated failure keeps the spacing, with or without the lock |
| AuthLockout.FullIff | camadmiral/auth.py:47-57 | the queue is full if and only if five evaluated failures are recent |
| AuthLockout.AdminAuthenticator.BoundedGuessing | camadmiral/auth.py:47-81 | in every reachable state no client had more than five evaluated failures in any half-open window since its last success, and its queue is sorted with fewer than five entries |
| AuthLockout.AdminAuthenticator.RecordFailure | camadmiral/auth.py:47-57 | the fifth recent failure locks the client, no other does |
| AuthLockout.AdminAuthenticator.Authenticate | camadmiral/auth.py:59-81 | access is given if and only if the credentials are right and the client is not locked; a locked attempt is not evaluated |
| AuthRetry.EarliestFromThird | camadmiral/storage.py:2789-2804 | the delays add up to 1260 + 1800 (n - 3) seconds before the n-th retry |
| AuthRetry.ConsecutiveRetries | camadmiral/storage.py:2789-2804 | any n retries of a row in sequence, n at least 3, span at least 1200 + 1800 (n - 3) seconds, from whichever they start |
| AuthRetry.OnTrackIff | camadmiral/storage.py:2789-2804 | for a row in any state, at any time of a period with any number of retries made: all retries that can follow meet the bound of 1260 + 1800 (n - 3) seconds from the third on if and only if the next one cannot start before the stated instant |
| AuthRetry.BeginsOnTrackIff | camadmiral/storage.py:2697-2703 | at the beginning of a period all retries that can follow meet the bound if and only if the row was retried before or is not due within the first minute |
| AuthRetry.RemadeOnTrackIff | camadmiral/storage.py:2773-2787 | for a row made anew during a period they do if and only if each retry made so far had half an hour |
| AuthRetry.AMinuteAtMost | camadmiral/storage.py:2789-2804 | a row left over from an earlier period costs the bound a minute at most |
| AuthRetry.Monitor.RetriesBackOff | camadmiral/storage.py:2773-2804 | in every reachable state, for every refused stream with a row: the retries of its period met the bound and all that can follow will if and only if the stream is bounded, a condition on the row, the retries made and the time |
| AuthRetry.Monitor.RecordResult | camadmiral/storage.py:2697-2703 | refused streams get a row once, ready streams lose theirs; a stream refused after it was not begins a period, bounded if and only if its row was retried before or is not due within a minute |
| AuthRetry.Monitor.Schedule | camadmiral/storage.py:2773-2787 | rows of recovered or disabled streams go, missing ones are made, the others stay as they are; a stream whose row is made anew is bounded if and only if its retries so far were and each had half an hour |
| AuthRetry.Monitor.Claim | camadmiral/storage.py:2789-2804 | a claim succeeds if and only if the row is due, and moves it by its delay |
| AuthRetry.Monitor.Collect | camadmiral/media.py:112-126 | a stream leaves the refused state only by a finished job whose source is still the current one |
| AuthRetry.Monitor.Start | camadmiral/media.py:127-141 | new jobs only for due streams, one for a camera, within the capacity; no due stream waits while there is room, and none that waits was due before one that starts |
| AuthRetry.Monitor.RetryAuthentication | camadmiral/media.py:106-141 | one round: a stream leaves the refused state only by a job confirmed for its current source, the streams whose rows it makes in time are bounded, and a bounded stream whose row stays is bounded afterwards |
| AuthRetry.Monitor.Run | camadmiral/media.py:106-141 | over any run of results, rounds and edits a bounded stream stays bounded until it recovers or its row is dropped or made anew |
| AuthRetry.Monitor.RefusedAgain | camadmiral/storage.py:2697-2703 | the first failing input: a row outlives a different failure, and the third retry of the new period comes before its 1260 seconds are over |
| AuthRetry.Monitor.DisabledBetween | camadmiral/storage.py:2776-2779 | the second: a stream disabled for a moment while it stays refused loses its row, and its third retry comes after 422 seconds |
| AuthRetry.Monitor.JobsAreBounded | camadmiral/media.py:128-141 | at most one job for a camera and four in all |
| ScanQueue.SelectBatch | camadmiral/app.py:1007-1022 | at most sixteen targets, each chosen camera stands behind one of its physical identity, and a camera is passed over only behind sixteen chosen ones |
| ScanQueue.UpdateStandsFor | camadmiral/app.py:1015-1018 | taking over stronger evidence keeps the target right for the cameras it stood for |
| ScanQueue.MovesUp | camadmiral/app.py:1006-1052 | chosen cameras go behind a camera that was passed over, sixteen of them from ahead of it |
| ScanQueue.Queue.Enqueue | camadmiral/app.py:918-1053 | a scan is queued if and only if it is not refused and some camera can be looked for; only such cameras are selected, a camera that could be and is not moves up by at least sixteen, and times and counts of the others stay |
| ScanQueue.AllChances | camadmiral/app.py:977-1010 | a camera that can be looked for stays so until it is, so every accepted round is a chance |
| ScanQueue.Try | camadmiral/app.py:918-1053 | one round with changed cameras: the watched one is chosen, or a chance moves it up by sixteen places |
| ScanQueue.WaitIsBounded | camadmiral/app.py:918-1053 | cameras may change in any way from round to round as long as none comes to need recovery anew: sixteen times the chances of a camera before it is selected are no more than its rank; if it can be looked for and every round is accepted, it is selected within a sixteenth of its rank plus one |
| FrigateState.AliasesApart | camadmiral/frigate.py:917-930 | the aliases of different cameras are different |
| FrigateState.QuietBeside | camadmiral/frigate.py:1048-1126 | a request for one camera does not disturb the agreement of another |
| FrigateSync.OthersHold | camadmiral/frigate.py:1214-1447 | work on one camera leaves the others, and what the reconciler believes of them, as they were |
| FrigateSync.RestoreUndoesRetirement | camadmiral/frigate.py:472-489 | restoring a retired entry brings its recording and dashboard settings back as they were first seen |
| FrigateSync.Target.Await | camadmiral/frigate.py:1139-1178 | success means the camera matches and runs |
| FrigateSync.Target.Disable | camadmiral/frigate.py:1217-1268 | a disabled camera ends with a disabled entry or none, and is then owed an enable |
| FrigateSync.Target.Write | camadmiral/frigate.py:1370-1416 | the requests of a full application leave the merged entry and the aliases saved, and touch nothing else |
| FrigateSync.Target.Apply | camadmiral/frigate.py:1362-1446 | success means verified agreement, no owed enable and no retirement marker left |
| FrigateSync.Target.Enable | camadmiral/frigate.py:1269-1446 | success means agreement; a settled camera is only polled |
| FrigateSync.Target.Visit | camadmiral/frigate.py:1214-1446 | one camera of the loop |
| FrigateSync.Target.Reconcile | camadmiral/frigate.py:1181-1447 | nothing pending means Frigate agrees with every camera; if all was settled, no configuration, runtime-stream or restart request is made |
| FrigateSync.Target.ReconcileAgain | camadmiral/frigate.py:1181-1447 | the reconciler is a fixpoint: once nothing is pending and no enable is owed, any number of later runs make no such request and change nothing |
| FrigateSync.Target.Retire | camadmiral/frigate.py:472-489 | the first restore values seen are remembered before anything is written, and kept; success means the entry is retired |
| FrigateSync.Target.RetireAll | camadmiral/frigate.py:663-667 | all stale entries, or the first failure |
| FrigateSync.Target.Clean | camadmiral/frigate.py:650-751 | success leaves no undesired owned alias saved and no undesired owned camera that is not retired; only owned undesired names change |
| FrigateSync.Target.FullSync | camadmiral/frigate.py:635-768 | the same over cleanup and reconciliation together; every other camera and alias is unchanged and restore values stay the first seen |
| FrigateSync.Target.Erase | camadmiral/frigate.py:805-863 | one camera's entry retired and its aliases gone |
| FrigateSync.Target.RemoveCamera | camadmiral/frigate.py:771-871 | removal touches only the camera's own owned names; an imported or foreign entry is refused untouched |
| FrigateAgreement.WrittenEntryAgreesIff | camadmiral/frigate.py:1048-1093 | what the reconciler writes over a saved entry passes its own comparison if and only if the saved entry shows no live stream under another name |
| FrigateAgreement.NewEntryAgrees | camadmiral/frigate.py:972-978 | the entry of a new camera always passes |
| FrigateAgreement.ForeignLiveNeverSettles | camadmiral/frigate.py:1072-1077 | a live stream under another name stays through any number of attempts, and no written entry passes the comparison |

## Left out

- Takeover.Site.Run: one camera key at a time, with every other journal row and the other rows of each job fixed; no outside edits between the steps; AliasesFree and Separate say that the import aliases are not in use elsewhere.
- Takeover.Site.AdoptCamera: the checks of a prior adoption (credentials, roles, match signature) are answers of the surroundings, and so are identity binding and probing.
- Takeover.Site.AwaitPause: waiting, restarts, worker statistics and time limits are answers of the surroundings; runtime stream calls change no modelled state.
- Takeover.Site.SyncImported: one entry of the loop; the selection error that a refused pass records is not modelled, and time limits of calls are answers of the surroundings.
- ManagedConfig.InspectCamera: URLs and source strings are parsed records; alias names that are themselves URLs, leading slashes in relay paths and the text of `ffmpeg:` options are not modelled.
- StreamGraph.CollectMediaAliases: which error is reported first for an entry with several faults.
- HealthIncidents.Store.BindRoles: validation of stream choices, which rejects the whole transaction, and the rest of adoption.
- HealthIncidents.Store.OpenMove: the payload and details of alerts and incidents.
- HealthIncidents.Store.Deliver: the times between attempts, and the relay-restart message, which belongs to no incident.
- Availability.Totals: rounding of the reported numbers; time is exact.
- AddressRecovery.Recovery.RecoverBatch: the relay's configuration after a rollback is best effort and not promised; health fields, incidents, identity observations and address events are only calls that can fail; credentials are not part of a source.
- AddressRecovery.Recovery.RecoverAddresses: the individual error codes of cameras that were not planned.
- TargetedDiscovery.Discover: probing RTSP ports afterwards, merging results of several interfaces and `_deduplicate_targeted_devices`.
- Inventory.Reconcile: display names beyond the two rules shown, the display order, and fields that are only copied.
- CameraIdentity.Repository.Bind: the rest of the payload of a link; learning identities for older imports.
- AuthLockout.AdminAuthenticator.Authenticate: decoding of the header, an installation without a password, and the rounding of `Retry-After`.
- AuthRetry.Monitor.RetryAuthentication: latencies; jobs end at any time with any result.
- ScanQueue.Queue.Enqueue: identifiers are numbers in their sort order; scan subnets and request files are the two refusals.
- FrigateSync.Target.Reconcile: imported cameras are synchronised before (`Takeover.Site.SyncImported`, `Takeover.Site.SyncAgain`) and are not in the list; saved and effective configuration are one; selection errors and binding timestamps are not modelled; what is desired of a camera is an input whose hash is injective.
- FrigateSync.Target.FullSync: the stage and resource named in an error.
- Hashes are injective and encryption is the identity; table rows are maps and sequences; schema migrations, HTTP, SOAP, sockets, YAML text, ffmpeg, the user interface, Telegram transport and log redaction are not modelled.
- Periodic sampling, the thumbnail cache, runtime activity polling, preload reconciliation, `roles.py`, `rtsp_catalog.py` and summaries would add only easy members.
