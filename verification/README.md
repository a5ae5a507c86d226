# A verified model of reconciler-runtime

reconciler-runtime builds Kubernetes controllers from small reconcilers. This project
models the parts of it whose correctness does not show from reading one function, and
proves what they promise:

- the child lifecycle protocol: `ensureFinalizer`, `WithFinalizer`, `ResourceManager.Manage`,
  `ChildReconciler` and `ChildSetReconciler` as sequences of API calls
  (`Api`, `Finalizers`, `ResourceManagers`, `ManageEffects`, `ChildReconcilers`,
  `ChildSafety`, `ChildReports`, `SharedParents`, `Teardown`, `ChildSets`, `ChildSetSafety`,
  `ChildSetConvergence`, `ChildSetReports`, `SetTeardown`, `EarlyClearing`);
- the mutation cache and its patches (`Patches`, `ResourceManagers`);
- the lease tracker (`Tracker`);
- the condition manager and the status write decision (`Conditions`, `ConditionRuns`,
  `ConditionFields`, `StatusSync`);
- the combinators (`Combinators`, `CombinatorCases`).

`dafny verify dfyconfig.toml` checks everything.

## How it is modelled

Code that works in place is a class or a method with loops (`Finalizers.Resource`,
`ResourceManager`, `ChildReconciler`, `ChildSetReconciler`, `LeaseTracker`,
`ConditionManager`, `SyncLastTransitionTime` on an array). Each method is proved equal to a
function of the old state, whatever that state is (on an unsorted list of conditions, where
an unstable sort leaves a choice, to a relation); the properties are then proved about
those functions.

The API server (`Api`) is a cluster with a parent (or none), a map of children and a
*tape*. Each call takes one `Moment` from the tape: any number of outside steps happen
first (users delete or create the parent or delete children, others edit finalizers or
children, a child's own finalizer is set or released), then the call is served, refused, or
served with its reply lost; admission rewrites what is stored by any function. When the
tape is used up, no later call of that pass takes effect: a crash. A lemma without a
condition on the tape therefore covers every interleaving, every failed or ambiguous call
and a crash after every call. `Quiet` names the opposite: no outside step, no failure.

A parent marked for deletion disappears with its last finalizer; a child marked for
deletion stays while it is `held` by somebody's finalizer. A patch of the finalizers
replaces the whole list (section 2 of RFC 7396) and is refused when the resource version
is stale, or when it would add a finalizer to a parent being deleted.

### Hypotheses

- Get and List answer with the state at the moment of the call.
- One worker reconciles a parent at a time.
- Nobody else adds, removes or reorders the `reserved` finalizers or creates children
  that OurChild claims. An outside step that would do so has no effect in the model.
- OurChild and IdentifyChild are stable: `owned` and `id` are traits of a child.
  OurChild rejects an empty object (reconcilers/child.go:279-281 asks it about one when the Get fails).
- Finalizer and SkipOwnerReference are set together, as the documentation of
  reconcilers/child.go:77 intends; setting the finalizer alone leaves the resource manager
  with the older value of SkipOwnerReference, because `init` (reconcilers/child.go:161-187) copies it
  before `validate` (reconcilers/child.go:217-221) defaults it.
- The tracker's clock does not go back, and selectors with the same text match the same
  labels.

### Where the code and its documentation part

The model follows the code. Each documented promise that fails comes with the exact
condition and an input (a lemma whose name ends in `Here`).

- reconcilers/child.go:68-69 and line 278 of the repository's README.md say the finalizer is cleared after the child
  is deleted. An undisturbed pass that wants no child (the parent is being deleted, or
  DesiredChild answers nil) and finds two or more clears it in the pass that issues the
  deletes, while held children are still stored. `EarlyClearing.ClearedEarly` is an if and
  only if over all undisturbed successful passes; `ClearedEarlyHere` is an input, on a
  living parent and on one being deleted.
- reconcilers/childset.go:53-54 says the same of a set. There one held child is enough, on
  a parent being deleted, because WithFinalizer clears in the pass that issues the delete
  (`EarlyClearing.SetClearedEarly`, `SetTeardown.SetClearedEarlyHere`).
  What does hold, and is proved over every run, concerns children not yet marked for
  deletion (`ChildSafety.NeverOrphaned`, `SharedParents.NoneOrphaned`,
  `ChildSetSafety.SetNeverOrphaned`).
- reconcilers/child.go:97-98 says OnlyReconcileChildStatus skips reconciliation of the
  child. With two or more matches all of them are deleted (`ChildSafety.StatusOnlyWrites`,
  `EarlyClearing.StatusOnlyDeletesHere`).
- reconcilers/childset.go:102-103 says the results contain the union of desired and actual
  children. On a parent being deleted they are empty, because ChildReconciler returns
  before reflecting (reconcilers/child.go:269-271). `ChildSets.SetReports` states both
  cases; `SetTeardown.SetClearedEarlyHere` is an input here too.
- Lines 278 and 376 of the repository's README.md say that on a parent being deleted the
  desired children are not asked for and existing ones are deleted. A set asks all the same
  (reconcilers/childset.go:319-337), and an error, an empty id or a repeated id in the
  answer leaves children and finalizer as they are. Nothing else blocks an undisturbed pass
  that is not cut short: it succeeds, and releases the parent, if and only if the answer is
  none of these (`SetTeardown.SetReleasesExactly`, `BlockedHere`).
- reconcilers/resourcemanager.go:77-79 says the mutation cache avoids updates without
  effect. After an update the next Manage is a no-op if and only if the desired generation
  is the stored one or admission left the merged fields as desired
  (`ResourceManagers.UpdateSettles`, `UnsettledHere`); a patch of another generation never
  makes a difference (`ResourceManagers.StaleEntryNeverMatters`), and while the generations
  differ and admission changes a merged field, every call writes an update
  (`ResourceManagers.UpdatesForever`).
- apis/conditionset.go:86 and :342 say MarkFalse sets the happy condition to False.
  Afterwards happy is False if and only if the type is a dependent or the happy type itself,
  or happy was False before (`ConditionRuns.FalseMakesUnhappy`, `FalseLeavesHappyHere`).
- A False happy condition need not have a False dependent: MarkTrue can take the reason
  away without lifting it (`ConditionRuns.FalseLingers`, `FalseLingersHere`).
- Marking the happy type itself is not checked against the dependents
  (`ConditionRuns.HappyMarks`, `HappyMarksHere`), and can move its transition time although its content ends
  as it was (`StatusSync.HappyMarkHonest`, `HappyTimeMovesHere`); the pass at the end of a
  request mends the latter (`StatusSync.RequestIsHonest`).
- Stored conditions that already contradict each other stay so after initialization
  (`ConditionRuns.InitializeIsFaithful` gives the exact condition,
  `InitializeKeepsContradictionHere` an input).

## Model

| member | source | states |
|---|---|---|
| Finalizers.EnsureFinalizer | reconcilers/finalizer.go:113-149 | The call leaves server and local copy as `Ensure` says: nothing to do for an empty name or when the local copy already agrees, no local change on an error, local finalizers and version taken from the reply on success |
| Finalizers.Reconcile | reconcilers/finalizer.go:79-99 | WithFinalizer at any depth: add before the inner reconciler unless the parent is being deleted, clear after it only on a parent being deleted and only without an error |
| Finalizers.EnsureKeeps | reconcilers/finalizer.go:113-149 | Whatever happens at the call, the stored reserved finalizers are either as before or changed exactly as asked; after a success the local copy is known to agree with the server |
| Finalizers.EnsureOne | reconcilers/finalizer.go:113-149 | A call leaves every finalizer it does not name alone and what the worker knows of it true, however the call ends; the one it names is as before or as asked, and known after a success |
| Finalizers.NoLostUpdate | reconcilers/finalizer.go:131-146 | From any copy whose version is not misleading, however wrong about the finalizers: an accepted patch changes one finalizer and keeps all others in order as stored at that moment, although it replaces the list; a stale patch is always refused; a refused one changes neither side |
| Finalizers.CallsSucceed | reconcilers/finalizer.go:101-149 | Without outside writers a finite run of adds and clears over any names succeeds if and only if none has a finalizer to add to a parent being deleted or gone; then each call had its effect and local finalizers and version equal the stored ones |
| Finalizers.NestKeepsPrefix | reconcilers/finalizer.go:79-99 | At every level of a tower, whatever happens: stored finalizers stay a prefix of the outer-to-inner names; a success leaves all of them on a living parent and at most the enclosing levels' on one being deleted |
| Finalizers.BracketDiscipline | reconcilers/finalizer.go:79-149 | Over any number of requests with failures, lost replies, outside steps and crashes, the tower's stored finalizers are a prefix of the outer-to-inner list |
| Finalizers.TowerOutcome | reconcilers/finalizer.go:79-99 | A tower that succeeds leaves every finalizer on a living parent and none on one being deleted |
| Patches.ApplyOperations | reconcilers/resourcemanager.go:288-295 | Applying the operations one by one in any order succeeds exactly when each remove and replace finds its field, with one result |
| Patches.ApplyTo | reconcilers/resourcemanager.go:279-299 | Succeeds exactly for the right generation and applicable operations; otherwise the target is untouched |
| Patches.PatchRoundTrip | reconcilers/resourcemanager.go:248-270 | NewPatch(base, update) applies to base and turns its fields into those of update |
| Patches.PatchRebase | reconcilers/resourcemanager.go:248-299 | On any object: when it applies, if and only if; then exactly the fields in which base and update differ move, to the values of update |
| ResourceManagers.ResourceManager.Manage | reconcilers/resourcemanager.go:114-175 | The create, update and delete decision and the order of finalizer and child calls, tied to `Managed` on server, local parent and cache |
| ResourceManagers.ResourceManager.Update | reconcilers/resourcemanager.go:177-232 | Harmonize, apply the remembered patch, merge, skip or send, remember what admission changed, tied to `Updating` |
| ManageEffects.ManageCreates | reconcilers/resourcemanager.go:153-175 | Whatever the call meets: refused, nothing is stored and its error is the answer; accepted, the child stored under a new uid is the desired one as admission returns it and nothing else changes; the answer is that child, or an error when the reply is lost or it cannot be tracked |
| ManageEffects.QuietManageCreates | reconcilers/resourcemanager.go:153-175 | The same of an undisturbed success: exactly one child is added, with the desired owner, id and admitted object, and it is the one answered |
| ManageEffects.FinalizerComesFirst | reconcilers/resourcemanager.go:149-151 | When the finalizer cannot be set its error is the answer and no child is touched; otherwise Manage goes on with it set |
| ManageEffects.UntrackableStays | reconcilers/resourcemanager.go:195-199 | A child that cannot be tracked is not updated, and an error is answered |
| ManageEffects.ManageUpdates | reconcilers/resourcemanager.go:200-232 | In sync: no call and the same child; otherwise one update at the version read, refused when stale, whose error is the answer |
| ManageEffects.ManageDeletes | reconcilers/resourcemanager.go:130-147 | One delete unless the child is already going away; no other child changes, nothing is answered for it, and the error of the call is passed on |
| ResourceManagers.CacheFailsOpen | reconcilers/resourcemanager.go:182-191 | A remembered patch that does not apply makes no difference to what is sent, stored or returned by the next call |
| ResourceManagers.StaleEntryNeverMatters | reconcilers/resourcemanager.go:182-226 | A patch remembered from another generation makes no difference to cluster or outcome over any number of Manage calls, under any outside steps and failures |
| ResourceManagers.ManageStores | reconcilers/resourcemanager.go:177-232 | What an undisturbed Manage sends, field by field (remembered before desired, immutable and unmerged fields as they are), that the child stored is what admission makes of it, and that no other child changes |
| ResourceManagers.PatchSettles | reconcilers/resourcemanager.go:216-226 | The patch remembered after an update applies to the desired object exactly when the generations agree, and then merging changes nothing |
| ResourceManagers.UpdateSettles | reconcilers/resourcemanager.go:182-226 | After an update under any admission, the next Manage is a no-op if and only if the generations agree or admission left the merged fields as desired |
| ResourceManagers.UnsettledHere | reconcilers/resourcemanager.go:182-226 | An admission and a desired object after whose update another update is due |
| ResourceManagers.UpdatesForever | reconcilers/resourcemanager.go:182-226 | With another generation stored than desired and an admission that always changes a merged field, the call after any number of calls writes another update |
| ResourceManagers.SettlesAtOnce | reconcilers/resourcemanager.go:177-232 | From a child the cache does not know, one or more undisturbed calls succeed and leave the child in sync |
| ResourceManagers.UpdatedAtMostOnce | reconcilers/resourcemanager.go:153-232 | From a child the cache does not know, any number of Manage calls writes at most one update, under an admission that answers differently each time |
| ResourceManagers.CacheConverges | reconcilers/resourcemanager.go:149-232 | From no child at all, whether or not the finalizer is set yet, whatever is remembered of other children and whatever admission does at the create: the finalizer patch if due, one create, at most one update, then no write; from the second call on the child is reported and in sync. After the create admission may do anything to merged fields but gives the desired generation and keeps immutable fields |
| ChildReconcilers.FilterChildren | reconcilers/child.go:370-378 | Keeps exactly the claimed children in order (with ChildSafety.ClaimedMembers) |
| ChildReconcilers.ChildReconciler.ReconcileChild | reconcilers/child.go:302-357 | Known children or a list; one match is the actual child; several are all deleted and the pass goes on without one; then what is desired, tied to `Reconciled` |
| ChildReconcilers.ChildReconciler.Reconcile | reconcilers/child.go:258-300 | Which errors are reflected and swallowed and which are returned; nothing is reflected on a parent being deleted |
| ChildReports.DeletesInOrder | reconcilers/child.go:321-335 | Surplus children are deleted in order up to the first error: always a prefix, all of them on success |
| ChildReports.ErrorsKept | reconcilers/child.go:268-296 | An error is reflected instead of returned if and only if the parent stays and it is Invalid, or AlreadyExists with a blocker that a read does not show as ours; otherwise that very error is returned |
| ChildReports.ErrorsEndThePass | reconcilers/child.go:313-343 | A failed list, a failed delete or an error from DesiredChild is the error of the pass, and nothing is managed after it |
| ChildReports.ReportsStored | reconcilers/child.go:297-357 | An undisturbed success on a living parent reflects, without an error, the child stored in the end: the one match if there was exactly one, else the new one; nil when none is desired; for OnlyReconcileChildStatus the one match untouched or an empty object |
| ChildSafety.EnsureSafe | reconcilers/finalizer.go:113-149 | An add, or a clear with no live child, keeps every live child protected even when the reply is lost |
| ChildSafety.ManagedSafe | reconcilers/resourcemanager.go:123-175 | Manage keeps every live child protected at every outcome: the finalizer is on before the create, and off only without a live child |
| ChildSafety.ReconciledSafe | reconcilers/child.go:302-357 | A whole pass keeps it, from any list that shows every live child; on a parent being deleted a success leaves no live child of the claim |
| ChildSafety.StatusOnlyWrites | reconcilers/child.go:318-341 | With OnlyReconcileChildStatus a success writes nothing exactly when there is at most one child, one delete per child otherwise, and reports the single child or an empty object |
| ChildSafety.NeverOrphaned | reconcilers/child.go:308-356 | No orphan, over every run with crashes, failures, lost replies and outside steps: a live child of ours has a parent that exists and carries the finalizer |
| SharedParents.OthersGuarded | reconcilers/child.go:258-357 | A reconciler with another finalizer and other children leaves these protected and what is known of their finalizer true, at every outcome |
| SharedParents.InTurnSafe | reconcilers/sequence.go:40-55 | A sequence of such reconcilers sharing one copy of the parent keeps the children of all protected, also after a lost reply that ChildReconciler swallowed |
| SharedParents.NoneOrphaned | reconcilers/sequence.go:40-55 | No orphan over every run of such a sequence |
| Teardown.TeardownPass | reconcilers/child.go:318-367 | On a parent being deleted, whatever outside steps, failures, lost replies or crash the pass meets, 2·live + terminating + finalizer does not rise; a pass that succeeds lowers it unless it began with exactly one child, already going away |
| Teardown.UndisturbedPass | reconcilers/child.go:318-367 | An undisturbed pass that succeeds keeps the measure if and only if nothing is live and exactly one child is still going away or the finalizer is already off |
| Teardown.TickFalls | reconcilers/child.go:318-367 | No pass under any tape and no outside step raises the measure; the productive ones lower it strictly |
| Teardown.TeardownEnds | reconcilers/child.go:318-367 | Any run of passes under any tapes and of outside steps holds at most as many productive steps as the measure at its start; after that many the finalizer is off, and when it is off no child is live |
| Teardown.QuietPassSucceeds | reconcilers/child.go:302-357 | An undisturbed pass that is not cut short succeeds, so the progress above is always available |
| Teardown.AlwaysProductive | reconcilers/resourcemanager.go:123-147 | While a parent being deleted carries the finalizer there is a step that lowers the measure |
| Teardown.ReleasedWhenStuck | reconcilers/resourcemanager.go:123-147 | So a run that cannot go on has released the parent |
| ChildSets.DesiredById | reconcilers/childset.go:325-337 | The ids of the desired children, or a failure on the first empty or repeated one, tied to `ById` |
| ChildSets.ChildSetReconciler.Reconcile | reconcilers/childset.go:279-359 | List, compose, run in id order, report and clear the stash, tied to `SetReconciled` on server, parent, cache and stash |
| ChildSets.ChildSetReconciler.RunMembers | reconcilers/childset.go:344-350 | One ChildReconciler per id against the children known at the start, stopping at the first error, each success adding its entry to the stash |
| ChildSets.ChildSetReconciler.RunBracketed | reconcilers/childset.go:352-358 | The finalizer before the sequence on a living parent, after it on one being deleted and only without an error; no call without a finalizer |
| ChildSets.ByIdMembers | reconcilers/childset.go:325-337 | It fails if and only if some id is empty or repeated; otherwise it maps exactly the desired ids to their children |
| ChildSets.BadIdsWriteNothing | reconcilers/childset.go:325-334 | The ids are bad if and only if one is empty or repeated, and then nothing is written, reported or left in the stash |
| ChildSets.ReflectsOnce | reconcilers/child.go:258-300 | A reconciler that succeeds reflects if and only if the parent is not being deleted |
| ChildSets.MembersReport | reconcilers/childset.go:223-231 | The entries added are exactly the ids that succeeded before the first error, in order, one each; none on a parent being deleted |
| ChildSets.MembersCollect | reconcilers/childset.go:223-231 | In any run the stash collects exactly what each member reflected, id, child and error |
| ChildSets.SetReports | reconcilers/childset.go:279-404 | The report names exactly the desired and known ids in order up to the first error, all of them on success; it is empty when the parent is being deleted or the finalizer could not be added, and not made without a list or with bad ids; the stash is empty afterwards however the pass ends |
| ChildSetSafety.MembersSafe | reconcilers/childset.go:344-350 | The members, without finalizers of their own, keep the set's protection; on a parent being deleted no live child is left under their ids |
| ChildSetSafety.BracketedSafe | reconcilers/childset.go:352-358 | The set's finalizer goes on before the first member and comes off only after all succeeded |
| ChildSetSafety.ClearedOnlyWhenDone | reconcilers/childset.go:352-358 | A pass takes the finalizer off only on a parent being deleted, with no live child of the set left; a success there does take it off |
| ChildSetSafety.SetNeverOrphaned | reconcilers/childset.go:279-359 | Over every run, a live child of the set has a parent that carries the set's finalizer |
| ChildSetConvergence.OneIdConverges | reconcilers/child.go:318-356 | One member leaves one child under its id if desired (the old one if it was alone) and none otherwise, and touches nothing else |
| ChildSetConvergence.MembersConvergeInTurn | reconcilers/childset.go:344-350 | The same of all members in turn, against the list taken at the start |
| ChildSetConvergence.SetConverges | reconcilers/childset.go:279-359 | One undisturbed successful pass from any children leaves exactly one child per desired id, none under any other id including the empty one, and every foreign resource as it was |
| ChildSetConvergence.SetSucceeds | reconcilers/childset.go:279-359 | The pass does succeed when undisturbed, with ids in order, a trackable child, an up-to-date local copy and enough calls left |
| ChildSetReports.MembersTold | reconcilers/childset.go:344-350 | The members in turn: one entry each, showing what is stored when all are done, and no other children touched |
| ChildSetReports.SetReportsStored | reconcilers/childset.go:279-359 | An undisturbed success on a living parent reports for every desired or known id the child stored under it in the end, nil for an undesired one. With OnlyReconcileChildStatus it writes the finalizer if due and deletes of shared ids, nothing else; without shared ids no child changes; each entry is the known child or an empty object |
| ChildSetReports.SharedAre | reconcilers/childset.go:344-350 | Those deletes are of exactly the children that share their id with another |
| SetTeardown.MembersDelete | reconcilers/childset.go:344-350 | On a parent being deleted every member succeeds in turn when undisturbed, each deleting its own children only |
| SetTeardown.SetReleasesExactly | reconcilers/childset.go:279-359 | On a parent being deleted an undisturbed pass succeeds, and takes the finalizer off, if and only if DesiredChildren answers without an error and without empty or repeated ids; otherwise parent and children stay as they are |
| SetTeardown.BlockedHere | reconcilers/childset.go:319-337 | An error, an empty id and a repeated id each keep the finalizer on and the child live |
| EarlyClearing.ClearedEarly | reconcilers/child.go:318-341 | Of all undisturbed successful passes, those that take the finalizer off while children are still stored are exactly the ones that want no child and find two or more of which one is held |
| EarlyClearing.ClearedEarlyHere | reconcilers/child.go:318-335 | An input where that happens, on a living parent and on one being deleted |
| EarlyClearing.SetClearedEarly | reconcilers/childset.go:344-358 | For a set: exactly the passes over a parent being deleted that find a held child |
| SetTeardown.SetClearedEarlyHere | reconcilers/childset.go:344-358 | An input where one held child is enough, and where the report is empty |
| EarlyClearing.StatusOnlyDeletesHere | reconcilers/child.go:321-341 | An input where OnlyReconcileChildStatus deletes two children |
| Tracker.ScanExact | tracker/enqueue.go:224-233 | Drops expired keys and returns the rest |
| Tracker.ScanMatchers | tracker/enqueue.go:246-260 | Drops expired matchers and tells whether a running one matches namespace and labels |
| Tracker.ScanInexact | tracker/enqueue.go:245-264 | The same over all keys, dropping keys without matchers |
| Tracker.LeaseTracker.TrackReference | tracker/enqueue.go:110-196 | Rejects exactly the references that name neither or both of an object and a selector, or have a malformed kind, group, namespace or name, without a change; otherwise renews exactly one lease |
| Tracker.LeaseTracker.GetObservers | tracker/enqueue.go:199-271 | The answer and what is pruned, tied to `Answer` and `Pruned` |
| Tracker.TrackingRefines | tracker/enqueue.go:154-195 | Tracking keeps the nested maps a refinement of the flat history of requests |
| Tracker.PrunedRefines | tracker/enqueue.go:223-268 | So does pruning |
| Tracker.AnswerRefines | tracker/enqueue.go:199-271 | A refinement answers exactly the keys with a valid past request that matches and whose lease runs |
| Tracker.RunRefines | tracker/enqueue.go:110-271 | So does every lookup of every interleaved run, under a clock that does not go back |
| Tracker.NewRefines | tracker/enqueue.go:40-45 | A new tracker refines the empty history |
| Tracker.PruningIsInvisible | tracker/enqueue.go:221-268 | A lookup inserted or removed anywhere in a run changes no other answer |
| Tracker.BucketsAreClean | tracker/enqueue.go:224-267 | After a lookup its buckets hold no expired entry and no empty map, and no other bucket changed |
| Conditions.NewConditionSet | apis/conditionset.go:125-139 | The dependents without repetitions and without the happy type |
| Conditions.SortByKind | apis/conditionset.go:224 | An ordered arrangement of the same conditions |
| Conditions.OrderedUnique | apis/conditionset.go:224 | For conditions of distinct types there is only one, so the unstable sort is determined |
| Conditions.StoresSorted | apis/conditionset.go:204-226 | On a sorted list storing a condition has one result, the sorted list with that condition in its place |
| Conditions.ConditionManager.GetCondition | apis/conditionset.go:189-200 | The first condition of the type |
| Conditions.ConditionManager.SetCondition | apis/conditionset.go:204-226 | On any list: unchanged exactly when a stored condition differs at most in its time; else ordered, with the new condition instead of all of its type |
| Conditions.ConditionManager.ClearCondition | apis/conditionset.go:239-264 | Refuses terminal types; else removes exactly the conditions of the type |
| Conditions.ConditionManager.MarkTrue | apis/conditionset.go:268-296 | On any list, up to the order of the unstable sort (`StoresTrue`), and exactly on a sorted one: t becomes True, then happy becomes True with the happy reason if there are dependents and all of them are True after the first change (`MarkedTrue`, whose effect on the summary is RunKeepsFaithful) |
| Conditions.ConditionManager.MarkUnknown | apis/conditionset.go:300-340 | On any list, up to the order of the unstable sort (`StoresUnknown`), and exactly on a sorted one: t becomes Unknown; then a False dependent makes happy False unless it is, and otherwise a dependent t makes happy Unknown (`MarkedUnknown`) |
| Conditions.ConditionManager.MarkFalse | apis/conditionset.go:343-359 | On any list, up to the order of the unstable sort (`StoresFalse`), and exactly on a sorted one: t becomes False, and happy with it exactly when t is a dependent (`MarkedFalse`) |
| Conditions.ConditionManager.InitializeConditions | apis/conditionset.go:363-397 | On any list, up to the order of the unstable sort (`StoresInitial`), and exactly on a sorted one: a missing happy condition becomes Unknown, then missing dependents become True if happy is True and Unknown otherwise (`Initialized`) |
| Conditions.ConditionManager.IsHappy | apis/conditionset.go:180-185 | True exactly when the happy condition is present and true |
| Conditions.PutFinds | apis/conditionset.go:222-225 | Storing a condition keeps the list sorted by type, changes what is found under its type and under no other |
| ConditionFields.SetFields | apis/conditionset.go:204-226 | The type shows the status, reason and message set; its time is kept only with the whole condition; other types are as before |
| ConditionFields.TrueFields | apis/conditionset.go:268-296 | Field by field: the type as asked; happy True with the set's reason and no message exactly when all other dependents are True; nothing else |
| ConditionFields.UnknownFields | apis/conditionset.go:300-340 | Field by field: the type as asked; happy False when another dependent is False and it is not, Unknown for a dependent when none is; nothing else |
| ConditionFields.FalseFields | apis/conditionset.go:343-359 | Field by field: the type as asked, happy likewise exactly for a dependent; nothing else |
| ConditionFields.ClearFields | apis/conditionset.go:239-264 | The condition is gone unless terminal, all others are as before |
| ConditionFields.InitialFields | apis/conditionset.go:363-397 | Missing terminal conditions read Initializing, True under a True happy condition and Unknown otherwise |
| ConditionRuns.InitializeFills | apis/conditionset.go:363-397 | Overwrites nothing present, adds exactly the missing terminal types, keeps the order, is idempotent |
| ConditionRuns.RunKeepsSorted | apis/conditionset.go:204-397 | Every run of operations keeps the list strictly sorted by type |
| ConditionRuns.RunKeepsFaithful | apis/conditionset.go:239-359 | Over every run of marks on other types, sets, clears and initializations: happy is True if and only if every dependent is, and False whenever a dependent is |
| ConditionRuns.InitializeIsFaithful | apis/conditionset.go:363-383 | Initialization of stored conditions establishes that if and only if they did not contradict it |
| ConditionRuns.InitializeKeepsContradictionHere | apis/conditionset.go:363-383 | Stored conditions that initialization leaves contradicting each other |
| ConditionRuns.HappyMarks | apis/conditionset.go:268-359 | A mark on the happy type itself keeps that if and only if it is MarkTrue exactly when all dependents are True |
| ConditionRuns.HappyMarksHere | apis/conditionset.go:268-296 | An input where marking happy True contradicts a False dependent |
| ConditionRuns.FalseMakesUnhappy | apis/conditionset.go:342-359 | After MarkFalse happy is False if and only if the type is a dependent or happy itself, or happy was False |
| ConditionRuns.FalseLeavesHappyHere | apis/conditionset.go:342-359 | An input where MarkFalse leaves happy True |
| ConditionRuns.FalseLingers | apis/conditionset.go:268-296 | MarkTrue leaves a False happy condition without a False dependent if and only if happy was False, no other dependent is False and not all others are True |
| ConditionRuns.FalseLingersHere | apis/conditionset.go:268-296 | An input where it does |
| ConditionRuns.ApplyKeepsComplete | apis/conditionset.go:239-383 | No operation removes a terminal condition |
| StatusSync.SyncLastTransitionTime | reconcilers/resource.go:374-389 | The nested loops in place leave the array as `Synced` says, on any lists |
| StatusSync.FinishStatus | reconcilers/resource.go:228-233 | On sorted lists the status is written if and only if the parent stays and its conditions, transition times aside, or the rest of its status differ |
| StatusSync.SyncedFinds | reconcilers/resource.go:374-389 | Under every type: the original when only the time differs, else the proposed condition |
| StatusSync.RestoredExactly | reconcilers/resource.go:370-389 | The result equals the original list element for element if and only if content is the same |
| StatusSync.NoOpWritesNothing | reconcilers/resource.go:228-233 | That of any run of operations between loading and saving, however often conditions flapped |
| StatusSync.ApplyIsHonest | apis/conditionset.go:204-226 | No operation on other types moves a transition time without another change |
| StatusSync.HappyMarkHonest | apis/conditionset.go:268-340 | For marks on the happy type: exactly when one does |
| StatusSync.HappyTimeMovesHere | apis/conditionset.go:268-296 | An input where only the transition time of happy moves |
| StatusSync.RequestIsHonest | reconcilers/resource.go:221-233 | After one whole request every condition is as stored, or has the time of the request and differs in more than its time |
| Combinators.AggregateResults | reconcilers/reconcilers.go:190-201 | Requeue if any asks for it; after the shortest non-zero delay named by any |
| Combinators.AggregateLaws | reconcilers/reconcilers.go:190-201 | Associative, commutative, idempotent, the empty result is the identity |
| Combinators.Reconcile | reconcilers/flow.go:110-393 | IfThen, While, TryCatch and Sequence change the resource and return as the interpreter `Eval` says |
| Combinators.ReconcileSequence | reconcilers/sequence.go:40-55 | Runs the parts in order; at an error returns the result of the failing part |
| Combinators.ReconcileWhile | reconcilers/flow.go:241-271 | The limit is checked before the condition, the condition before the body |
| CombinatorCases.SequenceStops | reconcilers/sequence.go:40-55 | If the first k parts run without error and the next errs, the sequence ends with exactly its state, result and error |
| CombinatorCases.SequenceCompletes | reconcilers/sequence.go:40-55 | If no part errs it ends where the last does, with the aggregate of all results and no error |
| CombinatorCases.SequenceOfOne | reconcilers/sequence.go:40-55 | A sequence of one part is that part |
| CombinatorCases.SequenceStopsHere | reconcilers/sequence.go:47-50 | An input where the part after the failing one does not run |
| CombinatorCases.IfThenBranches | reconcilers/flow.go:110-124 | The branch chosen by the condition runs, or nothing |
| CombinatorCases.CatchDecides | reconcilers/flow.go:379-382 | Catch sees what Try left and decides state, result and error |
| CombinatorCases.FinallyRuns | reconcilers/flow.go:383-392 | Finally runs after errors too, on the state left; its own error wins; results are aggregated |
| CombinatorCases.WhileStops | reconcilers/flow.go:249-268 | A body that errs ends the loop with its state and error and the aggregate of all iterations, its own included |
| Combinators.SequenceAppend | reconcilers/sequence.go:40-55 | Running two lists in turn is running them as one, errors included |
| Combinators.SequenceFrom | reconcilers/sequence.go:40-55 | What was aggregated before changes only the aggregate of a run that succeeds |
| Combinators.FlattenPreserves | reconcilers/sequence.go:40-55 | Splicing nested sequences at every depth of a tree preserves state, result and error of every run |
| Combinators.WhileBound | reconcilers/flow.go:241-271 | With a limit and a body that never errs: exactly as many iterations as the condition allows, the aggregate of exactly their results, ErrMaxIterations if and only if the limit was reached |
| Combinators.WhileUnlimited | reconcilers/flow.go:249-270 | Without a limit the interpreter ends when the condition turns false, with the aggregate of its results, and not before |
| Combinators.MoreFuel | reconcilers/flow.go:241-271 | An answer does not depend on how many iterations the interpreter is granted, for every tree |
| Combinators.UnlimitedRuns | reconcilers/flow.go:249-270 | The run itself, without any bound: it ends where the condition turns false, with the aggregate of the results, and never if it does not |
| Combinators.LimitedEnds | reconcilers/flow.go:241-271 | A tree whose loops all have limits always ends, errors or not |

## Left out

- ResourceManagers.CacheConverges: the entry does not expire during the run, after which one more update may be sent; in the safety results the cache is arbitrary in each request, which covers expiry.
- Combinators.ReconcileWhile: a loop without a limit may run forever; the method gives up after `fuel` iterations. `RunOf` and the lemma UnlimitedRuns are about the run without that bound.
- Patches.ApplyTo: objects are flat, one value per field path; arrays, nested insertion and a failure to decode after the target was emptied (reconcilers/resourcemanager.go:297-298) are not modelled.
- Logging, events, Sanitize, diffs, names: no effect on state.
- Setup, watches, validate, lazy init and reflection helpers: a valid configuration is given.
- Owner references and SetControllerReference: children are recognized by OurChild.
- Deletes name a child by its uid; a new object under an old name is not modelled. Lists come in order of uid.
- An update or create answered with an error of kind Invalid or AlreadyExists is one of the refusals of the tape; name uniqueness is not part of the cluster.
- Stale informer caches: reads are fresh (see Hypotheses).
- How the status is found and compared by reflection: conditions are a list and the rest of the status one value.
- The status write itself, ErrHaltSubReconcilers, defaulting webhooks, and the Result of WithFinalizer: the status write is an outside touch of the parent between two requests.
- AggregateError, RetrieveKnownChildren for users, MergeMaps and OverrideSetup: they would add only easy cases.
- aggregate.go, sync.go, config.go, cast.go, webhook.go and duck: they reuse what is modelled here or wrap libraries.
- The tracker's GetReference errors, its mutex, selector parsing and the regular expressions for names: `isIdentifier`, `isSubdomain`, `isLabel` and `selects` are arbitrary predicates.
- A nil conditions accessor, on which all operations do nothing.
