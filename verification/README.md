# Models of the iOS web layer's stateful cores

This project models nine pieces of C++ that keep state across calls, callbacks or threads,
and proves what their headers and comments promise about them:

- **Web threads** (`WebThreadRegistry.dfy`, `WebThreadModel.dfy`): the registry of
  well-known thread IDs, and the posting of tasks to them by many threads at once, some of
  which skip the registry's lock because their target outlives them. The number of IDs is a
  parameter, and so is the number of physical threads.
- **The IO thread's delegate** (`IoThreadDelegate.dfy`): who is told `Init` and `CleanUp`,
  and when, while the thread is started, registered and stopped.
- **Deferred deletion of URL data sources** (`UrlDataDeletion.dfy`): reference counts that
  reach zero on any thread, a locked list, and a drain on the UI thread.
- **The chunked uploader** (`ChunkedUploader.dfy`): reads that complete at once or by a
  callback that may ask for the next read.
- **The cookie cache** (`CookieCache.dfy`): ordered sets and their differences by a linear
  merge, reported as changes.
- **The time smoother** (`TimeSmoother.dfy`), **promotions** (`NotificationPromo.dfy`),
  **certificate policies** (`CertificatePolicy.dfy`) and **clearing the HTTP cache**
  (`HttpCacheClearing.dfy`).

`Prelude.dfy` holds optional values and finite histories; `NetErrors.dfy` the error codes.

## How it is built

Code that updates fields is a class whose methods update the same fields; their contracts
tie the new state to a function of the old one. Where several threads or callbacks
interleave, the same state is also a value, `Next` is one indivisible step, and a theorem
ranges over every history of enabled steps (`History`, `Run`). Environment choices (what a
delegate reads, what a library call returns, who runs next) are arguments of the steps or
fields of the object, so "for all histories" includes all of them. A DCHECK is a
precondition of a method; in the interleaved models it guards the beginning of an
operation, and that it still holds under the lock is proved.

Assumptions that the theorems make about the rest of the program are written as predicates:

- `WebThreadModel.LifetimeOrder` is the promise of the enumeration in
  `web/public/thread/web_thread.h`: each thread outlives the ones below it. IDs are
  constructed in order; an ID is destroyed on its own thread once the threads below it have
  been destroyed and joined. Lifecycle calls do not overlap one another.
- `UrlDataDeletion.Rules` are three assumptions about when `SendResponse` may happen. Each
  is weaker than the indivisible step that would imply it.
- `IoThreadDelegate.SettersAgree`: a registration falls between the check and the assignment
  of `SetIOThreadDelegate` only if the assignment would not change the delegate. For one
  registration this is also necessary (`IoThreadDelegate.FixedWhileRunningIff`).

A UI loop that has stopped runs none of its tasks, and drops those that are posted to it
later: this is the shutdown that `web/webui/url_data_source_ios_impl.h:27-38` describes.

Where an assumption is needed, a lemma gives a history in which all else holds and the
result does not. Where the code and its comments disagree, the model follows the code:

- The header of the cookie cache says that `Update` returns true if any new cookie is not
  in the cache. When the vector has two cookies of one identity with different values, only
  the first counts. `CookieCache.DocumentedChangeIff` gives the exact condition, and
  `CookieCache.SecondValueIsNotNoticed` an input.
- The comment on `CertPolicy::Check` says "exact match to or subset". It is right exactly
  for queries that name some error (`CertificatePolicy.SubsetIff`); one without any error
  is answered UNKNOWN (`CertificatePolicy.NoErrorIsUnknown`).
- The comment in `SendResponse` says that its check keeps a source that is about to be
  deleted from being revived. It does so under the three rules, and under no two of them.

## Model

| member | source | states |
|---|---|---|
| WebThreadRegistry.WebThreadGlobals.constructor | web/web_thread_impl.cc:86-101 | a new registry has every ID uninitialized and no runner |
| WebThreadRegistry.WebThreadGlobals.Construct | web/web_thread_impl.cc:245-256 | an uninitialized ID becomes RUNNING and gets its runner; no other slot changes and runners stay stored exactly for the IDs in use |
| WebThreadRegistry.WebThreadGlobals.Destroy | web/web_thread_impl.cc:258-264 | a RUNNING ID becomes SHUTDOWN and keeps its runner |
| WebThreadRegistry.WebThreadGlobals.ResetGlobalsForTesting | web/web_thread_impl.cc:267-274 | a SHUTDOWN ID is uninitialized again, without a runner |
| WebThreadRegistry.WebThreadGlobals.IsThreadInitialized | web/web_thread_impl.cc:291-300 | true iff a task posted to the ID now would be accepted |
| WebThreadRegistry.WebThreadGlobals.CurrentlyOn | web/web_thread_impl.cc:303-310 | true iff the stored runner of the ID belongs to the calling thread |
| WebThreadRegistry.WebThreadGlobals.GetCurrentThreadIdentifier | web/web_thread_impl.cc:327-342 | the scan loop finds the first ID whose runner belongs to the calling thread, and none iff there is none |
| WebThreadRegistry.WebThreadGlobals.PostTaskHelper | web/web_thread_impl.cc:106-146 | alone in the registry, a call reports whether the ID accepts tasks and hands its task to the ID's runner iff so |
| WebThreadRegistry.FirstRunnerOf | web/web_thread_impl.cc:333-341 | what the scan answers: a matching ID with none before it, or nothing if no runner matches |
| WebThreadRegistry.ScanAgreesWithCurrentlyOn | web/web_thread_impl.cc:303-342 | with runners on distinct threads the scan answers an ID exactly where CurrentlyOn holds |
| WebThreadRegistry.ScanFollowsHistory | web/web_thread_impl.cc:245-342 | over all histories, on distinct threads, the scan answers an ID on a thread iff the ID was registered for it and not reset since, so also after the ID shut down |
| WebThreadRegistry.RegistryFollowsLifecycle | web/web_thread_impl.cc:245-274 | over all histories of critical sections each slot is what the last lifecycle step on its ID says; a runner is stored iff the state is RUNNING or SHUTDOWN |
| WebThreadRegistry.NothingAfterShutDown | web/web_thread_impl.cc:128-140 | no task is handed over after the SHUTDOWN transition of its ID unless the ID was registered again in between |
| WebThreadRegistry.DeliveredIffAccepted | web/web_thread_impl.cc:130-145 | in every history the queues hold each task as often as it was accepted |
| WebThreadRegistry.DeliveredIsHanded | web/web_thread_impl.cc:128-145 | in every history the queues hold, in the order of the posts, each accepted task with the runner that the last registration of its ID gave |
| WebThreadRegistry.DeliveryHasItsPost | web/web_thread_impl.cc:128-145 | so every delivery belongs to an accepted post to the ID that the receiving runner was registered for |
| WebThreadModel.RunKeepsInv | web/web_thread_impl.cc:106-146 | in every interleaving of posts and lifecycle calls: mutual exclusion, DCHECKs still true under the lock, scans that are right when used, and no lifecycle call at or below the ID of a poster that elided the lock |
| WebThreadModel.NoRace | web/web_thread_impl.cc:113-135 | no slot is read, by the scan under the lock or as the target with or without it, while another thread is about to write it |
| WebThreadModel.ElidesIffOutlived | web/web_thread_impl.cc:112-125 | with runners on distinct threads a poster goes on without the lock iff it has an ID at or above the target, and takes the lock otherwise |
| WebThreadModel.ElidedReadIsLockedRead | web/web_thread_impl.cc:113-135 | from the elision on, whatever the other threads do, the target's slots keep the values that a read under the lock would find |
| WebThreadModel.RunRefines | web/web_thread_impl.cc:86-145 | every interleaving corresponds to a legal history of atomic registry operations ending in the same slots and queues |
| WebThreadModel.PostTaskIsLinearizable | web/web_thread_impl.cc:124-145 | each finished call took effect once, between its invocation and its return; it returned true iff the target was RUNNING at that point, and handed over its task once if so, to the runner registered for the target at that point, and never otherwise |
| WebThreadModel.ElisionHappens | web/web_thread_impl.cc:119-131 | runs in the lifetime order do reach a read without the lock |
| WebThreadModel.TearDownHappens | web/public/thread/web_thread.h:48-61 | and can shut down all threads |
| WebThreadModel.RaceWithoutLifetimeOrder | web/public/thread/web_thread.h:48-61 | with every DCHECK satisfied but not the lifetime order, an unlocked read can race with a shutdown |
| WebThreadModel.LateDeliveryWithoutLifetimeOrder | web/public/thread/web_thread.h:48-61 | and a task can be handed over after the shutdown |
| IoThreadDelegate.RunKeepsInv | web/web_sub_thread.cc:22-107 | in every interleaving the delegate is fixed while IO is RUNNING, the initialization runs before the clean-up, and the notices sent are those due so far |
| IoThreadDelegate.DelegateIsLastSet | web/web_sub_thread.cc:22-29 | in every history the delegate is the one of the last assignment, none if there was none |
| IoThreadDelegate.TasksAreFifo | web/web_sub_thread.cc:42-53 | the thread takes its tasks in the order in which they were posted |
| IoThreadDelegate.DelegateIsTold | web/web_sub_thread.cc:86-107 | the delegate set at registration gets Init once and then CleanUp once, both while IO is RUNNING, and nobody else gets anything |
| IoThreadDelegate.InitIffRegistered | web/web_sub_thread.cc:42-53 | at the end of a thread the pair Init, CleanUp has been sent iff the thread was registered with a delegate set |
| IoThreadDelegate.CleanUpWithoutInit | web/web_sub_thread.cc:93-94 | a thread stopped without registration tells its delegate to clean up although it was never initialized |
| IoThreadDelegate.FixedWhileRunningIff | web/web_sub_thread.cc:22-29 | after a registration the delegate stays fixed while IO is RUNNING, in all continuations, iff every pending assignment of SetIOThreadDelegate has the registered value |
| IoThreadDelegate.SwappedWhileRunning | web/web_sub_thread.cc:22-29 | a registration between check and assignment lets the delegate be swapped while IO is RUNNING |
| IoThreadDelegate.WebSubThread.SetIOThreadDelegate | web/web_sub_thread.cc:22-29 | the call is the check followed by the assignment of the interleaved model |
| IoThreadDelegate.WebSubThread.RegisterAsWebThread | web/web_sub_thread.cc:42-53 | the call registers and then posts the initialization behind all earlier tasks |
| IoThreadDelegate.WebSubThread.CompleteInitializationOnWebThread | web/web_sub_thread.cc:99-107 | the task sends Init iff a delegate is set |
| IoThreadDelegate.WebSubThread.CleanUp | web/web_sub_thread.cc:86-97 | the delegate is told first, the registration dropped last |
| UrlDataDeletion.DeletionsAreConserved | web/webui/url_data_manager_ios.cc:77-115 | in every interleaving each time a count comes down to zero exactly one deletion becomes due, and it is due in exactly one place until it is done |
| UrlDataDeletion.RefCountIsRight | web/webui/url_data_source_ios_impl.cc:27-48 | a source's count is the number of references that the actions so far made and did not drop |
| UrlDataDeletion.DeletedWhereReleased | web/webui/url_data_manager_ios.cc:91-109 | a source is deleted at once, or about to be, exactly as often as its last reference was dropped on the UI thread, and pushed, or about to be, exactly as often as that happened elsewhere |
| UrlDataDeletion.DrainsInOrder | web/webui/url_data_manager_ios.cc:77-109 | drains delete the pushed sources in the order of the pushes; all other deletions are made at once |
| UrlDataDeletion.OffUiOnlyDrained | web/webui/url_data_source_ios_impl.h:45-49 | a source whose last reference was never dropped on the UI thread is only deleted by drains |
| UrlDataDeletion.RevivedByBinds | web/webui/url_data_source_ios_impl.cc:40-47 | a source is revived exactly by the binds that find its count at zero |
| UrlDataDeletion.AtMostOnce | web/webui/url_data_source_ios_impl.h:45-49 | a source that no SendResponse revived is deleted at most once, listed at most once, and unreferenced by then |
| UrlDataDeletion.ExactlyOnceIff | web/webui/url_data_source_ios_impl.cc:31-44 | once nothing is left to do, an unreferenced source has been deleted exactly once iff SendResponse never took a reference to it at count zero |
| UrlDataDeletion.NothingRevived | web/webui/url_data_source_ios_impl.cc:27-48 | under the three scheduling rules the check in SendResponse prevents every revival |
| UrlDataDeletion.DeletedOnceWhenUnreferenced | web/webui/url_data_manager_ios.cc:77-115 | under these rules nothing is deleted twice or while referenced, and in the end exactly the unreferenced sources are deleted |
| UrlDataDeletion.PushMustFollowRelease | web/webui/url_data_manager_ios.cc:100-109 | a SendResponse between a last release and its push can lead to a second deletion |
| UrlDataDeletion.BindMustFollowCheck | web/webui/url_data_source_ios_impl.cc:31-47 | so can a last release between the check and the bind |
| UrlDataDeletion.NotWhileDeleting | web/webui/url_data_manager_ios.cc:79-87 | so can a SendResponse on a source that was swapped out and not deleted yet |
| UrlDataDeletion.NoLostWakeUp | web/webui/url_data_manager_ios.cc:102-114 | while the UI loop takes tasks, a non-empty list implies a queued drain, a drain before its swap, or a thread about to post one |
| UrlDataDeletion.AlwaysSomethingDue | web/webui/url_data_source_ios_impl.h:27-38 | in every reachable state, also after the UI loop has stopped, some due step can be taken until things have settled |
| UrlDataDeletion.DueStepsRunOut | web/webui/url_data_manager_ios.cc:77-115 | each due step shrinks the work left, so the due steps come to an end |
| UrlDataDeletion.Settles | web/webui/url_data_source_ios_impl.h:27-38 | from every reachable state there is a run of due steps that deletes each source once for every time its count came down to zero; once the UI loop has stopped the due steps include direct calls of DeleteDataSources, before that they do not |
| UrlDataDeletion.SettlesInAnyOrder | web/webui/url_data_source_ios_impl.h:34-38 | every run of due steps, in whatever order, has done so once none is left |
| UrlDataDeletion.MustSettleIff | web/webui/url_data_source_ios_impl.h:27-38 | every order of the due steps other than direct calls settles things iff the UI loop takes tasks, or no push is on its way and the list is empty or a drain is about to look at it; this is when shutdown can do without a further call, however threads are scheduled |
| UrlDataDeletion.MaySettleIff | web/webui/url_data_source_ios_impl.h:27-38 | some continuation without a direct call settles things iff the UI loop takes tasks, or a drain is about to look at the list, or nothing is on the list or on its way there |
| UrlDataDeletion.LeftBehind | web/webui/url_data_source_ios_impl.h:28-33 | where no continuation settles things, no step but a direct call changes that |
| UrlDataDeletion.ReleasedDuringDrain | web/webui/url_data_manager_ios.cc:77-109 | a last release while the drain of the shutdown call has not swapped yet leads to a state in which some order of the due steps other than direct calls settles things and some order does not |
| UrlDataDeletion.ReleasedAfterLoop | web/webui/url_data_source_ios_impl.h:28-33 | a last release after the UI loop has stopped leads to a state in which nothing but a direct call deletes the source |
| UrlDataDeletion.UrlDataManager.DeleteDataSources | web/webui/url_data_manager_ios.cc:77-88 | everything listed is deleted, in order, and the list is empty, whether or not the UI loop has stopped; the run is a legal protocol run |
| UrlDataDeletion.UrlDataManager.DeleteDataSource | web/webui/url_data_manager_ios.cc:91-115 | on UI the source is deleted at once; elsewhere nothing is deleted, the source is appended, and a drain is posted iff the list was empty; a stopped UI loop drops the post |
| UrlDataDeletion.UrlDataManager.IsScheduledForDeletion | web/webui/url_data_manager_ios.cc:132-138 | true iff the source is on the list |
| ChunkedUploader.DeliveredIsFetched | net/chunked_data_stream_uploader.cc:64-97 | in every legal history the bytes given to the network, plus those about to be given, are the bytes the delegate produced, in order |
| ChunkedUploader.AnswerHasItsRead | net/chunked_data_stream_uploader.cc:34-62 | each answer is the first one to the last read before it, and a callback iff that read had returned ERR_IO_PENDING |
| ChunkedUploader.ReadHasOneAnswer | net/chunked_data_stream_uploader.cc:34-97 | an answer that is not the first one after a read belongs to another read, so no read is answered twice |
| ChunkedUploader.UnansweredRead | net/chunked_data_stream_uploader.cc:47-53 | a read without an answer is the last one and still pending, or was reset before the next read |
| ChunkedUploader.EndIsAnnounced | net/chunked_data_stream_uploader.cc:55-80 | the end of the stream is only told after the application announced it, and data is only fetched while it has not |
| ChunkedUploader.AnnouncedIff | net/chunked_data_stream_uploader.cc:47-56 | the end counts as announced iff some UploadWhenReady said so and no later one and no reset took it back; the flag `isFinalChunk` is this in every reachable state |
| ChunkedUploader.ChunkedDataStreamUploader.constructor | net/chunked_data_stream_uploader.cc:13-23 | a new uploader has no read pending and an empty history |
| ChunkedUploader.ChunkedDataStreamUploader.StreamIsIntact | net/chunked_data_stream_uploader.cc:64-97 | between calls delivered and produced bytes are equal |
| ChunkedUploader.ChunkedDataStreamUploader.OpenReadIsPending | net/chunked_data_stream_uploader.cc:34-53 | a read that is neither answered nor reset is the last one, and the pending flag is set |
| ChunkedUploader.ChunkedDataStreamUploader.InitInternal | net/chunked_data_stream_uploader.cc:27-32 | OK iff no read was ever made: rewinding is not supported |
| ChunkedUploader.ChunkedDataStreamUploader.ReadInternal | net/chunked_data_stream_uploader.cc:34-45 | at the end it returns 0, with data it returns its length with the data in the buffer, otherwise it stays pending; never a callback |
| ChunkedUploader.ChunkedDataStreamUploader.ResetInternal | net/chunked_data_stream_uploader.cc:47-53 | a pending read is dropped without an answer; buffers and delegate are untouched |
| ChunkedUploader.ChunkedDataStreamUploader.UploadWhenReady | net/chunked_data_stream_uploader.cc:55-62 | the announcement is recorded; a pending read is completed by its callback iff data or the end is there; with none pending nothing else happens |
| ChunkedUploader.ChunkedDataStreamUploader.Upload | net/chunked_data_stream_uploader.cc:64-97 | the pending flag decides between return and callback, and flag and buffer are cleared before the callback can read again |
| ChunkedUploader.ChunkedDataStreamUploader.FillBuffer | net/chunked_data_stream_uploader.cc:70-85 | at the end the end is announced and the delegate is not asked; otherwise it is asked once and its data, if any, is in the buffer |
| ChunkedUploader.ChunkedDataStreamUploader.Deliver | net/chunked_data_stream_uploader.cc:87-97 | the pending read is cleared first; its callback is called once with its data iff it had been pending |
| ChunkedUploader.ChunkedDataStreamUploader.OnRead | net/chunked_data_stream_uploader.h:30-35 | a delegate call puts its bytes at the front of the given buffer, or returns zero or an error and changes nothing |
| ChunkedUploader.ChunkedDataStreamUploader.OnReadCompleted | net/chunked_data_stream_uploader.cc:90-95 | the callback is given the bytes in its buffer, and whatever it asks for keeps the invariant |
| ChunkedUploader.ChunkedDataStreamUploader.Perform | net/chunked_data_stream_uploader.cc:34-62 | any requests in any order, nested in callbacks to any depth, only ever extend a legal history |
| CookieCache.LessIsStrict | net/cookies/cookie_cache.cc:59-79 | the order of strings is irreflexive, asymmetric and total |
| CookieCache.LessIff | net/cookies/cookie_cache.cc:59-79 | it is lexicographic: one string is smaller at the first difference, or ends there |
| CookieCache.ComparatorsAreOrders | net/cookies/cookie_cache.cc:56-80 | both comparators are asymmetric, cookies are incomparable exactly when their keys agree, and key order implies (key, value) order |
| CookieCache.ComparatorsAreTransitive | net/cookies/cookie_cache.cc:56-80 | both comparators are transitive |
| CookieCache.ComparatorsAreLexicographic | net/cookies/cookie_cache.h:50-65 | the comparators are the lexicographic orders of (domain, path, name) and of (domain, path, name, value) |
| CookieCache.FirstOfEachIff | net/cookies/cookie_cache.cc:27 | a cookie is kept iff it stands before all others of its identity |
| CookieCache.Insert | net/cookies/cookie_cache.h:67 | the set stays ordered; a cookie is added iff no cookie of its identity is there |
| CookieCache.SetFromRange | net/cookies/cookie_cache.cc:27 | the set of a vector has the first cookie of each identity |
| CookieCache.SetDifference | net/cookies/cookie_cache.cc:30-39 | the merge by the finer comparator on sets of the coarser order gives exactly the cookies whose identity and value the other set lacks, none dropped on insertion |
| CookieCache.CookieCache.Update | net/cookies/cookie_cache.cc:20-54 | the entry, the result and the two appended lists are as `IsUpdate` says, for null or given output vectors; other entries are untouched |
| CookieCache.OneUpdate | net/cookies/cookie_cache.h:28-42 | the lists turn the old contents into the new ones without idle entries, and the result is false iff both are empty |
| CookieCache.ReportsAreOrdered | net/cookies/cookie_cache.cc:30-50 | both lists are in the order of the entry without repetition; the removed cookies were in the entry, the added ones come first of their identity in the vector |
| CookieCache.ReplayGivesContents | net/cookies/cookie_cache.h:28-42 | over all interleaved updates, replaying the lists of a key gives its contents, which are the first occurrences in the last vector |
| CookieCache.EntryIsLastChange | net/cookies/cookie_cache.cc:41-53 | the cookies of an entry, with all attributes, are those of the last vector that made a difference |
| CookieCache.DocumentedChangeIff | net/cookies/cookie_cache.h:33-37 | the result is the documented one unless the vector has two values for one identity while its first occurrences are what the entry says already |
| CookieCache.SecondValueIsNotNoticed | net/cookies/cookie_cache.h:33-37 | with `a` cached, the vector `a`, `b` with `b` of the same identity and another value returns false where the header promises true |
| TimeSmoother.TimeSmoother.GetSmoothedTime | web/navigation/time_smoother.cc:10-23 | one call bumps or resets the water marks and returns the upper one |
| TimeSmoother.TimeSmoother.SmoothAll | web/navigation/time_smoother.cc:10-23 | a sequence of calls returns the sequence `Smoothed` |
| TimeSmoother.ForwardIsAcceptable | web/navigation/time_smoother.cc:11-23 | for times that do not go back the answers are above zero, not before their inputs, and strictly increasing |
| TimeSmoother.ForwardIsLeast | web/navigation/time_smoother.cc:11-23 | and pointwise the least such sequence |
| TimeSmoother.StaysClose | web/navigation/time_smoother.h:12-17 | for any inputs the marks are in order and an answer exceeds its input by at most the bumped calls since the last reset |
| TimeSmoother.RunIsConsecutive | web/navigation/time_smoother.cc:14-17 | the answers since the last reset are consecutive microseconds |
| TimeSmoother.IncreasingIff | web/navigation/time_smoother.h:12-17 | the answers are strictly increasing iff no input jumps back below the start of the run |
| TimeSmoother.AnswersIff | web/navigation/time_smoother.cc:10-23 | for any inputs the answers are the only sequence in which an input above the answer before it, or below the start of its run, is its own answer, and any other is answered one microsecond after the answer before it |
| TimeSmoother.AdjustedIff | web/navigation/time_smoother.cc:11-22 | an answer is its input iff the input starts a run |
| NotificationPromo.NumberReadsBack | chrome/browser/notification_promo.cc:158 | reading a key as a decimal number gives the promo id back, and keys have no leading zeros |
| NotificationPromo.KeysAreDistinct | chrome/browser/notification_promo.cc:158 | different promo ids are stored under different keys |
| NotificationPromo.WriteThenLoad | chrome/browser/notification_promo.cc:147-181 | what is written is what a new instance loads, and other promos are not disturbed |
| NotificationPromo.MissingStays | chrome/browser/notification_promo.cc:178-180 | stored fields replace those of the instance, missing or ill-typed ones leave them |
| NotificationPromo.NotificationPromo.InitFromPrefs | chrome/browser/notification_promo.cc:163-181 | the instance takes the stored record; what is missing or ill-typed stays as it was, and id -1 loads nothing |
| NotificationPromo.NotificationPromo.WritePrefs | chrome/browser/notification_promo.cc:147-161 | the record replaces that of its promo in the stored dictionary |
| NotificationPromo.NotificationPromo.HandleClosed | chrome/browser/notification_promo.cc:190-194 | closing is stored unless the instance is already closed |
| NotificationPromo.NotificationPromo.HandleViewed | chrome/browser/notification_promo.cc:196-203 | the view is counted and the first view time kept or set |
| NotificationPromo.NotificationPromo.CanShow | chrome/browser/notification_promo.cc:183-216 | the answer is `Showable`, for up to three readings of the clock |
| NotificationPromo.ShowableIff | chrome/browser/notification_promo.cc:183-216 | over all runs a promo is showable iff it has a text, was never closed, was viewed less often than its limit, was first viewed no longer ago than its limit, and the clock is strictly between start and end |
| NotificationPromo.CanShowFresh | chrome/browser/notification_promo.cc:163-216 | this is what CanShow answers on a freshly loaded instance |
| NotificationPromo.HandleFresh | chrome/browser/notification_promo.cc:163-203 | a handler call on a freshly loaded instance changes the preferences as `Handled` says |
| NotificationPromo.RecordIsHistory | chrome/browser/notification_promo.cc:147-203 | over all runs a promo's record is (time of its first view, number of its views, whether it was ever closed), whatever happens to others |
| NotificationPromo.UnsetPromoForgets | chrome/browser/notification_promo.cc:164-166 | for the unset id -1 the record only ever tells the last event, and nothing is loaded |
| NotificationPromo.NeverShownAgain | chrome/browser/notification_promo.cc:183-216 | once a promo cannot be shown after its start, it cannot be shown in any later state |
| NotificationPromo.ShowsAreLimited | chrome/browser/notification_promo.cc:196-207 | with a view limit, the views that found the promo showable number at most the limit |
| CertificatePolicy.AllowedIff | web/security/cert_policy.cc:16-26 | the bit test means: stored, some error, and no error beyond the stored ones; never DENIED |
| CertificatePolicy.SubsetIff | web/security/cert_policy.cc:16-17 | the comment "exact match to or subset" describes the bit test exactly for queries that name some error |
| CertificatePolicy.NoErrorIsUnknown | web/security/cert_policy.cc:16-26 | a query without any error is a subset of every stored status and is answered UNKNOWN |
| CertificatePolicy.FewerErrorsStayAllowed | web/security/cert_policy.cc:16-17 | what is allowed stays allowed with a non-empty part of its errors |
| CertificatePolicy.CertPolicy.Check | web/security/cert_policy.cc:18-26 | the judgement on the status stored for the certificate |
| CertificatePolicy.CertPolicy.Allow | web/security/cert_policy.cc:28-32 | the status of the certificate is replaced, no other changes |
| CertificatePolicy.CertificatePolicyCache.PolicyFor | web/security/certificate_policy_cache.cc:20-28 | finding the policy of a host may insert an empty one, which stores nothing |
| CertificatePolicy.CertificatePolicyCache.AllowCertForHost | web/security/certificate_policy_cache.cc:16-21 | exactly the status of this host and certificate changes |
| CertificatePolicy.CertificatePolicyCache.QueryPolicy | web/security/certificate_policy_cache.cc:23-29 | the judgement on what is stored; a query changes nothing that is stored |
| CertificatePolicy.CertificatePolicyCache.ClearCertificatePolicies | web/security/certificate_policy_cache.cc:31-34 | nothing is stored any more for any host |
| CertificatePolicy.CertificatePolicyCache.Run | web/security/certificate_policy_cache.cc:16-34 | any sequence of calls gets the answers, and leaves stored what, its history determines |
| CertificatePolicy.AllowedFromHistory | web/security/certificate_policy_cache.cc:16-34 | ALLOWED iff some allow for this host and certificate is still in force and covers the queried, non-zero error |
| CertificatePolicy.AnswersFromHistory | web/security/certificate_policy_cache.cc:16-34 | so each query of a run is answered ALLOWED or UNKNOWN from the calls before it |
| CertificatePolicy.QueriesDoNotMatter | web/security/certificate_policy_cache.cc:23-29 | a cache after some calls and one after the same calls without the queries answer any next query alike, although queries insert empty policies |
| HttpCacheClearing.Runners.ClearHttpCache | net/http_cache_helper.cc:97-107 | a request becomes one task on a network runner |
| HttpCacheClearing.Runners.ClearHttpCacheOnIOThread | net/http_cache_helper.cc:62-91 | the request waits in GetBackend iff that is pending, and goes on at once otherwise |
| HttpCacheClearing.Runners.DoomHttpCache | net/http_cache_helper.cc:36-58 | without a backend the error is answered; with one the doom result is, at once or later |
| HttpCacheClearing.Runners.OnBackendReady | net/http_cache_helper.cc:80-85 | GetBackend's callback goes on with DoomHttpCache |
| HttpCacheClearing.Runners.OnDoomDone | net/http_cache_helper.cc:46-48 | the doom callback posts the answer |
| HttpCacheClearing.Runners.PostCallback | net/http_cache_helper.cc:29-33 | an answer is a task on the requesting client's runner |
| HttpCacheClearing.OneStageOneAnswer | net/http_cache_helper.cc:36-107 | in every interleaving each request is in exactly one stage, doomed at most once, and answered exactly once as soon as the library has concluded |
| HttpCacheClearing.AnswersAreRight | net/http_cache_helper.cc:43-57 | every answer goes to the client that asked and carries the doom result, or the GetBackend error if the backend is null; dooms use the request's times |
| HttpCacheClearing.DoomedIffBackend | net/http_cache_helper.cc:43-48 | entries are doomed for a request exactly as often as the library provided a backend for it |
| HttpCacheClearing.ResultIsFinal | net/http_cache_helper.cc:49-57 | the result of a request never changes |
| HttpCacheClearing.AllAnswered | net/http_cache_helper.h:19-24 | when nothing is outstanding every request has been answered |
| HttpCacheClearing.StepsRunOut | net/http_cache_helper.cc:36-107 | every step that is not a new request brings one closer to its answer |

## Left out

- Thread names, error messages, task traits, executors and delays of posted tasks (`web/web_thread_impl.cc`): wiring without state of its own. Calls made before the globals exist are not modelled.
- Nested run loops and re-entrancy while a thread holds the registry lock: the code posts to a runner there and does nothing else.
- `base::Thread` beyond its FIFO loop, and the cancelling of URL fetchers in `WebSubThread::CleanUp`.
- `URLDataManagerIOSBackend` and `SendResponseOnIOThread`: the `backend_` field only decides whether delivered data is used; the model keeps the reference that the posted task takes.
- Destructors of sources that release or answer other sources while the drain loop deletes: possible in the interleaved model, not in the sequential class.
- The base class of the uploader (`net::UploadDataStream` is not part of this model): it is assumed to have one read outstanding at a time and none after the end. Weak pointers to the uploader are left out.
- ChunkedUploader.ChunkedDataStreamUploader.OnRead: buffers are sequences of bytes named by number; their ownership and the memory behind them are left out, and so is a delegate that calls back into the uploader from inside `OnRead`.
- Cookie attributes other than domain, path, name and value: neither comparator looks at them, and after a false `Update` the old ones stay. URLs are compared as strings.
- The saturation of `base::Time` in the time smoother, and the 32-bit overflow of the promotions' view counter.
- NotificationPromo.RecordIsHistory: covers handler calls on freshly loaded instances only; a stale instance rewrites from what it loaded. The parsing of parameters and the clock's conversion to floating point are left out.
- X.509 hashing: a certificate is its fingerprint, as a string.
- HttpCacheClearing.Runners.ClearHttpCache: which network runner a call names, and the order in which that runner takes its tasks; the model lets any queued task run next.
- The QUIC state that `ClearHttpCacheOnIOThread` clears, and library calls that break their contract by invoking a callback twice or not at all.
- Components whose bodies are in Objective-C++ files, and all user interface.
