# Verified models of zzdds's binding boundary

zzdds is a DDS implementation in Zig with bindings for C, C++ and Java. Around its core
lie protocols about lifetime, ownership and concurrency: who frees an attachment's
context, when a wrapper may still be used, who released a pinned string, whether a
completion flag can be lost. This project models those protocols, and the loops with
arithmetic in the examples and scripts, in Dafny 4.11 and proves what they keep.

Concurrent code is a state machine: `Step` takes a state and an action and returns the
next state, or nothing where the action is not possible, with one action for every lock,
load, store, core call or callback. `Run` follows a schedule from the initial state, and
the results hold after every schedule, for any number of threads. Beside what is
never wrong stand results about what is always possible: a call made alone does its work
and nothing else, and calls in progress can always come back. Where the source
explains why an earlier design was wrong, the choice is a field of `Config`, and a result
says that the protocol is safe if and only if the source's choice is made; the other
direction is a concrete schedule. Code that works alone on its own state is a class or a
method with the source's loops, proved against a function, and the properties are proved
of the function.

| file | models |
|---|---|
| `StaticPool.dfy` | the static pool allocator: a free list threaded through the bytes of the blocks it hands out, refining a partition of blocks |
| `PoolThreads.dfy` | the same allocator as steps of any number of threads |
| `References.dfy` | references, their holders and their counts |
| `Attachment.dfy`, `AttachmentVariants.dfy` | WaitSet attachment with release contexts, in C++ and Java, and why each of its choices is needed |
| `AttachmentEffects.dfy` | what an attach alone adds, and what each end of an attachment takes away |
| `WaitSetTeardown.dfy` | the core's side of attachment: WaitSets and guard conditions that tear each other's links down |
| `CallEffects.dfy` | what a whole attach or detach does, and what becomes of the hook of an attachment |
| `TeardownProgress.dfy` | that the core's four operations neither block each other nor go on for ever |
| `LateRegistration.dfy` | when a guard's deinit ends all its attachments |
| `WrapperCache.dfy` | one wrapper per handle through a cache of weak references |
| `HandleWrap.dfy` | a handle's way to its wrapper under failures |
| `ClassCache.dfy` | the JNI class and constructor caches |
| `TypeSupportRegistry.dfy` | TypeSupport contexts of the Java binding and the core's registry |
| `FilterPins.dfy` | strings pinned during a content-filter evaluation |
| `CoherentSets.dfy` | publisher and subscriber of two topics in coherent sets |
| `RawLoan.dfy`, `Payload.dfy` | the raw-loan pair, and its payload encoding |
| `Catchup.dfy` | the late joiner's two-thread completion protocol |
| `ShapeWriter.dfy` | the shape publisher's write loops and the subscriber's checks |
| `Changelog.dfy` | the release-notes script |

## Findings

Some promises of the source do not hold on all inputs; the models keep the code as it is
and prove exactly when they hold.

- `registerTypeSupport` releases its context itself whenever registration fails
  (java_runtime/zzdds_java_runtime.c:746-752), but when the core fails after it has
  wrapped the context it has released it already (src/c_abi/typesupport.zig:313-323,
  src/dcps/participant.zig:1887-1911): out of memory for the name or the table, or a
  pinned provider under the same name. The context is then freed twice.
  `TypeSupportRegistry.FreedOnceIffNeverRefused` proves that this is the only way, and
  `TypeSupportRegistry.PinnedNameFreesTwice` gives a shortest run.
- The raw-loan subscriber's listener takes once more after the sample that completes the
  count (examples/java/raw-loan/Subscriber.java:47-53), while the main thread may already
  be deleting the reader. The refused take ends the program with FAIL although all samples
  were accepted. `RawLoan.OnlyTakeCanFail` proves that no other FAIL of the listener or
  the delete is reachable, `RawLoan.TakeCanFail` gives the run, and
  `RawLoan.NeverFailsIffStops` proves that no run ends so if and only if the listener
  takes no more once it has everything.
- Automatic shape sizes overflow an int when the modulo is the largest int or is absent
  (examples/java/shape/ShapeMain.java:346-349); the subscriber then rejects the sample
  (`ShapeWriter.SizesPositiveIff`, `ShapeWriter.OverflowIsRejected`).
- A guard condition deinitialized while an attach that names it has its reference but is
  not yet in the guard's list stays attached, and its hook waits for the WaitSet's end,
  although include/zzdds_c.h:141-149 lets the condition's destruction end an attachment
  (src/dcps/waitset.zig:586-600, `LateRegistration.LateRegistrationStays`).
  `LateRegistration.EndsAllIffWaits` proves that the deinit ends every attachment in
  every schedule if and only if callers begin it only when each attach naming the guard
  has entered its list or given up. Nothing is freed too early either way.
- For guard conditions it no longer matters that a guard's teardown acquires a WaitSet
  that is itself being torn down (src/dcps/waitset.zig:787-810):
  `WaitSetTeardown.SafeIffAttachRef` holds either way.

Constants of the source (512 blocks, 20 sets, 5 samples, 8 pins) are parameters here.
Two documents differ from the code they describe, and the models follow the code:
include/zzdds_c.h:269-276 says a TypeSupport context is released when its registration is
replaced or its participant destroyed, and does not mention failures; include/zzdds_c.h:161-163
says out_accepted tells whether the context was stored, but src/dcps/waitset.zig:551-608
sets it before storing or registering may still fail.

## Model

| member | source | states |
|---|---|---|
| Words.DecodeEncode | examples/spikes/rust/static_pool_allocator.c:15-17 | the link stored in a free block, eight little-endian bytes, reads back as the address that was stored |
| StaticPool.Pool.Disjoint | examples/spikes/rust/static_pool_allocator.c:19 | bytes of two different blocks never overlap |
| StaticPool.Pool.Aligned | examples/spikes/rust/static_pool_allocator.c:13-19 | every block satisfies every alignment the pool accepts, 1 to 16 |
| StaticPool.Pool.Reset | examples/spikes/rust/static_pool_allocator.c:31-40 | from any contents of memory the list becomes all blocks in order, none held |
| StaticPool.Pool.Alloc | examples/spikes/rust/static_pool_allocator.c:42-50 | on the bytes: exactly the sequential allocator's answer and next state, or NULL without touching anything when the request is too large |
| StaticPool.Pool.Free | examples/spikes/rust/static_pool_allocator.c:63-73 | on the bytes: the block goes back to the front of the free list; a null pointer changes nothing |
| StaticPool.Pool.Resize | examples/spikes/rust/static_pool_allocator.c:52-61 | says yes exactly when the new length fits a block, and changes nothing |
| StaticPool.Pool.ClientWrite | examples/spikes/rust/static_pool_allocator.c:42-73 | a client's write into a block it holds leaves the list, threaded through the other blocks, as it was |
| StaticPool.Serve | examples/spikes/rust/static_pool_allocator.c:42-73 | one operation of any kind on the in-place pool is that operation on the set of blocks, answer included; a resize is answered yes exactly when the length fits a block |
| StaticPool.Drive | examples/spikes/rust/static_pool_allocator.c:31-73 | any sequence of operations gives the sequential specification's answers and leaves memory representing its final state |
| PoolSpec.FreshPartition | examples/spikes/rust/static_pool_allocator.c:31-40 | after a reset every block is free once and none is held |
| PoolSpec.DoKeepsPartition | examples/spikes/rust/static_pool_allocator.c:42-73 | one operation keeps free and held blocks a duplicate-free partition of all blocks |
| PoolSpec.RunKeepsPartition | examples/spikes/rust/static_pool_allocator.c:42-73 | so does every sequence of legal operations |
| PoolSpec.AllocIsSetAlloc | examples/spikes/rust/static_pool_allocator.c:42-50 | seen as a set: an in-range request fails only when no block is free, and otherwise moves one free block to the held ones |
| PoolSpec.FreeThenAlloc | examples/spikes/rust/static_pool_allocator.c:42-73 | a block freed is the next one handed out, and the pool is then as before |
| PoolThreads.RunKeepsInv | examples/spikes/rust/static_pool_allocator.c:29-73 | after every interleaving the links from the head visit exactly the free blocks and no block is in two threads' hands |
| PoolThreads.Linearizable | examples/spikes/rust/static_pool_allocator.c:42-73 | every run is equivalent to a sequential one in which each call takes effect between its start and its end |
| PoolThreads.CallsAnsweredInOrder | examples/spikes/rust/static_pool_allocator.c:42-73 | the effects recorded for a thread are those of the calls it made, in order and each with its own block, but for a call still open |
| PoolThreads.FailsOnlyWhenEmpty | examples/spikes/rust/static_pool_allocator.c:42-50 | an in-range request returned NULL exactly when the pool was empty where it took effect |
| PoolThreads.Conservation | examples/spikes/rust/static_pool_allocator.c:42-73 | free blocks plus blocks owned or carried by the threads always number the blocks of the pool |
| PoolThreads.NoDeadlock | examples/spikes/rust/static_pool_allocator.c:21-73 | while a call is in progress some thread can make a step |
| PoolThreads.ComesToRest | examples/spikes/rust/static_pool_allocator.c:21-73 | from every reachable state all calls in progress can come back, each step leaving fewer to make |
| PoolThreads.SafeIffLocking | examples/spikes/rust/static_pool_allocator.c:21-29 | with two or more threads no block is ever in two hands if and only if the mutex is taken |
| References.Added | include/zzdds_cpp.hpp:941-955 | taking a reference keeps every count equal to the number of holders |
| References.Removed | include/zzdds_cpp.hpp:990-996 | dropping one does too, and the count was positive |
| Attachment.RunKeepsInv | include/zzdds_cpp.hpp:913-1003 | the ownership, reference and memory invariant holds after every schedule of calls, detaches, destructions and releases |
| Attachment.ReleasedExactlyOnce | include/zzdds_cpp.hpp:913-1003 | every context is freed at most once and nothing that still names one names a freed one; at rest the live contexts are exactly those of the attachment records |
| Attachment.Keepalive | include/zzdds_cpp.hpp:1014-1017 | a condition's count is at least the number of live contexts naming it, so a guard condition's destructor never runs while it is attached |
| Attachment.OkIsProtected | java_runtime/zzdds_java_runtime.c:377-419 | a call answered OK leaves, at that step, an attachment whose context is live and holds a reference, the earlier context for a duplicate |
| Attachment.ResourcesMatch | include/zzdds_cpp.hpp:981-996 | whatever happens to the default memory resource, a resource's outstanding count is its number of live contexts, and zero at the end |
| Attachment.LeaksWithoutEnv | java_runtime/zzdds_java_runtime.c:335-340 | a released context's Java reference is lost exactly when the trampoline finds no JNIEnv |
| AttachmentEffects.EndsExactly | include/zzdds_cpp.hpp:999-1003 | a detach ends that attachment, a WaitSet's or a condition's destruction exactly its own, each handing over one context, and nothing else changes |
| AttachmentEffects.AttachAlone | include/zzdds_cpp.hpp:913-955 | alone a call in either binding makes its attachment, whose context has taken over the reference passed, and changes nothing else |
| AttachmentVariants.FaultFreeIffCaptured | include/zzdds_cpp.hpp:966-996 | memory always goes back where it came from if and only if the context remembers its resource |
| AttachmentVariants.AcceptedAloneLeaks | src/dcps/waitset.zig:551-608 | with only out_accepted tested, an attach the core fails after setting it leaks its context |
| AttachmentVariants.RcAloneLeaks | java_runtime/zzdds_java_runtime.c:408-417 | with only the return code tested, a duplicate attach leaks its context |
| AttachmentVariants.LeakFreeIffBothTested | include/zzdds_cpp.hpp:922-930 | no context is ever leaked if and only if both answers are tested |
| WrapperCache.RunKeepsInv | include/zzdds_cpp.hpp:176-195 | the cache, the wrappers and what each thread knows stay consistent in every interleaving |
| WrapperCache.OneWrapper | include/zzdds_cpp.hpp:186-195 | a handle in its current life has at most one live wrapper per tag |
| WrapperCache.UsedOnlyAlive | include/zzdds_cpp.hpp:190-195 | a cached object is used only while alive, in every schedule, whether or not callers keep their handles |
| WrapperCache.CallerGetsIt | include/zzdds_cpp.hpp:186-195 | a call returns a wrapper of the life of the handle it was given, and the only live one of its key |
| WrapperCache.OverlappingCallsAgree | include/zzdds_cpp.hpp:190-192 | a call that looks while a wrapper is cached and alive gets that one |
| WrapperCache.CallAlone | include/zzdds_cpp.hpp:186-195 | a call alone comes back with the live cached wrapper, or with a new one that then is cached, and changes nothing else |
| WrapperCache.FreshIffPinned | include/zzdds_cpp.hpp:1050-1064 | a handle value minted again never yields an old wrapper if and only if no handle is retired under a call that uses it |
| HandleWrap.Wrap | include/zzdds_cpp.hpp:1026-1065 | what each failure leaves: a wrapper that owns the handle, or no wrapper and the handle destroyed so often |
| HandleWrap.OneOwnerIffDismissedOnConstruction | include/zzdds_cpp.hpp:16-31 | every failure leaves exactly one owner or one destruction if and only if the guard is dismissed as soon as the wrapper exists |
| ClassCache.RunKeepsInv | java_runtime/zzdds_java_runtime.c:154-179 | lock, pairs and global references stay consistent for any number of threads and caches |
| ClassCache.ReadsOnePair | java_runtime/zzdds_java_runtime.c:134-145 | a thread told true reads, outside the mutex, both halves of one resolution, still cached and with a live reference |
| ClassCache.AnswerMatchesCache | java_runtime/zzdds_java_runtime.c:150-179 | false is answered exactly when the cache is left empty |
| ClassCache.OneGlobalPerCache | java_runtime/zzdds_java_runtime.c:154-179 | outside the mutex the live global references are those of the resolved caches, one each |
| ClassCache.PairNeverChanges | java_runtime/zzdds_java_runtime.c:173-175 | a resolved pair is the same after any further schedule |
| ClassCache.SucceedsAlone | java_runtime/zzdds_java_runtime.c:134-179 | a thread that calls while the mutex is free, every JNI call succeeding, gets the cached pair, or a new one that then is |
| ClassCache.OnePairIffLocking | java_runtime/zzdds_java_runtime.c:129-140 | with two or more threads no mixed pair is ever read if and only if resolution runs under the mutex |
| TypeSupportRegistry.FreedOnceIffNeverRefused | java_runtime/zzdds_java_runtime.c:746-752 | no context is freed twice over a sequence of operations if and only if the core never refuses a registration after taking its context over |
| TypeSupportRegistry.PinnedNameFreesTwice | java_runtime/zzdds_java_runtime.c:746-752 | a registration under a pinned provider's name, nothing else failing, frees its context twice |
| TypeSupportRegistry.OneOwnerForLife | java_runtime/zzdds_java_runtime.c:697-755 | otherwise live contexts and registry entries are in bijection, each context and class reference is released exactly once, and readers hold only live contexts |
| TypeSupportRegistry.RegistrationReplaces | src/dcps/participant.zig:1909-1958 | an accepted registration is the one of its name; a replacing one moves every reader of that name and frees the old context alone, a first one moves none |
| TypeSupportRegistry.FailureLeavesAll | java_runtime/zzdds_java_runtime.c:697-745 | a registration that fails before the core has its context leaves all as it was, but for a context that came and went |
| TypeSupportRegistry.ReaderFinds | src/dcps/participant.zig:1923-1946 | a new reader gets the live context registered for its type, if there is one |
| TypeSupportRegistry.LeaksOnlyWithoutEnv | java_runtime/zzdds_java_runtime.c:690-695 | a class reference is lost exactly by a destruction without a JNIEnv, for all contexts of that participant |
| TypeSupportRegistry.Runtime.RegisterTypeSupport | java_runtime/zzdds_java_runtime.c:697-755 | the code on its own state does what the specification says for every point of failure, and answers 0 exactly when the context was installed |
| TypeSupportRegistry.Runtime.CoreRegister | src/dcps/participant.zig:1887-1958 | the core keeps the context, replaces and releases the previous one after refreshing readers, or releases the new one and refuses |
| TypeSupportRegistry.Runtime.DestroyParticipant | src/dcps/participant.zig:1811-1818 | the loop over the table releases each of the participant's contexts once |
| FilterPins.HandedStaysPinned | java_runtime/zzdds_java_runtime.c:874-899 | a string the accessor gave and the callback did not refuse is answered as that string, newly pinned, with its characters and length through all later callbacks |
| FilterPins.PinsDiffer | java_runtime/zzdds_java_runtime.c:890-898 | two strings handed out are two pins |
| FilterPins.RefusedExactlyWhen | java_runtime/zzdds_java_runtime.c:849-888 | a callback gets no value exactly for a name of 64 or more, a null, an exception now or earlier, or a string beyond the table |
| FilterPins.ReleasedExactlyOnce | java_runtime/zzdds_java_runtime.c:907-915 | at most the table's size is pinned, and the release loop releases each pin of this call once and no other |
| FilterPins.MatchContext.Field | java_runtime/zzdds_java_runtime.c:849-888 | one callback on the table and the pins is the specified one |
| FilterPins.MatchContext.Evaluate | java_runtime/zzdds_java_runtime.c:907-915 | callbacks and release loop together leave the JVM's pins as they were, each new one released once |
| FilterPins.MatchSample | java_runtime/zzdds_java_runtime.c:891-917 | the answer for each way in, and no pin left behind |
| CoherentSets.RunKeepsInv | integration-tests/java/coherent-sets/Subscriber.java:129-188 | the position of both readers and both records at each point of the loop, for every interleaving |
| CoherentSets.AlwaysOrdered | integration-tests/java/coherent-sets/Subscriber.java:129-198 | both records are always 0..k-1, equal outside a bracket, never longer than the sets, and complete on success |
| CoherentSets.ChecksToFinished | integration-tests/java/coherent-sets/Subscriber.java:171-198 | the check of a reachable state ends with success exactly when every set is recorded |
| CoherentSets.CanStillFinish | integration-tests/java/coherent-sets/Subscriber.java:129-198 | from every reachable state the subscriber can still succeed |
| CoherentSets.NeverFailsIff | integration-tests/java/coherent-sets/Subscriber.java:171-196 | no FAIL exit of the checks is reachable if and only if sets become visible at once and, but for a single set or a cap of one, the bracket freezes the view |
| CoherentSets.UngatedFails | integration-tests/java/coherent-sets/Subscriber.java:171-177 | without atomic visibility a run reaches FAIL |
| CoherentSets.UnfrozenFails | integration-tests/java/coherent-sets/Subscriber.java:147-169 | without a frozen view a run reaches FAIL |
| CoherentSets.WriteGroups | integration-tests/java/coherent-sets/Publisher.java:152-184 | the publisher's loop makes exactly the bracketed calls the runs are made of |
| CoherentSets.Subscriber.Bracket | integration-tests/java/coherent-sets/Subscriber.java:152-164 | the two drains append the ids of the valid samples |
| CoherentSets.IdsHas | integration-tests/java/coherent-sets/Subscriber.java:152-164 | each valid sample's id is recorded behind those of the valid ones before it |
| CoherentSets.IdsOnly | integration-tests/java/coherent-sets/Subscriber.java:152-164 | and nothing else is |
| CoherentSets.Subscriber.Check | integration-tests/java/coherent-sets/Subscriber.java:172-196 | success, another round and each of the three failures, each exactly under its own condition on the two records, as in the runs' check step |
| RawLoan.RunKeepsData | examples/java/raw-loan/Subscriber.java:38-92 | loans, taken and accepted samples agree with where each thread stands, after every interleaving |
| RawLoan.LoansAndOrder | examples/java/raw-loan/Subscriber.java:38-168 | accepted samples are 0..k-1 and never the cancelled one; both deletes are called with no loan outstanding |
| RawLoan.OnlyTakeCanFail | examples/java/raw-loan/Subscriber.java:47-82 | of the FAIL exits of listener and delete only a refused take_raw is reachable, exactly by a take on a closed reader, with everything accepted |
| RawLoan.TakeCanFail | examples/java/raw-loan/Subscriber.java:47-53 | that exit is reachable: the listener's next take can follow the deletion |
| RawLoan.DoneIffCountFirst | examples/java/raw-loan/Publisher.java:153-155 | the publisher reports done only after 0..N-1 were accepted if and only if the match callback stores the count first, or there are no samples |
| RawLoan.BothSucceed | examples/java/raw-loan/Subscriber.java:38-168 | both programs can succeed, everything accepted and given back |
| RawLoan.NeverFailsIffStops | examples/java/raw-loan/Subscriber.java:47-82 | no run of the two programs ends in a modelled FAIL if and only if the listener takes no more once it has everything, which the source does not do, or there are no samples |
| Catchup.NoFalseSignal | examples/java/catchup/Subscriber.java:34-40 | completion implies that every historical and every live flag is set |
| Catchup.NoShortfall | examples/java/catchup/Subscriber.java:219-230 | after the wait has returned main counts the whole historical batch |
| Catchup.NoLostSignal | examples/java/catchup/Subscriber.java:239-245 | however live samples are split between main and callbacks, once all is taken and quiet completion has been reported |
| Catchup.MainReports | examples/java/catchup/Subscriber.java:219-260 | main alone can take everything, report it and finish |
| Catchup.CallbackReports | examples/java/catchup/Subscriber.java:171-190 | a callback that takes the last live sample can report it, and main finishes |
| Catchup.NeverLostIffRecheck | examples/java/catchup/Subscriber.java:239-245 | no settled state lacks the report if and only if main looks once more after installing the listener |
| Catchup.NoOwnRaceIffDeferred | examples/java/catchup/Subscriber.java:171-190 | no callback that has reported is still inside takeAvailable when main has deleted the reader, if and only if callbacks report after their own loop |
| Payload.ByteBuffer.PutAll | examples/java/raw-loan/Publisher.java:48-52 | a buffer takes all bytes or overflows, exactly when they do not fit |
| Payload.ToPayload | examples/java/raw-loan/Publisher.java:45-61 | returns header and body after the least number of doublings of 64, and fails exactly above 2^30 bytes, where the int capacity overflows |
| Payload.RoundTrip | examples/java/raw-loan/Subscriber.java:58-69 | the subscriber recovers version and value of every payload of version 1 or 2 |
| ShapeWriter.DurationIsExact | examples/java/shape/ShapeMain.java:131-133 | milliseconds come back exactly from seconds and nanoseconds if and only if the seconds fit an int |
| ShapeWriter.ColorIs | examples/java/shape/ShapeMain.java:216-219 | instance 0 has the base colour, every other one the base and its number in decimal |
| ShapeWriter.ColorsDiffer | examples/java/shape/ShapeMain.java:216-219 | two instances of one publisher never have the same colour |
| ShapeWriter.SizesPositiveIff | examples/java/shape/ShapeMain.java:346-349 | automatic sizes stay positive if and only if the modulo is between 1 and the largest int less one |
| ShapeWriter.Publisher.WriteSet | examples/java/shape/ShapeMain.java:335-350 | coherent mode: all members of one instance's set |
| ShapeWriter.Publisher.Window | examples/java/shape/ShapeMain.java:330-353 | coherent mode: the k-th write of the run is for the right topic and instance, in bounds, with the size after k bumps |
| ShapeWriter.Publisher.Iteration | examples/java/shape/ShapeMain.java:354-376 | plain mode: every write of an iteration has the size after that many bumps |
| ShapeWriter.Publisher.WriteLoop | examples/java/shape/ShapeMain.java:301-380 | what every write of a run is and how many there are, for any number of windows and any refused write |
| ShapeWriter.WrittenSizes | examples/java/shape/ShapeMain.java:346-376 | size (k mod m)+1 for the k-th coherent write and (j mod m)+1 for all writes of plain iteration j |
| ShapeWriter.FixedSizes | examples/java/shape/ShapeMain.java:282-282 | a size that was asked for is the size of every write, in both modes |
| ShapeWriter.ClimbingSizes | examples/java/shape/ShapeMain.java:346-376 | without a modulo sizes count up from 1 until the largest int |
| ShapeWriter.WrittenPlace | examples/java/shape/ShapeMain.java:330-376 | each instance of each topic is written in each window, under its own colour |
| ShapeWriter.PassesIffSane | examples/java/shape/ShapeMain.java:568-603 | any samples pass the checks exactly when all are in bounds and none of one handle differ in colour |
| ShapeWriter.EveryWrittenSamplePasses | examples/java/shape/ShapeMain.java:568-603 | every selection and order of written samples, of fixed or automatic size, passes the bounds and key checks when handles are injective |
| ShapeWriter.OverflowIsRejected | examples/java/shape/ShapeMain.java:585-590 | with no modulo, or the largest int, coherent write number 2^31-1 and all writes of plain iteration 2^31-1 are rejected |
| Changelog.SplitThenFlatten | scripts/extract_changelog.py:46-62 | splitting and flattening give back the file from its first heading |
| Changelog.FlattenThenSplit | scripts/extract_changelog.py:46-62 | sections written below any preamble are split back |
| Changelog.OutputIsContiguous | scripts/extract_changelog.py:78-127 | the output is a contiguous run of whole sections less trailing blanks, empty exactly when no leading section qualifies |
| Changelog.SliceIsTheNewSections | scripts/extract_changelog.py:78-86 | new sections on top of old ones are sliced off exactly when none of their headings is old |
| Changelog.NotesAreTheNewSections | scripts/extract_changelog.py:114-128 | against any previous changelog the sections before the first heading it had are printed, without trailing blanks |
| Changelog.NotesAreTheDatedSections | scripts/extract_changelog.py:89-128 | without one, the sections before the first heading with no date in it |
| Changelog.DatedIff | scripts/extract_changelog.py:43-43 | a heading counts as dated exactly if it is some text, four, two and two digits joined by dashes, and some text |
| Changelog.HeadingIff | scripts/extract_changelog.py:52-53 | a heading is two hashes and a space and some text |
| Changelog.SameHeadingPrintsNothing | scripts/extract_changelog.py:21-26 | a second release under the newest old heading prints nothing |
| Changelog.SplitSections | scripts/extract_changelog.py:46-62 | the splitting loop |
| Changelog.Slice | scripts/extract_changelog.py:78-96 | both slicing loops |
| Changelog.Trim | scripts/extract_changelog.py:122-123 | the trimming loop leaves the longest prefix that does not end in a blank line |
| Changelog.Extract | scripts/extract_changelog.py:99-129 | main: the output, and status 1 exactly when there is none |
| WaitSetTeardown.RunKeepsInv | src/dcps/waitset.zig:531-655 | references, entries, wakeup lists, hooks and what each thread has in hand agree after every schedule of the core's four operations |
| WaitSetTeardown.NothingDangles | src/dcps/waitset.zig:301-361 | no thread ever uses a freed WaitSet or guard or frees one twice, and both ends of an attachment are alive |
| WaitSetTeardown.HooksFireOnce | src/dcps/waitset.zig:187-213 | a hook is fired at most once, never while its attachment stands, and at rest every hook of an ended attachment has been fired |
| WaitSetTeardown.FreedExactlyWhenOver | src/dcps/waitset.zig:900-923 | at rest a WaitSet is freed exactly if it was deinitialized, a guard exactly if it was and nothing has it attached |
| LateRegistration.EndsAllIffWaits | src/dcps/waitset.zig:586-600 | no guard that was deinitialized is still attached anywhere at rest, in any schedule, if and only if its deinit begins when every attach naming it has entered its list or given up |
| LateRegistration.NoneOutlives | src/dcps/waitset.zig:900-923 | under that rule a guard is freed at rest exactly if it was deinitialized |
| LateRegistration.LateRegistrationStays | src/dcps/waitset.zig:586-600 | without it, a guard torn down between an attach's acquire and its registration stays attached and alive |
| CallEffects.DetachEndsEntry | src/dcps/waitset.zig:635-659 | whatever runs beside it, the step of a detach that looks for the entry leaves none and no listing, and takes up exactly the hook it found |
| CallEffects.DetachFiresItsHook | src/dcps/waitset.zig:635-659 | under any interleaving a detach that has come back has fired exactly the hook of the entry it found, or none |
| CallEffects.DetachAlone | src/dcps/waitset.zig:635-659 | a whole detach alone takes away the entry, its listing and its reference and fires its hook, and changes nothing else; nothing at all if there is no entry |
| CallEffects.AttachAlone | src/dcps/waitset.zig:531-608 | a whole attach alone adds the entry, its listing, its reference and its hook, or for a duplicate or a full list changes nothing but refusing the hook |
| CallEffects.AttachedHookFires | src/dcps/waitset.zig:187-213 | the hook of an attachment once made has been fired at rest exactly if the attachment does not stand any more |
| TeardownProgress.StepsRunOut | src/dcps/waitset.zig:301-361 | every step of any call in progress lowers one measure of the whole state |
| TeardownProgress.NoDeadlock | src/dcps/waitset.zig:301-361 | while a call is in progress some thread can make a step |
| TeardownProgress.ComesToRest | src/dcps/waitset.zig:301-361 | from every reachable state all calls in progress can come back |
| WaitSetTeardown.SafeIffAttachRef | src/dcps/waitset.zig:341-359 | no freed memory is used if and only if an attachment takes its reference to the guard when it is made |
| WaitSetTeardown.LateReferenceFaults | src/dcps/waitset.zig:846-860 | taken when the WaitSet ends, it comes too late: a run in which the teardown reads a freed guard |
| WaitSetTeardown.DropWaitSetOk | src/util/entity_quiesce.zig:99-110 | the last reference of a WaitSet, and no other, starts its final teardown |
| WaitSetTeardown.DropGuardOk | src/util/entity_quiesce.zig:99-110 | the last reference of a guard, and no other, frees it |

## Left out

- The Zig core's readers, writers, discovery and liveliness (its WaitSets are modelled): the models use only what the C header and the specification promise of them, and state it as the steps they allow.
- Generated code: family lookup and insertion, wrapper implementation classes and serializers are abstract; insertion is taken to replace an expired entry, retirement to remove a handle's entries, deserializing to invert serializing.
- Real time: timeouts and the FAIL exits they lead to are not modelled, and neither are sleeps and deadlines.
- Memory ordering: each modelled load or store is one atomic step on one memory.
- Resetting the pool while other threads use it, and the two programs' start-up and argument handling.
- PoolThreads: models a request that is out of range only in the single-threaded pool, where it returns before the mutex is taken.
- Attachment: takes each entry into the core as one step, as its header promises; a null condition and one without a C handle are refused before the modelled steps.
- WaitSetTeardown: models guard conditions; status and read conditions take no references, and their owners keep their teardown from racing a WaitSet's.
- WaitSetTeardown: takes it from callers that a WaitSet's deinit begins when no call on it is in progress, and a guard's when no call naming it has yet to take its reference, or under the longer rule of `LateRegistration` to enter the guard's list; waking waiters is left out.
- WrapperCache: takes it from callers that a handle outlives the calls using it, and proves that this is needed.
- WrapperCache.OneWrapper: counts wrappers of handles the core has not retired; a retired one may live on as long as the application keeps it.
- FilterPins: has no accessor result that is neither a Long nor a String, which the source treats as a String.
- FilterPins: does not model a failing GetStringUTFChars, which the source does not test, nor local references other than the pinned strings.
- FilterPins.MatchSample: takes the evaluator's callbacks as any sequence instead of deriving them from a filter expression.
- zzdds_java_get_field_from_cdr_ctx: not modelled, its copies need no pins and it does not balance its local references.
- CoherentSets: models samples with data; one without would use room in a take, and none is sent while the publisher lives.
- CoherentSets: takes the number of sets to be positive where it proves success; with none the source's loop ends at once.
- CoherentSets and RawLoan: the reader-ready wait before writing is one step that a match enables.
- RawLoan: a sample without data, possible only after the writer is gone, is not modelled.
- RawLoan and Catchup: the loops of the programs are steps of their threads, so that they can interleave, and not loops of methods.
- Catchup: the diagnostics after a shortfall are not modelled, since the shortfall is unreachable.
- Payload: memory exhaustion below the int limit is not modelled.
- ShapeWriter: waiting for a match, extra topics' creation and the final disposal of instances are left out; they write no samples.
- Changelog: works on lines, with ASCII digits and white space; reading git and the file, and splitting text into lines, are left to the caller.
- Narrowing functions, one-line forwarding overrides, printing and the interoperability and build scripts: they would only add easy members.
