# A verified model of the camera server

This project models the hand-written stateful parts of the camera server and proves what they
keep. `dafny verify dfyconfig.toml` checks all of it.

| files | part of the server |
|---|---|
| Dispatcher, DispatcherInvariant, DispatcherSteps, DispatcherTheorems, DispatcherProgress, DispatcherDelivery, DispatcherDuplicates | the copy-on-write, reference-counted publish/subscribe list |
| BlockingQueue, BlockingQueueProofs, BlockingQueueProgress | the bounded drop-oldest queue with its condition variable |
| SliceWindow, MemoryBufferSink | the sliding window of time slices |
| ServiceContainer, ServiceContainerNames, ServiceContainerRuns, ServiceContainerGraphs, ServiceContainerBirths, ServiceContainerModes, ServiceContainerClients, ServiceContainerExact, ServiceContainerLife | the dependency container |
| UsageEnvironment | the log splitter |
| BarFrame | the colour bars of the dummy device |
| StreamStates, PlayRange, RtpInfo | the response to PLAY (RFC 2326, sections 12.29 and 12.33) |
| MediaChannels | channel registry, pipeline and parameter normalisation |
| DataPackets | packet and frame buffers |
| RtpFormat | the RTP format string and the sink made from it |
| Decimal, CStrings, Fields | numbers as text, terminated strings, text in fields |
| Sums, FiniteSets, Arithmetic, Memory, Options | sums over sequences, extremes of sets, products, bytes, optional values |

## How the parts are modelled

**Dispatcher and queue** are machines of interleaved steps. Every call is a frame with its own
locals and program counter, and any frame may move next, so a call made from inside a handler is
one more frame. The dispatcher's lists and items carry explicit reference counts, and a frame
releases its locals in the reverse order of their declaration. Some subscribers are listeners,
whose MessageHandler takes a lock of its own (src/core/Observer.h, lines 162 to 168); any other
may be inside its handler several times at once. `Dispatcher.DoSubCopy`,
`DoSubScan`, `DoSubCompare`, `DoSubAppend` and `DoPublish` are the steps of Subscribe
(src/core/Observer.h, lines 71 to 91), `DoUnsubCheck`, `DoUnsubScan`, `DoUnsubCompare` and
`DoPublish` those of Unsubscribe (lines 97 to 125), `DoSnapshot`, `DoDeliver` and `DoReturn`
those of SendMessageLP (lines 129 to 144); `DropOne` and `RunDestructor` are the release of one
item reference and the destructor of lines 44 to 47. `BlockingQueue.Move` holds the steps of the
queue (src/core/ThreadsafeQueue.h, lines 20 to 64 and 102 to 135). A state is `Reachable` when
some sequence of calls and steps leads to it; the theorems hold of every reachable state.

**The container** is a class whose methods are tied to a specification of one operation
(`Performed`) and of runs (`Run`). Each object carries a name, a history variable that says
where it was asked for; the container never looks at names. Arguments of a constructor are
resolved from left to right. C++ leaves that order open; by `ResolvedMatches` what a service
resolves to is determined by the registrations in force, up to the addresses of the objects.

Eager and lazy containers *answer alike* when what they built can be paired one to one, objects
of one concrete type with arguments paired in turn, so that the answers are paired; names and
registrations play no part in this, and `NoClientCanTell` shows that it is all a client can see
by following pointers, looking at types and comparing pointers. `LazyBirths` computes from the
operations which call makes a lazy container build a singleton. A singleton is *settled* when its
constructor's services stood for the same at its registration and at that call, through any chain
of transients. A service is *calm* when every singleton it leads to was registered at a time when
all that its own constructor leads to already stood for what it stands for now. Instances are
compared by value, and a service that is not registered counts as a null instance.

**The sink, the splitter, the picture, the RTP-Info buffer, the packets** are classes, arrays and
loops as in the source. The numbers printed by sprintf and the clock are inputs. `time_t` is
wider than 32 bits, so the difference of seconds is not wrapped before it is divided.

**PLAY's arithmetic** is over real numbers.

## What the proofs found

- The comments in src/core/Observer.h say that declaring the shared pointers before the lock
  keeps subscribers from being released under it. For Unsubscribe this is so only because ids in
  the list are pairwise distinct, which Subscribe maintains; from any list with two items of one
  id that nobody else refers to, `DuplicateIdsDestroyUnderLock` runs a handler under the lock.
- The comment that enqueuing is ignored after termination (src/core/ThreadsafeQueue.h, line 100)
  holds only for pushes that have not read the flag yet. One that has still enqueues
  (`LatePushEnqueues`); once all pushes have returned, the late items are exactly those of the
  pushes in flight at termination (`LateItemsAreThoseInFlight`), so the comment holds if and
  only if there was none. The drop counter has no initialiser; it starts at zero only under the
  C++20 rules for atomics, which the model follows.
- The container the program uses is eager (src/core/mioc/mioc.cpp, line 5), which is why the
  Pipeline exists at all: nothing asks for it, and by `PipelineNeedsEagerness` a lazy container
  would leave it unbuilt, and the registry without a subscriber, whatever else is asked for.
- Eager and lazy containers answer alike if and only if unfolding the registrations gives like
  objects in the same places, shared in the same places (`AgreementIsExact`). Settled singletons
  are enough for that (`SettledAgree`), and calm calls for these (`EagerAndLazyAgree`). Settled is
  also necessary where nothing is replaced, and where only singletons and instances are and
  clients ask for each singleton of a replaced service that gets built (`SettledIsExact`). Elsewhere it is not:
  a dependency replaced by a singleton of its own type goes unnoticed as long as nobody asks for
  the new one (`ReplacementIsSeen`). A transient may come before what it needs.
- The bound of 128 characters on a printed number is exact (`TokenFits`). A whole double keeps
  within it exactly when it has at most 120 digits, or 119 after a minus sign
  (`LargeDoublesOverrun`), and doubles go up to 309.
- `fill_frame` divides by zero for widths from one to seven (`SafeWidths`). For other widths it stays
  inside the colour table exactly for the multiples of eight and some that are one or two wider
  (`DrawableWidths`); at 15 it reads past it (`Width15Overruns`). The parameters exclude none of
  these.
- An empty range, with start and end equal, is streamed to the end of the media (`SeekToEnd`).
- A stream without a sink is listed with the numbers of the stream before it
  (`ReportedIsLastSink`).
- PacketData drops the format it is constructed with and its swap exchanges neither format nor
  reference; FrameData's copy from an empty frame copies no properties.
- The pipeline never stores the device it builds, so an update never reaches an existing one
  (the third part of `MediaChannels.Registry.Valid`); and when building it throws, the caller's
  channel has already been normalised while the registry keeps the old one.
- Any audio format that is not in the list, FMT_NONE included, is printed as L16.

## Model

| member | source | states |
|---|---|---|
| DispatcherTheorems.HandlerRunsOnce | src/core/Observer.h:44-47 | in every interleaving, an item's UnsubscribeHandler runs at most once; while the item has references it has not run, and a count of zero means it has run or exactly one call is about to run it |
| DispatcherTheorems.HandlersRunUnlocked | src/core/Observer.h:67-126 | no UnsubscribeHandler ever runs, or is about to run, in a call that holds m_Lock |
| DispatcherDuplicates.DuplicateIdsDestroyUnderLock | src/core/Observer.h:95-121 | the comment's promise depends on distinct ids: from any list with two items of one id to which nobody else refers, whatever other calls are under way, unsubscribing that id runs the handler of one of them in the call that holds m_Lock |
| DispatcherTheorems.NoDeliveryAfterUnsubscribe | src/core/Observer.h:127-145 | no MessageHandler is entered through an item after that item's UnsubscribeHandler, and an item whose MessageHandler is running is alive and has not been unsubscribed |
| DispatcherTheorems.NoUseAfterFree | src/core/Observer.h:67-145 | no step of any call dereferences a list or an item that has been freed |
| DispatcherTheorems.NothingLeaks | src/core/Observer.h:67-145 | whenever all calls have returned, the live items are exactly those of the published list, every other item has had its handler run exactly once, and no other list is alive |
| DispatcherTheorems.PublishedListsAreFrozen | src/core/Observer.h:71-90 | a list that has been published is never altered afterwards |
| DispatcherTheorems.RefinesOrderedSet | src/core/Observer.h:67-145 | the calls are linearised: in the order of their effects they return what an ordered set of ids returns and leave the published list equal to it; ids stay pairwise distinct; a finished call has had exactly one effect, with the value it returned |
| DispatcherTheorems.EffectsAre | src/core/Observer.h:79-124 | the ordered set by its laws: subscribing a new id appends it and returns it, subscribing a member returns 0, unsubscribing takes out exactly that id and tells whether it was there, a send is for the members in their order, and nothing else changes the set |
| DispatcherTheorems.SendDeliversToMembers | src/core/Observer.h:127-145 | a finished send has delivered exactly once to each member of the set at its snapshot, in subscription order |
| DispatcherTheorems.RealTimeOrder | src/core/Observer.h:67-145 | a call that had returned before another began took effect first |
| DispatcherTheorems.LockHolderCanMove | src/core/Observer.h:73-139 | the call that holds m_Lock never waits for anything |
| DispatcherProgress.LockIsGivenBack | src/core/Observer.h:73-139 | left to itself, that call keeps the lock until it unlocks, within a number of its own steps linear in the published list and in the references it is giving up |
| DispatcherDelivery.CallReturns | src/core/Observer.h:67-145 | every call returns: with m_Lock free or its own, and no other call inside the handler of a listener it has still to deliver to, it returns when left to itself, in a number of steps linear in the lists and references it handles; a send has then entered MessageHandler of every member of the set at its snapshot |
| DispatcherTheorems.ListenersAreSerialised | src/core/Observer.h:162-168 | two calls are never inside the MessageHandler of the same CListener at once |
| BlockingQueueProofs.NoLostWakeup | src/core/ThreadsafeQueue.h:22-25 | with spurious wakeups and items stolen by try_pop: while a consumer is blocked and the mutex is free, consumers woken and not yet rechecked are at least as many as queued items |
| BlockingQueueProofs.TerminationUnblocks | src/core/ThreadsafeQueue.h:102-107 | once the flag is set nobody is blocked, except between setting it and notify_all inside the same critical section |
| BlockingQueueProofs.ItemsAreConserved | src/core/ThreadsafeQueue.h:122-135 | the enqueued items are, in order, the removed ones (popped or dropped) followed by the queue; dropped_count is the number of drops modulo the width of size_t; the size is within the limit whenever the mutex is free |
| BlockingQueueProofs.CallsMeanWhatTheyReturn | src/core/ThreadsafeQueue.h:20-64 | a finished push has enqueued its value, once, if and only if it found the flag clear, and otherwise nothing; a finished pop has removed exactly what it returns |
| BlockingQueueProofs.NullOnlyWhenTerminatedAndEmpty | src/core/ThreadsafeQueue.h:27-36 | wait_and_pop returns null only at a point where the queue was empty and the flag had been set |
| BlockingQueueProofs.EnqueuersPassedEarly | src/core/ThreadsafeQueue.h:124-128 | every enqueued item, however late, comes from a push that found the flag clear before it was first set, and no push enqueues twice |
| BlockingQueueProofs.LateItemsAreBounded | src/core/ThreadsafeQueue.h:99-107 | the pushes that enqueue after termination are exactly those in flight then (past the flag check, not yet in the queue) that get that far, so no more items arrive than there were of them |
| BlockingQueueProofs.LateItemsAreThoseInFlight | src/core/ThreadsafeQueue.h:99-107 | once every push has returned, the items enqueued after termination are exactly those of the pushes in flight then; none is if and only if none was |
| BlockingQueueProofs.LatePushEnqueues | src/core/ThreadsafeQueue.h:122-128 | it happens: for any limit and value a state is reachable in which a push found the flag clear, the queue was terminated, and then the push enqueued |
| BlockingQueueProgress.MutexIsGivenBack | src/core/ThreadsafeQueue.h:20-64 | left to itself, whichever waiter it wakes, the call that holds the mutex keeps it until it releases it within four of its own steps, by returning or by waiting |
| BlockingQueueProgress.LeftAloneItReturns | src/core/ThreadsafeQueue.h:20-64 | left to itself while the mutex is free, a call that is not in wait returns within six steps, wait_and_pop provided the queue has an item or is terminated; a pop returns the front of the queue, null if there is none |
| BlockingQueueProgress.TerminatedCallsReturn | src/core/ThreadsafeQueue.h:99-107 | after termination, as soon as the mutex is free, every call returns within six of its own steps without being woken |
| BlockingQueueProgress.TerminateTerminates | src/core/ThreadsafeQueue.h:102-107 | the queue is terminated once a terminating call has returned, and only when one has set the flag |
| SliceWindow.WindowStep | src/rtsp/MemoryBufferSink.cpp:47-54 | appending one frame to the window and evicting smallest slices gives the window of the longer log: the n largest slices ever seen with all that arrived for them |
| SliceWindow.LargestOfGrown | src/rtsp/MemoryBufferSink.cpp:50-54 | the n largest of all slices can be kept from the previous n largest alone |
| SliceWindow.EvictedStaysOut | src/rtsp/MemoryBufferSink.cpp:50-54 | a slice once evicted is never in the window again, whatever arrives |
| SliceWindow.LargestSize | src/rtsp/MemoryBufferSink.cpp:51-54 | the window holds nbSlices slices, or all of them when there are fewer |
| SliceWindow.ContentSplits | src/rtsp/MemoryBufferSink.cpp:47-48 | the content of a slice is gathered in arrival order |
| MemoryBufferSink.Sink.AfterGettingFrame | src/rtsp/MemoryBufferSink.cpp:29-58 | a truncated frame only enlarges the buffer (with unsigned wrap-around); any other frame is appended to the log, and the map stays the window of the log |
| MemoryBufferSink.Sink.Append | src/rtsp/MemoryBufferSink.cpp:41-48 | one untruncated frame extends the log the map refines by exactly that frame |
| MemoryBufferSink.Sink.Evict | src/rtsp/MemoryBufferSink.cpp:50-54 | erasing smallest keys until few enough are left keeps exactly the entries of the nbSlices largest keys |
| MemoryBufferSink.Sink.GetBuffer | src/rtsp/MemoryBufferSink.cpp:71-80 | a retained slice is the concatenation, in arrival order, of all its untruncated frames; any other slice is empty |
| MemoryBufferSink.Sink.GetBufferSize | src/rtsp/MemoryBufferSink.cpp:60-69 | the length of that concatenation, as an unsigned int |
| MemoryBufferSink.Sink.FirstTime | src/rtsp/MemoryBufferSink.cpp:82-90 | the start of the oldest of the nbSlices largest slices ever seen, zero when there is none |
| MemoryBufferSink.Sink.Duration | src/rtsp/MemoryBufferSink.cpp:92-100 | the time between the oldest and the newest of those slices, zero when there is none |
| MemoryBufferSink.PieceAt | src/rtsp/MemoryBufferSink.cpp:42-48 | the k-th untruncated frame is the k-th of the log, with its own bytes, in the slice given by the reference time known by then |
| MemoryBufferSink.RefTimeIs | src/rtsp/MemoryBufferSink.cpp:42-44 | the reference time is that of the first frame whose time does not wrap to zero |
| MemoryBufferSink.SliceIs | src/rtsp/MemoryBufferSink.cpp:46 | the slice of any frame, in literal unsigned arithmetic: one dated before the reference time counts back from 2^32, a part of a slice never counts |
| MemoryBufferSink.TimeCovered | src/rtsp/MemoryBufferSink.cpp:82-100 | for a nonzero, nondecreasing 32-bit clock, firstTime() + duration() is at most the time from the first to the last frame and less than one slice below it, without wrap-around |
| MemoryBufferSink.NewestSlice | src/rtsp/MemoryBufferSink.cpp:42-46 | for such a clock the newest slice is the one of the last frame |
| ServiceContainerModes.AgreementIsExact | src/core/mioc/ServiceContainer.h:42-95 | in any mixture of registrations and calls, replaced and badly ordered registrations included, an eager and a lazy container answer every call alike, up to a one-to-one pairing of the objects built that keeps concrete types and arguments, if and only if, in the unfolding of the operations, the same things belong at corresponding places and are shared at corresponding places |
| ServiceContainerClients.NoClientCanTell | src/core/mioc/ServiceContainer.h:42-52 | they answer alike if and only if no client can tell them apart by following the pointers it gets into constructor arguments, looking at concrete types and comparing pointers |
| ServiceContainerBirths.RunDated | src/core/mioc/ServiceContainer.h:65-82 | in either mode the operations alone tell when each object is built: a singleton and the transients under it at its registration in an eager container, and in a lazy one in the call that first needs it |
| ServiceContainerExact.SettledAgree | src/core/mioc/ServiceContainer.h:42-95 | if each singleton that a lazy run builds depends on services that stood for the same at its registration and at the call that builds it, the containers answer alike, in any mixture |
| ServiceContainerExact.SettledIsExact | src/core/mioc/ServiceContainer.h:42-95 | where only singletons and instances are replaced and clients ask for each singleton of a replaced service that gets built, and so where nothing is replaced, they answer alike if and only if that holds |
| ServiceContainerExact.EagerAndLazyAgree | src/core/mioc/ServiceContainer.h:42-95 | if every call is for a calm service, registrations and calls mixed at will, an eager and a lazy container answer every call alike |
| ServiceContainerExact.AgreementIsCalm | src/core/mioc/ServiceContainer.h:65-82 | when the registrations come before the calls, and replacements are as in SettledIsExact, the two containers answer alike if and only if every call is for a calm service |
| ServiceContainerExact.WellOrderedAgree | src/core/mioc/ServiceContainer.h:42-95 | registrations without replacement whose dependencies come first agree, wherever the calls stand between them |
| ServiceContainerExact.OrderIsRank | src/core/mioc/ServiceContainer.h:107-123 | such registrations are ranked by their order, which is what makes lazy Resolve terminate |
| ServiceContainerExact.LateDependencyDiffers | src/core/mioc/ServiceContainer.h:65-82 | a dependency registered after the singleton that needs it: no pairing makes the answers alike |
| ServiceContainerExact.ReplacementIsSeen | src/core/mioc/ServiceContainer.h:54-62 | a dependency registered again after the singleton that needs it: the answers are alike if and only if the new one has the old type and the client does not ask for it |
| ServiceContainerExact.EarlyTransientAgrees | src/core/mioc/ServiceContainer.h:84-95 | a transient registered before what it needs, and an instance given twice, do no harm |
| ServiceContainerLife.SharedOrFresh | src/core/mioc/ServiceContainer.h:42-95 | in any run, asking twice under the same registration gives the same object for a singleton, two different ones for a transient, and the instance for an instance |
| ServiceContainerLife.LazyBuildsOnlyWanted | src/core/mioc/ServiceContainer.h:65-75 | a lazy container builds objects only for services that clients ask for, directly or through the dependencies of what they ask for |
| ServiceContainerLife.UnneededStaysUnbuilt | src/core/mioc/ServiceContainer.h:65-75 | a service nobody asks for and nothing depends on stays unbuilt, whatever else is asked for |
| ServiceContainerLife.LazyWaits | src/core/mioc/ServiceContainer.h:68-75 | as long as nothing is asked for, a lazy container constructs nothing |
| ServiceContainerLife.EagerBuildsAtOnce | src/core/mioc/ServiceContainer.h:76-79 | every eager singleton ever registered has been constructed, asked for or not |
| ServiceContainerLife.PipelineNeedsEagerness | src/main.cpp:17-21 | with the program's own registrations and any calls for other services, the eager container has built the Pipeline and a lazy one would not |
| ServiceContainerRuns.BuiltOnce | src/core/mioc/ServiceFactory.h:122-130 | over any run, replaced and badly ordered registrations included, a singleton registration constructs at most one object |
| ServiceContainerNames.ResolvedEffect | src/core/mioc/ServiceFactory.h:122-130 | resolving gives every new object a name of its own, keeps all existing objects and cached instances, and builds only pending singletons of no higher rank |
| ServiceContainerGraphs.ResolvedMatches | src/core/mioc/ServiceContainer.h:42-52 | whatever the mode and the state, resolving a service yields the pointer that the registrations in force determine, and every object it builds gets its arguments from them |
| ServiceContainerGraphs.RunKnown | src/core/mioc/ServiceContainer.h:42-95 | after any run, in either mode, each object is what its registration and the registrations in force when it was built make it, each call got what was in force, and an eager container has nothing pending |
| ServiceContainer.ServiceContainer.Resolve | src/core/mioc/ServiceContainer.h:42-52 | a client's Resolve performs the Ask operation of the specification, null for an unregistered service |
| ServiceContainer.ServiceContainer.Find | src/core/mioc/ServiceFactory.h:63-66 | resolving one service, with the cached instance filled in, and its termination by rank |
| ServiceContainer.ServiceContainer.Make | src/core/mioc/ServiceContainer.h:107-123 | constructing one object after resolving its dependencies |
| ServiceContainer.ServiceContainer.AddInstance | src/core/mioc/ServiceContainer.h:56-62 | registering an instance, replacing silently |
| ServiceContainer.ServiceContainer.AddSingleton | src/core/mioc/ServiceContainer.h:65-82 | registering a singleton: built at once when eager, a factory when lazy |
| ServiceContainer.ServiceContainer.AddTransient | src/core/mioc/ServiceContainer.h:85-95 | registering a transient factory |
| ServiceContainer.ServiceContainer.Execute | src/core/mioc/ServiceContainer.h:42-95 | a client's operations one after another are the run the theorems are about |
| UsageEnvironment.Environment.WriteString | src/rtsp/NtUsageEnvironment.cpp:27-49 | the pointer loop prints exactly what the pure splitter prints for the C string, "(NULL)" for a null pointer, inside the buffer |
| UsageEnvironment.Environment.Flush | src/rtsp/NtUsageEnvironment.cpp:51-56 | the message logged is the text before the pointer, which goes back to the start |
| UsageEnvironment.Environment.CheckLimit | src/rtsp/NtUsageEnvironment.cpp:58-64 | flushes exactly when more than 896 characters are waiting |
| UsageEnvironment.Environment.Print | src/rtsp/NtUsageEnvironment.cpp:66-92 | a token shorter than 128 characters and its terminator fit from any offset a call can start at; up to 896 characters, it waits with what was waiting, above that both are sent at once as one message |
| UsageEnvironment.Environment.WriteInt | src/rtsp/NtUsageEnvironment.cpp:66-71 | every int is such a token, and waits or is sent in the same way |
| UsageEnvironment.Environment.WriteUnsigned | src/rtsp/NtUsageEnvironment.cpp:73-78 | every unsigned is such a token, and waits or is sent in the same way |
| UsageEnvironment.CutsDoNotMatter | src/rtsp/NtUsageEnvironment.cpp:27-49 | calls with the parts of a text print what one call with the whole text prints |
| UsageEnvironment.PrintsSplit | src/rtsp/NtUsageEnvironment.cpp:27-64 | from an empty buffer the messages are the text's lines in pieces of 897 characters, each newline sending what is left of its line even when that is nothing |
| UsageEnvironment.MixedOutput | src/rtsp/NtUsageEnvironment.cpp:27-92 | for any sequence of strings and numbers, each message ends at a newline or where it first exceeds 896 characters, never inside a number, and the rest has not come to such an end |
| UsageEnvironment.OutputIsUnique | src/rtsp/NtUsageEnvironment.cpp:27-92 | there is only one way to cut an output so |
| UsageEnvironment.NothingLost | src/rtsp/NtUsageEnvironment.cpp:27-64 | messages and waiting text together are all that was written, newlines apart |
| UsageEnvironment.TokenNotLost | src/rtsp/NtUsageEnvironment.cpp:66-92 | the same for printed numbers |
| UsageEnvironment.TokenFits | src/rtsp/NtUsageEnvironment.h:5-6 | a number finds room after every possible text if and only if it is shorter than 128 characters |
| UsageEnvironment.LargeDoublesOverrun | src/rtsp/NtUsageEnvironment.cpp:80-85 | a whole double printed by %f keeps that bound exactly when it is above minus ten to the 119 and below ten to the 120; any other overruns the buffer after some text |
| BarFrame.FillFrame | src/device/NtDummyVideoDevice.cpp:42-55 | for every height and drawable width, byte (y, x) of the final picture is bar_colours[(3*(x/3))/(w/8)][x%3] despite the spill of each row, and nothing beyond two bytes after the picture is written |
| BarFrame.FillRow | src/device/NtDummyVideoDevice.cpp:48-54 | one row by the same rule, written three bytes at a time, and at most two bytes after it |
| BarFrame.BarsAre | src/device/NtDummyVideoDevice.h:98-107 | the eight colours, component by component |
| BarFrame.DrawableIsExact | src/device/NtDummyVideoDevice.cpp:45-50 | the colour index stays below eight throughout if and only if the last group of three starts inside the eighth bar |
| BarFrame.SafeWidths | src/device/NtDummyVideoDevice.cpp:45-50 | the drawable widths, and width zero, are exactly those for which no column is divided by zero or leaves the colour table |
| BarFrame.DrawableWidths | src/device/NtDummyVideoDevice.cpp:45-50 | the drawable widths are the multiples of eight, and those one or two bytes wider after which no group of three starts |
| BarFrame.Width15Overruns | src/device/NtDummyVideoDevice.cpp:50-53 | at width 15 the colour index reaches 12 |
| BarFrame.MultiplesOfEight | src/device/NtDummyVideoDevice.cpp:45-50 | every width that is a multiple of eight is drawable |
| BarFrame.SpillFits | src/device/NtDummyVideoDevice.cpp:28-29 | the buffer the constructor allocates always has room for the two spilled bytes |
| PlayRange.ClampRange | src/rtsp/NtRtspServer.cpp:178-208 | the range answered is the requested one moved to the nearest points of the media and exchanged only when it is the wrong way round; both ends are within the duration |
| PlayRange.SaneRangeIsUnique | src/rtsp/NtRtspServer.cpp:190-207 | the request determines that range |
| PlayRange.SaneRangeIsStable | src/rtsp/NtRtspServer.cpp:190-207 | a range answered is kept when asked for again |
| PlayRange.RangeOutsideMedia | src/rtsp/NtRtspServer.cpp:181-195 | a request outside the media is answered as one for its nearer end |
| PlayRange.RangeInsideMedia | src/rtsp/NtRtspServer.cpp:196-207 | inside the media an open ended or rising range is kept when playing forwards and a falling one turned round, backwards the other way about, and at scale zero nothing is |
| PlayRange.SeekReachesEnd | src/rtsp/NtRtspServer.cpp:245-256 | a nonzero seek length reaches exactly the other end of the range, inside the media, forwards and backwards |
| PlayRange.SeekToEnd | src/rtsp/NtRtspServer.cpp:245-256 | the length is zero exactly for a range that is open ended, ends within a millisecond of the media's end, or is empty |
| PlayRange.CurrentTime | src/rtsp/NtRtspServer.cpp:288-310 | the largest play time of the selected streams, zero when none is positive |
| RtpInfo.BuildHeader | src/rtsp/NtRtspServer.cpp:323-381 | for any streams and any aggregate or single selection, the buffer holds nothing, or a header in which a client that splits it at its commas and semicolons finds, for each selected stream in order, the address, the sequence number and the RTP time by their labels; every write is inside its allocation |
| RtpInfo.ItemIsRead | src/rtsp/NtRtspServer.cpp:324-367 | the three labelled parts of an item are read back from its text |
| RtpInfo.AddItem | src/rtsp/NtRtspServer.cpp:356-368 | the computed allocation holds the previous text, one more item, the final CRLF and the terminator |
| RtpInfo.ItemOfListed | src/rtsp/NtRtspServer.cpp:340-367 | the k-th item is that of the k-th selected stream, with the numbers known by then |
| RtpInfo.ReportedIsLastSink | src/rtsp/NtRtspServer.cpp:345-354 | a stream without a sink repeats the numbers of the last selected stream that has one |
| RtpInfo.ReportedWithoutSink | src/rtsp/NtRtspServer.cpp:334-345 | before any selected stream has a sink, zeros are reported |
| RtpInfo.ListedIsSelected | src/rtsp/NtRtspServer.cpp:340-343 | the listed streams are exactly the selected ones, in order |
| RtpInfo.StartStreams | src/rtsp/NtRtspServer.cpp:400-413 | the streams started are exactly those listed |
| MediaChannels.CreateSettles | src/device/NtDummyVideoDevice.h:42-61 | after Create the metadata spells out the parameters taken: taking them again gives the same ones and changes nothing |
| MediaChannels.Create | src/device/NtDummyVideoDevice.h:42-50 | a parameter is taken from a text of its own name that parses and the text kept; otherwise it is 640, 480 or the default rate, and the text becomes that; no other entry changes |
| MediaChannels.ParseParam | src/device/NtDummyVideoDevice.h:53-61 | either the parameter is taken from the text or the text from the parameter |
| MediaChannels.TakenAgain | src/device/NtDummyVideoDevice.h:53-61 | afterwards the key is there with a text that parses to the parameter, and no other key has changed |
| MediaChannels.Pipeline.AddChannel | src/app/Pipeline.cpp:39-50 | the id is entered with no device, whatever was there |
| MediaChannels.Pipeline.UpdateChannel | src/app/Pipeline.cpp:70-84 | a known channel is normalised by reference, an unknown one is left alone; it throws exactly when building the device does |
| MediaChannels.Pipeline.UpdateDevice | src/app/Pipeline.cpp:86-107 | only dummy channels are normalised |
| MediaChannels.NormalisedTwice | src/app/Pipeline.cpp:86-107 | normalising is idempotent and touches nothing but the metadata |
| MediaChannels.Registry.AddChannel | src/core/NtMediaChannels.cpp:27-35 | a channel is appended; registry and pipeline keep the same ids |
| MediaChannels.Registry.UpdateChannel | src/core/NtMediaChannels.cpp:53-69 | exactly the first channel with the id is replaced, by the channel handed back, which differs from the caller's in its metadata alone; not found or an exception leaves the registry alone, and each happens exactly when it should; ids agree and stored dummy metadata is settled |
| MediaChannels.Registry.Execute | src/core/NtMediaChannels.cpp:27-69 | every run of additions and updates leaves the channels the operations say, in order; the pipeline's keys are the registry's ids and every dummy channel stored by an update has settled metadata |
| MediaChannels.OneAfterAnother | src/core/NtMediaChannels.cpp:27-69 | operations take effect in the order given |
| MediaChannels.FirstWith | src/core/NtMediaChannels.cpp:56-58 | the channel an update is for is the first one with its id |
| Decimal.FromCharsRoundTrip | src/core/utils.h:7-19 | every int printed is read back by from_chars, whatever follows it |
| Decimal.DigitAt | src/rtsp/NtRtspServer.cpp:362-367 | the decimal digits of a printed number, by their places |
| Decimal.FromCharsReads | src/core/utils.h:7-19 | any text from_chars can meet: minus sign or none, digits by their places, the rest ignored, out of range or without digits refused |
| DataPackets.Packet.Resize | src/core/DataPackets.h:45-63 | the old block is freed once, a new one taken if needed, a negative size refused; blocks and non-empty packets stay one to one and no other packet's content changes |
| DataPackets.Packet.Clear | src/core/DataPackets.h:66 | the packet is empty and its block gone |
| DataPackets.Packet.CopyBytes | src/core/DataPackets.h:74-83 | the first bytes are overwritten, in a new block when they do not fit; a packet never shrinks |
| DataPackets.Packet.CopyFrame | src/core/DataPackets.h:142-158 | content and properties of the source, unless it is empty: then nothing changes, not even the properties |
| DataPackets.Packet.SwapFrames | src/core/DataPackets.h:129-138 | everything is exchanged |
| DataPackets.Packet.SwapPackets | src/core/DataPackets.h:188-192 | the bytes are exchanged, format and reference are not |
| DataPackets.Packet.Destroy | src/core/DataPackets.h:107-114 | the block is freed and the rest of the population stays one to one with the live blocks |
| DataPackets.Packet.EmptyPacket | src/core/DataPackets.h:172-175 | a PacketData does not keep the format it is constructed with |
| DataPackets.Program.Perform | src/core/DataPackets.h:45-192 | any operation the program can do keeps live blocks and non-empty packets one to one, and gives every packet the size and kind the operation says |
| DataPackets.Program.Execute | src/core/DataPackets.h:45-192 | so does any run, whose packets' sizes are a function of its operations; nothing is freed twice |
| DataPackets.Program.Finish | src/core/DataPackets.h:107-183 | destroying every packet leaves no block behind |
| DataPackets.LiveBlocks | src/core/DataPackets.h:52-62 | in a one-to-one population there are as many live blocks as non-empty packets |
| DataPackets.TidyFree | src/core/DataPackets.h:52-56 | freeing a packet's block keeps the others one to one with their contents, the packet emptied or destroyed |
| DataPackets.TidyMalloc | src/core/DataPackets.h:57-62 | so does taking a block for an empty packet, at any address not in use |
| DataPackets.TidySwap | src/core/DataPackets.h:188-192 | so does exchanging two packets' blocks |
| RtpFormat.AudioRoundTrip | src/rtsp/BaseServerMediaSubsession.cpp:59-74 | for every 32-bit rate and channel count the printed format reaches the L16 branch exactly for the formats printed as L16 and gives the same two numbers there; MPEG reaches its own branch, other audio none |
| RtpFormat.AudioFields | src/rtsp/BaseServerMediaSubsession.h:49-81 | the third and fourth fields of a printed audio format are its rate and channels |
| RtpFormat.AudioNames | src/rtsp/BaseServerMediaSubsession.h:49-81 | a printed audio format has exactly four fields, the second being the payload name of its own format, the last two its rate and channels |
| RtpFormat.VideoNames | src/rtsp/BaseServerMediaSubsession.h:28-47 | the name of each video format |
| RtpFormat.VideoDispatch | src/rtsp/BaseServerMediaSubsession.h:28-47 | a video format reaches its own codec's branch, anything else none |
| RtpFormat.CreateSink | src/rtsp/BaseServerMediaSubsession.cpp:31-76 | each sink is made for exactly one name, or one prefix for audio, with the rate and channels read from the string stream |
| RtpFormat.ReadL16 | src/rtsp/BaseServerMediaSubsession.cpp:61-68 | four getline calls read the third field and the line from the fourth on; missing ones keep 44100 and 2 |
| RtpFormat.StringStream.GetLine | src/rtsp/BaseServerMediaSubsession.cpp:63-68 | the text up to the delimiter, or the old string once the end has been hit |
| Decimal.AtoiRoundTrip | src/rtsp/BaseServerMediaSubsession.cpp:69 | every int printed is read back by atoi, whatever follows it |
| Decimal.AtoiReads | src/rtsp/BaseServerMediaSubsession.cpp:69 | any text atoi can meet: white space, at most one sign, digits by their places, the rest ignored |

## Left out

- DispatcherDelivery.CallReturns: does not claim that the handler itself returns, which is the subscriber's code, nor anything of a handler that sends to its own listener, because that waits for a mutex it holds itself.
- ServiceContainerExact.EagerAndLazyAgree: is one direction only; ServiceContainerModes.AgreementIsExact has both for all operations.
- ServiceContainerExact.SettledIsExact: leaves replaced transients, and replaced singletons nobody asks for, to ServiceContainerModes.AgreementIsExact, because there settled is not necessary.
- MediaChannels.Registry.UpdateChannel: does not claim that the stored device matches the channel, because the source stores no device.
- MediaChannels.CreateSettles: assumes of floating point only that the default frame rate reads back from its own text.
- UsageEnvironment.Environment.Print: takes the text that `%f` and `%p` print as an argument, because formatting of doubles and pointers is modelled for whole doubles alone.
- BarFrame.SpillFits: takes the size FFmpeg reports for a 4:2:0 picture with rows aligned to four bytes as given.
- RtpInfo.AddItem: sizes are not wrapped at 32 bits, which would take a header of four gigabytes.
- Destruction of the dispatcher itself, and subscribers whose id changes while they are subscribed.
- push, empty, size and the wait_and_pop and try_pop overloads with an out parameter: they wrap what is modelled.
- Copying or moving a container, and constructors that resolve services themselves.
- Requests for the next frame and callbacks of the media library.
- The Scale and Date headers, absolute time ranges, and the final formatting of the response into its fixed buffer.
- removeChannel: the value notified may have been moved from, and the pipeline then calls through a null device.
- Device lifetime, capture threads, encoding, and everything done by FFmpeg, live555, drogon and spdlog.
- malloc failing, and copy construction of packets, which would share a block.
- Start and stop of the application, the web server and its controllers, the log level tables, the global dictionary, and the random ids of channels, which are arbitrary strings here.
