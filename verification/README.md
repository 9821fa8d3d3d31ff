# Verification of libael's event loop and stream buffers

libael runs one thread per event loop. Other threads attach handlers to a loop, close them, hand it tasks and
write to its streams; everything reaches the loop thread through locked queues, an eventfd and edge-triggered
epoll. The loop thread drives TCP streams through a stack of filters. These Dafny modules state and prove what
that design relies on.

**The protocol between the threads.** `Protocol` is a labelled transition system. Its state holds the three
pending queues, the eventfd's counter and owed edge, `EPoll::events_`, `EventLoop::events_`, the open and
registered descriptors with the edges epoll owes them, every handler with its event and who still points to it,
and the program point of the loop thread in `Run` and `Process`. One action is one locked section, one system
call or one atomic access, and actions of different threads interleave freely; a run is any sequence of enabled
actions. `Wakeups`, `Ledger`, `Registrations` and `Runs` carry the invariant; `Deliveries`, `Tasks` and
`EarlyRemovals` state the theorems about whole runs. `EventLoops` has the methods of
`EPoll`, `EventLoop`, `Event` and `EventHandler`, with the loops and branches of the source, on one object that
holds their fields, the kernel's tables and the loop thread's locals and is updated in place. Every method is
proved to perform a legal run of the protocol, with other threads acting between any two of its sections, so
that the theorems hold of it.

**One stream.** `StreamBuffers` has the classes `StreamBuffer` and `StreamBufferFilter` (called `Filter`), with
`pending_writes_`, the chain of filters and all flags as fields, and other threads and user callbacks acting at
every point where they can. Each method is proved to take a step defined in `Streams`, where the invariants of
a stream are stated on values and proved kept by the steps; `StreamLives` adds them up over the stream's whole
life, and `Scenarios` drives the classes through the exceptions found. `TcpFilter` and `DataViews` are the bottom
filter and the views it slices.

**Both together.** `Notifications` proves that an owed edge, a collected record or a queued ready element lasts
until it is delivered. `StreamService` and `ListenerService` run the protocol together with one stream or one
listener and prove that no write, byte or connection is left behind with nothing on its way that will call the
handler. `StreamListeners` is the accept loop as a class.

## Assumptions

* Descriptor numbers of open files are unique. epoll reports a descriptor at most once per batch, only if it is
  registered and owed an edge, and at most 32 of them; ADD, MOD and new activity make it owe one. The eventfd is
  reported only while its counter is positive.
* A push to a pending queue and the wakeup that may follow it are one action, because both happen under the lock
  (`lib/epoll.cc:123-131`).
* The error numbers for which the source throws in accept, recv, send and getsockopt do not occur. For epoll_ctl
  nothing is assumed: ADD, MOD and DEL are proved to meet their preconditions.
* One thread attaches a given handler. It holds a pointer to it until `Attach` returns.

## Findings

* The loop thread can end with the exception "event not found": an event attached and closed between the swap of
  the add queue and the swap of the remove queue is removed before it was added. `EarlyRemovals` gives such a run
  and proves that nothing else can make the thread throw, and exactly when this does.
* `StreamBuffer::Write` tests `should_close_` and pushes in separate steps. A write that falls between a close
  and its own push is accepted and may never be sent. `Scenarios.LateWriteIsLost` makes that happen with the
  class. Exactly when it happens is seen at the push: in a life that ends with HandleEOF and without failures, a
  write pushed between two calls of HandleEvents is sent if and only if the top filter's `write_closed_`, which
  guards the flush at `lib/stream_buffer.cc:149`, is not yet set (`StreamLives.SentIffOpen`). During the one call that
  sets it, what had been pushed before the call is sent, and what is pushed after its swap is not
  (`StreamLives.SentDuringCall`).
* HandleEOF does not imply that every filter was shut down. `DoClose` passes over a filter that is already closed
  both ways (`lib/stream_buffer.cc:186-189`), as one is that an In and an Out have both asked to close first.
  `Scenarios.EndedAndBroken` makes that happen; `StreamLives.ShutDownAtEof` and `StreamLives.StaysWithoutShutdown`
  say that it happens to no other filter but one that failed to connect, and always to these.
* With tracing compiled in, `lib/tcp_stream_buffer_filter.cc:112` reads through a null pointer after every
  partial send. Logging is not modelled.

## Model

| member | source | states |
|---|---|---|
| Wakeups.RunWakes | lib/epoll.cc:133-161 | In every run a non-empty queue has the eventfd signalled, its record ahead in the batch, or the loop still before that queue's swap; a signalled stop is never slept on |
| Wakeups.NeverSleepsOnWork | lib/epoll.cc:109-136 | Whenever the loop is at `epoll_wait` with anything queued, a stop signalled, or in the last pass, the eventfd is reportable at once, although producers signal only the empty queue |
| Wakeups.ControlWakes | lib/epoll.cc:147-161 | Draining the counter before the three separate swaps loses no wakeup |
| Wakeups.CallWakes | lib/epoll.cc:122-131 | Signalling only when the size becomes one keeps every queue covered |
| Ledger.LogAdvance | lib/epoll.cc:117-119 | Elements are finalized in the order they were pushed, none twice |
| Ledger.DropFinalized | lib/event.cc:26-32 | When the last pointer to an event goes, its addition and its removal have both been finalized |
| Ledger.CallBooks | lib/event_loop.cc:92-152 | Attach, close and their second halves keep the event table exact: it lists the attached events nobody has begun to close; `Remove` never misses |
| Registrations.RegisteredOwner | lib/epoll.cc:236-242 | A registered descriptor is open and belongs to the very event it is registered for |
| Registrations.AddIsFresh | lib/epoll.cc:236-242 | EPOLL_CTL_ADD meets an open descriptor that no event is registered under |
| Registrations.RemoveFinds | lib/epoll.cc:259-265 | `EPoll::events_` has the removed event's entry exactly if its addition has been finalized, and the entry is its own |
| Registrations.CloseUnregistered | lib/event.cc:26-32 | The descriptor of an event that is not registered is still its own, and out of epoll's interest list |
| Registrations.LifeClosesOwn | lib/event.cc:26-32 | No construction or destruction closes a descriptor that is someone else's or still registered |
| Runs.EarlyRemovalMisses | lib/epoll.cc:259-261 | `RemoveFinalize` misses exactly when the addition of that event is still queued or about to be |
| Runs.StepKeeps | lib/epoll.cc:133-288 | One step of any thread keeps the whole invariant, and faults only in `RemoveFinalize` of an event not yet added |
| Runs.RunInvariant | lib/epoll.cc:133-288 | In every run the invariant holds; no ADD, MOD, DEL, `close`, `Remove` or `RemoveInternal` ever fails |
| Deliveries.NoStaleDelivery | lib/epoll.cc:143-177 | A record is handed to the event that was registered under its descriptor when the batch was collected, or dropped, exactly when that one is gone, whatever descriptors were reused since |
| Deliveries.SnapshotIsTable | lib/epoll.cc:133-145 | What a record meant when it was collected is the table at that moment of the run |
| Deliveries.ReadyMeetsItsEvent | lib/epoll.cc:276-280 | A ready element whose descriptor is registered always finds its own event under it |
| Deliveries.ClosedOnce | lib/event.cc:26-98 | In every run a handler's descriptor is closed at most once |
| Deliveries.ClosedUnwatched | lib/event.cc:26-98 | It is closed by its owner, never while registered: by the handler only if it was never attached, by the event only after its removal was finalized |
| Tasks.ClosedAndRemovedOnce | lib/event.cc:49-55 | Over all interleavings of CloseEvent, destructors and the stopping sweep, an event is listed, added, erased and queued for removal at most once each |
| Tasks.CloseFindsItsEvent | lib/event_loop.cc:92-101 | `EventLoop::Remove` finds every event it is called for |
| Tasks.HandleExecutes | lib/epoll.cc:224-232 | Finalizing a task's addition calls it, since it is alive; nothing else ever does |
| Tasks.TasksLogged | include/event_loop.h:40-44 | The tasks executed by a run are those whose additions were finalized, in that order |
| Tasks.TasksRunInOrder | include/event_loop.h:40-44 | Tasks executed, then those left in the swapped batch, then those queued, are the tasks submitted, in order and without repetition, including tasks submitted by tasks |
| Tasks.TaskIsInternal | lib/event_loop.cc:164-169 | `RemoveInternal` always erases exactly the task that calls it |
| EarlyRemovals.ThrowsExactlyOnEarlyRemoval | lib/epoll.cc:154-155 | The next step of any run throws if and only if it finalizes the removal of an event with a descriptor whose addition is still queued or about to be |
| EarlyRemovals.AttachAndCloseCanThrow | lib/epoll.cc:154-155 | A concrete run in which attaching and closing a handler makes the loop thread throw |
| Notifications.NotificationPersists | lib/epoll.cc:133-288 | A notification survives every step except its delivery, or a report without the events asked for |
| Notifications.RegistrationNotifies | lib/epoll.cc:233-242 | A handler becomes registered only by a step that makes epoll owe it an edge, so ready elements dropped before that do no harm |
| Notifications.NotifiedWakes | lib/epoll.cc:133-141 | A notified handler keeps the loop from blocking |
| StreamService.MoveServes | lib/stream_buffer.cc:78-246 | Each step of the loop, of other threads and of the stream keeps writes and bytes served |
| StreamService.NoWriteStranded | lib/stream_buffer.cc:113-166 | Pending writes of an open stream have a notification on its way, a writer about to signal, or the handler yet to swap the queue |
| StreamService.NoByteStranded | lib/stream_buffer.cc:215-221 | Unread bytes of an open TCP stream have a notification on its way or the handler yet to find the socket empty, though edges before the connect were spent there |
| StreamService.NoCloseStranded | lib/stream_buffer.cc:125-129 | Until HandleEOF a requested close has a notification on its way, a closer about to signal, or the handler yet to act; or its last attempt was delayed and the socket has not drained since |
| StreamService.NoConnectStranded | lib/stream_buffer.cc:90-91 | A stream or an added filter still to connect has a notification on its way or the handler yet to finish with it; only an added filter may instead be waiting for its peer |
| ListenerService.NoConnectionStranded | lib/stream_listener.cc:45-93 | Waiting connections have a notification with the read event on its way or the accept loop running, for every limit |
| ListenerService.MoveServes | lib/stream_listener.cc:45-93 | Each step of the loop, of arriving connections and of the accept loop keeps that |
| EventLoops.EventLoop.AddElement | lib/epoll.cc:122-131 | Pushes at the end, and writes the eventfd exactly if the container was empty |
| EventLoops.EventLoop.Add | lib/epoll.cc:180-182 | Is the protocol's push of an addition |
| EventLoops.EventLoop.Remove | lib/epoll.cc:199-201 | Is the protocol's push of a removal |
| EventLoops.EventLoop.Ready | lib/epoll.cc:203-209 | Is the protocol's push of a ready element |
| EventLoops.EventLoop.EpollWait | lib/epoll.cc:133-139 | Collects a batch, or is blocked with nothing to report |
| EventLoops.EventLoop.ReadCounter | lib/epoll.cc:150-152 | Zeroes the counter, or finds it zero |
| EventLoops.EventLoop.Drain | lib/epoll.cc:150-152 | Ends only when the counter has been found zero |
| EventLoops.EventLoop.HandleAdds | lib/epoll.cc:154-154 | Finalizes the whole swapped batch of additions by legal steps, whatever other threads and the handlers it calls do |
| EventLoops.EventLoop.HandleRemoves | lib/epoll.cc:155-155 | The same for removals; ends early only by the exception |
| EventLoops.EventLoop.HandleReadies | lib/epoll.cc:156-156 | The same for ready elements |
| EventLoops.EventLoop.AddFinalize | lib/epoll.cc:218-247 | Is the protocol's step; ADD finds the descriptor open and unregistered |
| EventLoops.EventLoop.RemoveFinalize | lib/epoll.cc:249-268 | Is the protocol's step; misses exactly on an early removal |
| EventLoops.EventLoop.ReadyFinalize | lib/epoll.cc:270-288 | Is the protocol's step |
| EventLoops.EventLoop.Modify | lib/epoll.cc:184-197 | Is the protocol's step; MOD finds the descriptor registered, also from inside a nested HandleEvents |
| EventLoops.EventLoop.HandleRecord | lib/epoll.cc:143-177 | Handles one record, of the eventfd or of a descriptor |
| EventLoops.EventLoop.Process | lib/epoll.cc:133-178 | A legal run through the whole batch; throws only "event not found"; blocks only with all queues empty, no stop signalled, and never in the last pass |
| EventLoops.EventLoop.CallHandler | lib/event_loop.cc:227-241 | A legal run from the call of a handler to its return; on return an ExecuteHandler's event has been closed and the handler erased from the internal handlers |
| EventLoops.EventLoop.CloseEvent | lib/event.cc:49-55 | On return the one removal has been made, by this or another caller; nothing else has changed hands |
| EventLoops.EventLoop.Erase | lib/event_loop.cc:92-105 | The event is listed, and is erased |
| EventLoops.EventLoop.DestroyHandler | lib/event.cc:89-98 | Is the protocol's step; of a handler never attached it closes the descriptor, which is open and its own |
| EventLoops.EventLoop.DestroyEvent | lib/event.cc:26-32 | Is the protocol's step; it closes the descriptor, which is open and the event's own |
| EventLoops.EventLoop.Sweep | lib/event_loop.cc:76-85 | Closes every event listed when the loop stops, so that every event attached by then has begun to be closed, and leaves the eventfd signalled for the last pass |
| EventLoops.EventLoop.Run | lib/event_loop.cc:66-90 | The thread's function is a legal run of the protocol. It returns with the loop running only after as many looks at the stop flag as passes were allowed, none of which saw it; otherwise stop is set, the last pass has been made, and every event attached before has begun to be closed; if stop was set at the start it always does so |
| EventLoops.EventLoop.Pass | lib/event_loop.cc:69-87 | Takes one look at the stop flag; if it is set, sweeps, makes the last pass and finishes, else processes one batch |
| LoopSteps.LoopingUnseen | lib/event_loop.cc:69-73 | In every run the loop goes on exactly as long as no look at the flag has found it set |
| EventLoops.EventLoop.Attach | lib/event_loop.cc:143-155 | Fails exactly for an attached handler; else the call first lists the event, and on return its addition has been queued, whatever runs in between |
| EventLoops.EventLoop.ExecuteOnce | include/event_loop.h:40-44 | A new task is queued, whatever runs in between |
| EventLoops.EventLoop.Stop | lib/event_loop.cc:58-64 | Sets the flag first and signals it last, whatever runs in between; does not wait for the thread |
| LoopSteps.Lasts | lib/event_loop.cc:129-152 | Once a thread is in the middle of a call, no other thread's step takes away its second half |
| StreamBuffers.Filter.In | lib/tcp_stream_buffer_filter.cc:48-77 | Reports what arrives, and adds to the bytes received exactly the bytes it reports |
| StreamBuffers.Filter.Out | lib/tcp_stream_buffer_filter.cc:79-118 | Takes a prefix and leaves the rest, unless it asks to close; counts the calls that left something and those that took nothing |
| StreamBuffers.Filter.Write | lib/stream_buffer.cc:305-326 | Everything stays in order; it stops only when all is taken, a call of Out has left something, or Out has asked to close |
| StreamBuffers.Filter.Read | lib/stream_buffer.cc:328-346 | Hands each report of In to HandleData, in order, up to the first without data, and stops there; closes for reading exactly if that one asks to; leaves the later reports unread |
| StreamBuffers.Filter.Close | lib/stream_buffer.cc:348-389 | Flushes first and shuts down once nothing is left to send or can be sent; becomes closed by nothing but a complete Shutdown, or a failure for writing; a filter that stays open has had an Out that took nothing, an incomplete Shutdown, or bytes taken and some left; TCP with nothing to send closes at once |
| StreamBuffers.StreamBuffer.constructor | lib/stream_buffer.cc:31-46 | A new stream has the TCP filter at the bottom and satisfies the invariant |
| StreamBuffers.StreamBuffer.AddStreamBufferFilter | lib/stream_buffer.cc:56-76 | Allowed at most once per HandleConnected; links the filter on top with the next order number |
| StreamBuffers.StreamBuffer.Write | lib/stream_buffer.cc:100-123 | Appends a copy of the view and signals exactly if the queue was empty; empty views and closing streams take nothing |
| StreamBuffers.StreamBuffer.DoRead | lib/stream_buffer.cc:131-142 | Reads the top filter unless it is read closed; the invariant is kept |
| StreamBuffers.StreamBuffer.DoWrite | lib/stream_buffer.cc:144-166 | The top filter, if it could write, has been given every byte accepted before, unless it has failed |
| StreamBuffers.StreamBuffer.DoClose | lib/stream_buffer.cc:168-196 | Closes from the top down, after flushing: ends with all filters closed, more bytes taken, or a counted stall; hands over what was accepted before, if the top filter could write |
| StreamBuffers.StreamBuffer.DoConnect | lib/stream_buffer.cc:198-225 | Clients ask Connect, servers Accept. Over TCP a client fails exactly if SO_ERROR is set and the descriptor was not connected before. Pending changes nothing; failure closes the top filter; success calls HandleConnected once, rearms the event, and may have added one filter |
| StreamBuffers.StreamBuffer.DoFinalize | lib/stream_buffer.cc:227-246 | Finding the top filter read closed and no close requested, it requests and performs the close: all closed, bytes moved, or a counted stall; HandleEOF and CloseEvent happen once, exactly when every filter is closed |
| StreamBuffers.StreamBuffer.IsReadClosed | lib/stream_buffer.cc:252-263 | Whether every filter is read closed |
| StreamBuffers.StreamBuffer.IsWriteClosed | lib/stream_buffer.cc:265-275 | Whether every filter is write closed |
| StreamBuffers.StreamBuffer.HandleEvents | lib/stream_buffer.cc:78-98 | Keeps the chain and the invariant. Without a handler only closes the event. A stream that nobody closes has handed on everything In reported and ends up closing exactly if its input ended, or has connected or failed exactly as the kernel reports; everything accepted before is handed over, also by the call that closes the top filter; a stream that is closing, or whose close this call began, ends, moves bytes or stalls, counted; over TCP alone with nothing to send, closing or at the end of its input, it ends at once |
| Streams.InterferedKeeps | lib/stream_buffer.cc:100-129 | Nothing other threads or callbacks do breaks a stream's invariant |
| Streams.ReadKeeps | lib/stream_buffer.cc:328-346 | The views handed to HandleData are the bytes received, in order |
| Streams.SwapKeeps | lib/stream_buffer.cc:154-159 | Swapping the pending writes out loses and reorders nothing |
| Streams.WriteKeeps | lib/stream_buffer.cc:305-326 | Conservation: accepted = consumed, then pending in the top filter, then in transit, then queued; after a failure consumed is still a prefix |
| Streams.WriteRunKeeps | lib/stream_buffer.cc:144-166 | One DoWrite with others interfering hands over every byte accepted before it, and on a closing stream leaves only late writes |
| Streams.ShutKeeps | lib/stream_buffer.cc:348-389 | Closing a filter whose upper filters are closed keeps top-down order, conservation and drainage |
| StreamLives.ShutDownAtEof | lib/stream_buffer.cc:184-195 | At HandleEOF every filter has had a complete Shutdown, except one that failed to connect, and one that an In and an Out have both asked to close |
| StreamLives.StaysWithoutShutdown | lib/stream_buffer.cc:186-189 | A filter that an In and an Out have both asked to close before any Shutdown is never shut down |
| Scenarios.EndedAndBroken | lib/stream_buffer.cc:184-195 | A run of the class that reaches HandleEOF without a Shutdown of its only filter |
| Scenarios.PeerCloses | lib/stream_buffer.cc:227-246 | When the peer of an idle stream closes the connection, HandleEOF and CloseEvent follow in the same call |
| Streams.ClosePassStep | lib/stream_buffer.cc:184-195 | One step of DoClose's pass: goes on below a closed filter, stops at a delayed one |
| Streams.ConnectKeeps | lib/stream_buffer.cc:215-218 | Filters may be added only while nothing has gone through the top filter and none is closed |
| Streams.AddKeeps | lib/stream_buffer.cc:56-76 | No bypass: writes made before an upgrade leave through the added filter only |
| Streams.ConnectRunKeeps | lib/stream_buffer.cc:215-221 | HandleConnected, a possible upgrade and interference before and after keep the invariant |
| Streams.EndKeeps | lib/stream_buffer.cc:238-244 | HandleEOF fires with all filters closed and keeps the invariant under which it is the last callback |
| Streams.MovedAdvances | lib/stream_buffer.cc:90-97 | A call on a stream that nobody closes reads until there is no more data and leaves it closing exactly at the end of its input; over TCP it connects it, or leaves it closing, exactly as the kernel reports |
| Streams.FinalizeServes | lib/stream_buffer.cc:227-246 | A close that nobody requested, begun at the end of input, has in the same call ended the stream, moved bytes or stalled |
| StreamLives.GracefulClose | lib/stream_buffer.cc:168-246 | At HandleEOF, without failures, what the top filter took followed by what still lies queued is what was accepted, in order; nothing lies queued unless a write was late |
| StreamLives.SentBeforeClosed | lib/stream_buffer.cc:144-196 | What was accepted while the top filter could still write has been sent when a life ends without failures |
| StreamLives.SentIffOpen | lib/stream_buffer.cc:149-152 | A write pushed between two calls is sent if and only if the top filter is not write closed at the push; otherwise not a byte of it is |
| StreamLives.SentDuringCall | lib/stream_buffer.cc:149-160 | A write pushed during a call is sent if the call leaves the top filter open, not if it found it closed; of the call that closes it, all is sent but what lies in `pending_writes_` after it, which came in after its swap |
| Scenarios.LateWriteIsLost | lib/stream_buffer.cc:106-118 | A run of the class in which a write accepted during a close is never sent, although nothing failed |
| StreamLives.RunKeeps | lib/stream_buffer.cc:78-129 | Over a whole life: invariant kept, flags never reset, no byte taken back, filters only added while none is closed, HandleConnected once per connected filter, nothing called after HandleEOF, no write accepted while closing but a late one |
| StreamLives.RunGracefulClose | lib/stream_buffer.cc:78-246 | Graceful close for every life of a stream |
| StreamLives.ReachesEof | lib/stream_buffer.cc:88-97 | Close measure: a closing stream has reached HandleEOF once the calls in which nothing stalled outnumber the bytes to send, for any number of filters, other stalled calls, late writes and interference |
| StreamLives.TcpReachesEof | lib/tcp_stream_buffer_filter.cc:153-156 | Over TCP alone, where a stall is an EAGAIN of send, HandleEOF is reached once all calls outnumber the bytes to send and the EAGAINs together |
| TcpFilter.Out | lib/tcp_stream_buffer_filter.cc:79-118 | What is taken and what is left make up the view; what is left is never empty; nothing is taken of an open socket exactly on EAGAIN, and then the view is kept |
| TcpFilter.In | lib/tcp_stream_buffer_filter.cc:48-77 | End of file and errors close the reading, EAGAIN reports no data, and bytes received are reported whole, in a view that owns them |
| TcpFilter.Connect | lib/tcp_stream_buffer_filter.cc:130-151 | Succeeds exactly if the descriptor was connected before or SO_ERROR is 0, and is never pending |
| DataViews.SliceSplits | lib/data_view.cc:29-50 | Slicing fails exactly outside the view; the cut prefix and the saved rest make up the view |
| DataViews.SliceSlice | lib/data_view.cc:29-39 | Successive partial writes advance through the view |
| DataViews.BytesAppend | lib/stream_buffer.cc:305-308 | Appending lists of views appends their bytes |
| StreamListeners.StreamListener.HandleEvents | lib/stream_listener.cc:45-93 | Accepts in order of arrival and passes on each connection while the handler lives; ends with an empty backlog, or at the limit, counting failed accepts, with one read event posted to itself |
| StreamListeners.StreamListener.Accept | lib/stream_listener.cc:56-77 | Takes the first waiting connection, fails without taking one, or finds none |
| StreamListeners.NothingLost | lib/stream_listener.cc:45-93 | Of the class: connections handed over, those accepted after the handler was destroyed, and those still waiting are those that arrived, in order |

## Left out

- Timers (`lib/event_loop.cc:171-223`) and `EventLoop::DestroyAll` with the table of loops: easy next to the rest.
- Sockets, addresses, configuration, logging, samples, and the translation of event masks.
- Event masks chosen before a connection exists: `Events::Stream` is 0x16 (`include/event.h:28`), which overlaps Write and Close, so a stream always subscribes to input and output.
- Destruction of an event loop while events still point to it; a loop outlives its events here.
- Overflow of the eventfd counter and of the 64-bit id counter.
- The C++ memory model: every locked section and atomic access is one step, plain fields of a stream are used on the loop thread only.
- Everything after the loop thread has thrown: a run ends there.
- Unregistering all events when a loop stops: its last pass handles at most 32 records (`lib/epoll.cc:27`), so no such claim is made.
- Aliasing of unsaved views; a view is a value here.
- The inside of added filters: their In, Out, Shutdown, Connect and Accept answer arbitrarily within their contracts, so nothing is said about bytes a filter holds back internally. What passes through a covered filter by PrevIn and PrevOut is not followed: of such a filter only its own Read, Write and Close are, and bytes are followed at the top filter.
- EventLoops.EventLoop.Run: stops after a given number of passes, because the thread's loop need not end; every number of passes is covered.
- EventLoops.EventLoop.Stop: does not wait for the thread to be joined, because that is the end of `Run`.
- EventLoops.EventLoop.CloseEvent: as called by the loop thread; closes by other threads are the two steps they consist of, taken between the loop's own.
- EventLoops.EventLoop.CallHandler: what a handler's own code does is any sequence of calls into the loop; the stream's and the listener's own code are separate classes.
- StreamService.NoWriteStranded: is about `pending_writes_` of an open stream. Bytes already in `pending_out_` are retried only by a later write or a close, because a writable event does nothing when `pending_writes_` is empty (`lib/stream_buffer.cc:161-165`). Its stream is an abstraction with counters, and no refinement between it and the class in `StreamBuffers` is proved.
- StreamService.NoByteStranded: is for streams without added filters, whose reading is not specified.
- StreamLives.ReachesEof: says nothing about how often the kernel answers EAGAIN or an added filter leaves its Shutdown incomplete; such calls are counted, not bounded.
- StreamBuffers.StreamBuffer.HandleEvents: at most one filter is added per HandleConnected, as `add_filter_allowed_` enforces; the exception thrown otherwise is the result `false` of AddStreamBufferFilter.
