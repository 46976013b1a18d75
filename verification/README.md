# Models and proofs for the game server

This project models the stateful cores of the server and proves what they promise over whole
runs. Each model follows the code's own branches, constants and error returns; what the
operating system, the clock or a user of the module decides is a parameter.

| files | models |
|---|---|
| `WheelSlots`, `FlatTimers`, `TimingWheel` | the timing wheel of `common/timer.cpp` against a flat list of timers |
| `TimerRegistry`, `GameTimer`, `TimerStory` | the two maps above the wheel, `GameTimer` as one object, and what its calls say of each timer |
| `Ring`, `PowerOfTwo`, `KFifo`, `KFifoRecords` | the ring buffer of `common/kfifo` against a bounded queue of elements or records |
| `Spsc`, `LogCodec`, `LogProtocol`, `LogProgress` | one writer and one reader on the ring buffer, the log protocol on top, and how far it gets |
| `WriteLists`, `WriteRuns`, `WriteLife`, `WriteQueue` | the two write lists of a socket in `network/socket/socket_server.c`: steps, runs, what goes out and when it closes, object |
| `SocketSlots`, `SocketThreads`, `SocketPoll`, `SocketRuns`, `SocketLife`, `SocketServer` | the slot table, the control pipe and the event batch of the same file: steps, runs, the life of a socket, object |
| `AllocIds`, `IdRuns` | the counter behind the socket identifiers, alone and together with the slot table |
| `PacketCodec`, `ClientBuffer` | the wire format and the decoding of a connection's bytes |
| `PacketPool`, `PacketQueue`, `SixQueues`, `Pipeline`, `PipelineRuns`, `PipelineProgress` | packet memories, the six queues, and the network and logic threads |
| `Snowflake` | the identifier generator of `common/utils/uuid.h` |

How the models are built:

- Objects that the code updates in place are classes whose methods are proved against
  functions on values (`Value()`, `Model()`, `Contents()`); the theorems are about those
  functions, and a run of the object is proved to be the run of the value.
- Threads are state machines: a step is what a thread does under one lock, or one access to
  shared memory where the code uses none. A run is any sequence of steps; memory is
  sequentially consistent.
- History fields (`line`, `arrived`, `issued`, `born`, `who`, ...) record what happened. No
  operation decides anything by them.

Where the code does not do what one would expect, the model keeps the code, shows an input or a
run, and states exactly when the expectation holds:

- A timer key with a NUL character is cut when it is copied into the context; the two maps are
  inverse exactly without it (`TimerRegistry.AddInverse`). `AddTimer` with a delay of 0 or less
  takes its own lock a second time (`GameTimers.GameTimer.AddTimer`).
- A clock that goes back is never made up for: the timer stays ahead by all that it went back
  (`TimerStory.ClockDrift`).
- A record longer than its length field can say is queued with a cut length
  (`KFifoRecords.AppendReadsBack`).
- A low-priority package is put at the head of the high list even if its direct write took no
  byte, and then overtakes exactly the high-priority packages submitted before its first byte
  goes out (`WriteRuns.OvertakeIff`, with a run in `WriteRuns.LowOvertakes`). A comment in the
  source mentions only the case of a partial write.
- `reserve_id` marks a slot before it stores the identifier, `open_socket` frees a slot twice
  after a failed add, and `clear_closed_event` looks at a slot that another thread may have
  reserved again. Each leaves a window in which another thread's step does harm:
  `SocketRuns.RequestWindowFails`, `SocketRuns.FreeWindowFails` and
  `SocketRuns.EventWindowFails` are such runs from the start of the server. Over every run, all
  assertions and the routing of events hold if and only if no step falls into one of the three
  windows (`SocketRuns.RunSoundIffClean`).
- Threads that increment `alloc_id` past the signed end while another has not masked it yet get
  the same identifier twice (`AllocIds.SequenceIffAlone`), and one can then close the other's
  socket (`IdRuns.TwinClosed`); otherwise counter and slot table together behave like the slot
  table with atomic numbers (`IdRuns.AloneIsMachine`).
- A connection stalls for good exactly if the bytes left begin with a size field below 4, or with
  the first byte of a negative one (`PacketCodec.StalledIffDoomed`); the receive buffer runs full
  only in that case (`ClientBuffers.RestJammed`).
- An unpack call that ends in an error leaves its packets in the prepare queue without waking
  the logic thread, and the next call that decodes nothing hands them over silently
  (`PipelineRuns.LeftBehind`). No packet goes unnoticed in a run exactly if every hand-over
  meets the condition of `PipelineRuns.MoveNoticed` (`PipelineRuns.NoticedIffHeard`).
- `kfifo_skip` and `kfifo_skip_n` do not test what is queued; the fifo stays sound exactly under
  the conditions in `KFifoRecords.SkipR` and `KFifos.KFifo.SkipN`.
- Identifiers repeat if the clock goes back (`Snowflake.BackwardRepeats`); they are in order
  exactly if no call begins with an earlier reading (`Snowflake.IncreasingIffForward`).

## Model

| member | source | states |
|---|---|---|
| `WheelSlots.ShiftSlot` | common/timer.cpp:154-174 | One tick: every timer ranks at least as high as the cascading level, a timer in the one cascading list lands strictly lower, and no other timer changes its canonical list; across the 32-bit wrap as well |
| `WheelSlots.ShiftBeyondWrap` | common/timer.cpp:86-105 | A deadline beyond the wrap sits on the top level, in the list of its six highest bits, and stays there until the clock wraps; then it cascades or stays by the rule for one tick |
| `WheelSlots.CarryEnds` | common/timer.cpp:160-173 | The cascade loop stops at the level whose index is not zero, and never passes level 3 |
| `WheelSlots.DueSlot` | common/timer.cpp:187-198 | The near list under the clock holds exactly the timers whose deadline is the clock |
| `FlatTimers.FiredOnce` | common/timer.cpp:176-214 | Conservation for the flat list of timers: up to any tick, what was started is what has fired plus what is pending, each exactly once |
| `FlatTimers.AdvanceNext` | common/timer.cpp:200-214 | One tick of the flat list fires exactly the timers ever started with that deadline, in the order added |
| `FlatTimers.DueOrder` | common/timer.cpp:187-198 | The events due at a tick are those of exactly the entries with that deadline, at increasing places of the list |
| `FlatTimers.StartedOrder` | common/timer.cpp:107-118 | The timers of a run are those of exactly its additions, in their order, each with the deadline its addition asked for |
| `FlatTimers.DueInOrder` | common/timer.cpp:107-214 | What fires at a tick are the events of exactly the additions whose time plus delay is that tick, in the order of the additions |
| `TimingWheel.Redistribute` | common/timer.cpp:120-128 | Emptying one list and adding its nodes again turns the old placement of all timers into the new one, order included |
| `TimingWheel.CanonTick` | common/timer.cpp:154-174 | Moving at most one list per tick keeps every list equal, in order, to the pending timers whose canonical list it is |
| `TimingWheel.CanonDue` | common/timer.cpp:187-198 | Emptying the list under the clock fires the due timers in the order added and leaves all other lists canonical |
| `TimingWheel.AddKeeps` | common/timer.cpp:107-118 | Adding a timer appends it to its canonical list and keeps all lists canonical |
| `TimingWheel.FindList` | common/timer.cpp:86-105 | The shifts and masks of add_node choose the canonical list of (deadline, clock) |
| `TimingWheel.CarryList` | common/timer.cpp:154-174 | The shifts and masks of timer_shift choose the only list that has to be redistributed, or none |
| `TimingWheel.Wheel.constructor` | common/timer.cpp:130-152 | A new wheel is empty and canonical at tick 0 |
| `TimingWheel.Wheel.AddNode` | common/timer.cpp:86-105 | The node goes to the end of its canonical list; nothing else changes |
| `TimingWheel.Wheel.TimerAdd` | common/timer.cpp:107-118 | The wheel holds the flat list of timers with the new one added, for every delay 1..2^31-1 |
| `TimingWheel.Wheel.MoveList` | common/timer.cpp:120-128 | The list is emptied and its nodes are placed again at the new clock |
| `TimingWheel.Wheel.TimerShift` | common/timer.cpp:154-174 | The clock advances by one modulo 2^32 and the wheel is canonical again |
| `TimingWheel.Wheel.Detach` | common/timer.cpp:187-198 | The list under the clock is taken out whole |
| `TimingWheel.Wheel.TimerExecute` | common/timer.cpp:187-198 | Exactly the timers due at the clock are dispatched, in the order added |
| `TimingWheel.Wheel.TimerUpdate` | common/timer.cpp:200-214 | The pass before the shift dispatches nothing; the pass after it dispatches the timers of the new tick in the order added |
| `TimingWheel.LogConserves` | common/timer.cpp:107-214 | What was started is what was dispatched plus what is pending, each timer exactly once |
| `TimingWheel.LogInOrder` | common/timer.cpp:107-214 | Every update of a run dispatches exactly the additions for its tick, in the order of the additions |
| `TimingWheel.RunWheel` | common/timer.cpp:107-214 | Whole runs: for any sequence of additions and updates, the k-th update dispatches exactly the timers due at tick k, which are the additions whose time plus delay is k, in the order of the additions; no timer is lost or fires twice, and the clock is the number of updates modulo 2^32 |
| `TimerRegistry.AddInverse` | common/timer.cpp:304-332 | After AddTimer the two maps are inverse to each other if and only if the key has no NUL character |
| `TimerRegistry.NulKeyDisturbs` | common/timer.cpp:249-271 | Two timers, one with a NUL in its key: removing one takes the key entry of the other |
| `TimerRegistry.SecondTimer` | common/timer.cpp:304-364 | A timer that replaced another one of its key can be taken back by that key if and only if the key has no NUL character |
| `TimerRegistry.DropInverse` | common/timer.cpp:249-271 | Removing a handle keeps the maps inverse |
| `TimerRegistry.RemoveKeeps` | common/timer.cpp:345-364 | RemoveTimer keeps the invariant and marks the timer as taken back |
| `TimerRegistry.AddKeeps` | common/timer.cpp:304-332 | AddTimer, with or without replacement, keeps the invariant; the replaced timer is marked as taken back |
| `TimerRegistry.TickKeeps` | common/timer.cpp:187-214 | Detaching the due list keeps every issued handle scheduled at most once, at its own deadline |
| `TimerRegistry.TimeoutKeeps` | common/timer.cpp:273-287 | A dispatched node pushes its timer exactly if it is still registered, and then at its deadline |
| `TimerRegistry.StepKeeps` | common/timer.cpp:249-364 | Every step of the application threads and of the timer thread keeps the invariant |
| `TimerRegistry.TimerFate` | common/timer.cpp:249-364 | In every run: a timer removed or replaced never enters a queue afterwards, one left alone has entered exactly once when its deadline has passed |
| `TimerRegistry.QueuedAtDeadline` | common/timer.cpp:273-287 | In every run a timer enters its queue only while the clock shows its deadline |
| `TimerRegistry.QueuedNotEarly` | common/timer.cpp:273-287 | In every run what is in a queue was due |
| `TimerRegistry.TruthStep` | common/timer.cpp:249-364 | Every step keeps each registered and each queued timer exactly what was asked for: its key, its callback and its queue |
| `TimerRegistry.SortedStep` | common/timer.cpp:187-287 | Every step keeps what was queued in the order of deadlines, and of additions within one tick |
| `TimerRegistry.RunSorted` | common/timer.cpp:249-364 | In every run: the queued timers carry the key, callback and queue of their addition, ordered by deadline and then by addition |
| `GameTimers.GameTimer.RemoveTimerHandle` | common/timer.cpp:249-271 | Both map entries of the handle go; an unknown handle changes nothing |
| `GameTimers.GameTimer.GenerateHandleID` | common/timer.cpp:289-302 | Terminates with the next unused handle in cyclic order over 1..2^32-2, across the wrap, whenever one is unused |
| `GameTimers.GameTimer.Register` | common/timer.cpp:313-327 | The part under the lock: the old timer of the key goes, a free handle is taken, both maps get the new entry |
| `GameTimers.GameTimer.AddTimer` | common/timer.cpp:304-332 | Refines the registry and the flat timer list; a key over 128 characters is refused; a delay of 0 or less re-enters the held lock and blocks |
| `GameTimers.GameTimer.RemoveTimer` | common/timer.cpp:345-364 | Refines the removal by key; a key over 128 characters is refused |
| `GameTimers.GameTimer.TimerTimeout` | common/timer.cpp:273-287 | Refines the dispatch of one detached node |
| `GameTimers.GameTimer.Update` | common/timer.cpp:200-214 | Refines one tick followed by the dispatch of its whole list |
| `GameTimers.GameTimer.TimerUpdate` | common/timer.cpp:377-396 | Performs as many updates as the 32-bit difference of the two time points; a clock that went back performs none |
| `GameTimers.OneShiftPerCentisecond` | common/timer.cpp:377-396 | The wheel advances by the elapsed centiseconds if and only if fewer than 2^32 have elapsed |
| `GameTimers.CallsRun` | common/timer.cpp:249-396 | Any sequence of calls on the timer is a run of the registry |
| `GameTimers.CallsSettled` | common/timer.cpp:249-396 | After any calls a timer is in its queue if and only if it is due and was not taken back, once, with the key, callback and queue it was added with, and the queues are ordered by deadline and then by addition |
| `GameTimers.RunTimer` | common/timer.cpp:249-396 | Any sequence of calls on the object ends in the state of that run, with every timer settled |
| `TimerStory.CounterIs` | common/timer.cpp:289-302 | The handle counter is the number of additions accepted so far |
| `TimerStory.IssuedBy` | common/timer.cpp:304-332 | Handle h was issued by the h-th addition that was accepted, with its key, callback and queue, and is due at the time of that call plus its delay |
| `TimerStory.CancelledIff` | common/timer.cpp:249-364 | A timer is taken back if and only if some later call adds or removes a timer under its key before it was queued |
| `TimerStory.ClockDrift` | common/timer.cpp:377-396 | Over any calls the timer clock is the elapsed time plus all that the time points went back, minus what did not fit 32 bits |
| `PowerOfTwo.RoundDownLow` | common/kfifo/kfifo.c:30-33 | The bit smearing on 32-bit words gives the greatest power of two not above n, for 1 <= n < 2^31 |
| `PowerOfTwo.RoundDownOther` | common/kfifo/kfifo.c:30-33 | For 0 and for n >= 2^31 the result is 0 |
| `PowerOfTwo.PowerDivides` | common/kfifo/kfifo.c:43-61 | Every power of two below 2^32 divides 2^32, so masking a wrapped counter is consistent |
| `Ring.CounterStep` | common/kfifo/kfifo.c:63-99 | Advancing a 32-bit counter by n <= size moves its slot n places around the buffer, across the wrap |
| `Ring.WriteAppends` | common/kfifo/kfifo.c:63-85 | Writing behind the bytes in use appends to them, wherever the end of the buffer falls |
| `Ring.ReadDrops` | common/kfifo/kfifo.c:101-123 | Moving the start forward drops bytes from the front |
| `KFifos.PutContents` | common/kfifo/kfifo.c:87-99 | Writing n elements at the in-counter appends them to the queue contents, for every element size and counter value |
| `KFifos.TakeContents` | common/kfifo/kfifo.c:138-144 | Advancing the out-counter by n drops the first n elements |
| `KFifos.KFifo.Init` | common/kfifo/kfifo.c:43-61 | Capacity is the greatest power of two not above size/esize if that quotient is 2..2^31-1; otherwise -EINVAL |
| `KFifos.KFifo.CopyIn` | common/kfifo/kfifo.c:63-85 | The two-part copy lays the source over the ring from the given counter on and touches nothing else |
| `KFifos.KFifo.In` | common/kfifo/kfifo.c:87-99 | As many elements as fit are appended, in order |
| `KFifos.KFifo.CopyOut` | common/kfifo/kfifo.c:101-123 | The two-part copy reads the ring from the given counter on |
| `KFifos.KFifo.OutPeek` | common/kfifo/kfifo.c:125-136 | The oldest elements, as many as are asked for and there; the queue is unchanged |
| `KFifos.KFifo.Out` | common/kfifo/kfifo.c:138-144 | The oldest elements are returned and removed |
| `KFifos.KFifo.SkipN` | common/kfifo/kfifo.h:303-308 | The out-counter moves by n unchecked; the fifo stays sound if and only if n elements are queued or the counter comes round; if they are queued, exactly those are dropped |
| `KFifos.KFifo.ResetOut` | common/kfifo/kfifo.h:231-235 | The queue becomes empty |
| `KFifoRecords.PackParses` | common/kfifo/kfifo.c:161-255 | Reading a packed sequence of records back gives the records |
| `KFifoRecords.AppendReadsBack` | common/kfifo/kfifo.c:184-211 | An appended record is read back as that record if and only if its length fits the length field |
| `KFifoRecords.AppendHolds` | common/kfifo/kfifo.c:200-211 | The queue holds the longer list of records if and only if the new length fits the field |
| `KFifoRecords.CopiedTwice` | common/kfifo/kfifo.c:200-211 | Poking the length and copying the body behind it is one append, also when either straddles the end of the buffer |
| `KFifoRecords.OldestRecord` | common/kfifo/kfifo.c:161-173 | The contents start with the length field and the bytes of the oldest record, followed by the packed rest |
| `KFifoRecords.DropOldest` | common/kfifo/kfifo.c:236-255 | Skipping length field and body leaves the packed rest |
| `KFifoRecords.PokeN` | common/kfifo/kfifo.c:184-193 | The length is written little-endian behind the queued bytes |
| `KFifoRecords.PeekN` | common/kfifo/kfifo.c:161-173 | What stands at the out-counter is read as a length field, queued or not; with a record queued it is its length |
| `KFifoRecords.InR` | common/kfifo/kfifo.c:200-211 | The whole record is appended or nothing changes |
| `KFifoRecords.CopyBody` | common/kfifo/kfifo.c:213-223 | n bytes behind the length field are copied out |
| `KFifoRecords.OutPeekR` | common/kfifo/kfifo.c:225-234 | A prefix of the oldest record, as long as asked for; the queue is unchanged |
| `KFifoRecords.OutR` | common/kfifo/kfifo.c:236-247 | A prefix of the oldest record is returned and the whole record removed |
| `KFifoRecords.SkipR` | common/kfifo/kfifo.c:249-255 | The out-counter moves by what reads as a record; the fifo stays sound if and only if so many bytes are queued, on an empty fifo never; of queued records exactly the oldest is dropped |
| `Spsc.StepKeeps` | common/kfifo/kfifo.c:63-144 | Every step of one writer and one reader, copying element by element with stale counters and publishing afterwards, keeps the invariant, for any element type |
| `Spsc.NoRace` | common/kfifo/kfifo.h:32-40 | No place of the buffer is read while it is being written |
| `Spsc.FetchedIsStream` | common/kfifo/kfifo.c:101-123 | A finished copy of the reader holds the oldest elements not taken yet |
| `Spsc.SpscSafe` | common/kfifo/kfifo.h:32-40 | In every interleaving, across buffer and counter wrap: what was taken is a prefix of what was put in, at most one buffer apart, and no place is read while written |
| `Spsc.Amounts` | common/kfifo/kfifo.c:87-144 | Each step puts in or takes out exactly as much as asked for and possible: the free places for a write, the elements there for a read, nothing for a peek |
| `LogCodec.DecodeEncode` | common/log/bufferlog.h:66-111 | The block header reads back from its 312 bytes |
| `LogCodec.DamagedIff` | common/log/bufferlog.cpp:56-64 | The test for damage lets 312 bytes through if and only if both tokens stand in their places and the length is below the limit or, read as signed, negative |
| `LogProtocol.NextMessage` | common/log/bufferlog.cpp:45-85 | Once its header is published, the next message to pop is the next one accepted, its header is intact, and its body follows |
| `LogProtocol.SkipAllowed` | common/log/bufferlog.cpp:45-85 | The unchecked skip of the header is always within the queued bytes |
| `LogProtocol.StepKeeps` | common/log/bufferlog.cpp:21-85 | Every step of the pushing and of the popping thread keeps the invariant |
| `LogProtocol.LogSafe` | common/log/bufferlog.cpp:21-85 | In every interleaving: the messages popped are a prefix of those accepted, a message is accepted whole or dropped whole, and the branch for corrupted data is never reached |
| `LogProgress.AcceptIff` | common/log/bufferlog.cpp:21-43 | In every run a message is accepted if and only if it is not empty and leaves a byte of the fifo free; nothing else is ever accepted |
| `LogProgress.ReadIff` | common/log/bufferlog.cpp:45-85 | In every run the reader looks at a header if and only if one is published, takes a message if and only if it is published whole, and hands out one exactly when its copy is done |
| `LogProgress.PeekVerdict` | common/log/bufferlog.cpp:45-64 | Whatever bytes are peeked at, the reader goes on exactly if they are let through, and takes nothing yet |
| `LogProgress.OtherCommand` | common/log/bufferlog.cpp:72-84 | Of a block with another command only the header is taken; the body stays in front |
| `LogProgress.PushFinishes` | common/log/bufferlog.cpp:21-43 | From every reachable state the pushing thread can finish alone: the message it is at is published whole |
| `LogProgress.PopFinishes` | common/log/bufferlog.cpp:45-85 | From every reachable state the popping thread can finish alone, and hands out the next message if it is published whole |
| `LogProgress.AllHandedOut` | common/log/bufferlog.cpp:21-85 | From every reachable state the two threads can go on so that exactly the accepted messages have been handed out |
| `WriteLists.DrainedPart` | network/socket/socket_server.c:502-532 | A partial write keeps wire, debt and order in agreement |
| `WriteLists.DrainedWhole` | network/socket/socket_server.c:502-532 | A write that finishes the head keeps wire, debt and order in agreement |
| `WriteLists.DrainedBy` | network/socket/socket_server.c:502-532 | send_list_tcp with any behaviour of write(): bytes leave in list order, only the new head may be partly sent, and the debt shrinks by what went out |
| `WriteLists.FairBy` | network/socket/socket_server.c:502-532 | Counting both lists, a low-priority package that begins while a list drains has exactly the high-priority packages behind it that were submitted since it jumped ahead, and none if it did not |
| `WriteLists.HighDrained` | network/socket/socket_server.c:636-665 | Draining the high list keeps the invariant: whole packages end to end, only the head of the high list partly sent, wb_size exact |
| `WriteLists.LowDrained` | network/socket/socket_server.c:611-665 | Draining the low list and raising a begun head keeps the invariant |
| `WriteLists.FailedOrderly` | network/socket/socket_server.c:502-532 | A socket closed by an I/O error still has whole packages on the wire with at most the last unfinished |
| `WriteLists.BufferKeeps` | network/socket/socket_server.c:636-665 | send_buffer keeps the invariant, or closes the socket in good order; a close that is no error comes only after a close request, with everything on the wire |
| `WriteLists.DirectKeeps` | network/socket/socket_server.c:719-783 | A direct write that took n bytes, with the rest queued at the head of the high list, keeps the invariant |
| `WriteLists.QueuedKeeps` | network/socket/socket_server.c:667-705 | Queueing a package keeps the invariant and the order within its priority |
| `WriteLists.SendKeeps` | network/socket/socket_server.c:719-783 | send_socket: the package is taken and recorded, or refused with nothing changed, or the socket is closed by an error |
| `WriteLists.CloseKeeps` | network/socket/socket_server.c:806-831 | close_socket: without an I/O error the close is reported only with every submitted byte on the wire; otherwise the socket takes nothing more and keeps what is queued |
| `WriteLists.AllSent` | network/socket/socket_server.c:707-710 | With both lists empty every submitted byte is on the wire and wb_size is 0 |
| `WriteRuns.StepKeeps` | network/socket/socket_server.c:502-831 | Every operation keeps what a socket promises, whatever the system calls do |
| `WriteRuns.After` | network/socket/socket_server.c:502-831 | Every state of every run, from a connecting or a connected socket, keeps the promises |
| `WriteRuns.WireSafe` | network/socket/socket_server.c:502-831 | In every run the wire carries whole packages end to end with at most the last one unfinished, each priority in submission order |
| `WriteRuns.RunLater` | network/socket/socket_server.c:502-831 | What is on the wire stays, and a socket that has ended never takes anything again |
| `WriteRuns.SubmissionTaken` | network/socket/socket_server.c:719-783 | A package is taken if and only if the socket is neither closed nor closing and the direct write does not fail |
| `WriteRuns.NothingAfterClose` | network/socket/socket_server.c:806-831 | After a close request nothing submitted later is taken, to the end of the run |
| `WriteRuns.CleanCloseSent` | network/socket/socket_server.c:636-665 | A close reported without an I/O error leaves every byte submitted before it on the wire, and comes only after a close request |
| `WriteRuns.HalfClosed` | network/socket/socket_server.c:806-831 | A socket becomes half-closed only by a close request |
| `WriteRuns.RunTold` | network/socket/socket_server.c:719-783 | Every record of a first byte names the submission, the step and the high-priority packages truly |
| `WriteRuns.OvertakeIff` | network/socket/socket_server.c:735-760 | In every run the first byte of a low-priority package goes out while high-priority packages wait on either list if and only if its direct write took no byte and high-priority packages were submitted before that byte; it overtakes exactly those |
| `WriteRuns.LowOvertakes` | network/socket/socket_server.c:735-783 | A run in which it happens: the first byte of a low-priority package goes out while a high-priority one waits |
| `WriteLife.RetryMeans` | network/socket/socket_server.c:506-516 | The call that counts is the first one that is not interrupted |
| `WriteLife.DrainsExact` | network/socket/socket_server.c:502-532 | A list is written exactly as far as write() lets it: which packages are finished and how many bytes of the next one went out follow from the calls alone |
| `WriteLife.FailsHonestly` | network/socket/socket_server.c:502-532 | Draining fails if and only if the call that stopped it failed |
| `WriteLife.BufferEnds` | network/socket/socket_server.c:636-665 | When send_buffer closes a socket: with an error by a failed call, and cleanly exactly if the socket is half-closed, its low list was empty and everything is out |
| `WriteLife.BufferExact` | network/socket/socket_server.c:636-665 | send_buffer writes the high list and, if it empties, the low list, exactly as far as write() lets it |
| `WriteLife.CloseOutcome` | network/socket/socket_server.c:806-831 | close_socket closes cleanly if and only if everything is out by then; else it closes by an error of write() or half-closes |
| `WriteLife.KindAfter` | network/socket/socket_server.c:502-831 | In every run: which operations report a close, which close with an error, and the kind of socket they leave |
| `WriteLife.AfterClose` | network/socket/socket_server.c:806-816 | On a closed socket nothing happens any more; each request to close it is answered |
| `WriteLife.CleanCloseIff` | network/socket/socket_server.c:636-665 | In every run a socket closes cleanly if and only if a close request gets everything out, or a writable event on a half-closed socket whose low list was empty does; then every byte in line is on the wire |
| `WriteLife.OneMoreCloses` | network/socket/socket_server.c:655-662 | In every run: once everything is out, the next writable event closes a half-closed socket |
| `WriteLife.OutIsSent` | network/socket/socket_server.c:502-532 | With no empty package in line, every package is sent if and only if all their bytes are on the wire |
| `WriteLife.FlowsExactly` | network/socket/socket_server.c:502-831 | In every run a writable event or close request gets exactly as far as write() lets it, and fails if and only if the call that stopped it failed |
| `WriteLife.SubmissionWrites` | network/socket/socket_server.c:719-760 | In every run a submission to a connected socket with nothing queued is written at once as far as write() takes it; any other leaves the wire alone |
| `WriteQueue.Socket.constructor` | network/socket/socket_server.c:406-427 | A new socket is the first state of a run |
| `WriteQueue.Socket.WriteRetry` | network/socket/socket_server.c:506-516 | write() is called until it is not interrupted |
| `WriteQueue.Socket.SendHead` | network/socket/socket_server.c:502-532 | One turn of the loop of send_list_tcp |
| `WriteQueue.Socket.SendList` | network/socket/socket_server.c:502-532 | send_list_tcp computes the drained list, the bytes on the wire and the debt |
| `WriteQueue.Socket.SendLow` | network/socket/socket_server.c:636-665 | Steps 2 and 3 of send_buffer |
| `WriteQueue.Socket.SendBuffer` | network/socket/socket_server.c:636-665 | The whole new state and the status of send_buffer |
| `WriteQueue.Socket.RaiseUncomplete` | network/socket/socket_server.c:611-626 | The begun head of the low list becomes the only buffer of the high list, tails exact |
| `WriteQueue.Socket.ForceClose` | network/socket/socket_server.c:363-382 | Both lists are freed; what was sent stays |
| `WriteQueue.Socket.Append` | network/socket/socket_server.c:667-685 | The buffer joins the end of the list and the tail pointer is exact |
| `WriteQueue.Socket.QueueRest` | network/socket/socket_server.c:732-760 | Exactly the bytes not taken by the direct write head the high list |
| `WriteQueue.Socket.Queue` | network/socket/socket_server.c:762-783 | The package joins the list of its priority |
| `WriteQueue.Socket.SendSocket` | network/socket/socket_server.c:719-783 | The whole new state and the status of send_socket |
| `WriteQueue.Socket.CloseSocket` | network/socket/socket_server.c:806-831 | The whole new state and the status of close_socket |
| `WriteQueue.Socket.Perform` | network/socket/socket_server.c:502-831 | One operation of a run |
| `WriteQueue.RunSocket` | network/socket/socket_server.c:502-831 | Any run of the object is the run of the value, operation by operation, so all results on runs hold of it |
| `AllocIds.SequenceIffAlone` | network/socket/socket_server.c:281-284 | In every interleaving of increments and maskings of alloc_id: the identifiers are the allocation numbers modulo 2^31 if and only if no thread increments while another is between its two steps; otherwise one is handed out twice in a row |
| `AllocIds.MaskRepeats` | network/socket/socket_server.c:281-284 | Masking a word that is not negative any more hands out the last identifier again |
| `AllocIds.TwoAtTheEnd` | network/socket/socket_server.c:281-284 | Two threads that meet at the signed end both get identifier 1 |
| `IdRuns.OwnIdentifier` | network/socket/socket_server.c:277-298 | A thread that holds the identifier of its own allocation number takes exactly the step of the slot table |
| `IdRuns.NumberedRun` | network/socket/socket_server.c:281-290 | In every joint run of counter and slot table in which no two threads meet, each identifier is that of its allocation number |
| `IdRuns.AloneIsMachine` | network/socket/socket_server.c:277-1282 | Every such joint run is a run of the slot table, step by step |
| `IdRuns.AloneReached` | network/socket/socket_server.c:277-1282 | It continues the run of the slot table that led to its start, so all results on runs hold of it |
| `IdRuns.TwinClosed` | network/socket/socket_server.c:277-298 | A run from the start in which two threads meet: within two allocations a late close request of the first closes the connected socket of the second |
| `SocketSlots.HashHome` | network/socket/socket_server.c:277-298 | The identifier of an allocation hashes to the slot of that allocation, also after the signed wrap |
| `SocketSlots.LiveIds` | network/socket/socket_server.c:277-298 | Two live slots never carry the same identifier, and an identifier finds its slot |
| `SocketSlots.HitsExact` | network/socket/socket_server.c:806-816 | A request reaches a live slot if and only if that slot carries the same identifier, which means its own socket or one allocated at least 2^31 allocations later |
| `SocketThreads.MarkKeeps` | network/socket/socket_server.c:286-287 | Marking a free slot outside the window keeps the invariant |
| `SocketThreads.StoreKeeps` | network/socket/socket_server.c:288-290 | Storing the identifier of a marked slot keeps the invariant |
| `SocketThreads.PublishKeeps` | network/socket/socket_server.c:1284-1300 | Writing the creating request to the pipe keeps the invariant |
| `SocketThreads.AskKeeps` | network/socket/socket_server.c:1284-1300 | Writing any later request to the pipe keeps the invariant |
| `SocketPoll.Turn` | network/socket/socket_server.c:964-1014 | A creation whose turn comes finds its slot reserved, by itself and by no other; any other request finds its socket created |
| `SocketPoll.CtrlCore` | network/socket/socket_server.c:964-1014 | A command keeps the table and meets the assertions if and only if it does not reach a slot that is being reserved |
| `SocketPoll.CtrlUnclean` | network/socket/socket_server.c:363-373 | A command that does reach one violates an assertion of force_close, or leaves buffers in a reserved slot |
| `SocketPoll.FreeAgainSound` | network/socket/socket_server.c:474-500 | The second free after a failed add is harmless if and only if the slot is still free |
| `SocketPoll.ClearKeeps` | network/socket/socket_server.c:1187-1202 | Clearing after a close leaves no event of the closed socket in the batch |
| `SocketPoll.EventsAlive` | network/socket/socket_server.c:1232-1237 | With the poll thread between two commands every event left belongs to the live occupant of its slot |
| `SocketPoll.ServeKeeps` | network/socket/socket_server.c:1232-1280 | Serving an event keeps the invariant, put back for its write half or not |
| `SocketPoll.StepKeeps` | network/socket/socket_server.c:277-1282 | Every step of every thread outside an open window keeps the invariant |
| `SocketPoll.SoundIffClean` | network/socket/socket_server.c:277-1282 | From every reachable state: the code's assertions hold, the event goes to its own socket and all reservations and events stay intact, if and only if the step falls into no open window |
| `SocketRuns.RunSoundIffClean` | network/socket/socket_server.c:277-1282 | Over every interleaving: all steps are sound if and only if none falls into an open window |
| `SocketRuns.NoEventAfterClose` | network/socket/socket_server.c:1205-1282 | In every interleaving without such a step, an event served belongs to a socket that was closed at no earlier step |
| `SocketRuns.RunGone` | network/socket/socket_server.c:363-382 | A closed socket stays closed |
| `SocketRuns.EventWindow` | network/socket/socket_server.c:1187-1202 | A reservation disturbs a waiting event only between the close of its socket and clear_closed_event |
| `SocketRuns.RequestWindow` | network/socket/socket_server.c:286-290 | A close or send request reaches a reserved slot if and only if it is for the slot's last socket and falls between the compare-and-swap and the storing of the identifier |
| `SocketRuns.FreeWindow` | network/socket/socket_server.c:474-500 | The second free finds the slot taken if and only if the slot was marked since the first |
| `SocketRuns.EventWindowFails` | network/socket/socket_server.c:1187-1202 | A run from the start in which a reservation falls between close and clearing: the event of the closed socket stays, on a slot now reserved by another |
| `SocketRuns.RequestWindowFails` | network/socket/socket_server.c:286-290 | A run from the start in which a second close request meets RESERVE, against the assertion of force_close |
| `SocketRuns.FreeWindowFails` | network/socket/socket_server.c:474-500 | A run from the start in which the second free takes a slot away from a new reservation |
| `SocketRuns.StaleIdReached` | network/socket/socket_server.c:806-816 | A run of 2^31 allocations after which a late close request for a closed socket closes the connected socket of another |
| `SocketLife.LifeStory` | network/socket/socket_server.c:430-876 | In every run the kind of a live socket follows from its story: how it was created, whether it was started, whether its connect has ended, whether it was asked to close |
| `SocketLife.Birth` | network/socket/socket_server.c:406-500 | In every run a creation makes a socket of its reserved slot, except if the open or adding to the poller fails; then the slot is free. An accepted connection makes one of a free slot |
| `SocketLife.EndOfLife` | network/socket/socket_server.c:363-876 | In every run a live socket keeps slot, identifier and number until it dies, exactly when one of the four causes occurs, and its queue grows and shrinks as told |
| `SocketLife.EventTurns` | network/socket/socket_server.c:1250-1280 | In every run an event with both flags is served twice, first for reading and then for writing; every other event once |
| `SocketLife.ThenClears` | network/socket/socket_server.c:964-1014 | In every run a command takes one request; whether a second free, the clearing of events or nothing follows is told by whether its socket is still there |
| `SocketLife.ServeClears` | network/socket/socket_server.c:1232-1280 | In every run the clearing of events follows a served event if and only if it closed a socket that was not connecting |
| `SocketLife.FreedTwice` | network/socket/socket_server.c:474-500 | In every run without an open window the second free changes no slot, and the events are cleared next |
| `SocketLife.MissedNever` | network/socket/socket_server.c:285-296 | In every run a number that found its slot taken is never given to a socket |
| `SocketServers.TriesAll` | network/socket/socket_server.c:277-298 | 65536 consecutive allocations try every slot |
| `SocketServers.SocketServer.constructor` | network/socket/socket_server.c:306-350 | A new server has free slots only and is the first state of a run |
| `SocketServers.SocketServer.NextId` | network/socket/socket_server.c:281-284 | The increment, undisturbed, yields the allocation number modulo 2^31 |
| `SocketServers.SocketServer.CompareAndSwap` | network/socket/socket_server.c:285-296 | The slot is marked if and only if it is free; nothing else changes |
| `SocketServers.SocketServer.StoreId` | network/socket/socket_server.c:288-290 | The identifier is stored in the marked slot |
| `SocketServers.SocketServer.ReserveId` | network/socket/socket_server.c:277-298 | Undisturbed, it claims the first free slot in the order of identifiers and fails if and only if no slot is free |
| `SocketServers.SocketServer.SendCreate` | network/socket/socket_server.c:1284-1330 | The creation is queued and the reservation accounted for |
| `SocketServers.SocketServer.SendRequest` | network/socket/socket_server.c:1338-1395 | The request is queued behind the creation of its socket |
| `SocketServers.SocketServer.NewFd` | network/socket/socket_server.c:406-427 | Requires what the code asserts: a reserved slot with empty lists; frees the slot if adding to the poller fails |
| `SocketServers.SocketServer.ForceClose` | network/socket/socket_server.c:363-382 | Requires what the code asserts: the slot is not reserved; frees lists and slot |
| `SocketServers.SocketServer.OpenSocket` | network/socket/socket_server.c:430-500 | The slot ends connected, connecting or free as the transition table says, and it tells whether a second free follows; no other slot changes |
| `SocketServers.SocketServer.ListenSocket` | network/socket/socket_server.c:785-804 | The slot waits to be started as a listener |
| `SocketServers.SocketServer.BindSocket` | network/socket/socket_server.c:833-848 | The slot is bound or free |
| `SocketServers.SocketServer.StartSocket` | network/socket/socket_server.c:850-876 | An accepted slot becomes connected, a listener listens, a stale identifier changes nothing |
| `SocketServers.SocketServer.SendBuffer` | network/socket/socket_server.c:636-665 | Closes the slot on an error, or once both lists are found empty after a close request; otherwise the kind stays |
| `SocketServers.SocketServer.CloseSocket` | network/socket/socket_server.c:806-831 | Closes the slot the identifier finds, or half-closes it exactly if buffers are left; a stale identifier changes no slot |
| `SocketServers.SocketServer.SendSocket` | network/socket/socket_server.c:719-783 | Requires what the code asserts: no listening socket; a stale identifier changes no slot |
| `SocketServers.SocketServer.CtrlCmd` | network/socket/socket_server.c:964-1014 | Takes the next request and is one step of the machine, up to the clearing of events |
| `SocketServers.SocketServer.OpenFailed` | network/socket/socket_server.c:495-500 | The second free is one step of the machine |
| `SocketServers.SocketServer.ClearClosedEvent` | network/socket/socket_server.c:1187-1202 | Exactly the later events whose slot is free and carries the identifier are cleared |
| `SocketServers.SocketServer.ReportConnect` | network/socket/socket_server.c:1119-1147 | The slot becomes connected, or free after an error |
| `SocketServers.SocketServer.ReportAccept` | network/socket/socket_server.c:1150-1185 | The accepted socket gets the slot and the identifier of its allocation |
| `SocketServers.SocketServer.ForwardMessage` | network/socket/socket_server.c:1017-1060 | Data, nothing, or a closed slot whose events remain to be cleared |
| `SocketServers.SocketServer.ServeOrdinary` | network/socket/socket_server.c:1250-1280 | Read half first: with the write flag event_index goes back and the event stays for its write half |
| `SocketServers.SocketServer.ServeEvent` | network/socket/socket_server.c:1232-1280 | Serving the next event is one step of the machine |
| `SocketServers.DueInTurn` | network/socket/socket_server.c:964-1014 | In every run without an open window each command finds the assertions of its branch satisfied |
| `SocketServers.Perform` | network/socket/socket_server.c:277-1282 | Each step of the object is the step of the machine |
| `SocketServers.RunServer` | network/socket/socket_server.c:277-1282 | Any run without an open window is a run of the object, step by step, so all results on runs hold of it and its assertions hold |
| `PacketCodec.UnpackPack` | network/unpack.h:16-64 | A packed integer reads back as itself if and only if it fits the signed width |
| `PacketCodec.DecodeJoin` | network/context.h:241-303 | Decoding a longer stream: what was found stays, an error stays, otherwise decoding goes on with the rest |
| `PacketCodec.ReceiveIsDecode` | network/context.h:241-303 | Receiving chunk by chunk equals decoding the concatenation: packets, return code and, without error, the rest |
| `PacketCodec.ChunkingIrrelevant` | network/context.h:241-303 | Two ways of cutting the same stream give the same packets, code and rest |
| `PacketCodec.DoomedStays` | network/context.h:260-268 | Once the bytes seen of a size field say that it is below 4, nothing is ever decoded again and no error is reported, whatever follows |
| `PacketCodec.HopefulDecodes` | network/context.h:260-281 | Otherwise some continuation is decoded or reported as an error |
| `PacketCodec.StalledIffDoomed` | network/context.h:260-281 | A connection stalls for good if and only if the bytes left begin with a size field below 4, or with the first byte of a negative one |
| `PacketCodec.RestBound` | network/context.h:260-288 | Unless the stream is stalled, at most 32766 bytes remain, so 69634 of the buffer are free |
| `PacketCodec.DecodeFirst` | network/packet.h:126-137 | An encoded packet in front of a stream is decoded first, its tail at the end of the body |
| `PacketCodec.DecodeEncodeAll` | network/libevent/libevent_ctx.h:90-104 | Any list of packets with bodies up to 10232 bytes and 16-bit protocol numbers survives the wire with nothing left over |
| `PacketCodec.EncodeExact` | network/libevent/libevent_ctx.h:90-104 | One packet survives the wire if and only if its body has at most 10232 bytes and its protocol number fits 16 bits |
| `PacketCodec.CodeIff` | network/context.h:258-288 | The return code says what the bytes left begin with: no whole packet or a size below 4 (0), a packet without body (-2), a body over 10240 bytes (-3) |
| `PacketCodec.OversizedReported` | network/context.h:270-281 | A packet the sender makes with a body of 10233 to 32755 bytes is reported with -3 behind the packets before it, whatever follows, and is never used up |
| `ClientBuffers.ClientContextBuffer.PacketBufferRead` | network/libevent/libevent_ctx.h:71-88 | Appends as much as fits; refuses if and only if the buffer is full |
| `ClientBuffers.ClientContextBuffer.MoveBufferPtr` | network/context.h:69-81 | The remaining bytes move to the front; without any the buffer is empty |
| `ClientBuffers.ClientContextBuffer.ReadHeader` | network/context.h:260-281 | A whole packet, one of the two errors, or not enough bytes |
| `ClientBuffers.ClientContextBuffer.FindPackets` | network/context.h:258-287 | The loop computes the decoding of the buffer: packets, code, and where the rest begins |
| `ClientBuffers.ClientContextBuffer.Unpack` | network/context.h:241-288 | The buffer keeps the undecoded rest, or all its bytes after an error |
| `ClientBuffers.RestJammed` | network/libevent/libevent_handle.cpp:124-126 | After unpacking, the buffer is full only if the stream is stalled |
| `ClientBuffers.HeldStalled` | network/context.h:260-288 | The bytes in the buffer tell whether the connection has stalled |
| `ClientBuffers.TookAll` | network/libevent/libevent_handle.cpp:118-127 | The bytes a read event leaves behind make no difference to packets and return code |
| `ClientBuffers.ClientContextBuffer.OnBufferEventRead` | network/libevent/libevent_handle.cpp:117-127 | The read loop: packets and code are those of decoding all that waits; bytes are left behind only after an error or when the buffer is full of bytes that can never be decoded |
| `ClientBuffers.Serve` | network/libevent/libevent_handle.cpp:98-129 | Over a whole connection, for any arrival pattern: packets and code are those of decoding everything that arrived in one go, the buffer holds the undecoded rest, as much as fits, and nothing can be decoded any more if and only if that rest begins with a size field known to be below 4 |
| `PacketPool.StoredReadsBack` | network/packet_pool.h:46-67 | A stored body reads back unchanged, in the fixed bytes below 256 and in extra space otherwise, exactly so |
| `PacketPool.OwnedMeans` | network/packet_pool.h:101-141 | Each index 0..4095 is in the free queue exactly once or held exactly once, never both |
| `PacketPool.GetKeeps` | network/packet_pool.h:101-122 | The memory handed out is held by nobody; all held memories keep their bytes |
| `PacketPool.PutKeeps` | network/packet_pool.h:55-67 | Storing into a held memory leaves all others alone |
| `PacketPool.ReleaseKeeps` | network/packet_pool.h:124-141 | The released memory becomes free, or leaves the heap, and all others keep their bytes |
| `PacketPool.PacketMemoryPool.constructor` | network/packet_pool.h:84-94 | All 4096 indices are free |
| `PacketPool.PacketMemoryPool.GetFreePacketMemory` | network/packet_pool.h:101-122 | The front of the free queue, or a heap block once it is empty; never a held memory |
| `PacketPool.PacketMemoryPool.Init` | network/packet_pool.h:55-67 | The body reads back from this memory; all others keep their bytes |
| `PacketPool.PacketMemoryPool.ReleasePacketMemory` | network/packet_pool.h:124-141 | The index the memory carries goes to the back of the free queue; all other memories keep their bytes |
| `PacketQueues.JoinedAppends` | network/queue.h:47-60 | With a counter not below the vector length, both branches of CopyFrom append; the counter is exact afterwards |
| `PacketQueues.JoinedLoses` | network/queue.h:47-60 | CopyFrom keeps the old packets if and only if the counter is positive or there are none |
| `PacketQueues.NetPacketQueue.CopyFrom` | network/queue.h:47-60 | Append and drain |
| `PacketQueues.NetPacketQueue.AddPacket` | network/queue.h:62-68 | The queue shows the packet with its bytes at the end; no other packet changes |
| `PacketQueues.NetPacketQueue.ReleaseAllPackets` | network/queue.h:70-78 | Every packet gives its memory back once; the vector is empty, the counter stale |
| `SixQueues.AddKeeps` | network/queue.h:62-68 | Over six queues and one pool: the packet appears at the end of its queue, all other packets and the ownership of memories are kept |
| `SixQueues.CopyKeeps` | network/queue.h:47-60 | The packets of one queue move behind those of another; ownership is kept |
| `SixQueues.ReleaseOneKeeps` | network/queue.h:70-78 | The first packet of a queue disappears and its memory is free; all other packets are kept |
| `SixQueues.ClearKeeps` | network/queue.h:70-78 | Clearing a released queue keeps all packets although the counter stays as it was |
| `SixQueues.NoSharing` | network/packet_pool.h:101-141 | Two packets in the queues never share a memory |
| `Pipeline.HandlerInBounds` | service/gamesvr/gamelogic.cpp:91-108 | The handler indexes inside the vector |
| `Pipeline.StepMove` | network/context.h:195-201 | The hand-over to the receive queue keeps the invariant |
| `Pipeline.StepCopy` | network/context.h:203-210 | The hand-over to the logic queue loses no packet although that queue is initialised first |
| `Pipeline.StepRelease` | network/queue.h:70-78 | Releasing handled packets keeps the invariant |
| `Pipeline.StepFlush` | network/context.h:224-230 | The hand-over of produced packets keeps the invariant |
| `Pipeline.StepCache` | network/context.h:232-239 | The hand-over to the sender keeps the invariant despite its stale counter |
| `Pipeline.StepKeeps` | network/context.h:195-346 | Every step of the network thread and of the logic thread keeps the invariant |
| `PipelineRuns.PacketsSafe` | service/gamesvr/gamelogic.cpp:91-128 | In every interleaving: packets are handled in the order decoded, once each, with their bytes unchanged, and released once after that; produced packets reach the sender likewise |
| `PipelineRuns.PoolSafe` | network/packet_pool.h:101-141 | In every interleaving each pool index is in the free queue once or held by exactly one packet of the six queues |
| `PipelineRuns.NothingLeaks` | network/packet_pool.h:124-141 | With all queues empty the whole pool is free and no heap block is left |
| `PipelineRuns.NoLostWakeup` | network/context.h:288-302 | In every interleaving in which no error return left packets behind: packets in the receive queue have the signal set, an emit pending or a copy pending |
| `PipelineRuns.LeftIff` | network/context.h:270-288 | Packets were left behind if and only if some call of the run returned an error with packets in the prepare queue |
| `PipelineRuns.MoveNoticed` | network/context.h:288-302 | The hand-over stays unnoticed if and only if the call decoded nothing, the queues hold something, the signal is off and no copy is pending |
| `PipelineRuns.OthersNotice` | network/context.h:195-346 | No other step of either thread makes packets in the receive queue go unnoticed |
| `PipelineRuns.NoticedIffHeard` | network/context.h:288-302 | Over every interleaving: packets in the receive queue are noticed at all times if and only if every hand-over meets that condition |
| `Pipeline.DecodedSmall` | network/context.h:265-281 | Every packet a call decodes fits the packet memory |
| `PipelineRuns.WakeupLost` | network/context.h:270-302 | Packets left by an error return are handed over without an emit by the next call that decodes none |
| `PipelineRuns.BadEnd` | network/context.h:265-274 | The bytes of a good packet followed by a header with size 4 decode to that packet and return code -2 |
| `PipelineRuns.LeftBehind` | network/context.h:270-302 | A run on exactly those bytes, then a call that decodes nothing: the good packet is in the receive queue, the signal is off and nothing is pending |
| `PipelineProgress.ReceiveRound` | network/context.h:241-302 | Unpacking a buffer, from every reachable state: its packets arrive in order; without an error they are handed over behind all before them and the signal is set if there are any, otherwise they stay in the prepare queue |
| `PipelineProgress.LogicRound` | service/gamesvr/gamelogic.cpp:91-128 | With the signal set, one round of the logic thread handles everything in the receive queue in order, hands on what was produced, and gives all memories back |
| `PipelineProgress.SendRound` | network/context.h:319-346 | One command to send serves everything in the send queue in order and gives all memories back |
| `PipelineProgress.AllDelivered` | network/context.h:241-346 | From every reachable state with both threads idle: a buffer of good packets, one round of logic and one of sending leave nothing unhandled, unsent or unreleased |
| `PipelineProgress.FlushServes` | service/gamesvr/gamelogic.cpp:99-104 | A handler that flushes has all its packets sent by the next command to send, before it returns |
| `Snowflake.MaskIsMod` | common/utils/uuid.h:46-50 | Masking the lowest k bits is the remainder modulo 2^k |
| `Snowflake.OrIsSum` | common/utils/uuid.h:46-50 | Or-ing below the shifted bits adds |
| `Snowflake.IdentifierIsPack` | common/utils/uuid.h:46-50 | The masks, shifts and ors of the returned expression make the number with the four masked fields as digits |
| `Snowflake.FieldsOf` | common/utils/uuid.h:46-50 | Time, host, server and sequence are read back from bits 22 on, 17 to 21, 12 to 16 and 0 to 11 of the identifier |
| `Snowflake.PackEqual` | common/utils/uuid.h:46-50 | Two identifiers are equal if and only if all four masked fields are |
| `Snowflake.NextStampGrows` | common/utils/uuid.h:32-45 | (timestamp, sequence) grows if and only if the clock did not go back |
| `Snowflake.IncreasingIffForward` | common/utils/uuid.h:32-45 | Over all calls a clock allows, the pairs strictly increase if and only if no call begins with a reading before the last pair |
| `Snowflake.NonDecreasingForward` | common/utils/uuid.h:32-45 | A clock that never goes back is such a clock |
| `Snowflake.Burst` | common/utils/uuid.h:35-41 | A clock that stands still yields one pair per reading until the 4096 numbers are used up, and then none |
| `Snowflake.StampsChain` | common/utils/uuid.h:32-45 | For any clock each pair is a reading with sequence 0 for a new time and the next number for the same one; readings are skipped only when the 4096 numbers are used up, to the first later one |
| `Snowflake.BackwardRepeats` | common/utils/uuid.h:32-45 | A clock that goes back and returns repeats a pair |
| `Snowflake.SnowFlakeUUID.WaitNextTimestamp` | common/utils/uuid.h:23-30 | The first reading after the last timestamp |
| `Snowflake.SnowFlakeUUID.GenerateSeqID` | common/utils/uuid.h:32-51 | For any clock: the next pair and how many readings it takes, the identifier packs it, and the pair grows if and only if the clock did not go back |
| `Snowflake.GenerateAll` | common/utils/uuid.h:32-51 | Any number of calls: the pairs are those of the clock, to its end, each following the one before it; they increase if and only if no call begins with an earlier reading, and then identifiers less than 2^25 microseconds apart differ |
| `Snowflake.DistinctInTime` | common/utils/uuid.h:46-50 | Increasing pairs less than 2^25 microseconds apart give different identifiers |
| `Snowflake.ReturnsAfterWindow` | common/utils/uuid.h:46-50 | The bound is sharp |
| `Snowflake.DistinctGenerators` | common/utils/uuid.h:46-50 | Generators that differ in the low five bits of host or server number never collide |

## Left out

- Linked lists are sequences: `next` pointers, allocation and freeing of list nodes are not modelled. The tail pointers of the write lists are, by buffer number.
- A timer node carries its handle only; the copy of the context inside the node is not modelled beyond the handle.
- TimerRegistry.TimerFate: handles are not issued twice within a run, so a run issues fewer than 2^32-2 of them.
- GameTimers.RunTimer: keys without a NUL character, delays from 1 to 2^31-1, and fewer than 2^32-2 calls; the other inputs are in `TimerRegistry.AddInverse`, `GameTimers.GameTimer.AddTimer` and `GameTimers.GameTimer.GenerateHandleID`.
- KFifos.KFifo.In: weak memory and the barriers in the code; `Spsc` assumes sequential consistency.
- Spsc.StepKeeps: an element is copied in one step; the bytes of one element are not interleaved with the other side, which never touches that place meanwhile.
- LogProgress.AcceptIff: before the main thread is bound, messages are logged directly and not queued; that is not modelled.
- LogProgress.PeekVerdict: after damage the model stops where the code empties the fifo (`KFifos.KFifo.ResetOut`); no run gets there.
- LogProgress.ReadIff: the 32-bit wrap of header plus length, which only a negative length could cause; no run has one.
- WriteQueue.Socket.SendSocket: UDP packages, user objects (negative sizes) and sockets of type BIND, which queue without enabling write events.
- SocketRuns.RunSoundIffClean: requests older than 2^31 allocations are not carried out; `SocketRuns.StaleIdReached` shows what such a request does.
- SocketServers.RunServer: the object is run up to the first step that falls into an open window, where an assertion of the code may fail.
- SocketServers.SocketServer.SendBuffer: the lists of a slot are only counted here; their contents are in `WriteLists`.
- SocketServers.SocketServer.CloseSocket: whether the lists drain is decided by the environment here; when they do is in `WriteLists.CloseKeeps`.
- SocketServers.SocketServer.NextId: increment and masking are one step here; their interleavings are in `AllocIds` and, with the slot table, in `IdRuns`.
- SocketServers.SocketServer.ReserveId: the loop without other threads in between; with them it is the steps Draw, Miss, Mark and Store.
- SocketServers.SocketServer.ReportAccept: the reservation of the accepted socket is one step of the poll thread.
- AllocIds.SequenceIffAlone: fewer than 2^31 threads wait at the same time.
- ClientBuffers.ClientContextBuffer.Unpack: returns the packets instead of calling `AddPacket` on each; `Pipeline` adds them one by one.
- Pipeline.StepKeeps: what a handler does with a packet, beyond producing packets of at most 10240 bytes at any point of its work.
- Snowflake.SnowFlakeUUID.GenerateSeqID: numbers do not wrap at 64 bits, and a clock that stops for good is reported instead of waited for.
- `network/connector.cpp` and the connector context, the socket read loop of `network/socket/server_logic.cpp`, the client pools, and the second timer queue swap: glue without harder properties.
- Configuration, formatting of log lines, protocol buffers, the Python binding, the example client, address lookup and socket options.
