# luv: codec, scheduler and streams

A Dafny model of three parts of luv, the libuv binding for Lua, with proofs of what they do on every
input and in every run:

- **The codec** (`src/luv_codec.c`): a tuple of Lua values, with cycles, sharing and closures, is
  written to bytes and read back. A Lua heap is a map from object numbers to tables (pairs in the order of
  `lua_next`), functions (bytecode and upvalues) and userdata.
- **The fiber scheduler** of one thread (`src/luv_thread.c`, `src/luv_fiber.c`, `src/luv_cond.c`,
  `src/luv_state.c`, `src/luv_timer.c`) as a system of steps, and below it the intrusive linked lists of
  `src/ngx-queue.h` on the heap.
- **Reading and accepting** on a stream (`src/luv_stream.c`) as two state machines.

Each part has a specification (functions on values) with the theorems, and classes or methods in the form
of the C code that are proved to compute it.

| files | content |
|---|---|
| `Options`, `Uleb128`, `Buffer` | variable-length integers, the growable buffer, the loops that write and read numbers |
| `LuaHeap`, `Wire`, `Grammar` | heaps and reachability; the byte format as trees of codes, and as a grammar |
| `Encoder`, `EncoderReach`, `EncoderRefs`, `EncoderOnce`, `Live` | the encoder's walk: what it reaches, what it writes once, which references it writes too early, and that nothing else in the heap matters |
| `Numbering`, `Decoder`, `DecoderFacts`, `DecoderRefs` | who gets which number; what the decoder builds, whatever hooks do |
| `RoundTrip`, `Codec`, `CodecLimits`, `CodecTheorem` | decoding after encoding |
| `EncoderRun`, `DecoderRun` | both directions as code that works on a buffer in place |
| `Scheduler`, `SchedulerInv`, `SchedulerSteps`, `SchedulerRuns` | the step system, its invariant, and safety over allowed runs |
| `SchedulerEffects` | what every step does to readiness, lists, stacks, the queue, the async handle and control |
| `SchedulerQueue`, `SchedulerResults`, `SchedulerLate` | queue, fairness and event loop over every run; what woken states find; two runs that callers must avoid |
| `Programs`, `ProgramRuns`, `ProgramResults`, `Thread` | the loops of the scheduler: why they end, that fibers keep to their programs and polls to their callbacks, and what a finished program leaves |
| `Queue`, `Links` | linked lists refine sequences; the link cells along whole runs |
| `Stream`, `Accept`, `StreamThread`, `StreamObject` | the two stream machines, their coupling to the scheduler, and the object they live in, on link cells |

`dafny verify dfyconfig.toml` checks everything.

Where a promise does not hold of the code, the model follows the code, and a lemma gives the exact
condition: table hooks (`DecoderFacts.NumbersAgreeExactly`, `EncoderOnce.WrittenOnce`, with the failing inputs
`CodecLimits.HookedPayloadIsLost` and `EncoderOnce.SelfAnswerIsLate`), what may be readied, joined, parked or
called back (`SchedulerRuns.StepKeepsExactly`, with `SchedulerLate.LateTimer`), what writes over the values of a
fiber that has ended (`SchedulerResults.DeadKeepsExactly`, with `SchedulerLate.LostValues`), a direct `start` on a stream
(`Stream.ConservedExactly`, `Stream.DirectStartLoses`), readers left behind (`Stream.AttendedExactly`,
`Stream.ErrorServesTwo`), several acceptors (`Accept.StrandedExactly`, `Accept.TwoAcceptors`).

## Model

| member | source | states |
|---|---|---|
| `Uleb128.RoundTrip` | src/luv_codec.c:68-106 | reading the written form of a number, whatever bytes follow, gives it back and stops right after it, if and only if it is below 2^32 |
| `Uleb128.LengthBound` | src/luv_codec.c:68-77 | a number takes at most n bytes if and only if it is below 128^n |
| `Uleb128.FiveBytes` | src/luv_codec.c:68-77 | a 32-bit number takes no more than the five bytes the writer reserves |
| `Uleb128.Shortest` | src/luv_codec.c:68-106 | no bytes that the 32-bit reader takes for the number, even with bits shifted out, are fewer than those written (section 7.6 of DWARF version 4) |
| `Uleb128.RawEncode` | src/luv_codec.c:68-106 | without the 32-bit limit, reading undoes writing for every number |
| `ByteBuffer.Buffer.Need` | src/luv_codec.c:36-52 | contents stay, room is there, the capacity is 128 doubled some number of times and below twice the largest demand, and all reallocations together moved fewer bytes than the capacity |
| `ByteBuffer.Buffer.Put` | src/luv_codec.c:59-62 | appends exactly the byte |
| `ByteBuffer.Buffer.Write` | src/luv_codec.c:63-67 | appends exactly the bytes |
| `ByteBuffer.Buffer.WriteUleb128` | src/luv_codec.c:68-77 | appends exactly the shortest form, written past the head into the reserved bytes |
| `ByteBuffer.WriteDigits` | src/luv_codec.c:70-75 | the loop fills the five reserved bytes with the shortest form and touches nothing before them |
| `ByteBuffer.WriteAll` | src/luv_codec.c:36-77 | any sequence of appends to an empty buffer leaves the concatenation; the capacity is 128 or below twice the peak demand; bytes moved stay below the capacity |
| `ByteBuffer.ReadUleb128` | src/luv_codec.c:94-106 | the loop over shifted 32-bit digits yields the decoded number and the position after it |
| `ByteBuffer.RemainingIsRaw` | src/luv_codec.c:94-106 | accumulating in 32 bits ends in the low 32 bits of the number |
| `Wire.ParseWritten` | src/luv_codec.c:302-412 | parsing the bytes of any value that fits, followed by anything, gives the value and exactly what follows |
| `Wire.SelfDelimiting` | src/luv_codec.c:255-271 | the format is self-delimiting if and only if lengths and references are below 2^32 and no table has a nil key, so the nil sentinel is never confused with a key |
| `Wire.PrefixFree` | src/luv_codec.c:255-271 | two values whose bytes agree up to what follows are the same |
| `Grammar.ParsesExactly` | src/luv_codec.c:302-412 | on every input: the reader accepts exactly the spellings of a grammar over the type and tag bytes and reads each as what it spells; all else is malformed |
| `Grammar.WrittenIsSpelled` | src/luv_codec.c:133-253 | what the writer writes is a spelling, with the tags of the format |
| `LuaHeap.IndexNumberValue` | src/luv_codec.c:220-226 | the keys under which upvalues are written are the doubles 1, 2 and so on |
| `Encoder.WalkValue` | src/luv_codec.c:133-253 | the walk ends on every finite graph, cyclic or not, keeps the numbers given before, and gives as many new ones as it writes objects in full |
| `EncoderReach.EncodesExactlyAccepted` | src/luv_codec.c:133-253 | encoding succeeds if and only if no coroutine, C function, function with a nil upvalue, userdata without a hook, or object whose hook answers neither function nor string can be reached; otherwise it stops at such a value |
| `EncoderReach.NumbersExactlyReachable` | src/luv_codec.c:111-118 | the numbered objects are exactly the tables and functions reachable from the tuple |
| `EncoderOnce.WrittenOnce` | src/luv_codec.c:158-231 | each reachable table and function is written in full exactly once and no other is; every reference names a number the decoder has registered by then if and only if none is late in the encoder's own count, and, when no table hook answers with an object of its own, if and only if none answers with its own table |
| `EncoderOnce.TupleRefs` | src/luv_codec.c:414-428 | the same condition on references, from any point of an encoding on |
| `EncoderOnce.PlainRefsKnown` | src/luv_codec.c:162-169 | if the table hooks that can be reached answer a name and a plain value, every reference names a registered object |
| `EncoderOnce.SelfAnswerIsLate` | src/luv_codec.c:172-174 | a table whose hook answers with the table itself is referred to before anything is registered |
| `EncoderRefs.ValueRefs` | src/luv_codec.c:158-183 | the condition for one value: its references are known in time if and only if no table met on the way answers with itself, be it through the hooks of userdata |
| `Live.OnlyLiveMatters` | src/luv_codec.c:414-428 | encoding over a heap is encoding over the part that can be reached from the tuple |
| `Numbering.KnownExactly` | src/luv_codec.c:330-338 | for any value and any hooks, a reference is known in time if and only if, by the encoder's count, it is not among as many last numbers as there are table hooks being answered |
| `Numbering.LockstepExactly` | src/luv_codec.c:172-174 | the decoder's order of numbers is the encoder's if and only if no table hook's answer holds a table or function of its own |
| `Numbering.SameNumbers` | src/luv_codec.c:330-338 | whatever hooks answer, both orders are permutations of the same numbers |
| `DecoderFacts.BuildGrows` | src/luv_codec.c:302-398 | decoding only adds to the heap and to what is registered |
| `DecoderFacts.BuildMarks` | src/luv_codec.c:296-345 | the decoder registers objects in the order derived from the code alone, unless a hook answers nil |
| `DecoderFacts.NumbersAgreeExactly` | src/luv_codec.c:296-338 | counters and numbers agree after any value if and only if no table hook answered with objects of its own and none was decoded to nil |
| `DecoderFacts.HookedTableSlot` | src/luv_codec.c:330-338 | a hooked table the encoder numbers k, with m objects in its answer, is registered as k + m; one decoded to nil is not registered |
| `DecoderFacts.HookCalls` | src/luv_codec.c:273-289 | a hook's callback stands for itself if it is a function, else for the function of that name in the registry or, where that has none, in the globals; that function is called on the payload over the heap as it is, what it makes gets the next free numbers, and the call fails if and only if there is no such function or it raises |
| `DecoderFacts.UserCalls` | src/luv_codec.c:373-384 | userdata is decoded by one such call on what its callback and payload were decoded to |
| `DecoderFacts.HookedCalls` | src/luv_codec.c:330-338 | so is a hooked table, and the answer is registered unless it is nil |
| `DecoderFacts.StoreUpdates` | src/luv_codec.c:400-405 | storing a pair, also one whose key is there already, updates the table: the key has the new value or none, and all others keep theirs |
| `DecoderRefs.BuildRefs` | src/luv_codec.c:325-328 | as long as no hook answers nil, the decoder looks up no number that is not registered if and only if the references of the code are known in time |
| `RoundTrip.ValueCopied` | src/luv_codec.c:302-398 | the main induction: with both sides in step and whatever decoders answer, decoding a value's code copies what is new and yields the image of the value |
| `RoundTrip.LibraryHook` | src/luv.c:39-54 | the hook of the library's own modules restores the module registered under the name |
| `RoundTrip.MakingHook` | src/luv_zmq.c:464-486 | a hook that names a decoder in the registry or the globals which makes what it answers with, as that of contexts does, is one that the round trip covers |
| `RoundTrip.SentHook` | src/luv_codec.c:330-336 | so is a hook that sends a Lua function along as its decoder |
| `RoundTrip.HookFreeSetting` | src/luv_codec.c:158-183 | a heap without hooks asks nothing of the decoding side |
| `Codec.DecodeWritten` | src/luv_codec.c:439-464 | the decoder reads back exactly the codes the encoder wrote and ignores what follows |
| `Codec.CountFirst` | src/luv_codec.c:423-427 | the string starts with the number of values, and their codes follow in order |
| `Codec.DecodesExactly` | src/luv_codec.c:439-464 | on every input: what is a count and spellings of that many values, with anything behind, is decoded by building what it spells, and all else fails |
| `CodecLimits.TupleFits` | src/luv_codec.c:149-217 | strings and bytecode below 2^32 bytes and fewer than 2^32 objects are enough for the format |
| `CodecLimits.HookedPayloadIsLost` | src/luv_codec.c:330-338 | a concrete hooked table with a table as its payload does not come back |
| `CodecLimits.SelfAnswerGetsNil` | src/luv_codec.c:325-337 | the decoder of a hook that answered with its own table is called with nil |
| `CodecTheorem.EncodedExactly` | src/luv_codec.c:414-437 | a string is made if and only if nothing that can be reached is refused |
| `CodecTheorem.RoundTripIsomorphic` | src/luv_codec.c:133-464 | decode after encode yields the tuple over a heap isomorphic to exactly the part reachable from it, whatever else the heap holds and whatever bytes follow; each hooked table is one answer of its decoder to what came back for the payload, and so is each occurrence of userdata; decoders may be named or sent along, may make objects and may answer differently each time; it holds when numbers and references agree on both sides |
| `CodecTheorem.RestoredRoundTrip` | src/luv_codec.c:133-464 | with hooks such as the library's, that agreement comes for free and hooked tables come back as the objects registered |
| `CodecTheorem.HookFreeRoundTrip` | src/luv_codec.c:133-464 | every tuple that reaches no hook and nothing that is refused, over any finite heap, comes back as an isomorphic graph, as long as what it reaches has the sizes the format has room for |
| `CodecTheorem.Transfer` | src/luv_codec.c:414-464 | for such tuples, hooked or not, the two programs one after the other yield an isomorphic graph |
| `EncoderRun.Run.EncodeValue` | src/luv_codec.c:133-253 | working on the buffer and the table of numbers in place, appends the bytes of the walk's code and gives its numbers, or stops at its error |
| `EncoderRun.Run.EncodeFunction` | src/luv_codec.c:184-231 | the same for a function met for the first time |
| `EncoderRun.Run.EncodeTableObject` | src/luv_codec.c:170-182 | the same for a table met for the first time, hooked or not |
| `EncoderRun.Run.EncodeUser` | src/luv_codec.c:232-239 | the same for userdata, which gets no number |
| `EncoderRun.Run.EncodeTable` | src/luv_codec.c:255-271 | the loop over the pairs and the sentinel append the bytes of all pairs |
| `EncoderRun.Encode` | src/luv_codec.c:414-437 | the bytes in the buffer are those of the specification, and it fails where that does |
| `DecoderRun.Run.DecodeValue` | src/luv_codec.c:302-398 | reading and building in one pass gives what parsing first and building then gives |
| `DecoderRun.Run.DecodeTable` | src/luv_codec.c:400-412 | the same for the loop over pairs up to the sentinel |
| `DecoderRun.Run.DecodeCode` | src/luv_codec.c:354-371 | the same for a function: registered before its upvalues, which pass through a table |
| `DecoderRun.Run.DecodeHooked` | src/luv_codec.c:330-338 | the same for a hooked table: registered after its payload, and not at all when it is nil |
| `DecoderRun.DecodeAll` | src/luv_codec.c:439-464 | values and heap are those of the specification, on every input |
| `SchedulerInv.InitInv` | src/luv_thread.c:172-190 | the invariant holds at the start |
| `SchedulerRuns.StepKeeps` | src/luv_thread.c:87-164 | every step keeps the invariant of flags, queue, lists, due callbacks, async handle and acyclic joins, if no state on a list is readied, joined, parked again or called back; sleeping states may be readied and joined |
| `SchedulerRuns.StepKeepsExactly` | src/luv_fiber.c:100-126 | that condition is exact, in every state with the invariant and for every step |
| `SchedulerRuns.CallParkedBreaks` | src/luv.c:91-94 | a callback that a state registered earlier and that comes while the state is on a list makes it ready and leaves it on the list |
| `SchedulerLate.LateTimer` | src/luv.c:91-103 | a run from the start that gets there: a sleeper readied early waits for a condition when its timer fires |
| `SchedulerRuns.Reachable` | src/luv_thread.c:87-164 | the invariant holds in every state of every allowed run |
| `SchedulerRuns.JoinSafety` | src/luv_fiber.c:100-120 | from every parked joiner a finite chain of joins leads to a live fiber that is queued, running, on the list of a condition, or due a callback of its own |
| `SchedulerRuns.JoinerOnOneList` | src/luv_fiber.c:110-113 | a parked state is on one list, once, and a joined fiber is alive |
| `SchedulerRuns.ChainEnds` | src/luv_thread.c:124-148 | any chain of joins can be followed to a state that joins no fiber |
| `SchedulerQueue.StepFlows` | src/luv_thread.c:65-123 | every step, allowed or not, keeps the flags, the ready queue, the async handle and the phases of the loop in order |
| `SchedulerQueue.EveryRun` | src/luv_thread.c:65-123 | so they are in order in every state of every run |
| `SchedulerQueue.NothingElseInTheWay` | src/luv_thread.c:87-164 | in no state of any run does anything but phase, control and existence stand in the way of a call, a turn or a due callback; and a run that has not ended in an error can go on |
| `SchedulerQueue.ReadyQueue` | src/luv_thread.c:87-123 | the queue then holds, each once, exactly the fibers ready, alive and not running; a running fiber's suspend really yields; no dead fiber is ever resumed |
| `SchedulerQueue.QueueStep` | src/luv_thread.c:65-75 | no step reorders the queue: it grows at the end, and a turn takes off its head; a run ends only by an error in a fiber or by a fiber that joins itself |
| `SchedulerQueue.BoundedWaiting` | src/luv_thread.c:87-123 | in every run, the fiber at position i is resumed by turn i + 1, whatever the others do |
| `SchedulerQueue.RoundRobin` | src/luv_thread.c:116-123 | n fibers that only yield rotate the queue by n |
| `SchedulerQueue.PollEntry` | src/luv_thread.c:25-28 | `uv_run_once` starts with an empty ready queue, and with an async pending if the thread is ready |
| `SchedulerQueue.PollReturns` | src/luv_thread.c:65-75 | in every run, a fiber queued by a callback leaves an async pending and the handle active, so the poll comes back to the scheduler |
| `SchedulerQueue.SuspendReturns` | src/luv_thread.c:21-41 | in every run, once a fiber was ever made ready, the thread's suspend ends only because the thread was readied; in an allowed run it is then on no list |
| `SchedulerQueue.InactiveMeansIdle` | src/luv_thread.c:35-38 | when it ends for lack of active handles, no fiber is queued or ready |
| `SchedulerQueue.RefStays` | src/luv_thread.c:65-75 | the async handle, once referenced, stays referenced over every run |
| `SchedulerEffects.StepReadies` | src/luv_fiber.c:13-35 | after any step of any run exactly those are ready who were or are roused by it (by name, join, signal, broadcast, timer, the end of a joined fiber, their own callback), but for the running state if it waits, sleeps or joins a live fiber |
| `SchedulerEffects.StepLists` | src/luv_cond.c:7-38 | which list a step lengthens, shortens or empties, whatever loop does it; all others stay |
| `SchedulerEffects.StepStacks` | src/luv_fiber.c:88-120 | what is on every stack after a step: only joins, exits, timers and the thread's going on change any |
| `SchedulerEffects.StepQueue` | src/luv_thread.c:65-123 | what a step appends to the ready queue, in which order; a turn takes off the head |
| `SchedulerEffects.StepAsync` | src/luv_thread.c:65-75 | an async is sent and the handle referenced if and only if a fiber made ready finds the queue empty; one is sent, too, when the thread is made ready |
| `SchedulerEffects.StepControl` | src/luv_thread.c:21-164 | who has control, and what the thread does, after any step of any run |
| `SchedulerEffects.StepRest` | src/luv_fiber.c:3-86 | when fibers are born, start and die, which callbacks are due, and whose values the thread will copy |
| `SchedulerResults.BroadcastRousesAll` | src/luv_cond.c:25-38 | a broadcast empties the list and queues each waiting fiber once, in the order of waiting |
| `SchedulerResults.BroadcastIsSignals` | src/luv_cond.c:12-38 | a broadcast equals as many signals as there are waiters |
| `SchedulerResults.ExitDelivers` | src/luv_thread.c:124-148 | a returning fiber's whole tuple is appended to every fiber that joined it and to no other; it keeps the tuple, and its list is empty |
| `SchedulerResults.DeadForever` | src/luv_fiber.c:3-11 | no allowed run changes a fiber that has ended |
| `SchedulerResults.DeadKeepsExactly` | src/luv_timer.c:3-14 | in any run a dead fiber stays dead, and a step keeps its values if and only if it is not a timer whose list the fiber is still on, nor the exit of a fiber it is still listed as joining |
| `SchedulerLate.LostValues` | src/luv_timer.c:7-12 | a run from the start in which a timer writes over the values of a fiber that has ended, and a later join copies the timer's status |
| `SchedulerResults.LateJoin` | src/luv_fiber.c:105-109 | after any run without such a step, and so after any allowed run, every later join copies exactly the tuple the fiber returned |
| `SchedulerResults.ThreadJoin` | src/luv_fiber.c:116-119 | after any such run, a thread that joined the fiber finds exactly that tuple appended when it goes on |
| `SchedulerResults.ThreadJoinWaits` | src/luv_fiber.c:116-119 | in allowed runs it goes on only after the fiber has ended |
| `SchedulerResults.TimerDelivers` | src/luv_timer.c:3-14 | every waiter of a timer is made ready in order with just the status on its stack |
| `Programs.RestIsLess` | src/luv_thread.c:87-164 | each step of a fiber's program, creation of fibers included, leaves less work in all |
| `Programs.FiberControl` | src/luv_fiber.c:13-35 | after a step of a running fiber it still runs, or control is back with the loop, or an error ends the run |
| `Thread.Thread.CondSignal` | src/luv_cond.c:12-24 | effect of the specification, and whether a state was roused |
| `Thread.Thread.CondBroadcast` | src/luv_cond.c:25-38 | the loop has the effect of the specification and counts the waiters there were |
| `Thread.Thread.TimerCallback` | src/luv_timer.c:3-14 | the loop over the waiters and the broadcast have the effect of the specification |
| `Thread.Thread.XCopy` | src/luv_fiber.c:88-98 | the loop appends all values in order |
| `Thread.Thread.FiberJoin` | src/luv_fiber.c:100-120 | effect of the specification in all three cases |
| `Thread.Thread.FiberExit` | src/luv_thread.c:124-148 | the loop over the joiners has the effect of the specification |
| `Thread.Thread.ThreadOnce` | src/luv_thread.c:87-160 | what it does is a run of the step system in which every fiber takes exactly the steps its program asks for, in order, up to what is left of it, and fibers created have their programs from their creators; an error comes only from a fiber that cannot do what comes next; it leaves less work if a fiber was queued; its result says whether one is queued now |
| `Thread.Thread.ThreadLoop` | src/luv_thread.c:161-164 | with finite programs it ends, with an empty queue or in an error, by such a run |
| `ProgramResults.FinishedHolds` | src/luv_thread.c:124-148 | in allowed runs of that kind, a fiber that has finished its program is dead and holds exactly the values the program returns |
| `Thread.Thread.RunOnce` | src/luv_thread.c:28-29 | the contract of `uv_run_once`: the async is consumed, exactly those callbacks of the poll that can be made when their turn comes are made, in order, and a handle is active if the poll says so or the async is referenced |
| `Thread.Thread.OneRound` | src/luv_thread.c:25-38 | one turn of the suspend loop: fibers run by their programs until none is queued, then the callbacks of the poll are made, then the thread goes on or not as the handles say |
| `Thread.Thread.ThreadSuspend` | src/luv_thread.c:21-41 | the whole loop is such rounds, one for each poll in order, until the thread goes on or a fiber fails |
| `Queue.Node.constructor` | src/ngx-queue.h:19-21 | an empty list |
| `Queue.Empty` | src/ngx-queue.h:24-25 | true if and only if the sequence is empty |
| `Queue.Head` | src/ngx-queue.h:45-46 | the first cell, or the head itself |
| `Queue.Foreach` | src/ngx-queue.h:102-105 | visits exactly the cells of the sequence, in order, and ends |
| `Queue.InsertHead` | src/ngx-queue.h:28-32 | prepends to one sequence; all other lists stay lists of the same cells |
| `Queue.InsertTail` | src/ngx-queue.h:38-42 | appends to one sequence; all other lists stay |
| `Queue.Remove` | src/ngx-queue.h:75-77 | deletes the cell at its position and leaves it free; all other lists stay |
| `Queue.Cut` | src/ngx-queue.h:82-88 | splits one list into two at the cell |
| `Queue.Split` | src/ngx-queue.h:82-88 | the same among other lists, which stay |
| `Queue.Add` | src/ngx-queue.h:91-95 | concatenates two sequences, also when the second is empty; the second head is free; all other lists stay |
| `Links.Links.Insert` | src/luv.h:122-133 | linking a state's cell into a list appends the state to that list only |
| `Links.Links.Take` | src/ngx-queue.h:98-99 | unlinking the head yields the state the cell lies in, and shortens that list only |
| `Links.Links.Ready` | src/luv_thread.c:65-67 | the cells show the lists of the specification after a ready |
| `Links.Links.Rouse` | src/luv_cond.c:15-21 | and after a signal's work on its list and the ready queue |
| `Links.Links.Broadcast` | src/luv_cond.c:25-38 | the loop, with its test on the cells, shows the lists after a broadcast |
| `Links.Links.WakeJoiners` | src/luv_thread.c:131-145 | the loop over the cells of the joiners shows the lists after an exit |
| `Links.Links.Timer` | src/luv_timer.c:7-13 | the walk meets the waiters in order; then as for a broadcast |
| `Links.Links.Join` | src/luv_fiber.c:110-113 | and after a join: the joiner's cell on the fiber's list, the fiber's cell on the ready queue |
| `Links.Links.Turn` | src/luv_thread.c:88-93 | and after the scheduler has taken the next fiber |
| `Links.Links.Create` | src/luv_fiber.c:73-75 | four new cells, an empty list of joiners, all other lists as they were |
| `Links.Links.Follow` | src/luv_thread.c:87-164 | for every allowed step of the scheduler, the cells show the lists before and after |
| `Links.Simulate` | src/luv.h:122-133 | along every allowed run the cells form exactly the ready queue, the join lists and the condition lists, and no two lists share a cell |
| `Links.UnparkedIsLoose` | src/luv.h:122-133 | a state that is not parked has its join and condition cells on no list |
| `Stream.ConservedExactly` | src/luv_stream.c:16-76 | over any run, bytes received equal bytes delivered in order followed by the pending buffer, if and only if no callback replaced a pending buffer |
| `Stream.ByteConservation` | src/luv_stream.c:206-233 | that never happens while only `read` starts the stream; and a pending buffer means that reading is stopped and nobody waits |
| `Stream.DirectStartLoses` | src/luv_stream.c:184-194 | a run, possible with the block sizes the allocation callback hands out, in which a direct `start` loses a byte |
| `Stream.ReadersAccounted` | src/luv_stream.c:206-233 | every call of `read` is answered once or still waits; while the stream is open, in the order of the calls |
| `Stream.AttendedExactly` | src/luv_stream.c:206-233 | a reader is left waiting while libuv does not read exactly by a direct `stop`, an empty read or last end of file that serves one of several, a `read` whose start is refused, or a `read` that makes no start because the flag is still set |
| `Stream.RefusedForGood` | src/luv_stream.c:228-230 | after a refused start, no later `read` or `start` gets reading going |
| `Stream.ErrorServesTwo` | src/luv_stream.c:59-66 | after a read error the first reader is answered with the error, the second is roused without an answer when the handle has closed, and the others stay on the list over every run |
| `Stream.LeftWaiting` | src/luv_object.c:14-20 | no run rouses a reader of a closed stream |
| `Accept.Step` | src/luv_stream.c:94-158 | each callback and call keeps: callbacks are attempts plus backlog; the waiting flag means no backlog and a parked acceptor |
| `Accept.AcceptConservation` | src/luv_stream.c:94-158 | so over every run, and calls are attempts plus parked acceptors |
| `Accept.OneAcceptor` | src/luv_stream.c:137-158 | with one acceptor at a time none is parked beside a backlog, and calls are served in order |
| `Accept.AttendedExactly` | src/luv_stream.c:97-118 | a callback leaves an acceptor behind if and only if it serves one of several |
| `Accept.StrandedExactly` | src/luv_stream.c:97-122 | two more connections leave an acceptor parked beside a backlog if and only if more than one was parked |
| `Accept.TwoAcceptors` | src/luv_stream.c:97-122 | a run in which that happens |
| `StreamThread.AnswerDelivers` | src/luv_stream.c:40-74 | whoever is answered is queued once behind all others, on no list any more, with exactly the answer on its stack; no other stack and no other list changes |
| `StreamThread.StepCoupled` | src/luv_stream.c:16-76 | every step of the scheduler or of the stream keeps both invariants, and the waiting readers the states on the stream's list in the scheduler |
| `StreamThread.StepDelivers` | src/luv_stream.c:16-76 | what each step of a stream answers and to whom, and that it is on the stack of who gets it: alone if it was waited for, behind what was there if given at once, nothing if the stream was closed; who waited is ready and on no list, and no other stack changes |
| `StreamThread.StreamOnThread` | src/luv_stream.c:206-233 | over any interleaving of fibers, callbacks and reads: bytes are conserved, every call is answered or parked, in order, every answer is delivered like that, and the scheduler's invariant holds |
| `StreamThread.AnswerReaches` | src/luv_stream.c:40-74 | a fiber that waited in `read` finds exactly its answer when it next runs, whatever happens in between |
| `StreamThread.StepAccepts` | src/luv_stream.c:94-158 | what each connection and call decides and for whom: on success the acceptor's stack stays, on failure it is just the error; who was parked is ready and on no list, and no other stack changes |
| `StreamThread.AcceptOnThread` | src/luv_stream.c:94-158 | over any interleaving of fibers, callbacks, connections and calls of `accept`: connections are attempts plus backlog, calls are attempts plus parked states of the scheduler, whose invariant holds; every acceptor gets its due; with one acceptor at a time none is parked beside a backlog and calls are served in order |
| `StreamThread.OutcomeReaches` | src/luv_stream.c:94-123 | a fiber that was parked in `accept` finds its stack as it was, or just the error, when it next runs |
| `StreamObject.StreamObject.constructor` | src/luv_object.c:3-12 | with an empty list, the start state of both machines |
| `StreamObject.StreamObject.Serve` | src/luv_stream.c:40-74 | on the cells: whether a state waits, and if so it is unlinked, gets its values and is linked into the ready queue |
| `StreamObject.StreamObject.WaitHere` | src/luv_cond.c:7-11 | on the cells: the running state is linked at the tail of the stream's list and suspended |
| `StreamObject.StreamObject.Read` | src/luv_stream.c:206-233 | the object, its buffer and the cells after a `read` show the steps of both machines |
| `StreamObject.StreamObject.ReadCallback` | src/luv_stream.c:16-51 | so do they after bytes have come, of which the first `len` of the block count |
| `StreamObject.StreamObject.ListenCallback` | src/luv_stream.c:94-123 | and after a connection, with the acceptor taken off the cells |
| `StreamObject.StreamObject.AcceptCall` | src/luv_stream.c:137-158 | and after a call of `accept` |
| `StreamObject.StreamObject.FollowStream` | src/luv_stream.c:16-76 | every step of a stream, done on the object and the cells, is the step of the coupled machine |
| `StreamObject.StreamObject.Follow` | src/luv_stream.c:16-76 | so is every step of the thread, and the coupling and the lists of cells are kept |
| `StreamObject.StreamObject.FollowLobby` | src/luv_stream.c:94-158 | the same for steps of a listening stream and of the thread |
| `StreamObject.StreamObject.SimulateReads` | src/luv_stream.c:16-76 | any run of the coupled machine, done on the object and the cells |
| `StreamObject.StreamObject.SimulateAccepts` | src/luv_stream.c:94-158 | the same for a listening stream |

## Left out

- libuv, ØMQ and the Lua virtual machine: only small contracts remain. `lua_dump` followed by a load gives the
  same bytecode; numbers and light pointers are opaque 8-byte words, equal when their bytes are, so a NaN
  and the two zeros are not treated specially.
- `src/luv_fs.c`, `src/luv_net.c`, `src/luv_process.c`, `src/luv_pipe.c`, `src/luv_zmq.c` (but for one hook), `src/luv_idle.c` and
  most of `src/luv.c`: wrappers, or the shape of what is modelled here again.
- Operating-system threads, and `thread:join`: one thread's scheduler is modelled.
- `luvL_state_yield`, `luvL_fiber_resume` and `luvL_thread_resume`, the methods of conditions that Lua code cannot
  reach, and coroutines inside fibers: calls come from the running fiber or the thread itself. For the
  same reason `luvL_fiber_suspend` has no case for a state other than the running one.
- A call of the scheduler's API is one step; arguments of a fiber's function are not on its stack.
- Memory exhaustion, C stack depth, 64-bit overflow of sizes, finalizers.
- Malformed input of the decoder: it ends in one kind of failure, and where the C code would read past the
  end of the buffer the model fails. A shift beyond 32 bits is taken to lose the bits.
- Sharing of upvalue cells between closures, and metatables without `__codec`: the code drops both, so the
  isomorphism does not speak of them. A nil upvalue stops the encoding, as the assertion does.
- `Encoder.WalkValue`: hooks answer the same for the same object, and the payload of a userdata hook is not
  userdata that leads back to it.
- `DecoderFacts.BuildGrows`: decoder hooks may create objects but not change those there are.
- `CodecTheorem.RoundTripIsomorphic`: hooked objects that are keys of a table must be restored to objects that were there
  before, and different ones, since the code loses pairs whose keys come back equal. What a decoder puts into the
  objects it makes is not described. Where numbers or references do not agree, `DecoderFacts.NumbersAgreeExactly`,
  `EncoderOnce.WrittenOnce` and `CodecLimits.HookedPayloadIsLost` say what happens. Userdata is decoded anew at every
  occurrence, as in the code, so that its sharing is lost.
- `RoundTrip.ValueCopied`: speaks of a heap all of whose decoders answer; `CodecTheorem.RoundTripIsomorphic` applies it
  to what can be reached.
- `EncoderRefs.ValueRefs`: is about encodings in which no table hook answers with an object of its own;
  `Numbering.KnownExactly` covers all.
- `EncoderOnce.TupleRefs`: likewise.
- `SchedulerQueue.EveryRun`: lists are sequences, so that in a run in which a state waits for a condition while its cell is on
  such a list, or joins while it is on a list of joiners, they no longer stand for the rings of the C code.
- `Thread.Thread.ThreadSuspend`: programs are finite and do not depend on what calls return; it runs for a given finite list of polls, since libuv may keep handles active for
  ever.
- The fields `at`, `entered`, `marks`, `nils`, `missed`, `reading` and the histories of the streams are not in the C code. The
  lists determine `at`; `calls` and `reading` stand for what libuv keeps.
- `StreamThread.AnswerReaches`: is about fibers; a thread that waits in `read` is covered up to the step that answers it.
- What a callback of one's own leaves on the stack (the results of file operations, say) is left out of the scheduler.
- `Stream.ByteConservation`: `close`, shutdown and writing are left out, so that only readers wait on the stream's list; a
  block from the allocation callback is never NULL, and the length given to `read` is not negative.
- `Accept.Step`: the status libuv passes to the callback is ignored, as in the code.
