# A verified model of the uSockets core

uSockets keeps its sockets in intrusive lists that share two pointer fields, calls user handlers in the middle of list
walks and batch loops, lets those handlers close, move or open any socket, and frees blocks only at the end of an
iteration. This project models that machine and proves what it is meant to guarantee, whatever the handlers do and
whatever the kernel and the allocator answer. Two smaller parts follow: the SNI hostname tree and the run batching of
outgoing QUIC datagrams.

## How the model is made

**Memory.** `States.Mem` is C memory: field `f` of the block at address `a` is `f[a]`, and a field map has an entry for
exactly the live blocks. An access to a block that was freed or moved away would be a lookup outside the map, which does
not verify. `realloc` may return the same address or any free one, recycled ones included. "Closed" is
`prev == context`, as in C.

**The loop.** `Loops.Loop` has that memory, the array of ready polls and the loop's own counters as fields, and one
method for each function of `src/loop.c`, `src/context.c`, `src/socket.c` and `src/eventing/epoll_kqueue.c` that is
modelled. Each method is proved against a step of the abstract state (`Unthreaded`, `Joined`, `Parked`, `Closing`,
`Adopting`, `Freed`, ...), and each step is proved to keep the invariant `States.Inv`. So `Inv` holds in every
reachable state, between any two calls, inside handlers too.

**Handlers.** `Loop.Act` is user code: a script of any length of public operations on any sockets and contexts.
Operations that call handlers run further scripts, to any finite depth (`fuel`). What a script may have done to the
state is `Evolves`.

**What happened.** A ghost `Story` goes along: the lists as sequences, a journal, the alarms that are set, and the
progress of the sweep's walk. The journal names sockets by an identity that survives a move of their block. It has
every handler call, short write, shutdown, close, release and post step; every time a socket was linked into a context
or left it; every timer set or cleared; every tick of a context's clock; and every timer the sweep looked at. `Inv`
ties all of it to the memory: `Chronicles.Chronicled` says that what the journal tells about clocks, linked sockets
and timers is so. Nothing in the memory depends on the story. Handlers of sockets are called in one place,
`Loop.Emit`, which journals the call and runs its user code.

**Oracles.** What `recv`, `send`, `accept`, `epoll_wait`/`kevent`, `realloc` and `is_low_prio` return is chosen freely
by the model, at every call.

| files | contents |
|---|---|
| `Threads`, `Polls`, `PollRuns`, `ReadyBatch`, `Journal`, `Chimes`, `Wheel` | pointer lists; poll bits, kernel registrations, and their runs under epoll and kqueue; the ready batch; lawful journals; what a journal tells about clocks and timers; timeout arithmetic |
| `States`, `Chronicles` | memory, story and the invariant; the journal against the state |
| `Unlinking`, `Linking`, `Parking`, `Repolling`, `Creating`, `Relocating`, `Releasing`, `Arming`, `Budgets`, `Contexts`, `Walking` | the steps, and that each keeps the invariant |
| `Tracking`, `Evolution`, `Operations` | what user code may have done; operations made of several steps |
| `Facts`, `Listed`, `Pointers`, `ContextClosing`, `Writing`, `Adoption`, `Calling`, `Sweeping`, `Rounds`, `Ringing`, `Holding`, `Freeing`, `Dispatching`, `Serving`, `Running` | what the methods of the loop need |
| `Loop` | the loop itself |
| `Outcomes` | what connecting, accepting, adopting, reading and writing come to: fields, registrations, lists, alarms and journal |
| `Theorems` | what holds in every reachable state |
| `Labels`, `Tries`, `NameTable`, `Sni` | hostname labels; tries as values; trie against table; the tree of nodes in the heap |
| `Quic` | `send_packets_out` |

## What came out

- `us_socket_long_timeout` with 240 minutes aliases to the current minute: it is on time only when set in the last
  tick of a minute (`Wheel.LongTimeoutExact`). `us_socket_timeout` is exact up to 956 seconds; 957 to 960 are exact
  unless the socket is still ahead of the sweep under way (`Wheel.ShortTimeoutExact`).
- `sni_free` calls the callback for every registered name but the empty one, whose user sits at the root
  (`Sni.EmptyNameNeverFreed`, `Sni.EmptyNameLost`).
- `us_poll_resize` does not tell the kernel about a block that moves while it polls for nothing. That is so for a
  socket that does not wait to write, once it is held back in the low-priority queue (`Dispatching.HeldBackIsDeaf`) or
  its peer has ended (`Dispatching.EndedIsDeaf`). The registration agrees after the move exactly when the poll waits
  for something (`Relocating.ResizeAgreesExactly`).
- The kqueue diff leaves a filter with its old pointer when the direction stays and the pointer changes; so it may be
  used only where one of the two does not hold (`Polls.KqueueReachesOverwrite`), which is why a resize starts from an
  empty set.
- Names of more than ten labels can be added but neither found nor removed (`Sni.Tree.Find`, `Sni.Tree.Remove`).

## Model

| member | source | states |
|---|---|---|
| Theorems.OnExactlyOneList | src/context.c:71-131 | every socket that is not freed is on exactly one of its context's list, its context's listen list, the low-priority queue and the close list; `low_prio_state == 1` exactly in the queue, `prev == context` exactly when closed |
| Theorems.ListsAreAcyclic | src/context.c:91-131 | following `next` from a head visits the list's members once each and ends at null; following `prev` from any member leads back to the head |
| Theorems.NothingDangles | src/context.c:386-418 | no list, no sweep iterator and no application pointer is at a freed or pre-`realloc` block, and an iterator is always at a socket linked in its own context |
| Theorems.PendingNeverStale | src/eventing/epoll_kqueue.c:128-150 | whatever earlier dispatches did, every entry still to be dispatched is for an open socket at its current address |
| Theorems.KernelAgrees | src/eventing/epoll_kqueue.c:205-272 | a descriptor is registered exactly while an open socket has it, with that socket's cached interest and current address |
| Theorems.NoLostWakeup | src/socket.c:173-191 | after a short write the socket keeps writable in its interest and in the kernel's until its next `on_writable`, shutdown or close, although one failure flag serves all sockets |
| Theorems.ClosedForGood | src/socket.c:97-144 | after a close no handler is ever called for the socket but the one `on_close` that follows at once; its block is released before the next post step is over, and only once |
| Theorems.SweepSeesEachOnce | src/loop.c:85-138 | a walk over a context, whatever its handlers did: by the journal the sweep looked at exactly those sockets that were linked there when the walk began and did not leave before it came to them, at each once and in list order, at nobody linked meanwhile, and all in the tick that began |
| Theorems.CalledOnlyWhenDue | src/loop.c:102-124 | whenever the sweep looks at a timer, of a socket linked in the context whose clock this is, the handler is called right then if and only if the timer is due in that tick; it is never called otherwise |
| Theorems.TimeoutOnTime | src/socket.c:65-71 | after setting a linked socket's timeout to 1 to 956 seconds in tick t, in any state of any run on from there: unless the socket left its context or had its timeout set again, its handler was called once since, in tick t + ceil(seconds/4), if the sweep of that tick has looked at it, and else not yet |
| Theorems.LongTimeoutOnTime | src/socket.c:73-79 | the same for 1 to 239 minutes: called once, in the first tick T with T/15 == t/15 + minutes, which is 15*minutes-14 to 15*minutes ticks later |
| Theorems.NeverNeverFires | src/loop.c:102-124 | a stamp of 255 equals no clock, and a socket that has it has no alarm still to fire |
| Theorems.OffTillSet | src/loop.c:102-124 | a timeout that is off stays silent: in any later state of any run its handler was not called, unless the timeout was set again |
| Theorems.HandshakesBounded | src/loop.c:331-351 | low-priority reads done + sockets let back in for one read + budget left never exceed five an iteration, and the budget is never negative |
| Theorems.PollsCounted | src/eventing/epoll_kqueue.c:43-54 | `num_polls` is the number of sockets created and not freed |
| Running.EmptyKeeps | src/eventing/epoll_kqueue.c:96-111 | a new loop has no socket and no context, and satisfies the invariant |
| Loops.Loop.constructor | src/eventing/epoll_kqueue.c:96-111 | a new loop is the empty state, with room for 1024 ready polls |
| Loops.Loop.SweepContext | src/loop.c:85-138 | one walk over a context, with arbitrary handlers: it ends; by the journal it looked at each socket of the list it began with, once and in order, that did not leave before, and those it lost have left; the iterator is null afterwards. Handlers that do nothing are called exactly as due, short before long, and nothing else happens |
| Loops.Loop.WalkList | src/loop.c:98-133 | what the walk saw, lost and has ahead always make up the list it began with: the seen were looked at in order before they left, the lost have left, those ahead are where and who they were |
| Loops.Loop.Seek | src/loop.c:100-111 | the tight loop looks at one socket after the other, passes none that is due, and stops at the first that is |
| Loops.Loop.Examine | src/loop.c:113-132 | the short timer of the socket is looked at, and its long one at most, nobody else's; then the walk goes on with the first of the rest that did not leave, whether handlers unlinked the socket, its successors or all of them |
| Loops.Loop.TimerSweep | src/loop.c:85-138 | one walk after the other over every context there is when the sweep begins, in the order of their list, each seeing and losing whom the journal says; each of these contexts advances by one tick and no other does, though handlers create contexts meanwhile; all iterators are null afterwards |
| Walking.ExamineDue | src/loop.c:113-119 | the stamps of the next socket match the clocks exactly when its timeouts are due in this very tick and were not called yet |
| Walking.LongDue | src/loop.c:121-124 | the same for the long timeout of a socket still at the iterator after its short one was handled |
| Walking.SkippedKeeps | src/loop.c:100-111 | passing a socket without a match keeps the invariant: none of its alarms was due in this tick |
| Ringing.RungAt | src/loop.c:116-124 | with handlers that do nothing, examining a socket looks at its short and then its long timer, calls the handler of each exactly if its stamp matches, and makes nobody else due |
| Rounds.RoundedOn | src/loop.c:126-132 | going on from one socket to the next keeps the account of whom the walk saw, lost and has ahead, by the journal |
| Chimes.CallsOf | src/loop.c:102-124 | in an orderly journal a timer that was set, and not disturbed since, has an alarm with the tick it is due in and exactly the ticks in which its handler was called since |
| Operations.TracksUnthreaded | src/context.c:91-109 | unlinking a socket the sweep has still to see takes it, and nobody else, out of the walk, and journals that it left |
| Loops.Loop.UnlinkSocket | src/context.c:91-109 | takes the socket off its list, moves an iterator that is at it to its successor, and leaves every other list as it was |
| Loops.Loop.UnlinkListenSocket | src/context.c:71-89 | the same for a listen socket, at which no iterator ever is |
| Pointers.UnlinkPointers | src/context.c:97-108 | where equal neighbours can only be null, the early branch for `prev == next` and the general one bypass the socket alike |
| Threads.UnlinkThreaded | src/context.c:91-109 | on an acyclic list equal neighbours are null, so `prev == next` means singleton; bypassing a socket leaves all lists well linked both ways, its own without it and the others unchanged |
| Threads.MoveThreaded | src/context.c:407-412 | patching the neighbours of a moved block leaves its list well linked, with the new address in the old one's position |
| Loops.Loop.LinkSocket | src/context.c:123-131 | the socket is the new head of the context's list, in front of an unchanged rest, so a walk under way never meets it |
| Loops.Loop.LinkListenSocket | src/context.c:112-120 | the same for the listen list |
| Loops.Loop.Close | src/socket.c:116-144 | a closed socket is left alone; any other leaves its list or the queue for the close list, kernel and ready batch forget it, and its `on_close` is called, which may do anything |
| Loops.Loop.CloseConnecting | src/socket.c:97-113 | the same for a connecting socket, without any handler call |
| Loops.Loop.CloseListen | src/context.c:35-51 | the same for a listen socket |
| Operations.ClosingKeeps | src/socket.c:116-144 | closing keeps the invariant: no pending entry and no registration of the socket is left, it is owed no event, and a close is journalled |
| Loops.Loop.CloseContext | src/context.c:53-69 | both lists of the context are empty afterwards and every socket that was on them is closed, although closing overwrites `next`; with inert `on_close` handlers exactly those sockets are pushed on the close list, in order, and the queue and all other lists are as they were |
| ContextClosing.DrainStep | src/context.c:62-68 | closing the first socket still listed leaves the others listed in order, and its `next`, read before, is the one to close next |
| Loops.Loop.Adopt | src/context.c:386-418 | a closed socket is left alone; any other moves to the new block `realloc` chose, with descriptor, identity, type, interest and low-priority state as before, its registration and pending entries at the new address, and both timeouts off: stamps 255, no alarm, by the journal silent; a linked one becomes head of the new context's list, a queued one keeps its place in the queue and its context |
| Operations.AdoptingKeeps | src/context.c:386-418 | adopting keeps the invariant, whichever address `realloc` returns |
| Outcomes.AdoptingAdopted | src/context.c:403-417 | over every state and every address: what is adopted, linked or queued, arrives as what it was but with both timeouts off, in the right place of the right list |
| Loops.Loop.ResizePoll | src/eventing/epoll_kqueue.c:205-224 | when a block moves, its fields, its registration and its pending entries all move to the new address, and nothing else changes; one that waits for nothing is taken not to move |
| Relocating.ResizeAgreesExactly | src/eventing/epoll_kqueue.c:209-221 | after a move the kernel has the new address if and only if the poll waits for at least one event |
| Dispatching.HeldBackIsDeaf | src/loop.c:337-348 | the failing case: a socket not waiting to write that is held back polls for nothing, so a resize that moves it leaves its old address registered |
| Dispatching.EndedIsDeaf | src/loop.c:372-375 | the other failing case: a socket not waiting to write whose peer has ended polls for nothing when `on_end` is called, so an adoption there that moves it leaves its old address registered |
| Loops.Loop.Connect | src/context.c:315-342 | a failed descriptor changes nothing and yields null; otherwise a new connecting socket is linked at the top of the context, registered for writable at its own address, with both timeouts off |
| Loops.Loop.Listen | src/context.c:253-282 | the same on the listen list, registered for readable |
| Loops.Loop.AdoptAccepted | src/loop.c:197-223 | an accepted descriptor becomes a new socket at the top of the context, and in the state that `on_open` is told of it is of the established type, registered for readable at its own address, with both timeouts off |
| Outcomes.OpeningArrived | src/loop.c:205-219 | a new socket of any kind has its own identity and block, the interest asked for in cache and kernel alike, both timeouts off, and is the head of its list, in front of an unchanged rest |
| Loops.Loop.CreateContext | src/context.c:204-235 | a new context is listed first, with empty lists and clock 0 |
| Loops.Loop.FreeContext | src/loop.c:70-82 | the context leaves the loop's list, which stays well linked both ways |
| Loops.Loop.SetTimeout | src/socket.c:65-71 | the stamp is a slot of the wheel or 255, and a linked socket's alarm is set accordingly, whether or not a sweep is ahead of it; with 0 seconds the timeout is off afterwards and the long one as before |
| Loops.Loop.SetLongTimeout | src/socket.c:73-79 | the same on the minute wheel |
| Wheel.ShortTimeoutExact | src/socket.c:65-71 | the next tick that matches the stamp is t + ceil(seconds/4) if and only if seconds <= 956, or <= 960 for a socket the current sweep has passed; over all 32-bit arguments |
| Wheel.LongTimeoutExact | src/socket.c:73-79 | the next tick that matches is the first of minute t/15 + minutes if and only if minutes <= 239, or 240 set in the last tick of a minute after the sweep; over all 32-bit arguments |
| Wheel.ShortTimeoutError | src/libusockets.h:26-27 | with four-second ticks the timeout comes less than four seconds early or late |
| Wheel.NextMatchIsFirst | src/loop.c:93-95 | the predicted tick matches the stamp, no earlier one does, and it comes within one turn of the wheel |
| Loops.Loop.Write | src/socket.c:173-191 | a closed or shut socket takes nothing; a full write changes nothing; a short one is registered for both directions, recorded in the loop's flag, and owed a writable event |
| Loops.Loop.Write2 | src/socket.c:159-171 | the same, but the flag is as it was and no event is owed |
| Loops.Loop.Shutdown | src/socket.c:213-229 | a socket shut down once is of the shut-down type, registered for readable as before and not for writable, and owed no event; a closed or shut one is left alone |
| Loops.Loop.HandleLowPriority | src/loop.c:145-162 | exactly the first min(5, length) queued sockets go back to their contexts, each polling for readable and as before for writable, the rest keep their order, and the budget left is 5 minus their number |
| Loops.Loop.FreeClosed | src/loop.c:165-175 | every closed block and no other is freed, once, afterwards exactly what was ever shut has been released, and what was open is as it was |
| Loops.Loop.LoopPre | src/loop.c:186-190 | the iteration number goes up by one and the first min(5, length) queued sockets are let back in with the budget less by their number, before the callback runs, which may do anything |
| Loops.Loop.LoopPost | src/loop.c:192-195 | whatever was closed before the post step is released after it |
| Loops.Loop.DispatchConnecting | src/loop.c:242-264 | on error `on_connect_error` is called and then the socket is closed, unless that handler left it closed, and no `on_close` is called for that; otherwise, when `on_open` is called, it is where it was, of the established type, registered for readable, with its short timeout off and its long one as before |
| Outcomes.OpenedConnected | src/loop.c:251-263 | an established connection waits for data, has its connection timeout off, by the journal silent, and its long timeout and its place in the list as they were |
| Loops.Loop.DispatchListening | src/loop.c:265-295 | every descriptor waiting is accepted in turn, becoming an established socket of the listen socket's context, registered for readable, unless `on_pre_open` keeps it, until one's `on_open` leaves the listen socket closed; handlers may close, open and move anything meanwhile |
| Loops.Loop.DispatchWritable | src/loop.c:310-325 | after `on_writable` the socket, wherever it now is, goes on polling for writable only if a write fell short since this event and it was not shut down, and for readable as the handler left it; nobody owed an event stops polling for it |
| Loops.Loop.DispatchReadable | src/loop.c:327-352 | a low-priority socket is set aside exactly when it was not let in before and the budget is spent; any other reads in this iteration, having given up its grant or one of the budget, and if there is data its `on_data` is the very next call journalled |
| Serving.DataIsNext | src/loop.c:354-371 | a read that finds data calls `on_data` of that socket before anything else happens, however many buffers there are and wherever handlers move it |
| Loops.Loop.HoldBack | src/loop.c:337-348 | the socket moves from its context to the top of the queue, marked as there, and polls for writable if it did and for nothing else, as the kernel knows; nothing but its leaving is journalled |
| Loops.Loop.ReadMore | src/loop.c:354-381 | one full buffer after the other is handed to `on_data` at the socket's current address, until it is found closed; after the last full one comes the answer to the last read |
| Loops.Loop.ReadLast | src/loop.c:357-380 | data is handed on; end of stream closes a socket that was shut down and else ends reading before `on_end`; an error closes; nothing to read changes nothing |
| Loops.Loop.Dispatch | src/loop.c:225-385 | which of connecting, accepting, closing on error, writing and then reading is done, on which state and at which address, whatever the handlers in between did |
| Loops.Loop.DispatchSocket | src/loop.c:310-381 | an established socket first gets its writable event and then, only if that left it open, at its current address, its readable one |
| Loops.Loop.DispatchEntry | src/eventing/epoll_kqueue.c:129-149 | a disabled entry does nothing, the sweep timer runs the whole sweep, walk by walk, and a poll is dispatched exactly if it still polls for something reported or has an error |
| Loops.Loop.Call | src/socket.c:141-141 | a handler call is journalled, may do anything user code may, and returns the socket's current pointer |
| Loops.Loop.Act | src/libusockets.h:154-327 | any script of public operations, nested to any depth, keeps the invariant, frees nobody, moves closed sockets nowhere, and lets a sweep under way only lose sockets |
| Evolution.EvolvesTrans | src/libusockets.h:154-327 | what one script may do after another is what a single script may do |
| Loops.Loop.DispatchBatch | src/eventing/epoll_kqueue.c:128-150 | all entries are served, in order, each on the state the one before left |
| Loops.Loop.RunOnce | src/eventing/epoll_kqueue.c:117-153 | an iteration is the pre step, a batch all of whose entries are served in order, and the post step, with user code in each; it releases whatever was closed before it |
| Loops.Loop.Run | src/eventing/epoll_kqueue.c:113-154 | the iterations are run one after the other, each from the state the one before left, each pre step, batch and post step, and each only while polls remain; exactly as many as asked for unless the loop is left before, which it is only with every socket freed, no registration and no application pointer left |
| Loops.Loop.StopPoll | src/eventing/epoll_kqueue.c:258-272 | the kernel forgets the descriptor and all pending entries of the poll are disabled |
| Loops.Loop.ChangePoll | src/eventing/epoll_kqueue.c:239-256 | whether or not the interest differs, cache and kernel both have the new interest afterwards, and the type is as it was |
| ReadyBatch.UpdatePendingReadyPolls | src/eventing/epoll_kqueue.c:156-177 | every pending entry of the old poll becomes one of the new poll and no other entry changes, although the scan stops after 1 or 2 |
| ReadyBatch.RedirectedCounts | src/eventing/epoll_kqueue.c:157-163 | a replacement adds the old poll's multiplicity to the new one's, so the bound of 1 or 2 that the early exit relies on is kept |
| Polls.CacheHalves | src/eventing/epoll_kqueue.c:66-82 | type and interest are set independently in the 4-bit cache, and together determine it |
| Polls.KqueueReachesOverwrite | src/eventing/epoll_kqueue.c:183-202 | the kqueue diff reaches what the epoll overwrite reaches if and only if the pointer is the same or no direction stays |
| Polls.KqueueResizeReachesOverwrite | src/eventing/epoll_kqueue.c:214-217 | starting from an empty set, a resize moves every installed filter to the new pointer |
| PollRuns.RunAgrees | src/eventing/epoll_kqueue.c:183-272 | over every run of start, change, stop, set-type and resize on a new poll, what kqueue has installed by differences is what epoll holds by overwrites: the cached interest, at the current address unless the poll waits for nothing |
| PollRuns.OperateAgrees | src/eventing/epoll_kqueue.c:205-272 | under both: start and change reach the interest asked for at the poll's address, a resize its new address, a stop ends the registration; only set-type touches the type, and it leaves the interest alone |
| Journal.NothingAfterShut | src/socket.c:134-143 | in a lawful journal only the `on_close` right after a close names the closed socket |
| Journal.OnCloseAtMostOnce | src/socket.c:141-141 | `on_close` is called at most once for a socket, and only right after its close |
| Journal.ReleasedInItsPostStep | src/loop.c:165-175 | a closed socket is released between its close and the end of the next post step, once, and never before |
| Journal.OwingExactly | src/socket.c:184-188 | a writable event is owed exactly to those with a short write not followed by `on_writable`, shutdown or close |
| Labels.JoinSplit | src/crypto/sni_tree.cpp:174-185 | the labels joined by dots are the hostname, or all of it but one trailing dot; over every string |
| Labels.SplitNonempty | src/crypto/sni_tree.cpp:174-177 | no label contains a dot, and only the empty hostname has none |
| Tries.LookupFinds | src/crypto/sni_tree.cpp:92-117 | backtracking finds a user exactly when some registered pattern matches, and then the best match's |
| Tries.Canonical | src/crypto/sni_tree.cpp:78-87 | two trees without userless leaves and with the same registrations are equal |
| Tries.AddedUsers | src/crypto/sni_tree.cpp:133-163 | adding a name changes the user of that name alone |
| Tries.RemovedUsers | src/crypto/sni_tree.cpp:59-90 | removing a name changes the user of that name alone, culling included |
| Tries.RemovedTrimmed | src/crypto/sni_tree.cpp:78-87 | removing leaves no leaf without a user |
| Tries.RemoveAbsent | src/crypto/sni_tree.cpp:59-74 | removing a name that is not registered changes nothing at all |
| Tries.RemoveUndoesAdd | src/crypto/sni_tree.cpp:59-90 | removing a name just added restores the identical tree |
| NameTable.RunRefines | src/crypto/sni_tree.cpp:133-188 | over every run of adds and removes, tree and finite map return the same and hold the same |
| NameTable.SameTableSameTree | src/crypto/sni_tree.cpp:59-90 | runs that leave the same map leave the same tree |
| NameTable.StepUsers | src/crypto/sni_tree.cpp:133-188 | adding returns 1 and changes nothing where a user is registered, and else sets the user of that name alone; removing returns the user of that name and clears that name alone, or null and changes nothing for more than ten labels |
| NameTable.FailuresAndUndoing | src/crypto/sni_tree.cpp:133-188 | a failed add or remove changes nothing; a remove after a fresh add of at most ten labels restores the tree |
| NameTable.FindIsBest | src/crypto/sni_tree.cpp:92-117 | a hostname is found if and only if some registered name of equal length matches label by label, and then for the match that is best from left to right, exact before wildcard |
| NameTable.BestIsUnique | src/crypto/sni_tree.cpp:99-116 | there is at most one best match |
| NameTable.EmptyNameRegisters | src/crypto/sni_tree.cpp:133-163 | the empty hostname can be added, and its user then sits at the root |
| Sni.Tree.Add | src/crypto/sni_tree.cpp:133-163 | the nodes in the heap change as the map does; adding an existing name returns 1 and leaves the tree as it was, although nodes are made before that is known |
| Sni.Tree.Remove | src/crypto/sni_tree.cpp:166-188 | the nodes in the heap change as the map does; more than ten labels return null and touch nothing |
| Sni.Tree.RemoveUser | src/crypto/sni_tree.cpp:59-90 | the subtree loses exactly that name and the nodes this leaves empty, and nothing outside it changes |
| Sni.Tree.Find | src/crypto/sni_tree.cpp:190-212 | the best match's user for up to ten labels, null for more |
| Sni.Tree.GetUser | src/crypto/sni_tree.cpp:92-117 | the walk over the nodes finds what lookup in the trie they stand for finds |
| Sni.Tree.SplitHost | src/crypto/sni_tree.cpp:193-209 | the fixed array of ten labels is never overrun, and holds exactly the labels of a hostname that has no more |
| Sni.Tree.Free | src/crypto/sni_tree.cpp:125-130 | the callback gets the user of every registered name once, but for the empty name |
| Sni.EmptyNameNeverFreed | src/crypto/sni_tree.cpp:44-55 | every registered user is handed to the callback if and only if none is registered for the empty hostname |
| Sni.EmptyNameLost | src/crypto/sni_tree.cpp:125-130 | the failing case: with a user registered for the empty hostname alone, the callback is never called |
| Quic.Kernel.Sendmmsg | src/quic.c:256-256 | the system call may take any number of datagrams from the front of a batch, or fail |
| Quic.SendPacketsOut | src/quic.c:241-309 | whatever is taken of each batch, exactly the first r specs were taken in order, where r is returned: each on its own socket, to its destination, with its payload and the name length of its address family, 16 or 28; batches have 1 to 1024 datagrams; fewer than all means an error or EAGAIN |
| Quic.TakenMore | src/quic.c:254-271 | what is taken of a run continues what was taken before it, in order and on the right socket |

## Left out

- Sockets and contexts are rows of an explicit memory rather than Dafny objects: the code compares a socket pointer
  with a context pointer, moves blocks with `realloc` and frees them, none of which Dafny objects can do.
- What the library demands of its callers is a precondition, or a branch that user code does not take: no short write
  on a queued socket (it would turn reading back on), no write on a connecting or listening one, `us_socket_close`,
  `us_socket_shutdown` and adoption not on listen sockets, `us_socket_close_connecting` only on connecting ones,
  `on_connect_error` does not adopt its socket, handlers return the current pointer of their socket, contexts are not
  freed inside a sweep, and `on_close` handlers run by `us_socket_context_close` leave that context's lists alone.
- Loops.Loop.ResizePoll: a poll that waits for nothing is taken not to move, because the kernel would keep its old
  address; `Relocating.ResizeAgreesExactly` says exactly when it does.
- Loops.Loop.FreeContext: not while a closed block awaiting release still names the context either. The closing code
  itself only compares that pointer, but setting a timeout on the closed socket, or an accept loop whose `on_pre_open`
  closed its listen socket, would read the freed context; so a caller must wait for the post step.
- Loops.Loop.DispatchEntry: the sweep runs only while no clock would wrap its 32 bits, because 2^32 is not a multiple
  of 240 and the wheel would jump.
- Loops.Loop.Run: runs for any given number of iterations, because the real loop need not end; that it ends at all is
  not claimed.
- Loops.Loop.Act: nesting of handlers within handlers is finite but unbounded (`fuel`).
- The descriptors that `socket`, `accept` and user code bring are taken not to be registered already.
- The sweep timer's own poll, user timers, asyncs and UDP sockets: other lifetime rules; so fallthrough polls do not
  count.
- TLS: only `is_low_prio` appears, as an oracle. The user of an added name is taken not to be null, as there.
- System calls and addresses (`src/bsd.c`, `src/udp.c`), the other event libraries, io_uring, the rest of
  `src/quic.c`, callback setters, extension memory, flushing, unix-domain variants of listen and connect (same list
  code).
- The order in which queued sockets are served beyond LIFO, and timeouts of sockets while they are queued: not promised.
- Hostnames are strings of characters; a null byte inside one is not modelled. The kept copies of labels are values.
- Quic.SendPacketsOut: message flags and the printing on backpressure are not modelled; the error number is any but
  set to EAGAIN where the code does so.
