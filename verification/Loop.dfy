/** The loop, its contexts and its sockets: every operation on them, step by step as the library does it. */
module Loops {
  import opened Threads
  import opened Polls
  import opened ReadyBatch
  import opened Journal
  import opened States
  import opened Facts
  import opened Unlinking
  import opened Linking
  import opened Parking
  import opened Repolling
  import opened Creating
  import opened Relocating
  import opened Releasing
  import opened Arming
  import opened Contexts
  import opened Walking
  import opened Listed
  import opened Evolution
  import opened Operations
  import opened Pointers
  import opened ContextClosing
  import opened Writing
  import opened Adoption
  import opened Calling
  import opened Sweeping
  import opened Rounds
  import opened Ringing
  import opened Holding
  import opened Freeing
  import opened Dispatching
  import opened Outcomes
  import opened Serving
  import opened Running
  import W = Wheel

  class Loop {
    var mem: Mem
    ghost var story: Story

    /** The loop data's own `iterator`: the context being swept, or null. */
    var cursor: Addr

    var numReady: nat
    var currentReady: nat
    const ready: array<Ready>
    const limit: nat

    /** us_create_loop: no context, no socket. Under kqueue a poll may be reported once for each of its two filters. */
    constructor (kqueue: bool)
      ensures Valid() && Now() == NewLoop(if kqueue then 2 else 1) && cursor == NULL && fresh(ready)
              && ready.Length == 1024
    {
      hide Inv, EmptyMem, EmptyStory, NoneLoose, NewLoop, Settled;
      mem := EmptyMem();
      story := EmptyStory();
      cursor := NULL;
      numReady, currentReady := 0, 0;
      limit := if kqueue then 2 else 1;
      ready := new Ready[READY_POLLS];
      new;
      EmptyKeeps(limit);
      NewLoopIs(limit);
      assert Pending() == [];
    }

    /** The entries of the batch not yet dispatched. */
    ghost function Pending(): seq<Ready>
      reads ready, `currentReady, `numReady
    {
      if currentReady <= numReady <= ready.Length then ready[currentReady..numReady] else []
    }

    ghost function Now(): State
      reads this, ready
    {
      State(mem, Pending(), limit, story)
    }

    /** A sweep can be told from the loop's cursor. */
    ghost predicate SweepShows()
      reads `story, `cursor
    {
      story.walk.Walk? ==> cursor != NULL
    }

    ghost predicate Valid()
      reads this, ready
    {
      Inv(Now()) && currentReady <= numReady <= ready.Length
    }

    // ---- Unlinking

    /** us_internal_socket_context_unlink_socket */
    method UnlinkSocket(c: Addr, s: Addr)
      requires Valid() && PlaceOf(Now(), s) == Linked(c)
      modifies `mem, `story
      ensures Valid() && Now() == Unthreaded(old(Now()), s)
    {
      hide Inv, Without, Dropped, BypassPrev, BypassNext, BypassHead, Pending;
      ghost var st' := Unthreaded(Now(), s);
      UnthreadedKeeps(Now(), s);
      UnthreadedFacts(Now(), s);
      var prev, next, head, iter := UnlinkPointers(mem.prev, mem.next, mem.heads[Linked(c)], mem.walker[c], s);
      mem := mem.(prev := prev, next := next, heads := mem.heads[Linked(c) := head], walker := mem.walker[c := iter]);
      story := st'.g;
    }

    /** us_internal_socket_context_unlink_listen_socket. The iterator is never at a listen socket. */
    method UnlinkListenSocket(c: Addr, s: Addr)
      requires Valid() && PlaceOf(Now(), s) == Listening(c)
      modifies `mem, `story
      ensures Valid() && Now() == Unthreaded(old(Now()), s)
    {
      hide Inv, Without, Dropped, BypassPrev, BypassNext, BypassHead, Pending;
      ghost var st' := Unthreaded(Now(), s);
      UnthreadedKeeps(Now(), s);
      UnthreadedFacts(Now(), s);
      Live(Now(), s);
      if mem.walker[c] != NULL { IteratorFacts(Now(), c); }
      var prev, next, head, iter := UnlinkPointers(mem.prev, mem.next, mem.heads[Listening(c)], mem.walker[c], s);
      assert mem.walker[c := iter] == mem.walker;
      mem := mem.(prev := prev, next := next, heads := mem.heads[Listening(c) := head],
          walker := mem.walker[c := iter]);
      story := st'.g;
    }

    /** The part of us_socket_close that takes a socket off the low-priority queue. */
    method UnlinkQueued(s: Addr)
      requires Valid() && PlaceOf(Now(), s) == Queued
      modifies `mem, `story
      ensures Valid() && Now() == Wiped(Unthreaded(old(Now()), s), s)
    {
      hide Inv, Without, Dropped, Pending;
      ghost var st' := Wiped(Unthreaded(Now(), s), s);
      UnthreadedKeeps(Now(), s);
      UnthreadedFacts(Now(), s);
      WipedKeeps(Unthreaded(Now(), s), s);
      var prev, next, head := mem.prev, mem.next, mem.heads[Queued];
      if prev[s] == NULL {
        head := next[s];
      } else {
        next := next[prev[s] := next[s]];
      }
      if next[s] != NULL {
        prev := prev[next[s] := prev[s]];
      }
      mem := mem.(prev := prev[s := NULL], next := next[s := NULL], heads := mem.heads[Queued := head],
          lowPrio := mem.lowPrio[s := 0]);
      story := st'.g;
    }

    // ---- Linking

    /** us_internal_socket_context_link_socket */
    method LinkSocket(c: Addr, s: Addr)
      requires Valid() && Joinable(Now(), s, Linked(c))
      modifies `mem, `story
      ensures Valid() && Now() == Joined(old(Now()), s, Linked(c))
    {
      hide Inv, Pending, Rearmed, KindFits;
      ghost var st' := Joined(Now(), s, Linked(c));
      JoinedKeeps(Now(), s, Linked(c));
      PushFacts(Now(), s, Linked(c));
      var prev, next, head := LinkPointers(mem.prev, mem.next, mem.heads[Linked(c)], s);
      mem := mem.(context := mem.context[s := c], prev := prev, next := next, heads := mem.heads[Linked(c) := head]);
      story := st'.g;
    }

    /** us_internal_socket_context_link_listen_socket */
    method LinkListenSocket(c: Addr, s: Addr)
      requires Valid() && Joinable(Now(), s, Listening(c))
      modifies `mem, `story
      ensures Valid() && Now() == Joined(old(Now()), s, Listening(c))
    {
      hide Inv, Pending, Rearmed, KindFits;
      ghost var st' := Joined(Now(), s, Listening(c));
      JoinedKeeps(Now(), s, Listening(c));
      PushFacts(Now(), s, Listening(c));
      var prev, next, head := LinkPointers(mem.prev, mem.next, mem.heads[Listening(c)], s);
      mem := mem.(context := mem.context[s := c], prev := prev, next := next, heads := mem.heads[Listening(c) := head]);
      story := st'.g;
    }

    /** The part of us_internal_dispatch_ready_poll that queues a socket for a later iteration. */
    method LinkQueued(s: Addr)
      requires Valid() && Joinable(Now(), s, Queued)
      modifies `mem, `story
      ensures Valid() && Now() == Joined(old(Now()), s, Queued)
    {
      hide Inv, Pending, Rearmed, KindFits;
      ghost var st' := Joined(Now(), s, Queued);
      JoinedKeeps(Now(), s, Queued);
      PushFacts(Now(), s, Queued);
      var prev, next, head := LinkPointers(mem.prev, mem.next, mem.heads[Queued], s);
      mem := mem.(prev := prev, next := next, heads := mem.heads[Queued := head], lowPrio := mem.lowPrio[s := 1]);
      story := st'.g;
    }

    // ---- Polls (epoll_kqueue.c)

    /** The allocator: any address but null and those of live blocks, recycled ones included. */
    method Malloc() returns (a: Addr)
      ensures a != NULL && a !in mem.heap && a !in mem.ctxs
    {
      a := *;
      if a == NULL || a in mem.heap || a in mem.ctxs {
        a := LowestFree(mem.heap + mem.ctxs);
      }
    }

    /** us_create_poll, us_poll_init and us_poll_start for a new socket of context `c`, with the fields its creator
        sets. */
    method CreatePoll(c: Addr, f: int, kind: bv4, events: Interest) returns (s: Addr)
      requires Valid() && c in mem.ctxs && f !in mem.kernel
      modifies `mem, `story
      ensures Valid() && Creatable(old(Now()), s, c, f)
              && Now() == Created(old(Now()), s, c, f, WithEvents(kind, events))
    {
      hide Inv, Pending, Events, WithEvents;
      s := Malloc();
      ghost var st' := Created(Now(), s, c, f, WithEvents(kind, events));
      CreatedKeeps(Now(), s, c, f, WithEvents(kind, events));
      CacheHalves(kind, kind & 3, events);
      mem := mem.(
        heap := mem.heap + {s}, numPolls := mem.numPolls + 1,
        fd := mem.fd[s := f], pollType := mem.pollType[s := WithEvents(kind, events)],
        kernel := mem.kernel[f := Registration(events, s)]);
      mem := mem.(
        context := mem.context[s := c], timeout := mem.timeout[s := W.NEVER],
            longTimeout := mem.longTimeout[s := W.NEVER],
        lowPrio := mem.lowPrio[s := 0], prev := mem.prev[s := NULL], next := mem.next[s := NULL],
        id := mem.id[s := mem.nextId], owner := mem.owner[mem.nextId := s], nextId := mem.nextId + 1);
      story := st'.g;
    }

    /** us_poll_change */
    method ChangePoll(s: Addr, events: Interest)
      requires s in mem.fd && s in mem.pollType && mem.fd[s] in mem.kernel
      requires mem.kernel[mem.fd[s]] == Registration(Events(mem.pollType[s]), s)
      modifies `mem
      ensures mem == old(mem).(pollType := old(mem.pollType)[s := WithEvents(old(mem.pollType[s]), events)],
                               kernel := old(mem.kernel)[old(mem.fd[s]) := Registration(events, s)])
    {
      var oldEvents := Events(mem.pollType[s]);
      CacheHalves(mem.pollType[s], Kind(mem.pollType[s]), events);
      if oldEvents != events {
        mem := mem.(pollType := mem.pollType[s := WithEvents(mem.pollType[s], events)],
                    kernel := mem.kernel[mem.fd[s] := Registration(events, s)]);
      } else {
        assert mem.pollType[s := mem.pollType[s]] == mem.pollType;
        assert mem.kernel[mem.fd[s] := Registration(events, s)] == mem.kernel;
      }
    }

    /** us_poll_stop, and closing the descriptor: the kernel forgets it, and so does the pending batch. */
    method StopPoll(s: Addr)
      requires Valid() && s in story.place && story.place[s] != Closed
      modifies `mem, ready
      ensures Whole(old(Now()), s)
      ensures mem == old(mem).(kernel := old(mem.kernel) - {old(mem.fd[s])})
      ensures Pending() == Redirected(old(Pending()), Poll(s), Nobody)
    {
      hide Inv, Redirected, Count;
      KernelFacts(Now(), s);
      mem := mem.(kernel := mem.kernel - {mem.fd[s]});
      UpdatePendingReadyPolls(ready, currentReady, numReady, Poll(s), Nobody, limit);
    }

    /** The tail shared by the close functions: stop the poll, push the block on the close list and mark it. */
    method Park(s: Addr)
      requires Valid() && IsLoose(Now(), s)
      modifies `mem, `story, ready
      ensures Valid() && Now() == Parked(old(Now()), s)
    {
      hide Inv, Redirected, Pending;
      ghost var st' := Parked(Now(), s);
      ParkedKeeps(Now(), s);
      ParkedLinks(Now(), s);
      Live(Now(), s);
      StopPoll(s);
      mem := mem.(next := mem.next[s := mem.heads[Closed]]);
      mem := mem.(heads := mem.heads[Closed := s]);
      mem := mem.(prev := mem.prev[s := mem.context[s]]);
      story := st'.g;
    }

    /** us_poll_resize for a loose or queued socket: `realloc` may return any address, the same one included. A poll
        that moves must be polling for something, or the kernel and the batch would not be told. */
    method ResizePoll(s: Addr) returns (n: Addr)
      requires Valid() && s in story.place && (story.place[s] == Loose || story.place[s] == Queued)
      modifies `mem, ready
      ensures Whole(old(Now()), s)
      ensures n != s ==> Movable(old(Now()), s, n)
      ensures mem == MemMoved(old(mem), s, n) && Pending() == BatchMoved(old(Pending()), s, n)
    {
      hide Inv, Redirected, Count, Moved;
      KernelFacts(Now(), s);
      Live(Now(), s);
      var events := Events(mem.pollType[s]);
      n := Malloc();
      var inPlace: bool := *;
      if inPlace || !events.Any() {
        n := s;
        return;
      }
      MovedHere(mem.fd, s, n);
      mem := mem.(
        heap := mem.heap - {s} + {n},
        fd := Moved(mem.fd, s, n), pollType := Moved(mem.pollType, s, n),
        timeout := Moved(mem.timeout, s, n), longTimeout := Moved(mem.longTimeout, s, n),
        lowPrio := Moved(mem.lowPrio, s, n), context := Moved(mem.context, s, n),
        prev := Moved(mem.prev, s, n), next := Moved(mem.next, s, n),
        id := Moved(mem.id, s, n), owner := mem.owner[mem.id[s] := n]);
      mem := mem.(kernel := mem.kernel[mem.fd[n] := Registration(events, n)]);
      UpdatePendingReadyPolls(ready, currentReady, numReady, Poll(s), Poll(n), limit);
    }

    // ---- Closing

    predicate IsClosed(s: Addr)
      reads `mem
      requires s in mem.prev && s in mem.context
    {
      mem.prev[s] == mem.context[s]
    }

    predicate IsShutDown(s: Addr)
      reads `mem
      requires s in mem.pollType
    {
      Kind(mem.pollType[s]) == POLL_TYPE_SOCKET_SHUT_DOWN
    }

    /** us_socket_close, for all but listen sockets. A socket that is closed already is left alone; otherwise it is
        closed, and then `on_close` is called. */
    method Close(s: Addr, fuel: nat, frozen: set<Addr>, pinned: set<int>) returns (n: Addr)
      requires SweepShows()
      requires Valid() && Settled(Now()) && s in story.place && !story.place[s].Listening?
      modifies `mem, `story, ready
      ensures Valid() && Settled(Now()) && s in old(mem.id)
      ensures old(story.place[s]) == Closed ==> Now() == old(Now()) && n == s
      ensures old(story.place[s]) != Closed ==> HandlerRan(Closing(old(Now()), s), OnClose, old(mem.id[s]), Now(), n,
              frozen, pinned)
      ensures old(story.place[s]) != Closed && fuel == 0 ==>
              Now() == Noted(Closing(old(Now()), s), OnClose, old(mem.id[s]))
      decreases fuel, 1
    {
      hide Inv, Homes, Pending, Unthreaded, Wiped, Parked, Evolves;
      ClosedFacts(Now(), s);
      Live(Now(), s);
      if IsClosed(s) {
        return s;
      }
      ghost var before := Now();
      ClosingKeeps(before, s);
      ClosingWalks(before, s);
      DetachedKeeps(before, s);
      var k := mem.id[s];
      if mem.lowPrio[s] == 1 {
        UnlinkQueued(s);
      } else {
        UnlinkSocket(mem.context[s], s);
      }
      Park(s);
      ParkedLog(Detached(before, s), s);
      n := Call(OnClose, k, fuel, frozen, pinned);
    }

    /** us_socket_close_connecting: like `Close`, for a socket that is still connecting, without `on_close`. */
    method CloseConnecting(s: Addr)
      requires Valid() && Settled(Now()) && s in story.place && (story.place[s].Linked? || story.place[s] == Closed)
      modifies `mem, `story, ready
      ensures Valid() && Settled(Now())
      ensures Now() == if old(story.place[s]) == Closed then old(Now()) else Closing(old(Now()), s)
    {
      hide Inv, Homes, Pending, Unthreaded, Wiped, Parked, Evolves;
      ClosedFacts(Now(), s);
      Live(Now(), s);
      if !IsClosed(s) {
        ClosingKeeps(Now(), s);
        DetachedKeeps(Now(), s);
        UnlinkSocket(mem.context[s], s);
        Park(s);
      }
    }

    /** us_listen_socket_close */
    method CloseListen(ls: Addr)
      requires Valid() && Settled(Now()) && ls in story.place
               && (story.place[ls].Listening? || story.place[ls] == Closed)
      modifies `mem, `story, ready
      ensures Valid() && Settled(Now())
      ensures Now() == if old(story.place[ls]) == Closed then old(Now()) else Closing(old(Now()), ls)
    {
      hide Inv, Homes, Pending, Unthreaded, Wiped, Parked, Evolves;
      ClosedFacts(Now(), ls);
      Live(Now(), ls);
      if !IsClosed(ls) {
        ClosingKeeps(Now(), ls);
        DetachedKeeps(Now(), ls);
        UnlinkListenSocket(mem.context[ls], ls);
        Park(ls);
      }
    }

    /** us_socket_context_close. Each next pointer is read before its socket is closed, and no `on_close` handler
        may touch the lists of this very context. */
    method CloseContext(c: Addr, fuel: nat, frozen: set<Addr>, pinned: set<int>)
      requires SweepShows()
      requires Valid() && Settled(Now()) && c in mem.ctxs
      modifies `mem, `story, ready
      ensures Valid() && Settled(Now())
      ensures Drained(old(Now()), Now(), Listening(c)) && Drained(old(Now()), Now(), Linked(c))
      ensures c !in frozen ==> Evolves(old(Now()), Now(), frozen, pinned)
      ensures fuel == 0 ==> OnlyDrained(old(Now()), Now(), c,
              old(Now()).g.rolls[Listening(c)] + old(Now()).g.rolls[Linked(c)])
      decreases fuel, 2, 1
    {
      hide Inv, Evolves, Draining, Drained, OnlyDrained, Pending, Settled;
      ghost var start := Now();
      CloseListeners(c, frozen, pinned);
      CloseSockets(c, start, fuel, frozen, pinned);
    }

    /** The first loop of us_socket_context_close. */
    method CloseListeners(c: Addr, ghost frozen: set<Addr>, ghost pinned: set<int>)
      requires Valid() && Settled(Now()) && c in mem.ctxs
      modifies `mem, `story, ready
      ensures Valid() && Settled(Now())
      ensures Drained(old(Now()), Now(), Listening(c)) && Draining(old(Now()), Now(), Linked(c), 0)
      ensures c !in frozen ==> Evolves(old(Now()), Now(), frozen, pinned)
      ensures OnlyDrained(old(Now()), Now(), c, old(Now()).g.rolls[Listening(c)])
      ensures story.walk.Walk? <==> old(story.walk.Walk?)
    {
      hide Inv, Evolves, Draining, Drained, OnlyDrained, NoDup, Pending, Settled, Closing, OffLimits;
      ghost var start := Now();
      DrainStart(start, c, frozen, pinned);
      ghost var listeners := start.g.rolls[Listening(c)];
      var ls := mem.heads[Listening(c)];
      ghost var i: nat := 0;
      while ls != NULL
        invariant Valid() && Settled(Now()) && i <= |listeners| && ls == At(listeners, i)
        invariant Draining(start, Now(), Listening(c), i) && Draining(start, Now(), Linked(c), 0)
        invariant c !in frozen ==> Evolves(start, Now(), frozen, pinned)
        invariant OnlyDrained(start, Now(), c, listeners[..i])
        invariant story.walk.Walk? <==> start.g.walk.Walk?
        decreases |listeners| - i
      {
        assert listeners[..i] + [ls] == listeners[..i + 1];
        DrainStep(start, Now(), c, Listening(c), i, Linked(c), 0, listeners[..i]);
        DrainEvolves(start, Now(), c, ls, frozen, pinned);
        var next := mem.next[ls];
        CloseListen(ls);
        ls := next;
        i := i + 1;
      }
      DrainEnd(start, Now(), c, Listening(c), i);
      assert listeners[..i] == listeners;
    }

    /** The second loop of us_socket_context_close, entered in `start` by the first. */
    method CloseSockets(c: Addr, ghost start: State, fuel: nat, frozen: set<Addr>, pinned: set<int>)
      requires SweepShows()
      requires Valid() && Settled(Now()) && Inv(start) && c in start.m.ctxs
      requires Drained(start, Now(), Listening(c)) && Draining(start, Now(), Linked(c), 0)
      requires c !in frozen ==> Evolves(start, Now(), frozen, pinned)
      requires OnlyDrained(start, Now(), c, start.g.rolls[Listening(c)])
      modifies `mem, `story, ready
      ensures Valid() && Settled(Now())
      ensures Drained(start, Now(), Listening(c)) && Drained(start, Now(), Linked(c))
      ensures c !in frozen ==> Evolves(start, Now(), frozen, pinned)
      ensures fuel == 0 ==> OnlyDrained(start, Now(), c, start.g.rolls[Listening(c)] + start.g.rolls[Linked(c)])
      decreases fuel, 2, 0
    {
      hide Inv, Evolves, Draining, Drained, OnlyDrained, NoDup, Pending, Settled, Closing, OffLimits, HandlerRan, Sits;
      DrainHead(start, Now(), c);
      ghost var listeners, sockets := start.g.rolls[Listening(c)], start.g.rolls[Linked(c)];
      var s := mem.heads[Linked(c)];
      ghost var i: nat := 0;
      while s != NULL
        invariant Valid() && Settled(Now()) && i <= |sockets| && s == At(sockets, i)
        invariant Draining(start, Now(), Listening(c), |listeners|) && Draining(start, Now(), Linked(c), i)
        invariant c !in frozen ==> Evolves(start, Now(), frozen, pinned)
        invariant fuel == 0 ==> OnlyDrained(start, Now(), c, listeners + sockets[..i])
        invariant SweepShows()
        decreases |sockets| - i
      {
        ghost var before := Now();
        assert listeners + sockets[..i] + [s] == listeners + sockets[..i + 1];
        DrainStep(start, before, c, Linked(c), i, Listening(c), |listeners|, listeners + sockets[..i]);
        OnlyDrainedNoted(start, Closing(before, s), c, listeners + sockets[..i + 1], OnClose, before.m.id[s]);
        var next := mem.next[s];
        var n := Close(s, fuel, frozen + {c}, pinned);
        DrainHandled(start, before, Now(), c, s, n, i + 1, |listeners|, frozen, pinned);
        s := next;
        i := i + 1;
      }
      DrainEnd(start, Now(), c, Linked(c), i);
      DrainEnd(start, Now(), c, Listening(c), |listeners|);
      assert sockets[..i] == sockets;
    }

    // ---- Timeouts, writing, shutting down

    /** us_socket_timeout */
    method SetTimeout(s: Addr, seconds: nat)
      requires Valid() && s in story.place && seconds < W.UINT32
      modifies `mem, `story
      ensures Valid() && Whole(old(Now()), s) && old(mem.context[s]) in old(mem.timestamp)
      ensures Now() == Stamped(old(Now()), s, if seconds == 0 then W.NEVER
              else W.ShortStamp(old(mem.timestamp[mem.context[s]]), seconds))
      ensures seconds == 0 ==> ShortCleared(old(Now()), Now(), s)
    {
      hide Inv, Pending, Rearmed, Upcoming, W.ShortStamp, ShortCleared;
      ClearedShort(Now(), s);
      TimeFacts(Now(), s);
      var stamp := if seconds != 0 then W.ShortStamp(mem.timestamp[mem.context[s]], seconds) else W.NEVER;
      StampRange(if seconds != 0 then mem.timestamp[mem.context[s]] else 0, seconds);
      StampedKeeps(Now(), s, stamp);
      ghost var st' := Stamped(Now(), s, stamp);
      mem := mem.(timeout := mem.timeout[s := stamp]);
      story := st'.g;
    }

    /** us_socket_long_timeout */
    method SetLongTimeout(s: Addr, minutes: nat)
      requires Valid() && s in story.place && minutes < W.UINT32
      modifies `mem, `story
      ensures Valid() && Whole(old(Now()), s) && old(mem.context[s]) in old(mem.longTimestamp)
      ensures Now() == LongStamped(old(Now()), s, if minutes == 0 then W.NEVER
              else W.LongStamp(old(mem.longTimestamp[mem.context[s]]), minutes))
      ensures minutes == 0 ==> LongCleared(old(Now()), Now(), s)
    {
      hide Inv, Pending, Rearmed, Upcoming, W.LongStamp, LongCleared;
      ClearedLong(Now(), s);
      TimeFacts(Now(), s);
      var stamp := if minutes != 0 then W.LongStamp(mem.longTimestamp[mem.context[s]], minutes) else W.NEVER;
      StampRange(if minutes != 0 then mem.longTimestamp[mem.context[s]] else 0, minutes);
      LongStampedKeeps(Now(), s, stamp);
      ghost var st' := LongStamped(Now(), s, stamp);
      mem := mem.(longTimeout := mem.longTimeout[s := stamp]);
      story := st'.g;
    }

    /** us_socket_write of `length` bytes, of which the kernel takes `sent` (-1 is an error). Connecting and listening
        sockets must not be written to, nor may a write on a queued socket fall short. */
    method Write(s: Addr, length: nat, sent: int) returns (written: nat)
      requires Valid() && Settled(Now()) && s in story.place && Writable(Now(), s, length, sent)
      modifies `mem, `story
      ensures Valid() && Settled(Now()) && Whole(old(Now()), s)
      ensures story.place == old(story.place) && mem.id == old(mem.id)
      ensures if old(Mute(Now(), s)) then Now() == old(Now()) && written == 0
              else if sent == length then Now() == old(Now()) && written == length
              else && Now() == ShortWrite(old(Now()), s, WithEvents(old(mem.pollType[s]), BOTH))
                   && written == if sent < 0 then 0 else sent
      ensures !old(Mute(Now(), s)) && written < length ==>
              mem.id[s] in story.debts && mem.lastWriteFailed && Polling(Now(), s, POLL_TYPE_SOCKET, BOTH)
    {
      hide Inv, Pending, Settled, Events, Kind, KindFits, WithEvents, Evolves, HomesIn;
      WriteFacts(Now(), s);
      if IsClosed(s) || IsShutDown(s) {
        return 0;
      }
      if sent != length {
        ghost var st' := ShortWrite(Now(), s, WithEvents(mem.pollType[s], BOTH));
        ShortWriteEvolves(Now(), s, WithEvents(mem.pollType[s], BOTH), {}, {});
        mem := mem.(lastWriteFailed := true);
        ChangePoll(s, BOTH);
        story := st'.g;
      }
      written := if sent < 0 then 0 else sent;
    }

    /** us_socket_write2: like `Write`, but a short write is not recorded in the loop's flag. */
    method Write2(s: Addr, length: nat, sent: int) returns (written: nat)
      requires Valid() && Settled(Now()) && s in story.place && Writable(Now(), s, length, sent)
      modifies `mem, `story
      ensures Valid() && Settled(Now()) && Whole(old(Now()), s)
      ensures if old(Mute(Now(), s)) then Now() == old(Now()) && written == 0
              else if sent == length then Now() == old(Now()) && written == length
              else Now() == Repolled(old(Now()), s, WithEvents(old(mem.pollType[s]), BOTH))
                   && written == if sent < 0 then 0 else sent
      ensures !old(Mute(Now(), s)) && written < length ==> Polling(Now(), s, POLL_TYPE_SOCKET, BOTH)
      ensures mem.lastWriteFailed == old(mem.lastWriteFailed) && story == old(story)
    {
      hide Inv, Pending, Settled, Events, Kind, KindFits, WithEvents, Evolves, HomesIn;
      WriteFacts(Now(), s);
      if IsClosed(s) || IsShutDown(s) {
        return 0;
      }
      if sent != length {
        ghost var st' := Repolled(Now(), s, WithEvents(mem.pollType[s], BOTH));
        RepolledEvolves(Now(), s, WithEvents(mem.pollType[s], BOTH), {}, {});
        ChangePoll(s, BOTH);
        story := st'.g;
      }
      written := if sent < 0 then 0 else sent;
    }

    /** us_socket_shutdown, for all but listen sockets */
    method Shutdown(s: Addr)
      requires Valid() && Settled(Now()) && s in story.place && !story.place[s].Listening?
      modifies `mem, `story
      ensures Valid() && Settled(Now()) && Whole(old(Now()), s)
      ensures Now() == if old(story.place[s] == Closed || IsShut(Now(), s)) then old(Now())
                       else ShutDown(old(Now()), s, ShutType(old(mem.pollType[s])))
      ensures old(story.place[s] != Closed && !IsShut(Now(), s)) ==>
              && Polling(Now(), s, POLL_TYPE_SOCKET_SHUT_DOWN, Interest(Events(old(mem.pollType[s])).readable, false))
              && mem.id == old(mem.id) && s in mem.id && mem.id[s] !in story.debts
    {
      hide Inv, Pending, Settled, Events, Kind, KindFits, WithEvents, WithKind, ShutType, Evolves, HomesIn;
      ShutFacts(Now(), s);
      if !IsClosed(s) && !IsShutDown(s) {
        ghost var m, st' := mem, ShutDown(Now(), s, ShutType(mem.pollType[s]));
        ShutDownEvolves(Now(), s, ShutType(mem.pollType[s]), {}, {});
        mem := mem.(pollType := mem.pollType[s := WithKind(mem.pollType[s], POLL_TYPE_SOCKET_SHUT_DOWN)]);
        ChangePoll(s, Events(mem.pollType[s]).Only(READABLE));
        assert mem.pollType == m.pollType[s := ShutType(m.pollType[s])];
        assert mem == st'.m;
        story := st'.g;
      }
    }

    // ---- Adopting

    /** us_socket_context_adopt_socket, for all but listen sockets. A queued socket stays in the queue, and in its
        context. */
    method Adopt(c: Addr, s: Addr) returns (n: Addr)
      requires Valid() && Settled(Now()) && c in mem.ctxs && s in story.place && !story.place[s].Listening?
      modifies `mem, `story, ready
      ensures Valid() && Settled(Now())
      ensures old(story.place[s]) == Closed ==> Now() == old(Now()) && n == s
      ensures old(story.place[s]) != Closed ==> Adoptable(old(Now()), c, s, n) && Now() == Adopting(old(Now()), c, s, n)
      ensures old(story.place[s]) != Closed ==> Adopted(old(Now()), Now(), c, s, n)
    {
      hide Inv, Pending, HomesIn, Unthreaded, Relocated, Adopting, Disarmed, Moved, Adopted;
      ghost var st := Now();
      Live(Now(), s);
      ClosedFacts(Now(), s);
      if IsClosed(s) {
        return s;
      }
      if mem.lowPrio[s] == 1 {
        n := AdoptQueued(c, s);
      } else {
        n := AdoptLinked(c, s);
      }
      AdoptingAdopted(st, c, s, n);
    }

    method AdoptLinked(c: Addr, s: Addr) returns (n: Addr)
      requires Valid() && Settled(Now()) && c in mem.ctxs && s in story.place && story.place[s].Linked?
      modifies `mem, `story, ready
      ensures Valid() && Settled(Now())
      ensures Adoptable(old(Now()), c, s, n) && Now() == Adopting(old(Now()), c, s, n)
    {
      hide Inv, Pending, Settled, HomesIn, Unthreaded, Resized, Disarmed, Adopting, Joined, Joinable, MemMoved,
           BatchMoved, KindFits;
      ghost var st := Now();
      RoomAfterUnlink(st, s);
      ClosedFacts(st, s);
      UnlinkSocket(mem.context[s], s);
      ghost var st1 := Now();
      n := ResizePoll(s);
      ResizedBlock(st1, s, n);
      AdoptingKeeps(st, c, s, n);
      AdoptingLinkedKeeps(st, c, s, n);
      mem := mem.(timeout := mem.timeout[n := W.NEVER], longTimeout := mem.longTimeout[n := W.NEVER]);
      story := Disarmed(Resized(st1, s, n), n).g;
      LinkSocket(c, n);
    }

    method AdoptQueued(ghost c: Addr, s: Addr) returns (n: Addr)
      requires Valid() && Settled(Now()) && c in mem.ctxs && s in story.place && story.place[s] == Queued
      modifies `mem, `story, ready
      ensures Valid() && Settled(Now())
      ensures Adoptable(old(Now()), c, s, n) && Now() == Adopting(old(Now()), c, s, n)
    {
      hide Inv, Pending, Settled, HomesIn, Adopting, MemMoved, BatchMoved;
      ghost var st := Now();
      n := ResizePoll(s);
      QueuedBlock(st, s, n, c);
      AdoptingKeeps(st, c, s, n);
      mem := mem.(timeout := mem.timeout[n := W.NEVER], longTimeout := mem.longTimeout[n := W.NEVER]);
      var prev, next, head := PatchPointers(mem.prev, mem.next, mem.heads[Queued], n);
      mem := mem.(prev := prev, next := next, heads := mem.heads[Queued := head]);
      story := Adopting(st, c, s, n).g;
    }

    // ---- New sockets

    /** us_socket_context_connect, given the descriptor it connects on, or -1 */
    method Connect(c: Addr, f: int) returns (s: Addr)
      requires Valid() && Settled(Now()) && c in mem.ctxs && (f == -1 || f !in mem.kernel)
      modifies `mem, `story
      ensures Valid() && Settled(Now())
      ensures f == -1 ==> s == NULL && Now() == old(Now())
      ensures f != -1 ==>
                  Openable(old(Now()), s, c, f, SEMI_WRITABLE, Linked(c))
                  && Now() == Opening(old(Now()), s, c, f, SEMI_WRITABLE, Linked(c))
                  && Arrived(old(Now()), Now(), s, f, Linked(c), POLL_TYPE_SEMI_SOCKET, WRITABLE)
    {
      hide Inv, Pending, HomesIn, Settled, Created, Joined, KindFits, Arrived;
      if f == -1 {
        return NULL;
      }
      ghost var st := Now();
      NewTypes(c);
      s := CreatePoll(c, f, POLL_TYPE_SEMI_SOCKET, WRITABLE);
      OpeningKeeps(st, s, c, f, SEMI_WRITABLE, Linked(c));
      OpeningArrived(st, s, c, f, SEMI_WRITABLE, Linked(c));
      LinkSocket(c, s);
    }

    /** us_socket_context_listen, given the descriptor it listens on, or -1 */
    method Listen(c: Addr, f: int) returns (ls: Addr)
      requires Valid() && Settled(Now()) && c in mem.ctxs && (f == -1 || f !in mem.kernel)
      modifies `mem, `story
      ensures Valid() && Settled(Now())
      ensures f == -1 ==> ls == NULL && Now() == old(Now())
      ensures f != -1 ==>
                  Openable(old(Now()), ls, c, f, SEMI_READABLE, Listening(c))
                  && Now() == Opening(old(Now()), ls, c, f, SEMI_READABLE, Listening(c))
                  && Arrived(old(Now()), Now(), ls, f, Listening(c), POLL_TYPE_SEMI_SOCKET, READABLE)
    {
      hide Inv, Pending, HomesIn, Settled, Created, Joined, KindFits, Arrived;
      if f == -1 {
        return NULL;
      }
      ghost var st := Now();
      NewTypes(c);
      ls := CreatePoll(c, f, POLL_TYPE_SEMI_SOCKET, READABLE);
      OpeningKeeps(st, ls, c, f, SEMI_READABLE, Listening(c));
      OpeningArrived(st, ls, c, f, SEMI_READABLE, Listening(c));
      LinkListenSocket(c, ls);
    }

    /** us_adopt_accepted_socket. What `on_open` returns is not looked at. */
    method AdoptAccepted(c: Addr, f: int, fuel: nat, frozen: set<Addr>, pinned: set<int>) returns (s: Addr)
      requires SweepShows()
      requires Valid() && Settled(Now()) && c in mem.ctxs && f !in mem.kernel
      modifies `mem, `story, ready
      ensures Valid() && Settled(Now())
      ensures var st := old(Now());
              var arrival := Opening(st, s, c, f, OPEN_READABLE, Linked(c));
              && Openable(st, s, c, f, OPEN_READABLE, Linked(c))
              && Arrived(st, arrival, s, f, Linked(c), POLL_TYPE_SOCKET, READABLE)
              && exists n :: HandlerRan(arrival, OnOpen, st.m.nextId, Now(), n, frozen, pinned)
      decreases fuel, 1
    {
      hide Inv, Pending, HomesIn, Settled, Created, Joined, KindFits, Evolves, Arrived;
      ghost var st := Now();
      NewTypes(c);
      s := CreatePoll(c, f, POLL_TYPE_SOCKET, READABLE);
      OpeningKeeps(st, s, c, f, OPEN_READABLE, Linked(c));
      OpeningArrived(st, s, c, f, OPEN_READABLE, Linked(c));
      OpenedCallable(st, s, c, f, OPEN_READABLE, Linked(c));
      OpeningWalks(st, s, c, f, OPEN_READABLE, Linked(c));
      LinkSocket(c, s);
      var n := Call(OnOpen, mem.id[s], fuel, frozen, pinned);
    }

    // ---- Contexts

    /** us_create_socket_context and us_internal_loop_link */
    method CreateContext() returns (c: Addr)
      requires Valid() && Settled(Now())
      modifies `mem, `story
      ensures Valid() && ContextCreatable(old(Now()), c) && Now() == ContextCreated(old(Now()), c)
      ensures c !in old(mem.ctxs) && mem.ctxs == old(mem.ctxs) + {c} && story.contexts == [c] + old(story.contexts)
      ensures c in mem.tick && mem.tick[c] == 0 && Linked(c) in story.rolls && story.rolls[Linked(c)] == []
              && Listening(c) in story.rolls && story.rolls[Listening(c)] == []
    {
      hide Inv, Pending;
      c := Malloc();
      ghost var st' := ContextCreated(Now(), c);
      ContextCreatedKeeps(Now(), c);
      RingHead(Now());
      mem := mem.(ctxs := mem.ctxs + {c},
                  tick := mem.tick[c := 0], timestamp := mem.timestamp[c := 0],
                      longTimestamp := mem.longTimestamp[c := 0],
                  walker := mem.walker[c := NULL], heads := mem.heads[Linked(c) := NULL][Listening(c) := NULL]);
      var prev, next, head := LinkPointers(mem.ctxPrev, mem.ctxNext, mem.ctxHead, c);
      mem := mem.(ctxPrev := prev, ctxNext := next, ctxHead := head);
      story := st'.g;
    }

    /** us_socket_context_free and us_internal_loop_unlink: not during a sweep, and not while a socket names the
        context. */
    method FreeContext(c: Addr)
      requires Valid() && ContextFreeable(Now(), c)
      modifies `mem, `story
      ensures Valid() && Now() == ContextFreed(old(Now()), c)
      ensures mem.ctxs == old(mem.ctxs) - {c} && story.contexts == Without(old(story.contexts), {c})
      ensures story.place == old(story.place)
    {
      hide Inv, Pending, Without;
      ghost var st' := ContextFreed(Now(), c);
      ContextFreedKeeps(Now(), c);
      ContextListed(Now(), c);
      var prev, next, head := mem.ctxPrev, mem.ctxNext, mem.ctxHead;
      if head == c {
        head := next[c];
        if head != NULL {
          prev := prev[head := NULL];
        }
      } else {
        next := next[prev[c] := next[c]];
        if next[c] != NULL {
          prev := prev[next[c] := prev[c]];
        }
      }
      mem := mem.(ctxs := mem.ctxs - {c},
                  tick := mem.tick - {c}, timestamp := mem.timestamp - {c}, longTimestamp := mem.longTimestamp - {c},
                  walker := mem.walker - {c}, heads := mem.heads - {Linked(c), Listening(c)},
                  ctxPrev := prev - {c}, ctxNext := next - {c}, ctxHead := head);
      story := st'.g;
    }

    // ---- Handlers

    /** The call of handler `h` of socket `k` itself: it is journalled, and user code runs. */
    method Emit(h: Handler, k: int, fuel: nat, frozen: set<Addr>, pinned: set<int>)
      requires SweepShows() && currentReady <= numReady <= ready.Length
      requires Inv(Noted(Now(), h, k)) && Settled(Now())
      modifies `mem, `story, ready
      ensures Valid() && Settled(Now()) && Evolves(Noted(old(Now()), h, k), Now(), frozen, pinned)
      ensures fuel == 0 ==> Now() == Noted(old(Now()), h, k)
      decreases fuel, 0, 0
    {
      hide Inv, HomesIn, Pending, Evolves;
      EvolvesRefl(Noted(Now(), h, k), frozen, pinned);
      story := story.(log := story.log + [Called(h, k)]);
      if fuel > 0 {
        Act(fuel - 1, frozen, pinned);
      }
    }

    /** Calls handler `h` of socket `k`: user code, which may do anything to any socket and returns the current pointer
        of its own. It leaves the lists of `frozen` contexts alone, and may only close `pinned` sockets. */
    method Call(h: Handler, k: int, fuel: nat, frozen: set<Addr>, pinned: set<int>) returns (n: Addr)
      requires SweepShows()
      requires Valid() && Settled(Now()) && Callable(Now(), h, k) && k in mem.owner
      modifies `mem, `story, ready
      ensures Valid() && HandlerRan(old(Now()), h, k, Now(), n, frozen, pinned)
      ensures fuel == 0 ==> Now() == Noted(old(Now()), h, k)
      decreases fuel, 0, 1
    {
      hide Inv, Homes, Pending, Evolves, HomesIn;
      ghost var noted := Noted(Now(), h, k);
      NotedKeeps(Now(), h, k);
      Emit(h, k, fuel, frozen, pinned);
      Remembered(noted, Now(), k, frozen, pinned);
      n := mem.owner[k];
    }

    /** Any sequence of operations on any sockets and contexts. */
    method Act(fuel: nat, frozen: set<Addr>, pinned: set<int>)
      requires Valid() && Settled(Now()) && SweepShows()
      modifies `mem, `story, ready
      ensures Valid() && Settled(Now()) && Evolves(old(Now()), Now(), frozen, pinned)
      decreases fuel, 4
    {
      hide Inv, Evolves, Settled, Pending;
      ghost var start := Now();
      EvolvesRefl(Now(), frozen, pinned);
      var actions: nat := *;
      while actions > 0
        invariant Valid() && Settled(Now()) && Evolves(start, Now(), frozen, pinned)
        decreases actions
      {
        ghost var before := Now();
        StillShows(start, before, frozen, pinned);
        var k: int, c: Addr, op: nat := *, *, *;
        if k in mem.owner {
          if op < 5 {
            Use(k, op, fuel, frozen, pinned);
          } else if op < 8 {
            End(k, op, fuel, frozen, pinned);
          } else {
            Move(k, c, frozen, pinned);
          }
        } else {
          Host(c, op, fuel, frozen, pinned);
        }
        EvolvesTrans(start, before, Now(), frozen, pinned);
        actions := actions - 1;
      }
    }

    predicate IsListening(s: Addr)
      reads `mem
      requires s in mem.prev && s in mem.context && s in mem.pollType
    {
      !IsClosed(s) && Kind(mem.pollType[s]) == POLL_TYPE_SEMI_SOCKET && Events(mem.pollType[s]) == READABLE
    }

    /** Arming timeouts, writing or shutting down socket `k`. */
    method Use(k: int, op: nat, ghost fuel: nat, ghost frozen: set<Addr>, ghost pinned: set<int>)
      requires Valid() && Settled(Now()) && k in mem.owner
      modifies `mem, `story
      ensures Valid() && Settled(Now()) && Evolves(old(Now()), Now(), frozen, pinned)
    {
      hide Inv, Evolves, HomesIn, Pending, Stamped, LongStamped, ShutDown, ShortWrite, Repolled, W.ShortStamp,
           W.LongStamp, WithEvents, ShutType;
      ghost var before := Now();
      EvolvesRefl(before, frozen, pinned);
      OwnedFacts(before, k);
      var s := mem.owner[k];
      var time: nat, sent: int := *, *;
      if op == 0 && time < W.UINT32 {
        TimedEvolves(before, s, time, frozen, pinned);
        SetTimeout(s, time);
      } else if op == 1 && time < W.UINT32 {
        TimedEvolves(before, s, time, frozen, pinned);
        SetLongTimeout(s, time);
      } else if op == 2 && !IsListening(s) {
        ShuttingEvolves(before, s, frozen, pinned);
        Shutdown(s);
      } else if op >= 3 && -1 <= sent <= time && (IsClosed(s) || Kind(mem.pollType[s]) != POLL_TYPE_SEMI_SOCKET)
          && (mem.lowPrio[s] == 1 ==> sent == time) {
        WritingEvolves(before, s, frozen, pinned);
        var written: nat;
        if op == 3 {
          written := Write(s, time, sent);
        } else {
          written := Write2(s, time, sent);
        }
      }
    }

    /** Closing socket `k`. */
    method End(k: int, op: nat, fuel: nat, frozen: set<Addr>, pinned: set<int>)
      requires Valid() && Settled(Now()) && SweepShows() && k in mem.owner
      modifies `mem, `story, ready
      ensures Valid() && Settled(Now()) && Evolves(old(Now()), Now(), frozen, pinned)
      decreases fuel, 3
    {
      hide Inv, Evolves, HomesIn, Pending, Closing, Noted;
      ghost var before := Now();
      EvolvesRefl(before, frozen, pinned);
      OwnedFacts(before, k);
      var s := mem.owner[k];
      if mem.context[s] in frozen && mem.lowPrio[s] != 1 {
        return;
      }
      if before.g.place[s] != Closed { ClosingEvolves(before, s, frozen, pinned); }
      if op == 5 && !IsListening(s) {
        var n := Close(s, fuel, frozen, pinned);
        if before.g.place[s] != Closed { CloseEvolves(before, s, Now(), n, frozen, pinned); }
      } else if op == 6 && !IsListening(s) && Kind(mem.pollType[s]) == POLL_TYPE_SEMI_SOCKET && mem.lowPrio[s] != 1 {
        CloseConnecting(s);
      } else if op == 7 && (IsListening(s) || IsClosed(s)) {
        CloseListen(s);
      }
    }

    /** Moving socket `k` to context `c`. */
    method Move(k: int, c: Addr, frozen: set<Addr>, pinned: set<int>)
      requires Valid() && Settled(Now()) && k in mem.owner
      modifies `mem, `story, ready
      ensures Valid() && Settled(Now()) && Evolves(old(Now()), Now(), frozen, pinned)
    {
      hide Inv, Evolves, HomesIn, Pending, Adopting;
      ghost var before := Now();
      EvolvesRefl(before, frozen, pinned);
      OwnedFacts(before, k);
      var s := mem.owner[k];
      if c in mem.ctxs && c !in frozen && (mem.context[s] !in frozen || mem.lowPrio[s] == 1) && k !in pinned
          && !IsListening(s) {
        var n := Adopt(c, s);
        if before.g.place[s] != Closed { AdoptingEvolves(before, c, s, n, frozen, pinned); }
      }
    }

    /** Opening sockets in context `c`, closing or freeing it, and creating contexts. */
    method Host(c: Addr, op: nat, fuel: nat, frozen: set<Addr>, pinned: set<int>)
      requires Valid() && Settled(Now()) && SweepShows()
      modifies `mem, `story, ready
      ensures Valid() && Settled(Now()) && Evolves(old(Now()), Now(), frozen, pinned)
      decreases fuel, 3
    {
      hide Inv, Evolves, HomesIn, Pending, Opening, ContextCreated, ContextFreed, HandlerRan, KindFits, Drained,
           OnlyDrained;
      ghost var before := Now();
      EvolvesRefl(before, frozen, pinned);
      var f: int := *;
      if c !in mem.ctxs {
        var n := CreateContext();
        ContextCreatedEvolves(before, n, frozen, pinned);
      } else if c in frozen {
        return;
      } else if op == 0 && f !in mem.kernel {
        var s := Connect(c, f);
        if f != -1 { OpeningEvolves(before, s, c, f, SEMI_WRITABLE, Linked(c), frozen, pinned); }
      } else if op == 1 && f !in mem.kernel {
        var s := Listen(c, f);
        if f != -1 { OpeningEvolves(before, s, c, f, SEMI_READABLE, Listening(c), frozen, pinned); }
      } else if op == 2 && f !in mem.kernel {
        var s := AdoptAccepted(c, f, fuel, frozen, pinned);
        AcceptEvolves(before, s, c, f, Now(), frozen, pinned);
      } else if op == 3 {
        CloseContext(c, fuel, frozen, pinned);
      } else if op == 4 && cursor == NULL && forall s | s in mem.context :: mem.context[s] != c {
        ContextFreedEvolves(before, c, frozen, pinned);
        FreeContext(c);
      }
    }

    // ---- The timer sweep

    /** us_internal_timer_sweep: one walk over each context there is when it starts. */
    method TimerSweep(fuel: nat) returns (ghost passes: seq<Pass>)
      requires Valid() && Settled(Now()) && story.walk.NoWalk?
      requires forall c | c in mem.tick :: mem.tick[c] + 1 < W.UINT32
      modifies `mem, `story, `cursor, ready
      ensures Valid() && Settled(Now()) && story.walk.NoWalk? && cursor == NULL
      ensures AllTicked(old(Now()), Now(), []) && SweptAll(old(Now()), Now(), passes)
      ensures forall c | c in mem.walker :: mem.walker[c] == NULL
    {
      hide Inv, HomesIn, Pending, Ticked, Settled, AllTicked, Without, At, Rounded, PassesMade, AfterPasses;
      ghost var start, todo := Now(), story.contexts;
      AllStart(start);
      NoPasses(start);
      passes := [];
      cursor := mem.ctxHead;
      while cursor != NULL
        invariant Valid() && Settled(Now()) && story.walk.NoWalk?
        invariant AllTicked(start, Now(), todo) && cursor == At(todo, 0)
        invariant PassesMade(start, passes) && Now() == AfterPasses(start, passes)
        invariant |passes| <= |start.g.contexts| && todo == start.g.contexts[|passes|..]
        decreases |todo|
      {
        ghost var before := Now();
        RoundStep(start, before, todo);
        ghost var seen, lost := SweepContext(cursor, fuel);
        RoundTicked(start, before, Now(), todo);
        ghost var p := Pass(todo[0], before, Now(), seen, lost);
        OneMorePass(start, passes, p);
        passes := passes + [p];
        cursor := mem.ctxNext[cursor];
        todo := todo[1..];
      }
      AllEnd(start, Now(), todo);
    }

    /** us_internal_timer_sweep for one context. By the journal, every socket that is on the list when the walk starts
        is looked at once (`seen`), in list order, unless it was unlinked before that (`lost`); no other socket is. As
        long as handlers do nothing, exactly those due are called and nothing else happens. */
    method SweepContext(c: Addr, fuel: nat) returns (ghost seen: seq<Addr>, ghost lost: set<Addr>)
      requires Valid() && Settled(Now()) && CanStartWalk(Now(), c) && cursor != NULL
      modifies `mem, `story, ready
      ensures Valid() && Settled(Now()) && story.walk.NoWalk? && c in mem.walker && mem.walker[c] == NULL
      ensures c in old(mem.tick) && Linked(c) in old(story.rolls) && seen == Without(old(story.rolls[Linked(c)]), lost)
      ensures Rounded(RoundOf(old(Now()), c), seen, lost, [], story.log, mem.id)
      ensures fuel == 0 ==> lost == {} && story.log == RoundOf(old(Now()), c).from + Rung(Tick(old(mem), c), c, seen)
      ensures Ticked(old(Now()), Now(), c)
    {
      hide Inv, HomesIn, Pending, Ticked, Seeking, Without, Settled, Imagined, WalkStarted, Progress, At, NoDup, Rung,
           Rounded;
      ghost var start := Now();
      SweepStarts(start, c);
      WalkStartedLog(start, c);
      ghost var r := RoundOf(start, c);
      RoundStarts(start, c);
      mem := mem.(tick := mem.tick[c := mem.tick[c] + 1]);
      mem := mem.(timestamp := mem.timestamp[c := mem.tick[c] % W.SLOTS],
          longTimestamp := mem.longTimestamp[c := mem.tick[c] / 15 % W.SLOTS]);
      story := WalkStarted(start, c).g;
      ghost var l := Ahead(story.walk);
      seen, lost := WalkList(c, mem.heads[Linked(c)], fuel, start, l, r);
      SweepEnds(start, Now(), c, l, seen, lost);
      RoundEnds(start, Now(), c, r, seen, lost);
      ImaginedIs(Now().(g := story.(walk := NoWalk)), c, NULL);
      mem := mem.(walker := mem.walker[c := NULL]);
      story := story.(walk := NoWalk);
    }

    /** The walk from the first socket of the list on. */
    method WalkList(c: Addr, first: Addr, fuel: nat, ghost start: State, ghost l: seq<Addr>, ghost r: Round)
      returns (ghost seen: seq<Addr>, ghost lost: set<Addr>)
      requires currentReady <= numReady <= ready.Length && cursor != NULL && RoundFrom(r, start, c)
      requires Seeking(start, Imagined(Now(), c, first), c, first) && Progress(l, [], {}, Ahead(story.walk))
      requires Rounded(r, [], {}, Ahead(story.walk), story.log, mem.id)
      modifies `mem, `story, ready
      ensures Seeking(start, Imagined(Now(), c, NULL), c, NULL) && Progress(l, seen, lost, Ahead(story.walk))
      ensures Rounded(r, seen, lost, Ahead(story.walk), story.log, mem.id)
      ensures fuel == 0 ==> lost == {} && Quiet(old(mem), old(story.log), mem, story.log, c, seen, Ahead(story.walk))
    {
      hide Inv, HomesIn, Pending, Ticked, Seeking, Without, Settled, Imagined, Progress, CanExamine, At, NoDup, Due;
      hide Quiet, RungBy, Rung, AsDue, IsSuffix, Rounded, Tended, RoundFrom;
      var s := first;
      seen, lost := [], {};
      QuietFirst(mem, story.log, c, Ahead(story.walk));
      while s != NULL
        invariant currentReady <= numReady <= ready.Length
        invariant Seeking(start, Imagined(Now(), c, s), c, s) && Progress(l, seen, lost, Ahead(story.walk))
        invariant Rounded(r, seen, lost, Ahead(story.walk), story.log, mem.id)
        invariant fuel == 0 ==> lost == {} && Quiet(old(mem), old(story.log), mem, story.log, c, seen,
                  Ahead(story.walk))
        decreases |Ahead(story.walk)|
      {
        ghost var before := Now();
        SeekFacts(start, Now(), c, s);
        ghost var passed;
        s, passed := Seek(c, s, start, r, seen, lost);
        SeekFacts(start, Now(), c, s);
        SoughtOn(l, seen, lost, Ahead(before.g.walk), passed, Ahead(story.walk));
        if fuel == 0 { QuietPassed(old(mem), old(story.log), before, Now(), c, seen, passed); }
        seen := seen + passed;
        if s != NULL {
          ghost var found, dropped := Now(), {};
          s, dropped := Examine(c, s, fuel, start, r);
          ExaminedOn(l, r, start, seen, lost, found, Now(), c, s, dropped);
          if fuel == 0 { QuietExamined(old(mem), old(story.log), found.m, found.g.log, mem, story.log, c, seen,
              Ahead(found.g.walk), Ahead(story.walk)); }
          seen, lost := seen + [Ahead(found.g.walk)[0]], lost + Among(Ahead(found.g.walk)[1..], dropped);
        }
      }
    }

    /** The tight loop of the walk: on to the next socket with a matching stamp, if any. */
    method Seek(c: Addr, from: Addr, ghost start: State, ghost r: Round, ghost seen: seq<Addr>, ghost lost: set<Addr>)
      returns (s: Addr, ghost passed: seq<Addr>)
      requires Seeking(start, Imagined(Now(), c, from), c, from) && RoundFrom(r, start, c)
      requires Rounded(r, seen, lost, Ahead(story.walk), story.log, mem.id)
      modifies `story
      ensures Seeking(start, Imagined(Now(), c, s), c, s)
      ensures passed + Ahead(story.walk) == old(Ahead(story.walk))
      ensures Rounded(r, seen + passed, lost, Ahead(story.walk), story.log, mem.id)
      ensures story.log == old(story.log) + Rung(mem, c, passed)
      ensures s != NULL ==> Ahead(story.walk) != [] && Due(Now(), c, s) && Ahead(story.walk)[0] == s
    {
      hide Inv, HomesIn, Pending, Ticked, Seeking, Imagined, Skipped, Settled, CanExamine, At, IsSuffix, RungBy, Rung,
           Rounded, RoundFrom;
      s, passed := from, [];
      ghost var l := Ahead(story.walk);
      SeekFacts(start, Now(), c, s);
      AsDueSelf(mem, c, []);
      assert seen + [] == seen;
      while s != NULL && mem.timestamp[c] != mem.timeout[s] && mem.longTimestamp[c] != mem.longTimeout[s]
        invariant Seeking(start, Imagined(Now(), c, s), c, s) && passed + Ahead(story.walk) == l
        invariant Rounded(r, seen + passed, lost, Ahead(story.walk), story.log, mem.id)
        invariant story.log == old(story.log) + Rung(mem, c, passed)
        invariant c in mem.timestamp && c in mem.longTimestamp
        invariant s != NULL ==> Timed(Now(), c, s) && Ahead(story.walk) != [] && Ahead(story.walk)[0] == s
        decreases |Ahead(story.walk)|
      {
        ghost var before := Now();
        SkipFacts(start, before, c, s, r, seen + passed, lost);
        story := Skipped(Imagined(before, c, s)).g;
        SoughtOne(old(story.log), before, c, s, passed, Ahead(story.walk), story.log);
        assert Ahead(before.g.walk) == [s] + Ahead(story.walk) && seen + passed + [s] == seen + (passed + [s]);
        passed := passed + [s];
        s := mem.next[s];
        SeekFacts(start, Now(), c, s);
      }
    }

    /** The slow path of the walk: calls the handlers of `s`, and finds where to go on. */
    method Examine(c: Addr, s: Addr, fuel: nat, ghost start: State, ghost r: Round)
                   returns (n: Addr, ghost dropped: set<Addr>)
      requires Seeking(start, Imagined(Now(), c, s), c, s) && s != NULL && Ahead(story.walk) != [] && cursor != NULL
      requires currentReady <= numReady <= ready.Length && RoundFrom(r, start, c)
      modifies `mem, `story, ready
      ensures currentReady <= numReady <= ready.Length
      ensures Seeking(start, Imagined(Now(), c, n), c, n)
      ensures Ahead(story.walk) == Without(old(Ahead(story.walk))[1..], dropped)
      ensures s in old(mem.id) && Tended(r, old(mem.id[s]), old(story.log), old(Ahead(story.walk))[1..], old(mem.id),
              Now())
      ensures fuel == 0 ==> dropped == {} && story.log == old(story.log) + RungBy(old(mem), c, s)
      ensures fuel == 0 ==> AsDue(old(mem), mem, c, Ahead(story.walk))
    {
      hide Inv, HomesIn, Pending, Ticked, Seeking, Handling, Without, Settled, CanExamine, Advanced, At, CanLookLong,
           RungBy, AsDue, Tended, RoundFrom;
      ghost var rest, log, names := Ahead(story.walk)[1..], story.log, mem.id;
      SeekFacts(start, Now(), c, s);
      mem := mem.(walker := mem.walker[c := s]);
      SeekingValid(start, Now(), c, s);
      ExaminedQuietly(start, old(mem), Now(), c, s);
      ExamineShort(c, s, fuel, start, r);
      WalkerFacts(start, Now(), c, s, rest);
      if mem.walker[c] == s {
        ExamineLong(c, s, fuel, start, rest, r, names[s], log, names);
        WalkerFacts(start, Now(), c, s, rest);
      }
      if s == mem.walker[c] {
        n := mem.next[s];
      } else {
        n := mem.walker[c];
      }
      dropped := Lost(story.walk);
      AdvanceFacts(start, Now(), c, s, rest);
      TendedAdvanced(r, names[s], log, rest, names, Now());
      story := Advanced(Now()).g;
    }

    method ExamineShort(c: Addr, s: Addr, fuel: nat, ghost start: State, ghost r: Round)
      requires Valid() && Seeking(start, Now(), c, s) && s != NULL && Ahead(story.walk) != [] && cursor != NULL
               && RoundFrom(r, start, c)
      modifies `mem, `story, ready
      ensures Valid() && Handling(start, Now(), c, s, old(Ahead(story.walk))[1..])
              && (OnCur(story.walk) ==> CanLookLong(Now()))
      ensures !OnCur(story.walk) ==> CanAdvance(Now())
      ensures s in old(mem.id) && Tended(r, old(mem.id[s]), old(story.log), old(Ahead(story.walk))[1..], old(mem.id),
              Now())
      ensures fuel == 0 ==> Lost(story.walk) == {} && Now() == Reached(old(Now()))
    {
      hide Inv, HomesIn, Pending, Ticked, Seeking, Handling, Reached, Evolves, Settled, Tended, RoundFrom;
      ghost var st, st' := Now(), Reached(Now());
      ghost var rest := Ahead(story.walk)[1..];
      ReachedFacts(start, st, c, s);
      TendedReached(r, start, st, c, s);
      if mem.timestamp[c] == mem.timeout[s] {
        ReachedNoted(start, st, c, s);
        mem := mem.(timeout := mem.timeout[s := W.NEVER]);
        story := st'.g.(log := story.log + [Seen(ShortTimer, mem.id[s], c, mem.tick[c])]);
        Emit(OnTimeout, mem.id[s], fuel, {}, {});
        HandlingEvolves(start, st', Now(), c, s, rest);
        HandlingTended(r, st.m.id[s], st.g.log, rest, st.m.id, start, st', Now(), c, s);
      } else {
        story := st'.g;
      }
    }

    method ExamineLong(c: Addr, s: Addr, fuel: nat, ghost start: State, ghost rest: seq<Addr>,
                       ghost r: Round, ghost k: int, ghost log: Log, ghost names: map<Addr, int>)
      requires Valid() && Handling(start, Now(), c, s, rest) && CanLookLong(Now()) && cursor != NULL
               && RoundFrom(r, start, c)
      requires Tended(r, k, log, rest, names, Now())
      modifies `mem, `story, ready
      ensures Valid() && Handling(start, Now(), c, s, rest) && CanAdvance(Now())
      ensures Tended(r, k, log, rest, names, Now())
      ensures fuel == 0 ==> Lost(story.walk) == old(Lost(story.walk)) && Now() == LongLooked(old(Now()))
    {
      hide Inv, HomesIn, Pending, Ticked, Seeking, Handling, LongLooked, Evolves, Settled, CanLookLong, CanAdvance,
           Tended, RoundFrom;
      ghost var st, st' := Now(), LongLooked(Now());
      LongLookedFacts(start, st, c, s, rest);
      TendedLong(r, k, log, names, start, st, c, s, rest);
      if mem.longTimestamp[c] == mem.longTimeout[s] {
        LongNoted(start, st, c, s, rest);
        mem := mem.(longTimeout := mem.longTimeout[s := W.NEVER]);
        story := st'.g.(log := story.log + [Seen(LongTimer, mem.id[s], c, mem.tick[c])]);
        Emit(OnLongTimeout, mem.id[s], fuel, {}, {});
        HandlingEvolves(start, st', Now(), c, s, rest);
        HandlingTended(r, k, log, rest, names, start, st', Now(), c, s);
      } else {
        story := st'.g;
      }
    }

    // ---- Before and after the dispatching of a batch

    /** us_internal_handle_low_priority_sockets: the first five sockets of the queue go back to their contexts. */
    method HandleLowPriority()
      requires Valid() && Settled(Now()) && story.lowReads + |story.delayed| + 5 <= 5 * mem.iterationNr
      modifies `mem, `story
      ensures Valid() && Settled(Now()) && Queued in old(story.rolls)
      ensures var n := if |old(story.rolls[Queued])| < 5 then |old(story.rolls[Queued])| else 5;
              mem.budget == 5 - n && LetBackIn(old(Now()), Now(), n)
    {
      hide Inv, LetIn, LetBackIn, At, HomesIn, Pending;
      ghost var start := Now();
      BudgetKeeps(Now());
      mem := mem.(budget := 5);
      ghost var n: nat := 0;
      QueueFacts(start, Now(), 0);
      var s := mem.heads[Queued];
      while s != NULL && mem.budget > 0
        decreases mem.budget
        invariant Valid() && Settled(Now()) && mem.budget == 5 - n && n <= 5
        invariant Queued in mem.heads && s == mem.heads[Queued]
        invariant LetBackIn(start, Now(), n)
        invariant n <= |start.g.rolls[Queued]| && (s == NULL ==> n == |start.g.rolls[Queued]|)
      {
        LetInFacts(start, Now(), s, n);
        LetSocketIn(s);
        n := n + 1;
        QueueFacts(start, Now(), n);
        s := mem.heads[Queued];
      }
    }

    method PopFirst(s: Addr)
      requires s in mem.next
      modifies `mem
      ensures mem == MemPopped(old(mem), s)
    {
      mem := mem.(heads := mem.heads[Queued := mem.next[s]]);
      if mem.next[s] != NULL {
        mem := mem.(prev := mem.prev[mem.next[s] := NULL]);
      }
      mem := mem.(next := mem.next[s := NULL]);
    }

    method PutBack(s: Addr, c: Addr)
      requires Linked(c) in mem.heads && (mem.heads[Linked(c)] != NULL ==> mem.heads[Linked(c)] in mem.prev)
      requires s in mem.pollType && s in mem.fd && mem.fd[s] in mem.kernel
      requires mem.kernel[mem.fd[s]] == Registration(Events(mem.pollType[s]), s)
      modifies `mem
      ensures mem == MemLetIn(old(mem), s, c)
    {
      hide Events, WithEvents, PushPrev, PushNext;
      var prev, next, head := LinkPointers(mem.prev, mem.next, mem.heads[Linked(c)], s);
      mem := mem.(context := mem.context[s := c], prev := prev, next := next, heads := mem.heads[Linked(c) := head]);
      ChangePoll(s, Events(mem.pollType[s]).(readable := true));
      mem := mem.(lowPrio := mem.lowPrio[s := 2]);
      mem := mem.(budget := mem.budget - 1);
    }

    /** One socket leaves the low-priority queue for its context, to read once. */
    method LetSocketIn(s: Addr)
      requires Valid() && Settled(Now()) && PlaceOf(Now(), s) == Queued && mem.budget > 0
      requires Queued in mem.heads && mem.heads[Queued] == s
      modifies `mem, `story
      ensures Valid() && Settled(Now()) && Now() == LetIn(old(Now()), s)
    {
      hide Inv, Settled, LetIn, HomesIn, Pending, Events, WithEvents, MemLetIn;
      ghost var st := Now();
      LetInKeeps(st, s);
      LetInMem(st, s);
      PopFirst(s);
      PutBack(s, mem.context[s]);
      story := LetIn(st, s).g;
    }

    /** us_internal_free_closed_sockets and us_poll_free: every block on the close list is freed, and nothing refers to
        it. */
    method FreeClosed()
      requires Valid() && Settled(Now())
      modifies `mem, `story
      ensures Valid() && Settled(Now()) && Now() == Freed(old(Now()))
      ensures (forall s | s in story.place :: story.place[s] != Closed) && ShutIds(story.log) == ReleasedIds(story.log)
      ensures SparesOpen(old(Now()), Now())
    {
      hide Inv, HomesIn, Pending, MemFreed, MemFreedOne, Freed, NoDup, SparesOpen;
      ghost var st := Now();
      FreeStarts(st);
      ghost var l := st.g.rolls[Closed];
      if mem.heads[Closed] != NULL {
        var s := mem.heads[Closed];
        ghost var i: nat := 0;
        while s != NULL
          invariant i <= |l| && s == At(l, i) && mem == MemFreed(st.m, Elements(l[..i]))
          decreases |l| - i
        {
          FreeStep(st, l, i);
          var next := mem.next[s];
          FreeBlock(s);
          s := next;
          i := i + 1;
        }
        FreeEnds(st, i);
        mem := mem.(heads := mem.heads[Closed := NULL]);
      } else {
        FreeEnds(st, 0);
      }
      FreedKeeps(st);
      FreedSettled(st);
      story := Freed(st).g;
      AllReleased(Now());
    }

    /** us_poll_free, after which the application has no pointer to the socket either. */
    method FreeBlock(s: Addr)
      requires s in mem.id
      modifies `mem
      ensures mem == MemFreedOne(old(mem), s)
    {
      mem := mem.(numPolls := mem.numPolls - 1);
      mem := mem.(owner := mem.owner - {mem.id[s]});
      mem := mem.(heap := mem.heap - {s}, fd := mem.fd - {s}, pollType := mem.pollType - {s},
          timeout := mem.timeout - {s},
                  longTimeout := mem.longTimeout - {s}, lowPrio := mem.lowPrio - {s}, context := mem.context - {s},
                  prev := mem.prev - {s}, next := mem.next - {s}, id := mem.id - {s});
    }

    /** us_internal_loop_pre */
    method LoopPre(fuel: nat) returns (ghost granted: State)
      requires Valid() && Settled(Now()) && story.walk.NoWalk?
      modifies `mem, `story, ready
      ensures Valid() && Settled(Now()) && Continues(old(Now()), Now())
      ensures Preceded(old(Now()), granted) && Evolves(granted, Now(), {}, {})
    {
      hide Inv, HomesIn, Pending, Evolves, LetBackIn;
      ghost var st := Now();
      RoomNext(st);
      mem := mem.(iterationNr := mem.iterationNr + 1);
      ghost var next := Now();
      HandleLowPriority();
      granted := Now();
      LetBackContinues(next, granted, 5 - mem.budget);
      Act(fuel, {}, {});
      EvolvesContinues(granted, Now());
      ContinuesTrans(st, granted, Now());
    }

    /** us_internal_loop_post: whatever was closed before has been released after it. */
    method LoopPost(fuel: nat)
      requires Valid() && Settled(Now()) && story.walk.NoWalk?
      modifies `mem, `story, ready
      ensures Valid() && Settled(Now()) && Continues(old(Now()), Now())
      ensures Evolves(Freed(old(Now())), Now(), {}, {}) && ShutIds(old(story.log)) <= ReleasedIds(story.log)
    {
      hide Inv, HomesIn, Pending, Evolves, Freed;
      ghost var st := Now();
      FreeClosed();
      FreedContinues(st);
      ghost var before := Now();
      IdsGrow(before, st.g.log);
      Act(fuel, {}, {});
      EvolvesContinues(before, Now());
      ContinuesTrans(st, before, Now());
      IdsGrow(Now(), before.g.log);
    }

    // ---- Dispatching one ready poll (us_internal_dispatch_ready_poll)

    /** A connecting socket: it failed, or it is now open. The handler told of a failure may not adopt the socket. */
    method DispatchConnecting(s: Addr, error: bool, fuel: nat) returns (ghost mid: State, ghost n: Addr)
      requires Valid() && Settled(Now()) && story.walk.NoWalk? && Connecting(Now(), s)
      modifies `mem, `story, ready
      ensures Valid() && Settled(Now()) && Evolves(old(Now()), Now(), {}, {})
      ensures ConnectingServed(old(Now()), s, error, Now(), mid, n)
      ensures !error ==> Connected(old(Now()), Opened(old(Now()), s), s)
    {
      hide Inv, HomesIn, Pending, Evolves, Closing, Opened, Kind, Events, ClosedNow, Connected;
      ghost var st := Now();
      ConnectingFacts(st, s);
      if error {
        var k := mem.id[s];
        n := Call(OnConnectError, k, fuel, {}, {k});
        mid := Now();
        ConnectErrorFacts(st, s, Now(), n);
        CloseConnecting(s);
      } else {
        mid := Now();
        n := Establish(s, fuel);
      }
    }

    /** A connecting socket is now open. */
    method Establish(s: Addr, fuel: nat) returns (ghost n: Addr)
      requires Valid() && Settled(Now()) && story.walk.NoWalk? && Connecting(Now(), s)
      modifies `mem, `story, ready
      ensures Valid() && Settled(Now()) && Evolves(old(Now()), Now(), {}, {})
      ensures s in old(mem.id)
      ensures Connected(old(Now()), Opened(old(Now()), s), s)
      ensures HandlerRan(Opened(old(Now()), s), OnOpen, old(mem.id[s]), Now(), n, {}, {})
    {
      hide Inv, HomesIn, Pending, Evolves, Kind, Events, WithEvents, WithKind, Stamped, Reopened, Connected;
      ghost var st := Now();
      ConnectingFacts(st, s);
      var k := mem.id[s];
      ReopenedFacts(st, s);
      ChangePoll(s, READABLE);
      mem := mem.(pollType := mem.pollType[s := WithKind(mem.pollType[s], POLL_TYPE_SOCKET)]);
      assert Now() == Reopened(st, s);
      SetTimeout(s, 0);
      OpenedFacts(st, s);
      OpenedConnected(st, s);
      n := Call(OnOpen, k, fuel, {}, {});
      HandlerEvolves(Opened(st, s), OnOpen, k, Now(), n, {}, {});
      EvolvesTrans(st, Opened(st, s), Now(), {}, {});
    }

    /** A listening socket: accepts those `waiting`, unless the listen socket is found closed after `on_open`.
        `on_pre_open` is user code as well, and may keep the descriptor for itself. */
    method DispatchListening(ls: Addr, waiting: nat, fuel: nat) returns (ghost turns: seq<Turn>)
      requires Valid() && Settled(Now()) && story.walk.NoWalk? && ls in story.place && story.place[ls].Listening?
      modifies `mem, `story, ready
      ensures Valid() && Settled(Now()) && Evolves(old(Now()), Now(), {}, {})
      ensures AcceptedAll(old(Now()), ls, waiting, Now(), turns)
    {
      hide Inv, HomesIn, Pending, Evolves, Opening, KindFits, HandlerRan, Listens, Taken, NoneStopped, LastOf,
           AcceptedAll;
      ghost var start := Now();
      ListensFirst(start, ls);
      ghost var k := mem.id[ls];
      EvolvesRefl(start, {}, {});
      NoTurns(start, ls);
      turns := [];
      var left := waiting;
      while left > 0
        invariant Valid() && Settled(Now()) && Evolves(start, Now(), {}, {}) && story.walk.NoWalk?
                  && Listens(Now(), k, ls)
        invariant Taken(start, ls, turns) && NoneStopped(turns, ls) && Now() == LastOf(start, turns)
                  && |turns| == waiting - left
        decreases left
      {
        var closed: bool;
        ghost var t;
        closed, t := AcceptTurn(fuel, k, ls, start);
        TakenMore(start, ls, turns, t);
        if closed {
          StoppedIs(start, ls, waiting, Now(), turns, t);
          turns := turns + [t];
          return;
        }
        turns := turns + [t];
        left := left - 1;
      }
      AcceptedIs(start, ls, waiting, Now(), turns);
    }

    /** The body of the accept loop. */
    method AcceptTurn(fuel: nat, ghost k: int, ls: Addr, ghost start: State) returns (closed: bool, ghost t: Turn)
      requires Valid() && Settled(Now()) && Evolves(start, Now(), {}, {}) && story.walk.NoWalk? && Listens(Now(), k, ls)
      modifies `mem, `story, ready
      ensures Valid() && Settled(Now()) && Evolves(start, Now(), {}, {}) && story.walk.NoWalk? && Listens(Now(), k, ls)
      ensures t.before == old(Now()) && t.after == Now() && TurnTaken(t, ls) && (closed <==> Stopped(t, ls))
    {
      hide Inv, HomesIn, Pending, Evolves, Opening, Openable, KindFits, HandlerRan, Listens, Arrived;
      ghost var before := Now();
      var exported := PreOpen(fuel, k, ls, start);
      ghost var mid := Now();
      closed := false;
      t := Turn(before, mid, exported, 0, NULL, mid);
      if !exported {
        var client, s := AcceptOne(fuel, k, ls, start);
        closed := IsClosed(ls);
        ListenerClosed(Now(), k, ls);
        t := Turn(before, mid, false, client, s, Now());
      }
    }

    /** `on_pre_open`, which may be unset. */
    method PreOpen(fuel: nat, ghost k: int, ghost ls: Addr, ghost start: State) returns (exported: bool)
      requires Valid() && Settled(Now()) && Evolves(start, Now(), {}, {}) && story.walk.NoWalk? && Listens(Now(), k, ls)
      modifies `mem, `story, ready
      ensures Valid() && Settled(Now()) && Evolves(start, Now(), {}, {}) && story.walk.NoWalk? && Listens(Now(), k, ls)
      ensures Evolves(old(Now()), Now(), {}, {})
    {
      hide Inv, HomesIn, Pending, Evolves, Listens;
      ghost var before := Now();
      EvolvesRefl(before, {}, {});
      var set_: bool := *;
      exported := false;
      if set_ {
        Act(fuel, {}, {});
        exported := *;
        ListenerStays(start, before, Now(), k, ls);
      }
    }

    /** One accepted descriptor: not one that is registered already. */
    method AcceptOne(fuel: nat, ghost k: int, ls: Addr, ghost start: State) returns (client: int, s: Addr)
      requires Valid() && Settled(Now()) && Evolves(start, Now(), {}, {}) && story.walk.NoWalk? && Listens(Now(), k, ls)
      modifies `mem, `story, ready
      ensures Valid() && Settled(Now()) && Evolves(start, Now(), {}, {}) && story.walk.NoWalk? && Listens(Now(), k, ls)
      ensures ls in mem.prev && ls in mem.context && ls in old(mem.context)
      ensures var st, c := old(Now()), old(mem.context[ls]);
              var arrival := Opening(st, s, c, client, OPEN_READABLE, Linked(c));
              && Openable(st, s, c, client, OPEN_READABLE, Linked(c))
              && Arrived(st, arrival, s, client, Linked(c), POLL_TYPE_SOCKET, READABLE)
              && exists n :: HandlerRan(arrival, OnOpen, st.m.nextId, Now(), n, {}, {})
    {
      hide Inv, HomesIn, Pending, Evolves, Opening, Openable, KindFits, HandlerRan, Listens, Arrived;
      ghost var before := Now();
      ListenerFacts(before, k, ls);
      client := *;
      if client in mem.kernel {
        client := LowestFree(mem.kernel.Keys);
      }
      s := AdoptAccepted(mem.context[ls], client, fuel, {}, {});
      AcceptEvolves(before, s, before.m.context[ls], client, Now(), {}, {});
      ListenerStays(start, before, Now(), k, ls);
      ListenerFacts(Now(), k, ls);
    }

    /** A writable event on an open socket: any short write of it is answered, and it stops polling for writable
        unless a write fell short meanwhile. */
    method DispatchWritable(s: Addr, fuel: nat) returns (n: Addr, ghost mid: State)
      requires Valid() && Settled(Now()) && story.walk.NoWalk? && Dispatchable(Now(), s)
      modifies `mem, `story, ready
      ensures Valid() && Settled(Now()) && Evolves(Answered(old(Now()), s), Now(), {}, {})
      ensures Evolves(Answered(old(Now()), s), mid, {}, {}) && WritableDone(mid, n, Now())
      ensures Persists(old(Now()), Now(), s, n)
      ensures WritableKept(old(Now()), mid, Now(), n)
    {
      hide Inv, HomesIn, Pending, Evolves, Kind, Events, WithEvents, KindFits, Repolled, Persists, Answered,
           WritableKept;
      ghost var st := Now();
      AnsweredFacts(st, s);
      var k := mem.id[s];
      mem := mem.(lastWriteFailed := false);
      story := Answered(st, s).g.(log := story.log);
      assert Noted(Now(), OnWritable, k) == Answered(st, s) by { AnsweredNoted(st, s); }
      Emit(OnWritable, k, fuel, {}, {});
      mid := Now();
      Remembered(Answered(st, s), mid, k, {}, {});
      n := mem.owner[k];
      AnsweredPersists(st, s, mid, n);
      if !IsClosed(n) && (!mem.lastWriteFailed || IsShutDown(n)) {
        NarrowedFacts(st, s, mid, n);
        ChangePoll(n, Events(mem.pollType[n]).Only(READABLE));
      }
      WritableEnds(st, s, mid, Now(), n);
    }

    /** A readable event on an open socket. One of low priority is held back once the budget is spent, unless it was
        held back before and has come back for this one read. */
    method DispatchReadable(s: Addr, lowPriority: bool, full: nat, length: int, wouldBlock: bool, fuel: nat)
                            returns (ghost end: Addr, ghost got: Reads)
      requires Valid() && Settled(Now()) && story.walk.NoWalk? && Dispatchable(Now(), s) && story.place[s].Linked?
      modifies `mem, `story, ready
      ensures Valid() && Settled(Now()) && s in old(mem.lowPrio)
      ensures var st := old(Now());
              if lowPriority && st.m.lowPrio[s] != 2 && st.m.budget <= 0 then
                Now() == HeldBack(st, s) && SetAside(st, Now(), s)
              else
                var paid := Admitted(st, s, lowPriority);
                && ReadPaid(st, paid, s, lowPriority) && Evolves(paid, Now(), {}, {})
                && ReadAll(paid, s, full, length, wouldBlock, Now(), end, got)
                && (GotData(full, length) ==> Next(st.g.log, story.log, Called(OnData, st.m.id[s])))
    {
      hide Inv, HomesIn, Pending, Evolves, Kind, Events, WithEvents, KindFits, Next, GotData, SetAside, ReadAll;
      ghost var st := Now();
      AdmittedFacts(st, s, lowPriority);
      if !(lowPriority && mem.lowPrio[s] != 2 && mem.budget <= 0) { AdmittedPaid(st, s, lowPriority); }
      if lowPriority {
        if mem.lowPrio[s] == 2 {
          mem := mem.(lowPrio := mem.lowPrio[s := 0]);
        } else if mem.budget > 0 {
          mem := mem.(budget := mem.budget - 1);
        } else {
          HoldBack(s);
          end, got := s, Reads([], []);
          return;
        }
      }
      story := Admitted(st, s, lowPriority).g;
      end, got := ReadMore(s, full, length, wouldBlock, fuel);
      if GotData(full, length) {
        DataIsNext(Admitted(st, s, lowPriority), s, full, length, wouldBlock, Now(), end, got);
      }
    }

    /** A socket of low priority stops reading and joins the low-priority queue at the top. */
    method HoldBack(s: Addr)
      requires Valid() && Settled(Now()) && Dispatchable(Now(), s) && story.place[s].Linked? && s in mem.lowPrio
               && mem.lowPrio[s] != 2
      modifies `mem, `story
      ensures Valid() && Settled(Now()) && Now() == HeldBack(old(Now()), s) && SetAside(old(Now()), Now(), s)
    {
      hide Inv, HomesIn, Pending, Kind, Events, WithEvents, KindFits, Repolled, Unthreaded, Joined, Joinable, SetAside;
      ghost var st := Now();
      HeldBackFacts(st, s);
      HeldBackAside(st, s);
      ChangePoll(s, Events(mem.pollType[s]).Only(WRITABLE));
      UnlinkSocket(mem.context[s], s);
      LinkQueued(s);
    }

    /** Reads and hands on what there is to read: `full` full buffers in a row, unless the socket is closed meanwhile,
        and then a last read of `length` bytes. */
    method ReadMore(s: Addr, full: nat, length: int, wouldBlock: bool, fuel: nat)
                    returns (ghost n: Addr, ghost got: Reads)
      requires Valid() && Settled(Now()) && story.walk.NoWalk? && Dispatchable(Now(), s)
      modifies `mem, `story, ready
      ensures Valid() && Settled(Now()) && Evolves(old(Now()), Now(), {}, {})
      ensures ReadAll(old(Now()), s, full, length, wouldBlock, Now(), n, got)
    {
      hide Inv, HomesIn, Pending, Evolves, Kind, Events, WithEvents, KindFits, Persists, Dispatchable, Handed,
           HandedLast, ReadAll, ReadDone;
      ghost var start := Now();
      EvolvesRefl(start, {}, {});
      OpenFacts(start, s);
      PersistsFirst(start, s);
      HandedFirst(start, s);
      got := Reads([start], [s]);
      var k, at, more := mem.id[s], s, full;
      while more > 0
        invariant Valid() && Settled(Now()) && story.walk.NoWalk? && Evolves(start, Now(), {}, {})
                  && Persists(start, Now(), s, at)
        invariant Dispatchable(Now(), at) && !ClosedAt(Now(), at)
        invariant Handed(start, s, got) && HandedLast(got, Now(), at) && |got.states| == full - more + 1
        decreases more
      {
        ghost var before, was := Now(), at;
        OpenFacts(before, at);
        PersistsSame(start, before, s, at);
        at := Call(OnData, k, fuel, {}, {});
        ReadPersists(start, before, Now(), s, at);
        HandedMore(start, s, got, before, was, Now(), at);
        got := Reads(got.states + [Now()], got.at + [at]);
        if IsClosed(at) {
          n := at;
          ReadAllEnds(start, s, full, length, wouldBlock, Now(), n, got, Now(), at);
          return;
        }
        more := more - 1;
      }
      ghost var last := Now();
      n := ReadLast(at, length, wouldBlock, fuel, start);
      ReadAllEnds(start, s, full, length, wouldBlock, Now(), n, got, last, at);
    }

    /** The last read, of `length` bytes: a part of the buffer, the end of the stream, or an error. */
    method ReadLast(s: Addr, length: int, wouldBlock: bool, fuel: nat, ghost start: State) returns (ghost n: Addr)
      requires Valid() && Settled(Now()) && story.walk.NoWalk? && Dispatchable(Now(), s)
               && Evolves(start, Now(), {}, {})
      modifies `mem, `story, ready
      ensures Valid() && Settled(Now()) && Evolves(start, Now(), {}, {})
      ensures ReadDone(old(Now()), s, length, wouldBlock, Now(), n)
    {
      hide Inv, HomesIn, Pending, Evolves, Kind, Events, WithEvents, KindFits, Closing, Repolled;
      ghost var before := Now();
      OpenFacts(before, s);
      if 0 < length < RECV_BUFFER_LENGTH {
        n := Call(OnData, mem.id[s], fuel, {}, {});
        HandlerEvolves(before, OnData, before.m.id[s], Now(), n, {}, {});
      } else if length == 0 {
        if IsShutDown(s) {
          n := Close(s, fuel, {}, {});
          CloseEvolves(before, s, Now(), n, {}, {});
        } else {
          FinFacts(before, s);
          ChangePoll(s, Events(mem.pollType[s]).Only(WRITABLE));
          ghost var ended := Now();
          n := Call(OnEnd, mem.id[s], fuel, {}, {});
          HandlerEvolves(ended, OnEnd, before.m.id[s], Now(), n, {}, {});
          EvolvesTrans(before, ended, Now(), {}, {});
        }
      } else if length == -1 && !wouldBlock {
        n := Close(s, fuel, {}, {});
        CloseEvolves(before, s, Now(), n, {}, {});
      } else {
        n := s;
        EvolvesRefl(before, {}, {});
      }
      EvolvesTrans(start, before, Now(), {}, {});
    }

    /** us_internal_dispatch_ready_poll, for a socket's poll */
    method Dispatch(s: Addr, error: bool, events: Interest, fuel: nat) returns (ghost w: Work)
      requires Valid() && Settled(Now()) && story.walk.NoWalk? && s in story.place && story.place[s] != Closed
      requires s in mem.pollType && events == events.Only(Events(mem.pollType[s]))
      modifies `mem, `story, ready
      ensures Valid() && Settled(Now()) && Continues(old(Now()), Now())
      ensures Served(old(Now()), s, error, events, Now(), w)
    {
      hide Inv, HomesIn, Pending, Evolves, Closing, Continues, Opened, ClosedNow, SocketServed;
      ghost var st := Now();
      KindFacts(st, s);
      w := NoWork(st, s);
      if Kind(mem.pollType[s]) == POLL_TYPE_SEMI_SOCKET {
        if Events(mem.pollType[s]) == WRITABLE {
          ghost var mid, n := DispatchConnecting(s, error, fuel);
          w := w.(mid := mid, n := n);
        } else {
          var waiting: nat := *;
          ghost var turns := DispatchListening(s, waiting, fuel);
          w := w.(waiting := waiting, turns := turns);
        }
        EvolvesContinues(st, Now());
      } else if error {
        var n := Close(s, fuel, {}, {});
        CloseEvolves(st, s, Now(), n, {}, {});
        EvolvesContinues(st, Now());
        w := w.(n := n);
      } else {
        w := DispatchSocket(s, events, fuel);
      }
    }

    /** An established socket that is ready without an error. */
    method DispatchSocket(s: Addr, events: Interest, fuel: nat) returns (ghost w: Work)
      requires Valid() && Settled(Now()) && story.walk.NoWalk? && Dispatchable(Now(), s)
      requires s in mem.pollType && events == events.Only(Events(mem.pollType[s]))
               && (events.readable ==> story.place[s].Linked?)
      modifies `mem, `story, ready
      ensures Valid() && Settled(Now()) && Continues(old(Now()), Now())
      ensures SocketServed(old(Now()), s, events, Now(), w)
    {
      hide Inv, HomesIn, Pending, Evolves, Closing, Continues, Answered, Admitted, HeldBack, ClosedNow, WritableDone,
           ReadAll, ReadPaid, SetAside, WritableKept, Next, Persists;
      ghost var st := Now();
      w := NoWork(st, s);
      var n := s;
      if events.writable {
        ghost var written;
        n, written := DispatchWritable(s, fuel);
        w := w.(written := written, mid := Now(), n := n);
        AnsweredContinues(st, s, Now(), n);
        if IsClosed(n) {
          return;
        }
      } else {
        UntouchedContinues(st, s);
      }
      if events.readable {
        ghost var mid := Now();
        var lowPriority: bool, full: nat, length: int, wouldBlock: bool := *, *, *, *;
        ghost var end, got := DispatchReadable(n, lowPriority, full, length, wouldBlock, fuel);
        w := w.(lowPriority := lowPriority, full := full, length := length, wouldBlock := wouldBlock, end := end,
            got := got);
        ReadContinues(st, mid, n, lowPriority, Now());
      }
    }

    // ---- Running the loop (us_loop_run)

    /** epoll_wait or kevent: any registered polls, none more often than the event library reports it, and the sweep
        timer. */
    method Wait()
      requires Valid()
      modifies `numReady, `currentReady, ready
      ensures Valid() && currentReady == 0
    {
      hide Inv, HomesIn, Count;
      ghost var st := Now();
      BatchNone(st);
      numReady, currentReady := 0, 0;
      var reports: nat := *;
      while reports > 0 && numReady < ready.Length
        invariant Inv(st.(batch := Pending())) && currentReady == 0 && numReady <= ready.Length
        decreases reports
      {
        var f: int, events: Interest, error: bool := *, *, *;
        var r := Ready(if f in mem.kernel then Poll(mem.kernel[f].ptr) else SweepTimer, events, error);
        if r.ptr == SweepTimer || Count(ready[..numReady], r.ptr) < limit {
          BatchMore(st.(batch := Pending()), f, r);
          ghost var batch := Pending();
          ready[numReady] := r;
          numReady := numReady + 1;
          assert Pending() == batch + [r];
        }
        reports := reports - 1;
      }
    }

    /** Dispatches one entry after the other. What an earlier one closes or moves is disabled or redirected in the later
        ones, so each that is dispatched is of a socket that is open, at its current address. */
    method DispatchBatch(fuel: nat) returns (ghost left: seq<State>, ghost works: seq<Work>)
      requires Valid() && Settled(Now()) && story.walk.NoWalk? && currentReady == 0
      modifies `mem, `story, `cursor, `currentReady, ready
      ensures Valid() && Settled(Now()) && Continues(old(Now()), Now()) && currentReady == numReady
      ensures AllServed(old(Now()), left, works) && |left| == |old(Now()).batch| && Now() == After(old(Now()), left)
    {
      hide Inv, HomesIn, AllServed, EntryServed, After;
      ghost var start := Now();
      ContinuesRefl(start);
      NoneServed(start);
      left, works := [], [];
      while currentReady < numReady
        invariant Valid() && Settled(Now()) && story.walk.NoWalk? && Continues(start, Now())
        invariant AllServed(start, left, works) && |left| == currentReady && Now() == After(start, left)
        decreases numReady - currentReady
      {
        ghost var before := Now();
        ghost var w := DispatchEntry(ready[currentReady], fuel);
        ContinuesTrans(start, before, Now());
        OneMoreServed(start, left, works, Now(), w);
        left, works := left + [Now()], works + [w];
        ghost var batch := Pending();
        BatchTail(Now());
        currentReady := currentReady + 1;
        assert Pending() == batch[1..];
      }
    }

    /** The body of the loop over the batch. A clock that would wrap around its 32 bits is taken never to get there. */
    method DispatchEntry(r: Ready, fuel: nat) returns (ghost w: Work)
      requires Valid() && Settled(Now()) && story.walk.NoWalk? && currentReady < numReady && r == ready[currentReady]
      modifies `mem, `story, `cursor, ready
      ensures Valid() && Settled(Now()) && Continues(old(Now()), Now())
      ensures EntryServed(old(Now()), Now(), w)
    {
      hide Inv, HomesIn, Continues, Served, AllTicked;
      ghost var st := Now();
      assert st.batch != [] && st.batch[0] == r;
      w := NoWork(st, NULL);
      ContinuesRefl(st);
      match r.ptr
      case Nobody =>
      case SweepTimer =>
        if forall c | c in mem.tick :: mem.tick[c] + 1 < W.UINT32 {
          ghost var passes := TimerSweep(fuel);
          w := w.(passes := passes);
          SweepContinues(st, Now());
        }
      case Poll(s) =>
        EntryFacts(st, s);
        var events := r.events.Only(Events(mem.pollType[s]));
        if events.Any() || r.error {
          w := Dispatch(s, r.error, events, fuel);
        }
    }

    /** One iteration: whatever was closed before it has been released after it. */
    method RunOnce(fuel: nat) returns (ghost it: Iteration)
      requires Valid() && Settled(Now()) && story.walk.NoWalk?
      modifies `mem, `story, `cursor, `numReady, `currentReady, ready
      ensures Valid() && Settled(Now()) && Continues(old(Now()), Now()) && Pending() == []
      ensures Iterated(old(Now()), Now(), it) && ShutIds(old(story.log)) <= ReleasedIds(story.log)
    {
      hide Inv, HomesIn, Evolves, AllServed, Preceded, After, Freed;
      ghost var start := Now();
      ghost var granted := LoopPre(fuel);
      ghost var a := Now();
      Wait();
      ghost var b := Now();
      ghost var left, works := DispatchBatch(fuel);
      ghost var c := Now();
      ContinuesTrans(start, b, c);
      IdsGrow(c, start.g.log);
      LoopPost(fuel);
      it := Iteration(granted, b, left, works, c);
      WaitedEvolves(granted, a, b);
      RunContinues(start, a, b, c, Now());
    }

    /** us_loop_run, for up to `iterations` of its iterations: it leaves its loop only when every poll has been freed.
        */
    method Run(fuel: nat, iterations: nat) returns (left: bool, ghost states: seq<State>, ghost its: seq<Iteration>)
      requires Valid() && Settled(Now()) && story.walk.NoWalk?
      modifies `mem, `story, `cursor, `numReady, `currentReady, ready
      ensures Valid() && Settled(Now()) && Continues(old(Now()), Now())
      ensures left ==> mem.heap == {} && mem.owner == map[] && mem.kernel == map[]
      ensures left ==> ShutIds(story.log) == ReleasedIds(story.log)
      ensures RanFrom(states, its, old(Now()), Now())
      ensures if left then |its| <= iterations else mem.heap != {} && |its| == iterations
    {
      hide Inv, HomesIn, Continues, Pending, Iterations, Iterated;
      ghost var start := Now();
      ContinuesRefl(start);
      NoIterations(start);
      states, its := [start], [];
      var i: nat := 0;
      while mem.numPolls != 0 && i < iterations
        invariant Valid() && Settled(Now()) && story.walk.NoWalk? && Continues(start, Now())
        invariant RanFrom(states, its, start, Now()) && |its| == i <= iterations
        decreases iterations - i
      {
        ghost var before := Now();
        NoPolls(before);
        ghost var it := RunOnce(fuel);
        ContinuesTrans(start, before, Now());
        OneMoreIteration(states, its, start, before, Now(), it);
        states, its := states + [Now()], its + [it];
        i := i + 1;
      }
      left := mem.numPolls == 0;
      NoPolls(Now());
    }
  }
}
