/** What the operations on a socket come to: the fields of its block, what the kernel has registered, the lists, the
    alarms and the journal. */
module Outcomes {
  import opened Threads
  import opened Polls
  import opened ReadyBatch
  import opened Journal
  import opened Chimes
  import opened Chronicles
  import opened States
  import opened Facts
  import opened Unlinking
  import opened Linking
  import opened Creating
  import opened Relocating
  import opened Arming
  import opened Repolling
  import opened Tracking
  import opened Evolution
  import opened Operations
  import opened Dispatching
  import W = Wheel

  /** A timer of the socket at `s` is off: its stamp is no clock's, and no alarm is set, by the journal neither. */
  ghost predicate TimerOff(st: State, timer: Timer, s: Addr) {
    && s in st.m.id && s in st.m.timeout && s in st.m.longTimeout
    && (if timer == ShortTimer then st.m.timeout[s] else st.m.longTimeout[s]) == W.NEVER
    && s !in AlarmsOf(timer, st.g.alarms, st.g.longAlarms)
    && RingOf(st.g.log, timer, st.m.id[s]) == Silent
  }

  /** The poll at `s` is of type `kind` and waits for `events`, as the kernel knows. */
  ghost predicate Polling(st: State, s: Addr, kind: bv4, events: Interest) {
    && s in st.m.fd && s in st.m.pollType && Kind(st.m.pollType[s]) == kind && Events(st.m.pollType[s]) == events
    && st.m.fd[s] in st.m.kernel && st.m.kernel[st.m.fd[s]] == Registration(events, s)
  }

  lemma OffIs(st: State, timer: Timer, s: Addr)
    requires Inv(st) && s in st.g.place && s in st.m.timeout && s in st.m.longTimeout
    requires (if timer == ShortTimer then st.m.timeout[s] else st.m.longTimeout[s]) == W.NEVER
    requires s !in AlarmsOf(timer, st.g.alarms, st.g.longAlarms)
    ensures TimerOff(st, timer, s)
  {
    hide Inv, Orderly, RingOf, Whereabouts, Clocks;
    OwnsIts(st, s);
    ChronicleOf(st);
  }

  lemma PollingIs(st: State, s: Addr)
    requires Inv(st) && s in st.g.place && st.g.place[s] != Closed
    ensures s in st.m.pollType && Polling(st, s, Kind(st.m.pollType[s]), Events(st.m.pollType[s]))
  {
    hide Inv, Kind, Events;
    KernelFacts(st, s);
  }

  // ---- Timeouts

  /** A cleared short timeout is off, and the long one is as it was. */
  ghost predicate ShortCleared(st: State, st': State, s: Addr) {
    && TimerOff(st', ShortTimer, s)
    && st'.m.longTimeout == st.m.longTimeout && st'.g.longAlarms == st.g.longAlarms
    && (forall k :: RingOf(st'.g.log, LongTimer, k) == RingOf(st.g.log, LongTimer, k))
  }

  ghost predicate LongCleared(st: State, st': State, s: Addr) {
    && TimerOff(st', LongTimer, s)
    && st'.m.timeout == st.m.timeout && st'.g.alarms == st.g.alarms
    && (forall k :: RingOf(st'.g.log, ShortTimer, k) == RingOf(st.g.log, ShortTimer, k))
  }

  lemma ClearedShort(st: State, s: Addr)
    requires Inv(st) && s in st.g.place
    ensures ShortCleared(st, Stamped(st, s, W.NEVER), s)
  {
    hide Inv, RingOf;
    Live(st, s);
    AlarmsLinked(st, s);
    StampedKeeps(st, s, W.NEVER);
    OffIs(Stamped(st, s, W.NEVER), ShortTimer, s);
    Appended(st.g.log, Unset(ShortTimer, st.m.id[s]));
  }

  lemma ClearedLong(st: State, s: Addr)
    requires Inv(st) && s in st.g.place
    ensures LongCleared(st, LongStamped(st, s, W.NEVER), s)
  {
    hide Inv, RingOf;
    Live(st, s);
    AlarmsLinked(st, s);
    LongStampedKeeps(st, s, W.NEVER);
    OffIs(LongStamped(st, s, W.NEVER), LongTimer, s);
    Appended(st.g.log, Unset(LongTimer, st.m.id[s]));
  }

  lemma JoinedOff(st: State, s: Addr, p: Place)
    requires Inv(st) && Joinable(st, s, p) && s in st.m.timeout && s in st.m.longTimeout
    requires st.m.timeout[s] == W.NEVER && st.m.longTimeout[s] == W.NEVER
    ensures TimerOff(Joined(st, s, p), ShortTimer, s) && TimerOff(Joined(st, s, p), LongTimer, s)
  {
    hide Inv, RingOf, PushPrev, PushNext, KindFits, JoinLog, TimerOff;
    Live(st, s);
    AlarmsLinked(st, s);
    JoinableFacts(st, s, p);
    JoinedKeeps(st, s, p);
    OffIs(Joined(st, s, p), ShortTimer, s);
    OffIs(Joined(st, s, p), LongTimer, s);
  }

  // ---- New sockets

  /** Since `st` there is one more socket, at `s`, for descriptor `f`: at the top of list `p`, of type `kind`, waiting
      for `events`, with both timeouts off. */
  ghost predicate Arrived(st: State, st': State, s: Addr, f: int, p: Place, kind: bv4, events: Interest) {
    && s !in st.m.heap && st'.m.heap == st.m.heap + {s}
    && Polling(st', s, kind, events) && st'.m.fd[s] == f
    && TimerOff(st', ShortTimer, s) && TimerOff(st', LongTimer, s)
    && st'.m.id[s] == st.m.nextId && st'.m.owner == st.m.owner[st.m.nextId := s]
    && s in st'.m.lowPrio && st'.m.lowPrio[s] == 0
    && st'.g.place == st.g.place[s := p]
    && p in st.g.rolls && st'.g.rolls == st.g.rolls[p := [s] + st.g.rolls[p]]
  }

  lemma OpeningArrived(st: State, s: Addr, c: Addr, f: int, t: bv4, p: Place)
    requires Inv(st) && Openable(st, s, c, f, t, p) && Settled(st)
    ensures Arrived(st, Opening(st, s, c, f, t, p), s, f, p, Kind(t), Events(t))
  {
    hide Inv, Homes, KindFits, Rearmed, Kind, Events, JoinLog, TimerOff, Polling, PushPrev, PushNext, NoneLoose;
    var created, st' := Created(st, s, c, f, t), Opening(st, s, c, f, t, p);
    OpeningKeeps(st, s, c, f, t, p);
    CreatedKeeps(st, s, c, f, t);
    JoinableFacts(created, s, p);
    Live(created, s);
    JoinedOff(created, s, p);
    PollingIs(st', s);
  }

  // ---- Established

  /** The connecting socket at `s` is established where it is: waiting for data, its short timeout off. */
  ghost predicate Connected(st: State, st': State, s: Addr) {
    && Polling(st', s, POLL_TYPE_SOCKET, READABLE) && ShortCleared(st, st', s)
    && st'.g.place == st.g.place && st'.g.rolls == st.g.rolls && st'.m.id == st.m.id && st'.m.fd == st.m.fd
  }

  lemma OpenedConnected(st: State, s: Addr)
    requires Inv(st) && Settled(st) && Connecting(st, s)
    ensures Connected(st, Opened(st, s), s)
  {
    hide Inv, HomesIn, Kind, Events, KindFits, Evolves, WithEvents, WithKind, TimerOff, Polling, RingOf, NoneLoose,
         SetEvent, Rearmed, Upcoming, OpenedType;
    ReopenedFacts(st, s);
    OpenedFacts(st, s);
    OpenedTypes(st.g.place[s].context, st.m.pollType[s]);
    ClearedShort(Reopened(st, s), s);
    PollingIs(Opened(st, s), s);
  }

  // ---- Reading and writing

  /** After a writable event: the socket still polls for writable only if it was not shut down and, since that event, a
      write fell short. Whether it polls for readable is as the handler left it. */
  ghost predicate WritableKept(st: State, mid: State, st': State, n: Addr) {
    n in st'.g.place && st'.g.place[n] != Closed ==>
      && n in st'.m.pollType && n in mid.m.pollType && Kind(st'.m.pollType[n]) == Kind(mid.m.pollType[n])
      && Events(st'.m.pollType[n]).readable == Events(mid.m.pollType[n]).readable
      && (Events(st'.m.pollType[n]).writable ==>
            && Events(mid.m.pollType[n]).writable && Kind(st'.m.pollType[n]) != POLL_TYPE_SOCKET_SHUT_DOWN
            && FellSince(st'.g.log, |st.g.log|))
  }

  lemma WritableEnds(st: State, s: Addr, mid: State, st': State, n: Addr)
    requires s in st.m.id && Evolves(Answered(st, s), mid, {}, {}) && WritableDone(mid, n, st')
    requires Whole(mid, n)
    ensures WritableKept(st, mid, st', n)
  {
    hide Homes, Remembers, NoNewQueued, Pins, Spares, Freezes, KeepsClocks, WalksOn, KeepsContexts, Established,
         Kind, Events, WithEvents, FellSince, Tracks;
    var t := mid.m.pollType[n];
    NarrowTypes(Loose, t, READABLE);
    if FellSince(mid.g.log, |st.g.log| + 1) { SinceBefore(mid.g.log, |st.g.log|); }
  }

  lemma SinceBefore(log: Log, n: nat)
    requires FellSince(log, n + 1)
    ensures FellSince(log, n)
  {
  }

  /** Event `e` came next in the journal. */
  ghost predicate Next(log: Log, log': Log, e: Event) {
    log <= log' && |log| < |log'| && log'[|log|] == e
  }

  lemma NextStays(log: Log, log': Log, log'': Log, e: Event)
    requires Next(log, log', e) && log' <= log''
    ensures Next(log, log'', e)
  {
  }

  lemma CallIsNext(st: State, h: Handler, k: int, st': State, n: Addr, frozen: set<Addr>, pinned: set<int>)
    requires HandlerRan(st, h, k, st', n, frozen, pinned)
    ensures Next(st.g.log, st'.g.log, Called(h, k))
  {
    hide Inv, Homes, Remembers, NoNewQueued, Pins, Spares, Freezes, KeepsClocks, WalksOn, KeepsContexts, Established,
         OwesLess, Tracks;
    assert Noted(st, h, k).g.log[|st.g.log|] == Called(h, k);
  }

  lemma ClosingOn(st: State, s: Addr)
    ensures st.g.log <= Closing(st, s).g.log
  {
    hide BypassPrev, BypassNext, BypassHead, Without, Dropped, Redirected;
  }

  /** The answer to the last read only adds to the journal. */
  lemma ReadDoneOn(st: State, s: Addr, length: int, wouldBlock: bool, st': State, n: Addr)
    requires ReadDone(st, s, length, wouldBlock, st', n)
    ensures st.g.log <= st'.g.log
    ensures 0 < length < RECV_BUFFER_LENGTH ==> s in st.m.id && Next(st.g.log, st'.g.log, Called(OnData, st.m.id[s]))
  {
    hide HandlerRan, Closing, Kind, Events, WithEvents;
    if 0 < length < RECV_BUFFER_LENGTH {
      CallIsNext(st, OnData, st.m.id[s], st', n, {}, {});
    } else if length == 0 && Kind(st.m.pollType[s]) != POLL_TYPE_SOCKET_SHUT_DOWN {
      CallIsNext(Repolled(st, s, WithEvents(st.m.pollType[s], Events(st.m.pollType[s]).Only(WRITABLE))), OnEnd,
          st.m.id[s], st', n, {}, {});
    } else if length == 0 || (length == -1 && !wouldBlock) {
      ClosingOn(st, s);
      CallIsNext(Closing(st, s), OnClose, st.m.id[s], st', n, {}, {});
    }
  }

  /** Something was read: `full` full buffers, or `length` bytes of one. */
  ghost predicate GotData(full: nat, length: int) {
    full > 0 || 0 < length < 524288
  }

  /** The read of a low-priority socket is paid for: by the grant it came back with, or else out of the budget. */
  ghost predicate ReadPaid(st: State, paid: State, s: Addr, lowPriority: bool) {
    if !lowPriority then paid == st
    else
      && paid.g.lowReads == st.g.lowReads + 1 && paid.g.log == st.g.log && s in st.m.lowPrio
      && if st.m.lowPrio[s] == 2 then paid.m == st.m.(lowPrio := st.m.lowPrio[s := 0])
         else st.m.budget > 0 && paid.m == st.m.(budget := st.m.budget - 1)
  }

  lemma AdmittedPaid(st: State, s: Addr, lowPriority: bool)
    requires s in st.m.lowPrio && !(lowPriority && st.m.lowPrio[s] != 2 && st.m.budget <= 0)
    ensures ReadPaid(st, Admitted(st, s, lowPriority), s, lowPriority)
  {
  }

  /** The socket at `s` is the first in the low-priority queue, off its context's list, and does not wait for data. */
  ghost predicate SetAside(st: State, st': State, s: Addr) {
    && Whole(st, s) && Queued in st.g.rolls && st.g.place[s] in st.g.rolls
    && Polling(st', s, Kind(st.m.pollType[s]), Interest(false, Events(st.m.pollType[s]).writable))
    && st'.g.place == st.g.place[s := Queued] && s in st'.m.lowPrio && st'.m.lowPrio[s] == 1
    && st'.m.context == st.m.context && st'.m.budget == st.m.budget && st'.g.lowReads == st.g.lowReads
    && st'.g.rolls == st.g.rolls[st.g.place[s] := Without(st.g.rolls[st.g.place[s]], {s})]
                                [Queued := [s] + st.g.rolls[Queued]]
    && st'.g.log == st.g.log + [Left(st.m.id[s], st.m.context[s])]
  }

  lemma HeldBackAside(st: State, s: Addr)
    requires Inv(st) && Settled(st) && Dispatchable(st, s) && st.g.place[s].Linked? && s in st.m.lowPrio
             && st.m.lowPrio[s] != 2
    ensures SetAside(st, HeldBack(st, s), s)
  {
    hide Inv, NoneLoose, Kind, KindFits, Events, WithEvents, PushPrev, PushNext, BypassPrev, BypassNext, BypassHead,
         Without, Rearmed, Dropped, Polling;
    HeldBackFacts(st, s);
    HeldBackKeeps(st, s);
    HeldBackType(st, s);
    QueueIs(st, s);
    NarrowTypes(st.g.place[s], st.m.pollType[s], WRITABLE);
    PollingIs(HeldBack(st, s), s);
  }

  // ---- Adopted

  /** Every pending entry for the poll at `s` is for the one at `n` now, and no other changed. */
  ghost predicate Forwarded(rs: seq<Ready>, rs': seq<Ready>, s: Addr, n: Addr) {
    && |rs'| == |rs|
    && forall i | 0 <= i < |rs| :: rs'[i] == rs[i].(ptr := if rs[i].ptr == Poll(s) then Poll(n) else rs[i].ptr)
  }

  /** The socket at `s` is at `n` now, with the same type and interest but both timeouts off: at the top of the list of
      context `c`, or in its place in the queue. */
  ghost predicate Adopted(st: State, st': State, c: Addr, s: Addr, n: Addr) {
    && Whole(st, s) && Whole(st', n) && Queued in st.g.rolls && Queued in st'.g.rolls
    && st'.m.owner == st.m.owner[st.m.id[s] := n] && st'.m.id[n] == st.m.id[s] && st'.m.fd[n] == st.m.fd[s]
    && Polling(st', n, Kind(st.m.pollType[s]), Events(st.m.pollType[s]))
    && TimerOff(st', ShortTimer, n) && TimerOff(st', LongTimer, n)
    && st'.m.lowPrio[n] == st.m.lowPrio[s] && Forwarded(st.batch, st'.batch, s, n)
    && if st.g.place[s] == Queued then
         && st'.g.place[n] == Queued && st'.m.context[n] == st.m.context[s]
         && |st'.g.rolls[Queued]| == |st.g.rolls[Queued]|
         && forall i | 0 <= i < |st.g.rolls[Queued]| ::
               st'.g.rolls[Queued][i] == if st.g.rolls[Queued][i] == s then n else st.g.rolls[Queued][i]
       else
         && st'.g.place[n] == Linked(c) && st'.m.context[n] == c && Linked(c) in st.g.rolls
         && st'.g.rolls[Linked(c)] == [n] + (if st.g.place[s] == Linked(c) then Without(st.g.rolls[Linked(c)], {s})
                                             else st.g.rolls[Linked(c)])
  }

  lemma ResizedTrace(st: State, s: Addr, n: Addr)
    requires Inv(st) && s in st.g.place && (st.g.place[s] == Loose || st.g.place[s] == Queued)
    requires n == s || (n != NULL && n !in st.m.heap && n !in st.m.ctxs)
    ensures Whole(st, s) && Whole(Resized(st, s, n), n)
    ensures Resized(st, s, n).m.fd[n] == st.m.fd[s] && Resized(st, s, n).m.context[n] == st.m.context[s]
    ensures Queued in st.g.rolls && Queued in Resized(st, s, n).g.rolls
    ensures Forwarded(st.batch, Resized(st, s, n).batch, s, n)
    ensures st.g.place[s] == Queued ==>
              var q, q' := st.g.rolls[Queued], Resized(st, s, n).g.rolls[Queued];
              |q'| == |q| && forall i | 0 <= i < |q| :: q'[i] == if q[i] == s then n else q[i]
  {
    hide Inv, PatchPrev, PatchNext, PatchHead, Redirected, Events;
    Live(st, s);
    ResizedKeeps(st, s, n);
    QueueIs(st, s);
    if n != s { MovableFacts(st, s, n); }
  }

  lemma QueueIs(st: State, s: Addr)
    requires Inv(st) && s in st.g.place
    ensures Queued in st.g.rolls && NoDup(st.g.rolls[Queued])
    ensures st.g.place[s] == Queued ==> s in st.g.rolls[Queued]
  {
    hide Blocks, Marked, Located, Hosted, Wired, Typed, Owned, Awaited, Batched, Clocked, Alarmed, Walked, Ringed,
         Logged, Budgeted, Chronicled, Stacked;
    assert Chained(st.m.prev, st.m.next, st.g.rolls[Queued], st.m.heads[Queued]);
  }

  lemma DisarmedTrace(st: State, s: Addr)
    requires Inv(st) && s in st.g.place
    ensures Whole(st, s)
    ensures var st' := Disarmed(st, s);
            && Whole(st', s) && st'.m.timeout[s] == W.NEVER && st'.m.longTimeout[s] == W.NEVER
            && s !in st'.g.alarms && s !in st'.g.longAlarms
            && st'.m.fd == st.m.fd && st'.m.context == st.m.context && st'.g.rolls == st.g.rolls
            && st'.batch == st.batch
  {
    hide Inv, SetEvent, Upcoming;
    Live(st, s);
    AlarmsLinked(st, s);
  }

  lemma AdoptedQueued(st: State, c: Addr, s: Addr, n: Addr)
    requires Inv(st) && Adoptable(st, c, s, n) && Settled(st) && st.g.place[s] == Queued
    ensures Adopted(st, Adopting(st, c, s, n), c, s, n)
  {
    hide Inv, Homes, Resized, Disarmed, Kind, Events, TimerOff, Polling, NoneLoose, Forwarded;
    var b := Resized(st, s, n);
    ResizedKeeps(st, s, n);
    ResizedTrace(st, s, n);
    DisarmedTrace(b, n);
    DisarmedKeeps(b, n);
    var st' := Adopting(st, c, s, n);
    AdoptingKeeps(st, c, s, n);
    OffIs(st', ShortTimer, n);
    OffIs(st', LongTimer, n);
    PollingIs(st', n);
  }

  lemma AdoptedLinked(st: State, c: Addr, s: Addr, n: Addr)
    requires Inv(st) && Adoptable(st, c, s, n) && Settled(st) && st.g.place[s].Linked?
    ensures Adopted(st, Adopting(st, c, s, n), c, s, n)
  {
    hide Inv, Homes, Unthreaded, Resized, Disarmed, Kind, Events, TimerOff, Polling, NoneLoose, Joinable,
         Forwarded;
    var a := Unthreaded(st, s);
    var b := Resized(a, s, n);
    RoomAfterUnlink(st, s);
    UnthreadedRolls(st, s);
    ResizedKeeps(a, s, n);
    ResizedTrace(a, s, n);
    DisarmedTrace(b, n);
    DisarmedKeeps(b, n);
    var st' := Adopting(st, c, s, n);
    AdoptingLinkedKeeps(st, c, s, n);
    AdoptingKeeps(st, c, s, n);
    JoinedOff(Disarmed(b, n), n, Linked(c));
    JoinedTrace(Disarmed(b, n), n, c);
    QueueIs(st', n);
    PollingIs(st', n);
  }

  lemma UnthreadedRolls(st: State, s: Addr)
    requires Inv(st) && s in st.g.place && st.g.place[s].Linked?
    ensures Whole(st, s) && st.g.place[s] in st.g.rolls && Queued in st.g.rolls
    ensures Unthreaded(st, s).g.rolls == st.g.rolls[st.g.place[s] := Without(st.g.rolls[st.g.place[s]], {s})]
    ensures Unthreaded(st, s).m.fd == st.m.fd && Unthreaded(st, s).m.lowPrio == st.m.lowPrio
            && Unthreaded(st, s).batch == st.batch
  {
    hide Inv, BypassPrev, BypassNext, BypassHead, Without, Dropped;
    Live(st, s);
    QueueIs(st, s);
  }

  lemma JoinedTrace(st: State, s: Addr, c: Addr)
    requires Inv(st) && Joinable(st, s, Linked(c))
    ensures Whole(st, s) && Linked(c) in st.g.rolls
    ensures var st' := Joined(st, s, Linked(c));
            && st'.g.rolls == st.g.rolls[Linked(c) := [s] + st.g.rolls[Linked(c)]]
            && st'.m.context == st.m.context[s := c] && st'.m.fd == st.m.fd && st'.m.lowPrio == st.m.lowPrio
            && st'.batch == st.batch
  {
    hide Inv, KindFits, Rearmed, PushPrev, PushNext, JoinLog;
    Live(st, s);
    JoinableFacts(st, s, Linked(c));
  }

  lemma AdoptingAdopted(st: State, c: Addr, s: Addr, n: Addr)
    requires Inv(st) && Adoptable(st, c, s, n) && Settled(st)
    ensures Adopted(st, Adopting(st, c, s, n), c, s, n)
  {
    hide Inv, Homes, Adopting, Adopted, NoneLoose;
    if st.g.place[s] == Queued { AdoptedQueued(st, c, s, n); } else { AdoptedLinked(st, c, s, n); }
  }
}
