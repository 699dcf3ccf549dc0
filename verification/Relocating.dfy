/** The step that moves a poll in memory (us_poll_resize), loose or still queued. */
module Relocating {
  import opened Threads
  import opened Polls
  import opened ReadyBatch
  import opened Journal
  import opened Chronicles
  import opened Chimes
  import opened States
  import opened Unlinking
  import opened Creating
  import W = Wheel

  ghost function Swapped(keys: set<Addr>, s: Addr, n: Addr): set<Addr> {
    keys - {s} + {n}
  }

  ghost predicate Movable(st: State, s: Addr, n: Addr) {
    && s in st.g.place && (st.g.place[s] == Loose || st.g.place[s] == Queued)
    && n != NULL && n !in st.m.heap && n !in st.m.ctxs
  }

  lemma MovableFacts(st: State, s: Addr, n: Addr)
    requires Inv(st) && Movable(st, s, n)
    ensures n !in st.g.place && n !in st.m.fd && n !in st.m.pollType && n !in st.m.timeout && n !in st.m.longTimeout
            && n !in st.m.lowPrio
    ensures n !in st.m.context && n !in st.m.id && n !in st.m.prev && n !in st.m.next && n != s
    ensures Queued in st.g.rolls && Queued in st.m.heads && (st.g.place[s] == Queued ==> s in st.g.rolls[Queued])
  {
    hide Blocks, Marked, Located, Hosted, Wired, Typed, Owned, Awaited, Batched, Clocked, Alarmed, Walked, Ringed,
         Logged, Budgeted, Chronicled, Chained, Stacked;
    BlocksAbsent(st, n);
    Live(st, s);
  }

  ghost predicate RelocatedGuard(st: State, s: Addr, n: Addr) {
    Whole(st, s) && (st.g.place[s] == Queued ==> s in st.g.rolls[Queued])
  }

  ghost function RelocatedCore(st: State, s: Addr, n: Addr): State
    requires RelocatedGuard(st, s, n)
  {
    var queued := st.g.place[s] == Queued;
    st.(m := st.m.(heap := Swapped(st.m.heap, s, n),
                   fd := Moved(st.m.fd, s, n),
                   pollType := Moved(st.m.pollType, s, n),
                   timeout := Moved(st.m.timeout, s, n),
                   longTimeout := Moved(st.m.longTimeout, s, n),
                   lowPrio := Moved(st.m.lowPrio, s, n),
                   context := Moved(st.m.context, s, n),
                   prev := if queued then PatchPrev(st.m.prev, st.m.next, s, n) else Moved(st.m.prev, s, n),
                   next := if queued then PatchNext(st.m.prev, st.m.next, s, n) else Moved(st.m.next, s, n),
                   heads := if queued then st.m.heads[Queued := PatchHead(st.m.prev, st.m.heads[Queued], s, n)]
                       else st.m.heads,
                   id := Moved(st.m.id, s, n),
                   owner := st.m.owner[st.m.id[s] := n],
                   kernel := st.m.kernel[st.m.fd[s] := Registration(Events(st.m.pollType[s]), n)]),
        batch := Redirected(st.batch, Poll(s), Poll(n)),
        g := st.g.(rolls := if queued then st.g.rolls[Queued := st.g.rolls[Queued][Index(st.g.rolls[Queued], s) := n]]
            else st.g.rolls,
                   place := Moved(st.g.place, s, n)))
  }

  ghost function Relocated(st: State, s: Addr, n: Addr): State {
    if RelocatedGuard(st, s, n) then RelocatedCore(st, s, n) else st
  }

  lemma RelocatedLinksQueued(st: State, s: Addr, n: Addr)
    requires Inv(st) && Movable(st, s, n) && st.g.place[s] == Queued
    ensures RelocatedGuard(st, s, n)
    ensures var st' := RelocatedCore(st, s, n); Threaded(st'.m.prev, st'.m.next, st'.m.heads, st'.g.rolls, st'.g.place)
  {
    hide Blocks, Threaded, Marked, Located, Hosted, Wired, Typed, Owned, Awaited, Batched, Clocked, Alarmed, Walked,
         Ringed, Logged, Budgeted, Chronicled;
    hide Open, Swept, Unseen, UnseenLong, Redirected, Events, PatchPrev, PatchNext, PatchHead, Moved, Index;
    Live(st, s);
    MovableFacts(st, s, n);
    MoveThreaded(st.m.prev, st.m.next, st.m.heads, st.g.rolls, st.g.place, s, n);
  }

  lemma RelocatedLinksLoose(st: State, s: Addr, n: Addr)
    requires Inv(st) && Movable(st, s, n) && st.g.place[s] == Loose
    ensures RelocatedGuard(st, s, n)
    ensures var st' := RelocatedCore(st, s, n); Threaded(st'.m.prev, st'.m.next, st'.m.heads, st'.g.rolls, st'.g.place)
  {
    hide Blocks, Threaded, Marked, Located, Hosted, Wired, Typed, Owned, Awaited, Batched, Clocked, Alarmed, Walked,
         Ringed, Logged, Budgeted, Chronicled;
    hide Open, Swept, Unseen, UnseenLong, Redirected, Events, PatchPrev, PatchNext, PatchHead, Index;
    Live(st, s);
    MovableFacts(st, s, n);
    LooseThreaded(st.m.prev, st.m.next, st.m.heads, st.g.rolls, st.g.place, Moved(st.m.prev, s, n),
        Moved(st.m.next, s, n), Moved(st.g.place, s, n));
  }

  /** Neighbours of a queued block are live and queued, so patching them invents no field. */
  lemma PatchNeighbours(st: State, s: Addr, n: Addr)
    requires Inv(st) && Movable(st, s, n) && st.g.place[s] == Queued
    ensures s in st.m.prev && s in st.m.next
    ensures st.m.prev[s] != NULL ==>
                st.m.prev[s] in st.m.next && st.m.prev[s] in st.g.place && st.m.prev[s] != s
                && st.g.place[st.m.prev[s]] == Queued
    ensures st.m.next[s] != NULL ==>
                st.m.next[s] in st.m.prev && st.m.next[s] in st.g.place && st.m.next[s] != s
                && st.g.place[st.m.next[s]] == Queued
  {
    hide Blocks, Threaded, Marked, Located, Hosted, Wired, Typed, Owned, Awaited, Batched, Clocked, Alarmed, Walked,
         Ringed, Logged, Budgeted, Chronicled;
    hide Open, Swept, Unseen, UnseenLong, Dropped, Without, BypassPrev, BypassNext, BypassHead;
    UnthreadedLinks(st, s);
  }

  lemma MovedKeys<V>(m: map<Addr, V>, s: Addr, n: Addr)
    requires s in m
    ensures Moved(m, s, n).Keys == Swapped(m.Keys, s, n)
  {
  }

  lemma PatchKeys(prev: Links, next: Links, s: Addr, n: Addr)
    requires s in prev && s in next && n != s
    requires prev[s] != NULL ==> prev[s] in next && prev[s] != s
    requires next[s] != NULL ==> next[s] in prev && next[s] != s
    ensures PatchPrev(prev, next, s, n).Keys == Swapped(prev.Keys, s, n)
    ensures PatchNext(prev, next, s, n).Keys == Swapped(next.Keys, s, n)
  {
    hide Moved;
    MovedKeys(prev, s, n);
    MovedKeys(next, s, n);
  }

  lemma QueuedPatchKeys(st: State, s: Addr, n: Addr)
    requires Inv(st) && Movable(st, s, n) && st.g.place[s] == Queued
    ensures s in st.m.prev && s in st.m.next
    ensures PatchPrev(st.m.prev, st.m.next, s, n).Keys == Swapped(st.m.prev.Keys, s, n)
    ensures PatchNext(st.m.prev, st.m.next, s, n).Keys == Swapped(st.m.next.Keys, s, n)
  {
    hide Inv, Moved, Swapped, PatchPrev, PatchNext;
    MovableFacts(st, s, n);
    PatchNeighbours(st, s, n);
    PatchKeys(st.m.prev, st.m.next, s, n);
  }

  lemma RelocatedKeysQueued(st: State, s: Addr, n: Addr)
    requires Inv(st) && Movable(st, s, n) && st.g.place[s] == Queued
    ensures RelocatedGuard(st, s, n)
    ensures var st' := RelocatedCore(st, s, n);
            st'.m.prev.Keys == Swapped(st.m.prev.Keys, s, n) && st'.m.next.Keys == Swapped(st.m.next.Keys, s, n)
  {
    hide Inv, Moved, Swapped, PatchPrev, PatchNext, PatchHead, Redirected, Index, Events;
    Live(st, s);
    MovableFacts(st, s, n);
    QueuedPatchKeys(st, s, n);
  }

  lemma RelocatedKeysLoose(st: State, s: Addr, n: Addr)
    requires Inv(st) && Movable(st, s, n) && st.g.place[s] != Queued
    ensures RelocatedGuard(st, s, n)
    ensures var st' := RelocatedCore(st, s, n);
            st'.m.prev.Keys == Swapped(st.m.prev.Keys, s, n) && st'.m.next.Keys == Swapped(st.m.next.Keys, s, n)
  {
    hide Blocks, Threaded, Marked, Located, Hosted, Wired, Typed, Owned, Awaited, Batched, Clocked, Alarmed, Walked,
         Ringed, Logged, Budgeted, Chronicled;
    hide Open, Swept, Unseen, UnseenLong, Events, Moved, Redirected, PatchHead, PatchPrev, PatchNext, Index, Swapped;
    Live(st, s);
    MovableFacts(st, s, n);
    MovedKeys(st.m.prev, s, n);
    MovedKeys(st.m.next, s, n);
  }

  lemma BlocksReplaced(heap: set<Addr>, ctxs: set<Addr>,
                       fd: set<Addr>, pollType: set<Addr>, timeout: set<Addr>, longTimeout: set<Addr>,
                           lowPrio: set<Addr>,
                       context: set<Addr>, prev: set<Addr>, next: set<Addr>, id: set<Addr>, place: set<Addr>,
                       s: Addr, n: Addr)
    requires Blocks(heap, ctxs, fd, pollType, timeout, longTimeout, lowPrio, context, prev, next, id, place)
    requires s in heap && n != NULL && n !in heap && n !in ctxs
    ensures Blocks(Swapped(heap, s, n), ctxs, Swapped(fd, s, n), Swapped(pollType, s, n), Swapped(timeout, s, n),
            Swapped(longTimeout, s, n), Swapped(lowPrio, s, n),
                   Swapped(context, s, n), Swapped(prev, s, n), Swapped(next, s, n), Swapped(id, s, n),
                       Swapped(place, s, n))
    ensures |Swapped(heap, s, n)| == |heap|
  {
  }

  lemma RelocatedLinkKeys(st: State, s: Addr, n: Addr)
    requires Inv(st) && Movable(st, s, n)
    ensures RelocatedGuard(st, s, n)
    ensures var st' := RelocatedCore(st, s, n);
            st'.m.prev.Keys == Swapped(st.m.prev.Keys, s, n) && st'.m.next.Keys == Swapped(st.m.next.Keys, s, n)
  {
    hide Inv, Relocated;
    if st.g.place[s] == Queued { RelocatedKeysQueued(st, s, n); } else { RelocatedKeysLoose(st, s, n); }
  }

  lemma RelocatedBlocks(st: State, s: Addr, n: Addr)
    requires Inv(st) && Movable(st, s, n)
    ensures RelocatedGuard(st, s, n)
    ensures var st' := RelocatedCore(st, s, n);
            && Blocks(st'.m.heap, st'.m.ctxs, st'.m.fd.Keys, st'.m.pollType.Keys, st'.m.timeout.Keys,
               st'.m.longTimeout.Keys, st'.m.lowPrio.Keys,
                      st'.m.context.Keys, st'.m.prev.Keys, st'.m.next.Keys, st'.m.id.Keys, st'.g.place.Keys)
            && st'.m.numPolls == |st'.m.heap|
  {
    hide Blocks, Threaded, Marked, Located, Hosted, Wired, Typed, Owned, Awaited, Batched, Clocked, Alarmed, Walked,
         Ringed, Logged, Budgeted, Chronicled;
    hide Open, Swept, Unseen, UnseenLong, Events, Moved, Redirected, PatchHead, PatchPrev, PatchNext, Index, Swapped;
    Live(st, s);
    MovableFacts(st, s, n);
    RelocatedLinkKeys(st, s, n);
    MovedKeys(st.m.fd, s, n); MovedKeys(st.m.pollType, s, n); MovedKeys(st.m.timeout, s, n);
        MovedKeys(st.m.longTimeout, s, n);
    MovedKeys(st.m.lowPrio, s, n); MovedKeys(st.m.context, s, n); MovedKeys(st.m.id, s, n); MovedKeys(st.g.place, s, n);
    BlocksReplaced(st.m.heap, st.m.ctxs, st.m.fd.Keys, st.m.pollType.Keys, st.m.timeout.Keys, st.m.longTimeout.Keys,
        st.m.lowPrio.Keys,
                   st.m.context.Keys, st.m.prev.Keys, st.m.next.Keys, st.m.id.Keys, st.g.place.Keys, s, n);
  }

  lemma MarkedMove(place: map<Addr, Place>, prev: Links, next: Links, context: map<Addr, Addr>, s: Addr, n: Addr)
    requires Marked(place, prev, context) && s in place && place[s] != Closed && n !in place && s in prev && s in next
             && s in context
    requires next[s] != NULL ==> next[s] in place && place[next[s]] != Closed
    ensures Marked(Moved(place, s, n), PatchPrev(prev, next, s, n), Moved(context, s, n))
  {
  }

  lemma MarkedMoveLoose(place: map<Addr, Place>, prev: Links, context: map<Addr, Addr>, s: Addr, n: Addr)
    requires Marked(place, prev, context) && s in place && place[s] != Closed && n !in place && s in prev
             && s in context
    ensures Marked(Moved(place, s, n), Moved(prev, s, n), Moved(context, s, n))
  {
  }

  lemma LocatedMove(place: map<Addr, Place>, context: map<Addr, Addr>, lowPrio: map<Addr, int>, s: Addr, n: Addr)
    requires Located(place, context, lowPrio) && s in place && n !in place && s in context && s in lowPrio
    ensures Located(Moved(place, s, n), Moved(context, s, n), Moved(lowPrio, s, n))
  {
  }

  lemma HostedMoved(context: map<Addr, Addr>, ctxs: set<Addr>, lists: set<Place>, s: Addr, n: Addr)
    requires Hosted(context, ctxs, lists) && s in context
    ensures Hosted(Moved(context, s, n), ctxs, lists)
  {
  }

  lemma OpenMove(place: map<Addr, Place>, s: Addr, n: Addr)
    requires s in place && place[s] != Closed && !place[s].Linked? && n !in place
    ensures Open(Moved(place, s, n)) == Open(place) - {s} + {n}
    ensures s in Open(place) && n !in Open(place)
    ensures Swept(Moved(place, s, n)) == Swept(place) && s !in Swept(place) && n !in Swept(place)
  {
  }

  lemma WiredMove(open: set<Addr>, fd: map<Addr, int>, pollType: map<Addr, bv4>, kernel: map<int, Registration>,
                  s: Addr, n: Addr)
    requires Wired(open, fd, pollType, kernel) && s in open && n !in open && s in fd && s in pollType
    ensures Wired(open - {s} + {n}, Moved(fd, s, n), Moved(pollType, s, n),
            kernel[fd[s] := Registration(Events(pollType[s]), n)])
  {
  }

  /** The registrations that us_poll_resize leaves when the block moved: only a poll that waits for something is told
      about. */
  ghost function Retold(kernel: map<int, Registration>, f: int, events: Interest, n: Addr): map<int, Registration> {
    if events.Any() then kernel[f := Registration(events, n)] else kernel
  }

  /** So the kernel agrees after the move exactly when the poll waits for something; else it keeps the old address. */
  lemma ResizeAgreesExactly(open: set<Addr>, fd: map<Addr, int>, pollType: map<Addr, bv4>, kernel: map<int,
                            Registration>, s: Addr, n: Addr)
    requires Wired(open, fd, pollType, kernel) && s in open && n !in open && s in fd && s in pollType
    ensures var kernel' := Retold(kernel, fd[s], Events(pollType[s]), n);
            Wired(open - {s} + {n}, Moved(fd, s, n), Moved(pollType, s, n), kernel') <==> Events(pollType[s]).Any()
  {
    hide Events;
    if Events(pollType[s]).Any() {
      WiredMove(open, fd, pollType, kernel, s, n);
    } else {
      assert kernel[fd[s]].ptr == s && s !in open - {s} + {n};
    }
  }

  lemma TypedMove(place: map<Addr, Place>, pollType: map<Addr, bv4>, s: Addr, n: Addr)
    requires Typed(place, pollType) && s in place && s in pollType && n !in place
    ensures Typed(Moved(place, s, n), Moved(pollType, s, n))
  {
  }

  lemma OwnedMove(id: map<Addr, int>, owner: map<int, Addr>, nextId: int, s: Addr, n: Addr)
    requires Owned(id, owner, nextId) && s in id && n !in id
    ensures Owned(Moved(id, s, n), owner[id[s] := n], nextId)
  {
  }

  lemma AwaitedMove(debts: set<int>, owner: map<int, Addr>, open: set<Addr>, pollType: map<Addr, bv4>, id: map<Addr,
                    int>, nextId: int, s: Addr, n: Addr)
    requires Awaited(debts, owner, open, pollType) && Owned(id, owner, nextId) && s in id && n !in id && s in pollType
             && n !in open && s in open
    ensures Awaited(debts, owner[id[s] := n], open - {s} + {n}, Moved(pollType, s, n))
  {
  }

  lemma BatchedMove(rs: seq<Ready>, open: set<Addr>, limit: nat, s: Addr, n: Addr)
    requires Batched(rs, open, limit) && n !in open && s != n
    ensures Batched(Redirected(rs, Poll(s), Poll(n)), open - {s} + {n}, limit)
  {
    var rs' := Redirected(rs, Poll(s), Poll(n));
    CountAbsent(rs, Poll(n));
    forall a
      ensures Count(rs', Poll(a)) <= limit
    {
      RedirectedCounts(rs, Poll(s), Poll(n), Poll(a));
    }
  }

  lemma AlarmedMove(swept: set<Addr>, context: map<Addr, Addr>, tick: map<Addr, nat>, unseen: set<Addr>,
                    stamp: map<Addr, int>, alarms: map<Addr, Alarm>, unit: W.Unit, s: Addr, n: Addr)
    requires Alarmed(swept, context, tick, unseen, stamp, alarms, unit) && s !in swept && n !in swept && s in context
             && s in stamp
    ensures Alarmed(swept, Moved(context, s, n), tick, unseen, Moved(stamp, s, n), alarms, unit)
  {
    var context', stamp' := Moved(context, s, n), Moved(stamp, s, n);
    forall x | x in swept
      ensures x in stamp && x in context && x in stamp' && x in context' && stamp'[x] == stamp[x]
              && context'[x] == context[x]
    {
    }
  }

  lemma LoggedMove(log: Log, owner: map<int, Addr>, open: set<Addr>, nextId: int, id: map<Addr, int>, s: Addr, n: Addr)
    requires Logged(log, owner, open, nextId) && Owned(id, owner, nextId) && s in id && s in open && n !in id
    ensures Logged(log, owner[id[s] := n], open - {s} + {n}, nextId)
  {
  }

  lemma BudgetedMove(swept: set<Addr>, lowPrio: map<Addr, int>, delayed: set<Addr>, lowReads: int, budget: int,
                     iterationNr: int, s: Addr, n: Addr)
    requires Budgeted(swept, lowPrio, delayed, lowReads, budget, iterationNr) && s !in swept && n !in swept
             && s in lowPrio
    ensures Budgeted(swept, Moved(lowPrio, s, n), delayed, lowReads, budget, iterationNr)
  {
  }

  lemma RelocatedMarked(st: State, s: Addr, n: Addr)
    requires Inv(st) && Movable(st, s, n)
    ensures RelocatedGuard(st, s, n)
    ensures var st' := RelocatedCore(st, s, n); Marked(st'.g.place, st'.m.prev, st'.m.context)
  {
    hide Blocks, Threaded, Marked, Located, Hosted, Wired, Typed, Owned, Awaited, Batched, Clocked, Alarmed, Walked,
         Ringed, Logged, Budgeted, Chronicled;
    hide Open, Swept, Unseen, UnseenLong, Dropped, Without, BypassPrev, BypassNext, BypassHead;
    hide Events, Redirected, Moved, PatchPrev, PatchNext, PatchHead;
    Live(st, s);
    MovableFacts(st, s, n);
    if st.g.place[s] == Queued {
      PatchNeighbours(st, s, n);
      MarkedMove(st.g.place, st.m.prev, st.m.next, st.m.context, s, n);
    } else {
      MarkedMoveLoose(st.g.place, st.m.prev, st.m.context, s, n);
    }
  }

  lemma RelocatedWalk(st: State, s: Addr, n: Addr)
    requires Inv(st) && Movable(st, s, n)
    ensures RelocatedGuard(st, s, n)
    ensures var st' := RelocatedCore(st, s, n); Walked(st'.m.ctxs, st'.m.walker, st'.g.rolls, st'.g.walk)
  {
    hide Blocks, Threaded, Marked, Located, Hosted, Wired, Typed, Owned, Awaited, Batched, Clocked, Alarmed, Walked,
         Ringed, Logged, Budgeted, Chronicled;
    hide Open, Swept, Unseen, UnseenLong, Dropped, Without, BypassPrev, BypassNext, BypassHead;
    hide Events, Redirected, Moved, PatchPrev, PatchNext, PatchHead, Index;
    Live(st, s);
    MovableFacts(st, s, n);
    if st.g.place[s] == Queued {
      WalkedElsewhere(st.m.ctxs, st.m.walker, st.g.rolls, st.g.walk, Queued,
          st.g.rolls[Queued][Index(st.g.rolls[Queued], s) := n]);
    }
  }

  /** Moving a poll keeps the invariant: kernel, batch, queue and owner all follow to the new block. */
  lemma RelocatedKeeps(st: State, s: Addr, n: Addr)
    requires Inv(st) && Movable(st, s, n)
    ensures Inv(Relocated(st, s, n))
  {
    hide Blocks, Threaded, Marked, Located, Hosted, Wired, Typed, Owned, Awaited, Batched, Clocked, Alarmed, Walked,
         Ringed, Logged, Budgeted, Chronicled;
    hide Open, Swept, Unseen, UnseenLong, Dropped, Without, BypassPrev, BypassNext, BypassHead;
    hide Events, Redirected, Moved, PatchPrev, PatchNext, PatchHead, Index;
    Live(st, s);
    MovableFacts(st, s, n);
    RelocatedBlocks(st, s, n);
    if st.g.place[s] == Queued { RelocatedLinksQueued(st, s, n); } else { RelocatedLinksLoose(st, s, n); }
    assert RelocatedGuard(st, s, n) && RelocatedCore(st, s, n).g.rolls.Keys == st.g.rolls.Keys;
    RelocatedMarked(st, s, n);
    RelocatedWalk(st, s, n);
    OpenMove(st.g.place, s, n);
    LocatedMove(st.g.place, st.m.context, st.m.lowPrio, s, n);
    HostedMoved(st.m.context, st.m.ctxs, st.g.rolls.Keys, s, n);
    WiredMove(Open(st.g.place), st.m.fd, st.m.pollType, st.m.kernel, s, n);
    TypedMove(st.g.place, st.m.pollType, s, n);
    OwnedMove(st.m.id, st.m.owner, st.m.nextId, s, n);
    AwaitedMove(st.g.debts, st.m.owner, Open(st.g.place), st.m.pollType, st.m.id, st.m.nextId, s, n);
    BatchedMove(st.batch, Open(st.g.place), st.limit, s, n);
    AlarmedMove(Swept(st.g.place), st.m.context, st.m.tick, Unseen(st.g.walk), st.m.timeout, st.g.alarms, 1, s, n);
    AlarmedMove(Swept(st.g.place), st.m.context, st.m.tick, UnseenLong(st.g.walk), st.m.longTimeout, st.g.longAlarms,
        15, s, n);
    LoggedMove(st.g.log, st.m.owner, Open(st.g.place), st.m.nextId, st.m.id, s, n);
    BudgetedMove(Swept(st.g.place), st.m.lowPrio, st.g.delayed, st.g.lowReads, st.m.budget, st.m.iterationNr, s, n);
    OwnsIts(st, s);
    AlarmsLinked(st, s);
    AlarmsLinked(st, n);
    MovedKeeps(st.g.log, st.m.owner, st.g.place, st.m.tick, st.g.alarms, st.g.longAlarms, st.m.id[s], s, n);
  }

  lemma MovedHere<V>(m: map<Addr, V>, s: Addr, n: Addr)
    requires s in m
    ensures n in Moved(m, s, n) && Moved(m, s, n)[n] == m[s]
  {
  }
}
