/** The state of a loop as one value, and its invariant. */
module States {
  import opened Threads
  import opened Polls
  import opened ReadyBatch
  import opened Journal
  import opened Chimes
  import opened Chronicles
  import W = Wheel

  /** The timer sweep's walk over one context: `cur` is the socket whose handler is being called,
      still linked when `onCur`, with its long timeout still to be looked at when `owesLong`;
      `ahead` was unexamined when the handler was called, `dropped` was unlinked since. */
  datatype Walk =
    | NoWalk
    | Walk(context: Addr, cur: Addr, onCur: bool, owesLong: bool, ahead: seq<Addr>, dropped: set<Addr>)

  ghost function Tail(w: Walk): seq<Addr>
    requires w.Walk?
  {
    (if w.onCur then [w.cur] else []) + Without(w.ahead, w.dropped)
  }

  ghost function Unseen(w: Walk): set<Addr> {
    if w.Walk? then (set a | a in w.ahead) - w.dropped else {}
  }

  ghost function UnseenLong(w: Walk): set<Addr> {
    if w.Walk? && w.onCur && w.owesLong then Unseen(w) + {w.cur} else Unseen(w)
  }

  function Dropped(w: Walk, c: Addr, s: Addr): Walk {
    if w.Walk? && w.context == c then w.(onCur := w.onCur && s != w.cur, dropped := w.dropped + {s}) else w
  }

  /** The sockets that are not closed. */
  ghost function Open(place: map<Addr, Place>): set<Addr> {
    set s | s in place && place[s] != Closed
  }

  /** The sockets on some context's list, which its sweep examines. */
  ghost function Swept(place: map<Addr, Place>): set<Addr> {
    set s | s in place && place[s].Linked?
  }

  /** Socket and context blocks are apart, and every socket field is there for exactly the live blocks. */
  ghost predicate Blocks(heap: set<Addr>, ctxs: set<Addr>,
                         fd: set<Addr>, pollType: set<Addr>, timeout: set<Addr>, longTimeout: set<Addr>,
                             lowPrio: set<Addr>,
                         context: set<Addr>, prev: set<Addr>, next: set<Addr>, id: set<Addr>, place: set<Addr>)
  {
    && NULL !in heap && NULL !in ctxs && heap !! ctxs
    && fd == heap && pollType == heap && timeout == heap && longTimeout == heap && lowPrio == heap
    && context == heap && prev == heap && next == heap && id == heap && place == heap
  }

  lemma KeysKept<V>(m: map<Addr, V>, s: Addr, v: V)
    requires s in m
    ensures m[s := v].Keys == m.Keys
  {
  }

  /** `prev == context` marks closed sockets, and only those. */
  ghost predicate Marked(place: map<Addr, Place>, prev: Links, context: map<Addr, Addr>) {
    forall s | s in place && place[s] == Closed :: s in prev && s in context && prev[s] == context[s]
  }

  /** A socket on a context's list names that context; `lowPrio` is 1 exactly in the queue. */
  ghost predicate Located(place: map<Addr, Place>, context: map<Addr, Addr>, lowPrio: map<Addr, int>) {
    && (forall s | s in place && place[s].Linked? :: s in context && place[s].context == context[s])
    && (forall s | s in place && place[s].Listening? :: s in context && place[s].context == context[s])
    && (forall s | s in place :: s in lowPrio && 0 <= lowPrio[s] <= 2 && (lowPrio[s] == 1 <==> place[s] == Queued))
  }

  /** Every socket's context is live, and exactly the live contexts have lists. */
  ghost predicate Hosted(context: map<Addr, Addr>, ctxs: set<Addr>, lists: set<Place>) {
    && (forall s | s in context :: context[s] in ctxs)
    && (forall c | c in ctxs :: Linked(c) in lists && Listening(c) in lists)
    && (forall p | p in lists :: p == Queued || p == Closed || (p != Loose && p.context in ctxs))
  }

  /** The kernel's registration of every open socket is its cached interest and its current address. */
  ghost predicate Wired(open: set<Addr>, fd: map<Addr, int>, pollType: map<Addr, bv4>, kernel: map<int, Registration>)
  {
    && (forall s | s in open ::
                s in fd && s in pollType && fd[s] in kernel && kernel[fd[s]] == Registration(Events(pollType[s]), s))
    && (forall f | f in kernel :: kernel[f].ptr in open && kernel[f].ptr in fd && fd[kernel[f].ptr] == f)
  }

  ghost predicate KindFits(p: Place, t: bv4) {
    match p
    case Loose => true
    case Linked(_) => Kind(t) == POLL_TYPE_SOCKET || Kind(t) == POLL_TYPE_SOCKET_SHUT_DOWN
        || (Kind(t) == POLL_TYPE_SEMI_SOCKET && Events(t) == WRITABLE)
    case Listening(_) => Kind(t) == POLL_TYPE_SEMI_SOCKET && Events(t) == READABLE
    case Queued => (Kind(t) == POLL_TYPE_SOCKET || Kind(t) == POLL_TYPE_SOCKET_SHUT_DOWN) && !Events(t).readable
    case Closed => true
  }

  ghost predicate Typed(place: map<Addr, Place>, pollType: map<Addr, bv4>) {
    forall s | s in place :: s in pollType && KindFits(place[s], pollType[s])
  }

  /** Identities and current addresses are in bijection. */
  ghost predicate Owned(id: map<Addr, int>, owner: map<int, Addr>, nextId: int)
  {
    && (forall s | s in id :: id[s] in owner && owner[id[s]] == s && id[s] < nextId)
    && (forall k | k in owner :: owner[k] in id && id[owner[k]] == k)
  }

  /** A short write not yet answered keeps its socket open and polling for writable. */
  ghost predicate Awaited(debts: set<int>, owner: map<int, Addr>, open: set<Addr>, pollType: map<Addr, bv4>)
  {
    forall k | k in debts :: k in owner && owner[k] in open && owner[k] in pollType
      && Kind(pollType[owner[k]]) == POLL_TYPE_SOCKET && Events(pollType[owner[k]]).writable
  }

  /** Entries not yet dispatched are for open sockets, at most `limit` for each. */
  ghost predicate Batched(rs: seq<Ready>, open: set<Addr>, limit: nat) {
    && (forall i | 0 <= i < |rs| && rs[i].ptr.Poll? :: rs[i].ptr.addr in open)
    && (forall a :: Count(rs, Poll(a)) <= limit)
  }

  /** An alarm is either still to fire in the next matching tick, or fired once in the tick it was due. */
  ghost predicate Rings(a: Alarm, stamp: int, upcoming: nat, unit: W.Unit) {
    || (a.fired == [] && 0 <= stamp < W.SLOTS && a.due == W.NextMatch(upcoming, unit, stamp))
    || (a.fired == [a.due] && a.due < upcoming && stamp == W.NEVER)
  }

  /** The next tick whose sweep examines `s`. */
  ghost function Upcoming(tick: map<Addr, nat>, context: map<Addr, Addr>, unseen: set<Addr>, s: Addr): nat
    requires s in context && context[s] in tick
  {
    if s in unseen then tick[context[s]] else tick[context[s]] + 1
  }

  ghost predicate Alarmed(swept: set<Addr>, context: map<Addr, Addr>, tick: map<Addr, nat>, unseen: set<Addr>,
                          stamp: map<Addr, int>, alarms: map<Addr, Alarm>, unit: W.Unit)
  {
    && (forall s | s in stamp :: 0 <= stamp[s] < W.SLOTS || stamp[s] == W.NEVER)
    && (forall s | s in alarms :: s in swept)
    && (forall s | s in swept :: s in stamp && s in context && context[s] in tick &&
          if s in alarms then Rings(alarms[s], stamp[s], Upcoming(tick, context, unseen, s), unit)
          else stamp[s] == W.NEVER)
  }

  ghost predicate Clocked(ctxs: set<Addr>, tick: map<Addr, nat>, timestamp: map<Addr, int>, longTimestamp: map<Addr,
                          int>) {
    && tick.Keys == timestamp.Keys == longTimestamp.Keys == ctxs
    && (forall c | c in ctxs ::
                tick[c] < W.UINT32 && timestamp[c] == tick[c] % W.SLOTS && longTimestamp[c] == tick[c] / 15 % W.SLOTS)
  }

  ghost predicate IsSuffix(t: seq<Addr>, l: seq<Addr>) {
    |t| <= |l| && l[|l| - |t|..] == t
  }

  /** Only the walked context has an iterator, and it is at the part of the list still to be walked. */
  ghost predicate Walked(ctxs: set<Addr>, walker: map<Addr, Addr>, rolls: Rolls, walk: Walk) {
    && walker.Keys == ctxs
    && (forall c | c in ctxs :: (walk.Walk? ==> c != walk.context) ==> walker[c] == NULL)
    && (walk.Walk? ==>
          && walk.context in ctxs && Linked(walk.context) in rolls
          && NoDup(walk.ahead) && walk.cur !in walk.ahead
          && IsSuffix(Tail(walk), rolls[Linked(walk.context)])
          && walker[walk.context] == At(Tail(walk), 0))
  }

  /** The journal is lawful, and the sockets shut but not released are the closed ones. */
  ghost predicate Logged(log: Log, owner: map<int, Addr>, open: set<Addr>, nextId: int) {
    && Lawful(log)
    && ReleasedIds(log) <= ShutIds(log)
    && (forall k | k in ShutIds(log) :: k < nextId)
    && (forall k | k in owner :: k !in ReleasedIds(log) && (k in ShutIds(log) <==> owner[k] !in open))
    && (forall k | k in ShutIds(log) && k !in ReleasedIds(log) :: k in owner)
  }

  /** The live contexts are listed, both ways. */
  ghost predicate Ringed(ctxs: set<Addr>, ctxPrev: Links, ctxNext: Links, contexts: seq<Addr>, ctxHead: Addr) {
    && ctxPrev.Keys == ctxs && ctxNext.Keys == ctxs
    && Chained(ctxPrev, ctxNext, contexts, ctxHead)
    && (forall c :: c in ctxs <==> c in contexts)
  }

  /** The handshake budget: reads done, sockets let back in for one read, and budget left. */
  ghost predicate Budgeted(swept: set<Addr>, lowPrio: map<Addr, int>, delayed: set<Addr>, lowReads: int, budget: int,
                           iterationNr: int)
  {
    && (forall s :: s in delayed <==> s in swept && s in lowPrio && lowPrio[s] == 2)
    && 0 <= budget
    && lowReads + |delayed| + budget <= 5 * iterationNr
  }

  /** C memory: field `f` of the block at address `a` is `f[a]`, and a block is live while its address is in
      `heap` (sockets) or `ctxs` (contexts). No field has entries outside them, so an access to a freed or
      moved block would not verify. */
  datatype Mem = Mem(
    // us_socket_t and its us_poll_t; `id` is what the application keeps in the socket's extension
    heap: set<Addr>,
    fd: map<Addr, int>, pollType: map<Addr, bv4>,
    timeout: map<Addr, int>, longTimeout: map<Addr, int>,
    lowPrio: map<Addr, int>, context: map<Addr, Addr>, prev: Links, next: Links, id: map<Addr, int>,
    // us_socket_context_t; `walker` is its `iterator`
    ctxs: set<Addr>,
    tick: map<Addr, nat>, timestamp: map<Addr, int>, longTimestamp: map<Addr, int>,
    walker: map<Addr, Addr>, ctxPrev: Links, ctxNext: Links,
    // us_internal_loop_data_t and us_loop_t; `heads` holds the pointers that head lists: head_sockets and
    // head_listen_sockets of each context, low_prio_head and closed_head of the loop
    heads: map<Place, Addr>, ctxHead: Addr,
    budget: int, iterationNr: int, lastWriteFailed: bool, numPolls: int,
    // Outside the library: the kernel's registrations, the application's pointer to each socket
    kernel: map<int, Registration>, owner: map<int, Addr>, nextId: int)

  /** What is stated about the memory, and kept up to date by every step. */
  datatype Story = Story(
    rolls: Rolls, place: map<Addr, Place>, contexts: seq<Addr>,
    walk: Walk, alarms: map<Addr, Alarm>, longAlarms: map<Addr, Alarm>,
    log: Log, debts: set<int>, delayed: set<Addr>, lowReads: int)

  /** A loop: its memory `m`, the batch entries not yet dispatched, how many of them one poll may have
      (1 under epoll, 2 under kqueue), and the story `g` so far. */
  datatype State = State(m: Mem, batch: seq<Ready>, limit: nat, g: Story)

  ghost predicate Inv(st: State) {
    && Blocks(st.m.heap, st.m.ctxs, st.m.fd.Keys, st.m.pollType.Keys, st.m.timeout.Keys, st.m.longTimeout.Keys,
       st.m.lowPrio.Keys,
              st.m.context.Keys, st.m.prev.Keys, st.m.next.Keys, st.m.id.Keys, st.g.place.Keys)
    && Threaded(st.m.prev, st.m.next, st.m.heads, st.g.rolls, st.g.place)
    && Marked(st.g.place, st.m.prev, st.m.context)
    && Located(st.g.place, st.m.context, st.m.lowPrio)
    && Hosted(st.m.context, st.m.ctxs, st.g.rolls.Keys)
    && Wired(Open(st.g.place), st.m.fd, st.m.pollType, st.m.kernel)
    && Typed(st.g.place, st.m.pollType)
    && Owned(st.m.id, st.m.owner, st.m.nextId)
    && Awaited(st.g.debts, st.m.owner, Open(st.g.place), st.m.pollType)
    && Batched(st.batch, Open(st.g.place), st.limit)
    && Clocked(st.m.ctxs, st.m.tick, st.m.timestamp, st.m.longTimestamp)
    && Alarmed(Swept(st.g.place), st.m.context, st.m.tick, Unseen(st.g.walk), st.m.timeout, st.g.alarms, 1)
    && Alarmed(Swept(st.g.place), st.m.context, st.m.tick, UnseenLong(st.g.walk), st.m.longTimeout, st.g.longAlarms, 15)
    && Walked(st.m.ctxs, st.m.walker, st.g.rolls, st.g.walk)
    && Ringed(st.m.ctxs, st.m.ctxPrev, st.m.ctxNext, st.g.contexts, st.m.ctxHead)
    && Logged(st.g.log, st.m.owner, Open(st.g.place), st.m.nextId)
    && Budgeted(Swept(st.g.place), st.m.lowPrio, st.g.delayed, st.g.lowReads, st.m.budget, st.m.iterationNr)
    && Chronicled(st.g.log, st.m.owner, st.g.place, st.m.tick, st.g.alarms, st.g.longAlarms)
    && st.g.debts == Owing(st.g.log)
    && st.m.numPolls == |st.m.heap|
  }

  ghost predicate Threadable(st: State, s: Addr) {
    s in st.g.place && st.g.place[s] != Loose && st.g.place[s] != Closed
  }

  /** Every field of block `s`, of its context and of the list it is on is there to be read. */
  ghost predicate Whole(st: State, s: Addr) {
    && s in st.m.fd && s in st.m.pollType && s in st.m.timeout && s in st.m.longTimeout && s in st.m.lowPrio
    && s in st.m.context && s in st.m.prev && s in st.m.next && s in st.m.id && s in st.g.place
    && st.m.context[s] in st.m.tick
    && (st.g.place[s] != Loose ==> st.g.place[s] in st.g.rolls && st.g.place[s] in st.m.heads)
  }

  lemma Live(st: State, s: Addr)
    requires Inv(st) && s in st.g.place
    ensures Whole(st, s)
    ensures s in st.m.heap && s != NULL && st.m.context[s] in st.m.ctxs && st.m.context[s] in st.m.walker
  {
    hide Marked, Located, Wired, Typed, Owned, Awaited, Batched, Alarmed, Ringed, Logged, Budgeted, Chronicled, Chained,
         Stacked;
  }

  lemma ListedFacts(st: State, s: Addr)
    requires Inv(st) && Threadable(st, s)
    ensures var p := st.g.place[s];
            && p in st.g.rolls && s in st.g.rolls[p] && s in st.m.context && NoDup(st.g.rolls[p])
            && NULL !in st.g.rolls[p] && s in st.m.next
            && st.m.next[s] == At(st.g.rolls[p], Index(st.g.rolls[p], s) + 1)
            && (p.Linked? ==> p.context == st.m.context[s])
  {
    hide Blocks, Marked, Wired, Typed, Owned, Awaited, Batched, Clocked, Alarmed, Walked, Ringed, Logged, Budgeted,
         Chronicled, Open, Swept, Unseen, Stacked;
    Live(st, s);
    var p := st.g.place[s];
    assert s in st.g.rolls[p] && Chained(st.m.prev, st.m.next, st.g.rolls[p], st.m.heads[p]);
    Neighbours(st.m.prev, st.m.next, st.g.rolls[p], st.m.heads[p], s);
    assert st.g.rolls[p][Index(st.g.rolls[p], s)] in st.m.next;
  }

  lemma OwnsIts(st: State, s: Addr)
    requires Inv(st) && s in st.g.place
    ensures s in st.m.id && Owns(st.m.owner, st.m.id[s], s)
  {
    hide Threaded, Marked, Located, Hosted, Wired, Typed, Awaited, Batched, Clocked, Alarmed, Walked, Ringed, Logged,
         Budgeted, Chronicled;
  }

  /** Only linked sockets have alarms. */
  lemma AlarmsLinked(st: State, s: Addr)
    requires Inv(st)
    ensures s in st.g.alarms || s in st.g.longAlarms ==> s in st.g.place && st.g.place[s].Linked?
  {
    hide Blocks, Threaded, Marked, Located, Hosted, Wired, Typed, Owned, Awaited, Batched, Clocked, Walked, Ringed,
         Logged, Budgeted, Chronicled;
  }

  lemma LoggedTimely(log: Log, owner: map<int, Addr>, open: set<Addr>, nextId: int, e: Event)
    requires Logged(log, owner, open, nextId) && Timely(e)
    ensures Logged(log + [e], owner, open, nextId) && Owing(log + [e]) == Owing(log)
  {
    AppendTimely(log, e);
  }
}
