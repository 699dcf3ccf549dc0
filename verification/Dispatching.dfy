/** Dispatching a ready poll. */
module Dispatching {
  import opened Threads
  import opened Polls
  import opened Journal
  import opened States
  import opened Facts
  import opened Unlinking
  import opened Linking
  import opened Repolling
  import opened Arming
  import opened Budgets
  import opened Listed
  import opened Tracking
  import opened Evolution
  import opened Relocating
  import opened Operations
  import W = Wheel

  const RECV_BUFFER_LENGTH := 524288

  ghost predicate Connecting(st: State, s: Addr) {
    s in st.g.place && st.g.place[s].Linked? && s in st.m.pollType && Kind(st.m.pollType[s]) == POLL_TYPE_SEMI_SOCKET
  }

  /** An open socket past connecting. */
  ghost predicate Dispatchable(st: State, s: Addr) {
    && s in st.g.place && (st.g.place[s].Linked? || st.g.place[s] == Queued)
    && s in st.m.pollType && Kind(st.m.pollType[s]) != POLL_TYPE_SEMI_SOCKET
  }

  ghost predicate ClosedNow(st: State, k: int) {
    k in Homes(st) && Homes(st)[k].place == Closed
  }

  /** The cached type and interest of a socket that has just connected. */
  ghost function OpenedType(t: bv4): bv4 {
    WithKind(WithEvents(t, READABLE), POLL_TYPE_SOCKET)
  }

  ghost function Reopened(st: State, s: Addr): State {
    if s in st.m.pollType then Repolled(st, s, OpenedType(st.m.pollType[s])) else st
  }

  ghost function Opened(st: State, s: Addr): State {
    Stamped(Reopened(st, s), s, W.NEVER)
  }

  lemma ConnectingFacts(st: State, s: Addr)
    requires Inv(st) && Settled(st) && Connecting(st, s)
    ensures Whole(st, s) && Callable(st, OnConnectError, st.m.id[s]) && st.m.id[s] in st.m.owner
            && st.m.owner[st.m.id[s]] == s
    ensures st.m.fd[s] in st.m.kernel && st.m.kernel[st.m.fd[s]] == Registration(Events(st.m.pollType[s]), s)
  {
    hide Inv, Events;
    KernelFacts(st, s);
  }

  lemma PinsLess(st: State, st': State, pinned: set<int>)
    requires Evolves(st, st', {}, pinned)
    ensures Evolves(st, st', {}, {})
  {
    hide Homes, Remembers, NoNewQueued, Spares, Freezes, KeepsClocks, WalksOn, OwesLess, KeepsContexts, Established;
  }

  lemma ConnectErrorFacts(st: State, s: Addr, st': State, n: Addr)
    requires Inv(st) && Settled(st) && Connecting(st, s) && s in st.m.id
    requires HandlerRan(st, OnConnectError, st.m.id[s], st', n, {}, {st.m.id[s]})
    ensures s in st'.g.place && (st'.g.place[s].Linked? || st'.g.place[s] == Closed)
    ensures var final := if st'.g.place[s] == Closed then st' else Closing(st', s);
            Evolves(st, final, {}, {}) && ClosedNow(final, st.m.id[s])
  {
    hide Inv, HomesIn, Closing, Evolves;
    var k := st.m.id[s];
    ConnectingFacts(st, s);
    HandlerEvolves(st, OnConnectError, k, st', n, {}, {k});
    PinnedHome(st, st', s, k);
    PinsLess(st, st', {k});
    if st'.g.place[s] != Closed {
      ClosingKeeps(st', s);
      ClosingEvolves(st', s, {}, {});
      EvolvesTrans(st, st', Closing(st', s), {}, {});
    }
  }

  lemma PinnedHome(st: State, st': State, s: Addr, k: int)
    requires Inv(st) && Inv(st') && s in st.g.place && st.g.place[s].Linked? && s in st.m.id && st.m.id[s] == k
             && Evolves(st, st', {}, {k})
    ensures s in st'.g.place && (st'.g.place[s].Linked? || st'.g.place[s] == Closed)
    ensures k in Homes(st') && Homes(st')[k] == Home(s, st'.g.place[s]) && s in st'.m.id && st'.m.id[s] == k
  {
    hide Inv, HomesIn, NoNewQueued, Spares, Freezes, KeepsClocks, WalksOn, OwesLess, KeepsContexts, Established;
    HomeOf(st, s);
    Remembered(st, st', k, {}, {k});
    OwnerHome(st', k);
  }

  lemma OpenedTypes(c: Addr, t: bv4)
    ensures Kind(OpenedType(t)) == POLL_TYPE_SOCKET && Events(OpenedType(t)) == READABLE
            && KindFits(Linked(c), OpenedType(t))
    ensures Events(WithEvents(t, READABLE)) == READABLE
  {
  }

  lemma ReopenedFacts(st: State, s: Addr)
    requires Inv(st) && Settled(st) && Connecting(st, s)
    ensures Whole(st, s)
    ensures var t, st' := WithEvents(st.m.pollType[s], READABLE), Reopened(st, s);
            && Inv(st') && Settled(st') && s in st'.g.place
            && st' == st.(m := st.m.(pollType := st.m.pollType[s := t][s := WithKind(t, POLL_TYPE_SOCKET)],
                                     kernel := st.m.kernel[st.m.fd[s] := Registration(READABLE, s)]))
    ensures Evolves(st, Reopened(st, s), {}, {})
  {
    hide Inv, HomesIn, Events, Kind, KindFits, Evolves, WithEvents, WithKind;
    Live(st, s);
    DebtFacts(st, s);
    OpenedTypes(st.g.place[s].context, st.m.pollType[s]);
    RepolledEvolves(st, s, OpenedType(st.m.pollType[s]), {}, {});
    var t := WithEvents(st.m.pollType[s], READABLE);
    assert st.m.pollType[s := t][s := OpenedType(st.m.pollType[s])] == st.m.pollType[s := OpenedType(st.m.pollType[s])];
  }

  lemma OpenedFacts(st: State, s: Addr)
    requires Inv(st) && Settled(st) && Connecting(st, s)
    ensures Whole(st, s)
    ensures var st' := Opened(st, s);
            && Inv(st') && Settled(st') && Callable(st', OnOpen, st.m.id[s]) && st.m.id[s] in st'.m.owner
            && Evolves(st, st', {}, {})
            && st'.g.walk == st.g.walk
  {
    hide Inv, HomesIn, Events, Kind, KindFits, Evolves, WithEvents, WithKind, Rearmed, Upcoming;
    ReopenedFacts(st, s);
    ConnectingFacts(st, s);
    StampedEvolves(Reopened(st, s), s, W.NEVER, {}, {});
    EvolvesTrans(st, Reopened(st, s), Opened(st, s), {}, {});
  }

  /** Socket `k` is the listen socket `ls`, closed or not. */
  ghost predicate Listens(st: State, k: int, ls: Addr) {
    k in Homes(st) && Homes(st)[k].addr == ls && (Homes(st)[k].place.Listening? || Homes(st)[k].place == Closed)
  }

  lemma ListensFirst(st: State, ls: Addr)
    requires Inv(st) && ls in st.g.place && st.g.place[ls].Listening?
    ensures ls in st.m.id && Listens(st, st.m.id[ls], ls)
  {
    hide Inv, HomesIn;
    HomeOf(st, ls);
  }

  lemma ListenerStays(start: State, st: State, st': State, k: int, ls: Addr)
    requires Evolves(start, st, {}, {}) && Evolves(st, st', {}, {}) && Listens(st, k, ls) && st.g.walk.NoWalk?
    ensures Evolves(start, st', {}, {}) && Listens(st', k, ls) && st'.g.walk.NoWalk?
  {
    hide Homes, NoNewQueued, Pins, Spares, Freezes, KeepsClocks, OwesLess, KeepsContexts, Established;
    EvolvesTrans(start, st, st', {}, {});
  }

  lemma ListenerFacts(st: State, k: int, ls: Addr)
    requires Inv(st) && Settled(st) && Listens(st, k, ls)
    ensures ls in st.g.place && Whole(st, ls) && st.m.context[ls] in st.m.ctxs && ls in st.m.prev && ls in st.m.context
  {
    hide Inv, HomesIn;
    assert k in st.m.owner && st.m.owner[k] == ls by { HomesOwner(st, k); }
    OwnerHome(st, k);
    Live(st, ls);
  }

  lemma HomesOwner(st: State, k: int)
    requires k in Homes(st)
    ensures k in st.m.owner && st.m.owner[k] == Homes(st)[k].addr && st.m.owner[k] in st.g.place
            && st.g.place[st.m.owner[k]] == Homes(st)[k].place
  {
  }

  lemma OpenFacts(st: State, s: Addr)
    requires Inv(st) && Settled(st) && Dispatchable(st, s)
    ensures Whole(st, s) && st.m.id[s] in st.m.owner && st.m.owner[st.m.id[s]] == s && Threadable(st, s)
    ensures st.m.fd[s] in st.m.kernel && st.m.kernel[st.m.fd[s]] == Registration(Events(st.m.pollType[s]), s)
    ensures Callable(st, OnData, st.m.id[s]) && st.m.prev[s] != st.m.context[s] && !st.g.place[s].Listening?
            && st.g.place[s] != Closed
    ensures Kind(st.m.pollType[s]) == POLL_TYPE_SOCKET || Kind(st.m.pollType[s]) == POLL_TYPE_SOCKET_SHUT_DOWN
  {
    hide Inv, Events;
    KernelFacts(st, s);
    ClosedFacts(st, s);
  }

  lemma AnsweredFacts(st: State, s: Addr)
    requires Inv(st) && Settled(st) && Dispatchable(st, s)
    ensures Whole(st, s) && st.m.id[s] in st.m.owner
    ensures var st' := Answered(st, s);
            && Inv(st') && Settled(st') && st.m.id[s] !in st'.g.debts && st'.g.walk == st.g.walk
            && st' == st.(m := st.m.(lastWriteFailed := false), g := st'.g)
  {
    hide Inv, Kind;
    OpenFacts(st, s);
    AnsweredKeeps(st, s);
  }

  lemma AnsweredNoted(st: State, s: Addr)
    requires s in st.m.id
    ensures var st' := Answered(st, s); Noted(st'.(g := st'.g.(log := st.g.log)), OnWritable, st.m.id[s]) == st'
  {
  }

  /** The socket that was at `s` is at `n` now, and closed, or as open as it was; only one that was queued is queued. */
  ghost predicate Persists(st: State, st': State, s: Addr, n: Addr) {
    && s in st.g.place && s in st.m.id && st.m.id[s] in Homes(st') && Homes(st')[st.m.id[s]].addr == n
    && n in st'.g.place && n in st'.m.id && st'.m.id[n] == st.m.id[s]
    && (st'.g.place[n] == Closed || (Dispatchable(st', n) && (st'.g.place[n] == Queued ==> st.g.place[s] == Queued)))
  }

  lemma EvolvesPersists(st: State, st': State, s: Addr, n: Addr)
    requires Inv(st) && Settled(st) && Inv(st') && Settled(st') && Dispatchable(st, s) && Evolves(st, st', {}, {})
    requires s in st.m.id && st.m.id[s] in st'.m.owner && st'.m.owner[st.m.id[s]] == n
    ensures Persists(st, st', s, n) && Whole(st', n)
    ensures st'.m.prev[n] == st'.m.context[n] <==> st'.g.place[n] == Closed
  {
    hide Inv, HomesIn, Pins, Spares, Freezes, KeepsClocks, WalksOn, OwesLess, KeepsContexts;
    var k := st.m.id[s];
    HomeOf(st, s);
    OwnerHome(st', k);
    ClosedFacts(st', n);
    assert k in Established(st);
  }

  lemma AnsweredPersists(st: State, s: Addr, st': State, n: Addr)
    requires Inv(st) && Settled(st) && Dispatchable(st, s) && s in st.m.id
    requires Inv(st') && Settled(st') && Evolves(Answered(st, s), st', {}, {}) && st.m.id[s] in st'.m.owner
             && st'.m.owner[st.m.id[s]] == n
    ensures Persists(st, st', s, n) && Whole(st', n)
    ensures st'.m.prev[n] == st'.m.context[n] <==> st'.g.place[n] == Closed
  {
    hide Inv, HomesIn, Evolves, Kind;
    AnsweredFacts(st, s);
    EvolvesPersists(Answered(st, s), st', s, n);
  }

  lemma NarrowTypes(p: Place, t: bv4, e: Interest)
    requires e == READABLE || e == WRITABLE
    ensures Kind(WithEvents(t, Events(t).Only(e))) == Kind(t)
            && Events(WithEvents(t, Events(t).Only(e))) == Events(t).Only(e)
    ensures KindFits(p, t) && Kind(t) != POLL_TYPE_SEMI_SOCKET ==> KindFits(p, WithEvents(t, Events(t).Only(e)))
    ensures (p.Linked? || p == Queued) && KindFits(p, t) && Kind(t) != POLL_TYPE_SEMI_SOCKET ==>
            KindFits(Queued, WithEvents(t, Events(t).Only(WRITABLE)))
  {
  }

  /** With no write short, or after a shutdown, the socket is not owed a writable event: it may stop polling for it. */
  lemma NarrowedFacts(st: State, s: Addr, st': State, n: Addr)
    requires Inv(st) && Settled(st) && Dispatchable(st, s) && s in st.m.id
    requires Inv(st') && Settled(st') && Evolves(Answered(st, s), st', {}, {}) && Persists(st, st', s, n)
             && st'.g.place[n] != Closed
    requires n in st'.m.pollType && (!st'.m.lastWriteFailed || Kind(st'.m.pollType[n]) == POLL_TYPE_SOCKET_SHUT_DOWN)
    ensures Whole(st', n) && st'.m.fd[n] in st'.m.kernel
            && st'.m.kernel[st'.m.fd[n]] == Registration(Events(st'.m.pollType[n]), n)
    ensures var t := WithEvents(st'.m.pollType[n], Events(st'.m.pollType[n]).Only(READABLE));
            && Events(t) == Events(st'.m.pollType[n]).Only(READABLE)
            && Repolled(st', n, t) == st'.(m := st'.m.(pollType := st'.m.pollType[n := t],
               kernel := st'.m.kernel[st'.m.fd[n] := Registration(Events(t), n)]))
            && Inv(Repolled(st', n, t)) && Settled(Repolled(st', n, t))
            && Evolves(Answered(st, s), Repolled(st', n, t), {}, {})
            && Persists(st, Repolled(st', n, t), s, n)
  {
    hide Inv, HomesIn, Kind, Events, KindFits, Evolves, WithEvents, Answered;
    OpenFacts(st', n);
    ClosedFacts(st', n);
    NarrowTypes(st'.g.place[n], st'.m.pollType[n], READABLE);
    NotOwed(st, s, st', n);
    var t := WithEvents(st'.m.pollType[n], Events(st'.m.pollType[n]).Only(READABLE));
    RepolledEvolves(st', n, t, {}, {});
    EvolvesTrans(Answered(st, s), st', Repolled(st', n, t), {}, {});
  }

  lemma NotOwed(st: State, s: Addr, st': State, n: Addr)
    requires Inv(st) && Settled(st) && Dispatchable(st, s) && s in st.m.id
    requires Inv(st') && Evolves(Answered(st, s), st', {}, {}) && n in st'.g.place && n in st'.m.id
             && st'.m.id[n] == st.m.id[s] && n in st'.m.pollType
    requires !st'.m.lastWriteFailed || Kind(st'.m.pollType[n]) == POLL_TYPE_SOCKET_SHUT_DOWN
    ensures st.m.id[s] !in st'.g.debts
  {
    hide Inv, Homes, Remembers, NoNewQueued, Pins, Spares, Freezes, KeepsClocks, WalksOn, KeepsContexts, Established,
         Answered, Kind;
    AnsweredFacts(st, s);
    DebtFacts(st', n);
  }

  /** `s` may read: the read is paid for, if it is of low priority. */
  ghost function Admitted(st: State, s: Addr, lowPriority: bool): State {
    if !lowPriority then st
    else if s in st.m.lowPrio && st.m.lowPrio[s] == 2 then Redeemed(st, s)
    else Charged(st)
  }

  ghost function HeldBack(st: State, s: Addr): State {
    if s !in st.m.pollType then st else
    var t := st.m.pollType[s];
    Joined(Unthreaded(Repolled(st, s, WithEvents(t, Events(t).Only(WRITABLE))), s), s, Queued)
  }

  lemma AdmittedFacts(st: State, s: Addr, lowPriority: bool)
    requires Inv(st) && Settled(st) && Dispatchable(st, s) && st.g.place[s].Linked?
    ensures Whole(st, s)
    ensures !(lowPriority && st.m.lowPrio[s] != 2 && st.m.budget <= 0) ==>
              var st' := Admitted(st, s, lowPriority);
              && Inv(st') && Settled(st') && Dispatchable(st', s) && st'.g.walk == st.g.walk
              && st' == st.(m := if !lowPriority then st.m
                 else if st.m.lowPrio[s] == 2 then st.m.(lowPrio := st.m.lowPrio[s := 0])
                                 else st.m.(budget := st.m.budget - 1), g := st'.g)
  {
    hide Inv, Kind;
    OpenFacts(st, s);
    if lowPriority {
      if st.m.lowPrio[s] == 2 { RedeemedKeeps(st, s); } else if st.m.budget > 0 { ChargedKeeps(st); }
    }
  }

  lemma HeldBackFacts(st: State, s: Addr)
    requires Inv(st) && Settled(st) && Dispatchable(st, s) && st.g.place[s].Linked? && s in st.m.lowPrio
             && st.m.lowPrio[s] != 2
    ensures Whole(st, s) && st.m.fd[s] in st.m.kernel
            && st.m.kernel[st.m.fd[s]] == Registration(Events(st.m.pollType[s]), s)
    ensures st.g.place[s] == Linked(st.m.context[s])
    ensures var t := WithEvents(st.m.pollType[s], Events(st.m.pollType[s]).Only(WRITABLE));
            var st1 := Repolled(st, s, t);
            && Events(t) == Events(st.m.pollType[s]).Only(WRITABLE)
            && st1 == st.(m := st.m.(pollType := st.m.pollType[s := t],
               kernel := st.m.kernel[st.m.fd[s] := Registration(Events(t), s)]))
            && Inv(st1) && PlaceOf(st1, s) == st.g.place[s]
            && Joinable(Unthreaded(st1, s), s, Queued)
    ensures Settled(HeldBack(st, s))
  {
    hide Inv, Kind, Events, KindFits, WithEvents;
    OpenFacts(st, s);
    ClosedFacts(st, s);
    DebtFacts(st, s);
    NarrowTypes(st.g.place[s], st.m.pollType[s], WRITABLE);
    var t := WithEvents(st.m.pollType[s], Events(st.m.pollType[s]).Only(WRITABLE));
    RepolledKeeps(st, s, t);
    HeldBackJoinable(Repolled(st, s, t), s);
  }

  lemma HeldBackJoinable(st: State, s: Addr)
    requires Inv(st) && Settled(st) && s in st.g.place && st.g.place[s].Linked? && s in st.m.pollType
             && KindFits(Queued, st.m.pollType[s])
    ensures Joinable(Unthreaded(st, s), s, Queued) && Settled(Joined(Unthreaded(st, s), s, Queued))
  {
    hide Inv, KindFits, Without, BypassPrev, BypassNext, BypassHead, PushPrev, PushNext;
    Live(st, s);
    UnthreadedKeeps(st, s);
    JoinableFacts(Unthreaded(st, s), s, Queued);
    Live(Unthreaded(st, s), s);
  }

  /** Where a resize fails the kernel: a socket that does not wait to write and is held back polls for nothing, so
      that the adoption of it that moves its block to `n` leaves its old address registered. */
  lemma HeldBackIsDeaf(st: State, s: Addr, n: Addr)
    requires Inv(st) && Settled(st) && Dispatchable(st, s) && st.g.place[s].Linked? && s in st.m.lowPrio
             && st.m.lowPrio[s] != 2
    requires !Events(st.m.pollType[s]).writable && Movable(HeldBack(st, s), s, n)
    ensures var st' := HeldBack(st, s);
            && Inv(st') && PlaceOf(st', s) == Queued && s in st'.m.pollType && Events(st'.m.pollType[s]) == NOTHING
            && s in st'.m.fd && st'.m.fd[s] in st'.m.kernel
            && Retold(st'.m.kernel, st'.m.fd[s], Events(st'.m.pollType[s]), n)[st'.m.fd[s]].ptr == s != n
  {
    hide Inv, Kind, KindFits, HeldBack, Events;
    HeldBackKeeps(st, s);
    HeldBackType(st, s);
    var st' := HeldBack(st, s);
    KernelFacts(st', s);
    MovableFacts(st', s, n);
  }

  /** The other case: a socket that does not wait to write and whose peer has ended polls for nothing when `on_end` is
      called, so that an adoption there that moves its block to `n` leaves its old address registered. */
  lemma EndedIsDeaf(st: State, s: Addr, n: Addr)
    requires Inv(st) && Settled(st) && Dispatchable(st, s) && st.g.place[s].Linked? && s in st.m.pollType
    requires !Events(st.m.pollType[s]).writable
    requires var st1 := Repolled(st, s, WithEvents(st.m.pollType[s], Events(st.m.pollType[s]).Only(WRITABLE)));
             Movable(Unthreaded(st1, s), s, n)
    ensures var st1 := Repolled(st, s, WithEvents(st.m.pollType[s], Events(st.m.pollType[s]).Only(WRITABLE)));
            var st' := Unthreaded(st1, s);
            && Inv(st1) && Callable(st1, OnEnd, st.m.id[s]) && Inv(st')
            && s in st'.m.pollType && Events(st'.m.pollType[s]) == NOTHING && s in st'.m.fd
            && st'.m.fd[s] in st'.m.kernel
            && Retold(st'.m.kernel, st'.m.fd[s], Events(st'.m.pollType[s]), n)[st'.m.fd[s]].ptr == s != n
  {
    hide Inv, Kind, KindFits, Events, WithEvents, Settled, HomesIn, Evolves, Unthreaded;
    FinFacts(st, s);
    var st1 := Repolled(st, s, WithEvents(st.m.pollType[s], Events(st.m.pollType[s]).Only(WRITABLE)));
    UnthreadedKeeps(st1, s);
    UnthreadedPolls(st1, s);
    KernelFacts(Unthreaded(st1, s), s);
    MovableFacts(Unthreaded(st1, s), s, n);
  }

  lemma UnthreadedPolls(st: State, s: Addr)
    ensures Unthreaded(st, s).m.pollType == st.m.pollType
  {
    hide BypassPrev, BypassNext, BypassHead, Without, Dropped;
  }

  lemma HeldBackKeeps(st: State, s: Addr)
    requires Inv(st) && Settled(st) && Dispatchable(st, s) && st.g.place[s].Linked? && s in st.m.lowPrio
             && st.m.lowPrio[s] != 2
    ensures Inv(HeldBack(st, s))
  {
    hide Inv, Kind, KindFits, Events, WithEvents, Unthreaded, Joined, Joinable, Repolled;
    HeldBackFacts(st, s);
    var st1 := Repolled(st, s, WithEvents(st.m.pollType[s], Events(st.m.pollType[s]).Only(WRITABLE)));
    UnthreadedKeeps(st1, s);
    JoinedKeeps(Unthreaded(st1, s), s, Queued);
  }

  lemma HeldBackType(st: State, s: Addr)
    requires Inv(st) && Settled(st) && Dispatchable(st, s) && st.g.place[s].Linked? && s in st.m.lowPrio
             && st.m.lowPrio[s] != 2
    ensures var st', t := HeldBack(st, s), WithEvents(st.m.pollType[s], Events(st.m.pollType[s]).Only(WRITABLE));
            PlaceOf(st', s) == Queued && s in st'.m.pollType && st'.m.pollType[s] == t
                && Events(t) == Events(st.m.pollType[s]).Only(WRITABLE)
  {
    hide Inv, Kind, KindFits, Events, WithEvents, PushPrev, PushNext, BypassPrev, BypassNext, BypassHead, Without,
         Rearmed, JoinLog;
    HeldBackFacts(st, s);
  }

  lemma PersistsFirst(st: State, s: Addr)
    requires Inv(st) && Settled(st) && Dispatchable(st, s)
    ensures Persists(st, st, s, s)
  {
    hide Inv, HomesIn, Kind;
    HomeOf(st, s);
  }

  lemma PersistsSame(start: State, st: State, s: Addr, n: Addr)
    requires Persists(start, st, s, n)
    ensures s in start.m.id && n in st.m.id && st.m.id[n] == start.m.id[s]
  {
  }

  lemma ReadPersists(start: State, st: State, st': State, s: Addr, n: Addr)
    requires Inv(st) && Settled(st) && Evolves(start, st, {}, {}) && s in start.m.id
    requires exists m :: Persists(start, st, s, m) && Dispatchable(st, m)
    requires HandlerRan(st, OnData, start.m.id[s], st', n, {}, {})
    ensures Evolves(start, st', {}, {}) && Persists(start, st', s, n) && Whole(st', n)
    ensures st'.m.prev[n] == st'.m.context[n] <==> st'.g.place[n] == Closed
    ensures st'.g.place[n] != Closed ==> Dispatchable(st', n)
    ensures st'.g.walk.Walk? <==> st.g.walk.Walk?
  {
    hide Inv, HomesIn, Evolves, Kind;
    var m :| Persists(start, st, s, m) && Dispatchable(st, m);
    OpenFacts(st, m);
    HandlerEvolves(st, OnData, start.m.id[s], st', n, {}, {});
    EvolvesPersists(st, st', m, n);
    EvolvesTrans(start, st, st', {}, {});
    StillShows(st, st', {}, {});
  }

  lemma FinFacts(st: State, s: Addr)
    requires Inv(st) && Settled(st) && Dispatchable(st, s)
    ensures Whole(st, s)
    ensures var t := WithEvents(st.m.pollType[s], Events(st.m.pollType[s]).Only(WRITABLE));
            var st' := Repolled(st, s, t);
            && Events(t) == Events(st.m.pollType[s]).Only(WRITABLE)
            && st' == st.(m := st.m.(pollType := st.m.pollType[s := t],
               kernel := st.m.kernel[st.m.fd[s] := Registration(Events(t), s)]))
            && Inv(st') && Settled(st') && Evolves(st, st', {}, {}) && Callable(st', OnEnd, st.m.id[s])
  {
    hide Inv, HomesIn, Kind, Events, KindFits, WithEvents, Evolves;
    OpenFacts(st, s);
    ClosedFacts(st, s);
    DebtFacts(st, s);
    NarrowTypes(st.g.place[s], st.m.pollType[s], WRITABLE);
    RepolledEvolves(st, s, WithEvents(st.m.pollType[s], Events(st.m.pollType[s]).Only(WRITABLE)), {}, {});
  }

  /** How a writable event ends, when its handler left `mid` and returned `n`: the socket goes on polling for writable
      only if a write fell short and it was not shut down. */
  ghost predicate WritableDone(mid: State, n: Addr, st': State) {
    && n in mid.m.pollType && n in mid.g.place
    && st' == if mid.g.place[n] == Closed || (mid.m.lastWriteFailed
       && Kind(mid.m.pollType[n]) != POLL_TYPE_SOCKET_SHUT_DOWN) then mid
              else Repolled(mid, n, WithEvents(mid.m.pollType[n], Events(mid.m.pollType[n]).Only(READABLE)))
  }

  /** What the last `recv` leads to: data is handed on; the end of the stream is announced, with reading over, or
      closes a socket that was shut down on this side; an error closes it; and nothing to read changes nothing. */
  ghost predicate ReadDone(st: State, s: Addr, length: int, wouldBlock: bool, st': State, n: Addr) {
    && s in st.m.id && s in st.m.pollType
    && var shut := Kind(st.m.pollType[s]) == POLL_TYPE_SOCKET_SHUT_DOWN;
    if 0 < length < RECV_BUFFER_LENGTH then HandlerRan(st, OnData, st.m.id[s], st', n, {}, {})
    else if length == 0 && !shut then
      HandlerRan(Repolled(st, s, WithEvents(st.m.pollType[s], Events(st.m.pollType[s]).Only(WRITABLE))), OnEnd,
          st.m.id[s], st', n, {}, {})
    else if length == 0 || (length == -1 && !wouldBlock)
        then HandlerRan(Closing(st, s), OnClose, st.m.id[s], st', n, {}, {})
    else st' == st && n == s
  }
}
