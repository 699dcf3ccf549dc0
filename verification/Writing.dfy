/** Arming timeouts, writing and shutting down. */
module Writing {
  import opened Threads
  import opened Polls
  import opened Chronicles
  import opened States
  import opened Facts
  import opened Repolling
  import opened Arming
  import opened Listed
  import opened Evolution
  import W = Wheel

  lemma TimeFacts(st: State, s: Addr)
    requires Inv(st) && s in st.g.place
    ensures Whole(st, s) && st.m.context[s] in st.m.timestamp && st.m.context[s] in st.m.longTimestamp
    ensures 0 <= st.m.timestamp[st.m.context[s]] < W.SLOTS && 0 <= st.m.longTimestamp[st.m.context[s]] < W.SLOTS
  {
    hide Blocks, Threaded, Marked, Located, Hosted, Wired, Typed, Owned, Awaited, Batched, Alarmed, Walked, Ringed,
         Logged, Budgeted, Chronicled;
    Live(st, s);
    ClockRange(st.m.ctxs, st.m.tick, st.m.timestamp, st.m.longTimestamp, st.m.context[s]);
  }

  lemma ClockRange(ctxs: set<Addr>, tick: map<Addr, nat>, timestamp: map<Addr, int>, longTimestamp: map<Addr, int>,
                   c: Addr)
    requires Clocked(ctxs, tick, timestamp, longTimestamp) && c in ctxs
    ensures c in timestamp && 0 <= timestamp[c] < W.SLOTS && c in longTimestamp && 0 <= longTimestamp[c] < W.SLOTS
  {
    var t := tick[c];
    assert timestamp[c] == t % W.SLOTS && longTimestamp[c] == t / 15 % W.SLOTS;
  }

  lemma StampRange(timestamp: int, time: nat)
    requires 0 <= timestamp < W.SLOTS
    ensures IsStamp(W.ShortStamp(timestamp, time)) && IsStamp(W.LongStamp(timestamp, time)) && IsStamp(W.NEVER)
  {
  }

  ghost predicate IsShut(st: State, s: Addr) {
    s in st.m.pollType && Kind(st.m.pollType[s]) == POLL_TYPE_SOCKET_SHUT_DOWN
  }

  /** Writes on `s` are ignored: it is closed or shut down. */
  ghost predicate Mute(st: State, s: Addr) {
    PlaceOf(st, s) == Closed || IsShut(st, s)
  }

  ghost predicate Writable(st: State, s: Addr, length: nat, sent: int) {
    && -1 <= sent <= length
    && (PlaceOf(st, s) != Closed ==> s in st.m.pollType && Kind(st.m.pollType[s]) != POLL_TYPE_SEMI_SOCKET)
    && (PlaceOf(st, s) == Queued && !Mute(st, s) ==> sent == length)
  }

  lemma WriteFacts(st: State, s: Addr)
    requires Inv(st) && Settled(st) && s in st.g.place
    requires st.g.place[s] != Closed ==> s in st.m.pollType && Kind(st.m.pollType[s]) != POLL_TYPE_SEMI_SOCKET
    ensures Whole(st, s) && (st.m.prev[s] == st.m.context[s] <==> st.g.place[s] == Closed)
    ensures st.g.place[s] != Closed ==>
                st.m.fd[s] in st.m.kernel && st.m.kernel[st.m.fd[s]] == Registration(Events(st.m.pollType[s]), s)
    ensures st.g.place[s] != Queued && !Mute(st, s) ==>
            Repollable(st, s, WithEvents(st.m.pollType[s], BOTH)) && Kind(st.m.pollType[s]) == POLL_TYPE_SOCKET
    ensures Kind(WithEvents(st.m.pollType[s], BOTH)) == Kind(st.m.pollType[s])
            && Events(WithEvents(st.m.pollType[s], BOTH)) == BOTH
  {
    hide Inv;
    Live(st, s);
    ClosedFacts(st, s);
    if st.g.place[s] != Closed { KernelFacts(st, s); }
    CacheHalves(st.m.pollType[s], Kind(st.m.pollType[s]), BOTH);
  }

  /** The cached type and interest after a shutdown. */
  ghost function ShutType(t: bv4): bv4 {
    var t' := WithKind(t, POLL_TYPE_SOCKET_SHUT_DOWN);
    WithEvents(t', Events(t').Only(READABLE))
  }

  lemma ShutTypes(p: Place, t: bv4)
    ensures KindFits(p, t) && !p.Listening? ==> KindFits(p, ShutType(t))
    ensures ShutType(t) == WithEvents(WithKind(t, POLL_TYPE_SOCKET_SHUT_DOWN),
            Events(WithKind(t, POLL_TYPE_SOCKET_SHUT_DOWN)).Only(READABLE))
    ensures Kind(ShutType(t)) == POLL_TYPE_SOCKET_SHUT_DOWN && Events(ShutType(t)) == Events(t).Only(READABLE)
    ensures Events(WithKind(t, POLL_TYPE_SOCKET_SHUT_DOWN)) == Events(t)
  {
  }

  lemma ShutFacts(st: State, s: Addr)
    requires Inv(st) && Settled(st) && s in st.g.place && !st.g.place[s].Listening?
    ensures Whole(st, s) && (st.m.prev[s] == st.m.context[s] <==> st.g.place[s] == Closed)
    ensures st.g.place[s] != Closed ==>
                st.m.fd[s] in st.m.kernel && st.m.kernel[st.m.fd[s]] == Registration(Events(st.m.pollType[s]), s)
    ensures KindFits(st.g.place[s], ShutType(st.m.pollType[s]))
    ensures var t := st.m.pollType[s];
            && Events(WithKind(t, POLL_TYPE_SOCKET_SHUT_DOWN)) == Events(t)
            && ShutType(t) == WithEvents(WithKind(t, POLL_TYPE_SOCKET_SHUT_DOWN),
               Events(WithKind(t, POLL_TYPE_SOCKET_SHUT_DOWN)).Only(READABLE))
    ensures Events(ShutType(st.m.pollType[s])) == Events(st.m.pollType[s]).Only(READABLE)
    ensures Kind(ShutType(st.m.pollType[s])) == POLL_TYPE_SOCKET_SHUT_DOWN
  {
    hide Inv, ShutType, Kind, Events, WithKind, WithEvents, KindFits;
    Live(st, s);
    ClosedFacts(st, s);
    if st.g.place[s] != Closed { KernelFacts(st, s); }
    ShutTypes(st.g.place[s], st.m.pollType[s]);
  }
}
