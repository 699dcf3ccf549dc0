/** New sockets and contexts, and what a handler does with sockets. */
module Calling {
  import opened Threads
  import opened Polls
  import opened Journal
  import opened Chronicles
  import opened States
  import opened Repolling
  import opened Arming
  import opened Listed
  import opened Evolution
  import opened Operations
  import opened Writing
  import W = Wheel

  // ---- New sockets and contexts

  const SEMI_WRITABLE := WithEvents(POLL_TYPE_SEMI_SOCKET, WRITABLE)

  const SEMI_READABLE := WithEvents(POLL_TYPE_SEMI_SOCKET, READABLE)

  const OPEN_READABLE := WithEvents(POLL_TYPE_SOCKET, READABLE)

  lemma NewTypes(c: Addr)
    ensures KindFits(Linked(c), SEMI_WRITABLE) && KindFits(Listening(c), SEMI_READABLE)
            && KindFits(Linked(c), OPEN_READABLE)
    ensures Kind(SEMI_WRITABLE) == POLL_TYPE_SEMI_SOCKET && Events(SEMI_WRITABLE) == WRITABLE
    ensures Kind(SEMI_READABLE) == POLL_TYPE_SEMI_SOCKET && Events(SEMI_READABLE) == READABLE
    ensures Kind(OPEN_READABLE) == POLL_TYPE_SOCKET && Events(OPEN_READABLE) == READABLE
  {
  }

  lemma OpenedCallable(st: State, a: Addr, c: Addr, f: int, t: bv4, p: Place)
    requires Inv(st) && Openable(st, a, c, f, t, p) && Settled(st)
    ensures Callable(Opening(st, a, c, f, t, p), OnOpen, st.m.nextId)
  {
    hide Inv, HomesIn, KindFits, Opening;
    OpeningKeeps(st, a, c, f, t, p);
  }

  lemma RingHead(st: State)
    requires Inv(st)
    ensures st.m.ctxHead == At(st.g.contexts, 0)
    ensures st.m.ctxHead != NULL ==>
                st.m.ctxHead in st.m.ctxs && st.m.ctxHead in st.m.ctxPrev && st.m.ctxHead in st.m.ctxNext
  {
    hide Blocks, Threaded, Marked, Located, Hosted, Wired, Typed, Owned, Awaited, Batched, Clocked, Alarmed, Walked,
         Logged, Budgeted, Chronicled;
  }

  // ---- Handlers

  /** What user code can tell about a socket from its fields. */
  lemma OwnedFacts(st: State, k: int)
    requires Inv(st) && Settled(st) && k in st.m.owner
    ensures var s := st.m.owner[k];
            && s in st.g.place && Whole(st, s) && st.m.id[s] == k && s in st.m.context
            && (st.m.prev[s] == st.m.context[s] <==> st.g.place[s] == Closed)
            && (st.m.lowPrio[s] == 1 <==> st.g.place[s] == Queued)
            && (st.g.place[s].Listening? <==>
                        st.g.place[s] != Closed && Kind(st.m.pollType[s]) == POLL_TYPE_SEMI_SOCKET
                        && Events(st.m.pollType[s]) == READABLE)
            && (st.g.place[s].Listening? || st.g.place[s].Linked? ==> st.g.place[s].context == st.m.context[s])
            && st.g.place[s] != Loose
  {
    hide Inv, HomesIn;
    OwnerHome(st, k);
    ClosedFacts(st, st.m.owner[k]);
  }

  lemma TimedEvolves(st: State, s: Addr, time: nat, frozen: set<Addr>, pinned: set<int>)
    requires Inv(st) && Settled(st) && s in st.g.place
    ensures Whole(st, s) && st.m.context[s] in st.m.timestamp && st.m.context[s] in st.m.longTimestamp
    ensures var st' := Stamped(st, s, if time == 0 then W.NEVER
            else W.ShortStamp(st.m.timestamp[st.m.context[s]], time));
            Settled(st') && Evolves(st, st', frozen, pinned)
    ensures var st' := LongStamped(st, s, if time == 0 then W.NEVER
            else W.LongStamp(st.m.longTimestamp[st.m.context[s]], time));
            Settled(st') && Evolves(st, st', frozen, pinned)
  {
    hide Inv, Evolves, Stamped, LongStamped;
    TimeFacts(st, s);
    var c := st.m.context[s];
    StampRange(st.m.timestamp[c], time);
    StampRange(st.m.longTimestamp[c], time);
    StampedEvolves(st, s, if time == 0 then W.NEVER else W.ShortStamp(st.m.timestamp[c], time), frozen, pinned);
    StampedEvolves(st, s, if time == 0 then W.NEVER else W.LongStamp(st.m.longTimestamp[c], time), frozen, pinned);
  }

  lemma ShuttingEvolves(st: State, s: Addr, frozen: set<Addr>, pinned: set<int>)
    requires Inv(st) && Settled(st) && s in st.g.place && !st.g.place[s].Listening?
    ensures Whole(st, s)
    ensures st.g.place[s] != Closed ==> Evolves(st, ShutDown(st, s, ShutType(st.m.pollType[s])), frozen, pinned)
  {
    hide Inv, Evolves, ShutDown, Kind, ShutType;
    ShutFacts(st, s);
    if st.g.place[s] != Closed { ShutDownEvolves(st, s, ShutType(st.m.pollType[s]), frozen, pinned); }
  }

  lemma WritingEvolves(st: State, s: Addr, frozen: set<Addr>, pinned: set<int>)
    requires Inv(st) && Settled(st) && s in st.g.place
    requires st.g.place[s] != Closed ==> s in st.m.pollType && Kind(st.m.pollType[s]) != POLL_TYPE_SEMI_SOCKET
    ensures Whole(st, s)
    ensures st.g.place[s] != Queued && !Mute(st, s) ==>
              var t := WithEvents(st.m.pollType[s], BOTH);
              Evolves(st, ShortWrite(st, s, t), frozen, pinned) && Evolves(st, Repolled(st, s, t), frozen, pinned)
  {
    hide Inv, Evolves, ShortWrite, Repolled, Kind, WithEvents;
    WriteFacts(st, s);
    if st.g.place[s] != Queued && !Mute(st, s) {
      var t := WithEvents(st.m.pollType[s], BOTH);
      ShortWriteEvolves(st, s, t, frozen, pinned);
      RepolledEvolves(st, s, t, frozen, pinned);
    }
  }

  lemma AcceptEvolves(st: State, s: Addr, c: Addr, f: int, st': State, frozen: set<Addr>, pinned: set<int>)
    requires Inv(st) && Settled(st) && Openable(st, s, c, f, OPEN_READABLE, Linked(c)) && c !in frozen
    requires exists n :: HandlerRan(Opening(st, s, c, f, OPEN_READABLE, Linked(c)), OnOpen, st.m.nextId, st', n, frozen,
             pinned)
    ensures Evolves(st, st', frozen, pinned)
  {
    hide Inv, Evolves, HomesIn, Opening, HandlerRan, KindFits;
    var st1 := Opening(st, s, c, f, OPEN_READABLE, Linked(c));
    var n :| HandlerRan(st1, OnOpen, st.m.nextId, st', n, frozen, pinned);
    OpeningKeeps(st, s, c, f, OPEN_READABLE, Linked(c));
    OpeningEvolves(st, s, c, f, OPEN_READABLE, Linked(c), frozen, pinned);
    OpenedCallable(st, s, c, f, OPEN_READABLE, Linked(c));
    HandlerEvolves(st1, OnOpen, st.m.nextId, st', n, frozen, pinned);
    EvolvesTrans(st, st1, st', frozen, pinned);
  }
}
