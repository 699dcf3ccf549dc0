/** What serving a batch of ready polls consists of: which steps, in which order, with the handlers' doings in between.
    */
module Serving {
  import opened Threads
  import opened Polls
  import opened Journal
  import opened States
  import opened Repolling
  import opened Tracking
  import opened Evolution
  import opened Operations
  import opened Listed
  import opened Calling
  import opened Sweeping
  import opened Rounds
  import opened Dispatching
  import opened Outcomes
  import opened Holding
  import opened Releasing
  import W = Wheel

  ghost predicate ClosedAt(st: State, s: Addr) {
    s in st.g.place && st.g.place[s] == Closed
  }

  /** The states between the reads of one readable event, and the address of the socket in each. */
  datatype Reads = Reads(states: seq<State>, at: seq<Addr>)

  /** One full buffer after the other was handed on, from the first of the states to the last. */
  ghost predicate Handed(st: State, s: Addr, got: Reads) {
    && |got.states| == |got.at| > 0 && got.states[0] == st && got.at[0] == s
    && (forall i | 0 <= i < |got.states| - 1 :: HandedOn(got.states[i], got.at[i], got.states[i + 1], got.at[i + 1]))
    && (forall i | 0 < i < |got.states| - 1 :: !ClosedAt(got.states[i], got.at[i]))
  }

  ghost predicate HandedOn(st: State, s: Addr, st': State, n: Addr) {
    s in st.m.id && HandlerRan(st, OnData, st.m.id[s], st', n, {}, {})
  }

  ghost predicate HandedLast(got: Reads, st: State, s: Addr) {
    |got.states| == |got.at| > 0 && got.states[|got.states| - 1] == st && got.at[|got.at| - 1] == s
  }

  /** `full` buffers were handed on and then the last `recv` was answered, unless a handler left the socket closed
      before. */
  ghost predicate ReadAll(st: State, s: Addr, full: nat, length: int, wouldBlock: bool, st': State, n: Addr,
                          got: Reads) {
    && Handed(st, s, got)
    && var last, at := got.states[|got.states| - 1], got.at[|got.at| - 1];
       if |got.states| > 1 && ClosedAt(last, at) then st' == last && n == at && |got.states| <= full + 1
       else |got.states| == full + 1 && ReadDone(last, at, length, wouldBlock, st', n)
  }

  lemma HandedFirst(st: State, s: Addr)
    ensures Handed(st, s, Reads([st], [s])) && HandedLast(Reads([st], [s]), st, s)
  {
  }

  lemma HandedMore(st: State, s: Addr, got: Reads, last: State, at: Addr, st': State, n: Addr)
    requires Handed(st, s, got) && HandedLast(got, last, at) && (|got.states| > 1 ==> !ClosedAt(last, at))
             && HandedOn(last, at, st', n)
    ensures Handed(st, s, Reads(got.states + [st'], got.at + [n]))
    ensures HandedLast(Reads(got.states + [st'], got.at + [n]), st', n)
  {
    hide HandedOn, ClosedAt;
    var more := Reads(got.states + [st'], got.at + [n]);
    forall i | 0 <= i < |more.states| - 1
      ensures HandedOn(more.states[i], more.at[i], more.states[i + 1], more.at[i + 1])
    {
      if i < |got.states| - 1 { assert HandedOn(got.states[i], got.at[i], got.states[i + 1], got.at[i + 1]); }
    }
    forall i | 0 < i < |more.states| - 1
      ensures !ClosedAt(more.states[i], more.at[i])
    {
      if i < |got.states| - 1 { assert !ClosedAt(got.states[i], got.at[i]); }
    }
  }

  lemma ReadAllEnds(st: State, s: Addr, full: nat, length: int, wouldBlock: bool, st': State, n: Addr, got: Reads,
                    last: State, at: Addr)
    requires Handed(st, s, got) && HandedLast(got, last, at)
    requires if |got.states| > 1 && ClosedAt(last, at) then st' == last && n == at && |got.states| <= full + 1
             else |got.states| == full + 1 && ReadDone(last, at, length, wouldBlock, st', n)
    ensures ReadAll(st, s, full, length, wouldBlock, st', n, got)
  {
    hide Handed, ReadDone, ClosedAt;
    assert |got.states| == |got.at| > 0 by { HandedSome(st, s, got); }
  }

  lemma {:induction false} HandedOnAll(st: State, s: Addr, got: Reads, i: nat)
    requires Handed(st, s, got) && s in st.m.id && 0 < i < |got.states|
    ensures Next(st.g.log, got.states[i].g.log, Called(OnData, st.m.id[s]))
  {
    hide HandlerRan, ClosedAt;
    assert HandedOn(got.states[i - 1], got.at[i - 1], got.states[i], got.at[i]);
    CallIsNext(got.states[i - 1], OnData, got.states[i - 1].m.id[got.at[i - 1]], got.states[i], got.at[i], {}, {});
    if i > 1 {
      HandedOnAll(st, s, got, i - 1);
      NextStays(st.g.log, got.states[i - 1].g.log, got.states[i].g.log, Called(OnData, st.m.id[s]));
    }
  }

  /** If there is data to read, `on_data` is what is called next. */
  lemma DataIsNext(st: State, s: Addr, full: nat, length: int, wouldBlock: bool, st': State, n: Addr, got: Reads)
    requires ReadAll(st, s, full, length, wouldBlock, st', n, got) && GotData(full, length) && s in st.m.id
    ensures Next(st.g.log, st'.g.log, Called(OnData, st.m.id[s]))
  {
    hide HandedOn, ReadDone, Next;
    var i: int := |got.states| - 1;
    if i > 0 { HandedOnAll(st, s, got, i); }
    if !(i > 0 && ClosedAt(got.states[i], got.at[i])) {
      ReadDoneOn(got.states[i], got.at[i], length, wouldBlock, st', n);
      if i > 0 { NextStays(st.g.log, got.states[i].g.log, st'.g.log, Called(OnData, st.m.id[s])); }
    }
  }

  lemma HandedSome(st: State, s: Addr, got: Reads)
    requires Handed(st, s, got)
    ensures |got.states| == |got.at| > 0
  {
  }

  /** One descriptor that was accepted: `on_pre_open` left `mid` and may have kept the descriptor for itself. */
  datatype Turn = Turn(before: State, mid: State, exported: bool, client: int, socket: Addr, after: State)

  /** A descriptor that is not kept becomes an established socket of the listen socket's context, waiting for data, of
      which `on_open` is told. */
  ghost predicate TurnTaken(t: Turn, ls: Addr) {
    && Evolves(t.before, t.mid, {}, {})
    && if t.exported then t.after == t.mid
       else
         && ls in t.mid.m.context
         && var c := t.mid.m.context[ls];
            var arrival := Opening(t.mid, t.socket, c, t.client, OPEN_READABLE, Linked(c));
            && Openable(t.mid, t.socket, c, t.client, OPEN_READABLE, Linked(c))
            && Arrived(t.mid, arrival, t.socket, t.client, Linked(c), POLL_TYPE_SOCKET, READABLE)
            && exists n :: HandlerRan(arrival, OnOpen, t.mid.m.nextId, t.after, n, {}, {})
  }

  /** The listen socket was found closed after `on_open`. */
  ghost predicate Stopped(t: Turn, ls: Addr) {
    !t.exported && ClosedAt(t.after, ls)
  }

  ghost function LastOf(st: State, turns: seq<Turn>): State {
    if turns == [] then st else turns[|turns| - 1].after
  }

  ghost predicate Taken(st: State, ls: Addr, turns: seq<Turn>) {
    forall i | 0 <= i < |turns| :: turns[i].before == LastOf(st, turns[..i]) && TurnTaken(turns[i], ls)
  }

  ghost predicate NoneStopped(turns: seq<Turn>, ls: Addr) {
    forall i | 0 <= i < |turns| :: !Stopped(turns[i], ls)
  }

  /** All that were `waiting` were accepted, one after the other, or the last one's `on_open` left the listen socket
      closed. */
  ghost predicate AcceptedAll(st: State, ls: Addr, waiting: nat, st': State, turns: seq<Turn>) {
    && Taken(st, ls, turns) && st' == LastOf(st, turns)
    && if |turns| > 0 && Stopped(turns[|turns| - 1], ls) then |turns| <= waiting
    && NoneStopped(turns[..|turns| - 1], ls)
       else |turns| == waiting && NoneStopped(turns, ls)
  }

  lemma TakenMore(st: State, ls: Addr, turns: seq<Turn>, t: Turn)
    requires Taken(st, ls, turns) && t.before == LastOf(st, turns) && TurnTaken(t, ls)
    ensures Taken(st, ls, turns + [t]) && LastOf(st, turns + [t]) == t.after
    ensures NoneStopped(turns, ls) && !Stopped(t, ls) ==> NoneStopped(turns + [t], ls)
  {
    hide TurnTaken, Stopped;
    var more := turns + [t];
    forall i | 0 <= i < |more|
      ensures more[i].before == LastOf(st, more[..i]) && TurnTaken(more[i], ls)
    {
      if i < |turns| {
        assert more[i] == turns[i] && more[..i] == turns[..i];
      } else {
        assert more[..i] == turns;
      }
    }
  }

  lemma ListenerClosed(st: State, k: int, ls: Addr)
    requires Inv(st) && Settled(st) && Listens(st, k, ls)
    ensures Whole(st, ls) && (st.m.prev[ls] == st.m.context[ls] <==> ClosedAt(st, ls))
  {
    hide Inv, Homes;
    ListenerFacts(st, k, ls);
    HomesOwner(st, k);
    ClosedFacts(st, ls);
  }

  lemma NoTurns(st: State, ls: Addr)
    ensures Taken(st, ls, []) && NoneStopped([], ls) && LastOf(st, []) == st
  {
  }

  lemma AcceptedIs(st: State, ls: Addr, waiting: nat, st': State, turns: seq<Turn>)
    requires Taken(st, ls, turns) && st' == LastOf(st, turns) && |turns| == waiting && NoneStopped(turns, ls)
    ensures AcceptedAll(st, ls, waiting, st', turns)
  {
    hide Taken, Stopped;
    if |turns| > 0 { assert !Stopped(turns[|turns| - 1], ls); }
  }

  lemma StoppedIs(st: State, ls: Addr, waiting: nat, st': State, turns: seq<Turn>, t: Turn)
    requires Taken(st, ls, turns + [t]) && st' == LastOf(st, turns + [t]) && |turns| + 1 <= waiting
             && NoneStopped(turns, ls) && Stopped(t, ls)
    ensures AcceptedAll(st, ls, waiting, st', turns + [t])
  {
    hide Taken, Stopped, NoneStopped;
    assert (turns + [t])[..|turns|] == turns;
  }

  /** What the oracles answered while an entry was served, and the states in between. */
  datatype Work = Work(written: State, mid: State, n: Addr, lowPriority: bool, full: nat, length: int, wouldBlock: bool,
                       end: Addr, got: Reads, waiting: nat, turns: seq<Turn>, passes: seq<Pass>)

  ghost function NoWork(st: State, s: Addr): Work {
    Work(st, st, s, false, 0, 0, false, s, Reads([], []), 0, [], [])
  }

  /** A readable event: a socket of low priority without a grant is held back if the budget is spent; and else it read,
      and paid for that. */
  ghost predicate ReadableServed(st: State, s: Addr, st': State, w: Work) {
    && s in st.m.lowPrio
    && if w.lowPriority && st.m.lowPrio[s] != 2 && st.m.budget <= 0 then
         st' == HeldBack(st, s) && SetAside(st, st', s)
       else
         var paid := Admitted(st, s, w.lowPriority);
         ReadPaid(st, paid, s, w.lowPriority) && ReadAll(paid, s, w.full, w.length, w.wouldBlock, st', w.end, w.got)
  }

  /** An established socket: first what it may write, then, if that left it open, what it may read. */
  ghost predicate SocketServed(st: State, s: Addr, events: Interest, st': State, w: Work) {
    && (if events.writable then
         && Evolves(Answered(st, s), w.written, {}, {}) && WritableDone(w.written, w.n, w.mid)
         && WritableKept(st, w.written, w.mid, w.n)
       else w.mid == st && w.n == s)
    && (if !events.readable || (events.writable && ClosedAt(w.mid, w.n)) then st' == w.mid
       else ReadableServed(w.mid, w.n, st', w))
  }

  /** A connecting socket: `on_connect_error` is told, and left `mid`; the socket is then closed, without `on_close`,
      unless it is closed already. Or it is established, waiting for data and its timeout off, and `on_open` is told.
      */
  ghost predicate ConnectingServed(st: State, s: Addr, error: bool, st': State, mid: State, n: Addr) {
    && s in st.m.id
    && if error then
         && HandlerRan(st, OnConnectError, st.m.id[s], mid, n, {}, {st.m.id[s]})
         && st' == (if ClosedAt(mid, s) then mid else Closing(mid, s)) && ClosedNow(st', st.m.id[s])
       else Connected(st, Opened(st, s), s) && HandlerRan(Opened(st, s), OnOpen, st.m.id[s], st', n, {}, {})
  }

  /** One ready poll of a socket. */
  ghost predicate Served(st: State, s: Addr, error: bool, events: Interest, st': State, w: Work) {
    && s in st.m.pollType && s in st.m.id
    && var t := st.m.pollType[s];
    if Kind(t) == POLL_TYPE_SEMI_SOCKET then
      if Events(t) == WRITABLE then ConnectingServed(st, s, error, st', w.mid, w.n)
      else AcceptedAll(st, s, w.waiting, st', w.turns)
    else if error then HandlerRan(Closing(st, s), OnClose, st.m.id[s], st', w.n, {}, {})
    else SocketServed(st, s, events, st', w)
  }

  ghost predicate TicksFit(m: Mem) {
    forall c | c in m.tick :: m.tick[c] + 1 < W.UINT32
  }

  /** One entry of the batch, the first of those pending in `st`. */
  ghost predicate EntryServed(st: State, st': State, w: Work) {
    && st.batch != []
    && var r := st.batch[0];
    match r.ptr
    case Nobody => st' == st
    case SweepTimer => if TicksFit(st.m) then AllTicked(st, st', []) && SweptAll(st, st', w.passes) else st' == st
    case Poll(s) =>
      && s in st.m.pollType
      && var events := r.events.Only(Events(st.m.pollType[s]));
      if events.Any() || r.error then Served(st, s, r.error, events, st', w) else st' == st
  }

  /** The state after the last of the served entries was left behind. */
  ghost function After(st: State, left: seq<State>): State {
    if left == [] then st
    else var last := left[|left| - 1]; if last.batch == [] then last else last.(batch := last.batch[1..])
  }

  /** The entries were served one after the other from `st` on; entry `i` left `left[i]`. */
  ghost predicate AllServed(st: State, left: seq<State>, works: seq<Work>) {
    && |works| == |left|
    && forall i | 0 <= i < |left| :: EntryServed(After(st, left[..i]), left[i], works[i])
  }

  lemma NoneServed(st: State)
    ensures AllServed(st, [], []) && After(st, []) == st
  {
  }

  lemma OneMoreServed(st: State, left: seq<State>, works: seq<Work>, st': State, w: Work)
    requires AllServed(st, left, works) && EntryServed(After(st, left), st', w)
    ensures AllServed(st, left + [st'], works + [w])
    ensures st'.batch != [] ==> After(st, left + [st']) == st'.(batch := st'.batch[1..])
  {
    hide EntryServed, After;
    var left', works' := left + [st'], works + [w];
    forall i | 0 <= i < |left'|
      ensures EntryServed(After(st, left'[..i]), left'[i], works'[i])
    {
      if i < |left| {
        assert left'[..i] == left[..i];
        assert EntryServed(After(st, left[..i]), left[i], works[i]);
      } else {
        assert left'[..i] == left;
      }
    }
    if st'.batch != [] { AfterOne(st, left, st'); }
  }

  lemma AfterOne(st: State, left: seq<State>, st': State)
    requires st'.batch != []
    ensures After(st, left + [st']) == st'.(batch := st'.batch[1..])
  {
  }

  /** The pre step without its callback: a new iteration, with the first five of the queue let back in. */
  ghost predicate Preceded(st: State, granted: State) {
    && Queued in st.g.rolls
    && var n := if |st.g.rolls[Queued]| < 5 then |st.g.rolls[Queued]| else 5;
       granted.m.budget == 5 - n && LetBackIn(st.(m := st.m.(iterationNr := st.m.iterationNr + 1)), granted, n)
  }

  /** The stages of one iteration. */
  datatype Iteration = Iteration(granted: State, waited: State, left: seq<State>, works: seq<Work>, dispatched: State)

  /** The pre step and its callback, a batch, all of which is served, and the post step and its callback. */
  ghost predicate Iterated(st: State, st': State, it: Iteration) {
    && Preceded(st, it.granted)
    && Evolves(it.granted, it.waited, {}, {})
    && AllServed(it.waited, it.left, it.works) && |it.left| == |it.waited.batch|
    && it.dispatched == After(it.waited, it.left)
    && Evolves(Freed(it.dispatched), st', {}, {})
  }

  /** The iterations of a run, with the state each began in and the one the last left: there was a poll left whenever
      one began. */
  ghost predicate Iterations(states: seq<State>, its: seq<Iteration>) {
    && |states| == |its| + 1
    && forall i | 0 <= i < |its| :: states[i].m.heap != {} && Iterated(states[i], states[i + 1], its[i])
  }

  ghost predicate RanFrom(states: seq<State>, its: seq<Iteration>, st: State, st': State) {
    Iterations(states, its) && states[0] == st && states[|its|] == st'
  }

  lemma NoIterations(st: State)
    ensures RanFrom([st], [], st, st)
  {
  }

  lemma OneMoreIteration(states: seq<State>, its: seq<Iteration>, start: State, st: State, st': State, it: Iteration)
    requires RanFrom(states, its, start, st) && st.m.heap != {} && Iterated(st, st', it)
    ensures RanFrom(states + [st'], its + [it], start, st')
  {
    hide Iterated;
    var more := states + [st'];
    forall i | 0 <= i < |its| + 1
      ensures more[i].m.heap != {} && Iterated(more[i], more[i + 1], (its + [it])[i])
    {
      if i < |its| { assert Iterated(states[i], states[i + 1], its[i]); }
    }
  }

  /** Waiting only fills the batch. */
  lemma WaitedEvolves(granted: State, st: State, st': State)
    requires Evolves(granted, st, {}, {}) && st' == st.(batch := st'.batch)
    ensures Evolves(granted, st', {}, {})
  {
    hide HomesIn, EstablishedIn, Remembers, NoNewQueued, Pins, Spares, Freezes, KeepsClocks, WalksOn;
  }
}
