/** What user code can and cannot do to a loop while one of its handlers runs. */
module Evolution {
  import opened Threads
  import opened Polls
  import opened Journal
  import opened Chronicles
  import opened States
  import opened Tracking

  /** Where a socket is: the address of its block and the list it is on. */
  datatype Home = Home(addr: Addr, place: Place)

  ghost function Homes(st: State): map<int, Home> {
    HomesIn(st.m.owner, st.g.place)
  }

  ghost function HomesIn(owner: map<int, Addr>, place: map<Addr, Place>): map<int, Home> {
    map k | k in owner && owner[k] in place :: Home(owner[k], place[owner[k]])
  }

  /** No socket is left between two lists. */
  ghost predicate Settled(st: State) {
    NoneLoose(st.g.place)
  }

  ghost predicate NoneLoose(place: map<Addr, Place>) {
    forall s | s in place :: place[s] != Loose
  }

  /** No socket is freed, closed ones stay where they are, listen sockets can only be closed, others never listen. */
  ghost predicate Remembers(h: map<int, Home>, h': map<int, Home>) {
    forall k | k in h :: k in h'
      && (h[k].place == Closed ==> h'[k] == h[k])
      && (h[k].place.Listening? ==> h'[k].addr == h[k].addr && (h'[k].place == h[k].place || h'[k].place == Closed))
      && (h'[k].place.Listening? ==> h[k].place.Listening?)
  }

  /** The sockets that are past connecting. */
  ghost function EstablishedIn(owner: map<int, Addr>, pollType: map<Addr, bv4>): set<int> {
    set k | k in owner && owner[k] in pollType && Kind(pollType[owner[k]]) != POLL_TYPE_SEMI_SOCKET
  }

  ghost function Established(st: State): set<int> {
    EstablishedIn(st.m.owner, st.m.pollType)
  }

  /** Nobody joins the low-priority queue. */
  ghost predicate NoNewQueued(h: map<int, Home>, h': map<int, Home>) {
    forall k | k in h' && h'[k].place == Queued :: k in h && h[k].place == Queued
  }

  /** A pinned socket is left alone, except that it may be closed. */
  ghost predicate Pins(h: map<int, Home>, h': map<int, Home>, pinned: set<int>) {
    forall k | k in pinned && k in h :: k in h' && h'[k].addr == h[k].addr
        && (h'[k].place == h[k].place || h'[k].place == Closed)
  }

  /** So are the sockets on a frozen context's lists. */
  ghost predicate Spares(h: map<int, Home>, h': map<int, Home>, frozen: set<Addr>) {
    forall k | k in h && OffLimits(h[k].place, frozen) :: k in h' && h'[k] == h[k]
  }

  ghost predicate OffLimits(p: Place, frozen: set<Addr>) {
    (p.Linked? || p.Listening?) && p.context in frozen
  }

  /** A frozen context's lists are left alone. */
  ghost predicate Freezes(rolls: Rolls, rolls': Rolls, frozen: set<Addr>) {
    forall c | c in frozen ::
      && (Linked(c) in rolls ==> Linked(c) in rolls' && rolls'[Linked(c)] == rolls[Linked(c)])
      && (Listening(c) in rolls ==> Listening(c) in rolls' && rolls'[Listening(c)] == rolls[Listening(c)])
  }

  /** Clocks only move in sweeps; those of new contexts are at 0. */
  ghost predicate KeepsClocks(tick: map<Addr, nat>, tick': map<Addr, nat>) {
    forall c | c in tick' :: tick'[c] == 0 || (c in tick && tick'[c] == tick[c])
  }

  /** During a sweep contexts are only added, at the top. */
  ghost predicate KeepsContexts(st: State, st': State) {
    && IsSuffix(st.g.contexts, st'.g.contexts)
    && (forall c | c in st.m.tick :: c in st'.m.tick && st'.m.tick[c] == st.m.tick[c])
  }

  ghost predicate FellSince(log: Log, n: nat) {
    exists i | n <= i < |log| :: log[i].FellShort?
  }

  /** The flag is set by short writes. As long as no write falls short, nobody new waits for a writable event. */
  ghost predicate OwesLess(st: State, st': State) {
    && (st.m.lastWriteFailed ==> st'.m.lastWriteFailed)
    && (st'.m.lastWriteFailed ==> st.m.lastWriteFailed || FellSince(st'.g.log, |st.g.log|))
    && (!st'.m.lastWriteFailed ==> st'.g.debts <= st.g.debts)
  }

  ghost predicate Evolves(st: State, st': State, frozen: set<Addr>, pinned: set<int>) {
    && Remembers(Homes(st), Homes(st'))
    && NoNewQueued(Homes(st), Homes(st'))
    && Pins(Homes(st), Homes(st'), pinned)
    && Spares(Homes(st), Homes(st'), frozen)
    && Established(st) <= Established(st')
    && Freezes(st.g.rolls, st'.g.rolls, frozen)
    && WalksOn(st.g.walk, st'.g.walk)
    && KeepsClocks(st.m.tick, st'.m.tick)
    && OwesLess(st, st')
    && (st.g.walk.Walk? ==> KeepsContexts(st, st'))
    && st'.m.budget == st.m.budget && st'.m.iterationNr == st.m.iterationNr && st'.g.lowReads == st.g.lowReads
    && st.g.log <= st'.g.log && st'.limit == st.limit
    && Tracks(st, st')
  }

  lemma SuffixTrans(a: seq<Addr>, b: seq<Addr>, c: seq<Addr>)
    requires IsSuffix(a, b) && IsSuffix(b, c)
    ensures IsSuffix(a, c)
  {
    assert c[|c| - |b|..][|b| - |a|..] == c[|c| - |a|..];
  }

  lemma HomesTrans(a: map<int, Home>, b: map<int, Home>, c: map<int, Home>, frozen: set<Addr>, pinned: set<int>)
    requires Remembers(a, b) && NoNewQueued(a, b) && Pins(a, b, pinned) && Spares(a, b, frozen)
    requires Remembers(b, c) && NoNewQueued(b, c) && Pins(b, c, pinned) && Spares(b, c, frozen)
    ensures Remembers(a, c) && NoNewQueued(a, c) && Pins(a, c, pinned) && Spares(a, c, frozen)
  {
    hide OffLimits;
  }

  lemma FreezesTrans(a: Rolls, b: Rolls, c: Rolls, frozen: set<Addr>)
    requires Freezes(a, b, frozen) && Freezes(b, c, frozen)
    ensures Freezes(a, c, frozen)
  {
  }

  lemma ClocksTrans(a: map<Addr, nat>, b: map<Addr, nat>, c: map<Addr, nat>)
    requires KeepsClocks(a, b) && KeepsClocks(b, c)
    ensures KeepsClocks(a, c)
  {
  }

  lemma ContextsTrans(a: State, b: State, c: State)
    requires KeepsContexts(a, b) && KeepsContexts(b, c)
    ensures KeepsContexts(a, c)
  {
    SuffixTrans(a.g.contexts, b.g.contexts, c.g.contexts);
  }

  lemma OwesTrans(a: State, b: State, c: State)
    requires OwesLess(a, b) && OwesLess(b, c) && a.g.log <= b.g.log <= c.g.log
    ensures OwesLess(a, c)
  {
    if FellSince(b.g.log, |a.g.log|) {
      var i :| |a.g.log| <= i < |b.g.log| && b.g.log[i].FellShort?;
      assert c.g.log[i] == b.g.log[i];
    }
  }

  lemma EvolvesTrans(a: State, b: State, c: State, frozen: set<Addr>, pinned: set<int>)
    requires Evolves(a, b, frozen, pinned) && Evolves(b, c, frozen, pinned)
    ensures Evolves(a, c, frozen, pinned)
  {
    hide Remembers, NoNewQueued, Pins, Spares, Freezes, KeepsClocks, KeepsContexts, Homes, Established, Tracks,
         OwesLess;
    TracksTrans(a, b, c);
    OwesTrans(a, b, c);
    HomesTrans(Homes(a), Homes(b), Homes(c), frozen, pinned);
    FreezesTrans(a.g.rolls, b.g.rolls, c.g.rolls, frozen);
    ClocksTrans(a.m.tick, b.m.tick, c.m.tick);
    if a.g.walk.Walk? { ContextsTrans(a, b, c); }
    assert a.g.log <= c.g.log;
  }

  lemma EvolvesRefl(st: State, frozen: set<Addr>, pinned: set<int>)
    ensures Evolves(st, st, frozen, pinned)
  {
    hide Tracks, Homes, Established;
    TracksSelf(st);
  }

  /** Frozen and pinned only restrict. */
  lemma EvolvesWeaker(a: State, b: State, frozen: set<Addr>, frozen': set<Addr>, pinned: set<int>)
    requires Evolves(a, b, frozen', pinned) && frozen <= frozen'
    ensures Evolves(a, b, frozen, pinned)
  {
    hide Remembers, NoNewQueued, Pins, KeepsClocks, KeepsContexts, Homes, Established;
  }

  lemma HomeOf(st: State, s: Addr)
    requires Inv(st) && s in st.g.place
    ensures Whole(st, s) && st.m.id[s] in Homes(st) && Homes(st)[st.m.id[s]] == Home(s, st.g.place[s])
    ensures st.m.id[s] < st.m.nextId && st.m.id[s] in st.m.owner && st.m.owner[st.m.id[s]] == s
  {
    hide Blocks, Threaded, Marked, Located, Hosted, Wired, Typed, Awaited, Batched, Clocked, Alarmed, Walked, Ringed,
         Logged, Budgeted, Chronicled;
    Live(st, s);
  }

  lemma OwnerHome(st: State, k: int)
    requires Inv(st) && k in st.m.owner
    ensures st.m.owner[k] in st.g.place && Whole(st, st.m.owner[k]) && st.m.id[st.m.owner[k]] == k
    ensures k in Homes(st) && Homes(st)[k] == Home(st.m.owner[k], st.g.place[st.m.owner[k]])
    ensures k < st.m.nextId
  {
    hide Threaded, Marked, Located, Hosted, Wired, Typed, Awaited, Batched, Clocked, Alarmed, Walked, Ringed, Logged,
         Budgeted, Chronicled;
    var s := st.m.owner[k];
    assert s in st.m.id;
    assert s in st.g.place;
    Live(st, s);
  }

  lemma OwnersOf(st: State, s: Addr)
    requires Inv(st) && s in st.g.place
    ensures Whole(st, s) && st.m.id[s] in st.m.owner
    ensures forall k | k in st.m.owner :: st.m.owner[k] in st.g.place && (st.m.owner[k] == s <==> k == st.m.id[s])
  {
    hide Inv;
    HomeOf(st, s);
    forall k | k in st.m.owner
      ensures st.m.owner[k] in st.g.place && (st.m.owner[k] == s <==> k == st.m.id[s])
    {
      OwnerHome(st, k);
    }
  }

  lemma HomesInPlaced(owner: map<int, Addr>, place: map<Addr, Place>, k0: int, s: Addr, p: Place)
    requires k0 in owner && s in place && (forall k | k in owner :: owner[k] in place && (owner[k] == s <==> k == k0))
    ensures HomesIn(owner, place[s := p]) == HomesIn(owner, place)[k0 := Home(s, p)]
  {
    var l, r := HomesIn(owner, place[s := p]), HomesIn(owner, place)[k0 := Home(s, p)];
    forall k
      ensures (k in l <==> k in r) && (k in l ==> l[k] == r[k])
    {
      assert k in owner ==> owner[k] in place && (owner[k] == s <==> k == k0);
    }
  }

  lemma HomesInMoved(owner: map<int, Addr>, place: map<Addr, Place>, k0: int, s: Addr, n: Addr, p: Place)
    requires k0 in owner && s in place && n !in place && (forall k | k in owner ::
             owner[k] in place && (owner[k] == s <==> k == k0))
    ensures HomesIn(owner[k0 := n], Moved(place, s, n)[n := p]) == HomesIn(owner, place)[k0 := Home(n, p)]
  {
    var place' := Moved(place, s, n)[n := p];
    var l, r := HomesIn(owner[k0 := n], place'), HomesIn(owner, place)[k0 := Home(n, p)];
    forall k
      ensures (k in l <==> k in r) && (k in l ==> l[k] == r[k])
    {
      assert k in owner ==> owner[k] in place && (owner[k] == s <==> k == k0);
      assert k in owner && k != k0 ==> owner[k] in place' && place'[owner[k]] == place[owner[k]];
    }
  }

  lemma HomesInNew(owner: map<int, Addr>, place: map<Addr, Place>, k0: int, a: Addr, p: Place)
    requires k0 !in owner && a !in place && (forall k | k in owner :: owner[k] in place)
    ensures HomesIn(owner[k0 := a], place[a := p]) == HomesIn(owner, place)[k0 := Home(a, p)]
  {
    var place' := place[a := p];
    var l, r := HomesIn(owner[k0 := a], place'), HomesIn(owner, place)[k0 := Home(a, p)];
    forall k
      ensures (k in l <==> k in r) && (k in l ==> l[k] == r[k])
    {
      assert k in owner ==> owner[k] in place && place'[owner[k]] == place[owner[k]];
    }
  }

  /** Only the place of `s` changed. */
  lemma HomesPlaced(st: State, st': State, s: Addr, p: Place)
    requires Inv(st) && s in st.g.place
    requires st'.m.owner == st.m.owner && st'.g.place == st.g.place[s := p]
    ensures Whole(st, s) && Homes(st') == Homes(st)[st.m.id[s] := Home(s, p)]
  {
    hide Inv, HomesIn;
    OwnersOf(st, s);
    HomesInPlaced(st.m.owner, st.g.place, st.m.id[s], s, p);
  }

  /** The block of `s` moved to `n`, and is placed at `p`. */
  lemma HomesMoved(st: State, st': State, s: Addr, n: Addr, p: Place)
    requires Inv(st) && s in st.g.place && n !in st.g.place && Whole(st, s)
    requires st'.m.owner == st.m.owner[st.m.id[s] := n] && st'.g.place == Moved(st.g.place, s, n)[n := p]
    ensures Homes(st') == Homes(st)[st.m.id[s] := Home(n, p)]
  {
    hide Inv, HomesIn, Moved;
    OwnersOf(st, s);
    HomesInMoved(st.m.owner, st.g.place, st.m.id[s], s, n, p);
  }

  lemma OwnersBelow(st: State)
    requires Inv(st)
    ensures forall k | k in st.m.owner :: st.m.owner[k] in st.g.place && k < st.m.nextId
  {
    hide Inv;
    forall k | k in st.m.owner
      ensures st.m.owner[k] in st.g.place && k < st.m.nextId
    {
      OwnerHome(st, k);
    }
  }

  /** A new socket at `a`. */
  lemma HomesNew(st: State, st': State, a: Addr, p: Place)
    requires Inv(st) && a !in st.g.place
    requires st'.m.owner == st.m.owner[st.m.nextId := a] && st'.g.place == st.g.place[a := p]
    ensures Homes(st') == Homes(st)[st.m.nextId := Home(a, p)] && st.m.nextId !in Homes(st)
  {
    hide Inv;
    OwnersBelow(st);
    HomesInNew(st.m.owner, st.g.place, st.m.nextId, a, p);
  }

  /** Sockets survive handlers. */
  lemma Remembered(st: State, st': State, k: int, frozen: set<Addr>, pinned: set<int>)
    requires Evolves(st, st', frozen, pinned) && k in st.m.owner && Inv(st)
    ensures k in st'.m.owner && k in Homes(st')
  {
    hide Inv;
    OwnerHome(st, k);
    assert k in Homes(st');
  }

  lemma StillShows(st: State, st': State, frozen: set<Addr>, pinned: set<int>)
    requires Evolves(st, st', frozen, pinned)
    ensures st'.g.walk.Walk? <==> st.g.walk.Walk?
  {
  }
}
