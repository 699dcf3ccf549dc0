/** The operations user code may perform, as steps, and that each is such an evolution. */
module Operations {
  import opened Threads
  import opened Polls
  import opened ReadyBatch
  import opened Journal
  import opened Chronicles
  import opened States
  import opened Facts
  import opened Unlinking
  import opened Linking
  import opened Parking
  import opened Repolling
  import opened Creating
  import opened Relocating
  import opened Arming
  import opened Contexts
  import opened Listed
  import opened Tracking
  import opened Evolution
  import W = Wheel

  // ---- The operations user code may perform, as steps, and that each is such an evolution

  /** Everything but the places of sockets. */
  ghost predicate RestEvolves(st: State, st': State, frozen: set<Addr>) {
    && Freezes(st.g.rolls, st'.g.rolls, frozen)
    && WalksOn(st.g.walk, st'.g.walk)
    && KeepsClocks(st.m.tick, st'.m.tick)
    && OwesLess(st, st')
    && (st.g.walk.Walk? ==> KeepsContexts(st, st'))
    && st'.m.budget == st.m.budget && st'.m.iterationNr == st.m.iterationNr && st'.g.lowReads == st.g.lowReads
    && st.g.log <= st'.g.log && st'.limit == st.limit
    && Tracks(st, st')
  }

  lemma EvolvesInPlace(st: State, st': State, frozen: set<Addr>, pinned: set<int>)
    requires Homes(st') == Homes(st) && RestEvolves(st, st', frozen) && Established(st) <= Established(st')
    ensures Evolves(st, st', frozen, pinned)
  {
    hide RestEvolves, Homes, Established, Tracks;
    assert Evolves(st, st', frozen, pinned) by { Unpack(st, st', frozen); }
  }

  lemma Unpack(st: State, st': State, frozen: set<Addr>)
    requires RestEvolves(st, st', frozen)
    ensures Freezes(st.g.rolls, st'.g.rolls, frozen) && WalksOn(st.g.walk, st'.g.walk)
            && KeepsClocks(st.m.tick, st'.m.tick)
    ensures OwesLess(st, st') && (st.g.walk.Walk? ==> KeepsContexts(st, st'))
    ensures st'.m.budget == st.m.budget && st'.m.iterationNr == st.m.iterationNr && st'.g.lowReads == st.g.lowReads
    ensures st.g.log <= st'.g.log && st'.limit == st.limit && Tracks(st, st')
  {
    hide Tracks;
  }

  lemma EvolvesOne(st: State, st': State, k: int, to: Home, frozen: set<Addr>, pinned: set<int>)
    requires Homes(st') == Homes(st)[k := to] && RestEvolves(st, st', frozen) && Established(st) <= Established(st')
    requires k in Homes(st) ==> !OffLimits(Homes(st)[k].place, frozen)
    requires k in Homes(st) ==> Homes(st)[k].place != Closed && (to.place.Listening? ==> Homes(st)[k].place.Listening?)
    requires k in Homes(st) && (Homes(st)[k].place.Listening? || k in pinned)
             ==> to.addr == Homes(st)[k].addr && (to.place == Homes(st)[k].place || to.place == Closed)
    requires to.place == Queued ==> k in Homes(st) && Homes(st)[k].place == Queued
    ensures Evolves(st, st', frozen, pinned)
  {
    hide RestEvolves, Homes, Established, Tracks;
    Unpack(st, st', frozen);
  }

  lemma RestTrans(a: State, b: State, c: State, frozen: set<Addr>)
    requires RestEvolves(a, b, frozen) && RestEvolves(b, c, frozen)
    ensures RestEvolves(a, c, frozen)
  {
    hide Freezes, KeepsClocks, KeepsContexts, Tracks, OwesLess;
    TracksTrans(a, b, c);
    OwesTrans(a, b, c);
    FreezesTrans(a.g.rolls, b.g.rolls, c.g.rolls, frozen);
    ClocksTrans(a.m.tick, b.m.tick, c.m.tick);
    if a.g.walk.Walk? { ContextsTrans(a, b, c); }
    assert a.g.log <= c.g.log;
  }

  /** Unlinking a socket the sweep has still to see is logged, and concerns no other. */
  lemma TracksUnthreaded(st: State, s: Addr)
    requires Inv(st) && Threadable(st, s)
    ensures Tracks(st, Unthreaded(st, s))
  {
    hide Inv, BypassPrev, BypassNext, BypassHead, Without, Unseen, Tracked, Dropped;
    Live(st, s);
    UnthreadedTrace(st, s);
    var st' := Unthreaded(st, s);
    if st.g.walk.Walk? {
      forall a | a in Unseen(st.g.walk) && a in st.m.id
        ensures Tracked(st, st', a)
      {
        TrackedUnthreaded(st, s, a);
      }
    }
  }

  lemma UnthreadedTrace(st: State, s: Addr)
    requires Whole(st, s) && st.g.place[s] != Loose
    ensures var st', p := Unthreaded(st, s), st.g.place[s];
            && st'.m.id == st.m.id
            && st'.g.log == (if p.Linked? then st.g.log + [Left(st.m.id[s], p.context)] else st.g.log)
            && st'.g.walk == (if p.Linked? then Dropped(st.g.walk, p.context, s) else st.g.walk)
  {
    hide BypassPrev, BypassNext, BypassHead, Without, Dropped;
  }

  lemma TrackedUnthreaded(st: State, s: Addr, a: Addr)
    requires Inv(st) && Threadable(st, s) && st.g.walk.Walk? && a in Unseen(st.g.walk) && a in st.m.id
    ensures Tracked(st, Unthreaded(st, s), a)
  {
    hide Inv, Unthreaded, Unseen;
    Live(st, s);
    UnthreadedTrace(st, s);
    UnseenListed(st, a);
    OwnsIts(st, s);
    OwnsIts(st, a);
    DroppedUnseenOnly(st.g.walk, st.g.place[s], s);
    var st' := Unthreaded(st, s);
    if a == s { assert st'.g.log[|st.g.log|] == Left(st.m.id[s], st.g.walk.context); }
  }

  lemma DroppedUnseenOnly(w: Walk, p: Place, s: Addr)
    requires w.Walk?
    ensures p.Linked? && p.context == w.context ==> Unseen(Dropped(w, p.context, s)) == Unseen(w) - {s}
    ensures p.Linked? && p.context != w.context ==> Dropped(w, p.context, s) == w
  {
  }

  lemma RestUnthreaded(st: State, s: Addr, frozen: set<Addr>)
    requires Inv(st) && Threadable(st, s) && !OffLimits(PlaceOf(st, s), frozen)
    ensures RestEvolves(st, Unthreaded(st, s), frozen)
  {
    hide Inv, BypassPrev, BypassNext, BypassHead, Without, Tracks;
    TracksUnthreaded(st, s);
  }

  lemma RestWiped(st: State, s: Addr, frozen: set<Addr>)
    ensures RestEvolves(st, Wiped(st, s), frozen)
  {
    hide Tracks, Unseen;
    TracksCalm(st, Wiped(st, s));
  }

  lemma RestParked(st: State, s: Addr, frozen: set<Addr>)
    ensures RestEvolves(st, Parked(st, s), frozen)
  {
    hide Redirected, Tracks, Unseen, Calm;
    CalmSame(st.g.log);
    if s in st.m.id { CalmOne(st.g.log, Shut(st.m.id[s])); }
    TracksCalm(st, Parked(st, s));
  }

  /** What the sweep has still to see is live. */
  lemma UnseenLive(st: State, a: Addr)
    requires Inv(st) && a in Unseen(st.g.walk)
    ensures a in st.g.place && st.g.place[a].Linked? && a in st.m.heap
  {
    hide Inv;
    UnseenListed(st, a);
    Live(st, a);
  }

  lemma RestCreated(st: State, a: Addr, c: Addr, f: int, t: bv4, frozen: set<Addr>)
    requires Inv(st) && a !in st.m.heap
    ensures RestEvolves(st, Created(st, a, c, f, t), frozen)
  {
    hide Inv, Events, Tracks, Unseen;
    if a in Unseen(st.g.walk) { UnseenLive(st, a); }
    TracksCalm(st, Created(st, a, c, f, t));
  }

  lemma RestJoined(st: State, s: Addr, p: Place, frozen: set<Addr>)
    requires !OffLimits(p, frozen)
    ensures RestEvolves(st, Joined(st, s, p), frozen)
  {
    hide PushPrev, PushNext, Rearmed, Tracks, Unseen, SetEvent;
    JoinCalm(st, s, p);
    TracksCalm(st, Joined(st, s, p));
  }

  lemma SetEventIs(timer: Timer, k: int, stamp: int, upcoming: nat, unit: W.Unit)
    ensures var e := SetEvent(timer, k, stamp, upcoming, unit); e.Set? || e.Unset?
  {
  }

  lemma JoinCalm(st: State, s: Addr, p: Place)
    ensures JoinedGuard(st, s, p) ==> Calm(st.g.log, JoinLog(st, s, p))
    ensures Calm(st.g.log, st.g.log)
  {
    hide SetEvent;
    if JoinedGuard(st, s, p) && p.Linked? {
      SetEventIs(ShortTimer, st.m.id[s], st.m.timeout[s], st.m.tick[p.context] + 1, 1);
      SetEventIs(LongTimer, st.m.id[s], st.m.longTimeout[s], st.m.tick[p.context] + 1, 15);
    }
  }

  lemma RelocatedTrace(st: State, s: Addr, n: Addr)
    requires n !in st.m.id && s in st.m.id
    ensures Relocated(st, s, n).g.walk == st.g.walk && Relocated(st, s, n).g.log == st.g.log
    ensures forall a | a in st.m.id && a != s ::
                a in Relocated(st, s, n).m.id && Relocated(st, s, n).m.id[a] == st.m.id[a]
  {
    hide PatchPrev, PatchNext, PatchHead, Index, Redirected, Events;
  }

  lemma RestRelocated(st: State, s: Addr, n: Addr, frozen: set<Addr>)
    requires Inv(st) && Movable(st, s, n)
    ensures RestEvolves(st, Relocated(st, s, n), frozen)
  {
    hide Inv, PatchPrev, PatchNext, PatchHead, Index, Redirected, Events, Tracks, Unseen, Moved;
    Live(st, s);
    MovableFacts(st, s, n);
    forall a | a in Unseen(st.g.walk) && a in st.m.id
      ensures a != s
    {
      UnseenLive(st, a);
    }
    RelocatedTrace(st, s, n);
    TracksCalm(st, Relocated(st, s, n));
  }

  lemma RestStamped(st: State, s: Addr, x: int, frozen: set<Addr>)
    ensures RestEvolves(st, Stamped(st, s, x), frozen) && RestEvolves(st, LongStamped(st, s, x), frozen)
  {
    hide Rearmed, SetEvent, Upcoming, Tracks, Unseen;
    if Whole(st, s) {
      SetEventIs(ShortTimer, st.m.id[s], x, Upcoming(st.m.tick, st.m.context, Unseen(st.g.walk), s), 1);
      SetEventIs(LongTimer, st.m.id[s], x, Upcoming(st.m.tick, st.m.context, UnseenLong(st.g.walk), s), 15);
    }
    TracksCalm(st, Stamped(st, s, x));
    TracksCalm(st, LongStamped(st, s, x));
  }

  lemma EstablishedNew(owner: map<int, Addr>, pollType: map<Addr, bv4>, k0: int, a: Addr, t: bv4)
    requires k0 !in owner && (forall k | k in owner :: owner[k] != a)
    ensures EstablishedIn(owner, pollType) <= EstablishedIn(owner[k0 := a], pollType[a := t])
  {
    hide Kind;
    var owner', pollType' := owner[k0 := a], pollType[a := t];
    forall k | k in EstablishedIn(owner, pollType)
      ensures k in EstablishedIn(owner', pollType')
    {
      assert owner'[k] == owner[k] && owner[k] in pollType' && pollType'[owner[k]] == pollType[owner[k]];
    }
  }

  lemma EstablishedMoved(owner: map<int, Addr>, pollType: map<Addr, bv4>, k0: int, s: Addr, n: Addr)
    requires k0 in owner && s in pollType && (n == s || n !in pollType)
    requires forall k | k in owner :: owner[k] in pollType && (owner[k] == s <==> k == k0)
    ensures EstablishedIn(owner, pollType) <= EstablishedIn(owner[k0 := n], Moved(pollType, s, n))
  {
    hide Kind;
    var owner', pollType' := owner[k0 := n], Moved(pollType, s, n);
    forall k | k in EstablishedIn(owner, pollType)
      ensures k in EstablishedIn(owner', pollType')
    {
      var a := owner[k];
      if k == k0 {
        assert owner'[k] == n && n in pollType' && pollType'[n] == pollType[a];
      } else {
        assert owner'[k] == a && a in pollType' && pollType'[a] == pollType[a];
      }
    }
  }

  lemma EstablishedRepoll(owner: map<int, Addr>, pollType: map<Addr, bv4>, s: Addr, t: bv4)
    requires s in pollType && (Kind(pollType[s]) != POLL_TYPE_SEMI_SOCKET ==> Kind(t) != POLL_TYPE_SEMI_SOCKET)
    ensures EstablishedIn(owner, pollType) <= EstablishedIn(owner, pollType[s := t])
  {
    hide Kind;
  }

  // ---- Closing

  ghost function Detached(st: State, s: Addr): State {
    if PlaceOf(st, s) == Queued then Wiped(Unthreaded(st, s), s) else Unthreaded(st, s)
  }

  ghost function Closing(st: State, s: Addr): State {
    Parked(Detached(st, s), s)
  }

  /** The journal after `s` was taken off the list it is on. */
  ghost function LeaveLog(st: State, s: Addr): Log
    requires Whole(st, s)
  {
    if st.g.place[s].Linked? then st.g.log + [Left(st.m.id[s], st.g.place[s].context)] else st.g.log
  }

  lemma DetachedKeeps(st: State, s: Addr)
    requires Inv(st) && Threadable(st, s)
    ensures Whole(st, s)
    ensures var st' := Detached(st, s);
            && Inv(st') && IsLoose(st', s) && Whole(st', s) && st'.g.place == st.g.place[s := Loose]
            && st'.m.id == st.m.id && st'.m.owner == st.m.owner && st'.m.fd == st.m.fd && st'.m.nextId == st.m.nextId
            && st'.m.pollType == st.m.pollType && st'.m.heap == st.m.heap && st'.m.ctxs == st.m.ctxs
            && st'.m.context == st.m.context
  {
    hide Inv, BypassPrev, BypassNext, BypassHead, Without, Dropped;
    Live(st, s);
    UnthreadedKeeps(st, s);
    WipedKeeps(Unthreaded(st, s), s);
    Live(Detached(st, s), s);
  }

  lemma ClosingKeeps(st: State, s: Addr)
    requires Inv(st) && Threadable(st, s) && Settled(st)
    ensures Whole(st, s)
    ensures var st' := Closing(st, s);
            && Inv(st') && Settled(st') && Homes(st') == Homes(st)[st.m.id[s] := Home(s, Closed)]
            && st'.g.place == st.g.place[s := Closed] && st'.m.id == st.m.id && st'.m.owner == st.m.owner
            && st'.m.pollType == st.m.pollType
            && st'.g.log == LeaveLog(st, s) + [Shut(st.m.id[s])]
  {
    hide Inv, Homes, Detached, Redirected;
    DetachedKeeps(st, s);
    DetachedLog(st, s);
    ParkedKeeps(Detached(st, s), s);
    HomesPlaced(st, Closing(st, s), s, Closed);
  }

  lemma DetachedLog(st: State, s: Addr)
    requires Whole(st, s) && st.g.place[s] != Loose
    ensures Detached(st, s).g.log == LeaveLog(st, s)
  {
    hide BypassPrev, BypassNext, BypassHead, Without, Dropped;
  }

  lemma ClosingRest(st: State, s: Addr, frozen: set<Addr>)
    requires Inv(st) && Threadable(st, s) && !OffLimits(st.g.place[s], frozen)
    ensures RestEvolves(st, Closing(st, s), frozen)
  {
    hide Inv, RestEvolves, Unthreaded, Wiped, Parked;
    var a := Unthreaded(st, s);
    RestUnthreaded(st, s, frozen);
    if PlaceOf(st, s) == Queued {
      RestWiped(a, s, frozen);
      RestTrans(st, a, Wiped(a, s), frozen);
    }
    RestParked(Detached(st, s), s, frozen);
    RestTrans(st, Detached(st, s), Closing(st, s), frozen);
  }

  /** A sweep goes on. */
  lemma ClosingWalks(st: State, s: Addr)
    requires Inv(st) && Threadable(st, s)
    ensures Closing(st, s).g.walk.Walk? <==> st.g.walk.Walk?
  {
    hide Inv, Closing;
    ClosingRest(st, s, {});
  }

  lemma ClosingEvolves(st: State, s: Addr, frozen: set<Addr>, pinned: set<int>)
    requires Inv(st) && Threadable(st, s) && Settled(st) && !OffLimits(st.g.place[s], frozen)
    ensures Evolves(st, Closing(st, s), frozen, pinned)
  {
    hide Inv, Homes, Closing, RestEvolves, EstablishedIn;
    ClosingKeeps(st, s);
    ClosingRest(st, s, frozen);
    HomeOf(st, s);
    EvolvesOne(st, Closing(st, s), st.m.id[s], Home(s, Closed), frozen, pinned);
  }

  // ---- Connecting, listening, accepting

  ghost function Opening(st: State, a: Addr, c: Addr, f: int, t: bv4, p: Place): State {
    Joined(Created(st, a, c, f, t), a, p)
  }

  ghost predicate Openable(st: State, a: Addr, c: Addr, f: int, t: bv4, p: Place) {
    Creatable(st, a, c, f) && KindFits(p, t) && (p == Linked(c) || p == Listening(c))
  }

  lemma OpeningKeeps(st: State, a: Addr, c: Addr, f: int, t: bv4, p: Place)
    requires Inv(st) && Openable(st, a, c, f, t, p) && Settled(st)
    ensures Joinable(Created(st, a, c, f, t), a, p)
    ensures var st' := Opening(st, a, c, f, t, p);
            && Inv(st') && Settled(st') && a !in st.g.place && st'.g.place == st.g.place[a := p]
            && st'.m.owner == st.m.owner[st.m.nextId := a] && a in st'.m.id && st'.m.id[a] == st.m.nextId
            && st'.m.pollType == st.m.pollType[a := t]
            && Homes(st') == Homes(st)[st.m.nextId := Home(a, p)] && st.m.nextId !in Homes(st)
  {
    hide Inv, Homes, KindFits, PushPrev, PushNext, Rearmed, Events, JoinLog;
    BlocksAbsent(st, a);
    CreatedKeeps(st, a, c, f, t);
    var st1 := Created(st, a, c, f, t);
    Live(st1, a);
    JoinedKeeps(st1, a, p);
    JoinableFacts(st1, a, p);
    HomesNew(st, Opening(st, a, c, f, t, p), a, p);
  }

  lemma OpeningEvolves(st: State, a: Addr, c: Addr, f: int, t: bv4, p: Place, frozen: set<Addr>, pinned: set<int>)
    requires Inv(st) && Openable(st, a, c, f, t, p) && Settled(st) && c !in frozen
    ensures Evolves(st, Opening(st, a, c, f, t, p), frozen, pinned)
  {
    hide Inv, Homes, KindFits, RestEvolves, Opening, EstablishedIn;
    OpeningKeeps(st, a, c, f, t, p);
    OpeningRest(st, a, c, f, t, p, frozen);
    OwnersBelow(st);
    EstablishedNew(st.m.owner, st.m.pollType, st.m.nextId, a, t);
    EvolvesOne(st, Opening(st, a, c, f, t, p), st.m.nextId, Home(a, p), frozen, pinned);
  }

  lemma OpeningWalks(st: State, a: Addr, c: Addr, f: int, t: bv4, p: Place)
    ensures Opening(st, a, c, f, t, p).g.walk == st.g.walk
  {
    hide PushPrev, PushNext, Rearmed, Events;
  }

  lemma OpeningRest(st: State, a: Addr, c: Addr, f: int, t: bv4, p: Place, frozen: set<Addr>)
    requires Inv(st) && a !in st.m.heap && (p == Linked(c) || p == Listening(c))
    requires c !in frozen
    ensures RestEvolves(st, Opening(st, a, c, f, t, p), frozen)
  {
    hide Inv, RestEvolves, Created, Joined;
    RestCreated(st, a, c, f, t, frozen);
    RestJoined(Created(st, a, c, f, t), a, p, frozen);
    RestTrans(st, Created(st, a, c, f, t), Opening(st, a, c, f, t, p), frozen);
  }

  // ---- Adopting

  ghost function Resized(st: State, s: Addr, n: Addr): State {
    if n == s then st else Relocated(st, s, n)
  }

  ghost function Disarmed(st: State, s: Addr): State {
    LongStamped(Stamped(st, s, W.NEVER), s, W.NEVER)
  }

  ghost function Adopting(st: State, c: Addr, s: Addr, n: Addr): State {
    if PlaceOf(st, s) == Queued then Disarmed(Resized(st, s, n), n)
    else Joined(Disarmed(Resized(Unthreaded(st, s), s, n), n), n, Linked(c))
  }

  ghost predicate Adoptable(st: State, c: Addr, s: Addr, n: Addr) {
    && s in st.g.place && (st.g.place[s].Linked? || st.g.place[s] == Queued) && c in st.m.ctxs
    && (n == s || (n != NULL && n !in st.m.heap && n !in st.m.ctxs))
  }

  lemma ResizedKeeps(st: State, s: Addr, n: Addr)
    requires Inv(st) && s in st.g.place && (st.g.place[s] == Loose || st.g.place[s] == Queued)
    requires n == s || (n != NULL && n !in st.m.heap && n !in st.m.ctxs)
    ensures Whole(st, s)
    ensures var st' := Resized(st, s, n);
            && Inv(st') && n in st'.g.place && st'.g.place == Moved(st.g.place, s, n)
            && st'.m.owner == st.m.owner[st.m.id[s] := n]
            && Whole(st', n) && st'.m.id[n] == st.m.id[s] && st'.m.pollType[n] == st.m.pollType[s]
            && st'.m.lowPrio[n] == st.m.lowPrio[s]
            && st'.m.pollType == Moved(st.m.pollType, s, n)
            && st'.m.ctxs == st.m.ctxs && st'.m.tick == st.m.tick && st'.g.rolls.Keys == st.g.rolls.Keys
            && (st.g.place[s] == Loose ==> st'.g.rolls == st.g.rolls)
            && (forall p | p in st.g.rolls && p != Queued :: p in st'.g.rolls && st'.g.rolls[p] == st.g.rolls[p])
            && st'.g.(rolls := st.g.rolls, place := st.g.place) == st.g
            && st'.m.budget == st.m.budget && st'.m.iterationNr == st.m.iterationNr
            && st'.m.lastWriteFailed == st.m.lastWriteFailed
            && st'.limit == st.limit
  {
    hide Inv, PatchPrev, PatchNext, PatchHead, Redirected, Index, Events;
    Live(st, s);
    HomeOf(st, s);
    if n == s {
      assert Moved(st.g.place, s, n) == st.g.place && Moved(st.m.pollType, s, n) == st.m.pollType;
      assert st.m.owner[st.m.id[s] := n] == st.m.owner;
    } else {
      RelocatedKeeps(st, s, n);
      MovableFacts(st, s, n);
      Live(Relocated(st, s, n), n);
    }
  }

  lemma DisarmedKeeps(st: State, s: Addr)
    requires Inv(st) && s in st.g.place
    ensures var st' := Disarmed(st, s);
            && Inv(st') && st'.g.place == st.g.place && st'.m.owner == st.m.owner && st'.m.id == st.m.id
            && st'.m.pollType == st.m.pollType
            && st'.m.lowPrio == st.m.lowPrio && st'.m.ctxs == st.m.ctxs && st'.g.lowReads == st.g.lowReads
            && st'.g.delayed == st.g.delayed && st'.m.budget == st.m.budget && st'.m.iterationNr == st.m.iterationNr
  {
    hide Inv, Rearmed, Upcoming;
    StampedKeeps(st, s, W.NEVER);
    Live(st, s);
    LongStampedKeeps(Stamped(st, s, W.NEVER), s, W.NEVER);
    Live(Stamped(st, s, W.NEVER), s);
  }

  /** Unlinking a delayed socket leaves room to link it again within the budget. */
  lemma RoomAfterUnlink(st: State, s: Addr)
    requires Inv(st) && s in st.g.place && st.g.place[s].Linked?
    ensures Whole(st, s)
    ensures var st' := Unthreaded(st, s);
            && Inv(st')
            && (st.m.lowPrio[s] == 2 ==> st'.g.lowReads + |st'.g.delayed| + 1 + st'.m.budget <= 5 * st'.m.iterationNr)
            && st'.m.lowPrio == st.m.lowPrio && st'.m.pollType == st.m.pollType && st'.m.heap == st.m.heap
            && st'.m.ctxs == st.m.ctxs
            && st'.m.id == st.m.id && st'.m.owner == st.m.owner && st'.g.place == st.g.place[s := Loose]
  {
    hide Blocks, Threaded, Marked, Located, Hosted, Wired, Typed, Owned, Awaited, Batched, Clocked, Alarmed, Walked,
         Ringed, Logged, Chronicled;
    hide BypassPrev, BypassNext, BypassHead, Without, Dropped;
    Live(st, s);
    UnthreadedKeeps(st, s);
    if st.m.lowPrio[s] == 2 {
      assert s in st.g.delayed;
      assert st.g.delayed == (st.g.delayed - {s}) + {s};
    }
  }

  lemma AdoptingLinkedKeeps(st: State, c: Addr, s: Addr, n: Addr)
    requires Inv(st) && Adoptable(st, c, s, n) && Settled(st) && st.g.place[s].Linked?
    ensures Whole(st, s)
    ensures var a := Unthreaded(st, s); var d := Disarmed(Resized(a, s, n), n);
            Inv(a) && IsLoose(a, s) && Inv(d) && Joinable(d, n, Linked(c))
                && Adopting(st, c, s, n) == Joined(d, n, Linked(c))
    ensures var st' := Adopting(st, c, s, n);
            && Inv(st') && st'.g.place == Moved(st.g.place, s, n)[n := Linked(c)]
            && st'.m.owner == st.m.owner[st.m.id[s] := n]
            && Whole(st', n) && st'.m.id[n] == st.m.id[s] && st'.m.pollType == Moved(st.m.pollType, s, n)
  {
    hide Inv, Unthreaded, Resized, Disarmed, KindFits, PushPrev, PushNext, Rearmed, Moved;
    RoomAfterUnlink(st, s);
    ClosedFacts(st, s);
    var a := Unthreaded(st, s);
    ResizedKeeps(a, s, n);
    var b := Resized(a, s, n);
    DisarmedKeeps(b, n);
    var d := Disarmed(b, n);
    AdoptKind(st, c, s);
    MovedPlace(st.g.place, s, n, Linked(c));
    JoinedKeeps(d, n, Linked(c));
    JoinableFacts(d, n, Linked(c));
    Live(d, n);
    Live(Adopting(st, c, s, n), n);
  }

  lemma MovedPlace(place: map<Addr, Place>, s: Addr, n: Addr, p: Place)
    requires s in place
    ensures n in Moved(place[s := Loose], s, n) && Moved(place[s := Loose], s, n)[n] == Loose
    ensures Moved(place[s := Loose], s, n)[n := p] == Moved(place, s, n)[n := p]
  {
  }

  lemma AdoptKind(st: State, c: Addr, s: Addr)
    requires Inv(st) && s in st.g.place && st.g.place[s].Linked?
    ensures Whole(st, s) && KindFits(Linked(c), st.m.pollType[s])
  {
    hide Inv;
    ClosedFacts(st, s);
  }

  lemma AdoptingQueuedKeeps(st: State, c: Addr, s: Addr, n: Addr)
    requires Inv(st) && Adoptable(st, c, s, n) && Settled(st) && st.g.place[s] == Queued
    ensures Whole(st, s)
    ensures Inv(Resized(st, s, n))
    ensures var st' := Adopting(st, c, s, n);
            && Inv(st') && st'.g.place == Moved(st.g.place, s, n)[n := Queued]
            && st'.m.owner == st.m.owner[st.m.id[s] := n]
            && Whole(st', n) && st'.m.id[n] == st.m.id[s] && st'.m.pollType == Moved(st.m.pollType, s, n)
  {
    hide Inv, Resized, Disarmed;
    Live(st, s);
    ResizedKeeps(st, s, n);
    DisarmedKeeps(Resized(st, s, n), n);
    Live(Adopting(st, c, s, n), n);
  }

  ghost function AdoptedPlace(st: State, c: Addr, s: Addr): Place {
    if PlaceOf(st, s) == Queued then Queued else Linked(c)
  }

  lemma MovedSettled(place: map<Addr, Place>, s: Addr, n: Addr, p: Place)
    requires s in place && p != Loose && NoneLoose(place)
    ensures NoneLoose(Moved(place, s, n)[n := p])
    ensures n == s ==> Moved(place, s, n)[n := p] == place[s := p]
  {
  }

  lemma AdoptingHomes(st: State, st': State, s: Addr, n: Addr, p: Place)
    requires Inv(st) && s in st.g.place && Whole(st, s) && (n == s || n !in st.m.heap)
    requires st'.g.place == Moved(st.g.place, s, n)[n := p] && st'.m.owner == st.m.owner[st.m.id[s] := n]
    ensures Homes(st') == Homes(st)[st.m.id[s] := Home(n, p)]
  {
    hide Inv, Homes, Moved;
    if n == s {
      HomeOf(st, s);
      assert st'.m.owner == st.m.owner;
      assert st'.g.place == st.g.place[s := p] by { assert Moved(st.g.place, s, s) == st.g.place
             by { MovedSelf(st.g.place, s); } }
      HomesPlaced(st, st', s, p);
    } else {
      BlocksAbsent(st, n);
      HomesMoved(st, st', s, n, p);
    }
  }

  lemma MovedSelf<V>(m: map<Addr, V>, s: Addr)
    requires s in m
    ensures Moved(m, s, s) == m
  {
  }

  lemma AdoptingKeeps(st: State, c: Addr, s: Addr, n: Addr)
    requires Inv(st) && Adoptable(st, c, s, n) && Settled(st)
    ensures Whole(st, s)
    ensures var st' := Adopting(st, c, s, n);
            && Inv(st') && Settled(st') && Homes(st') == Homes(st)[st.m.id[s] := Home(n, AdoptedPlace(st, c, s))]
            && n in st'.g.place && Whole(st', n) && st'.m.id[n] == st.m.id[s]
            && st'.m.owner == st.m.owner[st.m.id[s] := n]
            && st'.m.pollType == Moved(st.m.pollType, s, n)
  {
    hide Inv, Homes, Adopting, Moved;
    Live(st, s);
    if st.g.place[s] == Queued { AdoptingQueuedKeeps(st, c, s, n); } else { AdoptingLinkedKeeps(st, c, s, n); }
    MovedSettled(st.g.place, s, n, AdoptedPlace(st, c, s));
    AdoptingHomes(st, Adopting(st, c, s, n), s, n, AdoptedPlace(st, c, s));
  }

  lemma AdoptingRest(st: State, c: Addr, s: Addr, n: Addr, frozen: set<Addr>)
    requires Inv(st) && Adoptable(st, c, s, n) && c !in frozen && !OffLimits(st.g.place[s], frozen)
    ensures RestEvolves(st, Adopting(st, c, s, n), frozen)
  {
    hide Inv, RestEvolves, Unthreaded, Relocated, Stamped, LongStamped, Joined;
    var a := if PlaceOf(st, s) == Queued then st else Unthreaded(st, s);
    if PlaceOf(st, s) != Queued { RestUnthreaded(st, s, frozen); }
    RestSelf(st, frozen);
    var b := Resized(a, s, n);
    if n != s {
      AdoptMovable(st, c, s, n);
      RestRelocated(a, s, n, frozen);
      RestTrans(st, a, b, frozen);
    }
    var d := Stamped(b, n, W.NEVER);
    RestStamped(b, n, W.NEVER, frozen);
    RestTrans(st, b, d, frozen);
    RestStamped(d, n, W.NEVER, frozen);
    RestTrans(st, d, Disarmed(b, n), frozen);
    RestJoined(Disarmed(b, n), n, Linked(c), frozen);
    if PlaceOf(st, s) != Queued { RestTrans(st, Disarmed(b, n), Adopting(st, c, s, n), frozen); }
  }

  /** Taken off its list, if it is on a context's, the block may move. */
  lemma AdoptMovable(st: State, c: Addr, s: Addr, n: Addr)
    requires Inv(st) && Adoptable(st, c, s, n) && n != s
    ensures var a := if PlaceOf(st, s) == Queued then st else Unthreaded(st, s); Inv(a) && Movable(a, s, n)
  {
    hide Inv, BypassPrev, BypassNext, BypassHead, Without, Dropped;
    if PlaceOf(st, s) != Queued {
      Live(st, s);
      UnthreadedKeeps(st, s);
    }
  }

  lemma RestSelf(st: State, frozen: set<Addr>)
    ensures RestEvolves(st, st, frozen)
  {
    hide Tracks;
    TracksSelf(st);
  }

  lemma AdoptingEstablished(st: State, s: Addr, n: Addr)
    requires Inv(st) && s in st.g.place && (n == s || n !in st.m.heap)
    ensures Whole(st, s)
    ensures EstablishedIn(st.m.owner, st.m.pollType) <= EstablishedIn(st.m.owner[st.m.id[s] := n],
            Moved(st.m.pollType, s, n))
  {
    hide Inv, EstablishedIn, Moved;
    OwnersOf(st, s);
    if n != s { BlocksAbsent(st, n); }
    forall k | k in st.m.owner
      ensures st.m.owner[k] in st.m.pollType
    {
      OwnerHome(st, k);
    }
    EstablishedMoved(st.m.owner, st.m.pollType, st.m.id[s], s, n);
  }

  lemma AdoptingEvolves(st: State, c: Addr, s: Addr, n: Addr, frozen: set<Addr>, pinned: set<int>)
    requires Inv(st) && Adoptable(st, c, s, n) && Settled(st) && c !in frozen && !OffLimits(st.g.place[s], frozen)
    requires s in st.m.id && st.m.id[s] !in pinned
    ensures Evolves(st, Adopting(st, c, s, n), frozen, pinned)
  {
    hide Inv, Homes, Adopting, RestEvolves, EstablishedIn, Moved;
    AdoptingKeeps(st, c, s, n);
    AdoptingRest(st, c, s, n, frozen);
    HomeOf(st, s);
    AdoptingEstablished(st, s, n);
    EvolvesOne(st, Adopting(st, c, s, n), st.m.id[s], Home(n, AdoptedPlace(st, c, s)), frozen, pinned);
  }

  // ---- Arming, writing, shutting down, calling handlers, creating contexts

  lemma StampedEvolves(st: State, s: Addr, x: int, frozen: set<Addr>, pinned: set<int>)
    requires Inv(st) && s in st.g.place && IsStamp(x) && Settled(st)
    ensures var st' := Stamped(st, s, x); Inv(st') && Settled(st') && Evolves(st, st', frozen, pinned)
    ensures var st' := LongStamped(st, s, x); Inv(st') && Settled(st') && Evolves(st, st', frozen, pinned)
  {
    hide Inv, RestEvolves, Rearmed;
    StampedKeeps(st, s, x);
    LongStampedKeeps(st, s, x);
    RestStamped(st, s, x, frozen);
    EvolvesInPlace(st, Stamped(st, s, x), frozen, pinned);
    EvolvesInPlace(st, LongStamped(st, s, x), frozen, pinned);
  }

  /** A write that fell short, after which the socket polls for `t`. */
  ghost function ShortWrite(st: State, s: Addr, t: bv4): State {
    Indebted(Repolled(st, s, t), s)
  }

  /** A shutdown, after which the socket polls for `t`. */
  ghost function ShutDown(st: State, s: Addr, t: bv4): State {
    Repolled(Forgiven(st, s), s, t)
  }

  lemma RestRepolled(st: State, s: Addr, t: bv4, frozen: set<Addr>)
    ensures RestEvolves(st, Repolled(st, s, t), frozen)
  {
    hide Events, Kind, Tracks, Unseen, Calm;
    CalmSame(st.g.log);
    TracksCalm(st, Repolled(st, s, t));
  }

  lemma RestIndebted(st: State, s: Addr, frozen: set<Addr>)
    ensures RestEvolves(st, Indebted(st, s), frozen)
  {
    hide Tracks, Unseen, Calm;
    CalmSame(st.g.log);
    if s in st.m.id {
      CalmOne(st.g.log, FellShort(st.m.id[s]));
      assert Indebted(st, s).g.log[|st.g.log|].FellShort?;
    }
    TracksCalm(st, Indebted(st, s));
  }

  lemma RestShortWrite(st: State, s: Addr, t: bv4, frozen: set<Addr>)
    ensures RestEvolves(st, ShortWrite(st, s, t), frozen)
  {
    hide RestEvolves, Repolled, Indebted;
    RestRepolled(st, s, t, frozen);
    RestIndebted(Repolled(st, s, t), s, frozen);
    RestTrans(st, Repolled(st, s, t), ShortWrite(st, s, t), frozen);
  }

  lemma RestShutDown(st: State, s: Addr, t: bv4, frozen: set<Addr>)
    ensures RestEvolves(st, ShutDown(st, s, t), frozen)
  {
    hide Events, Kind, Tracks, Unseen, Calm;
    CalmSame(st.g.log);
    if s in st.m.id { CalmOne(st.g.log, HalfShut(st.m.id[s])); }
    TracksCalm(st, ShutDown(st, s, t));
  }

  lemma RepolledEvolves(st: State, s: Addr, t: bv4, frozen: set<Addr>, pinned: set<int>)
    requires Inv(st) && Repollable(st, s, t) && Settled(st)
    requires s in st.m.pollType && (Kind(st.m.pollType[s]) != POLL_TYPE_SEMI_SOCKET ==>
             Kind(t) != POLL_TYPE_SEMI_SOCKET)
    ensures var st' := Repolled(st, s, t); Inv(st') && Settled(st') && Evolves(st, st', frozen, pinned)
  {
    hide Inv, Events, Kind, KindFits, HomesIn, RestEvolves, EstablishedIn;
    EstablishedRepoll(st.m.owner, st.m.pollType, s, t);
    RepolledKeeps(st, s, t);
    RestRepolled(st, s, t, frozen);
    EvolvesInPlace(st, Repolled(st, s, t), frozen, pinned);
  }

  lemma ShortWriteEvolves(st: State, s: Addr, t: bv4, frozen: set<Addr>, pinned: set<int>)
    requires Inv(st) && Repollable(st, s, t) && Settled(st) && Kind(t) == POLL_TYPE_SOCKET && Events(t).writable
    ensures var st' := ShortWrite(st, s, t); Inv(st') && Settled(st') && Evolves(st, st', frozen, pinned)
  {
    hide Inv, Events, Kind, KindFits, HomesIn, RestEvolves, EstablishedIn;
    Live(st, s);
    EstablishedRepoll(st.m.owner, st.m.pollType, s, t);
    RepolledKeeps(st, s, t);
    IndebtedKeeps(Repolled(st, s, t), s);
    RestShortWrite(st, s, t, frozen);
    EvolvesInPlace(st, ShortWrite(st, s, t), frozen, pinned);
  }

  lemma ShutDownEvolves(st: State, s: Addr, t: bv4, frozen: set<Addr>, pinned: set<int>)
    requires Inv(st) && s in st.g.place && st.g.place[s] != Closed && KindFits(st.g.place[s], t) && Settled(st)
    requires Kind(t) == POLL_TYPE_SOCKET_SHUT_DOWN
    ensures var st' := ShutDown(st, s, t); Inv(st') && Settled(st') && Evolves(st, st', frozen, pinned)
  {
    hide Inv, Events, Kind, KindFits, HomesIn, RestEvolves, EstablishedIn;
    Live(st, s);
    EstablishedRepoll(st.m.owner, st.m.pollType, s, t);
    ForgivenKeeps(st, s);
    RepolledKeeps(Forgiven(st, s), s, t);
    RestShutDown(st, s, t, frozen);
    EvolvesInPlace(st, ShutDown(st, s, t), frozen, pinned);
  }

  lemma RestNoted(st: State, h: Handler, k: int, frozen: set<Addr>)
    ensures RestEvolves(st, Noted(st, h, k), frozen)
  {
    hide Tracks, Unseen, Calm;
    CalmOne(st.g.log, Called(h, k));
    TracksCalm(st, Noted(st, h, k));
  }

  lemma NotedEvolves(st: State, h: Handler, k: int, frozen: set<Addr>, pinned: set<int>)
    requires Inv(st) && Callable(st, h, k) && Settled(st)
    ensures var st' := Noted(st, h, k); Inv(st') && Settled(st') && Evolves(st, st', frozen, pinned)
  {
    hide Inv, RestEvolves, HomesIn, EstablishedIn;
    NotedKeeps(st, h, k);
    RestNoted(st, h, k, frozen);
    EvolvesInPlace(st, Noted(st, h, k), frozen, pinned);
  }

  lemma ContextCreatedEvolves(st: State, c: Addr, frozen: set<Addr>, pinned: set<int>)
    requires Inv(st) && ContextCreatable(st, c) && Settled(st)
    ensures var st' := ContextCreated(st, c); Inv(st') && Settled(st') && Evolves(st, st', frozen, pinned)
  {
    hide Inv, HomesIn, RestEvolves;
    ContextCreatedKeeps(st, c);
    ContextUnlisted(st, c);
    RestContext(st, c, frozen);
    EvolvesInPlace(st, ContextCreated(st, c), frozen, pinned);
  }

  lemma RestContext(st: State, c: Addr, frozen: set<Addr>)
    requires c !in st.m.tick && Linked(c) !in st.g.rolls && Listening(c) !in st.g.rolls
    ensures RestEvolves(st, ContextCreated(st, c), frozen)
  {
    hide PushPrev, PushNext;
    SuffixPush(st.g.contexts, st.g.contexts, c);
    assert IsSuffix(st.g.contexts, [c] + st.g.contexts);
  }

  lemma ContextUnlisted(st: State, c: Addr)
    requires Inv(st) && ContextCreatable(st, c)
    ensures c !in st.m.tick && Linked(c) !in st.g.rolls && Listening(c) !in st.g.rolls
  {
    hide Blocks, Threaded, Marked, Located, Wired, Typed, Owned, Awaited, Batched, Alarmed, Walked, Ringed, Logged,
         Budgeted, Chronicled;
  }

  lemma ContextFreedEvolves(st: State, c: Addr, frozen: set<Addr>, pinned: set<int>)
    requires Inv(st) && ContextFreeable(st, c) && Settled(st) && c !in frozen
    ensures var st' := ContextFreed(st, c); Inv(st') && Settled(st') && Evolves(st, st', frozen, pinned)
  {
    hide Inv, HomesIn, RestEvolves, BypassPrev, BypassNext, BypassHead, Without, EstablishedIn;
    ContextFreedKeeps(st, c);
    ContextListed(st, c);
    RestContextFreed(st, c, frozen);
    EvolvesInPlace(st, ContextFreed(st, c), frozen, pinned);
  }

  lemma RestContextFreed(st: State, c: Addr, frozen: set<Addr>)
    requires c !in frozen && st.g.walk.NoWalk?
    ensures RestEvolves(st, ContextFreed(st, c), frozen)
  {
    hide BypassPrev, BypassNext, BypassHead, Without;
  }

  // ---- Handlers

  /** Handler `h` was called for socket `k` in state `st`, and left `st'` and the pointer `n` it returned. */
  ghost predicate HandlerRan(st: State, h: Handler, k: int, st': State, n: Addr, frozen: set<Addr>, pinned: set<int>) {
    && Inv(st') && Settled(st') && Evolves(Noted(st, h, k), st', frozen, pinned)
    && k in st'.m.owner && st'.m.owner[k] == n
  }

  lemma CloseEvolves(st: State, s: Addr, st': State, n: Addr, frozen: set<Addr>, pinned: set<int>)
    requires Inv(st) && Threadable(st, s) && Settled(st) && !OffLimits(st.g.place[s], frozen)
    requires s in st.m.id && HandlerRan(Closing(st, s), OnClose, st.m.id[s], st', n, frozen, pinned)
    ensures Evolves(st, st', frozen, pinned)
  {
    hide Inv, Homes, Closing, Evolves, Noted;
    ClosingKeeps(st, s);
    ClosingEvolves(st, s, frozen, pinned);
    HandlerEvolves(Closing(st, s), OnClose, st.m.id[s], st', n, frozen, pinned);
    EvolvesTrans(st, Closing(st, s), st', frozen, pinned);
  }

  lemma HandlerEvolves(st: State, h: Handler, k: int, st': State, n: Addr, frozen: set<Addr>, pinned: set<int>)
    requires Inv(st) && Settled(st) && Callable(st, h, k) && HandlerRan(st, h, k, st', n, frozen, pinned)
    ensures Evolves(st, st', frozen, pinned)
  {
    hide Inv, Homes, Evolves, Noted;
    NotedEvolves(st, h, k, frozen, pinned);
    EvolvesTrans(st, Noted(st, h, k), st', frozen, pinned);
  }
}
