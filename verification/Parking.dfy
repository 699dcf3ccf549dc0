/** The step that closes a loose socket: its poll is stopped and its block goes on the close list. */
module Parking {
  import opened Threads
  import opened Polls
  import opened ReadyBatch
  import opened Journal
  import opened Chronicles
  import opened States
  import opened Unlinking
  import opened Linking

  ghost predicate IsLoose(st: State, s: Addr) {
    s in st.g.place && st.g.place[s] == Loose
  }

  ghost function Parked(st: State, s: Addr): State {
    if !Whole(st, s) then st else
    var head := if Closed in st.m.heads then st.m.heads[Closed] else NULL;
    st.(m := st.m.(prev := st.m.prev[s := st.m.context[s]],
                   next := st.m.next[s := head],
                   heads := st.m.heads[Closed := s],
                   kernel := st.m.kernel - {st.m.fd[s]}),
        batch := Redirected(st.batch, Poll(s), Nobody),
        g := st.g.(rolls := st.g.rolls[Closed := [s] + (if Closed in st.g.rolls then st.g.rolls[Closed] else [])],
                   place := st.g.place[s := Closed],
                   debts := st.g.debts - {st.m.id[s]},
                   log := st.g.log + [Shut(st.m.id[s])]))
  }

  lemma ParkedLinks(st: State, s: Addr)
    requires Inv(st) && IsLoose(st, s)
    ensures var st' := Parked(st, s);
            && Closed in st.m.heads && Closed in st.g.rolls
            && Threaded(st'.m.prev, st'.m.next, st'.m.heads, st'.g.rolls, st'.g.place)
  {
    hide Blocks, Marked, Located, Hosted, Wired, Typed, Owned, Awaited, Batched, Clocked, Alarmed, Walked, Ringed,
         Logged, Budgeted, Chronicled;
    hide Open, Swept, Unseen, UnseenLong, Redirected, Chained, Stacked;
    Live(st, s);
    ParkThreaded(st.m.prev, st.m.next, st.m.heads, st.g.rolls, st.g.place, s, st.m.context[s]);
  }

  lemma OpenParked(place: map<Addr, Place>, s: Addr)
    requires s in place && place[s] == Loose
    ensures Open(place[s := Closed]) == Open(place) - {s} && s in Open(place)
    ensures Swept(place[s := Closed]) == Swept(place)
  {
  }

  lemma MarkedPark(place: map<Addr, Place>, prev: Links, context: map<Addr, Addr>, s: Addr)
    requires Marked(place, prev, context) && s in place && s in context
    ensures Marked(place[s := Closed], prev[s := context[s]], context)
  {
  }

  lemma LocatedPark(place: map<Addr, Place>, context: map<Addr, Addr>, lowPrio: map<Addr, int>, s: Addr)
    requires Located(place, context, lowPrio) && s in place && place[s] == Loose
    ensures Located(place[s := Closed], context, lowPrio)
  {
  }

  lemma WiredPark(open: set<Addr>, fd: map<Addr, int>, pollType: map<Addr, bv4>, kernel: map<int, Registration>,
                  s: Addr)
    requires Wired(open, fd, pollType, kernel) && s in open
    ensures s in fd && Wired(open - {s}, fd, pollType, kernel - {fd[s]})
  {
  }

  lemma AwaitedPark(debts: set<int>, owner: map<int, Addr>, open: set<Addr>, pollType: map<Addr, bv4>, id: map<Addr,
                    int>, nextId: int, s: Addr)
    requires Awaited(debts, owner, open, pollType) && Owned(id, owner, nextId) && s in id
    ensures Awaited(debts - {id[s]}, owner, open - {s}, pollType)
  {
  }

  lemma BatchedPark(rs: seq<Ready>, open: set<Addr>, limit: nat, s: Addr)
    requires Batched(rs, open, limit)
    ensures Batched(Redirected(rs, Poll(s), Nobody), open - {s}, limit)
  {
    var rs' := Redirected(rs, Poll(s), Nobody);
    forall a
      ensures Count(rs', Poll(a)) <= limit
    {
      RedirectedCounts(rs, Poll(s), Nobody, Poll(a));
    }
  }

  lemma LoggedPark(log: Log, owner: map<int, Addr>, open: set<Addr>, nextId: int, id: map<Addr, int>, s: Addr)
    requires Logged(log, owner, open, nextId) && Owned(id, owner, nextId) && s in id && s in open
    ensures Logged(log + [Shut(id[s])], owner, open - {s}, nextId)
  {
    Append(log, Shut(id[s]));
  }

  lemma ParkedRest(st: State, s: Addr)
    requires Inv(st) && IsLoose(st, s)
    ensures var st' := Parked(st, s);
            && Marked(st'.g.place, st'.m.prev, st'.m.context)
            && Located(st'.g.place, st'.m.context, st'.m.lowPrio)
            && Typed(st'.g.place, st'.m.pollType)
            && Wired(Open(st'.g.place), st'.m.fd, st'.m.pollType, st'.m.kernel)
            && Awaited(st'.g.debts, st'.m.owner, Open(st'.g.place), st'.m.pollType)
            && Batched(st'.batch, Open(st'.g.place), st'.limit)
            && Logged(st'.g.log, st'.m.owner, Open(st'.g.place), st'.m.nextId)
            && st'.g.debts == Owing(st'.g.log)
            && Swept(st'.g.place) == Swept(st.g.place)
  {
    hide Blocks, Threaded, Marked, Located, Hosted, Wired, Typed, Owned, Awaited, Batched, Clocked, Alarmed, Walked,
         Ringed, Logged, Budgeted, Chronicled;
    hide Open, Swept, Unseen, UnseenLong, Dropped, Without, BypassPrev, BypassNext, BypassHead;
    hide Redirected;
    Live(st, s);
    OpenParked(st.g.place, s);
    MarkedPark(st.g.place, st.m.prev, st.m.context, s);
    LocatedPark(st.g.place, st.m.context, st.m.lowPrio, s);
    TypedJoin(st.g.place, st.m.pollType, s, Closed);
    WiredPark(Open(st.g.place), st.m.fd, st.m.pollType, st.m.kernel, s);
    AwaitedPark(st.g.debts, st.m.owner, Open(st.g.place), st.m.pollType, st.m.id, st.m.nextId, s);
    BatchedPark(st.batch, Open(st.g.place), st.limit, s);
    LoggedPark(st.g.log, st.m.owner, Open(st.g.place), st.m.nextId, st.m.id, s);
    Append(st.g.log, Shut(st.m.id[s]));
  }

  lemma ParkedKeys(st: State, s: Addr)
    requires Inv(st) && IsLoose(st, s)
    ensures var st' := Parked(st, s);
            && st'.m.prev.Keys == st.m.prev.Keys && st'.m.next.Keys == st.m.next.Keys
            && st'.g.place.Keys == st.g.place.Keys && st'.g.rolls.Keys == st.g.rolls.Keys
  {
    hide Blocks, Threaded, Marked, Located, Hosted, Wired, Typed, Owned, Awaited, Batched, Clocked, Alarmed, Walked,
         Ringed, Logged, Budgeted, Chronicled;
    hide Open, Swept, Unseen, UnseenLong, Redirected;
    Live(st, s);
    ParkedLinks(st, s);
  }

  lemma ParkedChronicle(st: State, s: Addr)
    requires Inv(st) && IsLoose(st, s)
    ensures var st' := Parked(st, s); Chronicled(st'.g.log, st'.m.owner, st'.g.place, st'.m.tick, st'.g.alarms,
            st'.g.longAlarms)
  {
    hide Blocks, Threaded, Marked, Located, Hosted, Wired, Typed, Owned, Awaited, Batched, Clocked, Alarmed, Walked,
         Ringed, Logged, Budgeted, Chronicled;
    hide Open, Swept, Unseen, UnseenLong, Redirected;
    Live(st, s);
    NeutralKeeps(st.g.log, Shut(st.m.id[s]), st.m.owner, st.g.place, st.m.tick, st.g.alarms, st.g.longAlarms);
    PlacedKeeps(st.g.log + [Shut(st.m.id[s])], st.m.owner, st.g.place, st.m.tick, st.g.alarms, st.g.longAlarms, s,
        Closed);
  }

  /** Closing keeps the invariant: in particular no pending ready entry and no kernel registration is left for `s`. */
  lemma ParkedKeeps(st: State, s: Addr)
    requires Inv(st) && IsLoose(st, s)
    ensures Inv(Parked(st, s))
  {
    hide Blocks, Threaded, Marked, Located, Hosted, Wired, Typed, Owned, Awaited, Batched, Clocked, Alarmed, Walked,
         Ringed, Logged, Budgeted, Chronicled;
    hide Open, Swept, Unseen, UnseenLong, Dropped, Without, BypassPrev, BypassNext, BypassHead;
    hide Redirected, IsLoose;
    ParkedLinks(st, s);
    WalkedElsewhere(st.m.ctxs, st.m.walker, st.g.rolls, st.g.walk, Closed, [s] + st.g.rolls[Closed]);
    ParkedRest(st, s);
    ParkedKeys(st, s);
    ParkedChronicle(st, s);
  }

  lemma ParkedLog(st: State, s: Addr)
    requires Whole(st, s)
    ensures Parked(st, s).g.log != [] && Parked(st, s).g.log[|Parked(st, s).g.log| - 1] == Shut(st.m.id[s])
  {
    hide Redirected;
  }
}
