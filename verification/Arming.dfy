/** The steps that arm timeouts and call handlers. */
module Arming {
  import opened Threads
  import opened Journal
  import opened Chronicles
  import opened Chimes
  import opened States
  import opened Linking
  import W = Wheel

  // ---- Arming timeouts

  ghost predicate IsStamp(x: int) {
    0 <= x < W.SLOTS || x == W.NEVER
  }

  ghost function Stamped(st: State, s: Addr, x: int): State {
    if !Whole(st, s) then st else
    var u := Upcoming(st.m.tick, st.m.context, Unseen(st.g.walk), s);
    st.(m := st.m.(timeout := st.m.timeout[s := x]),
        g := if !st.g.place[s].Linked? then st.g
             else st.g.(alarms := Rearmed(st.g.alarms, s, x, u, 1),
                 log := st.g.log + [SetEvent(ShortTimer, st.m.id[s], x, u, 1)]))
  }

  ghost function LongStamped(st: State, s: Addr, x: int): State {
    if !Whole(st, s) then st else
    var u := Upcoming(st.m.tick, st.m.context, UnseenLong(st.g.walk), s);
    st.(m := st.m.(longTimeout := st.m.longTimeout[s := x]),
        g := if !st.g.place[s].Linked? then st.g
             else st.g.(longAlarms := Rearmed(st.g.longAlarms, s, x, u, 15),
                 log := st.g.log + [SetEvent(LongTimer, st.m.id[s], x, u, 15)]))
  }

  lemma AlarmedStamp(swept: set<Addr>, context: map<Addr, Addr>, tick: map<Addr, nat>, unseen: set<Addr>,
                     stamp: map<Addr, int>, alarms: map<Addr, Alarm>, unit: W.Unit, s: Addr, x: int)
    requires Alarmed(swept, context, tick, unseen, stamp, alarms, unit) && IsStamp(x)
    requires s in swept ==> s in context && context[s] in tick
    ensures Alarmed(swept, context, tick, unseen, stamp[s := x],
                    if s in swept then Rearmed(alarms, s, x, Upcoming(tick, context, unseen, s), unit)
                        else alarms, unit)
  {
    var stamp' := stamp[s := x];
    forall a | a in swept && a != s
      ensures a in stamp && a in stamp' && stamp'[a] == stamp[a]
    {
    }
  }

  lemma SweptIs(place: map<Addr, Place>, s: Addr)
    requires s in place
    ensures s in Swept(place) <==> place[s].Linked?
  {
  }

  /** What is logged when a timer is set. */
  lemma SetLogged(st: State, timer: Timer, s: Addr, x: int, upcoming: nat, unit: W.Unit)
    requires Inv(st) && s in st.g.place && st.g.place[s].Linked?
    ensures Whole(st, s)
    ensures var log' := st.g.log + [SetEvent(timer, st.m.id[s], x, upcoming, unit)];
            && Chronicled(log', st.m.owner, st.g.place, st.m.tick,
                          if timer == ShortTimer then Rearmed(st.g.alarms, s, x, upcoming, unit) else st.g.alarms,
                          if timer == LongTimer then Rearmed(st.g.longAlarms, s, x, upcoming, unit)
                              else st.g.longAlarms)
            && Logged(log', st.m.owner, Open(st.g.place), st.m.nextId) && Owing(log') == Owing(st.g.log)
  {
    hide Blocks, Threaded, Marked, Located, Hosted, Wired, Typed, Owned, Awaited, Batched, Clocked, Alarmed, Walked,
         Ringed, Logged, Budgeted, Chronicled;
    hide Open, Swept, Unseen, UnseenLong, Rearmed, SetEvent, Owns;
    Live(st, s);
    OwnsIts(st, s);
    NotNull(st, st.m.context[s]);
    ListedAt(st, s);
    RearmedKeeps(st.g.log, timer, st.m.owner, st.g.place, st.m.tick, st.g.alarms, st.g.longAlarms, st.m.id[s], s, x,
        upcoming, unit);
    LoggedTimely(st.g.log, st.m.owner, Open(st.g.place), st.m.nextId, SetEvent(timer, st.m.id[s], x, upcoming, unit));
  }

  lemma ListedAt(st: State, s: Addr)
    requires Inv(st) && s in st.g.place && st.g.place[s].Linked?
    ensures s in st.m.context && st.g.place[s] == Linked(st.m.context[s])
  {
    hide Blocks, Threaded, Marked, Hosted, Wired, Typed, Owned, Awaited, Batched, Clocked, Alarmed, Walked, Ringed,
         Logged, Budgeted, Chronicled;
  }

  lemma StampedKeeps(st: State, s: Addr, x: int)
    requires Inv(st) && s in st.g.place && IsStamp(x)
    ensures Inv(Stamped(st, s, x))
  {
    hide Blocks, Threaded, Marked, Located, Hosted, Wired, Typed, Owned, Awaited, Batched, Clocked, Alarmed, Walked,
         Ringed, Logged, Budgeted, Chronicled;
    hide Open, Swept, Unseen, UnseenLong, Dropped, Without, BypassPrev, BypassNext, BypassHead;
    hide Rearmed, IsStamp, Upcoming, SetEvent;
    Live(st, s);
    SweptIs(st.g.place, s);
    if st.g.place[s].Linked? { SetLogged(st, ShortTimer, s, x, Upcoming(st.m.tick, st.m.context, Unseen(st.g.walk), s),
        1); }
    AlarmedStamp(Swept(st.g.place), st.m.context, st.m.tick, Unseen(st.g.walk), st.m.timeout, st.g.alarms, 1, s, x);
    KeysKept(st.m.timeout, s, x);
  }

  lemma LongStampedKeeps(st: State, s: Addr, x: int)
    requires Inv(st) && s in st.g.place && IsStamp(x)
    ensures Inv(LongStamped(st, s, x))
  {
    hide Blocks, Threaded, Marked, Located, Hosted, Wired, Typed, Owned, Awaited, Batched, Clocked, Alarmed, Walked,
         Ringed, Logged, Budgeted, Chronicled;
    hide Open, Swept, Unseen, UnseenLong, Dropped, Without, BypassPrev, BypassNext, BypassHead;
    hide Rearmed, IsStamp, Upcoming, SetEvent;
    Live(st, s);
    SweptIs(st.g.place, s);
    if st.g.place[s].Linked? { SetLogged(st, LongTimer, s, x,
        Upcoming(st.m.tick, st.m.context, UnseenLong(st.g.walk), s), 15); }
    AlarmedStamp(Swept(st.g.place), st.m.context, st.m.tick, UnseenLong(st.g.walk), st.m.longTimeout, st.g.longAlarms,
        15, s, x);
    KeysKept(st.m.longTimeout, s, x);
  }

  // ---- Calling a handler

  ghost predicate Callable(st: State, h: Handler, k: int) {
    if h == OnClose then st.g.log != [] && st.g.log[|st.g.log| - 1] == Shut(k)
    else h != OnWritable && h != OnTimeout && h != OnLongTimeout && k in st.m.owner && st.m.owner[k] in Open(st.g.place)
  }

  ghost function Noted(st: State, h: Handler, k: int): State {
    st.(g := st.g.(log := st.g.log + [Called(h, k)]))
  }

  lemma LoggedNote(log: Log, owner: map<int, Addr>, open: set<Addr>, nextId: int, h: Handler, k: int)
    requires Logged(log, owner, open, nextId)
    requires if h == OnClose then log != [] && log[|log| - 1] == Shut(k) else k in owner && owner[k] in open
    ensures Logged(log + [Called(h, k)], owner, open, nextId)
    ensures h != OnWritable ==> Owing(log + [Called(h, k)]) == Owing(log)
  {
    Append(log, Called(h, k));
  }

  lemma NotedNeutral(h: Handler, k: int)
    requires h != OnTimeout && h != OnLongTimeout
    ensures Neutral(Called(h, k))
  {
  }

  lemma NotedKeeps(st: State, h: Handler, k: int)
    requires Inv(st) && Callable(st, h, k)
    ensures Inv(Noted(st, h, k))
  {
    hide Blocks, Threaded, Marked, Located, Hosted, Wired, Typed, Owned, Awaited, Batched, Clocked, Alarmed, Walked,
         Ringed, Logged, Budgeted, Chronicled;
    hide Open, Swept, Unseen, UnseenLong, Dropped, Without, BypassPrev, BypassNext, BypassHead;
    hide Neutral, Timely, IsRing, Owing, Lawful, ShutIds, ReleasedIds;
    NotedNeutral(h, k);
    LoggedNote(st.g.log, st.m.owner, Open(st.g.place), st.m.nextId, h, k);
    NeutralKeeps(st.g.log, Called(h, k), st.m.owner, st.g.place, st.m.tick, st.g.alarms, st.g.longAlarms);
  }
}
