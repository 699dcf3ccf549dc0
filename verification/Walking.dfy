/** The steps of the sweep's walk over one context. */
module Walking {
  import opened Threads
  import opened Journal
  import opened Chronicles
  import opened Chimes
  import opened States
  import opened Facts
  import opened Linking
  import opened Arming
  import W = Wheel

  /** A new tick: the clock advances and the whole list is ahead of the walk. */
  ghost predicate CanStartWalk(st: State, c: Addr) {
    st.g.walk.NoWalk? && c in st.m.ctxs && c in st.m.tick && st.m.tick[c] + 1 < W.UINT32
  }

  ghost function WalkStarted(st: State, c: Addr): State {
    if !(c in st.m.tick && Linked(c) in st.g.rolls) then st else
    var t := st.m.tick[c] + 1;
    st.(m := st.m.(tick := st.m.tick[c := t],
                   timestamp := st.m.timestamp[c := t % W.SLOTS],
                   longTimestamp := st.m.longTimestamp[c := t / 15 % W.SLOTS],
                   walker := st.m.walker[c := At(st.g.rolls[Linked(c)], 0)]),
        g := st.g.(walk := Walk(c, NULL, false, false, st.g.rolls[Linked(c)], {}), log := st.g.log + [Struck(c, t)]))
  }

  lemma ContextLists(st: State, c: Addr)
    requires Inv(st) && c in st.m.ctxs
    ensures Linked(c) in st.g.rolls && Listening(c) in st.g.rolls && Linked(c) in st.m.heads
            && Listening(c) in st.m.heads
    ensures NoDup(st.g.rolls[Linked(c)]) && NULL !in st.g.rolls[Linked(c)]
    ensures NoDup(st.g.rolls[Listening(c)]) && NULL !in st.g.rolls[Listening(c)]
    ensures st.m.heads[Linked(c)] == At(st.g.rolls[Linked(c)], 0)
            && st.m.heads[Listening(c)] == At(st.g.rolls[Listening(c)], 0)
    ensures c != NULL
  {
    hide Marked, Located, Wired, Typed, Owned, Awaited, Batched, Clocked, Alarmed, Walked, Ringed, Logged, Budgeted,
         Chronicled, Placed;
    assert Chained(st.m.prev, st.m.next, st.g.rolls[Linked(c)], st.m.heads[Linked(c)]);
    assert Chained(st.m.prev, st.m.next, st.g.rolls[Listening(c)], st.m.heads[Listening(c)]);
  }

  lemma ClockedTick(ctxs: set<Addr>, tick: map<Addr, nat>, timestamp: map<Addr, int>, longTimestamp: map<Addr, int>,
                    c: Addr)
    requires Clocked(ctxs, tick, timestamp, longTimestamp) && c in ctxs && tick[c] + 1 < W.UINT32
    ensures var t := tick[c] + 1; Clocked(ctxs, tick[c := t], timestamp[c := t % W.SLOTS],
            longTimestamp[c := t / 15 % W.SLOTS])
  {
  }

  /** With everybody of `c` ahead of the walk, the next examination of each is still in the same tick. */
  lemma AlarmedTick(swept: set<Addr>, context: map<Addr, Addr>, tick: map<Addr, nat>, unseen: set<Addr>,
                    unseen': set<Addr>,
                    stamp: map<Addr, int>, alarms: map<Addr, Alarm>, unit: W.Unit, c: Addr)
    requires Alarmed(swept, context, tick, unseen, stamp, alarms, unit) && c in tick
    requires forall s | s in swept && s in context :: s !in unseen && (s in unseen' <==> context[s] == c)
    ensures Alarmed(swept, context, tick[c := tick[c] + 1], unseen', stamp, alarms, unit)
  {
    var tick' := tick[c := tick[c] + 1];
    forall s | s in swept
      ensures s in context && context[s] in tick && context[s] in tick'
              && Upcoming(tick', context, unseen', s) == Upcoming(tick, context, unseen, s)
    {
    }
  }

  lemma SweptInContext(st: State, s: Addr, c: Addr)
    requires Inv(st) && s in Swept(st.g.place) && c in st.m.ctxs
    ensures s in st.m.context && s in st.g.place && Linked(c) in st.g.rolls
    ensures s in st.g.rolls[Linked(c)] <==> st.m.context[s] == c
  {
    hide Blocks, Marked, Wired, Typed, Owned, Awaited, Batched, Clocked, Alarmed, Walked, Ringed, Logged, Budgeted,
         Chronicled, Chained, Stacked;
    if s in st.g.rolls[Linked(c)] {
      var i :| 0 <= i < |st.g.rolls[Linked(c)]| && st.g.rolls[Linked(c)][i] == s;
      assert st.g.place[s] == Linked(c);
    }
  }

  lemma WalkedStart(ctxs: set<Addr>, walker: map<Addr, Addr>, rolls: Rolls, walk: Walk, c: Addr)
    requires Walked(ctxs, walker, rolls, walk) && walk.NoWalk? && c in ctxs && Linked(c) in rolls
    requires NoDup(rolls[Linked(c)]) && NULL !in rolls[Linked(c)]
    ensures Walked(ctxs, walker[c := At(rolls[Linked(c)], 0)], rolls, Walk(c, NULL, false, false, rolls[Linked(c)], {}))
  {
    WithoutAbsent(rolls[Linked(c)], {});
    assert [] + rolls[Linked(c)] == rolls[Linked(c)];
  }

  lemma WalkStartedKeeps(st: State, c: Addr)
    requires Inv(st) && CanStartWalk(st, c)
    ensures Inv(WalkStarted(st, c))
  {
    hide Blocks, Threaded, Marked, Located, Hosted, Wired, Typed, Owned, Awaited, Batched, Clocked, Alarmed, Walked,
         Ringed, Logged, Budgeted, Chronicled;
    hide Open, Swept, NoDup, At;
    ContextLists(st, c);
    var unseen' := Unseen(WalkStarted(st, c).g.walk);
    forall s | s in Swept(st.g.place) && s in st.m.context
      ensures s in unseen' <==> st.m.context[s] == c
    {
      SweptInContext(st, s, c);
    }
    ClockedTick(st.m.ctxs, st.m.tick, st.m.timestamp, st.m.longTimestamp, c);
    AlarmedTick(Swept(st.g.place), st.m.context, st.m.tick, {}, unseen', st.m.timeout, st.g.alarms, 1, c);
    AlarmedTick(Swept(st.g.place), st.m.context, st.m.tick, {}, unseen', st.m.longTimeout, st.g.longAlarms, 15, c);
    WalkedStart(st.m.ctxs, st.m.walker, st.g.rolls, st.g.walk, c);
    StruckKeeps(st.g.log, st.m.owner, st.g.place, st.m.tick, st.g.alarms, st.g.longAlarms, c);
    LoggedTimely(st.g.log, st.m.owner, Open(st.g.place), st.m.nextId, Struck(c, st.m.tick[c] + 1));
  }

  /** The walk is between two sockets, with one more to examine. */
  ghost predicate CanExamine(st: State) {
    st.g.walk.Walk? && !st.g.walk.onCur && st.g.walk.ahead != [] && st.g.walk.dropped == {}
  }

  lemma ExamineFacts(st: State)
    requires Inv(st) && CanExamine(st)
    ensures var c, s := st.g.walk.context, st.g.walk.ahead[0];
            && s in st.g.place && st.g.place[s] == Linked(c) && s in st.m.context && st.m.context[s] == c && s != NULL
            && c in st.m.tick && c in st.m.timestamp && c in st.m.longTimestamp && c in st.m.walker && c in st.m.ctxs
            && Linked(c) in st.g.rolls
            && st.m.timestamp[c] == W.Slot(st.m.tick[c], 1) && st.m.longTimestamp[c] == W.Slot(st.m.tick[c], 15)
            && s in st.m.timeout && s in st.m.longTimeout && s in st.m.id
            && s in Swept(st.g.place) && s in Unseen(st.g.walk) && s in UnseenLong(st.g.walk)
            && st.m.walker[c] == s && s in Open(st.g.place) && st.m.id[s] in st.m.owner && st.m.owner[st.m.id[s]] == s
            && NoDup(st.g.walk.ahead) && s !in st.g.walk.ahead[1..] && NULL !in st.g.walk.ahead
    ensures Tail(st.g.walk) == st.g.walk.ahead
  {
    hide Inv, Tail, W.Slot;
    var s := st.g.walk.ahead[0];
    assert s in st.g.walk.ahead && s in Unseen(st.g.walk);
    UnseenListed(st, s);
    Live(st, s);
    KernelFacts(st, s);
    ListedContext(st, s);
    ListedFacts(st, s);
    SweptIs(st.g.place, s);
    TailBetween(st.g.walk);
    AheadFacts(st);
    ClockFacts(st, st.g.walk.context);
  }

  lemma AheadFacts(st: State)
    requires Inv(st) && CanExamine(st)
    ensures st.g.walk.context in st.m.ctxs && Linked(st.g.walk.context) in st.g.rolls
            && st.g.walk.context in st.m.walker
    ensures st.m.walker[st.g.walk.context] == st.g.walk.ahead[0]
    ensures NoDup(st.g.walk.ahead) && st.g.walk.ahead[0] !in st.g.walk.ahead[1..] && NULL !in st.g.walk.ahead
  {
    hide Blocks, Threaded, Marked, Located, Hosted, Wired, Typed, Owned, Awaited, Batched, Clocked, Alarmed, Ringed,
         Logged, Budgeted, Chronicled;
    hide Tail, IsSuffix;
    TailBetween(st.g.walk);
    if NULL in st.g.walk.ahead {
      assert NULL in Unseen(st.g.walk);
      UnseenListed(st, NULL);
      Live(st, NULL);
    }
  }

  lemma ClockFacts(st: State, c: Addr)
    requires Inv(st) && c in st.m.ctxs
    ensures c in st.m.tick && c in st.m.timestamp && c in st.m.longTimestamp
    ensures st.m.timestamp[c] == W.Slot(st.m.tick[c], 1) && st.m.longTimestamp[c] == W.Slot(st.m.tick[c], 15)
  {
    hide Blocks, Threaded, Marked, Located, Hosted, Wired, Typed, Owned, Awaited, Batched, Alarmed, Walked, Ringed,
         Logged, Budgeted, Chronicled;
    assert st.m.tick[c] / 1 == st.m.tick[c];
  }

  lemma AlarmedExamined(swept: set<Addr>, context: map<Addr, Addr>, tick: map<Addr, nat>, unseen: set<Addr>,
                        stamp: map<Addr, int>, alarms: map<Addr, Alarm>, unit: W.Unit, s: Addr)
    requires Alarmed(swept, context, tick, unseen, stamp, alarms, unit)
    requires s in unseen && s in context && context[s] in tick && s in stamp
    requires stamp[s] != W.Slot(tick[context[s]], unit)
    ensures Alarmed(swept, context, tick, unseen - {s}, stamp, alarms, unit)
  {
    if 0 <= stamp[s] < W.SLOTS { W.NextMatchStep(tick[context[s]], unit, stamp[s]); }
    forall a | a in swept && a != s
      ensures a in unseen - {s} <==> a in unseen
    {
    }
  }

  /** A matching stamp is that of an alarm due in this very tick, which did not fire yet. */
  lemma AlarmedFired(swept: set<Addr>, context: map<Addr, Addr>, tick: map<Addr, nat>, unseen: set<Addr>,
                     stamp: map<Addr, int>, alarms: map<Addr, Alarm>, unit: W.Unit, s: Addr)
    requires Alarmed(swept, context, tick, unseen, stamp, alarms, unit)
    requires s in unseen && s in swept && s in context && context[s] in tick && s in stamp
    requires stamp[s] == W.Slot(tick[context[s]], unit)
    ensures s in alarms && alarms[s] == Alarm(tick[context[s]], [])
    ensures Fired(alarms, s, tick[context[s]]) == alarms[s := Alarm(tick[context[s]], [tick[context[s]]])]
    ensures Alarmed(swept, context, tick, unseen - {s}, stamp[s := W.NEVER], Fired(alarms, s, tick[context[s]]), unit)
  {
    assert [] + [tick[context[s]]] == [tick[context[s]]];
    W.NextMatchStep(tick[context[s]], unit, stamp[s]);
    var stamp' := stamp[s := W.NEVER];
    forall a | a in swept && a != s
      ensures (a in unseen - {s} <==> a in unseen) && a in stamp && a in stamp' && stamp'[a] == stamp[a]
    {
    }
  }

  /** The alarm of `s` rings in tick `t`, whether or not that is the tick it is due in. */
  ghost function Fired(a: map<Addr, Alarm>, s: Addr, t: int): map<Addr, Alarm> {
    if s in a then a[s := Alarm(a[s].due, a[s].fired + [t])] else a
  }

  /** What is logged when the sweep looks at a timer of `s`, and calls its handler if `match_`. */
  ghost function LookLog(st: State, timer: Timer, s: Addr, match_: bool): Log
    requires s in st.m.id && st.g.walk.Walk? && st.g.walk.context in st.m.tick
  {
    var c := st.g.walk.context;
    if match_ then Rang(st.g.log, timer, st.m.id[s], c, st.m.tick[c])
    else st.g.log + [Seen(timer, st.m.id[s], c, st.m.tick[c])]
  }

  /** A stamp that does not match is that of no alarm due in this tick. */
  lemma AlarmedQuiet(swept: set<Addr>, context: map<Addr, Addr>, tick: map<Addr, nat>, unseen: set<Addr>,
                     stamp: map<Addr, int>, alarms: map<Addr, Alarm>, unit: W.Unit, s: Addr)
    requires Alarmed(swept, context, tick, unseen, stamp, alarms, unit)
    requires s in unseen && s in swept && s in context && context[s] in tick && s in stamp
    requires stamp[s] != W.Slot(tick[context[s]], unit)
    ensures s in alarms ==> alarms[s] != Alarm(tick[context[s]], [])
  {
    if 0 <= stamp[s] < W.SLOTS { W.NextMatchIsFirst(tick[context[s]], unit, stamp[s]); }
  }

  /** A stamp matches exactly when its alarm is due in this very tick, and has not rung yet. */
  lemma MatchIsDue(swept: set<Addr>, context: map<Addr, Addr>, tick: map<Addr, nat>, unseen: set<Addr>,
                   stamp: map<Addr, int>, alarms: map<Addr, Alarm>, unit: W.Unit, s: Addr)
    requires Alarmed(swept, context, tick, unseen, stamp, alarms, unit)
    requires s in unseen && s in swept && s in context && context[s] in tick && s in stamp
    ensures stamp[s] == W.Slot(tick[context[s]], unit) <==> s in alarms && alarms[s] == Alarm(tick[context[s]], [])
  {
    hide Alarmed, W.Slot;
    if stamp[s] == W.Slot(tick[context[s]], unit) {
      AlarmedFired(swept, context, tick, unseen, stamp, alarms, unit, s);
    } else {
      AlarmedQuiet(swept, context, tick, unseen, stamp, alarms, unit, s);
    }
  }

  /** The next socket to examine: its stamps match exactly when its timeouts are due now. */
  lemma ExamineDue(st: State)
    requires Inv(st) && CanExamine(st)
    ensures ReachedGuard(st)
    ensures var c, s := st.g.walk.context, st.g.walk.ahead[0];
            && (st.m.timeout[s] == st.m.timestamp[c] <==> s in st.g.alarms && st.g.alarms[s] == Alarm(st.m.tick[c], []))
            && (st.m.longTimeout[s] == st.m.longTimestamp[c] <==>
                        s in st.g.longAlarms && st.g.longAlarms[s] == Alarm(st.m.tick[c], []))
  {
    hide Inv, Alarmed, Swept, Unseen, UnseenLong, NoDup, Tail, Open, W.Slot;
    var s := st.g.walk.ahead[0];
    ExamineFacts(st);
    AlarmAtoms(st);
    MatchIsDue(Swept(st.g.place), st.m.context, st.m.tick, Unseen(st.g.walk), st.m.timeout, st.g.alarms, 1, s);
    MatchIsDue(Swept(st.g.place), st.m.context, st.m.tick, UnseenLong(st.g.walk), st.m.longTimeout, st.g.longAlarms, 15,
        s);
  }

  /** The same for the long timeout of a socket whose short one was looked at. */
  lemma LongDue(st: State)
    requires Inv(st) && CanLookLong(st)
    ensures LongLookedGuard(st)
    ensures var c, s := st.g.walk.context, st.g.walk.cur;
            st.m.longTimeout[s] == st.m.longTimestamp[c] <==>
                        s in st.g.longAlarms && st.g.longAlarms[s] == Alarm(st.m.tick[c], [])
  {
    hide Inv, Alarmed, Swept, Unseen, UnseenLong, Open, W.Slot;
    LongFacts(st);
    AlarmAtoms(st);
    MatchIsDue(Swept(st.g.place), st.m.context, st.m.tick, UnseenLong(st.g.walk), st.m.longTimeout, st.g.longAlarms, 15,
        st.g.walk.cur);
  }

  lemma LookLogged(st: State, timer: Timer, s: Addr, match_: bool)
    requires Inv(st) && st.g.walk.Walk? && s in st.g.place && st.g.place[s] == Linked(st.g.walk.context)
    requires s in st.m.id && st.g.walk.context in st.m.tick
    requires var alarms, t := AlarmsOf(timer, st.g.alarms, st.g.longAlarms), st.m.tick[st.g.walk.context];
             match_ <==> s in alarms && alarms[s] == Alarm(t, [])
    ensures var log', t := LookLog(st, timer, s, match_), st.m.tick[st.g.walk.context];
            && Chronicled(log', st.m.owner, st.g.place, st.m.tick,
                          if match_ && timer == ShortTimer then Fired(st.g.alarms, s, t) else st.g.alarms,
                          if match_ && timer == LongTimer then Fired(st.g.longAlarms, s, t) else st.g.longAlarms)
            && Logged(log', st.m.owner, Open(st.g.place), st.m.nextId) && Owing(log') == Owing(st.g.log)
  {
    hide Blocks, Threaded, Marked, Located, Hosted, Wired, Typed, Owned, Awaited, Batched, Clocked, Alarmed, Walked,
         Ringed, Logged, Budgeted, Chronicled;
    hide Open, Swept, Unseen, UnseenLong, Owns, Owing;
    var c, k, t := st.g.walk.context, st.m.id[s], st.m.tick[st.g.walk.context];
    OwnsIts(st, s);
    KernelFacts(st, s);
    LoggedTimely(st.g.log, st.m.owner, Open(st.g.place), st.m.nextId, Seen(timer, k, c, t));
    if match_ {
      RungKeeps(st.g.log, timer, st.m.owner, st.g.place, st.m.tick, st.g.alarms, st.g.longAlarms, k, s, c);
      LoggedNote(st.g.log + [Seen(timer, k, c, t)], st.m.owner, Open(st.g.place), st.m.nextId, HandlerOf(timer), k);
      Append(st.g.log + [Seen(timer, k, c, t)], Called(HandlerOf(timer), k));
      assert [] + [t] == [t];
    } else {
      SeenKeeps(st.g.log, timer, st.m.owner, st.g.place, st.m.tick, st.g.alarms, st.g.longAlarms, k, s, c);
    }
  }

  /** Examined without a match on either wheel. */
  ghost function Skipped(st: State): State {
    if !ReachedGuard(st) then st else
    var c, s, rest := st.g.walk.context, st.g.walk.ahead[0], st.g.walk.ahead[1..];
    st.(m := st.m.(walker := st.m.walker[c := At(rest, 0)]),
        g := st.g.(walk := Walk(c, NULL, false, false, rest, {}),
                   log := LookLog(st, ShortTimer, s, false) + [Seen(LongTimer, st.m.id[s], c, st.m.tick[c])]))
  }

  lemma UnseenRest(w: Walk)
    requires w.Walk? && w.ahead != [] && !w.onCur && w.dropped == {} && w.ahead[0] !in w.ahead[1..]
    ensures Unseen(Walk(w.context, NULL, false, false, w.ahead[1..], {})) == Unseen(w) - {w.ahead[0]}
    ensures UnseenLong(Walk(w.context, NULL, false, false, w.ahead[1..], {})) == UnseenLong(w) - {w.ahead[0]}
    ensures Unseen(Walk(w.context, w.ahead[0], true, true, w.ahead[1..], {})) == Unseen(w) - {w.ahead[0]}
    ensures UnseenLong(Walk(w.context, w.ahead[0], true, true, w.ahead[1..], {})) == UnseenLong(w)
  {
    assert w.ahead == [w.ahead[0]] + w.ahead[1..];
  }

  lemma SuffixRest(t: seq<Addr>, l: seq<Addr>)
    requires IsSuffix(t, l) && t != []
    ensures IsSuffix(t[1..], l)
  {
    assert l[|l| - |t[1..]|..] == l[|l| - |t|..][1..];
  }

  /** The walk may stand at any suffix of its list. */
  lemma WalkedOnto(ctxs: set<Addr>, walker: map<Addr, Addr>, rolls: Rolls, w: Walk, rest: seq<Addr>)
    requires Walked(ctxs, walker, rolls, w) && w.Walk?
    requires NoDup(rest) && NULL !in rest && IsSuffix(rest, rolls[Linked(w.context)])
    ensures Walked(ctxs, walker[w.context := At(rest, 0)], rolls, Walk(w.context, NULL, false, false, rest, {}))
  {
    hide Tail, NoDup, IsSuffix, At;
    TailBetween(Walk(w.context, NULL, false, false, rest, {}));
  }

  lemma TailBetween(w: Walk)
    requires w.Walk? && !w.onCur && w.dropped == {}
    ensures Tail(w) == w.ahead
  {
    WithoutAbsent(w.ahead, {});
  }

  lemma TailAt(c: Addr, ahead: seq<Addr>)
    requires ahead != []
    ensures Tail(Walk(c, ahead[0], true, true, ahead[1..], {})) == ahead
  {
    WithoutAbsent(ahead[1..], {});
  }

  lemma NoDupRest(l: seq<Addr>)
    requires NoDup(l) && l != [] && NULL !in l
    ensures NoDup(l[1..]) && NULL !in l[1..] && l[0] !in l[1..]
  {
  }

  lemma WalkedSkip(ctxs: set<Addr>, walker: map<Addr, Addr>, rolls: Rolls, w: Walk)
    requires Walked(ctxs, walker, rolls, w) && w.Walk? && !w.onCur && w.ahead != [] && w.dropped == {}
             && NULL !in w.ahead
    ensures Walked(ctxs, walker[w.context := At(w.ahead[1..], 0)], rolls,
            Walk(w.context, NULL, false, false, w.ahead[1..], {}))
  {
    hide Tail, NoDup, IsSuffix, At;
    TailBetween(w);
    NoDupRest(w.ahead);
    SuffixRest(w.ahead, rolls[Linked(w.context)]);
    WalkedOnto(ctxs, walker, rolls, w, w.ahead[1..]);
  }

  lemma WalkedReach(ctxs: set<Addr>, walker: map<Addr, Addr>, rolls: Rolls, w: Walk)
    requires Walked(ctxs, walker, rolls, w) && w.Walk? && !w.onCur && w.ahead != [] && w.dropped == {}
             && NULL !in w.ahead
    ensures Walked(ctxs, walker, rolls, Walk(w.context, w.ahead[0], true, true, w.ahead[1..], {}))
  {
    hide Tail, NoDup, IsSuffix, At;
    TailBetween(w);
    TailAt(w.context, w.ahead);
    NoDupRest(w.ahead);
  }

  lemma SkippedKeeps(st: State)
    requires Inv(st) && CanExamine(st) && st.g.walk.ahead[0] in st.m.timeout && st.g.walk.ahead[0] in st.m.longTimeout
    requires st.g.walk.context in st.m.timestamp && st.g.walk.context in st.m.longTimestamp
    requires st.m.timeout[st.g.walk.ahead[0]] != st.m.timestamp[st.g.walk.context]
    requires st.m.longTimeout[st.g.walk.ahead[0]] != st.m.longTimestamp[st.g.walk.context]
    ensures Inv(Skipped(st))
  {
    SkippedLog(st);
    hide Blocks, Threaded, Marked, Located, Hosted, Wired, Typed, Owned, Awaited, Batched, Clocked, Alarmed, Walked,
         Ringed, Logged, Budgeted, Chronicled;
    hide Open, Swept, Unseen, UnseenLong, Dropped, Without, BypassPrev, BypassNext, BypassHead;
    hide NoDup;
    var s := st.g.walk.ahead[0];
    ExamineFacts(st);
    UnseenRest(st.g.walk);
    WalkedSkip(st.m.ctxs, st.m.walker, st.g.rolls, st.g.walk);
    AlarmedExamined(Swept(st.g.place), st.m.context, st.m.tick, Unseen(st.g.walk), st.m.timeout, st.g.alarms, 1, s);
    AlarmedExamined(Swept(st.g.place), st.m.context, st.m.tick, UnseenLong(st.g.walk), st.m.longTimeout,
        st.g.longAlarms, 15, s);
  }

  lemma SkippedLog(st: State)
    requires Inv(st) && CanExamine(st) && st.g.walk.ahead[0] in st.m.timeout && st.g.walk.ahead[0] in st.m.longTimeout
    requires st.g.walk.context in st.m.timestamp && st.g.walk.context in st.m.longTimestamp
    requires st.m.timeout[st.g.walk.ahead[0]] != st.m.timestamp[st.g.walk.context]
    requires st.m.longTimeout[st.g.walk.ahead[0]] != st.m.longTimestamp[st.g.walk.context]
    ensures var log' := Skipped(st).g.log;
            && Chronicled(log', st.m.owner, st.g.place, st.m.tick, st.g.alarms, st.g.longAlarms)
            && Logged(log', st.m.owner, Open(st.g.place), st.m.nextId) && Owing(log') == Owing(st.g.log)
  {
    hide Inv, Chronicled, Logged, Open, Owing, Owns, NoDup, Swept, Unseen, UnseenLong, Tail, W.Slot;
    var c, s := st.g.walk.context, st.g.walk.ahead[0];
    ExamineFacts(st);
    ExamineDue(st);
    OwnsIts(st, s);
    var log1 := LookLog(st, ShortTimer, s, false);
    LookLogged(st, ShortTimer, s, false);
    SeenKeeps(log1, LongTimer, st.m.owner, st.g.place, st.m.tick, st.g.alarms, st.g.longAlarms, st.m.id[s], s, c);
    LoggedTimely(log1, st.m.owner, Open(st.g.place), st.m.nextId, Seen(LongTimer, st.m.id[s], c, st.m.tick[c]));
  }

  /** The context being walked and the next socket to examine have their clocks and stamps. */
  ghost predicate Timed(st: State, c: Addr, s: Addr) {
    c in st.m.tick && c in st.m.timestamp && c in st.m.longTimestamp && s in st.m.timeout && s in st.m.longTimeout
        && s in st.m.id
  }

  ghost predicate ReachedGuard(st: State) {
    CanExamine(st) && Timed(st, st.g.walk.context, st.g.walk.ahead[0])
  }

  /** Examined, with a match: the short wheel has been looked at, with its handler called if it matched; the long one
      not yet. */
  ghost function ReachedCore(st: State): State
    requires ReachedGuard(st)
  {
    var c, s := st.g.walk.context, st.g.walk.ahead[0];
    var match_ := st.m.timeout[s] == st.m.timestamp[c];
    st.(m := st.m.(timeout := if match_ then st.m.timeout[s := W.NEVER] else st.m.timeout),
        g := st.g.(walk := Walk(c, s, true, true, st.g.walk.ahead[1..], {}),
                   alarms := if match_ then Fired(st.g.alarms, s, st.m.tick[c]) else st.g.alarms,
                   log := LookLog(st, ShortTimer, s, match_)))
  }

  ghost function Reached(st: State): State {
    if ReachedGuard(st) then ReachedCore(st) else st
  }

  lemma ReachedKeeps(st: State)
    requires Inv(st) && CanExamine(st)
    ensures Inv(Reached(st))
  {
    hide Blocks, Threaded, Marked, Located, Hosted, Wired, Typed, Owned, Awaited, Batched, Clocked, Alarmed, Walked,
         Ringed, Logged, Budgeted, Chronicled;
    hide Open, Swept, Unseen, UnseenLong, Dropped, Without, BypassPrev, BypassNext, BypassHead;
    hide NoDup, Tail, Fired, LookLog, Owing;
    ExamineFacts(st);
    WalkedReach(st.m.ctxs, st.m.walker, st.g.rolls, st.g.walk);
    ReachedAlarms(st);
    ExamineDue(st);
    LookLogged(st, ShortTimer, st.g.walk.ahead[0],
        st.m.timeout[st.g.walk.ahead[0]] == st.m.timestamp[st.g.walk.context]);
  }

  lemma AlarmAtoms(st: State)
    requires Inv(st)
    ensures Alarmed(Swept(st.g.place), st.m.context, st.m.tick, Unseen(st.g.walk), st.m.timeout, st.g.alarms, 1)
    ensures Alarmed(Swept(st.g.place), st.m.context, st.m.tick, UnseenLong(st.g.walk), st.m.longTimeout,
            st.g.longAlarms, 15)
  {
    hide Blocks, Threaded, Marked, Located, Hosted, Wired, Typed, Owned, Awaited, Batched, Clocked, Alarmed, Walked,
         Ringed, Logged, Budgeted, Chronicled;
    hide Open, Swept, Unseen, UnseenLong, Dropped, Without, BypassPrev, BypassNext, BypassHead;
  }

  lemma ReachedFire(st: State)
    requires Inv(st) && CanExamine(st)
    ensures var c, s := st.g.walk.context, st.g.walk.ahead[0];
            && c in st.m.tick && c in st.m.timestamp && s in st.m.timeout
            && (st.m.timeout[s] == st.m.timestamp[c] ==>
                  Alarmed(Swept(st.g.place), st.m.context, st.m.tick, Unseen(st.g.walk) - {s},
                      st.m.timeout[s := W.NEVER], Fired(st.g.alarms, s, st.m.tick[c]), 1))
  {
    hide Inv, Alarmed, Swept, Unseen, UnseenLong, NoDup, Tail, Open, W.Slot, W.NextMatch;
    var c, s := st.g.walk.context, st.g.walk.ahead[0];
    ExamineFacts(st);
    AlarmAtoms(st);
    if st.m.timeout[s] == st.m.timestamp[c] {
      AlarmedFired(Swept(st.g.place), st.m.context, st.m.tick, Unseen(st.g.walk), st.m.timeout, st.g.alarms, 1, s);
    }
  }

  lemma ReachedPass(st: State)
    requires Inv(st) && CanExamine(st)
    ensures var c, s := st.g.walk.context, st.g.walk.ahead[0];
            && c in st.m.timestamp && s in st.m.timeout
            && (st.m.timeout[s] != st.m.timestamp[c] ==>
                  Alarmed(Swept(st.g.place), st.m.context, st.m.tick, Unseen(st.g.walk) - {s}, st.m.timeout,
                      st.g.alarms, 1))
  {
    hide Inv, Alarmed, Swept, Unseen, UnseenLong, NoDup, Tail, Open, W.Slot, W.NextMatch;
    var c, s := st.g.walk.context, st.g.walk.ahead[0];
    ExamineFacts(st);
    AlarmAtoms(st);
    if st.m.timeout[s] != st.m.timestamp[c] {
      AlarmedExamined(Swept(st.g.place), st.m.context, st.m.tick, Unseen(st.g.walk), st.m.timeout, st.g.alarms, 1, s);
    }
  }

  lemma ReachedAlarms(st: State)
    requires Inv(st) && CanExamine(st)
    ensures ReachedGuard(st)
    ensures var st' := ReachedCore(st);
            && Alarmed(Swept(st.g.place), st.m.context, st.m.tick, Unseen(st'.g.walk), st'.m.timeout, st'.g.alarms, 1)
            && Alarmed(Swept(st.g.place), st.m.context, st.m.tick, UnseenLong(st'.g.walk), st'.m.longTimeout,
               st'.g.longAlarms, 15)
            && st'.m.timeout.Keys == st.m.timeout.Keys
  {
    hide Inv, Alarmed, Swept, Unseen, UnseenLong, NoDup, Tail, Open, Fired;
    var s := st.g.walk.ahead[0];
    ExamineFacts(st);
    AlarmAtoms(st);
    ReachedFire(st);
    ReachedPass(st);
    UnseenRest(st.g.walk);
    KeysKept(st.m.timeout, s, W.NEVER);
  }

  /** The handler left `cur` linked, and the long wheel is to be looked at. */
  ghost predicate CanLookLong(st: State) {
    st.g.walk.Walk? && st.g.walk.onCur && st.g.walk.owesLong
  }

  lemma LongFacts(st: State)
    requires Inv(st) && CanLookLong(st)
    ensures var c, s := st.g.walk.context, st.g.walk.cur;
            && s in st.g.place && st.g.place[s] == Linked(c) && s in st.m.context && st.m.context[s] == c
            && c in st.m.walker && Timed(st, c, s)
            && st.m.longTimestamp[c] == W.Slot(st.m.tick[c], 15)
            && s in st.m.longTimeout && s in st.m.id && s in Swept(st.g.place) && s in UnseenLong(st.g.walk)
            && s in Open(st.g.place) && st.m.id[s] in st.m.owner && st.m.owner[st.m.id[s]] == s
    ensures UnseenLong(st.g.walk.(owesLong := false)) == UnseenLong(st.g.walk) - {st.g.walk.cur}
    ensures Unseen(st.g.walk.(owesLong := false)) == Unseen(st.g.walk)
  {
    hide Blocks, Threaded, Marked, Wired, Typed, Awaited, Batched, Alarmed, Ringed, Logged, Budgeted, Chronicled;
    assert st.g.walk.cur in UnseenLong(st.g.walk);
    UnseenListed(st, st.g.walk.cur);
    Live(st, st.g.walk.cur);
  }

  ghost predicate LongLookedGuard(st: State) {
    CanLookLong(st) && Timed(st, st.g.walk.context, st.g.walk.cur)
  }

  ghost function LongLookedCore(st: State): State
    requires LongLookedGuard(st)
  {
    var c, s := st.g.walk.context, st.g.walk.cur;
    var match_ := st.m.longTimeout[s] == st.m.longTimestamp[c];
    st.(m := st.m.(longTimeout := if match_ then st.m.longTimeout[s := W.NEVER] else st.m.longTimeout),
        g := st.g.(walk := st.g.walk.(owesLong := false),
                   longAlarms := if match_ then Fired(st.g.longAlarms, s, st.m.tick[c]) else st.g.longAlarms,
                   log := LookLog(st, LongTimer, s, match_)))
  }

  ghost function LongLooked(st: State): State {
    if LongLookedGuard(st) then LongLookedCore(st) else st
  }

  lemma WalkedOwes(ctxs: set<Addr>, walker: map<Addr, Addr>, rolls: Rolls, w: Walk)
    requires Walked(ctxs, walker, rolls, w) && w.Walk?
    ensures Walked(ctxs, walker, rolls, w.(owesLong := false))
  {
    assert Tail(w.(owesLong := false)) == Tail(w);
  }

  lemma LongFire(st: State)
    requires Inv(st) && CanLookLong(st)
    ensures var c, s := st.g.walk.context, st.g.walk.cur;
            && c in st.m.tick && c in st.m.longTimestamp && s in st.m.longTimeout
            && (st.m.longTimeout[s] == st.m.longTimestamp[c] ==>
                  Alarmed(Swept(st.g.place), st.m.context, st.m.tick, UnseenLong(st.g.walk) - {s},
                      st.m.longTimeout[s := W.NEVER], Fired(st.g.longAlarms, s, st.m.tick[c]), 15))
  {
    hide Inv, Alarmed, Swept, Unseen, UnseenLong, Open, W.Slot, W.NextMatch;
    var c, s := st.g.walk.context, st.g.walk.cur;
    LongFacts(st);
    AlarmAtoms(st);
    if st.m.longTimeout[s] == st.m.longTimestamp[c] {
      AlarmedFired(Swept(st.g.place), st.m.context, st.m.tick, UnseenLong(st.g.walk), st.m.longTimeout, st.g.longAlarms,
          15, s);
    }
  }

  lemma LongPass(st: State)
    requires Inv(st) && CanLookLong(st)
    ensures var c, s := st.g.walk.context, st.g.walk.cur;
            && c in st.m.longTimestamp && s in st.m.longTimeout
            && (st.m.longTimeout[s] != st.m.longTimestamp[c] ==>
                  Alarmed(Swept(st.g.place), st.m.context, st.m.tick, UnseenLong(st.g.walk) - {s}, st.m.longTimeout,
                      st.g.longAlarms, 15))
  {
    hide Inv, Alarmed, Swept, Unseen, UnseenLong, Open, W.Slot, W.NextMatch;
    var c, s := st.g.walk.context, st.g.walk.cur;
    LongFacts(st);
    AlarmAtoms(st);
    if st.m.longTimeout[s] != st.m.longTimestamp[c] {
      AlarmedExamined(Swept(st.g.place), st.m.context, st.m.tick, UnseenLong(st.g.walk), st.m.longTimeout,
          st.g.longAlarms, 15, s);
    }
  }

  lemma LongLookedAlarms(st: State)
    requires Inv(st) && CanLookLong(st)
    ensures LongLookedGuard(st)
    ensures var st' := LongLookedCore(st);
            && Alarmed(Swept(st.g.place), st.m.context, st.m.tick, Unseen(st'.g.walk), st'.m.timeout, st'.g.alarms, 1)
            && Alarmed(Swept(st.g.place), st.m.context, st.m.tick, UnseenLong(st'.g.walk), st'.m.longTimeout,
               st'.g.longAlarms, 15)
            && st'.m.longTimeout.Keys == st.m.longTimeout.Keys
  {
    hide Inv, Alarmed, Swept, Unseen, UnseenLong, Open, W.Slot, W.NextMatch;
    hide Fired;
    LongFacts(st);
    AlarmAtoms(st);
    LongFire(st);
    LongPass(st);
    KeysKept(st.m.longTimeout, st.g.walk.cur, W.NEVER);
  }

  lemma LongLookedKeeps(st: State)
    requires Inv(st) && CanLookLong(st)
    ensures Inv(LongLooked(st))
  {
    hide Blocks, Threaded, Marked, Located, Hosted, Wired, Typed, Owned, Awaited, Batched, Clocked, Alarmed, Walked,
         Ringed, Logged, Budgeted, Chronicled;
    hide Open, Swept, Unseen, UnseenLong, Dropped, Without, BypassPrev, BypassNext, BypassHead;
    hide Fired;
    WalkedOwes(st.m.ctxs, st.m.walker, st.g.rolls, st.g.walk);
    LongFacts(st);
    LongLookedAlarms(st);
    LongDue(st);
    LookLogged(st, LongTimer, st.g.walk.cur, st.m.longTimeout[st.g.walk.cur] == st.m.longTimestamp[st.g.walk.context]);
  }

  /** Past the handlers of `cur`, on to what is still linked of the rest. */
  ghost predicate CanAdvance(st: State) {
    st.g.walk.Walk? && !(st.g.walk.onCur && st.g.walk.owesLong)
  }

  ghost function Advanced(st: State): State {
    if !CanAdvance(st) then st else
    var c, rest := st.g.walk.context, Without(st.g.walk.ahead, st.g.walk.dropped);
    st.(m := st.m.(walker := st.m.walker[c := At(rest, 0)]),
        g := st.g.(walk := Walk(c, NULL, false, false, rest, {})))
  }

  lemma WalkedAdvance(ctxs: set<Addr>, walker: map<Addr, Addr>, rolls: Rolls, w: Walk)
    requires Walked(ctxs, walker, rolls, w) && w.Walk? && NULL !in Without(w.ahead, w.dropped)
    ensures var rest := Without(w.ahead, w.dropped);
            Walked(ctxs, walker[w.context := At(rest, 0)], rolls, Walk(w.context, NULL, false, false, rest, {}))
  {
    var rest := Without(w.ahead, w.dropped);
    WithoutMembers(w.ahead, w.dropped);
    if w.onCur {
      assert Tail(w)[1..] == rest;
      SuffixRest(Tail(w), rolls[Linked(w.context)]);
    } else {
      assert Tail(w) == rest;
    }
    WalkedOnto(ctxs, walker, rolls, w, rest);
  }

  lemma UnseenAdvance(w: Walk)
    requires w.Walk? && !(w.onCur && w.owesLong)
    ensures Unseen(Walk(w.context, NULL, false, false, Without(w.ahead, w.dropped), {})) == Unseen(w)
    ensures UnseenLong(Walk(w.context, NULL, false, false, Without(w.ahead, w.dropped), {})) == UnseenLong(w)
  {
    hide Without;
    WithoutMembers(w.ahead, w.dropped);
    var w' := Walk(w.context, NULL, false, false, Without(w.ahead, w.dropped), {});
    forall a
      ensures a in Unseen(w') <==> a in Unseen(w)
    {
      assert a in w'.ahead <==> a in w.ahead && a !in w.dropped;
    }
  }

  lemma NullUnseen(st: State)
    requires Inv(st) && st.g.walk.Walk?
    ensures NULL !in Without(st.g.walk.ahead, st.g.walk.dropped)
  {
    hide Inv, Without;
    WithoutMembers(st.g.walk.ahead, st.g.walk.dropped);
    assert NULL in Without(st.g.walk.ahead, st.g.walk.dropped) ==> NULL in Unseen(st.g.walk);
    if NULL in Unseen(st.g.walk) {
      UnseenListed(st, NULL);
      Live(st, NULL);
    }
  }

  lemma AdvancedKeeps(st: State)
    requires Inv(st) && CanAdvance(st)
    ensures Inv(Advanced(st))
  {
    hide Blocks, Threaded, Marked, Located, Hosted, Wired, Typed, Owned, Awaited, Batched, Clocked, Alarmed, Walked,
         Ringed, Logged, Budgeted, Chronicled;
    hide Open, Swept, Unseen, UnseenLong, Dropped, Without, BypassPrev, BypassNext, BypassHead;
    hide At;
    NullUnseen(st);
    WalkedAdvance(st.m.ctxs, st.m.walker, st.g.rolls, st.g.walk);
    UnseenAdvance(st.g.walk);
  }

  /** Nobody is left ahead: the iterator is cleared. */
  ghost predicate CanEndWalk(st: State) {
    st.g.walk.Walk? && !st.g.walk.onCur && st.g.walk.ahead == []
  }

  ghost function WalkEnded(st: State): State {
    if !CanEndWalk(st) then st else
    st.(m := st.m.(walker := st.m.walker[st.g.walk.context := NULL]),
        g := st.g.(walk := NoWalk))
  }

  lemma WalkEndedKeeps(st: State)
    requires Inv(st) && CanEndWalk(st)
    ensures Inv(WalkEnded(st))
  {
    hide Blocks, Threaded, Marked, Located, Hosted, Wired, Typed, Owned, Awaited, Batched, Clocked, Alarmed, Ringed,
         Logged, Budgeted, Chronicled;
    hide Open, Swept;
    assert Unseen(st.g.walk) == {};
  }
}
