/** The step that links a loose socket at the top of a two-way list. */
module Linking {
  import opened Threads
  import opened Journal
  import opened Chronicles
  import opened Chimes
  import opened States
  import opened Unlinking
  import W = Wheel

  /** The alarm a linked socket has by its stamp. */
  ghost function Rearmed(alarms: map<Addr, Alarm>, s: Addr, stamp: int, upcoming: nat, unit: W.Unit): map<Addr, Alarm> {
    if 0 <= stamp < W.SLOTS then alarms[s := Alarm(W.NextMatch(upcoming, unit, stamp), [])] else alarms - {s}
  }

  /** What is logged when the stamp of a linked socket `k` is set, or matters again. */
  ghost function SetEvent(timer: Timer, k: int, stamp: int, upcoming: nat, unit: W.Unit): Event {
    if 0 <= stamp < W.SLOTS then Set(timer, k, W.NextMatch(upcoming, unit, stamp)) else Unset(timer, k)
  }

  lemma RearmedKeeps(log: Log, timer: Timer, owner: map<int, Addr>, place: map<Addr, Place>, tick: map<Addr, nat>,
                     alarms: map<Addr, Alarm>, longAlarms: map<Addr, Alarm>, k: int, s: Addr, stamp: int, upcoming: nat,
                         unit: W.Unit)
    requires Chronicled(log, owner, place, tick, alarms, longAlarms) && Owns(owner, k, s)
    requires s in place && place[s].Linked? && place[s].context != NULL
    ensures Chronicled(log + [SetEvent(timer, k, stamp, upcoming, unit)], owner, place, tick,
                       if timer == ShortTimer then Rearmed(alarms, s, stamp, upcoming, unit) else alarms,
                       if timer == LongTimer then Rearmed(longAlarms, s, stamp, upcoming, unit) else longAlarms)
    ensures Timely(SetEvent(timer, k, stamp, upcoming, unit))
  {
    hide Chronicled, Owns, W.NextMatch;
    if 0 <= stamp < W.SLOTS {
      SetKeeps(log, timer, owner, place, tick, alarms, longAlarms, k, s, W.NextMatch(upcoming, unit, stamp));
    } else {
      UnsetKeeps(log, timer, owner, place, tick, alarms, longAlarms, k, s);
    }
  }

  /** What is logged when socket `s` is linked at `p`: that it entered, and that its timers run again. */
  ghost function JoinLog(st: State, s: Addr, p: Place): Log
    requires JoinedGuard(st, s, p)
  {
    if !p.Linked? then st.g.log
    else
      st.g.log + [Entered(st.m.id[s], p.context)]
      + [SetEvent(ShortTimer, st.m.id[s], st.m.timeout[s], st.m.tick[p.context] + 1, 1)]
      + [SetEvent(LongTimer, st.m.id[s], st.m.longTimeout[s], st.m.tick[p.context] + 1, 15)]
  }

  ghost predicate Joinable(st: State, s: Addr, p: Place) {
    && s in st.g.place && st.g.place[s] == Loose && s in st.m.pollType && KindFits(p, st.m.pollType[s])
    && (p == Queued || ((p.Linked? || p.Listening?) && p.context in st.m.ctxs))
    && (p.Linked? && s in st.m.lowPrio && st.m.lowPrio[s] == 2 ==>
       st.g.lowReads + |st.g.delayed| + 1 + st.m.budget <= 5 * st.m.iterationNr)
  }

  lemma JoinableFacts(st: State, s: Addr, p: Place)
    requires Inv(st) && Joinable(st, s, p)
    ensures IsList(st, p) && p != Loose && p != Closed
  {
    hide Blocks, Marked, Located, Wired, Typed, Owned, Awaited, Batched, Alarmed, Walked, Ringed, Logged, Budgeted,
         Chronicled, Chained, Stacked;
  }

  ghost predicate IsList(st: State, p: Place) {
    p in st.g.rolls && p in st.m.heads && (p == Queued || ((p.Linked? || p.Listening?) && p.context in st.m.tick))
  }

  ghost predicate JoinedGuard(st: State, s: Addr, p: Place) {
    Whole(st, s) && IsList(st, p)
  }

  ghost function JoinedCore(st: State, s: Addr, p: Place): State
    requires JoinedGuard(st, s, p)
  {
    st.(m := st.m.(prev := PushPrev(st.m.prev, st.m.heads[p], s),
                   next := PushNext(st.m.next, st.m.heads[p], s),
                   heads := st.m.heads[p := s],
                   context := if p == Queued then st.m.context else st.m.context[s := p.context],
                   lowPrio := if p == Queued then st.m.lowPrio[s := 1] else st.m.lowPrio),
        g := st.g.(rolls := st.g.rolls[p := [s] + st.g.rolls[p]],
                   place := st.g.place[s := p],
                   alarms := if p.Linked? then Rearmed(st.g.alarms, s, st.m.timeout[s], st.m.tick[p.context] + 1, 1)
                       else st.g.alarms,
                   longAlarms := if p.Linked? then Rearmed(st.g.longAlarms, s, st.m.longTimeout[s],
                       st.m.tick[p.context] + 1, 15) else st.g.longAlarms,
                   delayed := if p.Linked? && st.m.lowPrio[s] == 2 then st.g.delayed + {s} else st.g.delayed,
                   log := JoinLog(st, s, p)))
  }

  ghost function Joined(st: State, s: Addr, p: Place): State {
    if JoinedGuard(st, s, p) then JoinedCore(st, s, p) else st
  }

  lemma JoinedLinks(st: State, s: Addr, p: Place)
    requires Inv(st) && Joinable(st, s, p)
    ensures JoinedGuard(st, s, p)
    ensures var st' := JoinedCore(st, s, p);
            && p in st.m.heads && p in st.g.rolls && s in st.m.prev && s in st.m.next
            && (st.m.heads[p] != NULL ==>
                        st.m.heads[p] in st.m.prev && st.m.heads[p] in st.g.place && st.g.place[st.m.heads[p]] == p)
            && Threaded(st'.m.prev, st'.m.next, st'.m.heads, st'.g.rolls, st'.g.place)
  {
    hide Blocks, Marked, Located, Hosted, Wired, Typed, Owned, Awaited, Batched, Clocked, Alarmed, Walked, Ringed,
         Logged, Budgeted, Chronicled;
    hide Threaded, Open, Swept, Unseen, UnseenLong, PushPrev, PushNext;
    Live(st, s);
    JoinableFacts(st, s, p);
    LinkThreaded(st.m.prev, st.m.next, st.m.heads, st.g.rolls, st.g.place, s, p);
  }

  lemma SuffixPush(t: seq<Addr>, l: seq<Addr>, s: Addr)
    requires IsSuffix(t, l)
    ensures IsSuffix(t, [s] + l)
  {
  }

  lemma WalkedPush(ctxs: set<Addr>, walker: map<Addr, Addr>, rolls: Rolls, walk: Walk, p: Place, s: Addr)
    requires Walked(ctxs, walker, rolls, walk) && p in rolls
    ensures Walked(ctxs, walker, rolls[p := [s] + rolls[p]], walk)
  {
    if walk.Walk? { SuffixPush(Tail(walk), rolls[Linked(walk.context)], s); }
  }

  lemma SuffixMember(t: seq<Addr>, l: seq<Addr>, s: Addr)
    requires IsSuffix(t, l) && s in t
    ensures s in l
  {
    var i :| 0 <= i < |t| && t[i] == s;
    assert l[|l| - |t| + i] == l[|l| - |t|..][i];
  }

  /** What the walk has not seen is on the list it walks. */
  lemma UnseenOnList(rolls: Rolls, ctxs: set<Addr>, walker: map<Addr, Addr>, w: Walk, s: Addr)
    requires Walked(ctxs, walker, rolls, w) && (s in Unseen(w) || s in UnseenLong(w))
    ensures w.Walk? && Linked(w.context) in rolls && s in rolls[Linked(w.context)]
  {
    hide IsSuffix;
    TailMembers(w);
    SuffixMember(Tail(w), rolls[Linked(w.context)], s);
  }

  lemma OnRoll(rolls: Rolls, place: map<Addr, Place>, p: Place, s: Addr)
    requires Placed(rolls, place) && p in rolls && s in rolls[p]
    ensures s in place && place[s] == p
  {
    var i :| 0 <= i < |rolls[p]| && rolls[p][i] == s;
    assert rolls[p][i] in place;
  }

  /** What the walk has not seen is linked. */
  lemma UnseenListed(st: State, s: Addr)
    requires Inv(st) && (s in Unseen(st.g.walk) || s in UnseenLong(st.g.walk))
    ensures s in st.g.place && st.g.place[s] == Linked(st.g.walk.context)
  {
    hide Blocks, Marked, Located, Hosted, Wired, Typed, Owned, Awaited, Batched, Clocked, Alarmed, Walked, Ringed,
         Logged, Budgeted, Chronicled;
    hide Open, Swept, Chained, Stacked, Placed, Unseen, UnseenLong;
    UnseenOnList(st.g.rolls, st.m.ctxs, st.m.walker, st.g.walk, s);
    OnRoll(st.g.rolls, st.g.place, Linked(st.g.walk.context), s);
  }

  lemma AlarmedJoin(swept: set<Addr>, context: map<Addr, Addr>, tick: map<Addr, nat>, unseen: set<Addr>,
                    stamp: map<Addr, int>, alarms: map<Addr, Alarm>, unit: W.Unit, s: Addr, c: Addr)
    requires Alarmed(swept, context, tick, unseen, stamp, alarms, unit)
    requires s !in swept && s !in unseen && s in stamp && c in tick
    ensures Alarmed(swept + {s}, context[s := c], tick, unseen, stamp, Rearmed(alarms, s, stamp[s], tick[c] + 1, unit),
            unit)
  {
    var context' := context[s := c];
    forall a | a in swept
      ensures a != s && a in context && a in context' && context'[a] == context[a] && context[a] in tick
    {
    }
  }

  lemma AlarmedElsewhere(swept: set<Addr>, context: map<Addr, Addr>, tick: map<Addr, nat>, unseen: set<Addr>,
                         stamp: map<Addr, int>, alarms: map<Addr, Alarm>, unit: W.Unit, s: Addr, c: Addr)
    requires Alarmed(swept, context, tick, unseen, stamp, alarms, unit) && s !in swept
    ensures Alarmed(swept, context[s := c], tick, unseen, stamp, alarms, unit)
  {
    var context' := context[s := c];
    forall a | a in swept
      ensures a != s && a in context && a in context' && context'[a] == context[a] && context[a] in tick
    {
    }
  }

  lemma SweptJoined(place: map<Addr, Place>, s: Addr, p: Place)
    requires s in place && place[s] == Loose
    ensures s !in Swept(place)
    ensures Swept(place[s := p]) == if p.Linked? then Swept(place) + {s} else Swept(place)
  {
  }

  lemma JoinedAlarms(st: State, s: Addr, p: Place)
    requires Inv(st) && Joinable(st, s, p)
    ensures JoinedGuard(st, s, p)
    ensures var st' := JoinedCore(st, s, p);
            && Alarmed(Swept(st'.g.place), st'.m.context, st'.m.tick, Unseen(st'.g.walk), st'.m.timeout, st'.g.alarms,
               1)
            && Alarmed(Swept(st'.g.place), st'.m.context, st'.m.tick, UnseenLong(st'.g.walk), st'.m.longTimeout,
               st'.g.longAlarms, 15)
  {
    hide Blocks, Threaded, Marked, Located, Hosted, Wired, Typed, Owned, Awaited, Batched, Clocked, Alarmed, Walked,
         Ringed, Logged, Budgeted, Chronicled;
    hide Open, Swept, Unseen, UnseenLong, Dropped, Without, BypassPrev, BypassNext, BypassHead;
    hide PushPrev, PushNext, Rearmed;
    Live(st, s);
    JoinableFacts(st, s, p);
    SweptJoined(st.g.place, s, p);
    if s in Unseen(st.g.walk) || s in UnseenLong(st.g.walk) { UnseenListed(st, s); }
    if p.Linked? {
      AlarmedJoin(Swept(st.g.place), st.m.context, st.m.tick, Unseen(st.g.walk), st.m.timeout, st.g.alarms, 1, s,
          p.context);
      AlarmedJoin(Swept(st.g.place), st.m.context, st.m.tick, UnseenLong(st.g.walk), st.m.longTimeout, st.g.longAlarms,
          15, s, p.context);
    } else if p.Listening? {
      AlarmedElsewhere(Swept(st.g.place), st.m.context, st.m.tick, Unseen(st.g.walk), st.m.timeout, st.g.alarms, 1, s,
          p.context);
      AlarmedElsewhere(Swept(st.g.place), st.m.context, st.m.tick, UnseenLong(st.g.walk), st.m.longTimeout,
          st.g.longAlarms, 15, s, p.context);
    }
  }

  lemma MarkedPush(place: map<Addr, Place>, prev: Links, context: map<Addr, Addr>, head: Addr, s: Addr, p: Place)
    requires Marked(place, prev, context) && s in place && place[s] == Loose && p != Closed && s in prev
    requires head != NULL ==> head in place && place[head] == p
    ensures Marked(place[s := p], PushPrev(prev, head, s), if p == Queued || p == Loose then context
            else context[s := p.context])
  {
  }

  lemma LocatedJoin(place: map<Addr, Place>, context: map<Addr, Addr>, lowPrio: map<Addr, int>, s: Addr, p: Place)
    requires Located(place, context, lowPrio) && s in place && place[s] == Loose && s in context && p != Closed
             && p != Loose
    ensures Located(place[s := p], if p == Queued then context
            else context[s := p.context], if p == Queued then lowPrio[s := 1] else lowPrio)
  {
  }

  lemma HostedMove(context: map<Addr, Addr>, ctxs: set<Addr>, lists: set<Place>, s: Addr, c: Addr)
    requires Hosted(context, ctxs, lists) && c in ctxs
    ensures Hosted(context[s := c], ctxs, lists)
  {
  }

  lemma TypedJoin(place: map<Addr, Place>, pollType: map<Addr, bv4>, s: Addr, p: Place)
    requires Typed(place, pollType) && s in pollType && KindFits(p, pollType[s])
    ensures Typed(place[s := p], pollType)
  {
  }

  lemma BudgetedIn(swept: set<Addr>, lowPrio: map<Addr, int>, delayed: set<Addr>, lowReads: int, budget: int,
                   iterationNr: int, s: Addr)
    requires Budgeted(swept, lowPrio, delayed, lowReads, budget, iterationNr) && s !in swept && s in lowPrio
    requires lowPrio[s] == 2 ==> lowReads + |delayed| + 1 + budget <= 5 * iterationNr
    ensures Budgeted(swept + {s}, lowPrio, if lowPrio[s] == 2 then delayed + {s}
            else delayed, lowReads, budget, iterationNr)
    ensures Budgeted(swept, lowPrio[s := 1], delayed, lowReads, budget, iterationNr)
  {
  }

  lemma BudgetedJoin(st: State, s: Addr, p: Place)
    requires Inv(st) && Joinable(st, s, p)
    ensures JoinedGuard(st, s, p)
    ensures var st' := JoinedCore(st, s, p);
            Budgeted(Swept(st'.g.place), st'.m.lowPrio, st'.g.delayed, st'.g.lowReads, st'.m.budget, st'.m.iterationNr)
  {
    hide Blocks, Threaded, Marked, Located, Hosted, Wired, Typed, Owned, Awaited, Batched, Clocked, Alarmed, Walked,
         Ringed, Logged, Budgeted, Chronicled;
    hide Swept, Rearmed, PushPrev, PushNext, KindFits;
    Live(st, s);
    JoinableFacts(st, s, p);
    SweptJoined(st.g.place, s, p);
    if p.Linked? || p == Queued {
      if p == Queued && st.m.lowPrio[s] == 2 {
        BudgetedQueued(Swept(st.g.place), st.m.lowPrio, st.g.delayed, st.g.lowReads, st.m.budget, st.m.iterationNr, s);
      } else {
        BudgetedIn(Swept(st.g.place), st.m.lowPrio, st.g.delayed, st.g.lowReads, st.m.budget, st.m.iterationNr, s);
      }
    }
  }

  lemma BudgetedQueued(swept: set<Addr>, lowPrio: map<Addr, int>, delayed: set<Addr>, lowReads: int, budget: int,
                       iterationNr: int, s: Addr)
    requires Budgeted(swept, lowPrio, delayed, lowReads, budget, iterationNr) && s !in swept
    ensures Budgeted(swept, lowPrio[s := 1], delayed, lowReads, budget, iterationNr)
  {
  }

  lemma JoinedRest(st: State, s: Addr, p: Place)
    requires Inv(st) && Joinable(st, s, p)
    ensures JoinedGuard(st, s, p)
    ensures var st' := JoinedCore(st, s, p);
            && Marked(st'.g.place, st'.m.prev, st'.m.context)
            && Located(st'.g.place, st'.m.context, st'.m.lowPrio)
            && Hosted(st'.m.context, st'.m.ctxs, st.g.rolls.Keys)
            && Typed(st'.g.place, st'.m.pollType)
            && Open(st'.g.place) == Open(st.g.place)
  {
    hide Blocks, Threaded, Marked, Located, Hosted, Wired, Typed, Owned, Awaited, Batched, Clocked, Alarmed, Walked,
         Ringed, Logged, Budgeted, Chronicled;
    hide Open, Swept, Unseen, UnseenLong, Dropped, Without, BypassPrev, BypassNext, BypassHead;
    hide PushPrev, PushNext, Rearmed, KindFits;
    Live(st, s);
    JoinableFacts(st, s, p);
    JoinedLinks(st, s, p);
    OpenMoved(st.g.place, s, p);
    MarkedPush(st.g.place, st.m.prev, st.m.context, st.m.heads[p], s, p);
    LocatedJoin(st.g.place, st.m.context, st.m.lowPrio, s, p);
    TypedJoin(st.g.place, st.m.pollType, s, p);
    if p != Queued { HostedMove(st.m.context, st.m.ctxs, st.g.rolls.Keys, s, p.context); }
  }

  lemma LinkedLog(st: State, s: Addr, p: Place)
    requires Inv(st) && Joinable(st, s, p) && JoinedGuard(st, s, p) && p.Linked?
    ensures var st' := JoinedCore(st, s, p);
            && Chronicled(st'.g.log, st'.m.owner, st'.g.place, st'.m.tick, st'.g.alarms, st'.g.longAlarms)
            && Logged(st'.g.log, st.m.owner, Open(st.g.place), st.m.nextId) && Owing(st'.g.log) == Owing(st.g.log)
  {
    hide Blocks, Threaded, Marked, Located, Hosted, Wired, Typed, Owned, Awaited, Batched, Clocked, Alarmed, Walked,
         Ringed, Logged, Budgeted;
    hide Chronicled, Owns, Open, Swept, Unseen, UnseenLong, PushPrev, PushNext, Rearmed, KindFits, SetEvent, Owing;
    Live(st, s);
    OwnsIts(st, s);
    NotNull(st, p.context);
    var k, c, open := st.m.id[s], p.context, Open(st.g.place);
    var place' := st.g.place[s := p];
    var log1 := st.g.log + [Entered(k, c)];
    EnteredKeeps(st.g.log, st.m.owner, st.g.place, st.m.tick, st.g.alarms, st.g.longAlarms, k, s, c);
    LoggedTimely(st.g.log, st.m.owner, open, st.m.nextId, Entered(k, c));
    var e := SetEvent(ShortTimer, k, st.m.timeout[s], st.m.tick[c] + 1, 1);
    RearmedKeeps(log1, ShortTimer, st.m.owner, place', st.m.tick, st.g.alarms, st.g.longAlarms, k, s, st.m.timeout[s],
        st.m.tick[c] + 1, 1);
    LoggedTimely(log1, st.m.owner, open, st.m.nextId, e);
    var alarms' := Rearmed(st.g.alarms, s, st.m.timeout[s], st.m.tick[c] + 1, 1);
    var e' := SetEvent(LongTimer, k, st.m.longTimeout[s], st.m.tick[c] + 1, 15);
    RearmedKeeps(log1 + [e], LongTimer, st.m.owner, place', st.m.tick, alarms', st.g.longAlarms, k, s,
        st.m.longTimeout[s], st.m.tick[c] + 1, 15);
    LoggedTimely(log1 + [e], st.m.owner, open, st.m.nextId, e');
  }

  lemma JoinedLog(st: State, s: Addr, p: Place)
    requires Inv(st) && Joinable(st, s, p)
    ensures JoinedGuard(st, s, p)
    ensures var st' := JoinedCore(st, s, p);
            && Chronicled(st'.g.log, st'.m.owner, st'.g.place, st'.m.tick, st'.g.alarms, st'.g.longAlarms)
            && Logged(st'.g.log, st.m.owner, Open(st.g.place), st.m.nextId) && Owing(st'.g.log) == Owing(st.g.log)
  {
    hide Blocks, Threaded, Marked, Located, Hosted, Wired, Typed, Owned, Awaited, Batched, Clocked, Alarmed, Walked,
         Ringed, Logged, Budgeted;
    hide Chronicled, Owns, Open, Swept, Unseen, UnseenLong, PushPrev, PushNext, Rearmed, KindFits, SetEvent, Owing;
    Live(st, s);
    JoinableFacts(st, s, p);
    if p.Linked? {
      LinkedLog(st, s, p);
    } else {
      PlacedKeeps(st.g.log, st.m.owner, st.g.place, st.m.tick, st.g.alarms, st.g.longAlarms, s, p);
    }
  }

  lemma NotNull(st: State, c: Addr)
    requires Inv(st) && c in st.m.ctxs
    ensures c != NULL
  {
    hide Threaded, Marked, Located, Hosted, Wired, Typed, Owned, Awaited, Batched, Clocked, Alarmed, Walked, Ringed,
         Logged, Budgeted, Chronicled;
  }

  lemma JoinedKeys(st: State, s: Addr, p: Place)
    requires Inv(st) && Joinable(st, s, p)
    ensures JoinedGuard(st, s, p)
    ensures var st' := JoinedCore(st, s, p);
            && st'.m.lowPrio.Keys == st.m.lowPrio.Keys && st'.m.prev.Keys == st.m.prev.Keys
            && st'.m.next.Keys == st.m.next.Keys
            && st'.g.place.Keys == st.g.place.Keys && st'.g.rolls.Keys == st.g.rolls.Keys
            && st'.m.context.Keys == st.m.context.Keys
  {
    hide Blocks, Threaded, Marked, Located, Hosted, Wired, Typed, Owned, Awaited, Batched, Clocked, Alarmed, Walked,
         Ringed, Logged, Budgeted, Chronicled;
    hide Open, Swept, Unseen, UnseenLong, Rearmed;
    Live(st, s);
    JoinableFacts(st, s, p);
    JoinedLinks(st, s, p);
  }

  /** Linking keeps the invariant. */
  lemma JoinedKeeps(st: State, s: Addr, p: Place)
    requires Inv(st) && Joinable(st, s, p)
    ensures Inv(Joined(st, s, p))
  {
    hide Blocks, Threaded, Marked, Located, Hosted, Wired, Typed, Owned, Awaited, Batched, Clocked, Alarmed, Walked,
         Ringed, Logged, Budgeted, Chronicled;
    hide Open, Swept, Unseen, UnseenLong, Dropped, Without, BypassPrev, BypassNext, BypassHead;
    hide PushPrev, PushNext, Rearmed, KindFits, JoinLog;
    Live(st, s);
    JoinableFacts(st, s, p);
    JoinedLinks(st, s, p);
    WalkedPush(st.m.ctxs, st.m.walker, st.g.rolls, st.g.walk, p, s);
    JoinedAlarms(st, s, p);
    JoinedRest(st, s, p);
    BudgetedJoin(st, s, p);
    JoinedKeys(st, s, p);
    JoinedLog(st, s, p);
  }
}
