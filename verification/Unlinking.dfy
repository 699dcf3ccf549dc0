/** The step that takes a socket off the two-way list it is on, and that it keeps the invariant. */
module Unlinking {
  import opened Threads
  import opened Journal
  import opened Chronicles
  import opened Chimes
  import opened States
  import W = Wheel

  lemma TailMembers(w: Walk)
    requires w.Walk? && NoDup(w.ahead) && w.cur !in w.ahead
    ensures NoDup(Tail(w))
    ensures forall a :: a in Tail(w) <==> (w.onCur && a == w.cur) || (a in w.ahead && a !in w.dropped)
  {
    WithoutMembers(w.ahead, w.dropped);
  }

  lemma WithoutSingle(a: Addr, s: Addr)
    ensures Without([a], {s}) == if a == s then [] else [a]
  {
  }

  lemma DroppedTail(w: Walk, s: Addr)
    requires w.Walk?
    ensures Tail(Dropped(w, w.context, s)) == Without(Tail(w), {s})
  {
    hide Without;
    var rest := Without(w.ahead, w.dropped);
    WithoutTwice(w.ahead, w.dropped, {s});
    WithoutConcat([w.cur], rest, {s});
    WithoutSingle(w.cur, s);
    assert [] + rest == rest && [] + Without(rest, {s}) == Without(rest, {s});
  }

  /** Removing an element keeps a suffix a suffix. */
  lemma SuffixWithout(t: seq<Addr>, l: seq<Addr>, s: Addr)
    requires IsSuffix(t, l)
    ensures IsSuffix(Without(t, {s}), Without(l, {s}))
  {
    hide Without;
    var pre := l[..|l| - |t|];
    assert l == pre + t;
    WithoutConcat(pre, t, {s});
  }

  lemma WithoutFirst(t: seq<Addr>, s: Addr)
    requires t != []
    ensures Without(t, {s}) == if t[0] == s then Without(t[1..], {s}) else [t[0]] + Without(t[1..], {s})
  {
  }

  lemma SuffixIndex(t: seq<Addr>, l: seq<Addr>)
    requires IsSuffix(t, l) && NoDup(l) && t != []
    ensures t[0] in l && Index(l, t[0]) == |l| - |t| && t[0] !in t[1..] && At(l, |l| - |t| + 1) == At(t[1..], 0)
  {
    var d := |l| - |t|;
    assert l[d] == t[0];
    if |t| > 1 { assert l[d + 1] == t[1]; }
    forall i | 1 <= i < |t|
      ensures t[i] != t[0]
    {
      assert l[d + i] == t[i];
    }
  }

  lemma HeadWithout(t: seq<Addr>, l: seq<Addr>, s: Addr)
    requires IsSuffix(t, l) && NoDup(l) && s in l && s != NULL
    ensures At(Without(t, {s}), 0) == if At(t, 0) == s then At(l, Index(l, s) + 1) else At(t, 0)
  {
    hide Without, IsSuffix, NoDup, Index;
    if t != [] {
      WithoutFirst(t, s);
      SuffixIndex(t, l);
      if t[0] == s { WithoutOne(t[1..], s); }
    } else {
      WithoutOne(t, s);
    }
  }

  lemma WalkedUnlink(ctxs: set<Addr>, walker: map<Addr, Addr>, rolls: Rolls, walk: Walk, c: Addr, s: Addr, after: Addr)
    requires Walked(ctxs, walker, rolls, walk)
    requires c in ctxs && Linked(c) in rolls && NoDup(rolls[Linked(c)]) && NULL !in rolls[Linked(c)]
             && s in rolls[Linked(c)]
    requires after == At(rolls[Linked(c)], Index(rolls[Linked(c)], s) + 1)
    ensures Walked(ctxs, walker[c := if walker[c] == s then after else walker[c]],
                   rolls[Linked(c) := Without(rolls[Linked(c)], {s})], Dropped(walk, c, s))
  {
    hide Without, IsSuffix, NoDup, Index, Tail;
    if walk.Walk? && walk.context == c {
      DroppedTail(walk, s);
      SuffixWithout(Tail(walk), rolls[Linked(c)], s);
      HeadWithout(Tail(walk), rolls[Linked(c)], s);
      assert s != NULL;
    } else if walk.Walk? {
      assert Dropped(walk, c, s) == walk;
    } else {
      NullWalker(ctxs, walker, rolls, walk, c, s);
    }
  }

  lemma NullWalker(ctxs: set<Addr>, walker: map<Addr, Addr>, rolls: Rolls, walk: Walk, c: Addr, s: Addr)
    requires Walked(ctxs, walker, rolls, walk) && walk.NoWalk? && c in ctxs && Linked(c) in rolls
             && s in rolls[Linked(c)] && NULL !in rolls[Linked(c)]
    ensures walker[c] == NULL && s != NULL
  {
  }

  /** Alarms depend on which other sockets the walk has seen only through `unseen`. */
  lemma AlarmedUnlink(swept: set<Addr>, context: map<Addr, Addr>, tick: map<Addr, nat>, unseen: set<Addr>,
                      unseen': set<Addr>,
                      stamp: map<Addr, int>, alarms: map<Addr, Alarm>, unit: W.Unit, s: Addr)
    requires Alarmed(swept, context, tick, unseen, stamp, alarms, unit)
    requires unseen' - {s} == unseen - {s}
    ensures Alarmed(swept - {s}, context, tick, unseen', stamp, alarms - {s}, unit)
  {
    forall a | a in swept - {s}
      ensures a in unseen' <==> a in unseen
    {
      assert a in unseen' - {s} <==> a in unseen - {s};
    }
  }

  lemma DroppedUnseen(w: Walk, c: Addr, s: Addr)
    ensures Unseen(Dropped(w, c, s)) - {s} == Unseen(w) - {s}
    ensures UnseenLong(Dropped(w, c, s)) - {s} == UnseenLong(w) - {s}
  {
  }

  lemma OpenMoved(place: map<Addr, Place>, s: Addr, p: Place)
    requires s in place && place[s] != Closed && p != Closed
    ensures Open(place[s := p]) == Open(place)
  {
  }

  lemma SweptLeft(place: map<Addr, Place>, s: Addr, p: Place)
    requires s in place && !p.Linked?
    ensures Swept(place[s := p]) == Swept(place) - {s}
  {
  }

  ghost function Unthreaded(st: State, s: Addr): State {
    if !(Whole(st, s) && st.g.place[s] != Loose) then st else
    var p := st.g.place[s];
    st.(m := st.m.(prev := BypassPrev(st.m.prev, st.m.next, s),
                   next := BypassNext(st.m.prev, st.m.next, s),
                   heads := st.m.heads[p := BypassHead(st.m.prev, st.m.next, st.m.heads[p], s)],
                   lowPrio := if p == Queued then st.m.lowPrio[s := 0] else st.m.lowPrio,
                   walker := if p.Linked? && p.context in st.m.walker
                       then st.m.walker[p.context := if st.m.walker[p.context] == s then st.m.next[s]
                       else st.m.walker[p.context]] else st.m.walker),
        g := st.g.(rolls := st.g.rolls[p := Without(st.g.rolls[p], {s})],
                   place := st.g.place[s := Loose],
                   walk := if p.Linked? then Dropped(st.g.walk, p.context, s) else st.g.walk,
                   alarms := st.g.alarms - {s},
                   longAlarms := st.g.longAlarms - {s},
                   delayed := st.g.delayed - {s},
                   log := if p.Linked? then st.g.log + [Left(st.m.id[s], p.context)] else st.g.log))
  }

  lemma UnthreadedLog(st: State, s: Addr)
    requires Inv(st) && Threadable(st, s)
    ensures var st' := Unthreaded(st, s);
            && Chronicled(st'.g.log, st'.m.owner, st'.g.place, st'.m.tick, st'.g.alarms, st'.g.longAlarms)
            && Logged(st'.g.log, st.m.owner, Open(st.g.place), st.m.nextId) && st'.g.debts == Owing(st'.g.log)
  {
    hide Blocks, Threaded, Marked, Located, Hosted, Wired, Typed, Owned, Awaited, Batched, Clocked, Alarmed, Walked,
         Ringed, Logged, Budgeted;
    hide Chronicled, Owns, Open, Swept, Unseen, Dropped, Without, BypassPrev, BypassNext, BypassHead;
    Live(st, s);
    OwnsIts(st, s);
    AlarmsLinked(st, s);
    var p := st.g.place[s];
    if p.Linked? {
      LeftKeeps(st.g.log, st.m.owner, st.g.place, st.m.tick, st.g.alarms, st.g.longAlarms, st.m.id[s], s);
      LoggedTimely(st.g.log, st.m.owner, Open(st.g.place), st.m.nextId, Left(st.m.id[s], p.context));
    } else {
      PlacedKeeps(st.g.log, st.m.owner, st.g.place, st.m.tick, st.g.alarms, st.g.longAlarms, s, Loose);
      assert st.g.alarms - {s} == st.g.alarms && st.g.longAlarms - {s} == st.g.longAlarms;
    }
  }

  lemma UnthreadedLinks(st: State, s: Addr)
    requires Inv(st) && Threadable(st, s)
    ensures s in st.m.prev && s in st.m.next && st.g.place[s] in st.g.rolls && st.g.place[s] in st.m.heads
    ensures st.m.prev[s] == st.m.next[s] ==> st.m.prev[s] == NULL
    ensures st.m.prev[s] != NULL ==>
                st.m.prev[s] in st.m.next && st.m.prev[s] in st.g.place && st.m.prev[s] != s
                && st.g.place[st.m.prev[s]] == st.g.place[s]
    ensures st.m.next[s] != NULL ==>
                st.m.next[s] in st.m.prev && st.m.next[s] in st.g.place && st.m.next[s] != s
                && st.g.place[st.m.next[s]] == st.g.place[s]
    ensures var st' := Unthreaded(st, s); Threaded(st'.m.prev, st'.m.next, st'.m.heads, st'.g.rolls, st'.g.place)
  {
    hide Blocks, Marked, Located, Hosted, Wired, Typed, Owned, Awaited, Batched, Clocked, Alarmed, Walked, Ringed,
         Logged, Budgeted, Chronicled;
    hide Open, Swept, Unseen, Dropped, Without, BypassPrev, BypassNext, BypassHead;
    UnlinkThreaded(st.m.prev, st.m.next, st.m.heads, st.g.rolls, st.g.place, s);
    Neighbours(st.m.prev, st.m.next, st.g.rolls[st.g.place[s]], st.m.heads[st.g.place[s]], s);
    MinusIsWithout(st.g.rolls[st.g.place[s]], s);
  }

  lemma WalkedElsewhere(ctxs: set<Addr>, walker: map<Addr, Addr>, rolls: Rolls, walk: Walk, p: Place, l: seq<Addr>)
    requires Walked(ctxs, walker, rolls, walk) && !p.Linked?
    ensures Walked(ctxs, walker, rolls[p := l], walk)
  {
  }

  lemma UnthreadedWalkLinked(st: State, s: Addr, c: Addr)
    requires Inv(st) && Threadable(st, s) && st.g.place[s] == Linked(c)
    ensures var st' := Unthreaded(st, s); Walked(st'.m.ctxs, st'.m.walker, st'.g.rolls, st'.g.walk)
  {
    hide Blocks, Threaded, Marked, Located, Hosted, Wired, Typed, Owned, Awaited, Batched, Clocked, Alarmed, Walked,
         Ringed, Logged, Budgeted, Chronicled;
    hide Open, Swept, Unseen, Dropped, Without, BypassPrev, BypassNext, BypassHead, Index, At, NoDup;
    Live(st, s);
    ListedFacts(st, s);
    WalkedUnlink(st.m.ctxs, st.m.walker, st.g.rolls, st.g.walk, c, s, st.m.next[s]);
  }

  lemma UnthreadedWalkElsewhere(st: State, s: Addr)
    requires Inv(st) && Threadable(st, s) && !st.g.place[s].Linked?
    ensures var st' := Unthreaded(st, s); Walked(st'.m.ctxs, st'.m.walker, st'.g.rolls, st'.g.walk)
  {
    hide Blocks, Threaded, Marked, Located, Hosted, Wired, Typed, Owned, Awaited, Batched, Clocked, Alarmed, Walked,
         Ringed, Logged, Budgeted, Chronicled;
    hide Open, Swept, Unseen, Dropped, Without, BypassPrev, BypassNext, BypassHead, Index, At, NoDup;
    Live(st, s);
    WalkedElsewhere(st.m.ctxs, st.m.walker, st.g.rolls, st.g.walk, st.g.place[s],
        Without(st.g.rolls[st.g.place[s]], {s}));
  }

  lemma UnthreadedAlarms(st: State, s: Addr)
    requires Inv(st) && Threadable(st, s)
    ensures var st' := Unthreaded(st, s);
            && Alarmed(Swept(st'.g.place), st'.m.context, st'.m.tick, Unseen(st'.g.walk), st'.m.timeout, st'.g.alarms,
               1)
            && Alarmed(Swept(st'.g.place), st'.m.context, st'.m.tick, UnseenLong(st'.g.walk), st'.m.longTimeout,
               st'.g.longAlarms, 15)
  {
    hide Blocks, Threaded, Marked, Located, Hosted, Wired, Typed, Owned, Awaited, Batched, Clocked, Alarmed, Walked,
         Ringed, Logged, Budgeted, Chronicled;
    hide Open, Swept, Unseen, UnseenLong, Dropped, Without, BypassPrev, BypassNext, BypassHead;
    SweptLeft(st.g.place, s, Loose);
    var st' := Unthreaded(st, s);
    if st.g.place[s].Linked? { DroppedUnseen(st.g.walk, st.g.place[s].context, s); }
    AlarmedUnlink(Swept(st.g.place), st.m.context, st.m.tick, Unseen(st.g.walk), Unseen(st'.g.walk), st.m.timeout,
        st.g.alarms, 1, s);
    AlarmedUnlink(Swept(st.g.place), st.m.context, st.m.tick, UnseenLong(st.g.walk), UnseenLong(st'.g.walk),
        st.m.longTimeout, st.g.longAlarms, 15, s);
  }

  lemma MarkedUnlink(place: map<Addr, Place>, prev: Links, next: Links, context: map<Addr, Addr>, s: Addr)
    requires Marked(place, prev, context)
    requires s in place && s in prev && s in next
    requires next[s] != NULL ==> next[s] in place && place[next[s]] != Closed
    ensures Marked(place[s := Loose], BypassPrev(prev, next, s), context)
  {
  }

  lemma LocatedUnlink(place: map<Addr, Place>, context: map<Addr, Addr>, lowPrio: map<Addr, int>, s: Addr)
    requires Located(place, context, lowPrio) && s in place
    ensures Located(place[s := Loose], context, if place[s] == Queued then lowPrio[s := 0] else lowPrio)
  {
  }

  lemma TypedLoose(place: map<Addr, Place>, pollType: map<Addr, bv4>, s: Addr)
    requires Typed(place, pollType) && s in place
    ensures Typed(place[s := Loose], pollType)
  {
  }

  lemma BudgetedUnlink(place: map<Addr, Place>, lowPrio: map<Addr, int>, delayed: set<Addr>, lowReads: int, budget: int,
                       iterationNr: int, s: Addr)
    requires Budgeted(Swept(place), lowPrio, delayed, lowReads, budget, iterationNr) && s in place
    ensures Budgeted(Swept(place[s := Loose]), if place[s] == Queued then lowPrio[s := 0]
            else lowPrio, delayed - {s}, lowReads, budget, iterationNr)
  {
    if s in delayed { assert delayed == (delayed - {s}) + {s}; } else { assert delayed - {s} == delayed; }
  }

  lemma UnthreadedRest(st: State, s: Addr)
    requires Inv(st) && Threadable(st, s)
    ensures var st' := Unthreaded(st, s);
            && Marked(st'.g.place, st'.m.prev, st'.m.context)
            && Located(st'.g.place, st'.m.context, st'.m.lowPrio)
            && Typed(st'.g.place, st'.m.pollType)
            && Open(st'.g.place) == Open(st.g.place)
            && Budgeted(Swept(st'.g.place), st'.m.lowPrio, st'.g.delayed, st'.g.lowReads, st'.m.budget,
               st'.m.iterationNr)
  {
    hide Blocks, Threaded, Marked, Located, Hosted, Wired, Typed, Owned, Awaited, Batched, Clocked, Alarmed, Walked,
         Ringed, Logged, Budgeted, Chronicled;
    hide Open, Swept, Unseen, Dropped, Without, BypassPrev, BypassNext, BypassHead;
    Live(st, s);
    UnthreadedLinks(st, s);
    OpenMoved(st.g.place, s, Loose);
    MarkedUnlink(st.g.place, st.m.prev, st.m.next, st.m.context, s);
    LocatedUnlink(st.g.place, st.m.context, st.m.lowPrio, s);
    TypedLoose(st.g.place, st.m.pollType, s);
    BudgetedUnlink(st.g.place, st.m.lowPrio, st.g.delayed, st.g.lowReads, st.m.budget, st.m.iterationNr, s);
  }

  lemma UnthreadedKeys(st: State, s: Addr)
    requires Inv(st) && Threadable(st, s)
    ensures var st' := Unthreaded(st, s);
            && st'.m.lowPrio.Keys == st.m.lowPrio.Keys && st'.m.prev.Keys == st.m.prev.Keys
            && st'.m.next.Keys == st.m.next.Keys
            && st'.g.place.Keys == st.g.place.Keys && st'.g.rolls.Keys == st.g.rolls.Keys
  {
    hide Blocks, Threaded, Marked, Located, Hosted, Wired, Typed, Owned, Awaited, Batched, Clocked, Alarmed, Walked,
         Ringed, Logged, Budgeted, Chronicled;
    hide Open, Swept, Unseen, Dropped, Without;
    Live(st, s);
    UnthreadedLinks(st, s);
  }

  /** Taking a socket off its list keeps the invariant. */
  lemma UnthreadedKeeps(st: State, s: Addr)
    requires Inv(st) && Threadable(st, s)
    ensures Inv(Unthreaded(st, s))
  {
    hide Blocks, Threaded, Marked, Located, Hosted, Wired, Typed, Owned, Awaited, Batched, Clocked, Alarmed, Walked,
         Ringed, Logged, Budgeted, Chronicled;
    hide Open, Swept, Unseen, Dropped, Without, BypassPrev, BypassNext, BypassHead;
    Live(st, s);
    UnthreadedLinks(st, s);
    if st.g.place[s].Linked? { UnthreadedWalkLinked(st, s, st.g.place[s].context); }
        else { UnthreadedWalkElsewhere(st, s); }
    UnthreadedAlarms(st, s);
    UnthreadedRest(st, s);
    UnthreadedKeys(st, s);
    UnthreadedLog(st, s);
  }

  lemma HeadWithoutIt(l: seq<Addr>)
    requires NoDup(l) && l != []
    ensures Without(l, {l[0]}) == l[1..]
  {
    WithoutAbsent(l[1..], {l[0]});
  }
}
