/** The steps that make and free contexts. */
module Contexts {
  import opened Threads
  import opened Journal
  import opened Chronicles
  import opened Chimes
  import opened States
  import W = Wheel

  ghost predicate ContextCreatable(st: State, c: Addr) {
    c != NULL && c !in st.m.heap && c !in st.m.ctxs
  }

  ghost function ContextCreated(st: State, c: Addr): State {
    st.(m := st.m.(ctxs := st.m.ctxs + {c},
                   tick := st.m.tick[c := 0],
                   timestamp := st.m.timestamp[c := 0],
                   longTimestamp := st.m.longTimestamp[c := 0],
                   walker := st.m.walker[c := NULL],
                   ctxPrev := PushPrev(st.m.ctxPrev, st.m.ctxHead, c),
                   ctxNext := PushNext(st.m.ctxNext, st.m.ctxHead, c),
                   ctxHead := c,
                   heads := st.m.heads[Linked(c) := NULL][Listening(c) := NULL]),
        g := st.g.(contexts := [c] + st.g.contexts,
                   rolls := st.g.rolls[Linked(c) := []][Listening(c) := []],
                   log := st.g.log + [Began(c)]))
  }

  lemma BlocksContext(heap: set<Addr>, ctxs: set<Addr>,
                      fd: set<Addr>, pollType: set<Addr>, timeout: set<Addr>, longTimeout: set<Addr>,
                          lowPrio: set<Addr>,
                      context: set<Addr>, prev: set<Addr>, next: set<Addr>, id: set<Addr>, place: set<Addr>, c: Addr)
    requires Blocks(heap, ctxs, fd, pollType, timeout, longTimeout, lowPrio, context, prev, next, id, place)
    requires c != NULL && c !in heap
    ensures Blocks(heap, ctxs + {c}, fd, pollType, timeout, longTimeout, lowPrio, context, prev, next, id, place)
  {
  }

  lemma HostedContext(context: map<Addr, Addr>, ctxs: set<Addr>, rolls: Rolls, c: Addr)
    requires Hosted(context, ctxs, rolls.Keys) && c !in ctxs
    ensures Linked(c) !in rolls && Listening(c) !in rolls
    ensures Hosted(context, ctxs + {c}, rolls[Linked(c) := []][Listening(c) := []].Keys)
  {
  }

  lemma ClockedContext(ctxs: set<Addr>, tick: map<Addr, nat>, timestamp: map<Addr, int>, longTimestamp: map<Addr, int>,
                       c: Addr)
    requires Clocked(ctxs, tick, timestamp, longTimestamp) && c !in ctxs
    ensures Clocked(ctxs + {c}, tick[c := 0], timestamp[c := 0], longTimestamp[c := 0])
  {
  }

  lemma AlarmedContext(swept: set<Addr>, context: map<Addr, Addr>, tick: map<Addr, nat>, unseen: set<Addr>,
                       stamp: map<Addr, int>, alarms: map<Addr, Alarm>, unit: W.Unit, c: Addr)
    requires Alarmed(swept, context, tick, unseen, stamp, alarms, unit) && c !in tick
    ensures Alarmed(swept, context, tick[c := 0], unseen, stamp, alarms, unit)
  {
    var tick' := tick[c := 0];
    forall a | a in swept
      ensures a in context && context[a] in tick && context[a] in tick' && tick'[context[a]] == tick[context[a]]
    {
    }
  }

  lemma WalkedContext(ctxs: set<Addr>, walker: map<Addr, Addr>, rolls: Rolls, walk: Walk, c: Addr)
    requires Walked(ctxs, walker, rolls, walk) && c !in ctxs
    ensures Walked(ctxs + {c}, walker[c := NULL], rolls[Linked(c) := []][Listening(c) := []], walk)
  {
  }

  lemma RingedContext(ctxs: set<Addr>, ctxPrev: Links, ctxNext: Links, contexts: seq<Addr>, ctxHead: Addr, c: Addr)
    requires Ringed(ctxs, ctxPrev, ctxNext, contexts, ctxHead) && c !in ctxs && c != NULL
    ensures Ringed(ctxs + {c}, PushPrev(ctxPrev, ctxHead, c), PushNext(ctxNext, ctxHead, c), [c] + contexts, c)
    ensures ctxHead != NULL ==> ctxHead in ctxPrev
  {
    PushChained(ctxPrev, ctxNext, contexts, ctxHead, c);
    assert ctxHead != NULL ==> contexts[0] in ctxPrev;
  }

  lemma ClockedKeys(ctxs: set<Addr>, tick: map<Addr, nat>, timestamp: map<Addr, int>, longTimestamp: map<Addr, int>)
    requires Clocked(ctxs, tick, timestamp, longTimestamp)
    ensures tick.Keys == ctxs && timestamp.Keys == ctxs && longTimestamp.Keys == ctxs
  {
  }

  lemma ContextCreatedKeeps(st: State, c: Addr)
    requires Inv(st) && ContextCreatable(st, c)
    ensures Inv(ContextCreated(st, c))
  {
    hide Blocks, Threaded, Marked, Located, Hosted, Wired, Typed, Owned, Awaited, Batched, Clocked, Alarmed, Walked,
         Ringed, Logged, Budgeted, Chronicled;
    hide Open, Swept, Unseen, UnseenLong, Dropped, Without, BypassPrev, BypassNext, BypassHead;
    hide PushPrev, PushNext;
    BlocksContext(st.m.heap, st.m.ctxs, st.m.fd.Keys, st.m.pollType.Keys, st.m.timeout.Keys, st.m.longTimeout.Keys,
        st.m.lowPrio.Keys,
                  st.m.context.Keys, st.m.prev.Keys, st.m.next.Keys, st.m.id.Keys, st.g.place.Keys, c);
    HostedContext(st.m.context, st.m.ctxs, st.g.rolls, c);
    ContextThreaded(st.m.prev, st.m.next, st.m.heads, st.g.rolls, st.g.place, c);
    ClockedContext(st.m.ctxs, st.m.tick, st.m.timestamp, st.m.longTimestamp, c);
    ClockedKeys(st.m.ctxs, st.m.tick, st.m.timestamp, st.m.longTimestamp);
    AlarmedContext(Swept(st.g.place), st.m.context, st.m.tick, Unseen(st.g.walk), st.m.timeout, st.g.alarms, 1, c);
    AlarmedContext(Swept(st.g.place), st.m.context, st.m.tick, UnseenLong(st.g.walk), st.m.longTimeout, st.g.longAlarms,
        15, c);
    WalkedContext(st.m.ctxs, st.m.walker, st.g.rolls, st.g.walk, c);
    RingedContext(st.m.ctxs, st.m.ctxPrev, st.m.ctxNext, st.g.contexts, st.m.ctxHead, c);
    BeganKeeps(st.g.log, st.m.owner, st.g.place, st.m.tick, st.g.alarms, st.g.longAlarms, c);
    LoggedTimely(st.g.log, st.m.owner, Open(st.g.place), st.m.nextId, Began(c));
  }

  /** A context may be freed when no block names it and no sweep is walking. */
  ghost predicate ContextFreeable(st: State, c: Addr) {
    && c in st.m.ctxs && st.g.walk.NoWalk?
    && (forall s | s in st.m.context :: st.m.context[s] != c)
  }

  ghost function ContextFreed(st: State, c: Addr): State {
    if !(c in st.m.ctxPrev && c in st.m.ctxNext) then st else
    st.(m := st.m.(ctxs := st.m.ctxs - {c},
                   tick := st.m.tick - {c},
                   timestamp := st.m.timestamp - {c},
                   longTimestamp := st.m.longTimestamp - {c},
                   walker := st.m.walker - {c},
                   ctxPrev := BypassPrev(st.m.ctxPrev, st.m.ctxNext, c) - {c},
                   ctxNext := BypassNext(st.m.ctxPrev, st.m.ctxNext, c) - {c},
                   ctxHead := BypassHead(st.m.ctxPrev, st.m.ctxNext, st.m.ctxHead, c),
                   heads := st.m.heads - {Linked(c), Listening(c)}),
        g := st.g.(contexts := Without(st.g.contexts, {c}),
                   rolls := st.g.rolls - {Linked(c), Listening(c)}))
  }

  lemma ContextListed(st: State, c: Addr)
    requires Inv(st) && c in st.m.ctxs
    ensures c in st.g.contexts && c in st.m.ctxPrev && c in st.m.ctxNext && c != NULL
    ensures Chained(st.m.ctxPrev, st.m.ctxNext, st.g.contexts, st.m.ctxHead)
    ensures st.m.ctxPrev[c] != NULL ==> st.m.ctxPrev[c] in st.m.ctxNext && st.m.ctxPrev[c] != c
    ensures st.m.ctxNext[c] != NULL ==> st.m.ctxNext[c] in st.m.ctxPrev && st.m.ctxNext[c] != c
    ensures st.m.ctxPrev[c] == NULL <==> st.m.ctxHead == c
  {
    hide Threaded, Marked, Located, Hosted, Wired, Typed, Owned, Awaited, Batched, Clocked, Alarmed, Walked, Logged,
         Budgeted, Chronicled;
    var k := Index(st.g.contexts, c);
    Neighbours(st.m.ctxPrev, st.m.ctxNext, st.g.contexts, st.m.ctxHead, c);
    assert st.g.contexts[k] in st.m.ctxPrev && st.g.contexts[k] in st.m.ctxNext;
    if st.m.ctxPrev[c] != NULL { assert st.g.contexts[k - 1] in st.m.ctxNext; }
    if st.m.ctxNext[c] != NULL { assert st.g.contexts[k + 1] in st.m.ctxPrev; }
  }

  lemma BlocksContextFree(heap: set<Addr>, ctxs: set<Addr>,
                          fd: set<Addr>, pollType: set<Addr>, timeout: set<Addr>, longTimeout: set<Addr>,
                              lowPrio: set<Addr>,
                          context: set<Addr>, prev: set<Addr>, next: set<Addr>, id: set<Addr>, place: set<Addr>,
                              c: Addr)
    requires Blocks(heap, ctxs, fd, pollType, timeout, longTimeout, lowPrio, context, prev, next, id, place)
    ensures Blocks(heap, ctxs - {c}, fd, pollType, timeout, longTimeout, lowPrio, context, prev, next, id, place)
  {
  }

  lemma ThreadedContextFree(st: State, c: Addr)
    requires Inv(st) && ContextFreeable(st, c)
    ensures var gone := {Linked(c), Listening(c)};
            Threaded(st.m.prev, st.m.next, st.m.heads - gone, st.g.rolls - gone, st.g.place)
  {
    hide Blocks, Marked, Hosted, Wired, Typed, Owned, Awaited, Batched, Clocked, Alarmed, Walked, Ringed, Logged,
         Budgeted, Chronicled, Chained, Stacked;
    forall s | s in st.g.place && st.g.place[s] != Loose
      ensures st.g.place[s] != Linked(c) && st.g.place[s] != Listening(c)
    {
      Live(st, s);
    }
  }

  lemma HostedContextFree(context: map<Addr, Addr>, ctxs: set<Addr>, rolls: Rolls, c: Addr)
    requires Hosted(context, ctxs, rolls.Keys) && (forall s | s in context :: context[s] != c)
    ensures Hosted(context, ctxs - {c}, (rolls - {Linked(c), Listening(c)}).Keys)
  {
  }

  lemma ClockedContextFree(ctxs: set<Addr>, tick: map<Addr, nat>, timestamp: map<Addr, int>, longTimestamp: map<Addr,
                           int>, c: Addr)
    requires Clocked(ctxs, tick, timestamp, longTimestamp)
    ensures Clocked(ctxs - {c}, tick - {c}, timestamp - {c}, longTimestamp - {c})
  {
  }

  lemma AlarmedContextFree(swept: set<Addr>, context: map<Addr, Addr>, tick: map<Addr, nat>, unseen: set<Addr>,
                           stamp: map<Addr, int>, alarms: map<Addr, Alarm>, unit: W.Unit, c: Addr)
    requires Alarmed(swept, context, tick, unseen, stamp, alarms, unit) && (forall s | s in context :: context[s] != c)
    ensures Alarmed(swept, context, tick - {c}, unseen, stamp, alarms, unit)
  {
    var tick' := tick - {c};
    forall a | a in swept
      ensures a in context && context[a] in tick && context[a] in tick' && tick'[context[a]] == tick[context[a]]
    {
    }
  }

  lemma WalkedContextFree(ctxs: set<Addr>, walker: map<Addr, Addr>, rolls: Rolls, walk: Walk, c: Addr)
    requires Walked(ctxs, walker, rolls, walk) && walk.NoWalk?
    ensures Walked(ctxs - {c}, walker - {c}, rolls - {Linked(c), Listening(c)}, walk)
  {
  }

  lemma BypassKeys(prev: Links, next: Links, c: Addr)
    requires c in prev && c in next
    requires prev[c] != NULL ==> prev[c] in next
    requires next[c] != NULL ==> next[c] in prev
    ensures BypassPrev(prev, next, c).Keys == prev.Keys && BypassNext(prev, next, c).Keys == next.Keys
  {
  }

  lemma RingedContextFree(ctxs: set<Addr>, ctxPrev: Links, ctxNext: Links, contexts: seq<Addr>, ctxHead: Addr, c: Addr)
    requires Ringed(ctxs, ctxPrev, ctxNext, contexts, ctxHead) && c in contexts && c in ctxPrev && c in ctxNext
    requires ctxPrev[c] != NULL ==> ctxPrev[c] in ctxNext
    requires ctxNext[c] != NULL ==> ctxNext[c] in ctxPrev
    ensures Ringed(ctxs - {c}, BypassPrev(ctxPrev, ctxNext, c) - {c}, BypassNext(ctxPrev, ctxNext, c) - {c},
            Without(contexts, {c}),
                   BypassHead(ctxPrev, ctxNext, ctxHead, c))
  {
    hide Chained, BypassHead, BypassPrev, BypassNext;
    BypassKeys(ctxPrev, ctxNext, c);
    var prev, next, l := BypassPrev(ctxPrev, ctxNext, c), BypassNext(ctxPrev, ctxNext, c), Without(contexts, {c});
    BypassChained(ctxPrev, ctxNext, contexts, ctxHead, c);
    ChainedNoDup(ctxPrev, ctxNext, contexts, ctxHead);
    MinusIsWithout(contexts, c);
    WithoutMembers(contexts, {c});
    ChainedWithout(prev, next, l, BypassHead(ctxPrev, ctxNext, ctxHead, c), c);
  }

  /** The links of a block that is on no list may go. */
  lemma ChainedWithout(prev: Links, next: Links, l: seq<Addr>, head: Addr, c: Addr)
    requires Chained(prev, next, l, head) && c !in l
    ensures Chained(prev - {c}, next - {c}, l, head)
  {
    ChainedFrame(prev, next, prev - {c}, next - {c}, l, head);
  }

  lemma ContextFreedKeeps(st: State, c: Addr)
    requires Inv(st) && ContextFreeable(st, c)
    ensures Inv(ContextFreed(st, c))
  {
    hide Blocks, Threaded, Marked, Located, Hosted, Wired, Typed, Owned, Awaited, Batched, Clocked, Alarmed, Walked,
         Ringed, Logged, Budgeted, Chronicled;
    hide Open, Swept, Unseen, UnseenLong, Dropped, Without, BypassPrev, BypassNext, BypassHead;
    ContextListed(st, c);
    BlocksContextFree(st.m.heap, st.m.ctxs, st.m.fd.Keys, st.m.pollType.Keys, st.m.timeout.Keys, st.m.longTimeout.Keys,
        st.m.lowPrio.Keys,
                      st.m.context.Keys, st.m.prev.Keys, st.m.next.Keys, st.m.id.Keys, st.g.place.Keys, c);
    HostedContextFree(st.m.context, st.m.ctxs, st.g.rolls, c);
    ThreadedContextFree(st, c);
    ClockedContextFree(st.m.ctxs, st.m.tick, st.m.timestamp, st.m.longTimestamp, c);
    AlarmedContextFree(Swept(st.g.place), st.m.context, st.m.tick, Unseen(st.g.walk), st.m.timeout, st.g.alarms, 1, c);
    AlarmedContextFree(Swept(st.g.place), st.m.context, st.m.tick, UnseenLong(st.g.walk), st.m.longTimeout,
        st.g.longAlarms, 15, c);
    WalkedContextFree(st.m.ctxs, st.m.walker, st.g.rolls, st.g.walk, c);
    RingedContextFree(st.m.ctxs, st.m.ctxPrev, st.m.ctxNext, st.g.contexts, st.m.ctxHead, c);
    ContextForgotten(st.g.log, st.m.owner, st.g.place, st.m.tick, st.g.alarms, st.g.longAlarms, c);
  }
}
