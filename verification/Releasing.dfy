/** The step that frees every block on the close list. */
module Releasing {
  import opened Threads
  import opened Polls
  import opened Journal
  import opened Chronicles
  import opened Chimes
  import opened States
  import opened Unlinking
  import W = Wheel

  ghost function ClosedBlocks(st: State): set<Addr> {
    set s | s in st.g.place && st.g.place[s] == Closed
  }

  ghost function ReleaseLog(l: seq<Addr>, id: map<Addr, int>): Log {
    if l == [] then []
    else ReleaseLog(l[..|l| - 1], id) + (if l[|l| - 1] in id then [Released(id[l[|l| - 1]])] else [])
  }

  lemma ClosedListed(st: State)
    requires Inv(st)
    ensures Closed in st.g.rolls && Closed in st.m.heads && Stacked(st.m.next, st.g.rolls[Closed], st.m.heads[Closed])
    ensures forall i | 0 <= i < |st.g.rolls[Closed]| ::
            st.g.rolls[Closed][i] in st.m.id && st.g.rolls[Closed][i] in st.m.heap
                                                   && st.g.rolls[Closed][i] in st.g.place
                                                   && st.g.place[st.g.rolls[Closed][i]] == Closed
    ensures forall a :: a in ClosedBlocks(st) <==> a in st.g.rolls[Closed]
  {
    hide Marked, Located, Hosted, Wired, Typed, Owned, Awaited, Batched, Clocked, Alarmed, Walked, Ringed, Logged,
         Budgeted, Chronicled, Chained, Stacked, NoDup;
    forall i | 0 <= i < |st.g.rolls[Closed]|
      ensures st.g.rolls[Closed][i] in st.m.id && st.g.rolls[Closed][i] in st.m.heap
              && st.g.rolls[Closed][i] in st.g.place && st.g.place[st.g.rolls[Closed][i]] == Closed
    {
      var a := st.g.rolls[Closed][i];
      assert a in st.g.place;
    }
    forall a | a in st.g.rolls[Closed]
      ensures a in ClosedBlocks(st)
    {
      var i :| 0 <= i < |st.g.rolls[Closed]| && st.g.rolls[Closed][i] == a;
    }
  }

  ghost function Freed(st: State): State {
    if Closed !in st.g.rolls then st else
    var gone := ClosedBlocks(st);
    st.(m := st.m.(heap := st.m.heap - gone,
                   fd := st.m.fd - gone,
                   pollType := st.m.pollType - gone,
                   timeout := st.m.timeout - gone,
                   longTimeout := st.m.longTimeout - gone,
                   lowPrio := st.m.lowPrio - gone,
                   context := st.m.context - gone,
                   prev := st.m.prev - gone,
                   next := st.m.next - gone,
                   id := st.m.id - gone,
                   owner := Keeping(st.m.owner, gone),
                   heads := st.m.heads[Closed := NULL],
                   numPolls := st.m.numPolls - |gone|),
        g := st.g.(rolls := st.g.rolls[Closed := []],
                   place := st.g.place - gone,
                   log := st.g.log + ReleaseLog(st.g.rolls[Closed], st.m.id) + [PostStep]))
  }

  lemma BlocksFreed(heap: set<Addr>, ctxs: set<Addr>,
                    fd: set<Addr>, pollType: set<Addr>, timeout: set<Addr>, longTimeout: set<Addr>, lowPrio: set<Addr>,
                    context: set<Addr>, prev: set<Addr>, next: set<Addr>, id: set<Addr>, place: set<Addr>,
                        gone: set<Addr>)
    requires Blocks(heap, ctxs, fd, pollType, timeout, longTimeout, lowPrio, context, prev, next, id, place)
    requires gone <= place
    ensures Blocks(heap - gone, ctxs, fd - gone, pollType - gone, timeout - gone, longTimeout - gone, lowPrio - gone,
                   context - gone, prev - gone, next - gone, id - gone, place - gone)
    ensures |heap - gone| == |heap| - |gone|
  {
    assert heap == (heap - gone) + gone;
  }

  lemma KeysLess<V>(m: map<Addr, V>, gone: set<Addr>)
    ensures (m - gone).Keys == m.Keys - gone
  {
  }

  lemma FreedBlocks(st: State)
    requires Inv(st)
    ensures var st' := Freed(st);
            && Blocks(st'.m.heap, st'.m.ctxs, st'.m.fd.Keys, st'.m.pollType.Keys, st'.m.timeout.Keys,
               st'.m.longTimeout.Keys, st'.m.lowPrio.Keys,
                      st'.m.context.Keys, st'.m.prev.Keys, st'.m.next.Keys, st'.m.id.Keys, st'.g.place.Keys)
            && st'.m.numPolls == |st'.m.heap|
  {
    hide Blocks, Threaded, Marked, Located, Hosted, Wired, Typed, Owned, Awaited, Batched, Clocked, Alarmed, Walked,
         Ringed, Logged, Budgeted, Chronicled;
    hide Open, Swept, Unseen, UnseenLong, Dropped, Without, BypassPrev, BypassNext, BypassHead;
    hide Keeping, ReleaseLog;
    ClosedListed(st);
    var gone := ClosedBlocks(st);
    KeysLess(st.m.fd, gone); KeysLess(st.m.pollType, gone); KeysLess(st.m.timeout, gone);
        KeysLess(st.m.longTimeout, gone); KeysLess(st.m.lowPrio, gone);
    KeysLess(st.m.context, gone); KeysLess(st.m.prev, gone); KeysLess(st.m.next, gone); KeysLess(st.m.id, gone);
        KeysLess(st.g.place, gone);
    BlocksFreed(st.m.heap, st.m.ctxs, st.m.fd.Keys, st.m.pollType.Keys, st.m.timeout.Keys, st.m.longTimeout.Keys,
        st.m.lowPrio.Keys,
                st.m.context.Keys, st.m.prev.Keys, st.m.next.Keys, st.m.id.Keys, st.g.place.Keys, gone);
  }

  lemma MarkedFree(place: map<Addr, Place>, prev: Links, context: map<Addr, Addr>, lowPrio: map<Addr, int>,
                   gone: set<Addr>)
    requires Marked(place, prev, context) && Located(place, context, lowPrio)
    ensures Marked(place - gone, prev - gone, context - gone) && Located(place - gone, context - gone, lowPrio - gone)
  {
  }

  lemma HostedFree(context: map<Addr, Addr>, ctxs: set<Addr>, lists: set<Place>, gone: set<Addr>)
    requires Hosted(context, ctxs, lists)
    ensures Hosted(context - gone, ctxs, lists)
  {
  }

  lemma OpenFree(st: State)
    ensures Open(st.g.place - ClosedBlocks(st)) == Open(st.g.place)
    ensures Swept(st.g.place - ClosedBlocks(st)) == Swept(st.g.place)
    ensures ClosedBlocks(st) !! Open(st.g.place) && ClosedBlocks(st) !! Swept(st.g.place)
            && ClosedBlocks(st) <= st.g.place.Keys
    ensures Open(st.g.place) + ClosedBlocks(st) == st.g.place.Keys
  {
  }

  lemma WiredFree(open: set<Addr>, fd: map<Addr, int>, pollType: map<Addr, bv4>, kernel: map<int, Registration>,
                  gone: set<Addr>)
    requires Wired(open, fd, pollType, kernel) && gone !! open
    ensures Wired(open, fd - gone, pollType - gone, kernel)
  {
  }

  lemma TypedFree(place: map<Addr, Place>, pollType: map<Addr, bv4>, gone: set<Addr>)
    requires Typed(place, pollType)
    ensures Typed(place - gone, pollType - gone)
  {
  }

  lemma OwnedFree(id: map<Addr, int>, owner: map<int, Addr>, nextId: int, gone: set<Addr>)
    requires Owned(id, owner, nextId)
    ensures Owned(id - gone, Keeping(owner, gone), nextId)
  {
  }

  lemma AwaitedFree(debts: set<int>, owner: map<int, Addr>, open: set<Addr>, pollType: map<Addr, bv4>, gone: set<Addr>)
    requires Awaited(debts, owner, open, pollType) && gone !! open
    ensures Awaited(debts, Keeping(owner, gone), open, pollType - gone)
  {
  }

  lemma AlarmedFree(swept: set<Addr>, context: map<Addr, Addr>, tick: map<Addr, nat>, unseen: set<Addr>,
                    stamp: map<Addr, int>, alarms: map<Addr, Alarm>, unit: W.Unit, gone: set<Addr>)
    requires Alarmed(swept, context, tick, unseen, stamp, alarms, unit) && gone !! swept
    ensures Alarmed(swept, context - gone, tick, unseen, stamp - gone, alarms, unit)
  {
    var context', stamp' := context - gone, stamp - gone;
    forall x | x in swept
      ensures x in stamp && x in context && x in stamp' && x in context' && stamp'[x] == stamp[x]
              && context'[x] == context[x]
    {
    }
  }

  lemma BudgetedFree(swept: set<Addr>, lowPrio: map<Addr, int>, delayed: set<Addr>, lowReads: int, budget: int,
                     iterationNr: int, gone: set<Addr>)
    requires Budgeted(swept, lowPrio, delayed, lowReads, budget, iterationNr) && gone !! swept
    ensures Budgeted(swept, lowPrio - gone, delayed, lowReads, budget, iterationNr)
  {
  }

  ghost function IdsOf(l: seq<Addr>, id: map<Addr, int>): set<int> {
    if l == [] then {} else IdsOf(l[..|l| - 1], id) + (if l[|l| - 1] in id then {id[l[|l| - 1]]} else {})
  }

  lemma {:induction false} IdsOfMembers(l: seq<Addr>, id: map<Addr, int>, k: int)
    ensures k in IdsOf(l, id) <==> exists a :: a in l && a in id && id[a] == k
  {
    if l != [] {
      var init, last := l[..|l| - 1], l[|l| - 1];
      IdsOfMembers(init, id, k);
      assert forall a :: a in l <==> a in init || a == last;
    }
  }

  lemma LastAlone(l: seq<Addr>)
    requires NoDup(l) && l != []
    ensures l[|l| - 1] !in l[..|l| - 1]
  {
  }

  /** Releasing closed blocks one after the other is lawful, and logs exactly their identities. */
  lemma {:induction false} ReleaseLogLawful(log: Log, l: seq<Addr>, id: map<Addr, int>)
    requires Lawful(log)
    requires forall a | a in l :: a in id && id[a] in ShutIds(log) && id[a] !in ReleasedIds(log)
    requires NoDup(l) && forall a, b | a in l && b in l && a in id && b in id && id[a] == id[b] :: a == b
    ensures Lawful(log + ReleaseLog(l, id))
    ensures ShutIds(log + ReleaseLog(l, id)) == ShutIds(log) && Owing(log + ReleaseLog(l, id)) == Owing(log)
    ensures ReleasedIds(log + ReleaseLog(l, id)) == ReleasedIds(log) + IdsOf(l, id)
  {
    hide Lawful, ShutIds, ReleasedIds, Owing;
    if l == [] {
      assert log + ReleaseLog(l, id) == log;
    } else {
      var init, last := l[..|l| - 1], l[|l| - 1];
      assert last in l && forall a | a in init :: a in l;
      LastAlone(l);
      ReleaseLogLawful(log, init, id);
      var log1, e := log + ReleaseLog(init, id), Released(id[last]);
      assert log + ReleaseLog(l, id) == log1 + [e];
      IdsOfMembers(init, id, e.id);
      assert Admissible(log1, e) by { assert e.id in ShutIds(log1) && e.id !in ReleasedIds(log1); }
      Append(log1, e);
    }
  }

  lemma LoggedFree(log: Log, owner: map<int, Addr>, open: set<Addr>, nextId: int, id: map<Addr, int>, l: seq<Addr>,
                   gone: set<Addr>)
    requires Logged(log, owner, open, nextId) && Owned(id, owner, nextId) && NoDup(l)
    requires forall i | 0 <= i < |l| :: l[i] in id
    requires (forall a :: a in gone <==> a in l) && open + gone == id.Keys && open !! gone
    ensures Logged(log + ReleaseLog(l, id) + [PostStep], Keeping(owner, gone), open, nextId)
    ensures Owing(log + ReleaseLog(l, id) + [PostStep]) == Owing(log)
  {
    hide Lawful, ShutIds, ReleasedIds, Owing, NoDup;
    forall a | a in l
      ensures a in id && id[a] in ShutIds(log) && id[a] !in ReleasedIds(log)
    {
      assert a in gone && id[a] in owner && owner[id[a]] == a;
    }
    forall a, b | a in l && b in l && a in id && b in id && id[a] == id[b]
      ensures a == b
    {
      assert owner[id[a]] == a && owner[id[b]] == b;
    }
    ReleaseLogLawful(log, l, id);
    var log1, ids := log + ReleaseLog(l, id), IdsOf(l, id);
    forall k | k in ShutIds(log) && k !in ReleasedIds(log)
      ensures k in ids
    {
      IdsOfMembers(l, id, k);
      var a := owner[k];
      assert a in id && id[a] == k && a !in open;
      assert a in gone;
    }
    assert ShutIds(log1) == ReleasedIds(log1) by { SameIds(ShutIds(log1), ReleasedIds(log), ids, l, id); }
    Append(log1, PostStep);
    forall k | k in Keeping(owner, gone)
      ensures k !in ids && k !in ShutIds(log)
    {
      assert owner[k] in open;
      IdsOfMembers(l, id, k);
    }
  }

  lemma SameIds(shut: set<int>, released: set<int>, ids: set<int>, l: seq<Addr>, id: map<Addr, int>)
    requires released <= shut && (forall k | k in shut && k !in released :: k in ids)
    requires ids == IdsOf(l, id) && forall a | a in l && a in id :: id[a] in shut
    ensures shut == released + ids
  {
    forall k
      ensures k in shut <==> k in released + ids
    {
      IdsOfMembers(l, id, k);
      assert k in shut ==> k in released || k in ids;
    }
  }

  lemma FreedRest(st: State)
    requires Inv(st)
    ensures var st' := Freed(st);
            && Marked(st'.g.place, st'.m.prev, st'.m.context)
            && Located(st'.g.place, st'.m.context, st'.m.lowPrio)
            && Hosted(st'.m.context, st'.m.ctxs, st'.g.rolls.Keys)
            && Wired(Open(st'.g.place), st'.m.fd, st'.m.pollType, st'.m.kernel)
            && Typed(st'.g.place, st'.m.pollType)
            && Owned(st'.m.id, st'.m.owner, st'.m.nextId)
            && Awaited(st'.g.debts, st'.m.owner, Open(st'.g.place), st'.m.pollType)
            && Budgeted(Swept(st'.g.place), st'.m.lowPrio, st'.g.delayed, st'.g.lowReads, st'.m.budget,
               st'.m.iterationNr)
            && Open(st'.g.place) == Open(st.g.place) && Swept(st'.g.place) == Swept(st.g.place)
  {
    hide Blocks, Threaded, Marked, Located, Hosted, Wired, Typed, Owned, Awaited, Batched, Clocked, Alarmed, Walked,
         Ringed, Logged, Budgeted, Chronicled;
    hide Open, Swept, Unseen, UnseenLong, Dropped, Without, BypassPrev, BypassNext, BypassHead;
    hide Keeping, ReleaseLog, ClosedBlocks;
    ClosedListed(st);
    var gone := ClosedBlocks(st);
    OpenFree(st);
    MarkedFree(st.g.place, st.m.prev, st.m.context, st.m.lowPrio, gone);
    assert st.g.rolls[Closed := []].Keys == st.g.rolls.Keys;
    HostedFree(st.m.context, st.m.ctxs, st.g.rolls.Keys, gone);
    WiredFree(Open(st.g.place), st.m.fd, st.m.pollType, st.m.kernel, gone);
    TypedFree(st.g.place, st.m.pollType, gone);
    OwnedFree(st.m.id, st.m.owner, st.m.nextId, gone);
    AwaitedFree(st.g.debts, st.m.owner, Open(st.g.place), st.m.pollType, gone);
    BudgetedFree(Swept(st.g.place), st.m.lowPrio, st.g.delayed, st.g.lowReads, st.m.budget, st.m.iterationNr, gone);
  }

  lemma FreedMore(st: State)
    requires Inv(st)
    ensures var st' := Freed(st);
            && Threaded(st'.m.prev, st'.m.next, st'.m.heads, st'.g.rolls, st'.g.place)
            && Alarmed(Swept(st.g.place), st'.m.context, st'.m.tick, Unseen(st'.g.walk), st'.m.timeout, st'.g.alarms, 1)
            && Alarmed(Swept(st.g.place), st'.m.context, st'.m.tick, UnseenLong(st'.g.walk), st'.m.longTimeout,
               st'.g.longAlarms, 15)
            && Walked(st'.m.ctxs, st'.m.walker, st'.g.rolls, st'.g.walk)
            && Logged(st'.g.log, st'.m.owner, Open(st.g.place), st'.m.nextId) && st'.g.debts == Owing(st'.g.log)
  {
    hide Blocks, Threaded, Marked, Located, Hosted, Wired, Typed, Owned, Awaited, Batched, Clocked, Alarmed, Walked,
         Ringed, Logged, Budgeted, Chronicled;
    hide Open, Swept, Unseen, UnseenLong, Dropped, Without, BypassPrev, BypassNext, BypassHead;
    hide Keeping, ReleaseLog, ClosedBlocks, NoDup;
    ClosedListed(st);
    var gone := ClosedBlocks(st);
    OpenFree(st);
    IdKeys(st);
    ReleaseThreaded(st.m.prev, st.m.next, st.m.heads, st.g.rolls, st.g.place, gone);
    AlarmedFree(Swept(st.g.place), st.m.context, st.m.tick, Unseen(st.g.walk), st.m.timeout, st.g.alarms, 1, gone);
    AlarmedFree(Swept(st.g.place), st.m.context, st.m.tick, UnseenLong(st.g.walk), st.m.longTimeout, st.g.longAlarms,
        15, gone);
    WalkedElsewhere(st.m.ctxs, st.m.walker, st.g.rolls, st.g.walk, Closed, []);
    LoggedFree(st.g.log, st.m.owner, Open(st.g.place), st.m.nextId, st.m.id, st.g.rolls[Closed], gone);
  }

  lemma IdKeys(st: State)
    requires Inv(st)
    ensures st.m.id.Keys == st.g.place.Keys && st.g.place.Keys == st.m.heap
  {
    hide Threaded, Marked, Located, Hosted, Wired, Typed, Owned, Awaited, Batched, Clocked, Alarmed, Walked, Ringed,
         Logged, Budgeted, Chronicled;
  }

  lemma {:induction false} ReleaseLogChronicled(log: Log, l: seq<Addr>, id: map<Addr, int>, owner: map<int, Addr>,
                                                place: map<Addr, Place>,
                                                tick: map<Addr, nat>, alarms: map<Addr, Alarm>, longAlarms: map<Addr,
                                                    Alarm>)
    requires Chronicled(log, owner, place, tick, alarms, longAlarms)
    ensures Chronicled(log + ReleaseLog(l, id), owner, place, tick, alarms, longAlarms)
    decreases |l|
  {
    hide Chronicled;
    if l == [] {
      assert log + ReleaseLog(l, id) == log;
    } else {
      var init, last := l[..|l| - 1], l[|l| - 1];
      ReleaseLogChronicled(log, init, id, owner, place, tick, alarms, longAlarms);
      if last in id {
        NeutralKeeps(log + ReleaseLog(init, id), Released(id[last]), owner, place, tick, alarms, longAlarms);
        assert log + ReleaseLog(l, id) == log + ReleaseLog(init, id) + [Released(id[last])];
      } else {
        assert ReleaseLog(l, id) == ReleaseLog(init, id);
      }
    }
  }

  lemma FreedChronicle(st: State)
    requires Inv(st)
    ensures var st' := Freed(st); Chronicled(st'.g.log, st'.m.owner, st'.g.place, st'.m.tick, st'.g.alarms,
            st'.g.longAlarms)
  {
    hide Blocks, Threaded, Marked, Located, Hosted, Wired, Typed, Owned, Awaited, Batched, Clocked, Alarmed, Walked,
         Ringed, Logged, Budgeted, Chronicled;
    hide Open, Swept, Unseen, UnseenLong, Keeping, ReleaseLog, ClosedBlocks, NoDup;
    ClosedListed(st);
    var gone := ClosedBlocks(st);
    var log1 := st.g.log + ReleaseLog(st.g.rolls[Closed], st.m.id);
    ReleaseLogChronicled(st.g.log, st.g.rolls[Closed], st.m.id, st.m.owner, st.g.place, st.m.tick, st.g.alarms,
        st.g.longAlarms);
    NeutralKeeps(log1, PostStep, st.m.owner, st.g.place, st.m.tick, st.g.alarms, st.g.longAlarms);
    forall s | s in gone
      ensures (s in st.g.place ==> !st.g.place[s].Linked?) && s !in st.g.alarms && s !in st.g.longAlarms
    {
      ClosedBlockIs(st, s);
      AlarmsLinked(st, s);
    }
    ForgottenKeeps(log1 + [PostStep], st.m.owner, st.g.place, gone, st.m.tick, st.g.alarms, st.g.longAlarms);
  }

  lemma ClosedBlockIs(st: State, s: Addr)
    requires s in ClosedBlocks(st)
    ensures s in st.g.place && st.g.place[s] == Closed
  {
  }

  /** Freeing the close list keeps the invariant: nothing refers to a freed block. */
  lemma FreedKeeps(st: State)
    requires Inv(st)
    ensures Inv(Freed(st))
  {
    hide Blocks, Threaded, Marked, Located, Hosted, Wired, Typed, Owned, Awaited, Batched, Clocked, Alarmed, Walked,
         Ringed, Logged, Budgeted, Chronicled;
    hide Open, Swept, Unseen, UnseenLong, Dropped, Without, BypassPrev, BypassNext, BypassHead;
    hide Keeping, ReleaseLog, ClosedBlocks;
    FreedBlocks(st);
    FreedRest(st);
    FreedMore(st);
    FreedChronicle(st);
  }
}
