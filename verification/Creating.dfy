/** The step that makes a new poll: allocated, registered, not yet on any list. */
module Creating {
  import opened Threads
  import opened Polls
  import opened ReadyBatch
  import opened Journal
  import opened Chronicles
  import opened Chimes
  import opened States
  import opened Linking
  import W = Wheel

  ghost predicate Creatable(st: State, a: Addr, c: Addr, f: int) {
    a != NULL && a !in st.m.heap && a !in st.m.ctxs && c in st.m.ctxs && f !in st.m.kernel
  }

  ghost function Created(st: State, a: Addr, c: Addr, f: int, t: bv4): State {
    st.(m := st.m.(heap := st.m.heap + {a},
                   fd := st.m.fd[a := f],
                   pollType := st.m.pollType[a := t],
                   timeout := st.m.timeout[a := W.NEVER],
                   longTimeout := st.m.longTimeout[a := W.NEVER],
                   lowPrio := st.m.lowPrio[a := 0],
                   context := st.m.context[a := c],
                   prev := st.m.prev[a := NULL],
                   next := st.m.next[a := NULL],
                   id := st.m.id[a := st.m.nextId],
                   owner := st.m.owner[st.m.nextId := a],
                   nextId := st.m.nextId + 1,
                   kernel := st.m.kernel[f := Registration(Events(t), a)],
                   numPolls := st.m.numPolls + 1),
        g := st.g.(place := st.g.place[a := Loose]))
  }

  lemma NewKey<V>(m: map<Addr, V>, a: Addr, v: V)
    ensures m[a := v].Keys == m.Keys + {a}
  {
  }

  lemma BlocksAbsent(st: State, a: Addr)
    requires Inv(st) && a !in st.m.heap
    ensures a !in st.g.place && a !in st.m.fd && a !in st.m.pollType && a !in st.m.timeout && a !in st.m.longTimeout
            && a !in st.m.lowPrio
    ensures a !in st.m.context && a !in st.m.id && a !in st.m.prev && a !in st.m.next
  {
    hide Threaded, Marked, Located, Hosted, Wired, Typed, Owned, Awaited, Batched, Clocked, Alarmed, Walked, Ringed,
         Logged, Budgeted, Chronicled;
  }

  lemma BlocksGrown(heap: set<Addr>, ctxs: set<Addr>,
                    fd: set<Addr>, pollType: set<Addr>, timeout: set<Addr>, longTimeout: set<Addr>, lowPrio: set<Addr>,
                    context: set<Addr>, prev: set<Addr>, next: set<Addr>, id: set<Addr>, place: set<Addr>,
                    a: Addr)
    requires Blocks(heap, ctxs, fd, pollType, timeout, longTimeout, lowPrio, context, prev, next, id, place)
    requires a != NULL && a !in heap && a !in ctxs
    ensures Blocks(heap + {a}, ctxs, fd + {a}, pollType + {a}, timeout + {a}, longTimeout + {a}, lowPrio + {a},
                   context + {a}, prev + {a}, next + {a}, id + {a}, place + {a})
    ensures |heap + {a}| == |heap| + 1
  {
  }

  lemma CreatedBlocks(st: State, a: Addr, c: Addr, f: int, t: bv4)
    requires Inv(st) && Creatable(st, a, c, f)
    ensures var st' := Created(st, a, c, f, t);
            && Blocks(st'.m.heap, st'.m.ctxs, st'.m.fd.Keys, st'.m.pollType.Keys, st'.m.timeout.Keys,
               st'.m.longTimeout.Keys, st'.m.lowPrio.Keys,
                      st'.m.context.Keys, st'.m.prev.Keys, st'.m.next.Keys, st'.m.id.Keys, st'.g.place.Keys)
            && st'.m.numPolls == |st'.m.heap|
  {
    hide Blocks, Threaded, Marked, Located, Hosted, Wired, Typed, Owned, Awaited, Batched, Clocked, Alarmed, Walked,
         Ringed, Logged, Budgeted, Chronicled;
    hide Open, Swept, Unseen, UnseenLong, Events;
    NewKey(st.m.fd, a, f); NewKey(st.m.pollType, a, t); NewKey(st.m.timeout, a, W.NEVER);
        NewKey(st.m.longTimeout, a, W.NEVER);
    NewKey(st.m.lowPrio, a, 0); NewKey(st.m.context, a, c); NewKey(st.m.prev, a, NULL); NewKey(st.m.next, a, NULL);
    NewKey(st.m.id, a, st.m.nextId); NewKey(st.g.place, a, Loose);
    BlocksGrown(st.m.heap, st.m.ctxs, st.m.fd.Keys, st.m.pollType.Keys, st.m.timeout.Keys, st.m.longTimeout.Keys,
        st.m.lowPrio.Keys,
                st.m.context.Keys, st.m.prev.Keys, st.m.next.Keys, st.m.id.Keys, st.g.place.Keys, a);
  }

  lemma CreatedLinks(st: State, a: Addr, c: Addr, f: int, t: bv4)
    requires Inv(st) && Creatable(st, a, c, f) && a !in st.g.place
    ensures var st' := Created(st, a, c, f, t); Threaded(st'.m.prev, st'.m.next, st'.m.heads, st'.g.rolls, st'.g.place)
  {
    hide Blocks, Threaded, Marked, Located, Hosted, Wired, Typed, Owned, Awaited, Batched, Clocked, Alarmed, Walked,
         Ringed, Logged, Budgeted, Chronicled;
    hide Open, Swept, Unseen, UnseenLong, Events;
    var st' := Created(st, a, c, f, t);
    LooseThreaded(st.m.prev, st.m.next, st.m.heads, st.g.rolls, st.g.place, st'.m.prev, st'.m.next, st'.g.place);
  }

  lemma MarkedCreate(place: map<Addr, Place>, prev: Links, context: map<Addr, Addr>, a: Addr, c: Addr)
    requires Marked(place, prev, context) && a !in place
    ensures Marked(place[a := Loose], prev[a := NULL], context[a := c])
  {
  }

  lemma LocatedCreate(place: map<Addr, Place>, context: map<Addr, Addr>, lowPrio: map<Addr, int>, a: Addr, c: Addr)
    requires Located(place, context, lowPrio) && a !in place
    ensures Located(place[a := Loose], context[a := c], lowPrio[a := 0])
  {
  }

  lemma OpenCreate(place: map<Addr, Place>, a: Addr)
    requires a !in place
    ensures Open(place[a := Loose]) == Open(place) + {a}
    ensures Swept(place[a := Loose]) == Swept(place) && a !in Swept(place) && a !in Open(place)
  {
  }

  lemma WiredCreate(open: set<Addr>, fd: map<Addr, int>, pollType: map<Addr, bv4>, kernel: map<int, Registration>,
                    a: Addr, f: int, t: bv4)
    requires Wired(open, fd, pollType, kernel) && a !in open && f !in kernel
    ensures Wired(open + {a}, fd[a := f], pollType[a := t], kernel[f := Registration(Events(t), a)])
  {
  }

  lemma TypedCreate(place: map<Addr, Place>, pollType: map<Addr, bv4>, a: Addr, t: bv4)
    requires Typed(place, pollType) && a !in place
    ensures Typed(place[a := Loose], pollType[a := t])
  {
  }

  lemma OwnedCreate(id: map<Addr, int>, owner: map<int, Addr>, nextId: int, a: Addr)
    requires Owned(id, owner, nextId) && a !in id
    ensures Owned(id[a := nextId], owner[nextId := a], nextId + 1) && nextId !in owner
  {
    forall k | k in owner
      ensures k < nextId
    {
      var s := owner[k];
      assert s in id && id[s] == k;
    }
    var id', owner' := id[a := nextId], owner[nextId := a];
    forall s | s in id'
      ensures id'[s] in owner' && owner'[id'[s]] == s && id'[s] < nextId + 1
    {
      assert s != a ==> id[s] in owner && id[s] != nextId;
    }
    forall k | k in owner'
      ensures owner'[k] in id' && id'[owner'[k]] == k
    {
      assert k != nextId ==> owner[k] in id && owner[k] != a;
    }
  }

  lemma AwaitedCreate(debts: set<int>, owner: map<int, Addr>, open: set<Addr>, pollType: map<Addr, bv4>, nextId: int,
                      a: Addr, t: bv4)
    requires Awaited(debts, owner, open, pollType) && nextId !in owner && a !in open
    ensures Awaited(debts, owner[nextId := a], open + {a}, pollType[a := t])
  {
  }

  lemma BatchedMore(rs: seq<Ready>, open: set<Addr>, limit: nat, a: Addr)
    requires Batched(rs, open, limit)
    ensures Batched(rs, open + {a}, limit)
  {
  }

  lemma AlarmedCreate(swept: set<Addr>, context: map<Addr, Addr>, tick: map<Addr, nat>, unseen: set<Addr>,
                      stamp: map<Addr, int>, alarms: map<Addr, Alarm>, unit: W.Unit, a: Addr, c: Addr)
    requires Alarmed(swept, context, tick, unseen, stamp, alarms, unit) && a !in swept
    ensures Alarmed(swept, context[a := c], tick, unseen, stamp[a := W.NEVER], alarms, unit)
  {
    AlarmedElsewhere(swept, context, tick, unseen, stamp, alarms, unit, a, c);
    var stamp' := stamp[a := W.NEVER];
    forall x | x in swept
      ensures x != a && x in stamp && x in stamp' && stamp'[x] == stamp[x]
    {
    }
  }

  lemma LoggedCreate(log: Log, owner: map<int, Addr>, open: set<Addr>, nextId: int, a: Addr)
    requires Logged(log, owner, open, nextId) && nextId !in owner && (forall k | k in owner :: owner[k] != a)
    ensures Logged(log, owner[nextId := a], open + {a}, nextId + 1)
  {
  }

  lemma BudgetedCreate(swept: set<Addr>, lowPrio: map<Addr, int>, delayed: set<Addr>, lowReads: int, budget: int,
                       iterationNr: int, a: Addr)
    requires Budgeted(swept, lowPrio, delayed, lowReads, budget, iterationNr) && a !in swept
    ensures Budgeted(swept, lowPrio[a := 0], delayed, lowReads, budget, iterationNr)
  {
  }

  lemma OwnersLive(id: map<Addr, int>, owner: map<int, Addr>, nextId: int, a: Addr)
    requires Owned(id, owner, nextId) && a !in id
    ensures forall k | k in owner :: owner[k] != a
  {
  }

  lemma CreatedKeeps(st: State, a: Addr, c: Addr, f: int, t: bv4)
    requires Inv(st) && Creatable(st, a, c, f)
    ensures Inv(Created(st, a, c, f, t))
  {
    hide Blocks, Threaded, Marked, Located, Hosted, Wired, Typed, Owned, Awaited, Batched, Clocked, Alarmed, Walked,
         Ringed, Logged, Budgeted, Chronicled;
    hide Open, Swept, Unseen, UnseenLong, Dropped, Without, BypassPrev, BypassNext, BypassHead;
    hide Events;
    BlocksAbsent(st, a);
    CreatedBlocks(st, a, c, f, t);
    CreatedLinks(st, a, c, f, t);
    OpenCreate(st.g.place, a);
    MarkedCreate(st.g.place, st.m.prev, st.m.context, a, c);
    LocatedCreate(st.g.place, st.m.context, st.m.lowPrio, a, c);
    HostedMove(st.m.context, st.m.ctxs, st.g.rolls.Keys, a, c);
    WiredCreate(Open(st.g.place), st.m.fd, st.m.pollType, st.m.kernel, a, f, t);
    TypedCreate(st.g.place, st.m.pollType, a, t);
    OwnedCreate(st.m.id, st.m.owner, st.m.nextId, a);
    OwnersLive(st.m.id, st.m.owner, st.m.nextId, a);
    AwaitedCreate(st.g.debts, st.m.owner, Open(st.g.place), st.m.pollType, st.m.nextId, a, t);
    BatchedMore(st.batch, Open(st.g.place), st.limit, a);
    AlarmedCreate(Swept(st.g.place), st.m.context, st.m.tick, Unseen(st.g.walk), st.m.timeout, st.g.alarms, 1, a, c);
    AlarmedCreate(Swept(st.g.place), st.m.context, st.m.tick, UnseenLong(st.g.walk), st.m.longTimeout, st.g.longAlarms,
        15, a, c);
    LoggedCreate(st.g.log, st.m.owner, Open(st.g.place), st.m.nextId, a);
    BudgetedCreate(Swept(st.g.place), st.m.lowPrio, st.g.delayed, st.g.lowReads, st.m.budget, st.m.iterationNr, a);
    AlarmsLinked(st, a);
    OwnedKeeps(st.g.log, st.m.owner, st.g.place, st.m.tick, st.g.alarms, st.g.longAlarms, st.m.nextId, a);
  }
}
