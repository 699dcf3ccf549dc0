/** Running the loop, from a new one on. */
module Running {
  import opened Threads
  import opened Polls
  import opened ReadyBatch
  import opened Journal
  import opened Chronicles
  import opened States
  import opened Facts
  import opened Linking
  import opened Repolling
  import opened Releasing
  import opened Listed
  import opened Evolution
  import opened Operations
  import opened Unlinking
  import opened Sweeping
  import opened Dispatching
  import opened Holding

  // ---- Running the loop

  /** From `st` to `st'` the journal was only added to, and no sweep is under way. */
  ghost predicate Continues(st: State, st': State) {
    st.g.log <= st'.g.log && st'.g.walk.NoWalk?
  }

  lemma ContinuesRefl(st: State)
    ensures st.g.walk.NoWalk? ==> Continues(st, st)
  {
  }

  lemma ContinuesTrans(a: State, b: State, c: State)
    requires Continues(a, b) && Continues(b, c)
    ensures Continues(a, c) && c.g.walk.NoWalk?
  {
    assert a.g.log <= c.g.log;
  }

  lemma EvolvesContinues(st: State, st': State)
    requires Evolves(st, st', {}, {}) && st.g.walk.NoWalk?
    ensures Continues(st, st') && st'.g.walk.NoWalk?
  {
    hide Homes, Remembers, NoNewQueued, Pins, Spares, Freezes, KeepsClocks, OwesLess, KeepsContexts, Established;
  }

  lemma FreedContinues(st: State)
    requires st.g.walk.NoWalk?
    ensures Continues(st, Freed(st)) && Freed(st).g.walk.NoWalk?
  {
    hide Keeping, ReleaseLog, ClosedBlocks;
    if Closed in st.g.rolls {
      assert st.g.log + ReleaseLog(st.g.rolls[Closed], st.m.id) + [PostStep] == st.g.log
             + (ReleaseLog(st.g.rolls[Closed], st.m.id) + [PostStep]);
    }
  }

  lemma LetBackContinues(st: State, granted: State, n: nat)
    requires st.g.walk.NoWalk? && LetBackIn(st, granted, n)
    ensures Continues(st, granted)
  {
  }

  lemma SweepContinues(st: State, st': State)
    requires AllTicked(st, st', []) && st'.g.walk.NoWalk?
    ensures Continues(st, st')
  {
  }

  lemma AnsweredContinues(st: State, s: Addr, st': State, n: Addr)
    requires Inv(st) && Settled(st) && Dispatchable(st, s) && st.g.walk.NoWalk? && Inv(st') && Settled(st')
    requires Evolves(Answered(st, s), st', {}, {}) && Persists(st, st', s, n)
    ensures Continues(st, st') && st'.g.walk.NoWalk? && Whole(st', n)
    ensures st'.m.prev[n] == st'.m.context[n] <==> st'.g.place[n] == Closed
    ensures st'.m.prev[n] != st'.m.context[n] ==>
                Dispatchable(st', n) && (st.g.place[s].Linked? ==> st'.g.place[n].Linked?)
  {
    hide Inv, HomesIn, Evolves, Kind;
    EvolvesContinues(Answered(st, s), st');
    ClosedFacts(st', n);
    assert st.g.log <= Answered(st, s).g.log;
    assert st.g.log <= st'.g.log;
  }

  lemma UntouchedContinues(st: State, s: Addr)
    requires Inv(st) && Settled(st) && Dispatchable(st, s) && st.g.walk.NoWalk?
    ensures Continues(st, st)
  {
  }

  lemma HeldBackContinues(st: State, s: Addr)
    requires st.g.walk.NoWalk?
    ensures Continues(st, HeldBack(st, s))
  {
    hide Repolled, Unthreaded, Joined;
    if s in st.m.pollType {
      var t := WithEvents(st.m.pollType[s], Events(st.m.pollType[s]).Only(WRITABLE));
      RestRepolled(st, s, t, {});
      UnthreadedContinues(Repolled(st, s, t), s);
      RestJoined(Unthreaded(Repolled(st, s, t), s), s, Queued, {});
    }
  }

  lemma UnthreadedContinues(st: State, s: Addr)
    requires st.g.walk.NoWalk?
    ensures Continues(st, Unthreaded(st, s))
  {
    hide Without, BypassPrev, BypassNext, BypassHead;
  }

  lemma ReadContinues(st: State, st1: State, s: Addr, lowPriority: bool, st': State)
    requires Continues(st, st1) && s in st1.m.lowPrio
    requires if lowPriority && st1.m.lowPrio[s] != 2 && st1.m.budget <= 0 then st' == HeldBack(st1, s)
             else Evolves(Admitted(st1, s, lowPriority), st', {}, {})
    ensures PlaceOf(st1, s).Linked? ==> Continues(st, st')
  {
    hide Evolves, HeldBack;
    if lowPriority && st1.m.lowPrio[s] != 2 && st1.m.budget <= 0 {
      HeldBackContinues(st1, s);
    } else {
      EvolvesContinues(Admitted(st1, s, lowPriority), st');
    }
  }

  lemma KindFacts(st: State, s: Addr)
    requires Inv(st) && Settled(st) && s in st.g.place && st.g.place[s] != Closed && s in st.m.pollType
    ensures Whole(st, s) && st.m.prev[s] != st.m.context[s] && Threadable(st, s)
    ensures Kind(st.m.pollType[s]) == POLL_TYPE_SEMI_SOCKET ==>
              if Events(st.m.pollType[s]) == WRITABLE then Connecting(st, s) else st.g.place[s].Listening?
    ensures Kind(st.m.pollType[s]) != POLL_TYPE_SEMI_SOCKET ==> Dispatchable(st, s) && !st.g.place[s].Listening?
    ensures Events(st.m.pollType[s]).readable && Kind(st.m.pollType[s]) != POLL_TYPE_SEMI_SOCKET ==>
            st.g.place[s].Linked?
  {
    hide Inv;
    ClosedFacts(st, s);
  }

  lemma EntryFacts(st: State, s: Addr)
    requires Inv(st) && Settled(st) && st.batch != [] && st.batch[0].ptr == Poll(s)
    ensures s in st.g.place && st.g.place[s] != Closed && s in st.m.pollType
  {
    hide Blocks, Threaded, Marked, Located, Hosted, Wired, Typed, Owned, Awaited, Clocked, Alarmed, Walked, Ringed,
         Logged, Budgeted, Chronicled, Count;
    Live(st, s);
  }

  lemma BatchNone(st: State)
    requires Inv(st)
    ensures Inv(st.(batch := []))
  {
    hide Blocks, Threaded, Marked, Located, Hosted, Wired, Typed, Owned, Awaited, Clocked, Alarmed, Walked, Ringed,
         Logged, Budgeted, Chronicled;
  }

  lemma BatchMore(st: State, f: int, r: Ready)
    requires Inv(st) && r.ptr == (if f in st.m.kernel then Poll(st.m.kernel[f].ptr) else SweepTimer)
    requires r.ptr == SweepTimer || Count(st.batch, r.ptr) < st.limit
    ensures Inv(st.(batch := st.batch + [r]))
  {
    hide Blocks, Threaded, Marked, Located, Hosted, Wired, Typed, Owned, Awaited, Batched, Clocked, Alarmed, Walked,
         Ringed, Logged, Budgeted, Chronicled, Count, Open;
    if f in st.m.kernel { KernelOpen(Open(st.g.place), st.m.fd, st.m.pollType, st.m.kernel, f); }
    BatchedMoreBy(st.batch, Open(st.g.place), st.limit, r);
  }

  lemma KernelOpen(open: set<Addr>, fd: map<Addr, int>, pollType: map<Addr, bv4>, kernel: map<int, Registration>,
                   f: int)
    requires Wired(open, fd, pollType, kernel) && f in kernel
    ensures kernel[f].ptr in open
  {
  }

  lemma BatchedMoreBy(rs: seq<Ready>, open: set<Addr>, limit: nat, r: Ready)
    requires Batched(rs, open, limit) && (r.ptr.Poll? ==> r.ptr.addr in open && Count(rs, r.ptr) < limit)
    ensures Batched(rs + [r], open, limit)
  {
    forall a
      ensures Count(rs + [r], Poll(a)) <= limit
    {
      CountSnoc(rs, r, Poll(a));
    }
  }

  lemma BatchTail(st: State)
    requires Inv(st) && st.batch != []
    ensures Inv(st.(batch := st.batch[1..]))
  {
    hide Blocks, Threaded, Marked, Located, Hosted, Wired, Typed, Owned, Awaited, Batched, Clocked, Alarmed, Walked,
         Ringed, Logged, Budgeted, Chronicled;
    BatchedTail(st.batch, Open(st.g.place), st.limit);
  }

  lemma BatchedTail(rs: seq<Ready>, open: set<Addr>, limit: nat)
    requires Batched(rs, open, limit) && rs != []
    ensures Batched(rs[1..], open, limit)
  {
    forall a
      ensures Count(rs[1..], Poll(a)) <= limit
    {
      assert Count(rs, Poll(a)) <= limit;
    }
  }

  lemma RunContinues(start: State, a: State, b: State, c: State, d: State)
    requires Continues(start, a) && b.g == a.g && Continues(b, c) && Continues(c, d)
    ensures Continues(start, d)
  {
    ContinuesTrans(start, b, c);
    ContinuesTrans(start, c, d);
  }

  lemma IdsGrow(st: State, log: Log)
    requires Inv(st) && log <= st.g.log
    ensures ShutIds(log) <= ShutIds(st.g.log) && ReleasedIds(log) <= ReleasedIds(st.g.log)
  {
    hide Blocks, Threaded, Marked, Located, Hosted, Wired, Typed, Owned, Awaited, Batched, Clocked, Alarmed, Walked,
         Ringed, Budgeted, Chronicled;
    PrefixLawful(st.g.log, |log|);
    assert st.g.log[..|log|] == log;
  }

  /** With nothing left on the close list, whatever was closed has been released. */
  lemma AllReleased(st: State)
    requires Inv(st) && forall s | s in st.g.place :: st.g.place[s] != Closed
    ensures ShutIds(st.g.log) == ReleasedIds(st.g.log)
  {
    hide Blocks, Threaded, Marked, Located, Hosted, Wired, Typed, Owned, Awaited, Batched, Clocked, Alarmed, Walked,
         Ringed, Budgeted, Logged, Chronicled;
    forall k | k in st.m.owner
      ensures st.m.owner[k] in Open(st.g.place)
    {
      OwnerHome(st, k);
    }
    LoggedAllOpen(st.g.log, st.m.owner, Open(st.g.place), st.m.nextId);
  }

  lemma LoggedAllOpen(log: Log, owner: map<int, Addr>, open: set<Addr>, nextId: int)
    requires Logged(log, owner, open, nextId) && forall k | k in owner :: owner[k] in open
    ensures ShutIds(log) == ReleasedIds(log)
  {
    hide Lawful, ShutIds, ReleasedIds;
    forall k | k in ShutIds(log)
      ensures k in ReleasedIds(log)
    {
      assert k in ReleasedIds(log) || k in owner;
    }
  }

  lemma NoPolls(st: State)
    requires Inv(st) && Settled(st)
    ensures st.m.numPolls == 0 <==> st.m.heap == {}
    ensures st.m.numPolls == 0 ==>
                st.m.owner == map[] && st.m.kernel == map[] && ShutIds(st.g.log) == ReleasedIds(st.g.log)
  {
    hide Threaded, Marked, Located, Hosted, Wired, Typed, Owned, Awaited, Batched, Clocked, Alarmed, Walked, Ringed,
         Logged, Budgeted, Chronicled;
    if st.m.numPolls == 0 {
      assert st.g.place.Keys == {} && st.m.id.Keys == {};
      NoBlocks(st.m.id, st.m.owner, st.m.nextId, Open(st.g.place), st.m.fd, st.m.pollType, st.m.kernel, st.g.log);
    }
  }

  lemma PointerOpen(open: set<Addr>, fd: map<Addr, int>, pollType: map<Addr, bv4>, kernel: map<int, Registration>,
                    f: int)
    requires Wired(open, fd, pollType, kernel) && f in kernel
    ensures kernel[f].ptr in open
  {
  }

  lemma NoBlocks(id: map<Addr, int>, owner: map<int, Addr>, nextId: int, open: set<Addr>, fd: map<Addr, int>,
                 pollType: map<Addr, bv4>,
                 kernel: map<int, Registration>, log: Log)
    requires Owned(id, owner, nextId) && Wired(open, fd, pollType, kernel) && Logged(log, owner, open, nextId)
    requires id.Keys == {} && open == {}
    ensures owner == map[] && kernel == map[] && ShutIds(log) == ReleasedIds(log)
  {
    assert forall k | k in owner :: owner[k] in id.Keys;
    assert owner.Keys == {};
    forall f
      ensures f !in kernel.Keys
    {
      if f in kernel { PointerOpen(open, fd, pollType, kernel, f); }
    }
    assert kernel.Keys == {};
    forall k | k in ShutIds(log)
      ensures k in ReleasedIds(log)
    {
      assert k in ReleasedIds(log) || k in owner.Keys;
    }
  }

  // ---- A new loop

  const READY_POLLS: nat := 1024

  function EmptyMem(): Mem {
    Mem({}, map[], map[], map[], map[], map[], map[], map[], map[], map[], {}, map[], map[], map[], map[], map[], map[],
        map[Queued := NULL, Closed := NULL], NULL, 0, 0, false, 0, map[], map[], 0)
  }

  ghost function EmptyStory(): Story {
    Story(map[Queued := [], Closed := []], map[], [], NoWalk, map[], map[], [], {}, {}, 0)
  }

  lemma EmptyThreads()
    ensures Threaded(map[], map[], EmptyMem().heads, EmptyStory().rolls, map[])
    ensures Hosted(map[], {}, EmptyStory().rolls.Keys) && Walked({}, map[], EmptyStory().rolls, NoWalk)
    ensures Ringed({}, map[], map[], [], NULL)
  {
  }

  lemma EmptySockets()
    ensures Open(map[]) == {} && Swept(map[]) == {} && Unseen(NoWalk) == {} && UnseenLong(NoWalk) == {}
    ensures Marked(map[], map[], map[]) && Located(map[], map[], map[]) && Typed(map[], map[]) && NoneLoose(map[])
    ensures Wired({}, map[], map[], map[]) && Owned(map[], map[], 0) && Awaited({}, map[], {}, map[])
  {
  }

  lemma EmptyRecords(limit: nat)
    ensures Blocks({}, {}, {}, {}, {}, {}, {}, {}, {}, {}, {}, {}) && Batched([], {}, limit)
            && Clocked({}, map[], map[], map[])
    ensures Alarmed({}, map[], map[], {}, map[], map[], 1) && Alarmed({}, map[], map[], {}, map[], map[], 15)
    ensures Chronicled([], map[], map[], map[], map[], map[]) && Logged([], map[], {}, 0)
            && Budgeted({}, map[], {}, 0, 0, 0) && Owing([]) == {}
  {
  }

  ghost function NewLoop(limit: nat): State {
    State(EmptyMem(), [], limit, EmptyStory())
  }

  lemma NewLoopIs(limit: nat)
    ensures NewLoop(limit) == State(EmptyMem(), [], limit, EmptyStory())
  {
  }

  /** A new loop is empty, and everything stated about loops holds of it. */
  lemma EmptyKeeps(limit: nat)
    ensures var st := NewLoop(limit);
            && Inv(st) && Settled(st) && st.g.walk.NoWalk?
            && st.m.heap == {} && st.m.ctxs == {} && st.g.log == []
  {
    hide Blocks, Threaded, Marked, Located, Hosted, Wired, Typed, Owned, Awaited, Batched, Clocked, Alarmed, Walked,
         Ringed, Logged, Budgeted, Chronicled;
    hide Open, Swept, Unseen, UnseenLong, NoneLoose, Owing;
    EmptyThreads();
    EmptySockets();
    EmptyRecords(limit);
  }
}
