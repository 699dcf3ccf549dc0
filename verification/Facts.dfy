/** What the invariant says about one socket. */
module Facts {
  import opened Threads
  import opened Polls
  import opened ReadyBatch
  import opened Journal
  import opened Chimes
  import opened Chronicles
  import opened States

  ghost function PlaceOf(st: State, s: Addr): Place {
    if s in st.g.place then st.g.place[s] else Loose
  }

  lemma ListedContext(st: State, s: Addr)
    requires Inv(st) && Threadable(st, s)
    ensures st.g.place[s].Linked? || st.g.place[s].Listening? ==> st.g.place[s].context in st.m.walker
  {
    hide Blocks, Threaded, Marked, Hosted, Wired, Typed, Owned, Awaited, Batched, Clocked, Alarmed, Walked, Ringed,
         Logged, Budgeted, Chronicled;
    Live(st, s);
  }

  lemma KernelFacts(st: State, s: Addr)
    requires Inv(st) && s in st.g.place && st.g.place[s] != Closed
    ensures Whole(st, s) && s in Open(st.g.place)
    ensures st.m.fd[s] in st.m.kernel && st.m.kernel[st.m.fd[s]] == Registration(Events(st.m.pollType[s]), s)
    ensures st.m.id[s] in st.m.owner && st.m.owner[st.m.id[s]] == s
    ensures forall a :: Count(st.batch, Poll(a)) <= st.limit
  {
    hide Blocks, Threaded, Marked, Located, Hosted, Typed, Awaited, Clocked, Alarmed, Walked, Ringed, Logged, Budgeted,
         Chronicled;
    Live(st, s);
  }

  /** The journal against the state. */
  lemma ChronicleOf(st: State)
    requires Inv(st)
    ensures Orderly(st.g.log) && Whereabouts(st.g.log, st.m.owner, st.g.place)
    ensures Bells(st.g.log, ShortTimer, st.m.owner, st.g.alarms)
            && Bells(st.g.log, LongTimer, st.m.owner, st.g.longAlarms)
    ensures Clocks(st.g.log, st.m.tick)
  {
    hide Blocks, Threaded, Marked, Located, Hosted, Wired, Typed, Owned, Awaited, Batched, Clocked, Alarmed, Walked,
         Ringed, Logged, Budgeted;
    hide Orderly, Whereabouts, Bells, Clocks;
  }
}
