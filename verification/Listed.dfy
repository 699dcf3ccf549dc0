/** What the operations need to know to follow the list steps pointer by pointer. */
module Listed {
  import opened Threads
  import opened Chronicles
  import opened States
  import opened Facts
  import opened Unlinking
  import opened Linking
  import opened Parking

  lemma UnthreadedFacts(st: State, s: Addr)
    requires Inv(st) && Threadable(st, s)
    ensures Whole(st, s)
    ensures st.g.place[s].Linked? || st.g.place[s].Listening? ==> st.g.place[s].context in st.m.walker
    ensures st.m.prev[s] == st.m.next[s] ==> st.m.prev[s] == NULL
    ensures st.m.prev[s] != NULL ==> st.m.prev[s] in st.m.next && st.m.prev[s] != s
    ensures st.m.next[s] != NULL ==> st.m.next[s] in st.m.prev && st.m.next[s] != s
    ensures st.m.prev[s] == NULL <==> st.m.heads[st.g.place[s]] == s
  {
    hide Inv, NoDup, At, Unthreaded;
    Live(st, s);
    UnthreadedLinks(st, s);
    ListedContext(st, s);
    HeadFacts(st, s);
  }

  lemma HeadFacts(st: State, s: Addr)
    requires Inv(st) && Threadable(st, s)
    ensures Whole(st, s)
    ensures st.m.prev[s] == NULL <==> st.m.heads[st.g.place[s]] == s
  {
    hide Blocks, Marked, Located, Hosted, Wired, Typed, Owned, Awaited, Batched, Clocked, Alarmed, Walked, Ringed,
         Logged, Budgeted, Chronicled, Stacked;
    Live(st, s);
    var l := st.g.rolls[st.g.place[s]];
    assert s in l && Chained(st.m.prev, st.m.next, l, st.m.heads[st.g.place[s]]);
    Neighbours(st.m.prev, st.m.next, l, st.m.heads[st.g.place[s]], s);
  }

  lemma PushFacts(st: State, s: Addr, p: Place)
    requires Inv(st) && Joinable(st, s, p)
    ensures Whole(st, s) && IsList(st, p)
    ensures st.m.heads[p] != NULL ==> st.m.heads[p] in st.m.prev && st.m.heads[p] != s
  {
    hide Inv, JoinedCore;
    Live(st, s);
    JoinableFacts(st, s, p);
    JoinedLinks(st, s, p);
  }

  /** A loose socket's own pointers may be overwritten. */
  ghost function Wiped(st: State, s: Addr): State {
    st.(m := st.m.(prev := st.m.prev[s := NULL], next := st.m.next[s := NULL]))
  }

  lemma MarkedWipe(place: map<Addr, Place>, prev: Links, context: map<Addr, Addr>, s: Addr)
    requires Marked(place, prev, context) && s in place && place[s] != Closed
    ensures Marked(place, prev[s := NULL], context)
  {
  }

  lemma WipedKeeps(st: State, s: Addr)
    requires Inv(st) && IsLoose(st, s)
    ensures Inv(Wiped(st, s))
  {
    hide Blocks, Threaded, Marked, Located, Hosted, Wired, Typed, Owned, Awaited, Batched, Clocked, Alarmed, Walked,
         Ringed, Logged, Budgeted, Chronicled;
    hide Open, Swept, Unseen, UnseenLong, Dropped, Without, BypassPrev, BypassNext, BypassHead;
    Live(st, s);
    MarkedWipe(st.g.place, st.m.prev, st.m.context, s);
    LooseThreaded(st.m.prev, st.m.next, st.m.heads, st.g.rolls, st.g.place, st.m.prev[s := NULL], st.m.next[s := NULL],
        st.g.place);
    KeysKept(st.m.prev, s, NULL);
    KeysKept(st.m.next, s, NULL);
  }

  lemma ClosedFacts(st: State, s: Addr)
    requires Inv(st) && s in st.g.place && st.g.place[s] != Loose
    ensures Whole(st, s)
    ensures st.m.prev[s] == st.m.context[s] <==> st.g.place[s] == Closed
    ensures st.m.lowPrio[s] == 1 <==> st.g.place[s] == Queued
    ensures st.g.place[s].Linked? || st.g.place[s].Listening? ==> st.g.place[s].context == st.m.context[s]
    ensures KindFits(st.g.place[s], st.m.pollType[s])
    ensures st.m.id[s] in st.m.owner && st.m.owner[st.m.id[s]] == s
  {
    hide Blocks, Hosted, Wired, Awaited, Batched, Clocked, Alarmed, Walked, Ringed, Logged, Budgeted, Chronicled,
         Stacked, KindFits;
    Live(st, s);
    if st.g.place[s] != Closed {
      NeverContext(st, s);
    }
  }

  /** A listed socket's `prev` is a socket or null, never a context: the mark of a closed socket is unambiguous. */
  lemma NeverContext(st: State, s: Addr)
    requires Inv(st) && Threadable(st, s)
    ensures Whole(st, s) && st.m.prev[s] != st.m.context[s]
  {
    hide Marked, Located, Wired, Typed, Owned, Awaited, Batched, Clocked, Alarmed, Walked, Ringed, Logged, Budgeted,
         Stacked, Threaded, Chronicled;
    Live(st, s);
    UnthreadedFacts(st, s);
  }

  /** The iterator of a context is null or at a socket linked to it. */
  lemma IteratorFacts(st: State, c: Addr)
    requires Inv(st) && c in st.m.walker && st.m.walker[c] != NULL
    ensures PlaceOf(st, st.m.walker[c]) == Linked(c)
  {
    hide Blocks, Marked, Wired, Typed, Owned, Awaited, Batched, Clocked, Alarmed, Ringed, Logged, Budgeted, Chronicled;
    hide Open, Swept, Chained, Stacked;
    var t, l := Tail(st.g.walk), st.g.rolls[Linked(c)];
    assert t != [] && t[0] == st.m.walker[c];
    assert l[|l| - |t|] == t[0];
    assert st.g.rolls[Linked(c)][|l| - |t|] == t[0];
  }
}
