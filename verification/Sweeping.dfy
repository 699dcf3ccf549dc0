/** The timer sweep: where its walk is, and what it has examined. */
module Sweeping {
  import opened Threads
  import opened Journal
  import opened Chronicles
  import opened States
  import opened Walking
  import opened Tracking
  import opened Evolution
  import W = Wheel

  /** The state as if the iterator of `c` were at `s`: while it seeks, the walk does not store where it is. */
  ghost function Imagined(st: State, c: Addr, s: Addr): State {
    st.(m := st.m.(walker := st.m.walker[c := s]))
  }

  lemma ImaginedIs(st: State, c: Addr, s: Addr)
    ensures Imagined(st, c, s) == st.(m := st.m.(walker := st.m.walker[c := s]))
  {
  }

  /** From `start` to `st` the clock of `c` has advanced by a tick, and no other. */
  ghost predicate Ticked(start: State, st: State, c: Addr) {
    && c in start.m.tick && IsSuffix(start.g.contexts, st.g.contexts)
    && (forall x | x in start.m.tick :: x in st.m.tick && st.m.tick[x] == start.m.tick[x] + (if x == c then 1 else 0))
    && (forall x | x in st.m.tick && x !in start.m.tick :: st.m.tick[x] == 0)
    && start.g.log <= st.g.log && st.limit == start.limit
  }

  /** What the walk had still to examine when it last called a handler, and which of that was unlinked since. */
  ghost function Ahead(w: Walk): seq<Addr> {
    if w.Walk? then w.ahead else []
  }

  ghost function Lost(w: Walk): set<Addr> {
    if w.Walk? then w.dropped else {}
  }

  ghost predicate OnCur(w: Walk) {
    w.Walk? && w.onCur
  }

  /** The walk over `c` that started in `start` is between two sockets, and `s` is the next one to examine. */
  ghost predicate Seeking(start: State, st: State, c: Addr, s: Addr) {
    && Inv(st) && Settled(st) && Ticked(start, st, c)
    && st.g.walk == Walk(c, NULL, false, false, Ahead(st.g.walk), {}) && s == At(Ahead(st.g.walk), 0)
  }

  /** The walk is at `s`, whose handlers are being called, with `rest` still to come when they were. */
  ghost predicate Handling(start: State, st: State, c: Addr, s: Addr, rest: seq<Addr>) {
    && Inv(st) && Settled(st) && Ticked(start, st, c) && s != NULL
    && st.g.walk == Walk(c, s, OnCur(st.g.walk), st.g.walk.Walk? && st.g.walk.owesLong, rest, Lost(st.g.walk))
  }

  /** A stamp of `s` matches the clock of its context. */
  ghost predicate Due(st: State, c: Addr, s: Addr) {
    Timed(st, c, s) && (st.m.timeout[s] == st.m.timestamp[c] || st.m.longTimeout[s] == st.m.longTimestamp[c])
  }

  lemma ContextClock(st: State, c: Addr)
    requires Inv(st) && c in st.m.ctxs
    ensures c in st.m.timestamp && c in st.m.longTimestamp && c in st.m.walker && c in st.m.tick
  {
    hide Blocks, Threaded, Marked, Located, Hosted, Wired, Typed, Owned, Awaited, Batched, Alarmed, Ringed, Logged,
         Budgeted, Chronicled;
  }

  /** The clock of `c` advances. */
  ghost function Tick(m: Mem, c: Addr): Mem
    requires c in m.tick
  {
    var t := m.tick[c] + 1;
    m.(tick := m.tick[c := t], timestamp := m.timestamp[c := t % W.SLOTS],
        longTimestamp := m.longTimestamp[c := t / 15 % W.SLOTS])
  }

  lemma SweepStarts(st: State, c: Addr)
    requires Inv(st) && Settled(st) && CanStartWalk(st, c)
    ensures c in st.m.tick && c in st.m.walker && Linked(c) in st.m.heads && Linked(c) in st.g.rolls
    ensures Seeking(st, Imagined(st.(m := Tick(st.m, c), g := WalkStarted(st, c).g), c, st.m.heads[Linked(c)]), c,
            st.m.heads[Linked(c)])
    ensures Ahead(WalkStarted(st, c).g.walk) == st.g.rolls[Linked(c)] && NoDup(st.g.rolls[Linked(c)])
    ensures Progress(st.g.rolls[Linked(c)], [], {}, st.g.rolls[Linked(c)])
  {
    hide Inv, At, NoDup, Without;
    ContextLists(st, c);
    ContextClock(st, c);
    WalkStartedKeeps(st, c);
    WithoutAbsent(st.g.rolls[Linked(c)], {});
    assert [] + st.g.rolls[Linked(c)] == st.g.rolls[Linked(c)];
    assert Imagined(st.(m := Tick(st.m, c), g := WalkStarted(st, c).g), c, st.m.heads[Linked(c)]) == WalkStarted(st, c);
    SuffixSelf(st.g.contexts);
  }

  /** The first socket of what is left of the walk is on the list, and its successor there is its successor in the walk.
      */
  lemma TailNext(st: State)
    requires Inv(st) && st.g.walk.Walk? && Tail(st.g.walk) != []
    ensures var t := Tail(st.g.walk); t[0] in st.m.next && st.m.next[t[0]] == At(t, 1)
  {
    hide Blocks, Marked, Located, Hosted, Wired, Typed, Owned, Awaited, Batched, Clocked, Alarmed, Ringed, Logged,
         Budgeted, Chronicled, Stacked, Placed;
    var t, l := Tail(st.g.walk), st.g.rolls[Linked(st.g.walk.context)];
    var i := |l| - |t|;
    assert Chained(st.m.prev, st.m.next, l, st.m.heads[Linked(st.g.walk.context)]);
    assert l[i] == t[0] && l[i] in st.m.next && st.m.next[l[i]] == At(l, i + 1);
    if |t| > 1 { assert t[1] == l[i..][1]; }
  }

  lemma SeekFacts(start: State, st: State, c: Addr, s: Addr)
    requires Seeking(start, Imagined(st, c, s), c, s)
    ensures c in st.m.timestamp && c in st.m.longTimestamp
    ensures s != NULL ==>
                Timed(st, c, s) && s in st.m.next && st.m.next[s] == At(Ahead(st.g.walk), 1) && Ahead(st.g.walk) != []
                && Ahead(st.g.walk)[0] == s
    ensures s == NULL ==> Ahead(st.g.walk) == []
  {
    hide Inv;
    var v := Imagined(st, c, s);
    if Ahead(v.g.walk) != [] {
      ExamineFacts(v);
      TailNext(v);
    }
    WalkFacts(v);
    ContextClock(v, c);
  }

  lemma WalkFacts(st: State)
    requires Inv(st) && st.g.walk.Walk?
    ensures st.g.walk.context in st.m.ctxs
  {
    hide Blocks, Threaded, Marked, Located, Hosted, Wired, Typed, Owned, Awaited, Batched, Alarmed, Ringed, Logged,
         Budgeted, Chronicled;
  }

  lemma SuffixSelf(l: seq<Addr>)
    ensures IsSuffix(l, l)
  {
  }

  lemma SeekStep(start: State, st: State, c: Addr, s: Addr, l: seq<Addr>)
    requires Seeking(start, Imagined(st, c, s), c, s) && s != NULL && Timed(st, c, s) && !Due(st, c, s)
             && IsSuffix(Ahead(st.g.walk), l)
    ensures s in st.m.next
    ensures var st' := st.(g := Skipped(Imagined(st, c, s)).g);
            && Seeking(start, Imagined(st', c, st.m.next[s]), c, st.m.next[s])
            && Ahead(st'.g.walk) == Ahead(st.g.walk)[1..] && IsSuffix(Ahead(st'.g.walk), l)
            && st'.g.log == st.g.log + [Seen(ShortTimer, st.m.id[s], c, st.m.tick[c])]
               + [Seen(LongTimer, st.m.id[s], c, st.m.tick[c])]
  {
    hide Inv, IsSuffix;
    var v := Imagined(st, c, s);
    SeekFacts(start, st, c, s);
    SkippedKeeps(v);
    SuffixRest(Ahead(st.g.walk), l);
    assert v.m.walker[c := st.m.next[s]] == st.m.walker[c := st.m.next[s]];
  }

  lemma SeekingValid(start: State, st: State, c: Addr, s: Addr)
    requires Seeking(start, st, c, s)
    ensures Inv(st) && Settled(st)
  {
  }

  lemma ReachedFacts(start: State, st: State, c: Addr, s: Addr)
    requires Seeking(start, st, c, s) && s != NULL && Ahead(st.g.walk) != []
    ensures Timed(st, c, s)
    ensures var st' := Reached(st);
            && Inv(st') && Settled(st') && Handling(start, st', c, s, Ahead(st.g.walk)[1..])
            && CanLookLong(st') && Lost(st'.g.walk) == {}
            && st' == st.(m := if st.m.timeout[s] == st.m.timestamp[c]
               then st.m.(timeout := st.m.timeout[s := W.NEVER]) else st.m, g := st'.g)
  {
    hide Inv, IsSuffix;
    ExamineFacts(st);
    ReachedKeeps(st);
  }

  lemma LongLookedFacts(start: State, st: State, c: Addr, s: Addr, rest: seq<Addr>)
    requires Handling(start, st, c, s, rest) && CanLookLong(st)
    ensures Timed(st, c, s)
    ensures var st' := LongLooked(st);
            && Inv(st') && Settled(st') && Handling(start, st', c, s, rest) && CanAdvance(st')
            && Lost(st'.g.walk) == Lost(st.g.walk)
            && st' == st.(m := if st.m.longTimeout[s] == st.m.longTimestamp[c]
               then st.m.(longTimeout := st.m.longTimeout[s := W.NEVER]) else st.m, g := st'.g)
  {
    hide Inv, IsSuffix;
    LongFacts(st);
    LongLookedKeeps(st);
  }

  lemma TickedEvolves(start: State, st: State, st': State, c: Addr)
    requires Ticked(start, st, c) && st.g.walk.Walk? && Evolves(st, st', {}, {})
    ensures Ticked(start, st', c)
  {
    hide Homes, Remembers, NoNewQueued, Pins, Spares, Freezes, WalksOn, OwesLess, Established, IsSuffix;
    SuffixTrans(start.g.contexts, st.g.contexts, st'.g.contexts);
    assert start.g.log <= st'.g.log;
  }

  lemma HandlingEvolves(start: State, st: State, st': State, c: Addr, s: Addr, rest: seq<Addr>)
    requires Handling(start, st, c, s, rest) && Evolves(st, st', {}, {}) && Inv(st') && Settled(st')
    ensures Handling(start, st', c, s, rest)
    ensures CanAdvance(st) ==> CanAdvance(st')
    ensures CanLookLong(st) ==> if OnCur(st'.g.walk) then CanLookLong(st') else CanAdvance(st')
  {
    hide Inv, Ticked, Homes, Remembers, NoNewQueued, Pins, Spares, Freezes, KeepsClocks, OwesLess, Established,
         KeepsContexts;
    TickedEvolves(start, st, st', c);
  }

  lemma WalkerFacts(start: State, st: State, c: Addr, s: Addr, rest: seq<Addr>)
    requires Handling(start, st, c, s, rest)
    ensures c in st.m.walker && (st.m.walker[c] == s <==> OnCur(st.g.walk))
    ensures st.m.walker[c] == s ==> s in st.m.next
  {
    hide Blocks, Threaded, Marked, Located, Hosted, Wired, Typed, Owned, Awaited, Batched, Clocked, Alarmed, Ringed,
         Logged, Budgeted, Chronicled;
    hide Ticked, Without;
    var t := Tail(st.g.walk);
    WithoutMembers(st.g.walk.ahead, st.g.walk.dropped);
    if st.g.walk.onCur {
      TailNext(st);
    } else if t != [] {
      assert t[0] in Without(st.g.walk.ahead, st.g.walk.dropped);
    }
  }

  /** Past its handlers the walk goes on after `s` if that is still linked, and else where the iterator was moved to. */
  lemma AdvanceFacts(start: State, st: State, c: Addr, s: Addr, rest: seq<Addr>)
    requires Handling(start, st, c, s, rest) && CanAdvance(st)
    ensures c in st.m.walker && (st.m.walker[c] == s ==> s in st.m.next)
    ensures var n, st' := if st.m.walker[c] == s then st.m.next[s] else st.m.walker[c], st.(g := Advanced(st).g);
            Seeking(start, Imagined(st', c, n), c, n) && Ahead(st'.g.walk) == Without(rest, Lost(st.g.walk))
  {
    hide Inv, IsSuffix, Without;
    WalkerFacts(start, st, c, s, rest);
    AdvancedKeeps(st);
    var t, left := Tail(st.g.walk), Without(st.g.walk.ahead, st.g.walk.dropped);
    if st.g.walk.onCur {
      TailNext(st);
      assert t == [s] + left;
    } else {
      assert t == left;
      WalkerAtTail(st);
    }
  }

  lemma WalkerAtTail(st: State)
    requires Inv(st) && st.g.walk.Walk?
    ensures st.g.walk.context in st.m.walker && st.m.walker[st.g.walk.context] == At(Tail(st.g.walk), 0)
  {
    hide Blocks, Threaded, Marked, Located, Hosted, Wired, Typed, Owned, Awaited, Batched, Clocked, Alarmed, Ringed,
         Logged, Budgeted, Chronicled;
  }

  lemma SweepEnds(start: State, st: State, c: Addr, l: seq<Addr>, seen: seq<Addr>, lost: set<Addr>)
    requires Seeking(start, Imagined(st, c, NULL), c, NULL) && Progress(l, seen, lost, Ahead(st.g.walk))
    ensures seen == Without(l, lost)
    ensures var st' := Imagined(st.(g := st.g.(walk := NoWalk)), c, NULL);
            Inv(st') && Settled(st') && Ticked(start, st', c)
  {
    hide Inv, IsSuffix, Without;
    SeekFacts(start, st, c, NULL);
    WalkEndedKeeps(Imagined(st, c, NULL));
    assert seen + [] == seen;
    assert st.m.walker[c := NULL][c := NULL] == st.m.walker[c := NULL];
  }

  /** What was on list `l` when the walk started is what was `seen` and is `ahead`, but for the `lost`. */
  ghost predicate Progress(l: seq<Addr>, seen: seq<Addr>, lost: set<Addr>, ahead: seq<Addr>) {
    NoDup(l) && seen + ahead == Without(l, lost)
  }

  ghost function Among(l: seq<Addr>, gone: set<Addr>): set<Addr> {
    set a | a in l && a in gone
  }

  lemma ProgressExamined(l: seq<Addr>, seen: seq<Addr>, lost: set<Addr>, ahead: seq<Addr>, dropped: set<Addr>)
    requires Progress(l, seen, lost, ahead) && ahead != []
    ensures Progress(l, seen + [ahead[0]], lost + Among(ahead[1..], dropped), Without(ahead[1..], dropped))
    ensures |Without(ahead[1..], dropped)| < |ahead|
    ensures dropped == {} ==> Among(ahead[1..], dropped) == {}
  {
    hide Without, NoDup;
    var seen', rest := seen + [ahead[0]], ahead[1..];
    assert seen' + rest == seen + ahead;
    ProgressDropped(l, seen', lost, rest, dropped);
    WithoutShorter(rest, dropped);
  }

  lemma {:induction false} WithoutShorter(l: seq<Addr>, gone: set<Addr>)
    ensures |Without(l, gone)| <= |l|
  {
    if l != [] { WithoutShorter(l[1..], gone); }
  }

  lemma ProgressDropped(l: seq<Addr>, seen: seq<Addr>, lost: set<Addr>, rest: seq<Addr>, dropped: set<Addr>)
    requires Progress(l, seen, lost, rest)
    ensures Progress(l, seen, lost + Among(rest, dropped), Without(rest, dropped))
  {
    hide Without;
    var gone := Among(rest, dropped);
    WithoutMembers(l, lost);
    WithoutTwice(l, lost, gone);
    WithoutConcat(seen, rest, gone);
    forall i, j | 0 <= i < |seen| && 0 <= j < |rest|
      ensures seen[i] != rest[j]
    {
      var both := seen + rest;
      assert both[i] == seen[i] && both[|seen| + j] == rest[j];
    }
    WithoutAbsent(seen, gone);
    WithoutSame(rest, gone, dropped);
  }

  lemma {:induction false} WithoutSame(l: seq<Addr>, gone: set<Addr>, gone': set<Addr>)
    requires forall i | 0 <= i < |l| :: l[i] in gone <==> l[i] in gone'
    ensures Without(l, gone) == Without(l, gone')
  {
    if l != [] {
      assert l[0] in gone <==> l[0] in gone';
      WithoutSame(l[1..], gone, gone');
    }
  }

  /** Since `start` the clock of every context has advanced by a tick, but for those in `todo`. */
  ghost predicate AllTicked(start: State, st: State, todo: seq<Addr>) {
    && IsSuffix(todo, st.g.contexts) && NoDup(todo) && NULL !in todo && (forall x | x in todo :: x in start.m.tick)
    && (forall x | x in start.m.tick ::
                x in st.m.tick && st.m.tick[x] == start.m.tick[x] + (if x in todo then 0 else 1))
    && (forall x | x in st.m.tick && x !in start.m.tick :: st.m.tick[x] == 0)
    && start.g.log <= st.g.log && st.limit == start.limit
  }

  lemma AllStart(st: State)
    requires Inv(st)
    ensures AllTicked(st, st, st.g.contexts) && st.m.ctxHead == At(st.g.contexts, 0)
  {
    hide Blocks, Threaded, Marked, Located, Hosted, Wired, Typed, Owned, Awaited, Batched, Alarmed, Walked, Logged,
         Budgeted, Chronicled, At;
    SuffixSelf(st.g.contexts);
    forall x | x in st.m.tick
      ensures x in st.g.contexts
    {
      assert x in st.m.ctxs;
    }
  }

  lemma RoundStep(start: State, st: State, todo: seq<Addr>)
    requires Inv(st) && st.g.walk.NoWalk? && AllTicked(start, st, todo) && At(todo, 0) != NULL
    requires forall c | c in start.m.tick :: start.m.tick[c] + 1 < W.UINT32
    ensures todo != [] && At(todo, 0) == todo[0] && CanStartWalk(st, todo[0])
  {
    hide Blocks, Threaded, Marked, Located, Hosted, Wired, Typed, Owned, Awaited, Batched, Alarmed, Walked, Logged,
         Budgeted, Chronicled, Chained;
    assert todo[0] in todo;
    assert todo[0] == st.g.contexts[|st.g.contexts| - |todo|];
    assert todo[0] in st.g.contexts;
  }

  lemma RoundTicked(start: State, st: State, st': State, todo: seq<Addr>)
    requires Inv(st') && AllTicked(start, st, todo) && todo != [] && Ticked(st, st', todo[0])
    ensures AllTicked(start, st', todo[1..])
    ensures todo[0] in st'.m.ctxNext && st'.m.ctxNext[todo[0]] == At(todo[1..], 0)
  {
    hide Inv, IsSuffix, At;
    var c, rest := todo[0], todo[1..];
    SuffixTrans(todo, st.g.contexts, st'.g.contexts);
    SuffixRest(todo, st'.g.contexts);
    RingNext(st', todo);
    assert todo == [c] + rest;
    assert start.g.log <= st'.g.log;
  }

  lemma RingNext(st: State, todo: seq<Addr>)
    requires Inv(st) && IsSuffix(todo, st.g.contexts) && todo != []
    ensures todo[0] in st.m.ctxNext && st.m.ctxNext[todo[0]] == At(todo[1..], 0)
  {
    hide Blocks, Threaded, Marked, Located, Hosted, Wired, Typed, Owned, Awaited, Batched, Clocked, Alarmed, Walked,
         Logged, Budgeted, Chronicled, Stacked, Placed;
    var l := st.g.contexts;
    var i := |l| - |todo|;
    assert Chained(st.m.ctxPrev, st.m.ctxNext, l, st.m.ctxHead);
    assert l[i] == todo[0] && l[i] in st.m.ctxNext && st.m.ctxNext[l[i]] == At(l, i + 1);
    if |todo| > 1 { assert todo[1] == l[i..][1]; }
  }

  lemma NoneTodo(todo: seq<Addr>)
    requires NULL !in todo && At(todo, 0) == NULL
    ensures todo == []
  {
    if todo != [] { FirstIn(todo); }
  }

  lemma FirstIn(todo: seq<Addr>)
    requires todo != []
    ensures At(todo, 0) in todo
  {
  }

  lemma AllEnd(start: State, st: State, todo: seq<Addr>)
    requires Inv(st) && st.g.walk.NoWalk? && AllTicked(start, st, todo) && At(todo, 0) == NULL
    ensures todo == [] && AllTicked(start, st, []) && forall c | c in st.m.walker :: st.m.walker[c] == NULL
  {
    hide Blocks, Threaded, Marked, Located, Hosted, Wired, Typed, Owned, Awaited, Batched, Clocked, Alarmed, Ringed,
         Logged, Budgeted, Chronicled;
    NoneTodo(todo);
  }
}
