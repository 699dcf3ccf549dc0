/** What a walk over a context saw and lost, by the journal. */
module Rounds {
  import opened Threads
  import opened Journal
  import opened Chronicles
  import opened States
  import opened Linking
  import opened Arming
  import opened Walking
  import opened Tracking
  import opened Evolution
  import opened Sweeping
  import W = Wheel

  /** A walk over `list`, the sockets of `context`, in a tick: who they are, and the journal when it began. */
  datatype Round = Round(context: Addr, tick: int, list: seq<Addr>, names: map<Addr, int>, from: Log)

  /** Whose short timers were looked at, in order. */
  ghost function SeenIds(log: Log): seq<int> {
    if log == [] then []
    else
      var e := log[|log| - 1];
      SeenIds(log[..|log| - 1]) + (if e.Seen? && e.timer == ShortTimer then [e.id] else [])
  }

  ghost function NamesOf(l: seq<Addr>, names: map<Addr, int>): seq<int> {
    if l == [] then []
    else NamesOf(l[..|l| - 1], names) + (if l[|l| - 1] in names then [names[l[|l| - 1]]] else [])
  }

  /** Socket `k` was seen before it left. */
  ghost predicate SeenFirst(log: Log, n: nat, k: int, c: Addr) {
    exists i | n <= i < |log| :: log[i].Seen? && log[i].timer == ShortTimer && log[i].id == k
        && !LeftSince(log[..i], n, k, c)
  }

  /** Socket `k` left before it was seen. */
  ghost predicate LeftFirst(log: Log, n: nat, k: int, c: Addr) {
    exists i | n <= i < |log| :: log[i] == Left(k, c) && k !in SeenIds(log[n..i])
  }

  /** So far the walk has `seen` and `lost` sockets of its list, with those `ahead` still to come: exactly the former
      were looked at, in order and before they left; the lost ones have left; and those ahead are where and who they
      were. */
  ghost predicate Rounded(r: Round, seen: seq<Addr>, lost: set<Addr>, ahead: seq<Addr>, log: Log, id: map<Addr, int>) {
    && r.from <= log
    && SeenIds(log[|r.from|..]) == NamesOf(seen, r.names)
    && InTick(r, log, |r.from|)
    && (forall a | a in seen :: a in r.names && SeenFirst(log, |r.from|, r.names[a], r.context))
    && (forall a | a in lost :: a in r.names && LeftSince(log, |r.from|, r.names[a], r.context))
    && (forall a | a in ahead :: Awaits(r, a, log, id))
  }

  ghost predicate Awaits(r: Round, a: Addr, log: Log, id: map<Addr, int>) {
    a in r.names && a in id && id[a] == r.names[a] && !LeftSince(log, |r.from|, r.names[a], r.context)
  }

  /** From event `n` on the sweep has looked at sockets of the round's context only, and in the round's tick. */
  ghost predicate InTick(r: Round, log: Log, n: nat) {
    forall i | n <= i < |log| && log[i].Seen? :: log[i].context == r.context && log[i].tick == r.tick
  }

  /** The sweep has come to socket `k`: it has looked at its short timer, and since then at nothing but perhaps its long
      one. Of the sockets in `rest` those still unseen are where and who they were, and the others have left. */
  ghost predicate Tended(r: Round, k: int, log: Log, rest: seq<Addr>, names: map<Addr, int>, st: State) {
    && log + [Seen(ShortTimer, k, r.context, r.tick)] <= st.g.log
    && (forall i | |log| < i < |st.g.log| && st.g.log[i].Seen? ::
          st.g.log[i].timer == LongTimer && st.g.log[i].context == r.context && st.g.log[i].tick == r.tick)
    && (forall a | a in rest :: a in names && Kept(r, a, log, names, st))
  }

  ghost predicate Kept(r: Round, a: Addr, log: Log, names: map<Addr, int>, st: State)
    requires a in names
  {
    var left := LeftSince(st.g.log, |log|, names[a], r.context);
    if a in Unseen(st.g.walk) then a in st.m.id && st.m.id[a] == names[a] && !left else left
  }

  // ---- Journals

  lemma SeenIdsOne(log: Log, e: Event)
    ensures SeenIds(log + [e]) == SeenIds(log) + (if e.Seen? && e.timer == ShortTimer then [e.id] else [])
  {
    assert (log + [e])[..|log|] == log;
  }

  lemma {:induction false} SeenIdsQuiet(log: Log, more: Log)
    requires forall i | 0 <= i < |more| :: more[i].Seen? ==> more[i].timer != ShortTimer
    ensures SeenIds(log + more) == SeenIds(log)
    decreases |more|
  {
    hide SeenIds;
    if more == [] {
      assert log + more == log;
    } else {
      var init, last := more[..|more| - 1], more[|more| - 1];
      SeenIdsQuiet(log, init);
      SeenIdsOne(log + init, last);
      assert log + more == log + init + [last];
    }
  }

  lemma NamesOne(l: seq<Addr>, names: map<Addr, int>, a: Addr)
    requires a in names
    ensures NamesOf(l + [a], names) == NamesOf(l, names) + [names[a]]
  {
    assert (l + [a])[..|l|] == l;
  }

  lemma SeenFirstMore(log: Log, log': Log, n: nat, k: int, c: Addr)
    requires log <= log' && SeenFirst(log, n, k, c)
    ensures SeenFirst(log', n, k, c)
  {
    var i :| n <= i < |log| && log[i].Seen? && log[i].timer == ShortTimer && log[i].id == k
        && !LeftSince(log[..i], n, k, c);
    assert log'[i] == log[i] && log'[..i] == log[..i];
  }

  lemma SeenFirstNow(log: Log, e: Event, log': Log, n: nat, c: Addr)
    requires n <= |log| && e.Seen? && e.timer == ShortTimer && log + [e] <= log' && !LeftSince(log, n, e.id, c)
    ensures SeenFirst(log', n, e.id, c)
  {
    assert log'[|log|] == (log + [e])[|log|] == e;
    assert log'[..|log|] == log;
  }

  // ---- One socket further

  lemma RoundedOn(r: Round, seen: seq<Addr>, lost: set<Addr>, ahead: seq<Addr>, log: Log, id: map<Addr, int>, st: State,
                  left: seq<Addr>, gone: set<Addr>)
    requires Rounded(r, seen, lost, ahead, log, id) && ahead != [] && ahead[0] in id
             && Tended(r, id[ahead[0]], log, ahead[1..], id, st)
    requires forall a :: a in left <==> a in ahead[1..] && a in Unseen(st.g.walk)
    requires forall a | a in gone :: a in ahead[1..] && a !in Unseen(st.g.walk)
    ensures Rounded(r, seen + [ahead[0]], lost + gone, left, st.g.log, st.m.id)
  {
    hide SeenIds, NamesOf, SeenFirst, LeftSince, Unseen;
    var s, e := ahead[0], Seen(ShortTimer, id[ahead[0]], r.context, r.tick);
    var n, log' := |r.from|, st.g.log;
    assert Awaits(r, s, log, id);
    NamesOne(seen, r.names, s);
    RoundedSeen(r, log, e, log');
    forall a | a in seen + [s]
      ensures a in r.names && SeenFirst(log', n, r.names[a], r.context)
    {
      if a in seen { SeenFirstMore(log, log', n, r.names[a], r.context); }
          else { SeenFirstNow(log, e, log', n, r.context); }
    }
    forall a | a in ahead[1..]
      ensures Awaits(r, a, log, id) && Kept(r, a, log, id, st)
    {
    }
    forall a | a in lost + gone
      ensures a in r.names && LeftSince(log', n, r.names[a], r.context)
    {
      LeftSinceMore(r.from, log, log', r.names[a], r.context);
    }
    forall a | a in left
      ensures Awaits(r, a, log', st.m.id)
    {
      LeftSinceMore(r.from, log, log', r.names[a], r.context);
    }
  }

  lemma RoundedSeen(r: Round, log: Log, e: Event, log': Log)
    requires r.from <= log && log + [e] <= log' && e.Seen? && e.timer == ShortTimer && e.context == r.context
             && e.tick == r.tick
    requires InTick(r, log, |r.from|)
    requires forall i | |log| < i < |log'| && log'[i].Seen? ::
             log'[i].timer == LongTimer && log'[i].context == r.context && log'[i].tick == r.tick
    ensures r.from <= log' && InTick(r, log', |r.from|)
            && SeenIds(log'[|r.from|..]) == SeenIds(log[|r.from|..]) + [e.id]
  {
    hide SeenIds;
    var n, more := |r.from|, log'[|log| + 1..];
    assert log'[|log|] == (log + [e])[|log|] == e;
    assert log'[n..] == log[n..] + [e] + more;
    SeenIdsOne(log[n..], e);
    SeenIdsQuiet(log[n..] + [e], more);
    forall i | n <= i < |log'| && log'[i].Seen?
      ensures log'[i].context == r.context && log'[i].tick == r.tick
    {
      if i < |log| { assert log'[i] == log[i]; }
    }
  }

  // ---- What the walk does at one socket

  /** The round that the sweep makes over context `c`, from state `start` on. */
  ghost predicate RoundFrom(r: Round, start: State, c: Addr) {
    c in start.m.tick && r.context == c && r.tick == start.m.tick[c] + 1
  }

  lemma RestLive(st: State, a: Addr)
    requires Inv(st) && a in Unseen(st.g.walk)
    ensures a in st.m.id
  {
    hide Inv;
    UnseenListed(st, a);
    Live(st, a);
  }

  lemma TendedReachedAt(r: Round, st: State)
    requires Inv(st) && CanExamine(st) && ReachedGuard(st)
    requires r.context == st.g.walk.context && r.tick == st.m.tick[st.g.walk.context]
    ensures st.g.walk.ahead[0] in st.m.id
    ensures Tended(r, st.m.id[st.g.walk.ahead[0]], st.g.log, st.g.walk.ahead[1..], st.m.id, Reached(st))
  {
    hide Inv, LeftSince, Reached, Unseen, NoDup;
    var rest := st.g.walk.ahead[1..];
    ExamineFacts(st);
    ReachedTrace(st);
    UnseenRest(st.g.walk);
    forall a | a in rest
      ensures a in st.m.id && Kept(r, a, st.g.log, st.m.id, Reached(st))
    {
      AheadUnseen(st.g.walk, a);
      RestLive(st, a);
      NoneLeft(st.g.log, Reached(st).g.log, st.m.id[a], r.context);
    }
  }

  /** The step of `Examine` that looks at the short timer. */
  lemma TendedReached(r: Round, start: State, st: State, c: Addr, s: Addr)
    requires RoundFrom(r, start, c) && Seeking(start, st, c, s) && s != NULL && Ahead(st.g.walk) != []
    ensures s in st.m.id && Tended(r, st.m.id[s], st.g.log, Ahead(st.g.walk)[1..], st.m.id, Reached(st))
  {
    hide Inv, IsSuffix, Settled, Tended, Reached, Unseen;
    ExamineFacts(st);
    TendedReachedAt(r, st);
  }

  lemma ReachedTrace(st: State)
    requires ReachedGuard(st)
    ensures var c, s, st' := st.g.walk.context, st.g.walk.ahead[0], Reached(st);
            && st'.m.id == st.m.id && st'.g.walk == Walk(c, s, true, true, st.g.walk.ahead[1..], {})
            && Looked(st.g.log, st'.g.log, ShortTimer, st.m.id[s], c, st.m.tick[c])
  {
  }

  /** A timer was looked at, and its handler perhaps called. */
  ghost predicate Looked(log: Log, log': Log, timer: Timer, k: int, c: Addr, t: int) {
    log' == log + [Seen(timer, k, c, t)] || log' == Rang(log, timer, k, c, t)
  }

  lemma NoneLeft(log: Log, log': Log, k: int, c: Addr)
    requires |log| <= |log'| && forall i | |log| <= i < |log'| :: !log'[i].Left?
    ensures !LeftSince(log', |log|, k, c)
  {
  }

  /** User code ran: what the walk has still to see is tracked. */
  lemma TendedEvolves(r: Round, k: int, log: Log, rest: seq<Addr>, names: map<Addr, int>, st: State, st': State)
    requires Tended(r, k, log, rest, names, st) && Tracks(st, st') && WalksOn(st.g.walk, st'.g.walk)
    requires st.g.walk.Walk? && st.g.walk.context == r.context && st.g.walk.ahead == rest
    ensures Tended(r, k, log, rest, names, st')
  {
    hide LeftSince, Unseen;
    forall i | |log| < i < |st'.g.log| && st'.g.log[i].Seen?
      ensures st'.g.log[i].timer == LongTimer && st'.g.log[i].context == r.context && st'.g.log[i].tick == r.tick
    {
      if i < |st.g.log| { assert st'.g.log[i] == st.g.log[i]; }
    }
    forall a | a in rest
      ensures a in names && Kept(r, a, log, names, st')
    {
      assert Kept(r, a, log, names, st);
      assert log <= log + [Seen(ShortTimer, k, r.context, r.tick)];
      LeftSinceMore(log, st.g.log, st'.g.log, names[a], r.context);
      UnseenLess(st.g.walk, st'.g.walk, a);
      if a in Unseen(st.g.walk) { assert Tracked(st, st', a); }
    }
  }

  lemma UnseenLess(w: Walk, w': Walk, a: Addr)
    requires WalksOn(w, w')
    ensures a in Unseen(w') ==> a in Unseen(w)
  {
  }

  /** A step that unlinks nobody, and looks at most at the long timer. */
  lemma TendedStep(r: Round, k: int, log: Log, rest: seq<Addr>, names: map<Addr, int>, st: State, st': State, k': int)
    requires Tended(r, k, log, rest, names, st) && st'.m.id == st.m.id && Unseen(st'.g.walk) == Unseen(st.g.walk)
    requires st'.g.log == st.g.log || Looked(st.g.log, st'.g.log, LongTimer, k', r.context, r.tick)
    ensures Tended(r, k, log, rest, names, st')
  {
    hide LeftSince, Unseen;
    forall i | |log| < i < |st'.g.log| && st'.g.log[i].Seen?
      ensures st'.g.log[i].timer == LongTimer && st'.g.log[i].context == r.context && st'.g.log[i].tick == r.tick
    {
      if i < |st.g.log| { assert st'.g.log[i] == st.g.log[i]; }
    }
    forall a | a in rest
      ensures a in names && Kept(r, a, log, names, st')
    {
      assert Kept(r, a, log, names, st);
      assert log <= log + [Seen(ShortTimer, k, r.context, r.tick)];
      NoneLeft(st.g.log, st'.g.log, names[a], r.context);
      LeftSinceMore(log, st.g.log, st'.g.log, names[a], r.context);
    }
  }

  /** The step of `Examine` that looks at the long timer. */
  lemma TendedLong(r: Round, k: int, log: Log, names: map<Addr, int>, start: State, st: State, c: Addr, s: Addr,
                   rest: seq<Addr>)
    requires RoundFrom(r, start, c) && Handling(start, st, c, s, rest) && CanLookLong(st)
             && Tended(r, k, log, rest, names, st)
    ensures Tended(r, k, log, rest, names, LongLooked(st))
  {
    hide Inv, IsSuffix, Settled, Tended;
    LongFacts(st);
    LongTrace(st);
    TendedStep(r, k, log, rest, names, st, LongLooked(st), st.m.id[s]);
  }

  lemma LongTrace(st: State)
    requires LongLookedGuard(st)
    ensures var c, s, st' := st.g.walk.context, st.g.walk.cur, LongLooked(st);
            && st'.m.id == st.m.id && st'.g.walk == st.g.walk.(owesLong := false)
            && Looked(st.g.log, st'.g.log, LongTimer, st.m.id[s], c, st.m.tick[c])
  {
  }

  /** The step of `Examine` that goes on. */
  lemma TendedAdvanced(r: Round, k: int, log: Log, rest: seq<Addr>, names: map<Addr, int>, st: State)
    requires Tended(r, k, log, rest, names, st) && CanAdvance(st)
    ensures Tended(r, k, log, rest, names, st.(g := Advanced(st).g))
  {
    hide Tended, Without, Unseen;
    UnseenAdvance(st.g.walk);
    TendedStep(r, k, log, rest, names, st, st.(g := Advanced(st).g), k);
  }

  lemma TendedSkippedAt(r: Round, v: State)
    requires Inv(v) && CanExamine(v) && ReachedGuard(v) && r.context == v.g.walk.context
             && r.tick == v.m.tick[v.g.walk.context]
    ensures v.g.walk.ahead[0] in v.m.id
    ensures Tended(r, v.m.id[v.g.walk.ahead[0]], v.g.log, v.g.walk.ahead[1..], v.m.id, Skipped(v))
  {
    hide Inv, LeftSince, Skipped, Unseen, NoDup;
    var rest := v.g.walk.ahead[1..];
    ExamineFacts(v);
    SkippedTrace(v);
    UnseenRest(v.g.walk);
    forall a | a in rest
      ensures a in v.m.id && Kept(r, a, v.g.log, v.m.id, Skipped(v))
    {
      AheadUnseen(v.g.walk, a);
      RestLive(v, a);
      NoneLeft(v.g.log, Skipped(v).g.log, v.m.id[a], r.context);
    }
  }

  /** The step of `Seek`. */
  lemma TendedSkipped(r: Round, start: State, st: State, c: Addr, s: Addr)
    requires RoundFrom(r, start, c) && Seeking(start, Imagined(st, c, s), c, s) && s != NULL && Timed(st, c, s)
             && Ahead(st.g.walk) != []
    ensures s in st.m.id && Tended(r, st.m.id[s], st.g.log, Ahead(st.g.walk)[1..], st.m.id,
            st.(g := Skipped(Imagined(st, c, s)).g))
  {
    hide Inv, IsSuffix, Settled, Tended, Skipped, Unseen;
    var v := Imagined(st, c, s);
    TendedSkippedAt(r, v);
    SkippedTrace(v);
    TendedStep(r, st.m.id[s], st.g.log, Ahead(st.g.walk)[1..], st.m.id, Skipped(v), st.(g := Skipped(v).g), st.m.id[s]);
  }

  lemma AheadUnseen(w: Walk, a: Addr)
    requires w.Walk? && w.dropped == {} && w.ahead != [] && a in w.ahead[1..]
    ensures a in Unseen(w)
  {
  }

  lemma SkippedTrace(st: State)
    requires ReachedGuard(st)
    ensures var c, k, t := st.g.walk.context, st.m.id[st.g.walk.ahead[0]], st.m.tick[st.g.walk.context];
            && Skipped(st).m.id == st.m.id && Skipped(st).g.walk == Walk(c, NULL, false, false, st.g.walk.ahead[1..],
               {})
            && Skipped(st).g.log == st.g.log + [Seen(ShortTimer, k, c, t)] + [Seen(LongTimer, k, c, t)]
  {
  }

  // ---- What the methods of the walk need

  /** The round over context `c` that starts in `start` with a tick. */
  ghost function RoundOf(start: State, c: Addr): Round
    requires c in start.m.tick && Linked(c) in start.g.rolls
  {
    Round(c, start.m.tick[c] + 1, start.g.rolls[Linked(c)], start.m.id, start.g.log + [Struck(c, start.m.tick[c] + 1)])
  }

  lemma RoundStarts(start: State, c: Addr)
    requires Inv(start) && CanStartWalk(start, c) && Linked(c) in start.g.rolls
    ensures RoundFrom(RoundOf(start, c), start, c)
    ensures Rounded(RoundOf(start, c), [], {}, start.g.rolls[Linked(c)], start.g.log + [Struck(c, start.m.tick[c] + 1)],
            start.m.id)
  {
    hide Inv, LeftSince;
    var r := RoundOf(start, c);
    assert r.from[|r.from|..] == [];
    forall a | a in start.g.rolls[Linked(c)]
      ensures Awaits(r, a, r.from, start.m.id)
    {
      OnRollLive(start, Linked(c), a);
      NoneLeft(r.from, r.from, r.names[a], c);
    }
  }

  lemma OnRollLive(st: State, p: Place, a: Addr)
    requires Inv(st) && p in st.g.rolls && a in st.g.rolls[p]
    ensures a in st.m.id
  {
    hide Blocks, Marked, Located, Hosted, Wired, Typed, Owned, Awaited, Batched, Clocked, Alarmed, Walked, Ringed,
         Logged, Budgeted, Chronicled;
    hide Chained, Stacked, Placed;
    OnRoll(st.g.rolls, st.g.place, p, a);
    Live(st, a);
  }

  lemma RoundEnds(start: State, st: State, c: Addr, r: Round, seen: seq<Addr>, lost: set<Addr>)
    requires Seeking(start, Imagined(st, c, NULL), c, NULL)
             && Rounded(r, seen, lost, Ahead(st.g.walk), st.g.log, st.m.id)
    ensures Rounded(r, seen, lost, [], st.g.log, st.m.id)
  {
    hide Inv, SeenFirst, LeftSince, InTick, SeenIds, NamesOf, Awaits;
    SeekFacts(start, st, c, NULL);
  }

  lemma SoughtOn(l: seq<Addr>, seen: seq<Addr>, lost: set<Addr>, ahead: seq<Addr>, passed: seq<Addr>, found: seq<Addr>)
    requires Progress(l, seen, lost, ahead) && passed + found == ahead
    ensures Progress(l, seen + passed, lost, found)
  {
    hide Without, NoDup;
    assert seen + passed + found == seen + ahead;
  }

  lemma SkipFacts(start: State, st: State, c: Addr, s: Addr, r: Round, seen: seq<Addr>, lost: set<Addr>)
    requires Seeking(start, Imagined(st, c, s), c, s) && RoundFrom(r, start, c)
             && Rounded(r, seen, lost, Ahead(st.g.walk), st.g.log, st.m.id)
    requires s != NULL && Timed(st, c, s) && !Due(st, c, s) && Ahead(st.g.walk) != [] && Ahead(st.g.walk)[0] == s
    ensures s in st.m.next
    ensures var st' := st.(g := Skipped(Imagined(st, c, s)).g);
            && Seeking(start, Imagined(st', c, st.m.next[s]), c, st.m.next[s])
            && Ahead(st'.g.walk) == Ahead(st.g.walk)[1..]
            && Rounded(r, seen + [s], lost, Ahead(st'.g.walk), st'.g.log, st.m.id)
            && st'.g.log == st.g.log + [Seen(ShortTimer, st.m.id[s], c, st.m.tick[c])]
               + [Seen(LongTimer, st.m.id[s], c, st.m.tick[c])]
  {
    hide Inv, IsSuffix, Settled, Rounded, Tended, Skipped, Due, Without;
    SuffixSelf(Ahead(st.g.walk));
    SeekStep(start, st, c, s, Ahead(st.g.walk));
    TendedSkipped(r, start, st, c, s);
    var st' := st.(g := Skipped(Imagined(st, c, s)).g);
    AheadIsUnseen(start, st', c, st.m.next[s]);
    RoundedOn(r, seen, lost, Ahead(st.g.walk), st.g.log, st.m.id, st', Ahead(st'.g.walk), {});
    assert lost + {} == lost;
  }

  /** Between two sockets, what is ahead is what is unseen. */
  lemma AheadIsUnseen(start: State, st: State, c: Addr, s: Addr)
    requires Seeking(start, Imagined(st, c, s), c, s)
    ensures forall a :: a in Ahead(st.g.walk) <==> a in Unseen(st.g.walk)
  {
    hide Inv, Settled, Ticked;
  }

  lemma ExaminedOn(l: seq<Addr>, r: Round, start: State, seen: seq<Addr>, lost: set<Addr>, st: State, st': State,
                   c: Addr, n: Addr, dropped: set<Addr>)
    requires var found := Ahead(st.g.walk);
             && found != [] && found[0] in st.m.id && Progress(l, seen, lost, found)
             && Rounded(r, seen, lost, found, st.g.log, st.m.id)
             && Tended(r, st.m.id[found[0]], st.g.log, found[1..], st.m.id, st')
             && Seeking(start, Imagined(st', c, n), c, n) && Ahead(st'.g.walk) == Without(found[1..], dropped)
    ensures var found := Ahead(st.g.walk); var lost' := lost + Among(found[1..], dropped);
            && Progress(l, seen + [found[0]], lost', Ahead(st'.g.walk))
            && Rounded(r, seen + [found[0]], lost', Ahead(st'.g.walk), st'.g.log, st'.m.id)
            && |Ahead(st'.g.walk)| < |found| && (dropped == {} ==> Among(found[1..], dropped) == {})
  {
    hide Inv, Settled, Seeking, Rounded, Tended, Without, Progress, Imagined;
    var found := Ahead(st.g.walk);
    AheadIsUnseen(start, st', c, n);
    WithoutMembers(found[1..], dropped);
    ProgressExamined(l, seen, lost, found, dropped);
    RoundedOn(r, seen, lost, found, st.g.log, st.m.id, st', Ahead(st'.g.walk), Among(found[1..], dropped));
  }

  lemma ReachedNoted(start: State, st: State, c: Addr, s: Addr)
    requires Seeking(start, st, c, s) && s != NULL && Ahead(st.g.walk) != []
    ensures Timed(st, c, s)
    ensures st.m.timeout[s] == st.m.timestamp[c] ==>
              var st', before := Reached(st), st.g.log + [Seen(ShortTimer, st.m.id[s], c, st.m.tick[c])];
              Noted(st'.(g := st'.g.(log := before)), OnTimeout, st.m.id[s]) == st'
                  && Settled(st'.(g := st'.g.(log := before)))
  {
    hide Inv, IsSuffix, Ticked, W.Slot;
    ExamineFacts(st);
  }

  lemma LongNoted(start: State, st: State, c: Addr, s: Addr, rest: seq<Addr>)
    requires Handling(start, st, c, s, rest) && CanLookLong(st)
    ensures Timed(st, c, s)
    ensures st.m.longTimeout[s] == st.m.longTimestamp[c] ==>
              var st', before := LongLooked(st), st.g.log + [Seen(LongTimer, st.m.id[s], c, st.m.tick[c])];
              Noted(st'.(g := st'.g.(log := before)), OnLongTimeout, st.m.id[s]) == st'
                  && Settled(st'.(g := st'.g.(log := before)))
  {
    hide Inv, IsSuffix, Ticked, W.Slot;
    LongFacts(st);
  }

  lemma HandlingTended(r: Round, k: int, log: Log, rest: seq<Addr>, names: map<Addr, int>, start: State, st: State,
                       st': State, c: Addr, s: Addr)
    requires RoundFrom(r, start, c) && Handling(start, st, c, s, rest) && Evolves(st, st', {}, {})
             && Tended(r, k, log, rest, names, st)
    ensures Tended(r, k, log, rest, names, st')
  {
    hide Inv, Settled, Ticked, Tended, Tracks, Homes, Remembers, NoNewQueued, Pins, Spares, Freezes, KeepsClocks,
         OwesLess, Established, KeepsContexts;
    TendedEvolves(r, k, log, rest, names, st, st');
  }

  // ---- What a finished round means

  lemma {:induction false} NamesMembers(l: seq<Addr>, names: map<Addr, int>, k: int)
    requires forall a | a in l :: a in names
    ensures k in NamesOf(l, names) <==> exists a | a in l :: names[a] == k
  {
    if l != [] {
      var init, last := l[..|l| - 1], l[|l| - 1];
      assert l == init + [last];
      NamesMembers(init, names, k);
    }
  }

  lemma {:induction false} NamesDistinct(l: seq<Addr>, names: map<Addr, int>)
    requires NoDup(l) && forall a | a in l :: a in names
    requires forall a, b | a in l && b in l && names[a] == names[b] :: a == b
    ensures NoDup(NamesOf(l, names))
  {
    if l != [] {
      var init, last := l[..|l| - 1], l[|l| - 1];
      assert l == init + [last];
      NamesDistinct(init, names);
      NamesMembers(init, names, names[last]);
      assert last !in init;
      assert NamesOf(l, names) == NamesOf(init, names) + [names[last]];
    }
  }

  lemma {:induction false} SeenIdsMember(log: Log, k: int)
    ensures k in SeenIds(log) <==> exists i | 0 <= i < |log| ::
            log[i].Seen? && log[i].timer == ShortTimer && log[i].id == k
  {
    if log != [] {
      var init, e := log[..|log| - 1], log[|log| - 1];
      SeenIdsMember(init, k);
      assert forall i | 0 <= i < |init| :: init[i] == log[i];
      if k in SeenIds(init) {
        var i :| 0 <= i < |init| && init[i].Seen? && init[i].timer == ShortTimer && init[i].id == k;
        assert log[i].Seen?;
      }
    }
  }

  lemma LeftIn(log: Log, n: nat, j: nat, i: nat, k: int, c: Addr)
    requires n <= j < i <= |log| && log[j] == Left(k, c)
    ensures LeftSince(log[..i], n, k, c)
  {
    assert log[..i][j] == log[j];
  }

  lemma SeenIn(log: Log, n: nat, i: nat, j: nat, k: int)
    requires n <= i < j <= |log| && log[i].Seen? && log[i].timer == ShortTimer && log[i].id == k
    ensures k in SeenIds(log[n..j])
  {
    SeenIdsMember(log[n..j], k);
    assert log[n..j][i - n] == log[i];
  }

  /** Who was seen before leaving did not leave before being seen. */
  lemma FirstOnly(log: Log, n: nat, k: int, c: Addr)
    requires n <= |log|
    ensures SeenFirst(log, n, k, c) ==> !LeftFirst(log, n, k, c)
    ensures LeftSince(log, n, k, c) && k !in SeenIds(log[n..]) ==> LeftFirst(log, n, k, c)
  {
    hide SeenIds;
    if SeenFirst(log, n, k, c) && LeftFirst(log, n, k, c) {
      var i :| n <= i < |log| && log[i].Seen? && log[i].timer == ShortTimer && log[i].id == k
          && !LeftSince(log[..i], n, k, c);
      var j :| n <= j < |log| && log[j] == Left(k, c) && k !in SeenIds(log[n..j]);
      if j < i { LeftIn(log, n, j, i, k, c); }
      if i < j { SeenIn(log, n, i, j, k); }
    }
    if LeftSince(log, n, k, c) && k !in SeenIds(log[n..]) {
      var i :| n <= i < |log| && log[i] == Left(k, c);
      SeenIdsMember(log[n..], k);
      SeenIdsMember(log[n..i], k);
      forall j | 0 <= j < |log[n..i]|
        ensures log[n..i][j] == log[n..][j]
      {
      }
    }
  }

  /** Whoever was on the list was either seen or left first; and those seen were seen once, in order. */
  lemma RoundMeans(r: Round, seen: seq<Addr>, lost: set<Addr>, log: Log, id: map<Addr, int>)
    requires Rounded(r, seen, lost, [], log, id) && NoDup(r.list) && seen == Without(r.list, lost)
    requires (forall a | a in r.list :: a in r.names) && forall a, b | a in r.list && b in r.list
             && r.names[a] == r.names[b] :: a == b
    ensures r.from <= log && NoDup(SeenIds(log[|r.from|..]))
    ensures forall k :: k in SeenIds(log[|r.from|..]) <==> exists a | a in r.list ::
            r.names[a] == k && !LeftFirst(log, |r.from|, k, r.context)
    ensures forall a | a in r.list :: a in lost <==> LeftFirst(log, |r.from|, r.names[a], r.context)
  {
    hide Without, SeenIds, NamesOf, SeenFirst, LeftFirst, LeftSince, InTick;
    var n, seg := |r.from|, log[|r.from|..];
    WithoutMembers(r.list, lost);
    NoDupWithout(r.list, lost);
    NamesDistinct(seen, r.names);
    forall a | a in r.list
      ensures a in lost <==> LeftFirst(log, n, r.names[a], r.context)
    {
      FirstOnly(log, n, r.names[a], r.context);
      NamesMembers(seen, r.names, r.names[a]);
      assert a in lost || a in seen;
    }
    forall k
      ensures k in SeenIds(seg) <==> exists a | a in r.list :: r.names[a] == k && !LeftFirst(log, n, k, r.context)
    {
      NamesMembers(seen, r.names, k);
    }
  }

  lemma {:induction false} NoDupWithout(l: seq<Addr>, gone: set<Addr>)
    requires NoDup(l)
    ensures NoDup(Without(l, gone))
  {
    if l != [] {
      NoDupWithout(l[1..], gone);
      WithoutMembers(l[1..], gone);
      assert l[0] !in l[1..];
    }
  }

  // ---- A whole sweep

  /** The walk over one context: the states before and after, and whom it saw and lost. */
  datatype Pass = Pass(context: Addr, before: State, after: State, seen: seq<Addr>, lost: set<Addr>)

  ghost predicate PassMade(p: Pass) {
    && Inv(p.before) && p.context in p.before.m.tick && Linked(p.context) in p.before.g.rolls
    && p.seen == Without(p.before.g.rolls[Linked(p.context)], p.lost)
    && Rounded(RoundOf(p.before, p.context), p.seen, p.lost, [], p.after.g.log, p.after.m.id)
  }

  ghost function AfterPasses(st: State, passes: seq<Pass>): State {
    if passes == [] then st else passes[|passes| - 1].after
  }

  /** One walk after the other was made over the first contexts of the list that there was in `st`. */
  ghost predicate PassesMade(st: State, passes: seq<Pass>) {
    && |passes| <= |st.g.contexts|
    && forall i | 0 <= i < |passes| ::
         && passes[i].context == st.g.contexts[i]
         && passes[i].before == AfterPasses(st, passes[..i]) && PassMade(passes[i])
  }

  lemma NoPasses(st: State)
    ensures PassesMade(st, []) && AfterPasses(st, []) == st
  {
  }

  lemma OneMorePass(st: State, passes: seq<Pass>, p: Pass)
    requires PassesMade(st, passes) && |passes| < |st.g.contexts| && p.context == st.g.contexts[|passes|]
    requires p.before == AfterPasses(st, passes) && PassMade(p)
    ensures PassesMade(st, passes + [p]) && AfterPasses(st, passes + [p]) == p.after
  {
    hide PassMade;
    var more := passes + [p];
    forall i | 0 <= i < |more|
      ensures more[i].context == st.g.contexts[i] && more[i].before == AfterPasses(st, more[..i]) && PassMade(more[i])
    {
      if i < |passes| {
        assert more[i] == passes[i] && more[..i] == passes[..i];
      } else {
        assert more[..i] == passes;
      }
    }
  }

  /** The sweep from `st` to `st'`: a walk over every context that there was, in the order of their list. */
  ghost predicate SweptAll(st: State, st': State, passes: seq<Pass>) {
    PassesMade(st, passes) && |passes| == |st.g.contexts| && st' == AfterPasses(st, passes)
  }
}
