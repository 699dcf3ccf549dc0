/** What holds of a loop in every reachable state: every method of `Loop` keeps `Inv`, so each of these follows of any
    run. */
module Theorems {
  import opened Threads
  import opened Polls
  import opened ReadyBatch
  import opened Journal
  import opened Chronicles
  import opened Chimes
  import opened States
  import opened Facts
  import opened Linking
  import opened Listed
  import opened Arming
  import opened Tracking
  import opened Evolution
  import opened Rounds
  import opened Outcomes
  import W = Wheel

  // ---- The lists

  /** The block `n` steps from `a` along `links`. */
  ghost function Follow(links: Links, a: Addr, n: nat): Addr {
    if n == 0 then a else var b := Follow(links, a, n - 1); if b in links then links[b] else NULL
  }

  lemma {:induction false} FollowChain(prev: Links, next: Links, l: seq<Addr>, head: Addr, n: nat)
    requires Chained(prev, next, l, head) && n <= |l|
    ensures Follow(next, head, n) == At(l, n)
  {
    if n > 0 {
      FollowChain(prev, next, l, head, n - 1);
      assert l[n - 1] in next && next[l[n - 1]] == At(l, n);
    }
  }

  lemma {:induction false} FollowBack(prev: Links, next: Links, l: seq<Addr>, head: Addr, i: nat, n: nat)
    requires Chained(prev, next, l, head) && i < |l| && n <= i + 1
    ensures Follow(prev, l[i], n) == At(l, i - n)
  {
    if n > 0 {
      FollowBack(prev, next, l, head, i, n - 1);
      assert l[i - n + 1] in prev && prev[l[i - n + 1]] == At(l, i - n);
    }
  }

  /** Every two-way list is acyclic: following the pointers from its head visits its members once each and ends at null,
      and following them back from any member leads to the head. */
  lemma ListsAreAcyclic(st: State, p: Place)
    requires Inv(st) && p in st.g.rolls && p != Closed
    ensures p in st.m.heads && NoDup(st.g.rolls[p]) && NULL !in st.g.rolls[p]
    ensures forall n | 0 <= n <= |st.g.rolls[p]| :: Follow(st.m.next, st.m.heads[p], n) == At(st.g.rolls[p], n)
    ensures forall i, n | 0 <= n <= i + 1 <= |st.g.rolls[p]| ::
            Follow(st.m.prev, At(st.g.rolls[p], i), n) == At(st.g.rolls[p], i - n)
  {
    hide Blocks, Marked, Located, Hosted, Wired, Typed, Owned, Awaited, Batched, Clocked, Alarmed, Walked, Ringed,
         Logged, Budgeted, Chronicled, Placed, Stacked;
    var l := st.g.rolls[p];
    assert Chained(st.m.prev, st.m.next, l, st.m.heads[p]);
    forall n | 0 <= n <= |l| { FollowChain(st.m.prev, st.m.next, l, st.m.heads[p], n); }
    forall i, n | 0 <= n <= i + 1 <= |l|
      ensures Follow(st.m.prev, At(l, i), n) == At(l, i - n)
    {
      if i >= 0 { FollowBack(st.m.prev, st.m.next, l, st.m.heads[p], i, n); }
    }
  }

  /** Every socket that is not freed is on exactly one list, and its fields tell which. */
  lemma OnExactlyOneList(st: State, s: Addr)
    requires Inv(st) && Settled(st) && s in st.m.heap
    ensures Whole(st, s)
    ensures var p := st.g.place[s];
            && p in st.g.rolls && s in st.g.rolls[p] && (forall q | q in st.g.rolls && s in st.g.rolls[q] :: q == p)
            && (p == Queued || p == Closed || p == Linked(st.m.context[s]) || p == Listening(st.m.context[s]))
            && (st.m.lowPrio[s] == 1 <==> p == Queued)
            && (st.m.prev[s] == st.m.context[s] <==> p == Closed)
  {
    hide Marked, Located, Hosted, Wired, Typed, Owned, Awaited, Batched, Clocked, Alarmed, Walked, Ringed, Logged,
         Budgeted, Chronicled, Chained, Stacked;
    Live(st, s);
    ClosedFacts(st, s);
    forall q | q in st.g.rolls && s in st.g.rolls[q]
      ensures q == st.g.place[s]
    {
      var i := Index(st.g.rolls[q], s);
      assert st.g.place[st.g.rolls[q][i]] == q;
    }
  }

  /** No list, no iterator and no application pointer is at a block that was freed or moved away. */
  lemma NothingDangles(st: State)
    requires Inv(st)
    ensures forall p, i | p in st.g.rolls && 0 <= i < |st.g.rolls[p]| :: st.g.rolls[p][i] in st.m.heap
    ensures forall c | c in st.m.walker && st.m.walker[c] != NULL ::
            st.m.walker[c] in st.m.heap && PlaceOf(st, st.m.walker[c]) == Linked(c)
    ensures forall k | k in st.m.owner :: st.m.owner[k] in st.m.heap
  {
    hide Marked, Located, Hosted, Wired, Typed, Owned, Awaited, Batched, Clocked, Alarmed, Walked, Ringed, Logged,
         Budgeted, Chronicled, Chained, Stacked;
    forall c | c in st.m.walker && st.m.walker[c] != NULL
      ensures st.m.walker[c] in st.m.heap && PlaceOf(st, st.m.walker[c]) == Linked(c)
    {
      IteratorFacts(st, c);
      Live(st, st.m.walker[c]);
    }
    forall k | k in st.m.owner
      ensures st.m.owner[k] in st.m.heap
    {
      OwnerHome(st, k);
      Live(st, st.m.owner[k]);
    }
  }

  // ---- Ready polls and the kernel

  /** Every entry still to be dispatched is for an open socket at its current address, the one the kernel reports. */
  lemma PendingNeverStale(st: State, i: nat)
    requires Inv(st) && i < |st.batch| && st.batch[i].ptr.Poll?
    ensures var s := st.batch[i].ptr.addr;
            && Whole(st, s) && st.g.place[s] != Closed && s in st.m.heap
            && st.m.fd[s] in st.m.kernel && st.m.kernel[st.m.fd[s]] == Registration(Events(st.m.pollType[s]), s)
  {
    hide Blocks, Threaded, Marked, Located, Hosted, Wired, Typed, Owned, Awaited, Clocked, Alarmed, Walked, Ringed,
         Logged, Budgeted, Chronicled, Count, Events;
    KernelFacts(st, st.batch[i].ptr.addr);
    Live(st, st.batch[i].ptr.addr);
  }

  /** What the kernel has registered is exactly the open sockets, each with its cached interest and current address. */
  lemma KernelAgrees(st: State, f: int)
    requires Inv(st)
    ensures f in st.m.kernel <==> exists s | s in st.g.place ::
            st.g.place[s] != Closed && s in st.m.fd && st.m.fd[s] == f
    ensures forall s | s in st.g.place && st.g.place[s] != Closed && s in st.m.fd && st.m.fd[s] == f ::
              f in st.m.kernel && s in st.m.pollType && st.m.kernel[f] == Registration(Events(st.m.pollType[s]), s)
  {
    hide Blocks, Threaded, Marked, Located, Hosted, Typed, Owned, Awaited, Batched, Clocked, Alarmed, Walked, Ringed,
         Logged, Budgeted, Chronicled, Events;
    if f in st.m.kernel { assert st.m.kernel[f].ptr in Open(st.g.place); }
    forall s | s in st.g.place && st.g.place[s] != Closed && s in st.m.fd && st.m.fd[s] == f
      ensures f in st.m.kernel && s in st.m.pollType && st.m.kernel[f] == Registration(Events(st.m.pollType[s]), s)
    {
      assert s in Open(st.g.place);
    }
  }

  /** No lost wakeup: after a short write the socket stays open and the kernel is asked for a writable event, until that
      event is handed on, or the socket is shut down or closed. */
  lemma NoLostWakeup(st: State, i: nat, k: int)
    requires Inv(st) && i < |st.g.log| && st.g.log[i] == FellShort(k) && Unanswered(st.g.log, i, k)
    ensures k in st.m.owner && Whole(st, st.m.owner[k])
    ensures var s := st.m.owner[k];
            && st.g.place[s] != Closed && Kind(st.m.pollType[s]) == POLL_TYPE_SOCKET
            && Events(st.m.pollType[s]).writable
            && st.m.fd[s] in st.m.kernel && st.m.kernel[st.m.fd[s]].events.writable && st.m.kernel[st.m.fd[s]].ptr == s
  {
    hide Inv, Kind, Owing;
    OwingExactly(st.g.log, k);
    DebtAtoms(st, k);
    OwnerHome(st, k);
    KernelFacts(st, st.m.owner[k]);
  }

  lemma DebtAtoms(st: State, k: int)
    requires Inv(st) && k in Owing(st.g.log)
    ensures k in st.m.owner && st.m.owner[k] in st.g.place && st.g.place[st.m.owner[k]] != Closed
    ensures st.m.owner[k] in st.m.pollType && Kind(st.m.pollType[st.m.owner[k]]) == POLL_TYPE_SOCKET
            && Events(st.m.pollType[st.m.owner[k]]).writable
  {
    hide Blocks, Threaded, Marked, Located, Hosted, Wired, Typed, Owned, Batched, Clocked, Alarmed, Walked, Ringed,
         Logged, Budgeted, Chronicled, Owing, Kind, Events;
  }

  // ---- Handlers, closing and freeing

  /** No handler is ever called for a socket after it was shut, but for the one `on_close` that comes at once; and it is
      released in the next post step, once. */
  lemma ClosedForGood(st: State, i: nat)
    requires Inv(st) && i < |st.g.log| && st.g.log[i].Shut?
    ensures forall j | i < j < |st.g.log| && st.g.log[j].Called? && st.g.log[j].id == st.g.log[i].id ::
            st.g.log[j].handler == OnClose && j == i + 1
    ensures forall j | i < j < |st.g.log| && st.g.log[j] == PostStep :: exists k | i < k < j ::
            st.g.log[k] == Released(st.g.log[i].id)
    ensures forall j, k | 0 <= j < k < |st.g.log| && st.g.log[j].Released? :: st.g.log[k] != st.g.log[j]
  {
    hide Blocks, Threaded, Marked, Located, Hosted, Wired, Typed, Owned, Awaited, Batched, Clocked, Alarmed, Walked,
         Ringed, Budgeted, Chronicled;
    assert Lawful(st.g.log);
    forall j | i < j < |st.g.log| { NothingAfterShut(st.g.log, i, j); }
    forall j | i < j < |st.g.log| && st.g.log[j] == PostStep { ReleasedInItsPostStep(st.g.log, i, j); }
    forall j, k | 0 <= j < k < |st.g.log| && st.g.log[j].Released?
      ensures st.g.log[k] != st.g.log[j]
    {
      PrefixLawful(st.g.log, k);
      ShutIsLogged(st.g.log[..k], j);
    }
  }

  // ---- Timeouts

  lemma AlarmOf(st: State, s: Addr)
    requires Inv(st) && s in st.g.place && st.g.place[s].Linked?
    ensures Whole(st, s)
    ensures s in st.g.alarms ==> Rings(st.g.alarms[s], st.m.timeout[s],
            Upcoming(st.m.tick, st.m.context, Unseen(st.g.walk), s), 1)
    ensures s in st.g.longAlarms ==> Rings(st.g.longAlarms[s], st.m.longTimeout[s],
            Upcoming(st.m.tick, st.m.context, UnseenLong(st.g.walk), s), 15)
  {
    hide Blocks, Threaded, Marked, Located, Hosted, Wired, Typed, Owned, Awaited, Batched, Clocked, Walked, Ringed,
         Logged, Budgeted, Chronicled, Unseen, UnseenLong, Rings;
    Live(st, s);
    assert s in Swept(st.g.place);
  }

  /** The next tick whose sweep looks at a timer of the linked socket `s`. */
  ghost function NextLook(st: State, timer: Timer, s: Addr): nat
    requires s in st.m.context && st.m.context[s] in st.m.tick
  {
    Upcoming(st.m.tick, st.m.context, if timer == ShortTimer then Unseen(st.g.walk) else UnseenLong(st.g.walk), s)
  }

  /** A socket whose timer was set, and which was neither unlinked nor had that timer set again since: it is still
      linked where it was, and its handler was called once since, in the tick the timer was due in, if the sweep of
      that tick has looked at it, and else not yet. */
  lemma AlarmTold(st: State, timer: Timer, n: nat, k: int, c: Addr, due: int)
    requires Inv(st) && 0 < n <= |st.g.log| && st.g.log[n - 1] == Set(timer, k, due)
             && Undisturbed(st.g.log, n, timer, k)
    requires WhereIs(st.g.log[..n], k) == c && c != NULL
    ensures k in st.m.owner && st.m.owner[k] in st.g.place && st.g.place[st.m.owner[k]] == Linked(c)
    ensures Whole(st, st.m.owner[k]) && st.m.context[st.m.owner[k]] == c
    ensures if due < NextLook(st, timer, st.m.owner[k]) then CalledOnceIn(st.g.log, n, timer, k, c, due)
            else NeverCalled(st.g.log, n, timer, k)
  {
    hide Inv, Orderly, Undisturbed, WhereIs, RingOf, CalledOnceIn, NeverCalled, Unseen, UnseenLong, Rings;
    ChronicleOf(st);
    CallsOf(st.g.log, n, timer, k, c, due);
    var alarms := AlarmsOf(timer, st.g.alarms, st.g.longAlarms);
    assert RingOf(st.g.log, timer, k) == RingAt(st.m.owner, alarms, k)
           && WhereIs(st.g.log, k) == Spot(st.m.owner, st.g.place, k);
    var s := st.m.owner[k];
    AlarmsLinked(st, s);
    AlarmOf(st, s);
    ListedAt(st, s);
    if timer == ShortTimer {
      FiredIff(alarms[s], st.m.timeout[s], NextLook(st, timer, s), 1);
    } else {
      FiredIff(alarms[s], st.m.longTimeout[s], NextLook(st, timer, s), 15);
    }
  }

  /** A timeout handler is called only right after the sweep has looked at the timer, in the tick it is due in, of a
      socket linked in the context whose clock that is; and whenever the sweep looks at a timer that is due, it is
      called. */
  lemma CalledOnlyWhenDue(st: State, i: nat)
    requires Inv(st) && i < |st.g.log|
    ensures IsRing(st.g.log[i]) ==>
              && i > 0 && st.g.log[i - 1].Seen? && st.g.log[i - 1].id == st.g.log[i].id
              && HandlerOf(st.g.log[i - 1].timer) == st.g.log[i].handler
              && IsDue(st.g.log[..i - 1], st.g.log[i - 1])
    ensures st.g.log[i].Seen? ==>
              var e := st.g.log[i];
              && WhereIs(st.g.log[..i], e.id) == e.context && ClockOf(st.g.log[..i], e.context) == e.tick
              && (IsDue(st.g.log[..i], e) <==>
                          i + 1 < |st.g.log| && st.g.log[i + 1] == Called(HandlerOf(e.timer), e.id))
  {
    hide Inv, RingOf, WhereIs, ClockOf;
    ChronicleOf(st);
    assert InOrder(st.g.log, i);
    if i > 0 { assert InOrder(st.g.log, i - 1); }
  }

  /** Setting a linked socket's timeout to 1 to 956 seconds in tick `t`, in state `st`. In any later state, if the
      socket was neither unlinked nor had its timeout set again, its handler was called once since, in tick t +
      ceil(seconds / 4), if the sweep of that tick has looked at it, and else not yet. */
  lemma TimeoutOnTime(st: State, s: Addr, seconds: nat, st': State)
    requires Inv(st) && s in st.g.place && st.g.place[s].Linked? && 1 <= seconds <= 956
    requires s in st.m.context && st.m.context[s] in st.m.timestamp && s in st.m.id && Inv(st')
    requires var log := Stamped(st, s, W.ShortStamp(st.m.timestamp[st.m.context[s]], seconds)).g.log;
             log <= st'.g.log && Undisturbed(st'.g.log, |log|, ShortTimer, st.m.id[s])
    ensures st.m.context[s] in st.m.tick && st.m.id[s] in st'.m.owner && Whole(st', st'.m.owner[st.m.id[s]])
    ensures var k, c, n := st.m.id[s], st.m.context[s], |st.g.log| + 1;
            var due := st.m.tick[c] + W.CeilQuarter(seconds);
            if due < NextLook(st', ShortTimer, st'.m.owner[k]) then CalledOnceIn(st'.g.log, n, ShortTimer, k, c, due)
            else NeverCalled(st'.g.log, n, ShortTimer, k)
  {
    hide Inv, W.NextMatch, W.ShortStamp, W.CeilQuarter, Unseen, CalledOnceIn, NeverCalled, NextLook, Undisturbed,
         WhereIs;
    ShortArmed(st, s, seconds);
    SetTold(st, st', ShortTimer, s, st.m.tick[st.m.context[s]] + W.CeilQuarter(seconds));
    AlarmTold(st', ShortTimer, |st.g.log| + 1, st.m.id[s], st.m.context[s],
        st.m.tick[st.m.context[s]] + W.CeilQuarter(seconds));
  }

  /** Where a socket is when its timer is set is told by the journal of any later state. */
  lemma SetTold(st: State, st': State, timer: Timer, s: Addr, due: int)
    requires Inv(st) && s in st.g.place && st.g.place[s].Linked? && s in st.m.id
             && st.g.log + [Set(timer, st.m.id[s], due)] <= st'.g.log
    ensures s in st.m.context && st.m.context[s] != NULL && 0 < |st.g.log| + 1 <= |st'.g.log|
            && st'.g.log[|st.g.log|] == Set(timer, st.m.id[s], due)
    ensures WhereIs(st'.g.log[..|st.g.log| + 1], st.m.id[s]) == st.m.context[s]
  {
    hide Inv, Orderly, WhereIs, Clocks, Bells;
    var log := st.g.log + [Set(timer, st.m.id[s], due)];
    assert st'.g.log[..|st.g.log| + 1] == log && st'.g.log[|st.g.log|] == log[|st.g.log|];
    ChronicleOf(st);
    Appended(st.g.log, Set(timer, st.m.id[s], due));
    Live(st, s);
    OwnsIts(st, s);
    ListedAt(st, s);
    NotNull(st, st.m.context[s]);
  }

  lemma FiredIff(a: Alarm, stamp: int, upcoming: nat, unit: W.Unit)
    requires Rings(a, stamp, upcoming, unit)
    ensures a.fired == if a.due < upcoming then [a.due] else []
  {
    if a.fired == [] { W.NextMatchIsFirst(upcoming, unit, stamp); }
  }

  lemma ShortArmed(st: State, s: Addr, seconds: nat)
    requires Inv(st) && s in st.g.place && st.g.place[s].Linked? && 1 <= seconds < W.UINT32
    ensures Whole(st, s) && st.m.context[s] in st.m.timestamp
    ensures var t, ahead := st.m.tick[st.m.context[s]], s in Unseen(st.g.walk);
            var armed := Stamped(st, s, W.ShortStamp(st.m.timestamp[st.m.context[s]], seconds));
            && s in st.m.id && s in armed.g.alarms && armed.g.alarms[s].fired == []
            && armed.g.log == st.g.log + [Set(ShortTimer, st.m.id[s], armed.g.alarms[s].due)]
            && (armed.g.alarms[s].due == t + W.CeilQuarter(seconds) <==> seconds <= (if ahead then 956 else 960))
  {
    hide Inv, W.NextMatch, W.Uint32, W.CeilQuarter, Unseen, W.Wrap;
    Live(st, s);
    StampsOf(st, st.m.context[s]);
    W.ShortTimeoutExact(st.m.tick[st.m.context[s]], seconds, s in Unseen(st.g.walk));
  }

  lemma StampsOf(st: State, c: Addr)
    requires Inv(st) && c in st.m.ctxs
    ensures c in st.m.tick && c in st.m.timestamp && c in st.m.longTimestamp
    ensures st.m.timestamp[c] == W.Wrap(st.m.tick[c]) && st.m.longTimestamp[c] == W.Wrap(st.m.tick[c] / 15)
  {
    hide Blocks, Threaded, Marked, Located, Hosted, Wired, Typed, Owned, Awaited, Batched, Alarmed, Walked, Ringed,
         Logged, Budgeted, Chronicled;
  }

  lemma LongArmed(st: State, s: Addr, minutes: nat)
    requires Inv(st) && s in st.g.place && st.g.place[s].Linked? && 1 <= minutes < W.UINT32
    ensures Whole(st, s) && st.m.context[s] in st.m.longTimestamp
    ensures var t, ahead := st.m.tick[st.m.context[s]], s in UnseenLong(st.g.walk);
            var armed := LongStamped(st, s, W.LongStamp(st.m.longTimestamp[st.m.context[s]], minutes));
            && s in st.m.id && s in armed.g.longAlarms && armed.g.longAlarms[s].fired == []
            && armed.g.log == st.g.log + [Set(LongTimer, st.m.id[s], armed.g.longAlarms[s].due)]
            && (armed.g.longAlarms[s].due == (t / 15 + minutes) * 15 <==>
                        minutes <= 239 || (minutes == 240 && !ahead && t % 15 == 14))
  {
    hide Inv, W.NextMatch, W.Uint32, UnseenLong, W.Wrap;
    Live(st, s);
    StampsOf(st, st.m.context[s]);
    W.LongTimeoutExact(st.m.tick[st.m.context[s]], minutes, s in UnseenLong(st.g.walk));
  }

  /** The same for the long timer: 1 to 239 minutes, due in the first tick of that minute. */
  lemma LongTimeoutOnTime(st: State, s: Addr, minutes: nat, st': State)
    requires Inv(st) && s in st.g.place && st.g.place[s].Linked? && 1 <= minutes <= 239
    requires s in st.m.context && st.m.context[s] in st.m.longTimestamp && s in st.m.id && Inv(st')
    requires var log := LongStamped(st, s, W.LongStamp(st.m.longTimestamp[st.m.context[s]], minutes)).g.log;
             log <= st'.g.log && Undisturbed(st'.g.log, |log|, LongTimer, st.m.id[s])
    ensures st.m.context[s] in st.m.tick && st.m.id[s] in st'.m.owner && Whole(st', st'.m.owner[st.m.id[s]])
    ensures var k, c, n := st.m.id[s], st.m.context[s], |st.g.log| + 1;
            var t := st.m.tick[c];
            var due := (t / 15 + minutes) * 15;
            && t + 15 * minutes - 14 <= due <= t + 15 * minutes
            && if due < NextLook(st', LongTimer, st'.m.owner[k]) then CalledOnceIn(st'.g.log, n, LongTimer, k, c, due)
               else NeverCalled(st'.g.log, n, LongTimer, k)
  {
    hide Inv, W.NextMatch, W.LongStamp, UnseenLong, CalledOnceIn, NeverCalled, NextLook, Undisturbed, WhereIs;
    LongArmed(st, s, minutes);
    var t := st.m.tick[st.m.context[s]];
    W.LongTimeoutExact(t, minutes, s in UnseenLong(st.g.walk));
    SetTold(st, st', LongTimer, s, (t / 15 + minutes) * 15);
    AlarmTold(st', LongTimer, |st.g.log| + 1, st.m.id[s], st.m.context[s], (t / 15 + minutes) * 15);
  }

  /** A stamp of 255 is no clock's: such a socket has no alarm to fire. */
  lemma NeverNeverFires(st: State, s: Addr)
    requires Inv(st) && s in st.g.place && st.g.place[s].Linked?
    ensures Whole(st, s) && st.m.context[s] in st.m.timestamp && st.m.context[s] in st.m.longTimestamp
    ensures st.m.timeout[s] == W.NEVER ==>
                st.m.timeout[s] != st.m.timestamp[st.m.context[s]] && (s in st.g.alarms ==> st.g.alarms[s].fired != [])
    ensures st.m.longTimeout[s] == W.NEVER ==>
                st.m.longTimeout[s] != st.m.longTimestamp[st.m.context[s]]
                && (s in st.g.longAlarms ==> st.g.longAlarms[s].fired != [])
  {
    hide Inv, Unseen, UnseenLong;
    Live(st, s);
    StampsOf(st, st.m.context[s]);
    AlarmOf(st, s);
  }

  /** A timer that is off in `st` stays silent: in any later state its handler was not called, unless the timer was set
      again. */
  lemma OffTillSet(st: State, timer: Timer, s: Addr, st': State)
    requires TimerOff(st, timer, s) && Inv(st') && st.g.log <= st'.g.log
    requires NotSet(st'.g.log, |st.g.log|, timer, st.m.id[s])
    ensures NeverCalled(st'.g.log, |st.g.log|, timer, st.m.id[s])
  {
    hide Inv, Orderly, RingOf, NotSet, NeverCalled, Whereabouts, Bells, Clocks;
    ChronicleOf(st');
    assert st'.g.log[..|st.g.log|] == st.g.log;
    SilentTillSet(st'.g.log, |st.g.log|, timer, st.m.id[s]);
  }

  // ---- The sweep

  /** A walk of the sweep over context `c`, from `start` on, whatever the handlers did: by the journal it looked at
      the short timer of exactly those sockets that were linked in `c` when it began and did not leave before it came
      to them, at each of them once and in the order of the list, and at nobody else; all in the tick that it began.
      */
  lemma SweepSeesEachOnce(start: State, c: Addr, seen: seq<Addr>, lost: set<Addr>, log: Log, id: map<Addr, int>)
    requires Inv(start) && c in start.m.tick && Linked(c) in start.g.rolls
             && Rounded(RoundOf(start, c), seen, lost, [], log, id)
    requires seen == Without(start.g.rolls[Linked(c)], lost)
    ensures var n := |start.g.log| + 1;
            && start.g.log + [Struck(c, start.m.tick[c] + 1)] <= log
            && (forall k :: k in SeenIds(log[n..]) <==> WhereIs(start.g.log, k) == c && !LeftFirst(log, n, k, c))
            && NoDup(SeenIds(log[n..])) && SeenIds(log[n..]) == NamesOf(seen, start.m.id)
            && (forall i | n <= i < |log| && log[i].Seen? :: log[i].context == c && log[i].tick == start.m.tick[c] + 1)
  {
    hide Inv, Without, SeenIds, NamesOf, LeftFirst, WhereIs, Awaits, SeenFirst, LeftSince;
    var r, l := RoundOf(start, c), start.g.rolls[Linked(c)];
    RollFacts(start, c);
    RoundMeans(r, seen, lost, log, id);
    forall k
      ensures WhereIs(start.g.log, k) == c <==> exists a | a in l :: start.m.id[a] == k
    {
      OnRollTold(start, c, k);
    }
  }

  lemma RollFacts(st: State, c: Addr)
    requires Inv(st) && c in st.m.tick && Linked(c) in st.g.rolls
    ensures NoDup(st.g.rolls[Linked(c)]) && forall a | a in st.g.rolls[Linked(c)] :: a in st.m.id
    ensures forall a, b | a in st.g.rolls[Linked(c)] && b in st.g.rolls[Linked(c)] && st.m.id[a] == st.m.id[b] :: a == b
  {
    hide Inv;
    ListsAreAcyclic(st, Linked(c));
    forall a | a in st.g.rolls[Linked(c)]
      ensures a in st.m.id && st.m.id[a] in st.m.owner && st.m.owner[st.m.id[a]] == a
    {
      RolledAt(st, c, a);
      OwnsIts(st, a);
    }
  }

  lemma RolledAt(st: State, c: Addr, a: Addr)
    requires Inv(st) && Linked(c) in st.g.rolls && a in st.g.rolls[Linked(c)]
    ensures a in st.g.place && st.g.place[a] == Linked(c) && c in st.m.ctxs
  {
    hide Blocks, Marked, Located, Wired, Typed, Owned, Awaited, Batched, Clocked, Alarmed, Walked, Ringed, Logged,
         Budgeted, Chronicled;
    hide Chained, Stacked, Placed;
    OnRoll(st.g.rolls, st.g.place, Linked(c), a);
  }

  lemma OnRollTold(st: State, c: Addr, k: int)
    requires Inv(st) && c in st.m.tick && Linked(c) in st.g.rolls && forall a | a in st.g.rolls[Linked(c)] ::
             a in st.m.id
    ensures WhereIs(st.g.log, k) == c <==> exists a | a in st.g.rolls[Linked(c)] :: st.m.id[a] == k
  {
    hide Inv, WhereIs, Orderly, Bells, Clocks;
    ChronicleOf(st);
    TickNotNull(st, c);
    if WhereIs(st.g.log, k) == c {
      var s := st.m.owner[k];
      ListedFacts(st, s);
      OwnerHome(st, k);
    }
    if a :| a in st.g.rolls[Linked(c)] && st.m.id[a] == k {
      RolledAt(st, c, a);
      OwnsIts(st, a);
    }
  }

  lemma TickNotNull(st: State, c: Addr)
    requires Inv(st) && c in st.m.tick
    ensures c != NULL
  {
    hide Threaded, Marked, Located, Hosted, Wired, Typed, Owned, Awaited, Batched, Alarmed, Walked, Ringed, Logged,
         Budgeted, Chronicled;
  }

  // ---- Handshakes and polls

  /** Over any run, at most five handshake reads an iteration: done, granted, or still in the budget. */
  lemma HandshakesBounded(st: State, granted: set<Addr>)
    requires Inv(st) && forall s | s in granted ::
             s in st.g.place && st.g.place[s].Linked? && s in st.m.lowPrio && st.m.lowPrio[s] == 2
    ensures st.m.budget >= 0 && st.g.lowReads + |granted| + st.m.budget <= 5 * st.m.iterationNr
  {
    hide Blocks, Threaded, Marked, Located, Hosted, Wired, Typed, Owned, Awaited, Batched, Clocked, Alarmed, Walked,
         Ringed, Logged, Chronicled;
    forall s | s in granted ensures s in st.g.delayed { assert s in Swept(st.g.place); }
    SubsetSize(granted, st.g.delayed);
  }

  lemma SubsetSize(a: set<Addr>, b: set<Addr>)
    requires a <= b
    ensures |a| <= |b|
  {
    assert b == a + (b - a);
  }

  /** `num_polls` counts the sockets created and not freed. */
  lemma PollsCounted(st: State)
    requires Inv(st)
    ensures st.m.numPolls == |st.m.heap| && st.m.heap == st.g.place.Keys
  {
    hide Threaded, Marked, Located, Hosted, Wired, Typed, Owned, Awaited, Batched, Clocked, Alarmed, Walked, Ringed,
         Logged, Budgeted, Chronicled;
  }
}
