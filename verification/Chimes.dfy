/** What the journal tells about clocks, linked sockets and timers, and the law it keeps about them. */
module Chimes {
  import opened Threads
  import opened Journal

  /** A pending timeout: the tick it is due in, and the ticks in which its handler was called. */
  datatype Alarm = Alarm(due: int, fired: seq<int>)

  datatype Ring = Silent | Chime(alarm: Alarm)

  /** The tick in which an event after `past` happens, if the sweep has just looked at a socket. */
  ghost function TickNow(past: Log): int {
    if past != [] && past[|past| - 1].Seen? then past[|past| - 1].tick else -1
  }

  ghost function RingAfter(ring: Ring, past: Log, e: Event, timer: Timer, k: int): Ring {
    match e
    case Set(t, x, due) => if t == timer && x == k then Chime(Alarm(due, [])) else ring
    case Unset(t, x) => if t == timer && x == k then Silent else ring
    case Left(x, _) => if x == k then Silent else ring
    case Called(h, x) =>
      if h == HandlerOf(timer) && x == k && ring.Chime?
          then Chime(Alarm(ring.alarm.due, ring.alarm.fired + [TickNow(past)]))
      else ring
    case _ => ring
  }

  /** The alarm of a timer of socket `k`: set since it was last linked, with the calls of its handler since. */
  ghost function RingOf(log: Log, timer: Timer, k: int): Ring {
    if log == [] then Silent
    else RingAfter(RingOf(log[..|log| - 1], timer, k), log[..|log| - 1], log[|log| - 1], timer, k)
  }

  ghost function ClockAfter(clock: int, e: Event, c: Addr): int {
    match e
    case Struck(x, t) => if x == c then t else clock
    case Began(x) => if x == c then 0 else clock
    case _ => clock
  }

  /** The clock of context `c`. */
  ghost function ClockOf(log: Log, c: Addr): int {
    if log == [] then -1 else ClockAfter(ClockOf(log[..|log| - 1], c), log[|log| - 1], c)
  }

  ghost function WhereAfter(at: Addr, e: Event, k: int): Addr {
    match e
    case Entered(x, c) => if x == k then c else at
    case Left(x, _) => if x == k then NULL else at
    case _ => at
  }

  /** The context on whose list socket `k` is. */
  ghost function WhereIs(log: Log, k: int): Addr {
    if log == [] then NULL else WhereAfter(WhereIs(log[..|log| - 1], k), log[|log| - 1], k)
  }

  lemma Appended(log: Log, e: Event)
    ensures forall timer, k :: RingOf(log + [e], timer, k) == RingAfter(RingOf(log, timer, k), log, e, timer, k)
    ensures forall c :: ClockOf(log + [e], c) == ClockAfter(ClockOf(log, c), e, c)
    ensures forall k :: WhereIs(log + [e], k) == WhereAfter(WhereIs(log, k), e, k)
  {
    assert (log + [e])[..|log + [e]| - 1] == log;
  }

  // ---- The law

  /** The call of a timeout handler. */
  ghost predicate IsRing(e: Event) {
    e.Called? && (e.handler == OnTimeout || e.handler == OnLongTimeout)
  }

  /** The timer just looked at is due in this very tick, and its handler was not called yet. */
  ghost predicate IsDue(past: Log, e: Event)
    requires e.Seen?
  {
    RingOf(past, e.timer, e.id) == Chime(Alarm(e.tick, []))
  }

  /** Event `i` is in order: sockets enter and leave contexts in turn, timers are armed while linked, clocks advance
      by one. The sweep looks at sockets of the context whose clock advanced, and the handler is called, right then,
      if and only if the timer is due; it is never called otherwise. */
  ghost predicate InOrder(log: Log, i: nat)
    requires i < |log|
  {
    match log[i]
    case Entered(k, c) => WhereIs(log[..i], k) == NULL && c != NULL
    case Left(k, c) => WhereIs(log[..i], k) == c
    case Set(_, k, _) => WhereIs(log[..i], k) != NULL
    case Struck(c, t) => t == ClockOf(log[..i], c) + 1
    case Seen(timer, k, c, t) =>
      && WhereIs(log[..i], k) == c && ClockOf(log[..i], c) == t
      && (IsDue(log[..i], log[i]) <==> i + 1 < |log| && log[i + 1] == Called(HandlerOf(timer), k))
    case Called(h, k) => IsRing(log[i]) ==>
                i > 0 && log[i - 1].Seen? && log[i - 1].id == k && HandlerOf(log[i - 1].timer) == h
    case _ => true
  }

  ghost predicate Orderly(log: Log) {
    forall i | 0 <= i < |log| :: InOrder(log, i)
  }

  /** What may come next, but for the call of a timeout handler. */
  ghost predicate Fits(log: Log, e: Event) {
    match e
    case Entered(k, c) => WhereIs(log, k) == NULL && c != NULL
    case Left(k, c) => WhereIs(log, k) == c
    case Set(_, k, _) => WhereIs(log, k) != NULL
    case Struck(c, t) => t == ClockOf(log, c) + 1
    case Seen(timer, k, c, t) => WhereIs(log, k) == c && ClockOf(log, c) == t && !IsDue(log, e)
    case Called(_, _) => !IsRing(e)
    case _ => true
  }

  lemma OrderKept(log: Log, more: Log, i: nat)
    requires i < |log| && InOrder(log, i) && (i + 1 == |log| && log[i].Seen? ==> more == [] || !IsRing(more[0]))
    ensures InOrder(log + more, i)
  {
    hide IsDue, WhereIs, ClockOf;
    assert (log + more)[..i] == log[..i];
  }

  lemma FitsOrderly(log: Log, e: Event)
    requires Orderly(log) && Fits(log, e)
    ensures Orderly(log + [e])
  {
    hide IsDue, WhereIs, ClockOf, Fits, InOrder;
    var log' := log + [e];
    forall i | 0 <= i < |log'|
      ensures InOrder(log', i)
    {
      if i < |log| { OrderKept(log, [e], i) by { FitsNoRing(log, e); } } else { FitsInOrder(log, e); }
    }
  }

  lemma FitsNoRing(log: Log, e: Event)
    requires Fits(log, e)
    ensures !IsRing(e)
  {
    hide IsDue, WhereIs, ClockOf;
  }

  lemma FitsInOrder(log: Log, e: Event)
    requires Fits(log, e)
    ensures InOrder(log + [e], |log|)
  {
    hide WhereIs, ClockOf, RingOf;
    assert (log + [e])[..|log|] == log;
  }

  /** A timer that is due is seen, and its handler called. */
  lemma DueOrderly(log: Log, e: Event)
    requires Orderly(log) && e.Seen? && IsDue(log, e) && WhereIs(log, e.id) == e.context
             && ClockOf(log, e.context) == e.tick
    ensures Orderly(log + [e] + [Called(HandlerOf(e.timer), e.id)])
  {
    hide InOrder, WhereIs, ClockOf, RingOf, IsDue;
    var call := Called(HandlerOf(e.timer), e.id);
    var log' := log + [e, call];
    assert log' == log + [e] + [call];
    forall i | 0 <= i < |log'|
      ensures InOrder(log', i)
    {
      if i < |log| { OrderKept(log, [e, call], i); } else { DueInOrder(log, e, i); }
    }
  }

  lemma DueInOrder(log: Log, e: Event, i: nat)
    requires e.Seen? && IsDue(log, e) && WhereIs(log, e.id) == e.context && ClockOf(log, e.context) == e.tick
             && |log| <= i < |log| + 2
    ensures InOrder(log + [e, Called(HandlerOf(e.timer), e.id)], i)
  {
    hide WhereIs, ClockOf, RingOf;
    var log' := log + [e, Called(HandlerOf(e.timer), e.id)];
    assert log'[..|log|] == log;
  }

  // ---- What the law means for a timer

  /** From event `n` on socket `k` stays linked and its timer is not set again. */
  ghost predicate Undisturbed(log: Log, n: nat, timer: Timer, k: int) {
    forall i | n <= i < |log| :: !Disturbs(log[i], timer, k)
  }

  ghost predicate Disturbs(e: Event, timer: Timer, k: int) {
    (e.Left? && e.id == k) || ((e.Set? || e.Unset?) && e.timer == timer && e.id == k)
  }

  /** The ticks in which the handler of a timer of `k` was called from event `n` on. */
  ghost function CallTicks(log: Log, n: nat, timer: Timer, k: int): seq<int> {
    if |log| <= n then []
    else
      var past := log[..|log| - 1];
      CallTicks(past, n, timer, k) + (if log[|log| - 1] == Called(HandlerOf(timer), k) then [TickNow(past)] else [])
  }

  lemma {:induction false} RingStory(log: Log, n: nat, timer: Timer, k: int, due: int)
    requires n <= |log| && RingOf(log[..n], timer, k) == Chime(Alarm(due, [])) && Undisturbed(log, n, timer, k)
    ensures RingOf(log, timer, k) == Chime(Alarm(due, CallTicks(log, n, timer, k)))
    decreases |log|
  {
    if |log| == n {
      assert log[..n] == log;
    } else {
      var past := log[..|log| - 1];
      assert past[..n] == log[..n];
      RingStory(past, n, timer, k, due);
      assert !Disturbs(log[|log| - 1], timer, k);
    }
  }

  /** While a socket does not leave, it is where it was. */
  lemma {:induction false} StillThere(log: Log, n: nat, m: nat, timer: Timer, k: int)
    requires Orderly(log) && n <= m <= |log| && WhereIs(log[..n], k) != NULL && Undisturbed(log, n, timer, k)
    ensures WhereIs(log[..m], k) == WhereIs(log[..n], k)
    decreases m
  {
    if m > n {
      StillThere(log, n, m - 1, timer, k);
      assert log[..m][..m - 1] == log[..m - 1] && log[..m][m - 1] == log[m - 1];
      assert InOrder(log, m - 1) && !Disturbs(log[m - 1], timer, k);
    }
  }

  /** The handler was called right after the sweep of context `c` looked at the timer in tick `t`. */
  ghost predicate CalledIn(log: Log, j: nat, timer: Timer, k: int, c: Addr, t: int) {
    0 < j < |log| && log[j] == Called(HandlerOf(timer), k) && log[j - 1] == Seen(timer, k, c, t)
  }

  ghost predicate NeverCalled(log: Log, n: nat, timer: Timer, k: int) {
    forall i | n <= i < |log| :: log[i] != Called(HandlerOf(timer), k)
  }

  /** From event `n` on the handler was called once, in tick `t` of context `c`. */
  ghost predicate CalledOnceIn(log: Log, n: nat, timer: Timer, k: int, c: Addr, t: int) {
    exists j | n <= j < |log| :: CalledIn(log, j, timer, k, c, t) && NeverCalled(log[..j], n, timer, k)
        && NeverCalled(log, j + 1, timer, k)
  }

  lemma {:induction false} NoTicksNoCalls(log: Log, n: nat, timer: Timer, k: int)
    requires CallTicks(log, n, timer, k) == []
    ensures NeverCalled(log, n, timer, k)
    decreases |log|
  {
    if |log| > n {
      NoTicksNoCalls(log[..|log| - 1], n, timer, k);
      forall i | n <= i < |log|
        ensures log[i] != Called(HandlerOf(timer), k)
      {
        if i < |log| - 1 { assert log[..|log| - 1][i] == log[i]; }
      }
    }
  }

  lemma {:induction false} OneTickOneCall(log: Log, n: nat, timer: Timer, k: int, t: int) returns (j: nat)
    requires CallTicks(log, n, timer, k) == [t]
    ensures n <= j < |log| && log[j] == Called(HandlerOf(timer), k) && TickNow(log[..j]) == t
    ensures NeverCalled(log[..j], n, timer, k) && NeverCalled(log, j + 1, timer, k)
    decreases |log|
  {
    var past := log[..|log| - 1];
    if log[|log| - 1] == Called(HandlerOf(timer), k) {
      j := |log| - 1;
      assert |CallTicks(past, n, timer, k)| == 0;
      assert CallTicks(log, n, timer, k)[0] == TickNow(past);
      NoTicksNoCalls(past, n, timer, k);
    } else {
      assert CallTicks(past, n, timer, k) + [] == CallTicks(past, n, timer, k);
      j := OneTickOneCall(past, n, timer, k, t);
      assert past[..j] == log[..j] && past[j] == log[j];
      forall i | j + 1 <= i < |log|
        ensures log[i] != Called(HandlerOf(timer), k)
      {
        if i < |past| { assert past[i] == log[i]; }
      }
    }
  }

  /** A timer that was set, and not disturbed since: its alarm tells of all calls of its handler since. */
  lemma CallsOf(log: Log, n: nat, timer: Timer, k: int, c: Addr, due: int)
    requires Orderly(log) && 0 < n <= |log| && log[n - 1] == Set(timer, k, due) && Undisturbed(log, n, timer, k)
    requires WhereIs(log[..n], k) == c && c != NULL
    ensures WhereIs(log, k) == c && RingOf(log, timer, k).Chime? && RingOf(log, timer, k).alarm.due == due
    ensures var fired := RingOf(log, timer, k).alarm.fired;
            && (fired == [] ==> NeverCalled(log, n, timer, k))
            && (forall t | fired == [t] :: CalledOnceIn(log, n, timer, k, c, t))
  {
    hide WhereIs, RingOf, CallTicks, Orderly;
    SetRings(log[..n - 1], timer, k, due);
    assert log[..n] == log[..n - 1] + [log[n - 1]];
    RingStory(log, n, timer, k, due);
    StillThere(log, n, |log|, timer, k);
    assert log[..|log|] == log;
    var fired := CallTicks(log, n, timer, k);
    if fired == [] {
      NoTicksNoCalls(log, n, timer, k);
    } else if |fired| == 1 {
      var j := OneTickOneCall(log, n, timer, k, fired[0]);
      CallSeen(log, n, j, timer, k, c, fired[0]);
    }
  }

  lemma SetRings(past: Log, timer: Timer, k: int, due: int)
    ensures RingOf(past + [Set(timer, k, due)], timer, k) == Chime(Alarm(due, []))
  {
    hide RingOf;
    Appended(past, Set(timer, k, due));
  }

  lemma CallSeen(log: Log, n: nat, j: nat, timer: Timer, k: int, c: Addr, t: int)
    requires Orderly(log) && 0 < n <= j < |log| && log[n - 1].Set? && Undisturbed(log, n, timer, k)
             && WhereIs(log[..n], k) == c && c != NULL
    requires log[j] == Called(HandlerOf(timer), k) && TickNow(log[..j]) == t
    ensures CalledIn(log, j, timer, k, c, t)
  {
    hide WhereIs, RingOf;
    assert InOrder(log, j) && InOrder(log, j - 1);
    assert log[..j][j - 1] == log[j - 1];
    StillThere(log, n, j - 1, timer, k);
  }

  // ---- A timer that is not set

  ghost predicate NotSet(log: Log, n: nat, timer: Timer, k: int) {
    forall i | n <= i < |log| :: !(log[i].Set? && log[i].timer == timer && log[i].id == k)
  }

  lemma {:induction false} StaysSilent(log: Log, n: nat, m: nat, timer: Timer, k: int)
    requires n <= m <= |log| && RingOf(log[..n], timer, k) == Silent && NotSet(log, n, timer, k)
    ensures RingOf(log[..m], timer, k) == Silent
    decreases m
  {
    if m > n {
      StaysSilent(log, n, m - 1, timer, k);
      assert log[..m][..m - 1] == log[..m - 1] && log[..m][m - 1] == log[m - 1];
    }
  }

  /** The handler of a timer that is not set is not called until it is. */
  lemma SilentTillSet(log: Log, n: nat, timer: Timer, k: int)
    requires Orderly(log) && n <= |log| && RingOf(log[..n], timer, k) == Silent && NotSet(log, n, timer, k)
    ensures NeverCalled(log, n, timer, k)
  {
    hide RingOf, WhereIs, ClockOf, NotSet;
    forall i | n <= i < |log|
      ensures log[i] != Called(HandlerOf(timer), k)
    {
      if log[i] == Called(HandlerOf(timer), k) {
        assert InOrder(log, i) && InOrder(log, i - 1);
        StaysSilent(log, n, i, timer, k);
        SeenRings(log, i, timer, k);
      }
    }
  }

  /** Looking at a timer does not change it. */
  lemma SeenRings(log: Log, i: nat, timer: Timer, k: int)
    requires 0 < i <= |log| && log[i - 1].Seen?
    ensures RingOf(log[..i], timer, k) == RingOf(log[..i - 1], timer, k)
  {
    hide RingOf;
    Appended(log[..i - 1], log[i - 1]);
    assert log[..i - 1] + [log[i - 1]] == log[..i];
  }
}
