/** The low-priority queue, and letting sockets back out of it. */
module Holding {
  import opened Threads
  import opened Polls
  import opened Chronicles
  import opened States
  import opened Facts
  import opened Unlinking
  import opened Linking
  import opened Repolling
  import opened Budgets
  import opened Listed
  import opened Evolution

  ghost function LetIn(st: State, s: Addr): State {
    if !Whole(st, s) then st else
    var e := Joined(Granted(Spent(Unthreaded(st, s)), s), s, Linked(st.m.context[s]));
    Repolled(e, s, LetInType(st.m.pollType[s]))
  }

  /** The cached type and interest of a socket that may read again. */
  ghost function LetInType(t: bv4): bv4 {
    WithEvents(t, Events(t).(readable := true))
  }

  lemma LetInTypes(c: Addr, t: bv4)
    ensures KindFits(Queued, t) ==> KindFits(Linked(c), t) && KindFits(Linked(c), LetInType(t))
    ensures Kind(LetInType(t)) == Kind(t) && Events(LetInType(t)) == Events(t).(readable := true)
  {
  }

  lemma LetInJoinable(st: State, s: Addr)
    requires Inv(st) && s in st.g.place && st.g.place[s] == Queued && st.m.budget > 0
    ensures Whole(st, s)
    ensures var d := Granted(Spent(Unthreaded(st, s)), s);
            && Inv(d) && Joinable(d, s, Linked(st.m.context[s])) && d.m.pollType == st.m.pollType && d.m.id == st.m.id
            && d.g.debts == st.g.debts
            && d.g.place == st.g.place[s := Loose] && d.m.context == st.m.context
  {
    hide Inv, Without, BypassPrev, BypassNext, BypassHead, KindFits;
    Live(st, s);
    ClosedFacts(st, s);
    UnthreadedKeeps(st, s);
    SpentKeeps(Unthreaded(st, s));
    GrantedKeeps(Spent(Unthreaded(st, s)), s);
    LetInTypes(st.m.context[s], st.m.pollType[s]);
  }

  lemma LetInKeeps(st: State, s: Addr)
    requires Inv(st) && Settled(st) && s in st.g.place && st.g.place[s] == Queued && st.m.budget > 0
    ensures Whole(st, s)
    ensures var st' := LetIn(st, s); Inv(st') && Settled(st') && st'.g.place == st.g.place[s := Linked(st.m.context[s])]
  {
    hide Inv, Granted, Unthreaded, Spent, KindFits, PushPrev, PushNext, Rearmed, Events, Kind, LetInType;
    LetInJoinable(st, s);
    var c, d := st.m.context[s], Granted(Spent(Unthreaded(st, s)), s);
    JoinableFacts(d, s, Linked(c));
    JoinedKeeps(d, s, Linked(c));
    Live(d, s);
    var e := Joined(d, s, Linked(c));
    Live(e, s);
    DebtFacts(st, s);
    ClosedFacts(st, s);
    LetInTypes(c, st.m.pollType[s]);
    RepolledKeeps(e, s, LetInType(st.m.pollType[s]));
  }

  /** The memory after the head of the low-priority queue was taken off it. */
  ghost function MemPopped(m: Mem, s: Addr): Mem
    requires s in m.next
  {
    m.(heads := m.heads[Queued := m.next[s]],
       prev := if m.next[s] != NULL then m.prev[m.next[s] := NULL] else m.prev,
       next := m.next[s := NULL])
  }

  /** The memory after it was put back into context `c`, to read once. */
  ghost function MemLetIn(m: Mem, s: Addr, c: Addr): Mem
    requires Linked(c) in m.heads && s in m.pollType && s in m.fd
  {
    m.(heads := m.heads[Linked(c) := s],
       prev := PushPrev(m.prev, m.heads[Linked(c)], s), next := PushNext(m.next, m.heads[Linked(c)], s),
       lowPrio := m.lowPrio[s := 2], context := m.context[s := c],
       pollType := m.pollType[s := LetInType(m.pollType[s])],
       kernel := m.kernel[m.fd[s] := Registration(Events(m.pollType[s]).(readable := true), s)],
       budget := m.budget - 1)
  }

  lemma PoppedMem(st: State, s: Addr)
    requires Inv(st) && s in st.g.place && st.g.place[s] == Queued && Queued in st.m.heads && st.m.heads[Queued] == s
    ensures Whole(st, s)
    ensures Unthreaded(st, s) == st.(m := MemPopped(st.m, s).(next := st.m.next, lowPrio := st.m.lowPrio[s := 0]),
            g := Unthreaded(st, s).g)
  {
    hide Inv, Without;
    Live(st, s);
    HeadFacts(st, s);
  }

  lemma LetInMem(st: State, s: Addr)
    requires Inv(st) && Settled(st) && s in st.g.place && st.g.place[s] == Queued && st.m.budget > 0
    requires Queued in st.m.heads && st.m.heads[Queued] == s
    ensures Whole(st, s)
    ensures st.m.fd[s] in st.m.kernel && st.m.kernel[st.m.fd[s]] == Registration(Events(st.m.pollType[s]), s)
    ensures var c, m := st.m.context[s], MemPopped(st.m, s);
            && Linked(c) in m.heads && (m.heads[Linked(c)] != NULL ==> m.heads[Linked(c)] in m.prev)
            && LetIn(st, s) == st.(m := MemLetIn(m, s, c), g := LetIn(st, s).g)
  {
    hide Inv, KindFits, Rearmed, Events, Kind, LetInType, Unthreaded, PushPrev, JoinedCore;
    Live(st, s);
    KernelFacts(st, s);
    LetInJoinable(st, s);
    PoppedMem(st, s);
    var c, d := st.m.context[s], Granted(Spent(Unthreaded(st, s)), s);
    JoinableFacts(d, s, Linked(c));
    PushFacts(d, s, Linked(c));
    JoinedMem(d, s, c);
    LetInTypes(c, st.m.pollType[s]);
    assert st.m.next[s := NULL][s := d.m.heads[Linked(c)]] == st.m.next[s := d.m.heads[Linked(c)]];
    assert st.m.lowPrio[s := 0][s := 2] == st.m.lowPrio[s := 2];
    LetInWhole(st, s);
  }

  lemma LetInWhole(st: State, s: Addr)
    requires Inv(st) && s in st.g.place && st.g.place[s] == Queued && st.m.budget > 0
    ensures Whole(st, s)
    ensures Whole(Joined(Granted(Spent(Unthreaded(st, s)), s), s, Linked(st.m.context[s])), s)
  {
    hide Inv, KindFits, Rearmed, Unthreaded, PushPrev, PushNext;
    Live(st, s);
    LetInJoinable(st, s);
    var c, d := st.m.context[s], Granted(Spent(Unthreaded(st, s)), s);
    JoinableFacts(d, s, Linked(c));
    JoinedKeeps(d, s, Linked(c));
    Live(d, s);
    Live(Joined(d, s, Linked(c)), s);
  }

  lemma JoinedMem(st: State, s: Addr, c: Addr)
    requires Inv(st) && Joinable(st, s, Linked(c))
    ensures Whole(st, s) && IsList(st, Linked(c))
    ensures Joined(st, s, Linked(c)) ==
              st.(m := st.m.(heads := st.m.heads[Linked(c) := s], context := st.m.context[s := c],
                             prev := PushPrev(st.m.prev, st.m.heads[Linked(c)], s),
                                 next := PushNext(st.m.next, st.m.heads[Linked(c)], s)),
                  g := Joined(st, s, Linked(c)).g)
  {
    hide Inv, KindFits, Rearmed, PushPrev, PushNext;
    Live(st, s);
    JoinableFacts(st, s, Linked(c));
  }

  lemma BudgetKeeps(st: State)
    requires Inv(st) && st.g.lowReads + |st.g.delayed| + 5 <= 5 * st.m.iterationNr
    ensures Inv(st.(m := st.m.(budget := 5)))
  {
    hide Blocks, Threaded, Marked, Located, Hosted, Wired, Typed, Owned, Awaited, Batched, Clocked, Alarmed, Walked,
         Ringed, Logged, Chronicled;
    hide Open, Swept, Unseen, UnseenLong;
  }

  /** Since `start` the first `n` sockets of the queue went back to their contexts, to read once; nobody else moved. */
  ghost predicate LetBackIn(start: State, st: State, n: nat) {
    && Queued in start.g.rolls && Queued in st.g.rolls && n <= |start.g.rolls[Queued]|
    && st.g.rolls[Queued] == start.g.rolls[Queued][n..]
    && (forall i | 0 <= i < n :: LetBack(start, st, start.g.rolls[Queued][i]))
    && (forall a | a in start.g.place && a !in start.g.rolls[Queued][..n] ::
       a in st.g.place && st.g.place[a] == start.g.place[a])
    && (forall a | a in start.m.pollType && a !in start.g.rolls[Queued][..n] ::
       a in st.m.pollType && st.m.pollType[a] == start.m.pollType[a])
    && st.m.context == start.m.context && st.g.place.Keys == start.g.place.Keys
    && st.m.pollType.Keys == start.m.pollType.Keys
    && st.m.tick == start.m.tick && st.m.iterationNr == start.m.iterationNr && st.g.walk == start.g.walk
    && st.g.lowReads == start.g.lowReads && start.g.log <= st.g.log
  }

  /** It waits for data again, and for nothing else new. */
  ghost predicate LetBack(start: State, st: State, a: Addr) {
    && a in start.m.context && a in st.g.place && st.g.place[a] == Linked(start.m.context[a])
    && a in st.m.lowPrio && st.m.lowPrio[a] == 2 && a in start.m.pollType && a in st.m.pollType
    && Kind(st.m.pollType[a]) == Kind(start.m.pollType[a])
    && Events(st.m.pollType[a]) == Interest(true, Events(start.m.pollType[a]).writable)
  }

  lemma QueueFacts(start: State, st: State, n: nat)
    requires Inv(st)
    ensures Queued in st.m.heads && Queued in st.g.rolls && NoDup(st.g.rolls[Queued])
    ensures st.m.heads[Queued] == At(st.g.rolls[Queued], 0)
    ensures start.m == st.m.(budget := start.m.budget) && start.g == st.g ==> LetBackIn(start, st, 0)
    ensures LetBackIn(start, st, n) && st.m.heads[Queued] == NULL ==> n == |start.g.rolls[Queued]|
    ensures st.m.heads[Queued] != NULL ==> PlaceOf(st, st.m.heads[Queued]) == Queued
  {
    hide Blocks, Marked, Located, Hosted, Wired, Typed, Owned, Awaited, Batched, Clocked, Alarmed, Walked, Ringed,
         Logged, Budgeted, Chronicled, Stacked;
    var l := st.g.rolls[Queued];
    assert Chained(st.m.prev, st.m.next, l, st.m.heads[Queued]);
    assert forall i | 0 <= i < |l| :: l[i] != NULL;
    if l != [] { assert st.g.rolls[Queued][0] in st.g.place; }
  }

  lemma LetInFacts(start: State, st: State, s: Addr, n: nat)
    requires Inv(st) && Settled(st) && LetBackIn(start, st, n) && st.m.budget > 0
    requires Queued in st.m.heads && st.m.heads[Queued] == s && s != NULL
    ensures n < |start.g.rolls[Queued]| && PlaceOf(st, s) == Queued && s in st.g.place
    ensures var st' := LetIn(st, s);
            Queued in st'.m.heads && LetBackIn(start, st', n + 1) && st'.m.budget == st.m.budget - 1
  {
    hide Inv, LetIn, NoDup, At, LetBackIn, MemPopped, Events, Kind, LetInType;
    LetInFirst(start, st, s, n);
    QueueFacts(st, st, 0);
    LetInChanges(st, s);
    QueueFacts(st, LetIn(st, s), 0);
    LetInMore(start, st, LetIn(st, s), s, n);
  }

  lemma LetInMore(start: State, st: State, st': State, s: Addr, n: nat)
    requires LetBackIn(start, st, n) && n < |start.g.rolls[Queued]| && start.g.rolls[Queued][n] == s
    requires s in st.g.place && st.g.place[s] == Queued && s !in start.g.rolls[Queued][..n]
    requires LetInOnly(st, st', s)
    ensures LetBackIn(start, st', n + 1)
  {
    hide LetBack, Events, Kind, LetInType;
    var q := start.g.rolls[Queued];
    assert q[..n + 1] == q[..n] + [s];
    assert st.m.context[s := st.m.context[s]] == st.m.context;
    forall i | 0 <= i < n + 1
      ensures LetBack(start, st', q[i])
    {
      if i < n { LetBackKept(start, st, st', s, q[i]); } else { LetBackNow(start, st, st', s); }
    }
  }

  /** What letting `s` in changes. */
  ghost predicate LetInOnly(st: State, st': State, s: Addr) {
    && s in st.m.context && s in st.m.lowPrio && s in st.m.pollType && s in st.g.place
    && st'.g.place == st.g.place[s := Linked(st.m.context[s])]
    && st'.m.context == st.m.context[s := st.m.context[s]]
    && Queued in st.g.rolls && st.g.rolls[Queued] != []
    && Queued in st'.g.rolls && st'.g.rolls[Queued] == st.g.rolls[Queued][1..]
    && st'.m.lowPrio == st.m.lowPrio[s := 2]
    && st'.m.pollType == st.m.pollType[s := LetInType(st.m.pollType[s])]
    && st'.m.budget == st.m.budget - 1
    && st'.m.tick == st.m.tick && st'.m.iterationNr == st.m.iterationNr && st'.g.walk == st.g.walk
    && st'.g.lowReads == st.g.lowReads && st.g.log <= st'.g.log
  }

  lemma LetInChanges(st: State, s: Addr)
    requires Inv(st) && Settled(st) && s in st.g.place && st.g.place[s] == Queued && st.m.budget > 0
    requires Queued in st.m.heads && st.m.heads[Queued] == s
    requires Queued in st.g.rolls && st.g.rolls[Queued] != [] && st.g.rolls[Queued][0] == s && NoDup(st.g.rolls[Queued])
    ensures Inv(LetIn(st, s)) && LetInOnly(st, LetIn(st, s), s)
  {
    hide Inv, LetIn, NoDup, LetInType, Events, PushPrev;
    LetInKeeps(st, s);
    LetInWalk(st, s);
    LetInMem(st, s);
    LetInRolls(st, s);
    Live(st, s);
  }

  lemma LetInWalk(st: State, s: Addr)
    requires s in st.g.place && st.g.place[s] == Queued
    ensures LetIn(st, s).g.walk == st.g.walk && st.g.log <= LetIn(st, s).g.log
    ensures LetIn(st, s).g.lowReads == st.g.lowReads
  {
    hide KindFits, Rearmed, Events, Kind, LetInType, Without, PushPrev, PushNext, BypassPrev, BypassNext, BypassHead;
  }

  lemma LetBackKept(start: State, st: State, st': State, s: Addr, a: Addr)
    requires LetBack(start, st, a) && s in st.g.place && st.g.place[s] == Queued && s in st.m.context
             && s in st.m.pollType
    requires st'.g.place == st.g.place[s := Linked(st.m.context[s])]
    requires st'.m.lowPrio == st.m.lowPrio[s := 2] && st'.m.pollType == st.m.pollType[s := LetInType(st.m.pollType[s])]
    ensures LetBack(start, st', a)
  {
    hide Events, Kind, LetInType;
  }

  lemma LetBackNow(start: State, st: State, st': State, s: Addr)
    requires s in start.m.context && s in st'.g.place && st'.g.place[s] == Linked(start.m.context[s])
    requires s in st'.m.lowPrio && st'.m.lowPrio[s] == 2 && s in start.m.pollType && s in st.m.pollType
    requires st.m.pollType[s] == start.m.pollType[s]
    requires st'.m.pollType == st.m.pollType[s := LetInType(st.m.pollType[s])]
    ensures LetBack(start, st', s)
  {
    hide Events, Kind, LetInType;
    LetInTypes(NULL, st.m.pollType[s]);
  }

  lemma NotYetBack(start: State, st: State, s: Addr, n: nat)
    requires LetBackIn(start, st, n) && s in st.g.place && st.g.place[s] == Queued
    ensures s !in start.g.rolls[Queued][..n]
  {
    hide Events, Kind;
    var q := start.g.rolls[Queued];
    forall i | 0 <= i < n
      ensures q[..n][i] != s
    {
      assert LetBack(start, st, q[i]);
    }
  }

  lemma LetInFirst(start: State, st: State, s: Addr, n: nat)
    requires Inv(st) && LetBackIn(start, st, n) && Queued in st.m.heads && st.m.heads[Queued] == s && s != NULL
    ensures n < |start.g.rolls[Queued]| && start.g.rolls[Queued][n] == s && s in st.g.place && st.g.place[s] == Queued
    ensures s !in start.g.rolls[Queued][..n]
    ensures NoDup(st.g.rolls[Queued]) && st.g.rolls[Queued] != [] && st.g.rolls[Queued][0] == s
  {
    hide Inv, LetBack, NoDup;
    QueueFacts(start, st, n);
    NotYetBack(start, st, s, n);
  }

  lemma LetInRolls(st: State, s: Addr)
    requires Inv(st) && s in st.g.place && st.g.place[s] == Queued && st.m.budget > 0
    requires Queued in st.g.rolls && st.g.rolls[Queued] != [] && st.g.rolls[Queued][0] == s && NoDup(st.g.rolls[Queued])
    ensures Queued in LetIn(st, s).g.rolls && LetIn(st, s).g.rolls[Queued] == st.g.rolls[Queued][1..]
  {
    hide Inv, KindFits, Rearmed, Events, Kind, LetInType, Without, PushPrev, PushNext, NoDup;
    Live(st, s);
    LetInJoinable(st, s);
    HeadWithoutIt(st.g.rolls[Queued]);
  }
}
