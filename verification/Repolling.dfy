/** The steps that change the type or interest of a poll, and the short writes that are owed a writable event. */
module Repolling {
  import opened Threads
  import opened Polls
  import opened Journal
  import opened Chronicles
  import opened States
  import opened Facts

  /** `t` may become the cached type and interest of `s`: a socket that is owed a writable event goes on polling for it.
      */
  ghost predicate Repollable(st: State, s: Addr, t: bv4) {
    && s in st.g.place && st.g.place[s] != Closed && KindFits(st.g.place[s], t)
    && (s in st.m.id && st.m.id[s] in st.g.debts ==> Kind(t) == POLL_TYPE_SOCKET && Events(t).writable)
  }

  ghost function Repolled(st: State, s: Addr, t: bv4): State {
    if !Whole(st, s) then st else
    st.(m := st.m.(pollType := st.m.pollType[s := t],
                   kernel := st.m.kernel[st.m.fd[s] := Registration(Events(t), s)]))
  }

  lemma WiredRepoll(open: set<Addr>, fd: map<Addr, int>, pollType: map<Addr, bv4>, kernel: map<int, Registration>,
                    s: Addr, t: bv4)
    requires Wired(open, fd, pollType, kernel) && s in open
    ensures s in fd && Wired(open, fd, pollType[s := t], kernel[fd[s] := Registration(Events(t), s)])
  {
  }

  lemma AwaitedRepoll(debts: set<int>, owner: map<int, Addr>, open: set<Addr>, pollType: map<Addr, bv4>, id: map<Addr,
                      int>, nextId: int,
                      s: Addr, t: bv4)
    requires Awaited(debts, owner, open, pollType) && Owned(id, owner, nextId) && s in id && s in open
    requires id[s] in debts ==> Kind(t) == POLL_TYPE_SOCKET && Events(t).writable
    ensures Awaited(debts, owner, open, pollType[s := t])
  {
    hide Kind, Events;
  }

  lemma TypedRepoll(place: map<Addr, Place>, pollType: map<Addr, bv4>, s: Addr, t: bv4)
    requires Typed(place, pollType) && s in place && KindFits(place[s], t)
    ensures Typed(place, pollType[s := t])
  {
  }

  lemma RepolledKeeps(st: State, s: Addr, t: bv4)
    requires Inv(st) && Repollable(st, s, t)
    ensures Inv(Repolled(st, s, t))
  {
    hide Blocks, Threaded, Marked, Located, Hosted, Wired, Typed, Owned, Awaited, Batched, Clocked, Alarmed, Walked,
         Ringed, Logged, Budgeted, Chronicled;
    hide Swept, Unseen, UnseenLong, KindFits, Kind, Events;
    Live(st, s);
    WiredRepoll(Open(st.g.place), st.m.fd, st.m.pollType, st.m.kernel, s, t);
    AwaitedRepoll(st.g.debts, st.m.owner, Open(st.g.place), st.m.pollType, st.m.id, st.m.nextId, s, t);
    TypedRepoll(st.g.place, st.m.pollType, s, t);
    KeysKept(st.m.pollType, s, t);
  }

  /** A write on `s` fell short. */
  ghost function Indebted(st: State, s: Addr): State {
    if s !in st.m.id then st else
    st.(m := st.m.(lastWriteFailed := true),
        g := st.g.(debts := st.g.debts + {st.m.id[s]},
                   log := st.g.log + [FellShort(st.m.id[s])]))
  }

  /** `s` is being shut down. */
  ghost function Forgiven(st: State, s: Addr): State {
    if s !in st.m.id then st else
    st.(g := st.g.(debts := st.g.debts - {st.m.id[s]},
                   log := st.g.log + [HalfShut(st.m.id[s])]))
  }

  /** A writable event for `s`: its handler is called. */
  ghost function Answered(st: State, s: Addr): State {
    if s !in st.m.id then st else
    st.(m := st.m.(lastWriteFailed := false),
        g := st.g.(debts := st.g.debts - {st.m.id[s]},
                   log := st.g.log + [Called(OnWritable, st.m.id[s])]))
  }

  lemma AwaitedMore(debts: set<int>, owner: map<int, Addr>, open: set<Addr>, pollType: map<Addr, bv4>, k: int)
    requires Awaited(debts, owner, open, pollType) && k in owner && owner[k] in open && owner[k] in pollType
    requires Kind(pollType[owner[k]]) == POLL_TYPE_SOCKET && Events(pollType[owner[k]]).writable
    ensures Awaited(debts + {k}, owner, open, pollType)
  {
    hide Kind, Events;
  }

  lemma AwaitedLess(debts: set<int>, owner: map<int, Addr>, open: set<Addr>, pollType: map<Addr, bv4>, k: int)
    requires Awaited(debts, owner, open, pollType)
    ensures Awaited(debts - {k}, owner, open, pollType)
  {
    hide Kind, Events;
  }

  lemma LoggedOpen(log: Log, owner: map<int, Addr>, open: set<Addr>, nextId: int, e: Event)
    requires Logged(log, owner, open, nextId) && (e.FellShort? || e.HalfShut? || (e.Called? && e.handler == OnWritable))
    requires e.id in owner && owner[e.id] in open
    ensures Logged(log + [e], owner, open, nextId)
  {
    Append(log, e);
  }

  lemma IndebtedKeeps(st: State, s: Addr)
    requires Inv(st) && s in st.g.place && st.g.place[s] != Closed && s in st.m.pollType
    requires Kind(st.m.pollType[s]) == POLL_TYPE_SOCKET && Events(st.m.pollType[s]).writable
    ensures Inv(Indebted(st, s))
  {
    hide Blocks, Threaded, Marked, Located, Hosted, Wired, Typed, Owned, Awaited, Batched, Clocked, Alarmed, Walked,
         Ringed, Logged, Budgeted, Chronicled;
    hide Open, Swept, Unseen, UnseenLong, Dropped, Without, BypassPrev, BypassNext, BypassHead;
    hide Kind, Events;
    KernelFacts(st, s);
    var k := st.m.id[s];
    AwaitedMore(st.g.debts, st.m.owner, Open(st.g.place), st.m.pollType, k);
    LoggedOpen(st.g.log, st.m.owner, Open(st.g.place), st.m.nextId, FellShort(k));
    Append(st.g.log, FellShort(k));
    NeutralKeeps(st.g.log, FellShort(k), st.m.owner, st.g.place, st.m.tick, st.g.alarms, st.g.longAlarms);
  }

  lemma ForgivenKeeps(st: State, s: Addr)
    requires Inv(st) && s in st.g.place && st.g.place[s] != Closed
    ensures Inv(Forgiven(st, s))
  {
    hide Blocks, Threaded, Marked, Located, Hosted, Wired, Typed, Owned, Awaited, Batched, Clocked, Alarmed, Walked,
         Ringed, Logged, Budgeted, Chronicled;
    hide Open, Swept, Unseen, UnseenLong, Dropped, Without, BypassPrev, BypassNext, BypassHead;
    KernelFacts(st, s);
    var k := st.m.id[s];
    AwaitedLess(st.g.debts, st.m.owner, Open(st.g.place), st.m.pollType, k);
    LoggedOpen(st.g.log, st.m.owner, Open(st.g.place), st.m.nextId, HalfShut(k));
    Append(st.g.log, HalfShut(k));
    NeutralKeeps(st.g.log, HalfShut(k), st.m.owner, st.g.place, st.m.tick, st.g.alarms, st.g.longAlarms);
  }

  lemma AnsweredKeeps(st: State, s: Addr)
    requires Inv(st) && s in st.g.place && st.g.place[s] != Closed
    ensures Inv(Answered(st, s))
  {
    hide Blocks, Threaded, Marked, Located, Hosted, Wired, Typed, Owned, Awaited, Batched, Clocked, Alarmed, Walked,
         Ringed, Logged, Budgeted, Chronicled;
    hide Open, Swept, Unseen, UnseenLong, Dropped, Without, BypassPrev, BypassNext, BypassHead;
    KernelFacts(st, s);
    var k := st.m.id[s];
    AwaitedLess(st.g.debts, st.m.owner, Open(st.g.place), st.m.pollType, k);
    LoggedOpen(st.g.log, st.m.owner, Open(st.g.place), st.m.nextId, Called(OnWritable, k));
    Append(st.g.log, Called(OnWritable, k));
    NeutralKeeps(st.g.log, Called(OnWritable, k), st.m.owner, st.g.place, st.m.tick, st.g.alarms, st.g.longAlarms);
  }

  lemma DebtFacts(st: State, s: Addr)
    requires Inv(st) && s in st.g.place && s in st.m.id && s in st.m.pollType
    ensures st.m.id[s] in st.g.debts ==> Kind(st.m.pollType[s]) == POLL_TYPE_SOCKET && Events(st.m.pollType[s]).writable
  {
    hide Blocks, Threaded, Marked, Located, Hosted, Wired, Typed, Batched, Clocked, Alarmed, Walked, Ringed, Logged,
         Budgeted, Chronicled, Events, Kind;
  }
}
