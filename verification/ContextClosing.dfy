/** Closing a context: its lists drain onto the close list. */
module ContextClosing {
  import opened Threads
  import opened ReadyBatch
  import opened Journal
  import opened Chronicles
  import opened States
  import opened Unlinking
  import opened Releasing
  import opened Arming
  import opened Walking
  import opened Tracking
  import opened Evolution
  import opened Operations

  /** The socket that had block `a` in `start` still has it, and is on list `p`. */
  ghost predicate Sits(start: State, st: State, a: Addr, p: Place) {
    a in start.m.id && start.m.id[a] in Homes(st) && Homes(st)[start.m.id[a]] == Home(a, p)
  }

  /** The first `done` sockets that were on list `p` in `start` are closed, and the others are still on it. */
  ghost predicate Draining(start: State, st: State, p: Place, done: nat) {
    && p in start.g.rolls && p in st.g.rolls && done <= |start.g.rolls[p]|
    && st.g.rolls[p] == start.g.rolls[p][done..]
    && forall i | 0 <= i < |start.g.rolls[p]| :: Sits(start, st, start.g.rolls[p][i], if i < done then Closed else p)
  }

  /** All sockets that were on list `p` in `start` are closed. */
  ghost predicate Drained(start: State, st: State, p: Place) {
    && p in start.g.rolls && p in st.g.rolls && st.g.rolls[p] == []
    && forall i | 0 <= i < |start.g.rolls[p]| :: Sits(start, st, start.g.rolls[p][i], Closed)
  }

  function Reversed(l: seq<Addr>): seq<Addr> {
    if l == [] then [] else [l[|l| - 1]] + Reversed(l[..|l| - 1])
  }

  /** `l` was pushed on the close list, and the lists of other contexts and the queue are as they were. */
  ghost predicate OnlyDrained(start: State, st: State, c: Addr, l: seq<Addr>) {
    && Closed in start.g.rolls && Closed in st.g.rolls && st.g.rolls[Closed] == Reversed(l) + start.g.rolls[Closed]
    && forall q | q in start.g.rolls && q != Closed && q != Linked(c) && q != Listening(c) ::
       q in st.g.rolls && st.g.rolls[q] == start.g.rolls[q]
  }

  lemma ListedSits(st: State, p: Place, i: nat)
    requires Inv(st) && p in st.g.rolls && i < |st.g.rolls[p]|
    ensures Sits(st, st, st.g.rolls[p][i], p)
  {
    hide Marked, Located, Hosted, Wired, Typed, Owned, Awaited, Batched, Clocked, Alarmed, Walked, Ringed, Logged,
         Budgeted, Chronicled, Chained, Stacked;
    hide HomesIn;
    var a := st.g.rolls[p][i];
    assert a in st.g.place && st.g.place[a] == p;
    HomeOf(st, a);
  }

  lemma DrainStart(st: State, c: Addr, frozen: set<Addr>, pinned: set<int>)
    requires Inv(st) && c in st.m.ctxs
    ensures Listening(c) in st.g.rolls && Linked(c) in st.g.rolls
    ensures Draining(st, st, Listening(c), 0) && Draining(st, st, Linked(c), 0)
    ensures Listening(c) in st.m.heads && st.m.heads[Listening(c)] == At(st.g.rolls[Listening(c)], 0)
    ensures Evolves(st, st, frozen, pinned) && OnlyDrained(st, st, c, st.g.rolls[Listening(c)][..0])
  {
    hide Inv, Evolves, NoDup, Sits;
    ContextLists(st, c);
    ClosedListed(st);
    EvolvesRefl(st, frozen, pinned);
    forall i | 0 <= i < |st.g.rolls[Listening(c)]| { ListedSits(st, Listening(c), i); }
    forall i | 0 <= i < |st.g.rolls[Linked(c)]| { ListedSits(st, Linked(c), i); }
  }

  lemma ClosingRolls(st: State, s: Addr)
    requires Inv(st) && Threadable(st, s)
    ensures Whole(st, s) && Closed in st.g.rolls && st.g.place[s] in st.g.rolls
    ensures var p := st.g.place[s];
            Closing(st, s).g.rolls == st.g.rolls[p := Without(st.g.rolls[p], {s})][Closed := [s] + st.g.rolls[Closed]]
  {
    hide Inv, BypassPrev, BypassNext, BypassHead, Without, Dropped, Redirected;
    Live(st, s);
    ClosedListed(st);
    DetachedKeeps(st, s);
  }

  lemma SitsOn(start: State, st: State, a: Addr, p: Place)
    requires Inv(st) && Sits(start, st, a, p)
    ensures a in start.m.id && a in st.g.place && st.g.place[a] == p && Whole(st, a) && st.m.id[a] == start.m.id[a]
  {
    hide Inv;
    OwnerHome(st, start.m.id[a]);
  }

  lemma SitsKept(start: State, st: State, st': State, k: int, s: Addr, a: Addr, q: Place)
    requires Sits(start, st, a, q) && a != s && k in Homes(st) && Homes(st)[k].addr == s
             && Homes(st') == Homes(st)[k := Home(s, Closed)]
    ensures Sits(start, st', a, q)
  {
    hide HomesIn;
  }

  lemma DrainFront(start: State, st: State, p: Place, i: nat)
    requires Draining(start, st, p, i) && i < |start.g.rolls[p]| && NoDup(st.g.rolls[p])
    ensures var s, l := start.g.rolls[p][i], st.g.rolls[p];
            && l != [] && l[0] == s && s in l && Index(l, s) == 0 && At(l, 1) == At(start.g.rolls[p], i + 1)
            && Without(l, {s}) == start.g.rolls[p][i + 1..]
  {
    hide Sits, Without;
    HeadWithoutIt(st.g.rolls[p]);
  }

  lemma DrainSits(start: State, st: State, st': State, p: Place, i: nat, q: Place, j: nat, x: nat)
    requires Inv(st) && Draining(start, st, p, i) && Draining(start, st, q, j) && i < |start.g.rolls[p]|
             && x < |start.g.rolls[q]|
    requires NoDup(st.g.rolls[p]) && p != Closed && q != Closed && start.g.rolls[p][i] in st.m.id
    requires Homes(st') == Homes(st)[st.m.id[start.g.rolls[p][i]] := Home(start.g.rolls[p][i], Closed)]
    ensures Sits(start, st', start.g.rolls[q][x], if x < (if p == q then i + 1 else j) then Closed else q)
            || (p == q && i != j)
  {
    hide Inv, Homes, Sits;
    var s, a := start.g.rolls[p][i], start.g.rolls[q][x];
    assert Sits(start, st, s, p);
    assert Sits(start, st, a, if x < j then Closed else q);
    SitsOn(start, st, s, p);
    SitsOn(start, st, a, if x < j then Closed else q);
    HomeOf(st, s);
    if p == q && i == j {
      if x == i {
        SitsClosed(start, st', s);
      } else {
        if x > i { assert st.g.rolls[p][0] == s && st.g.rolls[p][x - i] == a; }
        SitsKept(start, st, st', st.m.id[s], s, a, if x < j then Closed else q);
      }
    } else if p != q {
      SitsKept(start, st, st', st.m.id[s], s, a, if x < j then Closed else q);
    }
  }

  lemma SitsClosed(start: State, st': State, s: Addr)
    requires s in start.m.id && start.m.id[s] in Homes(st') && Homes(st')[start.m.id[s]] == Home(s, Closed)
    ensures Sits(start, st', s, Closed)
  {
  }

  /** The first socket still on list `p` of context `c` is closed; `q` is the other list of `c`. */
  lemma DrainStep(start: State, st: State, c: Addr, p: Place, i: nat, q: Place, j: nat, l: seq<Addr>)
    requires Inv(st) && Settled(st) && (p == Linked(c) || p == Listening(c)) && (q == Linked(c) || q == Listening(c))
             && p != q
    requires Draining(start, st, p, i) && Draining(start, st, q, j) && i < |start.g.rolls[p]|
    ensures var s, st' := start.g.rolls[p][i], Closing(st, start.g.rolls[p][i]);
            && Threadable(st, s) && Whole(st, s) && st.g.place[s] == p && st.m.next[s] == At(start.g.rolls[p], i + 1)
            && Draining(start, st', p, i + 1) && Draining(start, st', q, j)
            && (OnlyDrained(start, st, c, l) ==> OnlyDrained(start, st', c, l + [s]))
  {
    hide Inv, Closing, Homes, Sits, NoDup, Index, Without;
    var s := start.g.rolls[p][i];
    var st' := Closing(st, s);
    SitsOn(start, st, s, p);
    ListedFacts(st, s);
    ClosingKeeps(st, s);
    ClosingRolls(st, s);
    HomeOf(st, s);
    DrainFront(start, st, p, i);
    forall x | 0 <= x < |start.g.rolls[p]|
      ensures Sits(start, st', start.g.rolls[p][x], if x < i + 1 then Closed else p)
    {
      DrainSits(start, st, st', p, i, p, i, x);
    }
    forall x | 0 <= x < |start.g.rolls[q]|
      ensures Sits(start, st', start.g.rolls[q][x], if x < j then Closed else q)
    {
      DrainSits(start, st, st', p, i, q, j, x);
    }
    assert (l + [s])[..|l|] == l;
  }

  lemma DrainEvolves(start: State, st: State, c: Addr, s: Addr, frozen: set<Addr>, pinned: set<int>)
    requires Inv(st) && Settled(st) && Threadable(st, s)
             && (st.g.place[s] == Linked(c) || st.g.place[s] == Listening(c))
    requires c !in frozen ==> Evolves(start, st, frozen, pinned)
    ensures c !in frozen ==> Evolves(start, Closing(st, s), frozen, pinned)
    ensures Closing(st, s).g.walk.Walk? <==> st.g.walk.Walk?
  {
    hide Inv, Evolves, Closing;
    ClosingWalks(st, s);
    if c !in frozen {
      ClosingEvolves(st, s, frozen, pinned);
      EvolvesTrans(start, st, Closing(st, s), frozen, pinned);
    }
  }

  lemma DrainEnd(start: State, st: State, c: Addr, p: Place, i: nat)
    requires Inv(start) && c in start.m.ctxs && (p == Linked(c) || p == Listening(c)) && Draining(start, st, p, i)
    requires p in start.g.rolls && (At(start.g.rolls[p], i) == NULL || i == |start.g.rolls[p]|)
    ensures i == |start.g.rolls[p]| && Drained(start, st, p)
  {
    hide Inv, NoDup, Sits;
    ContextLists(start, c);
    assert forall k | 0 <= k < |start.g.rolls[p]| :: start.g.rolls[p][k] != NULL;
  }

  lemma DrainHead(start: State, st: State, c: Addr)
    requires Inv(st) && Draining(start, st, Linked(c), 0) && Drained(start, st, Listening(c))
    ensures Linked(c) in start.g.rolls && Listening(c) in start.g.rolls
    ensures Linked(c) in st.m.heads && st.m.heads[Linked(c)] == At(start.g.rolls[Linked(c)], 0)
    ensures Draining(start, st, Listening(c), |start.g.rolls[Listening(c)]|)
    ensures start.g.rolls[Listening(c)] + start.g.rolls[Linked(c)][..0] == start.g.rolls[Listening(c)]
  {
    hide Inv, NoDup, Sits;
    ListLive(st, c);
    ContextLists(st, c);
  }

  lemma ListLive(st: State, c: Addr)
    requires Inv(st) && Linked(c) in st.g.rolls
    ensures c in st.m.ctxs
  {
    hide Blocks, Threaded, Marked, Located, Wired, Typed, Owned, Awaited, Batched, Clocked, Alarmed, Walked, Ringed,
         Logged, Budgeted, Chronicled;
  }

  lemma OnlyDrainedNoted(start: State, st: State, c: Addr, l: seq<Addr>, h: Handler, k: int)
    ensures OnlyDrained(start, st, c, l) ==> OnlyDrained(start, Noted(st, h, k), c, l)
  {
  }

  lemma HomeKept(h: map<int, Home>, h': map<int, Home>, k: int, frozen: set<Addr>)
    requires Remembers(h, h') && Spares(h, h', frozen) && k in h
             && (h[k].place == Closed || OffLimits(h[k].place, frozen))
    ensures k in h' && h'[k] == h[k]
  {
  }

  lemma SitsSpared(start: State, st: State, st': State, a: Addr, p: Place, frozen: set<Addr>, pinned: set<int>)
    requires Sits(start, st, a, p) && (p == Closed || OffLimits(p, frozen)) && Evolves(st, st', frozen, pinned)
    ensures Sits(start, st', a, p)
  {
    hide Homes, Remembers, Spares, OffLimits, Pins, NoNewQueued, KeepsClocks, KeepsContexts, WalksOn, OwesLess,
         Established, Freezes;
    HomeKept(Homes(st), Homes(st'), start.m.id[a], frozen);
  }

  lemma DrainKept(start: State, st: State, st': State, p: Place, i: nat, frozen: set<Addr>, pinned: set<int>)
    requires Draining(start, st, p, i) && OffLimits(p, frozen) && Evolves(st, st', frozen, pinned)
    ensures Draining(start, st', p, i)
  {
    hide HomesIn, Pins, NoNewQueued, KeepsClocks, KeepsContexts, WalksOn, OwesLess, EstablishedIn;
    forall x | 0 <= x < |start.g.rolls[p]|
      ensures Sits(start, st', start.g.rolls[p][x], if x < i then Closed else p)
    {
      SitsSpared(start, st, st', start.g.rolls[p][x], if x < i then Closed else p, frozen, pinned);
    }
  }

  /** After the `on_close` of a socket of `c`: the handler left the lists of `c` alone. */
  lemma DrainHandled(start: State, st: State, st': State, c: Addr, s: Addr, n: Addr, i: nat, j: nat, frozen: set<Addr>,
                     pinned: set<int>)
    requires Inv(st) && Settled(st) && Threadable(st, s) && st.g.place[s] == Linked(c) && s in st.m.id
    requires HandlerRan(Closing(st, s), OnClose, st.m.id[s], st', n, frozen + {c}, pinned)
    requires Draining(start, Closing(st, s), Linked(c), i) && Draining(start, Closing(st, s), Listening(c), j)
    requires c !in frozen ==> Evolves(start, st, frozen, pinned)
    ensures Draining(start, st', Linked(c), i) && Draining(start, st', Listening(c), j)
    ensures c !in frozen ==> Evolves(start, st', frozen, pinned)
    ensures st'.g.walk.Walk? <==> st.g.walk.Walk?
  {
    hide Inv, Evolves, Closing, Draining, Homes;
    ClosingKeeps(st, s);
    HandlerEvolves(Closing(st, s), OnClose, st.m.id[s], st', n, frozen + {c}, pinned);
    StillShows(Closing(st, s), st', frozen + {c}, pinned);
    ClosingWalks(st, s);
    DrainKept(start, Closing(st, s), st', Linked(c), i, frozen + {c}, pinned);
    DrainKept(start, Closing(st, s), st', Listening(c), j, frozen + {c}, pinned);
    if c !in frozen {
      DrainEvolves(start, st, c, s, frozen, pinned);
      EvolvesWeaker(Closing(st, s), st', frozen, frozen + {c}, pinned);
      EvolvesTrans(start, Closing(st, s), st', frozen, pinned);
    }
  }
}
