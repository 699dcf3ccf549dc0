/** Moving a socket to another context, and its block to another address. */
module Adoption {
  import opened Threads
  import opened Polls
  import opened ReadyBatch
  import opened Chronicles
  import opened States
  import opened Linking
  import opened Relocating
  import opened Listed
  import opened Operations
  import W = Wheel

  /** Everything `realloc` and the re-registration change when a block moves from `s` to `n`. */
  ghost function MemResized(m: Mem, s: Addr, n: Addr): Mem
    requires s in m.fd && s in m.pollType && s in m.timeout && s in m.longTimeout && s in m.lowPrio && s in m.context
    requires s in m.prev && s in m.next && s in m.id
  {
    m.(heap := m.heap - {s} + {n},
       fd := Moved(m.fd, s, n), pollType := Moved(m.pollType, s, n),
       timeout := Moved(m.timeout, s, n), longTimeout := Moved(m.longTimeout, s, n),
       lowPrio := Moved(m.lowPrio, s, n), context := Moved(m.context, s, n),
       prev := Moved(m.prev, s, n), next := Moved(m.next, s, n),
       id := Moved(m.id, s, n), owner := m.owner[m.id[s] := n],
       kernel := m.kernel[m.fd[s] := Registration(Events(m.pollType[s]), n)])
  }

  /** The memory after a resize of `s` that returned `n`. */
  ghost function MemMoved(m: Mem, s: Addr, n: Addr): Mem
    requires s in m.fd && s in m.pollType && s in m.timeout && s in m.longTimeout && s in m.lowPrio && s in m.context
    requires s in m.prev && s in m.next && s in m.id
  {
    if n == s then m else MemResized(m, s, n)
  }

  ghost function BatchMoved(rs: seq<Ready>, s: Addr, n: Addr): seq<Ready> {
    if n == s then rs else Redirected(rs, Poll(s), Poll(n))
  }

  ghost function MemDisarmed(m: Mem, s: Addr): Mem {
    m.(timeout := m.timeout[s := W.NEVER], longTimeout := m.longTimeout[s := W.NEVER])
  }

  /** The memory after the neighbours of `n` in the low-priority queue were patched. */
  ghost function MemPatched(m: Mem, n: Addr): Mem
    requires n in m.prev && n in m.next && Queued in m.heads
  {
    m.(prev := if m.next[n] != NULL then m.prev[m.next[n] := n] else m.prev,
       next := if m.prev[n] != NULL then m.next[m.prev[n] := n] else m.next,
       heads := m.heads[Queued := if m.prev[n] == NULL then n else m.heads[Queued]])
  }

  lemma DisarmedMem(st: State, s: Addr)
    requires Whole(st, s) && s in st.g.place && !st.g.place[s].Linked?
    ensures Disarmed(st, s) == st.(m := MemDisarmed(st.m, s))
  {
    hide Rearmed;
  }

  lemma MovedFacts(st: State, s: Addr, n: Addr)
    requires Inv(st) && s in st.g.place && (st.g.place[s] == Loose || st.g.place[s] == Queued)
             && (n == s || Movable(st, s, n))
    ensures Whole(st, s)
    ensures var m := MemMoved(st.m, s, n);
            && n in m.timeout && n in m.longTimeout && n in m.lowPrio && m.lowPrio[n] == st.m.lowPrio[s]
            && n in m.prev && n in m.next && m.prev[n] == st.m.prev[s] && m.next[n] == st.m.next[s]
            && m.heads == st.m.heads
    ensures Whole(Resized(st, s, n), n) && Resized(st, s, n).g.place[n] == st.g.place[s]
  {
    hide Inv, Redirected, Moved, Relocated, Events;
    Live(st, s);
    ResizedKeeps(st, s, n);
    MovedHere(st.m.timeout, s, n);
    MovedHere(st.m.longTimeout, s, n);
    MovedHere(st.m.lowPrio, s, n);
    MovedHere(st.m.prev, s, n);
    MovedHere(st.m.next, s, n);
    MovedHere(st.g.place, s, n);
  }

  /** A resize of a loose socket is complete. */
  lemma ResizedBlock(st: State, s: Addr, n: Addr)
    requires Inv(st) && s in st.g.place && st.g.place[s] == Loose && (n == s || Movable(st, s, n))
    ensures Whole(st, s)
    ensures n in MemMoved(st.m, s, n).timeout && n in MemMoved(st.m, s, n).longTimeout
    ensures var d := Disarmed(Resized(st, s, n), n);
            d.m == MemDisarmed(MemMoved(st.m, s, n), n) && d.batch == BatchMoved(st.batch, s, n) && d.limit == st.limit
  {
    hide Inv, Redirected, Rearmed, Moved, Events, Disarmed;
    Live(st, s);
    MovedFacts(st, s, n);
    DisarmedMem(Resized(st, s, n), n);
  }

  /** After a resize of a queued one, its neighbours have to be patched. */
  lemma QueuedBlock(st: State, s: Addr, n: Addr, c: Addr)
    requires Inv(st) && s in st.g.place && st.g.place[s] == Queued && (n == s || Movable(st, s, n))
    ensures Whole(st, s)
    ensures var m := MemMoved(st.m, s, n);
            && n in m.timeout && n in m.longTimeout && n in m.prev && n in m.next && Queued in m.heads
            && m.prev[n] != n && m.next[n] != n
            && Adopting(st, c, s, n).m == MemPatched(MemDisarmed(m, n), n)
    ensures Adopting(st, c, s, n).batch == BatchMoved(st.batch, s, n) && Adopting(st, c, s, n).limit == st.limit
  {
    hide Inv, Redirected, Moved, Disarmed, Relocated, Joined, MemPatched, MemDisarmed;
    Live(st, s);
    MovedFacts(st, s, n);
    DisarmedMem(Resized(st, s, n), n);
    if n == s { PatchInPlace(st, s); } else { PatchMoved(st, s, n); }
  }

  lemma PatchInPlace(st: State, s: Addr)
    requires Inv(st) && s in st.g.place && st.g.place[s] == Queued
    ensures Whole(st, s) && st.m.prev[s] != s && st.m.next[s] != s
    ensures MemPatched(MemDisarmed(st.m, s), s) == MemDisarmed(st.m, s)
  {
    hide Inv;
    UnthreadedFacts(st, s);
    BackPointers(st, s);
    Live(st, s);
    assert st.m.heads[Queued := st.m.heads[Queued]] == st.m.heads;
    if st.m.prev[s] != NULL { assert st.m.next[st.m.prev[s] := s] == st.m.next; }
    if st.m.next[s] != NULL { assert st.m.prev[st.m.next[s] := s] == st.m.prev; }
  }

  lemma PatchMoved(st: State, s: Addr, n: Addr)
    requires Inv(st) && s in st.g.place && st.g.place[s] == Queued && Movable(st, s, n)
    ensures Whole(st, s) && st.m.prev[s] != n && st.m.next[s] != n
    ensures n in MemResized(st.m, s, n).prev && n in MemResized(st.m, s, n).next
    ensures MemDisarmed(Relocated(st, s, n).m, n) == MemPatched(MemDisarmed(MemResized(st.m, s, n), n), n)
    ensures Relocated(st, s, n).batch == Redirected(st.batch, Poll(s), Poll(n)) && Relocated(st, s, n).limit == st.limit
  {
    hide Inv, Moved, Events, Index, Redirected;
    Live(st, s);
    MovableFacts(st, s, n);
    NeverFresh(st, s, n);
    MovedHere(st.m.prev, s, n);
    MovedHere(st.m.next, s, n);
  }

  /** The neighbours of a listed socket point back to it. */
  lemma BackPointers(st: State, s: Addr)
    requires Inv(st) && Threadable(st, s)
    ensures Whole(st, s)
    ensures st.m.prev[s] != NULL ==> st.m.prev[s] in st.m.next && st.m.next[st.m.prev[s]] == s
    ensures st.m.next[s] != NULL ==> st.m.next[s] in st.m.prev && st.m.prev[st.m.next[s]] == s
  {
    hide Blocks, Marked, Located, Hosted, Wired, Typed, Owned, Awaited, Batched, Clocked, Alarmed, Walked, Ringed,
         Logged, Budgeted, Chronicled, Stacked;
    Live(st, s);
    var p := st.g.place[s];
    var l := st.g.rolls[p];
    assert s in l && Chained(st.m.prev, st.m.next, l, st.m.heads[p]);
    Neighbours(st.m.prev, st.m.next, l, st.m.heads[p], s);
    var k := Index(l, s);
    if st.m.prev[s] != NULL { assert st.m.next[l[k - 1]] == At(l, k); }
    if st.m.next[s] != NULL { assert st.m.prev[l[k + 1]] == At(l, k); }
  }

  lemma NeverFresh(st: State, s: Addr, n: Addr)
    requires Inv(st) && Threadable(st, s) && n !in st.m.prev && n !in st.m.next && n != NULL
    ensures Whole(st, s) && st.m.prev[s] != n && st.m.next[s] != n
  {
    hide Inv;
    UnthreadedFacts(st, s);
  }
}
