/** Freeing the close list, block by block. */
module Freeing {
  import opened Threads
  import opened Chronicles
  import opened States
  import opened Releasing
  import opened Evolution

  function Elements(l: seq<Addr>): set<Addr> {
    set a | a in l
  }

  ghost function MemFreed(m: Mem, gone: set<Addr>): Mem {
    m.(heap := m.heap - gone, fd := m.fd - gone, pollType := m.pollType - gone, timeout := m.timeout - gone,
       longTimeout := m.longTimeout - gone, lowPrio := m.lowPrio - gone, context := m.context - gone,
       prev := m.prev - gone, next := m.next - gone, id := m.id - gone,
       owner := Keeping(m.owner, gone), numPolls := m.numPolls - |gone|)
  }

  ghost function MemFreedOne(m: Mem, s: Addr): Mem
    requires s in m.id
  {
    m.(heap := m.heap - {s}, fd := m.fd - {s}, pollType := m.pollType - {s}, timeout := m.timeout - {s},
       longTimeout := m.longTimeout - {s}, lowPrio := m.lowPrio - {s}, context := m.context - {s},
       prev := m.prev - {s}, next := m.next - {s}, id := m.id - {s},
       owner := m.owner - {m.id[s]}, numPolls := m.numPolls - 1)
  }

  lemma FreeStarts(st: State)
    requires Inv(st)
    ensures Closed in st.m.heads && Closed in st.g.rolls && st.m.heads[Closed] == At(st.g.rolls[Closed], 0)
    ensures MemFreed(st.m, Elements(st.g.rolls[Closed][..0])) == st.m
  {
    hide Inv, NoDup;
    ClosedListed(st);
    MemFreedNone(st.m);
    assert Elements(st.g.rolls[Closed][..0]) == {};
  }

  lemma MemFreedNone(m: Mem)
    ensures MemFreed(m, {}) == m
  {
    LessNone(m.fd); LessNone(m.pollType); LessNone(m.timeout); LessNone(m.longTimeout); LessNone(m.lowPrio);
    LessNone(m.context); LessNone(m.prev); LessNone(m.next); LessNone(m.id);
    assert Keeping(m.owner, {}) == m.owner;
  }

  lemma LessNone<V>(m: map<Addr, V>)
    ensures m - {} == m
  {
  }

  lemma LessTwice<V>(m: map<Addr, V>, gone: set<Addr>, s: Addr)
    ensures m - gone - {s} == m - (gone + {s})
  {
  }

  lemma OwnerLess(id: map<Addr, int>, owner: map<int, Addr>, nextId: int, gone: set<Addr>, s: Addr)
    requires Owned(id, owner, nextId) && s in id
    ensures Keeping(owner, gone) - {id[s]} == Keeping(owner, gone + {s})
  {
    var l, r := Keeping(owner, gone) - {id[s]}, Keeping(owner, gone + {s});
    forall k
      ensures (k in l <==> k in r) && (k in l ==> l[k] == r[k])
    {
      assert k in owner ==> (owner[k] == s <==> k == id[s]);
    }
  }

  lemma MemFreedMore(m: Mem, gone: set<Addr>, s: Addr)
    requires Owned(m.id, m.owner, m.nextId) && s in m.id && s !in gone
    ensures s in MemFreed(m, gone).id && MemFreedOne(MemFreed(m, gone), s) == MemFreed(m, gone + {s})
  {
    hide Owned, Keeping;
    LessTwice(m.fd, gone, s); LessTwice(m.pollType, gone, s); LessTwice(m.timeout, gone, s);
        LessTwice(m.longTimeout, gone, s);
    LessTwice(m.lowPrio, gone, s); LessTwice(m.context, gone, s); LessTwice(m.prev, gone, s);
        LessTwice(m.next, gone, s); LessTwice(m.id, gone, s);
    OwnerLess(m.id, m.owner, m.nextId, gone, s);
    assert m.heap - gone - {s} == m.heap - (gone + {s});
    assert |gone + {s}| == |gone| + 1;
    assert MemFreed(m, gone).id[s] == m.id[s];
  }

  lemma OwnedAtom(st: State)
    requires Inv(st)
    ensures Owned(st.m.id, st.m.owner, st.m.nextId)
  {
    hide Blocks, Threaded, Marked, Located, Hosted, Wired, Typed, Owned, Awaited, Batched, Clocked, Alarmed, Walked,
         Ringed, Logged, Budgeted, Chronicled;
  }

  lemma FreeStep(st: State, l: seq<Addr>, i: nat)
    requires Inv(st) && Closed in st.g.rolls && l == st.g.rolls[Closed] && i <= |l| && At(l, i) != NULL
    ensures i < |l| && l[i] in MemFreed(st.m, Elements(l[..i])).id && l[i] in MemFreed(st.m, Elements(l[..i])).next
    ensures MemFreed(st.m, Elements(l[..i])).next[l[i]] == At(l, i + 1)
    ensures MemFreedOne(MemFreed(st.m, Elements(l[..i])), l[i]) == MemFreed(st.m, Elements(l[..i + 1]))
  {
    hide Inv, Owned, MemFreedOne;
    var gone := Elements(l[..i]);
    ClosedListed(st);
    OwnedAtom(st);
    assert l[i] !in gone;
    assert Elements(l[..i + 1]) == gone + {l[i]} by { assert l[..i + 1] == l[..i] + [l[i]]; }
    MemFreedMore(st.m, gone, l[i]);
    assert st.m.next[l[i]] == At(l, i + 1);
  }

  lemma FreeEnds(st: State, i: nat)
    requires Inv(st) && Closed in st.g.rolls && i <= |st.g.rolls[Closed]| && At(st.g.rolls[Closed], i) == NULL
    ensures var m := MemFreed(st.m, Elements(st.g.rolls[Closed][..i]));
            && Closed in m.heads && Freed(st) == st.(m := m.(heads := m.heads[Closed := NULL]), g := Freed(st).g)
            && (m.heads[Closed] == NULL ==> m.heads[Closed := NULL] == m.heads)
  {
    hide Inv, NoDup, Keeping, ReleaseLog;
    ClosedListed(st);
    var l := st.g.rolls[Closed];
    assert forall k | 0 <= k < |l| :: l[k] != NULL;
    assert l[..i] == l;
    assert Elements(l) == ClosedBlocks(st) by { SameElements(l, ClosedBlocks(st)); }
  }

  lemma SameElements(l: seq<Addr>, s: set<Addr>)
    requires forall a :: a in s <==> a in l
    ensures Elements(l) == s
  {
    forall a
      ensures a in Elements(l) <==> a in s
    {
      assert a in s <==> a in l;
    }
  }

  /** Every block that was not closed is still there, as it was. */
  ghost predicate SparesOpen(st: State, st': State) {
    forall s | s in st.g.place && st.g.place[s] != Closed ::
      && s in st'.g.place && st'.g.place[s] == st.g.place[s]
      && (s in st.m.heap ==> s in st'.m.heap)
      && (s in st.m.pollType ==> s in st'.m.pollType && st'.m.pollType[s] == st.m.pollType[s])
      && (s in st.m.id ==> s in st'.m.id && st'.m.id[s] == st.m.id[s])
  }

  lemma FreedSettled(st: State)
    requires Inv(st) && Settled(st)
    ensures Settled(Freed(st)) && forall s | s in Freed(st).g.place :: Freed(st).g.place[s] != Closed
    ensures SparesOpen(st, Freed(st))
  {
    hide Inv, Keeping, ReleaseLog;
    ClosedListed(st);
  }

  lemma RoomNext(st: State)
    requires Inv(st)
    ensures Inv(st.(m := st.m.(iterationNr := st.m.iterationNr + 1)))
    ensures st.g.lowReads + |st.g.delayed| + 5 <= 5 * (st.m.iterationNr + 1)
  {
    hide Blocks, Threaded, Marked, Located, Hosted, Wired, Typed, Owned, Awaited, Batched, Clocked, Alarmed, Walked,
         Ringed, Logged, Chronicled;
    hide Open, Swept, Unseen, UnseenLong;
  }
}
