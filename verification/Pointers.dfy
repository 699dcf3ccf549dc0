/** The pointer updates of unlinking, linking and patching, and the allocator's choice of an address. */
module Pointers {
  import opened Threads

  /** The pointer updates of an unlink: the singleton list is the one whose member has equal neighbours. */
  method UnlinkPointers(prev0: Links, next0: Links, head0: Addr, iter0: Addr, s: Addr)
    returns (prev: Links, next: Links, head: Addr, iter: Addr)
    requires s in prev0 && s in next0
    requires prev0[s] == next0[s] ==> prev0[s] == NULL
    requires prev0[s] != NULL ==> prev0[s] in next0 && prev0[s] != s
    requires next0[s] != NULL ==> next0[s] in prev0 && next0[s] != s
    ensures prev == BypassPrev(prev0, next0, s) && next == BypassNext(prev0, next0, s)
    ensures head == BypassHead(prev0, next0, head0, s)
    ensures iter == if iter0 == s then next0[s] else iter0
  {
    prev, next, head, iter := prev0, next0, head0, iter0;
    if s == iter {
      iter := next[s];
    }
    if prev[s] == next[s] {
      head := NULL;
    } else {
      if prev[s] != NULL {
        next := next[prev[s] := next[s]];
      } else {
        head := next[s];
      }
      if next[s] != NULL {
        prev := prev[next[s] := prev[s]];
      }
    }
  }

  /** The pointer updates of a link at the top. */
  method LinkPointers(prev0: Links, next0: Links, head0: Addr, s: Addr)
    returns (prev: Links, next: Links, head: Addr)
    requires head0 != NULL ==> head0 in prev0
    ensures prev == PushPrev(prev0, head0, s) && next == PushNext(next0, head0, s) && head == s
  {
    prev, next, head := prev0, next0, head0;
    next := next[s := head];
    prev := prev[s := NULL];
    if head != NULL {
      prev := prev[head := s];
    }
    head := s;
  }

  /** The pointer updates that put a moved block back into the low-priority queue. */
  method PatchPointers(prev0: Links, next0: Links, head0: Addr, n: Addr)
    returns (prev: Links, next: Links, head: Addr)
    requires n in prev0 && n in next0 && prev0[n] != n && next0[n] != n
    ensures prev == (if next0[n] != NULL then prev0[next0[n] := n] else prev0)
    ensures next == (if prev0[n] != NULL then next0[prev0[n] := n] else next0)
    ensures head == if prev0[n] == NULL then n else head0
  {
    prev, next, head := prev0, next0, head0;
    if prev[n] == NULL {
      head := n;
    } else {
      next := next[prev[n] := n];
    }
    if next[n] != NULL {
      prev := prev[next[n] := n];
    }
  }

  ghost function From(taken: set<Addr>, a: Addr): set<Addr> {
    set x | x in taken && x >= a
  }

  /** The lowest free address. */
  method LowestFree(taken: set<Addr>) returns (a: Addr)
    ensures a != NULL && a !in taken
  {
    a := 1;
    while a in taken
      invariant a > NULL
      decreases From(taken, a)
    {
      assert a in From(taken, a) && From(taken, a + 1) < From(taken, a);
      a := a + 1;
    }
  }
}
