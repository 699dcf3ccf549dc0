/** The batch of ready polls of one loop iteration, patched in place while it is dispatched. */
module ReadyBatch {
  import opened Threads
  import opened Polls

  /** Whom an entry is for; `Nobody` is the null pointer of a disabled entry. */
  datatype Ptr = Nobody | SweepTimer | Poll(addr: Addr)

  datatype Ready = Ready(ptr: Ptr, events: Interest, error: bool)

  function Count(rs: seq<Ready>, p: Ptr): nat {
    if rs == [] then 0 else (if rs[0].ptr == p then 1 else 0) + Count(rs[1..], p)
  }

  function Redirect(r: Ready, old_: Ptr, new_: Ptr): Ready {
    if r.ptr == old_ then r.(ptr := new_) else r
  }

  /** Every entry for `old_` is now for `new_`; nothing else changed. */
  ghost function Redirected(rs: seq<Ready>, old_: Ptr, new_: Ptr): (r: seq<Ready>)
    ensures |r| == |rs|
    ensures forall i | 0 <= i < |rs| :: r[i] == Redirect(rs[i], old_, new_)
  {
    if rs == [] then []
    else [Redirect(rs[0], old_, new_)] + Redirected(rs[1..], old_, new_)
  }

  lemma {:induction false} CountSnoc(rs: seq<Ready>, x: Ready, p: Ptr)
    ensures Count(rs + [x], p) == Count(rs, p) + (if x.ptr == p then 1 else 0)
  {
    if rs != [] {
      CountSnoc(rs[1..], x, p);
      assert (rs + [x])[1..] == rs[1..] + [x];
    } else {
      assert rs + [x] == [x];
    }
  }

  lemma {:induction false} CountAbsent(rs: seq<Ready>, p: Ptr)
    ensures Count(rs, p) == 0 <==> forall i | 0 <= i < |rs| :: rs[i].ptr != p
  {
    if rs != [] {
      CountAbsent(rs[1..], p);
      assert forall i | 1 <= i < |rs| :: rs[i] == rs[1..][i - 1];
      assert Count(rs, p) == 0 ==> forall i | 0 <= i < |rs[1..]| :: rs[1..][i].ptr != p;
    }
  }

  /** Redirecting adds the old multiplicity to the new pointer's and empties the old one's. */
  lemma {:induction false} RedirectedCounts(rs: seq<Ready>, old_: Ptr, new_: Ptr, p: Ptr)
    requires old_ != new_
    ensures Count(Redirected(rs, old_, new_), p)
            == if p == old_ then 0 else if p == new_ then Count(rs, new_) + Count(rs, old_) else Count(rs, p)
  {
    if rs != [] {
      RedirectedCounts(rs[1..], old_, new_, p);
      assert Redirected(rs, old_, new_)[1..] == Redirected(rs[1..], old_, new_);
    }
  }

  /** us_internal_loop_update_pending_ready_polls. The scan stops after `limit` replacements;
      nothing is lost by that as long as no pointer occurs more often than `limit`. */
  method UpdatePendingReadyPolls(ready: array<Ready>, current: nat, num: nat, old_: Ptr, new_: Ptr, limit: nat)
    requires current <= num <= ready.Length
    requires Count(ready[current..num], old_) <= limit && old_ != new_
    modifies ready
    ensures ready[..current] == old(ready[..current]) && ready[num..] == old(ready[num..])
    ensures ready[current..num] == Redirected(old(ready[current..num]), old_, new_)
  {
    hide Count, Redirected;
    ghost var before := ready[current..num];
    var remaining := limit;
    var i := current;
    assert before[0..] == before;
    while i < num && remaining > 0
      invariant current <= i <= num
      invariant forall k | 0 <= k < ready.Length && !(current <= k < i) :: ready[k] == old(ready[k])
      invariant forall k | current <= k < i :: ready[k] == Redirect(old(ready[k]), old_, new_)
      invariant Count(before[i - current..], old_) <= remaining
    {
      CountFirst(before, i - current, old_);
      assert before[i - current] == old(ready[i]);
      if ready[i].ptr == old_ {
        ready[i] := ready[i].(ptr := new_);
        remaining := remaining - 1;
      }
      i := i + 1;
    }
    CountNone(before, i - current, old_, remaining, num - i);
    assert forall k: int | i <= k < num :: before[k - current] == old(ready[k]);
    RedirectedIs(before, old_, new_, ready[current..num]);
  }

  lemma CountFirst(rs: seq<Ready>, i: nat, p: Ptr)
    requires i < |rs|
    ensures Count(rs[i..], p) == (if rs[i].ptr == p then 1 else 0) + Count(rs[i + 1..], p)
  {
    assert rs[i..][1..] == rs[i + 1..];
  }

  /** With nothing left to replace, or nothing left to look at, no entry for `p` is left. */
  lemma CountNone(rs: seq<Ready>, i: nat, p: Ptr, remaining: nat, left: nat)
    requires i + left == |rs| && Count(rs[i..], p) <= remaining && (remaining == 0 || left == 0)
    ensures forall k | i <= k < |rs| :: rs[k].ptr != p
  {
    hide Count;
    if left > 0 {
      CountAbsent(rs[i..], p);
      forall k | i <= k < |rs|
        ensures rs[k].ptr != p
      {
        assert rs[i..][k - i] == rs[k];
      }
    }
  }

  lemma RedirectedIs(rs: seq<Ready>, old_: Ptr, new_: Ptr, r: seq<Ready>)
    requires |r| == |rs| && forall k | 0 <= k < |rs| :: r[k] == Redirect(rs[k], old_, new_)
    ensures r == Redirected(rs, old_, new_)
  {
  }
}
