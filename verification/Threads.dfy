/** Intrusive lists: addresses threaded through shared `prev`/`next` fields.
    One socket is threaded on at most one of four kinds of list; `Place` says which. */
module Threads {
  type Addr = int
  const NULL: Addr := 0

  /** Where a socket block is threaded. `Loose` is the moment between unlink and link. */
  datatype Place =
    | Loose
    | Linked(context: Addr)
    | Listening(context: Addr)
    | Queued
    | Closed

  type Links = map<Addr, Addr>
  type Rolls = map<Place, seq<Addr>>

  function At(l: seq<Addr>, i: int): Addr {
    if 0 <= i < |l| then l[i] else NULL
  }

  ghost predicate NoDup<T>(l: seq<T>) {
    forall i, j | 0 <= i < j < |l| :: l[i] != l[j]
  }

  function Without(l: seq<Addr>, gone: set<Addr>): (r: seq<Addr>)
  {
    if l == [] then []
    else (if l[0] in gone then [] else [l[0]]) + Without(l[1..], gone)
  }

  /** `l` is threaded both ways from `head`, and ends. */
  ghost predicate Chained(prev: Links, next: Links, l: seq<Addr>, head: Addr) {
    && NoDup(l)
    && NULL !in l
    && head == At(l, 0)
    && (forall i | 0 <= i < |l| :: l[i] in next)
    && (forall i {:trigger next[l[i]]} | 0 <= i < |l| :: next[l[i]] == At(l, i + 1))
    && (forall i | 0 <= i < |l| :: l[i] in prev)
    && (forall i {:trigger prev[l[i]]} | 0 <= i < |l| :: prev[l[i]] == At(l, i - 1))
  }

  /** The close list is threaded through `next` only. */
  ghost predicate Stacked(next: Links, l: seq<Addr>, head: Addr) {
    && NoDup(l)
    && NULL !in l
    && head == At(l, 0)
    && (forall i | 0 <= i < |l| :: l[i] in next)
    && (forall i {:trigger next[l[i]]} | 0 <= i < |l| :: next[l[i]] == At(l, i + 1))
  }

  /** Every block is on exactly the list its place names. */
  ghost predicate Placed(rolls: Rolls, place: map<Addr, Place>) {
    && Loose !in rolls && Queued in rolls && Closed in rolls
    && (forall p, i | p in rolls && 0 <= i < |rolls[p]| :: rolls[p][i] in place && place[rolls[p][i]] == p)
    && (forall s | s in place && place[s] != Loose :: place[s] in rolls && s in rolls[place[s]])
  }

  ghost predicate Threaded(prev: Links, next: Links, heads: map<Place, Addr>, rolls: Rolls, place: map<Addr, Place>) {
    && Placed(rolls, place)
    && heads.Keys == rolls.Keys
    && (forall p | p in rolls && p != Closed :: Chained(prev, next, rolls[p], heads[p]))
    && Stacked(next, rolls[Closed], heads[Closed])
  }

  function Index(l: seq<Addr>, s: Addr): (k: nat)
    requires s in l
    ensures k < |l| && l[k] == s
  {
    if l[0] == s then 0 else 1 + Index(l[1..], s)
  }

  function DropAt(l: seq<Addr>, k: nat): seq<Addr>
    requires k < |l|
  {
    l[..k] + l[k + 1..]
  }

  function Minus(l: seq<Addr>, s: Addr): seq<Addr>
    requires s in l
  {
    DropAt(l, Index(l, s))
  }

  lemma {:induction false} WithoutMembers(l: seq<Addr>, gone: set<Addr>)
    ensures forall a :: a in Without(l, gone) <==> a in l && a !in gone
    ensures NoDup(l) ==> NoDup(Without(l, gone))
  {
    if l != [] {
      WithoutMembers(l[1..], gone);
      assert l == [l[0]] + l[1..];
    }
  }

  lemma {:induction false} WithoutAbsent(l: seq<Addr>, gone: set<Addr>)
    requires forall i | 0 <= i < |l| :: l[i] !in gone
    ensures Without(l, gone) == l
  {
    if l != [] { WithoutAbsent(l[1..], gone); }
  }

  lemma {:induction false} WithoutConcat(a: seq<Addr>, b: seq<Addr>, gone: set<Addr>)
    ensures Without(a + b, gone) == Without(a, gone) + Without(b, gone)
  {
    if a == [] {
      assert a + b == b;
    } else {
      var first := if a[0] in gone then [] else [a[0]];
      WithoutConcat(a[1..], b, gone);
      assert (a + b)[0] == a[0] && (a + b)[1..] == a[1..] + b;
      Reassociate(first, Without(a[1..], gone), Without(b, gone));
    }
  }

  lemma Reassociate(a: seq<Addr>, b: seq<Addr>, c: seq<Addr>)
    ensures a + b + c == a + (b + c)
  {
  }

  lemma {:induction false} WithoutTwice(l: seq<Addr>, gone: set<Addr>, more: set<Addr>)
    ensures Without(Without(l, gone), more) == Without(l, gone + more)
  {
    if l != [] {
      WithoutTwice(l[1..], gone, more);
      var rest := Without(l[1..], gone);
      if l[0] in gone {
        assert Without(l, gone) == rest;
      } else {
        assert Without(l, gone) == [l[0]] + rest && ([l[0]] + rest)[1..] == rest;
      }
    }
  }

  lemma WithoutOne(l: seq<Addr>, s: Addr)
    requires s !in l
    ensures Without(l, {s}) == l
  {
    assert forall i | 0 <= i < |l| :: l[i] in l;
    WithoutAbsent(l, {s});
  }

  lemma WithoutSelf(s: Addr)
    ensures Without([s], {s}) == []
  {
  }

  lemma OnlyAt(l: seq<Addr>, s: Addr, k: nat)
    requires NoDup(l) && k < |l| && l[k] == s
    ensures s !in l[..k] && s !in l[k + 1..]
  {
  }

  lemma MinusIsWithout(l: seq<Addr>, s: Addr)
    requires s in l && NoDup(l)
    ensures Minus(l, s) == Without(l, {s})
  {
    hide NoDup, Without;
    var k := Index(l, s);
    var before, after := l[..k], l[k + 1..];
    assert l == before + [s] + after;
    OnlyAt(l, s, k);
    WithoutConcat(before + [s], after, {s});
    WithoutConcat(before, [s], {s});
    WithoutOne(before, s);
    WithoutOne(after, s);
    WithoutSelf(s);
    assert before + [] == before;
  }

  // The two neighbour updates every unlink performs.
  function BypassNext(prev: Links, next: Links, s: Addr): Links
    requires s in prev && s in next
  {
    if prev[s] != NULL then next[prev[s] := next[s]] else next
  }
  function BypassPrev(prev: Links, next: Links, s: Addr): Links
    requires s in prev && s in next
  {
    if next[s] != NULL then prev[next[s] := prev[s]] else prev
  }
  function BypassHead(prev: Links, next: Links, head: Addr, s: Addr): Addr
    requires s in prev && s in next
  {
    if prev[s] != NULL then head else next[s]
  }

  lemma MinusMembers(l: seq<Addr>, s: Addr)
    requires s in l && NoDup(l)
    ensures NoDup(Minus(l, s))
    ensures forall a :: a in Minus(l, s) <==> a in l && a != s
  {
    var k := Index(l, s);
    forall a | a in l && a != s
      ensures a in Minus(l, s)
    {
      var i :| 0 <= i < |l| && l[i] == a;
      assert Minus(l, s)[if i < k then i else i - 1] == a;
    }
  }

  lemma Neighbours(prev: Links, next: Links, l: seq<Addr>, head: Addr, s: Addr)
    requires Chained(prev, next, l, head) && s in l
    ensures prev[s] == At(l, Index(l, s) - 1) && next[s] == At(l, Index(l, s) + 1)
    ensures prev[s] == next[s] ==> l == [s] && prev[s] == NULL
    ensures prev[s] != NULL ==> prev[s] in l
    ensures next[s] != NULL ==> next[s] in l
  {
  }

  lemma MinusAt(l: seq<Addr>, s: Addr, i: nat)
    requires s in l
    ensures |Minus(l, s)| == |l| - 1
    ensures i < |l| - 1 ==> Minus(l, s)[i] == l[if i < Index(l, s) then i else i + 1]
  {
  }

  lemma ChainAt(prev: Links, next: Links, l: seq<Addr>, head: Addr, j: nat)
    requires Chained(prev, next, l, head) && j < |l|
    ensures l[j] in next && next[l[j]] == At(l, j + 1) && l[j] in prev && prev[l[j]] == At(l, j - 1) && l[j] != NULL
  {
    assert l[j] in l;
  }

  lemma Distinct(prev: Links, next: Links, l: seq<Addr>, head: Addr, i: nat, j: nat)
    requires Chained(prev, next, l, head) && i < |l| && j < |l|
    ensures l[i] == l[j] ==> i == j
    ensures l[i] != NULL && l[j] != NULL
  {
    assert l[i] in l && l[j] in l;
  }

  lemma BypassNextChain(prev: Links, next: Links, l: seq<Addr>, head: Addr, s: Addr, i: nat)
    requires Chained(prev, next, l, head) && s in l
    requires i < |Minus(l, s)|
    ensures var m := Minus(l, s); var next' := BypassNext(prev, next, s);
            m[i] in next' && next'[m[i]] == At(m, i + 1)
  {
    hide Chained, Minus, NoDup;
    Neighbours(prev, next, l, head, s);
    var k := Index(l, s);
    var j := if i < k then i else i + 1;
    MinusAt(l, s, i);
    if 0 <= i + 1 < |l| - 1 { MinusAt(l, s, i + 1); }
    ChainAt(prev, next, l, head, j);
    if 0 <= k - 1 < |l| { Distinct(prev, next, l, head, j, k - 1); }
  }

  lemma BypassPrevChain(prev: Links, next: Links, l: seq<Addr>, head: Addr, s: Addr, i: nat)
    requires Chained(prev, next, l, head) && s in l
    requires i < |Minus(l, s)|
    ensures var m := Minus(l, s); var prev' := BypassPrev(prev, next, s);
            m[i] in prev' && prev'[m[i]] == At(m, i - 1)
  {
    hide Chained, Minus, NoDup;
    Neighbours(prev, next, l, head, s);
    var k := Index(l, s);
    var j := if i < k then i else i + 1;
    MinusAt(l, s, i);
    if 0 <= i - 1 < |l| - 1 { MinusAt(l, s, i - 1); }
    ChainAt(prev, next, l, head, j);
    if 0 <= k + 1 < |l| { Distinct(prev, next, l, head, j, k + 1); }
  }

  lemma BypassChained(prev: Links, next: Links, l: seq<Addr>, head: Addr, s: Addr)
    requires Chained(prev, next, l, head) && s in l
    ensures Chained(BypassPrev(prev, next, s), BypassNext(prev, next, s), Minus(l, s), BypassHead(prev, next, head, s))
  {
    var m := Minus(l, s);
    MinusMembers(l, s);
    forall i | 0 <= i < |m| { BypassNextChain(prev, next, l, head, s, i); }
    forall i | 0 <= i < |m| { BypassPrevChain(prev, next, l, head, s, i); }
    assert BypassHead(prev, next, head, s) == At(m, 0) by { Neighbours(prev, next, l, head, s); }
  }

  /** Chaining depends only on the links of the listed blocks. */
  lemma ChainedFrame(prev: Links, next: Links, prev': Links, next': Links, l: seq<Addr>, head: Addr)
    requires Chained(prev, next, l, head)
    requires forall i | 0 <= i < |l| :: l[i] in prev' && prev'[l[i]] == prev[l[i]]
    requires forall i | 0 <= i < |l| :: l[i] in next' && next'[l[i]] == next[l[i]]
    ensures Chained(prev', next', l, head)
  {
  }

  lemma StackedFrame(next: Links, next': Links, l: seq<Addr>, head: Addr)
    requires Stacked(next, l, head)
    requires forall i | 0 <= i < |l| :: l[i] in next' && next'[l[i]] == next[l[i]]
    ensures Stacked(next', l, head)
  {
  }

  /** Links of blocks placed elsewhere than `p`, other than `s`, are as before. */
  ghost predicate SameElsewhere(links: Links, links': Links, place: map<Addr, Place>, p: Place, s: Addr) {
    forall a | a in place && a != s && place[a] != p && a in links :: a in links' && links'[a] == links[a]
  }

  lemma OtherChained(prev: Links, next: Links, heads: map<Place, Addr>, rolls: Rolls, place: map<Addr, Place>,
                     prev': Links, next': Links, p: Place, s: Addr, q: Place)
    requires Placed(rolls, place)
    requires q in rolls && q in heads && q != p && Chained(prev, next, rolls[q], heads[q])
    requires s in place && (place[s] == Loose || place[s] == p)
    requires SameElsewhere(prev, prev', place, p, s) && SameElsewhere(next, next', place, p, s)
    ensures Chained(prev', next', rolls[q], heads[q])
  {
    ChainedFrame(prev, next, prev', next', rolls[q], heads[q]);
  }

  lemma OtherStacked(next: Links, heads: map<Place, Addr>, rolls: Rolls, place: map<Addr, Place>,
                     next': Links, p: Place, s: Addr)
    requires Placed(rolls, place)
    requires Closed in heads && p != Closed && Stacked(next, rolls[Closed], heads[Closed])
    requires s in place && (place[s] == Loose || place[s] == p)
    requires SameElsewhere(next, next', place, p, s)
    ensures Stacked(next', rolls[Closed], heads[Closed])
  {
    var l := rolls[Closed];
    forall i | 0 <= i < |l|
      ensures l[i] in next' && next'[l[i]] == next[l[i]]
    {
      var a := l[i];
      assert rolls[Closed][i] in place && place[a] == Closed;
      assert a in next;
    }
    StackedFrame(next, next', l, heads[Closed]);
  }

  lemma PlacedUnlink(rolls: Rolls, place: map<Addr, Place>, s: Addr)
    requires Placed(rolls, place)
    requires s in place && place[s] != Loose && NoDup(rolls[place[s]])
    ensures Placed(rolls[place[s] := Minus(rolls[place[s]], s)], place[s := Loose])
  {
    MinusMembers(rolls[place[s]], s);
  }

  lemma PlacedLink(rolls: Rolls, place: map<Addr, Place>, s: Addr, p: Place)
    requires Placed(rolls, place)
    requires s in place && place[s] == Loose && p in rolls
    ensures Placed(rolls[p := [s] + rolls[p]], place[s := p])
    ensures s !in rolls[p]
  {
    var rolls', place' := rolls[p := [s] + rolls[p]], place[s := p];
    forall q, a | q in rolls' && a in rolls'[q]
      ensures a in place' && place'[a] == q
    {
    }
    forall a | a in place' && place'[a] != Loose
      ensures place'[a] in rolls' && a in rolls'[place'[a]]
    {
    }
  }

  lemma BypassElsewhere(prev: Links, next: Links, head: Addr, rolls: Rolls, place: map<Addr, Place>, s: Addr)
    requires Placed(rolls, place)
    requires s in place && place[s] != Loose && Chained(prev, next, rolls[place[s]], head)
    ensures s in prev && s in next
    ensures prev[s] == next[s] ==> prev[s] == NULL
    ensures prev[s] != NULL ==> prev[s] in next && prev[s] in place && place[prev[s]] == place[s]
    ensures next[s] != NULL ==> next[s] in prev && next[s] in place && place[next[s]] == place[s]
    ensures SameElsewhere(prev, BypassPrev(prev, next, s), place, place[s], s)
    ensures SameElsewhere(next, BypassNext(prev, next, s), place, place[s], s)
  {
    var l := rolls[place[s]];
    Neighbours(prev, next, l, head, s);
    assert l[Index(l, s)] in next && l[Index(l, s)] in prev;
    if prev[s] != NULL { assert l[Index(l, prev[s])] in next; }
    if next[s] != NULL { assert l[Index(l, next[s])] in prev; }
  }

  /** Unlinking `s` bypasses it in its own list and disturbs no other list. */
  lemma PlacedOn(rolls: Rolls, place: map<Addr, Place>, s: Addr)
    requires Placed(rolls, place) && s in place && place[s] != Loose
    ensures place[s] in rolls && s in rolls[place[s]] && Closed in rolls
  {
  }

  lemma PlacedOff(rolls: Rolls, place: map<Addr, Place>, n: Addr)
    requires Placed(rolls, place)
    ensures n !in place ==> forall p | p in rolls :: n !in rolls[p]
  {
    forall p | p in rolls && n in rolls[p]
      ensures n in place
    {
      var i :| 0 <= i < |rolls[p]| && rolls[p][i] == n;
      assert rolls[p][i] in place;
    }
  }

  lemma ChainedNoDup(prev: Links, next: Links, l: seq<Addr>, head: Addr)
    requires Chained(prev, next, l, head)
    ensures NoDup(l)
  {
  }

  lemma UnlinkThreaded(prev: Links, next: Links, heads: map<Place, Addr>, rolls: Rolls, place: map<Addr, Place>,
                       s: Addr)
    requires Threaded(prev, next, heads, rolls, place)
    requires s in place && place[s] != Loose && place[s] != Closed
    ensures s in prev && s in next
    ensures var p := place[s];
            Threaded(BypassPrev(prev, next, s), BypassNext(prev, next, s),
                     heads[p := BypassHead(prev, next, heads[p], s)],
                     rolls[p := Minus(rolls[p], s)], place[s := Loose])
    ensures prev[s] == next[s] ==> prev[s] == NULL
    ensures prev[s] != NULL ==> prev[s] in next && prev[s] in place && place[prev[s]] == place[s]
    ensures next[s] != NULL ==> next[s] in prev && next[s] in place && place[next[s]] == place[s]
  {
    hide Placed, Chained, Stacked, NoDup, BypassPrev, BypassNext, BypassHead, Minus;
    PlacedOn(rolls, place, s);
    var p := place[s];
    assert Chained(prev, next, rolls[p], heads[p]);
    ChainedNoDup(prev, next, rolls[p], heads[p]);
    BypassElsewhere(prev, next, heads[p], rolls, place, s);
    BypassChained(prev, next, rolls[p], heads[p], s);
    PlacedUnlink(rolls, place, s);
    var prev', next' := BypassPrev(prev, next, s), BypassNext(prev, next, s);
    forall q | q in rolls && q != p && q != Closed {
      OtherChained(prev, next, heads, rolls, place, prev', next', p, s, q);
    }
    OtherStacked(next, heads, rolls, place, next', p, s);
  }

  // The two updates every link at the top performs.
  function PushPrev(prev: Links, head: Addr, s: Addr): Links {
    if head != NULL then prev[s := NULL][head := s] else prev[s := NULL]
  }
  function PushNext(next: Links, head: Addr, s: Addr): Links {
    next[s := head]
  }

  lemma PushChained(prev: Links, next: Links, l: seq<Addr>, head: Addr, s: Addr)
    requires Chained(prev, next, l, head) && s !in l && s != NULL
    ensures Chained(PushPrev(prev, head, s), PushNext(next, head, s), [s] + l, s)
  {
    var m := [s] + l;
    forall i | 0 <= i < |m|
      ensures m[i] in PushNext(next, head, s) && PushNext(next, head, s)[m[i]] == At(m, i + 1)
      ensures m[i] in PushPrev(prev, head, s) && PushPrev(prev, head, s)[m[i]] == At(m, i - 1)
    {
      if i > 0 {
        assert m[i] == l[i - 1];
        assert next[l[i - 1]] == At(l, i) && prev[l[i - 1]] == At(l, i - 2);
      }
    }
  }

  /** Linking a loose block at the top of a two-way list. */
  lemma LinkThreaded(prev: Links, next: Links, heads: map<Place, Addr>, rolls: Rolls, place: map<Addr, Place>, s: Addr,
                     p: Place)
    requires Threaded(prev, next, heads, rolls, place)
    requires s in place && place[s] == Loose && s != NULL
    requires p in rolls && p != Closed
    ensures heads[p] != NULL ==> heads[p] in prev && heads[p] in place && place[heads[p]] == p
    ensures Threaded(PushPrev(prev, heads[p], s), PushNext(next, heads[p], s),
                     heads[p := s], rolls[p := [s] + rolls[p]], place[s := p])
  {
    PlacedLink(rolls, place, s, p);
    assert Chained(prev, next, rolls[p], heads[p]);
    assert heads[p] != NULL ==> heads[p] in rolls[p];
    PushChained(prev, next, rolls[p], heads[p], s);
    var prev', next' := PushPrev(prev, heads[p], s), PushNext(next, heads[p], s);
    assert SameElsewhere(prev, prev', place, p, s) && SameElsewhere(next, next', place, p, s);
    forall q | q in rolls && q != p && q != Closed {
      OtherChained(prev, next, heads, rolls, place, prev', next', p, s, q);
    }
    OtherStacked(next, heads, rolls, place, next', p, s);
  }

  lemma StackPush(next: Links, l: seq<Addr>, head: Addr, s: Addr)
    requires Stacked(next, l, head) && s !in l && s != NULL
    ensures Stacked(next[s := head], [s] + l, s)
  {
    var m := [s] + l;
    forall i | 0 < i < |m|
      ensures m[i] in next && next[m[i]] == At(m, i + 1)
    {
      assert m[i] == l[i - 1];
    }
  }

  /** Pushing a loose block on the close list, which is threaded through `next` alone;
      `mark` is whatever its `prev` is made to say. */
  lemma ParkThreaded(prev: Links, next: Links, heads: map<Place, Addr>, rolls: Rolls, place: map<Addr, Place>, s: Addr,
                     mark: Addr)
    requires Threaded(prev, next, heads, rolls, place)
    requires s in place && place[s] == Loose && s != NULL
    ensures Threaded(prev[s := mark], next[s := heads[Closed]],
                     heads[Closed := s], rolls[Closed := [s] + rolls[Closed]], place[s := Closed])
  {
    PlacedLink(rolls, place, s, Closed);
    var prev', next' := prev[s := mark], next[s := heads[Closed]];
    forall q | q in rolls && q != Closed {
      OtherChained(prev, next, heads, rolls, place, prev', next', Closed, s, q);
    }
    StackPush(next, rolls[Closed], heads[Closed], s);
  }

  lemma ListedChained(prev: Links, next: Links, rolls: Rolls, place: map<Addr, Place>, q: Place, head: Addr,
                      prev': Links, next': Links)
    requires Placed(rolls, place) && q in rolls && Chained(prev, next, rolls[q], head)
    requires SameListed(prev, prev', place) && SameListed(next, next', place)
    ensures Chained(prev', next', rolls[q], head)
  {
    var l := rolls[q];
    forall i | 0 <= i < |l|
      ensures l[i] in prev' && prev'[l[i]] == prev[l[i]]
      ensures l[i] in next' && next'[l[i]] == next[l[i]]
    {
      assert rolls[q][i] in place;
    }
    ChainedFrame(prev, next, prev', next', l, head);
  }

  lemma ListedStacked(next: Links, rolls: Rolls, place: map<Addr, Place>, head: Addr, next': Links)
    requires Placed(rolls, place) && Stacked(next, rolls[Closed], head)
    requires SameListed(next, next', place)
    ensures Stacked(next', rolls[Closed], head)
  {
    var l := rolls[Closed];
    forall i | 0 <= i < |l|
      ensures l[i] in next' && next'[l[i]] == next[l[i]]
    {
      var a := l[i];
      assert rolls[Closed][i] in place && place[a] == Closed;
      assert a in next;
    }
    StackedFrame(next, next', l, head);
  }

  lemma PlacedLoose(rolls: Rolls, place: map<Addr, Place>, place': map<Addr, Place>)
    requires Placed(rolls, place)
    requires forall a | a in place && place[a] != Loose :: a in place' && place'[a] == place[a]
    requires forall a | a in place' && place'[a] != Loose :: a in place && place[a] == place'[a]
    ensures Placed(rolls, place')
  {
    forall p, i | p in rolls && 0 <= i < |rolls[p]|
      ensures rolls[p][i] in place' && place'[rolls[p][i]] == p
    {
      var a := rolls[p][i];
      assert a in place && place[a] == p;
    }
    forall a | a in place' && place'[a] != Loose
      ensures place'[a] in rolls && a in rolls[place'[a]]
    {
      assert a in place && place[a] == place'[a];
    }
  }

  /** Threading does not depend on loose blocks: they may come, go and move. */
  lemma LooseThreaded(prev: Links, next: Links, heads: map<Place, Addr>, rolls: Rolls, place: map<Addr, Place>,
                      prev': Links, next': Links, place': map<Addr, Place>)
    requires Threaded(prev, next, heads, rolls, place)
    requires forall a | a in place && place[a] != Loose :: a in place' && place'[a] == place[a]
    requires forall a | a in place' && place'[a] != Loose :: a in place && place[a] == place'[a]
    requires SameListed(prev, prev', place) && SameListed(next, next', place)
    ensures Threaded(prev', next', heads, rolls, place')
  {
    PlacedLoose(rolls, place, place');
    forall q | q in rolls && q != Closed
      ensures Chained(prev', next', rolls[q], heads[q])
    {
      assert Chained(prev, next, rolls[q], heads[q]);
      ListedChained(prev, next, rolls, place, q, heads[q], prev', next');
    }
    ListedStacked(next, rolls, place, heads[Closed], next');
  }

  /** Links of blocks that are on some list are as before. */
  ghost predicate SameListed(links: Links, links': Links, place: map<Addr, Place>) {
    forall a | a in place && place[a] != Loose && a in links :: a in links' && links'[a] == links[a]
  }

  /** The field map after a block moved from `s` to `n`, the content going along. */
  function Moved<V>(m: map<Addr, V>, s: Addr, n: Addr): map<Addr, V>
    requires s in m
  {
    (m - {s})[n := m[s]]
  }

  // A queued block that moved is patched into its neighbours.
  function PatchNext(prev: Links, next: Links, s: Addr, n: Addr): Links
    requires s in prev && s in next
  {
    if prev[s] != NULL then Moved(next, s, n)[prev[s] := n] else Moved(next, s, n)
  }
  function PatchPrev(prev: Links, next: Links, s: Addr, n: Addr): Links
    requires s in prev && s in next
  {
    if next[s] != NULL then Moved(prev, s, n)[next[s] := n] else Moved(prev, s, n)
  }
  function PatchHead(prev: Links, head: Addr, s: Addr, n: Addr): Addr
    requires s in prev
  {
    if prev[s] == NULL then n else head
  }

  lemma PatchNextChain(prev: Links, next: Links, l: seq<Addr>, head: Addr, s: Addr, n: Addr, i: nat)
    requires Chained(prev, next, l, head) && s in l && n != NULL && (n == s || n !in l)
    requires i < |l|
    ensures s in prev && s in next
    ensures var m := l[Index(l, s) := n]; var next' := PatchNext(prev, next, s, n);
            m[i] in next' && next'[m[i]] == At(m, i + 1)
  {
    Neighbours(prev, next, l, head, s);
    assert l[Index(l, s)] in next && l[Index(l, s)] in prev;
    assert next[l[i]] == At(l, i + 1);
  }

  lemma PatchPrevChain(prev: Links, next: Links, l: seq<Addr>, head: Addr, s: Addr, n: Addr, i: nat)
    requires Chained(prev, next, l, head) && s in l && n != NULL && (n == s || n !in l)
    requires i < |l|
    ensures s in prev && s in next
    ensures var m := l[Index(l, s) := n]; var prev' := PatchPrev(prev, next, s, n);
            m[i] in prev' && prev'[m[i]] == At(m, i - 1)
  {
    Neighbours(prev, next, l, head, s);
    assert l[Index(l, s)] in next && l[Index(l, s)] in prev;
    assert prev[l[i]] == At(l, i - 1);
  }

  lemma PatchChained(prev: Links, next: Links, l: seq<Addr>, head: Addr, s: Addr, n: Addr)
    requires Chained(prev, next, l, head) && s in l && n != NULL && (n == s || n !in l)
    ensures s in prev && s in next
    ensures Chained(PatchPrev(prev, next, s, n), PatchNext(prev, next, s, n), l[Index(l, s) := n],
            PatchHead(prev, head, s, n))
  {
    Neighbours(prev, next, l, head, s);
    assert l[Index(l, s)] in next && l[Index(l, s)] in prev;
    var m := l[Index(l, s) := n];
    var prev', next' := PatchPrev(prev, next, s, n), PatchNext(prev, next, s, n);
    forall i | 0 <= i < |m|
      ensures m[i] in next' && next'[m[i]] == At(m, i + 1)
    {
      PatchNextChain(prev, next, l, head, s, n, i);
    }
    forall i | 0 <= i < |m|
      ensures m[i] in prev' && prev'[m[i]] == At(m, i - 1)
    {
      PatchPrevChain(prev, next, l, head, s, n, i);
    }
  }

  lemma PatchElsewhere(prev: Links, next: Links, head: Addr, rolls: Rolls, place: map<Addr, Place>, s: Addr, n: Addr)
    requires Placed(rolls, place)
    requires s in place && place[s] != Loose && Chained(prev, next, rolls[place[s]], head)
    requires n == s || n !in place
    ensures s in prev && s in next
    ensures prev[s] != NULL ==> prev[s] in prev && prev[s] in next && prev[s] != s && prev[s] in place
    ensures next[s] != NULL ==> next[s] in prev && next[s] in next && next[s] != s && next[s] in place
    ensures SameElsewhere(prev, PatchPrev(prev, next, s, n), place, place[s], s)
    ensures SameElsewhere(next, PatchNext(prev, next, s, n), place, place[s], s)
  {
    var l := rolls[place[s]];
    Neighbours(prev, next, l, head, s);
    assert l[Index(l, s)] in next && l[Index(l, s)] in prev;
    if prev[s] != NULL { assert l[Index(l, s) - 1] in next && l[Index(l, s) - 1] in prev; }
    if next[s] != NULL { assert l[Index(l, s) + 1] in next && l[Index(l, s) + 1] in prev; }
  }

  lemma PlacedPatch(rolls: Rolls, place: map<Addr, Place>, s: Addr, n: Addr)
    requires Placed(rolls, place)
    requires s in place && place[s] != Loose && NoDup(rolls[place[s]]) && (n == s || n !in place)
    ensures Placed(rolls[place[s] := rolls[place[s]][Index(rolls[place[s]], s) := n]], Moved(place, s, n))
  {
    var p := place[s];
    var l, k := rolls[p], Index(rolls[p], s);
    var rolls', place' := rolls[p := l[k := n]], Moved(place, s, n);
    forall a | a in place' && place'[a] != Loose
      ensures place'[a] in rolls' && a in rolls'[place'[a]]
    {
      if a == n {
        assert l[k := n][k] == n;
      } else if place[a] == p {
        assert l[k := n][Index(l, a)] == a;
      }
    }
    forall q, a | q in rolls' && a in rolls'[q]
      ensures a in place' && place'[a] == q
    {
      if q == p {
        var i :| 0 <= i < |l| && l[k := n][i] == a;
        assert i != k ==> l[i] == a && a in l;
      }
    }
  }

  /** A two-way listed block may move when its neighbours are patched. */
  lemma MoveThreaded(prev: Links, next: Links, heads: map<Place, Addr>, rolls: Rolls, place: map<Addr, Place>, s: Addr,
                     n: Addr)
    requires Threaded(prev, next, heads, rolls, place)
    requires s in place && place[s] != Loose && place[s] != Closed && n != NULL && (n == s || n !in place)
    ensures s in prev && s in next
    ensures prev[s] != NULL ==> prev[s] in prev && prev[s] in next && prev[s] != s && prev[s] in place
    ensures next[s] != NULL ==> next[s] in prev && next[s] in next && next[s] != s && next[s] in place
    ensures var p := place[s];
            Threaded(PatchPrev(prev, next, s, n), PatchNext(prev, next, s, n),
                     heads[p := PatchHead(prev, heads[p], s, n)],
                     rolls[p := rolls[p][Index(rolls[p], s) := n]], Moved(place, s, n))
  {
    hide Placed, Chained, Stacked, NoDup, PatchPrev, PatchNext, PatchHead, Moved, Index;
    PlacedOn(rolls, place, s);
    var p := place[s];
    assert Chained(prev, next, rolls[p], heads[p]);
    ChainedNoDup(prev, next, rolls[p], heads[p]);
    PlacedOff(rolls, place, n);
    PatchElsewhere(prev, next, heads[p], rolls, place, s, n);
    PatchChained(prev, next, rolls[p], heads[p], s, n);
    PlacedPatch(rolls, place, s, n);
    var prev', next' := PatchPrev(prev, next, s, n), PatchNext(prev, next, s, n);
    forall q | q in rolls && q != p && q != Closed {
      OtherChained(prev, next, heads, rolls, place, prev', next', p, s, q);
    }
    OtherStacked(next, heads, rolls, place, next', p, s);
  }

  /** Releasing the whole close list leaves the other lists threaded. */
  lemma ReleaseThreaded(prev: Links, next: Links, heads: map<Place, Addr>, rolls: Rolls, place: map<Addr, Place>,
                        gone: set<Addr>)
    requires Threaded(prev, next, heads, rolls, place)
    requires forall a :: a in gone <==> a in rolls[Closed]
    ensures Threaded(prev - gone, next - gone, heads[Closed := NULL], rolls[Closed := []], place - gone)
  {
    var prev', next' := prev - gone, next - gone;
    forall q | q in rolls && q != Closed
      ensures Chained(prev', next', rolls[q], heads[q])
    {
      assert Chained(prev, next, rolls[q], heads[q]);
      ChainedFrame(prev, next, prev', next', rolls[q], heads[q]);
    }
  }

  lemma PlacedContext(rolls: Rolls, place: map<Addr, Place>, c: Addr)
    requires Placed(rolls, place) && Linked(c) !in rolls && Listening(c) !in rolls
    ensures Placed(rolls[Linked(c) := []][Listening(c) := []], place)
  {
    assert forall s | s in place && place[s] != Loose :: place[s] != Linked(c) && place[s] != Listening(c);
  }

  lemma ChainedNone(prev: Links, next: Links)
    ensures Chained(prev, next, [], NULL)
  {
  }

  /** A fresh context brings two empty lists. */
  lemma ContextThreaded(prev: Links, next: Links, heads: map<Place, Addr>, rolls: Rolls, place: map<Addr, Place>,
                        c: Addr)
    requires Threaded(prev, next, heads, rolls, place)
    requires Linked(c) !in rolls && Listening(c) !in rolls
    ensures Threaded(prev, next, heads[Linked(c) := NULL][Listening(c) := NULL],
                     rolls[Linked(c) := []][Listening(c) := []], place)
  {
    hide Chained, Stacked, Placed;
    PlacedContext(rolls, place, c);
    ChainedNone(prev, next);
  }
}
