/** How the sweep under way keeps track of the sockets it has still to see, whatever user code does meanwhile. */
module Tracking {
  import opened Threads
  import opened Journal
  import opened States

  /** The sweep under way only loses sockets. */
  ghost predicate WalksOn(w: Walk, w': Walk) {
    if w.NoWalk? then w'.NoWalk?
    else w'.Walk? && w'.context == w.context && w'.cur == w.cur && w'.owesLong == w.owesLong && w'.ahead == w.ahead
         && w.dropped <= w'.dropped && (w'.onCur ==> w.onCur)
  }

  ghost predicate LeftSince(log: Log, n: nat, k: int, c: Addr) {
    exists i | n <= i < |log| :: log[i] == Left(k, c)
  }

  /** No clock advanced and no socket was looked at: no sweep was run. */
  ghost predicate Unswept(log: Log, log': Log) {
    log <= log' && forall i | |log| <= i < |log'| :: !log'[i].Seen? && !log'[i].Struck?
  }

  /** A socket the sweep under way has still to see is unlinked exactly if that was logged, and else where and who it
      was. */
  ghost predicate Tracked(st: State, st': State, a: Addr)
    requires st.g.walk.Walk? && a in st.m.id
  {
    var left := LeftSince(st'.g.log, |st.g.log|, st.m.id[a], st.g.walk.context);
    if a in Unseen(st'.g.walk) then a in st'.m.id && st'.m.id[a] == st.m.id[a] && !left else left
  }

  ghost predicate Tracks(st: State, st': State) {
    && Unswept(st.g.log, st'.g.log)
    && (st.g.walk.Walk? ==> forall a | a in Unseen(st.g.walk) && a in st.m.id :: Tracked(st, st', a))
  }

  lemma TracksTrans(a: State, b: State, c: State)
    requires Tracks(a, b) && Tracks(b, c) && WalksOn(a.g.walk, b.g.walk) && WalksOn(b.g.walk, c.g.walk)
    ensures Tracks(a, c)
  {
    hide Unseen;
    UnsweptTrans(a.g.log, b.g.log, c.g.log);
    if a.g.walk.Walk? {
      forall x | x in Unseen(a.g.walk) && x in a.m.id
        ensures Tracked(a, c, x)
      {
        TrackedTrans(a, b, c, x);
      }
    }
  }

  lemma UnsweptTrans(a: Log, b: Log, c: Log)
    requires Unswept(a, b) && Unswept(b, c)
    ensures Unswept(a, c)
  {
    forall i | |a| <= i < |c|
      ensures !c[i].Seen? && !c[i].Struck?
    {
      if i < |b| { assert c[i] == b[i]; }
    }
  }

  lemma LeftSinceMore(a: Log, b: Log, c: Log, k: int, x: Addr)
    requires a <= b <= c
    ensures LeftSince(c, |a|, k, x) <==> LeftSince(b, |a|, k, x) || LeftSince(c, |b|, k, x)
  {
    if LeftSince(b, |a|, k, x) {
      var i :| |a| <= i < |b| && b[i] == Left(k, x);
      assert c[i] == b[i];
    }
    if LeftSince(c, |a|, k, x) {
      var i :| |a| <= i < |c| && c[i] == Left(k, x);
      if i < |b| { assert b[i] == c[i]; }
    }
  }

  lemma TrackedTrans(a: State, b: State, c: State, x: Addr)
    requires Tracks(a, b) && Tracks(b, c) && a.g.walk.Walk? && WalksOn(a.g.walk, b.g.walk)
             && WalksOn(b.g.walk, c.g.walk)
    requires x in Unseen(a.g.walk) && x in a.m.id
    ensures Tracked(a, c, x)
  {
    hide LeftSince;
    assert Tracked(a, b, x);
    LeftSinceMore(a.g.log, b.g.log, c.g.log, a.m.id[x], a.g.walk.context);
    if x in Unseen(b.g.walk) { assert Tracked(b, c, x); }
  }

  /** Steps in which nobody leaves a list, and nobody ahead of the sweep moves. */
  ghost predicate Calm(log: Log, log': Log) {
    log <= log' && forall i | |log| <= i < |log'| :: !log'[i].Seen? && !log'[i].Struck? && !log'[i].Left?
  }

  lemma TracksCalm(st: State, st': State)
    requires st'.g.walk == st.g.walk && Calm(st.g.log, st'.g.log)
    requires forall a | a in Unseen(st.g.walk) && a in st.m.id :: a in st'.m.id && st'.m.id[a] == st.m.id[a]
    ensures Tracks(st, st')
  {
    hide Unseen;
  }

  lemma TracksSelf(st: State)
    ensures Tracks(st, st)
  {
    hide Unseen, Tracks;
    CalmSame(st.g.log);
    TracksCalm(st, st);
  }

  lemma CalmSame(log: Log)
    ensures Calm(log, log)
  {
  }

  lemma CalmOne(log: Log, e: Event)
    requires !e.Seen? && !e.Struck? && !e.Left?
    ensures Calm(log, log + [e])
  {
  }
}
