/** Which handlers a walk calls as long as they do nothing. */
module Ringing {
  import opened Threads
  import opened Journal
  import opened States
  import opened Walking
  import opened Evolution
  import opened Sweeping

  ghost function RingIf(timer: Timer, k: int, c: Addr, t: int, match_: bool): Log {
    [Seen(timer, k, c, t)] + (if match_ then [Called(HandlerOf(timer), k)] else [])
  }

  /** Both timers of `s` are looked at, the short one first, and the handler of each is called if its stamp matches. */
  ghost function RungBy(m: Mem, c: Addr, s: Addr): Log {
    if s in m.id && c in m.tick && s in m.timeout && s in m.longTimeout && c in m.timestamp && c in m.longTimestamp
    then RingIf(ShortTimer, m.id[s], c, m.tick[c], m.timeout[s] == m.timestamp[c])
         + RingIf(LongTimer, m.id[s], c, m.tick[c], m.longTimeout[s] == m.longTimestamp[c])
    else []
  }

  ghost function Rung(m: Mem, c: Addr, l: seq<Addr>): Log
    decreases |l|
  {
    if l == [] then [] else Rung(m, c, l[..|l| - 1]) + RungBy(m, c, l[|l| - 1])
  }

  /** The sockets on `l` are as due as they were. */
  ghost predicate AsDue(m: Mem, m': Mem, c: Addr, l: seq<Addr>) {
    forall s | s in l :: RungBy(m', c, s) == RungBy(m, c, s)
  }

  lemma AsDueSelf(m: Mem, c: Addr, l: seq<Addr>)
    ensures AsDue(m, m, c, l) && Rung(m, c, []) == []
  {
  }

  lemma RungOne(m: Mem, c: Addr, l: seq<Addr>, s: Addr)
    ensures Rung(m, c, l + [s]) == Rung(m, c, l) + RungBy(m, c, s)
  {
    assert (l + [s])[..|l|] == l;
  }

  lemma AsDueLess(m0: Mem, m: Mem, c: Addr, l: seq<Addr>, s: Addr)
    requires AsDue(m0, m, c, l + [s])
    ensures AsDue(m0, m, c, l) && RungBy(m0, c, s) == RungBy(m, c, s)
  {
    hide RungBy;
    assert s in l + [s];
    forall a | a in l
      ensures a in l + [s]
    {
    }
  }

  lemma LogConcat(a: Log, b: Log, c: Log)
    ensures a + b + c == a + (b + c)
  {
  }

  lemma {:induction false} RungMore(m0: Mem, m: Mem, c: Addr, l: seq<Addr>, more: seq<Addr>)
    requires AsDue(m0, m, c, more)
    ensures Rung(m0, c, l + more) == Rung(m0, c, l) + Rung(m, c, more)
    decreases |more|
  {
    hide RungBy, Rung, AsDue;
    if more == [] {
      assert l + more == l;
      AsDueSelf(m, c, []);
    } else {
      var init, last := more[..|more| - 1], more[|more| - 1];
      assert more == init + [last];
      AsDueLess(m0, m, c, init, last);
      RungMore(m0, m, c, l, init);
      RungOne(m0, c, l + init, last);
      RungOne(m, c, init, last);
      assert l + more == l + init + [last];
      LogConcat(Rung(m0, c, l), Rung(m, c, init), RungBy(m, c, last));
    }
  }

  lemma NotDue(st: State, c: Addr, s: Addr)
    requires Timed(st, c, s) && !Due(st, c, s)
    ensures RungBy(st.m, c, s) == [Seen(ShortTimer, st.m.id[s], c, st.m.tick[c])]
            + [Seen(LongTimer, st.m.id[s], c, st.m.tick[c])]
  {
  }

  /** One socket further, past one that is not due. */
  lemma SoughtOne(log0: Log, st: State, c: Addr, s: Addr, passed: seq<Addr>, rest: seq<Addr>, log': Log)
    requires Timed(st, c, s) && !Due(st, c, s) && st.g.log == log0 + Rung(st.m, c, passed)
    requires log' == st.g.log + [Seen(ShortTimer, st.m.id[s], c, st.m.tick[c])]
             + [Seen(LongTimer, st.m.id[s], c, st.m.tick[c])]
    ensures log' == log0 + Rung(st.m, c, passed + [s]) && passed + [s] + rest == passed + ([s] + rest)
  {
    hide Rung, RungBy, Due;
    NotDue(st, c, s);
    RungOne(st.m, c, passed, s);
    LogConcat(st.g.log, [Seen(ShortTimer, st.m.id[s], c, st.m.tick[c])],
        [Seen(LongTimer, st.m.id[s], c, st.m.tick[c])]);
    LogConcat(log0, Rung(st.m, c, passed), RungBy(st.m, c, s));
  }

  /** From the walk's first step to now the handlers called are those due of the sockets `seen`; those `ahead` are as
      due as they were. */
  ghost predicate Quiet(m0: Mem, log0: Log, m: Mem, log: Log, c: Addr, seen: seq<Addr>, ahead: seq<Addr>) {
    log == log0 + Rung(m0, c, seen) && AsDue(m0, m, c, ahead)
  }

  lemma QuietFirst(m: Mem, log: Log, c: Addr, ahead: seq<Addr>)
    ensures Quiet(m, log, m, log, c, [], ahead)
  {
    hide Rung, AsDue;
    AsDueSelf(m, c, ahead);
  }

  lemma QuietSought(m0: Mem, log0: Log, m: Mem, log: Log, log': Log, c: Addr, seen: seq<Addr>, ahead: seq<Addr>,
                    found: seq<Addr>)
    requires Quiet(m0, log0, m, log, c, seen, ahead) && IsSuffix(found, ahead)
    requires log' == log + Rung(m, c, ahead[..|ahead| - |found|])
    ensures Quiet(m0, log0, m, log', c, seen + ahead[..|ahead| - |found|], found)
  {
    hide RungBy, Rung;
    var passed := ahead[..|ahead| - |found|];
    assert ahead == passed + found;
    RungMore(m0, m, c, seen, passed);
  }

  lemma QuietPassed(m0: Mem, log0: Log, st: State, st': State, c: Addr, seen: seq<Addr>, passed: seq<Addr>)
    requires Quiet(m0, log0, st.m, st.g.log, c, seen, Ahead(st.g.walk)) && st'.m == st.m
    requires passed + Ahead(st'.g.walk) == Ahead(st.g.walk) && st'.g.log == st.g.log + Rung(st.m, c, passed)
    ensures Quiet(m0, log0, st'.m, st'.g.log, c, seen + passed, Ahead(st'.g.walk))
  {
    hide Quiet, Rung, Ahead;
    var ahead, found := Ahead(st.g.walk), Ahead(st'.g.walk);
    assert ahead[..|ahead| - |found|] == passed && ahead[|ahead| - |found|..] == found;
    QuietSought(m0, log0, st.m, st.g.log, st'.g.log, c, seen, ahead, found);
  }

  lemma QuietExamined(m0: Mem, log0: Log, m: Mem, log: Log, m': Mem, log': Log, c: Addr, seen: seq<Addr>,
                      found: seq<Addr>, left: seq<Addr>)
    requires Quiet(m0, log0, m, log, c, seen, found) && found != [] && left == Without(found[1..], {})
    requires log' == log + RungBy(m, c, found[0]) && AsDue(m, m', c, left)
    ensures Quiet(m0, log0, m', log', c, seen + [found[0]], left)
  {
    hide RungBy, Rung, Without;
    RungOne(m0, c, seen, found[0]);
    assert found[0] in found;
    WithoutAbsent(found[1..], {});
    forall s | s in left
      ensures s in found
    {
    }
  }

  lemma LookLogIs(st: State, timer: Timer, s: Addr, match_: bool)
    requires s in st.m.id && st.g.walk.Walk? && st.g.walk.context in st.m.tick
    ensures LookLog(st, timer, s, match_) == st.g.log + RingIf(timer, st.m.id[s], st.g.walk.context,
            st.m.tick[st.g.walk.context], match_)
  {
  }

  lemma ReachedIs(st: State)
    requires ReachedGuard(st)
    ensures var c, s, st' := st.g.walk.context, st.g.walk.ahead[0], Reached(st);
            && st'.m == st.m.(timeout := st'.m.timeout) && (forall a | a != s ::
                        (a in st'.m.timeout <==> a in st.m.timeout)
                        && (a in st.m.timeout ==> st'.m.timeout[a] == st.m.timeout[a]))
            && s in st'.m.timeout && LongLookedGuard(st')
            && st'.g.walk == Walk(c, s, true, true, st.g.walk.ahead[1..], {})
            && st'.g.log == LookLog(st, ShortTimer, s, st.m.timeout[s] == st.m.timestamp[c])
  {
    hide LookLog;
  }

  lemma LongLookedIs(st: State)
    requires LongLookedGuard(st)
    ensures var c, s, st' := st.g.walk.context, st.g.walk.cur, LongLooked(st);
            && st'.m == st.m.(longTimeout := st'.m.longTimeout) && (forall a | a != s ::
                        (a in st'.m.longTimeout <==> a in st.m.longTimeout)
                        && (a in st.m.longTimeout ==> st'.m.longTimeout[a] == st.m.longTimeout[a]))
            && st'.g.log == LookLog(st, LongTimer, s, st.m.longTimeout[s] == st.m.longTimestamp[c])
  {
    hide LookLog;
  }

  /** The handlers of `s` were called as due, if all did nothing. */
  lemma RungAt(st: State, c: Addr, s: Addr, rest: seq<Addr>)
    requires ReachedGuard(st) && st.g.walk.context == c && st.g.walk.ahead[0] == s && s !in rest
    ensures Reached(st).g.log == st.g.log + RingIf(ShortTimer, st.m.id[s], c, st.m.tick[c],
            st.m.timeout[s] == st.m.timestamp[c])
    ensures LongLookedGuard(Reached(st))
    ensures LongLooked(Reached(st)).g.log == st.g.log + RungBy(st.m, c, s)
    ensures AsDue(st.m, LongLooked(Reached(st)).m, c, rest)
  {
    hide Reached, LongLooked, LookLog, RingIf;
    var a := Reached(st);
    ReachedIs(st);
    LongLookedIs(a);
    LookLogIs(st, ShortTimer, s, st.m.timeout[s] == st.m.timestamp[c]);
    LookLogIs(a, LongTimer, s, a.m.longTimeout[s] == a.m.longTimestamp[c]);
    LogConcat(st.g.log, RingIf(ShortTimer, st.m.id[s], c, st.m.tick[c], st.m.timeout[s] == st.m.timestamp[c]),
              RingIf(LongTimer, st.m.id[s], c, st.m.tick[c], st.m.longTimeout[s] == st.m.longTimestamp[c]));
  }

  lemma ExaminedQuietly(start: State, m: Mem, st: State, c: Addr, s: Addr)
    requires Seeking(start, st, c, s) && s != NULL && Ahead(st.g.walk) != [] && st.m == m.(walker := st.m.walker)
    ensures OnCur(Reached(st).g.walk)
    ensures var st', rest := LongLooked(Reached(st)), Ahead(st.g.walk)[1..];
            Advanced(st').g.log == st.g.log + RungBy(m, c, s) && AsDue(m, st'.m, c, Without(rest, {}))
  {
    hide Inv, IsSuffix, Settled, Ticked, Without, Tail, AsDue, RungBy, RingIf;
    var rest := Ahead(st.g.walk)[1..];
    ExamineFacts(st);
    RungAt(st, c, s, rest);
    WithoutAbsent(rest, {});
    WalkerAside(m, st.m.walker, c, s, LongLooked(Reached(st)).m, rest);
  }

  /** Where the iterator is makes nobody due. */
  lemma WalkerAside(m: Mem, walker: map<Addr, Addr>, c: Addr, s: Addr, m': Mem, rest: seq<Addr>)
    ensures RungBy(m.(walker := walker), c, s) == RungBy(m, c, s)
    ensures AsDue(m.(walker := walker), m', c, rest) ==> AsDue(m, m', c, rest)
  {
  }

  lemma WalkStartedLog(st: State, c: Addr)
    requires c in st.m.tick && Linked(c) in st.g.rolls
    ensures WalkStarted(st, c).g.log == st.g.log + [Struck(c, st.m.tick[c] + 1)]
  {
  }
}
