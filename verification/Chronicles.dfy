/** The journal against the state: what it tells about clocks, linked sockets and timers is so. */
module Chronicles {
  import opened Threads
  import opened Journal
  import opened Chimes

  ghost function Spot(owner: map<int, Addr>, place: map<Addr, Place>, k: int): Addr {
    if k in owner && owner[k] in place && place[owner[k]].Linked? then place[owner[k]].context else NULL
  }

  ghost function RingAt(owner: map<int, Addr>, alarms: map<Addr, Alarm>, k: int): Ring {
    if k in owner && owner[k] in alarms then Chime(alarms[owner[k]]) else Silent
  }

  ghost predicate Whereabouts(log: Log, owner: map<int, Addr>, place: map<Addr, Place>) {
    forall k :: WhereIs(log, k) == Spot(owner, place, k)
  }

  ghost predicate Clocks(log: Log, tick: map<Addr, nat>) {
    forall c | c in tick :: ClockOf(log, c) == tick[c]
  }

  ghost predicate Bells(log: Log, timer: Timer, owner: map<int, Addr>, alarms: map<Addr, Alarm>) {
    forall k :: RingOf(log, timer, k) == RingAt(owner, alarms, k)
  }

  ghost predicate Chronicled(log: Log, owner: map<int, Addr>, place: map<Addr, Place>, tick: map<Addr, nat>,
                             alarms: map<Addr, Alarm>, longAlarms: map<Addr, Alarm>)
  {
    && Orderly(log) && Whereabouts(log, owner, place) && Clocks(log, tick)
    && Bells(log, ShortTimer, owner, alarms) && Bells(log, LongTimer, owner, longAlarms)
  }

  /** `k` is the identity of the socket at `s`, and of no other. */
  ghost predicate Owns(owner: map<int, Addr>, k: int, s: Addr) {
    k in owner && owner[k] == s && forall x | x in owner && owner[x] == s :: x == k
  }

  // ---- Events that are about something else

  ghost predicate Neutral(e: Event) {
    !Timely(e) && !IsRing(e)
  }

  lemma NeutralKeeps(log: Log, e: Event, owner: map<int, Addr>, place: map<Addr, Place>, tick: map<Addr, nat>,
                     alarms: map<Addr, Alarm>, longAlarms: map<Addr, Alarm>)
    requires Chronicled(log, owner, place, tick, alarms, longAlarms) && Neutral(e)
    ensures Chronicled(log + [e], owner, place, tick, alarms, longAlarms)
  {
    hide Orderly, RingOf, ClockOf, WhereIs, Spot, RingAt;
    Appended(log, e);
    FitsOrderly(log, e);
  }

  // ---- Steps without an event

  /** A socket that is on no context's list may change its place, as long as it does not get onto one. */
  lemma PlacedKeeps(log: Log, owner: map<int, Addr>, place: map<Addr, Place>, tick: map<Addr, nat>,
                    alarms: map<Addr, Alarm>, longAlarms: map<Addr, Alarm>, s: Addr, p: Place)
    requires Chronicled(log, owner, place, tick, alarms, longAlarms) && s in place && !place[s].Linked? && !p.Linked?
    ensures Chronicled(log, owner, place[s := p], tick, alarms, longAlarms)
  {
    hide Orderly, RingOf, ClockOf, WhereIs, RingAt;
    assert forall k :: Spot(owner, place[s := p], k) == Spot(owner, place, k);
  }

  lemma OwnedKeeps(log: Log, owner: map<int, Addr>, place: map<Addr, Place>, tick: map<Addr, nat>,
                   alarms: map<Addr, Alarm>, longAlarms: map<Addr, Alarm>, k: int, a: Addr)
    requires Chronicled(log, owner, place, tick, alarms, longAlarms)
    requires k !in owner && a !in place && a !in alarms && a !in longAlarms
    ensures Chronicled(log, owner[k := a], place[a := Loose], tick, alarms, longAlarms)
  {
    hide Orderly, RingOf, ClockOf, WhereIs;
    forall x
      ensures Spot(owner[k := a], place[a := Loose], x) == Spot(owner, place, x)
      ensures RingAt(owner[k := a], alarms, x) == RingAt(owner, alarms, x)
      ensures RingAt(owner[k := a], longAlarms, x) == RingAt(owner, longAlarms, x)
    {
    }
  }

  /** The block of a socket that is on no context's list moves. */
  lemma MovedKeeps(log: Log, owner: map<int, Addr>, place: map<Addr, Place>, tick: map<Addr, nat>,
                   alarms: map<Addr, Alarm>, longAlarms: map<Addr, Alarm>, k: int, s: Addr, n: Addr)
    requires Chronicled(log, owner, place, tick, alarms, longAlarms)
    requires Owns(owner, k, s) && s in place && !place[s].Linked? && n !in place && n != s
    requires s !in alarms && s !in longAlarms && n !in alarms && n !in longAlarms
    ensures Chronicled(log, owner[k := n], Moved(place, s, n), tick, alarms, longAlarms)
  {
    hide Orderly, RingOf, ClockOf, WhereIs;
    forall x
      ensures Spot(owner[k := n], Moved(place, s, n), x) == Spot(owner, place, x)
      ensures RingAt(owner[k := n], alarms, x) == RingAt(owner, alarms, x)
      ensures RingAt(owner[k := n], longAlarms, x) == RingAt(owner, longAlarms, x)
    {
    }
  }

  ghost function Keeping(owner: map<int, Addr>, gone: set<Addr>): map<int, Addr> {
    map k | k in owner && owner[k] !in gone :: owner[k]
  }

  lemma ForgottenAt(owner: map<int, Addr>, place: map<Addr, Place>, gone: set<Addr>, alarms: map<Addr, Alarm>, k: int)
    requires forall s | s in gone :: (s in place ==> !place[s].Linked?) && s !in alarms
    ensures Spot(Keeping(owner, gone), place - gone, k) == Spot(owner, place, k)
    ensures RingAt(Keeping(owner, gone), alarms, k) == RingAt(owner, alarms, k)
  {
    if k in owner {
      var s := owner[k];
      if s in gone { assert k !in Keeping(owner, gone); } else { assert k in Keeping(owner, gone); }
    }
  }

  /** Sockets that are on no context's list are forgotten. */
  lemma ForgottenKeeps(log: Log, owner: map<int, Addr>, place: map<Addr, Place>, gone: set<Addr>,
                       tick: map<Addr, nat>, alarms: map<Addr, Alarm>, longAlarms: map<Addr, Alarm>)
    requires Chronicled(log, owner, place, tick, alarms, longAlarms)
    requires forall s | s in gone :: (s in place ==> !place[s].Linked?) && s !in alarms && s !in longAlarms
    ensures Chronicled(log, Keeping(owner, gone), place - gone, tick, alarms, longAlarms)
  {
    hide Orderly, RingOf, ClockOf, WhereIs;
    var owner' := Keeping(owner, gone);
    forall x: int
      ensures Spot(owner', place - gone, x) == Spot(owner, place, x)
      ensures RingAt(owner', alarms, x) == RingAt(owner, alarms, x)
              && RingAt(owner', longAlarms, x) == RingAt(owner, longAlarms, x)
    {
      ForgottenAt(owner, place, gone, alarms, x);
      ForgottenAt(owner, place, gone, longAlarms, x);
    }
  }

  lemma ContextForgotten(log: Log, owner: map<int, Addr>, place: map<Addr, Place>, tick: map<Addr, nat>,
                         alarms: map<Addr, Alarm>, longAlarms: map<Addr, Alarm>, c: Addr)
    requires Chronicled(log, owner, place, tick, alarms, longAlarms)
    ensures Chronicled(log, owner, place, tick - {c}, alarms, longAlarms)
  {
    hide Orderly, RingOf, ClockOf, WhereIs, Spot, RingAt;
  }

  // ---- Linking, clocks and timers

  lemma LeftKeeps(log: Log, owner: map<int, Addr>, place: map<Addr, Place>, tick: map<Addr, nat>,
                  alarms: map<Addr, Alarm>, longAlarms: map<Addr, Alarm>, k: int, s: Addr)
    requires Chronicled(log, owner, place, tick, alarms, longAlarms) && Owns(owner, k, s) && s in place
             && place[s].Linked?
    ensures Chronicled(log + [Left(k, place[s].context)], owner, place[s := Loose], tick, alarms - {s},
            longAlarms - {s})
  {
    hide Orderly, RingOf, ClockOf, WhereIs;
    Appended(log, Left(k, place[s].context));
    FitsOrderly(log, Left(k, place[s].context));
    forall x
      ensures Spot(owner, place[s := Loose], x) == if x == k then NULL else Spot(owner, place, x)
      ensures RingAt(owner, alarms - {s}, x) == if x == k then Silent else RingAt(owner, alarms, x)
      ensures RingAt(owner, longAlarms - {s}, x) == if x == k then Silent else RingAt(owner, longAlarms, x)
    {
    }
  }

  lemma EnteredKeeps(log: Log, owner: map<int, Addr>, place: map<Addr, Place>, tick: map<Addr, nat>,
                     alarms: map<Addr, Alarm>, longAlarms: map<Addr, Alarm>, k: int, s: Addr, c: Addr)
    requires Chronicled(log, owner, place, tick, alarms, longAlarms) && Owns(owner, k, s) && c != NULL
    requires s in place && !place[s].Linked?
    ensures Chronicled(log + [Entered(k, c)], owner, place[s := Linked(c)], tick, alarms, longAlarms)
  {
    hide Orderly, RingOf, ClockOf, WhereIs, RingAt;
    Appended(log, Entered(k, c));
    FitsOrderly(log, Entered(k, c));
    forall x
      ensures Spot(owner, place[s := Linked(c)], x) == if x == k then c else Spot(owner, place, x)
    {
    }
  }

  lemma SetKeeps(log: Log, timer: Timer, owner: map<int, Addr>, place: map<Addr, Place>, tick: map<Addr, nat>,
                 alarms: map<Addr, Alarm>, longAlarms: map<Addr, Alarm>, k: int, s: Addr, due: int)
    requires Chronicled(log, owner, place, tick, alarms, longAlarms) && Owns(owner, k, s)
    requires s in place && place[s].Linked? && place[s].context != NULL
    ensures Chronicled(log + [Set(timer, k, due)], owner, place, tick,
                       if timer == ShortTimer then alarms[s := Alarm(due, [])] else alarms,
                       if timer == LongTimer then longAlarms[s := Alarm(due, [])] else longAlarms)
  {
    hide Orderly, RingOf, ClockOf, WhereIs;
    Appended(log, Set(timer, k, due));
    FitsOrderly(log, Set(timer, k, due));
  }

  lemma UnsetKeeps(log: Log, timer: Timer, owner: map<int, Addr>, place: map<Addr, Place>, tick: map<Addr, nat>,
                   alarms: map<Addr, Alarm>, longAlarms: map<Addr, Alarm>, k: int, s: Addr)
    requires Chronicled(log, owner, place, tick, alarms, longAlarms) && Owns(owner, k, s)
    ensures Chronicled(log + [Unset(timer, k)], owner, place, tick,
                       if timer == ShortTimer then alarms - {s}
                           else alarms, if timer == LongTimer then longAlarms - {s} else longAlarms)
  {
    hide Orderly, RingOf, ClockOf, WhereIs;
    Appended(log, Unset(timer, k));
    FitsOrderly(log, Unset(timer, k));
  }

  lemma BeganKeeps(log: Log, owner: map<int, Addr>, place: map<Addr, Place>, tick: map<Addr, nat>,
                   alarms: map<Addr, Alarm>, longAlarms: map<Addr, Alarm>, c: Addr)
    requires Chronicled(log, owner, place, tick, alarms, longAlarms)
    ensures Chronicled(log + [Began(c)], owner, place, tick[c := 0], alarms, longAlarms)
  {
    hide Orderly, RingOf, ClockOf, WhereIs, Spot, RingAt;
    Appended(log, Began(c));
    FitsOrderly(log, Began(c));
  }

  lemma StruckKeeps(log: Log, owner: map<int, Addr>, place: map<Addr, Place>, tick: map<Addr, nat>,
                    alarms: map<Addr, Alarm>, longAlarms: map<Addr, Alarm>, c: Addr)
    requires Chronicled(log, owner, place, tick, alarms, longAlarms) && c in tick
    ensures Chronicled(log + [Struck(c, tick[c] + 1)], owner, place, tick[c := tick[c] + 1], alarms, longAlarms)
  {
    hide Orderly, RingOf, ClockOf, WhereIs, Spot, RingAt;
    Appended(log, Struck(c, tick[c] + 1));
    FitsOrderly(log, Struck(c, tick[c] + 1));
  }

  ghost function AlarmsOf(timer: Timer, alarms: map<Addr, Alarm>, longAlarms: map<Addr, Alarm>): map<Addr, Alarm> {
    if timer == ShortTimer then alarms else longAlarms
  }

  /** The sweep looks at a timer that is not due. */
  lemma SeenKeeps(log: Log, timer: Timer, owner: map<int, Addr>, place: map<Addr, Place>, tick: map<Addr, nat>,
                  alarms: map<Addr, Alarm>, longAlarms: map<Addr, Alarm>, k: int, s: Addr, c: Addr)
    requires Chronicled(log, owner, place, tick, alarms, longAlarms)
    requires Owns(owner, k, s) && s in place && place[s] == Linked(c) && c in tick
    requires s in AlarmsOf(timer, alarms, longAlarms) ==> AlarmsOf(timer, alarms, longAlarms)[s] != Alarm(tick[c], [])
    ensures Chronicled(log + [Seen(timer, k, c, tick[c])], owner, place, tick, alarms, longAlarms)
  {
    hide Orderly, RingOf, ClockOf, WhereIs;
    Appended(log, Seen(timer, k, c, tick[c]));
    FitsOrderly(log, Seen(timer, k, c, tick[c]));
  }

  ghost function Rang(log: Log, timer: Timer, k: int, c: Addr, t: int): Log {
    log + [Seen(timer, k, c, t)] + [Called(HandlerOf(timer), k)]
  }

  /** The sweep looks at a timer that is due, and calls its handler. */
  lemma RungKeeps(log: Log, timer: Timer, owner: map<int, Addr>, place: map<Addr, Place>, tick: map<Addr, nat>,
                  alarms: map<Addr, Alarm>, longAlarms: map<Addr, Alarm>, k: int, s: Addr, c: Addr)
    requires Chronicled(log, owner, place, tick, alarms, longAlarms)
    requires Owns(owner, k, s) && s in place && place[s] == Linked(c) && c in tick
    requires s in AlarmsOf(timer, alarms, longAlarms) && AlarmsOf(timer, alarms, longAlarms)[s] == Alarm(tick[c], [])
    ensures Chronicled(Rang(log, timer, k, c, tick[c]), owner, place, tick,
                       if timer == ShortTimer then alarms[s := Alarm(tick[c], [tick[c]])] else alarms,
                       if timer == LongTimer then longAlarms[s := Alarm(tick[c], [tick[c]])] else longAlarms)
  {
    hide Orderly, RingOf, ClockOf, WhereIs;
    var e := Seen(timer, k, c, tick[c]);
    Appended(log, e);
    Appended(log + [e], Called(HandlerOf(timer), k));
    DueOrderly(log, e);
    assert (log + [e])[|log|] == e;
    assert [] + [tick[c]] == [tick[c]];
  }
}
