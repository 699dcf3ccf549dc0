/** The timeout wheel: sockets carry an 8-bit stamp, a context a tick count, and
    the sweep of a tick fires the sockets whose stamp equals the tick modulo 240. */
module Wheel {
  const SLOTS := 240
  const NEVER := 255
  const UINT32 := 0x1_0000_0000

  /** Ticks per slot: 1 on the short wheel, 15 on the long (minute) wheel. */
  type Unit = u: int | u == 1 || u == 15 witness 1

  function Wrap(x: int): (r: int)
    ensures 0 <= r < SLOTS
  {
    x % SLOTS
  }

  function Uint32(x: int): int {
    x % UINT32
  }

  function Slot(tick: int, unit: Unit): int {
    Wrap(tick / unit)
  }

  /** The stamp `us_socket_timeout` stores for a non-zero number of seconds. */
  function ShortStamp(timestamp: int, seconds: int): int {
    Wrap(timestamp + Uint32(seconds + 3) / 4)
  }

  /** The stamp `us_socket_long_timeout` stores for a non-zero number of minutes. */
  function LongStamp(longTimestamp: int, minutes: int): int {
    Wrap(Uint32(longTimestamp + minutes))
  }

  /** How many slots ahead of slot `m` the stamp is. */
  function Distance(m: int, stamp: int): (d: int)
    ensures 0 <= d < SLOTS
  {
    Wrap(stamp - Wrap(m))
  }

  /** The first tick, not before `from`, whose sweep matches `stamp`. */
  function NextMatch(from: nat, unit: Unit, stamp: int): (t: int)
    requires 0 <= stamp < SLOTS
  {
    var d := Distance(from / unit, stamp);
    if d == 0 then from else (from / unit + d) * unit
  }

  // ---- Arithmetic modulo 240

  lemma WrapIs(x: int, q: int, r: int)
    requires x == q * SLOTS + r && 0 <= r < SLOTS
    ensures Wrap(x) == r
  {
  }

  lemma WrapSum(a: int, b: int)
    ensures Wrap(Wrap(a) + b) == Wrap(a + b)
  {
    hide Wrap;
    WrapParts(a);
    WrapParts(a + b);
    WrapIs(Wrap(a) + b, (a + b) / SLOTS - a / SLOTS, Wrap(a + b));
  }

  lemma WrapParts(x: int)
    ensures x == x / SLOTS * SLOTS + Wrap(x)
  {
  }

  lemma WrapSmall(x: int)
    ensures Wrap(x) == x <==> 0 <= x < SLOTS
  {
  }

  /** The distance of the stamp of slot `m + k` from slot `m`. */
  lemma DistanceOf(m: int, k: int)
    ensures Distance(m, Wrap(m + k)) == Wrap(k)
  {
    hide Wrap;
    WrapParts(m);
    WrapParts(m + k);
    WrapParts(k);
    WrapIs(Wrap(m + k) - Wrap(m), k / SLOTS - (m + k) / SLOTS + m / SLOTS, Wrap(k));
  }

  lemma DistanceIs(m: int, stamp: int, j: int)
    requires 0 <= stamp < SLOTS && 0 <= j < SLOTS
    ensures Wrap(m + j) == stamp <==> j == Distance(m, stamp)
  {
    hide Wrap, Distance;
    if Wrap(m + j) == stamp {
      DistanceOf(m, j);
      WrapSmall(j);
    }
    DistanceBack(m, stamp);
  }

  lemma DistanceBack(m: int, stamp: int)
    requires 0 <= stamp < SLOTS
    ensures Wrap(m + Distance(m, stamp)) == stamp
  {
    hide Wrap;
    var d := Distance(m, stamp);
    WrapParts(m);
    WrapParts(stamp - Wrap(m));
    WrapIs(m + d, m / SLOTS - (stamp - Wrap(m)) / SLOTS, stamp);
  }

  lemma DistanceStep(m: int, stamp: int)
    requires 0 <= stamp < SLOTS && Distance(m, stamp) != 0
    ensures Distance(m + 1, stamp) == Distance(m, stamp) - 1
  {
    hide Wrap, Distance;
    var d := Distance(m, stamp);
    DistanceIs(m, stamp, d);
    assert m + d == m + 1 + (d - 1);
    DistanceIs(m + 1, stamp, d - 1);
  }

  // ---- When a stamp is met next

  /** Multiples of the unit are where a new slot starts. */
  lemma UnitFacts(from: nat, unit: Unit, m: nat)
    ensures from / unit * unit <= from < (from / unit + 1) * unit
    ensures m * unit / unit == m
    ensures (from + 1) / unit == from / unit || (from + 1 == (from / unit + 1) * unit
            && (from + 1) / unit == from / unit + 1)
  {
    if unit == 1 {
      assert from / 1 == from && m * 1 / 1 == m;
    } else {
      assert unit == 15;
    }
  }

  lemma UnitBounds(from: nat, unit: Unit, d: nat)
    requires 0 < d < SLOTS
    ensures from <= (from / unit + d) * unit <= from + (SLOTS - 1) * unit
    ensures forall t | from <= t < (from / unit + d) * unit :: from / unit <= t / unit < from / unit + d
  {
    if unit == 1 {
      assert from / 1 == from;
      assert forall t | from <= t < (from + d) * 1 :: t / 1 == t;
    } else {
      assert unit == 15;
    }
  }

  /** It is the first such tick. */
  lemma NextMatchIsFirst(from: nat, unit: Unit, stamp: int)
    requires 0 <= stamp < SLOTS
    ensures from <= NextMatch(from, unit, stamp) <= from + (SLOTS - 1) * unit
    ensures Slot(NextMatch(from, unit, stamp), unit) == stamp
    ensures forall t | from <= t < NextMatch(from, unit, stamp) :: Slot(t, unit) != stamp
  {
    hide Wrap, Distance;
    var m := from / unit;
    var d := Distance(m, stamp);
    DistanceIs(m, stamp, d);
    UnitFacts(from, unit, m + d);
    if d > 0 { UnitBounds(from, unit, d); }
    forall t | from <= t < NextMatch(from, unit, stamp)
      ensures Slot(t, unit) != stamp
    {
      DistanceIs(m, stamp, t / unit - m);
      assert m + (t / unit - m) == t / unit;
    }
  }

  /** A sweep that does not match leaves the due tick where it was. */
  lemma NextMatchStep(t: nat, unit: Unit, stamp: int)
    requires 0 <= stamp < SLOTS
    ensures Slot(t, unit) == stamp ==> NextMatch(t, unit, stamp) == t
    ensures Slot(t, unit) != stamp ==> NextMatch(t, unit, stamp) == NextMatch(t + 1, unit, stamp)
  {
    hide Wrap, Distance;
    var m := t / unit;
    UnitFacts(t, unit, m);
    DistanceIs(m, stamp, 0);
    if Slot(t, unit) != stamp { DistanceStep(m, stamp); }
  }

  // ---- What the two timers promise

  function CeilQuarter(seconds: nat): nat {
    (seconds + 3) / 4
  }

  lemma Quarters(seconds: nat)
    requires seconds < UINT32
    ensures var q := Uint32(seconds + 3) / 4;
            if seconds + 3 < UINT32 then q == CeilQuarter(seconds) else q == 0 && CeilQuarter(seconds) > SLOTS
    ensures CeilQuarter(seconds) < SLOTS <==> seconds <= 956
    ensures CeilQuarter(seconds) <= SLOTS <==> seconds <= 960
    ensures CeilQuarter(seconds) == 0 <==> seconds == 0
  {
  }

  /** A stamp `k` slots past `from` is next met `k` modulo 240 ticks later. */
  lemma ShortDue(from: nat, k: int)
    ensures NextMatch(from, 1, Wrap(from + k)) == from + Wrap(k)
  {
    hide Wrap, Distance;
    DistanceOf(from, k);
    assert from / 1 == from;
  }

  /** The short timer is exact up to 956 seconds, whether or not the socket is still
      ahead of the sweep of the current tick; 957 to 960 are exact only when it is not. */
  lemma ShortTimeoutExact(t: nat, seconds: nat, ahead: bool)
    requires 1 <= seconds < UINT32
    ensures NextMatch(if ahead then t else t + 1, 1, ShortStamp(Wrap(t), seconds)) == t + CeilQuarter(seconds)
            <==> seconds <= (if ahead then 956 else 960)
  {
    hide NextMatch, Wrap, Uint32, CeilQuarter;
    var q := Uint32(seconds + 3) / 4;
    var k := if ahead then q else q - 1;
    Quarters(seconds);
    WrapSum(t, q);
    ShortDue(if ahead then t else t + 1, k);
    WrapSmall(k);
  }

  lemma LongDue(from: nat, k: int)
    ensures NextMatch(from, 15, Wrap(from / 15 + k)) == if Wrap(k) == 0 then from else (from / 15 + Wrap(k)) * 15
  {
    hide Wrap, Distance;
    DistanceOf(from / 15, k);
  }

  lemma MinuteFacts(t: nat)
    ensures (t + 1) / 15 == if t % 15 == 14 then t / 15 + 1 else t / 15
    ensures t / 15 * 15 <= t <= t / 15 * 15 + 14
    ensures t % 15 == 14 <==> t + 1 == (t / 15 + 1) * 15
  {
  }

  /** The 32-bit sum of minutes before the remainder: exact but for absurdly many minutes. */
  lemma MinuteSum(m: nat, minutes: nat)
    requires minutes < UINT32
    ensures var sum := Uint32(Wrap(m) + minutes);
            if Wrap(m) + minutes < UINT32 then sum == Wrap(m) + minutes else sum < SLOTS && minutes > 2 * SLOTS
  {
    hide Wrap;
  }

  /** The long timer fires in the first tick of the minute it was armed for, for 1 to 239 minutes.
      240 minutes alias to the current minute, unless that minute is over with this tick. */
  lemma LongTimeoutExact(t: nat, minutes: nat, ahead: bool)
    requires 1 <= minutes < UINT32
    ensures NextMatch(if ahead then t else t + 1, 15, LongStamp(Wrap(t / 15), minutes)) == (t / 15 + minutes) * 15
            <==> minutes <= 239 || (minutes == 240 && !ahead && t % 15 == 14)
    ensures minutes <= 239 ==> 15 * minutes - 14 <= (t / 15 + minutes) * 15 - t <= 15 * minutes
  {
    hide NextMatch, Wrap, Uint32;
    var m, from := t / 15, if ahead then t else t + 1;
    MinuteFacts(t);
    MinuteSum(m, minutes);
    var sum := Uint32(Wrap(m) + minutes);
    // the stamp is that of minute `m + sum - Wrap(m)`
    WrapSum(m, sum - Wrap(m));
    var k := m + sum - Wrap(m) - from / 15;
    assert from / 15 + k == m + (sum - Wrap(m));
    LongDue(from, k);
    WrapSmall(k);
    LongCases(t, minutes, ahead, k);
  }

  /** The cases: armed for this minute's slot again, or for a later one. */
  lemma LongCases(t: nat, minutes: nat, ahead: bool, k: int)
    requires 1 <= minutes
    requires var from := if ahead then t else t + 1;
             k == minutes - (from / 15 - t / 15) || (minutes > 2 * SLOTS && k < SLOTS)
    ensures var from := if ahead then t else t + 1;
            (if Wrap(k) == 0 then from else (from / 15 + Wrap(k)) * 15) == (t / 15 + minutes) * 15
            <==> minutes <= 239 || (minutes == 240 && !ahead && t % 15 == 14)
  {
    hide Wrap;
    MinuteFacts(t);
    WrapSmall(k);
    if k == SLOTS { WrapIs(k, 1, 0); }
  }

  /** Four-second ticks: give or take four seconds from the set timeout. */
  lemma ShortTimeoutError(t: nat, seconds: nat, armedAt: real)
    requires 1 <= seconds
    requires 4.0 * t as real <= armedAt < 4.0 * (t + 1) as real
    ensures var elapsed := 4.0 * (t + CeilQuarter(seconds)) as real - armedAt;
            seconds as real - 4.0 < elapsed < seconds as real + 4.0
  {
    var k := CeilQuarter(seconds);
    assert 4 * k - 4 < seconds <= 4 * k;
    assert 4.0 * (t + k) as real == (4 * (t + k)) as real;
    assert 4.0 * t as real == (4 * t) as real;
    assert 4.0 * (t + 1) as real == (4 * (t + 1)) as real;
  }
}
