/** What the loop did, in order: handlers called, sockets linked, unlinked and shut, timers set, clocks advanced and
    sockets looked at by the sweep, blocks released. */
module Journal {
  import opened Threads

  datatype Handler = OnOpen | OnData | OnWritable | OnEnd | OnTimeout | OnLongTimeout | OnConnectError | OnClose

  datatype Timer = ShortTimer | LongTimer

  function HandlerOf(timer: Timer): Handler {
    if timer == ShortTimer then OnTimeout else OnLongTimeout
  }

  /** Sockets are named by identity, which survives a move of their memory block. `FellShort` is a write of which less
      was taken than was given, `HalfShut` a shutdown, `Shut` a close, `Released` the end of the memory block. A socket
      has `Entered` and `Left` a context's list; a timer was `Set` for the tick it is due in, or `Unset`; a new
      context `Began`; `Struck` is the new clock of a context; and the sweep has `Seen` a socket's timer in a tick. */
  datatype Event =
    | Called(handler: Handler, id: int)
    | FellShort(id: int)
    | HalfShut(id: int)
    | Shut(id: int)
    | Released(id: int)
    | PostStep
    | Entered(id: int, context: Addr)
    | Left(id: int, context: Addr)
    | Set(timer: Timer, id: int, due: int)
    | Unset(timer: Timer, id: int)
    | Began(context: Addr)
    | Struck(context: Addr, tick: int)
    | Seen(timer: Timer, id: int, context: Addr, tick: int)

  type Log = seq<Event>

  ghost function ShutIds(log: Log): set<int> {
    if log == [] then {}
    else ShutIds(log[..|log| - 1]) + (if log[|log| - 1].Shut? then {log[|log| - 1].id} else {})
  }

  ghost function ReleasedIds(log: Log): set<int> {
    if log == [] then {}
    else ReleasedIds(log[..|log| - 1]) + (if log[|log| - 1].Released? then {log[|log| - 1].id} else {})
  }

  /** The sockets with a short write that neither a writable event nor a shutdown nor a close has answered. */
  ghost function Owing(log: Log): set<int> {
    if log == [] then {}
    else
      var past := Owing(log[..|log| - 1]);
      match log[|log| - 1]
      case FellShort(x) => past + {x}
      case Called(OnWritable, x) => past - {x}
      case HalfShut(x) => past - {x}
      case Shut(x) => past - {x}
      case _ => past
  }

  ghost predicate Answers(e: Event, x: int) {
    e == Called(OnWritable, x) || e == HalfShut(x) || e == Shut(x)
  }

  /** What may be logged next. */
  ghost predicate Admissible(past: Log, e: Event) {
    match e
    case Called(OnClose, x) => past != [] && past[|past| - 1] == Shut(x)
    case Called(_, x) => x !in ShutIds(past)
    case FellShort(x) => x !in ShutIds(past)
    case HalfShut(x) => x !in ShutIds(past)
    case Shut(x) => x !in ShutIds(past)
    case Released(x) => x in ShutIds(past) && x !in ReleasedIds(past)
    case PostStep => ShutIds(past) == ReleasedIds(past)
    case _ => true
  }

  ghost predicate Lawful(log: Log) {
    log != [] ==> Lawful(log[..|log| - 1]) && Admissible(log[..|log| - 1], log[|log| - 1])
  }

  lemma Append(log: Log, e: Event)
    ensures Lawful(log + [e]) <==> Lawful(log) && Admissible(log, e)
    ensures ShutIds(log + [e]) == ShutIds(log) + (if e.Shut? then {e.id} else {})
    ensures ReleasedIds(log + [e]) == ReleasedIds(log) + (if e.Released? then {e.id} else {})
    ensures Owing(log + [e]) == if e.FellShort? then Owing(log) + {e.id}
                                else if e.Shut? || e.HalfShut?
                                    || (e.Called? && e.handler == OnWritable) then Owing(log) - {e.id}
                                else Owing(log)
  {
    assert (log + [e])[..|log + [e]| - 1] == log;
  }

  /** Events about linking and timers: neither handlers nor closes. */
  ghost predicate Timely(e: Event) {
    e.Entered? || e.Left? || e.Set? || e.Unset? || e.Began? || e.Struck? || e.Seen?
  }

  lemma AppendTimely(log: Log, e: Event)
    requires Timely(e)
    ensures Lawful(log + [e]) <==> Lawful(log)
    ensures ShutIds(log + [e]) == ShutIds(log) && ReleasedIds(log + [e]) == ReleasedIds(log)
            && Owing(log + [e]) == Owing(log)
  {
    Append(log, e);
  }

  lemma {:induction false} PrefixLawful(log: Log, n: nat)
    requires Lawful(log) && n <= |log|
    ensures Lawful(log[..n])
    ensures n < |log| ==> Admissible(log[..n], log[n])
    ensures ShutIds(log[..n]) <= ShutIds(log) && ReleasedIds(log[..n]) <= ReleasedIds(log)
    decreases |log|
  {
    if n == |log| {
      assert log[..n] == log;
    } else {
      var init := log[..|log| - 1];
      PrefixLawful(init, n);
      assert init[..n] == log[..n];
      if n == |log| - 1 { assert init == log[..n]; }
    }
  }

  /** Who is owed a writable event: exactly those with a short write and no answer to it since. */
  lemma {:induction false} OwingExactly(log: Log, x: int)
    ensures x in Owing(log) <==> exists i :: 0 <= i < |log| && log[i] == FellShort(x) && Unanswered(log, i, x)
    decreases |log|
  {
    if log != [] {
      var n := |log| - 1;
      var init := log[..n];
      OwingExactly(init, x);
      if exists i :: 0 <= i < |init| && init[i] == FellShort(x) && Unanswered(init, i, x) {
        var i :| 0 <= i < |init| && init[i] == FellShort(x) && Unanswered(init, i, x);
        if !Answers(log[n], x) { assert log[i] == FellShort(x) && Unanswered(log, i, x); }
      }
      if log[n] == FellShort(x) { assert Unanswered(log, n, x); }
      if exists i :: 0 <= i < |log| && log[i] == FellShort(x) && Unanswered(log, i, x) {
        var i :| 0 <= i < |log| && log[i] == FellShort(x) && Unanswered(log, i, x);
        if i < n {
          assert !Answers(log[n], x);
          assert init[i] == FellShort(x) && Unanswered(init, i, x);
        }
      }
    }
  }

  ghost predicate Unanswered(log: Log, i: int, x: int)
    requires 0 <= i
  {
    forall j | i < j < |log| :: !Answers(log[j], x)
  }

  lemma {:induction false} ShutIsLogged(log: Log, i: nat)
    requires i < |log|
    ensures log[i].Shut? ==> log[i].id in ShutIds(log)
    ensures log[i].Released? ==> log[i].id in ReleasedIds(log)
    decreases |log|
  {
    if i < |log| - 1 { ShutIsLogged(log[..|log| - 1], i); }
  }

  lemma {:induction false} LoggedIsShut(log: Log, x: int)
    ensures x in ShutIds(log) ==> exists i :: 0 <= i < |log| && log[i] == Shut(x)
    ensures x in ReleasedIds(log) ==> exists i :: 0 <= i < |log| && log[i] == Released(x)
    decreases |log|
  {
    if log != [] {
      var init := log[..|log| - 1];
      LoggedIsShut(init, x);
      if x in ShutIds(init) {
        var i :| 0 <= i < |init| && init[i] == Shut(x);
        assert log[i] == Shut(x);
      }
      if x in ReleasedIds(init) {
        var i :| 0 <= i < |init| && init[i] == Released(x);
        assert log[i] == Released(x);
      }
      assert x in ShutIds(log) && x !in ShutIds(init) ==> log[|log| - 1] == Shut(x);
      assert x in ReleasedIds(log) && x !in ReleasedIds(init) ==> log[|log| - 1] == Released(x);
    }
  }

  /** After a socket is shut the only handler ever called for it is the `on_close` that comes at once. */
  lemma NothingAfterShut(log: Log, i: nat, j: nat)
    requires Lawful(log) && i < j < |log| && log[i].Shut?
    ensures log[j].Called? && log[j].id == log[i].id ==> log[j].handler == OnClose && j == i + 1
    ensures log[j] != log[i]
  {
    PrefixLawful(log, j);
    ShutIsLogged(log[..j], i);
    if log[j].Called? && log[j].id == log[i].id {
      assert log[j].handler == OnClose;
      assert log[..j][j - 1] == log[j - 1] == log[i];
      if i < j - 1 {
        PrefixLawful(log, j - 1);
        ShutIsLogged(log[..j - 1], i);
      }
    }
  }

  /** `on_close` is called at most once for a socket, and only for one that was just shut. */
  lemma OnCloseAtMostOnce(log: Log, i: nat, j: nat)
    requires Lawful(log) && i < |log| && j < |log|
    requires log[i].Called? && log[i].handler == OnClose && log[j] == log[i]
    ensures i == j && i > 0 && log[i - 1] == Shut(log[i].id)
  {
    PrefixLawful(log, i);
    PrefixLawful(log, j);
    assert log[..i][i - 1] == log[i - 1] && log[..j][j - 1] == log[j - 1];
    if i < j { NothingAfterShut(log, i - 1, j - 1); }
    if j < i { NothingAfterShut(log, j - 1, i - 1); }
  }

  /** A shut socket is released in the next post step, once, and not before it was shut. */
  lemma ReleasedInItsPostStep(log: Log, i: nat, j: nat)
    requires Lawful(log) && i < j < |log| && log[i].Shut? && log[j] == PostStep
    ensures exists k | i < k < j :: log[k] == Released(log[i].id)
    ensures forall k, m | 0 <= k < m < |log| :: log[k].Released? ==> log[m] != log[k]
    ensures forall k | 0 <= k < i :: log[k] != Released(log[i].id)
  {
    var x := log[i].id;
    PrefixLawful(log, j);
    ShutIsLogged(log[..j], i);
    LoggedIsShut(log[..j], x);
    var k :| 0 <= k < j && log[..j][k] == Released(x);
    assert log[k] == Released(x);
    forall k | 0 <= k < i
      ensures log[k] != Released(x)
    {
      PrefixLawful(log, i);
      if log[k] == Released(x) {
        PrefixLawful(log, k);
        LoggedIsShut(log[..k], x);
        var m :| 0 <= m < k && log[..k][m] == Shut(x);
        ShutIsLogged(log[..i], m);
      }
    }
    forall k, m | 0 <= k < m < |log| && log[k].Released?
      ensures log[m] != log[k]
    {
      PrefixLawful(log, m);
      ShutIsLogged(log[..m], k);
    }
  }
}
