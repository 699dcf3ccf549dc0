/** The life of one poll under epoll and under kqueue: what each has installed for its descriptor. */
module PollRuns {
  import opened Threads
  import opened Polls

  datatype PollOp =
    | Start(events: Interest)
    | Change(events: Interest)
    | SetKind(kind: bv4)
    | Stop
    | Resize(moved: Addr)

  /** A poll: its address and cache, whether it is started, and what epoll and kqueue hold for it. */
  datatype Polled = Polled(ptr: Addr, cache: bv4, live: bool, registration: Registration, filters: Filters)

  /** us_poll_start, us_poll_change, us_internal_poll_set_type, us_poll_stop and us_poll_resize, in both
      their forms. */
  function Operate(p: Polled, op: PollOp): Polled {
    match op
    case Start(e) =>
      p.(live := true, cache := WithEvents(p.cache, e), registration := Registration(e, p.ptr),
         filters := KqueueChange(p.filters, NOTHING, e, p.ptr))
    case Change(e) =>
      if Events(p.cache) == e then p
      else
        p.(cache := WithEvents(p.cache, e), registration := Registration(e, p.ptr),
           filters := KqueueChange(p.filters, Events(p.cache), e, p.ptr))
    case SetKind(kind) => p.(cache := WithKind(p.cache, kind))
    case Stop =>
      p.(live := false, registration := Registration(NOTHING, NULL),
         filters := if Events(p.cache).Any() then KqueueChange(p.filters, Events(p.cache), NOTHING, NULL)
                    else p.filters)
    case Resize(n) =>
      if n != p.ptr && Events(p.cache).Any() then
        // epoll first strips the cache of its events, so that the change below is one; the cache ends as it was
        p.(ptr := n, registration := Registration(Events(p.cache), n),
           filters := KqueueChange(p.filters, NOTHING, Events(p.cache), n))
      else p.(ptr := n)
  }

  /** A poll is started once, and only then changed, moved or stopped; a stopped one may be started again. */
  predicate Allowed(p: Polled, op: PollOp) {
    match op
    case Start(_) => !p.live
    case Change(_) => p.live
    case Stop => p.live
    case SetKind(kind) => kind & 12 == 0
    case Resize(n) => p.live && n != NULL
  }

  function Operated(p: Polled, ops: seq<PollOp>): Polled {
    if ops == [] then p else Operate(Operated(p, ops[..|ops| - 1]), ops[|ops| - 1])
  }

  ghost predicate AllAllowed(p: Polled, ops: seq<PollOp>) {
    forall i | 0 <= i < |ops| :: Allowed(Operated(p, ops[..i]), ops[i])
  }

  /** While a poll is started, epoll holds its cached interest, kqueue exactly the filters that stand for that, and
      both at its current address unless it waits for nothing; while it is not, neither holds anything. */
  ghost predicate Agrees(p: Polled) {
    && p.ptr != NULL
    && if p.live then
         && p.registration.events == Events(p.cache)
         && p.filters == FiltersOf(p.registration)
         && (p.registration.events.Any() ==> p.registration.ptr == p.ptr)
       else p.filters == Filters(NULL, NULL) && p.registration.events == NOTHING
  }

  /** What each operation comes to under both: start and change reach the interest asked for, a resize the new address,
      and a stop ends the registration. */
  lemma OperateAgrees(p: Polled, op: PollOp)
    requires Agrees(p) && Allowed(p, op)
    ensures Agrees(Operate(p, op))
    ensures var p' := Operate(p, op);
            match op
            case Start(e) =>
              && p'.live && Events(p'.cache) == e && Kind(p'.cache) == Kind(p.cache)
              && p'.ptr == p.ptr && p'.registration == Registration(e, p.ptr)
              && p'.filters == FiltersOf(Registration(e, p.ptr))
            case Change(e) =>
              && p'.live && Events(p'.cache) == e && Kind(p'.cache) == Kind(p.cache)
              && p'.ptr == p.ptr && p'.registration.events == e && p'.filters == FiltersOf(Registration(e, p.ptr))
            case SetKind(kind) =>
              && Kind(p'.cache) == kind && Events(p'.cache) == Events(p.cache)
              && p' == p.(cache := p'.cache)
            case Stop =>
              && !p'.live && p'.registration.events == NOTHING && p'.filters == Filters(NULL, NULL)
              && p'.cache == p.cache && p'.ptr == p.ptr
            case Resize(n) =>
              && p'.live && p'.ptr == n && p'.cache == p.cache && p'.registration.events == p.registration.events
              && p'.filters == FiltersOf(Registration(Events(p.cache), n))
  {
    hide Events, Kind, WithEvents, WithKind;
    match op
    case Start(e) => CacheHalves(p.cache, 0, e);
    case Change(e) => CacheHalves(p.cache, 0, e);
    case SetKind(kind) => CacheHalves(p.cache, kind, NOTHING);
    case Stop =>
    case Resize(_) =>
  }

  /** Over every run of a new poll the kqueue differences and the epoll overwrites hold the same interest and
      address. */
  lemma {:induction false} RunAgrees(ptr: Addr, kind: bv4, ops: seq<PollOp>)
    requires ptr != NULL
    requires AllAllowed(Polled(ptr, kind, false, Registration(NOTHING, NULL), Filters(NULL, NULL)), ops)
    ensures Agrees(Operated(Polled(ptr, kind, false, Registration(NOTHING, NULL), Filters(NULL, NULL)), ops))
  {
    hide Agrees, Allowed, Operate;
    var p := Polled(ptr, kind, false, Registration(NOTHING, NULL), Filters(NULL, NULL));
    if ops == [] {
      NewAgrees(ptr, kind);
    } else {
      var init := ops[..|ops| - 1];
      forall i | 0 <= i < |init|
        ensures Allowed(Operated(p, init[..i]), init[i])
      {
        assert init[..i] == ops[..i] && init[i] == ops[i];
      }
      RunAgrees(ptr, kind, init);
      assert Allowed(Operated(p, ops[..|ops| - 1]), ops[|ops| - 1]);
      OperateAgrees(Operated(p, init), ops[|ops| - 1]);
    }
  }

  lemma NewAgrees(ptr: Addr, kind: bv4)
    requires ptr != NULL
    ensures Agrees(Polled(ptr, kind, false, Registration(NOTHING, NULL), Filters(NULL, NULL)))
  {
  }
}
