/** Polls: the 4-bit cache of type and interest, and what the kernel has registered. */
module Polls {
  import opened Threads

  const POLL_TYPE_SOCKET: bv4 := 0
  const POLL_TYPE_SOCKET_SHUT_DOWN: bv4 := 1
  const POLL_TYPE_SEMI_SOCKET: bv4 := 2
  const POLL_TYPE_POLLING_OUT: bv4 := 4
  const POLL_TYPE_POLLING_IN: bv4 := 8

  /** What a poll waits for. */
  datatype Interest = Interest(readable: bool, writable: bool) {
    function Only(other: Interest): Interest {
      Interest(readable && other.readable, writable && other.writable)
    }
    predicate Any() { readable || writable }
  }
  const NOTHING := Interest(false, false)
  const READABLE := Interest(true, false)
  const WRITABLE := Interest(false, true)
  const BOTH := Interest(true, true)

  /** us_poll_events */
  function Events(pollType: bv4): Interest {
    Interest(pollType & POLL_TYPE_POLLING_IN != 0, pollType & POLL_TYPE_POLLING_OUT != 0)
  }

  /** us_internal_poll_type */
  function Kind(pollType: bv4): bv4 {
    pollType & 3
  }

  /** us_internal_poll_set_type */
  function WithKind(pollType: bv4, kind: bv4): bv4 {
    kind | (pollType & 12)
  }

  /** The cache update shared by start and change. */
  function WithEvents(pollType: bv4, events: Interest): bv4 {
    Kind(pollType)
    | (if events.readable then POLL_TYPE_POLLING_IN else 0)
    | (if events.writable then POLL_TYPE_POLLING_OUT else 0)
  }

  /** The two halves of the cache never disturb each other, and together are the whole cache. */
  lemma CacheHalves(pollType: bv4, kind: bv4, events: Interest)
    requires kind & 12 == 0
    ensures Kind(WithKind(pollType, kind)) == kind && Events(WithKind(pollType, kind)) == Events(pollType)
    ensures Kind(WithEvents(pollType, events)) == Kind(pollType) && Events(WithEvents(pollType, events)) == events
    ensures WithEvents(WithKind(0, Kind(pollType)), Events(pollType)) == pollType
  {
  }

  /** What epoll holds for a descriptor: the interest and the pointer it hands back. */
  datatype Registration = Registration(events: Interest, ptr: Addr)

  /** What kqueue holds for a descriptor: the pointer of each installed filter, `NULL` when absent. */
  datatype Filters = Filters(read: Addr, write: Addr)

  /** The filters that stand for an epoll registration. */
  function FiltersOf(r: Registration): Filters {
    Filters(if r.events.readable then r.ptr else NULL, if r.events.writable then r.ptr else NULL)
  }

  /** kqueue_change: only the directions that differ are added or deleted. */
  function KqueueChange(f: Filters, oldEvents: Interest, newEvents: Interest, userData: Addr): Filters {
    var f1 := if newEvents.readable != oldEvents.readable
              then f.(read := if newEvents.readable then userData else NULL) else f;
    if newEvents.writable != oldEvents.writable
    then f1.(write := if newEvents.writable then userData else NULL) else f1
  }

  /** The diff reaches what the epoll overwrite reaches, exactly when no direction that stays
      installed would have to change its pointer. */
  lemma KqueueReachesOverwrite(r: Registration, newEvents: Interest, userData: Addr)
    requires r.ptr != NULL
    ensures KqueueChange(FiltersOf(r), r.events, newEvents, userData) == FiltersOf(Registration(newEvents, userData))
            <==> (userData == r.ptr || !r.events.Only(newEvents).Any())
  {
  }

  /** A moved poll is re-registered as if nothing were installed, which does move every pointer. */
  lemma KqueueResizeReachesOverwrite(r: Registration, moved: Addr)
    ensures KqueueChange(FiltersOf(r), NOTHING, r.events, moved) == FiltersOf(Registration(r.events, moved))
  {
  }
}
