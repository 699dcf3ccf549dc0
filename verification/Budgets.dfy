/** The steps of the handshake budget. */
module Budgets {
  import opened Threads
  import opened Chronicles
  import opened States
  import opened Parking
  import opened Arming

  /** One unit of budget gone. */
  ghost function Spent(st: State): State {
    st.(m := st.m.(budget := st.m.budget - 1))
  }

  lemma SpentKeeps(st: State)
    requires Inv(st) && st.m.budget > 0
    ensures Inv(Spent(st))
    ensures Spent(st).g.lowReads + |st.g.delayed| + 1 + Spent(st).m.budget <= 5 * st.m.iterationNr
  {
    hide Blocks, Threaded, Marked, Located, Hosted, Wired, Typed, Owned, Awaited, Batched, Clocked, Alarmed, Walked,
         Ringed, Logged, Chronicled, Open, Swept, Unseen, UnseenLong;
  }

  /** A loose socket is let back in for one read. */
  ghost function Granted(st: State, s: Addr): State {
    st.(m := st.m.(lowPrio := st.m.lowPrio[s := 2]))
  }

  lemma LocatedGrant(place: map<Addr, Place>, context: map<Addr, Addr>, lowPrio: map<Addr, int>, s: Addr, x: int)
    requires Located(place, context, lowPrio) && s in place && place[s] != Queued && (x == 0 || x == 2)
    ensures Located(place, context, lowPrio[s := x])
  {
  }

  lemma BudgetedGrant(swept: set<Addr>, lowPrio: map<Addr, int>, delayed: set<Addr>, lowReads: int, budget: int,
                      iterationNr: int, s: Addr, x: int)
    requires Budgeted(swept, lowPrio, delayed, lowReads, budget, iterationNr) && s !in swept
    ensures Budgeted(swept, lowPrio[s := x], delayed, lowReads, budget, iterationNr)
  {
  }

  lemma GrantedKeeps(st: State, s: Addr)
    requires Inv(st) && IsLoose(st, s)
    ensures Inv(Granted(st, s))
  {
    hide Blocks, Threaded, Marked, Located, Hosted, Wired, Typed, Owned, Awaited, Batched, Clocked, Alarmed, Walked,
         Ringed, Logged, Budgeted, Chronicled;
    hide Open, Swept, Unseen, UnseenLong, Dropped, Without, BypassPrev, BypassNext, BypassHead;
    Live(st, s);
    SweptIs(st.g.place, s);
    LocatedGrant(st.g.place, st.m.context, st.m.lowPrio, s, 2);
    BudgetedGrant(Swept(st.g.place), st.m.lowPrio, st.g.delayed, st.g.lowReads, st.m.budget, st.m.iterationNr, s, 2);
    KeysKept(st.m.lowPrio, s, 2);
  }

  /** The one read a delayed socket was let back in for. */
  ghost function Redeemed(st: State, s: Addr): State {
    st.(m := st.m.(lowPrio := st.m.lowPrio[s := 0]),
        g := st.g.(delayed := st.g.delayed - {s},
                   lowReads := st.g.lowReads + 1))
  }

  lemma BudgetedRedeem(swept: set<Addr>, lowPrio: map<Addr, int>, delayed: set<Addr>, lowReads: int, budget: int,
                       iterationNr: int, s: Addr)
    requires Budgeted(swept, lowPrio, delayed, lowReads, budget, iterationNr) && s in swept && s in lowPrio
             && lowPrio[s] == 2
    ensures Budgeted(swept, lowPrio[s := 0], delayed - {s}, lowReads + 1, budget, iterationNr)
  {
    assert delayed == (delayed - {s}) + {s};
  }

  lemma RedeemedKeeps(st: State, s: Addr)
    requires Inv(st) && s in st.g.place && st.g.place[s].Linked? && s in st.m.lowPrio && st.m.lowPrio[s] == 2
    ensures Inv(Redeemed(st, s))
  {
    hide Blocks, Threaded, Marked, Located, Hosted, Wired, Typed, Owned, Awaited, Batched, Clocked, Alarmed, Walked,
         Ringed, Logged, Budgeted, Chronicled;
    hide Open, Swept, Unseen, UnseenLong, Dropped, Without, BypassPrev, BypassNext, BypassHead;
    SweptIs(st.g.place, s);
    LocatedGrant(st.g.place, st.m.context, st.m.lowPrio, s, 0);
    BudgetedRedeem(Swept(st.g.place), st.m.lowPrio, st.g.delayed, st.g.lowReads, st.m.budget, st.m.iterationNr, s);
    KeysKept(st.m.lowPrio, s, 0);
  }

  /** A low-priority read paid from the budget of this iteration. */
  ghost function Charged(st: State): State {
    st.(m := st.m.(budget := st.m.budget - 1),
        g := st.g.(lowReads := st.g.lowReads + 1))
  }

  lemma ChargedKeeps(st: State)
    requires Inv(st) && st.m.budget > 0
    ensures Inv(Charged(st))
  {
    hide Blocks, Threaded, Marked, Located, Hosted, Wired, Typed, Owned, Awaited, Batched, Clocked, Alarmed, Walked,
         Ringed, Logged, Chronicled, Open, Swept, Unseen, UnseenLong;
  }
}
