/**
 The exit slots an entry leaves free (orders.py) against the ledger: what pending buys may become, what sales
 made meanwhile use up, and when the rest can still be sold.
 */
module ExitCapacity {
  import opened Wrappers
  import opened Risk
  import opened Ledger
  import opened Capital
  import opened CapitalSafety
  import opened Orders
  import opened OrderSafety
  import opened OrderTheorems
  import opened Executions
  import opened TradeTruth
  import opened Rates

  // ---------- What exits are reserved for ----------

  /** The quantities of the open lifecycles together; a net short refuses. */
  function OpenQuantity(t: Tables, settlements: seq<Settlement>, open: seq<Id>): (r: Result<int>)
    ensures r.Success? ==> r.value >= 0
  {
    if open == [] then Success(0)
    else
      var rest := OpenQuantity(t, settlements, open[..|open| - 1]);
      var totals := LifecycleTotals(t, settlements, open[|open| - 1]);
      if rest.Failure? then rest
      else if totals.Failure? then Failure(totals.reason)
      else Success(rest.value + totals.value.quantity)
  }

  /** Everything the pending buys among the first n intents could still bring in. */
  function PendingBuys(t: Tables, n: nat): nat
    requires n <= |t.intents|
  {
    if n == 0 then 0
    else PendingBuys(t, n - 1)
         + if Pending(t, t.intents[n - 1]) && t.intents[n - 1].intent.side == BUY then t.intents[n - 1].intent.qty else 0
  }

  function Potential(t: Tables, settlements: seq<Settlement>, open: seq<Id>): (r: Result<int>)
    ensures r.Success? ==> r.value >= 0
  {
    var held := OpenQuantity(t, settlements, open);
    if held.Failure? then held else Success(PendingBuys(t, |t.intents|) + held.value)
  }

  method ComputePotential(store: Store, settlements: seq<Settlement>, open: seq<Id>) returns (potential: Result<int>)
    ensures potential == Potential(store.T(), settlements, open)
  {
    var buys := 0;
    for k := 0 to |store.intents|
      invariant buys == PendingBuys(store.T(), k)
    {
      var row := store.intents[k];
      if Pending(store.T(), row) && row.intent.side == BUY {
        buys := buys + row.intent.qty;
      }
    }
    var held := 0;
    for k := 0 to |open|
      invariant OpenQuantity(store.T(), settlements, open[..k]) == Success(held)
      invariant forall j :: 0 <= j < k ==> LifecycleTotals(store.T(), settlements, open[j]).Success?
    {
      hide LifecycleTotals;
      assert open[..k + 1][..k] == open[..k];
      var totals := ComputeTotals(store, settlements, open[k]);
      if totals.Failure? {
        FailsWhere(store.T(), settlements, open, k);
        return Failure(totals.reason);
      }
      held := held + totals.value.quantity;
    }
    assert open[..|open|] == open;
    potential := Success(buys + held);
  }

  lemma {:induction false} FailsWhere(t: Tables, settlements: seq<Settlement>, open: seq<Id>, k: nat)
    requires k < |open| && OpenQuantity(t, settlements, open[..k]).Success?
    requires LifecycleTotals(t, settlements, open[k]).Failure?
    ensures OpenQuantity(t, settlements, open) == Failure(LifecycleTotals(t, settlements, open[k]).reason)
  {
    hide LifecycleTotals;
    if k == |open| - 1 {
      assert open[..k] == open[..|open| - 1];
    } else {
      assert open[..|open| - 1][..k] == open[..k];
      FailsWhere(t, settlements, open[..|open| - 1], k);
    }
  }

  // ---------- The position as a sum over intents ----------

  function Contribution(t: Tables, k: nat, open: seq<Id>): int
    requires k < |t.intents|
  {
    var i := t.intents[k].intent;
    if i.lifecycle !in open then 0
    else if i.side == BUY then FilledQty(t.fills, i.id) else -(FilledQty(t.fills, i.id) as int)
  }

  /** Units bought less units sold by the first n intents, over the given lifecycles. */
  function TradedIn(t: Tables, n: nat, open: seq<Id>): int
    requires n <= |t.intents|
  {
    if n == 0 then 0 else TradedIn(t, n - 1, open) + Contribution(t, n - 1, open)
  }

  function SettledIn(settlements: seq<Settlement>, open: seq<Id>): nat {
    if open == [] then 0 else SettledIn(settlements, open[..|open| - 1]) + SettledUnits(settlements, open[|open| - 1])
  }

  lemma {:induction false} OneMoreLifecycle(t: Tables, n: nat, open: seq<Id>, l: Id)
    requires n <= |t.intents| && l !in open
    ensures TradedIn(t, n, open + [l]) == TradedIn(t, n, open) + Traded(t, n, l)
  {
    hide FilledQty;
    if n > 0 {
      OneMoreLifecycle(t, n - 1, open, l);
    }
  }

  lemma {:induction false} NoLifecycles(t: Tables, n: nat)
    requires n <= |t.intents|
    ensures TradedIn(t, n, []) == 0
  {
    if n > 0 {
      NoLifecycles(t, n - 1);
    }
  }

  lemma {:induction false} QuantityIsSum(t: Tables, settlements: seq<Settlement>, open: seq<Id>)
    requires Distinct(open) && OpenQuantity(t, settlements, open).Success?
    ensures OpenQuantity(t, settlements, open).value == TradedIn(t, |t.intents|, open) - SettledIn(settlements, open)
  {
    hide LifecycleTotals, TradedIn, Traded;
    if open == [] {
      NoLifecycles(t, |t.intents|);
    } else {
      var init, l := open[..|open| - 1], open[|open| - 1];
      QuantityIsSum(t, settlements, init);
      QuantityIsTradedLessSettled(t, settlements, l);
      assert l !in init && open == init + [l];
      OneMoreLifecycle(t, |t.intents|, init, l);
    }
  }

  /** Quantity of the buys among the first n that are in no final state, nor a reset probe with its receipt and no broker row. */
  ghost function OutstandingBuys(t: Tables, n: nat): nat
    requires n <= |t.intents|
  {
    if n == 0 then 0
    else
      var row := t.intents[n - 1];
      var over := || row.state in {Filled, Aborted, Ended(CANCELLED), Ended(REJECTED), Ended(EXPIRED)}
                  || (row.state == RecoveryClosed && row.intent.lifecycle == ROUTE_PROBE && row.intent.id in t.receipts
                      && (forall o :: o in t.orders ==> t.orders[o].intent != row.intent.id)
                      && forall k :: 0 <= k < |t.fills| ==> t.fills[k].intent != row.intent.id);
      OutstandingBuys(t, n - 1) + if row.intent.side == BUY && !over then row.intent.qty else 0
  }

  lemma {:induction false} PendingBuysAreOutstanding(t: Tables, n: nat)
    requires n <= |t.intents|
    ensures PendingBuys(t, n) == OutstandingBuys(t, n)
  {
    if n > 0 {
      PendingBuysAreOutstanding(t, n - 1);
    }
  }

  lemma {:induction false} RefusedWhere(t: Tables, settlements: seq<Settlement>, open: seq<Id>)
    ensures OpenQuantity(t, settlements, open).Failure? <==>
            exists k :: 0 <= k < |open| && Traded(t, |t.intents|, open[k]) < SettledUnits(settlements, open[k])
  {
    hide LifecycleTotals, Traded, SettledUnits;
    if open != [] {
      RefusedWhere(t, settlements, open[..|open| - 1]);
      TotalsRefusedIff(t, settlements, open[|open| - 1]);
    }
  }

  /**
   Exits are reserved for all outstanding buys and for what the open lifecycles traded less what was settled; a
   lifecycle that sold and settled more than it bought refuses, and nothing else does.
   */
  lemma PotentialIs(t: Tables, settlements: seq<Settlement>, open: seq<Id>)
    requires Distinct(open)
    ensures Potential(t, settlements, open).Failure? <==>
            exists k :: 0 <= k < |open| && Traded(t, |t.intents|, open[k]) < SettledUnits(settlements, open[k])
    ensures Potential(t, settlements, open).Success? ==>
              Potential(t, settlements, open).value
              == OutstandingBuys(t, |t.intents|) + TradedIn(t, |t.intents|, open) - SettledIn(settlements, open)
  {
    hide OutstandingBuys, PendingBuys, TradedIn, SettledIn, OpenQuantity, Traded, SettledUnits;
    RefusedWhere(t, settlements, open);
    PendingBuysAreOutstanding(t, |t.intents|);
    if OpenQuantity(t, settlements, open).Success? {
      QuantityIsSum(t, settlements, open);
    }
  }

  lemma {:induction false} SettledGrows(a: seq<Settlement>, b: seq<Settlement>, open: seq<Id>)
    requires a <= b
    ensures SettledIn(a, open) <= SettledIn(b, open)
  {
    if open != [] {
      SettledGrows(a, b, open[..|open| - 1]);
      UnitsGrow(a, b, open[|open| - 1]);
    }
  }

  lemma {:induction false} UnitsGrow(a: seq<Settlement>, b: seq<Settlement>, l: Id)
    requires a <= b
    ensures SettledUnits(a, l) <= SettledUnits(b, l)
    decreases |b|
  {
    if |a| < |b| {
      UnitsGrow(a, b[..|b| - 1], l);
    } else {
      assert a == b;
    }
  }

  // ---------- What can still be held later ----------

  /** Later tables: more fills, more sales, but no further buy and nothing late. */
  ghost predicate OnlySalesSince(t: Tables, u: Tables) {
    && WellFormed(u) && FillsLeq(t.fills, u.fills) && NoLateFills(t, u)
    && |t.intents| <= |u.intents|
    && (forall k :: 0 <= k < |t.intents| ==> u.intents[k].intent == t.intents[k].intent)
    && (forall k :: |t.intents| <= k < |u.intents| ==> u.intents[k].intent.side == SELL)
  }

  /** Fills accumulate, what is resolved stays so, and no fill comes late. */
  ghost predicate Accumulates(t: Tables, u: Tables) {
    TablesLeq(t, u) && StaySettled(t, u) && FillsLeq(t.fills, u.fills) && NoLateFills(t, u)
  }

  lemma AccumulatesOn(t: Tables, u: Tables, v: Tables)
    requires Accumulates(t, u) && Accumulates(u, v)
    ensures Accumulates(t, v)
  {
    hide FilledQty;
  }

  lemma {:induction false} RunAccumulates(ws: seq<World>, es: seq<Event>, j: nat, k: nat)
    requires HonestRun(ws, es) && j <= k < |ws|
    ensures Accumulates(ws[j].t, ws[k].t)
  {
    hide Inv, Enabled, Next, Init, Accumulates, BatchStated, HonestReads;
    if j == k {
      SameAccumulates(ws[j].t);
    } else {
      RunAccumulates(ws, es, j, k - 1);
      StepAccumulates(ws, es, k - 1);
      AccumulatesOn(ws[j].t, ws[k - 1].t, ws[k].t);
    }
  }

  lemma SameAccumulates(t: Tables)
    ensures Accumulates(t, t)
  {}

  lemma StepAccumulates(ws: seq<World>, es: seq<Event>, k: nat)
    requires HonestRun(ws, es) && k < |es|
    ensures Accumulates(ws[k].t, ws[k + 1].t)
  {
    hide Inv, Enabled, Next, Init, BatchStated, HonestReads, NoLateFills, FillsLeq, TablesLeq, StaySettled;
    RunInv(ws, es, k);
    InvParts(ws[k]);
    assert Enabled(ws[k], es[k]) && ws[k + 1] == Next(ws[k], es[k]);
    StepRows(ws[k], es[k]);
    StepKeepsSettled(ws[k], es[k]);
    HonestMeansNoLateFills(ws, es, k);
    RunPositive(ws, es, k);
    StepShape(ws[k], es[k]);
  }

  lemma {:induction false} RunPositive(ws: seq<World>, es: seq<Event>, k: nat)
    requires Run(ws, es) && k < |ws|
    ensures PositiveFills(ws[k].t.fills)
  {
    hide Inv, Enabled, Next;
    if k == 0 {
      assert Init(ws[0]);
    } else {
      RunPositive(ws, es, k - 1);
      RunInv(ws, es, k - 1);
      InvParts(ws[k - 1]);
      StepShape(ws[k - 1], es[k - 1]);
    }
  }

  /** A stretch of an honest run in which every new intent is a sale. */
  lemma RunOnlySells(ws: seq<World>, es: seq<Event>, j: nat, k: nat)
    requires HonestRun(ws, es) && j <= k < |ws|
    requires forall r :: |ws[j].t.intents| <= r < |ws[k].t.intents| ==> ws[k].t.intents[r].intent.side == SELL
    ensures OnlySalesSince(ws[j].t, ws[k].t)
  {
    hide Inv, Run, BatchStated, HonestReads, NoLateFills, FillsLeq;
    RunAccumulates(ws, es, j, k);
    RunInv(ws, es, k);
    InvParts(ws[k]);
  }

  lemma {:induction false} TradedWithinPending(t: Tables, u: Tables, n: nat, open: seq<Id>)
    requires OnlySalesSince(t, u) && n <= |t.intents| && ROUTE_PROBE !in open
    ensures TradedIn(u, n, open) <= TradedIn(t, n, open) + PendingBuys(t, n)
  {
    hide NoLateFills, WellFormed, FilledQty;
    if n > 0 {
      TradedWithinPending(t, u, n - 1, open);
      RowWithinPending(t, u, n - 1);
    }
  }

  lemma RowWithinPending(t: Tables, u: Tables, k: nat)
    requires OnlySalesSince(t, u) && k < |t.intents|
    ensures var i := t.intents[k].intent;
            && FilledQty(t.fills, i.id) <= FilledQty(u.fills, i.id)
            && (i.side == BUY && i.lifecycle != ROUTE_PROBE && !Pending(t, t.intents[k]) ==>
                  FilledQty(u.fills, i.id) == FilledQty(t.fills, i.id))
            && FilledQty(u.fills, i.id) <= i.qty
  {
    QtyGrows(t.fills, u.fills, t.intents[k].intent.id);
    assert FilledQty(u.fills, u.intents[k].intent.id) <= u.intents[k].intent.qty;
  }

  /** What the sales made since have sold. */
  function SoldSince(u: Tables, first: nat, n: nat, open: seq<Id>): nat
    requires first <= n <= |u.intents|
  {
    if n == first then 0
    else
      var i := u.intents[n - 1].intent;
      SoldSince(u, first, n - 1, open) + if i.lifecycle in open then FilledQty(u.fills, i.id) else 0
  }

  lemma {:induction false} SalesReduce(t: Tables, u: Tables, n: nat, open: seq<Id>)
    requires OnlySalesSince(t, u) && |t.intents| <= n <= |u.intents|
    ensures TradedIn(u, n, open) == TradedIn(u, |t.intents|, open) - SoldSince(u, |t.intents|, n, open)
  {
    hide FilledQty, NoLateFills, WellFormed;
    if n > |t.intents| {
      SalesReduce(t, u, n - 1, open);
    }
  }

  /** The position later on: at most what exits were reserved for, less what the sales since have sold. */
  lemma HeldWithinPotential(t: Tables, u: Tables, before: seq<Settlement>, after: seq<Settlement>, open: seq<Id>)
    requires Distinct(open) && ROUTE_PROBE !in open && OnlySalesSince(t, u) && before <= after
    requires Potential(t, before, open).Success? && OpenQuantity(u, after, open).Success?
    ensures |t.intents| <= |u.intents|
    ensures OpenQuantity(u, after, open).value
         <= Potential(t, before, open).value - SoldSince(u, |t.intents|, |u.intents|, open)
  {
    hide TradedIn, OpenQuantity, NoLateFills, WellFormed, FillsLeq, SettledIn, SoldSince, PendingBuys;
    QuantityIsSum(t, before, open);
    QuantityIsSum(u, after, open);
    TradedWithinPending(t, u, |t.intents|, open);
    SalesReduce(t, u, |u.intents|, open);
    SettledGrows(before, after, open);
  }

  // ---------- What sends since the entry use up ----------

  /** Sales already sent since the entry take their slots; the rest is left. */
  lemma RemainingSlots(log: seq<int>, now: int, slots: nat, sends: seq<int>, times: seq<int>, windows: seq<Window>)
    requires Admissible(log, now, 1 + slots, windows) && |sends| + |times| <= slots
    requires forall m :: 0 <= m < |times| ==> now <= times[m]
    ensures SalesAdmissible(log + [now] + sends, times, windows)
  {
    forall m, k | 0 <= m < |times| && 0 <= k < |windows|
      ensures Recent(log + [now] + sends + times[..m], times[m], windows[k].span) + 1 <= windows[k].limit
    {
      var span := windows[k].span;
      RecentConcat(log + [now] + sends, times[..m], times[m], span);
      RecentConcat(log + [now], sends, times[m], span);
      RecentAtMostAll(times[..m], times[m], span);
      RecentAtMostAll(sends, times[m], span);
      RecentFades(log + [now], now, times[m], span);
      RecentAppend(log, now, now, span);
    }
  }

  /** At or after `now`, and no later one before an earlier one. */
  predicate Onward(now: int, times: seq<int>) {
    && (forall k :: 0 <= k < |times| ==> now <= times[k])
    && forall j, k :: 0 <= j < k < |times| ==> times[j] <= times[k]
  }

  /** A log that fitted the durable windows, an entry admitted on it, and sales that passed the windows since. */
  ghost predicate AfterEntry(log: seq<int>, now: int, slots: nat, sends: seq<int>) {
    && FittedWhenSent(log, DURABLE) && Admissible(log, now, 1 + slots, DURABLE)
    && SalesAdmissible(log + [now], sends, DURABLE)
  }

  /** However full the durable windows and whatever the times, `need` sales pass after an entry and k sales since. */
  ghost predicate AlwaysFits(k: nat, need: nat, slots: nat) {
    forall log: seq<int>, now: int, sends: seq<int>, times: seq<int> ::
      AfterEntry(log, now, slots, sends) && |sends| == k && |times| == need && Onward(now, sends + times)
      ==> SalesAdmissible(log + [now] + sends, times, DURABLE)
  }

  /**
   Exactly when the sends since and the sales still needed fit the slots reserved; an entry with nine slots or
   more is never admitted in the first place.
   */
  lemma AlwaysFitsIff(k: nat, need: nat, slots: nat)
    ensures AlwaysFits(k, need, slots) <==> need == 0 || slots >= 9 || k + need <= slots
  {
    if need == 0 || slots >= 9 || k + need <= slots {
      forall log: seq<int>, now: int, sends: seq<int>, times: seq<int>
        | AfterEntry(log, now, slots, sends) && |sends| == k && |times| == need && Onward(now, sends + times)
        ensures SalesAdmissible(log + [now] + sends, times, DURABLE)
      {
        NineNeverPass(log, now, slots);
        forall m | 0 <= m < |times|
          ensures now <= times[m]
        {
          assert (sends + times)[|sends| + m] == times[m];
        }
        if need > 0 {
          RemainingSlots(log, now, slots, sends, times, DURABLE);
        }
      }
    } else if k <= 8 {
      AllAtOnce(k, need, slots);
    } else {
      NineAtOnce(k, need, slots);
    }
  }

  lemma NineNeverPass(log: seq<int>, now: int, slots: nat)
    ensures Admissible(log, now, 1 + slots, DURABLE) ==> slots < 9
  {
    assert Recent(log, now, DURABLE[0].span) >= 0;
  }

  /** So many sends, some copies of one moment, leave room for so many more at it. */
  lemma CopiesPass(n: nat, now: int, more: nat)
    ensures n + more <= 9 ==> Admissible(Copies(now, n), now, more, DURABLE)
    ensures n + more > 9 ==> !Admissible(Copies(now, n), now, more, DURABLE)
  {
    forall j | 0 <= j < |DURABLE|
      ensures Recent(Copies(now, n), now, DURABLE[j].span) == n
    {
      AllRecent(Copies(now, n), now, DURABLE[j].span);
    }
    assert Recent(Copies(now, n), now, DURABLE[0].span) == n;
  }

  lemma CopiesFitted(now: int, n: nat)
    requires n <= 9
    ensures FittedWhenSent(Copies(now, n), DURABLE)
  {
    hide Recent;
    forall m, j | 0 <= m < n && 0 <= j < |DURABLE|
      ensures Recent(Copies(now, n)[..m + 1], Copies(now, n)[m], DURABLE[j].span) <= DURABLE[j].limit
    {
      assert Copies(now, n)[..m + 1] == Copies(now, m + 1);
      AllRecent(Copies(now, m + 1), now, DURABLE[j].span);
    }
  }

  lemma JoinCopies(now: int, a: nat, b: nat)
    ensures Copies(now, a) + Copies(now, b) == Copies(now, a + b) && Copies(now, a) + [now] == Copies(now, a + 1)
    ensures forall m :: 0 <= m <= b ==> Copies(now, b)[..m] == Copies(now, m)
  {}

  /** As many sales at one moment as the shortest window has room for pass; one more does not. */
  lemma SalesAtOnce(now: int, n: nat, more: nat)
    ensures n + more <= 9 ==> SalesAdmissible(Copies(now, n), Copies(now, more), DURABLE)
    ensures n + more > 9 && more > 0 ==> !SalesAdmissible(Copies(now, n), Copies(now, more), DURABLE)
  {
    hide Admissible;
    forall m | 0 <= m < more
      ensures Admissible(Copies(now, n) + Copies(now, more)[..m], Copies(now, more)[m], 1, DURABLE) <==> n + m + 1 <= 9
    {
      JoinCopies(now, n, m);
      JoinCopies(now, 0, more);
      CopiesPass(n + m, now, 1);
    }
    if n + more > 9 && more > 0 {
      var m := more - 1;
      assert !Admissible(Copies(now, n) + Copies(now, more)[..m], Copies(now, more)[m], 1, DURABLE);
    }
  }

  /** Few sales since: the log, the entry and all sales at one moment. */
  lemma AllAtOnce(k: nat, need: nat, slots: nat)
    requires k <= 8 && slots <= 8 && need > 0 && k + need > slots
    ensures !AlwaysFits(k, need, slots)
  {
    hide Admissible, SalesAdmissible, FittedWhenSent;
    var c := 8 - if k > slots then k else slots;
    var log, sends, times := Copies(0, c), Copies(0, k), Copies(0, need);
    CopiesFitted(0, c);
    CopiesPass(c, 0, 1 + slots);
    JoinCopies(0, c, 0);
    JoinCopies(0, c + 1, k);
    SalesAtOnce(0, c + 1, k);
    SalesAtOnce(0, c + 1 + k, need);
    assert AfterEntry(log, 0, slots, sends) && Onward(0, sends + times);
    assert !SalesAdmissible(log + [0] + sends, times, DURABLE);
  }

  const A_DAY: int := 86400 * SECOND

  /** Sales a day apart. */
  function Daily(n: nat): (r: seq<int>)
    ensures |r| == n && forall m :: 0 <= m < n ==> r[m] == (m + 1) * A_DAY
  {
    seq(n, m => (m + 1) * A_DAY)
  }

  lemma AgesPass(log: seq<int>, now: int, copies: nat)
    requires forall j :: 0 <= j < |log| ==> now - log[j] >= A_DAY
    ensures copies <= 8 ==> Admissible(log + Copies(now, copies), now, 1, DURABLE)
    ensures copies >= 9 ==> !Admissible(log + Copies(now, copies), now, 1, DURABLE)
  {
    forall j | 0 <= j < |DURABLE|
      ensures Recent(log + Copies(now, copies), now, DURABLE[j].span) == copies
    {
      RecentConcat(log, Copies(now, copies), now, DURABLE[j].span);
      NoneRecentIff(log, now, DURABLE[j].span);
      AllRecent(Copies(now, copies), now, DURABLE[j].span);
    }
    assert Recent(log + Copies(now, copies), now, DURABLE[0].span) == copies;
  }

  /** The times of all but nine of the sales are a day apart, and the nine fill the shortest window. */
  lemma LateSalesPass(d: nat, m: nat)
    requires m < d + 9
    ensures var sends := Daily(d) + Copies((d + 1) * A_DAY, 9); Admissible([0] + sends[..m], sends[m], 1, DURABLE)
  {
    hide Admissible;
    var at := (d + 1) * A_DAY;
    var sends := Daily(d) + Copies(at, 9);
    if m < d {
      assert sends[..m] == Daily(m);
      assert [0] + Daily(m) + Copies((m + 1) * A_DAY, 0) == [0] + sends[..m];
      AgesPass([0] + Daily(m), (m + 1) * A_DAY, 0);
    } else {
      JoinCopies(at, 0, 9);
      assert sends[..m] == Daily(d) + Copies(at, m - d);
      assert [0] + Daily(d) + Copies(at, m - d) == [0] + sends[..m];
      AgesPass([0] + Daily(d), at, m - d);
    }
  }

  /** Many sales since: all but nine of them days before, and nothing more passes at the moment of the nine. */
  lemma NineAtOnce(k: nat, need: nat, slots: nat)
    requires k >= 9 && slots <= 8 && need > 0
    ensures !AlwaysFits(k, need, slots)
  {
    hide Admissible, Recent;
    var d := k - 9;
    var at := (d + 1) * A_DAY;
    var sends, times := Daily(d) + Copies(at, 9), Copies(at, need);
    assert Copies(0, 0) == [] && [] + [0] == [0];
    CopiesPass(0, 0, 1 + slots);
    forall m | 0 <= m < |sends|
      ensures Admissible([0] + sends[..m], sends[m], 1, DURABLE)
    {
      LateSalesPass(d, m);
    }
    assert AfterEntry([], 0, slots, sends) && Onward(0, sends + times);
    AgesPass([0] + Daily(d), at, 9);
    assert [] + [0] + sends + times[..0] == [0] + Daily(d) + Copies(at, 9);
    assert !Admissible([] + [0] + sends + times[..0], times[0], 1, DURABLE);
  }

  // ---------- The theorems ----------

  /**
   In an honest run, after an entry admitted on the tables at j and while only sales are made, whatever pending
   buys fill: with all sends since in the log, the whole position held at k can be sold in freeze-sized whole-lot
   children with every send inside its windows, as long as those sends, and the children of what was reserved
   for less what has been sold, fit the slots.
   */
  lemma HoldingsStaySellable(ws: seq<World>, es: seq<Event>, j: nat, k: nat, before: seq<Settlement>, after: seq<Settlement>,
                             open: seq<Id>, lot: int, child: int, log: seq<int>, now: int, sends: seq<int>, times: seq<int>,
                             windows: seq<Window>)
    requires HonestRun(ws, es) && j <= k < |ws| && |ws[j].t.intents| <= |ws[k].t.intents|
    requires forall r :: |ws[j].t.intents| <= r < |ws[k].t.intents| ==> ws[k].t.intents[r].intent.side == SELL
    requires lot > 0 && child > 0 && child % lot == 0 && Distinct(open) && ROUTE_PROBE !in open && before <= after
    requires Potential(ws[j].t, before, open).Success? && OpenQuantity(ws[k].t, after, open).Success?
    requires OpenQuantity(ws[k].t, after, open).value % lot == 0
    requires Admissible(log, now, 1 + ExitSlots(Potential(ws[j].t, before, open).value, child), windows)
    requires var sold := SoldSince(ws[k].t, |ws[j].t.intents|, |ws[k].t.intents|, open);
             |sends| + Children(Potential(ws[j].t, before, open).value - sold, child)
             <= ExitSlots(Potential(ws[j].t, before, open).value, child)
    requires |times| == |Liquidation(OpenQuantity(ws[k].t, after, open).value, child)|
    requires forall m :: 0 <= m < |times| ==> now <= times[m]
    ensures SalesAdmissible(log + [now] + sends, times, windows)
    ensures Total(Liquidation(OpenQuantity(ws[k].t, after, open).value, child)) == OpenQuantity(ws[k].t, after, open).value
  {
    hide HonestRun, OpenQuantity, Potential, Liquidation, Admissible, SalesAdmissible, OnlySalesSince, SoldSince;
    RunOnlySells(ws, es, j, k);
    LaterStaysSellable(log, now, ws[j].t, before, ws[k].t, after, open, lot, child, sends, times, windows);
  }

  /** The same on the tables of the two moments. */
  lemma LaterStaysSellable(log: seq<int>, now: int, t: Tables, before: seq<Settlement>, u: Tables, after: seq<Settlement>,
                           open: seq<Id>, lot: int, child: int, sends: seq<int>, times: seq<int>, windows: seq<Window>)
    requires lot > 0 && child > 0 && child % lot == 0
    requires Distinct(open) && ROUTE_PROBE !in open && OnlySalesSince(t, u) && before <= after
    requires Potential(t, before, open).Success? && OpenQuantity(u, after, open).Success?
    requires OpenQuantity(u, after, open).value % lot == 0
    requires Admissible(log, now, 1 + ExitSlots(Potential(t, before, open).value, child), windows)
    requires |sends| + Children(Potential(t, before, open).value - SoldSince(u, |t.intents|, |u.intents|, open), child)
             <= ExitSlots(Potential(t, before, open).value, child)
    requires |times| == |Liquidation(OpenQuantity(u, after, open).value, child)|
    requires forall m :: 0 <= m < |times| ==> now <= times[m]
    ensures SalesAdmissible(log + [now] + sends, times, windows)
    ensures Total(Liquidation(OpenQuantity(u, after, open).value, child)) == OpenQuantity(u, after, open).value
  {
    hide OpenQuantity, Potential, Liquidation, Admissible, SalesAdmissible, OnlySalesSince, SoldSince;
    HeldWithinPotential(t, u, before, after, open);
    var held, slots := OpenQuantity(u, after, open).value, ExitSlots(Potential(t, before, open).value, child);
    LiquidationSellsAll(held, child, lot);
    ChildrenMonotone(held, Potential(t, before, open).value - SoldSince(u, |t.intents|, |u.intents|, open), child);
    RemainingSlots(log, now, slots, sends, times, windows);
  }

  /** The k-th intent sold at least so much of the open lifecycles. */
  predicate SoldAtLeast(u: Tables, k: nat, open: seq<Id>, each: nat)
    requires k < |u.intents|
  {
    u.intents[k].intent.lifecycle in open && FilledQty(u.fills, u.intents[k].intent.id) >= each
  }

  lemma {:induction false} SoldEach(u: Tables, first: nat, n: nat, open: seq<Id>, each: nat)
    requires first <= n <= |u.intents| && forall k :: first <= k < n ==> SoldAtLeast(u, k, open, each)
    ensures SoldSince(u, first, n, open) >= (n - first) * each
  {
    hide FilledQty;
    if n > first {
      SoldEach(u, first, n - 1, open, each);
      assert SoldAtLeast(u, n - 1, open, each);
      assert (n - first) * each == (n - 1 - first) * each + each;
    }
  }

  /** The slots suffice whenever every sale since has sold a whole child. */
  lemma WholeChildrenFit(t: Tables, before: seq<Settlement>, u: Tables, open: seq<Id>, child: nat, sends: seq<int>)
    requires child > 0 && |t.intents| <= |u.intents| && Potential(t, before, open).Success?
    requires forall k :: |t.intents| <= k < |u.intents| ==> SoldAtLeast(u, k, open, child)
    requires |sends| <= |u.intents| - |t.intents|
    ensures |sends| + Children(Potential(t, before, open).value - SoldSince(u, |t.intents|, |u.intents|, open), child)
            <= ExitSlots(Potential(t, before, open).value, child)
  {
    hide Potential, SoldAtLeast, SoldSince;
    SoldEach(u, |t.intents|, |u.intents|, open, child);
    var most, sold, sales := Potential(t, before, open).value, SoldSince(u, |t.intents|, |u.intents|, open), |u.intents| - |t.intents|;
    ChildrenMonotone(most - sold + sales * child, most, child);
    ChildrenTaken(most - sold, child, sales);
  }

  lemma {:induction false} ChildrenTaken(held: int, child: int, k: nat)
    requires child > 0
    ensures Children(held + k * child, child) == Children(held, child) + k
  {
    if k > 0 {
      ChildrenTaken(held, child, k - 1);
      assert held + k * child == held + (k - 1) * child + child;
      OneChildLess(held + k * child, child);
    }
  }

  /**
   Sales that sell nothing use slots all the same. Six sends, an entry for two children and two unfilled sales
   in one second: right after the entry two sales would have passed, after the two unfilled ones none does.
   */
  lemma UnfilledSalesUseSlots()
    ensures AfterEntry(Copies(0, 6), 0, 2, Copies(0, 2))
    ensures SalesAdmissible(Copies(0, 6) + [0], Copies(0, 2), DURABLE)
    ensures !SalesAdmissible(Copies(0, 6) + [0] + Copies(0, 2), Copies(0, 2), DURABLE)
  {
    CopiesFitted(0, 6);
    CopiesPass(6, 0, 3);
    JoinCopies(0, 6, 0);
    JoinCopies(0, 7, 2);
    SalesAtOnce(0, 7, 2);
    SalesAtOnce(0, 9, 2);
  }
}
