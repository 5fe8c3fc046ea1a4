/** The lifecycle ceiling and the mandate cap over every run. */
module CapitalSafety {
  import opened Wrappers
  import opened Fees
  import opened Risk
  import opened Search
  import opened Ledger
  import opened Orders
  import opened OrderSafety
  import opened OrderTheorems
  import opened Capital

  /** One lifecycle, or everything under the mandate; operator route probes are accounted separately. */
  datatype Scope = One(lifecycle: Id) | Managed

  predicate Covers(s: Scope, lifecycle: Id) {
    match s
    case One(l) => lifecycle == l
    case Managed => lifecycle != ROUTE_PROBE
  }

  /** What a buy intent holds of its allocation: its debit once terminal, before that at least its reservation. */
  function Held(t: Tables, row: IntentRow): real {
    if Terminal(t, row) then Debit(t, row.intent) else Max(row.reserved, Debit(t, row.intent))
  }

  function HeldSum(t: Tables, n: nat, s: Scope): real
    requires n <= |t.intents|
  {
    if n == 0 then 0.0
    else
      var row := t.intents[n - 1];
      HeldSum(t, n - 1, s) + if row.intent.side == BUY && Covers(s, row.intent.lifecycle) then Held(t, row) else 0.0
  }

  /** Entry debit plus reserved, as the totals report them, is what the buy intents hold. */
  lemma {:induction false} CommittedIsHeld(t: Tables, n: nat, lifecycle: Id)
    requires n <= |t.intents|
    ensures RowTotals(t, n, lifecycle).debit + RowTotals(t, n, lifecycle).reserved == HeldSum(t, n, One(lifecycle))
  {
    hide Debit, Terminal;
    if n > 0 {
      CommittedIsHeld(t, n - 1, lifecycle);
    }
  }

  function CommittedSum(t: Tables, n: nat, lifecycles: seq<Id>): real
    requires n <= |t.intents|
  {
    if lifecycles == [] then 0.0
    else
      var r := RowTotals(t, n, lifecycles[0]);
      r.debit + r.reserved + CommittedSum(t, n, lifecycles[1..])
  }

  /** One more intent adds what it holds to exactly the lifecycle it belongs to. */
  lemma {:induction false} CommittedSumStep(t: Tables, n: nat, lifecycles: seq<Id>)
    requires 0 < n <= |t.intents| && Distinct(lifecycles)
    ensures var row := t.intents[n - 1];
            CommittedSum(t, n, lifecycles) == CommittedSum(t, n - 1, lifecycles)
              + if row.intent.side == BUY && row.intent.lifecycle in lifecycles then Held(t, row) else 0.0
  {
    hide Debit, Terminal;
    if lifecycles != [] {
      var l := lifecycles[0];
      CommittedSumStep(t, n, lifecycles[1..]);
      CommittedIsHeld(t, n, l);
      CommittedIsHeld(t, n - 1, l);
      assert l !in lifecycles[1..];
    }
  }

  /** Summing the totals of all managed lifecycles counts every managed buy intent exactly once. */
  lemma {:induction false} CapUseIsHeld(t: Tables, n: nat, lifecycles: seq<Id>)
    requires n <= |t.intents| && Distinct(lifecycles) && ROUTE_PROBE !in lifecycles
    requires forall k :: 0 <= k < n && t.intents[k].intent.lifecycle != ROUTE_PROBE ==> t.intents[k].intent.lifecycle in lifecycles
    ensures CommittedSum(t, n, lifecycles) == HeldSum(t, n, Managed)
  {
    hide Held;
    if n == 0 {
      NothingCommitted(t, lifecycles);
    } else {
      CapUseIsHeld(t, n - 1, lifecycles);
      CommittedSumStep(t, n, lifecycles);
    }
  }

  lemma {:induction false} NothingCommitted(t: Tables, lifecycles: seq<Id>)
    ensures CommittedSum(t, 0, lifecycles) == 0.0
  {
    if lifecycles != [] {
      NothingCommitted(t, lifecycles[1..]);
    }
  }

  // ---------- A reservation covers its intent ----------

  /** Fills of a buy happen at positive prices no higher than its limit. */
  ghost predicate FairFills(t: Tables) {
    forall k, r | 0 <= k < |t.fills| && 0 <= r < |t.intents| ::
      t.fills[k].intent == t.intents[r].intent.id && t.intents[r].intent.side == BUY ==>
        0.0 <= t.fills[k].fill.price <= t.intents[r].intent.limit
  }

  /** Reported fees of a buy stay inside its fee envelope. */
  ghost predicate FeesWithin(t: Tables) {
    forall r :: 0 <= r < |t.intents| && t.intents[r].intent.side == BUY ==>
      Reported(t, t.intents[r].intent.id) <= Envelope(BUY, FillTurnover(t.fills, t.intents[r].intent.id))
  }

  /** submit refuses a buy whose reservation understates the worst-case debit. */
  predicate Reserves(i: Intent, reserved: real) {
    i.qty > 0 && i.limit > 0.0 && reserved >= ReserveCash(EntryCash(i.qty, i.limit, 1))
  }

  lemma {:induction false} TurnoverWithinLimit(fills: seq<FillRow>, id: Id, limit: real)
    requires forall k :: 0 <= k < |fills| && fills[k].intent == id ==> 0.0 <= fills[k].fill.price <= limit
    ensures 0.0 <= FillTurnover(fills, id) <= Turnover(FilledQty(fills, id), limit)
  {
    if fills != [] {
      var row := fills[|fills| - 1];
      TurnoverWithinLimit(fills[..|fills| - 1], id, limit);
      if row.intent == id {
        TurnoverMonotone(row.fill.qty, row.fill.qty, row.fill.price, limit);
        TurnoverAdds(FilledQty(fills[..|fills| - 1], id), row.fill.qty, limit);
      }
    }
  }

  lemma TurnoverAdds(p: nat, q: nat, limit: real)
    ensures Turnover(p, limit) + Turnover(q, limit) == Turnover(p + q, limit)
  {}

  /** The buy envelope is a whole number of paise, so rounding it up again changes nothing. */
  lemma EnvelopeIsWholePaise(turnover: real, children: int)
    ensures CeilPaise(Buy(turnover, children)) == Buy(turnover, children)
  {
    var e, s, p := Ceil(turnover * EXCHANGE_RATE * 100.0), Ceil(turnover * SEBI_RATE * 100.0), Ceil(turnover * IPFT_RATE * 100.0);
    var base := Base(turnover, children);
    var g := Ceil(base * GST_RATE * 100.0);
    var d := Ceil(turnover * STAMP_RATE);
    hide Ceil;
    var n := 2000 * children + e + s + p + 4 * (children - 1) + g + 100 * (d + children - 1);
    assert Buy(turnover, children) * 100.0 == n as real;
    WholeCeil(n);
  }

  lemma WholeCeil(n: int)
    ensures Ceil(n as real) == n
  {}

  /** While pending, debit plus residual reserve is exactly the reservation; the debit never exceeds it. */
  lemma ReservationCovers(t: Tables, r: nat)
    requires WellFormed(t) && FairFills(t) && FeesWithin(t)
    requires r < |t.intents| && t.intents[r].intent.side == BUY && Reserves(t.intents[r].intent, t.intents[r].reserved)
    ensures 0.0 <= Debit(t, t.intents[r].intent) <= t.intents[r].reserved
    ensures !Terminal(t, t.intents[r]) ==> Held(t, t.intents[r]) == t.intents[r].reserved
    ensures Cost(t, t.intents[r].intent) == if FilledQty(t.fills, t.intents[r].intent.id) == 0 then 0.0
                                            else Buy(FillTurnover(t.fills, t.intents[r].intent.id), 1)
  {
    var i := t.intents[r].intent;
    var turnover, most := FillTurnover(t.fills, i.id), Turnover(i.qty, i.limit);
    TurnoverWithinLimit(t.fills, i.id, i.limit);
    hide Turnover, Buy, FillTurnover, FilledQty;
    TurnoverMonotone(FilledQty(t.fills, i.id), i.qty, i.limit, i.limit);
    FeesMonotone(turnover, most, 1, 1);
    FeesPositive(turnover, 1);
    FeesPositive(most, 1);
    EnvelopeIsWholePaise(turnover, 1);
    if FilledQty(t.fills, i.id) == 0 {
      ZeroTurnover(i.limit);
      assert turnover == 0.0;
    }
    assert turnover + Buy(turnover, 1) <= EntryCash(i.qty, i.limit, 1) <= ReserveCash(EntryCash(i.qty, i.limit, 1));
  }

  lemma ZeroTurnover(limit: real)
    ensures Turnover(0, limit) == 0.0
  {}

  // ---------- Fills only accumulate ----------

  /** Recorded fills keep their intent, quantity and price; new ones come after them. */
  ghost predicate FillsLeq(a: seq<FillRow>, b: seq<FillRow>) {
    && |a| <= |b|
    && forall k :: 0 <= k < |a| ==>
         b[k].intent == a[k].intent && b[k].fill.qty == a[k].fill.qty && b[k].fill.price == a[k].fill.price
  }

  ghost predicate PositiveFills(fills: seq<FillRow>) {
    forall k :: 0 <= k < |fills| ==> fills[k].fill.qty > 0
  }

  lemma OpFills(t: Tables, op: Op)
    requires PositiveFills(t.fills) && ExecOp(t, op).Success?
    ensures var u := ExecOp(t, op).value;
            FillsLeq(t.fills, u.fills) && PositiveFills(u.fills) && |u.intents| == |t.intents|
  {}

  lemma {:induction false} TrailFills(t: Tables, ops: seq<Op>)
    requires PositiveFills(t.fills)
    ensures forall k :: 0 <= k < |Trail(t, ops)| ==>
              FillsLeq(t.fills, Trail(t, ops)[k].fills) && PositiveFills(Trail(t, ops)[k].fills)
              && |Trail(t, ops)[k].intents| == |t.intents|
    decreases |ops|
  {
    hide ExecOp;
    if ops != [] && ExecOp(t, ops[0]).Success? {
      OpFills(t, ops[0]);
      TrailFills(ExecOp(t, ops[0]).value, ops[1..]);
    }
  }

  /** The buy an event may commit. */
  function Entry(e: Event): Option<(Intent, real)> {
    match e
    case SubmitBuy(i, reserved, _, _) => Some((i, reserved))
    case CrashDuring(SubmitBuy(i, reserved, _, _), _) => Some((i, reserved))
    case _ => None
  }

  /** No new row, one sale, or exactly the entry, not yet filled. */
  ghost predicate AtMostEntry(t: Tables, u: Tables, e: Event) {
    || |u.intents| == |t.intents|
    || (|u.intents| == |t.intents| + 1
        && (u.intents[|t.intents|].intent.side == SELL
            || (Entry(e).Some? && u.intents[|t.intents|].intent == Entry(e).value.0
                && u.intents[|t.intents|].reserved == Entry(e).value.1)))
  }

  ghost predicate Shape(t: Tables, u: Tables, e: Event) {
    && FillsLeq(t.fills, u.fills) && PositiveFills(u.fills) && AtMostEntry(t, u, e)
    && (|u.intents| > |t.intents| ==> u.fills == t.fills)
  }

  lemma DispatchShape(t: Tables, i: Intent, reserved: real, attempt: Id, rateOk: bool, e: Event)
    requires PositiveFills(t.fills) && (i.side == SELL || Entry(e) == Some((i, reserved)))
    ensures forall k :: 0 <= k < |DispatchTrail(t, i, reserved, attempt, rateOk)| ==>
              Shape(t, DispatchTrail(t, i, reserved, attempt, rateOk)[k], e)
  {}

  lemma AnswerShape(t: Tables, i: Intent, attempt: Id, response: Option<Report>, e: Event)
    requires PositiveFills(t.fills)
    ensures forall k :: 0 <= k < |AnswerTrail(t, i, attempt, response)| ==> Shape(t, AnswerTrail(t, i, attempt, response)[k], e)
  {}

  lemma CommitShape(w: World, e: Event)
    requires Enabled(w, e) && PositiveFills(w.t.fills) && SubmitInv(w) && !e.CrashDuring?
    ensures forall k :: 0 <= k < |Commits(w, e)| ==> Shape(w.t, Commits(w, e)[k], e)
  {
    hide ExecOp, Program, DispatchTrail, AnswerTrail;
    match e
    case Apply =>
      TrailFills(w.t, Program(w.p.batch.rows, w.p.batch.resolved, w.p.batch.trades));
    case SubmitBuy(i, reserved, attempt, rateOk) => DispatchShape(w.t, i, reserved, attempt, rateOk, e);
    case SellDispatch(attempt, rateOk) =>
      DispatchShape(w.t, w.p.submit.i, w.p.submit.reserved, attempt, rateOk, e);
    case PostAnswered(response) => AnswerShape(w.t, w.p.submit.i, w.p.submit.attempt, response, e);
    case _ => hide Trail;
  }

  lemma StepShape(w: World, e: Event)
    requires Enabled(w, e) && PositiveFills(w.t.fills) && SubmitInv(w)
    ensures var v := Next(w, e);
            && FillsLeq(w.t.fills, v.t.fills) && PositiveFills(v.t.fills)
            && AtMostEntry(w.t, v.t, e)
            && (|v.t.intents| > |w.t.intents| ==> v.t.fills == w.t.fills)
  {
    hide SubmitInv, Enabled, Next, Commits, FillsLeq, PositiveFills;
    var k := StepTables(w, e);
    CommitShape(w, Core(e));
    assert Entry(Core(e)) == Entry(e);
  }

  lemma {:induction false} QtyGrows(a: seq<FillRow>, b: seq<FillRow>, id: Id)
    requires FillsLeq(a, b)
    ensures FilledQty(a, id) <= FilledQty(b, id)
    decreases |b|
  {
    if |a| < |b| {
      QtyGrows(a, b[..|b| - 1], id);
    } else {
      FilledQtySameQuantities(a, b, id);
    }
  }

  /** With positive fills, an unchanged filled quantity means an unchanged turnover. */
  lemma {:induction false} SameQtySameTurnover(a: seq<FillRow>, b: seq<FillRow>, id: Id)
    requires FillsLeq(a, b) && PositiveFills(b) && FilledQty(a, id) == FilledQty(b, id)
    ensures FillTurnover(a, id) == FillTurnover(b, id)
    decreases |b|
  {
    hide Turnover;
    if |a| < |b| {
      QtyGrows(a, b[..|b| - 1], id);
      SameQtySameTurnover(a, b[..|b| - 1], id);
    } else if b != [] {
      FilledQtySameQuantities(a[..|a| - 1], b[..|b| - 1], id);
      SameQtySameTurnover(a[..|a| - 1], b[..|b| - 1], id);
    }
  }

  // ---------- Runs ----------

  ghost predicate ManagedBuysReserve(t: Tables) {
    forall r :: 0 <= r < |t.intents| && t.intents[r].intent.side == BUY && t.intents[r].intent.lifecycle != ROUTE_PROBE ==>
      Reserves(t.intents[r].intent, t.intents[r].reserved)
  }

  /** A resolved intent has all its fills recorded. */
  ghost predicate NoLateFills(t: Tables, u: Tables) {
    forall r :: 0 <= r < |t.intents| && Resolved(t.intents[r].state) ==>
      FilledQty(u.fills, t.intents[r].intent.id) == FilledQty(t.fills, t.intents[r].intent.id)
  }

  predicate ManagedEntry(e: Event) {
    Entry(e).Some? && Entry(e).value.0.lifecycle != ROUTE_PROBE
  }

  /** Every managed entry reserves its worst case, as submit demands. */
  predicate EntriesReserve(es: seq<Event>) {
    forall k :: 0 <= k < |es| && ManagedEntry(es[k]) ==> Reserves(Entry(es[k]).value.0, Entry(es[k]).value.1)
  }

  ghost predicate BrokerFair(ws: seq<World>) {
    forall k :: 0 <= k < |ws| ==> FairFills(ws[k].t) && FeesWithin(ws[k].t)
  }

  /** Where the scope applies, the entry's reservation fits what is left of the cap. */
  ghost predicate Admitted(w: World, e: Event, s: Scope, cap: real) {
    ManagedEntry(e) && Covers(s, Entry(e).value.0.lifecycle) ==>
      HeldSum(w.t, |w.t.intents|, s) + Entry(e).value.1 <= cap
  }

  /** A run with fair fills, fees within the envelope, complete resolutions and admitted entries. */
  ghost predicate FundedRun(ws: seq<World>, es: seq<Event>, s: Scope, cap: real) {
    && Run(ws, es) && cap >= 0.0 && s != One(ROUTE_PROBE) && EntriesReserve(es) && BrokerFair(ws)
    && (forall k :: 0 <= k < |es| ==> NoLateFills(ws[k].t, ws[k + 1].t) && Admitted(ws[k], es[k], s, cap))
  }

  /** No step raises what an existing managed buy holds. */
  lemma HeldFalls(t: Tables, u: Tables, r: nat)
    requires WellFormed(t) && WellFormed(u) && FairFills(t) && FairFills(u) && FeesWithin(t) && FeesWithin(u)
    requires TablesLeq(t, u) && StaySettled(t, u) && NoLateFills(t, u) && FillsLeq(t.fills, u.fills) && PositiveFills(u.fills)
    requires r < |t.intents| && t.intents[r].intent.side == BUY && t.intents[r].intent.lifecycle != ROUTE_PROBE
    requires Reserves(t.intents[r].intent, t.intents[r].reserved)
    ensures Held(u, u.intents[r]) <= Held(t, t.intents[r])
  {
    ReservationCovers(t, r);
    ReservationCovers(u, r);
    if Resolved(t.intents[r].state) {
      SameQtySameTurnover(t.fills, u.fills, t.intents[r].intent.id);
    }
    hide FilledQty, FillTurnover, Buy, Reserves, FairFills, FeesWithin, WellFormed;
  }

  lemma {:induction false} HeldSumFalls(t: Tables, u: Tables, n: nat, s: Scope)
    requires n <= |t.intents| <= |u.intents| && TablesLeq(t, u) && s != One(ROUTE_PROBE)
    requires forall r :: 0 <= r < n && t.intents[r].intent.side == BUY && t.intents[r].intent.lifecycle != ROUTE_PROBE ==>
               Held(u, u.intents[r]) <= Held(t, t.intents[r])
    ensures HeldSum(u, n, s) <= HeldSum(t, n, s)
  {
    hide Held;
    if n > 0 {
      HeldSumFalls(t, u, n - 1, s);
    }
  }

  lemma ReservesPreserved(t: Tables, u: Tables, e: Event)
    requires TablesLeq(t, u) && AtMostEntry(t, u, e) && ManagedBuysReserve(t)
    requires Entry(e).Some? && Entry(e).value.0.lifecycle != ROUTE_PROBE ==> Reserves(Entry(e).value.0, Entry(e).value.1)
    ensures ManagedBuysReserve(u)
  {
    hide Reserves;
  }

  /** A freshly committed buy holds no more than its reservation. */
  lemma FreshHeld(t: Tables, u: Tables, k: nat)
    requires WellFormed(t) && WellFormed(u) && FairFills(u) && FeesWithin(u)
    requires k == |t.intents| < |u.intents| && TablesLeq(t, u)
    requires u.intents[k].intent.side == BUY && Reserves(u.intents[k].intent, u.intents[k].reserved)
    ensures Held(u, u.intents[k]) <= u.intents[k].reserved
  {
    ReservationCovers(u, k);
  }

  ghost predicate Sound(t: Tables) {
    WellFormed(t) && FairFills(t) && FeesWithin(t) && ManagedBuysReserve(t) && PositiveFills(t.fills)
  }

  /** One commit sequence of one event, seen on the tables alone. */
  lemma HeldSumBounded(t: Tables, u: Tables, e: Event, s: Scope, cap: real)
    requires Sound(t) && Sound(u) && TablesLeq(t, u) && StaySettled(t, u) && NoLateFills(t, u) && FillsLeq(t.fills, u.fills)
    requires AtMostEntry(t, u, e) && s != One(ROUTE_PROBE)
    requires HeldSum(t, |t.intents|, s) <= cap
    requires Entry(e).Some? && Covers(s, Entry(e).value.0.lifecycle) ==> HeldSum(t, |t.intents|, s) + Entry(e).value.1 <= cap
    ensures HeldSum(u, |u.intents|, s) <= cap
  {
    hide Held, StaySettled, FairFills, FeesWithin, WellFormed, Reserves, NoLateFills;
    var n := |t.intents|;
    forall r | 0 <= r < n && t.intents[r].intent.side == BUY && t.intents[r].intent.lifecycle != ROUTE_PROBE
      ensures Held(u, u.intents[r]) <= Held(t, t.intents[r])
    {
      HeldFalls(t, u, r);
    }
    HeldSumFalls(t, u, n, s);
    if |u.intents| > n && u.intents[n].intent.side == BUY && u.intents[n].intent.lifecycle != ROUTE_PROBE {
      FreshHeld(t, u, n);
    }
  }

  /** One event, on sound tables before and after: fills are positive and managed buys reserve their worst case. */
  lemma {:induction false} RunReserves(ws: seq<World>, es: seq<Event>, k: nat)
    requires Run(ws, es) && EntriesReserve(es) && k < |ws|
    ensures PositiveFills(ws[k].t.fills) && ManagedBuysReserve(ws[k].t)
  {
    if k == 0 {
      assert Init(ws[0]);
    } else {
      var w, e := ws[k - 1], es[k - 1];
      assert Enabled(w, e) && ws[k - 1 + 1] == Next(w, e);
      hide Inv, Enabled, Next, Init, Reserves;
      RunReserves(ws, es, k - 1);
      RunInv(ws, es, k - 1);
      InvParts(w);
      StepShape(w, e);
      StepRows(w, e);
      ReservesPreserved(w.t, Next(w, e).t, e);
    }
  }

  /** What all managed buys hold moves only by the entry of a step. */
  lemma StepHeld(ws: seq<World>, es: seq<Event>, k: nat, s: Scope, cap: real)
    requires Run(ws, es) && EntriesReserve(es) && BrokerFair(ws) && k < |es| && NoLateFills(ws[k].t, ws[k + 1].t) && s != One(ROUTE_PROBE)
    requires HeldSum(ws[k].t, |ws[k].t.intents|, s) <= cap
    requires ManagedEntry(es[k]) && Covers(s, Entry(es[k]).value.0.lifecycle) ==>
               HeldSum(ws[k].t, |ws[k].t.intents|, s) + Entry(es[k]).value.1 <= cap
    ensures HeldSum(ws[k + 1].t, |ws[k + 1].t.intents|, s) <= cap
  {
    hide Inv, Enabled, Next, Init, HeldSum, FairFills, FeesWithin, Reserves;
    var w, v, e := ws[k], ws[k + 1], es[k];
    assert Enabled(w, e) && v == Next(w, e);
    RunReserves(ws, es, k);
    RunReserves(ws, es, k + 1);
    RunInv(ws, es, k);
    RunInv(ws, es, k + 1);
    InvParts(w);
    InvParts(v);
    StepShape(w, e);
    StepRows(w, e);
    StepKeepsSettled(w, e);
    HeldSumBounded(w.t, v.t, e, s, cap);
  }

  lemma {:induction false} FundedInv(ws: seq<World>, es: seq<Event>, s: Scope, cap: real, k: nat)
    requires FundedRun(ws, es, s, cap) && k < |ws|
    ensures HeldSum(ws[k].t, |ws[k].t.intents|, s) <= cap
  {
    if k == 0 {
      assert Init(ws[0]);
    } else {
      hide Enabled, Next, Init, HeldSum, FairFills, FeesWithin, Reserves, NoLateFills;
      FundedInv(ws, es, s, cap, k - 1);
      assert Admitted(ws[k - 1], es[k - 1], s, cap) && NoLateFills(ws[k - 1].t, ws[k - 1 + 1].t);
      StepHeld(ws, es, k - 1, s, cap);
    }
  }

  /** Between entries what is held only falls. */
  lemma {:induction false} HeldBetweenEntries(ws: seq<World>, es: seq<Event>, j: nat, k: nat, s: Scope)
    requires Run(ws, es) && EntriesReserve(es) && BrokerFair(ws) && j <= k < |ws| && s != One(ROUTE_PROBE)
    requires forall m :: j <= m < k ==> NoLateFills(ws[m].t, ws[m + 1].t) && !ManagedEntry(es[m])
    ensures HeldSum(ws[k].t, |ws[k].t.intents|, s) <= HeldSum(ws[j].t, |ws[j].t.intents|, s)
  {
    hide Enabled, Next, Init, HeldSum, FairFills, FeesWithin, Reserves, NoLateFills;
    if j < k {
      HeldBetweenEntries(ws, es, j, k - 1, s);
      assert NoLateFills(ws[k - 1].t, ws[k - 1 + 1].t) && !ManagedEntry(es[k - 1]);
      StepHeld(ws, es, k - 1, s, HeldSum(ws[k - 1].t, |ws[k - 1].t.intents|, s));
    }
  }

  lemma InvParts(w: World)
    requires Inv(w)
    ensures SubmitInv(w) && WellFormed(w.t)
  {}

  // ---------- Admission as the code does it ----------

  /** The allocation an entry of a lifecycle starts from, on the current totals. */
  function EntryAllocation(t: Tables, lifecycle: Id, bankroll: real, spendable: real, cap: Option<real>): Allocation {
    var totals := RowTotals(t, |t.intents|, lifecycle);
    StartAllocation(bankroll, spendable, totals.debit, totals.reserved, cap)
  }

  /** Auction entries: the permitted quantity, possibly cut to one child before submission. */
  ghost predicate AuctionAdmits(a: Allocation, i: Intent, q: int, children: int) {
    i.qty <= q && children >= 1 && a.Permits(ReserveCash(EntryCash(q, i.limit, children)))
  }

  function MinuteBudget(a: Allocation): real {
    var budget := Min(Min(a.remaining, a.spendable), a.bankroll * 0.95);
    if a.cap.Some? then Min(budget, a.cap.value) else budget
  }

  /** Minute entries: the debit and the fees of three exits fit the budget. */
  ghost predicate MinuteAdmits(a: Allocation, i: Intent, exitTurnover: real) {
    exitTurnover >= 0.0 && EntryCash(i.qty, i.limit, 1) + Sell(exitTurnover, 3) <= MinuteBudget(a)
  }

  /** A minute entry is within budget exactly when it fits the ceiling's rest, the cash, 95% of the bankroll and the cap. */
  lemma MinuteAdmitsIff(t: Tables, i: Intent, bankroll: real, spendable: real, cap: Option<real>, exitTurnover: real)
    requires i.qty > 0 && i.limit > 0.0 && exitTurnover >= 0.0
    ensures MinuteAdmits(EntryAllocation(t, i.lifecycle, bankroll, spendable, cap), i, exitTurnover) <==>
            var cost := EntryCash(i.qty, i.limit, 1) + Sell(exitTurnover, 3);
            && HeldSum(t, |t.intents|, One(i.lifecycle)) + cost <= LifecycleCeiling(bankroll)
            && cost <= spendable && cost <= bankroll * 95.0 / 100.0 && (cap.Some? ==> cost <= cap.value)
  {
    hide EntryCash, Sell, LifecycleCeiling, HeldSum, RowTotals;
    CommittedIsHeld(t, |t.intents|, i.lifecycle);
    EntryCashBounds(i.qty, i.limit, 1);
    FeesPositive(exitTurnover, 3);
  }

  ghost predicate AllocationAdmits(a: Allocation, i: Intent) {
    (exists q, children :: AuctionAdmits(a, i, q, children)) || (exists exitTurnover :: MinuteAdmits(a, i, exitTurnover))
  }

  /** Either way the reservation fits the lifecycle's ceiling and what is left of the cap. */
  lemma AdmissionLeavesRoom(t: Tables, i: Intent, bankroll: real, spendable: real, cap: Option<real>)
    requires i.qty > 0 && i.limit > 0.0
    requires AllocationAdmits(EntryAllocation(t, i.lifecycle, bankroll, spendable, cap), i)
    ensures var reserved := ReserveCash(EntryCash(i.qty, i.limit, 1));
            && Reserves(i, reserved)
            && HeldSum(t, |t.intents|, One(i.lifecycle)) + reserved <= LifecycleCeiling(bankroll)
            && (cap.Some? ==> reserved <= cap.value)
  {
    hide EntryCash, Sell, LifecycleCeiling;
    var a := EntryAllocation(t, i.lifecycle, bankroll, spendable, cap);
    CommittedIsHeld(t, |t.intents|, i.lifecycle);
    var cash := EntryCash(i.qty, i.limit, 1);
    EntryCashBounds(i.qty, i.limit, 1);
    if q, children :| AuctionAdmits(a, i, q, children) {
      EntryCashMonotone(i.qty, q, i.limit, i.limit, 1, children);
      CeilPaiseMonotone(cash, EntryCash(q, i.limit, children));
    } else {
      var exitTurnover :| MinuteAdmits(a, i, exitTurnover);
      FeesPositive(exitTurnover, 3);
    }
    hide HeldSum, RowTotals;
  }

  /** What the engine looked at for each entry: the state of the run, the lifecycles table, and the cash. */
  datatype View = View(at: nat, lifecycles: seq<Id>, spendable: real)

  /**
   The entry of step k is submitted for its worst-case cash, against the frozen bankroll and what was left of the
   mandate's cap when its allocation was computed; the engine's lock lets no other entry in between.
   */
  ghost predicate EntryByCode(ws: seq<World>, es: seq<Event>, k: nat, v: View, bank: Id -> real, cap: Option<real>)
    requires k < |es| && |ws| == |es| + 1
  {
    ManagedEntry(es[k]) ==>
      var i := Entry(es[k]).value.0;
      && v.at <= k && (forall m :: v.at <= m < k ==> !ManagedEntry(es[m]))
      && AllocatedOn(ws[v.at].t, i, Entry(es[k]).value.1, v, bank, cap)
  }

  ghost predicate AllocatedOn(t: Tables, i: Intent, reserved: real, v: View, bank: Id -> real, cap: Option<real>) {
    && i.qty > 0 && i.limit > 0.0
    && reserved == ReserveCash(EntryCash(i.qty, i.limit, 1))
    && Distinct(v.lifecycles) && ROUTE_PROBE !in v.lifecycles
    && (forall k :: 0 <= k < |t.intents| && t.intents[k].intent.lifecycle != ROUTE_PROBE ==>
          t.intents[k].intent.lifecycle in v.lifecycles)
    && AllocationAdmits(
         EntryAllocation(t, i.lifecycle, bank(i.lifecycle), v.spendable,
                         if cap.None? then None
                         else Some(Max(0.0, cap.value - CommittedSum(t, |t.intents|, v.lifecycles)))), i)
  }

  /** A run whose managed entries were all admitted by the code. */
  ghost predicate CodeRun(ws: seq<World>, es: seq<Event>, bank: Id -> real, cap: Option<real>, views: seq<View>) {
    && Run(ws, es) && |views| == |es| && BrokerFair(ws)
    && (forall k :: 0 <= k < |es| ==> NoLateFills(ws[k].t, ws[k + 1].t))
    && (forall k :: 0 <= k < |es| ==> EntryByCode(ws, es, k, views[k], bank, cap))
  }

  /** On the tables the allocation was computed on, the reservation fits ceiling and cap. */
  lemma AllocatedFits(t: Tables, i: Intent, reserved: real, v: View, bank: Id -> real, cap: Option<real>)
    requires AllocatedOn(t, i, reserved, v, bank, cap)
    ensures Reserves(i, reserved)
    ensures HeldSum(t, |t.intents|, One(i.lifecycle)) + reserved <= LifecycleCeiling(bank(i.lifecycle))
    ensures cap.Some? ==> HeldSum(t, |t.intents|, Managed) + reserved <= cap.value
  {
    var left := if cap.None? then None else Some(Max(0.0, cap.value - CommittedSum(t, |t.intents|, v.lifecycles)));
    AdmissionLeavesRoom(t, i, bank(i.lifecycle), v.spendable, left);
    CapUseIsHeld(t, |t.intents|, v.lifecycles);
    EntryCashBounds(i.qty, i.limit, 1);
    hide AllocationAdmits, EntryAllocation, EntryCash, HeldSum, CommittedSum, LifecycleCeiling;
  }

  lemma CodeReserves(ws: seq<World>, es: seq<Event>, bank: Id -> real, cap: Option<real>, views: seq<View>)
    requires CodeRun(ws, es, bank, cap, views)
    ensures EntriesReserve(es)
  {
    hide Enabled, Next, Init, BrokerFair, NoLateFills, AllocatedOn, Reserves;
    forall k | 0 <= k < |es| && ManagedEntry(es[k])
      ensures Reserves(Entry(es[k]).value.0, Entry(es[k]).value.1)
    {
      assert EntryByCode(ws, es, k, views[k], bank, cap);
      AllocatedFits(ws[views[k].at].t, Entry(es[k]).value.0, Entry(es[k]).value.1, views[k], bank, cap);
    }
  }

  lemma EntryIsAdmitted(ws: seq<World>, es: seq<Event>, bank: Id -> real, cap: Option<real>, views: seq<View>, k: nat, l: Id)
    requires CodeRun(ws, es, bank, cap, views) && k < |es| && l != ROUTE_PROBE
    ensures Admitted(ws[k], es[k], One(l), LifecycleCeiling(bank(l)))
    ensures cap.Some? ==> Admitted(ws[k], es[k], Managed, cap.value)
  {
    hide Enabled, Next, Init, BrokerFair, NoLateFills, AllocatedOn, HeldSum, LifecycleCeiling, Reserves;
    if ManagedEntry(es[k]) {
      var v, i := views[k], Entry(es[k]).value.0;
      assert EntryByCode(ws, es, k, v, bank, cap);
      CodeReserves(ws, es, bank, cap, views);
      AllocatedFits(ws[v.at].t, i, Entry(es[k]).value.1, v, bank, cap);
      HeldBetweenEntries(ws, es, v.at, k, One(i.lifecycle));
      HeldBetweenEntries(ws, es, v.at, k, Managed);
    }
  }

  /**
   However many adds, partial fills, partial exits, crashes and retries a run contains, entry debit plus
   reserved of a lifecycle never exceeds the ceiling of its frozen bankroll.
   */
  lemma CeilingHolds(ws: seq<World>, es: seq<Event>, bank: Id -> real, cap: Option<real>, views: seq<View>, l: Id, k: nat)
    requires CodeRun(ws, es, bank, cap, views) && k < |ws| && l != ROUTE_PROBE
    ensures var totals := RowTotals(ws[k].t, |ws[k].t.intents|, l);
            totals.debit + totals.reserved <= LifecycleCeiling(bank(l))
  {
    hide Enabled, Next, Init, EntryByCode, Admitted, HeldSum, RowTotals, BrokerFair, EntriesReserve;
    forall m | 0 <= m < |es|
      ensures NoLateFills(ws[m].t, ws[m + 1].t) && Admitted(ws[m], es[m], One(l), LifecycleCeiling(bank(l)))
    {
      EntryIsAdmitted(ws, es, bank, cap, views, m, l);
    }
    CodeReserves(ws, es, bank, cap, views);
    FundedInv(ws, es, One(l), LifecycleCeiling(bank(l)), k);
    CommittedIsHeld(ws[k].t, |ws[k].t.intents|, l);
  }

  /** Under mandate scope, the totals of all managed lifecycles together never exceed the cumulative cap. */
  lemma MandateCapHolds(ws: seq<World>, es: seq<Event>, bank: Id -> real, cap: real, views: seq<View>, k: nat, table: seq<Id>)
    requires CodeRun(ws, es, bank, Some(cap), views) && k < |ws| && cap >= 0.0
    requires Distinct(table) && ROUTE_PROBE !in table
    requires forall r :: 0 <= r < |ws[k].t.intents| && ws[k].t.intents[r].intent.lifecycle != ROUTE_PROBE ==>
               ws[k].t.intents[r].intent.lifecycle in table
    ensures CommittedSum(ws[k].t, |ws[k].t.intents|, table) <= cap
  {
    hide Enabled, Next, Init, EntryByCode, Admitted, HeldSum, CommittedSum, BrokerFair, EntriesReserve;
    forall m | 0 <= m < |es|
      ensures NoLateFills(ws[m].t, ws[m + 1].t) && Admitted(ws[m], es[m], Managed, cap)
    {
      EntryIsAdmitted(ws, es, bank, Some(cap), views, m, 1);
    }
    CodeReserves(ws, es, bank, Some(cap), views);
    FundedInv(ws, es, Managed, cap, k);
    CapUseIsHeld(ws[k].t, |ws[k].t.intents|, table);
  }
}
