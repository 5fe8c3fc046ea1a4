/**
 Lifecycle totals (ledger.py) and what the entry allocation (engine.py, directional.py) guarantees about
 them over whole runs of the order protocol.
 */
module Capital {
  import opened Wrappers
  import opened Fees
  import opened Risk
  import opened Ledger

  // ---------- Totals ----------

  function FillTurnover(fills: seq<FillRow>, id: Id): real {
    if fills == [] then 0.0
    else FillTurnover(fills[..|fills| - 1], id)
         + var row := fills[|fills| - 1]; if row.intent == id then Turnover(row.fill.qty, row.fill.price) else 0.0
  }

  function FillFees(fills: seq<FillRow>, id: Id): real {
    if fills == [] then 0.0
    else FillFees(fills[..|fills| - 1], id)
         + var row := fills[|fills| - 1]; if row.intent == id then row.fill.fees else 0.0
  }

  function ChargeSum(charges: seq<ChargeRow>, id: Id): real {
    if charges == [] then 0.0
    else ChargeSum(charges[..|charges| - 1], id)
         + var row := charges[|charges| - 1]; if row.intent == id then row.fees else 0.0
  }

  /** Fees the broker reported for an intent, by fill or by order, whichever says more. */
  function Reported(t: Tables, id: Id): real {
    Max(FillFees(t.fills, id), ChargeSum(t.charges, id))
  }

  function Envelope(side: Side, turnover: real): real {
    CeilPaise(if side == BUY then Buy(turnover, 1) else Sell(turnover, 1))
  }

  function Cost(t: Tables, i: Intent): real {
    if FilledQty(t.fills, i.id) == 0 then 0.0
    else Max(Reported(t, i.id), Envelope(i.side, FillTurnover(t.fills, i.id)))
  }

  function Debit(t: Tables, i: Intent): real {
    FillTurnover(t.fills, i.id) + Cost(t, i)
  }

  predicate Terminal(t: Tables, row: IntentRow) {
    Resolved(row.state) || RecoveryClosedValid(t, row)
  }

  datatype Totals = Totals(debit: real, credit: real, quantity: int, reserved: real, unresolved: bool)

  const NOTHING: Totals := Totals(0.0, 0.0, 0, 0.0, false)

  function AddRow(t: Tables, row: IntentRow, acc: Totals): Totals {
    var i := row.intent;
    var qty := FilledQty(t.fills, i.id);
    var open := !Terminal(t, row);
    if i.side == BUY then
      acc.(debit := acc.debit + Debit(t, i),
           quantity := acc.quantity + qty,
           reserved := acc.reserved + if open then Max(0.0, row.reserved - Debit(t, i)) else 0.0,
           unresolved := acc.unresolved || open)
    else
      acc.(credit := acc.credit + FillTurnover(t.fills, i.id) - Cost(t, i),
           quantity := acc.quantity - qty,
           unresolved := acc.unresolved || open)
  }

  function RowTotals(t: Tables, n: nat, lifecycle: Id): Totals
    requires n <= |t.intents|
  {
    if n == 0 then NOTHING
    else if t.intents[n - 1].intent.lifecycle != lifecycle then RowTotals(t, n - 1, lifecycle)
    else AddRow(t, t.intents[n - 1], RowTotals(t, n - 1, lifecycle))
  }

  datatype Settlement = Settlement(receipt: Id, lifecycle: Id, qty: nat, credit: real)

  function Settled(rows: seq<Settlement>, lifecycle: Id, acc: Totals): Totals {
    if rows == [] then acc
    else
      var row := rows[|rows| - 1];
      var before := Settled(rows[..|rows| - 1], lifecycle, acc);
      if row.lifecycle != lifecycle then before
      else before.(quantity := before.quantity - row.qty, credit := before.credit + row.credit)
  }

  function LifecycleTotals(t: Tables, settlements: seq<Settlement>, lifecycle: Id): Result<Totals> {
    var traded := RowTotals(t, |t.intents|, lifecycle);
    var all := Settled(settlements, lifecycle, traded);
    if traded.quantity < 0 then Failure("ledger contains a net short position")
    else if all.quantity < 0 then Failure("settlement exceeds managed quantity")
    else Success(all)
  }

  /** Units bought less units sold of a lifecycle, by its recorded fills. */
  function Traded(t: Tables, n: nat, lifecycle: Id): int
    requires n <= |t.intents|
  {
    if n == 0 then 0
    else
      var i := t.intents[n - 1].intent;
      Traded(t, n - 1, lifecycle)
      + (if i.lifecycle != lifecycle then 0
         else if i.side == BUY then FilledQty(t.fills, i.id) else -(FilledQty(t.fills, i.id) as int))
  }

  function SettledUnits(rows: seq<Settlement>, lifecycle: Id): nat {
    if rows == [] then 0
    else SettledUnits(rows[..|rows| - 1], lifecycle)
         + if rows[|rows| - 1].lifecycle == lifecycle then rows[|rows| - 1].qty else 0
  }

  lemma {:induction false} TotalsCountFills(t: Tables, n: nat, lifecycle: Id)
    requires n <= |t.intents|
    ensures RowTotals(t, n, lifecycle).quantity == Traded(t, n, lifecycle)
  {
    hide FilledQty, Debit, Cost, Terminal;
    if n > 0 {
      TotalsCountFills(t, n - 1, lifecycle);
    }
  }

  lemma {:induction false} SettlementsCount(rows: seq<Settlement>, lifecycle: Id, acc: Totals)
    ensures Settled(rows, lifecycle, acc).quantity == acc.quantity - SettledUnits(rows, lifecycle)
  {
    if rows != [] {
      SettlementsCount(rows[..|rows| - 1], lifecycle, acc);
    }
  }

  /** A lifecycle's quantity is what its fills bought and sold, less what was settled. */
  lemma QuantityIsTradedLessSettled(t: Tables, settlements: seq<Settlement>, lifecycle: Id)
    requires LifecycleTotals(t, settlements, lifecycle).Success?
    ensures LifecycleTotals(t, settlements, lifecycle).value.quantity
         == Traded(t, |t.intents|, lifecycle) - SettledUnits(settlements, lifecycle)
  {
    TotalsCountFills(t, |t.intents|, lifecycle);
    SettlementsCount(settlements, lifecycle, RowTotals(t, |t.intents|, lifecycle));
  }

  // ---------- What the money totals mean ----------

  /** The intent is one of a lifecycle's on one side, among the given rows. */
  predicate Owns(rows: seq<IntentRow>, id: Id, lifecycle: Id, side: Side) {
    exists k :: 0 <= k < |rows| && rows[k].intent.id == id && rows[k].intent.lifecycle == lifecycle && rows[k].intent.side == side
  }

  /** Quantity times price over all fill rows of a lifecycle's intents on one side. */
  function Exchanged(rows: seq<IntentRow>, fills: seq<FillRow>, lifecycle: Id, side: Side): real {
    if fills == [] then 0.0
    else
      var f := fills[|fills| - 1];
      Exchanged(rows, fills[..|fills| - 1], lifecycle, side)
      + if Owns(rows, f.intent, lifecycle, side) then f.fill.qty as real * f.fill.price else 0.0
  }

  /** What a lifecycle's intents on one side are charged. */
  function Charged(t: Tables, n: nat, lifecycle: Id, side: Side): real
    requires n <= |t.intents|
  {
    if n == 0 then 0.0
    else
      var i := t.intents[n - 1].intent;
      Charged(t, n - 1, lifecycle, side) + if i.lifecycle == lifecycle && i.side == side then Cost(t, i) else 0.0
  }

  function SettledCredit(rows: seq<Settlement>, lifecycle: Id): real {
    if rows == [] then 0.0
    else SettledCredit(rows[..|rows| - 1], lifecycle)
         + if rows[|rows| - 1].lifecycle == lifecycle then rows[|rows| - 1].credit else 0.0
  }

  lemma {:induction false} NothingExchanged(rows: seq<IntentRow>, fills: seq<FillRow>, lifecycle: Id, side: Side)
    requires rows == []
    ensures Exchanged(rows, fills, lifecycle, side) == 0.0
  {
    if fills != [] {
      NothingExchanged(rows, fills[..|fills| - 1], lifecycle, side);
    }
  }

  /** One more intent, with an id of its own, brings in its own fills. */
  lemma {:induction false} OneIntentMore(rows: seq<IntentRow>, fills: seq<FillRow>, lifecycle: Id, side: Side)
    requires DistinctIntents(rows) && rows != []
    ensures var i := rows[|rows| - 1].intent;
            Exchanged(rows, fills, lifecycle, side)
            == Exchanged(rows[..|rows| - 1], fills, lifecycle, side)
               + if i.lifecycle == lifecycle && i.side == side then FillTurnover(fills, i.id) else 0.0
  {
    var init, last := rows[..|rows| - 1], rows[|rows| - 1];
    if fills != [] {
      var f := fills[|fills| - 1];
      OneIntentMore(rows, fills[..|fills| - 1], lifecycle, side);
      OwnsLast(rows, f.intent, lifecycle, side);
    }
  }

  lemma OwnsLast(rows: seq<IntentRow>, id: Id, lifecycle: Id, side: Side)
    requires DistinctIntents(rows) && rows != []
    ensures var i := rows[|rows| - 1].intent;
            Owns(rows, id, lifecycle, side)
            <==> if i.id == id then i.lifecycle == lifecycle && i.side == side else Owns(rows[..|rows| - 1], id, lifecycle, side)
    ensures rows[|rows| - 1].intent.id == id ==> !Owns(rows[..|rows| - 1], id, lifecycle, side)
  {
    var init := rows[..|rows| - 1];
    if Owns(init, id, lifecycle, side) {
      var k :| 0 <= k < |init| && init[k].intent.id == id && init[k].intent.lifecycle == lifecycle && init[k].intent.side == side;
      assert rows[k] == init[k];
    }
    assert Owns(rows, id, lifecycle, side) && rows[|rows| - 1].intent.id != id ==> Owns(init, id, lifecycle, side) by {
      if k :| 0 <= k < |rows| && rows[k].intent.id == id && rows[k].intent.lifecycle == lifecycle && rows[k].intent.side == side
              && k < |init| {
        assert init[k] == rows[k];
      }
    }
  }

  lemma DistinctBefore(rows: seq<IntentRow>, n: nat)
    requires DistinctIntents(rows) && n <= |rows|
    ensures DistinctIntents(rows[..n])
  {}

  lemma {:induction false} MoneyOfRows(t: Tables, n: nat, lifecycle: Id)
    requires n <= |t.intents| && DistinctIntents(t.intents)
    ensures var totals := RowTotals(t, n, lifecycle);
            && totals.debit == Exchanged(t.intents[..n], t.fills, lifecycle, BUY) + Charged(t, n, lifecycle, BUY)
            && totals.credit == Exchanged(t.intents[..n], t.fills, lifecycle, SELL) - Charged(t, n, lifecycle, SELL)
            && (totals.unresolved <==>
                  exists k :: 0 <= k < n && t.intents[k].intent.lifecycle == lifecycle && Pending(t, t.intents[k]))
  {
    hide FillTurnover, Cost, Exchanged, Max, RecoveryClosedValid;
    if n == 0 {
      NothingExchanged(t.intents[..0], t.fills, lifecycle, BUY);
      NothingExchanged(t.intents[..0], t.fills, lifecycle, SELL);
    } else {
      MoneyOfRows(t, n - 1, lifecycle);
      DistinctBefore(t.intents, n);
      assert t.intents[..n][..n - 1] == t.intents[..n - 1];
      OneIntentMore(t.intents[..n], t.fills, lifecycle, BUY);
      OneIntentMore(t.intents[..n], t.fills, lifecycle, SELL);
    }
  }

  lemma {:induction false} SettledMoney(rows: seq<Settlement>, lifecycle: Id, acc: Totals)
    ensures var r := Settled(rows, lifecycle, acc);
            && r.credit == acc.credit + SettledCredit(rows, lifecycle) && r.debit == acc.debit
            && r.reserved == acc.reserved && r.unresolved == acc.unresolved
  {
    if rows != [] {
      SettledMoney(rows[..|rows| - 1], lifecycle, acc);
    }
  }

  /**
   Debit and credit, over the fill rows: what was bought costs its price and charges, what was sold brings its
   price less charges, and settlements are credited; unresolved means that an intent of the lifecycle is pending.
   */
  lemma TotalsAreMoney(t: Tables, settlements: seq<Settlement>, lifecycle: Id)
    requires DistinctIntents(t.intents) && LifecycleTotals(t, settlements, lifecycle).Success?
    ensures var totals, n := LifecycleTotals(t, settlements, lifecycle).value, |t.intents|;
            && totals.debit == Exchanged(t.intents, t.fills, lifecycle, BUY) + Charged(t, n, lifecycle, BUY)
            && totals.credit + Charged(t, n, lifecycle, SELL)
               == Exchanged(t.intents, t.fills, lifecycle, SELL) + SettledCredit(settlements, lifecycle)
            && (totals.unresolved <==>
                  exists k :: 0 <= k < n && t.intents[k].intent.lifecycle == lifecycle && Pending(t, t.intents[k]))
  {
    MoneyOfRows(t, |t.intents|, lifecycle);
    assert t.intents[..|t.intents|] == t.intents;
    SettledMoney(settlements, lifecycle, RowTotals(t, |t.intents|, lifecycle));
  }

  /** The totals are refused exactly on a net short, by trades or after settlements. */
  lemma TotalsRefusedIff(t: Tables, settlements: seq<Settlement>, lifecycle: Id)
    ensures LifecycleTotals(t, settlements, lifecycle).Failure? <==>
            Traded(t, |t.intents|, lifecycle) < SettledUnits(settlements, lifecycle)
  {
    TotalsCountFills(t, |t.intents|, lifecycle);
    SettlementsCount(settlements, lifecycle, RowTotals(t, |t.intents|, lifecycle));
  }

  /** The fees the broker reported for an intent, trade by trade, and for its orders. */
  lemma ReportedSums(fills: seq<FillRow>, row: FillRow, charges: seq<ChargeRow>, charge: ChargeRow, id: Id)
    ensures FillFees([], id) == 0.0 && ChargeSum([], id) == 0.0
    ensures FillFees(fills + [row], id) == FillFees(fills, id) + if row.intent == id then row.fill.fees else 0.0
    ensures ChargeSum(charges + [charge], id) == ChargeSum(charges, id) + if charge.intent == id then charge.fees else 0.0
  {
    assert (fills + [row])[..|fills|] == fills && (charges + [charge])[..|charges|] == charges;
  }

  /**
   An unfilled intent is charged nothing. A filled one is charged the most of what its trades and its orders
   reported and the envelope of one child on its turnover, in whole paise.
   */
  lemma ChargeIsTheMost(t: Tables, i: Intent)
    ensures FilledQty(t.fills, i.id) == 0 ==> Cost(t, i) == 0.0
    ensures FilledQty(t.fills, i.id) > 0 ==>
              var envelope := if i.side == BUY then Buy(FillTurnover(t.fills, i.id), 1) else Sell(FillTurnover(t.fills, i.id), 1);
              var charge := Cost(t, i);
              && FillFees(t.fills, i.id) <= charge && ChargeSum(t.charges, i.id) <= charge && envelope <= charge
              && (charge == FillFees(t.fills, i.id) || charge == ChargeSum(t.charges, i.id)
                  || (WholePaise(charge) && charge < envelope + 0.01))
  {
    hide Buy, Sell, FillTurnover, FilledQty, FillFees, ChargeSum;
    RoundedWhole(if i.side == BUY then Buy(FillTurnover(t.fills, i.id), 1) else Sell(FillTurnover(t.fills, i.id), 1));
  }

  method TotalTurnover(fills: seq<FillRow>, id: Id) returns (turnover: real, fees: real)
    ensures turnover == FillTurnover(fills, id) && fees == FillFees(fills, id)
  {
    turnover, fees := 0.0, 0.0;
    for k := 0 to |fills|
      invariant turnover == FillTurnover(fills[..k], id) && fees == FillFees(fills[..k], id)
    {
      hide Turnover;
      assert fills[..k + 1][..k] == fills[..k];
      if fills[k].intent == id {
        turnover := turnover + Turnover(fills[k].fill.qty, fills[k].fill.price);
        fees := fees + fills[k].fill.fees;
      }
    }
    assert fills[..|fills|] == fills;
  }

  method TotalCharges(charges: seq<ChargeRow>, id: Id) returns (fees: real)
    ensures fees == ChargeSum(charges, id)
  {
    fees := 0.0;
    for k := 0 to |charges|
      invariant fees == ChargeSum(charges[..k], id)
    {
      assert charges[..k + 1][..k] == charges[..k];
      if charges[k].intent == id {
        fees := fees + charges[k].fees;
      }
    }
    assert charges[..|charges|] == charges;
  }

  /** lifecycle_totals: the loops over intents and settlements compute exactly the specification. */
  method ComputeTotals(store: Store, settlements: seq<Settlement>, lifecycle: Id) returns (r: Result<Totals>)
    ensures r == LifecycleTotals(store.T(), settlements, lifecycle)
  {
    var acc := NOTHING;
    for k := 0 to |store.intents|
      invariant acc == RowTotals(store.T(), k, lifecycle)
    {
      hide Envelope, Turnover;
      var row := store.intents[k];
      var i := row.intent;
      if i.lifecycle == lifecycle {
        var qty := store.Filled(i.id);
        var turnover, fees := TotalTurnover(store.fills, i.id);
        var charged := TotalCharges(store.charges, i.id);
        var cost := if qty == 0 then 0.0 else Max(Max(fees, charged), Envelope(i.side, turnover));
        var open := !Terminal(store.T(), row);
        if i.side == BUY {
          acc := acc.(debit := acc.debit + (turnover + cost), quantity := acc.quantity + qty,
                      reserved := acc.reserved + if open then Max(0.0, row.reserved - (turnover + cost)) else 0.0,
                      unresolved := acc.unresolved || open);
        } else {
          acc := acc.(credit := acc.credit + turnover - cost, quantity := acc.quantity - qty,
                      unresolved := acc.unresolved || open);
        }
      }
    }
    if acc.quantity < 0 {
      return Failure("ledger contains a net short position");
    }
    ghost var traded := acc;
    for k := 0 to |settlements|
      invariant acc == Settled(settlements[..k], lifecycle, traded)
    {
      assert settlements[..k + 1][..k] == settlements[..k];
      if settlements[k].lifecycle == lifecycle {
        acc := acc.(quantity := acc.quantity - settlements[k].qty, credit := acc.credit + settlements[k].credit);
      }
    }
    assert settlements[..|settlements|] == settlements;
    r := if acc.quantity < 0 then Failure("settlement exceeds managed quantity") else Success(acc);
  }
}
