/**
 Trades at the exchange, and the trade reports of a batch that name them: if every report read names one, the
 fills recorded in the ledger are real, whatever is lost, repeated or reread.
 */
module Executions {
  import opened Wrappers
  import opened Ledger
  import opened Orders
  import opened OrderSafety
  import opened OrderTheorems
  import FillConvergence

  function BrokerFilled(b: Broker, corr: Id): nat { if corr in b.book then b.book[corr].filled else 0 }

  /** No trade is recorded that did not happen. */
  ghost predicate RealFills(t: Tables, b: Broker) {
    forall k :: 0 <= k < |t.intents| ==> FilledQty(t.fills, t.intents[k].intent.id) <= BrokerFilled(b, t.intents[k].intent.corr)
  }

  // ---------- Executions ----------

  function Executed(trades: seq<Execution>): nat {
    if trades == [] then 0 else Executed(trades[..|trades| - 1]) + trades[|trades| - 1].qty
  }

  /** The order's trades add up to its filled quantity. */
  predicate Counted(o: BrokerOrder) { Executed(o.trades) == o.filled }

  /** The report, if it identifies a trade, is of one that happened; what it says of fees is left open. */
  ghost predicate TrueTrade(b: Broker, r: TradeReport) {
    r.TradeReport? && r.trade.Some? ==>
      exists c :: c in b.book && b.book[c].id == r.order && r.qty >= 0 && Execution(r.trade.value, r.qty, r.price) in b.book[c].trades
  }

  ghost predicate TrueTrades(b: Broker, rs: seq<TradeReport>) {
    forall k :: 0 <= k < |rs| ==> TrueTrade(b, rs[k])
  }

  /** Trades are read as they happened. */
  ghost predicate HonestRead(w: World, e: Event) {
    e.ReadTrades? ==> TrueTrades(w.b, e.trades)
  }

  ghost predicate HonestReads(ws: seq<World>, es: seq<Event>)
    requires |ws| >= |es|
  {
    forall k :: 0 <= k < |es| ==> HonestRead(ws[k], es[k])
  }

  /** The recorded fill is one of the trades of the order that was posted for its intent. */
  ghost predicate RealFill(b: Broker, row: FillRow) {
    exists c :: c in b.book && b.book[c].id == row.fill.order
                && b.book[c].intent.id == row.intent && b.book[c].intent.sec == row.fill.sec
                && Execution(row.fill.trade, row.fill.qty, row.fill.price) in b.book[c].trades
  }

  ghost predicate AllReal(b: Broker, fills: seq<FillRow>) {
    forall k :: 0 <= k < |fills| ==> RealFill(b, fills[k])
  }

  function BatchTrades(p: Process): Option<seq<TradeReport>> {
    match p.batch
    case NoBatch => None
    case Reading(_, _, _, trades, _) => trades
    case Resolving(_, _, _, _, trades, _, _) => Some(trades)
  }

  ghost predicate AllCounted(b: Broker) {
    forall c :: c in b.book ==> Counted(b.book[c])
  }

  ghost predicate ExecutionInv(w: World) {
    && AllCounted(w.b)
    && AllReal(w.b, w.t.fills)
    && (BatchTrades(w.p).Some? ==> TrueTrades(w.b, BatchTrades(w.p).value))
  }

  // ---------- What the broker does on its own ----------

  /** Orders keep their identity and only gain trades. */
  ghost predicate TradesGrow(b: Broker, c: Broker) {
    forall k :: k in b.book ==>
      k in c.book && c.book[k].id == b.book[k].id && c.book[k].intent == b.book[k].intent && b.book[k].trades <= c.book[k].trades
  }

  lemma ExecutedAppend(trades: seq<Execution>, x: Execution)
    ensures Executed(trades + [x]) == Executed(trades) + x.qty
  {
    assert (trades + [x])[..|trades|] == trades;
  }

  lemma BrokerCounts(w: World, e: Event)
    requires AllCounted(w.b) && IsEnvironment(e) && Enabled(w, e)
    requires forall c :: c in w.b.wire ==> c !in w.b.book
    ensures AllCounted(BrokerNext(w.b, e)) && TradesGrow(w.b, BrokerNext(w.b, e))
  {
    hide Executed;
    match e
    case BrokerFill(c, n, trade, price) =>
      ExecutedAppend(w.b.book[c].trades, Execution(trade, n, price));
      assert Counted(w.b.book[c]);
    case Deliver(_, _) => assert Executed([]) == 0 by { NothingExecuted(); }
    case _ =>
  }

  lemma NothingExecuted()
    ensures Executed([]) == 0
  {}

  lemma RealStays(b: Broker, c: Broker, fills: seq<FillRow>)
    requires AllReal(b, fills) && TradesGrow(b, c)
    ensures AllReal(c, fills)
  {
    forall k | 0 <= k < |fills|
      ensures RealFill(c, fills[k])
    {
      assert RealFill(b, fills[k]);
    }
  }

  lemma TrueStays(b: Broker, c: Broker, rs: seq<TradeReport>)
    requires TrueTrades(b, rs) && TradesGrow(b, c)
    ensures TrueTrades(c, rs)
  {
    forall k | 0 <= k < |rs|
      ensures TrueTrade(c, rs[k])
    {
      assert TrueTrade(b, rs[k]);
    }
  }

  // ---------- What a batch records ----------

  /** The trade is true, and the order report it is matched with is of this intent's order. */
  ghost predicate TrueOp(b: Broker, op: Op) {
    op.NoteTrade? ==>
      && TrueTrade(b, op.trade)
      && op.row.intent.corr in b.book && b.book[op.row.intent.corr].intent == op.row.intent
      && op.order.order == Some(b.book[op.row.intent.corr].id)
  }

  ghost predicate TrueOps(b: Broker, ops: seq<Op>) {
    forall k :: 0 <= k < |ops| ==> TrueOp(b, ops[k])
  }

  ghost predicate OrdersDiffer(b: Broker) {
    forall c, d :: c in b.book && d in b.book && b.book[c].id == b.book[d].id ==> c == d
  }

  lemma OpReal(t: Tables, b: Broker, op: Op)
    requires AllReal(b, t.fills) && OrdersDiffer(b) && TrueOp(b, op) && ExecOp(t, op).Success?
    ensures AllReal(b, ExecOp(t, op).value.fills)
  {
    hide FilledQty, RealFill;
    var u := ExecOp(t, op).value;
    if op.NoteTrade? && op.trade.TradeReport? && op.order.order == Some(op.trade.order) {
      var f := Fill(op.trade.order, op.trade.trade.value, op.row.intent.sec, op.trade.qty, op.trade.price, op.trade.fees);
      NewIsReal(b, op, f);
      RecordedReal(t, b, f, op.row.intent.id);
    }
  }

  lemma NewIsReal(b: Broker, op: Op, f: Fill)
    requires op.NoteTrade? && TrueOp(b, op) && OrdersDiffer(b) && op.trade.TradeReport? && op.trade.trade.Some?
    requires op.order.order == Some(op.trade.order) && op.trade.qty >= 0
    requires f == Fill(op.trade.order, op.trade.trade.value, op.row.intent.sec, op.trade.qty, op.trade.price, op.trade.fees)
    ensures RealFill(b, FillRow(f, op.row.intent.id, false))
  {}

  lemma RecordedReal(t: Tables, b: Broker, f: Fill, id: Id)
    requires AllReal(b, t.fills) && RealFill(b, FillRow(f, id, false)) && RecordFillOnce(t, f, id).Success?
    ensures AllReal(b, RecordFillOnce(t, f, id).value.fills)
  {
    var u := RecordFillOnce(t, f, id).value;
    forall k | 0 <= k < |u.fills|
      ensures RealFill(b, u.fills[k])
    {
      if k < |t.fills| {
        assert RealFill(b, t.fills[k]);
      }
    }
  }

  lemma {:induction false} TrailReal(t: Tables, b: Broker, ops: seq<Op>)
    requires AllReal(b, t.fills) && OrdersDiffer(b) && TrueOps(b, ops)
    ensures forall k :: 0 <= k < |Trail(t, ops)| ==> AllReal(b, Trail(t, ops)[k].fills)
    decreases |ops|
  {
    hide ExecOp, AllReal, OrdersDiffer, TrueOp;
    if ops != [] && ExecOp(t, ops[0]).Success? {
      OpReal(t, b, ops[0]);
      TrailReal(ExecOp(t, ops[0]).value, b, ops[1..]);
    }
  }

  lemma {:induction false} TradeOpsTrue(b: Broker, row: IntentRow, r: Report, trades: seq<TradeReport>)
    requires TrueTrades(b, trades) && Truthful(b, row.intent.corr, r) && b.book[row.intent.corr].intent == row.intent
    ensures TrueOps(b, TradeOps(row, r, trades))
  {
    hide TrueTrade;
    if trades != [] {
      TradeOpsTrue(b, row, r, trades[1..]);
    }
  }

  lemma {:induction false} ProgramTrue(b: Broker, rows: seq<IntentRow>, resolved: seq<Option<Report>>, trades: seq<TradeReport>)
    requires |resolved| == |rows| && TrueTrades(b, trades)
    requires forall k :: 0 <= k < |rows| && resolved[k].Some? ==>
               Truthful(b, rows[k].intent.corr, resolved[k].value) && b.book[rows[k].intent.corr].intent == rows[k].intent
    ensures TrueOps(b, Program(rows, resolved, trades))
  {
    hide TrueTrades, Truthful;
    if rows != [] {
      ProgramTrue(b, rows[1..], resolved[1..], trades);
      if resolved[0].Some? {
        TradeOpsTrue(b, rows[0], resolved[0].value, trades);
      }
    }
  }

  /** The order posted under an intent's correlation id is that intent's. */
  lemma BookedIsRow(t: Tables, b: Broker, sent: seq<Id>, i: Intent)
    requires BrokerInv(t, b, sent) && WellFormed(t) && HasRow(t.intents, i) && i.corr in b.book
    ensures b.book[i.corr].intent == i
  {}

  lemma OrdersAreDistinct(t: Tables, b: Broker, sent: seq<Id>)
    requires BrokerInv(t, b, sent)
    ensures OrdersDiffer(b) && forall c :: c in b.wire ==> c !in b.book
  {}

  lemma BatchTrue(w: World)
    requires Inv(w) && ExecutionInv(w) && w.p.batch.Resolving? && |w.p.batch.resolved| == |w.p.batch.rows|
    ensures TrueOps(w.b, Program(w.p.batch.rows, w.p.batch.resolved, w.p.batch.trades))
  {
    hide TableInv, BrokerInv, Covered, TrueOps, AllReal, AllCounted, LinesInv, Truthful, WellFormed;
    var rows, resolved := w.p.batch.rows, w.p.batch.resolved;
    TablesWellFormed(w.t, w.b, w.sent);
    forall k | 0 <= k < |rows| && resolved[k].Some?
      ensures rows[k].intent.corr in w.b.book && Truthful(w.b, rows[k].intent.corr, resolved[k].value)
      ensures w.b.book[rows[k].intent.corr].intent == rows[k].intent
    {
      TruthIsBooked(w.b, rows[k].intent.corr, resolved[k].value);
      BookedIsRow(w.t, w.b, w.sent, rows[k].intent);
    }
    ProgramTrue(w.b, rows, resolved, w.p.batch.trades);
  }

  lemma TruthIsBooked(b: Broker, corr: Id, r: Report)
    requires Truthful(b, corr, r)
    ensures corr in b.book
  {}

  // ---------- Over runs ----------

  lemma CommitsReal(w: World, e: Event)
    requires Inv(w) && ExecutionInv(w) && Enabled(w, e) && !e.CrashDuring?
    ensures forall k :: 0 <= k < |Commits(w, e)| ==> AllReal(w.b, Commits(w, e)[k].fills)
  {
    hide Inv, Trail, Program, AllReal, AllCounted, TrueTrades, TrueOps, OrdersDiffer;
    if e.Apply? {
      OrdersAreOurs(w);
      BatchTrue(w);
      TrailReal(w.t, w.b, Program(w.p.batch.rows, w.p.batch.resolved, w.p.batch.trades));
    }
  }

  lemma OrdersAreOurs(w: World)
    requires Inv(w)
    ensures OrdersDiffer(w.b) && forall c :: c in w.b.wire ==> c !in w.b.book
  {
    OrdersAreDistinct(w.t, w.b, w.sent);
  }

  lemma BatchTradesMove(w: World, e: Event)
    requires Enabled(w, e)
    ensures var trades := BatchTrades(Next(w, e).p);
            trades == None || trades == BatchTrades(w.p) || (e.ReadTrades? && trades == Some(e.trades))
  {
    hide Next, Request, PendingQty, Resolve, Completes, Program, Note, Commits, Truthful, TruthfulLine;
    StepProcess(w, e);
  }

  lemma StepReal(w: World, e: Event)
    requires Inv(w) && ExecutionInv(w) && Enabled(w, e) && HonestRead(w, e)
    ensures ExecutionInv(Next(w, e))
  {
    hide Inv, Enabled, Next, Commits, AllReal, AllCounted, TrueTrades, BatchTrades, TradesGrow;
    var v := Next(w, e);
    BatchTradesMove(w, e);
    if IsEnvironment(e) {
      OrdersAreOurs(w);
      BrokerCounts(w, e);
      EnvironmentShape(w, e);
      RealStays(w.b, v.b, w.t.fills);
      if BatchTrades(v.p).Some? {
        TrueStays(w.b, v.b, BatchTrades(v.p).value);
      }
    } else {
      SameBookStep(w, e);
      SameBookSameTruth(w.b, v.b);
      var k := StepTables(w, e);
      CommitsReal(w, Core(e));
      RealStays(w.b, v.b, v.t.fills);
      if BatchTrades(v.p).Some? {
        TrueStays(w.b, v.b, BatchTrades(v.p).value);
      }
    }
  }

  lemma SameBookStep(w: World, e: Event)
    requires !IsEnvironment(e)
    ensures Next(w, e).b.book == w.b.book && Next(w, e).b.net == w.b.net
  {
    hide Commits, ProcessNext;
  }

  lemma SameBookSameTruth(b: Broker, c: Broker)
    requires c.book == b.book
    ensures TradesGrow(b, c) && (AllCounted(b) ==> AllCounted(c))
  {}

  lemma {:induction false} AlwaysReal(ws: seq<World>, es: seq<Event>, k: nat)
    requires Run(ws, es) && k < |ws| && HonestReads(ws, es)
    ensures ExecutionInv(ws[k])
  {
    hide Inv, Enabled, Next, HonestRead;
    if k == 0 {
      assert Init(ws[0]);
    } else {
      AlwaysReal(ws, es, k - 1);
      RunInv(ws, es, k - 1);
      assert Enabled(ws[k - 1], es[k - 1]) && ws[k - 1 + 1] == Next(ws[k - 1], es[k - 1]) && HonestRead(ws[k - 1], es[k - 1]);
      StepReal(ws[k - 1], es[k - 1]);
    }
  }

  // ---------- Recorded quantities ----------

  /** An order's trades as the ledger would record them. */
  function Facts(trades: seq<Execution>, order: Id, i: Intent): (r: seq<FillRow>)
    ensures |r| == |trades|
    ensures forall k :: 0 <= k < |r| ==>
              r[k] == FillRow(Fill(order, trades[k].trade, i.sec, trades[k].qty, trades[k].price, 0.0), i.id, false)
  {
    seq(|trades|, k requires 0 <= k < |trades| =>
      FillRow(Fill(order, trades[k].trade, i.sec, trades[k].qty, trades[k].price, 0.0), i.id, false))
  }

  lemma {:induction false} FactsAddUp(trades: seq<Execution>, order: Id, i: Intent)
    ensures FilledQty(Facts(trades, order, i), i.id) == Executed(trades)
  {
    if trades != [] {
      FactsAddUp(trades[..|trades| - 1], order, i);
      assert Facts(trades, order, i)[..|trades| - 1] == Facts(trades[..|trades| - 1], order, i);
    }
  }

  /** Distinct fills of one intent that are all among an order's trades add up to no more than it filled. */
  lemma RecordedWithinFilled(fills: seq<FillRow>, b: Broker, i: Intent)
    requires DistinctFills(fills) && i.corr in b.book && Counted(b.book[i.corr])
    requires forall k :: 0 <= k < |fills| && fills[k].intent == i.id ==>
               fills[k].fill.order == b.book[i.corr].id && fills[k].fill.sec == i.sec
               && Execution(fills[k].fill.trade, fills[k].fill.qty, fills[k].fill.price) in b.book[i.corr].trades
    ensures FilledQty(fills, i.id) <= b.book[i.corr].filled
  {
    hide Executed, DistinctFills, FilledQty;
    var order, trades := b.book[i.corr].id, b.book[i.corr].trades;
    var facts := Facts(trades, order, i);
    forall k | 0 <= k < |fills| && fills[k].intent == i.id
      ensures FillConvergence.True(facts, fills[k].fill, fills[k].intent)
    {
      var j :| 0 <= j < |trades| && trades[j] == Execution(fills[k].fill.trade, fills[k].fill.qty, fills[k].fill.price);
      assert FillConvergence.Agrees(facts[j], fills[k].fill, fills[k].intent);
    }
    FillConvergence.TrueQtyBounded(fills, facts, i.id);
    FactsAddUp(trades, order, i);
  }

  lemma {:induction false} NoneRecorded(fills: seq<FillRow>, id: Id)
    requires forall k :: 0 <= k < |fills| ==> fills[k].intent != id
    ensures FilledQty(fills, id) == 0
  {
    if fills != [] {
      NoneRecorded(fills[..|fills| - 1], id);
    }
  }

  /** The fills recorded for an intent are trades of the order posted under its correlation id. */
  lemma FillsOfIntent(w: World, k: nat, j: nat)
    requires Inv(w) && AllReal(w.b, w.t.fills) && k < |w.t.intents| && j < |w.t.fills|
    requires w.t.fills[j].intent == w.t.intents[k].intent.id
    ensures var i, f := w.t.intents[k].intent, w.t.fills[j].fill;
            && i.corr in w.b.book && w.b.book[i.corr].intent == i && f.order == w.b.book[i.corr].id && f.sec == i.sec
            && Execution(f.trade, f.qty, f.price) in w.b.book[i.corr].trades
  {
    hide TableInv, Covered, SubmitInv, BatchInv;
    TablesWellFormed(w.t, w.b, w.sent);
    assert RealFill(w.b, w.t.fills[j]);
    var c :| c in w.b.book && w.b.book[c].id == w.t.fills[j].fill.order
             && w.b.book[c].intent.id == w.t.fills[j].intent && w.b.book[c].intent.sec == w.t.fills[j].fill.sec
             && Execution(w.t.fills[j].fill.trade, w.t.fills[j].fill.qty, w.t.fills[j].fill.price) in w.b.book[c].trades;
    var m :| 0 <= m < |w.t.intents| && w.t.intents[m].intent == w.b.book[c].intent;
    assert m == k;
  }

  /** If every trade report read is true, what is recorded of an intent never exceeds what the broker filled. */
  lemma RecordedIsReal(ws: seq<World>, es: seq<Event>, n: nat)
    requires Run(ws, es) && n < |ws| && HonestReads(ws, es)
    ensures RealFills(ws[n].t, ws[n].b)
  {
    hide Run, Inv, AllReal, Counted, FilledQty;
    AlwaysReal(ws, es, n);
    RunInv(ws, es, n);
    var w := ws[n];
    DistinctOf(w);
    forall k | 0 <= k < |w.t.intents|
      ensures FilledQty(w.t.fills, w.t.intents[k].intent.id) <= BrokerFilled(w.b, w.t.intents[k].intent.corr)
    {
      var i := w.t.intents[k].intent;
      if j :| 0 <= j < |w.t.fills| && w.t.fills[j].intent == i.id {
        forall j | 0 <= j < |w.t.fills| && w.t.fills[j].intent == i.id
          ensures i.corr in w.b.book && w.t.fills[j].fill.order == w.b.book[i.corr].id && w.t.fills[j].fill.sec == i.sec
          ensures Execution(w.t.fills[j].fill.trade, w.t.fills[j].fill.qty, w.t.fills[j].fill.price) in w.b.book[i.corr].trades
        {
          FillsOfIntent(w, k, j);
        }
        FillsOfIntent(w, k, j);
        RecordedWithinFilled(w.t.fills, w.b, i);
      } else {
        NoneRecorded(w.t.fills, i.id);
      }
    }
  }

  lemma DistinctOf(w: World)
    requires Inv(w)
    ensures DistinctFills(w.t.fills)
  {
    TablesWellFormed(w.t, w.b, w.sent);
  }
}
