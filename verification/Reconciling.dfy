/**
 What a reconciliation makes of the reports it read, in the terms of those reports: which fills and fees it
 leaves, which order rows, and what becomes of each intent.
 */
module Reconciling {
  import opened Wrappers
  import opened Ledger
  import opened Orders
  import opened OrderSafety
  import opened OrderTheorems
  import opened Executions
  import FillConvergence

  function LastOf(t: Tables, ops: seq<Op>): Tables { Trail(t, ops)[|Trail(t, ops)| - 1] }

  lemma StepOfTrail(t: Tables, ops: seq<Op>)
    requires ops != [] && Completes(t, ops)
    ensures ExecOp(t, ops[0]).Success? && Completes(ExecOp(t, ops[0]).value, ops[1..])
    ensures LastOf(t, ops) == LastOf(ExecOp(t, ops[0]).value, ops[1..])
  {
    hide ExecOp;
  }

  lemma {:induction false} TrailConcat(t: Tables, a: seq<Op>, b: seq<Op>)
    ensures Completes(t, a + b) <==> Completes(t, a) && Completes(LastOf(t, a), b)
    ensures Completes(t, a + b) ==> LastOf(t, a + b) == LastOf(LastOf(t, a), b)
    decreases |a|
  {
    hide ExecOp;
    if a == [] {
      assert a + b == b;
    } else {
      assert (a + b)[1..] == a[1..] + b;
      if ExecOp(t, a[0]).Success? {
        TrailConcat(ExecOp(t, a[0]).value, a[1..], b);
      }
    }
  }

  // ---------- Fills and fees ----------

  predicate SameTrade(f: FillRow, g: FillRow) { f.fill.order == g.fill.order && f.fill.trade == g.fill.trade }

  /** The same but for its fees and the form of its key. */
  predicate SameFill(f: FillRow, g: FillRow) {
    SameTrade(f, g) && f.fill.sec == g.fill.sec && f.fill.qty == g.fill.qty && f.fill.price == g.fill.price
  }

  ghost predicate Kept(fills: seq<FillRow>, g: FillRow) { exists f :: f in fills && SameFill(f, g) }

  ghost predicate HasSource(sources: seq<FillRow>, f: FillRow) {
    exists g :: g in sources && SameFill(f, g) && g.intent == f.intent
  }

  /** Its fees are the highest of all that speak of the trade. */
  ghost predicate HighestFees(sources: seq<FillRow>, f: FillRow) {
    && (exists g :: g in sources && SameTrade(f, g) && g.fill.fees == f.fill.fees)
    && (forall g :: g in sources && SameTrade(f, g) ==> g.fill.fees <= f.fill.fees)
  }

  /**
   The fills after are those before and those said, each with the highest fees that were recorded or said of it.
   Whatever was not said again has its fees unchanged.
   */
  ghost predicate Noted(before: seq<FillRow>, said: seq<FillRow>, after: seq<FillRow>) {
    && (forall g :: g in before + said ==> Kept(after, g))
    && (forall f :: f in after ==> HasSource(before + said, f) && HighestFees(before + said, f))
  }

  lemma OneFillPerTrade(fills: seq<FillRow>, f: FillRow, g: FillRow)
    requires DistinctFills(fills) && f in fills && g in fills && SameTrade(f, g)
    ensures f == g
  {
    var j :| 0 <= j < |fills| && fills[j] == f;
    var k :| 0 <= k < |fills| && fills[k] == g;
    assert j == k;
  }

  lemma StandsItself(fills: seq<FillRow>, f: FillRow)
    requires f in fills && forall g :: g in fills && SameTrade(f, g) ==> g == f
    ensures Kept(fills, f) && HasSource(fills, f) && HighestFees(fills, f)
  {
    assert SameFill(f, f) && SameTrade(f, f);
  }

  lemma NotedNothing(fills: seq<FillRow>)
    requires DistinctFills(fills)
    ensures Noted(fills, [], fills)
  {
    hide Kept, HasSource, HighestFees, DistinctFills, SameTrade;
    assert fills + [] == fills;
    forall f | f in fills
      ensures Kept(fills, f) && HasSource(fills, f) && HighestFees(fills, f)
    {
      forall g | g in fills && SameTrade(f, g)
        ensures g == f
      {
        OneFillPerTrade(fills, f, g);
      }
      StandsItself(fills, f);
    }
  }

  lemma KeptOn(b: seq<FillRow>, s: seq<FillRow>, c: seq<FillRow>, g: FillRow)
    requires Noted(b, s, c) && Kept(b, g)
    ensures Kept(c, g)
  {
    hide HasSource, HighestFees;
    var h :| h in b && SameFill(h, g);
    assert h in b + s;
    var f :| f in c && SameFill(f, h);
    assert SameFill(f, g);
  }

  lemma SourceOn(a: seq<FillRow>, r: seq<FillRow>, b: seq<FillRow>, s: seq<FillRow>, f: FillRow)
    requires Noted(a, r, b) && HasSource(b + s, f)
    ensures HasSource(a + (r + s), f)
  {
    hide Kept, HighestFees;
    var h :| h in b + s && SameFill(f, h) && h.intent == f.intent;
    if h in b {
      var g :| g in a + r && SameFill(h, g) && g.intent == h.intent;
      assert g in a + (r + s) && SameFill(f, g);
    } else {
      assert h in a + (r + s);
    }
  }

  lemma NotedParts(a: seq<FillRow>, r: seq<FillRow>, b: seq<FillRow>, f: FillRow)
    requires Noted(a, r, b)
    ensures f in b ==> HasSource(a + r, f) && HighestFees(a + r, f)
    ensures f in a + r ==> Kept(b, f)
  {
    hide Kept, HasSource, HighestFees;
  }

  /** No fees said of the trade earlier are higher. */
  lemma NoHigherFees(a: seq<FillRow>, r: seq<FillRow>, b: seq<FillRow>, s: seq<FillRow>, f: FillRow, g: FillRow)
    requires Noted(a, r, b) && HighestFees(b + s, f) && g in a + r && SameTrade(f, g)
    ensures g.fill.fees <= f.fill.fees
  {
    hide Noted, HasSource;
    NotedParts(a, r, b, g);
    var x :| x in b && SameFill(x, g);
    NotedParts(a, r, b, x);
    assert SameTrade(x, g) && g.fill.fees <= x.fill.fees;
    assert x in b + s && SameTrade(f, x);
  }

  lemma FeesOn(a: seq<FillRow>, r: seq<FillRow>, b: seq<FillRow>, s: seq<FillRow>, f: FillRow)
    requires Noted(a, r, b) && HighestFees(b + s, f)
    ensures HighestFees(a + (r + s), f)
  {
    hide Noted, HasSource, Kept;
    var all := a + (r + s);
    FeesSaid(a, r, b, s, f);
    forall g | g in all && SameTrade(f, g)
      ensures g.fill.fees <= f.fill.fees
    {
      if g in a + r {
        NoHigherFees(a, r, b, s, f, g);
      } else {
        assert g in b + s;
      }
    }
  }

  lemma FeesSaid(a: seq<FillRow>, r: seq<FillRow>, b: seq<FillRow>, s: seq<FillRow>, f: FillRow)
    requires Noted(a, r, b) && HighestFees(b + s, f)
    ensures exists g :: g in a + (r + s) && SameTrade(f, g) && g.fill.fees == f.fill.fees
  {
    hide Noted, HasSource, Kept;
    var h :| h in b + s && SameTrade(f, h) && h.fill.fees == f.fill.fees;
    if h in b {
      NotedParts(a, r, b, h);
      var g :| g in a + r && SameTrade(h, g) && g.fill.fees == h.fill.fees;
      assert g in a + (r + s) && SameTrade(f, g);
    } else {
      assert h in a + (r + s);
    }
  }

  lemma NotedOn(a: seq<FillRow>, r: seq<FillRow>, b: seq<FillRow>, s: seq<FillRow>, c: seq<FillRow>)
    requires Noted(a, r, b) && Noted(b, s, c)
    ensures Noted(a, r + s, c)
  {
    hide Kept, HasSource, HighestFees;
    forall g | g in a + (r + s)
      ensures Kept(c, g)
    {
      if g in a + r {
        KeptOn(b, s, c, g);
      } else {
        assert g in b + s;
      }
    }
    forall f | f in c
      ensures HasSource(a + (r + s), f) && HighestFees(a + (r + s), f)
    {
      SourceOn(a, r, b, s, f);
      FeesOn(a, r, b, s, f);
    }
  }

  lemma RecordingNoted(t: Tables, f: Fill, id: Id)
    requires DistinctFills(t.fills) && RecordFillOnce(t, f, id).Success?
    ensures Noted(t.fills, [FillRow(f, id, false)], RecordFillOnce(t, f, id).value.fills)
  {
    hide FilledQty, Noted, DistinctFills;
    var u, row := RecordFillOnce(t, f, id).value, FillRow(f, id, false);
    match FillAt(t.fills, f.order, f.trade)
    case Some(k) => RaisedNoted(t.fills, u.fills, k, row);
    case None => AddedNoted(t.fills, row);
  }

  lemma AddedNoted(fills: seq<FillRow>, row: FillRow)
    requires DistinctFills(fills) && forall k :: 0 <= k < |fills| ==> !SameTrade(fills[k], row)
    ensures Noted(fills, [row], fills + [row])
  {
    hide Kept, HasSource, HighestFees;
    var all := fills + [row];
    forall f | f in all
      ensures Kept(all, f) && HasSource(all, f) && HighestFees(all, f)
    {
      forall g | g in all && SameTrade(f, g)
        ensures g == f
      {
        if f in fills && g in fills {
          OneFillPerTrade(fills, f, g);
        }
      }
      StandsItself(all, f);
    }
  }

  lemma RaisedNoted(fills: seq<FillRow>, after: seq<FillRow>, k: nat, row: FillRow)
    requires DistinctFills(fills) && k < |fills| && SameFill(fills[k], row) && |after| == |fills|
    requires SameFill(after[k], fills[k]) && after[k].intent == fills[k].intent
    requires after[k].fill.fees == if row.fill.fees > fills[k].fill.fees then row.fill.fees else fills[k].fill.fees
    requires forall j :: 0 <= j < |fills| && j != k ==> after[j] == fills[j]
    ensures Noted(fills, [row], after)
  {
    hide Kept, HasSource, HighestFees, DistinctFills;
    var all := fills + [row];
    forall g | g in all
      ensures Kept(after, g)
    {
      RaisedKept(fills, after, k, row, g);
    }
    forall f | f in after
      ensures HasSource(all, f) && HighestFees(all, f)
    {
      var j :| 0 <= j < |after| && after[j] == f;
      RaisedFees(fills, after, k, row, j);
    }
  }

  lemma RaisedKept(fills: seq<FillRow>, after: seq<FillRow>, k: nat, row: FillRow, g: FillRow)
    requires k < |fills| && SameFill(fills[k], row) && |after| == |fills| && SameFill(after[k], fills[k])
    requires (forall j :: 0 <= j < |fills| && j != k ==> after[j] == fills[j]) && g in fills + [row]
    ensures Kept(after, g)
  {
    if g in fills {
      var j :| 0 <= j < |fills| && fills[j] == g;
      assert after[j] in after && SameFill(after[j], g);
    } else {
      assert after[k] in after && SameFill(after[k], g);
    }
  }

  lemma RaisedFees(fills: seq<FillRow>, after: seq<FillRow>, k: nat, row: FillRow, j: nat)
    requires DistinctFills(fills) && k < |fills| && j < |fills| && SameFill(fills[k], row) && |after| == |fills|
    requires SameFill(after[k], fills[k]) && after[k].intent == fills[k].intent
    requires after[k].fill.fees == if row.fill.fees > fills[k].fill.fees then row.fill.fees else fills[k].fill.fees
    requires forall j :: 0 <= j < |fills| && j != k ==> after[j] == fills[j]
    ensures HasSource(fills + [row], after[j]) && HighestFees(fills + [row], after[j])
  {
    hide DistinctFills;
    var all := fills + [row];
    assert fills[j] in all && SameFill(after[j], fills[j]);
    assert row in all;
    forall g | g in all && SameTrade(after[j], g)
      ensures g == fills[j] || (g == row && j == k)
    {
      if g in fills {
        OneFillPerTrade(fills, fills[j], g);
      } else {
        OneFillPerTrade(fills, fills[j], fills[k]);
        IndexOfTrade(fills, j, k);
      }
    }
  }

  lemma IndexOfTrade(fills: seq<FillRow>, j: nat, k: nat)
    requires DistinctFills(fills) && j < |fills| && k < |fills| && SameTrade(fills[j], fills[k])
    ensures j == k
  {}

  /** The fill a matched trade report speaks of: of the order's trade, in the intent's security. */
  function SaidBy(op: Op): seq<FillRow> {
    if op.NoteTrade? && op.trade.TradeReport? && op.order.order == Some(op.trade.order) && op.trade.trade.Some? && op.trade.qty >= 0
    then [FillRow(Fill(op.trade.order, op.trade.trade.value, op.row.intent.sec, op.trade.qty, op.trade.price, op.trade.fees),
                  op.row.intent.id, false)]
    else []
  }

  function Said(ops: seq<Op>): seq<FillRow> { if ops == [] then [] else SaidBy(ops[0]) + Said(ops[1..]) }

  lemma OpNoted(t: Tables, op: Op)
    requires WellFormed(t) && ExecOp(t, op).Success?
    ensures Noted(t.fills, SaidBy(op), ExecOp(t, op).value.fills)
  {
    hide Noted, FilledQty, HasAttempt, HasIntent;
    NotedNothing(t.fills);
    if SaidBy(op) != [] {
      RecordingNoted(t, SaidBy(op)[0].fill, op.row.intent.id);
    }
  }

  lemma {:induction false} TrailNoted(t: Tables, b: Broker, sent: seq<Id>, ops: seq<Op>)
    requires TableInv(t, b, sent) && BrokerInv(t, b, sent) && OpsGood(t, b, ops) && Completes(t, ops)
    ensures Noted(t.fills, Said(ops), LastOf(t, ops).fills)
    decreases |ops|
  {
    hide ExecOp, TableInv, BrokerInv, OpGood, Noted, SaidBy, WellFormed;
    TablesWellFormed(t, b, sent);
    if ops == [] {
      DistinctOf(t);
      NotedNothing(t.fills);
    } else {
      StepOfTrail(t, ops);
      var u := ExecOp(t, ops[0]).value;
      assert OpGood(t, b, ops[0]);
      OpKeeps(t, b, sent, ops[0]);
      BrokerInvPersists(t, u, b, sent);
      OpsStayGood(t, u, b, ops);
      OpNoted(t, ops[0]);
      TrailNoted(u, b, sent, ops[1..]);
      NotedOn(t.fills, SaidBy(ops[0]), u.fills, Said(ops[1..]), LastOf(t, ops).fills);
    }
  }

  lemma DistinctOf(t: Tables)
    requires WellFormed(t)
    ensures DistinctFills(t.fills) && DistinctIntents(t.intents)
  {}

  /** The b-th trade report is of the order the a-th intent was matched with, and says this of it. */
  predicate Names(rows: seq<IntentRow>, resolved: seq<Option<Report>>, trades: seq<TradeReport>, a: nat, b: nat, f: FillRow)
    requires |resolved| == |rows|
  {
    && a < |rows| && b < |trades| && resolved[a].Some? && trades[b].TradeReport? && trades[b].trade.Some?
    && resolved[a].value.order == Some(trades[b].order)
    && f.fill.order == trades[b].order && f.fill.trade == trades[b].trade.value && f.fill.sec == rows[a].intent.sec
    && f.fill.qty == trades[b].qty && f.fill.price == trades[b].price && f.fill.fees == trades[b].fees
    && f.intent == rows[a].intent.id && !f.legacy
  }

  lemma {:induction false} SaidByTrades(row: IntentRow, r: Report, trades: seq<TradeReport>, f: FillRow)
    ensures f in Said(TradeOps(row, r, trades)) <==> exists b :: 0 <= b < |trades| && Names([row], [Some(r)], trades, 0, b, f)
  {
    if trades != [] {
      SaidByTrades(row, r, trades[1..], f);
      var ops := TradeOps(row, r, trades);
      assert ops[1..] == TradeOps(row, r, trades[1..]);
      assert f in SaidBy(ops[0]) <==> Names([row], [Some(r)], trades, 0, 0, f);
      assert forall b :: 0 <= b < |trades[1..]| ==> trades[1..][b] == trades[b + 1];
      if b :| 0 <= b < |trades[1..]| && Names([row], [Some(r)], trades[1..], 0, b, f) {
        assert Names([row], [Some(r)], trades, 0, b + 1, f);
      }
      if b :| 1 <= b < |trades| && Names([row], [Some(r)], trades, 0, b, f) {
        assert Names([row], [Some(r)], trades[1..], 0, b - 1, f);
      }
    }
  }

  lemma {:induction false} SaidConcat(a: seq<Op>, b: seq<Op>)
    ensures Said(a + b) == Said(a) + Said(b)
  {
    if a == [] {
      assert a + b == b && [] + Said(b) == Said(b);
    } else {
      assert (a + b)[1..] == a[1..] + b;
      SaidConcat(a[1..], b);
    }
  }

  lemma SaidByRow(row: IntentRow, resolved: Option<Report>, trades: seq<TradeReport>)
    ensures Said(RowOps(row, resolved, trades)) == if resolved.Some? then Said(TradeOps(row, resolved.value, trades)) else []
  {
    match resolved
    case None =>
    case Some(r) =>
      var note, middle, settle := [NoteOrder(row, r)], TradeOps(row, r, trades), [Settle(row, r)];
      SaidConcat(note + middle, settle);
      SaidConcat(note, middle);
      assert note[1..] == [] && settle[1..] == [] && Said(note) == [] && Said(settle) == [];
      assert [] + Said(middle) + [] == Said(middle);
  }

  lemma {:induction false} SaidIs(rows: seq<IntentRow>, resolved: seq<Option<Report>>, trades: seq<TradeReport>, f: FillRow)
    requires |resolved| == |rows|
    ensures f in Said(Program(rows, resolved, trades)) <==>
            exists a, b :: 0 <= a < |rows| && 0 <= b < |trades| && Names(rows, resolved, trades, a, b, f)
  {
    hide SaidBy;
    if rows != [] {
      var first, rest := RowOps(rows[0], resolved[0], trades), Program(rows[1..], resolved[1..], trades);
      SaidIs(rows[1..], resolved[1..], trades, f);
      SaidConcat(first, rest);
      SaidByRow(rows[0], resolved[0], trades);
      if resolved[0].Some? {
        SaidByTrades(rows[0], resolved[0].value, trades, f);
      }
      NamesShift(rows, resolved, trades, f);
    }
  }

  lemma NamesShift(rows: seq<IntentRow>, resolved: seq<Option<Report>>, trades: seq<TradeReport>, f: FillRow)
    requires |resolved| == |rows| && rows != []
    ensures (exists a, b :: 0 <= a < |rows| && 0 <= b < |trades| && Names(rows, resolved, trades, a, b, f))
            <==> || (resolved[0].Some? && exists b :: 0 <= b < |trades| && Names([rows[0]], [Some(resolved[0].value)], trades, 0, b, f))
                 || exists a, b :: 0 <= a < |rows[1..]| && 0 <= b < |trades| && Names(rows[1..], resolved[1..], trades, a, b, f)
  {
    if a, b :| 0 <= a < |rows| && 0 <= b < |trades| && Names(rows, resolved, trades, a, b, f) {
      if a == 0 {
        assert Names([rows[0]], [Some(resolved[0].value)], trades, 0, b, f);
      } else {
        assert Names(rows[1..], resolved[1..], trades, a - 1, b, f);
      }
    }
    if resolved[0].Some? {
      if b :| 0 <= b < |trades| && Names([rows[0]], [Some(resolved[0].value)], trades, 0, b, f) {
        assert Names(rows, resolved, trades, 0, b, f);
      }
    }
    if a, b :| 0 <= a < |rows[1..]| && 0 <= b < |trades| && Names(rows[1..], resolved[1..], trades, a, b, f) {
      assert Names(rows, resolved, trades, a + 1, b, f);
    }
  }

  /** The batch in the process is complete, of the current revision, and none of its commits is refused. */
  predicate Publishes(w: World) {
    && w.p.batch.Resolving? && |w.p.batch.resolved| == |w.p.batch.rows| && w.p.batch.rev == w.p.rev
    && Completes(w.t, Program(w.p.batch.rows, w.p.batch.resolved, w.p.batch.trades))
  }

  lemma AppliedTables(w: World)
    requires Publishes(w)
    ensures Next(w, Apply).t == LastOf(w.t, Program(w.p.batch.rows, w.p.batch.resolved, w.p.batch.trades))
  {
    hide Program, Trail, BrokerNext, ProcessNext;
  }

  /**
   After a published batch every trade report of a matched order is a fill of that order, trade, security, quantity
   and price, with the highest fees recorded before or said by the batch; there are no other new fills, and
   fills the batch did not speak of keep their fees.
   */
  lemma BatchRecords(w: World) returns (said: seq<FillRow>)
    requires Inv(w) && Publishes(w)
    ensures forall f :: f in said <==>
              exists a, b :: 0 <= a < |w.p.batch.rows| && 0 <= b < |w.p.batch.trades|
                             && Names(w.p.batch.rows, w.p.batch.resolved, w.p.batch.trades, a, b, f)
    ensures Noted(w.t.fills, said, Next(w, Apply).t.fills)
  {
    hide Noted, Names, Program, Completes, Next, OpsGood, TableInv, BrokerInv, Covered, LinesInv, Said;
    var rows, resolved, trades := w.p.batch.rows, w.p.batch.resolved, w.p.batch.trades;
    ProgramGood(w.t, w.b, rows, resolved, trades);
    said := Said(Program(rows, resolved, trades));
    forall f
      ensures f in said <==> exists a, b :: 0 <= a < |rows| && 0 <= b < |trades| && Names(rows, resolved, trades, a, b, f)
    {
      SaidIs(rows, resolved, trades, f);
    }
    TrailNoted(w.t, w.b, w.sent, Program(rows, resolved, trades));
    AppliedTables(w);
  }

  // ---------- Contradictions are refused ----------

  lemma {:induction false} CompletedOp(t: Tables, ops: seq<Op>, k: nat) returns (u: Tables)
    requires Completes(t, ops) && k < |ops|
    ensures ExecOp(u, ops[k]).Success?
    decreases |ops|
  {
    StepOfTrail(t, ops);
    hide ExecOp, Trail, Completes;
    if k == 0 {
      u := t;
    } else {
      u := CompletedOp(ExecOp(t, ops[0]).value, ops[1..], k - 1);
    }
  }

  lemma {:induction false} TradeOpIn(row: IntentRow, r: Report, xs: seq<TradeReport>, b: nat)
    requires b < |xs|
    ensures |TradeOps(row, r, xs)| == |xs| && TradeOps(row, r, xs)[b] == TradeOp(row, r, xs[b])
  {
    hide TradeOp;
    if b > 0 {
      TradeOpIn(row, r, xs[1..], b - 1);
    } else if |xs| > 1 {
      TradeOpIn(row, r, xs[1..], 0);
    }
  }

  lemma RowOpIn(rows: seq<IntentRow>, resolved: seq<Option<Report>>, xs: seq<TradeReport>, a: nat, k: nat) returns (m: nat)
    requires |resolved| == |rows| && a < |rows| && k < |RowOps(rows[a], resolved[a], xs)|
    ensures m < |Program(rows, resolved, xs)| && Program(rows, resolved, xs)[m] == RowOps(rows[a], resolved[a], xs)[k]
  {
    hide RowOps, Program;
    ProgramSplits(rows, resolved, xs, a);
    m := |Program(rows[..a], resolved[..a], xs)| + k;
  }

  /**
   A published batch was consistent: each matched row is ours, names its order, and is of the intent's own security
   and side where it says so; so is each trade of a matched order, with an id, a positive quantity and price and
   no negative fees; and no matched charge is negative. One that is not refuses the whole batch.
   */
  lemma PublishedIsConsistent(w: World, a: nat, b: nat)
    requires Publishes(w) && a < |w.p.batch.rows| && w.p.batch.resolved[a].Some? && b < |w.p.batch.trades|
    ensures var i, r := w.p.batch.rows[a].intent, w.p.batch.resolved[a].value;
            && r.ours && r.order.Some?
            && (r.sec.Some? ==> r.sec.value == i.sec) && (r.side.Some? ==> r.side.value == i.side)
    ensures var i, r, x := w.p.batch.rows[a].intent, w.p.batch.resolved[a].value, w.p.batch.trades[b];
            x.TradeReport? && r.order == Some(x.order) ==>
              && x.ours && (x.sec.Some? ==> x.sec.value == i.sec) && (x.side.Some? ==> x.side.value == i.side)
              && x.trade.Some? && x.qty > 0 && x.price > 0.0 && x.fees >= 0.0
    ensures var r, x := w.p.batch.resolved[a].value, w.p.batch.trades[b];
            x.ChargeReport? && r.order == Some(x.order) ==> x.fees >= 0.0
  {
    hide Program, Completes;
    var rows, resolved, xs := w.p.batch.rows, w.p.batch.resolved, w.p.batch.trades;
    var ops := Program(rows, resolved, xs);
    TradeOpIn(rows[a], resolved[a].value, xs, b);
    var first := RowOpIn(rows, resolved, xs, a, 0);
    var next := RowOpIn(rows, resolved, xs, a, 1 + b);
    var t := CompletedOp(w.t, ops, first);
    var u := CompletedOp(w.t, ops, next);
    hide RecordOrder, RecordFillOnce;
  }

  // ---------- True reports are never refused ----------

  /** A trade id names one trade of its order. */
  ghost predicate DistinctTrades(b: Broker) {
    forall c, j, k :: c in b.book && 0 <= j < k < |b.book[c].trades| ==> b.book[c].trades[j].trade != b.book[c].trades[k].trade
  }

  /** Every charge is of a known order of its own intent. */
  ghost predicate ChargesOwned(t: Tables) {
    forall k :: 0 <= k < |t.charges| ==> t.charges[k].order in t.orders && t.orders[t.charges[k].order].intent == t.charges[k].intent
  }

  /** The tables as every batch finds and leaves them. */
  ghost predicate Sane(t: Tables, b: Broker, sent: seq<Id>) {
    && TableInv(t, b, sent) && BrokerInv(t, b, sent) && ChargesOwned(t)
    && AllReal(b, t.fills) && AllCounted(b) && DistinctTrades(b)
  }

  /** A true order report of ours for the intent, stating no more than its quantity. */
  ghost predicate HonestReport(b: Broker, row: IntentRow, r: Report) {
    Truthful(b, row.intent.corr, r) && r.ours && (r.filled.Some? ==> r.filled.value <= row.intent.qty)
  }

  /** A true trade of ours, with positive quantity and price and no negative fees; or charges that are not negative. */
  ghost predicate HonestTrade(b: Broker, x: TradeReport) {
    match x
    case TradeReport(order, trade, sec, side, ours, qty, price, fees) =>
      && TrueTrade(b, x) && trade.Some? && ours && qty > 0 && price > 0.0 && fees >= 0.0
      && forall c :: c in b.book && b.book[c].id == order ==>
           (sec.Some? ==> sec.value == b.book[c].intent.sec) && (side.Some? ==> side.value == b.book[c].intent.side)
    case ChargeReport(_, fees, _) => fees >= 0.0
  }

  lemma OrderAccepted(t: Tables, b: Broker, sent: seq<Id>, row: IntentRow, r: Report)
    requires Sane(t, b, sent) && HasRow(t.intents, row.intent) && HonestReport(b, row, r)
    ensures ExecOp(t, NoteOrder(row, r)).Success?
    ensures var u := ExecOp(t, NoteOrder(row, r)).value;
            r.order.Some? && r.order.value in u.orders && u.orders[r.order.value].intent == row.intent.id
  {
    hide AllReal, AllCounted, DistinctTrades, ChargesOwned, RowInv;
    var o := r.order.value;
    TablesWellFormed(t, b, sent);
    OrderSays(t, o, row.intent.id, r.status, r);
    if o in t.orders {
      SavedOrderIsItsOwn(t, b, sent, row, o);
    }
    hide RecordOrder, Sane, WellFormed, Reopened;
  }

  lemma SavedOrderIsItsOwn(t: Tables, b: Broker, sent: seq<Id>, row: IntentRow, o: Id)
    requires Sane(t, b, sent) && WellFormed(t) && HasRow(t.intents, row.intent) && o in t.orders
    requires row.intent.corr in b.book && b.book[row.intent.corr].id == o
    ensures t.orders[o].intent == row.intent.id
  {
    hide AllReal, AllCounted, DistinctTrades, ChargesOwned, RowInv;
    assert OrderRowInv(t, b, o, t.orders[o]);
    var k :| 0 <= k < |t.intents| && t.intents[k].intent.id == t.orders[o].intent
             && Truthful(b, t.intents[k].intent.corr, t.orders[o].report)
             && b.book[t.intents[k].intent.corr].id == o && t.orders[o].status == t.orders[o].report.status;
    assert t.intents[k].intent.corr == row.intent.corr;
    var m :| 0 <= m < |t.intents| && t.intents[m].intent == row.intent;
    assert m == k;
  }

  /** A trade that happened fits what is recorded: the same as before, or within the intent's quantity. */
  lemma FillAccepted(t: Tables, b: Broker, sent: seq<Id>, i: Intent, f: Fill)
    requires Sane(t, b, sent) && HasRow(t.intents, i) && i.corr in b.book && b.book[i.corr].id == f.order
    requires f.sec == i.sec && Execution(f.trade, f.qty, f.price) in b.book[i.corr].trades
    ensures RecordFillOnce(t, f, i.id).Success?
  {
    hide ChargesOwned, RowInv, OrderRowInv, FilledQty, Executed;
    TablesWellFormed(t, b, sent);
    BookedIsRow(t, b, sent, i);
    match FillAt(t.fills, f.order, f.trade)
    case Some(k) =>
      assert RealFill(b, t.fills[k]);
      KnownTradeAgrees(b, sent, t, i, f, t.fills[k]);
    case None =>
      var m :| 0 <= m < |t.intents| && t.intents[m].intent == i;
      RoomForTrade(t, b, sent, i, f);
  }

  lemma KnownTradeAgrees(b: Broker, sent: seq<Id>, t: Tables, i: Intent, f: Fill, saved: FillRow)
    requires BrokerInv(t, b, sent) && DistinctTrades(b) && RealFill(b, saved) && i.corr in b.book && b.book[i.corr].id == f.order
    requires f.sec == i.sec && b.book[i.corr].intent == i && Execution(f.trade, f.qty, f.price) in b.book[i.corr].trades
    requires saved.fill.order == f.order && saved.fill.trade == f.trade
    ensures saved.fill.sec == f.sec && saved.fill.qty == f.qty && saved.fill.price == f.price
  {
    var c :| c in b.book && b.book[c].id == saved.fill.order
             && b.book[c].intent.id == saved.intent && b.book[c].intent.sec == saved.fill.sec
             && Execution(saved.fill.trade, saved.fill.qty, saved.fill.price) in b.book[c].trades;
    assert c == i.corr;
    var xs := b.book[c].trades;
    var j :| 0 <= j < |xs| && xs[j] == Execution(f.trade, f.qty, f.price);
    var k :| 0 <= k < |xs| && xs[k] == Execution(saved.fill.trade, saved.fill.qty, saved.fill.price);
    assert j == k;
  }

  lemma RoomForTrade(t: Tables, b: Broker, sent: seq<Id>, i: Intent, f: Fill)
    requires Sane(t, b, sent) && HasRow(t.intents, i) && i.corr in b.book && b.book[i.corr].id == f.order && b.book[i.corr].intent == i
    requires f.sec == i.sec && Execution(f.trade, f.qty, f.price) in b.book[i.corr].trades
    requires FillAt(t.fills, f.order, f.trade).None?
    ensures FilledQty(t.fills, i.id) + f.qty <= i.qty
  {
    hide ChargesOwned, RowInv, OrderRowInv, FilledQty, Executed, DistinctTrades;
    TablesWellFormed(t, b, sent);
    var all := t.fills + [FillRow(f, i.id, false)];
    forall k | 0 <= k < |all| && all[k].intent == i.id
      ensures all[k].fill.order == b.book[i.corr].id && all[k].fill.sec == i.sec
      ensures Execution(all[k].fill.trade, all[k].fill.qty, all[k].fill.price) in b.book[i.corr].trades
    {
      if k < |t.fills| {
        RealOfIntent(t, b, sent, i, t.fills[k]);
      }
    }
    DistinctWith(t.fills, FillRow(f, i.id, false));
    assert Counted(b.book[i.corr]);
    RecordedWithinFilled(all, b, i);
    FilledQtyAppend(t.fills, FillRow(f, i.id, false), i.id);
  }

  lemma DistinctWith(fills: seq<FillRow>, row: FillRow)
    requires DistinctFills(fills) && FillAt(fills, row.fill.order, row.fill.trade).None?
    ensures DistinctFills(fills + [row])
  {}

  lemma RealOfIntent(t: Tables, b: Broker, sent: seq<Id>, i: Intent, row: FillRow)
    requires BrokerInv(t, b, sent) && WellFormed(t) && HasRow(t.intents, i) && RealFill(b, row) && row.intent == i.id && i.corr in b.book
    ensures row.fill.order == b.book[i.corr].id && row.fill.sec == i.sec
    ensures Execution(row.fill.trade, row.fill.qty, row.fill.price) in b.book[i.corr].trades
  {
    var c :| c in b.book && b.book[c].id == row.fill.order
             && b.book[c].intent.id == row.intent && b.book[c].intent.sec == row.fill.sec
             && Execution(row.fill.trade, row.fill.qty, row.fill.price) in b.book[c].trades;
    var m :| 0 <= m < |t.intents| && t.intents[m].intent == b.book[c].intent;
    var n :| 0 <= n < |t.intents| && t.intents[n].intent == i;
    assert m == n;
  }

  ghost predicate Knows(t: Tables, order: Id, id: Id) { order in t.orders && t.orders[order].intent == id }

  /** A true report of a trade with positive quantity and price and no negative fees is taken, and so are charges. */
  lemma TradeAccepted(t: Tables, b: Broker, sent: seq<Id>, row: IntentRow, r: Report, x: TradeReport)
    requires Sane(t, b, sent) && HasRow(t.intents, row.intent) && HonestReport(b, row, r) && HonestTrade(b, x)
    requires Knows(t, r.order.value, row.intent.id)
    ensures ExecOp(t, TradeOp(row, r, x)).Success?
  {
    hide TableInv, AllReal, AllCounted, DistinctTrades, RecordFillOnce;
    TablesWellFormed(t, b, sent);
    BookedIsRow(t, b, sent, row.intent);
    if r.order == Some(x.order) {
      match x
      case TradeReport(order, trade, sec, side, ours, qty, price, fees) =>
        var c :| c in b.book && b.book[c].id == x.order && Execution(trade.value, qty, price) in b.book[c].trades;
        assert c == row.intent.corr;
        FillAccepted(t, b, sent, row.intent, Fill(order, trade.value, row.intent.sec, qty, price, fees));
      case ChargeReport(order, fees, complete) =>
        ChargedIff(t, order, row.intent.id, fees, complete);
        ChargeIsRow(t.charges, order);
    }
  }

  lemma {:induction false} ChargeIsRow(charges: seq<ChargeRow>, order: Id)
    ensures ChargeAt(charges, order).Some? ==>
              exists k :: 0 <= k < |charges| && charges[k] == ChargeAt(charges, order).value && charges[k].order == order
  {
    if charges != [] && charges[|charges| - 1].order != order {
      var init := charges[..|charges| - 1];
      ChargeIsRow(init, order);
      if ChargeAt(init, order).Some? {
        var k :| 0 <= k < |init| && init[k] == ChargeAt(init, order).value && init[k].order == order;
        assert charges[k] == init[k];
      }
    }
  }

  lemma SettlementAccepted(t: Tables, b: Broker, sent: seq<Id>, row: IntentRow, r: Report)
    requires Sane(t, b, sent) && HasRow(t.intents, row.intent) && HonestReport(b, row, r)
    requires Knows(t, r.order.value, row.intent.id)
    ensures ExecOp(t, Settle(row, r)).Success?
  {
    hide AllReal, AllCounted, DistinctTrades, ChargesOwned, FilledQty, RowInv, OrderRowInv;
    TablesWellFormed(t, b, sent);
    var m :| 0 <= m < |t.intents| && t.intents[m].intent == row.intent;
    assert FilledQty(t.fills, t.intents[m].intent.id) <= t.intents[m].intent.qty;
  }

  // ---------- A batch of them is published ----------

  lemma {:induction false} WithoutChargeRows(charges: seq<ChargeRow>, order: Id)
    ensures forall c :: c in WithoutCharge(charges, order) ==> c in charges
  {
    if charges != [] {
      WithoutChargeRows(charges[..|charges| - 1], order);
    }
  }

  /** Known orders keep their intents, and charges stay with them. */
  lemma OpKeepsOwners(t: Tables, op: Op)
    requires ChargesOwned(t) && ExecOp(t, op).Success?
    ensures ChargesOwned(ExecOp(t, op).value)
    ensures forall o, id :: Knows(t, o, id) ==> Knows(ExecOp(t, op).value, o, id)
  {
    hide FilledQty, HasAttempt, Contradicts;
    var u := ExecOp(t, op).value;
    match op
    case NoteCharge(row, r, of, fees, complete) =>
      WithoutChargeRows(t.charges, of);
      forall k | 0 <= k < |u.charges|
        ensures u.charges[k].order in u.orders && u.orders[u.charges[k].order].intent == u.charges[k].intent
      {
        assert u.charges[k] in t.charges || u.charges[k].order == of;
      }
    case NoteTrade(row, r, trade) =>
    case _ =>
  }

  lemma OpKeepsSane(t: Tables, b: Broker, sent: seq<Id>, op: Op)
    requires Sane(t, b, sent) && OpGood(t, b, op) && TrueOp(b, op) && ExecOp(t, op).Success?
    ensures Sane(ExecOp(t, op).value, b, sent) && TablesLeq(t, ExecOp(t, op).value)
    ensures forall o, id :: Knows(t, o, id) ==> Knows(ExecOp(t, op).value, o, id)
  {
    hide TableInv, BrokerInv, ExecOp, AllReal, AllCounted, DistinctTrades, OpGood, TrueOp, ChargesOwned, TablesLeq, Knows;
    OpKeeps(t, b, sent, op);
    OpKeepsOwners(t, op);
    BrokerInvPersists(t, ExecOp(t, op).value, b, sent);
    OrdersAreDistinct(t, b, sent);
    OpReal(t, b, op);
  }

  lemma {:induction false} TradesAccepted(t: Tables, b: Broker, sent: seq<Id>, row: IntentRow, r: Report, xs: seq<TradeReport>)
    requires Sane(t, b, sent) && HasRow(t.intents, row.intent) && HonestReport(b, row, r)
    requires Knows(t, r.order.value, row.intent.id) && forall k :: 0 <= k < |xs| ==> HonestTrade(b, xs[k])
    ensures var ops := TradeOps(row, r, xs);
            && Completes(t, ops) && Sane(LastOf(t, ops), b, sent) && TablesLeq(t, LastOf(t, ops))
            && Knows(LastOf(t, ops), r.order.value, row.intent.id)
    decreases |xs|
  {
    hide Sane, ExecOp, HonestTrade, HonestReport, Knows, TradeOp;
    if xs != [] {
      var op := TradeOp(row, r, xs[0]);
      ReportParts(b, row, r);
      assert HonestTrade(b, xs[0]);
      TradeAccepted(t, b, sent, row, r, xs[0]);
      TradeOpIsGood(t, b, sent, row, r, xs[0]);
      OpKeepsSane(t, b, sent, op);
      var u := ExecOp(t, op).value;
      RowPersists(t, u, row.intent);
      TradesAccepted(u, b, sent, row, r, xs[1..]);
      assert TradeOps(row, r, xs)[1..] == TradeOps(row, r, xs[1..]);
    }
  }

  lemma ReportParts(b: Broker, row: IntentRow, r: Report)
    requires HonestReport(b, row, r)
    ensures Truthful(b, row.intent.corr, r) && r.order.Some?
  {}

  lemma TradeOpIsGood(t: Tables, b: Broker, sent: seq<Id>, row: IntentRow, r: Report, x: TradeReport)
    requires Sane(t, b, sent) && HasRow(t.intents, row.intent) && HonestReport(b, row, r) && HonestTrade(b, x)
    ensures OpGood(t, b, TradeOp(row, r, x)) && TrueOp(b, TradeOp(row, r, x))
  {
    hide TableInv, BrokerInv, AllReal, AllCounted, DistinctTrades, ChargesOwned;
    TablesWellFormed(t, b, sent);
    BookedIsRow(t, b, sent, row.intent);
  }

  ghost predicate HonestRow(b: Broker, row: IntentRow, resolved: Option<Report>) {
    resolved.Some? ==> HonestReport(b, row, resolved.value)
  }

  lemma RowAccepted(t: Tables, b: Broker, sent: seq<Id>, row: IntentRow, resolved: Option<Report>, xs: seq<TradeReport>)
    requires Sane(t, b, sent) && HasRow(t.intents, row.intent) && HonestRow(b, row, resolved)
    requires forall k :: 0 <= k < |xs| ==> HonestTrade(b, xs[k])
    ensures var ops := RowOps(row, resolved, xs);
            Completes(t, ops) && Sane(LastOf(t, ops), b, sent) && TablesLeq(t, LastOf(t, ops))
  {
    hide Sane, ExecOp, HonestTrade, HonestReport, Knows, TablesLeq, HasRow;
    match resolved
    case None =>
      PlainOp(t, b, sent, AbortUnsent(row));
      OneOp(t, AbortUnsent(row));
    case Some(r) =>
      var note, middle, settle := NoteOrder(row, r), TradeOps(row, r, xs), Settle(row, r);
      ReportParts(b, row, r);
      OrderAccepted(t, b, sent, row, r);
      KnowsNow(t, row, r);
      PlainOp(t, b, sent, note);
      OneOp(t, note);
      var u := ExecOp(t, note).value;
      RowStays(t, u, row);
      TradesAccepted(u, b, sent, row, r, xs);
      var v := LastOf(u, middle);
      RowStays(u, v, row);
      SettlementAccepted(v, b, sent, row, r);
      PlainOp(v, b, sent, settle);
      OneOp(v, settle);
      TrailConcat(t, [note], middle);
      TrailConcat(t, [note] + middle, [settle]);
      LeqOn(t, u, v);
      LeqOn(t, v, ExecOp(v, settle).value);
  }

  lemma KnowsNow(t: Tables, row: IntentRow, r: Report)
    requires ExecOp(t, NoteOrder(row, r)).Success?
    ensures r.order.Some? && Knows(ExecOp(t, NoteOrder(row, r)).value, r.order.value, row.intent.id)
  {}

  lemma RowStays(t: Tables, u: Tables, row: IntentRow)
    requires TablesLeq(t, u) && HasRow(t.intents, row.intent)
    ensures HasRow(u.intents, row.intent)
  {
    RowPersists(t, u, row.intent);
  }

  lemma LeqOn(t: Tables, u: Tables, v: Tables)
    requires TablesLeq(t, u) && TablesLeq(u, v)
    ensures TablesLeq(t, v)
  {}

  /** An abort, an order note or a settlement that succeeds. */
  lemma PlainOp(t: Tables, b: Broker, sent: seq<Id>, op: Op)
    requires Sane(t, b, sent) && HasRow(t.intents, op.row.intent) && (op.NoteOrder? || op.Settle? || op.AbortUnsent?)
    requires op.NoteOrder? || op.Settle? ==> Truthful(b, op.row.intent.corr, op.report) && ExecOp(t, op).Success?
    ensures ExecOp(t, op).Success? && Sane(ExecOp(t, op).value, b, sent) && TablesLeq(t, ExecOp(t, op).value)
  {
    hide Sane, TablesLeq, HasRow, Truthful;
    OpKeepsSane(t, b, sent, op);
  }

  lemma OneOp(t: Tables, op: Op)
    requires ExecOp(t, op).Success?
    ensures Completes(t, [op]) && LastOf(t, [op]) == ExecOp(t, op).value
  {
    hide ExecOp;
    assert [op][1..] == [];
    assert Trail(ExecOp(t, op).value, []) == [ExecOp(t, op).value];
  }

  lemma {:induction false} ProgramAccepted(t: Tables, b: Broker, sent: seq<Id>, rows: seq<IntentRow>, resolved: seq<Option<Report>>,
                                           xs: seq<TradeReport>)
    requires Sane(t, b, sent) && |resolved| == |rows| && forall k :: 0 <= k < |xs| ==> HonestTrade(b, xs[k])
    requires forall a :: 0 <= a < |rows| ==> HasRow(t.intents, rows[a].intent) && HonestRow(b, rows[a], resolved[a])
    ensures Completes(t, Program(rows, resolved, xs))
    decreases |rows|
  {
    hide Sane, HonestTrade, HonestRow, HasRow, TablesLeq, RowOps;
    if rows != [] {
      var first, rest := RowOps(rows[0], resolved[0], xs), Program(rows[1..], resolved[1..], xs);
      assert HasRow(t.intents, rows[0].intent) && HonestRow(b, rows[0], resolved[0]);
      RowAccepted(t, b, sent, rows[0], resolved[0], xs);
      var u := LastOf(t, first);
      forall a | 0 <= a < |rows[1..]|
        ensures HasRow(u.intents, rows[1..][a].intent) && HonestRow(b, rows[1..][a], resolved[1..][a])
      {
        assert HasRow(t.intents, rows[a + 1].intent) && HonestRow(b, rows[a + 1], resolved[a + 1]);
        RowStays(t, u, rows[a + 1]);
      }
      ProgramAccepted(u, b, sent, rows[1..], resolved[1..], xs);
      TrailConcat(t, first, rest);
    }
  }

  lemma {:induction false} TrailOwned(t: Tables, ops: seq<Op>)
    requires ChargesOwned(t)
    ensures forall k :: 0 <= k < |Trail(t, ops)| ==> ChargesOwned(Trail(t, ops)[k])
    decreases |ops|
  {
    hide ExecOp, ChargesOwned, Knows;
    if ops != [] && ExecOp(t, ops[0]).Success? {
      OpKeepsOwners(t, ops[0]);
      TrailOwned(ExecOp(t, ops[0]).value, ops[1..]);
    }
  }

  lemma CommitsOwned(w: World, e: Event)
    requires Enabled(w, e) && !e.CrashDuring? && ChargesOwned(w.t)
    ensures forall k :: 0 <= k < |Commits(w, e)| ==> ChargesOwned(Commits(w, e)[k])
  {
    hide Program, Trail;
    if e.Apply? {
      TrailOwned(w.t, Program(w.p.batch.rows, w.p.batch.resolved, w.p.batch.trades));
    }
  }

  lemma {:induction false} AlwaysOwned(ws: seq<World>, es: seq<Event>, k: nat)
    requires Run(ws, es) && k < |ws|
    ensures ChargesOwned(ws[k].t)
  {
    hide Enabled, Next, Commits, ChargesOwned;
    if k == 0 {
      NoChargesAtStart(ws[0]);
    } else {
      AlwaysOwned(ws, es, k - 1);
      assert Enabled(ws[k - 1], es[k - 1]) && ws[k - 1 + 1] == Next(ws[k - 1], es[k - 1]);
      var c := StepTables(ws[k - 1], es[k - 1]);
      CommitsOwned(ws[k - 1], Core(es[k - 1]));
    }
  }

  lemma NoChargesAtStart(w: World)
    requires Init(w)
    ensures ChargesOwned(w.t) && DistinctTrades(w.b)
  {}

  /** The exchange gives each trade of an order an id of its own. */
  predicate OwnTradeId(w: World, e: Event) {
    e.BrokerFill? && e.corr in w.b.book ==> forall k :: 0 <= k < |w.b.book[e.corr].trades| ==> w.b.book[e.corr].trades[k].trade != e.trade
  }

  lemma StepDistinct(w: World, e: Event)
    requires Inv(w) && DistinctTrades(w.b) && OwnTradeId(w, e)
    ensures DistinctTrades(Next(w, e).b)
  {
    hide Inv;
    OrdersAreOurs(w);
    if IsEnvironment(e) {
      EnvironmentShape(w, e);
      hide Next;
    } else {
      SameBookStep(w, e);
      hide Next;
    }
  }

  lemma {:induction false} AlwaysDistinct(ws: seq<World>, es: seq<Event>, k: nat)
    requires Run(ws, es) && k < |ws| && forall j :: 0 <= j < |es| ==> OwnTradeId(ws[j], es[j])
    ensures DistinctTrades(ws[k].b)
  {
    hide Enabled, Next, DistinctTrades, OwnTradeId, Inv;
    if k == 0 {
      NoChargesAtStart(ws[0]);
    } else {
      AlwaysDistinct(ws, es, k - 1);
      RunInv(ws, es, k - 1);
      assert OwnTradeId(ws[k - 1], es[k - 1]) && ws[k - 1 + 1] == Next(ws[k - 1], es[k - 1]);
      StepDistinct(ws[k - 1], es[k - 1]);
    }
  }

  /** A complete batch of true reports, of the current revision, is published in every run: nothing in it is refused. */
  lemma HonestBatchPublishes(ws: seq<World>, es: seq<Event>, n: nat)
    requires Run(ws, es) && n < |ws| && HonestReads(ws, es) && forall j :: 0 <= j < |es| ==> OwnTradeId(ws[j], es[j])
    requires var p := ws[n].p.batch;
             && p.Resolving? && |p.resolved| == |p.rows| && p.rev == ws[n].p.rev
             && (forall a :: 0 <= a < |p.rows| ==> HonestRow(ws[n].b, p.rows[a], p.resolved[a]))
             && (forall k :: 0 <= k < |p.trades| ==> HonestTrade(ws[n].b, p.trades[k]))
    ensures Publishes(ws[n])
  {
    hide Run, HonestReads, OwnTradeId, TableInv, BrokerInv, Covered, SubmitInv, AllReal, AllCounted, DistinctTrades, ChargesOwned,
         HonestRow, HonestTrade, LinesInv;
    var w := ws[n];
    RunInv(ws, es, n);
    AlwaysReal(ws, es, n);
    AlwaysOwned(ws, es, n);
    AlwaysDistinct(ws, es, n);
    ProgramAccepted(w.t, w.b, w.sent, w.p.batch.rows, w.p.batch.resolved, w.p.batch.trades);
  }

  // ---------- What becomes of an intent ----------

  function StateOf(t: Tables, k: nat): IntentState
    requires k < |t.intents|
  {
    t.intents[k].state
  }

  /** An operation on another intent leaves this one's state, quantity and order row alone. */
  lemma ElsewhereLeaves(t: Tables, op: Op, k: nat, o: Id)
    requires k < |t.intents| && op.row.intent.id != t.intents[k].intent.id && ExecOp(t, op).Success?
    ensures var u, id := ExecOp(t, op).value, t.intents[k].intent.id;
            && k < |u.intents| && u.intents[k] == t.intents[k]
            && FilledQty(u.fills, id) == FilledQty(t.fills, id)
            && (Knows(t, o, id) ==> Knows(u, o, id) && u.orders[o] == t.orders[o])
            && (HasAttempt(u, id) <==> HasAttempt(t, id))
  {
    hide FilledQty, Contradicts;
    var u, id := ExecOp(t, op).value, t.intents[k].intent.id;
    if op.NoteTrade? && u.fills != t.fills {
      FillsElsewhere(t, op, id);
    }
  }

  lemma FillsElsewhere(t: Tables, op: Op, id: Id)
    requires op.NoteTrade? && op.row.intent.id != id && ExecOp(t, op).Success?
    ensures FilledQty(ExecOp(t, op).value.fills, id) == FilledQty(t.fills, id)
  {
    hide FilledQty;
    var u := ExecOp(t, op).value;
    if |u.fills| == |t.fills| {
      FilledQtySameQuantities(t.fills, u.fills, id);
    } else {
      FilledQtyAppend(t.fills, u.fills[|t.fills|], id);
    }
  }

  lemma {:induction false} OthersLeave(t: Tables, ops: seq<Op>, k: nat, o: Id)
    requires k < |t.intents| && Completes(t, ops) && forall j :: 0 <= j < |ops| ==> ops[j].row.intent.id != t.intents[k].intent.id
    ensures var u, id := LastOf(t, ops), t.intents[k].intent.id;
            && k < |u.intents| && u.intents[k] == t.intents[k]
            && FilledQty(u.fills, id) == FilledQty(t.fills, id)
            && (Knows(t, o, id) ==> Knows(u, o, id) && u.orders[o] == t.orders[o])
            && (HasAttempt(u, id) <==> HasAttempt(t, id))
    decreases |ops|
  {
    hide ExecOp, FilledQty, HasAttempt, Knows;
    if ops != [] {
      StepOfTrail(t, ops);
      ElsewhereLeaves(t, ops[0], k, o);
      OthersLeave(ExecOp(t, ops[0]).value, ops[1..], k, o);
    }
  }

  lemma {:induction false} TradesOfRow(row: IntentRow, r: Report, xs: seq<TradeReport>)
    ensures forall j :: 0 <= j < |TradeOps(row, r, xs)| ==>
              TradeOps(row, r, xs)[j].row == row && (TradeOps(row, r, xs)[j].NoteTrade? || TradeOps(row, r, xs)[j].NoteCharge?)
  {
    if xs != [] {
      TradesOfRow(row, r, xs[1..]);
    }
  }

  lemma OpsOfRow(row: IntentRow, resolved: Option<Report>, xs: seq<TradeReport>)
    ensures forall j :: 0 <= j < |RowOps(row, resolved, xs)| ==> RowOps(row, resolved, xs)[j].row == row
  {
    if resolved.Some? {
      TradesOfRow(row, resolved.value, xs);
    }
  }

  lemma {:induction false} OpsOfRows(rows: seq<IntentRow>, resolved: seq<Option<Report>>, xs: seq<TradeReport>, id: Id)
    requires |resolved| == |rows| && forall a :: 0 <= a < |rows| ==> rows[a].intent.id != id
    ensures forall j :: 0 <= j < |Program(rows, resolved, xs)| ==> Program(rows, resolved, xs)[j].row.intent.id != id
    decreases |rows|
  {
    hide RowOps;
    if rows != [] {
      OpsOfRow(rows[0], resolved[0], xs);
      OpsOfRows(rows[1..], resolved[1..], xs, id);
    }
  }

  lemma {:induction false} ProgramSplits(rows: seq<IntentRow>, resolved: seq<Option<Report>>, xs: seq<TradeReport>, a: nat)
    requires |resolved| == |rows| && a < |rows|
    ensures Program(rows, resolved, xs)
         == Program(rows[..a], resolved[..a], xs) + RowOps(rows[a], resolved[a], xs) + Program(rows[a + 1..], resolved[a + 1..], xs)
    decreases |rows|
  {
    hide RowOps;
    if a == 0 {
      assert [] + RowOps(rows[0], resolved[0], xs) == RowOps(rows[0], resolved[0], xs);
    } else {
      ProgramSplits(rows[1..], resolved[1..], xs, a - 1);
      assert rows[1..][..a - 1] == rows[..a][1..] && resolved[1..][..a - 1] == resolved[..a][1..];
      assert rows[1..][a..] == rows[a + 1..] && resolved[1..][a..] == resolved[a + 1..];
    }
  }

  /** Notes of trades and charges move a state only from a closed recovery back to sent. */
  lemma {:induction false} TradesLeaveState(t: Tables, row: IntentRow, r: Report, xs: seq<TradeReport>, k: nat)
    requires k < |t.intents| && Completes(t, TradeOps(row, r, xs))
    ensures var u := LastOf(t, TradeOps(row, r, xs));
            && k < |u.intents| && u.intents[k].intent == t.intents[k].intent && u.orders == t.orders
            && (u.intents[k].state == t.intents[k].state || (t.intents[k].state == RecoveryClosed && u.intents[k].state == Sent))
    decreases |xs|
  {
    hide ExecOp;
    if xs != [] {
      var ops := TradeOps(row, r, xs);
      StepOfTrail(t, ops);
      TradeLeavesState(t, row, r, xs[0], k);
      assert ops[1..] == TradeOps(row, r, xs[1..]);
      TradesLeaveState(ExecOp(t, ops[0]).value, row, r, xs[1..], k);
    }
  }

  lemma TradeLeavesState(t: Tables, row: IntentRow, r: Report, x: TradeReport, k: nat)
    requires k < |t.intents| && ExecOp(t, TradeOp(row, r, x)).Success?
    ensures var u := ExecOp(t, TradeOp(row, r, x)).value;
            && k < |u.intents| && u.intents[k].intent == t.intents[k].intent && u.orders == t.orders
            && (u.intents[k].state == t.intents[k].state || (t.intents[k].state == RecoveryClosed && u.intents[k].state == Sent))
  {
    hide FilledQty;
  }

  /** What settling makes of an intent of this quantity, so much of it filled, on an order row and a report of it. */
  predicate SettledAs(before: IntentState, after: IntentState, qty: nat, filled: nat, status: OrderStatus, r: Report) {
    var enough := if r.filled.Some? then r.filled.value <= filled else status != Done(TRADED) || qty <= filled;
    if status != Working && enough then after == (if filled == qty then Filled else Ended(status.how))
    else after == before || (before == RecoveryClosed && after == Sent)
  }

  lemma RowSettles(t: Tables, row: IntentRow, r: Report, xs: seq<TradeReport>, k: nat)
    requires WellFormed(t) && k < |t.intents| && t.intents[k].intent == row.intent && Completes(t, RowOps(row, Some(r), xs))
    ensures var u, id := LastOf(t, RowOps(row, Some(r), xs)), row.intent.id;
            && r.order.Some? && Knows(u, r.order.value, id)
            && u.orders[r.order.value] == (if r.order.value in t.orders && t.orders[r.order.value].status != Working && r.status == Working
                                           then t.orders[r.order.value] else OrderRow(id, r.status, r))
            && k < |u.intents| && u.intents[k].intent == row.intent
            && SettledAs(StateOf(t, k), StateOf(u, k), row.intent.qty, FilledQty(u.fills, id), u.orders[r.order.value].status, r)
  {
    hide ExecOp, FilledQty, WellFormed;
    var note, middle, settle := NoteOrder(row, r), TradeOps(row, r, xs), Settle(row, r);
    TrailConcat(t, [note] + middle, [settle]);
    TrailConcat(t, [note], middle);
    StepOfTrail(t, [note]);
    assert [note][1..] == [];
    var u := ExecOp(t, note).value;
    assert LastOf(t, [note]) == u;
    NoteLeaves(t, row, r, k);
    TradesLeaveState(u, row, r, xs, k);
    var v := LastOf(u, middle);
    StepOfTrail(v, [settle]);
    assert [settle][1..] == [];
    SettleLeaves(v, row, r, k);
  }

  lemma NoteLeaves(t: Tables, row: IntentRow, r: Report, k: nat)
    requires k < |t.intents| && ExecOp(t, NoteOrder(row, r)).Success?
    ensures var u, id := ExecOp(t, NoteOrder(row, r)).value, row.intent.id;
            && r.order.Some? && Knows(u, r.order.value, id)
            && u.orders[r.order.value] == (if r.order.value in t.orders && t.orders[r.order.value].status != Working && r.status == Working
                                           then t.orders[r.order.value] else OrderRow(id, r.status, r))
            && k < |u.intents| && u.intents[k].intent == t.intents[k].intent
            && (StateOf(u, k) == StateOf(t, k) || (StateOf(t, k) == RecoveryClosed && StateOf(u, k) == Sent))
  {
    OrderSays(t, r.order.value, row.intent.id, r.status, r);
  }

  lemma SettleLeaves(t: Tables, row: IntentRow, r: Report, k: nat)
    requires k < |t.intents| && t.intents[k].intent == row.intent && ExecOp(t, Settle(row, r)).Success?
    ensures var u, id := ExecOp(t, Settle(row, r)).value, row.intent.id;
            && r.order.Some? && r.order.value in t.orders && u.orders == t.orders && u.fills == t.fills
            && k < |u.intents| && u.intents[k].intent == row.intent
            && SettledAs(StateOf(t, k), StateOf(u, k), row.intent.qty, FilledQty(u.fills, id), u.orders[r.order.value].status, r)
  {
    hide FilledQty;
  }

  /** Without a report, only an unsent intent that was never attempted is aborted. */
  lemma RowAborts(t: Tables, row: IntentRow, xs: seq<TradeReport>, k: nat)
    requires k < |t.intents| && t.intents[k].intent == row.intent
    ensures Completes(t, RowOps(row, None, xs))
    ensures var u := LastOf(t, RowOps(row, None, xs));
            && k < |u.intents| && u.intents[k].intent == row.intent
            && StateOf(u, k) == if row.state == PendingSend && !HasAttempt(t, row.intent.id) then Aborted else StateOf(t, k)
  {
    OneOp(t, AbortUnsent(row));
  }

  /** The rows of a batch being resolved are the intents as they were when it read them. */
  ghost predicate RowsRead(w: World) {
    w.p.batch.Resolving? ==>
      && |w.p.batch.rows| <= |w.t.intents|
      && forall k :: 0 <= k < |w.p.batch.rows| ==> w.p.batch.rows[k].intent == w.t.intents[k].intent
  }

  lemma RowsMove(w: World, e: Event)
    requires Enabled(w, e) && Next(w, e).p.batch.Resolving?
    ensures if e.ReadIntents? then Next(w, e).p.batch.rows == w.t.intents && Next(w, e).t == w.t
            else w.p.batch.Resolving? && Next(w, e).p.batch.rows == w.p.batch.rows
  {
    hide Next, Request, PendingQty, Resolve, Completes, Program, Note, Truthful, TruthfulLine;
    StepProcess(w, e);
    if e.ReadIntents? {
      ReadingCommitsNothing(w);
    }
  }

  lemma ReadingCommitsNothing(w: World)
    ensures Next(w, ReadIntents).t == w.t
  {}

  lemma {:induction false} AlwaysRowsRead(ws: seq<World>, es: seq<Event>, k: nat)
    requires Run(ws, es) && k < |ws|
    ensures RowsRead(ws[k])
  {
    hide Enabled, Next, Inv;
    if k == 0 {
      assert Init(ws[0]);
    } else {
      AlwaysRowsRead(ws, es, k - 1);
      RunInv(ws, es, k - 1);
      assert Enabled(ws[k - 1], es[k - 1]) && ws[k - 1 + 1] == Next(ws[k - 1], es[k - 1]);
      StepRows(ws[k - 1], es[k - 1]);
      if ws[k].p.batch.Resolving? {
        RowsMove(ws[k - 1], es[k - 1]);
      }
    }
  }

  /**
   After a published batch the order row of a matched intent is the intent's, with the latest status but never back
   from terminal, and the intent is filled, ended or as before, as that row and the recorded fills say; an intent
   matched with nothing is aborted exactly when it was read as unsent and has no attempt.
   */
  lemma BatchSettles(ws: seq<World>, es: seq<Event>, n: nat, a: nat)
    requires Run(ws, es) && n < |ws| && Publishes(ws[n]) && a < |ws[n].p.batch.rows|
    ensures var w, row, resolved, u := ws[n], ws[n].p.batch.rows[a], ws[n].p.batch.resolved[a], Next(ws[n], Apply).t;
            && a < |w.t.intents| && a < |u.intents| && u.intents[a].intent == w.t.intents[a].intent == row.intent
            && match resolved
               case None =>
                 StateOf(u, a) == if row.state == PendingSend && !HasAttempt(w.t, row.intent.id) then Aborted else StateOf(w.t, a)
               case Some(r) =>
                 && r.order.Some? && Knows(u, r.order.value, row.intent.id)
                 && SettledAs(StateOf(w.t, a), StateOf(u, a), row.intent.qty, FilledQty(u.fills, row.intent.id),
                              u.orders[r.order.value].status, r)
                 && (r.status != Working ==> u.orders[r.order.value].status == r.status)
  {
    hide Next, Publishes, Inv, Run, SettledAs, FilledQty, HasAttempt;
    RunInv(ws, es, n);
    AlwaysRowsRead(ws, es, n);
    ResolvedRows(ws[n]);
    RowSettlesInBatch(ws[n], a);
  }

  lemma ResolvedRows(w: World)
    requires Publishes(w)
    ensures w.p.batch.Resolving? && |w.p.batch.resolved| == |w.p.batch.rows|
  {}

  lemma RowSettlesInBatch(w: World, a: nat)
    requires Inv(w) && Publishes(w) && RowsRead(w) && a < |w.p.batch.rows|
    ensures var row, resolved, u := w.p.batch.rows[a], w.p.batch.resolved[a], Next(w, Apply).t;
            && a < |w.t.intents| && a < |u.intents| && u.intents[a].intent == w.t.intents[a].intent == row.intent
            && match resolved
               case None =>
                 StateOf(u, a) == if row.state == PendingSend && !HasAttempt(w.t, row.intent.id) then Aborted else StateOf(w.t, a)
               case Some(r) =>
                 && r.order.Some? && Knows(u, r.order.value, row.intent.id)
                 && SettledAs(StateOf(w.t, a), StateOf(u, a), row.intent.qty, FilledQty(u.fills, row.intent.id),
                              u.orders[r.order.value].status, r)
                 && (r.status != Working ==> u.orders[r.order.value].status == r.status)
  {
    hide Next, Program, Completes, RowOps, TableInv, BrokerInv, Covered, LinesInv, FilledQty, HasAttempt, OpsGood, SettledAs, WellFormed;
    var rows, resolved, xs := w.p.batch.rows, w.p.batch.resolved, w.p.batch.trades;
    var row, id := rows[a], rows[a].intent.id;
    var first, middle, last := Program(rows[..a], resolved[..a], xs), RowOps(row, resolved[a], xs),
                               Program(rows[a + 1..], resolved[a + 1..], xs);
    var o := if resolved[a].Some? && resolved[a].value.order.Some? then resolved[a].value.order.value else 0;
    AppliedTables(w);
    ProgramSplits(rows, resolved, xs, a);
    ProgramGood(w.t, w.b, rows, resolved, xs);
    assert first + middle + last == first + (middle + last);
    TrailConcat(w.t, first + middle, last);
    TrailConcat(w.t, first, middle);
    TablesWellFormed(w.t, w.b, w.sent);
    DistinctOf(w.t);
    OpsOfRows(rows[..a], resolved[..a], xs, id);
    OpsOfRows(rows[a + 1..], resolved[a + 1..], xs, id);
    OthersLeave(w.t, first, a, o);
    var t := LastOf(w.t, first);
    FirstWellFormed(w, first, middle + last);
    if resolved[a].Some? {
      RowSettles(t, row, resolved[a].value, xs, a);
    } else {
      RowAborts(t, row, xs, a);
    }
    OthersLeave(LastOf(t, middle), last, a, o);
  }

  lemma FirstWellFormed(w: World, first: seq<Op>, rest: seq<Op>)
    requires Inv(w) && OpsGood(w.t, w.b, first + rest) && Completes(w.t, first)
    ensures WellFormed(LastOf(w.t, first))
  {
    hide TableInv, BrokerInv, Covered, OpGood, BatchInv, SubmitInv, WellFormed, ExecOp;
    forall j | 0 <= j < |first|
      ensures OpGood(w.t, w.b, first[j])
    {
      assert first[j] == (first + rest)[j];
    }
    TrailKeeps(w.t, w.b, w.sent, first);
    TablesWellFormed(LastOf(w.t, first), w.b, w.sent);
  }

  // ---------- Which report an intent is matched with ----------

  predicate LineOf(lines: seq<OrderLine>, corr: Id) { exists j :: 0 <= j < |lines| && lines[j].corr == Some(corr) }

  predicate LineWith(lines: seq<OrderLine>, order: Id) { exists j :: 0 <= j < |lines| && lines[j].report.order == Some(order) }

  lemma {:induction false} LastByCorr(lines: seq<OrderLine>, corr: Id)
    ensures ByCorr(lines, corr).None? <==> !LineOf(lines, corr)
    ensures ByCorr(lines, corr).Some? ==>
              exists j :: 0 <= j < |lines| && lines[j].corr == Some(corr) && ByCorr(lines, corr).value == lines[j].report
                          && forall m :: j < m < |lines| ==> lines[m].corr != Some(corr)
  {
    if lines != [] && lines[|lines| - 1].corr != Some(corr) {
      var init := lines[..|lines| - 1];
      LastByCorr(init, corr);
      assert forall j :: 0 <= j < |init| ==> init[j] == lines[j];
      if ByCorr(init, corr).Some? {
        var j :| 0 <= j < |init| && init[j].corr == Some(corr) && ByCorr(init, corr).value == init[j].report
                 && forall m :: j < m < |init| ==> init[m].corr != Some(corr);
        assert lines[j] == init[j];
      }
    }
  }

  lemma {:induction false} LastById(lines: seq<OrderLine>, order: Id)
    ensures ById(lines, order).None? <==> !LineWith(lines, order)
    ensures ById(lines, order).Some? ==>
              exists j :: 0 <= j < |lines| && lines[j].report.order == Some(order) && ById(lines, order).value == lines[j].report
                          && forall m :: j < m < |lines| ==> lines[m].report.order != Some(order)
  {
    if lines != [] && lines[|lines| - 1].report.order != Some(order) {
      var init := lines[..|lines| - 1];
      LastById(init, order);
      assert forall j :: 0 <= j < |init| ==> init[j] == lines[j];
      if ById(init, order).Some? {
        var j :| 0 <= j < |init| && init[j].report.order == Some(order) && ById(init, order).value == init[j].report
                 && forall m :: j < m < |init| ==> init[m].report.order != Some(order);
        assert lines[j] == init[j];
      }
    }
  }

  /**
   An intent is matched with the last listed row of its correlation id, or else of its known order, or else with
   the terminal row saved, or else, unless it is unsent or over, with what a lookup found; so it goes unmatched
   only when there is none of these.
   */
  lemma MatchedWith(t: Tables, row: IntentRow, lines: seq<OrderLine>, saved: Option<Id>, lookup: Option<Report>)
    requires saved.Some? ==> saved.value in t.orders
    ensures var m := Resolve(t, row, lines, saved, lookup);
            var terminal := saved.Some? && t.orders[saved.value].status != Working;
            var looked := row.state !in {Filled, Ended(CANCELLED), Ended(REJECTED), Ended(EXPIRED), Aborted, PendingSend};
            && (m.Some? <==> || LineOf(lines, row.intent.corr) || (saved.Some? && LineWith(lines, saved.value)) || terminal
                             || (looked && lookup.Some?))
            && (LineOf(lines, row.intent.corr) ==>
                  exists j :: 0 <= j < |lines| && lines[j].corr == Some(row.intent.corr) && m == Some(lines[j].report)
                              && forall k :: j < k < |lines| ==> lines[k].corr != Some(row.intent.corr))
            && (!LineOf(lines, row.intent.corr) && saved.Some? && LineWith(lines, saved.value) ==>
                  exists j :: 0 <= j < |lines| && lines[j].report.order == saved && m == Some(lines[j].report)
                              && forall k :: j < k < |lines| ==> lines[k].report.order != saved)
            && (!LineOf(lines, row.intent.corr) && !(saved.Some? && LineWith(lines, saved.value)) ==>
                  m == if terminal then Some(t.orders[saved.value].report) else if looked then lookup else None)
  {
    hide LineOf, LineWith, ByCorr, ById;
    LastByCorr(lines, row.intent.corr);
    if saved.Some? {
      LastById(lines, saved.value);
    }
    if row.state.Ended? {
      match row.state.how
      case TRADED =>
      case CANCELLED =>
      case REJECTED =>
      case EXPIRED =>
    }
  }
}
