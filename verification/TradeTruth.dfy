/**
 What the capital results need of the broker's trade and order reports, and why it is enough: recorded
 fills are real, and a row that resolves an order says how much of it was filled.
 */
module TradeTruth {
  import opened Wrappers
  import opened Risk
  import opened Ledger
  import opened Orders
  import opened OrderSafety
  import opened OrderTheorems
  import opened Executions
  import opened Capital
  import opened CapitalSafety

  // ---------- Positions are fills ----------

  /** Filled units of all intents of a security, sales counted against. */
  function SignedFills(b: Broker, rows: seq<IntentRow>, n: nat, sec: Id): int
    requires n <= |rows|
  {
    if n == 0 then 0
    else
      var i := rows[n - 1].intent;
      SignedFills(b, rows, n - 1, sec) + if i.sec == sec then Signed(i.side, BrokerFilled(b, i.corr)) else 0
  }

  lemma {:induction false} SameFills(b: Broker, c: Broker, rows: seq<IntentRow>, others: seq<IntentRow>, n: nat, sec: Id)
    requires n <= |rows| && n <= |others|
    requires forall k :: 0 <= k < n ==> rows[k].intent == others[k].intent
    requires forall k :: 0 <= k < n ==> BrokerFilled(b, rows[k].intent.corr) == BrokerFilled(c, rows[k].intent.corr)
    ensures SignedFills(b, rows, n, sec) == SignedFills(c, others, n, sec)
  {
    hide BrokerFilled;
    if n > 0 {
      SameFills(b, c, rows, others, n - 1, sec);
    }
  }

  lemma {:induction false} OneFillMore(b: Broker, c: Broker, rows: seq<IntentRow>, n: nat, k: nat, sec: Id)
    requires k < n <= |rows|
    requires forall j :: 0 <= j < n && j != k ==> BrokerFilled(b, rows[j].intent.corr) == BrokerFilled(c, rows[j].intent.corr)
    ensures var i := rows[k].intent;
            SignedFills(c, rows, n, sec) == SignedFills(b, rows, n, sec)
              + if i.sec == sec then Signed(i.side, BrokerFilled(c, i.corr)) - Signed(i.side, BrokerFilled(b, i.corr)) else 0
  {
    hide BrokerFilled, Signed;
    if k == n - 1 {
      SameFills(b, c, rows, rows, n - 1, sec);
    } else {
      OneFillMore(b, c, rows, n - 1, k, sec);
    }
  }

  lemma {:induction false} NewRowsUnfilled(b: Broker, rows: seq<IntentRow>, n: nat, m: nat, sec: Id)
    requires n <= m <= |rows| && forall k :: n <= k < m ==> BrokerFilled(b, rows[k].intent.corr) == 0
    ensures SignedFills(b, rows, m, sec) == SignedFills(b, rows, n, sec)
  {
    if n < m {
      NewRowsUnfilled(b, rows, n, m - 1, sec);
    }
  }

  /** What the broker fills is what its positions move by. */
  lemma EnvironmentMoves(w: World, e: Event, sec: Id)
    requires Inv(w) && Enabled(w, e) && IsEnvironment(e)
    ensures var c, rows := BrokerNext(w.b, e), w.t.intents;
            Net(c, sec) - SignedFills(c, rows, |rows|, sec) == Net(w.b, sec) - SignedFills(w.b, rows, |rows|, sec)
  {
    hide Inv, BrokerInv, SignedFills;
    InvBroker(w);
    var c, rows := BrokerNext(w.b, e), w.t.intents;
    if e.BrokerFill? {
      TablesOf(w);
      TablesWellFormed(w.t, w.b, w.sent);
      FillMoves(w.t, w.b, w.sent, e, sec);
    } else {
      OnWire(w.t, w.b, w.sent);
      SameFills(w.b, c, rows, rows, |rows|, sec);
    }
  }

  lemma FillMoves(t: Tables, b: Broker, sent: seq<Id>, e: Event, sec: Id)
    requires BrokerInv(t, b, sent) && WellFormed(t) && e.BrokerFill? && e.corr in b.book
    ensures var c, rows := BrokerNext(b, e), t.intents;
            Net(c, sec) - SignedFills(c, rows, |rows|, sec) == Net(b, sec) - SignedFills(b, rows, |rows|, sec)
  {
    hide BrokerInv, WellFormed, SignedFills;
    OnBook(t, b, sent, e.corr);
    TouchedRow(t, b, sent, e.corr);
    var k :| 0 <= k < |t.intents| && t.intents[k].intent == b.book[e.corr].intent;
    OneFillMore(b, BrokerNext(b, e), t.intents, |t.intents|, k, sec);
  }

  lemma OnBook(t: Tables, b: Broker, sent: seq<Id>, corr: Id)
    requires BrokerInv(t, b, sent) && WellFormed(t) && corr in b.book
    ensures corr !in b.wire
    ensures forall j, k :: 0 <= j < |t.intents| && 0 <= k < |t.intents| && j != k && t.intents[k].intent.corr == corr ==>
              t.intents[j].intent.corr != corr
  {}

  lemma OnWire(t: Tables, b: Broker, sent: seq<Id>)
    requires BrokerInv(t, b, sent)
    ensures forall c :: c in b.wire ==> c !in b.book
  {}

  lemma NewRowsOffBook(t: Tables, u: Tables, b: Broker, sent: seq<Id>)
    requires BrokerInv(t, b, sent) && WellFormed(u) && TablesLeq(t, u)
    ensures forall k :: |t.intents| <= k < |u.intents| ==> BrokerFilled(b, u.intents[k].intent.corr) == 0
  {
    forall corr | corr in b.book
      ensures exists m :: 0 <= m < |t.intents| && u.intents[m].intent.corr == corr
    {
      var m :| 0 <= m < |t.intents| && t.intents[m].intent == b.book[corr].intent;
      assert u.intents[m].intent.corr == corr;
    }
  }

  lemma StepMoves(w: World, e: Event, sec: Id)
    requires Inv(w) && Inv(Next(w, e)) && Enabled(w, e)
    ensures Net(Next(w, e).b, sec) - SignedFills(Next(w, e).b, Next(w, e).t.intents, |Next(w, e).t.intents|, sec)
         == Net(w.b, sec) - SignedFills(w.b, w.t.intents, |w.t.intents|, sec)
  {
    hide Inv, Enabled, Next, BrokerNext;
    var v := Next(w, e);
    if IsEnvironment(e) {
      EnvironmentMoves(w, e, sec);
      EnvironmentStep(w, e);
    } else {
      SameBookStep(w, e);
      StepRows(w, e);
      InvBroker(w);
      TablesOf(v);
      TablesWellFormed(v.t, v.b, v.sent);
      NewRowsOffBook(w.t, v.t, w.b, w.sent);
      SameFills(w.b, v.b, w.t.intents, v.t.intents, |w.t.intents|, sec);
      NewRowsUnfilled(v.b, v.t.intents, |w.t.intents|, |v.t.intents|, sec);
    }
  }

  /** Conservation: in every state the broker's position is what it was at the start plus all fills of our intents. */
  lemma {:induction false} PositionIsFills(ws: seq<World>, es: seq<Event>, k: nat, sec: Id)
    requires Run(ws, es) && k < |ws|
    ensures Net(ws[k].b, sec) == Net(ws[0].b, sec) + SignedFills(ws[k].b, ws[k].t.intents, |ws[k].t.intents|, sec)
  {
    hide Inv, Enabled, Next, Init;
    if k == 0 {
      NothingAtStart(ws[0]);
    } else {
      PositionIsFills(ws, es, k - 1, sec);
      RunInv(ws, es, k - 1);
      RunInv(ws, es, k);
      assert Enabled(ws[k - 1], es[k - 1]) && ws[k - 1 + 1] == Next(ws[k - 1], es[k - 1]);
      StepMoves(ws[k - 1], es[k - 1], sec);
    }
  }

  lemma NothingAtStart(w: World)
    requires Init(w)
    ensures w.t.intents == []
  {}

  // ---------- Rows that state their quantity ----------

  /** The row an intent is about to be resolved on states the filled quantity, or says traded, or nothing was filled. */
  ghost predicate Stated(t: Tables, b: Broker, op: Op) {
    op.Settle? && op.report.order.Some? && op.report.order.value in t.orders
      && t.orders[op.report.order.value].status.Done? ==>
        if op.report.filled.Some? then op.report.filled.value >= BrokerFilled(b, op.row.intent.corr)
        else t.orders[op.report.order.value].status == Done(TRADED) || BrokerFilled(b, op.row.intent.corr) == 0
  }

  ghost predicate AllStated(t: Tables, b: Broker, ops: seq<Op>) {
    forall k :: 0 <= k < |ops| && k < |Trail(t, ops)| ==> Stated(Trail(t, ops)[k], b, ops[k])
  }

  ghost predicate BatchStated(w: World, e: Event) {
    Core(e).Apply? && w.p.batch.Resolving? && |w.p.batch.resolved| == |w.p.batch.rows| ==>
      AllStated(w.t, w.b, Program(w.p.batch.rows, w.p.batch.resolved, w.p.batch.trades))
  }

  // ---------- Resolved means complete ----------

  predicate Finished(s: IntentState) { s == Filled || s.Ended? }

  predicate CompleteRow(t: Tables, b: Broker, row: IntentRow) {
    Finished(row.state) ==> FilledQty(t.fills, row.intent.id) >= BrokerFilled(b, row.intent.corr)
  }

  ghost predicate Complete(t: Tables, b: Broker) {
    forall k :: 0 <= k < |t.intents| ==> CompleteRow(t, b, t.intents[k])
  }

  /** Fills only grow and nothing is newly resolved. */
  ghost predicate NothingResolved(t: Tables, u: Tables) {
    && FillsLeq(t.fills, u.fills)
    && forall k :: 0 <= k < |u.intents| && Finished(u.intents[k].state) ==>
         k < |t.intents| && Finished(t.intents[k].state) && u.intents[k].intent == t.intents[k].intent
  }

  lemma NothingResolvedComplete(t: Tables, u: Tables, b: Broker)
    requires Complete(t, b) && NothingResolved(t, u)
    ensures Complete(u, b)
  {
    forall k | 0 <= k < |u.intents|
      ensures CompleteRow(u, b, u.intents[k])
    {
      if Finished(u.intents[k].state) {
        assert CompleteRow(t, b, t.intents[k]);
        QtyGrows(t.fills, u.fills, t.intents[k].intent.id);
      }
    }
  }

  lemma SettledQuantity(t: Tables, b: Broker, op: Op)
    requires op.Settle? && Stated(t, b, op) && ExecOp(t, op).Success? && ExecOp(t, op).value != t
    requires BrokerFilled(b, op.row.intent.corr) <= op.row.intent.qty
    ensures FilledQty(t.fills, op.row.intent.id) >= BrokerFilled(b, op.row.intent.corr)
    ensures exists s :: ExecOp(t, op).value == SetState(t, op.row.intent.id, s)
  {
    hide FilledQty, BrokerFilled;
    var id, status := op.row.intent.id, t.orders[op.report.order.value].status;
    assert ExecOp(t, op).value
        == SetState(t, id, if FilledQty(t.fills, id) == op.row.intent.qty then Filled else Ended(status.how));
  }

  lemma OwnedByRow(t: Tables, b: Broker, sent: seq<Id>, op: Op)
    requires TableInv(t, b, sent) && BrokerInv(t, b, sent) && OpGood(t, b, op)
    ensures forall k :: 0 <= k < |t.intents| && t.intents[k].intent.id == op.row.intent.id ==> t.intents[k].intent == op.row.intent
    ensures op.Settle? ==> BrokerFilled(b, op.row.intent.corr) <= op.row.intent.qty
  {
    hide RowInv, OrderRowInv;
    var m :| 0 <= m < |t.intents| && t.intents[m].intent == op.row.intent;
    forall k | 0 <= k < |t.intents| && t.intents[k].intent.id == op.row.intent.id
      ensures t.intents[k].intent == op.row.intent
    {
      assert k == m;
    }
    if op.Settle? {
      var o := b.book[op.row.intent.corr];
      var n :| 0 <= n < |t.intents| && t.intents[n].intent == o.intent;
      assert n == m;
    }
  }

  lemma SettleComplete(t: Tables, b: Broker, sent: seq<Id>, op: Op)
    requires TableInv(t, b, sent) && BrokerInv(t, b, sent) && OpGood(t, b, op) && op.Settle?
    requires Complete(t, b) && Stated(t, b, op) && ExecOp(t, op).Success?
    ensures Complete(ExecOp(t, op).value, b)
  {
    hide TableInv, BrokerInv, OpGood, Stated, ExecOp, FilledQty;
    var u := ExecOp(t, op).value;
    if u != t {
      OwnedByRow(t, b, sent, op);
      SettledQuantity(t, b, op);
      forall k | 0 <= k < |u.intents|
        ensures CompleteRow(u, b, u.intents[k])
      {
        assert CompleteRow(t, b, t.intents[k]);
      }
    }
  }

  lemma OtherOpsResolveNothing(t: Tables, op: Op)
    requires !op.Settle? && ExecOp(t, op).Success?
    ensures NothingResolved(t, ExecOp(t, op).value)
  {}

  lemma OpComplete(t: Tables, b: Broker, sent: seq<Id>, op: Op)
    requires TableInv(t, b, sent) && BrokerInv(t, b, sent) && OpGood(t, b, op)
    requires Complete(t, b) && Stated(t, b, op) && ExecOp(t, op).Success?
    ensures Complete(ExecOp(t, op).value, b)
  {
    hide TableInv, BrokerInv, OpGood, Complete, Stated, NothingResolved, ExecOp;
    if op.Settle? {
      SettleComplete(t, b, sent, op);
    } else {
      OtherOpsResolveNothing(t, op);
      NothingResolvedComplete(t, ExecOp(t, op).value, b);
    }
  }

  lemma {:induction false} TrailComplete(t: Tables, b: Broker, sent: seq<Id>, ops: seq<Op>)
    requires TableInv(t, b, sent) && BrokerInv(t, b, sent) && OpsGood(t, b, ops)
    requires Complete(t, b) && AllStated(t, b, ops)
    ensures forall k :: 0 <= k < |Trail(t, ops)| ==> Complete(Trail(t, ops)[k], b)
    decreases |ops|
  {
    hide TableInv, BrokerInv, OpGood, Complete, Stated, ExecOp;
    if ops != [] && ExecOp(t, ops[0]).Success? {
      var u, rest := ExecOp(t, ops[0]).value, ops[1..];
      assert OpGood(t, b, ops[0]) && Stated(Trail(t, ops)[0], b, ops[0]);
      OpComplete(t, b, sent, ops[0]);
      OpKeeps(t, b, sent, ops[0]);
      BrokerInvPersists(t, u, b, sent);
      OpsStayGood(t, u, b, ops);
      forall k | 0 <= k < |rest| && k < |Trail(u, rest)|
        ensures Stated(Trail(u, rest)[k], b, rest[k])
      {
        assert Trail(t, ops)[k + 1] == Trail(u, rest)[k];
        assert Stated(Trail(t, ops)[k + 1], b, ops[k + 1]);
      }
      TrailComplete(u, b, sent, rest);
    }
  }

  lemma DispatchResolvesNothing(t: Tables, i: Intent, reserved: real, attempt: Id, rateOk: bool)
    ensures forall k :: 0 <= k < |DispatchTrail(t, i, reserved, attempt, rateOk)| ==>
              NothingResolved(t, DispatchTrail(t, i, reserved, attempt, rateOk)[k])
  {}

  lemma AnswerResolvesNothing(t: Tables, i: Intent, attempt: Id, response: Option<Report>)
    ensures forall k :: 0 <= k < |AnswerTrail(t, i, attempt, response)| ==>
              NothingResolved(t, AnswerTrail(t, i, attempt, response)[k])
  {}

  lemma OtherCommitsResolveNothing(w: World, e: Event)
    requires Enabled(w, e) && !e.Apply? && !e.CrashDuring?
    ensures forall k :: 0 <= k < |Commits(w, e)| ==> NothingResolved(w.t, Commits(w, e)[k])
  {
    hide Trail, Program, DispatchTrail, AnswerTrail;
    match e
    case SubmitBuy(i, reserved, attempt, rateOk) => DispatchResolvesNothing(w.t, i, reserved, attempt, rateOk);
    case SellDispatch(attempt, rateOk) =>
      DispatchResolvesNothing(w.t, w.p.submit.i, w.p.submit.reserved, attempt, rateOk);
    case PostAnswered(response) => AnswerResolvesNothing(w.t, w.p.submit.i, w.p.submit.attempt, response);
    case _ =>
  }

  lemma CommitsComplete(w: World, e: Event)
    requires Inv(w) && Enabled(w, e) && !e.CrashDuring? && Complete(w.t, w.b) && BatchStated(w, e)
    ensures forall k :: 0 <= k < |Commits(w, e)| ==> Complete(Commits(w, e)[k], w.b)
  {
    hide TableInv, BrokerInv, Complete, NothingResolved, Covered;
    if e.Apply? {
      hide Program, AllStated, OpsGood;
      ProgramGood(w.t, w.b, w.p.batch.rows, w.p.batch.resolved, w.p.batch.trades);
      TrailComplete(w.t, w.b, w.sent, Program(w.p.batch.rows, w.p.batch.resolved, w.p.batch.trades));
    } else {
      OtherCommitsResolveNothing(w, e);
      forall k | 0 <= k < |Commits(w, e)|
        ensures Complete(Commits(w, e)[k], w.b)
      {
        NothingResolvedComplete(w.t, Commits(w, e)[k], w.b);
      }
    }
  }

  // ---------- Over runs ----------

  /** Trades are read as they happened, and rows state what they resolve on. */
  ghost predicate HonestRun(ws: seq<World>, es: seq<Event>) {
    && Run(ws, es) && HonestReads(ws, es)
    && (forall k :: 0 <= k < |es| ==> BatchStated(ws[k], es[k]))
  }

  /** A dead order keeps what it filled. */
  lemma CompleteUnderBroker(t: Tables, b: Broker, c: Broker, sent: seq<Id>)
    requires TableInv(t, b, sent) && Complete(t, b) && BrokerLeq(b, c)
    ensures Complete(t, c)
  {
    forall k | 0 <= k < |t.intents|
      ensures CompleteRow(t, c, t.intents[k])
    {
      assert RowInv(t, b, sent, t.intents[k]) && CompleteRow(t, b, t.intents[k]);
    }
  }

  lemma StepBroker(w: World, e: Event)
    requires Inv(w) && Enabled(w, e)
    ensures BrokerLeq(w.b, Next(w, e).b) && (Next(w, e).b.book == w.b.book || Next(w, e).t == w.t)
  {
    hide Inv, Next, BrokerNext, BrokerInv;
    if IsEnvironment(e) {
      InvBroker(w);
      EnvironmentBroker(w.t, w.b, w.sent, w, e);
      EnvironmentStep(w, e);
    } else {
      SameBookStep(w, e);
    }
  }

  lemma InvBroker(w: World)
    requires Inv(w)
    ensures BrokerInv(w.t, w.b, w.sent)
  {}

  lemma EnvironmentStep(w: World, e: Event)
    requires IsEnvironment(e)
    ensures Next(w, e).t == w.t && Next(w, e).b == BrokerNext(w.b, e)
  {}

  lemma StepComplete(w: World, e: Event)
    requires Inv(w) && Enabled(w, e) && Complete(w.t, w.b) && BatchStated(w, e)
    ensures Complete(Next(w, e).t, Next(w, e).b)
  {
    hide Inv, Enabled, Next, Commits, Complete, BatchStated, TableInv;
    StepBroker(w, e);
    TablesOf(w);
    if Next(w, e).t == w.t {
      CompleteUnderBroker(w.t, w.b, Next(w, e).b, w.sent);
    } else {
      var k := StepTables(w, e);
      SameBatch(w, e);
      CommitsComplete(w, Core(e));
      SameBook(Next(w, e).t, w.b, Next(w, e).b);
    }
  }

  lemma TablesOf(w: World)
    requires Inv(w)
    ensures TableInv(w.t, w.b, w.sent)
  {}

  lemma SameBatch(w: World, e: Event)
    requires BatchStated(w, e) && !Core(e).CrashDuring?
    ensures BatchStated(w, Core(e))
  {
    hide AllStated;
  }

  lemma SameBook(t: Tables, b: Broker, c: Broker)
    requires Complete(t, b) && c.book == b.book
    ensures Complete(t, c)
  {}

  lemma {:induction false} AlwaysComplete(ws: seq<World>, es: seq<Event>, k: nat)
    requires HonestRun(ws, es) && k < |ws|
    ensures Complete(ws[k].t, ws[k].b)
  {
    hide Inv, Enabled, Next, BatchStated, HonestReads;
    if k == 0 {
      assert Init(ws[0]);
    } else {
      AlwaysComplete(ws, es, k - 1);
      RunInv(ws, es, k - 1);
      assert BatchStated(ws[k - 1], es[k - 1]) && Enabled(ws[k - 1], es[k - 1]) && ws[k - 1 + 1] == Next(ws[k - 1], es[k - 1]);
      StepComplete(ws[k - 1], es[k - 1]);
    }
  }

  /** Every resolved intent has exactly the broker's fills recorded: none is missing and none invented. */
  lemma ResolvedIsExact(ws: seq<World>, es: seq<Event>, k: nat, r: nat)
    requires HonestRun(ws, es) && k < |ws| && r < |ws[k].t.intents| && Resolved(ws[k].t.intents[r].state)
    ensures FilledQty(ws[k].t.fills, ws[k].t.intents[r].intent.id) == BrokerFilled(ws[k].b, ws[k].t.intents[r].intent.corr)
  {
    hide Enabled, Next, BatchStated, HonestReads;
    AlwaysComplete(ws, es, k);
    RunInv(ws, es, k);
    RecordedIsReal(ws, es, k);
    if ws[k].t.intents[r].state == Aborted {
      AbortedNeverPosted(ws, es, k, k, r);
      UnsentUnfilled(ws[k], ws[k].t.intents[r].intent.corr);
    }
    assert CompleteRow(ws[k].t, ws[k].b, ws[k].t.intents[r]);
    hide Inv;
  }

  lemma UnsentUnfilled(w: World, corr: Id)
    requires Inv(w) && corr !in w.sent
    ensures BrokerFilled(w.b, corr) == 0
  {}

  lemma ResolvedIsDead(w: World, e: Event, r: nat)
    requires Inv(w) && Enabled(w, e) && r < |w.t.intents| && Resolved(w.t.intents[r].state)
    ensures w.t.intents[r].state != Aborted ==>
              BrokerFilled(Next(w, e).b, w.t.intents[r].intent.corr) == BrokerFilled(w.b, w.t.intents[r].intent.corr)
  {
    StepBroker(w, e);
    assert RowInv(w.t, w.b, w.sent, w.t.intents[r]);
  }

  /** So no fill of a resolved intent is ever recorded late. */
  lemma HonestMeansNoLateFills(ws: seq<World>, es: seq<Event>, k: nat)
    requires HonestRun(ws, es) && k < |es|
    ensures NoLateFills(ws[k].t, ws[k + 1].t)
  {
    hide Inv, BatchStated, HonestReads, Next, Enabled;
    RunInv(ws, es, k);
    RunInv(ws, es, k + 1);
    StepRows(ws[k], es[k]);
    StepKeepsSettled(ws[k], es[k]);
    forall r | 0 <= r < |ws[k].t.intents| && Resolved(ws[k].t.intents[r].state)
      ensures FilledQty(ws[k + 1].t.fills, ws[k].t.intents[r].intent.id) == FilledQty(ws[k].t.fills, ws[k].t.intents[r].intent.id)
    {
      ResolvedIsExact(ws, es, k, r);
      ResolvedIsExact(ws, es, k + 1, r);
      if ws[k].t.intents[r].state == Aborted {
        AbortedNeverPosted(ws, es, k, k, r);
        AbortedNeverPosted(ws, es, k, k + 1, r);
        UnsentUnfilled(ws[k], ws[k].t.intents[r].intent.corr);
        UnsentUnfilled(ws[k + 1], ws[k].t.intents[r].intent.corr);
      } else {
        ResolvedIsDead(ws[k], es[k], r);
      }
    }
  }

  // ---------- The capital limits, with assumptions on the broker only ----------

  /** The exchange fills a buy at or under its limit. */
  predicate FairPrice(w: World, e: Event) {
    e.BrokerFill? && e.corr in w.b.book && w.b.book[e.corr].intent.side == BUY ==> 0.0 <= e.price <= w.b.book[e.corr].intent.limit
  }

  ghost predicate FairTrades(b: Broker) {
    forall c, x :: c in b.book && b.book[c].intent.side == BUY && x in b.book[c].trades ==> 0.0 <= x.price <= b.book[c].intent.limit
  }

  ghost predicate FairPrices(ws: seq<World>, es: seq<Event>)
    requires |ws| >= |es|
  {
    forall k :: 0 <= k < |es| ==> FairPrice(ws[k], es[k])
  }

  lemma EnvironmentFair(w: World, e: Event)
    requires FairTrades(w.b) && FairPrice(w, e) && IsEnvironment(e)
    ensures FairTrades(BrokerNext(w.b, e))
  {}

  lemma StepFair(w: World, e: Event)
    requires FairTrades(w.b) && FairPrice(w, e)
    ensures FairTrades(Next(w, e).b)
  {
    hide Next, BrokerNext;
    if IsEnvironment(e) {
      EnvironmentFair(w, e);
      EnvironmentStep(w, e);
    } else {
      SameBookStep(w, e);
    }
  }

  lemma {:induction false} AlwaysFair(ws: seq<World>, es: seq<Event>, k: nat)
    requires Run(ws, es) && k < |ws| && FairPrices(ws, es)
    ensures FairTrades(ws[k].b)
  {
    hide Enabled, Next, FairPrice;
    if k == 0 {
      assert Init(ws[0]);
    } else {
      AlwaysFair(ws, es, k - 1);
      assert FairPrice(ws[k - 1], es[k - 1]) && ws[k - 1 + 1] == Next(ws[k - 1], es[k - 1]);
      StepFair(ws[k - 1], es[k - 1]);
    }
  }

  /** So recorded fills of buys are at or under their limits. */
  lemma RecordedIsFair(ws: seq<World>, es: seq<Event>, n: nat)
    requires Run(ws, es) && n < |ws| && HonestReads(ws, es) && FairPrices(ws, es)
    ensures FairFills(ws[n].t)
  {
    hide Run, Inv, HonestReads, FairPrices, AllReal, AllCounted;
    AlwaysReal(ws, es, n);
    AlwaysFair(ws, es, n);
    RunInv(ws, es, n);
    var t := ws[n].t;
    forall j, k | 0 <= j < |t.fills| && 0 <= k < |t.intents|
                  && t.fills[j].intent == t.intents[k].intent.id && t.intents[k].intent.side == BUY
      ensures 0.0 <= t.fills[j].fill.price <= t.intents[k].intent.limit
    {
      FillsOfIntent(ws[n], k, j);
      assert Execution(t.fills[j].fill.trade, t.fills[j].fill.qty, t.fills[j].fill.price).price == t.fills[j].fill.price;
    }
  }

  /** Managed entries as the code admits them; fills at or under the limit, fees inside the envelope, honest reports. */
  ghost predicate HonestCodeRun(ws: seq<World>, es: seq<Event>, bank: Id -> real, cap: Option<real>, views: seq<View>) {
    && HonestRun(ws, es) && |views| == |es| && FairPrices(ws, es)
    && (forall k :: 0 <= k < |ws| ==> FeesWithin(ws[k].t))
    && (forall k :: 0 <= k < |es| ==> EntryByCode(ws, es, k, views[k], bank, cap))
  }

  lemma HonestIsCodeRun(ws: seq<World>, es: seq<Event>, bank: Id -> real, cap: Option<real>, views: seq<View>)
    requires HonestCodeRun(ws, es, bank, cap, views)
    ensures CodeRun(ws, es, bank, cap, views)
  {
    hide Enabled, Next, Init, EntryByCode, HonestReads, FairPrices, FairFills, FeesWithin, BatchStated, NoLateFills;
    forall k | 0 <= k < |ws|
      ensures FairFills(ws[k].t)
    {
      RecordedIsFair(ws, es, k);
    }
    forall k | 0 <= k < |es|
      ensures NoLateFills(ws[k].t, ws[k + 1].t)
    {
      HonestMeansNoLateFills(ws, es, k);
    }
  }

  /**
   However many adds, partial fills, partial exits, crashes and retries a run contains, entry debit plus
   reserved of a lifecycle never exceeds the ceiling of its frozen bankroll.
   */
  lemma CeilingAlwaysHolds(ws: seq<World>, es: seq<Event>, bank: Id -> real, cap: Option<real>, views: seq<View>, l: Id, k: nat)
    requires HonestCodeRun(ws, es, bank, cap, views) && k < |ws| && l != ROUTE_PROBE
    ensures var totals := RowTotals(ws[k].t, |ws[k].t.intents|, l);
            totals.debit + totals.reserved <= LifecycleCeiling(bank(l))
  {
    hide HonestCodeRun, CodeRun, RowTotals, LifecycleCeiling;
    HonestIsCodeRun(ws, es, bank, cap, views);
    CeilingHolds(ws, es, bank, cap, views, l, k);
  }

  /** Under mandate scope, the totals of all managed lifecycles together never exceed the cumulative cap. */
  lemma MandateCapAlwaysHolds(ws: seq<World>, es: seq<Event>, bank: Id -> real, cap: real, views: seq<View>, k: nat,
                              table: seq<Id>)
    requires HonestCodeRun(ws, es, bank, Some(cap), views) && k < |ws| && cap >= 0.0
    requires Distinct(table) && ROUTE_PROBE !in table
    requires forall r :: 0 <= r < |ws[k].t.intents| && ws[k].t.intents[r].intent.lifecycle != ROUTE_PROBE ==>
               ws[k].t.intents[r].intent.lifecycle in table
    ensures CommittedSum(ws[k].t, |ws[k].t.intents|, table) <= cap
  {
    hide HonestCodeRun, CodeRun, CommittedSum;
    HonestIsCodeRun(ws, es, bank, Some(cap), views);
    MandateCapHolds(ws, es, bank, cap, views, k, table);
  }

  // ---------- Exactly when a terminal row is safe to resolve on ----------

  /** The test of a settlement, on the quantity recorded so far. */
  predicate Resolves(qty: nat, r: Report, status: OrderStatus, filled: nat) {
    status.Done? && Expected(qty, r, status, filled) <= filled <= qty
  }

  /** It is what decides whether a settlement resolves its intent. */
  lemma SettlementResolves(t: Tables, row: IntentRow, r: Report, k: nat)
    requires ExecOp(t, Settle(row, r)).Success? && k < |t.intents|
    requires t.intents[k].intent.id == row.intent.id && !Resolved(t.intents[k].state) && t.intents[k].state != Ended(TRADED)
    ensures ExecOp(t, Settle(row, r)).value.intents[k].state != t.intents[k].state <==>
            Resolves(row.intent.qty, r, t.orders[r.order.value].status, FilledQty(t.fills, row.intent.id))
  {
    hide FilledQty, ExecOp;
    SettleResult(t, row, r);
    OpenStates(t.intents[k].state);
    assert ExecOp(t, Settle(row, r)).value.intents[k] ==
      if Resolves(row.intent.qty, r, t.orders[r.order.value].status, FilledQty(t.fills, row.intent.id))
      then t.intents[k].(state := if FilledQty(t.fills, row.intent.id) == row.intent.qty then Filled
                                  else Ended(t.orders[r.order.value].status.how))
      else t.intents[k];
  }

  lemma OpenStates(s: IntentState)
    requires !Resolved(s) && s != Ended(TRADED)
    ensures s != Filled && !s.Ended?
  {
    if s.Ended? {
      match s.how
      case TRADED =>
      case CANCELLED =>
      case REJECTED =>
      case EXPIRED =>
    }
  }

  lemma {:induction false} TradedInFull(ws: seq<World>, es: seq<Event>, k: nat, corr: Id)
    requires Run(ws, es) && k < |ws| && corr in ws[k].b.book && ws[k].b.book[corr].status == Done(TRADED)
    ensures ws[k].b.book[corr].filled == ws[k].b.book[corr].intent.qty
  {
    hide Next, Commits;
    if k > 0 {
      var w, e := ws[k - 1], es[k - 1];
      assert Enabled(w, e) && ws[k - 1 + 1] == Next(w, e);
      if IsEnvironment(e) {
        EnvironmentStep(w, e);
      } else {
        SameBookStep(w, e);
      }
      if corr in w.b.book && w.b.book[corr].status == Done(TRADED) {
        TradedInFull(ws, es, k - 1, corr);
      }
    }
  }

  /**
   A true terminal row only ever resolves its order on the broker's exact quantity, whatever part of it has
   been recorded, if and only if it states the filled quantity, or says traded, or nothing was filled.
   */
  lemma ExactIffStated(ws: seq<World>, es: seq<Event>, k: nat, corr: Id, r: Report)
    requires Run(ws, es) && k < |ws| && Truthful(ws[k].b, corr, r) && r.status.Done?
    ensures (forall q: nat :: q <= BrokerFilled(ws[k].b, corr) && Resolves(ws[k].b.book[corr].intent.qty, r, r.status, q) ==>
               q == BrokerFilled(ws[k].b, corr))
            <==> r.filled.Some? || r.status == Done(TRADED) || BrokerFilled(ws[k].b, corr) == 0
  {
    hide Inv, Run;
    RunInv(ws, es, k);
    InvBroker(ws[k]);
    if r.status == Done(TRADED) {
      TradedInFull(ws, es, k, corr);
    }
    assert r.filled.None? && r.status != Done(TRADED) ==> Resolves(ws[k].b.book[corr].intent.qty, r, r.status, 0);
  }

  /**
   On any tables: a terminal row, not traded, without a filled quantity resolves its intent on whatever fills
   happen to be recorded, and a later trade report is still taken, on a released reservation.
   */
  lemma UnstatedRowResolvesEarly(t: Tables, n: nat, r: Report, how: Ending, late: Fill)
    requires WellFormed(t) && n < |t.intents| && how != TRADED
    requires r.order.Some? && r.order.value in t.orders && t.orders[r.order.value].status == Done(how) && r.filled.None?
    requires FillAt(t.fills, late.order, late.trade).None? && late.sec == t.intents[n].intent.sec && late.qty > 0
    requires FilledQty(t.fills, t.intents[n].intent.id) + late.qty <= t.intents[n].intent.qty
    ensures var id := t.intents[n].intent.id;
            var u := ExecOp(t, Settle(t.intents[n], r));
            && u.Success? && Resolved(u.value.intents[n].state)
            && var v := RecordFillOnce(u.value, late, id);
               && v.Success? && Resolved(v.value.intents[n].state)
               && FilledQty(v.value.fills, id) == FilledQty(t.fills, id) + late.qty
  {
    var id := t.intents[n].intent.id;
    var u := ExecOp(t, Settle(t.intents[n], r)).value;
    assert u == SetState(t, id, Ended(how));
    assert IntentAt(u.intents, id).value == n;
    FilledQtyAppend(t.fills, FillRow(late, id, false), id);
  }
}
