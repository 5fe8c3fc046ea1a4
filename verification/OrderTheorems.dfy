/** The order protocol's guarantees over every run: crashes, lost responses and interleavings included. */
module OrderTheorems {
  import opened Wrappers
  import opened Ledger
  import opened Orders
  import opened OrderSafety

  lemma RunExtends(vs: seq<World>, ds: seq<Event>, e: Event)
    requires Run(vs, ds) && Enabled(vs[|ds|], e)
    ensures Run(vs + [Next(vs[|ds|], e)], ds + [e])
  {
    hide Enabled, Next, Init;
    var ws, es := vs + [Next(vs[|ds|], e)], ds + [e];
    forall k | 0 <= k < |es|
      ensures Enabled(ws[k], es[k]) && ws[k + 1] == Next(ws[k], es[k])
    {
      if k < |ds| {
        assert Enabled(vs[k], ds[k]) && vs[k + 1] == Next(vs[k], ds[k]);
      }
    }
  }

  lemma RunLength(ws: seq<World>, es: seq<Event>)
    requires Run(ws, es)
    ensures |ws| == |es| + 1
  {}

  /** In every reachable state the broker holds enough to cover every sale it may still execute. */
  lemma NoOversell(ws: seq<World>, es: seq<Event>, k: nat, sec: Id)
    requires Run(ws, es) && k < |ws|
    ensures 0 <= LiveSales(ws[k].b, ws[k].t.intents, |ws[k].t.intents|, sec) <= Net(ws[k].b, sec)
  {
    RunInv(ws, es, k);
    assert Slack(ws[k].t, ws[k].b, sec) >= 0;
  }

  /** Recorded fills of an intent never exceed its quantity, whatever trades were reported. */
  lemma NeverOverfilled(ws: seq<World>, es: seq<Event>, k: nat, r: nat)
    requires Run(ws, es) && k < |ws| && r < |ws[k].t.intents|
    ensures FilledQty(ws[k].t.fills, ws[k].t.intents[r].intent.id) <= ws[k].t.intents[r].intent.qty
  {
    RunInv(ws, es, k);
  }

  // ---------- At most one POST ----------

  lemma StepSent(w: World, e: Event)
    ensures Next(w, e).sent == if Request(w, e).Some? then w.sent + [Request(w, e).value.0.corr] else w.sent
  {}

  /** The event whose commits a step makes durable. */
  function Core(e: Event): Event { if e.CrashDuring? then e.during else e }

  /** A step's tables are among the commits of its event, or the old ones. */
  lemma StepTables(w: World, e: Event) returns (k: nat)
    requires Enabled(w, e)
    ensures Enabled(w, Core(e)) && !Core(e).CrashDuring?
    ensures k < |Commits(w, Core(e))| && Next(w, e).t == Commits(w, Core(e))[k]
  {
    k := if e.CrashDuring? then e.commits else |Commits(w, e)| - 1;
  }

  lemma StepRows(w: World, e: Event)
    requires Inv(w) && Enabled(w, e)
    ensures TablesLeq(w.t, Next(w, e).t)
  {
    hide Inv, Enabled, Next, Commits, TablesLeq;
    var k := StepTables(w, e);
    CommitsKeep(w, Core(e));
  }

  lemma {:induction false} RowsForever(ws: seq<World>, es: seq<Event>, j: nat, k: nat)
    requires Run(ws, es) && j <= k < |ws|
    ensures TablesLeq(ws[j].t, ws[k].t)
  {
    hide Enabled, Next, Init, Inv;
    if j < k {
      RowsForever(ws, es, j, k - 1);
      RunInv(ws, es, k - 1);
      StepRows(ws[k - 1], es[k - 1]);
      LeqTransitive(ws[j].t, ws[k - 1].t, ws[k].t);
    } else {
      LeqReflexive(ws[j].t);
    }
  }

  ghost predicate CommittedUnknown(t: Tables, i: Intent) {
    exists r :: 0 <= r < |t.intents| && t.intents[r].intent == i && t.intents[r].state == SendUnknown
  }

  /** At the moment of a POST its intent is committed as an unknown send, and its attempt as started. */
  lemma PostIsWriteAhead(ws: seq<World>, es: seq<Event>, k: nat)
    requires Run(ws, es) && k < |es| && Request(ws[k], es[k]).Some?
    ensures var i, attempt := Request(ws[k], es[k]).value.0, Request(ws[k], es[k]).value.1;
            && i.corr !in ws[k].sent
            && attempt in ws[k + 1].t.attempts && ws[k + 1].t.attempts[attempt] == AttemptRow(i.id, STARTED)
            && CommittedUnknown(ws[k + 1].t, i)
  {
    RunInv(ws, es, k);
    var w, e := ws[k], es[k];
    assert Enabled(w, e) && ws[k + 1] == Next(w, e);
    var i, attempt := Request(w, e).value.0, Request(w, e).value.1;
    var reserved := if e.SubmitBuy? then e.reserved else w.p.submit.reserved;
    CreateKeeps(w.t, w.b, w.sent, i, reserved);
    var u := CreateIntent(w.t, i, reserved).value;
    assert ws[k + 1].t == RecordAttempt(u, attempt, i.id, STARTED);
    assert ws[k + 1].t.intents[|w.t.intents|].intent == i;
  }

  lemma {:induction false} SentForever(ws: seq<World>, es: seq<Event>, j: nat, k: nat)
    requires Run(ws, es) && j <= k < |ws|
    ensures ws[j].sent <= ws[k].sent
  {
    hide Enabled, Next, Init;
    if j < k {
      SentForever(ws, es, j, k - 1);
      StepSent(ws[k - 1], es[k - 1]);
    }
  }

  lemma NewToTables(w: World, e: Event)
    requires Request(w, e).Some?
    ensures !HasIntent(w.t, Request(w, e).value.0.id)
  {}

  /** No two POSTs of a run carry the same correlation id or the same intent. */
  lemma PostsAreUnique(ws: seq<World>, es: seq<Event>, j: nat, k: nat)
    requires Run(ws, es) && j < k < |es|
    requires Request(ws[j], es[j]).Some? && Request(ws[k], es[k]).Some?
    ensures var first, second := Request(ws[j], es[j]).value.0, Request(ws[k], es[k]).value.0;
            first.corr != second.corr && first.id != second.id
  {
    hide Enabled, Next, Init, Inv;
    PostIsWriteAhead(ws, es, j);
    PostIsWriteAhead(ws, es, k);
    StepSent(ws[j], es[j]);
    SentForever(ws, es, j + 1, k);
    RowsForever(ws, es, j + 1, k);
    var i := Request(ws[j], es[j]).value.0;
    var q := Request(ws[k], es[k]).value.0;
    assert ws[j + 1].sent[|ws[j].sent|] == i.corr;
    assert i.corr in ws[k].sent;
    var r :| 0 <= r < |ws[j + 1].t.intents| && ws[j + 1].t.intents[r].intent == i;
    assert ws[k].t.intents[r].intent == i;
    NewToTables(ws[k], es[k]);
    assert HasIntent(ws[k].t, i.id);
  }

  /** Everything on the wire or in the broker's book was posted exactly once and has its rows. */
  lemma BrokerOrdersAreOurs(ws: seq<World>, es: seq<Event>, k: nat, corr: Id)
    requires Run(ws, es) && k < |ws| && (corr in ws[k].b.wire || corr in ws[k].b.book)
    ensures multiset(ws[k].sent)[corr] == 1
    ensures exists r :: 0 <= r < |ws[k].t.intents| && ws[k].t.intents[r].intent.corr == corr
                        && HasAttempt(ws[k].t, ws[k].t.intents[r].intent.id)
  {
    RunInv(ws, es, k);
    var w := ws[k];
    assert corr in w.sent;
    DistinctCountsOnce(w.sent, corr);
    var r :| 0 <= r < |w.t.intents| && w.t.intents[r].intent.corr == corr;
    assert RowInv(w.t, w.b, w.sent, w.t.intents[r]);
  }

  lemma {:induction false} DistinctCountsOnce(ids: seq<Id>, c: Id)
    requires Distinct(ids)
    ensures multiset(ids)[c] == if c in ids then 1 else 0
  {
    if ids != [] {
      var rest := ids[..|ids| - 1];
      DistinctCountsOnce(rest, c);
      assert ids == rest + [ids[|ids| - 1]];
    }
  }

  lemma AbortedNotSent(w: World, r: nat)
    requires Inv(w) && r < |w.t.intents| && w.t.intents[r].state == Aborted
    ensures w.t.intents[r].intent.corr !in w.sent
  {
    assert RowInv(w.t, w.b, w.sent, w.t.intents[r]);
  }

  /** An aborted intent was never posted, and never will be. */
  lemma {:induction false} AbortedNeverPosted(ws: seq<World>, es: seq<Event>, j: nat, k: nat, r: nat)
    requires Run(ws, es) && j <= k < |ws| && r < |ws[j].t.intents| && ws[j].t.intents[r].state == Aborted
    ensures ws[j].t.intents[r].intent.corr !in ws[k].sent
  {
    hide Enabled, Next, Init, Inv;
    var corr := ws[j].t.intents[r].intent.corr;
    if j == k {
      RunInv(ws, es, j);
      AbortedNotSent(ws[j], r);
    } else {
      AbortedNeverPosted(ws, es, j, k - 1, r);
      RowsForever(ws, es, j, k - 1);
      assert HasCorr(ws[k - 1].t, corr) by {
        assert ws[k - 1].t.intents[r].intent.corr == corr;
      }
      KnownNotPosted(ws[k - 1], es[k - 1], corr);
    }
  }

  /** A correlation id already in the tables cannot be posted by a new submit. */
  lemma KnownNotPosted(w: World, e: Event, corr: Id)
    requires HasCorr(w.t, corr) && corr !in w.sent
    ensures corr !in Next(w, e).sent
  {
    StepSent(w, e);
  }

  // ---------- What ends an unknown send ----------

  /** A posted intent stops being pending only on terminal broker evidence, or on a complete reset receipt. */
  lemma PostedStopsPending(ws: seq<World>, es: seq<Event>, k: nat, r: nat)
    requires Run(ws, es) && k < |ws| && r < |ws[k].t.intents|
    requires ws[k].t.intents[r].intent.corr in ws[k].sent && !Pending(ws[k].t, ws[k].t.intents[r])
    ensures var row := ws[k].t.intents[r];
            || (BrokerDead(ws[k].b, row.intent.corr) && (row.state == Filled || row.state.Ended?))
            || (row.state == RecoveryClosed && row.intent.lifecycle == ROUTE_PROBE && row.intent.id in ws[k].t.receipts
                && !HasOrder(ws[k].t, row.intent.id) && !HasFill(ws[k].t, row.intent.id))
  {
    hide Inv, Enabled, Next, Init, RowInv, HasOrder, HasFill;
    RunInv(ws, es, k);
    RowOf(ws[k], r);
    PostedRowEnds(ws[k].t, ws[k].b, ws[k].sent, ws[k].t.intents[r]);
  }

  lemma RowOf(w: World, r: nat)
    requires Inv(w) && r < |w.t.intents|
    ensures RowInv(w.t, w.b, w.sent, w.t.intents[r])
  {
    hide RowInv;
  }

  lemma PostedRowEnds(t: Tables, b: Broker, sent: seq<Id>, row: IntentRow)
    requires RowInv(t, b, sent, row) && row.intent.corr in sent && !Pending(t, row)
    ensures (BrokerDead(b, row.intent.corr) && (row.state == Filled || row.state.Ended?)) || RecoveryClosedValid(t, row)
  {
    hide HasOrder, HasFill, HasAttempt, FilledQty;
  }

  /** Any order row recorded for a reset probe makes it pending again. */
  lemma LateOrderReopens(t: Tables, order: Id, r: nat, report: Report)
    requires r < |t.intents| && t.intents[r].state == RecoveryClosed
    requires RecordOrder(t, order, t.intents[r].intent.id, report.status, report).Success?
    ensures var u := RecordOrder(t, order, t.intents[r].intent.id, report.status, report).value;
            Pending(u, u.intents[r])
  {
    var u := RecordOrder(t, order, t.intents[r].intent.id, report.status, report).value;
    assert order in u.orders && u.orders[order].intent == t.intents[r].intent.id;
    assert HasOrder(u, t.intents[r].intent.id);
  }

  /** So does any new fill row. */
  lemma LateFillReopens(t: Tables, f: Fill, r: nat)
    requires r < |t.intents| && t.intents[r].state == RecoveryClosed
    requires FillAt(t.fills, f.order, f.trade).None? && RecordFillOnce(t, f, t.intents[r].intent.id).Success?
    ensures var u := RecordFillOnce(t, f, t.intents[r].intent.id).value;
            Pending(u, u.intents[r]) && u.intents[r].state == Sent
  {}

  // ---------- Resolution is final ----------

  /** Filled rows stay filled and resolved rows stay resolved. */
  ghost predicate StaySettled(t: Tables, u: Tables) {
    && |t.intents| <= |u.intents|
    && forall k :: 0 <= k < |t.intents| ==>
         (t.intents[k].state == Filled ==> u.intents[k].state == Filled)
         && (Resolved(t.intents[k].state) ==> Resolved(u.intents[k].state))
  }

  predicate DoneRow(t: Tables, r: Report) {
    r.order.Some? && r.order.value in t.orders && t.orders[r.order.value].status.Done?
  }

  /** What a resolved row says about its own intent when an op of that intent is executed. */
  ghost predicate SettledFacts(t: Tables, op: Op, s: IntentState) {
    && (s == Filled ==> HasAttempt(t, op.row.intent.id) && FilledQty(t.fills, op.row.intent.id) == op.row.intent.qty)
    && (op.Settle? ==> s != Aborted)
    && (op.Settle? && s.Ended? && DoneRow(t, op.report) ==> t.orders[op.report.order.value].status == Done(s.how))
  }

  lemma FactsOfResolved(t: Tables, b: Broker, sent: seq<Id>, op: Op, k: nat)
    requires TableInv(t, b, sent) && BrokerInv(t, b, sent) && OpGood(t, b, op)
    requires k < |t.intents| && Resolved(t.intents[k].state) && t.intents[k].intent.id == op.row.intent.id
    ensures SettledFacts(t, op, t.intents[k].state)
  {
    assert RowInv(t, b, sent, t.intents[k]);
    var m :| 0 <= m < |t.intents| && t.intents[m].intent == op.row.intent;
    assert m == k;
    if op.Settle? && DoneRow(t, op.report) {
      SettledIsDead(t, b, sent, op.row.intent, op.report);
    }
  }

  /** The tables alone: an op leaves settled rows settled if the facts about its own row hold. */
  lemma SettledUnderOp(t: Tables, op: Op)
    requires ExecOp(t, op).Success?
    requires forall k :: 0 <= k < |t.intents| && Resolved(t.intents[k].state) && t.intents[k].intent.id == op.row.intent.id ==>
               SettledFacts(t, op, t.intents[k].state)
    ensures StaySettled(t, ExecOp(t, op).value)
  {
    hide HasAttempt, FilledQty;
    match op
    case AbortUnsent(row) =>
    case NoteOrder(row, r) =>
    case NoteTrade(row, r, trade) =>
    case NoteCharge(_, _, _, _, _) =>
    case Settle(row, r) =>
  }

  lemma OpKeepsSettled(t: Tables, b: Broker, sent: seq<Id>, op: Op)
    requires TableInv(t, b, sent) && BrokerInv(t, b, sent) && OpGood(t, b, op) && ExecOp(t, op).Success?
    ensures StaySettled(t, ExecOp(t, op).value)
  {
    hide TableInv, BrokerInv, ExecOp, HasRow, OpGood, SettledFacts;
    forall k | 0 <= k < |t.intents| && Resolved(t.intents[k].state) && t.intents[k].intent.id == op.row.intent.id
      ensures SettledFacts(t, op, t.intents[k].state)
    {
      FactsOfResolved(t, b, sent, op, k);
    }
    SettledUnderOp(t, op);
  }

  lemma {:induction false} TrailKeepsSettled(t: Tables, b: Broker, sent: seq<Id>, ops: seq<Op>)
    requires TableInv(t, b, sent) && BrokerInv(t, b, sent) && OpsGood(t, b, ops)
    ensures forall k :: 0 <= k < |Trail(t, ops)| ==> StaySettled(t, Trail(t, ops)[k])
    decreases |ops|
  {
    hide ExecOp, TableInv, BrokerInv, OpGood;
    if ops != [] && ExecOp(t, ops[0]).Success? {
      var u := ExecOp(t, ops[0]).value;
      assert OpGood(t, b, ops[0]);
      OpKeeps(t, b, sent, ops[0]);
      OpKeepsSettled(t, b, sent, ops[0]);
      BrokerInvPersists(t, u, b, sent);
      OpsStayGood(t, u, b, ops);
      TrailKeepsSettled(u, b, sent, ops[1..]);
    }
  }

  lemma OpsStayGood(t: Tables, u: Tables, b: Broker, ops: seq<Op>)
    requires TablesLeq(t, u) && OpsGood(t, b, ops) && ops != []
    ensures OpsGood(u, b, ops[1..])
  {
    forall k | 0 <= k < |ops[1..]|
      ensures OpGood(u, b, ops[1..][k])
    {
      assert OpGood(t, b, ops[k + 1]);
      RowPersists(t, u, ops[k + 1].row.intent);
    }
  }

  lemma DispatchKeepsSettled(t: Tables, i: Intent, reserved: real, attempt: Id, rateOk: bool)
    ensures forall k :: 0 <= k < |DispatchTrail(t, i, reserved, attempt, rateOk)| ==>
              StaySettled(t, DispatchTrail(t, i, reserved, attempt, rateOk)[k])
  {
    if CreateIntent(t, i, reserved).Success? {
      forall k | 0 <= k < |t.intents|
        ensures t.intents[k].intent.id != i.id
      {}
    }
  }

  lemma AnswerKeepsSettled(t: Tables, i: Intent, attempt: Id, response: Option<Report>)
    requires DistinctIntents(t.intents) && CommittedUnknown(t, i)
    ensures forall k :: 0 <= k < |AnswerTrail(t, i, attempt, response)| ==>
              StaySettled(t, AnswerTrail(t, i, attempt, response)[k])
  {
    var m :| 0 <= m < |t.intents| && t.intents[m].intent == i && t.intents[m].state == SendUnknown;
    forall k | 0 <= k < |t.intents| && t.intents[k].intent.id == i.id
      ensures k == m
    {}
  }

  lemma CommitsKeepSettled(w: World, e: Event)
    requires Inv(w) && Enabled(w, e)
    ensures forall k :: 0 <= k < |Commits(w, e)| ==> StaySettled(w.t, Commits(w, e)[k])
  {
    hide TableInv, BrokerInv, Covered, ExecOp, DispatchTrail, AnswerTrail, Trail, RecordAttempt;
    match e
    case SubmitBuy(i, reserved, attempt, rateOk) => DispatchKeepsSettled(w.t, i, reserved, attempt, rateOk);
    case SellDispatch(attempt, rateOk) =>
      DispatchKeepsSettled(w.t, w.p.submit.i, w.p.submit.reserved, attempt, rateOk);
    case PostFailed => FailureKeepsSettled(w);
    case PostAnswered(response) => PostingRow(w); AnswerKeepsSettled(w.t, w.p.submit.i, w.p.submit.attempt, response);
    case Apply =>
      ProgramGood(w.t, w.b, w.p.batch.rows, w.p.batch.resolved, w.p.batch.trades);
      TrailKeepsSettled(w.t, w.b, w.sent, Program(w.p.batch.rows, w.p.batch.resolved, w.p.batch.trades));
    case RouteReset(id) =>
      if CloseRoute(w.t, id).Success? {
        ResetKeepsSettled(w, id);
      }
    case _ =>
  }

  lemma PostingRow(w: World)
    requires Inv(w) && w.p.submit.Posting?
    ensures DistinctIntents(w.t.intents) && CommittedUnknown(w.t, w.p.submit.i)
  {}

  lemma FailureKeepsSettled(w: World)
    requires Inv(w) && w.p.submit.Posting?
    ensures StaySettled(w.t, RecordAttempt(w.t, w.p.submit.attempt, w.p.submit.i.id, UNKNOWN))
  {
    PostingRow(w);
    AnswerKeepsSettled(w.t, w.p.submit.i, w.p.submit.attempt, None);
    assert AnswerTrail(w.t, w.p.submit.i, w.p.submit.attempt, None)[1]
        == RecordAttempt(w.t, w.p.submit.attempt, w.p.submit.i.id, UNKNOWN);
  }

  lemma ResetKeepsSettled(w: World, id: Id)
    requires Inv(w) && CloseRoute(w.t, id).Success?
    ensures StaySettled(w.t, CloseRoute(w.t, id).value)
  {
    var m :| 0 <= m < |w.t.intents| && w.t.intents[m].intent.id == id && w.t.intents[m].state == SendUnknown;
    forall k | 0 <= k < |w.t.intents| && w.t.intents[k].intent.id == id
      ensures k == m
    {}
  }

  lemma StepKeepsSettled(w: World, e: Event)
    requires Inv(w) && Enabled(w, e)
    ensures StaySettled(w.t, Next(w, e).t)
  {
    hide Inv, Enabled, Next, Commits, StaySettled;
    var k := StepTables(w, e);
    CommitsKeepSettled(w, Core(e));
  }

  lemma {:induction false} SettledForever(ws: seq<World>, es: seq<Event>, j: nat, k: nat)
    requires Run(ws, es) && j <= k < |ws|
    ensures StaySettled(ws[j].t, ws[k].t)
  {
    hide Enabled, Next, Init, Inv;
    if j < k {
      SettledForever(ws, es, j, k - 1);
      RunInv(ws, es, k - 1);
      StepKeepsSettled(ws[k - 1], es[k - 1]);
    }
  }

  /** Once FILLED, an intent stays FILLED on every continuation, through any later reports and crashes. */
  lemma FilledIsAbsorbing(ws: seq<World>, es: seq<Event>, j: nat, k: nat, r: nat)
    requires Run(ws, es) && j <= k < |ws| && r < |ws[j].t.intents| && ws[j].t.intents[r].state == Filled
    ensures r < |ws[k].t.intents| && ws[k].t.intents[r].state == Filled
    ensures ws[k].t.intents[r].intent == ws[j].t.intents[r].intent
  {
    SettledForever(ws, es, j, k);
    RowsForever(ws, es, j, k);
  }

  /**
   Among all commits of a reconciliation, the one thing that makes a resolved intent pending again is a
   settlement on a row stored as traded that states a filled quantity, already recorded but short of the
   order: a terminal report revised after the fact.
   */
  lemma ReopensIff(t: Tables, op: Op, k: nat)
    requires k < |t.intents| && Resolved(t.intents[k].state) && ExecOp(t, op).Success?
    ensures !Resolved(ExecOp(t, op).value.intents[k].state) <==>
            && op.Settle? && op.row.intent.id == t.intents[k].intent.id
            && t.orders[op.report.order.value].status == Done(TRADED)
            && op.report.filled.Some?
            && op.report.filled.value <= FilledQty(t.fills, op.row.intent.id) < op.row.intent.qty
  {
    hide FilledQty, HasAttempt, WellFormed, HasIntent;
    match op
    case Settle(row, r) =>
      SettleResult(t, row, r);
      var status, filled := t.orders[r.order.value].status, FilledQty(t.fills, row.intent.id);
      if t.intents[k].intent.id == row.intent.id && status.Done? && filled >= Expected(row.intent.qty, r, status, filled) {
        assert !Resolved(ExecOp(t, op).value.intents[k].state) <==> filled != row.intent.qty && status.how == TRADED;
      } else {
        assert ExecOp(t, op).value.intents[k] == t.intents[k];
      }
    case AbortUnsent(_) =>
    case NoteOrder(_, _) =>
    case NoteTrade(_, _, _) =>
    case NoteCharge(_, _, _, _, _) =>
  }

  lemma SettleResult(t: Tables, row: IntentRow, r: Report)
    requires ExecOp(t, Settle(row, r)).Success?
    ensures r.order.Some? && r.order.value in t.orders
    ensures var status, filled, id := t.orders[r.order.value].status, FilledQty(t.fills, row.intent.id), row.intent.id;
            var u := ExecOp(t, Settle(row, r)).value;
            && filled <= row.intent.qty && |u.intents| == |t.intents|
            && forall k :: 0 <= k < |t.intents| ==>
                 u.intents[k] ==
                   if t.intents[k].intent.id == id && status.Done? && filled >= Expected(row.intent.qty, r, status, filled)
                   then t.intents[k].(state := if filled == row.intent.qty then Filled else Ended(status.how))
                   else t.intents[k]
  {
    hide FilledQty;
  }

  /** An instance: a cancelled intent whose order is later reported as traded with what is recorded, less than its quantity. */
  lemma RevisedTerminalReopens(t: Tables, k: nat, o: Id, traded: Report)
    requires WellFormed(t) && k < |t.intents| && t.intents[k].state == Ended(CANCELLED)
    requires o in t.orders && t.orders[o].intent == t.intents[k].intent.id
    requires traded == Report(Some(o), None, None, true, Done(TRADED), Some(FilledQty(t.fills, t.intents[k].intent.id)))
    requires FilledQty(t.fills, t.intents[k].intent.id) < t.intents[k].intent.qty
    ensures var noted := ExecOp(t, NoteOrder(t.intents[k], traded));
            noted.Success?
            && var settled := ExecOp(noted.value, Settle(t.intents[k], traded));
               settled.Success? && settled.value.intents[k].state == Ended(TRADED)
               && Pending(settled.value, settled.value.intents[k])
  {
    var id := t.intents[k].intent.id;
    var u := ExecOp(t, NoteOrder(t.intents[k], traded)).value;
    assert u.fills == t.fills && u.orders[o].status == Done(TRADED) && |u.intents| == |t.intents|;
    assert u.intents[k].intent == t.intents[k].intent;
    assert ExecOp(u, Settle(t.intents[k], traded)) == Success(SetState(u, id, Ended(TRADED)));
  }
}
