/** The order manager and the account refresher as objects, tied method by method to the state machine. */
module OrderManager {
  import opened Wrappers
  import opened Ledger
  import opened Orders

  /** Where a batch leaves the tables, and whether it ran to its end. */
  function Final(t: Tables, ops: seq<Op>): (Tables, bool)
    decreases |ops|
  {
    if ops == [] then (t, true)
    else
      match ExecOp(t, ops[0])
      case Failure(_) => (t, false)
      case Success(u) => Final(u, ops[1..])
  }

  lemma {:induction false} FinalOfTrail(t: Tables, ops: seq<Op>)
    ensures Trail(t, ops)[|Trail(t, ops)| - 1] == Final(t, ops).0
    ensures Completes(t, ops) <==> Final(t, ops).1
    decreases |ops|
  {
    hide ExecOp;
    if ops != [] && ExecOp(t, ops[0]).Success? {
      FinalOfTrail(ExecOp(t, ops[0]).value, ops[1..]);
    }
  }

  lemma {:induction false} FinalConcat(t: Tables, a: seq<Op>, b: seq<Op>)
    ensures Final(t, a + b) == if Final(t, a).1 then Final(Final(t, a).0, b) else Final(t, a)
    decreases |a|
  {
    hide ExecOp;
    if a == [] {
      assert a + b == b;
    } else {
      assert (a + b)[1..] == a[1..] + b;
      if ExecOp(t, a[0]).Success? {
        FinalConcat(ExecOp(t, a[0]).value, a[1..], b);
      }
    }
  }

  lemma FinalOfRow(t: Tables, rows: seq<IntentRow>, resolved: seq<Option<Report>>, trades: seq<TradeReport>, k: nat)
    requires |resolved| == |rows| && k < |rows|
    ensures var row := Final(t, RowOps(rows[k], resolved[k], trades));
            Final(t, Program(rows[k..], resolved[k..], trades))
              == if row.1 then Final(row.0, Program(rows[k + 1..], resolved[k + 1..], trades)) else row
  {
    hide RowOps, Final;
    assert rows[k..][1..] == rows[k + 1..] && resolved[k..][1..] == resolved[k + 1..];
    FinalConcat(t, RowOps(rows[k], resolved[k], trades), Program(rows[k + 1..], resolved[k + 1..], trades));
  }

  class Manager {
    const store: Store
    var revision: nat

    constructor (store: Store)
      ensures this.store == store && revision == 0
    {
      this.store := store;
      revision := 0;
    }

    /** The write-ahead part of submit, up to the POST; `post` says whether the request goes out. */
    method Dispatch(i: Intent, reserved: real, attempt: Id, rateOk: bool) returns (post: bool)
      modifies this, store
      ensures var trail := DispatchTrail(old(store.T()), i, reserved, attempt, rateOk);
              store.T() == trail[|trail| - 1]
      ensures post <==> Posts(old(store.T()), i, reserved, rateOk)
      ensures revision == old(revision) + if post then 1 else 0
    {
      var created := store.Create(i, reserved);
      if !created {
        return false;
      }
      if !rateOk {
        store.Set(i.id, Aborted);
        return false;
      }
      store.Attempt(attempt, i.id, STARTED);
      revision := revision + 1;
      post := true;
    }

    /** The sale guard: all outstanding sales of the security and this one must be covered. */
    method SaleAllowed(i: Intent, reserved: real, held: int) returns (ok: bool)
      ensures ok <==> i.qty + OutstandingSales(store.intents, |store.intents|, i.sec) <= held
      ensures ok <==> SaleCovered(GotPositions(i, reserved, PendingQty(store.T(), |store.intents|, SELL, i.sec), held))
    {
      var pending := store.PendingQuantity(SELL, i.sec);
      PendingSalesAreOutstanding(store.T(), |store.intents|, i.sec);
      ok := i.qty + pending <= held;
    }

    /** Recording the outcome of the POST; None stands for a failure or an ambiguous response. */
    method Answer(i: Intent, attempt: Id, response: Option<Report>) returns (ok: bool)
      modifies this, store
      ensures var trail := AnswerTrail(old(store.T()), i, attempt, response);
              store.T() == trail[|trail| - 1]
      ensures revision == old(revision) + 1
    {
      revision := revision + 1;
      if response.None? || response.value.order.None? {
        store.Attempt(attempt, i.id, UNKNOWN);
        return false;
      }
      store.Attempt(attempt, i.id, ACCEPTED);
      ok := store.Order(response.value.order.value, i.id, response.value.status, response.value);
    }

    method ApplyTrades(row: IntentRow, r: Report, trades: seq<TradeReport>) returns (ok: bool)
      modifies store
      ensures (store.T(), ok) == Final(old(store.T()), TradeOps(row, r, trades))
    {
      assert trades[0..] == trades;
      for k := 0 to |trades|
        invariant Final(old(store.T()), TradeOps(row, r, trades)) == Final(store.T(), TradeOps(row, r, trades[k..]))
      {
        hide RecordFillOnce, RecordOrderCharges;
        var trade := trades[k];
        ghost var before := store.T();
        assert TradeOps(row, r, trades[k..]) == [TradeOp(row, r, trade)] + TradeOps(row, r, trades[k + 1..]) by {
          assert trades[k..][1..] == trades[k + 1..];
        }
        if trade.ChargeReport? {
          if r.order == Some(trade.order) {
            var charged := store.Charge(trade.order, row.intent.id, trade.fees, trade.complete);
            if !charged {
              return false;
            }
          }
        } else if r.order == Some(trade.order) {
          if Contradicts(row, trade.sec, trade.side, trade.ours)
             || trade.trade.None? || trade.qty <= 0 || trade.price <= 0.0 || trade.fees < 0.0 {
            return false;
          }
          var recorded := store.FillOnce(
            Fill(trade.order, trade.trade.value, row.intent.sec, trade.qty, trade.price, trade.fees), row.intent.id);
          if !recorded {
            return false;
          }
        }
      }
      ok := true;
    }

    method ApplyRow(row: IntentRow, resolved: Option<Report>, trades: seq<TradeReport>) returns (ok: bool)
      modifies store
      ensures (store.T(), ok) == Final(old(store.T()), RowOps(row, resolved, trades))
    {
      hide RecordFillOnce, RecordOrder;
      ghost var start := store.T();
      if resolved.None? {
        if row.state == PendingSend && !HasAttempt(store.T(), row.intent.id) {
          store.Set(row.intent.id, Aborted);
        }
        return true;
      }
      var r := resolved.value;
      ghost var middle, last := TradeOps(row, r, trades), [Settle(row, r)];
      assert RowOps(row, resolved, trades) == [NoteOrder(row, r)] + (middle + last);
      FinalConcat(start, [NoteOrder(row, r)], middle + last);
      if r.order.None? || Contradicts(row, r.sec, r.side, r.ours) {
        return false;
      }
      var noted := store.Order(r.order.value, row.intent.id, r.status, r);
      if !noted {
        return false;
      }
      FinalConcat(store.T(), middle, last);
      var traded := ApplyTrades(row, r, trades);
      if !traded {
        return false;
      }
      ok := SettleRow(row, r);
    }

    method SettleRow(row: IntentRow, r: Report) returns (ok: bool)
      modifies store
      ensures (store.T(), ok) == Final(old(store.T()), [Settle(row, r)])
    {
      if r.order.None? || r.order.value !in store.orders {
        return false;
      }
      var filled := store.Filled(row.intent.id);
      var status := store.orders[r.order.value].status;
      var expected := Expected(row.intent.qty, r, status, filled);
      if expected > row.intent.qty || filled > row.intent.qty {
        return false;
      }
      if status.Done? && filled >= expected {
        store.Set(row.intent.id, if filled == row.intent.qty then Filled else Ended(status.how));
      }
      ok := true;
    }

    method ApplyRows(rows: seq<IntentRow>, resolved: seq<Option<Report>>, trades: seq<TradeReport>) returns (ok: bool)
      requires |resolved| == |rows|
      modifies store
      ensures (store.T(), ok) == Final(old(store.T()), Program(rows, resolved, trades))
    {
      hide RowOps, ExecOp;
      ghost var start := store.T();
      assert rows[0..] == rows && resolved[0..] == resolved;
      for k := 0 to |rows|
        invariant Final(start, Program(rows, resolved, trades)) == Final(store.T(), Program(rows[k..], resolved[k..], trades))
      {
        FinalOfRow(store.T(), rows, resolved, trades, k);
        ok := ApplyRow(rows[k], resolved[k], trades);
        if !ok {
          return;
        }
      }
      ok := true;
    }

    /**
     The locked part of reconcile. A superseded batch touches nothing; otherwise the revision moves on
     and the rows are applied in order until one is refused.
     */
    method ApplyBatch(captured: nat, rows: seq<IntentRow>, resolved: seq<Option<Report>>, trades: seq<TradeReport>)
      returns (published: bool)
      requires |resolved| == |rows|
      modifies this, store
      ensures captured != old(revision) ==> !published && store.T() == old(store.T()) && revision == old(revision)
      ensures captured == old(revision) ==>
        && revision == old(revision) + 1
        && (published <==> Completes(old(store.T()), Program(rows, resolved, trades)))
        && var trail := Trail(old(store.T()), Program(rows, resolved, trades)); store.T() == trail[|trail| - 1]
    {
      if captured != revision {
        return false;
      }
      revision := revision + 1;
      FinalOfTrail(store.T(), Program(rows, resolved, trades));
      hide Trail, Final, Program, Completes;
      published := ApplyRows(rows, resolved, trades);
    }
  }

  /** The background account reader; its fields are the refresher state of the state machine. */
  class AccountRefresh {
    const orders: Manager
    var healthy: bool
    var observed: int
    var revision: nat
    var pc: RefreshPc
    var seen: seq<Id>

    function R(): Refresh
      reads this
    {
      Refresh(healthy, observed, revision, pc, seen)
    }

    constructor (orders: Manager)
      ensures this.orders == orders && R() == STARTED_PROCESS.refresh
    {
      this.orders := orders;
      healthy, observed, revision, pc, seen := false, 0, 0, Asleep, [];
    }

    method IsFresh(clock: int) returns (ok: bool)
      ensures forall w: World :: w.p.refresh == R() && w.p.rev == orders.revision && w.clock == clock ==> (ok <==> Fresh(w))
    {
      ok := healthy && 0 <= clock - observed <= MAX_AGE && revision == orders.revision;
    }

    method Invalidated()
      modifies this, orders
      ensures R() == Unhealthy(old(R())) && orders.revision == old(orders.revision) + 1
    {
      healthy := false;
      orders.revision := orders.revision + 1;
    }

    /** A notification seen before changes nothing; a new one invalidates, and old ones are forgotten in order. */
    method OnOrderEvent(id: Id)
      modifies this, orders
      ensures forall w: World :: w.p.refresh == old(R()) && w.p.rev == old(orders.revision) ==>
                ProcessNext(w, OrderEvent(id)).refresh == R() && ProcessNext(w, OrderEvent(id)).rev == orders.revision
    {
      if id in seen {
        return;
      }
      seen := seen + [id];
      if |seen| > SEEN_LIMIT {
        seen := seen[1..];
      }
      Invalidated();
    }

    method BeginCapture(clock: int)
      modifies this
      ensures R() == old(R()).(pc := Captured(orders.revision, clock, false))
    {
      pc := Captured(orders.revision, clock, false);
    }

    /** What refresh does with the result of its reconcile. */
    method OnBatch(published: bool)
      modifies this
      ensures forall p: Process ::
        p.batch.Resolving? && p.batch.forRefresh && p.refresh == old(R()) && p.rev == orders.revision && old(pc).Reconciling? ==>
          R() == if published then Publish(p).refresh else EndBatch(p).refresh
    {
      if !published {
        healthy, pc := false, Asleep;
      } else if pc.Reconciling? {
        healthy, observed, revision := true, pc.at, orders.revision;
        pc := if pc.again then Asleep else AwaitingCash(pc.at);
      }
    }

    /** After the cash read: a moved revision is unhealthy, an aged batch is read again. */
    method OnCash(clock: int)
      modifies this
      ensures forall w: World :: w.p.refresh == old(R()) && w.p.rev == orders.revision && w.clock == clock ==>
                ProcessNext(w, CashAnswered).refresh == R()
    {
      if pc.AwaitingCash? {
        if revision != orders.revision {
          healthy, pc := false, Asleep;
        } else if clock - pc.at > MAX_AGE {
          pc := Captured(revision, clock, true);
        } else {
          pc := Asleep;
        }
      }
    }
  }
}
