/** What each step of a submission does, in the terms of its inputs: when the request goes out, and what is left behind. */
module Submitting {
  import opened Wrappers
  import opened Ledger
  import opened Orders
  import opened OrderTheorems

  /** No intent has either id yet. */
  predicate Unused(t: Tables, i: Intent) {
    forall k :: 0 <= k < |t.intents| ==> t.intents[k].intent.id != i.id && t.intents[k].intent.corr != i.corr
  }

  /** The request for this intent, and no other, is handed to the network. */
  predicate PostsNow(w: World, v: World, i: Intent) {
    && v.sent == w.sent + [i.corr] && v.b.wire == w.b.wire[i.corr := i]
    && v.b.book == w.b.book && v.b.net == w.b.net
  }

  predicate PostsNothing(w: World, v: World) { v.sent == w.sent && v.b == w.b }

  /** What a dispatch leaves in the tables: nothing, an aborted intent, or an unknown send with its attempt. */
  predicate Dispatched(t: Tables, u: Tables, i: Intent, reserved: real, attempt: Id, made: bool, posted: bool) {
    && u.orders == t.orders && u.fills == t.fills && u.charges == t.charges && u.receipts == t.receipts
    && u.intents == t.intents + (if made then [IntentRow(i, reserved, if posted then SendUnknown else Aborted)] else [])
    && u.attempts == if posted then t.attempts[attempt := AttemptRow(i.id, STARTED)] else t.attempts
  }

  lemma DispatchLeaves(t: Tables, i: Intent, reserved: real, attempt: Id, rateOk: bool)
    requires attempt !in t.attempts
    ensures var trail := DispatchTrail(t, i, reserved, attempt, rateOk);
            var made := Unused(t, i) && (reserved > 0.0 || (reserved == 0.0 && i.side == SELL));
            && Dispatched(t, trail[|trail| - 1], i, reserved, attempt, made, made && rateOk)
            && (Posts(t, i, reserved, rateOk) <==> made && rateOk)
  {
    CreatedIff(t, i, reserved);
    if CreateIntent(t, i, reserved).Success? {
      var row := IntentRow(i, reserved, PendingSend);
      var u := t.(intents := t.intents + [row]);
      LastState(t.intents, row, SendUnknown);
      LastState(t.intents, row, Aborted);
    }
  }

  lemma LastState(rows: seq<IntentRow>, row: IntentRow, s: IntentState)
    requires forall k :: 0 <= k < |rows| ==> rows[k].intent.id != row.intent.id
    ensures WithState(rows + [row], row.intent.id, s) == rows + [row.(state := s)]
  {}

  /** A buy goes out exactly when its ids are unused, its reservation is positive and the rate verdict passes. */
  lemma BuyIsPostedIff(w: World, i: Intent, reserved: real, attempt: Id, rateOk: bool)
    requires Enabled(w, SubmitBuy(i, reserved, attempt, rateOk))
    ensures var v, made := Next(w, SubmitBuy(i, reserved, attempt, rateOk)), Unused(w.t, i) && reserved > 0.0;
            && (if made && rateOk then PostsNow(w, v, i) else PostsNothing(w, v))
            && Dispatched(w.t, v.t, i, reserved, attempt, made, made && rateOk)
            && v.p.submit == if made && rateOk then Posting(i, attempt) else Idle
  {
    hide DispatchTrail, CreateIntent;
    DispatchLeaves(w.t, i, reserved, attempt, rateOk);
  }

  /** The sale asked for at k, its positions answered at m, is still being submitted at n. */
  ghost predicate Selling(ws: seq<World>, es: seq<Event>, k: nat, m: nat, n: nat, i: Intent, reserved: real) {
    && Run(ws, es) && k < m < n < |es| && es[k] == SubmitSell(i, reserved) && es[m] == PositionsAnswered
    && ws[n].boots == ws[k].boots
    && forall j :: k < j < n && j != m ==> !es[j].PositionsAnswered? && !es[j].PositionsFailed? && !es[j].SellDispatch?
  }

  lemma WaitingStep(w: World, e: Event)
    requires Enabled(w, e) && (w.p.submit.AskedPositions? || w.p.submit.GotPositions?)
    requires !e.PositionsAnswered? && !e.PositionsFailed? && !e.SellDispatch?
    ensures Next(w, e).boots >= w.boots
    ensures Next(w, e).boots == w.boots ==> Next(w, e).p.submit == w.p.submit
  {
    hide Next, Resolve, Completes, Program, Note, Commits, Truthful, TruthfulLine;
    StepProcess(w, e);
  }

  lemma {:induction false} BootsGrow(ws: seq<World>, es: seq<Event>, j: nat, k: nat)
    requires Run(ws, es) && j <= k < |ws|
    ensures ws[j].boots <= ws[k].boots
  {
    hide Enabled, Next;
    if j < k {
      BootsGrow(ws, es, j, k - 1);
      assert ws[k - 1 + 1] == Next(ws[k - 1], es[k - 1]);
      StepProcess(ws[k - 1], es[k - 1]);
    }
  }

  lemma {:induction false} StillWaiting(ws: seq<World>, es: seq<Event>, a: nat, b: nat)
    requires Run(ws, es) && a <= b < |ws| && ws[a].boots == ws[b].boots
    requires ws[a].p.submit.AskedPositions? || ws[a].p.submit.GotPositions?
    requires forall j :: a <= j < b ==> !es[j].PositionsAnswered? && !es[j].PositionsFailed? && !es[j].SellDispatch?
    ensures ws[b].p.submit == ws[a].p.submit
  {
    hide Enabled, Next;
    if a < b {
      BootsGrow(ws, es, a, b - 1);
      BootsGrow(ws, es, b - 1, b);
      StillWaiting(ws, es, a, b - 1);
      assert Enabled(ws[b - 1], es[b - 1]) && ws[b - 1 + 1] == Next(ws[b - 1], es[b - 1]);
      WaitingStep(ws[b - 1], es[b - 1]);
    }
  }

  lemma AskStep(w: World, i: Intent, reserved: real)
    requires Enabled(w, SubmitSell(i, reserved))
    ensures Next(w, SubmitSell(i, reserved)).p.submit
         == AskedPositions(i, reserved, OutstandingSales(w.t.intents, |w.t.intents|, i.sec))
    ensures Next(w, SubmitSell(i, reserved)).boots == w.boots
  {
    PendingSalesAreOutstanding(w.t, |w.t.intents|, i.sec);
  }

  lemma PositionsStep(w: World)
    requires Enabled(w, PositionsAnswered)
    ensures var s := w.p.submit;
            Next(w, PositionsAnswered).p.submit == GotPositions(s.i, s.reserved, s.pending, Net(w.b, s.i.sec))
    ensures Next(w, PositionsAnswered).boots == w.boots
  {}

  lemma {:induction false} SellingState(ws: seq<World>, es: seq<Event>, k: nat, m: nat, n: nat, i: Intent, reserved: real)
    requires Selling(ws, es, k, m, n, i, reserved)
    ensures ws[n].p.submit
         == GotPositions(i, reserved, OutstandingSales(ws[k].t.intents, |ws[k].t.intents|, i.sec), Net(ws[m].b, i.sec))
  {
    hide Enabled, Next;
    BootsGrow(ws, es, k, k + 1);
    BootsGrow(ws, es, k + 1, m);
    BootsGrow(ws, es, m, m + 1);
    BootsGrow(ws, es, m + 1, n);
    assert Enabled(ws[k], es[k]) && ws[k + 1] == Next(ws[k], es[k]);
    AskStep(ws[k], i, reserved);
    StillWaiting(ws, es, k + 1, m);
    assert Enabled(ws[m], es[m]) && ws[m + 1] == Next(ws[m], es[m]);
    PositionsStep(ws[m]);
    StillWaiting(ws, es, m + 1, n);
  }

  /**
   A sale goes out exactly when its quantity and the sales outstanding when it was asked for fit the broker's
   position as it was answered; with a passing rate verdict, unused ids and a reservation that is not negative.
   */
  lemma SaleIsPostedIff(ws: seq<World>, es: seq<Event>, k: nat, m: nat, n: nat, i: Intent, reserved: real, attempt: Id, rateOk: bool)
    requires Selling(ws, es, k, m, n, i, reserved) && es[n] == SellDispatch(attempt, rateOk)
    ensures var covered := i.qty + OutstandingSales(ws[k].t.intents, |ws[k].t.intents|, i.sec) <= Net(ws[m].b, i.sec);
            var made := covered && Unused(ws[n].t, i) && reserved >= 0.0;
            && (if made && rateOk then PostsNow(ws[n], ws[n + 1], i) else PostsNothing(ws[n], ws[n + 1]))
            && Dispatched(ws[n].t, ws[n + 1].t, i, reserved, attempt, made, made && rateOk)
            && ws[n + 1].p.submit == if made && rateOk then Posting(i, attempt) else Idle
  {
    hide DispatchTrail, CreateIntent, OutstandingSales;
    SellingState(ws, es, k, m, n, i, reserved);
    assert Enabled(ws[n], es[n]) && ws[n + 1] == Next(ws[n], es[n]);
    assert ws[k].p.submit == Idle && i.side == SELL by {
      assert Enabled(ws[k], es[k]);
    }
    DispatchLeaves(ws[n].t, i, reserved, attempt, rateOk);
  }

  /** A failed or identityless answer leaves the send unknown; one with an order id makes it sent and records the order. */
  lemma AnswerLeaves(w: World, response: Option<Report>, k: nat)
    requires Enabled(w, PostAnswered(response)) && k < |w.t.intents| && w.t.intents[k].intent == w.p.submit.i
    requires WellFormed(w.t) && w.p.submit.attempt in w.t.attempts && w.t.attempts[w.p.submit.attempt].intent == w.p.submit.i.id
    ensures var i, attempt, v := w.p.submit.i, w.p.submit.attempt, Next(w, PostAnswered(response));
            var known := response.Some? && response.value.order.Some?;
            && v.p.submit == Idle && v.p.rev == w.p.rev + 1 && PostsNothing(w, v)
            && v.t.attempts == w.t.attempts[attempt := AttemptRow(i.id, if known then ACCEPTED else UNKNOWN)]
            && |v.t.intents| == |w.t.intents| && v.t.intents[k] == w.t.intents[k].(state := if known then Sent else SendUnknown)
            && (known && (response.value.order.value in w.t.orders ==> w.t.orders[response.value.order.value].intent == i.id) ==>
                  response.value.order.value in v.t.orders && v.t.orders[response.value.order.value].intent == i.id)
  {
    if response.Some? && response.value.order.Some? {
      var u := RecordAttempt(w.t, w.p.submit.attempt, w.p.submit.i.id, ACCEPTED);
      OrderSays(u, response.value.order.value, w.p.submit.i.id, response.value.status, response.value);
    }
  }

  /** A sale whose positions cannot be read is given up without a trace, and the next submission may begin. */
  lemma UnansweredIsGivenUp(w: World)
    requires Enabled(w, PositionsFailed)
    ensures Next(w, PositionsFailed) == w.(p := w.p.(submit := Idle))
  {}

  /** The operator's reset is of a route probe sent into the unknown, tried without ever an answer, without order or fill. */
  lemma ResetWasUnknown(w: World, id: Id)
    requires Enabled(w, RouteReset(id))
    ensures exists k :: 0 <= k < |w.t.intents| && w.t.intents[k].intent.id == id && w.t.intents[k].state == SendUnknown
                        && w.t.intents[k].intent.lifecycle == ROUTE_PROBE && w.t.intents[k].intent.side == BUY
    ensures (forall o :: o in w.t.orders ==> w.t.orders[o].intent != id)
    ensures forall k :: 0 <= k < |w.t.fills| ==> w.t.fills[k].intent != id
    ensures exists a :: a in w.t.attempts && w.t.attempts[a].intent == id
    ensures forall a :: a in w.t.attempts && w.t.attempts[a].intent == id ==> w.t.attempts[a].state == UNKNOWN
  {}

  /** Unless it has been reset before, it is closed with its receipt, nothing else changes, and nothing is pending after. */
  lemma ResetIs(w: World, id: Id)
    requires Enabled(w, RouteReset(id)) && WellFormed(w.t)
    ensures var v := Next(w, RouteReset(id));
            && PostsNothing(w, v) && (id in w.t.receipts ==> v.t == w.t)
            && (id !in w.t.receipts ==>
                  && v.t == w.t.(receipts := w.t.receipts + {id}, intents := v.t.intents) && |v.t.intents| == |w.t.intents|
                  && (forall k :: 0 <= k < |w.t.intents| ==>
                        v.t.intents[k] == if w.t.intents[k].intent.id == id then w.t.intents[k].(state := RecoveryClosed)
                                          else w.t.intents[k])
                  && !AnyPending(v.t))
  {
    RouteClosedIff(w.t, id);
    assert CloseRoute(w.t, id).Success? <==> id !in w.t.receipts;
    if id !in w.t.receipts {
      ResetLeavesNothingPending(w.t, id);
    }
    hide AnyPending, WithState, WellFormed, CloseRoute, ResetAllowed, HasOrder, HasFill, HasAttempt;
  }

  lemma ResetLeavesNothingPending(t: Tables, id: Id)
    requires ResetAllowed(t, id) && WellFormed(t) && CloseRoute(t, id).Success?
    ensures !AnyPending(CloseRoute(t, id).value)
  {
    var u := CloseRoute(t, id).value;
    forall k | 0 <= k < |u.intents|
      ensures !Pending(u, u.intents[k])
    {
      if t.intents[k].intent.id != id {
        assert !Pending(t, t.intents[k]);
        SettledStays(t, u, t.intents[k]);
      }
    }
  }

  lemma SettledStays(t: Tables, u: Tables, row: IntentRow)
    requires !Pending(t, row) && u.orders == t.orders && u.fills == t.fills && t.receipts <= u.receipts
    ensures !Pending(u, row)
  {}

  lemma FailureLeaves(w: World, k: nat)
    requires Enabled(w, PostFailed) && k < |w.t.intents| && w.t.intents[k].intent == w.p.submit.i
    requires w.p.submit.attempt in w.t.attempts && w.t.attempts[w.p.submit.attempt].intent == w.p.submit.i.id
    ensures var v := Next(w, PostFailed);
            && v.p.submit == Idle && v.p.rev == w.p.rev + 1 && PostsNothing(w, v)
            && v.t.attempts == w.t.attempts[w.p.submit.attempt := AttemptRow(w.p.submit.i.id, UNKNOWN)]
            && |v.t.intents| == |w.t.intents| && v.t.intents[k] == w.t.intents[k].(state := SendUnknown)
            && v.t.orders == w.t.orders && v.t.fills == w.t.fills
  {}
}
