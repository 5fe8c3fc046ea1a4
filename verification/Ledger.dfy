/**
 The durable order tables of ledger.py. Each write is one committed transaction: a function on
 `Tables` says what it commits or why it refuses, and `Store` updates its fields accordingly.
 Text keys are only ever compared for equality, so they are modelled as numbers.
 */
module Ledger {
  import opened Wrappers

  type Id = nat

  /** The lifecycle label of operator route probes. */
  const ROUTE_PROBE: Id := 0

  datatype Side = BUY | SELL

  datatype Intent = Intent(id: Id, corr: Id, lifecycle: Id, side: Side, sec: Id, qty: nat, limit: real)

  datatype Ending = TRADED | CANCELLED | REJECTED | EXPIRED

  datatype OrderStatus = Working | Done(how: Ending)

  /** `Ended(TRADED)` is what an order reported as traded, but short of its quantity, leaves behind. */
  datatype IntentState = PendingSend | SendUnknown | Sent | Filled | Ended(how: Ending) | Aborted | RecoveryClosed

  datatype IntentRow = IntentRow(intent: Intent, reserved: real, state: IntentState)

  datatype AttemptState = STARTED | UNKNOWN | ACCEPTED

  datatype AttemptRow = AttemptRow(intent: Id, state: AttemptState)

  /** A broker order row as received; absent keys are None, and `ours` covers account, segment and product. */
  datatype Report = Report(order: Option<Id>, sec: Option<Id>, side: Option<Side>, ours: bool,
                           status: OrderStatus, filled: Option<int>)

  datatype OrderRow = OrderRow(intent: Id, status: OrderStatus, report: Report)

  /** A trade as received, or the charges of a whole order from the history, once they match its recorded fills. */
  datatype TradeReport =
    | TradeReport(order: Id, trade: Option<Id>, sec: Option<Id>, side: Option<Side>, ours: bool, qty: int, price: real, fees: real)
    | ChargeReport(order: Id, fees: real, complete: bool)

  datatype Fill = Fill(order: Id, trade: Id, sec: Id, qty: nat, price: real, fees: real)

  /** `legacy` rows still carry the raw trade id as their key; others the (order, trade) pair. */
  datatype FillRow = FillRow(fill: Fill, intent: Id, legacy: bool)

  datatype ChargeRow = ChargeRow(order: Id, intent: Id, fees: real, complete: bool)

  /** `receipts` holds the intents with a complete account-reset receipt. */
  datatype Tables = Tables(intents: seq<IntentRow>, attempts: map<Id, AttemptRow>, orders: map<Id, OrderRow>,
                           fills: seq<FillRow>, charges: seq<ChargeRow>, receipts: set<Id>)

  // ---------- Queries ----------

  predicate HasIntent(t: Tables, id: Id) {
    exists k :: 0 <= k < |t.intents| && t.intents[k].intent.id == id
  }

  predicate HasCorr(t: Tables, corr: Id) {
    exists k :: 0 <= k < |t.intents| && t.intents[k].intent.corr == corr
  }

  predicate HasAttempt(t: Tables, id: Id) {
    exists a :: a in t.attempts && t.attempts[a].intent == id
  }

  predicate HasOrder(t: Tables, id: Id) {
    exists o :: o in t.orders && t.orders[o].intent == id
  }

  predicate HasFill(t: Tables, id: Id) {
    exists k :: 0 <= k < |t.fills| && t.fills[k].intent == id
  }

  function FilledQty(fills: seq<FillRow>, id: Id): nat {
    if fills == [] then 0
    else FilledQty(fills[..|fills| - 1], id)
         + (if fills[|fills| - 1].intent == id then fills[|fills| - 1].fill.qty else 0)
  }

  function IntentAt(rows: seq<IntentRow>, id: Id): (r: Option<nat>)
    ensures r.Some? ==> r.value < |rows| && rows[r.value].intent.id == id
    ensures r.None? ==> forall k :: 0 <= k < |rows| ==> rows[k].intent.id != id
  {
    if rows == [] then None
    else if rows[|rows| - 1].intent.id == id then Some(|rows| - 1)
    else IntentAt(rows[..|rows| - 1], id)
  }

  function FillAt(fills: seq<FillRow>, order: Id, trade: Id): (r: Option<nat>)
    ensures r.Some? ==> r.value < |fills| && fills[r.value].fill.order == order && fills[r.value].fill.trade == trade
    ensures r.None? ==> forall k :: 0 <= k < |fills| ==> !(fills[k].fill.order == order && fills[k].fill.trade == trade)
  {
    if fills == [] then None
    else if fills[|fills| - 1].fill.order == order && fills[|fills| - 1].fill.trade == trade then Some(|fills| - 1)
    else FillAt(fills[..|fills| - 1], order, trade)
  }

  predicate Resolved(s: IntentState) {
    s == Filled || s == Aborted || s == Ended(CANCELLED) || s == Ended(REJECTED) || s == Ended(EXPIRED)
  }

  /** A reset probe counts as closed only with its complete receipt and without any broker row. */
  predicate RecoveryClosedValid(t: Tables, row: IntentRow) {
    && row.state == RecoveryClosed
    && row.intent.lifecycle == ROUTE_PROBE
    && row.intent.side == BUY
    && row.intent.id in t.receipts
    && !HasOrder(t, row.intent.id)
    && !HasFill(t, row.intent.id)
  }

  predicate Pending(t: Tables, row: IntentRow) {
    !Resolved(row.state) && !RecoveryClosedValid(t, row)
  }

  predicate AnyPending(t: Tables) {
    exists k :: 0 <= k < |t.intents| && Pending(t, t.intents[k])
  }

  /** Quantity of the first n pending intents of one side and security. */
  function PendingQty(t: Tables, n: nat, side: Side, sec: Id): nat
    requires n <= |t.intents|
  {
    if n == 0 then 0
    else PendingQty(t, n - 1, side, sec)
         + var row := t.intents[n - 1];
           if Pending(t, row) && row.intent.side == side && row.intent.sec == sec then row.intent.qty else 0
  }

  // ---------- Commits ----------

  function CreateIntent(t: Tables, i: Intent, reserved: real): Result<Tables> {
    if reserved < 0.0 || (i.side == BUY && reserved == 0.0) then Failure("buy reservation must be positive")
    else if HasIntent(t, i.id) || HasCorr(t, i.corr) then Failure("unique constraint")
    else Success(t.(intents := t.intents + [IntentRow(i, reserved, PendingSend)]))
  }

  /** UPDATE intents SET state WHERE intent_id. */
  function WithState(rows: seq<IntentRow>, id: Id, s: IntentState): (r: seq<IntentRow>)
    ensures |r| == |rows|
    ensures forall k :: 0 <= k < |rows| ==> r[k] == if rows[k].intent.id == id then rows[k].(state := s) else rows[k]
  {
    seq(|rows|, k requires 0 <= k < |rows| => if rows[k].intent.id == id then rows[k].(state := s) else rows[k])
  }

  function SetState(t: Tables, id: Id, s: IntentState): Tables {
    t.(intents := WithState(t.intents, id, s))
  }

  function RecordAttempt(t: Tables, attempt: Id, id: Id, s: AttemptState): Tables {
    var owner := if attempt in t.attempts then t.attempts[attempt].intent else id;
    t.(attempts := t.attempts[attempt := AttemptRow(owner, s)],
       intents := WithState(t.intents, id, if s == ACCEPTED then Sent else SendUnknown))
  }

  /** A late broker row undoes a recovery closure. */
  function Reopened(rows: seq<IntentRow>, id: Id): (r: seq<IntentRow>)
    ensures |r| == |rows|
    ensures forall k :: 0 <= k < |rows| ==>
      r[k] == if rows[k].intent.id == id && rows[k].state == RecoveryClosed then rows[k].(state := Sent) else rows[k]
  {
    seq(|rows|, k requires 0 <= k < |rows| =>
      if rows[k].intent.id == id && rows[k].state == RecoveryClosed then rows[k].(state := Sent) else rows[k])
  }

  function RecordOrder(t: Tables, order: Id, id: Id, status: OrderStatus, report: Report): Result<Tables> {
    if order in t.orders && t.orders[order].intent != id then Failure("order identity conflict")
    else if order in t.orders && t.orders[order].status.Done? && status == Working then Success(t)
    else if order in t.orders && t.orders[order].status == status && t.orders[order].report == report then Success(t)
    else Success(t.(orders := t.orders[order := OrderRow(id, status, report)], intents := Reopened(t.intents, id)))
  }

  /** A known (order, trade) only ever raises its fees; a new one must fit its intent. */
  function RecordFillOnce(t: Tables, f: Fill, id: Id): Result<Tables> {
    match FillAt(t.fills, f.order, f.trade)
    case Some(k) =>
      var saved := t.fills[k];
      if (saved.fill.sec, saved.fill.qty, saved.fill.price) != (f.sec, f.qty, f.price) then Failure("conflicting duplicate fill")
      else
        var fees := if f.fees > saved.fill.fees then f.fees else saved.fill.fees;
        Success(t.(fills := t.fills[k := saved.(fill := saved.fill.(fees := fees), legacy := false)]))
    case None =>
      var at := IntentAt(t.intents, id);
      if at.None? || f.sec != t.intents[at.value].intent.sec
         || FilledQty(t.fills, id) + f.qty > t.intents[at.value].intent.qty
      then Failure("fill exceeds or mismatches intent")
      else Success(t.(intents := Reopened(t.intents, id), fills := t.fills + [FillRow(f, id, false)]))
  }

  function WithoutCharge(charges: seq<ChargeRow>, order: Id): seq<ChargeRow> {
    if charges == [] then []
    else
      var rest := WithoutCharge(charges[..|charges| - 1], order);
      if charges[|charges| - 1].order == order then rest else rest + [charges[|charges| - 1]]
  }

  function ChargeAt(charges: seq<ChargeRow>, order: Id): Option<ChargeRow> {
    if charges == [] then None
    else if charges[|charges| - 1].order == order then Some(charges[|charges| - 1])
    else ChargeAt(charges[..|charges| - 1], order)
  }

  /** A matched historical receipt replaces an order's charge only when it says more. */
  function RecordOrderCharges(t: Tables, order: Id, id: Id, fees: real, complete: bool): Result<Tables> {
    var saved := ChargeAt(t.charges, order);
    if fees < 0.0 then Failure("invalid historical order charges")
    else if order !in t.orders || t.orders[order].intent != id || (saved.Some? && saved.value.intent != id)
    then Failure("historical charge identity conflict")
    else if saved.Some? && (fees < saved.value.fees || (fees == saved.value.fees && (saved.value.complete || !complete)))
    then Success(t)
    else Success(t.(charges := WithoutCharge(t.charges, order) + [ChargeRow(order, id, fees, complete)]))
  }

  /** The operator's closing commit: receipt and state together, only from an unknown send. */
  function CloseRoute(t: Tables, id: Id): Result<Tables> {
    if id in t.receipts || !(exists k :: 0 <= k < |t.intents| && t.intents[k].intent.id == id && t.intents[k].state == SendUnknown)
    then Failure("route obligation changed before commit")
    else Success(t.(receipts := t.receipts + {id}, intents := WithState(t.intents, id, RecoveryClosed)))
  }

  const EMPTY: Tables := Tables([], map[], map[], [], [], {})

  /** Quantity of the sales of a security, among the first n rows, that are in none of the five final states. */
  function OutstandingSales(rows: seq<IntentRow>, n: nat, sec: Id): nat
    requires n <= |rows|
  {
    if n == 0 then 0
    else
      var row := rows[n - 1];
      var over := row.state in {Filled, Aborted, Ended(CANCELLED), Ended(REJECTED), Ended(EXPIRED)};
      OutstandingSales(rows, n - 1, sec) + if row.intent.side == SELL && row.intent.sec == sec && !over then row.intent.qty else 0
  }

  lemma {:induction false} PendingSalesAreOutstanding(t: Tables, n: nat, sec: Id)
    requires n <= |t.intents|
    ensures PendingQty(t, n, SELL, sec) == OutstandingSales(t.intents, n, sec)
  {
    hide HasOrder, HasFill;
    if n > 0 {
      PendingSalesAreOutstanding(t, n - 1, sec);
    }
  }

  // ---------- What the commits do ----------

  /** A new intent needs unused ids and a reservation, zero only for sales; it starts unsent, after all others. */
  lemma CreatedIff(t: Tables, i: Intent, reserved: real)
    ensures CreateIntent(t, i, reserved).Success? <==>
            && (reserved > 0.0 || (reserved == 0.0 && i.side == SELL))
            && forall k :: 0 <= k < |t.intents| ==> t.intents[k].intent.id != i.id && t.intents[k].intent.corr != i.corr
    ensures CreateIntent(t, i, reserved).Success? ==>
              CreateIntent(t, i, reserved).value == t.(intents := t.intents + [IntentRow(i, reserved, PendingSend)])
  {}

  /** An attempt keeps its intent, and only an accepted one lets it count as sent. */
  lemma AttemptSays(t: Tables, attempt: Id, id: Id, s: AttemptState, k: nat)
    requires k < |t.intents|
    ensures var u := RecordAttempt(t, attempt, id, s);
            && u == t.(intents := u.intents, attempts := u.attempts) && |u.intents| == |t.intents|
            && attempt in u.attempts && u.attempts[attempt].state == s
            && u.attempts[attempt].intent == (if attempt in t.attempts then t.attempts[attempt].intent else id)
            && (forall a :: a != attempt ==>
                  (a in u.attempts <==> a in t.attempts) && (a in t.attempts ==> u.attempts[a] == t.attempts[a]))
            && u.intents[k].intent == t.intents[k].intent && u.intents[k].reserved == t.intents[k].reserved
            && (t.intents[k].intent.id != id ==> u.intents[k].state == t.intents[k].state)
            && (t.intents[k].intent.id == id ==> (u.intents[k].state == Sent <==> s == ACCEPTED)
                                                 && (u.intents[k].state == SendUnknown <==> s != ACCEPTED))
  {}

  /** An order row keeps its intent and never goes back from terminal; otherwise it is what was last reported. */
  lemma OrderSays(t: Tables, order: Id, id: Id, status: OrderStatus, report: Report)
    ensures RecordOrder(t, order, id, status, report).Failure? <==> order in t.orders && t.orders[order].intent != id
    ensures RecordOrder(t, order, id, status, report).Success? ==>
              var u := RecordOrder(t, order, id, status, report).value;
              && order in u.orders
              && (u.orders[order] == if order in t.orders && t.orders[order].status != Working && status == Working
                                     then t.orders[order] else OrderRow(id, status, report))
              && (forall o :: o != order ==> (o in u.orders <==> o in t.orders) && (o in t.orders ==> u.orders[o] == t.orders[o]))
              && u == t.(orders := u.orders, intents := u.intents)
              && (u.orders == t.orders ==> u == t)
              && (u.orders != t.orders ==> |u.intents| == |t.intents| && forall k :: 0 <= k < |t.intents| ==>
                    u.intents[k] == if t.intents[k].intent.id == id && t.intents[k].state == RecoveryClosed
                                    then t.intents[k].(state := Sent) else t.intents[k])
  {}

  /** A known trade must agree in all but its fees, which keep the higher value; its row is rewritten in the present format. */
  lemma KnownFillSays(t: Tables, f: Fill, id: Id, k: nat)
    requires DistinctFills(t.fills) && k < |t.fills| && t.fills[k].fill.order == f.order && t.fills[k].fill.trade == f.trade
    ensures var saved := t.fills[k];
            && (RecordFillOnce(t, f, id).Success? <==>
                  saved.fill.sec == f.sec && saved.fill.qty == f.qty && saved.fill.price == f.price)
            && (RecordFillOnce(t, f, id).Success? ==>
                  var u := RecordFillOnce(t, f, id).value;
                  && u == t.(fills := u.fills) && |u.fills| == |t.fills|
                  && (forall j :: 0 <= j < |t.fills| && j != k ==> u.fills[j] == t.fills[j])
                  && u.fills[k].intent == saved.intent && !u.fills[k].legacy
                  && u.fills[k].fill == f.(fees := if saved.fill.fees < f.fees then f.fees else saved.fill.fees))
  {}

  /** A new trade must be of an intent's own security and fit what is left of it; it reopens the intent if that was closed. */
  lemma NewFillSays(t: Tables, f: Fill, id: Id)
    requires DistinctIntents(t.intents)
    requires forall k :: 0 <= k < |t.fills| ==> !(t.fills[k].fill.order == f.order && t.fills[k].fill.trade == f.trade)
    ensures RecordFillOnce(t, f, id).Success? <==>
            exists k :: 0 <= k < |t.intents| && t.intents[k].intent.id == id && t.intents[k].intent.sec == f.sec
                        && FilledQty(t.fills, id) + f.qty <= t.intents[k].intent.qty
    ensures RecordFillOnce(t, f, id).Success? ==>
              var u := RecordFillOnce(t, f, id).value;
              && u == t.(fills := t.fills + [FillRow(f, id, false)], intents := u.intents) && |u.intents| == |t.intents|
              && forall k :: 0 <= k < |t.intents| ==>
                   u.intents[k] == if t.intents[k].intent.id == id && t.intents[k].state == RecoveryClosed
                                   then t.intents[k].(state := Sent) else t.intents[k]
  {
    hide FilledQty;
  }

  /** A charge is refused exactly when negative, or when order or saved charge are another intent's. */
  lemma ChargedIff(t: Tables, order: Id, id: Id, fees: real, complete: bool)
    ensures RecordOrderCharges(t, order, id, fees, complete).Success? <==>
            && fees >= 0.0 && order in t.orders && t.orders[order].intent == id
            && (ChargeAt(t.charges, order).Some? ==> ChargeAt(t.charges, order).value.intent == id)
  {}

  /** The operator closes exactly an unknown send without a receipt, which then has both. */
  lemma RouteClosedIff(t: Tables, id: Id)
    ensures CloseRoute(t, id).Success? <==>
            id !in t.receipts && exists k :: 0 <= k < |t.intents| && t.intents[k].intent.id == id && t.intents[k].state == SendUnknown
    ensures CloseRoute(t, id).Success? ==>
              var u := CloseRoute(t, id).value;
              && id in u.receipts && |u.intents| == |t.intents| && u == t.(receipts := t.receipts + {id}, intents := u.intents)
              && forall k :: 0 <= k < |t.intents| ==>
                   u.intents[k] == if t.intents[k].intent.id == id then t.intents[k].(state := RecoveryClosed) else t.intents[k]
  {}

  // ---------- Well-formed tables ----------

  ghost predicate DistinctIntents(rows: seq<IntentRow>) {
    forall j, k :: 0 <= j < k < |rows| ==>
      rows[j].intent.id != rows[k].intent.id && rows[j].intent.corr != rows[k].intent.corr
  }

  ghost predicate DistinctFills(fills: seq<FillRow>) {
    forall j, k :: 0 <= j < k < |fills| ==>
      !(fills[j].fill.order == fills[k].fill.order && fills[j].fill.trade == fills[k].fill.trade)
  }

  /** Unique keys, and no intent recorded as filled beyond its quantity. */
  ghost predicate WellFormed(t: Tables) {
    && DistinctIntents(t.intents)
    && DistinctFills(t.fills)
    && (forall k :: 0 <= k < |t.intents| ==> FilledQty(t.fills, t.intents[k].intent.id) <= t.intents[k].intent.qty)
    && (forall k :: 0 <= k < |t.fills| ==> HasIntent(t, t.fills[k].intent))
  }

  lemma {:induction false} FilledQtySameQuantities(a: seq<FillRow>, b: seq<FillRow>, id: Id)
    requires |a| == |b|
    requires forall k :: 0 <= k < |a| ==> a[k].intent == b[k].intent && a[k].fill.qty == b[k].fill.qty
    ensures FilledQty(a, id) == FilledQty(b, id)
  {
    if a != [] {
      FilledQtySameQuantities(a[..|a| - 1], b[..|b| - 1], id);
    }
  }

  lemma FilledQtyAppend(fills: seq<FillRow>, row: FillRow, id: Id)
    ensures FilledQty(fills + [row], id) == FilledQty(fills, id) + if row.intent == id then row.fill.qty else 0
  {
    assert (fills + [row])[..|fills|] == fills;
  }

  lemma {:induction false} NoFillNoQty(t: Tables, fills: seq<FillRow>, id: Id)
    requires forall k :: 0 <= k < |fills| ==> fills[k].intent != id
    ensures FilledQty(fills, id) == 0
  {
    if fills != [] {
      NoFillNoQty(t, fills[..|fills| - 1], id);
    }
  }

  /** Rows keeping their intents, with fills untouched, stay well-formed. */
  lemma SameIntentsWellFormed(t: Tables, u: Tables)
    requires WellFormed(t) && u.fills == t.fills && |u.intents| == |t.intents|
    requires forall k :: 0 <= k < |t.intents| ==> u.intents[k].intent == t.intents[k].intent
    ensures WellFormed(u)
  {
    forall k | 0 <= k < |u.fills|
      ensures HasIntent(u, u.fills[k].intent)
    {
      assert HasIntent(t, t.fills[k].intent);
      var j :| 0 <= j < |t.intents| && t.intents[j].intent.id == t.fills[k].intent;
      assert u.intents[j].intent.id == t.fills[k].intent;
    }
  }

  lemma CreateIntentWellFormed(t: Tables, i: Intent, reserved: real)
    requires WellFormed(t)
    ensures var r := CreateIntent(t, i, reserved); r.Success? ==> WellFormed(r.value)
  {
    var r := CreateIntent(t, i, reserved);
    if r.Success? {
      var u := r.value;
      forall k | 0 <= k < |u.intents|
        ensures FilledQty(u.fills, u.intents[k].intent.id) <= u.intents[k].intent.qty
      {
        if k == |t.intents| {
          forall m | 0 <= m < |t.fills|
            ensures t.fills[m].intent != i.id
          {
            assert HasIntent(t, t.fills[m].intent);
          }
          NoFillNoQty(t, t.fills, i.id);
        }
      }
      forall k | 0 <= k < |u.fills|
        ensures HasIntent(u, u.fills[k].intent)
      {
        assert HasIntent(t, t.fills[k].intent);
        var j :| 0 <= j < |t.intents| && t.intents[j].intent.id == t.fills[k].intent;
        assert u.intents[j].intent.id == t.fills[k].intent;
      }
      forall j, k | 0 <= j < k < |u.intents|
        ensures u.intents[j].intent.id != u.intents[k].intent.id && u.intents[j].intent.corr != u.intents[k].intent.corr
      {
        if k == |t.intents| {
          assert u.intents[j] == t.intents[j];
        }
      }
    }
  }

  lemma KnownFillWellFormed(t: Tables, u: Tables)
    requires WellFormed(t) && u.intents == t.intents && |u.fills| == |t.fills|
    requires forall k :: 0 <= k < |t.fills| ==>
      u.fills[k].intent == t.fills[k].intent && u.fills[k].fill.order == t.fills[k].fill.order
      && u.fills[k].fill.trade == t.fills[k].fill.trade && u.fills[k].fill.qty == t.fills[k].fill.qty
    ensures WellFormed(u)
  {
    forall k | 0 <= k < |t.intents|
      ensures FilledQty(u.fills, u.intents[k].intent.id) <= u.intents[k].intent.qty
    {
      FilledQtySameQuantities(u.fills, t.fills, t.intents[k].intent.id);
    }
    forall k | 0 <= k < |u.fills|
      ensures HasIntent(u, u.fills[k].intent)
    {
      assert HasIntent(t, t.fills[k].intent);
    }
  }

  lemma NewFillWellFormed(v: Tables, u: Tables, row: FillRow)
    requires WellFormed(v) && u == v.(fills := v.fills + [row]) && HasIntent(v, row.intent)
    requires forall k :: 0 <= k < |v.fills| ==>
      !(v.fills[k].fill.order == row.fill.order && v.fills[k].fill.trade == row.fill.trade)
    requires forall k :: 0 <= k < |v.intents| && v.intents[k].intent.id == row.intent ==>
               FilledQty(v.fills, row.intent) + row.fill.qty <= v.intents[k].intent.qty
    ensures WellFormed(u)
  {
    forall k | 0 <= k < |u.intents|
      ensures FilledQty(u.fills, u.intents[k].intent.id) <= u.intents[k].intent.qty
    {
      FilledQtyAppend(v.fills, row, v.intents[k].intent.id);
    }
    forall k | 0 <= k < |u.fills|
      ensures HasIntent(u, u.fills[k].intent)
    {
      if k < |v.fills| {
        assert HasIntent(v, v.fills[k].intent);
      }
    }
  }

  /** Recording fills, in any state: identities stay unique and no intent is ever overfilled. */
  lemma RecordFillWellFormed(t: Tables, f: Fill, id: Id)
    requires WellFormed(t)
    ensures var r := RecordFillOnce(t, f, id); r.Success? ==> WellFormed(r.value)
  {
    var r := RecordFillOnce(t, f, id);
    if r.Success? {
      if FillAt(t.fills, f.order, f.trade).Some? {
        KnownFillWellFormed(t, r.value);
      } else {
        var v := t.(intents := Reopened(t.intents, id));
        SameIntentsWellFormed(t, v);
        var at := IntentAt(t.intents, id).value;
        assert v.intents[at].intent.id == id;
        NewFillWellFormed(v, r.value, FillRow(f, id, false));
      }
    }
  }

  predicate SaysMore(a: ChargeRow, b: ChargeRow) {
    a.fees > b.fees || (a.fees == b.fees && (a.complete || !b.complete))
  }

  lemma {:induction false} WithoutChargeKeeps(charges: seq<ChargeRow>, order: Id, other: Id)
    ensures ChargeAt(WithoutCharge(charges, order), order) == None
    ensures other != order ==> ChargeAt(WithoutCharge(charges, order), other) == ChargeAt(charges, other)
  {
    if charges != [] {
      var init, last := charges[..|charges| - 1], charges[|charges| - 1];
      WithoutChargeKeeps(init, order, other);
      var rest := WithoutCharge(init, order);
      assert (rest + [last])[..|rest|] == rest;
    }
  }

  /** A charge only ever gives way to one of its own order and intent that says more; other orders' charges stay. */
  lemma ChargesKeepTheMost(t: Tables, order: Id, id: Id, fees: real, complete: bool, other: Id)
    requires RecordOrderCharges(t, order, id, fees, complete).Success?
    ensures var u := RecordOrderCharges(t, order, id, fees, complete).value;
            var saved, now := ChargeAt(t.charges, order), ChargeAt(u.charges, order);
            && now.Some? && now.value.intent == id && SaysMore(now.value, ChargeRow(order, id, fees, complete))
            && (saved.Some? ==> saved.value.intent == id && SaysMore(now.value, saved.value))
            && (now == saved || now == Some(ChargeRow(order, id, fees, complete)))
            && (other != order ==> ChargeAt(u.charges, other) == ChargeAt(t.charges, other))
            && u == t.(charges := u.charges)
  {
    ChargeIsOfOrder(t.charges, order);
    WithoutChargeKeeps(t.charges, order, other);
    var rest, row := WithoutCharge(t.charges, order), ChargeRow(order, id, fees, complete);
    assert (rest + [row])[..|rest|] == rest;
  }

  lemma {:induction false} ChargeIsOfOrder(charges: seq<ChargeRow>, order: Id)
    ensures ChargeAt(charges, order).Some? ==> ChargeAt(charges, order).value.order == order
  {
    if charges != [] {
      ChargeIsOfOrder(charges[..|charges| - 1], order);
    }
  }

  // ---------- The store ----------

  class Store {
    var intents: seq<IntentRow>
    var attempts: map<Id, AttemptRow>
    var orders: map<Id, OrderRow>
    var fills: seq<FillRow>
    var charges: seq<ChargeRow>
    var receipts: set<Id>

    function T(): Tables
      reads this
    {
      Tables(intents, attempts, orders, fills, charges, receipts)
    }

    constructor ()
      ensures T() == EMPTY
    {
      intents, attempts, orders, fills, charges, receipts := [], map[], map[], [], [], {};
    }

    method Create(i: Intent, reserved: real) returns (ok: bool)
      modifies this
      ensures ok <==> CreateIntent(old(T()), i, reserved).Success?
      ensures T() == if ok then CreateIntent(old(T()), i, reserved).value else old(T())
    {
      if reserved < 0.0 || (i.side == BUY && reserved == 0.0) {
        return false;
      }
      for k := 0 to |intents|
        invariant T() == old(T())
        invariant forall j :: 0 <= j < k ==> intents[j].intent.id != i.id && intents[j].intent.corr != i.corr
      {
        if intents[k].intent.id == i.id || intents[k].intent.corr == i.corr {
          return false;
        }
      }
      intents := intents + [IntentRow(i, reserved, PendingSend)];
      ok := true;
    }

    method Set(id: Id, s: IntentState)
      modifies this
      ensures T() == SetState(old(T()), id, s)
    {
      intents := WithState(intents, id, s);
    }

    method Attempt(attempt: Id, id: Id, s: AttemptState)
      modifies this
      ensures T() == RecordAttempt(old(T()), attempt, id, s)
    {
      var owner := if attempt in attempts then attempts[attempt].intent else id;
      attempts := attempts[attempt := AttemptRow(owner, s)];
      intents := WithState(intents, id, if s == ACCEPTED then Sent else SendUnknown);
    }

    method Order(order: Id, id: Id, status: OrderStatus, report: Report) returns (ok: bool)
      modifies this
      ensures ok <==> RecordOrder(old(T()), order, id, status, report).Success?
      ensures T() == if ok then RecordOrder(old(T()), order, id, status, report).value else old(T())
    {
      if order in orders {
        var saved := orders[order];
        if saved.intent != id {
          return false;
        }
        if saved.status.Done? && status == Working {
          return true;
        }
        if saved.status == status && saved.report == report {
          return true;
        }
      }
      orders := orders[order := OrderRow(id, status, report)];
      intents := Reopened(intents, id);
      ok := true;
    }

    method Filled(id: Id) returns (n: nat)
      ensures n == FilledQty(fills, id)
    {
      n := 0;
      for k := 0 to |fills|
        invariant n == FilledQty(fills[..k], id)
      {
        FilledQtyAppend(fills[..k], fills[k], id);
        assert fills[..k + 1] == fills[..k] + [fills[k]];
        if fills[k].intent == id {
          n := n + fills[k].fill.qty;
        }
      }
      assert fills[..|fills|] == fills;
    }

    method FillOnce(f: Fill, id: Id) returns (ok: bool)
      modifies this
      ensures ok <==> RecordFillOnce(old(T()), f, id).Success?
      ensures T() == if ok then RecordFillOnce(old(T()), f, id).value else old(T())
    {
      var found := FillAt(fills, f.order, f.trade);
      if found.Some? {
        var k := found.value;
        var saved := fills[k];
        if (saved.fill.sec, saved.fill.qty, saved.fill.price) != (f.sec, f.qty, f.price) {
          return false;
        }
        var fees := if f.fees > saved.fill.fees then f.fees else saved.fill.fees;
        fills := fills[k := saved.(fill := saved.fill.(fees := fees), legacy := false)];
        return true;
      }
      var at := IntentAt(intents, id);
      var quantity := Filled(id);
      if at.None? || f.sec != intents[at.value].intent.sec || quantity + f.qty > intents[at.value].intent.qty {
        return false;
      }
      intents := Reopened(intents, id);
      fills := fills + [FillRow(f, id, false)];
      ok := true;
    }

    method Charge(order: Id, id: Id, fees: real, complete: bool) returns (ok: bool)
      modifies this
      ensures ok <==> RecordOrderCharges(old(T()), order, id, fees, complete).Success?
      ensures T() == if ok then RecordOrderCharges(old(T()), order, id, fees, complete).value else old(T())
    {
      var saved := ChargeAt(charges, order);
      if fees < 0.0 || order !in orders || orders[order].intent != id || (saved.Some? && saved.value.intent != id) {
        return false;
      }
      if saved.Some? {
        var prior := saved.value;
        if fees < prior.fees || (fees == prior.fees && (prior.complete || !complete)) {
          return true;
        }
      }
      charges := WithoutCharge(charges, order) + [ChargeRow(order, id, fees, complete)];
      ok := true;
    }

    /** Receipt and state of a reset, together. */
    method Reset(id: Id) returns (ok: bool)
      modifies this
      ensures ok <==> CloseRoute(old(T()), id).Success?
      ensures T() == if ok then CloseRoute(old(T()), id).value else old(T())
    {
      if id in receipts {
        return false;
      }
      for k := 0 to |intents|
        invariant T() == old(T())
        invariant forall j :: 0 <= j < k ==> !(intents[j].intent.id == id && intents[j].state == SendUnknown)
      {
        if intents[k].intent.id == id && intents[k].state == SendUnknown {
          receipts := receipts + {id};
          intents := WithState(intents, id, RecoveryClosed);
          return true;
        }
      }
      ok := false;
    }

    /** The pending quantity a sale must leave untouched. */
    method PendingQuantity(side: Side, sec: Id) returns (n: nat)
      ensures n == PendingQty(T(), |intents|, side, sec)
    {
      n := 0;
      for k := 0 to |intents|
        invariant n == PendingQty(T(), k, side, sec)
      {
        var row := intents[k];
        if Pending(T(), row) && row.intent.side == side && row.intent.sec == sec {
          n := n + row.intent.qty;
        }
      }
    }
  }
}
