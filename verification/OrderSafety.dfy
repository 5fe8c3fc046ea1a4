/** What every step of the order protocol keeps, and what therefore holds over all runs. */
module OrderSafety {
  import opened Wrappers
  import opened Ledger
  import opened Orders

  // ---------- Exposure ----------

  /** Quantity of an intent the broker may still execute: all of it on the wire, the unfilled rest while working. */
  function Exposure(b: Broker, i: Intent): nat {
    if i.corr in b.wire then i.qty
    else if i.corr in b.book && b.book[i.corr].status == Working && b.book[i.corr].filled <= i.qty
    then i.qty - b.book[i.corr].filled
    else 0
  }

  /** Unfilled quantity of all live sales of a security among the first n intents. */
  function LiveSales(b: Broker, rows: seq<IntentRow>, n: nat, sec: Id): nat
    requires n <= |rows|
  {
    if n == 0 then 0
    else LiveSales(b, rows, n - 1, sec)
         + var i := rows[n - 1].intent;
           if i.side == SELL && i.sec == sec then Exposure(b, i) else 0
  }

  /** Long quantity not yet claimed by a live sale. */
  function Slack(t: Tables, b: Broker, sec: Id): int {
    Net(b, sec) - LiveSales(b, t.intents, |t.intents|, sec)
  }

  ghost predicate HasRow(rows: seq<IntentRow>, i: Intent) {
    exists k :: 0 <= k < |rows| && rows[k].intent == i
  }

  ghost predicate HasSentRow(rows: seq<IntentRow>, corr: Id) {
    exists k :: 0 <= k < |rows| && rows[k].intent.corr == corr
  }

  ghost predicate BrokerDead(b: Broker, corr: Id) {
    corr in b.book && b.book[corr].status.Done?
  }

  // ---------- The invariant ----------

  /** A sent intent has its attempt committed; a resolved one is terminal at the broker or was never sent. */
  ghost predicate RowInv(t: Tables, b: Broker, sent: seq<Id>, row: IntentRow) {
    && (row.intent.corr in sent ==> HasAttempt(t, row.intent.id) && row.state != PendingSend && row.state != Aborted)
    && (row.state == Filled || row.state.Ended? ==> BrokerDead(b, row.intent.corr))
    && (row.state.Ended? ==> b.book[row.intent.corr].status == Done(row.state.how))
    && (row.state == Filled ==> FilledQty(t.fills, row.intent.id) == row.intent.qty)
  }

  ghost predicate OrderRowInv(t: Tables, b: Broker, o: Id, row: OrderRow) {
    exists k :: 0 <= k < |t.intents| && t.intents[k].intent.id == row.intent
                && Truthful(b, t.intents[k].intent.corr, row.report)
                && b.book[t.intents[k].intent.corr].id == o
                && row.status == row.report.status
  }

  ghost predicate TableInv(t: Tables, b: Broker, sent: seq<Id>) {
    && WellFormed(t)
    && (forall k :: 0 <= k < |t.intents| ==> RowInv(t, b, sent, t.intents[k]))
    && (forall o :: o in t.orders ==> OrderRowInv(t, b, o, t.orders[o]))
    && (forall c :: c in sent ==> HasSentRow(t.intents, c))
  }

  ghost predicate Distinct(ids: seq<Id>) {
    forall j, k :: 0 <= j < k < |ids| ==> ids[j] != ids[k]
  }

  ghost predicate BrokerInv(t: Tables, b: Broker, sent: seq<Id>) {
    && Distinct(sent)
    && (forall c :: c in b.wire ==> b.wire[c].corr == c && HasRow(t.intents, b.wire[c]) && c in sent && c !in b.book)
    && (forall c :: c in b.book ==> b.book[c].intent.corr == c && HasRow(t.intents, b.book[c].intent) && c in sent
                                    && b.book[c].filled <= b.book[c].intent.qty)
    && (forall c, d :: c in b.book && d in b.book && b.book[c].id == b.book[d].id ==> c == d)
  }

  ghost predicate SubmitInv(w: World) {
    match w.p.submit
    case Idle => true
    case AskedPositions(i, _, pending) => i.side == SELL && pending == PendingQty(w.t, |w.t.intents|, SELL, i.sec)
    case GotPositions(i, _, pending, held) => i.side == SELL && Slack(w.t, w.b, i.sec) >= held - pending
    case Posting(i, attempt) => PostingInv(w.t, w.sent, i, attempt)
  }

  ghost predicate PostingInv(t: Tables, sent: seq<Id>, i: Intent, attempt: Id) {
    && (exists k :: 0 <= k < |t.intents| && t.intents[k].intent == i && t.intents[k].state == SendUnknown)
    && i.corr in sent
    && attempt in t.attempts && t.attempts[attempt].intent == i.id
  }

  ghost predicate LinesInv(b: Broker, lines: seq<OrderLine>) {
    forall k :: 0 <= k < |lines| ==> TruthfulLine(b, lines[k])
  }

  ghost predicate ResolvedInv(t: Tables, b: Broker, rows: seq<IntentRow>, resolved: seq<Option<Report>>) {
    && |resolved| <= |rows|
    && (forall k :: 0 <= k < |rows| ==> HasRow(t.intents, rows[k].intent))
    && (forall k :: 0 <= k < |resolved| && resolved[k].Some? ==> Truthful(b, rows[k].intent.corr, resolved[k].value))
  }

  ghost predicate BatchInv(w: World) {
    match w.p.batch
    case NoBatch => true
    case Reading(_, _, lines, _, _) => lines.Some? ==> LinesInv(w.b, lines.value)
    case Resolving(_, _, rows, lines, _, _, resolved) => LinesInv(w.b, lines) && ResolvedInv(w.t, w.b, rows, resolved)
  }

  /** The positions cover every live sale. */
  ghost predicate Covered(t: Tables, b: Broker) {
    forall sec :: Slack(t, b, sec) >= 0
  }

  ghost predicate Inv(w: World) {
    && TableInv(w.t, w.b, w.sent)
    && BrokerInv(w.t, w.b, w.sent)
    && Covered(w.t, w.b)
    && SubmitInv(w)
    && BatchInv(w)
  }

  // ---------- Sums over intents ----------

  lemma {:induction false} LiveSame(b: Broker, c: Broker, rows: seq<IntentRow>, others: seq<IntentRow>, n: nat, sec: Id)
    requires n <= |rows| && n <= |others|
    requires forall k :: 0 <= k < n ==> rows[k].intent == others[k].intent
    requires forall k :: 0 <= k < n ==> Exposure(b, rows[k].intent) == Exposure(c, rows[k].intent)
    ensures LiveSales(b, rows, n, sec) == LiveSales(c, others, n, sec)
  {
    if n > 0 {
      LiveSame(b, c, rows, others, n - 1, sec);
    }
  }

  /** When one intent's exposure changes, the live total changes by exactly that. */
  lemma {:induction false} LiveOneChange(b: Broker, c: Broker, rows: seq<IntentRow>, n: nat, k: nat, sec: Id)
    requires k < n <= |rows|
    requires forall j :: 0 <= j < n && j != k ==> Exposure(b, rows[j].intent) == Exposure(c, rows[j].intent)
    ensures var i := rows[k].intent;
            LiveSales(c, rows, n, sec) == LiveSales(b, rows, n, sec)
              + if i.side == SELL && i.sec == sec then Exposure(c, i) - Exposure(b, i) else 0
  {
    if k == n - 1 {
      LiveSame(b, c, rows, rows, n - 1, sec);
    } else {
      LiveOneChange(b, c, rows, n - 1, k, sec);
    }
  }

  /** An intent that is no longer pending has nothing left at the broker. */
  lemma NotPendingNotExposed(t: Tables, b: Broker, sent: seq<Id>, k: nat)
    requires TableInv(t, b, sent) && BrokerInv(t, b, sent) && k < |t.intents|
    requires t.intents[k].intent.side == SELL && !Pending(t, t.intents[k])
    ensures Exposure(b, t.intents[k].intent) == 0
  {
    assert RowInv(t, b, sent, t.intents[k]);
  }

  /** The pending quantity a submit sums up bounds everything live. */
  lemma {:induction false} LiveWithinPending(t: Tables, b: Broker, sent: seq<Id>, n: nat, sec: Id)
    requires TableInv(t, b, sent) && BrokerInv(t, b, sent) && n <= |t.intents|
    ensures LiveSales(b, t.intents, n, sec) <= PendingQty(t, n, SELL, sec)
  {
    if n > 0 {
      LiveWithinPending(t, b, sent, n - 1, sec);
      var row := t.intents[n - 1];
      if row.intent.side == SELL && !Pending(t, row) {
        NotPendingNotExposed(t, b, sent, n - 1);
      }
    }
  }

  // ---------- Environment steps ----------

  /** How the broker may evolve: accepted orders keep their identity and terminal ones never change. */
  ghost predicate BrokerLeq(b: Broker, c: Broker) {
    forall k :: k in b.book ==>
      k in c.book && c.book[k].id == b.book[k].id && c.book[k].intent == b.book[k].intent
      && (b.book[k].status.Done? ==> c.book[k] == b.book[k])
  }

  lemma TruthPersists(b: Broker, c: Broker, corr: Id, r: Report)
    requires BrokerLeq(b, c) && Truthful(b, corr, r)
    ensures Truthful(c, corr, r)
  {}

  lemma LinesPersist(b: Broker, c: Broker, lines: seq<OrderLine>)
    requires BrokerLeq(b, c) && LinesInv(b, lines)
    ensures LinesInv(c, lines)
  {
    forall k | 0 <= k < |lines|
      ensures TruthfulLine(c, lines[k])
    {
      assert TruthfulLine(b, lines[k]);
      if lines[k].corr.Some? {
        TruthPersists(b, c, lines[k].corr.value, lines[k].report);
      } else {
        var d :| d in b.book && Truthful(b, d, lines[k].report);
        TruthPersists(b, c, d, lines[k].report);
      }
    }
  }

  predicate IsEnvironment(e: Event) {
    e.Deliver? || e.Drop? || e.BrokerFill? || e.BrokerEnd?
  }

  function Touched(e: Event): Id
    requires IsEnvironment(e)
  {
    e.corr
  }

  lemma EnvironmentBroker(t: Tables, b: Broker, sent: seq<Id>, w: World, e: Event)
    requires BrokerInv(t, b, sent) && w.b == b && IsEnvironment(e) && Enabled(w, e)
    ensures BrokerLeq(b, BrokerNext(b, e))
    ensures BrokerInv(t, BrokerNext(b, e), sent)
  {
    hide BrokerInv, BrokerLeq;
    match e
    case Deliver(c, o) => Delivered(t, b, sent, c, o);
    case Drop(c) => Dropped(t, b, sent, c);
    case BrokerFill(c, _, _, _) => BookChanged(t, b, sent, c, BrokerNext(b, e).book[c], BrokerNext(b, e));
    case BrokerEnd(c, how) => BookChanged(t, b, sent, c, b.book[c].(status := Done(how)), BrokerNext(b, e));
  }

  lemma Delivered(t: Tables, b: Broker, sent: seq<Id>, c: Id, o: Id)
    requires BrokerInv(t, b, sent) && c in b.wire && forall d :: d in b.book ==> b.book[d].id != o
    ensures BrokerLeq(b, BrokerNext(b, Deliver(c, o))) && BrokerInv(t, BrokerNext(b, Deliver(c, o)), sent)
  {
    hide HasRow, Distinct;
  }

  lemma Dropped(t: Tables, b: Broker, sent: seq<Id>, c: Id)
    requires BrokerInv(t, b, sent)
    ensures BrokerLeq(b, BrokerNext(b, Drop(c))) && BrokerInv(t, BrokerNext(b, Drop(c)), sent)
  {
    hide HasRow, Distinct;
  }

  /** A working order that moves on keeps its identity. */
  lemma BookChanged(t: Tables, b: Broker, sent: seq<Id>, c: Id, o: BrokerOrder, d: Broker)
    requires BrokerInv(t, b, sent) && c in b.book && b.book[c].status == Working
    requires o.id == b.book[c].id && o.intent == b.book[c].intent && (o.filled <= o.intent.qty || o.filled == b.book[c].filled)
    requires d.book == b.book[c := o] && d.wire == b.wire
    ensures BrokerLeq(b, d) && BrokerInv(t, d, sent)
  {
    hide HasRow, Distinct;
  }

  lemma TableInvUnderBroker(t: Tables, b: Broker, c: Broker, sent: seq<Id>)
    requires TableInv(t, b, sent) && BrokerLeq(b, c)
    ensures TableInv(t, c, sent)
  {
    forall o | o in t.orders
      ensures OrderRowInv(t, c, o, t.orders[o])
    {
      assert OrderRowInv(t, b, o, t.orders[o]);
    }
    forall k | 0 <= k < |t.intents|
      ensures RowInv(t, c, sent, t.intents[k])
    {
      assert RowInv(t, b, sent, t.intents[k]);
    }
  }

  lemma ExposureElsewhere(w: World, e: Event, i: Intent)
    requires IsEnvironment(e) && Enabled(w, e) && i.corr != Touched(e)
    ensures Exposure(BrokerNext(w.b, e), i) == Exposure(w.b, i)
  {}

  /** A broker step takes from the touched intent's exposure at least what it takes from its net position. */
  lemma ExposureTouched(t: Tables, sent: seq<Id>, w: World, e: Event, i: Intent)
    requires BrokerInv(t, w.b, sent) && IsEnvironment(e) && Enabled(w, e) && i.corr == Touched(e)
    requires i == (if Touched(e) in w.b.wire then w.b.wire[Touched(e)] else w.b.book[Touched(e)].intent)
    ensures var c := BrokerNext(w.b, e);
            && (i.side == SELL ==> Exposure(w.b, i) - Exposure(c, i) >= Net(w.b, i.sec) - Net(c, i.sec))
            && (i.side == BUY ==> Net(c, i.sec) >= Net(w.b, i.sec))
            && Exposure(w.b, i) >= Exposure(c, i)
            && forall sec :: sec != i.sec ==> Net(c, sec) == Net(w.b, sec)
  {}

  /** Whatever the broker does on its own, no long quantity becomes unclaimed debt. */
  lemma EnvironmentSlack(t: Tables, sent: seq<Id>, w: World, e: Event, sec: Id)
    requires DistinctIntents(t.intents) && BrokerInv(t, w.b, sent) && IsEnvironment(e) && Enabled(w, e)
    ensures Slack(t, BrokerNext(w.b, e), sec) >= Slack(t, w.b, sec)
  {
    hide Exposure, BrokerInv, BrokerNext, DistinctIntents;
    var c := Touched(e);
    var next := BrokerNext(w.b, e);
    TouchedRow(t, w.b, sent, c);
    var i := if c in w.b.wire then w.b.wire[c] else w.b.book[c].intent;
    var k :| 0 <= k < |t.intents| && t.intents[k].intent == i;
    ExposureTouched(t, sent, w, e, i);
    forall j | 0 <= j < |t.intents| && j != k
      ensures Exposure(w.b, t.intents[j].intent) == Exposure(next, t.intents[j].intent)
    {
      OtherCorr(t.intents, j, k);
      ExposureElsewhere(w, e, t.intents[j].intent);
    }
    hide Enabled;
    LiveOneChange(w.b, next, t.intents, |t.intents|, k, sec);
  }

  lemma TouchedRow(t: Tables, b: Broker, sent: seq<Id>, c: Id)
    requires BrokerInv(t, b, sent) && (c in b.wire || c in b.book)
    ensures var i := if c in b.wire then b.wire[c] else b.book[c].intent; i.corr == c && HasRow(t.intents, i)
  {}

  lemma OtherCorr(rows: seq<IntentRow>, j: nat, k: nat)
    requires DistinctIntents(rows) && j < |rows| && k < |rows| && j != k
    ensures rows[j].intent.corr != rows[k].intent.corr
  {}

  lemma EnvironmentShape(w: World, e: Event)
    requires IsEnvironment(e)
    ensures Next(w, e) == w.(b := BrokerNext(w.b, e))
  {}

  lemma EnvironmentKeeps(w: World, e: Event)
    requires Inv(w) && IsEnvironment(e) && Enabled(w, e)
    ensures Inv(Next(w, e))
  {
    hide BrokerNext, Next, Enabled, Slack;
    EnvironmentShape(w, e);
    var v := Next(w, e);
    EnvironmentBroker(w.t, w.b, w.sent, w, e);
    TableInvUnderBroker(w.t, w.b, v.b, w.sent);
    forall sec
      ensures Slack(v.t, v.b, sec) >= 0
    {
      EnvironmentSlack(w.t, w.sent, w, e, sec);
    }
    if w.p.submit.GotPositions? {
      EnvironmentSlack(w.t, w.sent, w, e, w.p.submit.i.sec);
    }
    BatchUnderBroker(w, v);
  }

  lemma BatchUnderBroker(w: World, v: World)
    requires BatchInv(w) && v.p.batch == w.p.batch && v.t == w.t && BrokerLeq(w.b, v.b)
    ensures BatchInv(v)
  {
    match w.p.batch
    case NoBatch =>
    case Reading(_, _, lines, _, _) =>
      if lines.Some? {
        LinesPersist(w.b, v.b, lines.value);
      }
    case Resolving(_, _, rows, lines, _, _, resolved) =>
      LinesPersist(w.b, v.b, lines);
  }

  // ---------- Commits ----------

  /** Rows keep their intents and reservations, and attempts their owners. */
  ghost predicate TablesLeq(t: Tables, u: Tables) {
    && |t.intents| <= |u.intents|
    && (forall k :: 0 <= k < |t.intents| ==>
          u.intents[k].intent == t.intents[k].intent && u.intents[k].reserved == t.intents[k].reserved)
    && (forall a :: a in t.attempts ==> a in u.attempts && u.attempts[a].intent == t.attempts[a].intent)
  }

  lemma RowPersists(t: Tables, u: Tables, i: Intent)
    requires TablesLeq(t, u) && HasRow(t.intents, i)
    ensures HasRow(u.intents, i)
  {
    var k :| 0 <= k < |t.intents| && t.intents[k].intent == i;
    assert u.intents[k].intent == i;
  }

  lemma AttemptPersists(t: Tables, u: Tables, id: Id)
    requires TablesLeq(t, u) && HasAttempt(t, id)
    ensures HasAttempt(u, id)
  {
    var a :| a in t.attempts && t.attempts[a].intent == id;
    assert u.attempts[a].intent == id;
  }

  /** Everything about orders and sends survives a commit that only rewrites row states or adds rows. */
  lemma OtherRowsPersist(t: Tables, u: Tables, b: Broker, sent: seq<Id>)
    requires TableInv(t, b, sent) && TablesLeq(t, u)
    ensures forall o :: o in t.orders ==> OrderRowInv(u, b, o, t.orders[o])
    ensures forall c :: c in sent ==> HasSentRow(u.intents, c)
  {
    forall o | o in t.orders
      ensures OrderRowInv(u, b, o, t.orders[o])
    {
      var row := t.orders[o];
      assert OrderRowInv(t, b, o, row);
      var k :| 0 <= k < |t.intents| && t.intents[k].intent.id == row.intent
               && Truthful(b, t.intents[k].intent.corr, row.report)
               && b.book[t.intents[k].intent.corr].id == o && row.status == row.report.status;
      assert u.intents[k].intent == t.intents[k].intent;
    }
    forall c | c in sent
      ensures HasSentRow(u.intents, c)
    {
      var k :| 0 <= k < |t.intents| && t.intents[k].intent.corr == c;
      assert u.intents[k].intent.corr == c;
    }
  }

  /** A commit that rewrites states, and leaves fills and orders alone. */
  lemma StatesRewritten(t: Tables, u: Tables, b: Broker, sent: seq<Id>)
    requires TableInv(t, b, sent) && TablesLeq(t, u)
    requires u.fills == t.fills && u.orders == t.orders && |u.intents| == |t.intents|
    requires forall k :: 0 <= k < |u.intents| ==>
      u.intents[k].state == t.intents[k].state || RowInv(u, b, sent, u.intents[k])
    ensures TableInv(u, b, sent)
  {
    SameIntentsWellFormed(t, u);
    OtherRowsPersist(t, u, b, sent);
    forall k | 0 <= k < |u.intents|
      ensures RowInv(u, b, sent, u.intents[k])
    {
      assert RowInv(t, b, sent, t.intents[k]);
      if HasAttempt(t, t.intents[k].intent.id) {
        AttemptPersists(t, u, t.intents[k].intent.id);
      }
    }
  }

  lemma SetStateKeeps(t: Tables, b: Broker, sent: seq<Id>, id: Id, s: IntentState)
    requires TableInv(t, b, sent)
    requires forall k :: 0 <= k < |t.intents| && t.intents[k].intent.id == id ==> RowInv(t, b, sent, t.intents[k].(state := s))
    ensures TableInv(SetState(t, id, s), b, sent)
    ensures TablesLeq(t, SetState(t, id, s))
  {
    var u := SetState(t, id, s);
    forall k | 0 <= k < |u.intents| && u.intents[k].state != t.intents[k].state
      ensures RowInv(u, b, sent, u.intents[k])
    {
      assert RowInv(t, b, sent, t.intents[k].(state := s));
      if HasAttempt(t, id) {
        AttemptPersists(t, u, id);
      }
    }
    StatesRewritten(t, u, b, sent);
  }

  lemma RecordAttemptKeeps(t: Tables, b: Broker, sent: seq<Id>, attempt: Id, id: Id, s: AttemptState)
    requires TableInv(t, b, sent)
    ensures var u := RecordAttempt(t, attempt, id, s); TableInv(u, b, sent) && TablesLeq(t, u)
    ensures attempt !in t.attempts ==> HasAttempt(RecordAttempt(t, attempt, id, s), id)
  {
    var u := RecordAttempt(t, attempt, id, s);
    forall k | 0 <= k < |u.intents| && u.intents[k].state != t.intents[k].state
      ensures RowInv(u, b, sent, u.intents[k])
    {
      assert RowInv(t, b, sent, t.intents[k]);
      if HasAttempt(t, id) {
        AttemptPersists(t, u, id);
      }
    }
    StatesRewritten(t, u, b, sent);
    assert attempt in u.attempts;
  }

  lemma CreateKeeps(t: Tables, b: Broker, sent: seq<Id>, i: Intent, reserved: real)
    requires TableInv(t, b, sent) && CreateIntent(t, i, reserved).Success?
    ensures var u := CreateIntent(t, i, reserved).value; TableInv(u, b, sent) && TablesLeq(t, u)
    ensures i.corr !in sent
  {
    var u := CreateIntent(t, i, reserved).value;
    CreateIntentWellFormed(t, i, reserved);
    OtherRowsPersist(t, u, b, sent);
    if i.corr in sent {
      assert HasSentRow(t.intents, i.corr);
      assert HasCorr(t, i.corr);
    }
    forall k | 0 <= k < |u.intents|
      ensures RowInv(u, b, sent, u.intents[k])
    {
      if k < |t.intents| {
        assert RowInv(t, b, sent, t.intents[k]);
        if HasAttempt(t, t.intents[k].intent.id) {
          AttemptPersists(t, u, t.intents[k].intent.id);
        }
      }
    }
  }

  /** Reopening a recovery-closed row never breaks a row's obligations. */
  lemma ReopenedRows(t: Tables, u: Tables, b: Broker, sent: seq<Id>, id: Id)
    requires TableInv(t, b, sent) && u == t.(intents := Reopened(t.intents, id))
    ensures TableInv(u, b, sent) && TablesLeq(t, u)
  {
    forall k | 0 <= k < |u.intents| && u.intents[k].state != t.intents[k].state
      ensures RowInv(u, b, sent, u.intents[k])
    {
      assert RowInv(t, b, sent, t.intents[k]);
      if HasAttempt(t, id) {
        AttemptPersists(t, u, id);
      }
    }
    StatesRewritten(t, u, b, sent);
  }

  lemma RecordOrderKeeps(t: Tables, b: Broker, sent: seq<Id>, i: Intent, r: Report)
    requires TableInv(t, b, sent) && HasRow(t.intents, i) && Truthful(b, i.corr, r)
    requires RecordOrder(t, r.order.value, i.id, r.status, r).Success?
    ensures var u := RecordOrder(t, r.order.value, i.id, r.status, r).value; TableInv(u, b, sent) && TablesLeq(t, u)
  {
    var u := RecordOrder(t, r.order.value, i.id, r.status, r).value;
    if u != t {
      var v := t.(intents := Reopened(t.intents, i.id));
      ReopenedRows(t, v, b, sent, i.id);
      assert u == v.(orders := u.orders);
      RowPersists(t, v, i);
      var k :| 0 <= k < |v.intents| && v.intents[k].intent == i;
      OrderRowsExtended(v, u, b, sent, k, r);
    }
  }

  lemma OrderRowsExtended(v: Tables, u: Tables, b: Broker, sent: seq<Id>, k: nat, r: Report)
    requires TableInv(v, b, sent) && k < |v.intents| && Truthful(b, v.intents[k].intent.corr, r)
    requires u == v.(orders := v.orders[r.order.value := OrderRow(v.intents[k].intent.id, r.status, r)])
    ensures TableInv(u, b, sent)
  {
    SameIntentsWellFormed(v, u);
    OtherRowsPersist(v, u, b, sent);
    forall o | o in u.orders
      ensures OrderRowInv(u, b, o, u.orders[o])
    {
      if o == r.order.value {
        assert u.intents[k].intent.id == u.orders[o].intent;
      } else {
        assert u.orders[o] == v.orders[o];
      }
    }
    forall j | 0 <= j < |u.intents|
      ensures RowInv(u, b, sent, u.intents[j])
    {
      assert RowInv(v, b, sent, v.intents[j]);
    }
  }

  lemma KnownFillKeeps(t: Tables, u: Tables, b: Broker, sent: seq<Id>)
    requires TableInv(t, b, sent) && WellFormed(u) && u == t.(fills := u.fills) && |u.fills| == |t.fills|
    requires forall k :: 0 <= k < |t.fills| ==>
      u.fills[k].intent == t.fills[k].intent && u.fills[k].fill.qty == t.fills[k].fill.qty
    ensures TableInv(u, b, sent)
  {
    forall k | 0 <= k < |u.intents|
      ensures RowInv(u, b, sent, u.intents[k])
    {
      assert RowInv(t, b, sent, t.intents[k]);
      FilledQtySameQuantities(u.fills, t.fills, t.intents[k].intent.id);
    }
    OtherRowsPersist(t, u, b, sent);
  }

  lemma NewFillKeeps(v: Tables, u: Tables, b: Broker, sent: seq<Id>, row: FillRow)
    requires TableInv(v, b, sent) && WellFormed(u) && u == v.(fills := v.fills + [row])
    ensures TableInv(u, b, sent)
  {
    forall k | 0 <= k < |u.intents|
      ensures RowInv(u, b, sent, u.intents[k])
    {
      assert RowInv(v, b, sent, v.intents[k]);
      FilledQtyAppend(v.fills, row, v.intents[k].intent.id);
      assert FilledQty(u.fills, u.intents[k].intent.id) <= u.intents[k].intent.qty;
    }
    OtherRowsPersist(v, u, b, sent);
  }

  lemma TablesWellFormed(t: Tables, b: Broker, sent: seq<Id>)
    requires TableInv(t, b, sent)
    ensures WellFormed(t)
  {}

  lemma RecordFillKeeps(t: Tables, b: Broker, sent: seq<Id>, f: Fill, id: Id)
    requires TableInv(t, b, sent) && RecordFillOnce(t, f, id).Success?
    ensures var u := RecordFillOnce(t, f, id).value; TableInv(u, b, sent) && TablesLeq(t, u)
  {
    hide TableInv, WellFormed, FilledQty, IntentAt;
    var u := RecordFillOnce(t, f, id).value;
    TablesWellFormed(t, b, sent);
    RecordFillWellFormed(t, f, id);
    if FillAt(t.fills, f.order, f.trade).Some? {
      KnownFillKeeps(t, u, b, sent);
    } else {
      var v := t.(intents := Reopened(t.intents, id));
      ReopenedRows(t, v, b, sent, id);
      hide TablesLeq, Reopened;
      NewFillKeeps(v, u, b, sent, FillRow(f, id, false));
      SameRowsLeq(t, v, u);
    }
  }

  lemma SameRowsLeq(t: Tables, v: Tables, u: Tables)
    requires TablesLeq(t, v) && u.intents == v.intents && u.attempts == v.attempts
    ensures TablesLeq(t, u)
  {}

  lemma CloseRouteKeeps(t: Tables, b: Broker, sent: seq<Id>, id: Id)
    requires TableInv(t, b, sent) && CloseRoute(t, id).Success?
    ensures var u := CloseRoute(t, id).value; TableInv(u, b, sent) && TablesLeq(t, u)
  {
    var u := CloseRoute(t, id).value;
    var v := SetState(t, id, RecoveryClosed);
    forall k | 0 <= k < |t.intents| && t.intents[k].intent.id == id
      ensures RowInv(t, b, sent, t.intents[k].(state := RecoveryClosed))
    {
      assert RowInv(t, b, sent, t.intents[k]);
    }
    SetStateKeeps(t, b, sent, id, RecoveryClosed);
    assert u == v.(receipts := u.receipts);
    StatesRewritten(v, u, b, sent);
  }

  // ---------- Reconciliation ----------

  ghost predicate OpGood(t: Tables, b: Broker, op: Op) {
    && HasRow(t.intents, op.row.intent)
    && (op.NoteOrder? || op.Settle? ==> Truthful(b, op.row.intent.corr, op.report))
  }

  /** The order row a settlement consults belongs to the intent being settled, and tells the truth. */
  lemma SettledIsDead(t: Tables, b: Broker, sent: seq<Id>, i: Intent, r: Report)
    requires TableInv(t, b, sent) && BrokerInv(t, b, sent) && Truthful(b, i.corr, r)
    requires r.order.value in t.orders && t.orders[r.order.value].status.Done?
    ensures BrokerDead(b, i.corr) && b.book[i.corr].status == t.orders[r.order.value].status
  {
    var o := r.order.value;
    assert OrderRowInv(t, b, o, t.orders[o]);
    var k :| 0 <= k < |t.intents| && t.intents[k].intent.id == t.orders[o].intent
             && Truthful(b, t.intents[k].intent.corr, t.orders[o].report)
             && b.book[t.intents[k].intent.corr].id == o && t.orders[o].status == t.orders[o].report.status;
    assert t.intents[k].intent.corr == i.corr;
  }

  lemma OpKeeps(t: Tables, b: Broker, sent: seq<Id>, op: Op)
    requires TableInv(t, b, sent) && BrokerInv(t, b, sent) && OpGood(t, b, op) && ExecOp(t, op).Success?
    ensures var u := ExecOp(t, op).value; TableInv(u, b, sent) && TablesLeq(t, u)
  {
    match op
    case AbortUnsent(row) =>
      if row.state == PendingSend && !HasAttempt(t, row.intent.id) {
        forall k | 0 <= k < |t.intents| && t.intents[k].intent.id == row.intent.id
          ensures RowInv(t, b, sent, t.intents[k].(state := Aborted))
        {
          assert RowInv(t, b, sent, t.intents[k]);
        }
        SetStateKeeps(t, b, sent, row.intent.id, Aborted);
      }
    case NoteOrder(row, r) => RecordOrderKeeps(t, b, sent, row.intent, r);
    case NoteTrade(row, r, trade) =>
      if trade.TradeReport? && r.order == Some(trade.order) {
        RecordFillKeeps(t, b, sent,
          Fill(trade.order, trade.trade.value, row.intent.sec, trade.qty, trade.price, trade.fees), row.intent.id);
      }
    case NoteCharge(_, _, _, _, _) => ChargeKeeps(t, ExecOp(t, op).value, b, sent);
    case Settle(row, r) => SettleKeeps(t, b, sent, row, r);
  }

  /** Charges enter no obligation of the protocol. */
  lemma ChargeKeeps(t: Tables, u: Tables, b: Broker, sent: seq<Id>)
    requires TableInv(t, b, sent) && u == t.(charges := u.charges)
    ensures TableInv(u, b, sent) && TablesLeq(t, u)
  {
    forall k | 0 <= k < |u.intents|
      ensures RowInv(u, b, sent, u.intents[k])
    {
      assert RowInv(t, b, sent, t.intents[k]);
    }
    SameIntentsWellFormed(t, u);
    OtherRowsPersist(t, u, b, sent);
  }

  /** What a settlement that changes anything commits. */
  lemma SettleEffect(t: Tables, row: IntentRow, r: Report)
    requires ExecOp(t, Settle(row, r)).Success? && ExecOp(t, Settle(row, r)).value != t
    ensures r.order.Some? && r.order.value in t.orders && t.orders[r.order.value].status.Done?
    ensures var filled := FilledQty(t.fills, row.intent.id);
            ExecOp(t, Settle(row, r)).value == SetState(t, row.intent.id,
              if filled == row.intent.qty then Filled else Ended(t.orders[r.order.value].status.how))
  {
    hide FilledQty, SetState;
  }

  lemma SettleKeeps(t: Tables, b: Broker, sent: seq<Id>, row: IntentRow, r: Report)
    requires TableInv(t, b, sent) && BrokerInv(t, b, sent) && OpGood(t, b, Settle(row, r)) && ExecOp(t, Settle(row, r)).Success?
    ensures var u := ExecOp(t, Settle(row, r)).value; TableInv(u, b, sent) && TablesLeq(t, u)
  {
    var u := ExecOp(t, Settle(row, r)).value;
    if u != t {
      hide ExecOp, Truthful, OrderRowInv;
      SettleEffect(t, row, r);
      var status := t.orders[r.order.value].status;
      SettledIsDead(t, b, sent, row.intent, r);
      var filled := FilledQty(t.fills, row.intent.id);
      var s := if filled == row.intent.qty then Filled else Ended(status.how);
      var m :| 0 <= m < |t.intents| && t.intents[m].intent == row.intent;
      SettledRow(t, b, sent, m, s);
      SetStateKeeps(t, b, sent, row.intent.id, s);
    }
  }

  lemma SettledRow(t: Tables, b: Broker, sent: seq<Id>, m: nat, s: IntentState)
    requires TableInv(t, b, sent) && BrokerInv(t, b, sent) && m < |t.intents| && BrokerDead(b, t.intents[m].intent.corr)
    requires if s == Filled then FilledQty(t.fills, t.intents[m].intent.id) == t.intents[m].intent.qty
             else s.Ended? && b.book[t.intents[m].intent.corr].status == Done(s.how)
    ensures forall k :: 0 <= k < |t.intents| && t.intents[k].intent.id == t.intents[m].intent.id ==>
              RowInv(t, b, sent, t.intents[k].(state := s))
  {
    forall k | 0 <= k < |t.intents| && t.intents[k].intent.id == t.intents[m].intent.id
      ensures RowInv(t, b, sent, t.intents[k].(state := s))
    {
      assert k == m;
      assert RowInv(t, b, sent, t.intents[k]);
    }
  }

  ghost predicate OpsGood(t: Tables, b: Broker, ops: seq<Op>) {
    forall k :: 0 <= k < |ops| ==> OpGood(t, b, ops[k])
  }

  /** Every intermediate commit of a batch keeps the invariant, so a crash between any two is harmless. */
  lemma {:induction false} TrailKeeps(t: Tables, b: Broker, sent: seq<Id>, ops: seq<Op>)
    requires TableInv(t, b, sent) && BrokerInv(t, b, sent) && OpsGood(t, b, ops)
    ensures forall k :: 0 <= k < |Trail(t, ops)| ==> TableInv(Trail(t, ops)[k], b, sent) && TablesLeq(t, Trail(t, ops)[k])
    decreases |ops|
  {
    hide TableInv, BrokerInv, ExecOp, HasRow, Truthful;
    LeqReflexive(t);
    if ops != [] && ExecOp(t, ops[0]).Success? {
      var u := ExecOp(t, ops[0]).value;
      assert OpGood(t, b, ops[0]);
      OpKeeps(t, b, sent, ops[0]);
      BrokerInvPersists(t, u, b, sent);
      forall k | 0 <= k < |ops[1..]|
        ensures OpGood(u, b, ops[1..][k])
      {
        assert OpGood(t, b, ops[k + 1]);
        RowPersists(t, u, ops[k + 1].row.intent);
      }
      TrailKeeps(u, b, sent, ops[1..]);
      forall k | 0 <= k < |Trail(t, ops)|
        ensures TableInv(Trail(t, ops)[k], b, sent) && TablesLeq(t, Trail(t, ops)[k])
      {
        if k > 0 {
          assert Trail(t, ops)[k] == Trail(u, ops[1..])[k - 1];
          LeqTransitive(t, u, Trail(t, ops)[k]);
        }
      }
    }
  }

  lemma LeqTransitive(t: Tables, u: Tables, v: Tables)
    requires TablesLeq(t, u) && TablesLeq(u, v)
    ensures TablesLeq(t, v)
  {}

  lemma LeqReflexive(t: Tables)
    ensures TablesLeq(t, t)
  {}

  lemma BrokerInvPersists(t: Tables, u: Tables, b: Broker, sent: seq<Id>)
    requires BrokerInv(t, b, sent) && TablesLeq(t, u)
    ensures BrokerInv(u, b, sent)
  {
    forall c | c in b.wire
      ensures HasRow(u.intents, b.wire[c])
    {
      RowPersists(t, u, b.wire[c]);
    }
    forall c | c in b.book
      ensures HasRow(u.intents, b.book[c].intent)
    {
      RowPersists(t, u, b.book[c].intent);
    }
  }

  lemma {:induction false} TradeOpsGood(t: Tables, b: Broker, row: IntentRow, r: Report, trades: seq<TradeReport>)
    requires HasRow(t.intents, row.intent)
    ensures OpsGood(t, b, TradeOps(row, r, trades))
  {
    if trades != [] {
      TradeOpsGood(t, b, row, r, trades[1..]);
    }
  }

  lemma {:induction false} ProgramGood(t: Tables, b: Broker, rows: seq<IntentRow>, resolved: seq<Option<Report>>, trades: seq<TradeReport>)
    requires |resolved| == |rows| && ResolvedInv(t, b, rows, resolved)
    ensures OpsGood(t, b, Program(rows, resolved, trades))
  {
    if rows != [] {
      assert ResolvedInv(t, b, rows[1..], resolved[1..]) by {
        forall k | 0 <= k < |rows[1..]|
          ensures HasRow(t.intents, rows[1..][k].intent)
        {
          assert HasRow(t.intents, rows[k + 1].intent);
        }
      }
      ProgramGood(t, b, rows[1..], resolved[1..], trades);
      if resolved[0].Some? {
        TradeOpsGood(t, b, rows[0], resolved[0].value, trades);
      }
    }
  }

  // ---------- Commits and cover ----------

  lemma {:induction false} LivePrefix(b: Broker, rows: seq<IntentRow>, m: nat, n: nat, sec: Id)
    requires m <= n <= |rows|
    requires forall k :: m <= k < n ==> Exposure(b, rows[k].intent) == 0
    ensures LiveSales(b, rows, n, sec) == LiveSales(b, rows, m, sec)
  {
    if m < n {
      LivePrefix(b, rows, m, n - 1, sec);
    }
  }

  /** The broker holds nothing for a correlation id the tables do not know. */
  lemma UnknownUnexposed(t: Tables, b: Broker, sent: seq<Id>, i: Intent)
    requires BrokerInv(t, b, sent)
    requires forall j :: 0 <= j < |t.intents| ==> t.intents[j].intent.corr != i.corr
    ensures Exposure(b, i) == 0
  {
    assert i.corr in b.wire ==> HasRow(t.intents, b.wire[i.corr]);
    assert i.corr in b.book ==> HasRow(t.intents, b.book[i.corr].intent);
  }

  /** No commit changes what the live sales claim. */
  lemma SlackUnderCommit(t: Tables, u: Tables, b: Broker, sent: seq<Id>, sec: Id)
    requires BrokerInv(t, b, sent) && TablesLeq(t, u) && DistinctIntents(u.intents)
    ensures Slack(u, b, sec) == Slack(t, b, sec)
  {
    LiveSame(b, b, t.intents, u.intents, |t.intents|, sec);
    forall k | |t.intents| <= k < |u.intents|
      ensures Exposure(b, u.intents[k].intent) == 0
    {
      assert forall j :: 0 <= j < |t.intents| ==> u.intents[j].intent.corr != u.intents[k].intent.corr;
      UnknownUnexposed(t, b, sent, u.intents[k].intent);
    }
    LivePrefix(b, u.intents, |t.intents|, |u.intents|, sec);
  }

  ghost predicate Durable(t: Tables, b: Broker, sent: seq<Id>) {
    TableInv(t, b, sent) && BrokerInv(t, b, sent) && Covered(t, b)
  }

  lemma CommitDurable(t: Tables, u: Tables, b: Broker, sent: seq<Id>)
    requires Durable(t, b, sent) && TableInv(u, b, sent) && TablesLeq(t, u)
    ensures Durable(u, b, sent)
  {
    BrokerInvPersists(t, u, b, sent);
    forall sec
      ensures Slack(u, b, sec) >= 0
    {
      SlackUnderCommit(t, u, b, sent, sec);
    }
  }

  lemma BatchUnderCommit(w: World, v: World)
    requires BatchInv(w) && v.p.batch == w.p.batch && v.b == w.b && TablesLeq(w.t, v.t)
    ensures BatchInv(v)
  {
    if w.p.batch.Resolving? {
      forall k | 0 <= k < |w.p.batch.rows|
        ensures HasRow(v.t.intents, w.p.batch.rows[k].intent)
      {
        RowPersists(w.t, v.t, w.p.batch.rows[k].intent);
      }
    }
  }

  // ---------- Every commit of every event ----------

  lemma DispatchTrailKeeps(t: Tables, b: Broker, sent: seq<Id>, i: Intent, reserved: real, attempt: Id, rateOk: bool)
    requires TableInv(t, b, sent) && attempt !in t.attempts
    ensures var r := DispatchTrail(t, i, reserved, attempt, rateOk);
            forall k :: 0 <= k < |r| ==> TableInv(r[k], b, sent) && TablesLeq(t, r[k])
  {
    if CreateIntent(t, i, reserved).Success? {
      var u := CreateIntent(t, i, reserved).value;
      CreateKeeps(t, b, sent, i, reserved);
      if rateOk {
        RecordAttemptKeeps(u, b, sent, attempt, i.id, STARTED);
        LeqTransitive(t, u, RecordAttempt(u, attempt, i.id, STARTED));
      } else {
        forall k | 0 <= k < |u.intents| && u.intents[k].intent.id == i.id
          ensures RowInv(u, b, sent, u.intents[k].(state := Aborted))
        {
          assert u.intents[|t.intents|].intent.id == i.id;
        }
        SetStateKeeps(u, b, sent, i.id, Aborted);
        LeqTransitive(t, u, SetState(u, i.id, Aborted));
      }
    }
  }

  lemma AnswerTrailKeeps(t: Tables, b: Broker, sent: seq<Id>, i: Intent, attempt: Id, response: Option<Report>)
    requires TableInv(t, b, sent) && HasRow(t.intents, i)
    requires response.Some? && response.value.order.Some? ==> Truthful(b, i.corr, response.value)
    ensures var r := AnswerTrail(t, i, attempt, response);
            forall k :: 0 <= k < |r| ==> TableInv(r[k], b, sent) && TablesLeq(t, r[k])
  {
    hide TableInv, RecordAttempt, RecordOrder;
    RecordAttemptKeeps(t, b, sent, attempt, i.id, UNKNOWN);
    RecordAttemptKeeps(t, b, sent, attempt, i.id, ACCEPTED);
    LeqReflexive(t);
    if response.Some? && response.value.order.Some? {
      var u := RecordAttempt(t, attempt, i.id, ACCEPTED);
      RowPersists(t, u, i);
      var r := RecordOrder(u, response.value.order.value, i.id, response.value.status, response.value);
      if r.Success? {
        RecordOrderKeeps(u, b, sent, i, response.value);
        LeqTransitive(t, u, r.value);
      }
    }
  }

  lemma CommitsKeep(w: World, e: Event)
    requires Inv(w) && Enabled(w, e)
    ensures forall k :: 0 <= k < |Commits(w, e)| ==> TableInv(Commits(w, e)[k], w.b, w.sent) && TablesLeq(w.t, Commits(w, e)[k])
  {
    hide TableInv, DispatchTrail, AnswerTrail, Trail, Program, RecordAttempt, CloseRoute;
    LeqReflexive(w.t);
    match e
    case SubmitBuy(i, reserved, attempt, rateOk) => DispatchTrailKeeps(w.t, w.b, w.sent, i, reserved, attempt, rateOk);
    case SellDispatch(attempt, rateOk) =>
      DispatchTrailKeeps(w.t, w.b, w.sent, w.p.submit.i, w.p.submit.reserved, attempt, rateOk);
    case PostFailed => RecordAttemptKeeps(w.t, w.b, w.sent, w.p.submit.attempt, w.p.submit.i.id, UNKNOWN);
    case PostAnswered(response) =>
      AnswerTrailKeeps(w.t, w.b, w.sent, w.p.submit.i, w.p.submit.attempt, response);
    case Apply =>
      ProgramGood(w.t, w.b, w.p.batch.rows, w.p.batch.resolved, w.p.batch.trades);
      TrailKeeps(w.t, w.b, w.sent, Program(w.p.batch.rows, w.p.batch.resolved, w.p.batch.trades));
    case RouteReset(id) =>
      if CloseRoute(w.t, id).Success? {
        CloseRouteKeeps(w.t, w.b, w.sent, id);
      }
    case _ =>
  }

  // ---------- The POST ----------

  /** Handing a request to the network, after its intent and attempt are committed. */
  lemma RequestKeeps(t: Tables, b: Broker, sent: seq<Id>, i: Intent, reserved: real, attempt: Id)
    requires Durable(t, b, sent) && attempt !in t.attempts && CreateIntent(t, i, reserved).Success?
    requires i.side == SELL ==> Slack(t, b, i.sec) >= i.qty
    ensures var u := DispatchTrail(t, i, reserved, attempt, true)[2];
            && Durable(u, b.(wire := b.wire[i.corr := i]), sent + [i.corr])
            && PostingInv(u, sent + [i.corr], i, attempt)
  {
    var created := CreateIntent(t, i, reserved).value;
    var u := RecordAttempt(created, attempt, i.id, STARTED);
    var c, more := b.(wire := b.wire[i.corr := i]), sent + [i.corr];
    var last := |t.intents|;
    DispatchTrailKeeps(t, b, sent, i, reserved, attempt, true);
    CreateKeeps(t, b, sent, i, reserved);
    RecordAttemptKeeps(created, b, sent, attempt, i.id, STARTED);
    assert u == DispatchTrail(t, i, reserved, attempt, true)[2];
    assert u.intents[last].intent == i && u.intents[last].state == SendUnknown;
    CommitDurable(t, u, b, sent);
    SentTables(u, b, c, sent, i, last);
    SentBroker(u, b, c, sent, i, last);
    forall sec
      ensures Slack(u, c, sec) >= 0
    {
      SlackUnderCommit(t, u, b, sent, sec);
      SentSlack(u, b, c, sent, i, last, sec);
    }
  }

  lemma SentTables(u: Tables, b: Broker, c: Broker, sent: seq<Id>, i: Intent, last: nat)
    requires TableInv(u, b, sent) && c == b.(wire := b.wire[i.corr := i])
    requires last < |u.intents| && u.intents[last].intent == i && u.intents[last].state == SendUnknown && HasAttempt(u, i.id)
    ensures TableInv(u, c, sent + [i.corr])
  {
    TableInvUnderBroker(u, b, c, sent);
    forall k | 0 <= k < |u.intents|
      ensures RowInv(u, c, sent + [i.corr], u.intents[k])
    {
      assert RowInv(u, c, sent, u.intents[k]);
      if u.intents[k].intent.corr == i.corr {
        assert k == last;
      }
    }
    forall d | d in sent + [i.corr]
      ensures HasSentRow(u.intents, d)
    {
      if d in sent {
        assert HasSentRow(u.intents, d);
      } else {
        assert u.intents[last].intent.corr == d;
      }
    }
  }

  lemma SentBroker(u: Tables, b: Broker, c: Broker, sent: seq<Id>, i: Intent, last: nat)
    requires BrokerInv(u, b, sent) && c == b.(wire := b.wire[i.corr := i]) && i.corr !in sent
    requires last < |u.intents| && u.intents[last].intent == i
    ensures BrokerInv(u, c, sent + [i.corr])
  {
    var more := sent + [i.corr];
    assert HasRow(u.intents, i);
    forall d | d in c.wire
      ensures c.wire[d].corr == d && HasRow(u.intents, c.wire[d]) && d in more && d !in c.book
    {
      if d == i.corr {
        assert more[|sent|] == d;
      } else {
        assert d in b.wire;
      }
    }
    forall d | d in c.book
      ensures d in more
    {
      assert d in sent;
    }
  }

  lemma SentSlack(u: Tables, b: Broker, c: Broker, sent: seq<Id>, i: Intent, last: nat, sec: Id)
    requires BrokerInv(u, b, sent) && c == b.(wire := b.wire[i.corr := i]) && i.corr !in sent
    requires DistinctIntents(u.intents) && last < |u.intents| && u.intents[last].intent == i
    ensures Slack(u, c, sec) == Slack(u, b, sec) - if i.side == SELL && i.sec == sec then i.qty else 0
  {
    assert Exposure(b, i) == 0;
    LiveOneChange(b, c, u.intents, |u.intents|, last, sec);
  }

  // ---------- Every step ----------

  lemma InitInv(w: World)
    requires Init(w)
    ensures Inv(w)
  {}

  predicate SubmitEvent(e: Event) {
    e.SubmitBuy? || e.SellDispatch? || e.PostFailed? || e.PostAnswered?
  }

  lemma DispatchKeeps(w: World, e: Event)
    requires Inv(w) && Enabled(w, e) && Request(w, e).Some?
    ensures Inv(Next(w, e))
  {
    var v := Next(w, e);
    var q := Request(w, e).value;
    var i, attempt := q.0, q.1;
    var reserved := if e.SubmitBuy? then e.reserved else w.p.submit.reserved;
    RequestKeeps(w.t, w.b, w.sent, i, reserved, attempt);
    assert v.t == DispatchTrail(w.t, i, reserved, attempt, true)[2];
    assert v.b == w.b.(wire := w.b.wire[i.corr := i]) && v.sent == w.sent + [i.corr];
    assert v.p.submit == Posting(i, attempt) && v.p.batch == w.p.batch;
    CommitsKeep(w, e);
    BatchUnderCommit(w, w.(t := v.t));
    BatchUnderBroker(w.(t := v.t), v);
  }

  lemma SubmitKeeps(w: World, e: Event)
    requires Inv(w) && Enabled(w, e) && SubmitEvent(e)
    ensures Inv(Next(w, e))
  {
    if Request(w, e).Some? {
      DispatchKeeps(w, e);
    } else {
      var v := Next(w, e);
      CommitsKeep(w, e);
      CommitDurable(w.t, v.t, w.b, w.sent);
      assert v.b == w.b && v.sent == w.sent && v.p.submit == Idle && v.p.batch == w.p.batch;
      BatchUnderCommit(w, v);
    }
  }

  lemma ApplyKeeps(w: World)
    requires Inv(w) && Enabled(w, Apply)
    ensures Inv(Next(w, Apply))
  {
    var v := Next(w, Apply);
    CommitsKeep(w, Apply);
    CommitDurable(w.t, v.t, w.b, w.sent);
    assert v.b == w.b && v.sent == w.sent && v.p.submit == Idle && v.p.batch == NoBatch;
  }

  lemma PositionsKeep(w: World)
    requires Inv(w) && Enabled(w, PositionsAnswered)
    ensures Inv(Next(w, PositionsAnswered))
  {
    LiveWithinPending(w.t, w.b, w.sent, |w.t.intents|, w.p.submit.i.sec);
  }

  lemma ByIdTruthful(t: Tables, b: Broker, sent: seq<Id>, row: IntentRow, lines: seq<OrderLine>, o: Id)
    requires TableInv(t, b, sent) && BrokerInv(t, b, sent) && LinesInv(b, lines) && HasRow(t.intents, row.intent)
    requires o in t.orders && t.orders[o].intent == row.intent.id
    ensures ById(lines, o).Some? ==> Truthful(b, row.intent.corr, ById(lines, o).value)
    decreases |lines|
  {
    hide TableInv;
    if lines != [] {
      var l := lines[|lines| - 1];
      if l.report.order == Some(o) {
        assert TruthfulLine(b, l);
        OrderBelongs(t, b, sent, row, o);
        hide HasRow, Distinct;
      } else {
        ByIdTruthful(t, b, sent, row, lines[..|lines| - 1], o);
      }
    }
  }

  /** A saved order row of an intent names that intent's broker order, and its saved report is true of it. */
  lemma OrderBelongs(t: Tables, b: Broker, sent: seq<Id>, row: IntentRow, o: Id)
    requires TableInv(t, b, sent) && HasRow(t.intents, row.intent)
    requires o in t.orders && t.orders[o].intent == row.intent.id
    ensures row.intent.corr in b.book && b.book[row.intent.corr].id == o
    ensures Truthful(b, row.intent.corr, t.orders[o].report)
  {
    assert OrderRowInv(t, b, o, t.orders[o]);
    var k :| 0 <= k < |t.intents| && t.intents[k].intent.id == t.orders[o].intent
             && Truthful(b, t.intents[k].intent.corr, t.orders[o].report)
             && b.book[t.intents[k].intent.corr].id == o && t.orders[o].status == t.orders[o].report.status;
    var m :| 0 <= m < |t.intents| && t.intents[m].intent == row.intent;
    assert k == m;
  }

  lemma ByCorrTruthful(b: Broker, lines: seq<OrderLine>, corr: Id)
    requires LinesInv(b, lines)
    ensures ByCorr(lines, corr).Some? ==> Truthful(b, corr, ByCorr(lines, corr).value)
    decreases |lines|
  {
    if lines != [] {
      assert TruthfulLine(b, lines[|lines| - 1]);
      if lines[|lines| - 1].corr != Some(corr) {
        ByCorrTruthful(b, lines[..|lines| - 1], corr);
      }
    }
  }

  /** Whichever way an intent is matched with a broker order, the evidence is about that intent. */
  lemma ResolvedTruthful(w: World, row: IntentRow, lines: seq<OrderLine>, saved: Option<Id>, lookup: Option<Report>)
    requires TableInv(w.t, w.b, w.sent) && BrokerInv(w.t, w.b, w.sent) && LinesInv(w.b, lines)
    requires HasRow(w.t.intents, row.intent)
    requires saved.Some? ==> saved.value in w.t.orders && w.t.orders[saved.value].intent == row.intent.id
    requires lookup.Some? ==> Truthful(w.b, row.intent.corr, lookup.value)
    ensures var found := Resolve(w.t, row, lines, saved, lookup);
            found.Some? ==> Truthful(w.b, row.intent.corr, found.value)
  {
    hide TableInv, BrokerInv, Truthful;
    ByCorrTruthful(w.b, lines, row.intent.corr);
    if saved.Some? {
      ByIdTruthful(w.t, w.b, w.sent, row, lines, saved.value);
      OrderBelongs(w.t, w.b, w.sent, row, saved.value);
    }
  }

  lemma ResolveShape(w: World, e: Event)
    requires e.ResolveNext? && Enabled(w, e)
    ensures w.p.batch.Resolving? && |w.p.batch.resolved| < |w.p.batch.rows|
    ensures var row := w.p.batch.rows[|w.p.batch.resolved|];
            && (e.saved.Some? ==> e.saved.value in w.t.orders && w.t.orders[e.saved.value].intent == row.intent.id)
            && (e.lookup.Some? ==> Truthful(w.b, row.intent.corr, e.lookup.value))
            && Next(w, e) == w.(p := w.p.(batch := w.p.batch.(resolved := w.p.batch.resolved
                               + [Resolve(w.t, row, w.p.batch.lines, e.saved, e.lookup)])))
  {}

  lemma ResolveKeeps(w: World, e: Event)
    requires Inv(w) && e.ResolveNext? && Enabled(w, e)
    ensures Inv(Next(w, e))
  {
    hide Enabled, Next, TableInv, BrokerInv, Truthful, TruthfulLine, Resolve, Covered;
    ResolveShape(w, e);
    assert HasRow(w.t.intents, w.p.batch.rows[|w.p.batch.resolved|].intent);
    ResolvedTruthful(w, w.p.batch.rows[|w.p.batch.resolved|], w.p.batch.lines, e.saved, e.lookup);
  }

  lemma CrashKeeps(w: World, e: Event)
    requires Inv(w) && e.CrashDuring? && Enabled(w, e)
    ensures Inv(Next(w, e))
  {
    CommitsKeep(w, e.during);
    CommitDurable(w.t, Next(w, e).t, w.b, w.sent);
  }

  lemma ResetKeeps(w: World, id: Id)
    requires Inv(w) && Enabled(w, RouteReset(id))
    ensures Inv(Next(w, RouteReset(id)))
  {
    CommitsKeep(w, RouteReset(id));
    CommitDurable(w.t, Next(w, RouteReset(id)).t, w.b, w.sent);
  }

  predicate Bookkeeping(e: Event) {
    || e.Tick? || e.SubmitSell? || e.PositionsFailed? || e.StartBatch? || e.StartRefreshBatch? || e.ReadOrders?
    || e.ReadTrades? || e.ReadPositions? || e.ReadIntents? || e.BatchFailed? || e.Capture? || e.CashAnswered?
    || e.OrderEvent? || e.Invalidate? || e.Crash?
  }

  lemma BookkeepingShape(w: World, e: Event)
    requires Bookkeeping(e)
    ensures var v := Next(w, e); v.t == w.t && v.b == w.b && v.sent == w.sent
  {
    hide ProcessNext, Commits, Request, BrokerNext;
    QuietCommits(w, e);
    QuietRequest(w, e);
  }

  lemma QuietCommits(w: World, e: Event)
    requires Bookkeeping(e)
    ensures Commits(w, e) == [w.t]
  {
    hide DispatchTrail, AnswerTrail, Trail, Program;
  }

  lemma QuietRequest(w: World, e: Event)
    requires Bookkeeping(e)
    ensures Request(w, e) == None && BrokerNext(w.b, e) == w.b
  {
    hide Posts, SaleCovered;
  }

  lemma BookkeepingSubmit(w: World, e: Event)
    requires SubmitInv(w) && Enabled(w, e) && Bookkeeping(e)
    ensures SubmitInv(Next(w, e))
  {
    hide PostingInv, Slack, PendingQty, Next, Resolve, Truthful, TruthfulLine, Request, Completes, Program, HasOrder;
    BookkeepingShape(w, e);
    StepProcess(w, e);
  }

  lemma BookkeepingBatch(w: World, e: Event)
    requires BatchInv(w) && Enabled(w, e) && Bookkeeping(e)
    ensures BatchInv(Next(w, e))
  {
    hide TruthfulLine, Truthful, HasRow, Next, Resolve, PendingQty, Request, Completes, Program, HasOrder;
    BookkeepingShape(w, e);
    StepProcess(w, e);
    OwnRows(w.t.intents);
  }

  lemma OwnRows(rows: seq<IntentRow>)
    ensures forall k :: 0 <= k < |rows| ==> HasRow(rows, rows[k].intent)
  {}

  lemma BookkeepingKeeps(w: World, e: Event)
    requires Inv(w) && Enabled(w, e) && Bookkeeping(e)
    ensures Inv(Next(w, e))
  {
    hide Enabled, Next, TableInv, BrokerInv, SubmitInv, BatchInv, Slack;
    BookkeepingShape(w, e);
    BookkeepingSubmit(w, e);
    BookkeepingBatch(w, e);
  }

  /** Every enabled event keeps the invariant. */
  lemma StepKeeps(w: World, e: Event)
    requires Inv(w) && Enabled(w, e)
    ensures Inv(Next(w, e))
  {
    hide Inv, Next;
    if IsEnvironment(e) {
      EnvironmentKeeps(w, e);
    } else if SubmitEvent(e) {
      SubmitKeeps(w, e);
    } else if Bookkeeping(e) {
      BookkeepingKeeps(w, e);
    } else {
      match e
      case PositionsAnswered => PositionsKeep(w);
      case ResolveNext(_, _) => ResolveKeeps(w, e);
      case Apply => ApplyKeeps(w);
      case RouteReset(id) => ResetKeeps(w, id);
      case CrashDuring(_, _) => CrashKeeps(w, e);
    }
  }

  lemma {:induction false} RunInv(ws: seq<World>, es: seq<Event>, k: nat)
    requires Run(ws, es) && k < |ws|
    ensures Inv(ws[k])
  {
    hide Inv, Enabled, Next, Init;
    if k == 0 {
      InitInv(ws[0]);
    } else {
      RunInv(ws, es, k - 1);
      StepKeeps(ws[k - 1], es[k - 1]);
    }
  }
}
