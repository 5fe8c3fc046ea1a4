/**
 The order protocol of orders.py with the background reader of account_refresh.py, as a state
 machine. Every stretch of code between two awaits is one event; `CrashDuring` stops such a stretch
 after any number of its commits, and `Crash` stops the process anywhere else. A crash drops all
 volatile state and keeps the tables, the broker, and any request still on the wire.
 */
module Orders {
  import opened Wrappers
  import opened Ledger

  // ---------- The broker ----------

  /** One trade of an order at the exchange. */
  datatype Execution = Execution(trade: Id, qty: nat, price: real)

  datatype BrokerOrder = BrokerOrder(id: Id, intent: Intent, filled: nat, status: OrderStatus, trades: seq<Execution>)

  /** Requests in flight and accepted orders, both by correlation id, and net positions by security. */
  datatype Broker = Broker(wire: map<Id, Intent>, book: map<Id, BrokerOrder>, net: map<Id, int>)

  function Net(b: Broker, sec: Id): int { if sec in b.net then b.net[sec] else 0 }

  function Signed(side: Side, n: int): int { if side == BUY then n else -n }

  /** The broker never misreports identity, and a terminal report is final. */
  ghost predicate Truthful(b: Broker, corr: Id, r: Report) {
    && corr in b.book
    && var o := b.book[corr];
       && r.order == Some(o.id)
       && (r.sec.Some? ==> r.sec.value == o.intent.sec)
       && (r.side.Some? ==> r.side.value == o.intent.side)
       && (r.status.Done? ==> o.status == r.status && (r.filled.Some? ==> r.filled.value == o.filled))
  }

  /** One row of the order book read, with its correlation id where the broker returned it. */
  datatype OrderLine = OrderLine(corr: Option<Id>, report: Report)

  ghost predicate TruthfulLine(b: Broker, l: OrderLine) {
    match l.corr
    case Some(c) => Truthful(b, c, l.report)
    case None => exists c :: c in b.book && Truthful(b, c, l.report)
  }

  // ---------- Reconciliation, commit by commit ----------

  datatype Op =
    | AbortUnsent(row: IntentRow)
    | NoteOrder(row: IntentRow, report: Report)
    | NoteTrade(row: IntentRow, order: Report, trade: TradeReport)
    | NoteCharge(row: IntentRow, order: Report, of: Id, fees: real, complete: bool)
    | Settle(row: IntentRow, report: Report)

  predicate Contradicts(row: IntentRow, sec: Option<Id>, side: Option<Side>, ours: bool) {
    || !ours
    || (sec.Some? && sec.value != row.intent.sec)
    || (side.Some? && side.value != row.intent.side)
  }

  /** The filled quantity a row states; where it does not, the whole order if traded, else what is recorded already. */
  function Expected(qty: nat, r: Report, status: OrderStatus, filled: nat): int {
    if r.filled.Some? then r.filled.value else if status == Done(TRADED) then qty else filled
  }

  function ExecOp(t: Tables, op: Op): Result<Tables> {
    match op
    case AbortUnsent(row) =>
      // A missing broker order is unknown unless no attempt was ever committed.
      if row.state == PendingSend && !HasAttempt(t, row.intent.id) then Success(SetState(t, row.intent.id, Aborted))
      else Success(t)
    case NoteOrder(row, r) =>
      if r.order.None? then Failure("broker order has no identity")
      else if Contradicts(row, r.sec, r.side, r.ours) then Failure("foreign or contradictory broker order")
      else RecordOrder(t, r.order.value, row.intent.id, r.status, r)
    case NoteTrade(row, r, trade) =>
      if !trade.TradeReport? || r.order != Some(trade.order) then Success(t)
      else if Contradicts(row, trade.sec, trade.side, trade.ours) then Failure("foreign or contradictory broker fill")
      else if trade.trade.None? || trade.qty <= 0 || trade.price <= 0.0 || trade.fees < 0.0 then Failure("invalid fill")
      else
        RecordFillOnce(t, Fill(trade.order, trade.trade.value, row.intent.sec, trade.qty, trade.price, trade.fees), row.intent.id)
    case NoteCharge(row, r, of, fees, complete) =>
      if r.order != Some(of) then Success(t) else RecordOrderCharges(t, of, row.intent.id, fees, complete)
    case Settle(row, r) =>
      if r.order.None? || r.order.value !in t.orders then Failure("order row missing")
      else
        var filled := FilledQty(t.fills, row.intent.id);
        var status := t.orders[r.order.value].status;
        if Expected(row.intent.qty, r, status, filled) > row.intent.qty || filled > row.intent.qty
        then Failure("broker fill exceeds submitted quantity")
        else if status.Done? && filled >= Expected(row.intent.qty, r, status, filled) then
          Success(SetState(t, row.intent.id, if filled == row.intent.qty then Filled else Ended(status.how)))
        else Success(t)
  }

  /** All tables committed on the way, starting with the given ones; a refusal ends the batch. */
  function Trail(t: Tables, ops: seq<Op>): (r: seq<Tables>)
    ensures |r| >= 1 && r[0] == t
    decreases |ops|
  {
    if ops == [] then [t]
    else
      match ExecOp(t, ops[0])
      case Failure(_) => [t]
      case Success(u) => [t] + Trail(u, ops[1..])
  }

  predicate Completes(t: Tables, ops: seq<Op>) {
    |Trail(t, ops)| == |ops| + 1
  }

  function TradeOp(row: IntentRow, r: Report, trade: TradeReport): Op {
    if trade.ChargeReport? then NoteCharge(row, r, trade.order, trade.fees, trade.complete) else NoteTrade(row, r, trade)
  }

  function TradeOps(row: IntentRow, r: Report, trades: seq<TradeReport>): seq<Op> {
    if trades == [] then [] else [TradeOp(row, r, trades[0])] + TradeOps(row, r, trades[1..])
  }

  function RowOps(row: IntentRow, resolved: Option<Report>, trades: seq<TradeReport>): seq<Op> {
    match resolved
    case None => [AbortUnsent(row)]
    case Some(r) => [NoteOrder(row, r)] + TradeOps(row, r, trades) + [Settle(row, r)]
  }

  function Program(rows: seq<IntentRow>, resolved: seq<Option<Report>>, trades: seq<TradeReport>): seq<Op>
    requires |rows| == |resolved|
  {
    if rows == [] then []
    else RowOps(rows[0], resolved[0], trades) + Program(rows[1..], resolved[1..], trades)
  }

  /** The last matching row wins, as in a dictionary built from the list. */
  function ByCorr(lines: seq<OrderLine>, corr: Id): Option<Report> {
    if lines == [] then None
    else if lines[|lines| - 1].corr == Some(corr) then Some(lines[|lines| - 1].report)
    else ByCorr(lines[..|lines| - 1], corr)
  }

  function ById(lines: seq<OrderLine>, order: Id): Option<Report> {
    if lines == [] then None
    else if lines[|lines| - 1].report.order == Some(order) then Some(lines[|lines| - 1].report)
    else ById(lines[..|lines| - 1], order)
  }

  predicate NeedsLookup(s: IntentState) {
    s == SendUnknown || s == Sent || s == RecoveryClosed || s == Ended(TRADED)
  }

  /** The broker order an intent row is matched with: list by correlation, list by known id, saved terminal row, lookup. */
  function Resolve(t: Tables, row: IntentRow, lines: seq<OrderLine>, saved: Option<Id>, lookup: Option<Report>): Option<Report>
    requires saved.Some? ==> saved.value in t.orders
  {
    if ByCorr(lines, row.intent.corr).Some? then ByCorr(lines, row.intent.corr)
    else if saved.Some? && ById(lines, saved.value).Some? then ById(lines, saved.value)
    else if saved.Some? && t.orders[saved.value].status.Done? then Some(t.orders[saved.value].report)
    else if NeedsLookup(row.state) then lookup
    else None
  }

  // ---------- The process ----------

  datatype SubmitPc =
    | Idle
    | AskedPositions(i: Intent, reserved: real, pending: nat)
    | GotPositions(i: Intent, reserved: real, pending: nat, held: int)
    | Posting(i: Intent, attempt: Id)

  datatype ReconcilePc =
    | NoBatch
    | Reading(rev: nat, forRefresh: bool, gotLines: Option<seq<OrderLine>>, gotTrades: Option<seq<TradeReport>>, 
              gotPositions: Option<map<Id, int>>)
    | Resolving(rev: nat, forRefresh: bool, rows: seq<IntentRow>, lines: seq<OrderLine>, trades: seq<TradeReport>,
                positions: map<Id, int>, resolved: seq<Option<Report>>)

  datatype RefreshPc =
    | Asleep
    | Captured(rev: nat, at: int, again: bool)
    | Reconciling(at: int, again: bool)
    | AwaitingCash(at: int)

  datatype Refresh = Refresh(healthy: bool, observed: int, revision: nat, pc: RefreshPc, seen: seq<Id>)

  /** The positions of the last published batch, and the revision it was published on. */
  datatype Snapshot = Snapshot(net: map<Id, int>, rev: nat)

  datatype Process = Process(rev: nat, submit: SubmitPc, batch: ReconcilePc, refresh: Refresh, held: Option<Snapshot>)

  const STARTED_PROCESS: Process := Process(0, Idle, NoBatch, Refresh(false, 0, 0, Asleep, []), None)

  const MAX_AGE: int := 5000

  const SEEN_LIMIT: int := 2048

  /** `sent` lists the correlation ids of all POSTs ever made; `boots` counts restarts. */
  datatype World = World(t: Tables, b: Broker, p: Process, clock: int, sent: seq<Id>, boots: nat)

  datatype Event =
    // environment
    | Tick(ms: nat)
    | Deliver(corr: Id, order: Id)
    | Drop(corr: Id)
    | BrokerFill(corr: Id, n: nat, trade: Id, price: real)
    | BrokerEnd(corr: Id, how: Ending)
    // submit
    | SubmitBuy(i: Intent, reserved: real, attempt: Id, rateOk: bool)
    | SubmitSell(i: Intent, reserved: real)
    | PositionsAnswered
    | PositionsFailed
    | SellDispatch(attempt: Id, rateOk: bool)
    | PostFailed
    | PostAnswered(response: Option<Report>)
    // reconcile
    | StartBatch
    | StartRefreshBatch
    | ReadOrders(lines: seq<OrderLine>)
    | ReadTrades(trades: seq<TradeReport>)
    | ReadPositions
    | ReadIntents
    | ResolveNext(saved: Option<Id>, lookup: Option<Report>)
    | BatchFailed
    | Apply
    // account refresh
    | Capture
    | CashAnswered
    | OrderEvent(id: Id)
    | Invalidate
    // operator, with the trader stopped
    | RouteReset(id: Id)
    // process death
    | Crash
    | CrashDuring(during: Event, commits: nat)

  predicate Fresh(w: World) {
    && w.p.refresh.healthy
    && 0 <= w.clock - w.p.refresh.observed <= MAX_AGE
    && w.p.refresh.revision == w.p.rev
  }

  /** Write-ahead: intent, then rate verdict, then attempt; only the full trail is followed by a POST. */
  function DispatchTrail(t: Tables, i: Intent, reserved: real, attempt: Id, rateOk: bool): (r: seq<Tables>)
    ensures |r| >= 1
  {
    match CreateIntent(t, i, reserved)
    case Failure(_) => [t]
    case Success(u) =>
      if rateOk then [t, u, RecordAttempt(u, attempt, i.id, STARTED)] else [t, u, SetState(u, i.id, Aborted)]
  }

  predicate Posts(t: Tables, i: Intent, reserved: real, rateOk: bool) {
    rateOk && CreateIntent(t, i, reserved).Success?
  }

  function AnswerTrail(t: Tables, i: Intent, attempt: Id, response: Option<Report>): (r: seq<Tables>)
    ensures |r| >= 1
  {
    if response.None? || response.value.order.None? then [t, RecordAttempt(t, attempt, i.id, UNKNOWN)]
    else
      var u := RecordAttempt(t, attempt, i.id, ACCEPTED);
      match RecordOrder(u, response.value.order.value, i.id, response.value.status, response.value)
      case Failure(_) => [t, u]
      case Success(v) => [t, u, v]
  }

  /** The held snapshot is of the current revision: nothing was written since it was published. */
  predicate HoldsCurrent(w: World) {
    w.p.held.Some? && w.p.held.value.rev == w.p.rev
  }

  function HeldPosition(s: Snapshot, sec: Id): int { if sec in s.net then s.net[sec] else 0 }

  /** Whether the sale passes the broker-position guard once the positions are in. */
  predicate SaleCovered(pc: SubmitPc)
    requires pc.GotPositions?
  {
    pc.i.qty + pc.pending <= pc.held
  }

  predicate Applies(p: Process)
    requires p.batch.Resolving? && |p.batch.resolved| == |p.batch.rows|
  {
    p.batch.rev == p.rev
  }

  /** What an event commits, transaction by transaction. */
  function Commits(w: World, e: Event): (r: seq<Tables>)
    ensures |r| >= 1
  {
    match e
    case SubmitBuy(i, reserved, attempt, rateOk) => DispatchTrail(w.t, i, reserved, attempt, rateOk)
    case SellDispatch(attempt, rateOk) =>
      if w.p.submit.GotPositions? && SaleCovered(w.p.submit)
      then DispatchTrail(w.t, w.p.submit.i, w.p.submit.reserved, attempt, rateOk) else [w.t]
    case PostFailed =>
      if w.p.submit.Posting? then [w.t, RecordAttempt(w.t, w.p.submit.attempt, w.p.submit.i.id, UNKNOWN)] else [w.t]
    case PostAnswered(response) =>
      if w.p.submit.Posting? then AnswerTrail(w.t, w.p.submit.i, w.p.submit.attempt, response) else [w.t]
    case Apply =>
      if w.p.batch.Resolving? && |w.p.batch.resolved| == |w.p.batch.rows| && Applies(w.p)
      then Trail(w.t, Program(w.p.batch.rows, w.p.batch.resolved, w.p.batch.trades)) else [w.t]
    case RouteReset(id) => if CloseRoute(w.t, id).Success? then [CloseRoute(w.t, id).value] else [w.t]
    case _ => [w.t]
  }

  function Committed(w: World, e: Event): Tables { Commits(w, e)[|Commits(w, e)| - 1] }

  /** The route reset demands one pending probe, an unknown send, without orders or fills. */
  ghost predicate ResetAllowed(t: Tables, id: Id) {
    && (exists k :: 0 <= k < |t.intents| && t.intents[k].intent.id == id
                    && t.intents[k].intent.lifecycle == ROUTE_PROBE && t.intents[k].intent.side == BUY
                    && t.intents[k].state == SendUnknown)
    && (forall k :: 0 <= k < |t.intents| && Pending(t, t.intents[k]) ==> t.intents[k].intent.id == id)
    && !HasOrder(t, id) && !HasFill(t, id)
    && HasAttempt(t, id)
    && (forall a :: a in t.attempts && t.attempts[a].intent == id ==> t.attempts[a].state == UNKNOWN)
  }

  ghost predicate Enabled(w: World, e: Event) {
    match e
    case Tick(_) => true
    case Deliver(c, o) => c in w.b.wire && forall d :: d in w.b.book ==> w.b.book[d].id != o
    case Drop(c) => c in w.b.wire
    case BrokerFill(c, n, _, _) =>
      c in w.b.book && w.b.book[c].status == Working && w.b.book[c].filled + n <= w.b.book[c].intent.qty
    case BrokerEnd(c, how) =>
      c in w.b.book && w.b.book[c].status == Working && (how == TRADED ==> w.b.book[c].filled == w.b.book[c].intent.qty)
    case SubmitBuy(i, _, attempt, _) => w.p.submit == Idle && i.side == BUY && i.qty > 0 && attempt !in w.t.attempts
    case SubmitSell(i, _) => w.p.submit == Idle && i.side == SELL && i.qty > 0
    case PositionsAnswered => w.p.submit.AskedPositions?
    case PositionsFailed => w.p.submit.AskedPositions?
    case SellDispatch(attempt, _) => w.p.submit.GotPositions? && attempt !in w.t.attempts
    case PostFailed => w.p.submit.Posting?
    case PostAnswered(r) =>
      w.p.submit.Posting? && (r.Some? && r.value.order.Some? ==> Truthful(w.b, w.p.submit.i.corr, r.value))
    case StartBatch => w.p.batch == NoBatch
    case StartRefreshBatch => w.p.batch == NoBatch && w.p.refresh.pc.Captured?
    case ReadOrders(lines) =>
      w.p.batch.Reading? && w.p.batch.gotLines.None? && forall k :: 0 <= k < |lines| ==> TruthfulLine(w.b, lines[k])
    case ReadTrades(_) => w.p.batch.Reading? && w.p.batch.gotTrades.None?
    case ReadPositions => w.p.batch.Reading? && w.p.batch.gotPositions.None?
    case ReadIntents => w.p.batch.Reading? && w.p.batch.gotLines.Some? && w.p.batch.gotTrades.Some? && w.p.batch.gotPositions.Some?
    case ResolveNext(saved, lookup) =>
      && w.p.batch.Resolving? && |w.p.batch.resolved| < |w.p.batch.rows|
      && var row := w.p.batch.rows[|w.p.batch.resolved|];
         && (saved.Some? ==> saved.value in w.t.orders && w.t.orders[saved.value].intent == row.intent.id)
         && (saved.None? ==> !HasOrder(w.t, row.intent.id))
         && (lookup.Some? ==> Truthful(w.b, row.intent.corr, lookup.value))
    case BatchFailed => w.p.batch != NoBatch
    case Apply => w.p.submit == Idle && w.p.batch.Resolving? && |w.p.batch.resolved| == |w.p.batch.rows|
    case Capture => w.p.refresh.pc == Asleep
    case CashAnswered => w.p.refresh.pc.AwaitingCash?
    case OrderEvent(_) => true
    case Invalidate => true
    case RouteReset(id) => w.p == STARTED_PROCESS && ResetAllowed(w.t, id)
    case Crash => true
    case CrashDuring(d, k) => !d.CrashDuring? && !d.Crash? && Enabled(w, d) && k < |Commits(w, d)|
  }

  // ---------- Effects ----------

  function BrokerNext(b: Broker, e: Event): Broker {
    match e
    case Deliver(c, o) =>
      if c in b.wire then b.(wire := b.wire - {c}, book := b.book[c := BrokerOrder(o, b.wire[c], 0, Working, [])]) else b
    case Drop(c) => b.(wire := b.wire - {c})
    case BrokerFill(c, n, trade, price) =>
      if c in b.book then
        var o := b.book[c];
        b.(book := b.book[c := o.(filled := o.filled + n, trades := o.trades + [Execution(trade, n, price)])],
           net := b.net[o.intent.sec := Net(b, o.intent.sec) + Signed(o.intent.side, n)])
      else b
    case BrokerEnd(c, how) => if c in b.book then b.(book := b.book[c := b.book[c].(status := Done(how))]) else b
    case _ => b
  }

  /** The request a fully executed event hands to the network. */
  function Request(w: World, e: Event): Option<(Intent, Id)> {
    match e
    case SubmitBuy(i, reserved, attempt, rateOk) => if Posts(w.t, i, reserved, rateOk) then Some((i, attempt)) else None
    case SellDispatch(attempt, rateOk) =>
      if w.p.submit.GotPositions? && SaleCovered(w.p.submit) && Posts(w.t, w.p.submit.i, w.p.submit.reserved, rateOk)
      then Some((w.p.submit.i, attempt)) else None
    case _ => None
  }

  function Note(seen: seq<Id>, id: Id): seq<Id> {
    var all := seen + [id];
    if |all| > SEEN_LIMIT then all[1..] else all
  }

  function Unhealthy(r: Refresh): Refresh { r.(healthy := false) }

  /** A batch that fails or was superseded: the refresher, if it asked, is no longer healthy. */
  function EndBatch(p: Process): Process
    requires !p.batch.NoBatch?
  {
    p.(batch := NoBatch,
       refresh := if p.batch.forRefresh then p.refresh.(healthy := false, pc := Asleep) else p.refresh)
  }

  /** A published batch: its snapshot is held; the refresher also stamps its age and revision. */
  function Publish(p: Process): Process
    requires p.batch.Resolving?
  {
    var r := p.refresh;
    p.(batch := NoBatch,
       held := Some(Snapshot(p.batch.positions, p.rev)),
       refresh := if p.batch.forRefresh && r.pc.Reconciling?
                  then r.(healthy := true, observed := r.pc.at, revision := p.rev,
                          pc := if r.pc.again then Asleep else AwaitingCash(r.pc.at))
                  else r)
  }

  function ProcessNext(w: World, e: Event): Process {
    var p := w.p;
    match e
    case SubmitBuy(_, _, _, _) =>
      var q := Request(w, e);
      if q.Some? then p.(rev := p.rev + 1, submit := Posting(q.value.0, q.value.1)) else p
    case SubmitSell(i, reserved) => p.(submit := AskedPositions(i, reserved, PendingQty(w.t, |w.t.intents|, SELL, i.sec)))
    case PositionsAnswered =>
      if p.submit.AskedPositions?
      then p.(submit := GotPositions(p.submit.i, p.submit.reserved, p.submit.pending, Net(w.b, p.submit.i.sec))) else p
    case PositionsFailed => p.(submit := Idle)
    case SellDispatch(_, _) =>
      var q := Request(w, e);
      if q.Some? then p.(rev := p.rev + 1, submit := Posting(q.value.0, q.value.1)) else p.(submit := Idle)
    case PostFailed => p.(rev := p.rev + 1, submit := Idle)
    case PostAnswered(_) => p.(rev := p.rev + 1, submit := Idle)
    case StartBatch => p.(batch := Reading(p.rev, false, None, None, None))
    case StartRefreshBatch =>
      if p.refresh.pc.Captured?
      then p.(batch := Reading(p.refresh.pc.rev, true, None, None, None),
              refresh := p.refresh.(pc := Reconciling(p.refresh.pc.at, p.refresh.pc.again))) else p
    case ReadOrders(lines) => if p.batch.Reading? then p.(batch := p.batch.(gotLines := Some(lines))) else p
    case ReadTrades(trades) => if p.batch.Reading? then p.(batch := p.batch.(gotTrades := Some(trades))) else p
    case ReadPositions => if p.batch.Reading? then p.(batch := p.batch.(gotPositions := Some(w.b.net))) else p
    case ReadIntents =>
      if p.batch.Reading? && p.batch.gotLines.Some? && p.batch.gotTrades.Some? && p.batch.gotPositions.Some?
      then p.(batch := Resolving(p.batch.rev, p.batch.forRefresh, w.t.intents, p.batch.gotLines.value, p.batch.gotTrades.value,
                                 p.batch.gotPositions.value, [])) else p
    case ResolveNext(saved, lookup) =>
      if p.batch.Resolving? && |p.batch.resolved| < |p.batch.rows| && (saved.Some? ==> saved.value in w.t.orders)
      then p.(batch := p.batch.(resolved := p.batch.resolved
                                            + [Resolve(w.t, p.batch.rows[|p.batch.resolved|], p.batch.lines, saved, lookup)])) else p
    case BatchFailed => if p.batch.NoBatch? then p else EndBatch(p)
    case Apply =>
      if !p.batch.Resolving? || |p.batch.resolved| != |p.batch.rows| then p
      else if !Applies(p) then EndBatch(p)
      else
        var bumped := p.(rev := p.rev + 1);
        if Completes(w.t, Program(p.batch.rows, p.batch.resolved, p.batch.trades)) then Publish(bumped) else EndBatch(bumped)
    case Capture => p.(refresh := p.refresh.(pc := Captured(p.rev, w.clock, false)))
    case CashAnswered =>
      if !p.refresh.pc.AwaitingCash? then p
      else if p.refresh.revision != p.rev then p.(refresh := p.refresh.(healthy := false, pc := Asleep))
      else if w.clock - p.refresh.pc.at > MAX_AGE
      then p.(refresh := p.refresh.(pc := Captured(p.refresh.revision, w.clock, true)))
      else p.(refresh := p.refresh.(pc := Asleep))
    case OrderEvent(id) =>
      if id in p.refresh.seen then p
      else p.(rev := p.rev + 1, refresh := Unhealthy(p.refresh).(seen := Note(p.refresh.seen, id)))
    case Invalidate => p.(rev := p.rev + 1, refresh := Unhealthy(p.refresh))
    case _ => p
  }

  function Next(w: World, e: Event): World {
    match e
    case Tick(ms) => w.(clock := w.clock + ms)
    case Crash => w.(p := STARTED_PROCESS, boots := w.boots + 1)
    case CrashDuring(d, k) =>
      w.(t := if k < |Commits(w, d)| then Commits(w, d)[k] else w.t, p := STARTED_PROCESS, boots := w.boots + 1)
    case _ =>
      var q := Request(w, e);
      var b := BrokerNext(w.b, e);
      World(Committed(w, e),
            if q.Some? then b.(wire := b.wire[q.value.0.corr := q.value.0]) else b,
            ProcessNext(w, e), w.clock,
            if q.Some? then w.sent + [q.value.0.corr] else w.sent, w.boots)
  }

  /** A step as far as the process, the clock and restarts are concerned. */
  lemma StepProcess(w: World, e: Event)
    ensures Next(w, e).p == (if e.Crash? || e.CrashDuring? then STARTED_PROCESS else if e.Tick? then w.p else ProcessNext(w, e))
    ensures Next(w, e).clock == (if e.Tick? then w.clock + e.ms else w.clock)
    ensures Next(w, e).boots == (if e.Crash? || e.CrashDuring? then w.boots + 1 else w.boots)
  {
    hide Commits, Committed, ProcessNext, BrokerNext, Request;
  }

  /** Nothing sent yet; positions held at the start are long or flat. */
  ghost predicate Init(w: World) {
    && w.t == EMPTY && w.b.wire == map[] && w.b.book == map[] && w.sent == []
    && (forall sec :: Net(w.b, sec) >= 0)
    && w.p == STARTED_PROCESS && w.boots == 0
  }

  /** A run: each state follows from its predecessor by the event between them. */
  ghost predicate Run(ws: seq<World>, es: seq<Event>) {
    && |ws| == |es| + 1
    && Init(ws[0])
    && forall k :: 0 <= k < |es| ==> Enabled(ws[k], es[k]) && ws[k + 1] == Next(ws[k], es[k])
  }
}
