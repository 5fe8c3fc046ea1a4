/** What closing a lifecycle says about the broker: the snapshot it relies on, and the fills behind it. */
module Closing {
  import opened Wrappers
  import opened Ledger
  import opened Orders
  import opened OrderSafety
  import opened OrderTheorems
  import opened Executions
  import opened Fence
  import opened Capital
  import opened CapitalSafety
  import opened TradeTruth
  import opened Lifecycles
  import opened LifecycleSafety

  // ---------- The order run inside a session ----------

  /** The order event an act amounts to, if any. */
  function OrderEventOf(s: Session, a: Act): Option<Event> {
    match a
    case Others(e) => Some(e)
    case Operator(e) => Some(e)
    case Enter(i, reserved, attempt, rateOk, dies) =>
      if StillDue(s) then Some(EntryEvent(i, reserved, attempt, rateOk, dies)) else None
    case Exit(i, reserved) => Some(SubmitSell(i, reserved))
    case _ => None
  }

  lemma OrderStep(s: Session, a: Act)
    requires Allowed(s, a)
    ensures var e := OrderEventOf(s, a);
            if e.Some? then Enabled(s.w, e.value) && Step(s, a).w == Next(s.w, e.value) else Step(s, a).w == s.w
  {
    hide Enabled, Next, LifecycleTotals, Gone;
  }

  ghost predicate OrderRun(ss: seq<Session>, acts: seq<Act>, n: nat, ws: seq<World>, es: seq<Event>)
    requires n < |ss| && |ss| == |acts| + 1
  {
    && Run(ws, es) && ws[|ws| - 1] == ss[n].w
    && (forall i :: 0 <= i < |ws| ==> WorldOf(ss, n, ws[i]))
    && (forall i :: 0 <= i < |es| ==> EventOf(ss, acts, n, ws[i], es[i]))
  }

  predicate WorldOf(ss: seq<Session>, n: nat, w: World)
    requires n < |ss|
  {
    exists k :: 0 <= k <= n && ss[k].w == w
  }

  predicate EventOf(ss: seq<Session>, acts: seq<Act>, n: nat, w: World, e: Event)
    requires n < |ss| && |ss| == |acts| + 1
  {
    exists k :: 0 <= k < n && ss[k].w == w && OrderEventOf(ss[k], acts[k]) == Some(e)
  }

  /** A session's orders, seen alone, are a run of the order protocol. */
  lemma {:induction false} SessionOrders(ss: seq<Session>, acts: seq<Act>, n: nat) returns (ws: seq<World>, es: seq<Event>)
    requires Runs(ss, acts) && n < |ss|
    ensures OrderRun(ss, acts, n, ws, es)
  {
    hide Enabled, Next, Allowed, Step, OrderEventOf, Run, WorldOf, EventOf;
    if n == 0 {
      ws, es := [ss[0].w], [];
      FirstOf(ss, acts);
    } else {
      var vs, ds := SessionOrders(ss, acts, n - 1);
      RunLength(vs, ds);
      var s, a := ss[n - 1], acts[n - 1];
      assert Allowed(s, a) && ss[n - 1 + 1] == Step(s, a);
      OrderStep(s, a);
      MoreOf(ss, acts, n, vs, ds);
      var e := OrderEventOf(s, a);
      if e.None? {
        ws, es := vs, ds;
      } else {
        ws, es := vs + [ss[n].w], ds + [e.value];
        RunExtends(vs, ds, e.value);
        LastOf(ss, acts, n, e.value);
      }
    }
  }

  lemma FirstOf(ss: seq<Session>, acts: seq<Act>)
    requires Runs(ss, acts)
    ensures Run([ss[0].w], []) && WorldOf(ss, 0, ss[0].w)
  {
    hide Allowed, Step, Init;
  }

  lemma LastOf(ss: seq<Session>, acts: seq<Act>, n: nat, e: Event)
    requires 0 < n < |ss| && |ss| == |acts| + 1 && OrderEventOf(ss[n - 1], acts[n - 1]) == Some(e)
    ensures WorldOf(ss, n, ss[n].w) && EventOf(ss, acts, n, ss[n - 1].w, e)
  {}

  lemma MoreOf(ss: seq<Session>, acts: seq<Act>, n: nat, ws: seq<World>, es: seq<Event>)
    requires 0 < n < |ss| && |ss| == |acts| + 1 && |ws| == |es| + 1
    requires forall i :: 0 <= i < |ws| ==> WorldOf(ss, n - 1, ws[i])
    requires forall i :: 0 <= i < |es| ==> EventOf(ss, acts, n - 1, ws[i], es[i])
    ensures forall i :: 0 <= i < |ws| ==> WorldOf(ss, n, ws[i])
    ensures forall i :: 0 <= i < |es| ==> EventOf(ss, acts, n, ws[i], es[i])
  {
    forall i | 0 <= i < |ws|
      ensures WorldOf(ss, n, ws[i])
    {
      var k :| 0 <= k <= n - 1 && ss[k].w == ws[i];
      assert ss[k].w == ws[i];
    }
    forall i | 0 <= i < |es|
      ensures EventOf(ss, acts, n, ws[i], es[i])
    {
      var k :| 0 <= k < n - 1 && ss[k].w == ws[i] && OrderEventOf(ss[k], acts[k]) == Some(es[i]);
      assert ss[k].w == ws[i];
    }
  }

  // ---------- Before a close ----------

  /** Expired and gone from the account since m, with this many units left in the ledger then. */
  ghost predicate SettlingSince(ss: seq<Session>, acts: seq<Act>, m: nat, c: nat, id: Id, sec: Id, units: nat)
    requires |ss| == |acts| + 1
  {
    && m < c < |ss| && acts[m] == BeginSettle(id, sec) && IsOpen(ss[m].r, id, sec) && Gone(ss[m], sec) && Free(ss[m])
    && Left(ss[m], id) == Some(units) && units > 0
    && forall k :: m < k <= c ==> ss[k].pc == Settling(id, sec, units)
  }

  /**
   The close under way at n was begun at m on a snapshot that shows none of the security, and was decided at
   c, with nothing left in the ledger: at once, or after a settlement of what was left at m.
   */
  ghost predicate BegunAt(ss: seq<Session>, acts: seq<Act>, m: nat, c: nat, n: nat, id: Id, sec: Id)
    requires |ss| == |acts| + 1
  {
    && m <= c < n < |ss| && IsOpen(ss[m].r, id, sec) && Gone(ss[m], sec) && Free(ss[m]) && Even(ss[c + 1], id)
    && (if m == c then acts[m] == BeginClose(id, sec)
        else acts[c].BookSettlement? && exists units :: SettlingSince(ss, acts, m, c, id, sec, units))
    && (forall k :: c < k <= n ==> ss[k].pc == Closing(id, sec))
  }

  lemma {:induction false} SettlingWasBegun(ss: seq<Session>, acts: seq<Act>, n: nat) returns (m: nat)
    requires Runs(ss, acts) && n < |ss| && ss[n].pc.Settling?
    ensures SettlingSince(ss, acts, m, n, ss[n].pc.id, ss[n].pc.sec, ss[n].pc.units)
  {
    hide Enabled, Next, LifecycleTotals;
    assert Allowed(ss[n - 1], acts[n - 1]) && ss[n - 1 + 1] == Step(ss[n - 1], acts[n - 1]);
    if acts[n - 1].BeginSettle? {
      m := n - 1;
      AuctionIsOpen(ss[m].r);
    } else {
      m := SettlingWasBegun(ss, acts, n - 1);
    }
  }

  lemma {:induction false} CloseWasBegun(ss: seq<Session>, acts: seq<Act>, n: nat) returns (m: nat, c: nat)
    requires Runs(ss, acts) && n < |ss| && ss[n].pc.Closing?
    ensures BegunAt(ss, acts, m, c, n, ss[n].pc.id, ss[n].pc.sec)
  {
    hide Enabled, Next, LifecycleTotals, Gone;
    assert Allowed(ss[n - 1], acts[n - 1]) && ss[n - 1 + 1] == Step(ss[n - 1], acts[n - 1]);
    if acts[n - 1].BeginClose? {
      m, c := n - 1, n - 1;
    } else if acts[n - 1].BookSettlement? {
      c := n - 1;
      m := SettlingWasBegun(ss, acts, c);
    } else {
      m, c := CloseWasBegun(ss, acts, n - 1);
    }
  }

  /** Neither settling nor closing submits anything. */
  lemma QuietStep(s: Session, a: Act)
    requires SessionInv(s) && Allowed(s, a) && s.w.p.submit.Idle?
    requires (s.pc.Settling? || s.pc.Closing? || a.BeginSettle? || a.BeginClose?) && (Step(s, a).pc.Settling? || Step(s, a).pc.Closing?)
    ensures Step(s, a).w.sent == s.w.sent && |Step(s, a).w.t.intents| == |s.w.t.intents|
  {
    hide Inv, Enabled, Next, LifecycleTotals, Plain, Owned, OneEntry, RegisterInv, PcInv, SellerInv, Gone, Even;
    if a.Others? {
      PlainSubmit(s.w, a.e);
      StepGrows(s.w, a.e);
      PlainSent(s.w, a.e);
    }
  }

  lemma PlainSent(w: World, e: Event)
    requires Plain(e) && w.p.submit.Idle?
    ensures Next(w, e).sent == w.sent
  {
    hide Commits, ProcessNext, BrokerNext;
  }

  lemma {:induction false} NothingSubmitted(ss: seq<Session>, acts: seq<Act>, m: nat, n: nat)
    requires Runs(ss, acts) && m < n < |ss| && Free(ss[m]) && (acts[m].BeginSettle? || acts[m].BeginClose?)
    requires forall k :: m < k <= n ==> ss[k].pc.Settling? || ss[k].pc.Closing?
    ensures ss[n].w.sent == ss[m].w.sent && |ss[n].w.t.intents| == |ss[m].w.t.intents|
  {
    hide Inv, Allowed, Step, Owned, OneEntry, RegisterInv, SellerInv;
    if n > m + 1 {
      NothingSubmitted(ss, acts, m, n - 1);
    }
    RunsInv(ss, acts, n - 1);
    assert Allowed(ss[n - 1], acts[n - 1]) && ss[n - 1 + 1] == Step(ss[n - 1], acts[n - 1]);
    QuietStep(ss[n - 1], acts[n - 1]);
  }

  /**
   A close is only finished after it was begun, at m, on a snapshot in which the broker's position was zero:
   it was zero at one moment, r, of the batch that read it; from before that moment up to m no POST was
   outstanding and nothing was written but the publication at j; and nothing was pending at m. What was left
   in the ledger then, of an expired position, has been settled at c, and nothing was submitted since m.
   */
  lemma CloseWasFlat(ss: seq<Session>, acts: seq<Act>, n: nat, id: Id, sec: Id)
    returns (m: nat, c: nat, ws: seq<World>, es: seq<Event>, i: nat, r: nat, j: nat)
    requires Runs(ss, acts) && n < |ss| && ss[n].pc == Closing(id, sec)
    ensures BegunAt(ss, acts, m, c, n, id, sec) && !AnyPending(ss[m].w.t)
    ensures OrderRun(ss, acts, m, ws, es)
    ensures i < r < j < |es| && es[r] == ReadPositions && es[j] == Apply
    ensures Net(ws[r].b, sec) == 0
    ensures forall k :: i <= k <= |es| ==> !PostOutstanding(ws[k])
    ensures forall k :: i <= k < |es| && k != j ==> !Writes(ws[k], es[k])
    ensures ss[n].w.sent == ss[m].w.sent && |ss[n].w.t.intents| == |ss[m].w.t.intents|
  {
    hide Enabled, Next, Init, PostOutstanding, Writes, Allowed, Step, LifecycleTotals, Even, Left;
    m, c := CloseWasBegun(ss, acts, n);
    NothingSubmitted(ss, acts, m, n);
    ws, es := SessionOrders(ss, acts, m);
    var s: nat;
    i, s, r, j := HeldIsFenced(ws, es, |es|);
  }

  // ---------- The fills behind a close ----------

  /** Units bought less units sold at the broker by a lifecycle's intents. */
  function BrokerTraded(rows: seq<IntentRow>, b: Broker, n: nat, lifecycle: Id): int
    requires n <= |rows|
  {
    if n == 0 then 0
    else
      var i := rows[n - 1].intent;
      BrokerTraded(rows, b, n - 1, lifecycle)
      + (if i.lifecycle != lifecycle then 0
         else if i.side == BUY then BrokerFilled(b, i.corr) else -(BrokerFilled(b, i.corr) as int))
  }

  ghost predicate HonestSession(ss: seq<Session>, acts: seq<Act>) {
    && Runs(ss, acts)
    && (forall k, e :: 0 <= k < |acts| && OrderEventOf(ss[k], acts[k]) == Some(e) ==>
          HonestRead(ss[k].w, e) && BatchStated(ss[k].w, e))
  }

  lemma HonestOrders(ss: seq<Session>, acts: seq<Act>, n: nat, ws: seq<World>, es: seq<Event>)
    requires HonestSession(ss, acts) && n < |ss| && OrderRun(ss, acts, n, ws, es)
    ensures HonestRun(ws, es)
  {
    hide Run, HonestRead, BatchStated, OrderEventOf, Allowed, Step;
    RunLength(ws, es);
    forall i | 0 <= i < |es|
      ensures HonestRead(ws[i], es[i]) && BatchStated(ws[i], es[i])
    {
      assert EventOf(ss, acts, n, ws[i], es[i]);
    }
  }

  lemma {:induction false} ExactFillsExactQuantity(t: Tables, b: Broker, n: nat, lifecycle: Id)
    requires n <= |t.intents|
    requires forall k :: 0 <= k < n && t.intents[k].intent.lifecycle == lifecycle ==>
               FilledQty(t.fills, t.intents[k].intent.id) == BrokerFilled(b, t.intents[k].intent.corr)
    ensures BrokerTraded(t.intents, b, n, lifecycle) == Traded(t, n, lifecycle)
  {
    hide FilledQty, BrokerFilled;
    if n > 0 {
      ExactFillsExactQuantity(t, b, n - 1, lifecycle);
    }
  }

  /** Resolved throughout, and what it traded by the recorded fills is what was settled. */
  predicate FlatBooks(s: Session, id: Id) {
    SettledIn(s.w.t.intents, id) && Traded(s.w.t, |s.w.t.intents|, id) == SettledUnits(s.settlements, id)
  }

  /** Closed, or about to be. */
  predicate DoneWith(s: Session, id: Id) {
    || (s.pc.Closing? && s.pc.id == id)
    || exists k :: 0 <= k < |s.r.lifecycles| && s.r.lifecycles[k].id == id && !s.r.lifecycles[k].open
  }

  /** The intent an act may add is the probe's, or of a lifecycle that is open and not being closed. */
  lemma ActGrows(s: Session, a: Act) returns (i: Option<Intent>)
    requires SessionInv(s) && Allowed(s, a)
    ensures Grows(s.w.t.intents, Step(s, a).w.t.intents, i)
    ensures i.Some? ==> i.value.lifecycle == ROUTE_PROBE || (IsOpen(s.r, i.value.lifecycle, i.value.sec) && !s.pc.Closing?)
  {
    hide Inv, Enabled, Next, LifecycleTotals, Plain, Owned, OneEntry, RegisterInv, Gone, Even, AnyPending, NoEntry, SettledIn;
    i := None;
    match a
    case Others(e) =>
      StepGrows(s.w, e);
      PlainSubmit(s.w, e);
      i := Opening(s.w, e);
    case Operator(e) =>
      StepGrows(s.w, e);
      OperatorSubmit(s.w, e);
      i := Opening(s.w, e);
    case Enter(j, reserved, attempt, rateOk, dies) =>
      if StillDue(s) {
        StepGrows(s.w, EntryEvent(j, reserved, attempt, rateOk, dies));
        EntryOpening(s.w, j, reserved, attempt, rateOk, dies);
        EnrolledIsOpen(s);
        i := Some(j);
      }
    case Exit(j, reserved) => AskingGrows(s.w, j, reserved);
    case _ =>
  }

  lemma EnrolledIsOpen(s: Session)
    requires PcInv(s) && s.pc.Enrolled?
    ensures IsOpen(s.r, s.pc.id, s.pc.sec)
  {
    var k :| 0 <= k < |s.r.lifecycles| && s.r.lifecycles[k] == Lifecycle(s.pc.id, s.pc.sec, SignalOf(s.pc.ground), true);
    assert s.r.lifecycles[k].id == s.pc.id;
  }

  lemma AskingGrows(w: World, i: Intent, reserved: real)
    ensures Next(w, SubmitSell(i, reserved)).t == w.t
  {}

  lemma {:induction false} TradedStays(t: Tables, u: Tables, i: Option<Intent>, n: nat, id: Id)
    requires Grows(t.intents, u.intents, i) && NoLateFills(t, u) && SettledIn(t.intents, id) && n <= |u.intents|
    requires i.Some? ==> i.value.lifecycle != id
    ensures Traded(u, n, id) == Traded(t, if n <= |t.intents| then n else |t.intents|, id)
  {
    hide FilledQty;
    if n > 0 {
      TradedStays(t, u, i, n - 1, id);
      if n - 1 < |t.intents| && t.intents[n - 1].intent.lifecycle == id {
        assert Resolved(t.intents[n - 1].state);
      }
    }
  }

  lemma SettledStays(rows: seq<IntentRow>, others: seq<IntentRow>, i: Option<Intent>, id: Id)
    requires Grows(rows, others, i) && SettledIn(rows, id) && (i.Some? ==> i.value.lifecycle != id)
    ensures SettledIn(others, id)
  {}

  lemma UnitsElsewhere(rows: seq<Settlement>, row: Settlement, id: Id)
    requires row.lifecycle != id
    ensures SettledUnits(Booked(rows, row), id) == SettledUnits(rows, id)
  {
    assert (rows + [row])[..|rows|] == rows;
  }

  lemma DoneIsNotOpen(s: Session, id: Id)
    requires SessionInv(s) && DoneWith(s, id)
    ensures id != ROUTE_PROBE
    ensures (exists sec :: IsOpen(s.r, id, sec)) ==> s.pc.Closing? && s.pc.id == id
  {
    hide Inv, Owned, OneEntry, SellerInv;
    NoProbeLifecycle(s.r);
  }

  /** Once done, nothing a step does moves what was traded or settled. */
  lemma DoneStaysFlat(s: Session, a: Act, id: Id)
    requires SessionInv(s) && Allowed(s, a) && DoneWith(s, id) && FlatBooks(s, id)
    requires NoLateFills(s.w.t, Step(s, a).w.t)
    ensures FlatBooks(Step(s, a), id)
  {
    hide Inv, Grows, SettledIn, Traded, SettledUnits, NoLateFills, Owned, OneEntry, RegisterInv, SellerInv, IsOpen;
    var u := Step(s, a);
    var i := ActGrows(s, a);
    DoneIsNotOpen(s, id);
    TradedStays(s.w.t, u.w.t, i, |u.w.t.intents|, id);
    SettledStays(s.w.t.intents, u.w.t.intents, i, id);
    RowsOnlyGrow(s.w.t.intents, u.w.t.intents, i);
    SettlementsElsewhere(s, a, id);
  }

  lemma RowsOnlyGrow(rows: seq<IntentRow>, others: seq<IntentRow>, i: Option<Intent>)
    requires Grows(rows, others, i)
    ensures |rows| <= |others|
  {}

  lemma SettlementsElsewhere(s: Session, a: Act, id: Id)
    requires SessionInv(s) && Allowed(s, a) && DoneWith(s, id)
    ensures SettledUnits(Step(s, a).settlements, id) == SettledUnits(s.settlements, id)
  {
    hide Inv, Enabled, Next, LifecycleTotals, SettledUnits, Owned, OneEntry, SellerInv, Booked, Gone, Even;
    if a.BookSettlement? {
      AuctionIsOpen(s.r);
      DoneIsNotOpen(s, id);
      UnitsElsewhere(s.settlements, a.row, id);
    }
  }

  lemma OnlyClosingCloses(s: Session, a: Act, id: Id)
    requires Allowed(s, a) && !DoneWith(s, id) && DoneWith(Step(s, a), id)
    ensures Step(s, a).pc.Closing? && Step(s, a).pc.id == id
  {
    hide Enabled, Next, LifecycleTotals, Gone;
  }

  /** A lifecycle is done with only when nothing is left of it. */
  lemma DoneMeansEven(s: Session, a: Act, id: Id)
    requires SessionInv(Step(s, a)) && Allowed(s, a) && !DoneWith(s, id) && DoneWith(Step(s, a), id)
    ensures FlatBooks(Step(s, a), id)
  {
    hide Inv, Enabled, Next, LifecycleTotals, Owned, OneEntry, RegisterInv, SellerInv, Gone, SettledIn, Traded, SettledUnits;
    var u := Step(s, a);
    OnlyClosingCloses(s, a, id);
    assert Even(u, id);
    QuantityIsTradedLessSettled(u.w.t, u.settlements, id);
  }

  lemma HonestExtends(ws: seq<World>, es: seq<Event>, e: Event)
    requires HonestRun(ws, es) && |ws| == |es| + 1 && Enabled(ws[|es|], e) && HonestRead(ws[|es|], e) && BatchStated(ws[|es|], e)
    ensures HonestRun(ws + [Next(ws[|es|], e)], es + [e])
  {
    hide Run, Enabled, Next, HonestRead, BatchStated;
    RunExtends(ws, es, e);
  }

  /** No fill of a resolved intent is recorded late in an honest session. */
  lemma SessionHasNoLateFills(ss: seq<Session>, acts: seq<Act>, n: nat)
    requires HonestSession(ss, acts) && n < |acts|
    ensures NoLateFills(ss[n].w.t, ss[n + 1].w.t)
  {
    hide Run, HonestRun, Enabled, Next, Allowed, Step, OrderEventOf, HonestRead, BatchStated;
    var ws, es := SessionOrders(ss, acts, n);
    RunLength(ws, es);
    HonestOrders(ss, acts, n, ws, es);
    assert Allowed(ss[n], acts[n]) && ss[n + 1] == Step(ss[n], acts[n]);
    OrderStep(ss[n], acts[n]);
    var e := OrderEventOf(ss[n], acts[n]);
    if e.Some? {
      HonestExtends(ws, es, e.value);
      HonestMeansNoLateFills(ws + [Next(ws[|es|], e.value)], es + [e.value], |es|);
    }
  }

  lemma {:induction false} DoneIsFlat(ss: seq<Session>, acts: seq<Act>, n: nat, id: Id)
    requires HonestSession(ss, acts) && n < |ss| && DoneWith(ss[n], id)
    ensures FlatBooks(ss[n], id)
  {
    hide SessionInv, Allowed, Step, FlatBooks, DoneWith, HonestRead, BatchStated, OrderEventOf, NoLateFills;
    if n == 0 {
      NotDoneAtStart(ss[0], id);
    } else {
      assert Allowed(ss[n - 1], acts[n - 1]) && ss[n - 1 + 1] == Step(ss[n - 1], acts[n - 1]);
      RunsInv(ss, acts, n - 1);
      RunsInv(ss, acts, n);
      if DoneWith(ss[n - 1], id) {
        DoneIsFlat(ss, acts, n - 1, id);
        SessionHasNoLateFills(ss, acts, n - 1);
        DoneStaysFlat(ss[n - 1], acts[n - 1], id);
      } else {
        DoneMeansEven(ss[n - 1], acts[n - 1], id);
      }
    }
  }

  lemma NotDoneAtStart(s: Session, id: Id)
    requires Begins(s)
    ensures !DoneWith(s, id)
  {}

  /**
   With honest reports: in every state from the moment a close is decided, and ever after, what the lifecycle
   bought less what it sold at the broker is what was settled.
   */
  lemma ClosedIsFlatAtBroker(ss: seq<Session>, acts: seq<Act>, n: nat, id: Id)
    requires HonestSession(ss, acts) && n < |ss| && DoneWith(ss[n], id)
    ensures var s := ss[n];
            BrokerTraded(s.w.t.intents, s.w.b, |s.w.t.intents|, id) == SettledUnits(s.settlements, id)
  {
    hide Run, HonestRun, DoneWith, HonestRead, BatchStated, OrderEventOf, Allowed, Step, SettledIn;
    var s := ss[n];
    var ws, es := SessionOrders(ss, acts, n);
    HonestOrders(ss, acts, n, ws, es);
    RunLength(ws, es);
    DoneIsFlat(ss, acts, n, id);
    AllExact(ws, es, id);
    ExactFillsExactQuantity(s.w.t, s.w.b, |s.w.t.intents|, id);
  }

  lemma AllExact(ws: seq<World>, es: seq<Event>, lifecycle: Id)
    requires HonestRun(ws, es) && |ws| == |es| + 1 && SettledIn(ws[|es|].t.intents, lifecycle)
    ensures var w := ws[|es|];
            forall k :: 0 <= k < |w.t.intents| && w.t.intents[k].intent.lifecycle == lifecycle ==>
              FilledQty(w.t.fills, w.t.intents[k].intent.id) == BrokerFilled(w.b, w.t.intents[k].intent.corr)
  {
    hide BatchStated, Enabled, Next, Init, FilledQty, BrokerFilled;
    var w := ws[|es|];
    forall k | 0 <= k < |w.t.intents| && w.t.intents[k].intent.lifecycle == lifecycle
      ensures FilledQty(w.t.fills, w.t.intents[k].intent.id) == BrokerFilled(w.b, w.t.intents[k].intent.corr)
    {
      ResolvedIsExact(ws, es, |es|, k);
    }
  }
}
