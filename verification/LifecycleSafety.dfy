/** One open lifecycle, one shot per signal, entries in their window, and closed for good: over all runs. */
module LifecycleSafety {
  import opened Wrappers
  import opened Ledger
  import opened Orders
  import opened OrderSafety
  import opened OrderTheorems
  import opened Lifecycles
  import Capital

  // ---------- The invariant ----------

  predicate UniqueIds(rows: seq<Lifecycle>) {
    forall j, k :: 0 <= j < k < |rows| ==> rows[j].id != rows[k].id
  }

  predicate OneOpen(rows: seq<Lifecycle>) {
    forall j, k :: 0 <= j < k < |rows| ==> !(rows[j].open && rows[k].open)
  }

  predicate KeysTaken(r: Register, l: Lifecycle) {
    l.signal.Some? ==>
      var s := l.signal.value;
      && SignalKey(s) in r.consumed && r.consumed[SignalKey(s)] == Some(l.id)
      && FamilyKey(s) in r.families && r.families[FamilyKey(s)] == l.id
  }

  predicate RegisterInv(r: Register) {
    && UniqueIds(r.lifecycles) && OneOpen(r.lifecycles)
    && forall k :: 0 <= k < |r.lifecycles| ==> r.lifecycles[k].id != ROUTE_PROBE && KeysTaken(r, r.lifecycles[k])
  }

  /** Every intent belongs to a known lifecycle and its security, or to the probe, and those of a closed lifecycle are resolved. */
  predicate Owned(rows: seq<IntentRow>, ls: seq<Lifecycle>) {
    forall k :: 0 <= k < |rows| ==> OwnedRow(rows[k], ls)
  }

  predicate OwnedRow(row: IntentRow, ls: seq<Lifecycle>) {
    || row.intent.lifecycle == ROUTE_PROBE
    || exists j :: 0 <= j < |ls| && ls[j].id == row.intent.lifecycle && ls[j].sec == row.intent.sec
                   && (ls[j].open || Resolved(row.state))
  }

  predicate SettledIn(rows: seq<IntentRow>, id: Id) {
    forall k :: 0 <= k < |rows| && rows[k].intent.lifecycle == id ==> Resolved(rows[k].state)
  }

  predicate NoEntry(rows: seq<IntentRow>, id: Id) {
    forall k :: 0 <= k < |rows| ==> !(rows[k].intent.side == BUY && rows[k].intent.lifecycle == id)
  }

  /** Entries are made in time, and a signalled lifecycle has at most one. */
  predicate OneEntry(rows: seq<IntentRow>, ls: seq<Lifecycle>, entered: map<Id, Dispatched>) {
    forall j :: 0 <= j < |ls| ==> (ls[j].signal.Some? ==> SingleEntry(rows, ls[j].id)) && EntryTimes(rows, ls[j], entered)
  }

  predicate SingleEntry(rows: seq<IntentRow>, id: Id) {
    forall a, b :: 0 <= a < b < |rows| ==>
      !(rows[a].intent.side == BUY && rows[b].intent.side == BUY && rows[a].intent.lifecycle == id && rows[b].intent.lifecycle == id)
  }

  predicate EntryTimes(rows: seq<IntentRow>, l: Lifecycle, entered: map<Id, Dispatched>) {
    forall k :: 0 <= k < |rows| && rows[k].intent.side == BUY && rows[k].intent.lifecycle == l.id ==>
      rows[k].intent.id in entered && Timely(l, entered[rows[k].intent.id])
  }

  predicate Timely(l: Lifecycle, d: Dispatched) {
    SignalOf(d.ground) == l.signal && InTime(d.ground, d.at)
  }

  predicate Opened(g: Ground, now: int) {
    g.OfAuction? ==> g.hours.day * DAY + OPENING <= now
  }

  predicate PcInv(s: Session) {
    && (s.pc.Resting? || s.w.p.submit.Idle?)
    && match s.pc
       case Resting => true
       case Chosen(_) => !AnyOpen(s.r)
       case ChosenAuction(active, hours) => (active.None? ==> !AnyOpen(s.r)) && Opened(OfAuction(hours), s.w.clock)
       case Enrolled(id, sec, ground) =>
         && Lifecycle(id, sec, SignalOf(ground), true) in s.r.lifecycles
         && (ground.OfSignal? ==> NoEntry(s.w.t.intents, id))
         && Opened(ground, s.w.clock)
       case Settling(id, sec, _) => IsAuction(s.r, id, sec) && SettledIn(s.w.t.intents, id)
       case Closing(id, sec) => IsOpen(s.r, id, sec) && SettledIn(s.w.t.intents, id)
  }

  predicate SellerInv(s: Session) {
    match s.w.p.submit
    case AskedPositions(i, _, _) => IsOpen(s.r, i.lifecycle, i.sec)
    case GotPositions(i, _, _, _) => IsOpen(s.r, i.lifecycle, i.sec)
    case _ => true
  }

  ghost predicate SessionInv(s: Session) {
    && Inv(s.w)
    && RegisterInv(s.r)
    && Owned(s.w.t.intents, s.r.lifecycles)
    && OneEntry(s.w.t.intents, s.r.lifecycles, s.entered)
    && PcInv(s)
    && SellerInv(s)
  }

  // ---------- How an order step changes the intents ----------

  /** The intent an event may add. */
  function Opening(w: World, e: Event): Option<Intent> {
    match e
    case SubmitBuy(i, _, _, _) => Some(i)
    case SellDispatch(_, _) => if w.p.submit.GotPositions? then Some(w.p.submit.i) else None
    case CrashDuring(SubmitBuy(i, _, _, _), _) => Some(i)
    case CrashDuring(SellDispatch(_, _), _) => if w.p.submit.GotPositions? then Some(w.p.submit.i) else None
    case _ => None
  }

  /** Rows keep their intents, resolved ones stay resolved, and at most the one intent is new. */
  ghost predicate Grows(rows: seq<IntentRow>, others: seq<IntentRow>, i: Option<Intent>) {
    && |rows| <= |others| <= |rows| + (if i.Some? then 1 else 0)
    && (forall k :: 0 <= k < |rows| ==>
          others[k].intent == rows[k].intent && (Resolved(rows[k].state) ==> Resolved(others[k].state)))
    && (|others| > |rows| ==> others[|rows|].intent == i.value)
  }

  lemma {:induction false} TrailRows(t: Tables, ops: seq<Op>)
    ensures forall k :: 0 <= k < |Trail(t, ops)| ==> |Trail(t, ops)[k].intents| == |t.intents|
    decreases |ops|
  {
    hide ExecOp;
    if ops != [] && ExecOp(t, ops[0]).Success? {
      ExecRows(t, ops[0]);
      TrailRows(ExecOp(t, ops[0]).value, ops[1..]);
    }
  }

  lemma ExecRows(t: Tables, op: Op)
    requires ExecOp(t, op).Success?
    ensures |ExecOp(t, op).value.intents| == |t.intents|
  {}

  lemma CommitRows(w: World, e: Event)
    requires Enabled(w, e) && !e.CrashDuring?
    ensures forall k :: 0 <= k < |Commits(w, e)| ==>
              var u := Commits(w, e)[k];
              |u.intents| <= |w.t.intents| + (if Opening(w, e).Some? then 1 else 0)
              && (|u.intents| > |w.t.intents| ==> u.intents[|w.t.intents|].intent == Opening(w, e).value)
  {
    if e.Apply? {
      hide ExecOp, Program;
      TrailRows(w.t, Program(w.p.batch.rows, w.p.batch.resolved, w.p.batch.trades));
    } else {
      hide Trail, Program;
    }
  }

  lemma StepGrows(w: World, e: Event)
    requires Inv(w) && Enabled(w, e)
    ensures Grows(w.t.intents, Next(w, e).t.intents, Opening(w, e))
  {
    hide Inv, Enabled, Next, Commits;
    var k := StepTables(w, e);
    assert Opening(w, Core(e)) == Opening(w, e);
    CommitRows(w, Core(e));
    StepRows(w, e);
    StepKeepsSettled(w, e);
  }

  /** What a plain step does to the submit in progress. */
  lemma PlainSubmit(w: World, e: Event)
    requires Enabled(w, e) && Plain(e)
    ensures var u := Next(w, e).p.submit;
            && (w.p.submit.Idle? ==> u.Idle?)
            && (u.AskedPositions? ==> w.p.submit == u)
            && (u.GotPositions? ==> (w.p.submit == u || (w.p.submit.AskedPositions? && w.p.submit.i == u.i)))
    ensures w.p.submit.Idle? ==> Opening(w, e) == None
    ensures Opening(w, e).Some? ==> w.p.submit.GotPositions? && w.p.submit.i == Opening(w, e).value
  {
    hide Next, Resolve, PendingQty, Completes, Program, Posts, Truthful, TruthfulLine, HasOrder, Commits;
    StepProcess(w, e);
  }

  // ---------- Rows under growth ----------

  lemma OpenIsOpen(ls: seq<Lifecycle>, j: nat, k: nat)
    requires UniqueIds(ls) && j < |ls| && k < |ls| && ls[j].id == ls[k].id
    ensures j == k
  {}

  lemma OwnedGrows(rows: seq<IntentRow>, others: seq<IntentRow>, i: Option<Intent>, r: Register)
    requires Owned(rows, r.lifecycles) && Grows(rows, others, i)
    requires i.Some? ==> i.value.lifecycle == ROUTE_PROBE || IsOpen(r, i.value.lifecycle, i.value.sec)
    ensures Owned(others, r.lifecycles)
  {
    forall k | 0 <= k < |others|
      ensures OwnedRow(others[k], r.lifecycles)
    {
      if k < |rows| {
        assert OwnedRow(rows[k], r.lifecycles);
      }
    }
  }

  lemma SettledGrows(rows: seq<IntentRow>, others: seq<IntentRow>, id: Id)
    requires SettledIn(rows, id) && Grows(rows, others, None)
    ensures SettledIn(others, id)
  {}

  lemma NoEntryGrows(rows: seq<IntentRow>, others: seq<IntentRow>, id: Id)
    requires NoEntry(rows, id) && Grows(rows, others, None)
    ensures NoEntry(others, id)
  {}

  /** A sale or a probe changes nobody's entry. */
  lemma OneEntryGrows(rows: seq<IntentRow>, others: seq<IntentRow>, i: Option<Intent>, ls: seq<Lifecycle>,
                      entered: map<Id, Dispatched>)
    requires OneEntry(rows, ls, entered) && Grows(rows, others, i)
    requires i.Some? && i.value.side == BUY ==>
               forall j :: 0 <= j < |ls| ==> ls[j].id != i.value.lifecycle
    ensures OneEntry(others, ls, entered)
  {
    hide Timely;
    forall j | 0 <= j < |ls|
      ensures (ls[j].signal.Some? ==> SingleEntry(others, ls[j].id)) && EntryTimes(others, ls[j], entered)
    {
      assert (ls[j].signal.Some? ==> SingleEntry(rows, ls[j].id)) && EntryTimes(rows, ls[j], entered);
    }
  }

  // ---------- Each act ----------

  lemma PlainKeeps(s: Session, e: Event)
    requires SessionInv(s) && Allowed(s, Others(e))
    ensures SessionInv(Step(s, Others(e)))
  {
    hide Inv, Enabled, Next, Grows, Owned, OneEntry, RegisterInv, Plain, SettledIn, NoEntry;
    StepKeeps(s.w, e);
    StepGrows(s.w, e);
    PlainSubmit(s.w, e);
    if Opening(s.w, e).Some? {
      SellOnly(s.w, e);
    }
    var rows, others, i := s.w.t.intents, Next(s.w, e).t.intents, Opening(s.w, e);
    OwnedGrows(rows, others, i, s.r);
    OneEntryGrows(rows, others, i, s.r.lifecycles, s.entered);
    StepProcess(s.w, e);
    if s.pc.Closing? || s.pc.Settling? {
      SettledGrows(rows, others, s.pc.id);
    } else if s.pc.Enrolled? && s.pc.ground.OfSignal? {
      NoEntryGrows(rows, others, s.pc.id);
    }
  }

  lemma SellOnly(w: World, e: Event)
    requires Inv(w) && Plain(e) && Opening(w, e).Some?
    ensures Opening(w, e).value.side == SELL
  {}

  lemma OperatorKeeps(s: Session, e: Event)
    requires SessionInv(s) && Allowed(s, Operator(e))
    ensures SessionInv(Step(s, Operator(e)))
  {
    hide Inv, Enabled, Next, Grows, Owned, OneEntry, RegisterInv, AnyPending;
    StepKeeps(s.w, e);
    StepGrows(s.w, e);
    OperatorSubmit(s.w, e);
    var rows, others, i := s.w.t.intents, Next(s.w, e).t.intents, Opening(s.w, e);
    OwnedGrows(rows, others, i, s.r);
    NoProbeLifecycle(s.r);
    OneEntryGrows(rows, others, i, s.r.lifecycles, s.entered);
  }

  lemma NoProbeLifecycle(r: Register)
    requires RegisterInv(r)
    ensures forall j :: 0 <= j < |r.lifecycles| ==> r.lifecycles[j].id != ROUTE_PROBE
  {}

  lemma OperatorSubmit(w: World, e: Event)
    requires Enabled(w, e) && OperatorStep(e)
    ensures var u := Next(w, e).p.submit; !u.AskedPositions? && !u.GotPositions?
    ensures Opening(w, e).Some? ==> Opening(w, e).value.lifecycle == ROUTE_PROBE
  {}

  lemma ExitKeeps(s: Session, i: Intent, reserved: real)
    requires SessionInv(s) && Allowed(s, Exit(i, reserved))
    ensures SessionInv(Step(s, Exit(i, reserved)))
  {
    hide Inv, Grows, Owned, OneEntry, RegisterInv;
    StepKeeps(s.w, SubmitSell(i, reserved));
    assert Next(s.w, SubmitSell(i, reserved)).t == s.w.t;
  }

  lemma RetireKeeps(s: Session, g: Signal)
    requires SessionInv(s)
    ensures SessionInv(Step(s, Retire(g)))
  {
    hide Inv, Owned, OneEntry;
    forall k | 0 <= k < |s.r.lifecycles|
      ensures KeysTaken(Retired(s.r, g), s.r.lifecycles[k])
    {
      assert KeysTaken(s.r, s.r.lifecycles[k]);
    }
  }

  // ---------- A new lifecycle ----------

  lemma EnrollKeeps(r: Register, id: Id, sec: Id, signal: Option<Signal>)
    requires RegisterInv(r) && !AnyOpen(r) && id != ROUTE_PROBE && Enroll(r, id, sec, signal).Success?
    ensures RegisterInv(Enroll(r, id, sec, signal).value)
  {
    var u := Enroll(r, id, sec, signal).value;
    forall k | 0 <= k < |u.lifecycles|
      ensures KeysTaken(u, u.lifecycles[k])
    {
      if k < |r.lifecycles| {
        assert KeysTaken(r, r.lifecycles[k]);
      }
    }
  }

  lemma NewOwner(rows: seq<IntentRow>, ls: seq<Lifecycle>, l: Lifecycle)
    requires Owned(rows, ls)
    ensures Owned(rows, ls + [l])
  {
    forall k | 0 <= k < |rows|
      ensures OwnedRow(rows[k], ls + [l])
    {
      assert OwnedRow(rows[k], ls);
      if rows[k].intent.lifecycle != ROUTE_PROBE {
        var j :| 0 <= j < |ls| && ls[j].id == rows[k].intent.lifecycle && ls[j].sec == rows[k].intent.sec
                 && (ls[j].open || Resolved(rows[k].state));
        assert (ls + [l])[j] == ls[j];
      }
    }
  }

  lemma NewHasNoEntry(rows: seq<IntentRow>, ls: seq<Lifecycle>, id: Id)
    requires Owned(rows, ls) && id != ROUTE_PROBE && forall j :: 0 <= j < |ls| ==> ls[j].id != id
    ensures NoEntry(rows, id)
  {
    forall k | 0 <= k < |rows|
      ensures rows[k].intent.lifecycle != id
    {
      assert OwnedRow(rows[k], ls);
    }
  }

  lemma EnlistKeeps(s: Session, id: Id, sec: Id)
    requires SessionInv(s) && Allowed(s, Enlist(id, sec))
    ensures SessionInv(Step(s, Enlist(id, sec)))
  {
    hide Inv;
    var ground := if s.pc.Chosen? then OfSignal(s.pc.choice) else OfAuction(s.pc.hours);
    if s.pc.ChosenAuction? && s.pc.active.Some? {
      AddingToOpen(s, id, sec);
    } else if Enroll(s.r, id, sec, SignalOf(ground)).Success? {
      FreshKeeps(s, id, sec, ground);
    }
  }

  /** Auction entries may add to the open lifecycle; signalled ones are never added to. */
  lemma AddingToOpen(s: Session, id: Id, sec: Id)
    requires SessionInv(s) && Allowed(s, Enlist(id, sec)) && s.pc.ChosenAuction? && s.pc.active.Some?
    ensures SessionInv(Step(s, Enlist(id, sec)))
  {
    hide Inv, Owned, OneEntry;
  }

  lemma FreshKeeps(s: Session, id: Id, sec: Id, ground: Ground)
    requires SessionInv(s) && Allowed(s, Enlist(id, sec)) && !(s.pc.ChosenAuction? && s.pc.active.Some?)
    requires ground == (if s.pc.Chosen? then OfSignal(s.pc.choice) else OfAuction(s.pc.hours))
    requires Enroll(s.r, id, sec, SignalOf(ground)).Success?
    ensures SessionInv(Step(s, Enlist(id, sec)))
  {
    hide Inv, Owned, OneEntry, RegisterInv, NoEntry;
    var u, rows, signal := Step(s, Enlist(id, sec)), s.w.t.intents, SignalOf(ground);
    EnrollKeeps(s.r, id, sec, signal);
    NewOwner(rows, s.r.lifecycles, Lifecycle(id, sec, signal, true));
    NewHasNoEntry(rows, s.r.lifecycles, id);
    NewOneEntry(rows, s.r.lifecycles, Lifecycle(id, sec, signal, true), s.entered);
    assert u.r.lifecycles == s.r.lifecycles + [Lifecycle(id, sec, signal, true)];
    assert u.r.lifecycles[|s.r.lifecycles|] == Lifecycle(id, sec, signal, true);
  }

  lemma NewOneEntry(rows: seq<IntentRow>, ls: seq<Lifecycle>, l: Lifecycle, entered: map<Id, Dispatched>)
    requires OneEntry(rows, ls, entered) && NoEntry(rows, l.id)
    ensures OneEntry(rows, ls + [l], entered)
  {}

  // ---------- The entry itself ----------

  lemma EntryOpening(w: World, i: Intent, reserved: real, attempt: Id, rateOk: bool, dies: Option<nat>)
    requires Enabled(w, EntryEvent(i, reserved, attempt, rateOk, dies))
    ensures var e := EntryEvent(i, reserved, attempt, rateOk, dies);
            && i.side == BUY && Opening(w, e) == Some(i)
            && !Next(w, e).p.submit.AskedPositions? && !Next(w, e).p.submit.GotPositions?
            && (HasIntent(w.t, i.id) ==> |Next(w, e).t.intents| == |w.t.intents|)
  {}

  lemma EnterKeeps(s: Session, i: Intent, reserved: real, attempt: Id, rateOk: bool, dies: Option<nat>)
    requires SessionInv(s) && Allowed(s, Enter(i, reserved, attempt, rateOk, dies))
    ensures SessionInv(Step(s, Enter(i, reserved, attempt, rateOk, dies)))
  {
    hide Inv, Enabled, Next, Grows, Owned, OneEntry, RegisterInv, NoEntry, HasIntent;
    if StillDue(s) {
      var e := EntryEvent(i, reserved, attempt, rateOk, dies);
      StepKeeps(s.w, e);
      StepGrows(s.w, e);
      EntryOpening(s.w, i, reserved, attempt, rateOk, dies);
      OwnedGrows(s.w.t.intents, Next(s.w, e).t.intents, Some(i), s.r);
      EnteredOnce(s, i, Next(s.w, e).t.intents, Step(s, Enter(i, reserved, attempt, rateOk, dies)).entered);
    }
  }

  lemma EnteredOnce(s: Session, i: Intent, others: seq<IntentRow>, entered: map<Id, Dispatched>)
    requires OneEntry(s.w.t.intents, s.r.lifecycles, s.entered) && RegisterInv(s.r) && StillDue(s) && PcInv(s)
    requires i.lifecycle == s.pc.id && i.side == BUY && Grows(s.w.t.intents, others, Some(i))
    requires HasIntent(s.w.t, i.id) ==> |others| == |s.w.t.intents|
    requires entered == if HasIntent(s.w.t, i.id) then s.entered else s.entered[i.id := Dispatched(s.w.clock, s.pc.ground)]
    ensures OneEntry(others, s.r.lifecycles, entered)
  {
    var rows, ls := s.w.t.intents, s.r.lifecycles;
    forall j | 0 <= j < |ls|
      ensures (ls[j].signal.Some? ==> SingleEntry(others, ls[j].id)) && EntryTimes(others, ls[j], entered)
    {
      assert (ls[j].signal.Some? ==> SingleEntry(rows, ls[j].id)) && EntryTimes(rows, ls[j], s.entered);
    }
  }

  // ---------- Closing ----------

  lemma NothingPendingSettled(t: Tables, id: Id)
    requires !AnyPending(t) && id != ROUTE_PROBE
    ensures SettledIn(t.intents, id)
  {
    forall k | 0 <= k < |t.intents| && t.intents[k].intent.lifecycle == id
      ensures Resolved(t.intents[k].state)
    {
      assert !Pending(t, t.intents[k]);
    }
  }

  lemma CloseKeeps(s: Session)
    requires SessionInv(s) && Allowed(s, FinishClose)
    ensures SessionInv(Step(s, FinishClose))
  {
    hide Inv;
    var u, rows := Step(s, FinishClose), s.w.t.intents;
    forall k | 0 <= k < |rows|
      ensures OwnedRow(rows[k], u.r.lifecycles)
    {
      assert OwnedRow(rows[k], s.r.lifecycles);
      if rows[k].intent.lifecycle != ROUTE_PROBE {
        var j :| 0 <= j < |s.r.lifecycles| && s.r.lifecycles[j].id == rows[k].intent.lifecycle
                 && s.r.lifecycles[j].sec == rows[k].intent.sec && (s.r.lifecycles[j].open || Resolved(rows[k].state));
        assert u.r.lifecycles[j].id == rows[k].intent.lifecycle;
      }
    }
    forall k | 0 <= k < |u.r.lifecycles|
      ensures KeysTaken(u.r, u.r.lifecycles[k])
    {
      assert KeysTaken(s.r, s.r.lifecycles[k]);
    }
    forall j | 0 <= j < |u.r.lifecycles|
      ensures (u.r.lifecycles[j].signal.Some? ==> SingleEntry(rows, u.r.lifecycles[j].id))
      ensures EntryTimes(rows, u.r.lifecycles[j], s.entered)
    {
      assert (s.r.lifecycles[j].signal.Some? ==> SingleEntry(rows, s.r.lifecycles[j].id))
          && EntryTimes(rows, s.r.lifecycles[j], s.entered);
    }
  }

  lemma ActKeeps(s: Session, a: Act)
    requires SessionInv(s) && Allowed(s, a)
    ensures SessionInv(Step(s, a))
  {
    hide Inv, Owned, OneEntry, RegisterInv, NoEntry, Enabled, Next;
    match a
    case Others(e) => PlainKeeps(s, e);
    case Operator(e) => OperatorKeeps(s, e);
    case Retire(g) => RetireKeeps(s, g);
    case Enlist(id, sec) => EnlistKeeps(s, id, sec);
    case Enter(i, reserved, attempt, rateOk, dies) => EnterKeeps(s, i, reserved, attempt, rateOk, dies);
    case Exit(i, reserved) => ExitKeeps(s, i, reserved);
    case BeginClose(id, _) =>
      NoProbeLifecycle(s.r);
      NothingPendingSettled(s.w.t, id);
    case BeginSettle(id, _) =>
      NoProbeLifecycle(s.r);
      NothingPendingSettled(s.w.t, id);
    case BookSettlement(_) => AuctionIsOpen(s.r);
    case FinishClose => CloseKeeps(s);
    case _ =>
  }

  lemma AuctionIsOpen(r: Register)
    ensures forall id, sec :: IsAuction(r, id, sec) ==> IsOpen(r, id, sec)
  {
    forall id, sec | IsAuction(r, id, sec)
      ensures IsOpen(r, id, sec)
    {
      var k :| 0 <= k < |r.lifecycles| && r.lifecycles[k] == Lifecycle(id, sec, None, true);
      assert r.lifecycles[k].id == id;
    }
  }

  lemma BeginInv(s: Session)
    requires Begins(s)
    ensures SessionInv(s)
  {
    InitInv(s.w);
    hide Inv;
  }

  lemma {:induction false} RunsInv(ss: seq<Session>, acts: seq<Act>, k: nat)
    requires Runs(ss, acts) && k < |ss|
    ensures SessionInv(ss[k])
  {
    hide SessionInv, Allowed, Step, Begins;
    if k == 0 {
      BeginInv(ss[0]);
    } else {
      RunsInv(ss, acts, k - 1);
      ActKeeps(ss[k - 1], acts[k - 1]);
    }
  }

  // ---------- What follows ----------

  /** At most one lifecycle is open in any state. */
  lemma OneOpenLifecycle(ss: seq<Session>, acts: seq<Act>, n: nat, j: nat, k: nat)
    requires Runs(ss, acts) && n < |ss| && j < |ss[n].r.lifecycles| && k < |ss[n].r.lifecycles|
    requires ss[n].r.lifecycles[j].open && ss[n].r.lifecycles[k].open
    ensures j == k
  {
    hide Inv;
    RunsInv(ss, acts, n);
  }

  /** Of one day, and of one minute strategy or of one episode of another owner. */
  predicate OneShot(a: Signal, b: Signal) {
    && a.day == b.day
    && match a.owner
       case Minute(name, _) => b.owner.Minute? && b.owner.name == name
       case Seconds(name) => b.owner == Seconds(name) && b.episode == a.episode
       case Shock => b.owner == Shock && b.episode == a.episode
  }

  /** Of one day, and of one family of minute strategies or of one episode of another owner. */
  predicate OneFamily(a: Signal, b: Signal) {
    && a.day == b.day
    && match a.owner
       case Minute(_, family) => b.owner.Minute? && b.owner.family == family
       case Seconds(name) => b.owner == Seconds(name) && b.episode == a.episode
       case Shock => b.owner == Shock && b.episode == a.episode
  }

  lemma KeysTell(a: Signal, b: Signal)
    ensures SignalKey(a) == SignalKey(b) <==> OneShot(a, b)
    ensures FamilyKey(a) == FamilyKey(b) <==> OneFamily(a, b)
  {}

  /** Each minute strategy and each minute family of a day, and each episode, opens at most one lifecycle, restarts included. */
  lemma SignalsFireOnce(ss: seq<Session>, acts: seq<Act>, n: nat, j: nat, k: nat)
    requires Runs(ss, acts) && n < |ss| && j < |ss[n].r.lifecycles| && k < |ss[n].r.lifecycles|
    requires ss[n].r.lifecycles[j].signal.Some? && ss[n].r.lifecycles[k].signal.Some?
    requires var a, b := ss[n].r.lifecycles[j].signal.value, ss[n].r.lifecycles[k].signal.value;
             OneShot(a, b) || OneFamily(a, b)
    ensures j == k
  {
    hide Inv;
    RunsInv(ss, acts, n);
    var r := ss[n].r;
    KeysTell(r.lifecycles[j].signal.value, r.lifecycles[k].signal.value);
    assert KeysTaken(r, r.lifecycles[j]) && KeysTaken(r, r.lifecycles[k]);
    OpenIsOpen(r.lifecycles, j, k);
  }

  /** Some lifecycle was opened for a signal of the same strategy or episode, or one was given up unused. */
  predicate ShotBefore(ss: seq<Session>, acts: seq<Act>, n: nat, g: Signal)
    requires n < |ss| && |ss| == |acts| + 1
  {
    || (exists j :: 0 <= j < |ss[n].r.lifecycles| && ss[n].r.lifecycles[j].signal.Some?
                    && OneShot(ss[n].r.lifecycles[j].signal.value, g))
    || (exists k :: 0 <= k < n && acts[k].Retire? && OneShot(acts[k].signal, g))
  }

  predicate FamilyBefore(s: Session, g: Signal) {
    exists j :: 0 <= j < |s.r.lifecycles| && s.r.lifecycles[j].signal.Some? && OneFamily(s.r.lifecycles[j].signal.value, g)
  }

  lemma RegisterStep(s: Session, a: Act, g: Signal)
    requires Allowed(s, a)
    ensures var r, u := s.r, Step(s, a).r;
            && |u.lifecycles| >= |r.lifecycles|
            && (forall j :: 0 <= j < |r.lifecycles| ==> u.lifecycles[j].signal == r.lifecycles[j].signal)
            && (SignalKey(g) in u.consumed <==>
                  || SignalKey(g) in r.consumed || (a.Retire? && OneShot(a.signal, g))
                  || exists j :: |r.lifecycles| <= j < |u.lifecycles| && u.lifecycles[j].signal.Some?
                                 && OneShot(u.lifecycles[j].signal.value, g))
            && (FamilyKey(g) in u.families <==>
                  || FamilyKey(g) in r.families
                  || exists j :: |r.lifecycles| <= j < |u.lifecycles| && u.lifecycles[j].signal.Some?
                                 && OneFamily(u.lifecycles[j].signal.value, g))
  {
    hide Orders.Enabled, Orders.Next, Gone, Even, Left, StillDue, OneShot, OneFamily, SignalKey, FamilyKey;
    if a.Retire? {
      KeysTell(a.signal, g);
    } else if a.Enlist? && !(s.pc.ChosenAuction? && s.pc.active.Some?) {
      var signal := if s.pc.Chosen? then Some(s.pc.choice) else None;
      EnrollKeys(s.r, a.id, a.sec, signal, g);
    }
  }

  lemma EnrollKeys(r: Register, id: Id, sec: Id, signal: Option<Signal>, g: Signal)
    ensures Enroll(r, id, sec, signal).Success? ==>
              var u := Enroll(r, id, sec, signal).value;
              && u.lifecycles == r.lifecycles + [Lifecycle(id, sec, signal, true)]
              && u.lifecycles[|r.lifecycles|] == Lifecycle(id, sec, signal, true)
              && (SignalKey(g) in u.consumed <==> SignalKey(g) in r.consumed || (signal.Some? && OneShot(signal.value, g)))
              && (FamilyKey(g) in u.families <==> FamilyKey(g) in r.families || (signal.Some? && OneFamily(signal.value, g)))
  {
    hide OneShot, OneFamily, SignalKey, FamilyKey;
    if signal.Some? {
      KeysTell(signal.value, g);
    }
  }

  lemma {:induction false} KeysRemember(ss: seq<Session>, acts: seq<Act>, n: nat, g: Signal)
    requires Runs(ss, acts) && n < |ss|
    ensures SignalKey(g) in ss[n].r.consumed <==> ShotBefore(ss, acts, n, g)
    ensures FamilyKey(g) in ss[n].r.families <==> FamilyBefore(ss[n], g)
  {
    hide Allowed, Step, OneShot, OneFamily, SignalKey, FamilyKey;
    if n > 0 {
      KeysRemember(ss, acts, n - 1, g);
      assert Allowed(ss[n - 1], acts[n - 1]) && ss[n - 1 + 1] == Step(ss[n - 1], acts[n - 1]);
      RegisterStep(ss[n - 1], acts[n - 1], g);
      ShotsGrow(ss, acts, n, g);
      FamiliesGrow(ss[n - 1], ss[n], g);
    }
  }

  lemma ShotsGrow(ss: seq<Session>, acts: seq<Act>, n: nat, g: Signal)
    requires 0 < n < |ss| && |ss| == |acts| + 1
    requires var r, u := ss[n - 1].r, ss[n].r;
             |u.lifecycles| >= |r.lifecycles| && forall j :: 0 <= j < |r.lifecycles| ==> u.lifecycles[j].signal == r.lifecycles[j].signal
    ensures ShotBefore(ss, acts, n, g) <==>
            || ShotBefore(ss, acts, n - 1, g) || (acts[n - 1].Retire? && OneShot(acts[n - 1].signal, g))
            || exists j :: |ss[n - 1].r.lifecycles| <= j < |ss[n].r.lifecycles| && ss[n].r.lifecycles[j].signal.Some?
                           && OneShot(ss[n].r.lifecycles[j].signal.value, g)
  {
    hide OneShot;
    var r, u := ss[n - 1].r.lifecycles, ss[n].r.lifecycles;
    assert forall j :: 0 <= j < |r| ==> r[j].signal == u[j].signal;
  }

  lemma FamiliesGrow(s: Session, u: Session, g: Signal)
    requires |u.r.lifecycles| >= |s.r.lifecycles|
    requires forall j :: 0 <= j < |s.r.lifecycles| ==> u.r.lifecycles[j].signal == s.r.lifecycles[j].signal
    ensures FamilyBefore(u, g) <==>
            || FamilyBefore(s, g)
            || exists j :: |s.r.lifecycles| <= j < |u.r.lifecycles| && u.r.lifecycles[j].signal.Some?
                           && OneFamily(u.r.lifecycles[j].signal.value, g)
  {
    hide OneFamily;
    assert forall j :: 0 <= j < |s.r.lifecycles| ==> s.r.lifecycles[j].signal == u.r.lifecycles[j].signal;
  }

  ghost predicate OneEach(rows: seq<Capital.Settlement>) {
    forall j, k :: 0 <= j < k < |rows| ==> rows[j].receipt != rows[k].receipt
  }

  /** No receipt of the cash ledger is ever booked twice. */
  lemma {:induction false} ReceiptsOnce(ss: seq<Session>, acts: seq<Act>, n: nat)
    requires Runs(ss, acts) && n < |ss|
    ensures OneEach(ss[n].settlements)
  {
    assert OneEach([]);
    hide Allowed, Step, Booked, OneEach;
    if n > 0 {
      ReceiptsOnce(ss, acts, n - 1);
      assert ss[n - 1 + 1] == Step(ss[n - 1], acts[n - 1]);
      BookingStep(ss[n - 1], acts[n - 1]);
      if acts[n - 1].BookSettlement? {
        BookedOnce(ss[n - 1].settlements, acts[n - 1].row);
      }
    }
  }

  lemma BookedOnce(rows: seq<Capital.Settlement>, row: Capital.Settlement)
    requires OneEach(rows)
    ensures OneEach(Booked(rows, row))
  {}

  lemma BookingStep(s: Session, a: Act)
    ensures Step(s, a).settlements == if a.BookSettlement? && s.pc.Settling? then Booked(s.settlements, a.row) else s.settlements
  {
    hide Enroll, Retired, Left, Even, StillDue, Booked, Closed, Orders.Next;
  }

  /**
   A signal opens a lifecycle exactly when its id is new and no lifecycle of the day was for the same strategy,
   family or episode, nor was such a signal given up: others are not in its way.
   */
  lemma SignalOpensIff(ss: seq<Session>, acts: seq<Act>, n: nat, g: Signal, id: Id, sec: Id)
    requires Runs(ss, acts) && n < |acts| && ss[n].pc == Chosen(g) && acts[n] == Enlist(id, sec)
    ensures ss[n + 1].pc == (if (exists j :: 0 <= j < |ss[n].r.lifecycles| && ss[n].r.lifecycles[j].id == id)
                                || ShotBefore(ss, acts, n, g) || FamilyBefore(ss[n], g)
                             then Resting else Enrolled(id, sec, OfSignal(g)))
    ensures ss[n + 1].r.lifecycles == ss[n].r.lifecycles + if ss[n + 1].pc.Enrolled? then [Lifecycle(id, sec, Some(g), true)] else []
  {
    hide ShotBefore, FamilyBefore, SignalKey, FamilyKey;
    KeysRemember(ss, acts, n, g);
    assert Allowed(ss[n], acts[n]) && ss[n + 1] == Step(ss[n], acts[n]);
  }

  /** What is recorded of an entry is the clock and the ground of the step that handed it over. */
  lemma {:induction false} EnteredWhen(ss: seq<Session>, acts: seq<Act>, n: nat, id: Id) returns (k: nat)
    requires Runs(ss, acts) && n < |ss| && id in ss[n].entered
    ensures k < n && acts[k].Enter? && acts[k].i.id == id && !HasIntent(ss[k].w.t, id)
    ensures ss[k].pc.Enrolled? && ss[n].entered[id] == Dispatched(ss[k].w.clock, ss[k].pc.ground)
  {
    hide Allowed, HasIntent, Next;
    var s, a := ss[n - 1], acts[n - 1];
    assert ss[n - 1 + 1] == Step(s, a);
    if a.Enter? && a.i.id == id && StillDue(s) && !HasIntent(s.w.t, id) {
      k := n - 1;
    } else {
      k := EnteredWhen(ss, acts, n - 1, id);
    }
  }

  /** A signalled lifecycle makes at most one entry, and that was handed over, at step k, inside the signal's window. */
  lemma OneEntryInWindow(ss: seq<Session>, acts: seq<Act>, n: nat, l: nat, a: nat, b: nat) returns (k: nat)
    requires Runs(ss, acts) && n < |ss| && l < |ss[n].r.lifecycles| && ss[n].r.lifecycles[l].signal.Some?
    requires a < |ss[n].w.t.intents| && b < |ss[n].w.t.intents|
    requires ss[n].w.t.intents[a].intent.side == BUY && ss[n].w.t.intents[a].intent.lifecycle == ss[n].r.lifecycles[l].id
    requires ss[n].w.t.intents[b].intent.side == BUY && ss[n].w.t.intents[b].intent.lifecycle == ss[n].r.lifecycles[l].id
    ensures a == b
    ensures k < n && acts[k].Enter? && acts[k].i.id == ss[n].w.t.intents[a].intent.id && !HasIntent(ss[k].w.t, acts[k].i.id)
    ensures InWindow(ss[n].r.lifecycles[l].signal.value, ss[k].w.clock)
  {
    hide Inv, HasIntent, Allowed, Step;
    RunsInv(ss, acts, n);
    assert SingleEntry(ss[n].w.t.intents, ss[n].r.lifecycles[l].id);
    assert EntryTimes(ss[n].w.t.intents, ss[n].r.lifecycles[l], ss[n].entered);
    k := EnteredWhen(ss, acts, n, ss[n].w.t.intents[a].intent.id);
  }

  /**
   Every entry of an auction lifecycle was handed over, at step k, in the hours of its own day: from 15:20 and
   before 15:30, or 15:38:30 on the final value.
   */
  lemma AuctionEntryInHours(ss: seq<Session>, acts: seq<Act>, n: nat, l: nat, a: nat) returns (k: nat)
    requires Runs(ss, acts) && n < |ss| && l < |ss[n].r.lifecycles| && ss[n].r.lifecycles[l].signal.None?
    requires a < |ss[n].w.t.intents| && ss[n].w.t.intents[a].intent.side == BUY
    requires ss[n].w.t.intents[a].intent.lifecycle == ss[n].r.lifecycles[l].id
    ensures k < n && acts[k].Enter? && acts[k].i.id == ss[n].w.t.intents[a].intent.id && !HasIntent(ss[k].w.t, acts[k].i.id)
    ensures ss[k].pc.Enrolled? && ss[k].pc.ground.OfAuction? && InHours(ss[k].pc.ground.hours, ss[k].w.clock)
  {
    hide Inv, HasIntent, Allowed, Step;
    RunsInv(ss, acts, n);
    assert EntryTimes(ss[n].w.t.intents, ss[n].r.lifecycles[l], ss[n].entered);
    k := EnteredWhen(ss, acts, n, ss[n].w.t.intents[a].intent.id);
  }

  /** Nothing of a closed lifecycle is left at the broker: each of its intents is terminal there or was never sent. */
  lemma ClosedIsFinished(ss: seq<Session>, acts: seq<Act>, n: nat, l: nat, a: nat)
    requires Runs(ss, acts) && n < |ss| && l < |ss[n].r.lifecycles| && !ss[n].r.lifecycles[l].open
    requires a < |ss[n].w.t.intents| && ss[n].w.t.intents[a].intent.lifecycle == ss[n].r.lifecycles[l].id
    ensures Resolved(ss[n].w.t.intents[a].state)
    ensures Exposure(ss[n].w.b, ss[n].w.t.intents[a].intent) == 0
    ensures BrokerDead(ss[n].w.b, ss[n].w.t.intents[a].intent.corr) || ss[n].w.t.intents[a].intent.corr !in ss[n].w.sent
  {
    RunsInv(ss, acts, n);
    FinishedRow(ss[n], l, a);
  }

  lemma FinishedRow(s: Session, l: nat, a: nat)
    requires SessionInv(s) && l < |s.r.lifecycles| && !s.r.lifecycles[l].open
    requires a < |s.w.t.intents| && s.w.t.intents[a].intent.lifecycle == s.r.lifecycles[l].id
    ensures Resolved(s.w.t.intents[a].state)
    ensures Exposure(s.w.b, s.w.t.intents[a].intent) == 0
    ensures BrokerDead(s.w.b, s.w.t.intents[a].intent.corr) || s.w.t.intents[a].intent.corr !in s.w.sent
  {
    var rows, ls := s.w.t.intents, s.r.lifecycles;
    assert OwnedRow(rows[a], ls);
    var j :| 0 <= j < |ls| && ls[j].id == rows[a].intent.lifecycle && ls[j].sec == rows[a].intent.sec && (ls[j].open || Resolved(rows[a].state));
    OpenIsOpen(ls, j, l);
    ResolvedIsOver(s.w, a);
  }

  lemma ResolvedIsOver(w: World, a: nat)
    requires Inv(w) && a < |w.t.intents| && Resolved(w.t.intents[a].state)
    ensures Exposure(w.b, w.t.intents[a].intent) == 0
    ensures BrokerDead(w.b, w.t.intents[a].intent.corr) || w.t.intents[a].intent.corr !in w.sent
  {
    assert RowInv(w.t, w.b, w.sent, w.t.intents[a]);
  }

  /** All intents of a lifecycle trade its one security. */
  lemma OneSecurityEach(ss: seq<Session>, acts: seq<Act>, n: nat, l: nat, a: nat)
    requires Runs(ss, acts) && n < |ss| && l < |ss[n].r.lifecycles|
    requires a < |ss[n].w.t.intents| && ss[n].w.t.intents[a].intent.lifecycle == ss[n].r.lifecycles[l].id
    ensures ss[n].w.t.intents[a].intent.sec == ss[n].r.lifecycles[l].sec
  {
    hide Inv;
    RunsInv(ss, acts, n);
    var row, ls := ss[n].w.t.intents[a], ss[n].r.lifecycles;
    assert OwnedRow(row, ls);
    var j :| 0 <= j < |ls| && ls[j].id == row.intent.lifecycle && ls[j].sec == row.intent.sec && (ls[j].open || Resolved(row.state));
    OpenIsOpen(ls, j, l);
  }

  /** Once closed, a lifecycle stays closed. */
  lemma {:induction false} ClosedForever(ss: seq<Session>, acts: seq<Act>, m: nat, n: nat, l: nat)
    requires Runs(ss, acts) && m <= n < |ss| && l < |ss[m].r.lifecycles|
    ensures l < |ss[n].r.lifecycles| && ss[n].r.lifecycles[l].id == ss[m].r.lifecycles[l].id
    ensures ss[n].r.lifecycles[l].signal == ss[m].r.lifecycles[l].signal
    ensures !ss[m].r.lifecycles[l].open ==> !ss[n].r.lifecycles[l].open
  {
    hide Allowed, Begins, Step;
    if m < n {
      ClosedForever(ss, acts, m, n - 1, l);
      assert ss[n - 1 + 1] == Step(ss[n - 1], acts[n - 1]);
      RowStays(ss[n - 1], acts[n - 1], l);
    }
  }

  lemma RowStays(s: Session, a: Act, l: nat)
    requires l < |s.r.lifecycles|
    ensures var u := Step(s, a).r.lifecycles;
            && l < |u| && u[l].id == s.r.lifecycles[l].id && u[l].signal == s.r.lifecycles[l].signal
            && (!s.r.lifecycles[l].open ==> !u[l].open)
  {
    hide Left, Even, StillDue, Booked, Orders.Next, SignalKey, FamilyKey;
  }
}
