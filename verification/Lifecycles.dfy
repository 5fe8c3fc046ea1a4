/**
 Positions and signals (engine.py, directional.py, shock_engine.py) on top of the order protocol: one open
 lifecycle at a time, signals that are used up once, entry deadlines, and closing. The engine's lock makes
 its own steps sequential; `pc` is where it waits, and orders, feeds and the broker go on meanwhile.
 */
module Lifecycles {
  import opened Wrappers
  import opened Ledger
  import opened Orders
  import opened Capital

  /** Who found the signal; minute strategies are grouped in families. */
  datatype Owner = Minute(name: nat, family: nat) | Seconds(name: nat) | Shock

  /** `at` is when the signal was evaluated. */
  datatype Signal = Signal(owner: Owner, day: nat, at: int, episode: nat)

  datatype Key =
    | DailySignal(day: nat, name: nat)
    | EpisodeSignal(day: nat, owner: Owner, episode: nat)
    | DailyFamily(day: nat, family: nat)
    | EpisodeFamily(day: nat, owner: Owner, episode: nat)

  function SignalKey(s: Signal): Key {
    if s.owner.Minute? then DailySignal(s.day, s.owner.name) else EpisodeSignal(s.day, s.owner, s.episode)
  }

  function FamilyKey(s: Signal): Key {
    if s.owner.Minute? then DailyFamily(s.day, s.owner.family) else EpisodeFamily(s.day, s.owner, s.episode)
  }

  /** Milliseconds. A minute signal is due when its next minute opens; the others at once. */
  function Due(s: Signal): int { if s.owner.Minute? then s.at + 60_000 else s.at }

  predicate InWindow(s: Signal, now: int) {
    match s.owner
    case Minute(_, _) => Due(s) <= now < Due(s) + 30_000
    case Seconds(_) => Due(s) <= now < Due(s) + 5_000
    case Shock => Due(s) <= now <= Due(s) + 30_000
  }

  const DAY: int := 86_400_000

  const OPENING: int := 55_200_000         // 15:20

  const CLOSING_TIME: int := 55_800_000    // 15:30

  const FINAL_TIME: int := 56_310_000      // 15:38:30

  /** The hours of auction entries on a day; those on the final value end later. */
  datatype Hours = Hours(day: int, final: bool)

  predicate BeforeEnd(h: Hours, now: int) {
    h.day * DAY <= now < h.day * DAY + if h.final then FINAL_TIME else CLOSING_TIME
  }

  predicate InHours(h: Hours, now: int) {
    h.day * DAY + OPENING <= now && BeforeEnd(h, now)
  }

  /** What an entry is made on. */
  datatype Ground = OfSignal(signal: Signal) | OfAuction(hours: Hours)

  function SignalOf(g: Ground): Option<Signal> { if g.OfSignal? then Some(g.signal) else None }

  predicate InTime(g: Ground, now: int) {
    match g
    case OfSignal(s) => InWindow(s, now)
    case OfAuction(h) => InHours(h, now)
  }

  /** One security for its whole life; `signal` is None for auction entries. */
  datatype Lifecycle = Lifecycle(id: Id, sec: Id, signal: Option<Signal>, open: bool)

  /** The durable part: lifecycles, and metadata keys with the lifecycle they were used for, if any. */
  datatype Register = Register(lifecycles: seq<Lifecycle>, consumed: map<Key, Option<Id>>, families: map<Key, Id>)

  const BLANK: Register := Register([], map[], map[])

  predicate IsOpen(r: Register, id: Id, sec: Id) {
    exists k :: 0 <= k < |r.lifecycles| && r.lifecycles[k].id == id && r.lifecycles[k].sec == sec && r.lifecycles[k].open
  }

  /** The open lifecycle is an auction's own; those of signals are managed by their owners. */
  predicate IsAuction(r: Register, id: Id, sec: Id) {
    Lifecycle(id, sec, None, true) in r.lifecycles
  }

  predicate AnyOpen(r: Register) {
    exists k :: 0 <= k < |r.lifecycles| && r.lifecycles[k].open
  }

  predicate Known(r: Register, id: Id) {
    exists k :: 0 <= k < |r.lifecycles| && r.lifecycles[k].id == id
  }

  /** One transaction: the lifecycle and both of its keys, or nothing. */
  function Enroll(r: Register, id: Id, sec: Id, signal: Option<Signal>): Result<Register> {
    if Known(r, id) then Failure("unique constraint")
    else
      match signal
      case None => Success(r.(lifecycles := r.lifecycles + [Lifecycle(id, sec, None, true)]))
      case Some(s) =>
        if SignalKey(s) in r.consumed || FamilyKey(s) in r.families then Failure("unique constraint")
        else Success(Register(r.lifecycles + [Lifecycle(id, sec, signal, true)],
                              r.consumed[SignalKey(s) := Some(id)], r.families[FamilyKey(s) := id]))
  }

  /** A missed deadline or an invalidated episode uses the signal up without a lifecycle. */
  function Retired(r: Register, s: Signal): Register {
    if SignalKey(s) in r.consumed then r else r.(consumed := r.consumed[SignalKey(s) := None])
  }

  function Closed(rows: seq<Lifecycle>, id: Id): (c: seq<Lifecycle>)
    ensures |c| == |rows|
    ensures forall k :: 0 <= k < |rows| ==> c[k] == if rows[k].id == id then rows[k].(open := false) else rows[k]
  {
    seq(|rows|, k requires 0 <= k < |rows| => if rows[k].id == id then rows[k].(open := false) else rows[k])
  }

  // ---------- The engine's steps ----------

  datatype Pc =
    | Resting
    | Chosen(choice: Signal)                            // a signal passed its checks; reading the funds
    | ChosenAuction(active: Option<Id>, hours: Hours)   // an auction entry did, for a new lifecycle or the open one
    | Enrolled(id: Id, sec: Id, ground: Ground)
    | Settling(id: Id, sec: Id, units: nat)             // expired and gone from the account; reading the cash ledger
    | Closing(id: Id, sec: Id)                          // flat and settled; reading the funds

  datatype Dispatched = Dispatched(at: int, ground: Ground)

  /** `entered` remembers when, and on what, each entry intent was handed to the order manager. */
  datatype Session = Session(w: World, r: Register, settlements: seq<Settlement>, pc: Pc, entered: map<Id, Dispatched>)

  datatype Act =
    | Others(e: Event)                    // broker, reconciler, account refresh, answers to earlier requests
    | Operator(e: Event)                  // route probe or route reset
    | Choose(signal: Signal)
    | ChooseAuction(active: Option<Id>, hours: Hours, seen: int)
    | Retire(signal: Signal)
    | Enlist(id: Id, sec: Id)
    | GiveUp
    | Enter(i: Intent, reserved: real, attempt: Id, rateOk: bool, diesAt: Option<nat>)
    | Exit(i: Intent, reserved: real)
    | BeginSettle(id: Id, sec: Id)
    | BookSettlement(row: Settlement)
    | BeginClose(id: Id, sec: Id)
    | FinishClose

  predicate Submits(e: Event) { e.SubmitBuy? || e.SubmitSell? || e.RouteReset? }

  /** Steps that are neither a submit nor the operator's. */
  predicate Plain(e: Event) {
    !Submits(e) && (e.CrashDuring? ==> !Submits(e.during))
  }

  predicate OperatorStep(e: Event) {
    e.RouteReset? || (e.SubmitBuy? && e.i.lifecycle == ROUTE_PROBE)
  }

  /** No cycle is under way. */
  predicate Free(s: Session) { s.pc.Resting? && s.w.p.submit.Idle? }

  /** Nothing pending, and the held position snapshot, of the current revision, shows none of the security. */
  predicate Gone(s: Session, sec: Id) {
    && !AnyPending(s.w.t)
    && HoldsCurrent(s.w) && HeldPosition(s.w.p.held.value, sec) == 0
  }

  /** What the ledger has left of a lifecycle, unless it refuses or has something unresolved. */
  function Left(s: Session, id: Id): Option<int> {
    var totals := LifecycleTotals(s.w.t, s.settlements, id);
    if totals.Failure? || totals.value.unresolved then None else Some(totals.value.quantity)
  }

  /** Nothing left by the totals, whatever is unresolved. */
  predicate Even(s: Session, id: Id) {
    var totals := LifecycleTotals(s.w.t, s.settlements, id);
    totals.Success? && totals.value.quantity == 0
  }

  /** A receipt is booked once. */
  function Booked(rows: seq<Settlement>, row: Settlement): seq<Settlement> {
    if exists k :: 0 <= k < |rows| && rows[k].receipt == row.receipt then rows else rows + [row]
  }

  ghost predicate Allowed(s: Session, a: Act) {
    match a
    case Others(e) => Plain(e) && Orders.Enabled(s.w, e)
    case Operator(e) => Free(s) && OperatorStep(e) && Orders.Enabled(s.w, e)
    case Choose(g) =>
      && Free(s) && !AnyOpen(s.r) && !AnyPending(s.w.t) && SignalKey(g) !in s.r.consumed
      && (g.owner.Shock? || FamilyKey(g) !in s.r.families) && InWindow(g, s.w.clock)
    case ChooseAuction(active, hours, seen) =>
      && InHours(hours, seen) && seen <= s.w.clock
      && Free(s) && !AnyPending(s.w.t) && (if active.Some? then exists sec :: IsAuction(s.r, active.value, sec) else !AnyOpen(s.r))
    case Retire(_) => true
    case Enlist(id, sec) =>
      && (s.pc.Chosen? || s.pc.ChosenAuction?) && id != ROUTE_PROBE
      && (s.pc.ChosenAuction? && s.pc.active.Some? ==> IsAuction(s.r, s.pc.active.value, sec))
    case GiveUp => !s.pc.Resting?
    case Enter(i, reserved, attempt, rateOk, dies) =>
      && s.pc.Enrolled? && i.lifecycle == s.pc.id && i.sec == s.pc.sec
      && Orders.Enabled(s.w, EntryEvent(i, reserved, attempt, rateOk, dies))
    case Exit(i, reserved) => Free(s) && IsOpen(s.r, i.lifecycle, i.sec) && Orders.Enabled(s.w, SubmitSell(i, reserved))
    case BeginSettle(id, sec) =>
      && Free(s) && IsAuction(s.r, id, sec) && Gone(s, sec)
      && Left(s, id).Some? && Left(s, id).value > 0
    case BookSettlement(row) => s.pc.Settling? && row.lifecycle == s.pc.id && row.qty == s.pc.units
    case BeginClose(id, sec) => Free(s) && IsOpen(s.r, id, sec) && Gone(s, sec) && Left(s, id) == Some(0)
    case FinishClose => s.pc.Closing?
  }

  /** The submit of an entry, cut short after some of its commits if the process dies. */
  function EntryEvent(i: Intent, reserved: real, attempt: Id, rateOk: bool, dies: Option<nat>): Event {
    if dies.Some? then CrashDuring(SubmitBuy(i, reserved, attempt, rateOk), dies.value)
    else SubmitBuy(i, reserved, attempt, rateOk)
  }

  /** The inputs are looked at once more at the moment of dispatch. */
  predicate StillDue(s: Session) {
    s.pc.Enrolled? && match s.pc.ground case OfSignal(g) => InWindow(g, s.w.clock) case OfAuction(h) => BeforeEnd(h, s.w.clock)
  }

  function Step(s: Session, a: Act): Session {
    match a
    case Others(e) => s.(w := Orders.Next(s.w, e), pc := if e.Crash? || e.CrashDuring? then Resting else s.pc)
    case Operator(e) => s.(w := Orders.Next(s.w, e))
    case Choose(g) => s.(pc := Chosen(g))
    case ChooseAuction(active, hours, _) => s.(pc := Pc.ChosenAuction(active, hours))
    case Retire(g) => s.(r := Retired(s.r, g))
    case Enlist(id, sec) =>
      if s.pc.ChosenAuction? && s.pc.active.Some? then s.(pc := Enrolled(s.pc.active.value, sec, OfAuction(s.pc.hours)))
      else if s.pc.Chosen? || s.pc.ChosenAuction? then
        var ground := if s.pc.Chosen? then OfSignal(s.pc.choice) else OfAuction(s.pc.hours);
        (match Enroll(s.r, id, sec, SignalOf(ground))
         case Failure(_) => s.(pc := Resting)
         case Success(r) => s.(r := r, pc := Enrolled(id, sec, ground)))
      else s
    case GiveUp => s.(pc := Resting)
    case Enter(i, reserved, attempt, rateOk, dies) =>
      if !StillDue(s) then s.(pc := Resting)
      else
        s.(w := Orders.Next(s.w, EntryEvent(i, reserved, attempt, rateOk, dies)), pc := Resting,
           entered := if HasIntent(s.w.t, i.id) then s.entered else s.entered[i.id := Dispatched(s.w.clock, s.pc.ground)])
    case Exit(i, reserved) => s.(w := Orders.Next(s.w, SubmitSell(i, reserved)))
    case BeginSettle(id, sec) =>
      if Left(s, id).Some? && Left(s, id).value >= 0 then s.(pc := Settling(id, sec, Left(s, id).value)) else s
    case BookSettlement(row) =>
      if s.pc.Settling? then
        var booked := s.(settlements := Booked(s.settlements, row));
        booked.(pc := if Even(booked, s.pc.id) then Closing(s.pc.id, s.pc.sec) else Resting)
      else s
    case BeginClose(id, sec) => s.(pc := Closing(id, sec))
    case FinishClose =>
      if s.pc.Closing? then s.(r := s.r.(lifecycles := Closed(s.r.lifecycles, s.pc.id)), pc := Resting) else s
  }

  ghost predicate Begins(s: Session) {
    Init(s.w) && s.r == BLANK && s.settlements == [] && s.pc == Resting && s.entered == map[]
  }

  ghost predicate Runs(ss: seq<Session>, acts: seq<Act>) {
    && |ss| == |acts| + 1 && Begins(ss[0])
    && forall k :: 0 <= k < |acts| ==> Allowed(ss[k], acts[k]) && ss[k + 1] == Step(ss[k], acts[k])
  }

  // ---------- The durable register ----------

  /** The lifecycles and metadata tables, as the owners read and write them. */
  class Registry {
    var lifecycles: seq<Lifecycle>
    var consumed: map<Key, Option<Id>>
    var families: map<Key, Id>

    function R(): Register
      reads this
    {
      Register(lifecycles, consumed, families)
    }

    constructor ()
      ensures R() == BLANK
    {
      lifecycles, consumed, families := [], map[], map[];
    }

    /** The one open lifecycle, if any; more than one is refused. */
    method Active() returns (r: Result<Option<Id>>)
      ensures r.Success? && r.value.Some? ==> exists sec :: IsOpen(R(), r.value.value, sec)
      ensures r == Success(None) <==> !AnyOpen(R())
      ensures r.Failure? <==>
              exists j, k :: 0 <= j < k < |lifecycles| && lifecycles[j].open && lifecycles[k].open
    {
      var found: Option<nat> := None;
      for k := 0 to |lifecycles|
        invariant found.None? ==> forall j :: 0 <= j < k ==> !lifecycles[j].open
        invariant found.Some? ==> found.value < k && lifecycles[found.value].open
                                  && forall j :: 0 <= j < k && j != found.value ==> !lifecycles[j].open
      {
        if lifecycles[k].open {
          if found.Some? {
            return Failure("multiple unresolved lifecycles");
          }
          found := Some(k);
        }
      }
      if found.Some? {
        assert IsOpen(R(), lifecycles[found.value].id, lifecycles[found.value].sec);
      }
      r := Success(if found.Some? then Some(lifecycles[found.value].id) else None);
    }

    method Open(id: Id, sec: Id, signal: Option<Signal>) returns (ok: bool)
      modifies this
      ensures ok <==> Enroll(old(R()), id, sec, signal).Success?
      ensures R() == if ok then Enroll(old(R()), id, sec, signal).value else old(R())
    {
      for k := 0 to |lifecycles|
        invariant R() == old(R()) && forall j :: 0 <= j < k ==> lifecycles[j].id != id
      {
        if lifecycles[k].id == id {
          return false;
        }
      }
      if signal.Some? {
        var s := signal.value;
        if SignalKey(s) in consumed || FamilyKey(s) in families {
          return false;
        }
        consumed := consumed[SignalKey(s) := Some(id)];
        families := families[FamilyKey(s) := id];
      }
      lifecycles := lifecycles + [Lifecycle(id, sec, signal, true)];
      ok := true;
    }

    method RetireSignal(s: Signal)
      modifies this
      ensures R() == Retired(old(R()), s)
    {
      if SignalKey(s) !in consumed {
        consumed := consumed[SignalKey(s) := None];
      }
    }

    method Close(id: Id)
      modifies this
      ensures R() == old(R()).(lifecycles := Closed(old(lifecycles), id))
    {
      lifecycles := Closed(lifecycles, id);
    }
  }
}
