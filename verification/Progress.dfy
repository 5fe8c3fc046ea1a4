/** What the engine's steps let through: the guards do not refuse what they are not there to refuse. */
module Progress {
  import opened Wrappers
  import opened Ledger
  import opened Orders
  import opened OrderSafety
  import opened Capital
  import opened Lifecycles
  import opened LifecycleSafety
  import opened Submitting
  import opened Closing

  // ---------- Entries ----------

  /** The half minute, or five seconds, in which a signal may be acted on; the last moment counts for a shock only. */
  predicate InItsWindow(g: Signal, now: int) {
    match g.owner
    case Minute(_, _) => g.at + 60_000 <= now < g.at + 90_000
    case Seconds(_) => g.at <= now < g.at + 5_000
    case Shock => g.at <= now <= g.at + 30_000
  }

  /** Before 15:30 of the day, or before 15:38:30 on the final value. */
  predicate BeforeItsEnd(h: Hours, now: int) {
    var midnight := h.day * 86_400_000;
    midnight <= now < midnight + if h.final then 56_310_000 else 55_800_000
  }

  predicate DueNow(g: Ground, now: int) {
    match g
    case OfSignal(s) => InItsWindow(s, now)
    case OfAuction(h) => BeforeItsEnd(h, now)
  }

  /** An enrolled entry with unused ids goes out exactly while it is due. */
  lemma EntryGoesOutIff(s: Session, i: Intent, reserved: real, attempt: Id)
    requires s.pc.Enrolled? && Allowed(s, Enter(i, reserved, attempt, true, None))
    requires Unused(s.w.t, i) && reserved > 0.0
    ensures var u := Step(s, Enter(i, reserved, attempt, true, None));
            && u.pc == Resting && u.r == s.r
            && (if DueNow(s.pc.ground, s.w.clock) then PostsNow(s.w, u.w, i) else u.w == s.w)
  {
    BuyIsPostedIff(s.w, i, reserved, attempt, true);
    hide Orders.Next, PostsNow;
  }

  /** Nobody is in the way: no lifecycle open, nothing pending, no submission. */
  predicate Idling(s: Session) {
    && s.pc == Resting && s.w.p.submit == Idle && (forall k :: 0 <= k < |s.r.lifecycles| ==> !s.r.lifecycles[k].open)
    && !AnyPending(s.w.t)
  }

  /** A signal in its window whose strategy, family or episode has not been used that day becomes an entry on the wire. */
  lemma SignalGoesThrough(ss: seq<Session>, acts: seq<Act>, n: nat, g: Signal, id: Id, sec: Id, i: Intent, reserved: real, attempt: Id)
    returns (chosen: Session, enrolled: Session, entered: Session)
    requires Runs(ss, acts) && n < |ss| && Idling(ss[n]) && InItsWindow(g, ss[n].w.clock)
    requires !ShotBefore(ss, acts, n, g) && !FamilyBefore(ss[n], g)
    requires id != ROUTE_PROBE && forall k :: 0 <= k < |ss[n].r.lifecycles| ==> ss[n].r.lifecycles[k].id != id
    requires i.side == BUY && i.qty > 0 && i.lifecycle == id && i.sec == sec && Unused(ss[n].w.t, i)
    requires reserved > 0.0 && attempt !in ss[n].w.t.attempts
    ensures Allowed(ss[n], Choose(g)) && chosen == Step(ss[n], Choose(g))
    ensures Allowed(chosen, Enlist(id, sec)) && enrolled == Step(chosen, Enlist(id, sec))
    ensures var enter := Enter(i, reserved, attempt, true, None); Allowed(enrolled, enter) && entered == Step(enrolled, enter)
    ensures entered.pc == Resting && PostsNow(ss[n].w, entered.w, i)
    ensures entered.r.lifecycles == ss[n].r.lifecycles + [Lifecycle(id, sec, Some(g), true)]
  {
    hide ShotBefore, FamilyBefore, SignalKey, FamilyKey, PostsNow, Unused, Orders.Next;
    KeysRemember(ss, acts, n, g);
    var enter := Enter(i, reserved, attempt, true, None);
    chosen := Step(ss[n], Choose(g));
    enrolled := Step(chosen, Enlist(id, sec));
    entered := Step(enrolled, enter);
    SignalEnrolls(ss[n], g, id, sec);
    assert Allowed(enrolled, enter);
    hide Step;
    EntryGoesOutIff(enrolled, i, reserved, attempt);
  }

  lemma SignalEnrolls(s: Session, g: Signal, id: Id, sec: Id)
    requires Idling(s) && InItsWindow(g, s.w.clock) && SignalKey(g) !in s.r.consumed && FamilyKey(g) !in s.r.families
    requires id != ROUTE_PROBE && forall k :: 0 <= k < |s.r.lifecycles| ==> s.r.lifecycles[k].id != id
    ensures Allowed(s, Choose(g)) && Allowed(Step(s, Choose(g)), Enlist(id, sec))
    ensures var u := Step(Step(s, Choose(g)), Enlist(id, sec));
            && u.pc == Enrolled(id, sec, OfSignal(g)) && u.w == s.w
            && u.r.lifecycles == s.r.lifecycles + [Lifecycle(id, sec, Some(g), true)]
  {
    hide SignalKey, FamilyKey, Orders.Next, Orders.Enabled;
  }

  /** An auction entry between 15:20 and its end, for a new lifecycle or one more of the auction's own, goes through. */
  lemma AuctionGoesThrough(s: Session, h: Hours, active: Option<Id>, id: Id, sec: Id, i: Intent, reserved: real, attempt: Id)
    returns (chosen: Session, enrolled: Session, entered: Session)
    requires s.pc == Resting && s.w.p.submit == Idle && !AnyPending(s.w.t)
    requires h.day * 86_400_000 + 55_200_000 <= s.w.clock && BeforeItsEnd(h, s.w.clock)
    requires if active.Some? then active.value == id && Lifecycle(id, sec, None, true) in s.r.lifecycles
             else forall k :: 0 <= k < |s.r.lifecycles| ==> !s.r.lifecycles[k].open && s.r.lifecycles[k].id != id
    requires id != ROUTE_PROBE && i.side == BUY && i.qty > 0 && i.lifecycle == id && i.sec == sec && Unused(s.w.t, i)
    requires reserved > 0.0 && attempt !in s.w.t.attempts
    ensures var choose := ChooseAuction(active, h, s.w.clock); Allowed(s, choose) && chosen == Step(s, choose)
    ensures Allowed(chosen, Enlist(id, sec)) && enrolled == Step(chosen, Enlist(id, sec))
    ensures var enter := Enter(i, reserved, attempt, true, None); Allowed(enrolled, enter) && entered == Step(enrolled, enter)
    ensures entered.pc == Resting && PostsNow(s.w, entered.w, i)
    ensures entered.r.lifecycles == s.r.lifecycles + if active.Some? then [] else [Lifecycle(id, sec, None, true)]
  {
    hide PostsNow, Unused, Orders.Next;
    var enter := Enter(i, reserved, attempt, true, None);
    chosen := Step(s, ChooseAuction(active, h, s.w.clock));
    enrolled := Step(chosen, Enlist(id, sec));
    entered := Step(enrolled, enter);
    assert IsAuction(s.r, id, sec) || active.None?;
    assert enrolled.pc == Enrolled(id, sec, OfAuction(h)) && enrolled.w == s.w;
    assert Allowed(enrolled, enter);
    hide Step, Enroll;
    EntryGoesOutIff(enrolled, i, reserved, attempt);
  }

  /** What a choice looked at: for a signal nothing open, for either nothing pending or being submitted, and the time. */
  predicate ChoseQuietly(s: Session, a: Act) {
    && (a.Choose? || a.ChooseAuction?) && s.pc == Resting && s.w.p.submit == Idle && !AnyPending(s.w.t)
    && (a.Choose? ==> InItsWindow(a.signal, s.w.clock))
    && (a.ChooseAuction? ==> a.hours.day * 86_400_000 + 55_200_000 <= a.seen <= s.w.clock && BeforeItsEnd(a.hours, a.seen))
    && (a.Choose? || a.active.None? ==> forall k :: 0 <= k < |s.r.lifecycles| ==> !s.r.lifecycles[k].open)
  }

  ghost predicate NothingSubmitted(acts: seq<Act>, j: nat, n: nat)
    requires n <= |acts|
  {
    forall k :: j <= k < n ==>
      !acts[k].Enter? && !acts[k].Exit? && !acts[k].Operator? && (acts[k].Others? ==> !Submits(acts[k].e))
  }

  predicate OnItsWay(s: Session) { s.pc.Chosen? || s.pc.ChosenAuction? || s.pc.Enrolled? }

  lemma WayStep(s: Session, a: Act)
    requires Allowed(s, a) && OnItsWay(Step(s, a))
    ensures !a.Enter? && !a.Exit? && !a.Operator? && (a.Others? ==> !Submits(a.e))
    ensures if a.Choose? || a.ChooseAuction? then ChoseQuietly(s, a) else OnItsWay(s)
  {
    hide Orders.Next, Orders.Enabled, Enroll, Retired, Left, Even, Gone, Booked, Closed, SignalKey, FamilyKey;
  }

  /** Every entry on its way was chosen with nothing pending, and nothing was submitted since. */
  lemma {:induction false} ChosenWhenQuiet(ss: seq<Session>, acts: seq<Act>, n: nat) returns (j: nat)
    requires Runs(ss, acts) && n < |ss| && OnItsWay(ss[n])
    ensures |ss| == |acts| + 1 && j < n && ChoseQuietly(ss[j], acts[j]) && NothingSubmitted(acts, j, n)
  {
    hide Allowed, Step, ChoseQuietly;
    assert Allowed(ss[n - 1], acts[n - 1]) && ss[n - 1 + 1] == Step(ss[n - 1], acts[n - 1]);
    WayStep(ss[n - 1], acts[n - 1]);
    if acts[n - 1].Choose? || acts[n - 1].ChooseAuction? {
      j := n - 1;
    } else {
      j := ChosenWhenQuiet(ss, acts, n - 1);
    }
  }

  /** No signal is chosen whose strategy or episode was used or given up that day, or whose family was used. */
  lemma ChosenIsUnused(ss: seq<Session>, acts: seq<Act>, n: nat)
    requires Runs(ss, acts) && n < |acts| && acts[n].Choose?
    ensures !ShotBefore(ss, acts, n, acts[n].signal) && (!acts[n].signal.owner.Shock? ==> !FamilyBefore(ss[n], acts[n].signal))
  {
    hide ShotBefore, FamilyBefore, SignalKey, FamilyKey, Step;
    KeysRemember(ss, acts, n, acts[n].signal);
    assert Allowed(ss[n], acts[n]);
  }

  // ---------- Exits and closing ----------

  /** A sale of an open lifecycle's security can always be asked for while nothing else is being submitted. */
  lemma ExitIsAsked(s: Session, i: Intent, reserved: real)
    requires s.pc == Resting && s.w.p.submit == Idle && i.side == SELL && i.qty > 0
    requires exists k :: 0 <= k < |s.r.lifecycles| && s.r.lifecycles[k].id == i.lifecycle
                         && s.r.lifecycles[k].sec == i.sec && s.r.lifecycles[k].open
    ensures Allowed(s, Exit(i, reserved))
    ensures Step(s, Exit(i, reserved)).w.p.submit
         == AskedPositions(i, reserved, OutstandingSales(s.w.t.intents, |s.w.t.intents|, i.sec))
  {
    AskStep(s.w, i, reserved);
  }

  /** With nothing pending, what is left of a lifecycle is what it traded less what was settled. */
  lemma LeftIs(s: Session, id: Id)
    requires SessionInv(s) && !AnyPending(s.w.t)
    requires Traded(s.w.t, |s.w.t.intents|, id) >= SettledUnits(s.settlements, id)
    ensures Left(s, id) == Some(Traded(s.w.t, |s.w.t.intents|, id) - SettledUnits(s.settlements, id))
  {
    hide Inv, Owned, OneEntry, RegisterInv, PcInv, SellerInv, LifecycleTotals, Exchanged, Charged, SettledCredit;
    DistinctOfInv(s.w);
    TotalsRefusedIff(s.w.t, s.settlements, id);
    TotalsAreMoney(s.w.t, s.settlements, id);
    QuantityIsTradedLessSettled(s.w.t, s.settlements, id);
  }

  lemma DistinctOfInv(w: World)
    requires Inv(w)
    ensures DistinctIntents(w.t.intents)
  {}

  predicate ShowsNone(w: World, sec: Id) {
    w.p.held.Some? && w.p.held.value.rev == w.p.rev && (sec in w.p.held.value.net ==> w.p.held.value.net[sec] == 0)
  }

  /** Whatever is settled is exactly what the lifecycle had left when it was found gone from the account, with nothing pending. */
  lemma SettledWhatWasLeft(ss: seq<Session>, acts: seq<Act>, n: nat) returns (m: nat, sec: Id)
    requires Runs(ss, acts) && n < |acts| && acts[n].BookSettlement?
    ensures |ss| == |acts| + 1 && m < n && acts[m] == BeginSettle(acts[n].row.lifecycle, sec)
    ensures !AnyPending(ss[m].w.t) && ShowsNone(ss[m].w, sec)
    ensures acts[n].row.qty > 0
    ensures Traded(ss[m].w.t, |ss[m].w.t.intents|, acts[n].row.lifecycle)
         == SettledUnits(ss[m].settlements, acts[n].row.lifecycle) + acts[n].row.qty
  {
    hide Inv, Traded, SettledUnits, LifecycleTotals, SessionInv, Step;
    assert Allowed(ss[n], acts[n]);
    var id := acts[n].row.lifecycle;
    sec := ss[n].pc.sec;
    m := SettlingWasBegun(ss, acts, n);
    RunsInv(ss, acts, m);
    TotalsRefusedIff(ss[m].w.t, ss[m].settlements, id);
    LeftIs(ss[m], id);
  }

  /** An open lifecycle that has sold all it bought, with nothing pending and none held by a current snapshot, is closed. */
  lemma CloseGoesThrough(ss: seq<Session>, acts: seq<Act>, n: nat, l: nat) returns (closing: Session, closed: Session)
    requires Runs(ss, acts) && n < |ss| && l < |ss[n].r.lifecycles| && ss[n].r.lifecycles[l].open
    requires var s, id := ss[n], ss[n].r.lifecycles[l].id;
             && s.pc == Resting && s.w.p.submit == Idle && !AnyPending(s.w.t) && ShowsNone(s.w, s.r.lifecycles[l].sec)
             && Traded(s.w.t, |s.w.t.intents|, id) == SettledUnits(s.settlements, id)
    ensures var begin := BeginClose(ss[n].r.lifecycles[l].id, ss[n].r.lifecycles[l].sec);
            Allowed(ss[n], begin) && closing == Step(ss[n], begin)
    ensures Allowed(closing, FinishClose) && closed == Step(closing, FinishClose)
    ensures closed.pc == Resting && l < |closed.r.lifecycles| && closed.r.lifecycles[l] == ss[n].r.lifecycles[l].(open := false)
  {
    hide Inv, Traded, SettledUnits, LifecycleTotals, Left, SessionInv;
    RunsInv(ss, acts, n);
    var s, row := ss[n], ss[n].r.lifecycles[l];
    LeftIs(s, row.id);
    assert s.r.lifecycles[l].id == row.id;
    closing := Step(s, BeginClose(row.id, row.sec));
    closed := Step(closing, FinishClose);
  }

  /** An open auction position that is gone from the account is settled for all that is left of it, and closed. */
  lemma SettlementGoesThrough(ss: seq<Session>, acts: seq<Act>, n: nat, l: nat, row: Settlement)
    returns (settling: Session, closing: Session, closed: Session)
    requires Runs(ss, acts) && n < |ss| && l < |ss[n].r.lifecycles| && ss[n].r.lifecycles[l].open && ss[n].r.lifecycles[l].signal.None?
    requires var s, id := ss[n], ss[n].r.lifecycles[l].id;
             && s.pc == Resting && s.w.p.submit == Idle && !AnyPending(s.w.t) && ShowsNone(s.w, s.r.lifecycles[l].sec)
             && row.lifecycle == id && row.qty > 0
             && Traded(s.w.t, |s.w.t.intents|, id) == SettledUnits(s.settlements, id) + row.qty
             && forall k :: 0 <= k < |s.settlements| ==> s.settlements[k].receipt != row.receipt
    ensures var begin := BeginSettle(ss[n].r.lifecycles[l].id, ss[n].r.lifecycles[l].sec);
            Allowed(ss[n], begin) && settling == Step(ss[n], begin)
    ensures Allowed(settling, BookSettlement(row)) && closing == Step(settling, BookSettlement(row))
    ensures Allowed(closing, FinishClose) && closed == Step(closing, FinishClose)
    ensures closed.settlements == ss[n].settlements + [row]
    ensures closed.pc == Resting && l < |closed.r.lifecycles| && closed.r.lifecycles[l] == ss[n].r.lifecycles[l].(open := false)
  {
    hide Inv, Traded, LifecycleTotals, SessionInv, Orders.Next, Orders.Enabled;
    RunsInv(ss, acts, n);
    var s, one := ss[n], ss[n].r.lifecycles[l];
    LeftIs(s, one.id);
    assert s.r.lifecycles[l] == Lifecycle(one.id, one.sec, None, true);
    settling := Step(s, BeginSettle(one.id, one.sec));
    closing := Step(settling, BookSettlement(row));
    assert (s.settlements + [row])[..|s.settlements|] == s.settlements;
    assert SettledUnits(s.settlements + [row], one.id) == SettledUnits(s.settlements, one.id) + row.qty;
    TotalsRefusedIff(s.w.t, s.settlements + [row], one.id);
    QuantityIsTradedLessSettled(s.w.t, s.settlements + [row], one.id);
    closed := Step(closing, FinishClose);
  }
}
