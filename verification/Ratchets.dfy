/**
 The exit ratchets: net-profit protection (profit_exit.py) and the shock exit (volatility_shock.py), with
 the owners that write them to disk only when something changed (directional.py, shock_engine.py).
 */
module Ratchets {
  import opened Wrappers
  import opened Risk

  // ---------- Net-profit protection ----------

  datatype Observation = Observation(net: real, cost: real)

  datatype Guard = Guard(peak: real, floor: Option<real>, net: real, triggered: bool)

  function Kept(peak: real, retain: real): real { peak * retain }

  lemma KeptMonotone(p: real, q: real, retain: real)
    requires p <= q && 0.0 < retain
    ensures Kept(p, retain) <= Kept(q, retain)
    ensures p > 0.0 ==> Kept(p, retain) > 0.0
  {
    assert (q - p) * retain >= 0.0;
  }

  predicate Lawful(o: Observation, retain: real) {
    o.cost >= 0.0 && 0.0 < retain < 1.0
  }

  function Observe(o: Observation, previous: Option<Guard>, retain: real): Result<Guard> {
    if !Lawful(o, retain) then Failure("invalid profit-protection policy")
    else
      var peak := if previous.Some? then Max(o.net, previous.value.peak) else o.net;
      var before := if previous.Some? then previous.value.floor else None;
      var least := if before.Some? then before.value else 0.0;
      var floor := if peak > 0.0 && peak >= 2.0 * o.cost then Some(Max(least, Kept(peak, retain))) else before;
      var triggered := (previous.Some? && previous.value.triggered) || (floor.Some? && o.net <= floor.value);
      Success(Guard(peak, floor, o.net, triggered))
  }

  predicate AllLawful(obs: seq<Observation>, retain: real) {
    forall k :: 0 <= k < |obs| ==> Lawful(obs[k], retain)
  }

  /** The guard after the first n observations when every one of them is written. */
  function Always(obs: seq<Observation>, n: nat, retain: real): (g: Option<Guard>)
    requires n <= |obs| && AllLawful(obs, retain)
    ensures g.Some? <==> n > 0
  {
    if n == 0 then None else Some(Observe(obs[n - 1], Always(obs, n - 1, retain), retain).value)
  }

  predicate IsPeak(obs: seq<Observation>, n: nat, peak: real)
    requires n <= |obs|
  {
    && (forall k :: 0 <= k < n ==> obs[k].net <= peak)
    && (exists k :: 0 <= k < n && obs[k].net == peak)
  }

  /** Step j has a peak worth protecting: positive, and at least twice the cost of the round trip. */
  predicate Arms(obs: seq<Observation>, j: nat, retain: real)
    requires j < |obs| && AllLawful(obs, retain)
  {
    var peak := Always(obs, j + 1, retain).value.peak;
    peak > 0.0 && peak >= 2.0 * obs[j].cost
  }

  predicate LatestArming(obs: seq<Observation>, n: nat, j: nat, retain: real)
    requires j < n <= |obs| && AllLawful(obs, retain)
  {
    Arms(obs, j, retain) && forall i :: j < i < n ==> !Arms(obs, i, retain)
  }

  /** The floor is the retained share of the peak at the latest arming step. */
  ghost predicate IsFloor(obs: seq<Observation>, n: nat, retain: real, floor: Option<real>)
    requires n <= |obs| && AllLawful(obs, retain)
  {
    match floor
    case None => forall j :: 0 <= j < n ==> !Arms(obs, j, retain)
    case Some(f) => exists j :: 0 <= j < n && LatestArming(obs, n, j, retain) && f == Kept(Always(obs, j + 1, retain).value.peak, retain)
  }

  /** Step j is at or under the floor of its moment. */
  predicate Hit(obs: seq<Observation>, j: nat, retain: real)
    requires j < |obs| && AllLawful(obs, retain)
  {
    var floor := Always(obs, j + 1, retain).value.floor;
    floor.Some? && obs[j].net <= floor.value
  }

  lemma {:induction false} PeakIsMaximum(obs: seq<Observation>, n: nat, retain: real)
    requires 0 < n <= |obs| && AllLawful(obs, retain)
    ensures IsPeak(obs, n, Always(obs, n, retain).value.peak)
  {
    if n > 1 {
      PeakIsMaximum(obs, n - 1, retain);
    } else {
      assert obs[0].net == Always(obs, 1, retain).value.peak;
    }
  }

  lemma {:induction false} FloorFollowsPeak(obs: seq<Observation>, n: nat, retain: real)
    requires 0 < n <= |obs| && AllLawful(obs, retain)
    ensures IsFloor(obs, n, retain, Always(obs, n, retain).value.floor)
    ensures Kept(Always(obs, n, retain).value.peak, retain) == Always(obs, n, retain).value.peak * retain
    ensures var g := Always(obs, n, retain).value; g.floor.Some? ==> 0.0 < g.floor.value <= Kept(g.peak, retain)
  {
    assert Kept(Always(obs, n, retain).value.peak, retain) == Always(obs, n, retain).value.peak * retain;
    hide Kept;
    var g := Always(obs, n, retain).value;
    assert Lawful(obs[n - 1], retain);
    KeptMonotone(g.peak, g.peak, retain);
    if n > 1 {
      var p := Always(obs, n - 1, retain).value;
      FloorFollowsPeak(obs, n - 1, retain);
      KeptMonotone(p.peak, g.peak, retain);
      if !Arms(obs, n - 1, retain) && p.floor.Some? {
        var j :| 0 <= j < n - 1 && LatestArming(obs, n - 1, j, retain) && p.floor.value == Kept(Always(obs, j + 1, retain).value.peak, retain);
        assert LatestArming(obs, n, j, retain);
      }
    }
    if Arms(obs, n - 1, retain) {
      assert LatestArming(obs, n, n - 1, retain);
    }
  }

  lemma {:induction false} TriggerIsAHit(obs: seq<Observation>, n: nat, retain: real)
    requires n <= |obs| && AllLawful(obs, retain)
    ensures (n > 0 && Always(obs, n, retain).value.triggered) <==> exists j :: 0 <= j < n && Hit(obs, j, retain)
  {
    if n > 0 {
      TriggerIsAHit(obs, n - 1, retain);
      assert Hit(obs, n - 1, retain) ==> Always(obs, n, retain).value.triggered;
    }
  }

  /** Peak, floor and trigger never go back. */
  lemma {:induction false} NeverLoosens(obs: seq<Observation>, m: nat, n: nat, retain: real)
    requires 0 < m <= n <= |obs| && AllLawful(obs, retain)
    ensures var a, b := Always(obs, m, retain).value, Always(obs, n, retain).value;
            && a.peak <= b.peak
            && (a.floor.Some? ==> b.floor.Some? && a.floor.value <= b.floor.value)
            && (a.triggered ==> b.triggered)
  {
    if m < n {
      NeverLoosens(obs, m, n - 1, retain);
    }
  }

  // ---------- Written only on change ----------

  /** The durable rows: the guard, and the latched exit. */
  datatype Rows = Rows(guard: Option<Guard>, exit: bool)

  predicate Changed(prior: Option<Guard>, g: Guard) {
    prior.None? || prior.value.peak != g.peak || prior.value.floor != g.floor || prior.value.triggered != g.triggered
  }

  /** How far a management step gets before the process dies, if it does. */
  datatype Reach = Nothing | GuardOnly | Everything

  function Manage(rows: Rows, o: Observation, retain: real, reach: Reach, always: bool): Rows
    requires Lawful(o, retain)
  {
    if rows.exit || reach == Nothing then rows
    else
      var g := Observe(o, rows.guard, retain).value;
      var written := if always || Changed(rows.guard, g) then Some(g) else rows.guard;
      Rows(written, reach == Everything && g.triggered)
  }

  datatype Visit = Visit(seen: Observation, reach: Reach)

  function Managed(visits: seq<Visit>, n: nat, retain: real, always: bool): Rows
    requires n <= |visits| && forall k :: 0 <= k < |visits| ==> Lawful(visits[k].seen, retain)
  {
    if n == 0 then Rows(None, false)
    else Manage(Managed(visits, n - 1, retain, always), visits[n - 1].seen, retain, visits[n - 1].reach, always)
  }

  predicate SameGuard(a: Option<Guard>, b: Option<Guard>) {
    match (a, b)
    case (None, None) => true
    case (Some(x), Some(y)) => x.peak == y.peak && x.floor == y.floor && x.triggered == y.triggered
    case _ => false
  }

  /** Whatever was seen and wherever the process died, writing only on change exits exactly when writing always does. */
  lemma {:induction false} OnChangeIsAlways(visits: seq<Visit>, n: nat, retain: real)
    requires n <= |visits| && forall k :: 0 <= k < |visits| ==> Lawful(visits[k].seen, retain)
    ensures var a, b := Managed(visits, n, retain, false), Managed(visits, n, retain, true);
            a.exit == b.exit && SameGuard(a.guard, b.guard)
  {
    if n > 0 {
      OnChangeIsAlways(visits, n - 1, retain);
    }
  }

  /** A trigger on disk outlives any deaths: whenever a later step runs to its end, the exit has been latched. */
  lemma {:induction false} TriggerIsNeverLost(visits: seq<Visit>, m: nat, k: nat, n: nat, retain: real)
    requires m <= k < n <= |visits| && forall j :: 0 <= j < |visits| ==> Lawful(visits[j].seen, retain)
    requires var guard := Managed(visits, m, retain, false).guard; guard.Some? && guard.value.triggered
    requires visits[k].reach == Everything
    ensures Managed(visits, n, retain, false).exit
  {
    if k < n - 1 {
      TriggerIsNeverLost(visits, m, k, n - 1, retain);
    } else {
      TriggerStays(visits, m, k, retain);
    }
  }

  lemma {:induction false} TriggerStays(visits: seq<Visit>, m: nat, n: nat, retain: real)
    requires m <= n <= |visits| && forall j :: 0 <= j < |visits| ==> Lawful(visits[j].seen, retain)
    requires var guard := Managed(visits, m, retain, false).guard; guard.Some? && guard.value.triggered
    ensures var guard := Managed(visits, n, retain, false).guard; guard.Some? && guard.value.triggered
  {
    if m < n {
      TriggerStays(visits, m, n - 1, retain);
    }
  }

  /** The exit is latched exactly when some step that ran to its end saw a hit, at that moment or on an earlier written guard. */
  lemma {:induction false} LatchedIff(visits: seq<Visit>, n: nat, retain: real)
    requires n <= |visits| && forall k :: 0 <= k < |visits| ==> Lawful(visits[k].seen, retain)
    ensures Managed(visits, n, retain, false).exit <==>
            exists k :: 0 <= k < n && visits[k].reach == Everything
                        && Observe(visits[k].seen, Managed(visits, k, retain, false).guard, retain).value.triggered
  {
    if n > 0 {
      LatchedIff(visits, n - 1, retain);
      if Managed(visits, n, retain, false).exit && !Managed(visits, n - 1, retain, false).exit {
        assert visits[n - 1].reach == Everything;
      }
    }
  }

  class ProfitExit {
    const retain: real
    var rows: Rows

    constructor (retain: real)
      ensures this.retain == retain && rows == Rows(None, false)
    {
      this.retain := retain;
      rows := Rows(None, false);
    }

    method Step(o: Observation) returns (ok: bool)
      modifies this
      ensures ok <==> old(rows).exit || Lawful(o, retain)
      ensures rows == if Lawful(o, retain) then Manage(old(rows), o, retain, Everything, false) else old(rows)
    {
      if rows.exit {
        return true;
      }
      var guard := Observe(o, rows.guard, retain);
      if guard.Failure? {
        return false;
      }
      if Changed(rows.guard, guard.value) {
        rows := rows.(guard := Some(guard.value));
      }
      if guard.value.triggered {
        rows := rows.(exit := true);
      }
      ok := true;
    }
  }

  // ---------- The shock exit ----------

  datatype Reason = Invalidated | PremiumStop | ProfitFloor | NoMomentum | MaxExposure

  datatype Look = Look(entry: real, net: Option<real>, minutes: real, invalidated: bool, deadline: bool, held: nat, at: int)

  datatype ShockGuard = ShockGuard(peak: real, floor: real, armed: bool, low: Option<real>, reason: Option<Reason>, held: nat, at: int)

  const UNSEEN: ShockGuard := ShockGuard(0.0, 0.0, false, None, None, 0, 0)

  /** What one look alone calls for, given the ratchet after it. */
  function OwnReason(q: Look, peak: real, armed: bool, floor: real): Option<Reason> {
    if q.invalidated then Some(Invalidated)
    else if q.net.Some? && q.net.value <= -0.4 * q.entry then Some(PremiumStop)
    else if armed && q.net.Some? && q.net.value < floor then Some(ProfitFloor)
    else if q.minutes >= 45.0 && peak < 0.2 * q.entry then Some(NoMomentum)
    else if q.minutes >= 120.0 || q.deadline then Some(MaxExposure)
    else None
  }

  function Share(peak: real, entry: real): real { Max(0.4 * peak, peak - 0.45 * entry) }

  function ShockExit(q: Look, previous: Option<ShockGuard>): ShockGuard {
    var prior := if previous.Some? then previous.value else UNSEEN;
    var peak := if q.net.Some? then Max(prior.peak, q.net.value) else prior.peak;
    var low := if q.net.None? then prior.low
               else if prior.low.None? then q.net else Some(Min(prior.low.value, q.net.value));
    var armed := prior.armed || peak >= 0.8 * q.entry;
    var floor := if armed then Max(prior.floor, Share(peak, q.entry)) else 0.0;
    var reason := if prior.reason.Some? then prior.reason else OwnReason(q, peak, armed, floor);
    ShockGuard(peak, floor, armed, low, reason, q.held, q.at)
  }

  /** The guard after n looks when every one of them is written. */
  function Watched(looks: seq<Look>, n: nat): (g: Option<ShockGuard>)
    requires n <= |looks|
    ensures g.Some? <==> n > 0
  {
    if n == 0 then None else Some(ShockExit(looks[n - 1], Watched(looks, n - 1)))
  }

  /** Whatever the entry cost has become: once armed, 40% of the peak stays protected, and never more than the peak. */
  lemma {:induction false} ShockRatchet(looks: seq<Look>, m: nat, n: nat)
    requires 0 < m <= n <= |looks| && forall k :: 0 <= k < |looks| ==> looks[k].entry >= 0.0
    ensures var a, b := Watched(looks, m).value, Watched(looks, n).value;
            && 0.0 <= a.peak <= b.peak && 0.0 <= a.floor <= b.floor && (a.armed ==> b.armed)
            && (b.armed ==> 0.4 * b.peak <= b.floor <= b.peak) && (!b.armed ==> b.floor == 0.0)
            && (a.reason.Some? ==> b.reason == a.reason)
  {
    if n > m {
      ShockRatchet(looks, m, n - 1);
    } else if n > 1 {
      ShockRatchet(looks, n - 1, n - 1);
    }
  }

  predicate IsHighest(looks: seq<Look>, n: nat, peak: real)
    requires n <= |looks|
  {
    && peak >= 0.0 && (forall k :: 0 <= k < n && looks[k].net.Some? ==> looks[k].net.value <= peak)
    && (peak == 0.0 || exists k :: 0 <= k < n && looks[k].net == Some(peak))
  }

  /** The low is the least net profit seen, and absent until one was. */
  lemma {:induction false} LowIsLowest(looks: seq<Look>, n: nat)
    requires 0 < n <= |looks|
    ensures match Watched(looks, n).value.low
            case None => forall k :: 0 <= k < n ==> looks[k].net.None?
            case Some(low) => (exists k :: 0 <= k < n && looks[k].net == Some(low))
                              && forall k :: 0 <= k < n && looks[k].net.Some? ==> low <= looks[k].net.value
  {
    var q := looks[n - 1];
    if n > 1 {
      LowIsLowest(looks, n - 1);
    }
    assert q.net.Some? ==> looks[n - 1].net == q.net;
  }

  /**
   With one entry cost the whole ratchet is a function of the highest net profit seen: armed at 80% of the cost, it
   protects 40% of the peak, or all but 45% of the cost if that is more.
   */
  lemma {:induction false} ShockClosedForm(looks: seq<Look>, n: nat, entry: real)
    requires 0 < n <= |looks| && forall k :: 0 <= k < |looks| ==> looks[k].entry == entry
    ensures var g := Watched(looks, n).value;
            && IsHighest(looks, n, g.peak)
            && (g.armed <==> g.peak >= entry * 4.0 / 5.0)
            && g.floor == (if !g.armed then 0.0
                           else if g.peak * 2.0 / 5.0 >= g.peak - entry * 9.0 / 20.0 then g.peak * 2.0 / 5.0
                           else g.peak - entry * 9.0 / 20.0)
  {
    if n > 1 {
      ShockClosedForm(looks, n - 1, entry);
    }
    var g := Watched(looks, n).value;
    assert looks[n - 1].net == Some(g.peak) || g.peak == 0.0 || (n > 1 && g.peak == Watched(looks, n - 1).value.peak);
  }

  function ReasonAt(looks: seq<Look>, j: nat): Option<Reason>
    requires j < |looks|
  {
    var g := Watched(looks, j + 1).value;
    OwnReason(looks[j], g.peak, g.armed, g.floor)
  }

  /** The exit reason is the one the first look with any reason gave. */
  ghost predicate FirstReason(looks: seq<Look>, n: nat, reason: Option<Reason>)
    requires n <= |looks|
  {
    match reason
    case None => forall j :: 0 <= j < n ==> ReasonAt(looks, j).None?
    case Some(_) => exists j :: 0 <= j < n && ReasonAt(looks, j) == reason && NoneBefore(looks, j)
  }

  predicate NoneBefore(looks: seq<Look>, j: nat)
    requires j <= |looks|
  {
    forall i :: 0 <= i < j ==> ReasonAt(looks, i).None?
  }

  lemma {:induction false} FirstReasonKept(looks: seq<Look>, n: nat)
    requires 0 < n <= |looks|
    ensures FirstReason(looks, n, Watched(looks, n).value.reason)
  {
    if n > 1 {
      FirstReasonKept(looks, n - 1);
      var prior := Watched(looks, n - 1).value.reason;
      if prior.None? {
        assert NoneBefore(looks, n - 1);
      }
    } else {
      assert NoneBefore(looks, 0);
    }
  }

  /**
   The first look that calls for an exit, and why, in the order of precedence: the underlying invalidated, a loss of
   40% of the entry, a profit under the armed floor, no 20% within 45 minutes, or two hours or the deadline.
   */
  lemma FirstExitIs(looks: seq<Look>, n: nat)
    requires 0 < n <= |looks| && forall j :: 0 < j < n ==> Watched(looks, j).value.reason.None?
    ensures var q, g := looks[n - 1], Watched(looks, n).value;
            var lost := q.net.Some? && q.net.value <= -(q.entry * 2.0 / 5.0);
            var fell := q.net.Some? && g.armed && q.net.value < g.floor;
            var idle := q.minutes >= 45.0 && g.peak < q.entry / 5.0;
            && (g.reason == Some(Invalidated) <==> q.invalidated)
            && (g.reason == Some(PremiumStop) <==> !q.invalidated && lost)
            && (g.reason == Some(ProfitFloor) <==> !q.invalidated && !lost && fell)
            && (g.reason == Some(NoMomentum) <==> !q.invalidated && !lost && !fell && idle)
            && (g.reason == Some(MaxExposure) <==> !q.invalidated && !lost && !fell && !idle && (q.minutes >= 120.0 || q.deadline))
  {
    if n > 1 {
      assert Watched(looks, n - 1).value.reason.None?;
    }
  }

  /** A look without any of these leaves the position alone, and the first with one settles it for good. */
  lemma {:induction false} ReasonStays(looks: seq<Look>, m: nat, n: nat)
    requires 0 < m <= n <= |looks| && Watched(looks, m).value.reason.Some?
    ensures Watched(looks, n).value.reason == Watched(looks, m).value.reason
  {
    if m < n {
      ReasonStays(looks, m, n - 1);
    }
  }

  // ---------- Written on change, or once a second ----------

  /** What every look is compared on; whether the trail is armed is not among them. */
  predicate Rewrites(prior: Option<ShockGuard>, g: ShockGuard) {
    || prior.None?
    || prior.value.peak != g.peak || prior.value.low != g.low || prior.value.floor != g.floor
    || prior.value.reason != g.reason || prior.value.held != g.held
    || g.at - prior.value.at >= 1000
  }

  function Persisted(prior: Option<ShockGuard>, q: Look, always: bool): Option<ShockGuard> {
    var g := ShockExit(q, prior);
    if always || Rewrites(prior, g) then Some(g) else prior
  }

  function Stored(looks: seq<Look>, n: nat, always: bool): Option<ShockGuard>
    requires n <= |looks|
  {
    if n == 0 then None else Persisted(Stored(looks, n - 1, always), looks[n - 1], always)
  }

  predicate SameRatchet(a: Option<ShockGuard>, b: Option<ShockGuard>) {
    match (a, b)
    case (None, None) => true
    case (Some(x), Some(y)) =>
      x.peak == y.peak && x.floor == y.floor && x.armed == y.armed && x.low == y.low && x.reason == y.reason
    case _ => false
  }

  lemma SteppedAlike(a: Option<ShockGuard>, b: Option<ShockGuard>, q: Look)
    requires SameRatchet(a, b) && q.entry > 0.0
    requires a.Some? ==> a.value.peak >= 0.0 && (!a.value.armed ==> a.value.floor == 0.0)
    ensures ShockExit(q, a) == ShockExit(q, b)
    ensures SameRatchet(Persisted(a, q, false), Persisted(b, q, true))
  {}

  /** With a positive entry cost, as any filled entry has, every look decides as if all had been written. */
  lemma {:induction false} ShockOnChangeIsAlways(looks: seq<Look>, n: nat)
    requires n <= |looks| && forall k :: 0 <= k < |looks| ==> looks[k].entry > 0.0
    ensures SameRatchet(Stored(looks, n, false), Stored(looks, n, true)) && Stored(looks, n, true) == Watched(looks, n)
    ensures n < |looks| ==> ShockExit(looks[n], Stored(looks, n, false)) == ShockExit(looks[n], Stored(looks, n, true))
  {
    if n > 0 {
      ShockOnChangeIsAlways(looks, n - 1);
      if n > 1 {
        ShockRatchet(looks, n - 1, n - 1);
      }
      SteppedAlike(Stored(looks, n - 1, false), Stored(looks, n - 1, true), looks[n - 1]);
    }
    if n < |looks| && n > 0 {
      ShockRatchet(looks, n, n);
      SteppedAlike(Stored(looks, n, false), Stored(looks, n, true), looks[n]);
    }
  }

  /** The positive entry cost is needed: at zero cost, arming could go unwritten and be forgotten. */
  lemma ZeroEntryForgetsArming()
    ensures var looks := [Look(1.0, None, 0.0, false, false, 1, 0), Look(0.0, None, 0.0, false, false, 1, 1),
                          Look(1.0, Some(-0.1), 0.0, false, false, 1, 2)];
            && Stored(looks, 3, true).value.reason == Some(ProfitFloor)
            && Stored(looks, 3, false).value.reason == None
  {
    var looks := [Look(1.0, None, 0.0, false, false, 1, 0), Look(0.0, None, 0.0, false, false, 1, 1),
                  Look(1.0, Some(-0.1), 0.0, false, false, 1, 2)];
    assert Stored(looks, 1, false) == Stored(looks, 1, true) == Some(ShockGuard(0.0, 0.0, false, None, None, 1, 0));
    assert Stored(looks, 2, false) == Stored(looks, 1, false);
    assert Stored(looks, 2, true) == Some(ShockGuard(0.0, 0.0, true, None, None, 1, 1));
    assert Stored(looks, 3, true) == Persisted(Stored(looks, 2, true), looks[2], true);
    assert Stored(looks, 3, false) == Persisted(Stored(looks, 2, false), looks[2], false);
  }

  class ShockGuardRow {
    var row: Option<ShockGuard>

    constructor ()
      ensures row == None
    {
      row := None;
    }

    /** The reason to exit now, if any; the row is rewritten only when Rewrites says so. */
    method Step(q: Look) returns (reason: Option<Reason>)
      modifies this
      ensures row == Persisted(old(row), q, false)
      ensures reason == ShockExit(q, old(row)).reason
    {
      var guard := ShockExit(q, row);
      if Rewrites(row, guard) {
        row := Some(guard);
      }
      reason := guard.reason;
    }
  }
}
