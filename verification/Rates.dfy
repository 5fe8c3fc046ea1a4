/** Sliding rate windows: the in-memory governor (governor.py) and the durable verdict of orders.py. */
module Rates {
  import opened Risk

  /** At most `limit` sends in any stretch of `span`; all times share one unit. */
  datatype Window = Window(limit: nat, span: nat)

  /** Sends younger than `span` at `now`. */
  function Recent(log: seq<int>, now: int, span: int): nat {
    if log == [] then 0
    else Recent(log[..|log| - 1], now, span) + if now - log[|log| - 1] < span then 1 else 0
  }

  /** Sends inside the stretch of length `span` that ends at `t`. */
  function Inside(log: seq<int>, t: int, span: int): nat {
    if log == [] then 0
    else Inside(log[..|log| - 1], t, span) + if t - span < log[|log| - 1] <= t then 1 else 0
  }

  predicate Admissible(log: seq<int>, now: int, n: int, windows: seq<Window>) {
    forall k :: 0 <= k < |windows| ==> Recent(log, now, windows[k].span) + n <= windows[k].limit
  }

  lemma RecentAppend(log: seq<int>, e: int, now: int, span: int)
    ensures Recent(log + [e], now, span) == Recent(log, now, span) + if now - e < span then 1 else 0
  {
    assert (log + [e])[..|log|] == log;
  }

  lemma {:induction false} RecentConcat(a: seq<int>, b: seq<int>, now: int, span: int)
    ensures Recent(a + b, now, span) == Recent(a, now, span) + Recent(b, now, span)
  {
    if b == [] {
      assert a + b == a;
    } else {
      assert (a + b)[..|a + b| - 1] == a + b[..|b| - 1];
      RecentConcat(a, b[..|b| - 1], now, span);
    }
  }

  /** As time passes sends only leave a window. */
  lemma {:induction false} RecentFades(log: seq<int>, now: int, later: int, span: int)
    requires now <= later
    ensures Recent(log, later, span) <= Recent(log, now, span)
  {
    if log != [] {
      RecentFades(log[..|log| - 1], now, later, span);
    }
  }

  lemma {:induction false} RecentAtMostAll(log: seq<int>, now: int, span: int)
    ensures Recent(log, now, span) <= |log|
  {
    if log != [] {
      RecentAtMostAll(log[..|log| - 1], now, span);
    }
  }

  // ---------- No window is ever overfull ----------

  /** Every send fitted all windows when it was made. */
  ghost predicate FittedWhenSent(log: seq<int>, windows: seq<Window>) {
    forall m, k :: 0 <= m < |log| && 0 <= k < |windows| ==> Recent(log[..m + 1], log[m], windows[k].span) <= windows[k].limit
  }

  lemma {:induction false} InsideIsRecent(log: seq<int>, t: int, last: int, span: int)
    requires last <= t
    ensures Inside(log, t, span) <= Recent(log, last, span)
  {
    if log != [] {
      InsideIsRecent(log[..|log| - 1], t, last, span);
    }
  }

  lemma FittedBefore(log: seq<int>, windows: seq<Window>)
    requires log != [] && FittedWhenSent(log, windows)
    ensures FittedWhenSent(log[..|log| - 1], windows)
  {
    hide Recent;
    var init := log[..|log| - 1];
    forall m, k | 0 <= m < |init| && 0 <= k < |windows|
      ensures Recent(init[..m + 1], init[m], windows[k].span) <= windows[k].limit
    {
      assert init[..m + 1] == log[..m + 1];
    }
  }

  /** Wherever a window is placed, it never holds more sends than its limit, whatever order the clock gave them. */
  lemma {:induction false} NoWindowOverfull(log: seq<int>, windows: seq<Window>, t: int, k: nat)
    requires FittedWhenSent(log, windows) && k < |windows|
    ensures Inside(log, t, windows[k].span) <= windows[k].limit
  {
    if log != [] {
      var last := log[|log| - 1];
      if t - windows[k].span < last <= t {
        InsideIsRecent(log, t, last, windows[k].span);
        assert log[..(|log| - 1) + 1] == log;
      } else {
        FittedBefore(log, windows);
        NoWindowOverfull(log[..|log| - 1], windows, t, k);
      }
    }
  }

  function Copies(e: int, n: nat): seq<int> { seq(n, _ => e) }

  lemma AdmittedFits(log: seq<int>, now: int, windows: seq<Window>)
    requires FittedWhenSent(log, windows) && Admissible(log, now, 1, windows)
    ensures FittedWhenSent(log + [now], windows)
  {
    var all := log + [now];
    forall m, k | 0 <= m < |all| && 0 <= k < |windows|
      ensures Recent(all[..m + 1], all[m], windows[k].span) <= windows[k].limit
    {
      if m < |log| {
        assert all[..m + 1] == log[..m + 1];
      } else {
        assert all[..m + 1] == all;
        RecentAppend(log, now, now, windows[k].span);
      }
    }
  }

  /** So do several sends admitted at once. */
  lemma {:induction false} AllAdmittedFit(log: seq<int>, now: int, n: nat, windows: seq<Window>)
    requires FittedWhenSent(log, windows) && Admissible(log, now, n, windows)
    ensures FittedWhenSent(log + Copies(now, n), windows)
  {
    if n == 0 {
      assert log + Copies(now, n) == log;
    } else {
      AllAdmittedFit(log, now, n - 1, windows);
      var before := log + Copies(now, n - 1);
      forall k | 0 <= k < |windows|
        ensures Recent(before, now, windows[k].span) + 1 <= windows[k].limit
      {
        RecentConcat(log, Copies(now, n - 1), now, windows[k].span);
        RecentAtMostAll(Copies(now, n - 1), now, windows[k].span);
      }
      AdmittedFits(before, now, windows);
      assert log + Copies(now, n) == before + [now];
    }
  }

  // ---------- Exit slots ----------

  /** Sends an entry must leave free: enough children to sell everything it could leave the account holding. */
  function ExitSlots(potential: nat, child: int): (r: int)
    requires child > 0
    ensures r >= 1
  {
    var need := Children(potential, child);
    if need >= 1 then need else 1
  }

  /** Sales made one by one at the given times, each after the ones before it. */
  ghost predicate SalesAdmissible(log: seq<int>, times: seq<int>, windows: seq<Window>) {
    forall m :: 0 <= m < |times| ==> Admissible(log + times[..m], times[m], 1, windows)
  }

  /** Right after an admitted entry, that many sales are admissible at any later times. */
  lemma ExitSlotsSurviveEntry(log: seq<int>, now: int, slots: nat, times: seq<int>, windows: seq<Window>)
    requires Admissible(log, now, 1 + slots, windows)
    requires |times| <= slots && forall m :: 0 <= m < |times| ==> now <= times[m]
    ensures SalesAdmissible(log + [now], times, windows)
  {
    forall m, k | 0 <= m < |times| && 0 <= k < |windows|
      ensures Recent(log + [now] + times[..m], times[m], windows[k].span) + 1 <= windows[k].limit
    {
      var span := windows[k].span;
      RecentConcat(log + [now], times[..m], times[m], span);
      RecentAtMostAll(times[..m], times[m], span);
      RecentFades(log + [now], now, times[m], span);
      RecentAppend(log, now, now, span);
    }
  }

  /** Quantities sold by successive reductions: as much as one child allows, until nothing is left. */
  function Liquidation(held: nat, child: int): (parts: seq<nat>)
    requires child > 0
    ensures forall k :: 0 <= k < |parts| ==> 0 < parts[k] <= child
  {
    if held == 0 then [] else if held <= child then [held] else [child] + Liquidation(held - child, child)
  }

  function Total(parts: seq<nat>): nat {
    if parts == [] then 0 else parts[0] + Total(parts[1..])
  }

  lemma {:induction false} LiquidationSellsAll(held: nat, child: int, lot: int)
    requires child > 0 && lot > 0 && held % lot == 0 && child % lot == 0
    ensures Total(Liquidation(held, child)) == held
    ensures |Liquidation(held, child)| == Children(held, child)
    ensures forall k :: 0 <= k < |Liquidation(held, child)| ==> Liquidation(held, child)[k] % lot == 0
  {
    if held > child {
      LotsSubtract(held, child, lot);
      LiquidationSellsAll(held - child, child, lot);
      OneChildLess(held, child);
    } else if held > 0 {
      OneChild(held, child);
    }
  }

  lemma OneChildLess(held: int, child: int)
    requires child > 0
    ensures Children(held, child) == Children(held - child, child) + 1
  {
    var a := held - child + child - 1;
    DivStep(a, child);
  }

  lemma DivStep(a: int, d: int)
    requires d > 0
    ensures (a + d) / d == a / d + 1
  {
    DivUnique(a + d, d, a / d + 1);
  }

  lemma DivUnique(a: int, d: int, q: int)
    requires d > 0 && d * q <= a < d * q + d
    ensures a / d == q
  {
    var r := a / d;
    assert d * (r - q) < d;
    LessThanOne(d, r - q);
    assert d * (q - r) < d;
    LessThanOne(d, q - r);
  }

  lemma LotsSubtract(a: int, b: int, lot: int)
    requires lot > 0 && a % lot == 0 && b % lot == 0
    ensures (a - b) % lot == 0
  {
    var q := a / lot - b / lot;
    assert a == lot * (a / lot) && b == lot * (b / lot);
    assert a - b == lot * q;
    DivUnique(a - b, lot, q);
  }

  lemma OneChild(held: nat, child: int)
    requires 0 < held <= child
    ensures Children(held, child) == 1
  {
    DivUnique(held + child - 1, child, 1);
  }

  const SECOND: int := 1_000_000

  /** The four durable windows of the order manager. */
  const DURABLE: seq<Window> := [Window(9, SECOND), Window(250, 60 * SECOND), Window(1000, 3600 * SECOND), Window(7000, 86400 * SECOND)]

  /** One rate check: an entry also needs the exit slots of everything that may be held. */
  datatype Try = Try(now: int, entry: bool, potential: nat, child: nat)

  predicate Passes(log: seq<int>, a: Try)
    requires a.child > 0
  {
    Admissible(log, a.now, if a.entry then 1 + ExitSlots(a.potential, a.child) else 1, DURABLE)
  }

  /** Sends younger than `span`, as a set of positions. */
  function Younger(log: seq<int>, now: int, span: int): set<int> { set k | 0 <= k < |log| && now - log[k] < span }

  lemma {:induction false} RecentIsCount(log: seq<int>, now: int, span: int)
    ensures Recent(log, now, span) == |Younger(log, now, span)|
  {
    if log != [] {
      var init, last := log[..|log| - 1], |log| - 1;
      RecentIsCount(init, now, span);
      if now - log[last] < span {
        assert Younger(log, now, span) == Younger(init, now, span) + {last};
      } else {
        assert Younger(log, now, span) == Younger(init, now, span);
      }
    } else {
      assert Younger(log, now, span) == {};
    }
  }

  /** The slots are the fewest sales of one child, and at least one, that sell everything an entry could leave. */
  lemma SlotsAreFewest(potential: nat, child: int)
    requires child > 0
    ensures ExitSlots(potential, child) >= 1 && potential <= ExitSlots(potential, child) * child
    ensures ExitSlots(potential, child) > 1 ==> (ExitSlots(potential, child) - 1) * child < potential
  {
    ChildrenAreFewest(potential, child);
  }

  /** An attempt passes exactly when it and its exit slots fit 9 a second, 250 a minute, 1000 an hour and 7000 a day. */
  lemma PassesIff(log: seq<int>, a: Try)
    requires a.child > 0
    ensures Passes(log, a) <==>
            var more := 1 + if a.entry then ExitSlots(a.potential, a.child) else 0;
            && |Younger(log, a.now, 1_000_000)| + more <= 9
            && |Younger(log, a.now, 60_000_000)| + more <= 250
            && |Younger(log, a.now, 3_600_000_000)| + more <= 1000
            && |Younger(log, a.now, 86_400_000_000)| + more <= 7000
  {
    hide Recent, ExitSlots;
    RecentIsCount(log, a.now, 1_000_000);
    RecentIsCount(log, a.now, 60_000_000);
    RecentIsCount(log, a.now, 3_600_000_000);
    RecentIsCount(log, a.now, 86_400_000_000);
    var more := 1 + if a.entry then ExitSlots(a.potential, a.child) else 0;
    assert DURABLE[0] == Window(9, 1_000_000) && DURABLE[1] == Window(250, 60_000_000);
    assert DURABLE[2] == Window(1000, 3_600_000_000) && DURABLE[3] == Window(7000, 86_400_000_000) && |DURABLE| == 4;
    assert Admissible(log, a.now, more, DURABLE) <==>
      forall k :: 0 <= k < 4 ==> Recent(log, a.now, DURABLE[k].span) + more <= DURABLE[k].limit;
  }

  function Logged(tries: seq<Try>, n: nat): seq<int>
    requires n <= |tries| && forall k :: 0 <= k < |tries| ==> tries[k].child > 0
  {
    if n == 0 then []
    else
      var log := Logged(tries, n - 1);
      if Passes(log, tries[n - 1]) then log + [tries[n - 1].now] else log
  }

  /** After any attempts, at whatever times, no placement of a durable window holds more sends than its limit. */
  lemma {:induction false} DurableNeverOverfull(tries: seq<Try>, n: nat, t: int, k: nat)
    requires n <= |tries| && (forall k :: 0 <= k < |tries| ==> tries[k].child > 0) && k < |DURABLE|
    ensures FittedWhenSent(Logged(tries, n), DURABLE)
    ensures Inside(Logged(tries, n), t, DURABLE[k].span) <= DURABLE[k].limit
  {
    hide Recent, Inside, FittedWhenSent;
    if n == 0 {
      NothingFits(DURABLE);
    } else {
      DurableNeverOverfull(tries, n - 1, t, k);
      var log, a := Logged(tries, n - 1), tries[n - 1];
      if Passes(log, a) {
        AdmittedFits(log, a.now, DURABLE);
      }
    }
    NoWindowOverfull(Logged(tries, n), DURABLE, t, k);
  }

  lemma NothingFits(windows: seq<Window>)
    ensures FittedWhenSent([], windows)
  {}

  /** The rate_events table. */
  class RateEvents {
    var log: seq<int>

    constructor ()
      ensures log == []
    {
      log := [];
    }

    method Count(now: int, span: int) returns (n: nat)
      ensures n == Recent(log, now, span)
    {
      n := 0;
      for k := 0 to |log|
        invariant n == Recent(log[..k], now, span)
      {
        assert log[..k + 1][..k] == log[..k];
        if now - log[k] < span {
          n := n + 1;
        }
      }
      assert log[..|log|] == log;
    }

    method Attempt(a: Try) returns (ok: bool)
      requires a.child > 0
      modifies this
      ensures ok <==> Passes(old(log), a)
      ensures log == if ok then old(log) + [a.now] else old(log)
    {
      hide Recent;
      var reserve := if a.entry then ExitSlots(a.potential, a.child) else 0;
      for k := 0 to |DURABLE|
        invariant log == old(log)
        invariant forall j :: 0 <= j < k ==> Recent(log, a.now, DURABLE[j].span) + 1 + reserve <= DURABLE[j].limit
      {
        var used := Count(a.now, DURABLE[k].span);
        if used + 1 + reserve > DURABLE[k].limit {
          return false;
        }
      }
      log := log + [a.now];
      ok := true;
    }
  }

  // ---------- The in-memory governor ----------

  function Horizon(windows: seq<Window>): (h: nat)
    ensures forall k :: 0 <= k < |windows| ==> windows[k].span <= h
  {
    if windows == [] then 0
    else
      var rest := Horizon(windows[..|windows| - 1]);
      if windows[|windows| - 1].span > rest then windows[|windows| - 1].span else rest
  }

  /** The deque without the leading sends that have left the widest window. */
  function Pruned(events: seq<int>, now: int, horizon: nat): seq<int> {
    if events != [] && now - events[0] >= horizon then Pruned(events[1..], now, horizon) else events
  }

  predicate Governed(events: seq<int>, now: int, count: int, windows: seq<Window>) {
    count > 0 && Admissible(Pruned(events, now, Horizon(windows)), now, count, windows)
  }

  datatype Call = Call(now: int, count: int)

  /** The deque after n calls. */
  function Deque(calls: seq<Call>, n: nat, windows: seq<Window>): seq<int>
    requires n <= |calls|
  {
    if n == 0 then []
    else
      var before, c := Deque(calls, n - 1, windows), calls[n - 1];
      if c.count <= 0 then before
      else
        Pruned(before, c.now, Horizon(windows)) + if Governed(before, c.now, c.count, windows) then Copies(c.now, c.count) else []
  }

  /** Every send the governor admitted in n calls. */
  function Sends(calls: seq<Call>, n: nat, windows: seq<Window>): seq<int>
    requires n <= |calls|
  {
    if n == 0 then []
    else
      var c := calls[n - 1];
      Sends(calls, n - 1, windows)
      + if Governed(Deque(calls, n - 1, windows), c.now, c.count, windows) then Copies(c.now, c.count) else []
  }

  lemma {:induction false} PrunedIsSuffix(events: seq<int>, now: int, horizon: nat)
    ensures var p := Pruned(events, now, horizon);
            && |p| <= |events| && p == events[|events| - |p|..]
            && forall k :: 0 <= k < |events| - |p| ==> now - events[k] >= horizon
    decreases |events|
  {
    if events != [] && now - events[0] >= horizon {
      PrunedIsSuffix(events[1..], now, horizon);
    }
  }

  function Times(calls: seq<Call>): (r: seq<int>)
    ensures |r| == |calls| && forall k :: 0 <= k < |r| ==> r[k] == calls[k].now
  {
    seq(|calls|, k requires 0 <= k < |calls| => calls[k].now)
  }

  /** A send at times[i] may have been dropped by a later call, at times[m], and yet be young again at `now`. */
  predicate Lost(times: seq<int>, n: nat, now: int, horizon: nat)
    requires n <= |times|
  {
    exists i, m :: 0 <= i < m < n && times[m] - times[i] >= horizon && now - times[i] < horizon
  }

  /** What left the deque had left the widest window at some later call. */
  ghost predicate IsDeque(events: seq<int>, sends: seq<int>, calls: seq<Call>, n: nat, windows: seq<Window>)
    requires n <= |calls|
  {
    && |events| <= |sends| && events == sends[|sends| - |events|..]
    && (forall k :: 0 <= k < |sends| ==> SentBy(sends[k], calls, n))
    && forall k :: 0 <= k < |sends| - |events| ==> LeftBy(sends[k], calls, n, windows)
  }

  predicate SentBy(e: int, calls: seq<Call>, n: nat)
    requires n <= |calls|
  {
    exists i :: 0 <= i < n && calls[i].now == e
  }

  predicate LeftBy(e: int, calls: seq<Call>, n: nat, windows: seq<Window>)
    requires n <= |calls|
  {
    exists i, m :: 0 <= i < m < n && calls[i].now == e && calls[m].now - e >= Horizon(windows)
  }

  lemma {:induction false} AlwaysDeque(calls: seq<Call>, n: nat, windows: seq<Window>)
    requires n <= |calls|
    ensures IsDeque(Deque(calls, n, windows), Sends(calls, n, windows), calls, n, windows)
  {
    hide Horizon, Admissible;
    if n > 0 {
      AlwaysDeque(calls, n - 1, windows);
      var events, sends, c := Deque(calls, n - 1, windows), Sends(calls, n - 1, windows), calls[n - 1];
      var more := if Governed(events, c.now, c.count, windows) then Copies(c.now, c.count) else [];
      if c.count > 0 {
        PrunedIsDeque(events, sends, calls, n, windows);
        MoreAreSent(more, calls, n);
        AppendedIsDeque(Pruned(events, c.now, Horizon(windows)), sends, more, calls, n, windows);
      } else {
        LeftStays(events, sends, calls, n, windows);
        assert sends + [] == sends;
      }
    }
  }

  lemma MoreAreSent(more: seq<int>, calls: seq<Call>, n: nat)
    requires 0 < n <= |calls| && forall k :: 0 <= k < |more| ==> more[k] == calls[n - 1].now
    ensures forall k :: 0 <= k < |more| ==> SentBy(more[k], calls, n)
  {}

  lemma SentStays(e: int, calls: seq<Call>, n: nat)
    requires 0 < n <= |calls| && SentBy(e, calls, n - 1)
    ensures SentBy(e, calls, n)
  {
    var i :| 0 <= i < n - 1 && calls[i].now == e;
    assert calls[i].now == e;
  }

  lemma LeftStays(events: seq<int>, sends: seq<int>, calls: seq<Call>, n: nat, windows: seq<Window>)
    requires 0 < n <= |calls| && IsDeque(events, sends, calls, n - 1, windows)
    ensures IsDeque(events, sends, calls, n, windows)
  {
    hide Horizon, SentBy;
    forall k | 0 <= k < |sends|
      ensures SentBy(sends[k], calls, n)
    {
      SentStays(sends[k], calls, n);
    }
    forall k | 0 <= k < |sends| - |events|
      ensures LeftBy(sends[k], calls, n, windows)
    {
      assert LeftBy(sends[k], calls, n - 1, windows);
      var i, m :| 0 <= i < m < n - 1 && calls[i].now == sends[k] && calls[m].now - sends[k] >= Horizon(windows);
      assert calls[i].now == sends[k] && calls[m].now - sends[k] >= Horizon(windows);
    }
  }

  lemma PrunedIsDeque(events: seq<int>, sends: seq<int>, calls: seq<Call>, n: nat, windows: seq<Window>)
    requires 0 < n <= |calls| && IsDeque(events, sends, calls, n - 1, windows)
    ensures IsDeque(Pruned(events, calls[n - 1].now, Horizon(windows)), sends, calls, n, windows)
  {
    hide Horizon;
    LeftStays(events, sends, calls, n, windows);
    PrunedIsSuffix(events, calls[n - 1].now, Horizon(windows));
    var kept := Pruned(events, calls[n - 1].now, Horizon(windows));
    forall k | |sends| - |events| <= k < |sends| - |kept|
      ensures LeftBy(sends[k], calls, n, windows)
    {
      assert sends[k] == events[k - (|sends| - |events|)];
      assert SentBy(sends[k], calls, n - 1);
      var i :| 0 <= i < n - 1 && calls[i].now == sends[k];
      assert calls[i].now == sends[k] && calls[n - 1].now - sends[k] >= Horizon(windows);
    }
  }

  lemma AppendedIsDeque(kept: seq<int>, sends: seq<int>, more: seq<int>, calls: seq<Call>, n: nat, windows: seq<Window>)
    requires n <= |calls| && IsDeque(kept, sends, calls, n, windows)
    requires forall k :: 0 <= k < |more| ==> SentBy(more[k], calls, n)
    ensures IsDeque(kept + more, sends + more, calls, n, windows)
  {
    hide Horizon, SentBy, LeftBy;
    assert kept + more == (sends + more)[|sends| - |kept|..];
  }

  /** Counts on the deque are those on the full log exactly when everything dropped is outside every window. */
  lemma CountsExactIff(dropped: seq<int>, kept: seq<int>, now: int, windows: seq<Window>)
    ensures (forall j :: 0 <= j < |windows| ==>
               Recent(kept, now, windows[j].span) == Recent(dropped + kept, now, windows[j].span))
            <==> (forall k, j :: 0 <= k < |dropped| && 0 <= j < |windows| ==> now - dropped[k] >= windows[j].span)
  {
    forall j | 0 <= j < |windows|
      ensures Recent(kept, now, windows[j].span) == Recent(dropped + kept, now, windows[j].span)
              <==> forall k :: 0 <= k < |dropped| ==> now - dropped[k] >= windows[j].span
    {
      RecentConcat(dropped, kept, now, windows[j].span);
      NoneRecentIff(dropped, now, windows[j].span);
    }
  }

  lemma {:induction false} NoneRecentIff(log: seq<int>, now: int, span: int)
    ensures Recent(log, now, span) == 0 <==> forall k :: 0 <= k < |log| ==> now - log[k] >= span
  {
    if log != [] {
      var init := log[..|log| - 1];
      NoneRecentIff(init, now, span);
      assert forall k :: 0 <= k < |init| ==> init[k] == log[k];
    }
  }

  /** Whatever the clock did: after any calls, the deque counts as the log of all sends exactly when this holds. */
  lemma DequeExactIff(calls: seq<Call>, n: nat, now: int, windows: seq<Window>)
    requires n <= |calls|
    ensures var sends, kept := Sends(calls, n, windows), Pruned(Deque(calls, n, windows), now, Horizon(windows));
            && |kept| <= |sends| && kept == sends[|sends| - |kept|..]
            && ((forall j :: 0 <= j < |windows| ==>
                   Recent(kept, now, windows[j].span) == Recent(sends, now, windows[j].span))
                <==> (forall k, j :: 0 <= k < |sends| - |kept| && 0 <= j < |windows| ==> now - sends[k] >= windows[j].span))
  {
    hide Recent, Deque, Sends, Horizon;
    AlwaysDeque(calls, n, windows);
    PrunedIsSuffix(Deque(calls, n, windows), now, Horizon(windows));
    var sends, kept := Sends(calls, n, windows), Pruned(Deque(calls, n, windows), now, Horizon(windows));
    var dropped := sends[..|sends| - |kept|];
    assert sends == dropped + kept;
    CountsExactIff(dropped, kept, now, windows);
  }

  /** Whatever the clock does, a send the full log admits is admitted: pruning is only ever lenient. */
  lemma PruningOnlyLenient(calls: seq<Call>, n: nat, now: int, count: int, windows: seq<Window>)
    requires n <= |calls| && count > 0 && Admissible(Sends(calls, n, windows), now, count, windows)
    ensures Governed(Deque(calls, n, windows), now, count, windows)
  {
    hide Recent, Deque, Sends, Horizon;
    AlwaysDeque(calls, n, windows);
    var events, sends := Deque(calls, n, windows), Sends(calls, n, windows);
    PrunedIsSuffix(events, now, Horizon(windows));
    var kept := Pruned(events, now, Horizon(windows));
    var dropped := sends[..|sends| - |kept|];
    assert sends == dropped + kept;
    forall j | 0 <= j < |windows|
      ensures Recent(kept, now, windows[j].span) + count <= windows[j].limit
    {
      RecentConcat(dropped, kept, now, windows[j].span);
    }
  }

  /** While no dropped send can be young again the deque decides exactly as the log of all sends would. */
  lemma DequeDecidesAsLog(calls: seq<Call>, n: nat, now: int, count: int, windows: seq<Window>)
    requires n <= |calls| && !Lost(Times(calls), n, now, Horizon(windows))
    ensures Governed(Deque(calls, n, windows), now, count, windows)
            <==> count > 0 && Admissible(Sends(calls, n, windows), now, count, windows)
  {
    hide Recent, Deque, Sends;
    AlwaysDeque(calls, n, windows);
    var events, sends, horizon := Deque(calls, n, windows), Sends(calls, n, windows), Horizon(windows);
    PrunedIsSuffix(events, now, horizon);
    var kept := Pruned(events, now, horizon);
    var dropped := sends[..|sends| - |kept|];
    assert sends == dropped + kept;
    forall k | 0 <= k < |dropped|
      ensures now - dropped[k] >= horizon
    {
      if k < |sends| - |events| {
        assert LeftBy(sends[k], calls, n, windows);
        var i, m :| 0 <= i < m < n && calls[i].now == sends[k] && calls[m].now - sends[k] >= horizon;
        assert Times(calls)[i] == sends[k] && Times(calls)[m] - Times(calls)[i] >= horizon;
      }
    }
    CountsExactIff(dropped, kept, now, windows);
  }

  /** After calls at these times, whatever their counts and the limits, the next verdict is the full log's. */
  ghost predicate AlwaysAgrees(times: seq<int>, now: int, horizon: nat) {
    forall calls: seq<Call>, count: int, windows: seq<Window> :: Times(calls) == times && Horizon(windows) == horizon ==>
      (Governed(Deque(calls, |calls|, windows), now, count, windows)
       <==> count > 0 && Admissible(Sends(calls, |calls|, windows), now, count, windows))
  }

  /** The times of the calls alone tell whether the verdict can differ. */
  lemma AlwaysAgreesIff(times: seq<int>, now: int, horizon: nat)
    ensures AlwaysAgrees(times, now, horizon) <==> !Lost(times, |times|, now, horizon)
  {
    hide Deque, Sends, Governed, Admissible, Horizon;
    if Lost(times, |times|, now, horizon) {
      var i, m :| 0 <= i < m < |times| && times[m] - times[i] >= horizon && now - times[i] < horizon;
      var calls, windows := Disagreement(times, i, m, now, horizon);
      assert Governed(Deque(calls, |calls|, windows), now, 1, windows);
    } else {
      forall calls: seq<Call>, count: int, windows: seq<Window> | Times(calls) == times && Horizon(windows) == horizon
        ensures Governed(Deque(calls, |calls|, windows), now, count, windows)
                <==> count > 0 && Admissible(Sends(calls, |calls|, windows), now, count, windows)
      {
        DequeDecidesAsLog(calls, |calls|, now, count, windows);
      }
    }
  }

  /** One send at i, a refused call at m that drops it, and nothing else. */
  function Tries(times: seq<int>, i: nat, m: nat): (r: seq<Call>)
    ensures |r| == |times|
    ensures forall k :: 0 <= k < |r| ==> r[k] == Call(times[k], if k == i then 1 else if k == m then 2 else 0)
  {
    seq(|times|, k requires 0 <= k < |times| => Call(times[k], if k == i then 1 else if k == m then 2 else 0))
  }

  lemma Disagreement(times: seq<int>, i: nat, m: nat, now: int, horizon: nat) returns (calls: seq<Call>, windows: seq<Window>)
    requires i < m < |times| && times[m] - times[i] >= horizon && now - times[i] < horizon
    ensures Times(calls) == times && Horizon(windows) == horizon
    ensures Governed(Deque(calls, |calls|, windows), now, 1, windows)
    ensures !Admissible(Sends(calls, |calls|, windows), now, 1, windows)
  {
    windows, calls := [Window(1, horizon)], Tries(times, i, m);
    OneWindow(1, horizon);
    TriesLeave(times, i, m, |times|, horizon);
    RecentOfOne(times[i], now, horizon);
    assert Recent([times[i]], now, windows[0].span) == 1;
    assert Pruned([], now, horizon) == [];
  }

  lemma OneWindow(limit: nat, span: nat)
    ensures Horizon([Window(limit, span)]) == span
  {
    assert [Window(limit, span)][..0] == [];
    assert Horizon([]) == 0;
  }

  /** One call takes the deque and the log one step further. */
  lemma CallStep(calls: seq<Call>, n: nat, windows: seq<Window>)
    requires 0 < n <= |calls| && calls[n - 1].count > 0
    requires Governed(Deque(calls, n - 1, windows), calls[n - 1].now, calls[n - 1].count, windows)
    requires Pruned(Deque(calls, n - 1, windows), calls[n - 1].now, Horizon(windows)) == []
    ensures var sent := Copies(calls[n - 1].now, calls[n - 1].count);
            Deque(calls, n, windows) == sent && Sends(calls, n, windows) == Sends(calls, n - 1, windows) + sent
  {
    hide Governed, Pruned, Horizon;
    var sent := Copies(calls[n - 1].now, calls[n - 1].count);
    assert [] + sent == sent;
  }

  /** A call that asks for nothing changes nothing, one that is refused only prunes. */
  lemma CallRefused(calls: seq<Call>, n: nat, windows: seq<Window>)
    requires 0 < n <= |calls|
    requires calls[n - 1].count > 0 ==> !Governed(Deque(calls, n - 1, windows), calls[n - 1].now, calls[n - 1].count, windows)
    ensures Sends(calls, n, windows) == Sends(calls, n - 1, windows)
    ensures Deque(calls, n, windows) ==
            if calls[n - 1].count <= 0 then Deque(calls, n - 1, windows)
            else Pruned(Deque(calls, n - 1, windows), calls[n - 1].now, Horizon(windows))
  {
    hide Admissible, Pruned, Horizon;
    assert Sends(calls, n - 1, windows) + [] == Sends(calls, n - 1, windows);
  }

  /** The one allowed send passes when nothing was sent, two never do, and a send a horizon old is pruned. */
  lemma OneAllowed(now: int, sent: int, horizon: nat)
    requires now - sent >= horizon
    ensures Governed([], now, 1, [Window(1, horizon)])
    ensures !Governed([sent], now, 2, [Window(1, horizon)])
    ensures Pruned([], now, horizon) == [] && Pruned([sent], now, horizon) == []
  {
    hide Recent, Horizon;
    OneWindow(1, horizon);
    NoneRecentIff([], now, horizon);
    assert [sent][1..] == [] && Pruned([], now, horizon) == [];
    assert Recent([], now, [Window(1, horizon)][0].span) + 2 > [Window(1, horizon)][0].limit;
  }

  lemma {:induction false} TriesLeave(times: seq<int>, i: nat, m: nat, n: nat, horizon: nat)
    requires i < m < |times| && n <= |times| && times[m] - times[i] >= horizon
    ensures Sends(Tries(times, i, m), n, [Window(1, horizon)]) == if n <= i then [] else [times[i]]
    ensures Deque(Tries(times, i, m), n, [Window(1, horizon)]) == if n <= i || n > m then [] else [times[i]]
  {
    var windows := [Window(1, horizon)];
    OneWindow(1, horizon);
    OneAllowed(times[i], times[i] - horizon, horizon);
    OneAllowed(times[m], times[i], horizon);
    if n > 0 {
      hide Horizon, Recent, Governed, Deque, Sends, Pruned;
      TriesLeave(times, i, m, n - 1, horizon);
      if n - 1 == i {
        assert Copies(times[i], 1) == [times[i]] && [] + [times[i]] == [times[i]];
        CallStep(Tries(times, i, m), n, windows);
      } else {
        CallRefused(Tries(times, i, m), n, windows);
      }
    }
  }

  lemma RecentOfOne(a: int, now: int, span: int)
    ensures Recent([a], now, span) == if now - a < span then 1 else 0
  {
    RecentAppend([], a, now, span);
    assert [] + [a] == [a];
  }

  predicate Forward(calls: seq<Call>) {
    forall j, k :: 0 <= j < k < |calls| ==> calls[j].now <= calls[k].now
  }

  lemma NothingLost(calls: seq<Call>, n: nat, horizon: nat)
    requires n < |calls| && Forward(calls)
    ensures !Lost(Times(calls), n, calls[n].now, horizon)
  {
    forall m | 0 <= m < n
      ensures Times(calls)[m] <= calls[n].now
    {}
  }

  /** So over any calls at nondecreasing times, no placement of a window holds more sends than its limit. */
  lemma {:induction false} GovernorNeverOverfull(calls: seq<Call>, n: nat, windows: seq<Window>, t: int, k: nat)
    requires n <= |calls| && Forward(calls) && k < |windows|
    ensures FittedWhenSent(Sends(calls, n, windows), windows)
    ensures Inside(Sends(calls, n, windows), t, windows[k].span) <= windows[k].limit
  {
    hide Recent, Inside, FittedWhenSent, Governed, Deque;
    if n == 0 {
      NothingFits(windows);
    } else {
      GovernorNeverOverfull(calls, n - 1, windows, t, k);
      var c := calls[n - 1];
      NothingLost(calls, n - 1, Horizon(windows));
      DequeDecidesAsLog(calls, n - 1, c.now, c.count, windows);
      if Governed(Deque(calls, n - 1, windows), c.now, c.count, windows) {
        AllAdmittedFit(Sends(calls, n - 1, windows), c.now, c.count, windows);
      } else {
        assert Sends(calls, n - 1, windows) + [] == Sends(calls, n - 1, windows);
      }
    }
    NoWindowOverfull(Sends(calls, n, windows), windows, t, k);
  }

  /** The limits a governor is given by default. */
  const DEFAULTS: seq<Window> :=
    [Window(10, SECOND), Window(250, 60 * SECOND), Window(1000, 3600 * SECOND), Window(7000, 86400 * SECOND)]

  const HORIZON: int := 86400 * SECOND

  lemma DefaultHorizon()
    ensures Horizon(DEFAULTS) == HORIZON
  {
    var three, two, one := DEFAULTS[..3], DEFAULTS[..2], DEFAULTS[..1];
    assert three[..2] == two && two[..1] == one && one[..0] == [];
    assert Horizon(one) == SECOND && Horizon(two) == 60 * SECOND && Horizon(three) == 3600 * SECOND;
  }

  lemma {:induction false} PrunedAll(events: seq<int>, now: int, horizon: nat)
    requires forall k :: 0 <= k < |events| ==> now - events[k] >= horizon
    ensures Pruned(events, now, horizon) == []
    decreases |events|
  {
    if events != [] {
      PrunedAll(events[1..], now, horizon);
    }
  }

  lemma {:induction false} AllRecent(log: seq<int>, now: int, span: int)
    requires forall k :: 0 <= k < |log| ==> now - log[k] < span
    ensures Recent(log, now, span) == |log|
  {
    if log != [] {
      AllRecent(log[..|log| - 1], now, span);
    }
  }

  /** With nothing sent yet up to ten may go at once. */
  lemma DefaultsStartFree(now: int, count: int)
    requires 0 < count <= 10
    ensures Governed([], now, count, DEFAULTS)
  {
    hide Horizon, Recent;
    forall k | 0 <= k < |DEFAULTS|
      ensures Recent([], now, DEFAULTS[k].span) == 0
    {
      NoneRecentIff([], now, DEFAULTS[k].span);
    }
  }

  lemma GovernedAsPruned(events: seq<int>, now: int, count: int, windows: seq<Window>)
    requires Pruned(events, now, Horizon(windows)) == [] && Governed([], now, count, windows)
    ensures Governed(events, now, count, windows)
  {}

  /** The ten sends at the start have been dropped from the deque by the one a day later. */
  lemma {:induction false} TenThenOne(calls: seq<Call>)
    requires |calls| >= 2 && calls[0] == Call(0, 10) && calls[1] == Call(HORIZON, 1)
    ensures Deque(calls, 2, DEFAULTS) == [HORIZON] && Sends(calls, 2, DEFAULTS) == Copies(0, 10) + [HORIZON]
  {
    DefaultHorizon();
    DefaultsStartFree(0, 10);
    DefaultsStartFree(HORIZON, 1);
    PrunedAll([], 0, HORIZON);
    PrunedAll(Copies(0, 10), HORIZON, HORIZON);
    assert Deque(calls, 0, DEFAULTS) == [] && Sends(calls, 0, DEFAULTS) == [];
    hide Horizon, Recent, Pruned, Governed, Deque, Sends;
    CallStep(calls, 1, DEFAULTS);
    assert [] + Copies(0, 10) == Copies(0, 10);
    GovernedAsPruned(Copies(0, 10), HORIZON, 1, DEFAULTS);
    CallStep(calls, 2, DEFAULTS);
    assert Copies(HORIZON, 1) == [HORIZON];
  }

  /** By default, while no dropped send is young again: 10 a second, 250 a minute, 1000 an hour and 7000 a day. */
  lemma DefaultAdmitsIff(calls: seq<Call>, n: nat, now: int, count: int)
    requires n <= |calls| && !Lost(Times(calls), n, now, HORIZON)
    ensures Governed(Deque(calls, n, DEFAULTS), now, count, DEFAULTS) <==>
            var sends := Sends(calls, n, DEFAULTS);
            && count > 0
            && |Younger(sends, now, 1_000_000)| + count <= 10
            && |Younger(sends, now, 60_000_000)| + count <= 250
            && |Younger(sends, now, 3_600_000_000)| + count <= 1000
            && |Younger(sends, now, 86_400_000_000)| + count <= 7000
  {
    DefaultHorizon();
    DequeDecidesAsLog(calls, n, now, count, DEFAULTS);
    hide Recent, Deque, Sends, Horizon, Governed, Lost;
    var sends := Sends(calls, n, DEFAULTS);
    RecentIsCount(sends, now, 1_000_000);
    RecentIsCount(sends, now, 60_000_000);
    RecentIsCount(sends, now, 3_600_000_000);
    RecentIsCount(sends, now, 86_400_000_000);
    FourDefaults(sends, now, count);
    hide Admissible;
  }

  lemma FourDefaults(log: seq<int>, now: int, count: int)
    ensures Admissible(log, now, count, DEFAULTS) <==>
            && Recent(log, now, 1_000_000) + count <= 10
            && Recent(log, now, 60_000_000) + count <= 250
            && Recent(log, now, 3_600_000_000) + count <= 1000
            && Recent(log, now, 86_400_000_000) + count <= 7000
  {
    hide Recent;
    assert DEFAULTS[0] == Window(10, 1_000_000) && DEFAULTS[1] == Window(250, 60_000_000);
    assert DEFAULTS[2] == Window(1000, 3_600_000_000) && DEFAULTS[3] == Window(7000, 86_400_000_000) && |DEFAULTS| == 4;
  }

  /** So is everything sent by the calls admitted, copy by copy, and nothing else. */
  lemma SendsGrow(calls: seq<Call>, n: nat, windows: seq<Window>)
    requires 0 < n <= |calls|
    ensures var c, before, after := calls[n - 1], Sends(calls, n - 1, windows), Sends(calls, n, windows);
            if Governed(Deque(calls, n - 1, windows), c.now, c.count, windows)
            then |after| == |before| + c.count && before <= after && forall k :: |before| <= k < |after| ==> after[k] == c.now
            else after == before
  {
    hide Admissible, Deque, Horizon;
  }

  /** A single send of a day from now leaves room for another in every default window. */
  lemma OneLeavesRoom()
    ensures Governed([HORIZON], 1, 1, DEFAULTS)
  {
    DefaultHorizon();
    hide Recent, Horizon;
    assert Pruned([HORIZON], 1, HORIZON) == [HORIZON];
    forall k | 0 <= k < |DEFAULTS|
      ensures Recent([HORIZON], 1, DEFAULTS[k].span) == 1
    {
      RecentOfOne(HORIZON, 1, DEFAULTS[k].span);
    }
  }

  /**
   When the clock steps back it may not: here the default governor admits a send that its full log refuses,
   and the second up to 1 then holds eleven sends where ten are allowed.
   */
  lemma SteppedBackClock()
    ensures var calls := [Call(0, 10), Call(HORIZON, 1), Call(1, 1)];
            && Governed(Deque(calls, 2, DEFAULTS), 1, 1, DEFAULTS)
            && !Admissible(Sends(calls, 2, DEFAULTS), 1, 1, DEFAULTS)
            && Inside(Sends(calls, 3, DEFAULTS), 1, SECOND) == 11
  {
    var calls := [Call(0, 10), Call(HORIZON, 1), Call(1, 1)];
    TenThenOne(calls);
    DefaultHorizon();
    OneLeavesRoom();
    hide Recent, Deque, Horizon, Inside, Governed;
    var log := Copies(0, 10) + [HORIZON];
    AllRecent(log, 1, SECOND);
    assert Recent(log, 1, DEFAULTS[0].span) + 1 > DEFAULTS[0].limit;
    assert Copies(1, 1) == [1];
    assert Sends(calls, 3, DEFAULTS) == log + [1];
    ElevenInside();
  }

  lemma {:induction false} CopiesInside(e: int, n: nat, t: int, span: int)
    requires t - span < e <= t
    ensures Inside(Copies(e, n), t, span) == n
  {
    if n > 0 {
      assert Copies(e, n)[..n - 1] == Copies(e, n - 1);
      CopiesInside(e, n - 1, t, span);
    }
  }

  lemma ElevenInside()
    ensures Inside(Copies(0, 10) + [HORIZON] + [1], 1, SECOND) == 11
  {
    var log := Copies(0, 10) + [HORIZON];
    CopiesInside(0, 10, 1, SECOND);
    assert (log + [1])[..11] == log && log[..10] == Copies(0, 10);
    assert Inside(log, 1, SECOND) == 10;
  }

  class RateGovernor {
    const windows: seq<Window>
    var events: seq<int>

    constructor (windows: seq<Window>)
      ensures events == [] && this.windows == windows
    {
      this.windows := windows;
      events := [];
    }

    method Count(now: int, span: int) returns (n: nat)
      ensures n == Recent(events, now, span)
    {
      n := 0;
      for k := 0 to |events|
        invariant n == Recent(events[..k], now, span)
      {
        assert events[..k + 1][..k] == events[..k];
        if now - events[k] < span {
          n := n + 1;
        }
      }
      assert events[..|events|] == events;
    }

    /** Whether the deque has room in every window. */
    method Fits(now: int, count: int) returns (ok: bool)
      ensures ok <==> Admissible(events, now, count, windows)
    {
      hide Recent;
      for k := 0 to |windows|
        invariant forall j :: 0 <= j < k ==> Recent(events, now, windows[j].span) + count <= windows[j].limit
      {
        var recent := Count(now, windows[k].span);
        if recent + count > windows[k].limit {
          return false;
        }
      }
      ok := true;
    }

    /** The next step of Deque: prune, then admit all or none. */
    method Admit(now: int, count: int) returns (ok: bool)
      modifies this
      ensures ok <==> Governed(old(events), now, count, windows)
      ensures count <= 0 ==> events == old(events)
      ensures count > 0 ==>
                events == Pruned(old(events), now, Horizon(windows)) + if ok then Copies(now, count) else []
    {
      if count <= 0 {
        return false;
      }
      var horizon := Horizon(windows);
      while events != [] && now - events[0] >= horizon
        invariant Pruned(old(events), now, horizon) == Pruned(events, now, horizon)
        decreases |events|
      {
        events := events[1..];
      }
      ok := Fits(now, count);
      if ok {
        ghost var kept := events;
        for k := 0 to count
          invariant events == kept + Copies(now, k)
        {
          events := events + [now];
        }
      }
    }
  }
}
