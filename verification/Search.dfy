/**
 The bisections of strategy.py, seconds_strategies.py and fast_order.py, and the scans that
 stop at the first unaffordable size, against exhaustive search over every whole lot or tick.
 */
module Search {
  import opened Wrappers
  import opened Fees
  import opened Risk

  /** Whatever is accepted for more lots is accepted for fewer. */
  ghost predicate DownClosed(accepts: nat -> bool) {
    forall i, j | 1 <= i <= j && accepts(j) :: accepts(i)
  }

  /** Exhaustive search: try every number of lots, largest first. */
  function MaxByScan(k: nat, accepts: nat -> bool): (m: nat)
    ensures m <= k
    ensures m > 0 ==> accepts(m)
    ensures forall j :: m < j <= k ==> !accepts(j)
  {
    if k == 0 then 0 else if accepts(k) then k else MaxByScan(k - 1, accepts)
  }

  lemma {:induction false} ScanClamp(n: nat, m: nat, accepts: nat -> bool)
    requires m <= n
    requires forall j :: m < j <= n ==> !accepts(j)
    ensures MaxByScan(n, accepts) == MaxByScan(m, accepts)
  {
    if m < n {
      assert !accepts(n);
      ScanClamp(n - 1, m, accepts);
    }
  }

  /** The logarithmic search over lots; an empty or negative range leaves zero. */
  method BisectLots(hi: int, accepts: nat -> bool) returns (low: nat)
    requires DownClosed(accepts)
    ensures low == MaxByScan(if hi < 0 then 0 else hi, accepts)
  {
    low := 0;
    var high := hi;
    while low < high
      invariant low <= high || (low == 0 && high == hi)
      invariant high <= hi
      invariant low > 0 ==> accepts(low)
      invariant forall j :: high < j <= hi && j > 0 ==> !accepts(j)
    {
      var middle := (low + high + 1) / 2;
      if accepts(middle) {
        low := middle;
      } else {
        high := middle - 1;
      }
    }
    if hi >= 0 {
      assert MaxByScan(hi, accepts) >= low by {
        if MaxByScan(hi, accepts) < low {
          assert accepts(low);
        }
      }
    }
  }

  // ---------- Lots within displayed depth that an allocation permits ----------

  function Units(k: int, lot: int): int { k * lot }

  function LotCash(inst: Instrument, limit: real, k: int): real
    requires inst.Valid()
  {
    var units := Units(k, inst.lot);
    ReserveCash(EntryCash(units, limit, Children(units, inst.Child())))
  }

  function LotsPermitted(inst: Instrument, limit: real, alloc: Allocation): nat -> bool
    requires inst.Valid()
  {
    k => alloc.Permits(LotCash(inst, limit, k))
  }

  lemma UnitsOrdered(i: int, j: int, lot: int)
    requires lot > 0 && i <= j
    ensures Units(i, lot) <= Units(j, lot)
    ensures i >= 0 ==> Units(i, lot) >= 0
    ensures i >= 1 ==> Units(i, lot) >= lot
  {}

  lemma UnitsDivide(k: int, lot: int)
    requires lot > 0
    ensures Units(k, lot) / lot == k
  {
    var d := k * lot / lot - k;
    assert k * lot - lot < lot * (k * lot / lot) <= k * lot;
    assert lot * d == lot * (k * lot / lot) - k * lot;
    LessThanOne(lot, d);
    assert lot * (-d) == k * lot - lot * (k * lot / lot);
    LessThanOne(lot, -d);
  }

  lemma EntryCashBounds(units: int, limit: real, children: int)
    requires units > 0 && limit > 0.0 && children >= 1
    ensures 0.0 < Turnover(units, limit) < EntryCash(units, limit, children)
  {
    TurnoverMonotone(1, units, limit, limit);
    FeesPositive(Turnover(units, limit), children);
  }

  lemma LotCashMonotone(inst: Instrument, limit: real, i: nat, j: nat)
    requires inst.Valid() && limit > 0.0 && 1 <= i <= j
    ensures 0.0 < LotCash(inst, limit, i) <= LotCash(inst, limit, j)
    ensures Turnover(Units(j, inst.lot), limit) <= LotCash(inst, limit, j)
  {
    hide EntryCash, Units, Turnover;
    UnitsOrdered(i, j, inst.lot);
    UnitsOrdered(1, i, inst.lot);
    var p, q, child := Units(i, inst.lot), Units(j, inst.lot), inst.Child();
    ChildrenMonotone(p, q, child);
    EntryCashMonotone(p, q, limit, limit, Children(p, child), Children(q, child));
    ChildrenMonotone(1, p, child);
    EntryCashBounds(p, limit, Children(p, child));
    EntryCashBounds(q, limit, Children(q, child));
    CeilPaiseMonotone(EntryCash(p, limit, Children(p, child)), EntryCash(q, limit, Children(q, child)));
  }

  lemma LotsDownClosed(inst: Instrument, limit: real, alloc: Allocation)
    requires inst.Valid() && limit > 0.0
    ensures DownClosed(LotsPermitted(inst, limit, alloc))
  {
    hide LotCash;
    forall i: nat, j: nat | 1 <= i <= j && LotsPermitted(inst, limit, alloc)(j)
      ensures LotsPermitted(inst, limit, alloc)(i)
    {
      LotCashMonotone(inst, limit, i, j);
    }
  }

  /** Whole lots that fit a budget at a price never exceed the truncated quotient. */
  lemma QuotientBound(k: nat, lot: int, limit: real, budget: real)
    requires lot > 0 && limit > 0.0 && k >= 1
    requires Turnover(Units(k, lot), limit) <= budget
    ensures k <= Trunc(budget / limit) / lot
  {
    UnitsOrdered(1, k, lot);
    TurnoverMonotone(1, Units(k, lot), limit, limit);
    RatioAtLeast(Units(k, lot) as real, limit, budget);
    DivMonotone(Units(k, lot), (budget / limit).Floor, lot);
    UnitsDivide(k, lot);
  }

  lemma RatioAtLeast(units: real, limit: real, budget: real)
    requires units > 0.0 && limit > 0.0 && units * limit <= budget
    ensures units <= budget / limit
  {
    var ratio := budget / limit;
    assert ratio * limit == budget;
    assert (ratio - units) * limit >= 0.0;
  }

  /** The smaller of two whole-lot quantities, in lots; a negative one leaves nothing to search. */
  function SearchRange(depth: int, affordable: int, lot: int): int
    requires lot > 0
  {
    var byDepth, byCash := Units(depth, lot), Units(affordable, lot);
    (if byDepth <= byCash then byDepth else byCash) / lot
  }

  lemma ClampLosesNothing(depth: nat, affordable: int, lot: int, accepts: nat -> bool)
    requires lot > 0
    requires forall j: nat :: j >= 1 && accepts(j) ==> j <= affordable
    ensures var hi := SearchRange(depth, affordable, lot);
            MaxByScan(if hi < 0 then 0 else hi, accepts) == MaxByScan(depth, accepts)
  {
    hide Units;
    UnitsDivide(depth, lot);
    UnitsDivide(affordable, lot);
    if affordable < depth {
      UnitsOrdered(affordable, depth, lot);
      ScanClamp(depth, if affordable < 0 then 0 else affordable, accepts);
    } else {
      UnitsOrdered(depth, affordable, lot);
    }
  }

  lemma PermittedLotsFitCash(inst: Instrument, limit: real, alloc: Allocation)
    requires inst.Valid() && limit > 0.0
    ensures forall j: nat :: j >= 1 && LotsPermitted(inst, limit, alloc)(j) ==>
                               j <= Trunc(Min(alloc.remaining, alloc.spendable) / limit) / inst.lot
  {
    hide LotCash, Units, Trunc;
    forall j: nat | j >= 1 && LotsPermitted(inst, limit, alloc)(j)
      ensures j <= Trunc(Min(alloc.remaining, alloc.spendable) / limit) / inst.lot
    {
      LotCashMonotone(inst, limit, j, j);
      QuotientBound(j, inst.lot, limit, Min(alloc.remaining, alloc.spendable));
    }
  }

  /**
   The lot search of find_opportunity and find_final_opportunity: clamp by cash over price, then
   bisect. Clamping and bisecting lose nothing against trying every whole lot in displayed depth.
   */
  method LargestPermitted(inst: Instrument, asks: seq<Level>, limit: real, alloc: Allocation) returns (quantity: int)
    requires inst.Valid() && limit > 0.0
    ensures quantity % inst.lot == 0 && 0 <= quantity <= Displayed(asks, limit)
    ensures quantity > 0 ==> alloc.Permits(ReserveCash(EntryCash(quantity, limit, Children(quantity, inst.Child()))))
    ensures forall q :: quantity < q <= Displayed(asks, limit) && q % inst.lot == 0 ==>
              !alloc.Permits(ReserveCash(EntryCash(q, limit, Children(q, inst.Child()))))
  {
    hide LotCash, LotsPermitted, Units, EntryCash, ReserveCash, Displayed;
    var accepts := LotsPermitted(inst, limit, alloc);
    LotsDownClosed(inst, limit, alloc);
    PermittedLotsFitCash(inst, limit, alloc);
    var depth := Displayed(asks, limit) / inst.lot;
    var affordable := Trunc(Min(alloc.remaining, alloc.spendable) / limit) / inst.lot;
    ClampLosesNothing(depth, affordable, inst.lot, accepts);
    var low := BisectLots(SearchRange(depth, affordable, inst.lot), accepts);
    quantity := Units(low, inst.lot);
    FoundInUnits(inst, limit, alloc, Displayed(asks, limit), low);
  }

  /** The best number of lots, in units. */
  lemma FoundInUnits(inst: Instrument, limit: real, alloc: Allocation, depth: nat, low: nat)
    requires inst.Valid() && low == MaxByScan(depth / inst.lot, LotsPermitted(inst, limit, alloc))
    ensures var quantity := Units(low, inst.lot);
            && quantity % inst.lot == 0 && 0 <= quantity <= depth
            && (quantity > 0 ==> alloc.Permits(ReserveCash(EntryCash(quantity, limit, Children(quantity, inst.Child())))))
            && forall q :: quantity < q <= depth && q % inst.lot == 0 ==>
                 !alloc.Permits(ReserveCash(EntryCash(q, limit, Children(q, inst.Child()))))
  {
    hide EntryCash, ReserveCash, Children;
    var lot, accepts := inst.lot, LotsPermitted(inst, limit, alloc);
    LowWithin(low, depth, lot);
    assert low > 0 ==> accepts(low);
    forall q | Units(low, lot) < q <= depth && q % lot == 0
      ensures !alloc.Permits(ReserveCash(EntryCash(q, limit, Children(q, inst.Child()))))
    {
      MoreLots(low, q, depth, lot);
      assert !accepts(q / lot);
    }
  }

  lemma LowWithin(low: nat, depth: nat, lot: int)
    requires lot > 0 && low <= depth / lot
    ensures Units(low, lot) % lot == 0 && 0 <= Units(low, lot) <= depth
    ensures Units(low, lot) > 0 ==> low > 0
  {
    MultipleOf(low, lot);
    WholeLots(depth, lot);
    UnitsOrdered(low, depth / lot, lot);
    UnitsOrdered(0, low, lot);
  }

  lemma MoreLots(low: nat, q: int, depth: nat, lot: int)
    requires lot > 0 && Units(low, lot) < q <= depth && q % lot == 0
    ensures q == Units(q / lot, lot) && low < q / lot <= depth / lot
  {
    DivMonotone(q, depth, lot);
    if q / lot <= low {
      UnitsOrdered(q / lot, low, lot);
    }
  }

  // ---------- Research order sizing ----------

  function ResearchCash(lot: int, freeze: int, limit: real, k: int): real
    requires lot > 0 && freeze > 0
  {
    var units := Units(k, lot);
    EntryCash(units, limit, Children(units, freeze))
  }

  function ResearchAccepts(lot: int, freeze: int, limit: real, budget: real): nat -> bool
    requires lot > 0 && freeze > 0
  {
    k => ResearchCash(lot, freeze, limit, k) <= budget
  }

  lemma ResearchCashMonotone(lot: int, freeze: int, limit: real, i: nat, j: nat)
    requires lot > 0 && freeze > 0 && limit > 0.0 && 1 <= i <= j
    ensures ResearchCash(lot, freeze, limit, i) <= ResearchCash(lot, freeze, limit, j)
    ensures Turnover(Units(j, lot), limit) <= ResearchCash(lot, freeze, limit, j)
  {
    hide EntryCash, Units, Turnover;
    UnitsOrdered(i, j, lot);
    UnitsOrdered(1, i, lot);
    var p, q := Units(i, lot), Units(j, lot);
    ChildrenMonotone(p, q, freeze);
    EntryCashMonotone(p, q, limit, limit, Children(p, freeze), Children(q, freeze));
    ChildrenMonotone(1, q, freeze);
    EntryCashBounds(q, limit, Children(q, freeze));
  }

  lemma ResearchLotsFitCash(lot: int, freeze: int, limit: real, budget: real)
    requires lot > 0 && freeze > 0 && limit > 0.0
    ensures DownClosed(ResearchAccepts(lot, freeze, limit, budget))
    ensures forall j: nat :: j >= 1 && ResearchAccepts(lot, freeze, limit, budget)(j) ==>
                               j <= Trunc(budget / (limit * lot as real))
  {
    hide ResearchCash, Units;
    forall i: nat, j: nat | 1 <= i <= j && ResearchAccepts(lot, freeze, limit, budget)(j)
      ensures ResearchAccepts(lot, freeze, limit, budget)(i)
      ensures j <= Trunc(budget / (limit * lot as real))
    {
      ResearchCashMonotone(lot, freeze, limit, i, j);
      TripleProduct(j, lot, limit);
      RatioAtLeast(j as real, limit * lot as real, budget);
    }
  }

  lemma TripleProduct(k: int, lot: int, limit: real)
    requires lot > 0 && limit > 0.0
    ensures limit * lot as real > 0.0
    ensures Turnover(Units(k, lot), limit) == k as real * (limit * lot as real)
  {
    assert Units(k, lot) as real == k as real * lot as real;
    Reassociate(k as real, lot as real, limit);
  }

  lemma Reassociate(a: real, b: real, c: real)
    ensures a * b * c == a * (c * b)
  {}

  /** make_order: the same maximum as decrementing from the liquidity capacity, one lot at a time. */
  method ResearchLots(lot: int, freeze: int, limit: real, budget: real, capacity: nat) returns (low: nat)
    requires lot > 0 && freeze > 0 && limit > 0.0
    ensures low <= capacity / lot
    ensures low > 0 ==> EntryCash(low * lot, limit, Children(low * lot, freeze)) <= budget
    ensures forall k :: low < k <= capacity / lot ==> EntryCash(k * lot, limit, Children(k * lot, freeze)) > budget
  {
    ghost var best := MaxByScan(capacity / lot, ResearchAccepts(lot, freeze, limit, budget));
    ResearchBest(lot, freeze, limit, budget, capacity / lot);
    hide EntryCash;
    hide ResearchAccepts, Units, SearchRange;
    var accepts := ResearchAccepts(lot, freeze, limit, budget);
    ResearchLotsFitCash(lot, freeze, limit, budget);
    var depth := capacity / lot;
    TripleProduct(1, lot, limit);
    var affordable := Trunc(budget / (limit * lot as real));
    ClampLosesNothing(depth, affordable, lot, accepts);
    var hi := SearchRange(depth, affordable, lot);
    low := BisectLots(if hi < 0 then 0 else hi, accepts);
  }

  lemma ResearchBest(lot: int, freeze: int, limit: real, budget: real, top: nat)
    requires lot > 0 && freeze > 0
    ensures var low := MaxByScan(top, ResearchAccepts(lot, freeze, limit, budget));
            && low <= top && (low > 0 ==> EntryCash(low * lot, limit, Children(low * lot, freeze)) <= budget)
            && forall k :: low < k <= top ==> EntryCash(k * lot, limit, Children(k * lot, freeze)) > budget
  {
    hide EntryCash;
    var accepts := ResearchAccepts(lot, freeze, limit, budget);
    forall k | MaxByScan(top, accepts) < k <= top
      ensures EntryCash(k * lot, limit, Children(k * lot, freeze)) > budget
    {
      assert !accepts(k);
    }
  }

  // ---------- Scans that stop at the first unaffordable size ----------

  /** Debit for k lots plus the fees of three exit attempts at an assumed exit price. */
  function CommittedCash(inst: Instrument, limit: real, exitPrice: real, k: int): real {
    var units := Units(k, inst.lot);
    EntryCash(units, limit, 1) + Sell(Turnover(units, exitPrice), 3)
  }

  function Committable(inst: Instrument, limit: real, exitPrice: real, budget: real): nat -> bool {
    k => CommittedCash(inst, limit, exitPrice, k) <= budget
  }

  lemma CommittedCashMonotone(inst: Instrument, limit: real, exitPrice: real, i: nat, j: nat)
    requires inst.Valid() && limit > 0.0 && exitPrice >= 0.0 && i <= j
    ensures CommittedCash(inst, limit, exitPrice, i) <= CommittedCash(inst, limit, exitPrice, j)
  {
    hide Buy, Sell, EntryCash, Units, Turnover;
    UnitsOrdered(i, j, inst.lot);
    var p, q := Units(i, inst.lot), Units(j, inst.lot);
    EntryCashMonotone(p, q, limit, limit, 1, 1);
    TurnoverMonotone(p, q, exitPrice, exitPrice);
    FeesMonotone(Turnover(p, exitPrice), Turnover(q, exitPrice), 3, 3);
  }

  /** The ascending loops of the minute and shock strategies: stopping early skips nothing affordable. */
  method ScanUntilUnaffordable(inst: Instrument, limit: real, exitPrice: real, budget: real, capacity: nat)
    returns (lots: nat)
    requires inst.Valid() && limit > 0.0 && exitPrice >= 0.0
    ensures lots <= capacity / inst.lot
    ensures lots > 0 ==>
              EntryCash(lots * inst.lot, limit, 1) + Sell(Turnover(lots * inst.lot, exitPrice), 3) <= budget
    ensures forall k :: lots < k <= capacity / inst.lot ==>
              EntryCash(k * inst.lot, limit, 1) + Sell(Turnover(k * inst.lot, exitPrice), 3) > budget
  {
    hide EntryCash, Sell, Turnover;
    var accepts := Committable(inst, limit, exitPrice, budget);
    var top := capacity / inst.lot;
    lots := 0;
    while lots < top && accepts(lots + 1)
      invariant lots <= top
      invariant lots > 0 ==> accepts(lots)
    {
      lots := lots + 1;
    }
    forall j: nat | lots < j <= top
      ensures EntryCash(j * inst.lot, limit, 1) + Sell(Turnover(j * inst.lot, exitPrice), 3) > budget
    {
      CommittedCashMonotone(inst, limit, exitPrice, lots + 1, j);
      assert !accepts(j);
    }
  }

  // ---------- The spread-bounded price search ----------

  function CeilTick(x: real, tick: real): real
    requires tick > 0.0
  {
    Ceil(x / tick) as real * tick
  }

  function FloorTick(x: real, tick: real): real
    requires tick > 0.0
  {
    (x / tick).Floor as real * tick
  }

  datatype Quote = Quote(bid: real, ask: real)

  datatype Gate = Ready | Unaffordable | EdgeTooSmall

  /** One lot at a price: affordable with its exit fees, and worth the minimum edge at the target. */
  function Assess(lot: int, target: real, budget: real, price: real): Gate {
    var exitFees := Sell(Turnover(lot, target), 3);
    var debit := EntryCash(lot, price, 1);
    var net := Turnover(lot, target) - exitFees - debit;
    var minimum := Max(50.0, Buy(Turnover(lot, price), 1) + exitFees);
    if budget <= 0.0 || debit + exitFees > budget then Unaffordable
    else if net < minimum then EdgeTooSmall
    else Ready
  }

  /** A lot is ready exactly when it can be paid for with three exits, and at the target nets 50 and its fees over again. */
  lemma ReadyIff(lot: int, target: real, budget: real, price: real)
    ensures Assess(lot, target, budget, price) == Ready <==>
            var paid, exits := EntryCash(lot, price, 1), Sell(lot as real * target, 3);
            var net := lot as real * target - exits - paid;
            && 0.0 < budget && paid + exits <= budget
            && net >= 50.0 && net >= paid - lot as real * price + exits
  {
    hide Buy, Sell;
  }

  lemma ReadyDownwards(lot: int, target: real, budget: real, a: real, b: real)
    requires lot > 0 && 0.0 <= a <= b
    requires Assess(lot, target, budget, b) == Ready
    ensures Assess(lot, target, budget, a) == Ready
  {
    hide Buy, Sell, Turnover;
    TurnoverMonotone(lot, lot, a, b);
    FeesMonotone(Turnover(lot, a), Turnover(lot, b), 1, 1);
  }

  /** The price ceiling: one spread above the ask, at least two ticks, inside the upper band. */
  function PriceCeiling(inst: Instrument, quote: Quote): real
    requires inst.Valid()
  {
    var allowance := CeilTick(Max(2.0 * inst.tick, quote.ask - quote.bid), inst.tick);
    var limit := quote.ask + allowance;
    if inst.upper.Some? && inst.upper.value != 0.0 then Min(limit, FloorTick(inst.upper.value, inst.tick)) else limit
  }

  function Ticks(n: int, tick: real): real { n as real * tick }

  /** It is the least whole number of ticks above the ask that covers the spread and two ticks, or the last tick of the band. */
  lemma CeilingIsOneSpread(inst: Instrument, quote: Quote) returns (n: int, m: int)
    requires inst.Valid()
    ensures n >= 2 && Ticks(n, inst.tick) >= quote.ask - quote.bid
    ensures n == 2 || Ticks(n - 1, inst.tick) < quote.ask - quote.bid
    ensures var top := quote.ask + Ticks(n, inst.tick);
            if inst.upper.None? || inst.upper.value == 0.0 then PriceCeiling(inst, quote) == top
            else
              && Ticks(m, inst.tick) <= inst.upper.value < Ticks(m + 1, inst.tick)
              && PriceCeiling(inst, quote) == if top <= Ticks(m, inst.tick) then top else Ticks(m, inst.tick)
  {
    hide Ticks, CeilTick, FloorTick;
    n := TickUp(Max(2.0 * inst.tick, quote.ask - quote.bid), inst.tick);
    TwoTicks(n, inst.tick);
    m := 0;
    if inst.upper.Some? {
      m := TickDown(inst.upper.value, inst.tick);
    }
  }

  lemma TickUp(x: real, tick: real) returns (n: int)
    requires tick > 0.0
    ensures CeilTick(x, tick) == Ticks(n, tick) && Ticks(n - 1, tick) < x <= Ticks(n, tick)
  {
    n := Ceil(x / tick);
    Quotient(x, tick);
    Scaled(x / tick, n as real, tick);
    ScaledLess((n - 1) as real, x / tick, tick);
  }

  lemma TickDown(x: real, tick: real) returns (n: int)
    requires tick > 0.0
    ensures FloorTick(x, tick) == Ticks(n, tick) && Ticks(n, tick) <= x < Ticks(n + 1, tick)
  {
    n := (x / tick).Floor;
    var ratio, above := x / tick, n + 1;
    Quotient(x, tick);
    Scaled(n as real, ratio, tick);
    ScaledLess(ratio, above as real, tick);
    assert x < Ticks(above, tick);
  }

  lemma Quotient(x: real, tick: real)
    requires tick > 0.0
    ensures x / tick * tick == x
  {}

  lemma ScaledLess(x: real, y: real, tick: real)
    requires x < y && tick > 0.0
    ensures x * tick < y * tick
  {
    assert (y - x) * tick > 0.0;
  }

  /** So many ticks cover two of them exactly when there are two. */
  lemma TwoTicks(n: int, tick: real)
    requires tick > 0.0
    ensures Ticks(n, tick) >= 2.0 * tick ==> n >= 2
    ensures n > 2 ==> Ticks(n - 1, tick) >= 2.0 * tick
  {
    if n <= 1 {
      Scaled(n as real, 1.0, tick);
    }
    if n > 2 {
      Scaled(2.0, (n - 1) as real, tick);
    }
  }

  function StepPrice(base: real, step: nat, tick: real): real {
    base + step as real * tick
  }

  /**
   The search over tick positions. A price comes back exactly when the band admits the original
   two-tick limit and that limit passes every gate; it is then the highest passing tick up to the
   ceiling, so widening the ceiling never loses the original limit.
   */
  method BestEntryPrice(inst: Instrument, quote: Quote, target: real, budget: real) returns (best: Option<real>)
    requires inst.Valid() && quote.ask > 0.0
    ensures var base := quote.ask + 2.0 * inst.tick;
            var top := PriceCeiling(inst, quote);
            var banded := base <= top && (inst.lower.Some? && inst.lower.value != 0.0 ==> inst.lower.value <= base);
            && (best.Some? <==> banded && target > 0.0 && Assess(inst.lot, target, budget, base) == Ready)
            && (best.Some? ==>
                && base <= best.value <= top && Assess(inst.lot, target, budget, best.value) == Ready
                && (exists s: nat :: StepPrice(base, s, inst.tick) == best.value)
                && (forall s: nat :: best.value < StepPrice(base, s, inst.tick) <= top ==>
                      Assess(inst.lot, target, budget, StepPrice(base, s, inst.tick)) != Ready))
  {
    hide Assess, StepPrice, PriceCeiling, Trunc;
    var base, top := quote.ask + 2.0 * inst.tick, PriceCeiling(inst, quote);
    if top < base || (inst.lower.Some? && inst.lower.value != 0.0 && base < inst.lower.value) {
      return None;
    }
    if target <= 0.0 || Assess(inst.lot, target, budget, base) != Ready {
      return None;
    }
    var hi := Trunc((top - base) / inst.tick);
    TickSpan(base, top, inst.tick, hi);
    var lo, high, found := 0, hi, 0;
    StepZero(base, inst.tick);
    while lo <= high
      invariant 0 <= found <= hi && -1 <= high <= hi
      invariant lo == found + 1 || lo == found == 0
      invariant lo <= high + 1
      invariant Assess(inst.lot, target, budget, StepPrice(base, found, inst.tick)) == Ready
      invariant forall s: nat :: high < s <= hi ==> Assess(inst.lot, target, budget, StepPrice(base, s, inst.tick)) != Ready
    {
      var step := (lo + high) / 2;
      if Assess(inst.lot, target, budget, StepPrice(base, step, inst.tick)) == Ready {
        found := step;
        lo := step + 1;
      } else {
        StepsOrdered(base, 0, step, inst.tick);
        forall s: nat | step <= s <= hi
          ensures Assess(inst.lot, target, budget, StepPrice(base, s, inst.tick)) != Ready
        {
          if Assess(inst.lot, target, budget, StepPrice(base, s, inst.tick)) == Ready {
            StepsOrdered(base, step, s, inst.tick);
            ReadyDownwards(inst.lot, target, budget, StepPrice(base, step, inst.tick), StepPrice(base, s, inst.tick));
          }
        }
        high := step - 1;
      }
    }
    StepsOrdered(base, 0, found, inst.tick);
    StepsOrdered(base, found, hi, inst.tick);
    best := Some(StepPrice(base, found, inst.tick));
    forall s: nat | best.value < StepPrice(base, s, inst.tick) <= top
      ensures Assess(inst.lot, target, budget, StepPrice(base, s, inst.tick)) != Ready
    {
      if s <= found {
        StepsOrdered(base, s, found, inst.tick);
      }
      if s > hi {
        StepsOrdered(base, hi + 1, s, inst.tick);
      }
    }
  }

  /** The prices tried are the ask and so many ticks. */
  lemma StepsFromAsk(ask: real, tick: real, s: nat)
    ensures StepPrice(ask + 2.0 * tick, s, tick) == ask + (s + 2) as real * tick
  {}

  lemma StepZero(base: real, tick: real)
    ensures StepPrice(base, 0, tick) == base
  {}

  lemma StepsOrdered(base: real, i: nat, j: nat, tick: real)
    requires tick > 0.0 && i <= j
    ensures StepPrice(base, i, tick) <= StepPrice(base, j, tick)
  {
    assert i as real * tick <= j as real * tick;
  }

  lemma TickSpan(base: real, top: real, tick: real, hi: int)
    requires tick > 0.0 && base <= top && hi == Trunc((top - base) / tick)
    ensures hi >= 0 && StepPrice(base, hi, tick) <= top < StepPrice(base, hi + 1, tick)
  {
    var span := (top - base) / tick;
    assert span * tick == top - base;
    RatioAtLeastZero(top - base, tick);
    assert hi as real <= span < hi as real + 1.0;
    Scaled(hi as real, span, tick);
    StepAbove(base, top, span, hi + 1, tick);
  }

  lemma Scaled(x: real, y: real, tick: real)
    requires x <= y && tick > 0.0
    ensures x * tick <= y * tick
  {}

  lemma StepAbove(base: real, top: real, span: real, k: nat, tick: real)
    requires span < k as real && tick > 0.0 && span * tick == top - base
    ensures top < StepPrice(base, k, tick)
  {
    assert (k as real - span) * tick > 0.0;
  }

  lemma RatioAtLeastZero(x: real, tick: real)
    requires x >= 0.0 && tick > 0.0
    ensures x / tick >= 0.0
  {}
}
