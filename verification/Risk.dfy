/** Entry cash, the lifecycle ceiling and allocations (risk.py). */
module Risk {
  import opened Wrappers
  import opened Fees

  datatype Level = Level(price: real, quantity: nat)

  /** A contract with positive prices, whole lots and a freeze quantity of at least one lot. */
  datatype Instrument = Instrument(lot: int, freeze: int, tick: real, lower: Option<real>, upper: Option<real>) {
    predicate Valid() { lot > 0 && freeze >= lot && tick > 0.0 }

    /** The largest whole-lot child the exchange accepts. */
    function Child(): (c: int)
      requires Valid()
      ensures c >= lot && c <= freeze
    {
      assert freeze / lot >= 1;
      WholeLots(freeze, lot);
      freeze / lot * lot
    }
  }

  /** The largest whole number of lots within the freeze quantity. */
  lemma ChildIsLargest(inst: Instrument, lots: int)
    requires inst.Valid()
    ensures inst.Child() % inst.lot == 0
    ensures lots * inst.lot <= inst.freeze ==> lots * inst.lot <= inst.Child()
  {
    var q := inst.freeze / inst.lot;
    WholeLots(inst.freeze, inst.lot);
    assert inst.Child() == q * inst.lot;
    MultipleOf(q, inst.lot);
    if lots > q {
      assert lots * inst.lot >= (q + 1) * inst.lot;
    }
    if lots <= q {
      assert lots * inst.lot <= q * inst.lot;
    }
  }

  lemma MultipleOf(q: int, lot: int)
    requires lot > 0
    ensures q * lot % lot == 0
  {
    var r := q * lot % lot;
    var d := q - q * lot / lot;
    assert r == lot * d;
    LessThanOne(lot, d);
    assert d >= 0;
  }

  lemma WholeLots(q: int, lot: int)
    requires lot > 0
    ensures q / lot * lot <= q < q / lot * lot + lot
    ensures q >= lot ==> q / lot * lot >= lot
  {}

  function Max(a: real, b: real): real { if a >= b then a else b }

  function Min(a: real, b: real): real { if a <= b then a else b }

  /** Conversion of a decimal to an integer drops the fraction, towards zero. */
  function Trunc(x: real): int { if x >= 0.0 then x.Floor else -((-x).Floor) }

  /** The operator's capital rule for one lifecycle. */
  function LifecycleCeiling(bankroll: real): (c: real)
    ensures 0.0 <= c
    ensures bankroll > 0.0 ==> c <= bankroll
    ensures bankroll <= 0.0 ==> c == 0.0
    ensures 0.0 < bankroll < 40000.0 ==> c <= 10000.0
    ensures bankroll >= 40000.0 ==> c <= bankroll / 4.0 < c + 0.01
  {
    if bankroll <= 0.0 then 0.0
    else if bankroll < 40000.0 then Min(bankroll, 10000.0)
    else FloorPaise(bankroll * 0.25)
  }

  /** Nothing the rule allows is withheld: everything up to 10 000 within a smaller bankroll, every paisa of a quarter. */
  lemma CeilingIsLargest(bankroll: real, x: real)
    ensures 0.0 < bankroll < 40000.0 && x <= bankroll && x <= 10000.0 ==> x <= LifecycleCeiling(bankroll)
    ensures bankroll >= 40000.0 ==> WholePaise(LifecycleCeiling(bankroll))
    ensures bankroll >= 40000.0 && WholePaise(x) && x <= bankroll / 4.0 ==> x <= LifecycleCeiling(bankroll)
  {
    if bankroll >= 40000.0 {
      RoundedWhole(bankroll * 0.25);
      if WholePaise(x) {
        RoundingIsTight(bankroll * 0.25, x);
      }
    }
  }

  lemma CeilingMonotone(a: real, b: real)
    requires a <= b
    ensures LifecycleCeiling(a) <= LifecycleCeiling(b)
  {
    if b >= 40000.0 {
      assert FloorPaise(40000.0 * 0.25) == 10000.0;
      FloorPaiseMonotone(40000.0 * 0.25, b * 0.25);
      if a >= 40000.0 {
        FloorPaiseMonotone(a * 0.25, b * 0.25);
      }
    }
  }

  lemma FloorPaiseMonotone(x: real, y: real)
    requires x <= y
    ensures FloorPaise(x) <= FloorPaise(y)
  {
    assert (x * 100.0).Floor <= (y * 100.0).Floor;
  }

  function Turnover(quantity: int, price: real): real { quantity as real * price }

  /** Premium plus the whole buy envelope; the source refuses inputs that are not positive. */
  function EntryCash(quantity: int, limit: real, children: int): real {
    Turnover(quantity, limit) + Buy(Turnover(quantity, limit), children)
  }

  /** What an entry may cost: the premium, 20 a child and the rates with 18% on top, stamp duty, and the roundings. */
  lemma EntryCashWithinQuanta(quantity: int, limit: real, children: int)
    requires children >= 1
    ensures var premium := quantity as real * limit;
            var least := premium + (20.0 * children as real + premium * (0.000355299 + 0.000001 + 0.000000001)) * 1.18 + premium * 0.00003;
            least <= EntryCash(quantity, limit, children) <= least + children as real * (0.03 * 1.18 + 0.01 + 1.0)
  {
    EnvelopeWithinQuanta(Turnover(quantity, limit), children);
  }

  function ReserveCash(value: real): real { CeilPaise(value) }

  /** The reservation is the least whole number of paise that covers the cash. */
  lemma ReserveIsLeast(value: real, other: real)
    ensures WholePaise(ReserveCash(value)) && value <= ReserveCash(value)
    ensures WholePaise(other) && value <= other ==> ReserveCash(value) <= other
  {
    RoundedWhole(value);
    if WholePaise(other) {
      RoundingIsTight(value, other);
    }
  }

  datatype Allocation = Allocation(bankroll: real, ceiling: real, remaining: real, spendable: real, cap: Option<real>) {
    predicate Permits(cash: real) {
      && cash > 0.0
      && cash <= remaining
      && cash <= spendable
      && (cap.Some? ==> cash <= cap.value)
    }
  }

  function StartAllocation(bankroll: real, spendable: real, consumed: real, reserved: real, cap: Option<real>): Allocation {
    var ceiling := LifecycleCeiling(bankroll);
    Allocation(bankroll, ceiling, Max(0.0, ceiling - consumed - reserved), Max(0.0, spendable), cap)
  }

  /** A positive amount is permitted exactly when it fits what the ceiling leaves, the cash and the cap. */
  lemma PermitsIff(bankroll: real, spendable: real, consumed: real, reserved: real, cap: Option<real>, cash: real)
    ensures StartAllocation(bankroll, spendable, consumed, reserved, cap).Permits(cash) <==>
            && cash > 0.0 && consumed + reserved + cash <= LifecycleCeiling(bankroll)
            && cash <= spendable && (cap.Some? ==> cash <= cap.value)
  {}

  /** What a permit means for the totals: both the ceiling and the cap have room for the whole reservation. */
  lemma PermitLeavesRoom(bankroll: real, spendable: real, consumed: real, reserved: real, cap: Option<real>, cash: real)
    requires StartAllocation(bankroll, spendable, consumed, reserved, cap).Permits(cash)
    ensures consumed + reserved + cash <= LifecycleCeiling(bankroll)
    ensures cash <= spendable
    ensures cap.Some? ==> cash <= cap.value
  {}

  /** Displayed quantity at or below a limit. */
  function Displayed(asks: seq<Level>, limit: real): nat {
    if asks == [] then 0
    else (if asks[0].price <= limit then asks[0].quantity else 0) + Displayed(asks[1..], limit)
  }

  /** Levels at or under the limit count whole, others not at all. */
  lemma {:induction false} DisplayedCounts(asks: seq<Level>, limit: real, k: nat)
    requires k < |asks|
    ensures Displayed(asks, limit)
         == Displayed(asks[..k] + asks[k + 1..], limit) + if asks[k].price <= limit then asks[k].quantity else 0
    ensures Displayed([], limit) == 0
  {
    var rest := asks[..k] + asks[k + 1..];
    if k == 0 {
      assert rest == asks[1..];
    } else {
      DisplayedCounts(asks[1..], limit, k - 1);
      assert rest[1..] == asks[1..][..k - 1] + asks[1..][k..];
    }
  }

  function LadderCapacity(asks: seq<Level>, limit: real, lot: int): int
    requires lot > 0
  {
    Displayed(asks, limit) / lot * lot
  }

  /** The most whole lots that the displayed quantity holds. */
  lemma CapacityIsLargest(asks: seq<Level>, limit: real, lot: int)
    requires lot > 0
    ensures var capacity := LadderCapacity(asks, limit, lot);
            capacity % lot == 0 && 0 <= capacity <= Displayed(asks, limit) < capacity + lot
  {
    MultipleOf(Displayed(asks, limit) / lot, lot);
  }

  function Children(quantity: int, child: int): int
    requires child > 0
  {
    (quantity + child - 1) / child
  }

  /** The fewest children of that size that hold the quantity. */
  lemma ChildrenAreFewest(quantity: int, child: int)
    requires child > 0
    ensures (Children(quantity, child) - 1) * child < quantity <= Children(quantity, child) * child
  {
    var n := Children(quantity, child);
    assert child * n <= quantity + child - 1 < child * n + child;
    assert (n - 1) * child == n * child - child;
  }

  lemma ChildrenMonotone(p: int, q: int, child: int)
    requires child > 0 && p <= q
    ensures Children(p, child) <= Children(q, child)
    ensures q >= 1 ==> Children(q, child) >= 1
  {
    DivMonotone(p + child - 1, q + child - 1, child);
    if q >= 1 {
      DivMonotone(child, q + child - 1, child);
    }
  }

  lemma DivMonotone(a: int, b: int, d: int)
    requires d > 0 && a <= b
    ensures a / d <= b / d
  {
    var k := a / d - b / d;
    assert d * (a / d) <= a && b < d * (b / d) + d;
    assert d * k == d * (a / d) - d * (b / d);
    LessThanOne(d, k);
  }

  lemma LessThanOne(d: int, k: int)
    requires d > 0 && d * k < d
    ensures k <= 0
  {}

  /** Entry cash grows with price, quantity and children. */
  lemma EntryCashMonotone(p: int, q: int, a: real, b: real, m: int, n: int)
    requires 0 <= p <= q && 0.0 <= a <= b && m <= n
    ensures EntryCash(p, a, m) <= EntryCash(q, b, n)
  {
    hide Buy, Turnover;
    TurnoverMonotone(p, q, a, b);
    FeesMonotone(Turnover(p, a), Turnover(q, b), m, n);
  }

  lemma TurnoverMonotone(p: int, q: int, a: real, b: real)
    requires 0 <= p <= q && 0.0 <= a <= b
    ensures 0.0 <= Turnover(p, a) <= Turnover(q, b)
  {
    assert p as real * a <= p as real * b;
    assert p as real * b <= q as real * b;
  }
}
