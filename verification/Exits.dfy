/** Sales over finite bid depth (exits.py) and the ask depth that entries may still use (engine.py). */
module Exits {
  import opened Risk

  // ---------- Selling into the bids ----------

  datatype Slice = Slice(units: nat, price: real)

  function Depth(levels: seq<Level>): nat {
    if levels == [] then 0 else levels[0].quantity + Depth(levels[1..])
  }

  /** Takes each level as far as needed, best first, and skips empty levels. */
  function Sale(bids: seq<Level>, quantity: int): seq<Slice> {
    if quantity <= 0 || bids == [] then []
    else
      var units := if quantity < bids[0].quantity then quantity else bids[0].quantity;
      (if units > 0 then [Slice(units, bids[0].price)] else []) + Sale(bids[1..], quantity - units)
  }

  function Sold(slices: seq<Slice>): nat {
    if slices == [] then 0 else slices[0].units + Sold(slices[1..])
  }

  function Proceeds(slices: seq<Slice>): real {
    if slices == [] then 0.0 else Turnover(slices[0].units, slices[0].price) + Proceeds(slices[1..])
  }

  method ExecutableSaleUnits(bids: seq<Level>, quantity: int) returns (slices: seq<Slice>)
    ensures slices == Sale(bids, quantity)
  {
    if quantity <= 0 {
      return [];
    }
    var remaining := quantity;
    slices := [];
    for k := 0 to |bids|
      invariant 0 <= remaining
      invariant Sale(bids, quantity) == slices + Sale(bids[k..], remaining)
    {
      if remaining <= 0 {
        return;
      }
      assert bids[k..][1..] == bids[k + 1..];
      var units := if remaining < bids[k].quantity then remaining else bids[k].quantity;
      if units > 0 {
        slices := slices + [Slice(units, bids[k].price)];
        remaining := remaining - units;
      }
    }
  }

  /** Exactly the lesser of the quantity and the depth is sold, never more at a level than it shows. */
  lemma {:induction false} SellsWhatDepthAllows(bids: seq<Level>, quantity: nat)
    ensures Sold(Sale(bids, quantity)) == if quantity < Depth(bids) then quantity else Depth(bids)
    ensures |Sale(bids, quantity)| <= |bids|
    ensures forall s :: s in Sale(bids, quantity) ==> s.units > 0
  {
    if bids != [] && quantity > 0 {
      var units := if quantity < bids[0].quantity then quantity else bids[0].quantity;
      SellsWhatDepthAllows(bids[1..], quantity - units);
      var rest := Sale(bids[1..], quantity - units);
      assert ([Slice(units, bids[0].price)] + rest)[1..] == rest;
      assert [] + rest == rest;
    }
  }

  /** A way to sell: so many units at each level. */
  predicate Feasible(plan: seq<nat>, bids: seq<Level>) {
    |plan| == |bids| && forall k :: 0 <= k < |bids| ==> plan[k] <= bids[k].quantity
  }

  function PlanUnits(plan: seq<nat>): nat {
    if plan == [] then 0 else plan[0] + PlanUnits(plan[1..])
  }

  function PlanCash(plan: seq<nat>, bids: seq<Level>): real
    requires |plan| == |bids|
  {
    if plan == [] then 0.0 else Turnover(plan[0], bids[0].price) + PlanCash(plan[1..], bids[1..])
  }

  predicate Descending(bids: seq<Level>) {
    && (forall j, k :: 0 <= j < k < |bids| ==> bids[k].price <= bids[j].price)
    && (forall k :: 0 <= k < |bids| ==> bids[k].price >= 0.0)
  }

  /** Cash of a sale taken one level off the ladder. */
  lemma SaleStep(bids: seq<Level>, n: nat)
    requires bids != []
    ensures var units := if n < bids[0].quantity then n else bids[0].quantity;
            Proceeds(Sale(bids, n)) == Turnover(units, bids[0].price) + Proceeds(Sale(bids[1..], n - units))
  {
    var units := if n < bids[0].quantity then n else bids[0].quantity;
    var rest := Sale(bids[1..], n - units);
    NothingTurned(bids[0].price);
    assert ([Slice(units, bids[0].price)] + rest)[1..] == rest;
    assert [] + rest == rest;
  }

  lemma NothingTurned(price: real)
    ensures Turnover(0, price) == 0.0
  {}

  lemma TurnoverSplits(a: int, b: int, price: real)
    ensures Turnover(a + b, price) == Turnover(a, price) + Turnover(b, price)
  {}

  /** Selling more adds something, but never more than the best remaining price for each extra unit. */
  lemma {:induction false} ExtraUnits(bids: seq<Level>, n: nat, m: nat, top: real)
    requires Descending(bids) && n <= m && 0.0 <= top && forall k :: 0 <= k < |bids| ==> bids[k].price <= top
    ensures Proceeds(Sale(bids, n)) <= Proceeds(Sale(bids, m)) <= Proceeds(Sale(bids, n)) + Turnover(m - n, top)
  {
    hide Turnover;
    if bids == [] {
      TurnoverMonotone(m - n, m - n, top, top);
    } else {
      hide Sale, Proceeds, Descending;
      DescendingTail(bids);
      var price, q := bids[0].price, bids[0].quantity;
      var u, v := if n < q then n else q, if m < q then m else q;
      ExtraUnits(bids[1..], n - u, m - v, top);
      SaleStep(bids, n);
      SaleStep(bids, m);
      TurnoverSplits(u, v - u, price);
      TurnoverSplits(v - u, (m - v) - (n - u), top);
      TurnoverMonotone(v - u, v - u, price, top);
    }
  }

  lemma DescendingTail(bids: seq<Level>)
    requires Descending(bids) && bids != []
    ensures Descending(bids[1..]) && bids[0].price >= 0.0
    ensures forall k :: 0 <= k < |bids[1..]| ==> bids[1..][k].price <= bids[0].price
  {}

  /** On a descending ladder no plan that sells as many units or fewer brings in more. */
  lemma {:induction false} SaleIsBest(bids: seq<Level>, plan: seq<nat>, quantity: nat)
    requires Descending(bids) && Feasible(plan, bids) && PlanUnits(plan) <= quantity
    ensures PlanCash(plan, bids) <= Proceeds(Sale(bids, quantity))
  {
    hide Turnover, Sale, Proceeds, Descending;
    if bids == [] {
      NothingSold(quantity);
    } else {
      DescendingTail(bids);
      var price, x := bids[0].price, plan[0];
      var u := if quantity < bids[0].quantity then quantity else bids[0].quantity;
      SaleIsBest(bids[1..], plan[1..], quantity - x);
      ExtraUnits(bids[1..], quantity - u, quantity - x, price);
      SaleStep(bids, quantity);
      TurnoverSplits(x, u - x, price);
    }
  }

  /** The slices are what the plan takes, level by level at each level's price, leaving out levels it takes nothing of. */
  predicate SlicesAre(slices: seq<Slice>, plan: seq<nat>, bids: seq<Level>)
    requires |plan| == |bids|
  {
    if plan == [] then slices == []
    else if plan[0] == 0 then SlicesAre(slices, plan[1..], bids[1..])
    else slices != [] && slices[0] == Slice(plan[0], bids[0].price) && SlicesAre(slices[1..], plan[1..], bids[1..])
  }

  /** No level gives anything before all earlier ones are exhausted. */
  predicate BestFirst(plan: seq<nat>, bids: seq<Level>)
    requires |plan| == |bids|
  {
    forall j, k :: 0 <= j < k < |plan| && plan[k] > 0 ==> plan[j] == bids[j].quantity
  }

  /** What is sold is a way to sell: slices of the levels' own quantities and prices, best first. */
  lemma {:induction false} SaleIsAPlan(bids: seq<Level>, quantity: nat) returns (plan: seq<nat>)
    ensures Feasible(plan, bids) && SlicesAre(Sale(bids, quantity), plan, bids) && BestFirst(plan, bids)
    ensures PlanUnits(plan) == Sold(Sale(bids, quantity)) && PlanUnits(plan) <= quantity
    ensures PlanCash(plan, bids) == Proceeds(Sale(bids, quantity))
  {
    SellsWhatDepthAllows(bids, quantity);
    if bids == [] {
      plan := [];
    } else {
      var units := if quantity < bids[0].quantity then quantity else bids[0].quantity;
      SellsWhatDepthAllows(bids[1..], quantity - units);
      var rest := SaleIsAPlan(bids[1..], quantity - units);
      plan := [units] + rest;
      assert plan[1..] == rest;
      SaleSplits(bids, quantity);
      hide Sale, Proceeds, Turnover;
      SaleStep(bids, quantity);
      if units < bids[0].quantity {
        NoUnits(rest);
      }
      FirstThenRest(bids, units, rest);
    }
  }

  lemma FirstThenRest(bids: seq<Level>, units: nat, rest: seq<nat>)
    requires bids != [] && Feasible(rest, bids[1..]) && BestFirst(rest, bids[1..]) && units <= bids[0].quantity
    requires units < bids[0].quantity ==> forall k :: 0 <= k < |rest| ==> rest[k] == 0
    ensures Feasible([units] + rest, bids) && BestFirst([units] + rest, bids)
  {}

  lemma SaleSplits(bids: seq<Level>, n: nat)
    requires bids != []
    ensures var units := if n < bids[0].quantity then n else bids[0].quantity;
            var rest := Sale(bids[1..], n - units);
            if units > 0 then Sale(bids, n) != [] && Sale(bids, n)[0] == Slice(units, bids[0].price) && Sale(bids, n)[1..] == rest
            else Sale(bids, n) == rest
  {
    var units := if n < bids[0].quantity then n else bids[0].quantity;
    assert [] + Sale(bids[1..], n - units) == Sale(bids[1..], n - units);
  }

  lemma {:induction false} NoUnits(plan: seq<nat>)
    requires PlanUnits(plan) == 0
    ensures forall k :: 0 <= k < |plan| ==> plan[k] == 0
  {
    if plan != [] {
      NoUnits(plan[1..]);
    }
  }

  lemma NothingSold(quantity: nat)
    ensures Proceeds(Sale([], quantity)) == 0.0
  {}

  // ---------- Buying from asks not yet spoken for ----------

  /** The ladder left once `used` units have been taken from its front. */
  function Residual(asks: seq<Level>, used: nat): seq<Level> {
    if asks == [] then []
    else
      var taken := if used < asks[0].quantity then used else asks[0].quantity;
      (if asks[0].quantity > taken then [Level(asks[0].price, asks[0].quantity - taken)] else [])
      + Residual(asks[1..], used - taken)
  }

  predicate Ascending(asks: seq<Level>) {
    forall j, k :: 0 <= j < k < |asks| ==> asks[j].price <= asks[k].price
  }

  lemma {:induction false} DisplayedWithin(asks: seq<Level>, limit: real)
    ensures Displayed(asks, limit) <= Depth(asks)
  {
    if asks != [] {
      DisplayedWithin(asks[1..], limit);
    }
  }

  /** Whatever the order of the levels, what was used is gone from the ladder. */
  lemma {:induction false} ResidualDepth(asks: seq<Level>, used: nat)
    ensures Depth(Residual(asks, used)) == if used < Depth(asks) then Depth(asks) - used else 0
  {
    if asks != [] {
      var taken := if used < asks[0].quantity then used else asks[0].quantity;
      ResidualDepth(asks[1..], used - taken);
      var rest := Residual(asks[1..], used - taken);
      assert ([Level(asks[0].price, asks[0].quantity - taken)] + rest)[1..] == rest;
      assert [] + rest == rest;
    }
  }

  lemma {:induction false} NothingDisplayed(asks: seq<Level>, limit: real)
    requires forall k :: 0 <= k < |asks| ==> asks[k].price > limit
    ensures Displayed(asks, limit) == 0
  {
    if asks != [] {
      NothingDisplayed(asks[1..], limit);
    }
  }

  /** On an ascending ladder, used units count against every limit they could have been bought under. */
  lemma {:induction false} ResidualDisplayed(asks: seq<Level>, used: nat, limit: real)
    requires Ascending(asks)
    ensures Displayed(Residual(asks, used), limit) ==
            if used < Displayed(asks, limit) then Displayed(asks, limit) - used else 0
  {
    if asks != [] {
      var taken := if used < asks[0].quantity then used else asks[0].quantity;
      ResidualDisplayed(asks[1..], used - taken, limit);
      var rest := Residual(asks[1..], used - taken);
      assert ([Level(asks[0].price, asks[0].quantity - taken)] + rest)[1..] == rest;
      assert [] + rest == rest;
      if asks[0].price > limit {
        NothingDisplayed(asks[1..], limit);
      }
    }
  }

  /** One recorded entry: which book it was sized on, under which limit, for how many units. */
  datatype Debit = Debit(book: nat, limit: real, quantity: nat)

  function Used(debits: seq<Debit>, book: nat): nat {
    if debits == [] then 0
    else Used(debits[..|debits| - 1], book)
         + if debits[|debits| - 1].book == book then debits[|debits| - 1].quantity else 0
  }

  /** The engine sizes an entry in whole lots on the residual ladder of its book. */
  predicate SizedOn(asks: seq<Level>, before: seq<Debit>, d: Debit, lot: int)
    requires lot > 0
  {
    0 < d.quantity <= LadderCapacity(Residual(asks, Used(before, d.book)), d.limit, lot)
  }

  ghost predicate AllSized(ladder: nat -> seq<Level>, debits: seq<Debit>, lot: int)
    requires lot > 0
  {
    forall k :: 0 <= k < |debits| ==> SizedOn(ladder(debits[k].book), debits[..k], debits[k], lot)
  }

  /** Over any entries, what was debited to a book never exceeds what that book displayed. */
  lemma {:induction false} DepthConserved(ladder: nat -> seq<Level>, debits: seq<Debit>, lot: int, book: nat)
    requires lot > 0 && AllSized(ladder, debits, lot)
    ensures Used(debits, book) <= Depth(ladder(book))
  {
    if debits != [] {
      var init, d := debits[..|debits| - 1], debits[|debits| - 1];
      forall k | 0 <= k < |init|
        ensures SizedOn(ladder(init[k].book), init[..k], init[k], lot)
      {
        assert init[..k] == debits[..k];
      }
      DepthConserved(ladder, init, lot, book);
      assert SizedOn(ladder(d.book), debits[..|debits| - 1], d, lot);
      ResidualDepth(ladder(d.book), Used(init, d.book));
      DisplayedWithin(Residual(ladder(d.book), Used(init, d.book)), d.limit);
      WholeLots(Displayed(Residual(ladder(d.book), Used(init, d.book)), d.limit), lot);
    }
  }

  /** On ascending asks each entry is even covered by what its book shows at or below that entry's own limit. */
  lemma CoveredAtOwnLimit(asks: seq<Level>, before: seq<Debit>, d: Debit, lot: int)
    requires lot > 0 && Ascending(asks) && SizedOn(asks, before, d, lot)
    ensures Used(before, d.book) + d.quantity <= Displayed(asks, d.limit)
  {
    ResidualDisplayed(asks, Used(before, d.book), d.limit);
    WholeLots(Displayed(Residual(asks, Used(before, d.book)), d.limit), lot);
  }

  /**
   Before any entry everything displayed may be bought; each entry takes its own quantity, from its own book only,
   off what may still be bought there under any limit.
   */
  lemma EntryTakesItsQuantity(asks: seq<Level>, before: seq<Debit>, d: Debit, book: nat, limit: real)
    requires Ascending(asks)
    ensures Displayed(Residual(asks, Used([], book)), limit) == Displayed(asks, limit)
    ensures var was := Displayed(Residual(asks, Used(before, book)), limit);
            Displayed(Residual(asks, Used(before + [d], book)), limit) ==
              if d.book != book then was else if was < d.quantity then 0 else was - d.quantity
  {
    hide Residual, Displayed;
    assert (before + [d])[..|before|] == before;
    ResidualDisplayed(asks, 0, limit);
    ResidualDisplayed(asks, Used(before, book), limit);
    ResidualDisplayed(asks, Used(before + [d], book), limit);
  }

  class DepthDebits {
    var rows: seq<Debit>

    constructor ()
      ensures rows == []
    {
      rows := [];
    }

    method UsedOf(book: nat) returns (n: nat)
      ensures n == Used(rows, book)
    {
      n := 0;
      for k := 0 to |rows|
        invariant n == Used(rows[..k], book)
      {
        assert rows[..k + 1][..k] == rows[..k];
        if rows[k].book == book {
          n := n + rows[k].quantity;
        }
      }
      assert rows[..|rows|] == rows;
    }

    /** The asks an entry may be sized on. */
    method Remaining(book: nat, asks: seq<Level>) returns (left: seq<Level>)
      ensures left == Residual(asks, Used(rows, book))
    {
      hide Residual, Used;
      var all := UsedOf(book);
      var used := all;
      left := [];
      assert asks[0..] == asks;
      for k := 0 to |asks|
        invariant 0 <= used
        invariant Residual(asks, all) == left + Residual(asks[k..], used)
      {
        ResidualStep(asks, k, used);
        var taken := if used < asks[k].quantity then used else asks[k].quantity;
        used := used - taken;
        if asks[k].quantity > taken {
          left := left + [Level(asks[k].price, asks[k].quantity - taken)];
        }
      }
      ResidualStep(asks, |asks|, used);
    }

    lemma ResidualStep(asks: seq<Level>, k: nat, used: nat)
      requires k <= |asks|
      ensures k == |asks| ==> Residual(asks[k..], used) == []
      ensures k < |asks| ==>
                var taken := if used < asks[k].quantity then used else asks[k].quantity;
                var rest := Residual(asks[k + 1..], used - taken);
                if asks[k].quantity > taken
                then forall left: seq<Level> ::
                       left + Residual(asks[k..], used) == left + [Level(asks[k].price, asks[k].quantity - taken)] + rest
                else Residual(asks[k..], used) == rest
    {
      if k < |asks| {
        assert asks[k..][1..] == asks[k + 1..];
      }
    }

    method Record(d: Debit)
      modifies this
      ensures rows == old(rows) + [d]
    {
      rows := rows + [d];
    }
  }
}
