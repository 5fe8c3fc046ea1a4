/** The fee envelope of risk.py: rounded-up charges per child order. */
module Fees {

  const BROKERAGE: real := 20.0
  const EXCHANGE_RATE: real := 0.000355299
  const SEBI_RATE: real := 0.000001
  const IPFT_RATE: real := 0.000000001
  const STAMP_RATE: real := 0.00003
  const STT_RATE: real := 0.0015
  const GST_RATE: real := 0.18

  function Ceil(x: real): (n: int)
    ensures n as real - 1.0 < x <= n as real
  {
    -((-x).Floor)
  }

  /** Rounding up to the paisa. */
  function CeilPaise(x: real): (r: real)
    ensures x <= r < x + 0.01
  {
    Ceil(x * 100.0) as real / 100.0
  }

  function CeilRupee(x: real): (r: real)
    ensures x <= r < x + 1.0
  {
    Ceil(x) as real
  }

  function FloorPaise(x: real): (r: real)
    ensures r <= x < r + 0.01
  {
    (x * 100.0).Floor as real / 100.0
  }

  /** One component charged in paise: rounded up once, plus a paisa for each further child. */
  function UpperPaise(value: real, children: int): real {
    CeilPaise(value) + (children - 1) as real * 0.01
  }

  /** One component charged in whole rupees. */
  function UpperRupee(value: real, children: int): real {
    CeilRupee(value) + (children - 1) as real
  }

  /** Brokerage and the exchange-side charges, before tax. */
  function Base(turnover: real, children: int): real {
    BROKERAGE * children as real
    + UpperPaise(turnover * EXCHANGE_RATE, children)
    + UpperPaise(turnover * SEBI_RATE, children)
    + UpperPaise(turnover * IPFT_RATE, children)
  }

  function Common(turnover: real, children: int): real {
    Base(turnover, children) + UpperPaise(Base(turnover, children) * GST_RATE, children)
  }

  function Buy(turnover: real, children: int): real {
    Common(turnover, children) + UpperRupee(turnover * STAMP_RATE, children)
  }

  function Sell(turnover: real, children: int): real {
    Common(turnover, children) + UpperRupee(turnover * STT_RATE, children)
  }

  // ---------- What the envelope comes to ----------

  predicate WholePaise(x: real) { (x * 100.0).Floor as real == x * 100.0 }

  predicate WholeRupees(x: real) { x.Floor as real == x }

  /** Every component is rounded, not merely bounded. */
  lemma RoundedWhole(x: real)
    ensures WholePaise(CeilPaise(x)) && WholePaise(FloorPaise(x)) && WholeRupees(CeilRupee(x))
  {
    assert CeilPaise(x) * 100.0 == Ceil(x * 100.0) as real;
    assert FloorPaise(x) * 100.0 == (x * 100.0).Floor as real;
  }

  /** A whole number of paise that bounds x bounds x rounded. */
  lemma RoundingIsTight(x: real, y: real)
    requires WholePaise(y)
    ensures x <= y ==> CeilPaise(x) <= y
    ensures y <= x ==> y <= FloorPaise(x)
  {
    var n := (y * 100.0).Floor;
    assert y * 100.0 == n as real;
    if x <= y {
      assert Ceil(x * 100.0) as real - 1.0 < n as real;
      assert Ceil(x * 100.0) <= n;
    }
    if y <= x {
      assert n <= (x * 100.0).Floor;
    }
  }

  /** The schedule before rounding: 20 a child and the exchange-side rates, 18% on top, and the duty on the turnover. */
  lemma EnvelopeWithinQuanta(turnover: real, children: int)
    requires children >= 1
    ensures var charged := (20.0 * children as real + turnover * (0.000355299 + 0.000001 + 0.000000001)) * 1.18;
            var quanta := children as real * (0.03 * 1.18 + 0.01 + 1.0);
            && charged + turnover * 0.00003 <= Buy(turnover, children) <= charged + turnover * 0.00003 + quanta
            && charged + turnover * 0.0015 <= Sell(turnover, children) <= charged + turnover * 0.0015 + quanta
  {
    var n := children as real;
    UpperWithin(turnover * EXCHANGE_RATE, children);
    UpperWithin(turnover * SEBI_RATE, children);
    UpperWithin(turnover * IPFT_RATE, children);
    UpperWithin(Base(turnover, children) * GST_RATE, children);
    UpperWithin(turnover * STAMP_RATE, children);
    UpperWithin(turnover * STT_RATE, children);
    var plain := 20.0 * n + turnover * (0.000355299 + 0.000001 + 0.000000001);
    assert turnover * EXCHANGE_RATE + turnover * SEBI_RATE + turnover * IPFT_RATE
        == turnover * (0.000355299 + 0.000001 + 0.000000001);
    assert plain <= Base(turnover, children) <= plain + 0.03 * n;
    assert plain * 1.18 <= Common(turnover, children) <= plain * 1.18 + n * (0.03 * 1.18 + 0.01);
  }

  lemma UpperWithin(x: real, children: int)
    requires children >= 1
    ensures x <= UpperPaise(x, children) <= x + 0.01 * children as real
    ensures x <= UpperRupee(x, children) <= x + children as real
  {}

  // ---------- Rounding facts ----------

  lemma CeilMonotone(x: real, y: real)
    requires x <= y
    ensures Ceil(x) <= Ceil(y)
  {}

  lemma CeilSubadditive(x: real, y: real)
    ensures Ceil(x) + Ceil(y) <= Ceil(x + y) + 1
  {}

  lemma CeilPaiseMonotone(x: real, y: real)
    requires x <= y
    ensures CeilPaise(x) <= CeilPaise(y)
  {
    CeilMonotone(x * 100.0, y * 100.0);
  }

  lemma CeilPaiseSubadditive(x: real, y: real)
    ensures CeilPaise(x) + CeilPaise(y) <= CeilPaise(x + y) + 0.01
  {
    CeilSubadditive(x * 100.0, y * 100.0);
    assert x * 100.0 + y * 100.0 == (x + y) * 100.0;
  }

  /** Merging a one-child order into an n-child envelope never lowers the envelope. */
  lemma UpperPaiseMerge(x: real, y: real, n: int)
    ensures UpperPaise(x, 1) + UpperPaise(y, n) <= UpperPaise(x + y, n + 1)
  {
    CeilPaiseSubadditive(x, y);
  }

  lemma UpperRupeeMerge(x: real, y: real, n: int)
    ensures UpperRupee(x, 1) + UpperRupee(y, n) <= UpperRupee(x + y, n + 1)
  {
    CeilSubadditive(x, y);
  }

  lemma UpperPaiseMonotone(x: real, y: real, m: int, n: int)
    requires x <= y && m <= n
    ensures UpperPaise(x, m) <= UpperPaise(y, n)
  {
    CeilPaiseMonotone(x, y);
  }

  lemma UpperRupeeMonotone(x: real, y: real, m: int, n: int)
    requires x <= y && m <= n
    ensures UpperRupee(x, m) <= UpperRupee(y, n)
  {
    CeilMonotone(x, y);
  }

  // ---------- Monotonicity ----------

  lemma CommonMonotone(s: real, t: real, m: int, n: int)
    requires s <= t && m <= n
    ensures Base(s, m) <= Base(t, n)
    ensures Common(s, m) <= Common(t, n)
  {
    UpperPaiseMonotone(s * EXCHANGE_RATE, t * EXCHANGE_RATE, m, n);
    UpperPaiseMonotone(s * SEBI_RATE, t * SEBI_RATE, m, n);
    UpperPaiseMonotone(s * IPFT_RATE, t * IPFT_RATE, m, n);
    UpperPaiseMonotone(Base(s, m) * GST_RATE, Base(t, n) * GST_RATE, m, n);
  }

  /** Both envelopes grow with turnover and with the number of children. */
  lemma FeesMonotone(s: real, t: real, m: int, n: int)
    requires s <= t && m <= n
    ensures Buy(s, m) <= Buy(t, n)
    ensures Sell(s, m) <= Sell(t, n)
  {
    CommonMonotone(s, t, m, n);
    UpperRupeeMonotone(s * STAMP_RATE, t * STAMP_RATE, m, n);
    UpperRupeeMonotone(s * STT_RATE, t * STT_RATE, m, n);
  }

  lemma FeesPositive(t: real, n: int)
    requires t >= 0.0 && n >= 1
    ensures Buy(t, n) >= 20.0 && Sell(t, n) >= 20.0
  {}

  // ---------- The envelope covers every split ----------

  lemma CommonMerge(x: real, y: real, n: int)
    ensures Base(x, 1) + Base(y, n) <= Base(x + y, n + 1)
    ensures Common(x, 1) + Common(y, n) <= Common(x + y, n + 1)
  {
    UpperPaiseMerge(x * EXCHANGE_RATE, y * EXCHANGE_RATE, n);
    UpperPaiseMerge(x * SEBI_RATE, y * SEBI_RATE, n);
    UpperPaiseMerge(x * IPFT_RATE, y * IPFT_RATE, n);
    assert x * EXCHANGE_RATE + y * EXCHANGE_RATE == (x + y) * EXCHANGE_RATE;
    assert x * SEBI_RATE + y * SEBI_RATE == (x + y) * SEBI_RATE;
    assert x * IPFT_RATE + y * IPFT_RATE == (x + y) * IPFT_RATE;
    var a, b, c := Base(x, 1), Base(y, n), Base(x + y, n + 1);
    assert a + b <= c;
    UpperPaiseMerge(a * GST_RATE, b * GST_RATE, n);
    UpperPaiseMonotone((a + b) * GST_RATE, c * GST_RATE, n + 1, n + 1);
    assert a * GST_RATE + b * GST_RATE == (a + b) * GST_RATE;
  }

  lemma FeesMerge(x: real, y: real, n: int)
    ensures Buy(x, 1) + Buy(y, n) <= Buy(x + y, n + 1)
    ensures Sell(x, 1) + Sell(y, n) <= Sell(x + y, n + 1)
  {
    CommonMerge(x, y, n);
    UpperRupeeMerge(x * STAMP_RATE, y * STAMP_RATE, n);
    UpperRupeeMerge(x * STT_RATE, y * STT_RATE, n);
    assert x * STAMP_RATE + y * STAMP_RATE == (x + y) * STAMP_RATE;
    assert x * STT_RATE + y * STT_RATE == (x + y) * STT_RATE;
  }

  /** What the broker may bill for one executed child, component by component. */
  datatype Invoice = Invoice(brokerage: real, exchange: real, sebi: real, ipft: real, gst: real, duty: real) {
    function Untaxed(): real { brokerage + exchange + sebi + ipft }

    function Total(): real { Untaxed() + gst + duty }
  }

  /** Every component is rounded in any way that does not exceed rounding up. */
  ghost predicate RoundedInvoice(inv: Invoice, turnover: real, dutyRate: real) {
    && inv.brokerage <= BROKERAGE
    && inv.exchange <= CeilPaise(turnover * EXCHANGE_RATE)
    && inv.sebi <= CeilPaise(turnover * SEBI_RATE)
    && inv.ipft <= CeilPaise(turnover * IPFT_RATE)
    && inv.gst <= CeilPaise(inv.Untaxed() * GST_RATE)
    && inv.duty <= CeilRupee(turnover * dutyRate)
  }

  function Sum(xs: seq<real>): real {
    if xs == [] then 0.0 else xs[0] + Sum(xs[1..])
  }

  function Billed(invs: seq<Invoice>): real {
    if invs == [] then 0.0 else invs[0].Total() + Billed(invs[1..])
  }

  lemma InvoiceWithinOneChild(inv: Invoice, t: real)
    ensures RoundedInvoice(inv, t, STAMP_RATE) ==> inv.Total() <= Buy(t, 1)
    ensures RoundedInvoice(inv, t, STT_RATE) ==> inv.Total() <= Sell(t, 1)
  {
    if RoundedInvoice(inv, t, STAMP_RATE) || RoundedInvoice(inv, t, STT_RATE) {
      assert inv.Untaxed() <= Base(t, 1);
      CeilPaiseMonotone(inv.Untaxed() * GST_RATE, Base(t, 1) * GST_RATE);
    }
  }

  /** However a buy turnover is split into children, their invoices stay inside the envelope. */
  lemma {:induction false} BuyEnvelopeCoversSplit(parts: seq<real>, invs: seq<Invoice>)
    requires |parts| == |invs| >= 1
    requires forall i :: 0 <= i < |parts| ==> RoundedInvoice(invs[i], parts[i], STAMP_RATE)
    ensures Billed(invs) <= Buy(Sum(parts), |parts|)
  {
    hide Buy, Sell, RoundedInvoice;
    InvoiceWithinOneChild(invs[0], parts[0]);
    if |parts| == 1 {
      assert parts[1..] == [] && invs[1..] == [];
    } else {
      BuyEnvelopeCoversSplit(parts[1..], invs[1..]);
      FeesMerge(parts[0], Sum(parts[1..]), |parts| - 1);
    }
  }

  lemma {:induction false} SellEnvelopeCoversSplit(parts: seq<real>, invs: seq<Invoice>)
    requires |parts| == |invs| >= 1
    requires forall i :: 0 <= i < |parts| ==> RoundedInvoice(invs[i], parts[i], STT_RATE)
    ensures Billed(invs) <= Sell(Sum(parts), |parts|)
  {
    hide Buy, Sell, RoundedInvoice;
    InvoiceWithinOneChild(invs[0], parts[0]);
    if |parts| == 1 {
      assert parts[1..] == [] && invs[1..] == [];
    } else {
      SellEnvelopeCoversSplit(parts[1..], invs[1..]);
      FeesMerge(parts[0], Sum(parts[1..]), |parts| - 1);
    }
  }
}
