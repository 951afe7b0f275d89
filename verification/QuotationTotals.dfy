// The totals of a quotation: line discounts, a document discount shared over the lines, and GST that
// is added to or contained in the prices. Numbers are exact; Math.round(x) is the floor of x + 1/2.
module QuotationTotals {

  datatype Item = Item(quantity: real, rate: real, discountAmount: real, discountPercent: real, taxRate: real)

  datatype Line = Line(gross: real, discount: real, net: real, taxRate: real)

  datatype Totals = Totals(subtotal: real, lineDiscounts: real, afterLineDiscounts: real, overallDiscount: real,
                           taxable: real, tax: real, grand: real)

  function Max(a: real, b: real): real { if a < b then b else a }
  function Min(a: real, b: real): real { if b < a then b else a }

  // Math.round(x * 100) / 100
  function Round(x: real): real { ((x * 100.0 + 0.5).Floor as real) / 100.0 }

  predicate WholeCents(x: real) { (x * 100.0).Floor as real == x * 100.0 }

  function Total(xs: seq<real>): real { if xs == [] then 0.0 else Total(xs[..|xs| - 1]) + xs[|xs| - 1] }

  function PercentOf(x: real, percent: real): real { x * (percent / 100.0) }

  // The part of a price containing tax that is not the tax.
  function WithoutTax(price: real, taxRate: real): real
    requires taxRate >= 0.0
  {
    price / (1.0 + taxRate / 100.0)
  }

  // ---- One line ----

  function DiscountOf(item: Item, gross: real): real {
    var given := Max(0.0, item.discountAmount);
    var amount := if given == 0.0 &&
      item.discountPercent > 0.0 then Round(PercentOf(gross, item.discountPercent)) else given;
    Min(amount, gross)
  }

  function LineOf(item: Item): Line {
    var gross := Max(0.0, item.quantity) * Max(0.0, item.rate);
    var discount := DiscountOf(item, gross);
    Line(gross, discount, gross - discount, Max(0.0, Min(100.0, item.taxRate)))
  }

  // The line's share of the document discount.
  function Share(line: Line, subtotal: real, overall: real): real {
    if subtotal > 0.0 then line.net / subtotal * overall else 0.0
  }

  function Base(line: Line, subtotal: real, overall: real): real { Max(0.0, line.net - Share(line, subtotal, overall)) }

  function TaxableOf(line: Line, base: real, inclusive: bool): real
    requires line.taxRate >= 0.0
  {
    if inclusive && line.taxRate > 0.0 then Round(WithoutTax(base, line.taxRate)) else base
  }

  function TaxOf(line: Line, base: real, inclusive: bool): real
    requires line.taxRate >= 0.0
  {
    if inclusive && line.taxRate > 0.0 then Round(base - TaxableOf(line, base, inclusive))
    else Round(PercentOf(base, line.taxRate))
  }

  // ---- The whole quotation ----

  function Lines(items: seq<Item>): (lines: seq<Line>)
    ensures |lines| == |items|
    ensures forall i :: 0 <= i < |lines| ==> lines[i].taxRate >= 0.0
  {
    seq(|items|, i requires 0 <= i < |items| => LineOf(items[i]))
  }

  function Grosses(lines: seq<Line>): seq<real> { seq(|lines|, i requires 0 <= i < |lines| => lines[i].gross) }
  function Discounts(lines: seq<Line>): seq<real> { seq(|lines|, i requires 0 <= i < |lines| => lines[i].discount) }
  function Nets(lines: seq<Line>): seq<real> { seq(|lines|, i requires 0 <= i < |lines| => lines[i].net) }

  function Shares(lines: seq<Line>, subtotal: real, overall: real): seq<real> {
    seq(|lines|, i requires 0 <= i < |lines| => Share(lines[i], subtotal, overall))
  }

  function Taxables(lines: seq<Line>, subtotal: real, overall: real, inclusive: bool): seq<real>
    requires forall i :: 0 <= i < |lines| ==> lines[i].taxRate >= 0.0
  {
    seq(|lines|, i requires 0 <= i < |lines| => TaxableOf(lines[i], Base(lines[i], subtotal, overall), inclusive))
  }

  function Taxes(lines: seq<Line>, subtotal: real, overall: real, inclusive: bool): seq<real>
    requires forall i :: 0 <= i < |lines| ==> lines[i].taxRate >= 0.0
  {
    seq(|lines|, i requires 0 <= i < |lines| => TaxOf(lines[i], Base(lines[i], subtotal, overall), inclusive))
  }

  function TotalsOf(items: seq<Item>, overallDiscount: real, inclusive: bool): Totals {
    var lines := Lines(items);
    var subtotal, discounts := Total(Grosses(lines)), Total(Discounts(lines));
    var after := subtotal - discounts;
    var overall := Min(Max(0.0, overallDiscount), after);
    var taxable := Round(Total(Taxables(lines, after, overall, inclusive)));
    var tax := Round(Total(Taxes(lines, after, overall, inclusive)));
    Totals(subtotal, discounts, after, overall, taxable, tax,
           if inclusive then Round(after - overall) else Round(taxable + tax))
  }

  method ProcessLines(items: seq<Item>) returns (processed: seq<Line>, rawSubtotal: real, totalLineDiscounts: real)
    ensures processed == Lines(items)
    ensures rawSubtotal == Total(Grosses(Lines(items))) && totalLineDiscounts == Total(Discounts(Lines(items)))
  {
    rawSubtotal, totalLineDiscounts := 0.0, 0.0;
    processed := [];
    ghost var lines := Lines(items);
    for i := 0 to |items|
      invariant processed == lines[..i]
      invariant rawSubtotal == Total(Grosses(lines[..i])) && totalLineDiscounts == Total(Discounts(lines[..i]))
    {
      var line := LineOf(items[i]);
      assert Grosses(lines[..i + 1])[..i] == Grosses(lines[..i]) &&
        Discounts(lines[..i + 1])[..i] == Discounts(lines[..i]);
      rawSubtotal := rawSubtotal + line.gross;
      totalLineDiscounts := totalLineDiscounts + line.discount;
      processed := processed + [line];
    }
    assert lines[..|lines|] == lines;
  }

  method AddUpTaxes(lines: seq<Line>, subtotal: real, overall: real, inclusive: bool) returns (taxableTotal: real,
      taxTotal: real)
    requires forall i :: 0 <= i < |lines| ==> lines[i].taxRate >= 0.0
    ensures taxableTotal == Total(Taxables(lines, subtotal, overall, inclusive))
    ensures taxTotal == Total(Taxes(lines, subtotal, overall, inclusive))
  {
    taxableTotal, taxTotal := 0.0, 0.0;
    for i := 0 to |lines|
      invariant taxableTotal == Total(Taxables(lines[..i], subtotal, overall, inclusive))
      invariant taxTotal == Total(Taxes(lines[..i], subtotal, overall, inclusive))
    {
      var line := lines[i];
      var taxable, tax := TaxLine(line, Base(line, subtotal, overall), inclusive);
      TaxAdded(lines, i, subtotal, overall, inclusive);
      taxableTotal := taxableTotal + taxable;
      taxTotal := taxTotal + tax;
    }
    assert lines[..|lines|] == lines;
  }

  method TaxLine(line: Line, base: real, inclusive: bool) returns (taxable: real, tax: real)
    requires line.taxRate >= 0.0
    ensures taxable == TaxableOf(line, base, inclusive) && tax == TaxOf(line, base, inclusive)
  {
    taxable, tax := base, 0.0;
    if inclusive && line.taxRate > 0.0 {
      taxable := Round(WithoutTax(base, line.taxRate));
      tax := Round(base - taxable);
      assert taxable == TaxableOf(line, base, inclusive);
      assert tax == TaxOf(line, base, inclusive);
    } else {
      tax := Round(PercentOf(taxable, line.taxRate));
      assert taxable == base;
      assert tax == TaxOf(line, base, inclusive);
    }
  }

  lemma TaxAdded(lines: seq<Line>, i: nat, subtotal: real, overall: real, inclusive: bool)
    requires i < |lines| && forall k :: 0 <= k < |lines| ==> lines[k].taxRate >= 0.0
    ensures var base := Base(lines[i], subtotal, overall);
      Total(Taxables(lines[..i + 1], subtotal, overall, inclusive)) ==
        Total(Taxables(lines[..i], subtotal, overall, inclusive)) + TaxableOf(lines[i], base, inclusive) &&
      Total(Taxes(lines[..i + 1], subtotal, overall, inclusive)) ==
        Total(Taxes(lines[..i], subtotal, overall, inclusive)) + TaxOf(lines[i], base, inclusive)
  {
    assert Taxables(lines[..i + 1], subtotal, overall, inclusive)[..i] ==
      Taxables(lines[..i], subtotal, overall, inclusive);
    assert Taxes(lines[..i + 1], subtotal, overall, inclusive)[..i] == Taxes(lines[..i], subtotal, overall, inclusive);
  }

  method Compute(items: seq<Item>, overallDiscount: real, inclusive: bool) returns (totals: Totals)
    ensures totals == TotalsOf(items, overallDiscount, inclusive)
  {
    var lines, rawSubtotal, totalLineDiscounts := ProcessLines(items);
    var after := rawSubtotal - totalLineDiscounts;
    var overall := Min(Max(0.0, overallDiscount), after);
    var taxableTotal, taxTotal := AddUpTaxes(lines, after, overall, inclusive);
    taxableTotal, taxTotal := Round(taxableTotal), Round(taxTotal);
    var grand := if inclusive then Round(after - overall) else Round(taxableTotal + taxTotal);
    return Totals(rawSubtotal, totalLineDiscounts, after, overall, taxableTotal, taxTotal, grand);
  }

  // ---- Rounding ----

  lemma RoundNear(x: real)
    ensures x - 0.005 < Round(x) <= x + 0.005
    ensures WholeCents(Round(x))
    ensures x >= -0.005 ==> Round(x) >= 0.0
  {
    var k := (x * 100.0 + 0.5).Floor;
    assert Round(x) * 100.0 == k as real;
  }

  lemma RoundWhole(x: real)
    requires WholeCents(x)
    ensures Round(x) == x
  {
    var k := (x * 100.0).Floor;
    assert (k as real + 0.5).Floor == k;
  }

  lemma WholeSum(x: real, y: real)
    requires WholeCents(x) && WholeCents(y)
    ensures WholeCents(x + y)
  {
    var j, k := (x * 100.0).Floor, (y * 100.0).Floor;
    assert (x + y) * 100.0 == (j + k) as real;
  }

  lemma {:induction false} TotalWhole(xs: seq<real>)
    requires forall i :: 0 <= i < |xs| ==> WholeCents(xs[i])
    ensures WholeCents(Total(xs))
  {
    if xs != [] {
      TotalWhole(xs[..|xs| - 1]);
      WholeSum(Total(xs[..|xs| - 1]), xs[|xs| - 1]);
    }
  }

  // ---- Lines ----

  // The tax rate is clamped, no amount is negative and a discount never exceeds its line.
  lemma LineBounds(item: Item)
    ensures var line := LineOf(item);
      0.0 <= line.discount <= line.gross && 0.0 <= line.net && 0.0 <= line.taxRate <= 100.0 &&
        line.net + line.discount == line.gross
  {
    var gross := Max(0.0, item.quantity) * Max(0.0, item.rate);
    assert gross >= 0.0;
    if item.discountPercent > 0.0 {
      assert PercentOf(gross, item.discountPercent) >= 0.0;
      RoundNear(PercentOf(gross, item.discountPercent));
    }
  }

  lemma {:induction false} NetsAddUp(lines: seq<Line>)
    requires forall i :: 0 <= i < |lines| ==> lines[i].net == lines[i].gross - lines[i].discount && lines[i].net >= 0.0
    ensures Total(Nets(lines)) == Total(Grosses(lines)) - Total(Discounts(lines))
    ensures Total(Nets(lines)) >= 0.0
    ensures forall i :: 0 <= i < |lines| ==> lines[i].net <= Total(Nets(lines))
  {
    if lines != [] {
      var n := |lines| - 1;
      NetsAddUp(lines[..n]);
      assert Nets(lines)[..n] == Nets(lines[..n]) && Grosses(lines)[..n] == Grosses(lines[..n]);
      assert Discounts(lines)[..n] == Discounts(lines[..n]);
      forall i | 0 <= i < n ensures lines[i].net <= Total(Nets(lines)) { assert lines[..n][i] == lines[i]; }
    }
  }

  lemma {:induction false} SharesAddUp(lines: seq<Line>, subtotal: real, overall: real)
    requires subtotal > 0.0
    ensures Total(Shares(lines, subtotal, overall)) == Total(Nets(lines)) / subtotal * overall
  {
    if lines != [] {
      var n := |lines| - 1;
      SharesAddUp(lines[..n], subtotal, overall);
      assert Shares(lines, subtotal, overall)[..n] == Shares(lines[..n], subtotal, overall);
      assert Nets(lines)[..n] == Nets(lines[..n]);
      Distribute(Total(Nets(lines[..n])), lines[n].net, subtotal, overall);
    }
  }

  lemma Distribute(x: real, y: real, d: real, k: real)
    requires d > 0.0
    ensures x / d * k + y / d * k == (x + y) / d * k
  {
    assert x / d + y / d == (x + y) / d;
    assert (x / d) * k + (y / d) * k == (x / d + y / d) * k;
  }

  lemma ShareBounds(net: real, subtotal: real, overall: real)
    requires 0.0 <= net <= subtotal && 0.0 <= overall <= subtotal && subtotal > 0.0
    ensures 0.0 <= net / subtotal * overall <= net
  {
    var part := net / subtotal;
    assert 0.0 <= part;
    assert part * subtotal == net;
    assert part * overall <= part * subtotal;
    assert 0.0 <= part * overall;
  }

  // What the totals rest on: the lines, their subtotal and the document discount actually granted.
  ghost predicate Priced(lines: seq<Line>, subtotal: real, overall: real) {
    && (forall i :: 0 <= i < |lines| ==> 0.0 <= lines[i].net <= subtotal && 0.0 <= lines[i].taxRate <= 100.0)
    && subtotal == Total(Nets(lines)) && 0.0 <= overall <= subtotal
  }

  lemma ItemsArePriced(items: seq<Item>, overallDiscount: real, inclusive: bool)
    ensures var t := TotalsOf(items, overallDiscount, inclusive);
      Priced(Lines(items), t.afterLineDiscounts, t.overallDiscount) && 0.0 <= t.lineDiscounts <= t.subtotal
  {
    var lines := Lines(items);
    forall i | 0 <= i < |lines|
      ensures lines[i].net == lines[i].gross - lines[i].discount && lines[i].net >= 0.0 && lines[i].discount >= 0.0 &&
        lines[i].taxRate <= 100.0
    {
      LineBounds(items[i]);
    }
    NetsAddUp(lines);
    DiscountsNonNegative(lines);
  }

  lemma {:induction false} DiscountsNonNegative(lines: seq<Line>)
    requires forall i :: 0 <= i < |lines| ==> lines[i].discount >= 0.0
    ensures Total(Discounts(lines)) >= 0.0
  {
    if lines != [] {
      DiscountsNonNegative(lines[..|lines| - 1]);
      assert Discounts(lines)[..|lines| - 1] == Discounts(lines[..|lines| - 1]);
    }
  }

  // ---- Main results ----

  // The shares of the document discount add up to it, and no line is discounted below zero, so the
  // clamp at zero never acts.
  lemma {:induction false} DiscountIsSharedOut(items: seq<Item>, overallDiscount: real, inclusive: bool)
    ensures var t := TotalsOf(items, overallDiscount, inclusive);
      Total(Shares(Lines(items), t.afterLineDiscounts, t.overallDiscount)) == t.overallDiscount
    ensures var t := TotalsOf(items, overallDiscount, inclusive);
      forall i :: 0 <= i < |items| ==>
        var line := Lines(items)[i];
        0.0 <= line.net - Share(line, t.afterLineDiscounts, t.overallDiscount) ==
          Base(line, t.afterLineDiscounts, t.overallDiscount) <= line.net
  {
    var t := TotalsOf(items, overallDiscount, inclusive);
    ItemsArePriced(items, overallDiscount, inclusive);
    PricedIsSharedOut(Lines(items), t.afterLineDiscounts, t.overallDiscount);
  }

  lemma WholeShare(subtotal: real, overall: real)
    requires subtotal > 0.0
    ensures subtotal / subtotal * overall == overall
  {
  }

  lemma SharedLine(line: Line, subtotal: real, overall: real)
    requires 0.0 <= line.net <= subtotal && 0.0 <= overall <= subtotal && subtotal > 0.0
    ensures 0.0 <= Share(line, subtotal, overall) <= line.net
  {
    ShareBounds(line.net, subtotal, overall);
  }

  lemma PricedIsSharedOut(lines: seq<Line>, subtotal: real, overall: real)
    requires Priced(lines, subtotal, overall)
    ensures Total(Shares(lines, subtotal, overall)) == overall
    ensures forall i :: 0 <= i < |lines| ==>
      0.0 <= lines[i].net - Share(lines[i], subtotal, overall) == Base(lines[i], subtotal, overall) <= lines[i].net
  {
    if subtotal > 0.0 {
      SharesAddUp(lines, subtotal, overall);
      WholeShare(subtotal, overall);
      forall i | 0 <= i < |lines| ensures 0.0 <= Share(lines[i], subtotal, overall) <= lines[i].net {
        SharedLine(lines[i], subtotal, overall);
      }
    } else {
      NoShares(lines, subtotal, overall);
    }
  }

  lemma {:induction false} NoShares(lines: seq<Line>, subtotal: real, overall: real)
    requires subtotal <= 0.0
    ensures Total(Shares(lines, subtotal, overall)) == 0.0
  {
    if lines != [] {
      NoShares(lines[..|lines| - 1], subtotal, overall);
      assert Shares(lines, subtotal, overall)[..|lines| - 1] == Shares(lines[..|lines| - 1], subtotal, overall);
    }
  }

  lemma LineTax(line: Line, base: real, inclusive: bool)
    requires base >= 0.0 && 0.0 <= line.taxRate <= 100.0
    ensures TaxableOf(line, base, inclusive) >= 0.0 && TaxOf(line, base, inclusive) >= 0.0
    ensures WholeCents(TaxOf(line, base, inclusive))
    ensures inclusive ==>
      base - 0.005 <= TaxableOf(line, base, inclusive) + TaxOf(line, base, inclusive) <= base + 0.005
  {
    if inclusive && line.taxRate > 0.0 {
      var divisor := 1.0 + line.taxRate / 100.0;
      var exact := WithoutTax(base, line.taxRate);
      assert exact * divisor == base;
      assert 0.0 <= exact <= base by {
        assert divisor >= 1.0;
        assert exact >= 0.0;
        assert exact * divisor >= exact * 1.0;
      }
      RoundNear(exact);
      RoundNear(base - Round(exact));
    } else {
      assert PercentOf(base, line.taxRate) >= 0.0;
      RoundNear(PercentOf(base, line.taxRate));
      assert line.taxRate == 0.0 ==> PercentOf(base, line.taxRate) == 0.0;
      assert (0.0 * 100.0 + 0.5).Floor == 0;
    }
  }

  lemma {:induction false} LinesTax(lines: seq<Line>, subtotal: real, overall: real, inclusive: bool)
    requires forall i :: 0 <= i < |lines| ==>
      0.0 <= lines[i].taxRate <= 100.0 && 0.0 <= lines[i].net - Share(lines[i], subtotal, overall)
    ensures Total(Taxables(lines, subtotal, overall, inclusive)) >= 0.0
    ensures Total(Taxes(lines, subtotal, overall, inclusive)) >= 0.0
    ensures WholeCents(Total(Taxes(lines, subtotal, overall, inclusive)))
    ensures inclusive ==>
      var gap := Total(Taxables(lines, subtotal, overall, inclusive)) +
        Total(Taxes(lines, subtotal, overall, inclusive))
                 - (Total(Nets(lines)) - Total(Shares(lines, subtotal, overall)));
      -0.005 * (|lines| as real) <= gap <= 0.005 * (|lines| as real)
  {
    if lines == [] {
      assert (0.0 * 100.0).Floor == 0;
    } else {
      var n := |lines| - 1;
      LinesTax(lines[..n], subtotal, overall, inclusive);
      LineTax(lines[n], Base(lines[n], subtotal, overall), inclusive);
      assert lines[..n + 1] == lines;
      TaxAdded(lines, n, subtotal, overall, inclusive);
      assert Shares(lines, subtotal, overall)[..n] == Shares(lines[..n], subtotal, overall);
      assert Nets(lines)[..n] == Nets(lines[..n]);
      WholeSum(Total(Taxes(lines[..n], subtotal, overall, inclusive)),
        TaxOf(lines[n], Base(lines[n], subtotal, overall), inclusive));
    }
  }

  // For any number of lines: nothing is negative; prices without GST add up exactly; and prices that
  // contain GST add up to within half a cent for each line and one cent.
  lemma TotalsAgree(items: seq<Item>, overallDiscount: real, inclusive: bool)
    ensures var t := TotalsOf(items, overallDiscount, inclusive);
      t.taxable >= 0.0 && t.tax >= 0.0 && t.grand >= 0.0
    ensures var t := TotalsOf(items, overallDiscount, inclusive);
      !inclusive ==> t.grand == t.taxable + t.tax
    ensures var t := TotalsOf(items, overallDiscount, inclusive);
      inclusive ==>
        -0.005 * (|items| as real + 2.0) <= t.taxable + t.tax - t.grand <= 0.005 * (|items| as real + 2.0)
  {
    var t := TotalsOf(items, overallDiscount, inclusive);
    var lines, subtotal, overall := Lines(items), t.afterLineDiscounts, t.overallDiscount;
    LinesAdd(items, overallDiscount, inclusive);
    RoundedTotals(Total(Taxables(lines, subtotal, overall, inclusive)),
      Total(Taxes(lines, subtotal, overall, inclusive)),
                  subtotal - overall, |lines| as real * 0.005, inclusive);
    HalfCents(|items|);
  }

  // Before rounding: what the lines add up to.
  lemma LinesAdd(items: seq<Item>, overallDiscount: real, inclusive: bool)
    ensures var t, lines := TotalsOf(items, overallDiscount, inclusive), Lines(items);
      var taxable := Total(Taxables(lines, t.afterLineDiscounts, t.overallDiscount, inclusive));
      var tax := Total(Taxes(lines, t.afterLineDiscounts, t.overallDiscount, inclusive));
      var net := t.afterLineDiscounts - t.overallDiscount;
      |lines| == |items| && taxable >= 0.0 && tax >= 0.0 && WholeCents(tax) && net >= 0.0 &&
      (inclusive ==> -(|lines| as real * 0.005) <= taxable + tax - net <= |lines| as real * 0.005)
  {
    var t := TotalsOf(items, overallDiscount, inclusive);
    ItemsArePriced(items, overallDiscount, inclusive);
    PricedIsSharedOut(Lines(items), t.afterLineDiscounts, t.overallDiscount);
    LinesTax(Lines(items), t.afterLineDiscounts, t.overallDiscount, inclusive);
  }

  lemma HalfCents(n: nat)
    ensures n as real * 0.005 + 0.01 == 0.005 * (n as real + 2.0)
    ensures -(n as real * 0.005) - 0.01 == -0.005 * (n as real + 2.0)
  {
  }

  lemma RoundedTotals(taxable: real, tax: real, net: real, tolerance: real, inclusive: bool)
    requires taxable >= 0.0 && tax >= 0.0 && WholeCents(tax) && net >= 0.0
    requires inclusive ==> -tolerance <= taxable + tax - net <= tolerance
    ensures Round(taxable) >= 0.0 && Round(tax) == tax && Round(net) >= 0.0
    ensures Round(Round(taxable) + tax) == Round(taxable) + tax
    ensures inclusive ==> -tolerance - 0.01 <= Round(taxable) + tax - Round(net) <= tolerance + 0.01
  {
    RoundNear(taxable);
    RoundWhole(tax);
    WholeSum(Round(taxable), tax);
    RoundWhole(Round(taxable) + tax);
    RoundNear(net);
  }

  // ---- What the rates mean ----

  // A line's gross amount, and its discount: the given amount, or else the percentage to half a cent, and
  // never more than the line. A negative quantity or rate counts as nothing, a tax rate is cut to 0..100.
  lemma {:induction false} LineMeaning(item: Item)
    ensures var line := LineOf(item);
      (item.quantity >= 0.0 && item.rate >= 0.0 ==> line.gross == item.quantity * item.rate) &&
      (item.quantity < 0.0 || item.rate < 0.0 ==> line.gross == 0.0) &&
      (item.discountAmount > 0.0 && item.discountAmount <= line.gross ==> line.discount == item.discountAmount) &&
      (item.discountAmount > line.gross ==> line.discount == line.gross) &&
      (item.discountAmount <= 0.0 && item.discountPercent <= 0.0 ==> line.discount == 0.0) &&
      (item.discountAmount <= 0.0 && 0.0 < item.discountPercent <= 100.0 ==>
        line.gross * item.discountPercent / 100.0 - 0.005 < line.discount + 0.0 || line.discount == line.gross) &&
      (item.discountAmount <= 0.0 && 0.0 < item.discountPercent ==>
        line.discount <= line.gross * item.discountPercent / 100.0 + 0.005) &&
      (0.0 <= item.taxRate <= 100.0 ==> line.taxRate == item.taxRate) &&
      (item.taxRate < 0.0 ==> line.taxRate == 0.0) && (item.taxRate > 100.0 ==> line.taxRate == 100.0)
  {
    var gross := Max(0.0, item.quantity) * Max(0.0, item.rate);
    RoundNear(PercentOf(gross, item.discountPercent));
    PercentIs(gross, item.discountPercent);
    LineBounds(item);
  }

  lemma PercentIs(x: real, percent: real)
    ensures PercentOf(x, percent) == x * percent / 100.0
  {
  }

  // Prices without GST are taxed at the line's rate, to half a cent.
  lemma {:induction false} TaxOnTop(line: Line, base: real)
    requires line.taxRate >= 0.0
    ensures TaxableOf(line, base, false) == base
    ensures base * line.taxRate / 100.0 - 0.005 <= TaxOf(line, base, false) <= base * line.taxRate / 100.0 + 0.005
  {
    RoundNear(PercentOf(base, line.taxRate));
    PercentIs(base, line.taxRate);
  }

  // Of prices with GST, the taxable part times (100 + rate) is the price times 100, and taxable part and
  // tax make up the price, each to half a cent.
  lemma {:induction false} TaxContained(line: Line, base: real)
    requires line.taxRate >= 0.0
    ensures var taxable, tax := TaxableOf(line, base, true), TaxOf(line, base, true);
      -0.005 * (100.0 + line.taxRate) <= taxable * (100.0 + line.taxRate) - base * 100.0 <=
        0.005 * (100.0 + line.taxRate) &&
      -0.005 <= taxable + tax - base <= 0.005 && (line.taxRate == 0.0 ==> taxable == base)
  {
    if line.taxRate > 0.0 {
      var exact, factor := WithoutTax(base, line.taxRate), 100.0 + line.taxRate;
      ExactShare(base, line.taxRate);
      RoundNear(exact);
      RoundNear(base - Round(exact));
      var taxable := Round(exact);
      ScaledError(taxable - exact, factor);
      assert taxable * factor - base * 100.0 == (taxable - exact) * factor;
    } else {
      RoundNear(PercentOf(base, 0.0));
      RoundWhole(0.0);
    }
  }

  lemma ScaledError(error: real, factor: real)
    requires -0.005 <= error <= 0.005 && factor >= 0.0
    ensures -0.005 * factor <= error * factor <= 0.005 * factor
  {
  }

  lemma ExactShare(base: real, rate: real)
    requires rate >= 0.0
    ensures WithoutTax(base, rate) * (100.0 + rate) == base * 100.0
  {
    var divisor := 1.0 + rate / 100.0;
    assert WithoutTax(base, rate) * divisor == base;
    assert divisor * 100.0 == 100.0 + rate;
  }
}
