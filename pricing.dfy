/**
 * The pricing rule shared by the order service and the client cart:
 * subtotal = sum of price * quantity, tax = 10% of the subtotal,
 * a fixed delivery fee of 5, total = subtotal + tax + fee.
 */
module Pricing {

  /** One priced line: a unit price and a quantity. */
  datatype Line = Line(price: real, quantity: int)

  const TaxRate: real := 0.1
  const DeliveryFee: real := 5.0

  function LineTotal(l: Line): real {
    l.price * (l.quantity as real)
  }

  /** Sum of price * quantity, folded from the left as `forEach` and `reduce` do. */
  function Subtotal(lines: seq<Line>): real {
    if lines == [] then 0.0
    else Subtotal(lines[..|lines| - 1]) + LineTotal(lines[|lines| - 1])
  }

  function Tax(subtotal: real): real {
    subtotal * TaxRate
  }

  function GrandTotal(subtotal: real): real {
    subtotal + Tax(subtotal) + DeliveryFee
  }

  predicate NonNegative(lines: seq<Line>) {
    forall i :: 0 <= i < |lines| ==> lines[i].price >= 0.0 && lines[i].quantity >= 0
  }

  /** The accumulation loop of createOrder: `totalPrice += item.price * item.quantity`. */
  method ComputeSubtotal(lines: seq<Line>) returns (total: real)
    ensures total == Subtotal(lines)
  {
    total := 0.0;
    var i := 0;
    while i < |lines|
      invariant 0 <= i <= |lines|
      invariant total == Subtotal(lines[..i])
    {
      assert lines[..i + 1][..i] == lines[..i];
      total := total + LineTotal(lines[i]);
      i := i + 1;
    }
    assert lines[..|lines|] == lines;
  }

  /** The subtotal of a concatenation is the sum of the subtotals. */
  lemma {:induction false} SubtotalAppend(a: seq<Line>, b: seq<Line>)
    ensures Subtotal(a + b) == Subtotal(a) + Subtotal(b)
    decreases |b|
  {
    if b != [] {
      var b' := b[..|b| - 1];
      assert (a + b)[..|a + b| - 1] == a + b';
      SubtotalAppend(a, b');
    } else {
      assert a + b == a;
    }
  }

  lemma {:induction false} LineTotalNonNegative(l: Line)
    requires l.price >= 0.0 && l.quantity >= 0
    ensures LineTotal(l) >= 0.0
  {
    var q := l.quantity as real;
    assert q >= 0.0;
    assert l.price * q >= 0.0 * q;
  }

  /** With non-negative prices and quantities the subtotal is non-negative. */
  lemma {:induction false} SubtotalNonNegative(lines: seq<Line>)
    requires NonNegative(lines)
    ensures Subtotal(lines) >= 0.0
  {
    if lines != [] {
      var init := lines[..|lines| - 1];
      assert NonNegative(init);
      SubtotalNonNegative(init);
      LineTotalNonNegative(lines[|lines| - 1]);
    }
  }

  /** The tax, fee and total are linked: total = 1.1 * subtotal + 5, and subtracting the
      tax and the fee from the total gives back the subtotal. */
  lemma {:induction false} TotalIdentities(subtotal: real)
    ensures Tax(subtotal) == subtotal / 10.0
    ensures GrandTotal(subtotal) == subtotal * 1.1 + DeliveryFee
    ensures GrandTotal(subtotal) - Tax(subtotal) - DeliveryFee == subtotal
  {
  }

  /** With non-negative prices and quantities the total is at least the delivery fee. */
  lemma {:induction false} TotalAtLeastFee(lines: seq<Line>)
    requires NonNegative(lines)
    ensures GrandTotal(Subtotal(lines)) >= DeliveryFee
  {
    SubtotalNonNegative(lines);
  }

  /** Two prices of 12.99 and 4.99 with quantities 2 and 1: subtotal 30.97,
      tax 3.097, total 39.067 (exact, before any display rounding). */
  lemma {:induction false} WorkedExample()
    ensures var s := Subtotal([Line(12.99, 2), Line(4.99, 1)]);
            s == 30.97 && Tax(s) == 3.097 && GrandTotal(s) == 39.067
  {
    var lines := [Line(12.99, 2), Line(4.99, 1)];
    assert lines[..1] == [Line(12.99, 2)];
    assert lines[..1][..0] == [];
  }
}
