/**
 * The cart side panel's order summary over its fixed sample cart: the subtotal,
 * a flat delivery fee of $4.99, an 8% tax on the subtotal and their sum, and a
 * badge that counts lines. Prices are integer cents; the tax is an exact
 * rational number of cents (the panel only rounds it when displaying it).
 */
module CartSummary {
  datatype SidebarLine = SidebarLine(id: int, name: string, price: int, quantity: int, customizations: seq<string>)

  /** The three sample lines the panel shows. */
  const SampleLines: seq<SidebarLine> := [
    SidebarLine(1, "Margherita Pizza", 2199, 1, ["Large (+$3)", "Extra Cheese (+$2)"]),
    SidebarLine(2, "Chicken Caesar Salad", 1499, 2, ["Grilled Chicken", "Caesar Dressing"]),
    SidebarLine(3, "Classic Burger", 1899, 1, ["Medium", "Cheese (+$1)", "Bacon (+$3)"])
  ]

  /** $4.99. */
  const SidebarDeliveryFee: int := 499

  /** The sum of price times quantity; the customization texts play no part. */
  function Subtotal(lines: seq<SidebarLine>): int {
    if lines == [] then 0 else lines[0].price * lines[0].quantity + Subtotal(lines[1..])
  }

  /** 8% of the subtotal. */
  function Tax(subtotal: int): real {
    subtotal as real * 0.08
  }

  function SummaryTotal(lines: seq<SidebarLine>): real {
    Subtotal(lines) as real + SidebarDeliveryFee as real + Tax(Subtotal(lines))
  }

  /** The badge: the number of lines, not of units. */
  function BadgeCount(lines: seq<SidebarLine>): nat {
    |lines|
  }

  function UnitCount(lines: seq<SidebarLine>): int {
    if lines == [] then 0 else lines[0].quantity + UnitCount(lines[1..])
  }

  /** Two carts that agree on every line's price and quantity have the same subtotal, whatever their customizations. */
  lemma {:induction false} SubtotalIgnoresCustomizations(a: seq<SidebarLine>, b: seq<SidebarLine>)
    requires |a| == |b|
    requires forall k :: 0 <= k < |a| ==> a[k].price == b[k].price && a[k].quantity == b[k].quantity
    ensures Subtotal(a) == Subtotal(b)
  {
    if a != [] {
      SubtotalIgnoresCustomizations(a[1..], b[1..]);
    }
  }

  lemma {:induction false} SubtotalConcat(a: seq<SidebarLine>, b: seq<SidebarLine>)
    ensures Subtotal(a + b) == Subtotal(a) + Subtotal(b)
  {
    if a == [] {
      assert a + b == b;
    } else {
      assert (a + b)[1..] == a[1..] + b;
      SubtotalConcat(a[1..], b);
    }
  }

  /** The total is 108% of the subtotal plus the fee, so it is never below subtotal plus fee when the subtotal is not negative. */
  lemma TotalBreakdown(lines: seq<SidebarLine>)
    ensures SummaryTotal(lines) == Subtotal(lines) as real * 1.08 + 4.99 * 100.0
    ensures Subtotal(lines) >= 0 ==> SummaryTotal(lines) >= (Subtotal(lines) + SidebarDeliveryFee) as real
  {
  }

  lemma {:induction false} SubtotalNonNegative(lines: seq<SidebarLine>)
    requires forall k :: 0 <= k < |lines| ==> lines[k].price >= 0 && lines[k].quantity >= 0
    ensures Subtotal(lines) >= 0
  {
    if lines != [] {
      SubtotalNonNegative(lines[1..]);
    }
  }

  /** When every line holds at least one unit the badge never exceeds the number of units. */
  lemma {:induction false} BadgeAtMostUnits(lines: seq<SidebarLine>)
    requires forall k :: 0 <= k < |lines| ==> lines[k].quantity >= 1
    ensures BadgeCount(lines) <= UnitCount(lines)
  {
    if lines != [] {
      BadgeAtMostUnits(lines[1..]);
    }
  }

  /** The sample cart: 3 lines, 4 units, subtotal $70.96, tax $5.6768, total $81.6268. */
  lemma SampleSummary()
    ensures BadgeCount(SampleLines) == 3 && UnitCount(SampleLines) == 4
    ensures Subtotal(SampleLines) == 7096
    ensures Tax(Subtotal(SampleLines)) == 567.68
    ensures SummaryTotal(SampleLines) == 8162.68
  {
  }
}
