/**
 * The product dialog: a quantity counter bounded by the product's stock, one
 * chosen option per customization group, the displayed price and the
 * order details the add-to-cart button logs.
 */
module ProductModal {
  import opened Sequences
  import PriceLabel

  datatype Customization = Customization(name: string, options: seq<string>)

  datatype Product = Product(
    id: int,
    name: string,
    price: int,                 // cents
    category: string,
    description: string,
    inStock: nat,
    lowStockThreshold: nat,
    customizations: seq<Customization>)

  predicate IsLowStock(p: Product) {
    p.inStock <= p.lowStockThreshold
  }

  predicate IsOutOfStock(p: Product) {
    p.inStock == 0
  }

  /** An out-of-stock product is also flagged low on stock, whatever its threshold. */
  lemma OutOfStockIsLowStock(p: Product)
    ensures IsOutOfStock(p) ==> IsLowStock(p)
  {
  }

  // ---------------------------------------------------------------------------
  // The selected options: a record from group name to option text. Its entries
  // are kept in the record's insertion order, as an object's keys are.

  type Selection = seq<(string, string)>

  predicate GroupsDistinct(sel: Selection) {
    forall i, j :: 0 <= i < j < |sel| ==> sel[i].0 != sel[j].0
  }

  /** `selectedOptions[group]`. */
  function Lookup(sel: Selection, group: string): Option<string> {
    if sel == [] then None
    else if sel[0].0 == group then Some(sel[0].1)
    else Lookup(sel[1..], group)
  }

  /** `{...prev, [group]: option}`: an existing key keeps its place and takes the new value; a new key goes last. */
  function Select(sel: Selection, group: string, option: string): Selection {
    if sel == [] then [(group, option)]
    else if sel[0].0 == group then [(group, option)] + sel[1..]
    else [sel[0]] + Select(sel[1..], group, option)
  }

  /** `Object.values(selectedOptions)`. */
  function Values(sel: Selection): (vs: seq<string>)
    ensures |vs| == |sel|
    ensures forall i :: 0 <= i < |sel| ==> vs[i] == sel[i].1
  {
    if sel == [] then [] else [sel[0].1] + Values(sel[1..])
  }

  /** The sum of the price markers of the chosen options. */
  function DeltaSum(options: seq<string>): int {
    if options == [] then 0
    else DeltaSum(options[..|options| - 1]) + PriceLabel.OptionDelta(options[|options| - 1])
  }

  lemma {:induction false} SelectChoosesOption(sel: Selection, group: string, option: string)
    ensures Lookup(Select(sel, group, option), group) == Some(option)
  {
    if sel != [] && sel[0].0 != group {
      SelectChoosesOption(sel[1..], group, option);
    }
  }

  lemma {:induction false} SelectKeepsOtherGroups(sel: Selection, group: string, option: string, other: string)
    requires other != group
    ensures Lookup(Select(sel, group, option), other) == Lookup(sel, other)
  {
    if sel != [] && sel[0].0 != group {
      SelectKeepsOtherGroups(sel[1..], group, option, other);
    }
  }

  /** The groups of `Select(sel, group, option)` are those of `sel` plus `group`. */
  lemma {:induction false} SelectGroups(sel: Selection, group: string, option: string)
    ensures forall i :: 0 <= i < |Select(sel, group, option)| ==>
      Select(sel, group, option)[i].0 == group || exists j :: 0 <= j < |sel| && sel[j].0 == Select(sel, group, option)[i].0
    ensures |Select(sel, group, option)| <= |sel| + 1
  {
    if sel != [] && sel[0].0 != group {
      SelectGroups(sel[1..], group, option);
      var r := Select(sel, group, option);
      forall i | 0 < i < |r| ensures r[i].0 == group || exists j :: 0 <= j < |sel| && sel[j].0 == r[i].0 {
        assert r[i] == Select(sel[1..], group, option)[i - 1];
        if r[i].0 != group {
          var j :| 0 <= j < |sel[1..]| && sel[1..][j].0 == r[i].0;
          assert sel[j + 1].0 == r[i].0;
        }
      }
    }
  }

  /** Choosing an option never yields two entries for one group. */
  lemma {:induction false} SelectKeepsGroupsDistinct(sel: Selection, group: string, option: string)
    requires GroupsDistinct(sel)
    ensures GroupsDistinct(Select(sel, group, option))
  {
    if sel != [] {
      var r := Select(sel, group, option);
      if sel[0].0 == group {
        forall i, j | 0 <= i < j < |r| ensures r[i].0 != r[j].0 {
          assert r[j] == sel[j];
          if i > 0 { assert r[i] == sel[i]; }
        }
      } else {
        var tail := Select(sel[1..], group, option);
        SelectKeepsGroupsDistinct(sel[1..], group, option);
        SelectGroups(sel[1..], group, option);
        forall i, j | 0 <= i < j < |r| ensures r[i].0 != r[j].0 {
          assert r[j] == tail[j - 1];
          if i > 0 {
            assert r[i] == tail[i - 1];
          } else if tail[j - 1].0 != group {
            var k :| 0 <= k < |sel[1..]| && sel[1..][k].0 == tail[j - 1].0;
            assert sel[k + 1].0 == r[j].0;
          }
        }
      }
    }
  }

  /** The order details `handleAddToCart` builds and logs; the dialog writes them to no cart. */
  datatype OrderDetails = OrderDetails(product: string, quantity: int, options: Selection, totalPrice: int)

  function Max(a: int, b: int): int {
    if a < b then b else a
  }

  class ProductDialog {
    const product: Product
    var quantity: int
    var selectedOptions: Selection

    /** The counter never leaves [1, max(1, stock)] and each group has at most one choice. */
    ghost predicate Valid()
      reads this
    {
      1 <= quantity <= Max(1, product.inStock) && GroupsDistinct(selectedOptions)
    }

    constructor (product: Product)
      ensures Valid()
      ensures this.product == product && quantity == 1 && selectedOptions == []
    {
      this.product := product;
      quantity := 1;
      selectedOptions := [];
    }

    method IncreaseQuantity()
      requires Valid()
      modifies this`quantity
      ensures Valid()
      ensures quantity == if old(quantity) < product.inStock then old(quantity) + 1 else old(quantity)
    {
      if quantity < product.inStock {
        quantity := quantity + 1;
      }
    }

    method DecreaseQuantity()
      requires Valid()
      modifies this`quantity
      ensures Valid()
      ensures quantity == if old(quantity) > 1 then old(quantity) - 1 else old(quantity)
    {
      if quantity > 1 {
        quantity := quantity - 1;
      }
    }

    /** `handleOptionSelect`: the group now holds `option`; every other group keeps its choice. */
    method HandleOptionSelect(group: string, option: string)
      requires Valid()
      modifies this`selectedOptions
      ensures Valid()
      ensures selectedOptions == Select(old(selectedOptions), group, option)
      ensures Lookup(selectedOptions, group) == Some(option)
      ensures forall g :: g != group ==> Lookup(selectedOptions, g) == Lookup(old(selectedOptions), g)
    {
      SelectKeepsGroupsDistinct(selectedOptions, group, option);
      SelectChoosesOption(selectedOptions, group, option);
      forall g | g != group
        ensures Lookup(Select(selectedOptions, group, option), g) == Lookup(selectedOptions, g)
      {
        SelectKeepsOtherGroups(selectedOptions, group, option, g);
      }
      selectedOptions := Select(selectedOptions, group, option);
    }

    /** `calculatePrice`: (unit price + the chosen options' markers) times the quantity. */
    method CalculatePrice() returns (total: int)
      ensures total == (product.price + DeltaSum(Values(selectedOptions))) * quantity
    {
      var totalPrice := product.price;
      var options := Values(selectedOptions);
      var i := 0;
      while i < |options|
        invariant 0 <= i <= |options|
        invariant totalPrice == product.price + DeltaSum(options[..i])
      {
        assert options[..i + 1][..i] == options[..i];
        totalPrice := totalPrice + PriceLabel.OptionDelta(options[i]);
        i := i + 1;
      }
      assert options[..i] == options;
      total := totalPrice * quantity;
    }

    /**
     * `handleAddToCart`: the logged order details, or nothing for an out-of-stock
     * product. The handler only logs them, shows a toast and closes the dialog.
     */
    method HandleAddToCart() returns (details: Option<OrderDetails>)
      ensures details.None? <==> IsOutOfStock(product)
      ensures details.Some? ==>
        details.value == OrderDetails(product.name, quantity, selectedOptions,
                                    (product.price + DeltaSum(Values(selectedOptions))) * quantity)
    {
      if IsOutOfStock(product) {
        return None;
      }
      var price := CalculatePrice();
      details := Some(OrderDetails(product.name, quantity, selectedOptions, price));
    }
  }

  /** With no option chosen the dialog's price is the unit price times the quantity. */
  lemma NoOptionsPrice(price: int, quantity: int)
    ensures (price + DeltaSum(Values([]))) * quantity == price * quantity
  {
  }

  /** The option markers never lower the price: each adds a non-negative amount. */
  lemma {:induction false} DeltaSumNonNegative(options: seq<string>)
    ensures DeltaSum(options) >= 0
  {
    if options != [] {
      DeltaSumNonNegative(options[..|options| - 1]);
    }
  }
}
