/**
 * The point-of-sale screen: a register holding the current order as a list of
 * lines `{id, name, price, quantity, category}`, the menu search, the order
 * total and the payment step that clears the order.
 * Money is in integer cents.
 */
module PointOfSale {
  import opened Sequences

  datatype MenuItem = MenuItem(id: int, name: string, price: int, category: string)

  datatype OrderLine = OrderLine(id: int, name: string, price: int, quantity: int, category: string)

  /** The register's fixed menu. */
  const Menu: seq<MenuItem> := [
    MenuItem(1, "Margherita Pizza", 1899, "Pizza"),
    MenuItem(2, "Chicken Caesar Salad", 1499, "Salads"),
    MenuItem(3, "Classic Burger", 1699, "Burgers"),
    MenuItem(4, "Pad Thai", 1599, "Asian"),
    MenuItem(5, "Chocolate Lava Cake", 899, "Desserts"),
    MenuItem(6, "Fresh Smoothie Bowl", 1299, "Healthy")
  ]

  // ---------------------------------------------------------------------------
  // The order invariant

  predicate DistinctIds(lines: seq<OrderLine>) {
    forall i, j :: 0 <= i < j < |lines| ==> lines[i].id != lines[j].id
  }

  predicate QuantitiesPositive(lines: seq<OrderLine>) {
    forall i :: 0 <= i < |lines| ==> lines[i].quantity >= 1
  }

  /** Every reachable order has one line per id and no line below quantity 1. */
  predicate WellFormed(lines: seq<OrderLine>) {
    DistinctIds(lines) && QuantitiesPositive(lines)
  }

  predicate HasLine(lines: seq<OrderLine>, id: int) {
    exists i :: 0 <= i < |lines| && lines[i].id == id
  }

  // ---------------------------------------------------------------------------
  // The list transformations behind the register's handlers

  /** The line with quantity `quantity + 1` when its id is `id`, otherwise the line itself. */
  function Bumped(line: OrderLine, id: int): OrderLine {
    if line.id == id then line.(quantity := line.quantity + 1) else line
  }

  /** `prev.map(...)` of `addToOrder`: increment every line whose id is `id`. */
  function Bump(lines: seq<OrderLine>, id: int): (r: seq<OrderLine>)
    ensures |r| == |lines|
    ensures forall k :: 0 <= k < |r| ==> r[k] == Bumped(lines[k], id)
  {
    if lines == [] then [] else [Bumped(lines[0], id)] + Bump(lines[1..], id)
  }

  /** `addToOrder(item)`: increment the existing line for `item.id`, or append a line of quantity 1. */
  function OrderAfterAdd(lines: seq<OrderLine>, item: MenuItem): seq<OrderLine> {
    if HasLine(lines, item.id) then Bump(lines, item.id)
    else lines + [OrderLine(item.id, item.name, item.price, 1, item.category)]
  }

  /** The line after `updateQuantity`'s map: changed only when the new quantity stays positive. */
  function Stepped(line: OrderLine, id: int, change: int): OrderLine {
    if line.id == id && line.quantity + change > 0 then line.(quantity := line.quantity + change)
    else line
  }

  /** `prev.map(...)` of `updateQuantity`. */
  function Step(lines: seq<OrderLine>, id: int, change: int): (r: seq<OrderLine>)
    ensures |r| == |lines|
    ensures forall k :: 0 <= k < |r| ==> r[k] == Stepped(lines[k], id, change)
  {
    if lines == [] then [] else [Stepped(lines[0], id, change)] + Step(lines[1..], id, change)
  }

  /** `updateQuantity(id, change)`: the map above followed by `.filter(item => item.quantity > 0)`. */
  function OrderAfterUpdate(lines: seq<OrderLine>, id: int, change: int): seq<OrderLine> {
    Filter((l: OrderLine) => l.quantity > 0, Step(lines, id, change))
  }

  /** `removeFromOrder(id)`: `prev.filter(item => item.id !== id)`. */
  function OrderAfterRemove(lines: seq<OrderLine>, id: int): seq<OrderLine> {
    Filter(OtherId(id), lines)
  }

  /** The predicate of `removeFromOrder`'s filter. */
  function OtherId(id: int): OrderLine -> bool {
    (l: OrderLine) => l.id != id
  }

  /** `calculateTotal`: the sum of price times quantity over the lines (a left fold from 0). */
  function Total(lines: seq<OrderLine>): int {
    if lines == [] then 0 else Total(lines[..|lines| - 1]) + LineTotal(lines[|lines| - 1])
  }

  /** A line's contribution to the total: its price times its quantity. */
  function LineTotal(line: OrderLine): int {
    line.price * line.quantity
  }

  // ---------------------------------------------------------------------------
  // Menu search

  function LowerChar(c: char): char {
    if 'A' <= c <= 'Z' then (c as int + 32) as char else c
  }

  /** `toLowerCase` restricted to ASCII letters. */
  function Lower(s: string): (r: string)
    ensures |r| == |s|
    ensures forall i :: 0 <= i < |s| ==> r[i] == LowerChar(s[i])
  {
    if s == [] then [] else [LowerChar(s[0])] + Lower(s[1..])
  }

  /** `s.includes(t)`: `t` occurs in `s` as a contiguous block. */
  predicate Includes(s: string, t: string) {
    exists i :: 0 <= i <= |s| && OccursAt(s, t, i)
  }

  predicate OccursAt(s: string, t: string, i: nat) {
    i + |t| <= |s| && s[i..i + |t|] == t
  }

  /** `filteredItems`: the items whose lower-cased name includes the lower-cased term. */
  function FilteredItems(items: seq<MenuItem>, term: string): seq<MenuItem> {
    var t := Lower(term);
    Filter((item: MenuItem) => Includes(Lower(item.name), t), items)
  }

  // ---------------------------------------------------------------------------
  // Properties of adding

  /** Adding an id already in the order increments that line by exactly 1 and changes nothing else. */
  lemma AddExisting(lines: seq<OrderLine>, item: MenuItem, k: int)
    requires DistinctIds(lines)
    requires 0 <= k < |lines| && lines[k].id == item.id
    ensures var r := OrderAfterAdd(lines, item);
      && |r| == |lines|
      && r[k] == lines[k].(quantity := lines[k].quantity + 1)
      && forall j :: 0 <= j < |lines| && j != k ==> r[j] == lines[j]
  {
  }

  /** Adding an id not yet in the order appends one line of quantity 1 at the end. */
  lemma AddNew(lines: seq<OrderLine>, item: MenuItem)
    requires !HasLine(lines, item.id)
    ensures var r := OrderAfterAdd(lines, item);
      && |r| == |lines| + 1
      && r[..|lines|] == lines
      && r[|lines|] == OrderLine(item.id, item.name, item.price, 1, item.category)
  {
  }

  lemma AddPreservesWellFormed(lines: seq<OrderLine>, item: MenuItem)
    requires WellFormed(lines)
    ensures WellFormed(OrderAfterAdd(lines, item))
  {
  }

  /** Adding raises the total by the price of the line that was added or incremented. */
  lemma AddTotal(lines: seq<OrderLine>, item: MenuItem)
    requires DistinctIds(lines)
    ensures HasLine(lines, item.id) ==>
      exists k :: 0 <= k < |lines| && lines[k].id == item.id &&
        Total(OrderAfterAdd(lines, item)) == Total(lines) + lines[k].price
    ensures !HasLine(lines, item.id) ==> Total(OrderAfterAdd(lines, item)) == Total(lines) + item.price
  {
    if HasLine(lines, item.id) {
      var k :| 0 <= k < |lines| && lines[k].id == item.id;
      BumpTotal(lines, item.id, k);
    } else {
      var r := OrderAfterAdd(lines, item);
      assert r[..|r| - 1] == lines;
    }
  }

  lemma {:induction false} BumpTotal(lines: seq<OrderLine>, id: int, k: int)
    requires DistinctIds(lines)
    requires 0 <= k < |lines| && lines[k].id == id
    ensures Total(Bump(lines, id)) == Total(lines) + lines[k].price
    decreases |lines|
  {
    var n := |lines| - 1;
    BumpPrefix(lines, id);
    BumpedValue(lines[n], id);
    DropLast(lines);
    if k == n {
      BumpAbsent(lines[..n], id);
    } else {
      BumpTotal(lines[..n], id, k);
    }
  }

  /** Bumping commutes with dropping the last line. */
  lemma BumpPrefix(lines: seq<OrderLine>, id: int)
    requires lines != []
    ensures Bump(lines, id)[..|lines| - 1] == Bump(lines[..|lines| - 1], id)
    ensures Bump(lines, id)[|lines| - 1] == Bumped(lines[|lines| - 1], id)
  {
  }

  /** Dropping the last line of an order with distinct ids keeps them distinct and removes the last id. */
  lemma DropLast(lines: seq<OrderLine>)
    requires lines != [] && DistinctIds(lines)
    ensures DistinctIds(lines[..|lines| - 1])
    ensures !HasLine(lines[..|lines| - 1], lines[|lines| - 1].id)
  {
  }

  /** A bumped line is worth one more unit price when it carries the id, and the same otherwise. */
  lemma BumpedValue(line: OrderLine, id: int)
    ensures LineTotal(Bumped(line, id)) == LineTotal(line) + (if line.id == id then line.price else 0)
  {
    if line.id == id {
      assert line.price * (line.quantity + 1) == line.price * line.quantity + line.price;
    }
  }

  /** Bumping an id that no line carries changes nothing. */
  lemma BumpAbsent(lines: seq<OrderLine>, id: int)
    requires !HasLine(lines, id)
    ensures Bump(lines, id) == lines
  {
  }

  // ---------------------------------------------------------------------------
  // Properties of updating

  /** In a well-formed order the filter of `updateQuantity` removes nothing: the result is the map alone. */
  lemma UpdateKeepsEveryLine(lines: seq<OrderLine>, id: int, change: int)
    requires QuantitiesPositive(lines)
    ensures OrderAfterUpdate(lines, id, change) == Step(lines, id, change)
  {
    FilterKeepsAll((l: OrderLine) => l.quantity > 0, Step(lines, id, change));
  }

  /**
   * `updateQuantity` sets the line to old + change when that is positive and otherwise
   * leaves it as it was, so "minus" at quantity 1 keeps the line; every other line is untouched.
   */
  lemma UpdateQuantityEffect(lines: seq<OrderLine>, id: int, change: int)
    requires WellFormed(lines)
    ensures var r := OrderAfterUpdate(lines, id, change);
      && |r| == |lines|
      && (forall k :: 0 <= k < |lines| && lines[k].id == id && lines[k].quantity + change > 0 ==>
            r[k] == lines[k].(quantity := lines[k].quantity + change))
      && (forall k :: 0 <= k < |lines| && lines[k].id == id && lines[k].quantity + change <= 0 ==>
            r[k] == lines[k])
      && forall k :: 0 <= k < |lines| && lines[k].id != id ==> r[k] == lines[k]
  {
    UpdateKeepsEveryLine(lines, id, change);
  }

  lemma UpdatePreservesWellFormed(lines: seq<OrderLine>, id: int, change: int)
    requires WellFormed(lines)
    ensures WellFormed(OrderAfterUpdate(lines, id, change))
  {
    UpdateKeepsEveryLine(lines, id, change);
  }

  // ---------------------------------------------------------------------------
  // Properties of removing

  /** Removing drops exactly the line with that id and keeps the others in order. */
  lemma RemovePresent(lines: seq<OrderLine>, k: int)
    requires DistinctIds(lines)
    requires 0 <= k < |lines|
    ensures OrderAfterRemove(lines, lines[k].id) == lines[..k] + lines[k + 1..]
  {
    var keep := OtherId(lines[k].id);
    var before, after := lines[..k], lines[k + 1..];
    forall i | 0 <= i < |before| ensures keep(before[i]) {
      assert before[i] == lines[i];
    }
    forall i | 0 <= i < |after| ensures keep(after[i]) {
      assert after[i] == lines[k + 1 + i];
    }
    FilterDropsOne(keep, before, lines[k], after);
    assert lines == before + [lines[k]] + after;
  }

  /** Removing an id that is not in the order is a no-op. */
  lemma RemoveAbsent(lines: seq<OrderLine>, id: int)
    requires !HasLine(lines, id)
    ensures OrderAfterRemove(lines, id) == lines
  {
    FilterKeepsAll(OtherId(id), lines);
  }

  lemma RemovePreservesWellFormed(lines: seq<OrderLine>, id: int)
    requires WellFormed(lines)
    ensures WellFormed(OrderAfterRemove(lines, id))
  {
    FilterPreservesWellFormed(OtherId(id), lines);
  }

  /** Any filter of a well-formed order is well-formed: it keeps a subset of distinct, positive lines. */
  lemma {:induction false} FilterPreservesWellFormed(keep: OrderLine -> bool, lines: seq<OrderLine>)
    requires WellFormed(lines)
    ensures WellFormed(Filter(keep, lines))
  {
    if lines != [] {
      var rest := lines[1..];
      FilterPreservesWellFormed(keep, rest);
      if keep(lines[0]) {
        var tail := Filter(keep, rest);
        assert Filter(keep, lines) == [lines[0]] + tail;
        forall j | 0 <= j < |tail| ensures tail[j].id != lines[0].id && tail[j].quantity >= 1 {
          var w :| 0 <= w < |rest| && rest[w] == tail[j];
          assert lines[w + 1] == tail[j];
        }
        ConsWellFormed(lines[0], tail);
      }
    }
  }

  lemma ConsWellFormed(line: OrderLine, tail: seq<OrderLine>)
    requires WellFormed(tail) && line.quantity >= 1
    requires forall j :: 0 <= j < |tail| ==> tail[j].id != line.id
    ensures WellFormed([line] + tail)
  {
    var r := [line] + tail;
    forall i, j | 0 <= i < j < |r| ensures r[i].id != r[j].id {
      assert r[j] == tail[j - 1];
      if i > 0 {
        assert r[i] == tail[i - 1];
      }
    }
  }

  // ---------------------------------------------------------------------------
  // Properties of the total

  lemma {:induction false} TotalConcat(a: seq<OrderLine>, b: seq<OrderLine>)
    ensures Total(a + b) == Total(a) + Total(b)
    decreases |b|
  {
    if b == [] {
      assert a + b == a;
    } else {
      var n := |b| - 1;
      assert (a + b)[..|a + b| - 1] == a + b[..n];
      TotalConcat(a, b[..n]);
    }
  }

  /** The total is the sum over the lines in either direction of folding: first line plus the rest. */
  lemma TotalCons(lines: seq<OrderLine>)
    requires lines != []
    ensures Total(lines) == LineTotal(lines[0]) + Total(lines[1..])
  {
    TotalConcat([lines[0]], lines[1..]);
    assert [lines[0]] + lines[1..] == lines;
  }

  // ---------------------------------------------------------------------------
  // Properties of the search

  /** An empty search term lists the whole menu. */
  lemma EmptySearchListsAll(items: seq<MenuItem>)
    ensures FilteredItems(items, "") == items
  {
    var t := Lower("");
    assert t == [];
    forall k | 0 <= k < |items| ensures Includes(Lower(items[k].name), t) {
      assert OccursAt(Lower(items[k].name), t, 0);
    }
    FilterKeepsAll((item: MenuItem) => Includes(Lower(item.name), t), items);
  }

  /** The search keeps exactly the matching items, in menu order. */
  lemma SearchResult(items: seq<MenuItem>, term: string)
    ensures var r := FilteredItems(items, term);
      && IsSubsequence(r, items)
      && (forall k :: 0 <= k < |r| ==> Includes(Lower(r[k].name), Lower(term)))
      && (forall k :: 0 <= k < |items| && Includes(Lower(items[k].name), Lower(term)) ==> items[k] in r)
      && (forall x :: multiset(r)[x] == if Includes(Lower(x.name), Lower(term)) then multiset(items)[x] else 0)
  {
    var t := Lower(term);
    FilterIsSubsequence((item: MenuItem) => Includes(Lower(item.name), t), items);
    FilterMultiset((item: MenuItem) => Includes(Lower(item.name), t), items);
  }

  lemma LowerIdempotent(s: string)
    ensures Lower(Lower(s)) == Lower(s)
  {
  }

  /** The search ignores the case of the term: an upper-case term finds what its lower-case form finds. */
  lemma SearchIgnoresTermCase(items: seq<MenuItem>, term: string)
    ensures FilteredItems(items, term) == FilteredItems(items, Lower(term))
  {
    LowerIdempotent(term);
  }

  // ---------------------------------------------------------------------------
  // The register: `currentOrder` state and its handlers

  class Register {
    var currentOrder: seq<OrderLine>

    ghost predicate Valid()
      reads this
    {
      WellFormed(currentOrder)
    }

    constructor ()
      ensures Valid() && currentOrder == []
    {
      currentOrder := [];
    }

    function CalculateTotal(): int
      reads this
    {
      Total(currentOrder)
    }

    method AddToOrder(item: MenuItem)
      requires Valid()
      modifies this
      ensures Valid()
      ensures currentOrder == OrderAfterAdd(old(currentOrder), item)
    {
      AddPreservesWellFormed(currentOrder, item);
      currentOrder := OrderAfterAdd(currentOrder, item);
    }

    method UpdateQuantity(id: int, change: int)
      requires Valid()
      modifies this
      ensures Valid()
      ensures currentOrder == OrderAfterUpdate(old(currentOrder), id, change)
    {
      UpdatePreservesWellFormed(currentOrder, id, change);
      currentOrder := OrderAfterUpdate(currentOrder, id, change);
    }

    method RemoveFromOrder(id: int)
      requires Valid()
      modifies this
      ensures Valid()
      ensures currentOrder == OrderAfterRemove(old(currentOrder), id)
    {
      RemovePreservesWellFormed(currentOrder, id);
      currentOrder := OrderAfterRemove(currentOrder, id);
    }

    /**
     * `processPayment`: an empty order is refused and left alone; otherwise the total is
     * charged and the order is cleared.
     */
    method ProcessPayment() returns (paid: bool, charged: int)
      requires Valid()
      modifies this
      ensures Valid()
      ensures paid <==> old(currentOrder) != []
      ensures !paid ==> currentOrder == old(currentOrder) && charged == 0
      ensures paid ==> currentOrder == [] && charged == Total(old(currentOrder))
    {
      if |currentOrder| == 0 {
        return false, 0;
      }
      charged := CalculateTotal();
      paid := true;
      currentOrder := [];
    }
  }
}
