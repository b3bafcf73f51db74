/**
 * The menu grid: the sample products and the category filter with its "All"
 * wildcard.
 */
module ProductGrid {
  import opened Sequences
  import opened ProductModal
  import PriceLabel

  const SampleProducts: seq<Product> := [
    Product(1, "Margherita Pizza", 1899, "Pizza",
      "Fresh mozzarella, tomato sauce, and basil on our signature dough", 25, 5,
      [Customization("Size", ["Small (+$0)", "Medium (+$3)", "Large (+$6)"]),
       Customization("Extra Toppings", ["Pepperoni (+$2)", "Mushrooms (+$1)", "Extra Cheese (+$2)"])]),
    Product(2, "Chicken Caesar Salad", 1499, "Salads",
      "Grilled chicken, romaine lettuce, parmesan, and our house Caesar dressing", 15, 5,
      [Customization("Protein", ["Grilled Chicken", "Crispy Chicken (+$2)", "No Protein (-$3)"]),
       Customization("Dressing", ["Caesar", "Ranch", "Italian"])]),
    Product(3, "Classic Burger", 1699, "Burgers",
      "Beef patty, lettuce, tomato, onion, and our special sauce", 2, 5,
      [Customization("Cooking", ["Medium Rare", "Medium", "Well Done"]),
       Customization("Add-ons", ["Cheese (+$1)", "Bacon (+$3)", "Avocado (+$2)"])]),
    Product(4, "Pad Thai", 1599, "Asian",
      "Traditional Thai stir-fried noodles with shrimp, tofu, and peanuts", 18, 5,
      [Customization("Spice Level", ["Mild", "Medium", "Hot", "Extra Hot"]),
       Customization("Protein", ["Shrimp", "Chicken (+$2)", "Tofu", "Mixed (+$3)"])]),
    Product(5, "Chocolate Lava Cake", 899, "Desserts",
      "Warm chocolate cake with molten center, served with vanilla ice cream", 12, 5,
      [Customization("Ice Cream", ["Vanilla", "Chocolate", "Strawberry", "No Ice Cream"])]),
    Product(6, "Fresh Smoothie Bowl", 1299, "Healthy",
      "Acai base topped with fresh fruits, granola, and honey", 8, 5,
      [Customization("Base", ["Acai", "Mango", "Dragon Fruit (+$2)"]),
       Customization("Toppings", ["Granola", "Coconut Flakes", "Chia Seeds", "All (+$3)"])])
  ]

  const Categories: seq<string> := ["All", "Pizza", "Burgers", "Salads", "Asian", "Desserts", "Healthy"]

  /** The predicate of the filter: the product's category is exactly `category`. */
  function InCategory(category: string): Product -> bool {
    (p: Product) => p.category == category
  }

  /** `filteredProducts`: every product for "All", otherwise those of the selected category. */
  function FilteredProducts(products: seq<Product>, selected: string): seq<Product> {
    if selected == "All" then products else Filter(InCategory(selected), products)
  }

  lemma AllListsEverything(products: seq<Product>)
    ensures FilteredProducts(products, "All") == products
  {
  }

  /**
   * For any other category the result is an order-preserving subsequence of the
   * products, holds only products of that category, and holds every one of them.
   */
  lemma CategoryFilter(products: seq<Product>, selected: string)
    requires selected != "All"
    ensures var r := FilteredProducts(products, selected);
      && IsSubsequence(r, products)
      && (forall k :: 0 <= k < |r| ==> r[k].category == selected)
      && (forall k :: 0 <= k < |products| && products[k].category == selected ==> products[k] in r)
      && (forall x :: multiset(r)[x] == if x.category == selected then multiset(products)[x] else 0)
  {
    FilterIsSubsequence(InCategory(selected), products);
    FilterMultiset(InCategory(selected), products);
  }

  /** A category that no product carries shows an empty grid. */
  lemma {:induction false} UnknownCategoryIsEmpty(products: seq<Product>, selected: string)
    requires selected != "All"
    requires forall k :: 0 <= k < |products| ==> products[k].category != selected
    ensures FilteredProducts(products, selected) == []
  {
    if products != [] {
      UnknownCategoryIsEmpty(products[1..], selected);
    }
  }

  /** The salad's "No Protein (-$3)" option carries no "(+$" marker and so adds nothing to the price. */
  lemma NegativeOptionAddsNothing()
    ensures SampleProducts[1].customizations[0].options[2] == "No Protein (-$3)"
    ensures PriceLabel.OptionDelta(SampleProducts[1].customizations[0].options[2]) == 0
  {
    PriceLabel.NegativeMarkerIgnored();
  }
}
