/**
 * Seeding the store with the Kenyan sample menu. The seeder reads the category
 * names already present, inserts the sample categories that are missing, reads
 * back every category to map names to ids, counts the products, and, when fewer
 * than five exist, inserts the sample products whose category resolved.
 *
 * The store is an object with two tables and an id counter. Each of the five
 * store calls ends in one of three ways, passed in as a parameter: it succeeds,
 * it reports an error (a failed read yields no data; a failed write changes
 * nothing and is otherwise ignored), or it throws, which ends the seeding with
 * `success == false` and the thrown message. Prices are in integer cents.
 */
module Seeding {
  import opened Sequences

  datatype Reply = Ok | Failed | Threw(message: string)

  /** The replies of the five store calls, in the order the seeder makes them. */
  datatype SeedReplies = SeedReplies(
    readNames: Reply,
    insertCategories: Reply,
    readCategories: Reply,
    countProducts: Reply,
    insertProducts: Reply)

  datatype CategoryRow = CategoryRow(id: nat, name: string, description: string)

  datatype ProductRow = ProductRow(id: nat, name: string, description: string, price: int, categoryId: nat, inStock: int)

  datatype SampleCategory = SampleCategory(name: string, description: string)

  datatype SampleProduct = SampleProduct(name: string, description: string, price: int, categoryName: string, inStock: int)

  const SampleCategories: seq<SampleCategory> := [
    SampleCategory("Main Dishes", "Traditional Kenyan main courses"),
    SampleCategory("Beverages", "Traditional and modern drinks"),
    SampleCategory("Sides", "Accompaniments and side dishes"),
    SampleCategory("Snacks", "Light bites and traditional snacks")
  ]

  const SampleProducts: seq<SampleProduct> := [
    SampleProduct("Nyama Choma", "Grilled beef marinated in traditional spices, served with ugali", 85000, "Main Dishes", 25),
    SampleProduct("Ugali with Sukuma Wiki", "Traditional cornmeal staple with collard greens", 35000, "Main Dishes", 30),
    SampleProduct("Githeri", "Mixed beans and maize with vegetables", 28000, "Main Dishes", 20),
    SampleProduct("Tilapia Fish", "Fresh tilapia fish grilled with spices", 65000, "Main Dishes", 15),
    SampleProduct("Chai Ya Tangawizi", "Traditional ginger tea", 15000, "Beverages", 50),
    SampleProduct("Fresh Mango Juice", "Freshly squeezed mango juice", 18000, "Beverages", 25),
    SampleProduct("Chapati", "Soft flatbread", 8000, "Sides", 35),
    SampleProduct("Kachumbari", "Fresh tomato and onion salad", 12000, "Sides", 40),
    SampleProduct("Mandazi", "Sweet fried bread", 5000, "Snacks", 60),
    SampleProduct("Samosa", "Crispy pastry with spiced filling", 8000, "Snacks", 45)
  ]

  const SuccessMessage: string := "Sample data added successfully!"

  /** The number of products below which the seeder adds its sample products. */
  const ProductThreshold: int := 5

  // ---------------------------------------------------------------------------
  // The planning steps

  function Names(cats: seq<CategoryRow>): (ns: seq<string>)
    ensures |ns| == |cats|
    ensures forall k :: 0 <= k < |cats| ==> ns[k] == cats[k].name
  {
    if cats == [] then [] else [cats[0].name] + Names(cats[1..])
  }

  /** The names read back by the first call: none when the read reports an error. */
  function ExistingNames(reply: Reply, cats: seq<CategoryRow>): seq<string> {
    if reply.Ok? then Names(cats) else []
  }

  function NotAmong(names: seq<string>): SampleCategory -> bool {
    (c: SampleCategory) => c.name !in names
  }

  /** The sample categories whose name is not among the existing ones, in sample order. */
  function CategoriesToAdd(existing: seq<string>): seq<SampleCategory> {
    Filter(NotAmong(existing), SampleCategories)
  }

  /** The `reduce` that builds `categoryMap`: each row in turn sets its name to its id. */
  function CategoryMapOf(cats: seq<CategoryRow>): map<string, nat> {
    if cats == [] then map[]
    else CategoryMapOf(cats[..|cats| - 1])[cats[|cats| - 1].name := cats[|cats| - 1].id]
  }

  /** The map the third call yields: empty when the read reports an error. */
  function CategoryMapRead(reply: Reply, cats: seq<CategoryRow>): map<string, nat> {
    if reply.Ok? then CategoryMapOf(cats) else map[]
  }

  /** `productCount || 0`. */
  function CountRead(reply: Reply, products: seq<ProductRow>): nat {
    if reply.Ok? then |products| else 0
  }

  function Resolves(catMap: map<string, nat>): SampleProduct -> bool {
    (p: SampleProduct) => p.categoryName in catMap
  }

  /** The sample products whose category name resolved to an id, in sample order. */
  function ProductsToAdd(catMap: map<string, nat>): seq<SampleProduct> {
    Filter(Resolves(catMap), SampleProducts)
  }

  /** The rows the store creates for inserted categories, numbered from `firstId`. */
  function CategoryRows(cats: seq<SampleCategory>, firstId: nat): (r: seq<CategoryRow>)
    ensures |r| == |cats|
    ensures forall k :: 0 <= k < |cats| ==> r[k] == CategoryRow(firstId + k, cats[k].name, cats[k].description)
  {
    if cats == [] then []
    else [CategoryRow(firstId, cats[0].name, cats[0].description)] + CategoryRows(cats[1..], firstId + 1)
  }

  /** The rows the store creates for inserted products, each with its resolved category id. */
  function ProductRows(ps: seq<SampleProduct>, catMap: map<string, nat>, firstId: nat): (r: seq<ProductRow>)
    requires forall k :: 0 <= k < |ps| ==> ps[k].categoryName in catMap
    ensures |r| == |ps|
    ensures forall k :: 0 <= k < |ps| ==>
      r[k] == ProductRow(firstId + k, ps[k].name, ps[k].description, ps[k].price, catMap[ps[k].categoryName], ps[k].inStock)
  {
    if ps == [] then []
    else
      var rest := ProductRows(ps[1..], catMap, firstId + 1);
      var r := [ProductRow(firstId, ps[0].name, ps[0].description, ps[0].price, catMap[ps[0].categoryName], ps[0].inStock)] + rest;
      assert forall k :: 1 <= k < |ps| ==> r[k] == rest[k - 1] && ps[k] == ps[1..][k - 1];
      r
  }

  lemma ProductsToAddResolve(catMap: map<string, nat>)
    ensures forall k :: 0 <= k < |ProductsToAdd(catMap)| ==> ProductsToAdd(catMap)[k].categoryName in catMap
  {
  }

  // ---------------------------------------------------------------------------
  // The effect of one run, step by step

  /** Whether the category insert is issued: the first read did not throw and something is missing. */
  predicate CategoryInsertIssued(cats: seq<CategoryRow>, r: SeedReplies) {
    !r.readNames.Threw? && CategoriesToAdd(ExistingNames(r.readNames, cats)) != []
  }

  predicate CategoriesWritten(cats: seq<CategoryRow>, r: SeedReplies) {
    CategoryInsertIssued(cats, r) && r.insertCategories.Ok?
  }

  function CategoriesAfter(cats: seq<CategoryRow>, nextId: nat, r: SeedReplies): seq<CategoryRow> {
    if CategoriesWritten(cats, r) then cats + CategoryRows(CategoriesToAdd(ExistingNames(r.readNames, cats)), nextId)
    else cats
  }

  function NextIdAfterCategories(cats: seq<CategoryRow>, nextId: nat, r: SeedReplies): nat {
    if CategoriesWritten(cats, r) then nextId + |CategoriesToAdd(ExistingNames(r.readNames, cats))| else nextId
  }

  /** Whether the run gets past its first four calls without a throw. */
  predicate ReachesGate(cats: seq<CategoryRow>, r: SeedReplies) {
    && !r.readNames.Threw?
    && !(CategoryInsertIssued(cats, r) && r.insertCategories.Threw?)
    && !r.readCategories.Threw?
    && !r.countProducts.Threw?
  }

  /** The message of a throw in the category step (the first two calls), if one happened. */
  function CategoryStepThrown(cats: seq<CategoryRow>, r: SeedReplies): Option<string> {
    if r.readNames.Threw? then Some(r.readNames.message)
    else if CategoryInsertIssued(cats, r) && r.insertCategories.Threw? then Some(r.insertCategories.message)
    else None
  }

  /** The product step inserts when fewer than five products were counted and some sample product resolved. */
  predicate ProductInsertIssuedFor(count: nat, catMap: map<string, nat>) {
    count < ProductThreshold && ProductsToAdd(catMap) != []
  }

  /** The products table after the product step. */
  function ProductStepAfter(products: seq<ProductRow>, catMap: map<string, nat>, count: nat, firstId: nat, reply: Reply): seq<ProductRow> {
    if ProductInsertIssuedFor(count, catMap) && reply.Ok? then
      ProductsToAddResolve(catMap);
      products + ProductRows(ProductsToAdd(catMap), catMap, firstId)
    else products
  }

  function ProductStepThrown(catMap: map<string, nat>, count: nat, reply: Reply): Option<string> {
    if ProductInsertIssuedFor(count, catMap) && reply.Threw? then Some(reply.message) else None
  }

  /** The category map the run builds, from the categories as they stand after the category step. */
  function GateMap(cats: seq<CategoryRow>, nextId: nat, r: SeedReplies): map<string, nat> {
    CategoryMapRead(r.readCategories, CategoriesAfter(cats, nextId, r))
  }

  /** The products the run would insert. */
  function ProductPlan(cats: seq<CategoryRow>, nextId: nat, r: SeedReplies): seq<SampleProduct> {
    ProductsToAdd(GateMap(cats, nextId, r))
  }

  predicate ProductInsertIssued(cats: seq<CategoryRow>, products: seq<ProductRow>, nextId: nat, r: SeedReplies) {
    ReachesGate(cats, r) && ProductInsertIssuedFor(CountRead(r.countProducts, products), GateMap(cats, nextId, r))
  }

  function ProductsAfter(cats: seq<CategoryRow>, products: seq<ProductRow>, nextId: nat, r: SeedReplies): seq<ProductRow> {
    if ReachesGate(cats, r) then
      ProductStepAfter(products, GateMap(cats, nextId, r), CountRead(r.countProducts, products),
                       NextIdAfterCategories(cats, nextId, r), r.insertProducts)
    else products
  }

  /** The message of the first call that threw, if one did. */
  function Thrown(cats: seq<CategoryRow>, products: seq<ProductRow>, nextId: nat, r: SeedReplies): Option<string> {
    if CategoryStepThrown(cats, r).Some? then CategoryStepThrown(cats, r)
    else if r.readCategories.Threw? then Some(r.readCategories.message)
    else if r.countProducts.Threw? then Some(r.countProducts.message)
    else ProductStepThrown(GateMap(cats, nextId, r), CountRead(r.countProducts, products), r.insertProducts)
  }

  // ---------------------------------------------------------------------------
  // Properties of the plan

  predicate DistinctNames(cats: seq<CategoryRow>) {
    forall i, j :: 0 <= i < j < |cats| ==> cats[i].name != cats[j].name
  }

  /** `categoryMap` has exactly the names of the rows as keys, and each maps to the id of the last row with that name. */
  lemma {:induction false} CategoryMapMeaning(cats: seq<CategoryRow>)
    ensures forall n :: n in CategoryMapOf(cats) <==> exists k :: 0 <= k < |cats| && cats[k].name == n
    ensures forall n :: n in CategoryMapOf(cats) ==>
      exists k :: 0 <= k < |cats| && cats[k].name == n && CategoryMapOf(cats)[n] == cats[k].id
        && (forall j :: k < j < |cats| ==> cats[j].name != n)
  {
    if cats != [] {
      var init := cats[..|cats| - 1];
      var last := cats[|cats| - 1];
      CategoryMapMeaning(init);
      var m := CategoryMapOf(cats);
      assert m == CategoryMapOf(init)[last.name := last.id];
      forall n ensures n in m <==> exists k :: 0 <= k < |cats| && cats[k].name == n {
        if n in m && n != last.name {
          var k :| 0 <= k < |init| && init[k].name == n;
          assert cats[k].name == n;
        }
        if exists k :: 0 <= k < |cats| && cats[k].name == n {
          var k :| 0 <= k < |cats| && cats[k].name == n;
          if k < |cats| - 1 {
            assert init[k].name == n;
          }
        }
      }
      forall n | n in m
        ensures exists k :: 0 <= k < |cats| && cats[k].name == n && m[n] == cats[k].id && (forall j :: k < j < |cats| ==> cats[j].name != n)
      {
        if n == last.name {
          assert cats[|cats| - 1].name == n && m[n] == cats[|cats| - 1].id;
        } else {
          var k :| 0 <= k < |init| && init[k].name == n && CategoryMapOf(init)[n] == init[k].id
            && (forall j :: k < j < |init| ==> init[j].name != n);
          assert cats[k] == init[k];
          forall j | k < j < |cats| ensures cats[j].name != n {
            if j < |cats| - 1 {
              assert cats[j] == init[j];
            }
          }
        }
      }
    }
  }

  /** Example: a later row with a name already seen overwrites the earlier id. */
  lemma LaterDuplicateWins()
    ensures CategoryMapOf([CategoryRow(1, "Snacks", ""), CategoryRow(2, "Snacks", "")])["Snacks"] == 2
  {
    var cats := [CategoryRow(1, "Snacks", ""), CategoryRow(2, "Snacks", "")];
    assert cats[..1] == [CategoryRow(1, "Snacks", "")];
    assert cats[..1][..0] == [];
  }

  /** A sample category whose name already exists is never inserted again; the rest all are. */
  lemma CategoriesToAddMeaning(existing: seq<string>)
    ensures forall k :: 0 <= k < |CategoriesToAdd(existing)| ==> CategoriesToAdd(existing)[k].name !in existing
    ensures forall k :: 0 <= k < |SampleCategories| && SampleCategories[k].name !in existing ==>
      SampleCategories[k] in CategoriesToAdd(existing)
    ensures IsSubsequence(CategoriesToAdd(existing), SampleCategories)
  {
    FilterIsSubsequence(NotAmong(existing), SampleCategories);
  }

  /** When every sample name exists, no category insert is issued. */
  lemma AllPresentNothingToAdd(existing: seq<string>)
    requires forall k :: 0 <= k < |SampleCategories| ==> SampleCategories[k].name in existing
    ensures CategoriesToAdd(existing) == []
  {
  }

  predicate AllSampleNamesResolve(catMap: map<string, nat>) {
    forall k :: 0 <= k < |SampleCategories| ==> SampleCategories[k].name in catMap
  }

  /** When every sample category resolves, all ten sample products are inserted. */
  lemma AllResolveAllProducts(catMap: map<string, nat>)
    requires AllSampleNamesResolve(catMap)
    ensures ProductsToAdd(catMap) == SampleProducts
  {
    assert SampleCategories[0].name == "Main Dishes" && SampleCategories[1].name == "Beverages";
    assert SampleCategories[2].name == "Sides" && SampleCategories[3].name == "Snacks";
    FilterKeepsAll(Resolves(catMap), SampleProducts);
  }

  /** An inserted product names, by id, a category row carrying its category name. */
  lemma ProductsReferenceCategories(cats: seq<CategoryRow>, ps: seq<SampleProduct>, firstId: nat)
    requires forall k :: 0 <= k < |ps| ==> ps[k].categoryName in CategoryMapOf(cats)
    ensures forall k :: 0 <= k < |ps| ==>
      exists j :: 0 <= j < |cats| && cats[j].id == ProductRows(ps, CategoryMapOf(cats), firstId)[k].categoryId
                 && cats[j].name == ps[k].categoryName
  {
    CategoryMapMeaning(cats);
    var rows := ProductRows(ps, CategoryMapOf(cats), firstId);
    forall k | 0 <= k < |ps|
      ensures exists j :: 0 <= j < |cats| && cats[j].id == rows[k].categoryId && cats[j].name == ps[k].categoryName
    {
      var n := ps[k].categoryName;
      var j :| 0 <= j < |cats| && cats[j].name == n && CategoryMapOf(cats)[n] == cats[j].id;
      assert rows[k].categoryId == CategoryMapOf(cats)[n];
    }
  }

  /** Inserting sample categories whose names are all new keeps the category names distinct. */
  lemma SeedKeepsNamesDistinct(cats: seq<CategoryRow>, nextId: nat, r: SeedReplies)
    requires DistinctNames(cats) && r.readNames.Ok?
    ensures DistinctNames(CategoriesAfter(cats, nextId, r))
  {
    if CategoriesWritten(cats, r) {
      var toAdd := CategoriesToAdd(Names(cats));
      CategoriesToAddMeaning(Names(cats));
      SampleNamesDistinct();
      SubsequenceKeepsDistinct(toAdd, SampleCategories);
      NewRowsKeepNamesDistinct(cats, toAdd, nextId);
    }
  }

  lemma NewRowsKeepNamesDistinct(cats: seq<CategoryRow>, toAdd: seq<SampleCategory>, nextId: nat)
    requires DistinctNames(cats) && DistinctSampleNames(toAdd)
    requires forall k :: 0 <= k < |toAdd| ==> toAdd[k].name !in Names(cats)
    ensures DistinctNames(cats + CategoryRows(toAdd, nextId))
  {
    var added := CategoryRows(toAdd, nextId);
    var all := cats + added;
    forall i, j | 0 <= i < j < |all| ensures all[i].name != all[j].name {
      if j >= |cats| {
        assert all[j] == added[j - |cats|];
        if i >= |cats| {
          assert all[i] == added[i - |cats|];
        } else {
          assert Names(cats)[i] == all[i].name;
        }
      }
    }
  }

  predicate DistinctSampleNames(cs: seq<SampleCategory>) {
    forall i, j :: 0 <= i < j < |cs| ==> cs[i].name != cs[j].name
  }

  lemma SampleNamesDistinct()
    ensures DistinctSampleNames(SampleCategories)
  {
  }

  lemma {:induction false} SubsequenceKeepsDistinct(a: seq<SampleCategory>, b: seq<SampleCategory>)
    requires IsSubsequence(a, b) && DistinctSampleNames(b)
    ensures DistinctSampleNames(a)
    decreases |b|
  {
    if a != [] {
      assert b != [];
      if a[0] == b[0] && IsSubsequence(a[1..], b[1..]) {
        SubsequenceKeepsDistinct(a[1..], b[1..]);
        SubsequenceMembers(a[1..], b[1..]);
        forall i, j | 0 <= i < j < |a| ensures a[i].name != a[j].name {
          assert a[j] == a[1..][j - 1];
          if i > 0 {
            assert a[i] == a[1..][i - 1];
          } else {
            var w :| 0 <= w < |b[1..]| && b[1..][w] == a[1..][j - 1];
            assert b[w + 1] == a[j];
          }
        }
      } else {
        SubsequenceKeepsDistinct(a, b[1..]);
      }
    }
  }

  lemma {:induction false} SubsequenceMembers<T>(a: seq<T>, b: seq<T>)
    requires IsSubsequence(a, b)
    ensures forall k :: 0 <= k < |a| ==> exists w :: 0 <= w < |b| && b[w] == a[k]
    decreases |b|
  {
    if a != [] {
      if a[0] == b[0] && IsSubsequence(a[1..], b[1..]) {
        SubsequenceMembers(a[1..], b[1..]);
        forall k | 0 <= k < |a| ensures exists w :: 0 <= w < |b| && b[w] == a[k] {
          if k == 0 {
            assert b[0] == a[0];
          } else {
            assert a[k] == a[1..][k - 1];
            var w :| 0 <= w < |b[1..]| && b[1..][w] == a[1..][k - 1];
            assert b[w + 1] == a[k];
          }
        }
      } else {
        SubsequenceMembers(a, b[1..]);
        forall k | 0 <= k < |a| ensures exists w :: 0 <= w < |b| && b[w] == a[k] {
          var w :| 0 <= w < |b[1..]| && b[1..][w] == a[k];
          assert b[w + 1] == a[k];
        }
      }
    }
  }

  /** With at least five products counted, no product is inserted. */
  lemma EnoughProductsNoInsert(cats: seq<CategoryRow>, products: seq<ProductRow>, nextId: nat, r: SeedReplies)
    requires r.countProducts.Ok? && |products| >= ProductThreshold
    ensures ProductsAfter(cats, products, nextId, r) == products
  {
  }

  /** A failed count reads as zero, so the products are inserted again whatever the table holds. */
  lemma FailedCountSeedsAgain(cats: seq<CategoryRow>, products: seq<ProductRow>, nextId: nat, r: SeedReplies)
    requires r.countProducts.Failed? && ReachesGate(cats, r) && ProductPlan(cats, nextId, r) != []
    ensures ProductInsertIssued(cats, products, nextId, r)
  {
  }

  /** Only a thrown error fails the run: reported errors on every call still end in success. */
  lemma ReportedErrorsStillSucceed(cats: seq<CategoryRow>, products: seq<ProductRow>, nextId: nat)
    ensures Thrown(cats, products, nextId, SeedReplies(Failed, Failed, Failed, Failed, Failed)) == None
    ensures CategoriesAfter(cats, nextId, SeedReplies(Failed, Failed, Failed, Failed, Failed)) == cats
    ensures ProductsAfter(cats, products, nextId, SeedReplies(Failed, Failed, Failed, Failed, Failed)) == products
  {
  }

  /**
   * Idempotence: once every sample category exists and at least five products do,
   * a run whose reads succeed changes nothing and reports success.
   */
  lemma SeededStoreUnchanged(cats: seq<CategoryRow>, products: seq<ProductRow>, nextId: nat, r: SeedReplies)
    requires r.readNames.Ok? && !r.readCategories.Threw? && r.countProducts.Ok?
    requires AllSampleNamesPresent(cats)
    requires |products| >= ProductThreshold
    ensures CategoriesAfter(cats, nextId, r) == cats
    ensures ProductsAfter(cats, products, nextId, r) == products
    ensures Thrown(cats, products, nextId, r) == None
  {
    NothingMissing(cats, r);
    EnoughProductsNoInsert(cats, products, nextId, r);
    NoThrowWhenNothingIssued(cats, products, nextId, r);
  }

  /** Every sample category name is carried by some category row. */
  predicate AllSampleNamesPresent(cats: seq<CategoryRow>) {
    forall k :: 0 <= k < |SampleCategories| ==> exists j :: 0 <= j < |cats| && cats[j].name == SampleCategories[k].name
  }

  /** When every sample name is present, the category step issues no insert. */
  lemma NothingMissing(cats: seq<CategoryRow>, r: SeedReplies)
    requires r.readNames.Ok?
    requires AllSampleNamesPresent(cats)
    ensures !CategoryInsertIssued(cats, r)
  {
    forall k | 0 <= k < |SampleCategories| ensures SampleCategories[k].name in Names(cats) {
      var j :| 0 <= j < |cats| && cats[j].name == SampleCategories[k].name;
      assert Names(cats)[j] == cats[j].name;
    }
    AllPresentNothingToAdd(Names(cats));
  }

  lemma NoThrowWhenNothingIssued(cats: seq<CategoryRow>, products: seq<ProductRow>, nextId: nat, r: SeedReplies)
    requires !r.readNames.Threw? && !r.readCategories.Threw? && r.countProducts.Ok?
    requires !CategoryInsertIssued(cats, r) && |products| >= ProductThreshold
    ensures Thrown(cats, products, nextId, r) == None
  {
  }

  /** On an empty store with every call succeeding, a run adds the four categories and all ten products. */
  lemma EmptyStoreFirstRun(nextId: nat, r: SeedReplies)
    requires AllOk(r)
    ensures CategoriesAfter([], nextId, r) == CategoryRows(SampleCategories, nextId)
    ensures |ProductsAfter([], [], nextId, r)| == 10
    ensures Thrown([], [], nextId, r) == None
  {
    FirstRunCategories([], nextId, r);
    FirstRunProducts(nextId, r);
    FirstRunNoThrow(nextId, r);
  }

  lemma FirstRunProducts(nextId: nat, r: SeedReplies)
    requires AllOk(r)
    ensures |ProductsAfter([], [], nextId, r)| == 10
  {
    FewProductsGainAll([], [], nextId, r);
  }

  /** A run that reaches the product step and issues a successful insert adds one row per planned product. */
  lemma RunWritesPlan(cats: seq<CategoryRow>, products: seq<ProductRow>, nextId: nat, r: SeedReplies)
    requires ProductInsertIssued(cats, products, nextId, r) && r.insertProducts.Ok?
    ensures |ProductsAfter(cats, products, nextId, r)| == |products| + |ProductPlan(cats, nextId, r)|
  {
    ProductStepWrites(products, GateMap(cats, nextId, r), CountRead(r.countProducts, products), NextIdAfterCategories(cats, nextId, r));
  }

  /** An issued product insert that succeeds adds one row per resolved sample product. */
  lemma ProductStepWrites(products: seq<ProductRow>, catMap: map<string, nat>, count: nat, firstId: nat)
    requires ProductInsertIssuedFor(count, catMap)
    ensures |ProductStepAfter(products, catMap, count, firstId, Ok)| == |products| + |ProductsToAdd(catMap)|
  {
  }

  lemma FirstRunNoThrow(nextId: nat, r: SeedReplies)
    requires AllOk(r)
    ensures Thrown([], [], nextId, r) == None
  {
  }

  lemma FirstRunCategories(cats: seq<CategoryRow>, nextId: nat, r: SeedReplies)
    requires cats == [] && AllOk(r)
    ensures CategoriesAfter(cats, nextId, r) == CategoryRows(SampleCategories, nextId)
  {
    var toAdd := CategoriesToAdd(ExistingNames(r.readNames, cats));
    EmptyNamesAddAll(cats);
    assert |toAdd| == 4;
    assert CategoriesWritten(cats, r);
    assert CategoriesAfter(cats, nextId, r) == cats + CategoryRows(toAdd, nextId);
  }

  lemma EmptyNamesAddAll(cats: seq<CategoryRow>)
    requires cats == []
    ensures CategoriesToAdd(Names(cats)) == SampleCategories
  {
    assert Names(cats) == [];
    FilterKeepsAll(NotAmong(Names(cats)), SampleCategories);
  }

  /** The five store calls all succeed. */
  predicate AllOk(r: SeedReplies) {
    r == SeedReplies(Ok, Ok, Ok, Ok, Ok)
  }

  /** A category step whose insert succeeds leaves every sample name present, whatever the store held before. */
  lemma CategoryStepCompletesNames(cats: seq<CategoryRow>, nextId: nat, r: SeedReplies)
    requires !r.readNames.Threw? && r.insertCategories.Ok?
    ensures AllSampleNamesPresent(CategoriesAfter(cats, nextId, r))
  {
    forall k | 0 <= k < |SampleCategories|
      ensures exists j :: 0 <= j < |CategoriesAfter(cats, nextId, r)| && CategoriesAfter(cats, nextId, r)[j].name == SampleCategories[k].name
    {
      SampleNameAfter(cats, nextId, r, k);
    }
  }

  lemma SampleNameAfter(cats: seq<CategoryRow>, nextId: nat, r: SeedReplies, k: nat)
    requires !r.readNames.Threw? && r.insertCategories.Ok? && k < |SampleCategories|
    ensures exists j :: 0 <= j < |CategoriesAfter(cats, nextId, r)| && CategoriesAfter(cats, nextId, r)[j].name == SampleCategories[k].name
  {
    if SampleCategories[k].name in ExistingNames(r.readNames, cats) {
      ExistingNameKept(cats, nextId, r, SampleCategories[k].name);
    } else {
      MissingNameAdded(cats, nextId, r, k);
    }
  }

  /** The category step never removes or reorders a row. */
  lemma ExistingNameKept(cats: seq<CategoryRow>, nextId: nat, r: SeedReplies, n: string)
    requires n in ExistingNames(r.readNames, cats)
    ensures exists j :: 0 <= j < |CategoriesAfter(cats, nextId, r)| && CategoriesAfter(cats, nextId, r)[j].name == n
  {
    var existing := ExistingNames(r.readNames, cats);
    var i :| 0 <= i < |existing| && existing[i] == n;
    assert cats[i].name == n;
    var after := CategoriesAfter(cats, nextId, r);
    assert after[i] == cats[i];
  }

  /** A sample category missing from the names read is appended by a successful insert. */
  lemma MissingNameAdded(cats: seq<CategoryRow>, nextId: nat, r: SeedReplies, k: nat)
    requires !r.readNames.Threw? && r.insertCategories.Ok?
    requires k < |SampleCategories| && SampleCategories[k].name !in ExistingNames(r.readNames, cats)
    ensures exists j :: 0 <= j < |CategoriesAfter(cats, nextId, r)| && CategoriesAfter(cats, nextId, r)[j].name == SampleCategories[k].name
  {
    var toAdd := CategoriesToAdd(ExistingNames(r.readNames, cats));
    CategoriesToAddMeaning(ExistingNames(r.readNames, cats));
    assert SampleCategories[k] in toAdd;
    var i :| 0 <= i < |toAdd| && toAdd[i] == SampleCategories[k];
    assert CategoriesWritten(cats, r);
    var rows := CategoryRows(toAdd, nextId);
    assert rows[i].name == SampleCategories[k].name;
    var after := CategoriesAfter(cats, nextId, r);
    assert after == cats + rows;
    assert after[|cats| + i] == rows[i];
  }

  /** Rows carrying every sample name resolve every sample category. */
  lemma PresentNamesResolve(cats: seq<CategoryRow>)
    requires AllSampleNamesPresent(cats)
    ensures AllSampleNamesResolve(CategoryMapOf(cats))
  {
    CategoryMapMeaning(cats);
  }

  /** When the category step succeeds and the category read is answered, the run plans all ten sample products. */
  lemma ReadableStorePlansAllProducts(cats: seq<CategoryRow>, nextId: nat, r: SeedReplies)
    requires !r.readNames.Threw? && r.insertCategories.Ok? && r.readCategories.Ok?
    ensures ProductPlan(cats, nextId, r) == SampleProducts
  {
    CategoryStepCompletesNames(cats, nextId, r);
    PresentNamesResolve(CategoriesAfter(cats, nextId, r));
    AllResolveAllProducts(GateMap(cats, nextId, r));
  }

  /** A store holding fewer than five products gains all ten sample products when every call succeeds. */
  lemma FewProductsGainAll(cats: seq<CategoryRow>, products: seq<ProductRow>, nextId: nat, r: SeedReplies)
    requires AllOk(r) && |products| < ProductThreshold
    ensures AppendsRows(ProductsAfter(cats, products, nextId, r), products, SampleProducts, GateMap(cats, nextId, r), NextIdAfterCategories(cats, nextId, r))
  {
    ReadableStorePlansAllProducts(cats, nextId, r);
    ProductStepAddsPlan(products, GateMap(cats, nextId, r), CountRead(r.countProducts, products), NextIdAfterCategories(cats, nextId, r), SampleProducts);
  }

  /**
   * `after` is `products` followed by one row per product of `ps`, in order,
   * numbered from `firstId`, each with its category resolved through `catMap`.
   */
  predicate AppendsRows(after: seq<ProductRow>, products: seq<ProductRow>, ps: seq<SampleProduct>, catMap: map<string, nat>, firstId: nat) {
    && (forall k :: 0 <= k < |ps| ==> ps[k].categoryName in catMap)
    && after == products + ProductRows(ps, catMap, firstId)
  }

  /** An issued insert that succeeds appends one row per planned product, each planned product having resolved. */
  lemma ProductStepAddsPlan(products: seq<ProductRow>, catMap: map<string, nat>, count: nat, firstId: nat, plan: seq<SampleProduct>)
    requires count < ProductThreshold && ProductsToAdd(catMap) == plan && plan != []
    ensures AppendsRows(ProductStepAfter(products, catMap, count, firstId, Ok), products, plan, catMap, firstId)
  {
    ProductsToAddResolve(catMap);
    assert ProductInsertIssuedFor(count, catMap);
  }

  /** The first run fills an empty store, and a second run on the result changes nothing. */
  lemma SeedTwice(nextId: nat, r: SeedReplies)
    requires AllOk(r)
    ensures var cats := CategoriesAfter([], nextId, r);
      var products := ProductsAfter([], [], nextId, r);
      var id2 := NextIdAfterCategories([], nextId, r) + |SampleProducts|;
      CategoriesAfter(cats, id2, r) == cats && ProductsAfter(cats, products, id2, r) == products
  {
    EmptyStoreFirstRun(nextId, r);
    var cats := CategoriesAfter([], nextId, r);
    var products := ProductsAfter([], [], nextId, r);
    var id2 := NextIdAfterCategories([], nextId, r) + |SampleProducts|;
    CategoryStepCompletesNames([], nextId, r);
    SeededStoreUnchanged(cats, products, id2, r);
  }

  // ---------------------------------------------------------------------------
  // The store and the seeding run

  predicate IdsBelowCategories(cats: seq<CategoryRow>, bound: nat) {
    forall k :: 0 <= k < |cats| ==> cats[k].id < bound
  }

  predicate IdsBelowProducts(products: seq<ProductRow>, bound: nat) {
    forall k :: 0 <= k < |products| ==> products[k].id < bound
  }

  predicate DistinctCategoryIds(cats: seq<CategoryRow>) {
    forall i, j :: 0 <= i < j < |cats| ==> cats[i].id != cats[j].id
  }

  predicate DistinctProductIds(products: seq<ProductRow>) {
    forall i, j :: 0 <= i < j < |products| ==> products[i].id != products[j].id
  }

  /** Category rows with distinct ids, all drawn below `bound`. */
  predicate CategoriesNumbered(cats: seq<CategoryRow>, bound: nat) {
    IdsBelowCategories(cats, bound) && DistinctCategoryIds(cats)
  }

  /** Product rows with distinct ids, all drawn below `bound`. */
  predicate ProductsNumbered(products: seq<ProductRow>, bound: nat) {
    IdsBelowProducts(products, bound) && DistinctProductIds(products)
  }

  /** `BuildCategoryMap`'s loop: the map each prefix of the rows yields. */
  method BuildCategoryMap(cats: seq<CategoryRow>) returns (m: map<string, nat>)
    ensures m == CategoryMapOf(cats)
  {
    m := map[];
    var i := 0;
    while i < |cats|
      invariant 0 <= i <= |cats|
      invariant m == CategoryMapOf(cats[..i])
    {
      assert cats[..i + 1][..i] == cats[..i];
      m := m[cats[i].name := cats[i].id];
      i := i + 1;
    }
    assert cats[..i] == cats;
  }

  /** The `categories` and `products` tables, with the counter the store draws new ids from. */
  class StoreTables {
    var categories: seq<CategoryRow>
    var products: seq<ProductRow>
    var nextId: nat

    /** Every id was drawn from the counter, so ids are distinct and below it. */
    ghost predicate Valid()
      reads this
    {
      CategoriesNumbered(categories, nextId) && ProductsNumbered(products, nextId)
    }

    constructor (categories: seq<CategoryRow>, products: seq<ProductRow>, nextId: nat)
      requires CategoriesNumbered(categories, nextId) && ProductsNumbered(products, nextId)
      ensures Valid()
      ensures this.categories == categories && this.products == products && this.nextId == nextId
    {
      this.categories := categories;
      this.products := products;
      this.nextId := nextId;
    }

    /** A successful insert of categories: one new row per entry, with fresh ids. */
    method InsertCategories(cs: seq<SampleCategory>)
      requires Valid()
      modifies this`categories, this`nextId
      ensures Valid()
      ensures categories == old(categories) + CategoryRows(cs, old(nextId))
      ensures nextId == old(nextId) + |cs|
    {
      var added := CategoryRows(cs, nextId);
      var all := categories + added;
      forall i, j | 0 <= i < j < |all| ensures all[i].id != all[j].id {
        if j >= |categories| {
          assert all[j] == added[j - |categories|];
          if i >= |categories| {
            assert all[i] == added[i - |categories|];
          }
        }
      }
      categories := all;
      nextId := nextId + |cs|;
    }

    /** A successful insert of products: one new row per entry, with fresh ids. */
    method InsertProducts(ps: seq<SampleProduct>, catMap: map<string, nat>)
      requires Valid()
      requires forall k :: 0 <= k < |ps| ==> ps[k].categoryName in catMap
      modifies this`products, this`nextId
      ensures Valid()
      ensures products == old(products) + ProductRows(ps, catMap, old(nextId))
      ensures nextId == old(nextId) + |ps|
    {
      var added := ProductRows(ps, catMap, nextId);
      var all := products + added;
      forall i, j | 0 <= i < j < |all| ensures all[i].id != all[j].id {
        if j >= |products| {
          assert all[j] == added[j - |products|];
          if i >= |products| {
            assert all[i] == added[i - |products|];
          }
        }
      }
      products := all;
      nextId := nextId + |ps|;
    }
  }

  /** The first two calls: read the existing names and insert the missing sample categories. */
  method SeedCategories(store: StoreTables, replies: SeedReplies) returns (thrown: Option<string>)
    requires store.Valid()
    modifies store`categories, store`nextId
    ensures store.Valid()
    ensures store.categories == CategoriesAfter(old(store.categories), old(store.nextId), replies)
    ensures store.nextId == NextIdAfterCategories(old(store.categories), old(store.nextId), replies)
    ensures thrown == CategoryStepThrown(old(store.categories), replies)
  {
    if replies.readNames.Threw? {
      return Some(replies.readNames.message);
    }
    var existingNames := ExistingNames(replies.readNames, store.categories);
    var categoriesToAdd := CategoriesToAdd(existingNames);
    if |categoriesToAdd| > 0 {
      assert CategoryInsertIssued(store.categories, replies);
      if replies.insertCategories.Threw? {
        return Some(replies.insertCategories.message);
      }
      if replies.insertCategories.Ok? {
        store.InsertCategories(categoriesToAdd);
      }
      return None;
    }
    assert !CategoryInsertIssued(store.categories, replies);
    return None;
  }

  /** The last call: insert the resolved sample products when fewer than five products were counted. */
  method SeedProducts(store: StoreTables, insertReply: Reply, productCount: nat, categoryMap: map<string, nat>)
    returns (thrown: Option<string>)
    requires store.Valid()
    modifies store`products, store`nextId
    ensures store.Valid()
    ensures store.products == ProductStepAfter(old(store.products), categoryMap, productCount, old(store.nextId), insertReply)
    ensures thrown == ProductStepThrown(categoryMap, productCount, insertReply)
  {
    if productCount < ProductThreshold {
      var productsToAdd := ProductsToAdd(categoryMap);
      if |productsToAdd| > 0 {
        assert ProductInsertIssuedFor(productCount, categoryMap);
        if insertReply.Threw? {
          return Some(insertReply.message);
        }
        if insertReply.Ok? {
          ProductsToAddResolve(categoryMap);
          store.InsertProducts(productsToAdd, categoryMap);
        }
        return None;
      }
    }
    assert !ProductInsertIssuedFor(productCount, categoryMap);
    return None;
  }

  /**
   * `seedKenyanFood`. Reported errors are ignored (a failed read yields no data);
   * the first thrown error ends the run with its message.
   */
  method SeedKenyanFood(store: StoreTables, replies: SeedReplies) returns (success: bool, message: string)
    requires store.Valid()
    modifies store
    ensures store.Valid()
    ensures store.categories == CategoriesAfter(old(store.categories), old(store.nextId), replies)
    ensures store.products == ProductsAfter(old(store.categories), old(store.products), old(store.nextId), replies)
    ensures success <==> Thrown(old(store.categories), old(store.products), old(store.nextId), replies).None?
    ensures !success ==> message == Thrown(old(store.categories), old(store.products), old(store.nextId), replies).value
    ensures success ==> message == SuccessMessage
  {
    ghost var cats0, products0, id0 := store.categories, store.products, store.nextId;
    var thrown := SeedCategories(store, replies);
    if thrown.Some? {
      return false, thrown.value;
    }

    if replies.readCategories.Threw? {
      return false, replies.readCategories.message;
    }
    var categoryMap: map<string, nat> := map[];
    if replies.readCategories.Ok? {
      categoryMap := BuildCategoryMap(store.categories);
    }
    assert categoryMap == GateMap(cats0, id0, replies);

    if replies.countProducts.Threw? {
      return false, replies.countProducts.message;
    }
    var productCount := CountRead(replies.countProducts, store.products);
    assert ReachesGate(cats0, replies);
    thrown := SeedProducts(store, replies.insertProducts, productCount, categoryMap);
    if thrown.Some? {
      return false, thrown.value;
    }
    return true, SuccessMessage;
  }
}
