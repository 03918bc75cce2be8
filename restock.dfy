/** The low-stock maintenance mutation: every product whose stock is below
    10 gets 10 more units, and the mutation reports the restocked products
    and how many there were. */
module LowStock {
  import opened Text
  import opened Records
  import Crm

  const LowStockThreshold := 10
  const RestockAmount := 10

  predicate IsLow(p: Product) {
    p.stock < LowStockThreshold
  }

  function Restocked(p: Product): Product {
    p.(stock := p.stock + RestockAmount)
  }

  /** A product as the restock leaves it: only the stock can change, it
      changes exactly when the product is low, and a product whose stock was
      not negative holds at least 10 units afterwards. */
  function RestockOne(p: Product): (r: Product)
    ensures r.id == p.id && r.name == p.name && r.price == p.price
    ensures r.stock == if p.stock < 10 then p.stock + 10 else p.stock
    ensures r.stock != p.stock <==> p.stock < 10
    ensures p.stock >= 0 ==> r.stock >= 10
  {
    if IsLow(p) then Restocked(p) else p
  }

  /** The product table after the restock: each low product topped up, every
      other product as it was, positions unchanged. */
  function RestockAll(ps: seq<Product>): (r: seq<Product>)
    ensures |r| == |ps|
    decreases |ps|
  {
    if ps == [] then []
    else
      RestockAll(ps[..|ps| - 1]) + [RestockOne(ps[|ps| - 1])]
  }

  /** Position by position, the restocked table holds each product as the
      restock leaves it. */
  lemma {:induction false} RestockAllAt(ps: seq<Product>)
    ensures forall i :: 0 <= i < |ps| ==> RestockAll(ps)[i] == RestockOne(ps[i])
    decreases |ps|
  {
    if ps != [] {
      var init := ps[..|ps| - 1];
      RestockAllAt(init);
      assert forall i :: 0 <= i < |init| ==> init[i] == ps[i];
    }
  }

  /** A product below 10 gains 10 units, any other product keeps its stock,
      and no id, name or price changes. */
  lemma RestockChangesOnlyLowStock(ps: seq<Product>)
    ensures |RestockAll(ps)| == |ps|
    ensures forall i :: 0 <= i < |ps| ==>
      && RestockAll(ps)[i].id == ps[i].id && RestockAll(ps)[i].name == ps[i].name
      && RestockAll(ps)[i].price == ps[i].price
      && RestockAll(ps)[i].stock == (if ps[i].stock < 10 then ps[i].stock + 10 else ps[i].stock)
  {
    RestockAllAt(ps);
  }

  /** The restocked products, in store order, as they are after the top-up. */
  function UpdatedProducts(ps: seq<Product>): (r: seq<Product>)
    ensures |r| <= |ps|
    decreases |ps|
  {
    if ps == [] then []
    else
      var last := ps[|ps| - 1];
      UpdatedProducts(ps[..|ps| - 1]) + (if IsLow(last) then [Restocked(last)] else [])
  }

  /** The reported products are exactly the products that started below 10,
      each with 10 more units. */
  lemma {:induction false} UpdatedProductsExactlyLow(ps: seq<Product>)
    ensures forall q :: q in UpdatedProducts(ps) <==>
      exists i :: 0 <= i < |ps| && ps[i].stock < 10 && q == ps[i].(stock := ps[i].stock + 10)
    decreases |ps|
  {
    if ps != [] {
      var init := ps[..|ps| - 1];
      UpdatedProductsExactlyLow(init);
      assert forall i :: 0 <= i < |init| ==> init[i] == ps[i];
    }
  }

  /** The positions of the low products, in increasing order. */
  function LowPositions(ps: seq<Product>): (r: seq<nat>)
    ensures forall j :: 0 <= j < |r| ==> r[j] < |ps| && IsLow(ps[r[j]])
    ensures forall j, k :: 0 <= j < k < |r| ==> r[j] < r[k]
    ensures forall i :: 0 <= i < |ps| && IsLow(ps[i]) ==> i in r
    decreases |ps|
  {
    if ps == [] then []
    else
      var init := ps[..|ps| - 1];
      assert forall i :: 0 <= i < |init| ==> init[i] == ps[i];
      LowPositions(init) + (if IsLow(ps[|ps| - 1]) then [|ps| - 1] else [])
  }

  /** The report lists, in store order, the restocked form of the product at
      each low position and nothing else. */
  lemma {:induction false} UpdatedInStoreOrder(ps: seq<Product>)
    ensures |UpdatedProducts(ps)| == |LowPositions(ps)|
    ensures forall j :: 0 <= j < |LowPositions(ps)| ==> UpdatedProducts(ps)[j] == Restocked(ps[LowPositions(ps)[j]])
    decreases |ps|
  {
    if ps != [] {
      var init := ps[..|ps| - 1];
      var last := ps[|ps| - 1];
      UpdatedInStoreOrder(init);
      var up, lp := UpdatedProducts(init), LowPositions(init);
      assert UpdatedProducts(ps) == up + (if IsLow(last) then [Restocked(last)] else []);
      assert LowPositions(ps) == lp + (if IsLow(last) then [|ps| - 1] else []);
      var upAll, lpAll := UpdatedProducts(ps), LowPositions(ps);
      forall j | 0 <= j < |lpAll|
        ensures upAll[j] == Restocked(ps[lpAll[j]])
      {
        if j < |lp| {
          assert upAll[j] == up[j] && lpAll[j] == lp[j];
          assert init[lp[j]] == ps[lp[j]];
        }
      }
    }
  }

  /** The message the mutation returns; the number at its head reads back
      as the count it was built from. */
  function CountMessage(n: nat): (r: string)
    ensures DecimalValue(LeadingDigits(r)) == n
  {
    LeadingDigitsOfConcat(Decimal(n), " products updated successfully.");
    DecimalRoundTrip(n);
    Decimal(n) + " products updated successfully."
  }

  predicate StocksNonNegative(ps: seq<Product>) {
    forall i :: 0 <= i < |ps| ==> ps[i].stock >= 0
  }

  /** With no negative stock to begin with, no stock is negative afterwards
      and every restocked product holds at least 10 units. */
  lemma RestockKeepsStocksNonNegative(ps: seq<Product>)
    requires StocksNonNegative(ps)
    ensures StocksNonNegative(RestockAll(ps))
    ensures forall q :: q in UpdatedProducts(ps) ==> q.stock >= 10
  {
    RestockAllAt(ps);
    UpdatedProductsExactlyLow(ps);
  }

  /** With no negative stock to begin with, every product holds at least 10
      units after one restock, so a second restock right after it changes
      nothing and reports no product. */
  lemma SecondRestockChangesNothing(ps: seq<Product>)
    requires StocksNonNegative(ps)
    ensures UpdatedProducts(RestockAll(ps)) == []
    ensures RestockAll(RestockAll(ps)) == RestockAll(ps)
  {
    RestockAllAt(ps);
    RestockAllAt(RestockAll(ps));
    UpdatedProductsExactlyLow(RestockAll(ps));
  }

  /** Stocks 3, 12 and 9 become 13, 12 and 19, and the first and third
      products are reported. */
  lemma RestockExample()
    ensures var ps := [Product(1, "A", 100, 3), Product(2, "B", 100, 12), Product(3, "C", 100, 9)];
      && RestockAll(ps) == [Product(1, "A", 100, 13), Product(2, "B", 100, 12), Product(3, "C", 100, 19)]
      && UpdatedProducts(ps) == [Product(1, "A", 100, 13), Product(3, "C", 100, 19)]
  {
    var ps := [Product(1, "A", 100, 3), Product(2, "B", 100, 12), Product(3, "C", 100, 9)];
    assert ps[..2][..1] == [ps[0]];
    assert ps[..2][..1][..0] == [];
    assert UpdatedProducts(ps[..2][..1]) == [Restocked(ps[0])];
    assert UpdatedProducts(ps[..2]) == [Restocked(ps[0])];
  }

  /** Extending the processed prefix by one product extends the report by
      that product's outcome. */
  lemma UpdatedProductsStep(ps: seq<Product>, i: nat)
    requires i < |ps|
    ensures UpdatedProducts(ps[..i + 1]) == UpdatedProducts(ps[..i]) + (if IsLow(ps[i]) then [Restocked(ps[i])] else [])
  {
    assert ps[..i + 1][..i] == ps[..i];
  }

  /** Walks the product table, tops up each low product in place and
      collects it; the message reports how many were collected. */
  method UpdateLowStockProducts(store: Crm.Store) returns (success: string, updated: seq<Product>)
    requires store.Valid()
    modifies store`products
    ensures store.Valid()
    ensures store.products == RestockAll(old(store.products))
    ensures updated == UpdatedProducts(old(store.products))
    ensures success == CountMessage(|updated|)
  {
    ghost var before := store.products;
    updated := [];
    var i := 0;
    while i < |store.products|
      invariant store.Valid()
      invariant 0 <= i <= |store.products| == |before|
      invariant forall k :: 0 <= k < i ==> store.products[k] == RestockOne(before[k])
      invariant forall k :: i <= k < |before| ==> store.products[k] == before[k]
      invariant updated == UpdatedProducts(before[..i])
    {
      UpdatedProductsStep(before, i);
      var product := store.products[i];
      if product.stock < LowStockThreshold {
        product := product.(stock := product.stock + RestockAmount);
        store.SaveProduct(i, product);
        updated := updated + [product];
      }
      i := i + 1;
    }
    assert before[..i] == before;
    RestockAllAt(before);
    success := CountMessage(|updated|);
  }
}
