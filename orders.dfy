/** The product selection and total of order creation: the stored products
    whose key is among the requested ones, in store order, and the sum of
    their prices. */
module Orders {
  import opened Records

  /** The stored products whose id occurs in `ids`; unknown ids select
      nothing and repeated ids select a product once. */
  function Selected(ps: seq<Product>, ids: seq<nat>): (r: seq<Product>)
    ensures forall p :: p in r <==> p in ps && p.id in ids
    ensures |r| <= |ps|
  {
    if ps == [] then []
    else (if ps[0].id in ids then [ps[0]] else []) + Selected(ps[1..], ids)
  }

  /** The selection depends only on which ids are requested, not on their
      order or how often they are repeated. */
  lemma {:induction false} SelectedIgnoresOrderAndRepeats(ps: seq<Product>, ids1: seq<nat>, ids2: seq<nat>)
    requires forall x :: x in ids1 <==> x in ids2
    ensures Selected(ps, ids1) == Selected(ps, ids2)
  {
    if ps != [] {
      SelectedIgnoresOrderAndRepeats(ps[1..], ids1, ids2);
    }
  }

  /** Over a table with distinct keys, each selected product is a different
      product: the selection lists every matching product exactly once. */
  lemma {:induction false} SelectedDistinct(ps: seq<Product>, ids: seq<nat>)
    requires ProductIdsDistinct(ps)
    ensures ProductIdsDistinct(Selected(ps, ids))
  {
    if ps != [] {
      var rest := Selected(ps[1..], ids);
      assert ProductIdsDistinct(ps[1..]) by {
        forall i, j | 0 <= i < j < |ps| - 1 ensures ps[1..][i].id != ps[1..][j].id {
          assert ps[1..][i] == ps[i + 1] && ps[1..][j] == ps[j + 1];
        }
      }
      SelectedDistinct(ps[1..], ids);
      forall q | q in rest ensures q.id != ps[0].id {
        var k :| 0 <= k < |ps[1..]| && ps[1..][k] == q;
        assert ps[k + 1] == q;
      }
    }
  }

  /** The ids of the selected products: the requested ids that name a stored product. */
  function SelectedIds(ps: seq<Product>, ids: seq<nat>): (r: set<nat>)
    ensures r == ProductIds(ps) * (set x | x in ids)
  {
    var sel := Selected(ps, ids);
    var r := set p | p in sel :: p.id;
    assert forall x :: x in ProductIds(ps) && x in ids ==> x in r by {
      forall x | x in ProductIds(ps) && x in ids ensures x in r {
        var p :| p in ps && p.id == x;
        assert p in sel;
      }
    }
    r
  }

  /** The sum of the prices of `ps`. With positive prices every product adds
      at least one cent, so a non-empty selection has a positive total. */
  function Total(ps: seq<Product>): (r: int)
    ensures (forall p :: p in ps ==> p.price > 0) ==> r >= |ps|
  {
    if ps == [] then 0 else ps[0].price + Total(ps[1..])
  }

  /** Two products priced 10.00 and 5.50 give an order total of 15.50. */
  lemma TotalExample()
    ensures var ps := [Product(1, "A", 1000, 5), Product(2, "B", 550, 5)];
      Total(Selected(ps, [1, 2])) == 1550
  {
    var ps := [Product(1, "A", 1000, 5), Product(2, "B", 550, 5)];
    assert ps[1..] == [Product(2, "B", 550, 5)];
    assert ps[1..][1..] == [];
    assert Selected(ps, [1, 2]) == ps;
  }
}
