/** The sale handler of the local-storage generation (App.tsx): a sale is
    recorded from the cart lines and put in front of the ledger, then each
    cart line debits the stock of the first product with its id, in place on a
    copy of the product list. */
module RootApp {
  import opened Seqs
  import opened RootTypes
  import RootPos

  /** The sale record `handleSale` builds: the cart lines verbatim, totalled. */
  function NewSale(cart: seq<CartItem>, id: string, date: string): (s: Sale)
    ensures s.id == id && s.date == date && s.items == cart
    ensures s.total == RootPos.CartTotal(cart)
  {
    Sale(id, date, cart, RootPos.CartTotal(cart))
  }

  /** One step of the `forEach`: the first product with the line's id loses the
      line's quantity; a line with no matching product changes nothing. */
  function DebitOne(products: seq<Product>, line: CartItem): (r: seq<Product>)
    ensures |r| == |products|
    ensures IndexOfId(products, line.Id()) == -1 ==> r == products
    ensures IndexOfId(products, line.Id()) != -1 ==>
      var k := IndexOfId(products, line.Id());
      && r[k] == products[k].(stock := products[k].stock - line.quantity)
      && forall j :: 0 <= j < |products| && j != k ==> r[j] == products[j]
  {
    var i := IndexOfId(products, line.Id());
    if i == -1 then products
    else products[i := products[i].(stock := products[i].stock - line.quantity)]
  }

  /** The product list after the whole `forEach` over the cart lines. */
  function DebitAll(products: seq<Product>, cart: seq<CartItem>): (r: seq<Product>)
    ensures |r| == |products|
    ensures forall i :: 0 <= i < |products| ==> r[i].id == products[i].id
    decreases |cart|
  {
    if cart == [] then products
    else DebitOne(DebitAll(products, cart[..|cart| - 1]), cart[|cart| - 1])
  }

  /** Units of product `id` over all cart lines. */
  function QuantityFor(cart: seq<CartItem>, id: string): int
    decreases |cart|
  {
    if cart == [] then 0
    else QuantityFor(cart[..|cart| - 1], id) + (if cart[|cart| - 1].Id() == id then cart[|cart| - 1].quantity else 0)
  }

  /** `findIndex` by id looks only at ids. */
  lemma IndexOfIdSameIds(a: seq<Product>, b: seq<Product>, id: string)
    requires |a| == |b| && forall i :: 0 <= i < |a| ==> a[i].id == b[i].id
    ensures IndexOfId(a, id) == IndexOfId(b, id)
  {
    var x, y := IndexOfId(a, id), IndexOfId(b, id);
    if x != -1 && y != -1 {
      assert !(x < y) && !(y < x);
    }
  }

  /** What the stock update does, for all inputs: the list keeps its length,
      order, ids and every field but `stock`; the first product with a given id
      loses the summed quantity of all cart lines with that id, so repeated ids
      accumulate; every other product (later duplicates of an id, ids not in the
      cart) keeps its stock, and cart lines with no matching product are ignored. */
  lemma {:induction false} DebitAllEffect(products: seq<Product>, cart: seq<CartItem>)
    ensures |DebitAll(products, cart)| == |products|
    ensures forall i :: 0 <= i < |products| ==>
      DebitAll(products, cart)[i] ==
        products[i].(stock := products[i].stock -
          if IndexOfId(products, products[i].id) == i then QuantityFor(cart, products[i].id) else 0)
    decreases |cart|
  {
    if cart != [] {
      var init, line := cart[..|cart| - 1], cart[|cart| - 1];
      DebitAllEffect(products, init);
      var before := DebitAll(products, init);
      IndexOfIdSameIds(before, products, line.Id());
      var after := DebitAll(products, cart);
      assert after == DebitOne(before, line);
      forall i | 0 <= i < |products|
        ensures after[i] ==
          products[i].(stock := products[i].stock -
            if IndexOfId(products, products[i].id) == i then QuantityFor(cart, products[i].id) else 0)
      {
        var id := products[i].id;
        assert QuantityFor(cart, id) == QuantityFor(init, id) + (if line.Id() == id then line.quantity else 0);
        if line.Id() == id && IndexOfId(products, id) == i {
          assert after[i] == before[i].(stock := before[i].stock - line.quantity);
        } else {
          assert after[i] == before[i];
        }
      }
    }
  }

  /** With one line per product, the units for `id` are those of its line, or none. */
  lemma {:induction false} QuantityForDistinct(cart: seq<CartItem>, id: string)
    requires RootPos.DistinctLines(cart)
    ensures (forall k :: 0 <= k < |cart| ==> cart[k].Id() != id) ==> QuantityFor(cart, id) == 0
    ensures forall k :: 0 <= k < |cart| && cart[k].Id() == id ==> QuantityFor(cart, id) == cart[k].quantity
    decreases |cart|
  {
    if cart != [] {
      var init := cart[..|cart| - 1];
      assert RootPos.DistinctLines(init);
      QuantityForDistinct(init, id);
      assert forall k :: 0 <= k < |init| ==> init[k] == cart[k];
    }
  }

  /** There is no lower-bound check: without the cart invariant a sale can
      drive a stock below zero. */
  lemma NoLowerBoundCheck(p: Product)
    requires p.stock == 1
    ensures |DebitAll([p], [CartItem(p, 2)])| == 1
    ensures DebitAll([p], [CartItem(p, 2)])[0].stock == -1
  {
    assert [CartItem(p, 2)][..0] == [];
    assert IndexOfId([p], p.id) == 0;
  }

  /** A cart that satisfies the point-of-sale invariant against the product list
      never drives a non-negative stock below zero. */
  lemma SaleKeepsStockNonnegative(products: seq<Product>, cart: seq<CartItem>)
    requires forall i :: 0 <= i < |products| ==> products[i].stock >= 0
    requires RootPos.CartInvariant(cart, products)
    ensures forall i :: 0 <= i < |DebitAll(products, cart)| ==> DebitAll(products, cart)[i].stock >= 0
  {
    DebitAllEffect(products, cart);
    forall i | 0 <= i < |products| && IndexOfId(products, products[i].id) == i
      ensures QuantityFor(cart, products[i].id) <= products[i].stock
    {
      QuantityForDistinct(cart, products[i].id);
      if k :| 0 <= k < |cart| && cart[k].Id() == products[i].id {
        assert Lookup(products, cart[k].Id()) == Some(cart[k].product);
      }
    }
  }

  /** The `forEach` loop of `handleSale` over a copy of the product list:
      `updatedProducts[productIndex].stock -= cartItem.quantity`. */
  method DebitInPlace(a: array<Product>, cart: seq<CartItem>)
    modifies a
    ensures a[..] == DebitAll(old(a[..]), cart)
  {
    var k := 0;
    while k < |cart|
      invariant 0 <= k <= |cart|
      invariant a[..] == DebitAll(old(a[..]), cart[..k])
    {
      var index := IndexOfId(a[..], cart[k].Id());
      if index != -1 {
        a[index] := a[index].(stock := a[index].stock - cart[k].quantity);
      }
      assert cart[..k + 1][..k] == cart[..k];
      k := k + 1;
    }
    assert cart[..k] == cart;
  }

  /** The application state: the `products` and `sales` lists. */
  class Store {
    var products: seq<Product>
    var sales: seq<Sale>

    /** No two listed products share an id. */
    predicate Valid()
      reads this
    {
      UniqueIds(products)
    }

    constructor (products: seq<Product>, sales: seq<Sale>)
      ensures this.products == products && this.sales == sales
      ensures UniqueIds(products) ==> Valid()
    {
      this.products := products;
      this.sales := sales;
    }

    /** `handleSale`: the new sale goes in front of the earlier ones, which keep
        their order, and the product list is replaced by the debited copy. The
        sale id and date, taken from the clock in the application, are inputs. */
    method HandleSale(cart: seq<CartItem>, saleId: string, date: string)
      modifies this
      ensures sales == [NewSale(cart, saleId, date)] + old(sales)
      ensures products == DebitAll(old(products), cart)
      ensures old(Valid()) ==> Valid()
    {
      var total := RootPos.CartTotal(cart);
      sales := [Sale(saleId, date, cart, total)] + sales;
      var current := products;
      var updated := new Product[|current|](i requires 0 <= i < |current| => current[i]);
      assert updated[..] == current;
      DebitInPlace(updated, cart);
      products := updated[..];
    }
  }
}
