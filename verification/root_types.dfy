/** The records of the local-storage generation of the application (types.ts):
    a product with the stock the root components read and write, cart lines that
    carry the product they were made from, and sales that keep those lines.
    Prices are whole cents. */
module RootTypes {
  import opened Seqs

  datatype Category = Food | Appliances | Other

  datatype Product = Product(
    id: string,
    name: string,
    description: string,
    price: int,
    category: Category,
    imageUrl: string,
    stock: int)

  /** A cart line: a copy of the product, including its stock at the time it was
      added (`{ ...product, quantity: 1 }`), and how many. */
  datatype CartItem = CartItem(product: Product, quantity: int)
  {
    function Id(): string { product.id }
    function Name(): string { product.name }
    function Amount(): int { product.price * quantity }
  }

  /** A sale as App.tsx records it: the cart lines themselves and their total. */
  datatype Sale = Sale(id: string, date: string, items: seq<CartItem>, total: int)

  /** No two products share an id. */
  predicate UniqueIds(products: seq<Product>)
  {
    forall i, j :: 0 <= i < j < |products| ==> products[i].id != products[j].id
  }

  /** `products.findIndex(p => p.id === id)`. */
  function IndexOfId(products: seq<Product>, id: string): (r: int)
    ensures -1 <= r < |products|
    ensures 0 <= r ==> products[r].id == id && forall j :: 0 <= j < r ==> products[j].id != id
    ensures r == -1 <==> forall j :: 0 <= j < |products| ==> products[j].id != id
  {
    FirstIndex(products, (p: Product) => p.id == id)
  }

  /** `products.find(p => p.id === id)`. */
  function Lookup(products: seq<Product>, id: string): (r: Option<Product>)
    ensures r.None? <==> forall j :: 0 <= j < |products| ==> products[j].id != id
    ensures r.Some? ==> r.value.id == id && r.value == products[IndexOfId(products, id)]
  {
    var i := IndexOfId(products, id);
    if i == -1 then None else Some(products[i])
  }

  /** With unique ids, looking up a listed product's id finds that very product. */
  lemma LookupListed(products: seq<Product>, p: Product)
    requires UniqueIds(products) && p in products
    ensures Lookup(products, p.id) == Some(p)
  {
    var k :| 0 <= k < |products| && products[k] == p;
    var i := IndexOfId(products, p.id);
    assert i != -1;
    assert !(i < k) && !(k < i);
  }

  /** `find` on a list with a known first element. */
  lemma LookupCons(x: Product, rest: seq<Product>, id: string)
    ensures Lookup([x] + rest, id) == if x.id == id then Some(x) else Lookup(rest, id)
  {
    var s := [x] + rest;
    if x.id != id {
      var i, j := IndexOfId(s, id), IndexOfId(rest, id);
      assert forall k :: 0 <= k < |rest| ==> s[k + 1] == rest[k];
      if i != -1 {
        assert 0 < i && rest[i - 1].id == id;
        assert j != -1;
        assert !(i - 1 < j) && !(j < i - 1);
      } else {
        assert j == -1;
      }
    }
  }
}
