/** The records of the Supabase generation of the application (src/types.ts).
    Prices are whole cents; timestamps and image URLs are opaque strings. */
module SrcTypes {
  import opened Seqs

  datatype Product = Product(
    id: string,
    name: string,
    description: string,
    price: int,
    stock: int,
    category: string,
    imageUrl: string,
    createdAt: string)

  /** A cart line: a copy of the product (`{ ...product, quantity }`) and how many. */
  datatype CartItem = CartItem(product: Product, quantity: int)
  {
    function Id(): string { product.id }
    function Amount(): int { product.price * quantity }
  }

  /** A line of a recorded sale: a snapshot of the product, not a reference to it. */
  datatype SaleItem = SaleItem(id: string, name: string, price: int, quantity: int)

  datatype Sale = Sale(id: string, createdAt: string, items: seq<SaleItem>, total: int)

  /** No two products share an id (the table's primary key). */
  predicate UniqueIds(products: seq<Product>)
  {
    forall i, j :: 0 <= i < j < |products| ==> products[i].id != products[j].id
  }

  /** `products.findIndex(p => p.id === id)`. */
  function IndexOfId(products: seq<Product>, id: string): (r: int)
    ensures -1 <= r < |products|
    ensures 0 <= r ==> products[r].id == id && forall j :: 0 <= j < r ==> products[j].id != id
    ensures r == -1 <==> forall j :: 0 <= j < |products| ==> products[j].id != id
  {
    FirstIndex(products, (p: Product) => p.id == id)
  }

  /** `products.find(p => p.id === id)`. */
  function Lookup(products: seq<Product>, id: string): (r: Option<Product>)
    ensures r.None? <==> forall j :: 0 <= j < |products| ==> products[j].id != id
    ensures r.Some? ==> r.value.id == id && r.value == products[IndexOfId(products, id)]
  {
    var i := IndexOfId(products, id);
    if i == -1 then None else Some(products[i])
  }

  /** With unique ids, looking up a listed product's id finds that very product. */
  lemma LookupListed(products: seq<Product>, p: Product)
    requires UniqueIds(products) && p in products
    ensures Lookup(products, p.id) == Some(p)
  {
    var k :| 0 <= k < |products| && products[k] == p;
    var i := IndexOfId(products, p.id);
    assert i != -1;
    assert !(i < k) && !(k < i);
  }
}
