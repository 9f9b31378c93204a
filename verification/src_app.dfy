/** The application state of the Supabase generation (src/App.tsx): the
    realtime handler that upserts a changed product record into the list, and
    the sale handler that inserts the sale and then asks the database to
    decrement each sold product's stock. Database calls are modelled by the
    requests the handler issues and the responses it is given. */
module SrcApp {
  import opened Seqs
  import opened SrcTypes
  import SrcPos

  /** The list after a realtime change to `rec`: the first product with its id
      is replaced, or `rec` is appended when no product has that id. */
  function Upsert(products: seq<Product>, rec: Product): (r: seq<Product>)
    ensures IndexOfId(products, rec.id) == -1 ==> r == products + [rec]
    ensures IndexOfId(products, rec.id) != -1 ==>
      |r| == |products| && r[IndexOfId(products, rec.id)] == rec &&
      forall j :: 0 <= j < |products| && j != IndexOfId(products, rec.id) ==> r[j] == products[j]
  {
    var index := IndexOfId(products, rec.id);
    if index != -1 then products[index := rec] else products + [rec]
  }

  /** After the upsert, looking up the record's id finds the record itself. */
  lemma UpsertFinds(products: seq<Product>, rec: Product)
    ensures Lookup(Upsert(products, rec), rec.id) == Some(rec)
  {
    var r := Upsert(products, rec);
    var i := IndexOfId(products, rec.id);
    if i == -1 {
      assert r[|products|] == rec;
      assert IndexOfId(r, rec.id) == |products|;
    } else {
      assert IndexOfId(r, rec.id) == i;
    }
  }

  /** The upsert leaves what every other id looks up to as it was. */
  lemma UpsertKeepsOthers(products: seq<Product>, rec: Product, id: string)
    requires id != rec.id
    ensures Lookup(Upsert(products, rec), id) == Lookup(products, id)
  {
    var r := Upsert(products, rec);
    forall k | 0 <= k < |r| && k != |products| ensures r[k].id == id <==> products[k].id == id {
      assert r[k].id == rec.id || r[k] == products[k];
    }
    IndexOfIdAgree(products, r, id);
    var i := IndexOfId(products, id);
    if i != -1 {
      assert r[i] == products[i];
    }
  }

  /** `findIndex` by id gives the same answer on a list that matches `id` at
      the same indices and has only other ids past its end. */
  lemma IndexOfIdAgree(a: seq<Product>, b: seq<Product>, id: string)
    requires |a| <= |b|
    requires forall k :: 0 <= k < |a| ==> (a[k].id == id <==> b[k].id == id)
    requires forall k :: |a| <= k < |b| ==> b[k].id != id
    ensures IndexOfId(a, id) == IndexOfId(b, id)
  {
    var i := IndexOfId(a, id);
    if i != -1 {
      assert b[i].id == id;
    }
  }

  /** A list with unique ids keeps them unique under the upsert. */
  lemma UpsertKeepsUniqueIds(products: seq<Product>, rec: Product)
    requires UniqueIds(products)
    ensures UniqueIds(Upsert(products, rec))
  {
    var r := Upsert(products, rec);
    var index := IndexOfId(products, rec.id);
    if index != -1 {
      forall i, j | 0 <= i < j < |r|
        ensures r[i].id != r[j].id
      {
        assert r[i].id == products[i].id && r[j].id == products[j].id;
      }
    }
  }

  /** Receiving the same change twice leaves the list as receiving it once. */
  lemma UpsertIdempotent(products: seq<Product>, rec: Product)
    ensures Upsert(Upsert(products, rec), rec) == Upsert(products, rec)
  {
    var r := Upsert(products, rec);
    UpsertFinds(products, rec);
    assert r[IndexOfId(r, rec.id)] == rec;
  }

  /** The body of the `sales` insert. */
  datatype SalePayload = SalePayload(id: string, items: seq<SaleItem>, total: int)

  /** A write sent to the database, in the order the handler sends it. */
  datatype Request =
    | InsertSale(payload: SalePayload)
    | DecrementStock(productId: string, quantity: int)

  /** The database's answer to the insert: an error, or the row it returns
      (`single()` may return no row). */
  datatype InsertResponse = InsertFailed | Inserted(row: Option<Sale>)

  /** How the returned promise settles. */
  datatype Outcome = Done | Failed(message: string)

  const ClientMissing: string := "Supabase client not initialized"
  const SaleNotRecorded: string := "No se pudo registrar la venta."

  /** The cart lines projected to sale items, in cart order. */
  function Items(cart: seq<CartItem>): (r: seq<SaleItem>)
    ensures |r| == |cart|
    ensures forall i :: 0 <= i < |cart| ==>
      r[i] == SaleItem(cart[i].product.id, cart[i].product.name, cart[i].product.price, cart[i].quantity)
  {
    if cart == [] then []
    else Items(cart[..|cart| - 1]) + [SaleItem(cart[|cart| - 1].product.id, cart[|cart| - 1].product.name,
                                                cart[|cart| - 1].product.price, cart[|cart| - 1].quantity)]
  }

  function ItemAmount(item: SaleItem): int
  {
    item.price * item.quantity
  }

  /** The payload the handler inserts for `cart` under the id `saleId`. */
  function Payload(cart: seq<CartItem>, saleId: string): (r: SalePayload)
    ensures r.id == saleId && |r.items| == |cart|
    ensures r.total == SumOf(r.items, ItemAmount)
  {
    PayloadTotalMatchesItems(cart);
    SalePayload(saleId, Items(cart), SrcPos.CartTotal(cart))
  }

  /** The recorded total is the total of the recorded items: the projection
      keeps every price and quantity. */
  lemma {:induction false} PayloadTotalMatchesItems(cart: seq<CartItem>)
    ensures SumOf(Items(cart), ItemAmount) == SrcPos.CartTotal(cart)
    decreases |cart|
  {
    if cart != [] {
      var init := cart[..|cart| - 1];
      PayloadTotalMatchesItems(init);
      var items := Items(cart);
      assert items[..|items| - 1] == Items(init);
    }
  }

  /** One decrement request per cart line, carrying that line's id and
      quantity, in cart order. */
  function Decrements(cart: seq<CartItem>): (r: seq<Request>)
    ensures |r| == |cart|
    ensures forall i :: 0 <= i < |cart| ==> r[i] == DecrementStock(cart[i].Id(), cart[i].quantity)
  {
    if cart == [] then []
    else Decrements(cart[..|cart| - 1]) + [DecrementStock(cart[|cart| - 1].Id(), cart[|cart| - 1].quantity)]
  }

  /** The application state: the `products` and `sales` lists and whether the
      database client exists. */
  class App {
    const clientConfigured: bool
    var products: seq<Product>
    var sales: seq<Sale>

    /** No two listed products share an id. */
    predicate Valid()
      reads this
    {
      UniqueIds(products)
    }

    constructor (clientConfigured: bool, products: seq<Product>, sales: seq<Sale>)
      ensures this.clientConfigured == clientConfigured
      ensures this.products == products && this.sales == sales
      ensures UniqueIds(products) ==> Valid()
    {
      this.clientConfigured := clientConfigured;
      this.products := products;
      this.sales := sales;
    }

    /** The realtime handler: the list is copied, and the copy is written at
        the found index or extended with the record. */
    method RealtimeUpsert(rec: Product)
      modifies this
      ensures products == Upsert(old(products), rec)
      ensures sales == old(sales)
      ensures old(Valid()) ==> Valid()
    {
      if Valid() {
        UpsertKeepsUniqueIds(products, rec);
      }
      var current := products;
      var index := IndexOfId(current, rec.id);
      if index != -1 {
        var copy := new Product[|current|](i requires 0 <= i < |current| => current[i]);
        copy[index] := rec;
        products := copy[..];
      } else {
        products := current + [rec];
      }
    }

    /** `handleSale`: without a client it fails before any write; otherwise it
        inserts the payload, and if the insert fails it fails with nothing else
        sent; on success it sends one decrement per cart line and puts the
        returned row, when there is one, in front of the sales. The product list
        is left to the realtime handler. */
    method HandleSale(cart: seq<CartItem>, saleId: string, response: InsertResponse)
      returns (requests: seq<Request>, outcome: Outcome)
      modifies this
      ensures products == old(products)
      ensures old(Valid()) ==> Valid()
      ensures !clientConfigured ==>
        requests == [] && outcome == Failed(ClientMissing) && sales == old(sales)
      ensures clientConfigured && response.InsertFailed? ==>
        requests == [InsertSale(Payload(cart, saleId))] && outcome == Failed(SaleNotRecorded) && sales == old(sales)
      ensures clientConfigured && response.Inserted? ==>
        requests == [InsertSale(Payload(cart, saleId))] + Decrements(cart) && outcome == Done &&
        sales == (if response.row.Some? then [response.row.value] + old(sales) else old(sales))
    {
      if !clientConfigured {
        return [], Failed(ClientMissing);
      }
      var total := SrcPos.CartTotal(cart);
      var payload := SalePayload(saleId, Items(cart), total);
      requests := [InsertSale(payload)];
      if response.InsertFailed? {
        return requests, Failed(SaleNotRecorded);
      }
      requests := requests + Decrements(cart);
      if response.row.Some? {
        sales := [response.row.value] + sales;
      }
      outcome := Done;
    }
  }
}
