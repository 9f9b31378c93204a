/** The point-of-sale view of the local-storage generation (components/POS.tsx):
    the cart, its total, the search with a category filter, and a checkout that
    hands the cart to the sale handler and empties it straight away. */
module RootPos {
  import opened Seqs
  import opened Text
  import opened RootTypes

  /** The messages the view raises with `alert`. */
  datatype Notice = OutOfStock | NoMoreStock | ClampedToStock | EmptyCart | SaleCompleted

  /** `cart.find(item => item.id === id)`, as an index (-1 when absent). */
  function LineIndex(cart: seq<CartItem>, id: string): (r: int)
    ensures -1 <= r < |cart|
    ensures 0 <= r ==> cart[r].Id() == id && forall j :: 0 <= j < r ==> cart[j].Id() != id
    ensures r == -1 <==> forall j :: 0 <= j < |cart| ==> cart[j].Id() != id
  {
    FirstIndex(cart, (l: CartItem) => l.Id() == id)
  }

  /** Cart lines are for pairwise different products. */
  predicate DistinctLines(cart: seq<CartItem>)
  {
    forall i, j :: 0 <= i < j < |cart| ==> cart[i].Id() != cart[j].Id()
  }

  /** The cart invariant: one line per product, each line a copy of the listed
      product with that id, and each quantity between 1 and that product's stock. */
  predicate CartInvariant(cart: seq<CartItem>, products: seq<Product>)
  {
    && DistinctLines(cart)
    && forall i :: 0 <= i < |cart| ==>
         && Lookup(products, cart[i].Id()) == Some(cart[i].product)
         && 1 <= cart[i].quantity <= cart[i].product.stock
  }

  /** Every line for product `id` gets quantity `n`; the rest stay as they were. */
  function SetQuantity(cart: seq<CartItem>, id: string, n: int): (r: seq<CartItem>)
    ensures |r| == |cart|
    ensures forall i :: 0 <= i < |cart| ==>
      && r[i].product == cart[i].product
      && r[i].quantity == if cart[i].Id() == id then n else cart[i].quantity
  {
    seq(|cart|, i requires 0 <= i < |cart| =>
      if cart[i].Id() == id then cart[i].(quantity := n) else cart[i])
  }

  /** `addToCart`: a product out of stock is ignored; for a product already in
      the cart, its first line decides: below the stock every line of the product
      gains one unit, at the stock nothing changes; any other product is appended
      with quantity 1. */
  function AddToCart(cart: seq<CartItem>, product: Product): (r: seq<CartItem>)
    ensures product.stock <= 0 ==> r == cart
    ensures product.stock > 0 && LineIndex(cart, product.id) == -1 ==> r == cart + [CartItem(product, 1)]
    ensures (product.stock > 0 && LineIndex(cart, product.id) != -1 &&
             cart[LineIndex(cart, product.id)].quantity >= product.stock) ==> r == cart
    ensures (product.stock > 0 && LineIndex(cart, product.id) != -1 &&
             cart[LineIndex(cart, product.id)].quantity < product.stock) ==>
      && |r| == |cart|
      && forall i :: 0 <= i < |cart| ==>
           && r[i].product == cart[i].product
           && r[i].quantity == if cart[i].Id() == product.id then cart[i].quantity + 1 else cart[i].quantity
  {
    if product.stock <= 0 then cart
    else
      var k := LineIndex(cart, product.id);
      if k == -1 then cart + [CartItem(product, 1)]
      else if cart[k].quantity < product.stock then
        seq(|cart|, i requires 0 <= i < |cart| =>
          if cart[i].Id() == product.id then cart[i].(quantity := cart[i].quantity + 1) else cart[i])
      else cart
  }

  /** The alert `addToCart` raises, if any. */
  function AddNotice(cart: seq<CartItem>, product: Product): (r: Option<Notice>)
    ensures r == Some(OutOfStock) <==> product.stock <= 0
    ensures r == Some(NoMoreStock) <==> product.stock > 0 && AddToCart(cart, product) == cart
    ensures r == None <==> product.stock > 0 && AddToCart(cart, product) != cart
  {
    if product.stock <= 0 then Some(OutOfStock)
    else
      var k := LineIndex(cart, product.id);
      if k != -1 && cart[k].quantity >= product.stock then Some(NoMoreStock)
      else
        assert k != -1 ==> AddToCart(cart, product)[k] != cart[k];
        assert k == -1 ==> |AddToCart(cart, product)| != |cart|;
        None
  }

  /** `removeFromCart`: the cart without the lines for product `id`, the others
      kept in order. */
  function RemoveFromCart(cart: seq<CartItem>, id: string): (r: seq<CartItem>)
    ensures IsSubsequence(r, cart)
    ensures forall i :: 0 <= i < |r| ==> r[i].Id() != id && r[i] in cart
    ensures forall i :: 0 <= i < |cart| && cart[i].Id() != id ==> cart[i] in r
    ensures |r| == Count(cart, (l: CartItem) => l.Id() != id)
  {
    Filter(cart, (l: CartItem) => l.Id() != id)
  }

  /** The quantity `updateQuantity` goes on with: the request, lowered to the stock. */
  function Clamp(n: int, stock: int): (m: int)
    ensures m <= stock && m <= n
    ensures m == n || m == stock
  {
    if n > stock then stock else n
  }

  /** `updateQuantity`: unknown products are ignored; otherwise the requested
      quantity is first lowered to the product's stock, and then a quantity of
      zero or less removes the line while any other is set. */
  function UpdateQuantity(cart: seq<CartItem>, products: seq<Product>, productId: string, n: int): (r: seq<CartItem>)
    ensures Lookup(products, productId).None? ==> r == cart
    ensures Lookup(products, productId).Some? ==>
      var m := Clamp(n, Lookup(products, productId).value.stock);
      r == if m <= 0 then RemoveFromCart(cart, productId) else SetQuantity(cart, productId, m)
  {
    match Lookup(products, productId)
    case None => cart
    case Some(product) =>
      var m := if n > product.stock then product.stock else n;
      if m <= 0 then RemoveFromCart(cart, productId) else SetQuantity(cart, productId, m)
  }

  /** A listed product whose stock is zero or less loses its line whatever
      quantity is asked for, and a request above the stock sets the stock. */
  lemma UpdateClamps(cart: seq<CartItem>, products: seq<Product>, productId: string, n: int)
    requires Lookup(products, productId).Some?
    ensures Lookup(products, productId).value.stock <= 0 ==>
      UpdateQuantity(cart, products, productId, n) == RemoveFromCart(cart, productId)
    ensures 0 < Lookup(products, productId).value.stock < n ==>
      UpdateQuantity(cart, products, productId, n) == SetQuantity(cart, productId, Lookup(products, productId).value.stock)
  {
  }

  /** The category dropdown: every category, or one of them. */
  datatype CategoryFilter = AllCategories | OnlyCategory(category: Category)

  /** The product's name contains the term, ignoring case, and its category passes the filter. */
  predicate Shown(p: Product, term: string, filter: CategoryFilter)
  {
    Contains(Lower(p.name), Lower(term)) && (filter.AllCategories? || p.category == filter.category)
  }

  /** `filteredProducts`: the products that pass the search and the category
      filter, in list order. */
  function FilteredProducts(products: seq<Product>, term: string, filter: CategoryFilter): (r: seq<Product>)
    ensures IsSubsequence(r, products)
    ensures forall i :: 0 <= i < |r| ==>
      Contains(Lower(r[i].name), Lower(term)) && (filter.AllCategories? || r[i].category == filter.category)
    ensures forall i :: 0 <= i < |products| && Shown(products[i], term, filter) ==> products[i] in r
    ensures |r| == Count(products, (p: Product) => Shown(p, term, filter))
  {
    Filter(products, (p: Product) => Shown(p, term, filter))
  }

  /** An empty search over all categories lists every product. */
  lemma EmptySearchListsAll(products: seq<Product>)
    ensures FilteredProducts(products, "", AllCategories) == products
  {
    forall i | 0 <= i < |products| ensures Shown(products[i], "", AllCategories) {
      ContainsEmpty(Lower(products[i].name));
    }
    FilterKeepsAll(products, (p: Product) => Shown(p, "", AllCategories));
  }

  function LineAmount(item: CartItem): int
  {
    item.Amount()
  }

  /** `total`: the sum of price times quantity over the lines. */
  function CartTotal(cart: seq<CartItem>): (r: int)
    ensures cart == [] ==> r == 0
    ensures (forall i :: 0 <= i < |cart| ==> cart[i].product.price >= 0 && cart[i].quantity >= 0) ==> r >= 0
  {
    AmountsNonnegative(cart);
    SumOf(cart, LineAmount)
  }

  /** Lines with non-negative prices and quantities have non-negative amounts. */
  lemma AmountsNonnegative(cart: seq<CartItem>)
    ensures (forall i :: 0 <= i < |cart| ==> cart[i].product.price >= 0 && cart[i].quantity >= 0) ==>
      SumOf(cart, LineAmount) >= 0
  {
    if forall i :: 0 <= i < |cart| ==> cart[i].product.price >= 0 && cart[i].quantity >= 0 {
      forall i | 0 <= i < |cart| ensures LineAmount(cart[i]) >= 0 {
        assert cart[i].product.price * cart[i].quantity >= 0;
      }
      SumOfNonnegative(cart, LineAmount);
    }
  }

  /** Adding a listed product keeps the cart invariant. */
  lemma AddKeepsInvariant(cart: seq<CartItem>, products: seq<Product>, product: Product)
    requires CartInvariant(cart, products)
    requires Lookup(products, product.id) == Some(product)
    ensures CartInvariant(AddToCart(cart, product), products)
  {
    var r := AddToCart(cart, product);
    var k := LineIndex(cart, product.id);
    if product.stock > 0 && k == -1 {
      assert r == cart + [CartItem(product, 1)];
      assert forall i :: 0 <= i < |cart| ==> r[i] == cart[i] && r[i].Id() != product.id;
    } else if product.stock > 0 && cart[k].quantity < product.stock {
      assert cart[k].product == product;
      forall i | 0 <= i < |r|
        ensures Lookup(products, r[i].Id()) == Some(r[i].product)
        ensures 1 <= r[i].quantity <= r[i].product.stock
      {
        if cart[i].Id() == product.id {
          assert i == k;
        }
      }
    }
  }

  /** Changing a quantity keeps the cart invariant. */
  lemma UpdateKeepsInvariant(cart: seq<CartItem>, products: seq<Product>, productId: string, n: int)
    requires CartInvariant(cart, products)
    ensures CartInvariant(UpdateQuantity(cart, products, productId, n), products)
  {
    if Lookup(products, productId).Some? {
      var m := Clamp(n, Lookup(products, productId).value.stock);
      if m <= 0 {
        RemoveKeepsInvariant(cart, products, productId);
      } else {
        var r := SetQuantity(cart, productId, m);
        forall i | 0 <= i < |r| ensures 1 <= r[i].quantity <= r[i].product.stock {
          if cart[i].Id() == productId {
            assert cart[i].product == Lookup(products, productId).value;
          }
        }
      }
    }
  }

  /** Removing a product's lines keeps the cart invariant. */
  lemma RemoveKeepsInvariant(cart: seq<CartItem>, products: seq<Product>, productId: string)
    requires CartInvariant(cart, products)
    ensures CartInvariant(RemoveFromCart(cart, productId), products)
  {
    var r := RemoveFromCart(cart, productId);
    SubsequenceKeepsDistinct(r, cart, (l: CartItem) => l.Id());
    forall i | 0 <= i < |r|
      ensures Lookup(products, r[i].Id()) == Some(r[i].product) && 1 <= r[i].quantity <= r[i].product.stock
    {
      var k :| 0 <= k < |cart| && cart[k] == r[i];
    }
  }

  /** What the operator can do to the cart. */
  datatype CartOp = Add(product: Product) | ChangeQuantity(productId: string, n: int) | Remove(productId: string)

  function Step(cart: seq<CartItem>, products: seq<Product>, op: CartOp): seq<CartItem>
  {
    match op
    case Add(p) => AddToCart(cart, p)
    case ChangeQuantity(id, n) => UpdateQuantity(cart, products, id, n)
    case Remove(id) => RemoveFromCart(cart, id)
  }

  /** The cart after applying `ops` in order. */
  function ApplyOps(cart: seq<CartItem>, products: seq<Product>, ops: seq<CartOp>): seq<CartItem>
    decreases |ops|
  {
    if ops == [] then cart else ApplyOps(Step(cart, products, ops[0]), products, ops[1..])
  }

  /** Any sequence of adds of listed products, quantity changes and removals,
      starting from a valid cart (the empty cart is one), ends in a valid cart. */
  lemma {:induction false} OpsKeepInvariant(cart: seq<CartItem>, products: seq<Product>, ops: seq<CartOp>)
    requires UniqueIds(products)
    requires forall k :: 0 <= k < |ops| && ops[k].Add? ==> ops[k].product in products
    requires CartInvariant(cart, products)
    ensures CartInvariant(ApplyOps(cart, products, ops), products)
    decreases |ops|
  {
    if ops != [] {
      match ops[0] {
        case Add(p) =>
          LookupListed(products, p);
          AddKeepsInvariant(cart, products, p);
        case ChangeQuantity(id, n) =>
          UpdateKeepsInvariant(cart, products, id, n);
        case Remove(id) =>
          RemoveKeepsInvariant(cart, products, id);
      }
      assert forall k :: 1 <= k < |ops| ==> ops[k] == ops[1..][k - 1];
      OpsKeepInvariant(Step(cart, products, ops[0]), products, ops[1..]);
    }
  }

  /** The view's state: its product list (a prop) and the `cart`, `searchTerm`
      and `categoryFilter` state variables. */
  class PosView {
    const products: seq<Product>
    var cart: seq<CartItem>
    var searchTerm: string
    var categoryFilter: CategoryFilter

    ghost predicate Valid()
      reads this
    {
      UniqueIds(products) && CartInvariant(cart, products)
    }

    constructor (products: seq<Product>)
      ensures this.products == products
      ensures cart == [] && searchTerm == "" && categoryFilter == AllCategories
      ensures UniqueIds(products) ==> Valid()
    {
      this.products := products;
      cart := [];
      searchTerm := "";
      categoryFilter := AllCategories;
    }

    /** A click on a product card; `notice` is the alert shown, if any. */
    method Add(product: Product) returns (notice: Option<Notice>)
      modifies this`cart
      ensures cart == AddToCart(old(cart), product)
      ensures notice == AddNotice(old(cart), product)
      ensures old(Valid()) && product in products ==> Valid()
    {
      if Valid() && product in products {
        LookupListed(products, product);
        AddKeepsInvariant(cart, products, product);
      }
      notice := AddNotice(cart, product);
      cart := AddToCart(cart, product);
    }

    /** An edit of a line's quantity field; a request above the stock is
        announced and lowered to it. */
    method ChangeQuantity(productId: string, n: int) returns (notice: Option<Notice>)
      modifies this`cart
      ensures cart == UpdateQuantity(old(cart), products, productId, n)
      ensures notice == Some(ClampedToStock) <==>
        Lookup(products, productId).Some? && n > Lookup(products, productId).value.stock
      ensures notice == None || notice == Some(ClampedToStock)
      ensures old(Valid()) ==> Valid()
    {
      if Valid() {
        UpdateKeepsInvariant(cart, products, productId, n);
      }
      notice := None;
      match Lookup(products, productId) {
        case None =>
        case Some(product) =>
          if n > product.stock {
            notice := Some(ClampedToStock);
          }
      }
      cart := UpdateQuantity(cart, products, productId, n);
    }

    /** The trash button of a line. */
    method Remove(productId: string)
      modifies this`cart
      ensures cart == RemoveFromCart(old(cart), productId)
      ensures old(Valid()) ==> Valid()
    {
      if Valid() {
        RemoveKeepsInvariant(cart, products, productId);
      }
      cart := RemoveFromCart(cart, productId);
    }

    /** A keystroke in the search box. */
    method Search(term: string)
      modifies this`searchTerm
      ensures searchTerm == term
    {
      searchTerm := term;
    }

    /** A choice in the category dropdown. */
    method SelectCategory(filter: CategoryFilter)
      modifies this`categoryFilter
      ensures categoryFilter == filter
    {
      categoryFilter := filter;
    }

    /** `handleCheckout`: an empty cart only raises an alert. Otherwise the cart
        is handed to `onSale` once (returned as `submitted`) and then emptied
        unconditionally, without waiting for the sale to be recorded. */
    method Checkout() returns (submitted: Option<seq<CartItem>>, notice: Notice)
      modifies this`cart
      ensures old(cart) == [] ==> submitted == None && notice == EmptyCart && cart == old(cart)
      ensures old(cart) != [] ==> submitted == Some(old(cart)) && notice == SaleCompleted && cart == []
      ensures old(Valid()) ==> Valid()
    {
      if |cart| == 0 {
        return None, EmptyCart;
      }
      submitted := Some(cart);
      cart := [];
      notice := SaleCompleted;
    }
  }
}
