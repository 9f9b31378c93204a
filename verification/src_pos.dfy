/** The point-of-sale view of the Supabase generation (src/components/POS.tsx):
    a cart built against a fixed product list, its total, the name search, and
    the asynchronous hand-over of the cart to the sale handler. */
module SrcPos {
  import opened Seqs
  import opened Text
  import opened SrcTypes

  /** Some line of the cart is for product `id` (`currentCart.find(...)` succeeds). */
  predicate HasLine(cart: seq<CartItem>, id: string)
  {
    exists i :: 0 <= i < |cart| && cart[i].Id() == id
  }

  /** Cart lines are for pairwise different products. */
  predicate DistinctLines(cart: seq<CartItem>)
  {
    forall i, j :: 0 <= i < j < |cart| ==> cart[i].Id() != cart[j].Id()
  }

  /** The cart invariant: one line per product, each line a copy of the listed
      product with that id, and each quantity between 1 and that product's stock. */
  predicate CartInvariant(cart: seq<CartItem>, products: seq<Product>)
  {
    && DistinctLines(cart)
    && forall i :: 0 <= i < |cart| ==>
         && Lookup(products, cart[i].Id()) == Some(cart[i].product)
         && 1 <= cart[i].quantity <= cart[i].product.stock
  }

  /** `addToCart`: a product out of stock is ignored; a product already in the
      cart gains one unit on each of its lines that is still below the product's
      stock; any other product is appended with quantity 1. */
  function AddToCart(cart: seq<CartItem>, product: Product): (r: seq<CartItem>)
    ensures product.stock <= 0 ==> r == cart
    ensures product.stock > 0 && !HasLine(cart, product.id) ==> r == cart + [CartItem(product, 1)]
    ensures product.stock > 0 && HasLine(cart, product.id) ==>
      && |r| == |cart|
      && forall i :: 0 <= i < |cart| ==>
           && r[i].product == cart[i].product
           && (cart[i].Id() != product.id ==> r[i] == cart[i])
           && (cart[i].Id() == product.id ==>
                 r[i].quantity == if cart[i].quantity < product.stock then cart[i].quantity + 1 else cart[i].quantity)
  {
    if product.stock <= 0 then cart
    else if HasLine(cart, product.id) then
      seq(|cart|, i requires 0 <= i < |cart| =>
        if cart[i].Id() == product.id && cart[i].quantity < product.stock
        then cart[i].(quantity := cart[i].quantity + 1)
        else cart[i])
    else cart + [CartItem(product, 1)]
  }

  /** Every line for product `id` gets quantity `n`; the rest stay as they were. */
  function SetQuantity(cart: seq<CartItem>, id: string, n: int): (r: seq<CartItem>)
    ensures |r| == |cart|
    ensures forall i :: 0 <= i < |cart| ==>
      && r[i].product == cart[i].product
      && r[i].quantity == if cart[i].Id() == id then n else cart[i].quantity
  {
    seq(|cart|, i requires 0 <= i < |cart| =>
      if cart[i].Id() == id then cart[i].(quantity := n) else cart[i])
  }

  /** The cart without the lines for product `id`, the others kept in order. */
  function RemoveLines(cart: seq<CartItem>, id: string): (r: seq<CartItem>)
    ensures IsSubsequence(r, cart)
    ensures forall i :: 0 <= i < |r| ==> r[i].Id() != id && r[i] in cart
    ensures forall i :: 0 <= i < |cart| && cart[i].Id() != id ==> cart[i] in r
    ensures |r| == Count(cart, (l: CartItem) => l.Id() != id)
  {
    Filter(cart, (l: CartItem) => l.Id() != id)
  }

  /** `updateQuantity`: unknown products are ignored; a quantity of zero or less
      removes the product's line; a quantity up to the stock is set; a quantity
      above the stock is ignored. */
  function UpdateQuantity(cart: seq<CartItem>, products: seq<Product>, productId: string, n: int): (r: seq<CartItem>)
    ensures Lookup(products, productId).None? ==> r == cart
    ensures Lookup(products, productId).Some? ==>
      r == if n <= 0 then RemoveLines(cart, productId)
           else if n <= Lookup(products, productId).value.stock then SetQuantity(cart, productId, n)
           else cart
  {
    match Lookup(products, productId)
    case None => cart
    case Some(product) =>
      if n <= 0 then RemoveLines(cart, productId)
      else if n <= product.stock then SetQuantity(cart, productId, n)
      else cart
  }

  /** The search: the product's name contains the term, ignoring case. */
  predicate NameMatches(p: Product, term: string)
  {
    Contains(Lower(p.name), Lower(term))
  }

  /** `filteredProducts`: the products whose name matches the search term, in list order. */
  function FilteredProducts(products: seq<Product>, term: string): (r: seq<Product>)
    ensures IsSubsequence(r, products)
    ensures forall i :: 0 <= i < |r| ==> NameMatches(r[i], term)
    ensures forall i :: 0 <= i < |products| && NameMatches(products[i], term) ==> products[i] in r
    ensures |r| == Count(products, (p: Product) => NameMatches(p, term))
  {
    Filter(products, (p: Product) => NameMatches(p, term))
  }

  /** An empty search term lists every product. */
  lemma EmptySearchListsAll(products: seq<Product>)
    ensures FilteredProducts(products, "") == products
  {
    forall i | 0 <= i < |products| ensures NameMatches(products[i], "") {
      ContainsEmpty(Lower(products[i].name));
    }
    FilterKeepsAll(products, (p: Product) => NameMatches(p, ""));
  }

  function LineAmount(item: CartItem): int
  {
    item.Amount()
  }

  /** `cartTotal`: the sum of price times quantity over the lines. */
  function CartTotal(cart: seq<CartItem>): (r: int)
    ensures cart == [] ==> r == 0
    ensures (forall i :: 0 <= i < |cart| ==> cart[i].product.price >= 0 && cart[i].quantity >= 0) ==> r >= 0
  {
    AmountsNonnegative(cart);
    SumOf(cart, LineAmount)
  }

  /** Lines with non-negative prices and quantities have non-negative amounts. */
  lemma AmountsNonnegative(cart: seq<CartItem>)
    ensures (forall i :: 0 <= i < |cart| ==> cart[i].product.price >= 0 && cart[i].quantity >= 0) ==>
      SumOf(cart, LineAmount) >= 0
  {
    if forall i :: 0 <= i < |cart| ==> cart[i].product.price >= 0 && cart[i].quantity >= 0 {
      forall i | 0 <= i < |cart| ensures LineAmount(cart[i]) >= 0 {
        assert cart[i].product.price * cart[i].quantity >= 0;
      }
      SumOfNonnegative(cart, LineAmount);
    }
  }

  /** With one line per product, adding a product already in the cart touches
      only that product's line. */
  lemma AddExistingUpdatesOneLine(cart: seq<CartItem>, product: Product, k: nat)
    requires DistinctLines(cart)
    requires product.stock > 0 && k < |cart| && cart[k].Id() == product.id
    ensures AddToCart(cart, product) ==
      if cart[k].quantity < product.stock then cart[k := cart[k].(quantity := cart[k].quantity + 1)] else cart
  {
  }

  /** Adding a product raises the total by exactly its price when the cart
      changes, and leaves it alone when it does not. */
  lemma {:induction false} TotalAfterAdd(cart: seq<CartItem>, products: seq<Product>, product: Product)
    requires CartInvariant(cart, products)
    requires Lookup(products, product.id) == Some(product)
    ensures CartTotal(AddToCart(cart, product)) ==
      CartTotal(cart) + if AddToCart(cart, product) == cart then 0 else product.price
  {
    var r := AddToCart(cart, product);
    if product.stock <= 0 {
    } else if HasLine(cart, product.id) {
      var k :| 0 <= k < |cart| && cart[k].Id() == product.id;
      assert cart[k].product == product;
      AddExistingUpdatesOneLine(cart, product, k);
      if cart[k].quantity < product.stock {
        var x := cart[k].(quantity := cart[k].quantity + 1);
        SumOfUpdate(cart, k, x, LineAmount);
        assert LineAmount(x) == LineAmount(cart[k]) + product.price by {
          assert product.price * (cart[k].quantity + 1) == product.price * cart[k].quantity + product.price;
        }
        assert r[k] != cart[k];
      }
    } else {
      assert r != cart by { assert |r| == |cart| + 1; }
      assert r[..|r| - 1] == cart;
    }
  }

  /** Adding a listed product keeps the cart invariant. */
  lemma AddKeepsInvariant(cart: seq<CartItem>, products: seq<Product>, product: Product)
    requires CartInvariant(cart, products)
    requires Lookup(products, product.id) == Some(product)
    ensures CartInvariant(AddToCart(cart, product), products)
  {
    var r := AddToCart(cart, product);
    if product.stock > 0 && HasLine(cart, product.id) {
      forall i | 0 <= i < |r| ensures 1 <= r[i].quantity <= r[i].product.stock {
        if cart[i].Id() == product.id {
          assert cart[i].product == product;
        }
      }
    }
  }

  /** Changing a quantity keeps the cart invariant. */
  lemma UpdateKeepsInvariant(cart: seq<CartItem>, products: seq<Product>, productId: string, n: int)
    requires CartInvariant(cart, products)
    ensures CartInvariant(UpdateQuantity(cart, products, productId, n), products)
  {
    var r := UpdateQuantity(cart, products, productId, n);
    if Lookup(products, productId).Some? {
      if n <= 0 {
        SubsequenceKeepsDistinct(r, cart, (l: CartItem) => l.Id());
        forall i | 0 <= i < |r|
          ensures Lookup(products, r[i].Id()) == Some(r[i].product) && 1 <= r[i].quantity <= r[i].product.stock
        {
          var k :| 0 <= k < |cart| && cart[k] == r[i];
        }
      } else if n <= Lookup(products, productId).value.stock {
        forall i | 0 <= i < |r| ensures 1 <= r[i].quantity <= r[i].product.stock {
          if cart[i].Id() == productId {
            assert cart[i].product == Lookup(products, productId).value;
          }
        }
      }
    }
  }

  /** What the operator can do to the cart from the product grid and the cart panel. */
  datatype CartOp = Add(product: Product) | ChangeQuantity(productId: string, n: int)

  function Step(cart: seq<CartItem>, products: seq<Product>, op: CartOp): seq<CartItem>
  {
    match op
    case Add(p) => AddToCart(cart, p)
    case ChangeQuantity(id, n) => UpdateQuantity(cart, products, id, n)
  }

  /** The cart after applying `ops` in order. */
  function ApplyOps(cart: seq<CartItem>, products: seq<Product>, ops: seq<CartOp>): seq<CartItem>
    decreases |ops|
  {
    if ops == [] then cart else ApplyOps(Step(cart, products, ops[0]), products, ops[1..])
  }

  /** Any sequence of adds of listed products and quantity changes, starting
      from a valid cart (the empty cart is one), ends in a valid cart: line ids
      stay distinct and every quantity stays within [1, stock]. */
  lemma {:induction false} OpsKeepInvariant(cart: seq<CartItem>, products: seq<Product>, ops: seq<CartOp>)
    requires UniqueIds(products)
    requires forall k :: 0 <= k < |ops| && ops[k].Add? ==> ops[k].product in products
    requires CartInvariant(cart, products)
    ensures CartInvariant(ApplyOps(cart, products, ops), products)
    decreases |ops|
  {
    if ops != [] {
      match ops[0] {
        case Add(p) =>
          LookupListed(products, p);
          AddKeepsInvariant(cart, products, p);
        case ChangeQuantity(id, n) =>
          UpdateKeepsInvariant(cart, products, id, n);
      }
      assert forall k :: 1 <= k < |ops| ==> ops[k] == ops[1..][k - 1];
      OpsKeepInvariant(Step(cart, products, ops[0]), products, ops[1..]);
    }
  }

  /** How the awaited `onSale(cart)` call ended. A rejection carries the error's
      message, empty when it has none. */
  datatype SaleOutcome = Resolved | Rejected(message: string)

  const UnexpectedError: string := "Ocurrió un error inesperado."

  /** The message the view shows for a rejected sale: `err.message || default`. */
  function ErrorText(message: string): (r: string)
    ensures r != ""
    ensures message != "" ==> r == message
  {
    if message != "" then message else UnexpectedError
  }

  /** The view's state: its product list (a prop) and the `cart`, `searchTerm`,
      `processing` and `error` state variables. */
  class PosView {
    const products: seq<Product>
    var cart: seq<CartItem>
    var searchTerm: string
    var processing: bool
    var error: Option<string>

    ghost predicate Valid()
      reads this
    {
      UniqueIds(products) && CartInvariant(cart, products)
    }

    constructor (products: seq<Product>)
      ensures this.products == products
      ensures cart == [] && searchTerm == "" && !processing && error == None
      ensures UniqueIds(products) ==> Valid()
    {
      this.products := products;
      cart := [];
      searchTerm := "";
      processing := false;
      error := None;
    }

    /** A click on a product card. */
    method Add(product: Product)
      modifies this`cart
      ensures cart == AddToCart(old(cart), product)
      ensures old(Valid()) && product in products ==> Valid()
    {
      if old(Valid()) && product in products {
        LookupListed(products, product);
        AddKeepsInvariant(cart, products, product);
      }
      cart := AddToCart(cart, product);
    }

    /** An edit of a line's quantity field, or its remove button (quantity 0). */
    method ChangeQuantity(productId: string, n: int)
      modifies this`cart
      ensures cart == UpdateQuantity(old(cart), products, productId, n)
      ensures old(Valid()) ==> Valid()
    {
      if Valid() {
        UpdateKeepsInvariant(cart, products, productId, n);
      }
      cart := UpdateQuantity(cart, products, productId, n);
    }

    /** A keystroke in the search box. */
    method Search(term: string)
      modifies this`searchTerm
      ensures searchTerm == term
    {
      searchTerm := term;
    }

    /** The first half of `handleProcessSale`, up to the `await`: nothing
        happens for an empty cart or while a sale is in progress; otherwise the
        sale starts, the error is cleared and the cart is handed to `onSale`
        (returned as `submitted`). The cart stays editable while the sale is
        pending; only the checkout button is disabled. */
    method StartSale() returns (submitted: Option<seq<CartItem>>)
      modifies this`processing, this`error
      ensures old(cart) == [] || old(processing) ==>
        submitted == None && processing == old(processing) && error == old(error)
      ensures old(cart) != [] && !old(processing) ==>
        submitted == Some(old(cart)) && processing && error == None
      ensures submitted.Some? ==> submitted.value != []
    {
      if |cart| == 0 || processing {
        return None;
      }
      processing := true;
      error := None;
      submitted := Some(cart);
    }

    /** The second half, once `onSale` settles: a resolved sale empties the
        cart as it is by then, lines added during the wait included; a rejected
        one keeps the cart and shows the error; `processing` ends false either
        way. */
    method FinishSale(outcome: SaleOutcome)
      requires processing
      modifies this`cart, this`processing, this`error
      ensures !processing
      ensures outcome.Resolved? ==> cart == [] && error == old(error)
      ensures outcome.Rejected? ==> cart == old(cart) && error == Some(ErrorText(outcome.message))
      ensures old(Valid()) ==> Valid()
    {
      match outcome {
        case Resolved =>
          cart := [];
        case Rejected(message) =>
          error := Some(ErrorText(message));
      }
      processing := false;
    }
  }

  /** A checkout during which the cashier clicks one more product card: the
      sale records the cart as it was at the click on "Procesar Venta"; a
      resolved sale then leaves the cart empty, discarding the line added
      meanwhile, and a rejected one keeps it. */
  method CheckoutWithEdit(view: PosView, p: Product, outcome: SaleOutcome)
      returns (submitted: Option<seq<CartItem>>)
    requires view.cart != [] && !view.processing
    modifies view
    ensures submitted == Some(old(view.cart))
    ensures outcome.Resolved? ==> view.cart == []
    ensures outcome.Rejected? ==> view.cart == AddToCart(old(view.cart), p)
    ensures !view.processing
  {
    submitted := view.StartSale();
    view.Add(p);
    view.FinishSale(outcome);
  }
}
