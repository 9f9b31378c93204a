/** The product maintenance view of the local-storage generation
    (components/Products.tsx): the product form, which submits either the
    edited product under its own id or the bare fields of a new one, and the
    view that replaces, prepends or deletes products and opens and closes the
    form's modal. */
module RootProducts {
  import opened Seqs
  import opened RootTypes

  /** `Omit<Product, 'id'>`: what the form edits. */
  datatype ProductFields = ProductFields(
    name: string,
    description: string,
    price: int,
    category: Category,
    imageUrl: string,
    stock: int)

  /** The picture a new product gets when the form starts without one. */
  const DefaultImageUrl: string := "https://picsum.photos/seed/new/400/400"

  /** The product with the form's fields and the given id. */
  function WithId(fields: ProductFields, id: string): (p: Product)
    ensures p.id == id && FieldsOf(p) == fields
  {
    Product(id, fields.name, fields.description, fields.price, fields.category, fields.imageUrl, fields.stock)
  }

  /** The fields of a product, without its id. */
  function FieldsOf(p: Product): ProductFields
  {
    ProductFields(p.name, p.description, p.price, p.category, p.imageUrl, p.stock)
  }

  /** The form's starting values: each field of the product being edited, with
      the JavaScript fallback for a falsy value (`||`); a new product starts
      empty, in the food category, with the default picture. */
  function InitialForm(editing: Option<Product>): (f: ProductFields)
    ensures editing.None? ==> f == ProductFields("", "", 0, Food, DefaultImageUrl, 0)
    ensures editing.Some? ==>
      && f.name == editing.value.name && f.description == editing.value.description
      && f.price == editing.value.price && f.stock == editing.value.stock
      && f.category == editing.value.category
      && f.imageUrl == (if editing.value.imageUrl == "" then DefaultImageUrl else editing.value.imageUrl)
  {
    match editing
    case None => ProductFields("", "", 0, Food, DefaultImageUrl, 0)
    case Some(p) =>
      ProductFields(p.name, p.description, p.price, p.category,
                    if p.imageUrl == "" then DefaultImageUrl else p.imageUrl, p.stock)
  }

  /** What the form hands to the view: a full product when editing, bare
      fields when adding. */
  datatype Submission = Edit(product: Product) | Add(fields: ProductFields)

  /** `ProductForm.handleSubmit`. */
  function Submit(form: ProductFields, editing: Option<Product>): (s: Submission)
    ensures editing.Some? ==> s.Edit? && s.product.id == editing.value.id && FieldsOf(s.product) == form
    ensures editing.None? ==> s == Add(form)
  {
    if editing.Some? then Edit(WithId(form, editing.value.id)) else Add(form)
  }

  /** Submitting the edit form untouched gives back the product being edited
      exactly when it has a picture: an empty image URL is replaced by the
      default one. */
  lemma EditRoundTrip(p: Product)
    ensures Submit(InitialForm(Some(p)), Some(p)) == Edit(p) <==> p.imageUrl != ""
  {
    if p.imageUrl == "" {
      assert Submit(InitialForm(Some(p)), Some(p)).product.imageUrl == DefaultImageUrl;
      assert DefaultImageUrl[0] == 'h';
    }
  }

  /** The edit branch of `handleSaveProduct`: every product with the submitted
      product's id becomes the submitted product. */
  function ReplaceById(products: seq<Product>, p: Product): (r: seq<Product>)
    ensures |r| == |products|
    ensures forall i :: 0 <= i < |products| ==> r[i] == if products[i].id == p.id then p else products[i]
  {
    seq(|products|, i requires 0 <= i < |products| => if products[i].id == p.id then p else products[i])
  }

  /** Editing a product that is no longer listed changes nothing. */
  lemma ReplaceAbsent(products: seq<Product>, p: Product)
    requires Lookup(products, p.id).None?
    ensures ReplaceById(products, p) == products
  {
  }

  /** After an edit of a listed product its id looks up to the edited
      product, and every other id to what it did before. */
  lemma ReplaceFinds(products: seq<Product>, p: Product, id: string)
    requires Lookup(products, p.id).Some?
    ensures Lookup(ReplaceById(products, p), id) == if id == p.id then Some(p) else Lookup(products, id)
  {
    var r := ReplaceById(products, p);
    var i, j := IndexOfId(products, id), IndexOfId(r, id);
    if i != -1 && j != -1 {
      assert !(i < j) && !(j < i);
    }
  }

  /** Editing keeps ids unique. */
  lemma ReplaceKeepsUniqueIds(products: seq<Product>, p: Product)
    requires UniqueIds(products)
    ensures UniqueIds(ReplaceById(products, p))
  {
    var r := ReplaceById(products, p);
    forall i, j | 0 <= i < j < |r|
      ensures r[i].id != r[j].id
    {
      assert r[i].id == products[i].id && r[j].id == products[j].id;
    }
  }

  /** The add branch of `handleSaveProduct`: the new product, made of the
      submitted fields and a fresh id, goes in front. */
  function PrependNew(products: seq<Product>, fields: ProductFields, id: string): (r: seq<Product>)
    ensures |r| == |products| + 1
    ensures r[0].id == id && FieldsOf(r[0]) == fields && r[1..] == products
  {
    [WithId(fields, id)] + products
  }

  /** Adding under an id nobody has keeps ids unique. */
  lemma PrependKeepsUniqueIds(products: seq<Product>, fields: ProductFields, id: string)
    requires UniqueIds(products) && Lookup(products, id).None?
    ensures UniqueIds(PrependNew(products, fields, id))
  {
    var r := PrependNew(products, fields, id);
    forall i, j | 0 <= i < j < |r|
      ensures r[i].id != r[j].id
    {
      assert r[j] == products[j - 1];
      if 0 < i {
        assert r[i] == products[i - 1];
      }
    }
  }

  /** `handleDeleteProduct` once confirmed: every product with the id goes,
      the others stay in order. */
  function DeleteById(products: seq<Product>, id: string): (r: seq<Product>)
    ensures IsSubsequence(r, products)
    ensures forall i :: 0 <= i < |r| ==> r[i].id != id && r[i] in products
    ensures forall i :: 0 <= i < |products| && products[i].id != id ==> products[i] in r
    ensures Lookup(r, id).None?
  {
    Filter(products, (q: Product) => q.id != id)
  }

  /** Deleting one id leaves what every other id looks up to. */
  lemma {:induction false} DeleteKeepsOthers(products: seq<Product>, id: string, other: string)
    requires other != id
    ensures Lookup(DeleteById(products, id), other) == Lookup(products, other)
  {
    if products != [] {
      var x, rest := products[0], products[1..];
      assert products == [x] + rest;
      DeleteKeepsOthers(rest, id, other);
      LookupCons(x, rest, other);
      if x.id != id {
        assert DeleteById(products, id) == [x] + DeleteById(rest, id);
        LookupCons(x, DeleteById(rest, id), other);
      } else {
        assert DeleteById(products, id) == DeleteById(rest, id);
      }
    }
  }

  function IdOf(p: Product): string { p.id }

  /** Deleting keeps ids unique. */
  lemma DeleteKeepsUniqueIds(products: seq<Product>, id: string)
    requires UniqueIds(products)
    ensures UniqueIds(DeleteById(products, id))
  {
    SubsequenceKeepsDistinct(DeleteById(products, id), products, IdOf);
  }

  /** Deleting a product just added under a fresh id gives the list back. */
  lemma DeleteAfterAdd(products: seq<Product>, fields: ProductFields, id: string)
    requires Lookup(products, id).None?
    ensures DeleteById(PrependNew(products, fields, id), id) == products
  {
    var p := (q: Product) => q.id != id;
    FilterConcat([WithId(fields, id)], products, p);
    FilterKeepsAll(products, p);
    assert [WithId(fields, id)][1..] == [];
  }

  /** The view's state: the product list it maintains, whether the form's
      modal is open, and the product being edited, if any. */
  class ProductsView {
    var products: seq<Product>
    var isModalOpen: bool
    var editing: Option<Product>

    /** No two listed products share an id. */
    predicate Valid()
      reads this
    {
      UniqueIds(products)
    }

    constructor (products: seq<Product>)
      ensures this.products == products && !isModalOpen && editing == None
      ensures UniqueIds(products) ==> Valid()
    {
      this.products := products;
      isModalOpen := false;
      editing := None;
    }

    /** `handleOpenModal`: open the form on a product, or on a new one. */
    method OpenModal(product: Option<Product>)
      modifies this
      ensures isModalOpen && editing == product && products == old(products)
    {
      editing := product;
      isModalOpen := true;
    }

    /** `handleCloseModal`. */
    method CloseModal()
      modifies this
      ensures !isModalOpen && editing == None && products == old(products)
    {
      isModalOpen := false;
      editing := None;
    }

    /** `handleSaveProduct`: replace or prepend, then close the modal. The id
        of a new product, taken from the clock in the application, is an input. */
    method SaveProduct(submission: Submission, freshId: string)
      modifies this
      ensures submission.Edit? ==> products == ReplaceById(old(products), submission.product)
      ensures submission.Add? ==> products == PrependNew(old(products), submission.fields, freshId)
      ensures !isModalOpen && editing == None
      ensures old(Valid()) && (submission.Add? ==> Lookup(old(products), freshId).None?) ==> Valid()
    {
      match submission {
        case Edit(p) =>
          if Valid() {
            ReplaceKeepsUniqueIds(products, p);
          }
          products := ReplaceById(products, p);
        case Add(fields) =>
          if Valid() && Lookup(products, freshId).None? {
            PrependKeepsUniqueIds(products, fields, freshId);
          }
          products := [WithId(fields, freshId)] + products;
      }
      CloseModal();
    }

    /** `handleDeleteProduct`; the answer to the confirmation dialog is an input. */
    method DeleteProduct(id: string, confirmed: bool)
      modifies this
      ensures confirmed ==> products == DeleteById(old(products), id)
      ensures !confirmed ==> products == old(products)
      ensures isModalOpen == old(isModalOpen) && editing == old(editing)
      ensures old(Valid()) ==> Valid()
    {
      if confirmed {
        if Valid() {
          DeleteKeepsUniqueIds(products, id);
        }
        products := Filter(products, (q: Product) => q.id != id);
      }
    }
  }
}
