/**
 * The products slice: the error text the update/delete thunks reject with, the update/delete thunks
 * against the remote store, and the slice's reducers.
 */
module Products {
  import opened Wrappers
  import opened Lists
  import opened Entities
  import opened Remote

  const ProductNotFound := "Product not found"

  /**
   * The value updateProduct and deleteProduct reject with: a fixed text for a 404 reply, otherwise the
   * server's message or the client-side one.
   */
  function ProductRejectMessage(e: HttpError): (r: string)
    ensures e.response.Some? && e.response.value.status == 404 ==> r == ProductNotFound
    ensures !(e.response.Some? && e.response.value.status == 404) ==> r == RejectMessage(e)
  {
    if e.response.Some? && e.response.value.status == 404 then ProductNotFound else RejectMessage(e)
  }

  /** A 404 reply yields the not-found text even when the server sent a message of its own. */
  lemma NotFoundWinsOverServerMessage(m: Option<string>, message: string)
    ensures ProductRejectMessage(HttpError(Some(HttpResponse(404, m)), message)) == ProductNotFound
  {
  }

  /** A failure without a reply (a network failure) yields the client-side message. */
  lemma NoReplyYieldsClientMessage(message: string)
    ensures ProductRejectMessage(HttpError(None, message)) == message
  {
  }

  /** The products left after removing every product with id `id`. */
  function WithoutProduct(products: seq<Product>, id: Id): (r: seq<Product>)
    ensures forall i :: 0 <= i < |r| ==> r[i].id != id
    ensures forall p :: p in r <==> p in products && p.id != id
    ensures IsSubsequence(r, products)
  {
    FilterIsSubsequence(products, ProductIdIsNot(id));
    Filter(products, ProductIdIsNot(id))
  }

  /** Removing the same id twice leaves what removing it once leaves. */
  lemma {:induction false} WithoutProductIdempotent(products: seq<Product>, id: Id)
    ensures WithoutProduct(WithoutProduct(products, id), id) == WithoutProduct(products, id)
  {
    FilterIdempotent(products, ProductIdIsNot(id));
  }

  /** Removing an id no product carries changes nothing. */
  lemma {:induction false} WithoutAbsentProduct(products: seq<Product>, id: Id)
    requires forall j :: 0 <= j < |products| ==> products[j].id != id
    ensures WithoutProduct(products, id) == products
  {
    FilterKeepsAll(products, ProductIdIsNot(id));
  }

  /**
   * updateProduct against the store: PUT the product, resolving to the stored product, or rejecting
   * with the mapped error text. Nothing but the products collection is touched.
   */
  method UpdateProduct(store: RemoteStore, product: Product) returns (r: Result<Product, string>)
    requires store.Valid()
    modifies store
    ensures store.Valid()
    ensures r.Success? <==> product.id in old(store.products) && (ProductsPath, product.id) !in store.faulty
    ensures r.Success? ==> r.value == product && store.products == old(store.products)[product.id := product]
    ensures r.Failure? ==> store.products == old(store.products)
    ensures (ProductsPath, product.id) !in store.faulty && product.id !in old(store.products) ==>
              r == Failure(ProductNotFound)
    ensures store.orders == old(store.orders) && store.users == old(store.users)
  {
    var reply := store.ReplaceProduct(product);
    if reply.Failed? {
      return Failure(ProductRejectMessage(reply.error));
    }
    return Success(product);
  }

  /**
   * deleteProduct against the store: DELETE the product and resolve to its id, or reject with the
   * mapped error text. Orders that reference the product are left as they are.
   */
  method DeleteProduct(store: RemoteStore, id: Id) returns (r: Result<Id, string>)
    requires store.Valid()
    modifies store
    ensures store.Valid()
    ensures r.Success? <==> id in old(store.products) && (ProductsPath, id) !in store.faulty
    ensures r.Success? ==> r.value == id && store.products == old(store.products) - {id}
    ensures r.Failure? ==> store.products == old(store.products)
    ensures (ProductsPath, id) !in store.faulty && id !in old(store.products) ==> r == Failure(ProductNotFound)
    ensures store.orders == old(store.orders) && store.users == old(store.users)
  {
    var reply := store.RemoveProduct(id);
    if reply.Failed? {
      return Failure(ProductRejectMessage(reply.error));
    }
    return Success(id);
  }

  class ProductsState {
    var products: seq<Product>
    var loading: bool
    var error: Option<string>

    constructor ()
      ensures products == [] && !loading && error == None
    {
      products, loading, error := [], false, None;
    }

    /** clearError */
    method ClearError()
      modifies this
      ensures error == None
      ensures products == old(products) && loading == old(loading)
    {
      error := None;
    }

    /** fetchProducts.pending */
    method FetchProductsPending()
      modifies this
      ensures loading && error == None
      ensures products == old(products)
    {
      loading := true;
      error := None;
    }

    /** fetchProducts.fulfilled */
    method FetchProductsFulfilled(payload: seq<Product>)
      modifies this
      ensures !loading && products == payload
      ensures error == old(error)
    {
      loading := false;
      products := payload;
    }

    /** fetchProducts.rejected: `action.payload || action.error.message` */
    method FetchProductsRejected(payload: Option<string>, errorMessage: string)
      modifies this
      ensures !loading && error.Some?
      ensures error == Some(if payload.Some? && payload.value != "" then payload.value else errorMessage)
      ensures products == old(products)
    {
      loading := false;
      error := Some(if payload.Some? && payload.value != "" then payload.value else errorMessage);
    }

    /** addProduct.fulfilled: the stored product goes at the end. */
    method AddProductFulfilled(payload: Product)
      modifies this
      ensures products == old(products) + [payload]
      ensures |products| == |old(products)| + 1 && products[..|old(products)|] == old(products)
      ensures loading == old(loading) && error == old(error)
    {
      products := products + [payload];
    }

    /**
     * updateProduct.fulfilled: the first product with the payload's id is replaced by the payload;
     * nothing changes when no product has it.
     */
    method UpdateProductFulfilled(payload: Product)
      modifies this
      ensures var k := FindIndex(old(products), ProductHasId(payload.id));
              products == if k == -1 then old(products) else old(products)[k := payload]
      ensures |products| == |old(products)|
      ensures forall j :: 0 <= j < |products| && products[j] != old(products)[j] ==>
                products[j] == payload && old(products)[j].id == payload.id
      ensures loading == old(loading) && error == old(error)
    {
      var index := FindIndex(products, ProductHasId(payload.id));
      if index != -1 {
        products := products[index := payload];
      }
    }

    /** deleteProduct.fulfilled: every product with that id goes; the others keep their order. */
    method DeleteProductFulfilled(id: Id)
      modifies this
      ensures products == WithoutProduct(old(products), id)
      ensures forall p :: p in products <==> p in old(products) && p.id != id
      ensures IsSubsequence(products, old(products))
      ensures loading == old(loading) && error == old(error)
    {
      products := WithoutProduct(products, id);
    }
  }
}
