/** The client's products slice: the list the product page shows, with its
    loading flag, last error and the product being edited, and the reducers
    that the fetch, create, update and delete thunks' outcomes run. */
module ProductsSlice {
  import opened Wrappers
  import opened ProductSchema

  /** A product as the API returns it: the document with its `_id`. */
  datatype Record = Record(id: ProductId, product: Product)

  /** An entry of `items`. A `Stored` entry is a product document, as
      `fetchProducts` delivers them; an `Envelope` is a whole response body
      `{success, product}`, which carries no `_id` of its own. */
  datatype Item = Stored(record: Record) | Envelope(success: bool, record: Record)

  /** `item._id`: `None` stands for JavaScript's `undefined`, and two
      `undefined`s compare equal under `===`. */
  function IdOf(item: Item): (id: Option<ProductId>)
    ensures item.Stored? <==> id.Some?
    ensures item.Stored? ==> id == Some(item.record.id)
  {
    match item
    case Stored(r) => Some(r.id)
    case Envelope(_, _) => None
  }

  // ---------------------------------------------------------------------
  // The list operations of the update and delete cases
  // ---------------------------------------------------------------------

  /** `items.map(p => p._id === payload._id ? payload : p)`. */
  function ReplaceById(items: seq<Item>, payload: Item): (r: seq<Item>)
    ensures |r| == |items|
    ensures forall i :: 0 <= i < |items| && IdOf(items[i]) == IdOf(payload) ==> r[i] == payload
    ensures forall i :: 0 <= i < |items| && IdOf(items[i]) != IdOf(payload) ==> r[i] == items[i]
  {
    seq(|items|, i requires 0 <= i < |items| =>
          if IdOf(items[i]) == IdOf(payload) then payload else items[i])
  }

  /** `items.filter(p => p._id !== id)`. */
  function RemoveById(items: seq<Item>, id: ProductId): (r: seq<Item>)
    ensures |r| <= |items|
    ensures forall k :: 0 <= k < |r| ==> IdOf(r[k]) != Some(id)
    ensures forall x :: x in r ==> x in items
    ensures forall x :: x in items && IdOf(x) != Some(id) ==> x in r
  {
    if items == [] then []
    else
      var rest := RemoveById(items[1..], id);
      if IdOf(items[0]) != Some(id) then [items[0]] + rest else rest
  }

  /** The filter works element by element, so it distributes over
      concatenation; in particular it keeps the relative order of the
      entries it keeps. */
  lemma {:induction false} RemoveDistributes(a: seq<Item>, b: seq<Item>, id: ProductId)
    ensures RemoveById(a + b, id) == RemoveById(a, id) + RemoveById(b, id)
  {
    if a == [] {
      assert a + b == b;
    } else {
      assert (a + b)[1..] == a[1..] + b;
      RemoveDistributes(a[1..], b, id);
    }
  }

  /** A list without the id is left exactly as it was. */
  lemma {:induction false} RemoveAbsentKeeps(items: seq<Item>, id: ProductId)
    requires forall k :: 0 <= k < |items| ==> IdOf(items[k]) != Some(id)
    ensures RemoveById(items, id) == items
  {
    if items != [] {
      RemoveAbsentKeeps(items[1..], id);
    }
  }

  /** Deleting twice is deleting once. */
  lemma RemoveIdempotent(items: seq<Item>, id: ProductId)
    ensures RemoveById(RemoveById(items, id), id) == RemoveById(items, id)
  {
    RemoveAbsentKeeps(RemoveById(items, id), id);
  }

  /** The number of entries carrying the id. */
  function Hits(items: seq<Item>, id: ProductId): nat {
    if items == [] then 0
    else (if IdOf(items[0]) == Some(id) then 1 else 0) + Hits(items[1..], id)
  }

  /** The entries removed are exactly those carrying the id: the kept ones
      plus the removed ones account for the whole list. */
  lemma {:induction false} RemoveCount(items: seq<Item>, id: ProductId)
    ensures |RemoveById(items, id)| + Hits(items, id) == |items|
  {
    if items != [] {
      RemoveCount(items[1..], id);
    }
  }

  /** Replacing with the same payload twice is replacing once. */
  lemma ReplaceIdempotent(items: seq<Item>, payload: Item)
    ensures ReplaceById(ReplaceById(items, payload), payload) == ReplaceById(items, payload)
  {
  }

  // ---------------------------------------------------------------------
  // Thunk payloads
  // ---------------------------------------------------------------------

  /** What `createProductThunk` and `updateProductThunk` deliver as written:
      `res.data`, the whole `{success: true, product}` body the server sends
      with a 201 or a 200. */
  function ResponseData(r: Record): (item: Item)
    ensures IdOf(item) == None && item.record == r
  {
    Envelope(true, r)
  }

  /** What the reducers compare by `_id` expect: `res.data.product`. */
  function ResponseProduct(r: Record): (item: Item)
    ensures IdOf(item) == Some(r.id) && item.record == r
  {
    Stored(r)
  }

  /** As written, an update whose list holds only fetched documents replaces
      nothing: the payload's `_id` is undefined and no fetched entry's is. */
  lemma UpdateWithBodyReplacesNothing(items: seq<Item>, r: Record)
    requires forall k :: 0 <= k < |items| ==> items[k].Stored?
    ensures ReplaceById(items, ResponseData(r)) == items
  {
  }

  /** As written, every entry an earlier create pushed (an envelope, with an
      undefined `_id`) is overwritten by the next update's payload, whatever
      product it was. */
  lemma UpdateWithBodyOverwritesEnvelopes(items: seq<Item>, r: Record, k: nat)
    requires k < |items| && items[k].Envelope?
    ensures ReplaceById(items, ResponseData(r))[k] == Envelope(true, r)
  {
  }

  /** As written, the entry a create pushes is not removed by deleting its
      product: the filter compares the id with the envelope's undefined `_id`. */
  lemma CreatedBodyIsNotDeleted(items: seq<Item>, r: Record)
    ensures RemoveById(items + [ResponseData(r)], r.id)
              == RemoveById(items, r.id) + [ResponseData(r)]
  {
    RemoveDistributes(items, [ResponseData(r)], r.id);
  }

  /** With `res.data.product` as the payload, the update puts the new
      document at every position of its id and changes nothing else. */
  lemma UpdateWithProductReplacesTarget(items: seq<Item>, r: Record, k: nat)
    requires k < |items| && IdOf(items[k]) == Some(r.id)
    ensures ReplaceById(items, ResponseProduct(r))[k] == Stored(r)
    ensures forall j :: 0 <= j < |items| && IdOf(items[j]) != Some(r.id) ==>
              ReplaceById(items, ResponseProduct(r))[j] == items[j]
  {
  }

  /** With `res.data.product` as the payload, a created entry is removed by
      deleting its product. */
  lemma CreatedProductIsDeleted(items: seq<Item>, r: Record)
    ensures RemoveById(items + [ResponseProduct(r)], r.id) == RemoveById(items, r.id)
  {
    RemoveDistributes(items, [ResponseProduct(r)], r.id);
    assert RemoveById([ResponseProduct(r)], r.id) == [];
  }

  // ---------------------------------------------------------------------
  // The slice state and its reducers
  // ---------------------------------------------------------------------

  class ProductsState {
    var items: seq<Item>
    var loading: bool
    var error: Option<string>
    var editing: Option<Item>

    /** The initial state: `{items: [], loading: false, error: null, editing: null}`. */
    constructor ()
      ensures items == [] && !loading && error == None && editing == None
    {
      items := [];
      loading := false;
      error := None;
      editing := None;
    }

    /** `setEditing`: only `editing` changes, to the payload. */
    method SetEditing(product: Item)
      modifies this`editing
      ensures editing == Some(product)
    {
      editing := Some(product);
    }

    /** `clearEditing`: only `editing` changes, to null. */
    method ClearEditing()
      modifies this`editing
      ensures editing == None
    {
      editing := None;
    }

    /** `fetchProducts.pending`: loading, and the last error cleared; the
        list is kept. */
    method FetchPending()
      modifies this`loading, this`error
      ensures loading && error == None
    {
      loading := true;
      error := None;
    }

    /** `fetchProducts.fulfilled`: the list becomes the fetched documents;
        the error is not touched. */
    method FetchFulfilled(products: seq<Record>)
      modifies this`loading, this`items
      ensures !loading
      ensures |items| == |products|
      ensures forall k :: 0 <= k < |products| ==> items[k] == Stored(products[k])
    {
      loading := false;
      items := seq(|products|, k requires 0 <= k < |products| => Stored(products[k]));
    }

    /** `fetchProducts.rejected`: the message becomes the error; the list is kept. */
    method FetchRejected(message: string)
      modifies this`loading, this`error
      ensures !loading && error == Some(message)
    {
      loading := false;
      error := Some(message);
    }

    /** `createProductThunk.fulfilled`: the payload is pushed at the end. */
    method CreateFulfilled(payload: Item)
      modifies this`items
      ensures items == old(items) + [payload]
    {
      items := items + [payload];
    }

    /** `updateProductThunk.fulfilled`: the entries with the payload's `_id`
        become the payload. */
    method UpdateFulfilled(payload: Item)
      modifies this`items
      ensures items == ReplaceById(old(items), payload)
    {
      items := ReplaceById(items, payload);
    }

    /** `deleteProductThunk.fulfilled`: the entries with the deleted id go. */
    method DeleteFulfilled(id: ProductId)
      modifies this`items
      ensures items == RemoveById(old(items), id)
    {
      items := RemoveById(items, id);
    }
  }
}
