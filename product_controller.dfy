/**
 * controllers/product.js: five route handlers, each making one call to
 * the product store and then writing one `{ success: true, data }`
 * response.
 *
 * The store stands in for the Mongoose model. It is an ordered collection
 * of documents keyed by `_id`. Its failures are an input: when a store
 * call rejects, the handler's promise rejects with the same reason and no
 * response is written (the routes mount these handlers without
 * asyncHandler). The id of a created document is an input too.
 */
module ProductController {
  import opened Js
  import opened Http
  import opened AsyncHandlers

  /** A stored document: its `_id` and its other fields. */
  datatype Product = Product(id: JsValue, fields: seq<Prop>)

  /** The document as the store returns it: `{ _id, ...fields }`. */
  function ToDoc(p: Product): (d: JsValue)
    ensures d.Obj? && Get(d, "_id") == p.id
  {
    Obj(PlainObject, [Prop("_id", p.id)] + p.fields)
  }

  /** Every document, in store order. */
  function Docs(store: seq<Product>): seq<JsValue>
  {
    seq(|store|, i requires 0 <= i < |store| => ToDoc(store[i]))
  }

  predicate UniqueIds(store: seq<Product>)
  {
    forall i, j :: 0 <= i < j < |store| ==> store[i].id != store[j].id
  }

  /** The ids of the store, position by position. */
  function Ids(store: seq<Product>): (ids: seq<JsValue>)
    ensures |ids| == |store| && forall i :: 0 <= i < |store| ==> ids[i] == store[i].id
  {
    if store == [] then [] else [store[0].id] + Ids(store[1..])
  }

  /** The properties of props other than k, in order. */
  function Without(props: seq<Prop>, k: string): (r: seq<Prop>)
    ensures k !in Keys(r)
    ensures forall i :: 0 <= i < |r| ==> r[i] in props
  {
    if props == [] then []
    else if props[0].key == k then Without(props[1..], k)
    else [props[0]] + Without(props[1..], k)
  }

  /** The fields a request body contributes; a body that is not an object contributes none. */
  function Fields(body: JsValue): (fs: seq<Prop>)
    ensures "_id" !in Keys(fs)
  {
    if body.Obj? then Without(body.props, "_id") else []
  }

  /** Where the document with this id is, or -1. */
  function IndexOf(store: seq<Product>, id: JsValue): (r: int)
    ensures -1 <= r < |store|
    ensures r >= 0 ==> store[r].id == id
    ensures r < 0 <==> id !in Ids(store)
  {
    if store == [] then -1
    else if store[0].id == id then 0
    else
      var r := IndexOf(store[1..], id);
      if r < 0 then -1 else r + 1
  }

  /**
   * `Product.findById(id)`: null exactly when no document has that id;
   * otherwise one of the store's documents, carrying that id.
   */
  function FindDoc(store: seq<Product>, id: JsValue): (d: JsValue)
    ensures d == Null <==> id !in Ids(store)
    ensures d != Null ==> d in Docs(store) && Get(d, "_id") == id
  {
    var i := IndexOf(store, id);
    if i < 0 then Null
    else
      assert Docs(store)[i] == ToDoc(store[i]);
      ToDoc(store[i])
  }

  /**
   * The store after `findByIdAndUpdate(id, body)`: the body's fields written
   * over the document's. Every id stays in place, every document with
   * another id is unchanged, and an absent id changes nothing.
   */
  function Updated(store: seq<Product>, id: JsValue, body: JsValue): (r: seq<Product>)
    ensures |r| == |store| && Ids(r) == Ids(store)
    ensures forall j :: 0 <= j < |store| && store[j].id != id ==> r[j] == store[j]
    ensures id !in Ids(store) ==> r == store
  {
    var i := IndexOf(store, id);
    if i < 0 then store else store[i := Product(id, Assign(store[i].fields, Fields(body)))]
  }

  /**
   * The store after `findByIdAndDelete(id)`: one document shorter exactly
   * when the id was present. With unique ids, every other document is kept
   * and none with that id remains.
   */
  function Removed(store: seq<Product>, id: JsValue): (r: seq<Product>)
    ensures |r| == |store| - (if id in Ids(store) then 1 else 0)
    ensures UniqueIds(store) ==>
      && UniqueIds(r)
      && id !in Ids(r)
      && forall p :: p in r <==> p in store && p.id != id
  {
    var i := IndexOf(store, id);
    if i < 0 then store
    else
      var r := store[..i] + store[i + 1..];
      if UniqueIds(store) then DropAt(store, i); r else r
  }

  // ---------------------------------------------------------------------
  // Properties of the store operations

  /** With unique ids the document found is the only one with that id. */
  lemma FindDocIsTheOne(store: seq<Product>, id: JsValue, j: nat)
    requires UniqueIds(store) && j < |store| && store[j].id == id
    ensures FindDoc(store, id) == ToDoc(store[j])
  {
    assert store[j].id in Ids(store) by { assert Ids(store)[j] == id; }
  }

  /** A created document is found by its new id and ids stay unique. */
  lemma CreatedIsFound(store: seq<Product>, newId: JsValue, body: JsValue)
    requires UniqueIds(store) && newId !in Ids(store)
    ensures UniqueIds(store + [Product(newId, Fields(body))])
    ensures FindDoc(store + [Product(newId, Fields(body))], newId) == ToDoc(Product(newId, Fields(body)))
  {
    var s := store + [Product(newId, Fields(body))];
    forall i, j | 0 <= i < j < |s| ensures s[i].id != s[j].id {
      if j == |store| {
        assert Ids(store)[i] == s[i].id;
      }
    }
    FindDocIsTheOne(s, newId, |store|);
  }

  /** Dropping the i-th document of a store with unique ids. */
  lemma DropAt(store: seq<Product>, i: nat)
    requires UniqueIds(store) && i < |store|
    ensures var r := store[..i] + store[i + 1..];
      && UniqueIds(r)
      && store[i].id !in Ids(r)
      && forall p :: p in r <==> p in store && p.id != store[i].id
  {
    var r := store[..i] + store[i + 1..];
    assert forall j :: 0 <= j < |r| ==> r[j] == store[if j < i then j else j + 1];
    forall p | p in store && p.id != store[i].id ensures p in r {
      var j :| 0 <= j < |store| && store[j] == p;
      if j < i { assert r[j] == p; } else { assert r[j - 1] == p; }
    }
    assert store[i].id !in Ids(r) by {
      forall j | 0 <= j < |r| ensures Ids(r)[j] != store[i].id { }
    }
  }

  /** An update of an absent id changes nothing and finds nothing: there is no 404 here. */
  lemma UpdateOfAbsentIdChangesNothing(store: seq<Product>, id: JsValue, body: JsValue)
    requires id !in Ids(store)
    ensures Updated(store, id, body) == store
    ensures FindDoc(Updated(store, id, body), id) == Null
  {
  }

  /** After an update the document with that id has the body's fields over its old ones. */
  lemma UpdateMergesBody(store: seq<Product>, id: JsValue, body: JsValue, k: string)
    requires UniqueIds(store) && body.Obj? && UniqueKeys(body.props) && k != "_id"
    requires id in Ids(store)
    ensures var d := FindDoc(Updated(store, id, body), id);
      && Get(d, "_id") == id
      && Get(d, k) == if k in Keys(body.props) then Lookup(body.props, k) else Get(FindDoc(store, id), k)
  {
    var i := IndexOf(store, id);
    var fs := Fields(body);
    var merged := Assign(store[i].fields, fs);
    var s := Updated(store, id, body);
    assert UniqueIds(s) by {
      forall a, b | 0 <= a < b < |s| ensures s[a].id != s[b].id {
        assert Ids(s)[a] == Ids(store)[a] && Ids(s)[b] == Ids(store)[b];
      }
    }
    FindDocIsTheOne(s, id, i);
    WithoutKeepsUnique(body.props, "_id");
    AssignLookup(store[i].fields, fs, k);
    WithoutLookup(body.props, "_id", k);
    DocGet(Product(id, merged), k);
    DocGet(store[i], k);
    WithoutKeys(body.props, "_id", k);
  }

  /** Reading a field other than `_id` from a document reads its fields. */
  lemma DocGet(p: Product, k: string)
    requires k != "_id"
    ensures Get(ToDoc(p), k) == Lookup(p.fields, k)
  {
    var props := [Prop("_id", p.id)] + p.fields;
    assert props[1..] == p.fields;
    if k !in Keys(props) {
      assert k !in Keys(p.fields) by {
        forall i | 0 <= i < |p.fields| ensures p.fields[i].key != k {
          assert props[i + 1] == p.fields[i];
        }
      }
      LookupAbsent(p.fields, k);
    }
  }

  /**
   * `find()` lists one document per product, in store order: each reads
   * back its product's id and fields, and with unique ids each is what
   * `findById` returns for its id.
   */
  lemma FoundDocumentsReadBack(store: seq<Product>)
    ensures |Docs(store)| == |store|
    ensures forall i :: 0 <= i < |store| ==> Get(Docs(store)[i], "_id") == store[i].id
    ensures forall i, k :: 0 <= i < |store| && k != "_id" ==> Get(Docs(store)[i], k) == Lookup(store[i].fields, k)
    ensures UniqueIds(store) ==> forall i :: 0 <= i < |store| ==> FindDoc(store, store[i].id) == Docs(store)[i]
  {
    forall i, k | 0 <= i < |store| && k != "_id" ensures Get(Docs(store)[i], k) == Lookup(store[i].fields, k) {
      DocGet(store[i], k);
    }
    if UniqueIds(store) {
      forall i | 0 <= i < |store| ensures FindDoc(store, store[i].id) == Docs(store)[i] {
        FindDocIsTheOne(store, store[i].id, i);
      }
    }
  }

  lemma {:induction false} WithoutLookup(props: seq<Prop>, k: string, j: string)
    requires j != k
    ensures Lookup(Without(props, k), j) == Lookup(props, j)
  {
    if props != [] {
      WithoutLookup(props[1..], k, j);
    }
  }

  lemma {:induction false} WithoutKeys(props: seq<Prop>, k: string, j: string)
    requires j != k
    ensures j in Keys(Without(props, k)) <==> j in Keys(props)
  {
    if props != [] {
      WithoutKeys(props[1..], k, j);
      assert Keys(props) == [props[0].key] + Keys(props[1..]);
      if props[0].key != k {
        assert Keys(Without(props, k)) == [props[0].key] + Keys(Without(props[1..], k));
      }
    }
  }

  lemma {:induction false} WithoutKeepsUnique(props: seq<Prop>, k: string)
    requires UniqueKeys(props)
    ensures UniqueKeys(Without(props, k))
  {
    if props != [] {
      WithoutKeepsUnique(props[1..], k);
      if props[0].key != k {
        var r := Without(props, k);
        var rest := Without(props[1..], k);
        assert r == [props[0]] + rest;
        assert props[0].key !in Keys(props[1..]) by {
          forall m | 0 <= m < |props[1..]| ensures props[1..][m].key != props[0].key {
            assert props[1..][m] == props[m + 1];
          }
        }
        WithoutKeys(props[1..], k, props[0].key);
        forall a, b | 0 <= a < b < |r| ensures r[a].key != r[b].key {
          if a == 0 {
            assert r[b].key == Keys(rest)[b - 1];
          } else {
            assert r[a] == rest[a - 1] && r[b] == rest[b - 1];
          }
        }
      }
    }
  }

  // ---------------------------------------------------------------------
  // The handlers

  /** The calls the handlers make on the store. */
  datatype StoreCall =
    | Find
    | FindById(id: JsValue)
    | Create(body: JsValue)
    | FindByIdAndUpdate(id: JsValue, body: JsValue, returnNew: bool)
    | FindByIdAndDelete(id: JsValue)

  /** `{ success: true, data }`. */
  function SuccessBody(data: JsValue): (b: JsValue)
    ensures Get(b, "success") == Bool(true) && Get(b, "data") == data
  {
    var props := [Prop("success", Bool(true)), Prop("data", data)];
    LookupAt(props, 1);
    Literal(props)
  }

  /**
   * The store, the calls made on it, and the responses written. One
   * controller instance stands for the Product model together with the
   * `res` objects of successive requests.
   */
  class Products {
    var store: seq<Product>
    var calls: seq<StoreCall>
    var sent: seq<Effect>

    predicate Valid()
      reads this
    {
      UniqueIds(store)
    }

    constructor (initial: seq<Product>)
      requires UniqueIds(initial)
      ensures Valid() && store == initial && calls == [] && sent == []
    {
      store := initial;
      calls := [];
      sent := [];
    }

    /** `getAllProducts`: 200 with every document, in store order. */
    method GetAllProducts(req: Request, fault: Option<JsValue>) returns (settlement: Settlement)
      requires Valid()
      modifies this
      ensures |sent| >= |old(sent)| && WritesOnceOrRejects(Invocation(sent[|old(sent)|..], settlement))
      ensures Valid() && store == old(store)
      ensures calls == old(calls) + [Find]
      ensures fault.Some? ==> settlement == Rejected(fault.value) && sent == old(sent)
      ensures fault.None? ==> (settlement == Fulfilled(Undefined)
        && sent == old(sent) + [Send(Num(200), SuccessBody(Arr(Docs(store))))])
    {
      calls := calls + [Find];
      if fault.Some? {
        return Rejected(fault.value);
      }
      var products := Arr(Docs(store));
      sent := sent + [Send(Num(200), SuccessBody(products))];
      return Fulfilled(Undefined);
    }

    /** `getProductById`: 200 with the document, or with `data: null` when there is none. */
    method GetProductById(req: Request, fault: Option<JsValue>) returns (settlement: Settlement)
      requires Valid() && !IsNullish(req.params)
      modifies this
      ensures |sent| >= |old(sent)| && WritesOnceOrRejects(Invocation(sent[|old(sent)|..], settlement))
      ensures Valid() && store == old(store)
      ensures calls == old(calls) + [FindById(Get(req.params, "id"))]
      ensures fault.Some? ==> settlement == Rejected(fault.value) && sent == old(sent)
      ensures fault.None? ==> (settlement == Fulfilled(Undefined)
        && sent == old(sent) + [Send(Num(200), SuccessBody(FindDoc(store, Get(req.params, "id"))))])
    {
      var id := Get(req.params, "id");
      calls := calls + [FindById(id)];
      if fault.Some? {
        return Rejected(fault.value);
      }
      sent := sent + [Send(Num(200), SuccessBody(FindDoc(store, id)))];
      return Fulfilled(Undefined);
    }

    /** `createProduct`: 201 with the new document, which the store now holds. */
    method CreateProduct(req: Request, newId: JsValue, fault: Option<JsValue>) returns (settlement: Settlement)
      requires Valid() && newId !in Ids(store)
      modifies this
      ensures |sent| >= |old(sent)| && WritesOnceOrRejects(Invocation(sent[|old(sent)|..], settlement))
      ensures Valid()
      ensures calls == old(calls) + [Create(req.body)]
      ensures fault.Some? ==> settlement == Rejected(fault.value) && sent == old(sent) && store == old(store)
      ensures fault.None? ==> (settlement == Fulfilled(Undefined)
        && store == old(store) + [Product(newId, Fields(req.body))]
        && FindDoc(store, newId) == ToDoc(Product(newId, Fields(req.body)))
        && sent == old(sent) + [Send(Num(201), SuccessBody(ToDoc(Product(newId, Fields(req.body)))))])
    {
      calls := calls + [Create(req.body)];
      if fault.Some? {
        return Rejected(fault.value);
      }
      var product := Product(newId, Fields(req.body));
      CreatedIsFound(store, newId, req.body);
      store := store + [product];
      sent := sent + [Send(Num(201), SuccessBody(ToDoc(product)))];
      return Fulfilled(Undefined);
    }

    /**
     * `updateProduct`: one update-by-id returning the new document, no
     * existence check first, then 200 with that document (null when the id
     * is absent).
     */
    method UpdateProduct(req: Request, fault: Option<JsValue>) returns (settlement: Settlement)
      requires Valid() && !IsNullish(req.params)
      modifies this
      ensures |sent| >= |old(sent)| && WritesOnceOrRejects(Invocation(sent[|old(sent)|..], settlement))
      ensures Valid()
      ensures calls == old(calls) + [FindByIdAndUpdate(Get(req.params, "id"), req.body, true)]
      ensures fault.Some? ==> settlement == Rejected(fault.value) && sent == old(sent) && store == old(store)
      ensures fault.None? ==> (settlement == Fulfilled(Undefined)
        && store == Updated(old(store), Get(req.params, "id"), req.body)
        && sent == old(sent) + [Send(Num(200), SuccessBody(FindDoc(store, Get(req.params, "id"))))])
    {
      var id := Get(req.params, "id");
      calls := calls + [FindByIdAndUpdate(id, req.body, true)];
      if fault.Some? {
        return Rejected(fault.value);
      }
      ghost var ids := Ids(store);
      store := Updated(store, id, req.body);
      assert UniqueIds(store) by {
        forall a, b | 0 <= a < b < |store| ensures store[a].id != store[b].id {
          assert Ids(store)[a] == ids[a] && Ids(store)[b] == ids[b];
        }
      }
      sent := sent + [Send(Num(200), SuccessBody(FindDoc(store, id)))];
      return Fulfilled(Undefined);
    }

    /** `deleteProduct`: 200 with the removed document (null if none); the id is then absent. */
    method DeleteProduct(req: Request, fault: Option<JsValue>) returns (settlement: Settlement)
      requires Valid() && !IsNullish(req.params)
      modifies this
      ensures |sent| >= |old(sent)| && WritesOnceOrRejects(Invocation(sent[|old(sent)|..], settlement))
      ensures Valid()
      ensures calls == old(calls) + [FindByIdAndDelete(Get(req.params, "id"))]
      ensures fault.Some? ==> settlement == Rejected(fault.value) && sent == old(sent) && store == old(store)
      ensures fault.None? ==> (settlement == Fulfilled(Undefined)
        && store == Removed(old(store), Get(req.params, "id"))
        && Get(req.params, "id") !in Ids(store)
        && sent == old(sent) + [Send(Num(200), SuccessBody(FindDoc(old(store), Get(req.params, "id"))))])
    {
      var id := Get(req.params, "id");
      calls := calls + [FindByIdAndDelete(id)];
      if fault.Some? {
        return Rejected(fault.value);
      }
      var removed := FindDoc(store, id);
      store := Removed(store, id);
      sent := sent + [Send(Num(200), SuccessBody(removed))];
      return Fulfilled(Undefined);
    }
  }
}
