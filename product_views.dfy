/** The product catalogue (backend/products/views.py): CRUD over a MongoDB
    collection of schemaless documents. The collection is a map from `_id`
    value to document, with the order `find` returns documents in. */
module ProductViews {
  import opened Common
  import opened Tables
  import opened Text
  import opened ObjectIds

  /** A BSON value as it reaches the views from JSON or from the collection. */
  datatype Value =
    | Str(s: string)
    | Num(n: int)
    | Bool(b: bool)
    | Null
    | Arr(items: seq<Value>)
    | Obj(fields: map<string, Value>)
    | Oid(id: ObjectId)

  type Document = map<string, Value>

  const ID_FIELD: string := "_id"

  function Ident(v: Value): Value { v }

  function NatText(n: nat): string
  {
    if n < 10 then [('0' as int + n) as char] else NatText(n / 10) + [('0' as int + n % 10) as char]
  }

  /** `str(value)` for a value used as `_id`: an object id prints as its
      lower-case hex text, a string as itself. */
  function IdText(v: Value): (r: string)
    ensures v.Oid? ==> r == Format(v.id) && IsValid(r)
    ensures v.Str? ==> r == v.s
  {
    match v
    case Oid(id) => Format(id)
    case Str(s) => s
    case Num(n) => if n < 0 then "-" + NatText(-n) else NatText(n)
    case Bool(b) => if b then "True" else "False"
    case Null => "None"
    case Arr(_) => ""
    case Obj(_) => ""
  }

  /** A document as the views return it: `_id` replaced by its text. */
  function Show(d: Document): (r: Document)
    requires ID_FIELD in d
    ensures r.Keys == d.Keys && r[ID_FIELD] == Str(IdText(d[ID_FIELD]))
    ensures forall f :: f in d && f != ID_FIELD ==> r[f] == d[f]
  {
    d[ID_FIELD := Str(IdText(d[ID_FIELD]))]
  }

  /** The query fields `product_list` copies from the request. */
  const FILTER_FIELDS: set<string> := {"title", "category", "brand"}

  /** Equality match of `find({field: text})`: the field equals the string,
      or is an array holding it. */
  predicate FieldMatches(v: Value, text: string)
  {
    v == Str(text) || (v.Arr? && Str(text) in v.items)
  }

  predicate Matches(d: Document, filter: map<string, string>)
  {
    forall f :: f in filter ==> f in d && FieldMatches(d[f], filter[f])
  }

  /** `list(products_collection.find(filter))`: the matching documents in
      the collection's order. */
  function FindAll(order: seq<Value>, docs: map<Value, Document>, filter: map<string, string>): (r: seq<Document>)
    requires forall k :: k in order ==> k in docs
    ensures |r| <= |order|
    ensures forall d :: d in r <==> exists k :: k in order && d == docs[k] && Matches(d, filter)
  {
    if |order| == 0 then []
    else
      var init := FindAll(order[..|order| - 1], docs, filter);
      var last := order[|order| - 1];
      assert forall k :: k in order <==> k in order[..|order| - 1] || k == last;
      init + (if Matches(docs[last], filter) then [docs[last]] else [])
  }

  /** An empty filter finds every document, in the collection's order. */
  lemma {:induction false} FindAllEverything(order: seq<Value>, docs: map<Value, Document>)
    requires forall k :: k in order ==> k in docs
    ensures FindAll(order, docs, map[]) == seq(|order|, i requires 0 <= i < |order| => docs[order[i]])
  {
    if |order| > 0 {
      var init, last := order[..|order| - 1], order[|order| - 1];
      FindAllEverything(init, docs);
      assert Matches(docs[last], map[]);
      DocsSnoc(order, docs);
    }
  }

  lemma DocsSnoc(order: seq<Value>, docs: map<Value, Document>)
    requires |order| > 0 && forall k :: k in order ==> k in docs
    ensures seq(|order|, i requires 0 <= i < |order| => docs[order[i]])
      == seq(|order| - 1, i requires 0 <= i < |order| - 1 => docs[order[i]]) + [docs[order[|order| - 1]]]
  {
  }

  /** The text of each document's `_id`. */
  function ShowAll(ds: seq<Document>): (r: seq<Document>)
    requires forall d :: d in ds ==> ID_FIELD in d
    ensures |r| == |ds|
    ensures forall i :: 0 <= i < |ds| ==> r[i] == Show(ds[i])
  {
    seq(|ds|, i requires 0 <= i < |ds| => Show(ds[i]))
  }

  /** The fields `product_create` requires, in the order it reports them. */
  function Rank(f: string): nat
  {
    if f == "title" then 0 else if f == "category" then 1 else 2
  }

  /** `missing_fields`: the required fields absent from the data, in the
      order `title`, `category`, `variations`. */
  function MissingFields(data: Document): (r: seq<string>)
    ensures forall f :: f in r <==> f in ["title", "category", "variations"] && f !in data
    ensures forall i, j :: 0 <= i < j < |r| ==> Rank(r[i]) < Rank(r[j])
    ensures r == [] <==> "title" in data && "category" in data && "variations" in data
  {
    (if "title" in data then [] else ["title"])
    + (if "category" in data then [] else ["category"])
    + (if "variations" in data then [] else ["variations"])
  }

  /** `{"$set": data}`: every given field takes the given value; the other
      fields keep theirs. Field names are taken literally (no dotted paths). */
  function SetFields(d: Document, data: Document): (r: Document)
    ensures r.Keys == d.Keys + data.Keys
    ensures forall f :: f in data ==> r[f] == data[f]
    ensures forall f :: f in d && f !in data ==> r[f] == d[f]
  {
    d + data
  }

  /** Setting the same fields twice is setting them once. */
  lemma SetFieldsIdempotent(d: Document, data: Document)
    ensures SetFields(SetFields(d, data), data) == SetFields(d, data)
  {
  }

  datatype Reply =
    | Page(products: seq<Document>)
    | Product(status: int, product: Document)
    | Message(text: string)
    | Error(status: int, message: string)

  const INVALID_ID: string := "Invalid ID format"
  const NOT_FOUND_MSG: string := "Product not found"
  const UPDATED: string := "Product updated successfully"
  const DELETED: string := "Product deleted successfully!"
  const CREATE_FAILED: string := "Failed to create product"
  const UPDATE_FAILED: string := "Failed to update product"

  /** The filter `product_list` builds: the title, category and brand the
      request gives, each compared for equality. */
  function QueryFilter(query: map<string, string>): (filter: map<string, string>)
    ensures filter.Keys == query.Keys * FILTER_FIELDS
    ensures forall f :: f in filter ==> filter[f] == query[f]
  {
    map f | f in query && f in FILTER_FIELDS :: query[f]
  }

  /** `filter_params`, built by conditional updates. */
  method BuildFilter(query: map<string, string>) returns (filter: map<string, string>)
    ensures filter == QueryFilter(query)
  {
    filter := map[];
    if "title" in query {
      filter := filter["title" := query["title"]];
    }
    if "category" in query {
      filter := filter["category" := query["category"]];
    }
    if "brand" in query {
      filter := filter["brand" := query["brand"]];
    }
  }

  /** The key `ObjectId(pk)` looks up. */
  function Key(pk: string): Value
    requires IsValid(pk)
  {
    Oid(Parse(pk).value)
  }

  /** `product_detail`: a malformed id is refused, an unknown one is not
      found, a stored document is returned with its `_id` printed. */
  function Detail(docs: map<Value, Document>, pk: string): (r: Reply)
    requires forall k :: k in docs ==> ID_FIELD in docs[k]
    ensures !IsValid(pk) <==> r == Error(BAD_REQUEST, INVALID_ID)
    ensures IsValid(pk) && Key(pk) !in docs <==> r == Error(NOT_FOUND, NOT_FOUND_MSG)
    ensures r.Product? <==> IsValid(pk) && Key(pk) in docs
    ensures r.Product? ==> r.status == OK && r.product == Show(docs[Key(pk)])
  {
    if !IsValid(pk) then Error(BAD_REQUEST, INVALID_ID)
    else if Key(pk) !in docs then Error(NOT_FOUND, NOT_FOUND_MSG)
    else Product(OK, Show(docs[Key(pk)]))
  }

  /** A stored product is shown under its own id: when it is stored with its
      key as `_id`, the detail's `_id` is the path string in lower case. */
  lemma DetailShowsPath(docs: map<Value, Document>, pk: string)
    requires forall k :: k in docs ==> ID_FIELD in docs[k] && docs[k][ID_FIELD] == k
    requires Detail(docs, pk).Product?
    ensures Detail(docs, pk).product[ID_FIELD] == Str(Lower(pk))
  {
    FormatParse(pk);
  }

  /** A product created under a generated id is found again at the text of
      that id. */
  lemma CreateThenDetail(docs: map<Value, Document>, data: Document, newId: ObjectId)
    requires forall k :: k in docs ==> ID_FIELD in docs[k]
    ensures var docs1 := docs[Oid(newId) := data[ID_FIELD := Oid(newId)]];
      Detail(docs1, Format(newId)) == Product(OK, Show(data[ID_FIELD := Oid(newId)]))
  {
    ParseFormat(newId);
  }

  /** After an update, the detail of the product shows each posted field
      with the posted value (its `_id` aside) and the other fields as before. */
  lemma UpdateThenDetail(docs: map<Value, Document>, pk: string, data: Document)
    requires forall k :: k in docs ==> ID_FIELD in docs[k]
    requires IsValid(pk) && Key(pk) in docs
    ensures var docs1 := docs[Key(pk) := SetFields(docs[Key(pk)], data)];
      var shown := Detail(docs1, pk).product;
      && Detail(docs1, pk).Product?
      && (forall f :: f in data && f != ID_FIELD ==> f in shown && shown[f] == data[f])
      && (forall f :: f in docs[Key(pk)] && f !in data && f != ID_FIELD ==> f in shown && shown[f] == docs[Key(pk)][f])
  {
  }

  /** After a delete, the product is no longer found. */
  lemma DeleteThenDetail(docs: map<Value, Document>, pk: string)
    requires forall k :: k in docs ==> ID_FIELD in docs[k]
    requires IsValid(pk)
    ensures Detail(docs - {Key(pk)}, pk) == Error(NOT_FOUND, NOT_FOUND_MSG)
  {
  }

  class ProductCollection {
    var docs: map<Value, Document>
    var order: seq<Value>

    /** `order` lists each stored key once; every stored document carries
        its key as `_id`, and no key is an array (MongoDB refuses those). */
    ghost predicate Valid()
      reads this
    {
      && (forall k :: k in order <==> k in docs)
      && Distinct(order, Ident)
      && (forall k :: k in docs ==> !k.Arr? && ID_FIELD in docs[k] && docs[k][ID_FIELD] == k)
    }

    constructor ()
      ensures Valid() && docs == map[] && order == []
    {
      docs := map[];
      order := [];
    }

    /** Every document `find` returns carries an `_id`. */
    lemma FoundHaveIds(filter: map<string, string>)
      requires Valid()
      ensures forall k :: k in order ==> k in docs
      ensures forall d :: d in FindAll(order, docs, filter) ==> ID_FIELD in d
    {
    }

    /** `product_list` without pagination: the matching documents, each
        rewritten in turn with its `_id` printed. */
    method List(query: map<string, string>) returns (reply: Reply)
      requires Valid()
      ensures reply.Page?
      ensures reply == Page(ShowAll(FindAll(order, docs, QueryFilter(query))))
    {
      var filter := BuildFilter(query);
      FoundHaveIds(filter);
      var found := FindAll(order, docs, filter);
      var products := found;
      var i := 0;
      while i < |products|
        invariant 0 <= i <= |products| == |found|
        invariant forall j :: 0 <= j < i ==> products[j] == Show(found[j])
        invariant forall j :: i <= j < |products| ==> products[j] == found[j]
      {
        assert found[i] in found;
        products := products[i := Show(products[i])];
        i := i + 1;
      }
      return Page(products);
    }

    /** `product_create`. The required fields are checked first; the
        document is then inserted under its own `_id` if it gives one, else
        under the generated `newId`. An array `_id` or a key already stored
        is refused by the database and reported as a failure. */
    method Create(data: Document, newId: ObjectId) returns (reply: Reply)
      requires Valid()
      modifies this
      ensures Valid()
      ensures MissingFields(data) != [] ==>
        && reply == Error(BAD_REQUEST, "Missing fields: " + Join(MissingFields(data), ", "))
        && docs == old(docs) && order == old(order)
      ensures MissingFields(data) == [] ==>
        var key := if ID_FIELD in data then data[ID_FIELD] else Oid(newId);
        && (key.Arr? || key in old(docs) ==>
              reply == Error(SERVER_ERROR, CREATE_FAILED) && docs == old(docs) && order == old(order))
        && (!key.Arr? && key !in old(docs) ==>
              && docs == old(docs)[key := data[ID_FIELD := key]]
              && order == old(order) + [key]
              && reply == Product(CREATED, Show(data[ID_FIELD := key])))
    {
      var missing := MissingFields(data);
      if missing != [] {
        return Error(BAD_REQUEST, "Missing fields: " + Join(missing, ", "));
      }
      var key := if ID_FIELD in data then data[ID_FIELD] else Oid(newId);
      if key.Arr? || key in docs {
        return Error(SERVER_ERROR, CREATE_FAILED);
      }
      var stored := data[ID_FIELD := key];
      DistinctAppend(order, key, Ident);
      docs := docs[key := stored];
      order := order + [key];
      return Product(CREATED, Show(stored));
    }

    /** `product_update`: `$set` of the posted fields on the document with
        that id. Setting `_id` to another value is refused by the database. */
    method Update(pk: string, data: Document) returns (reply: Reply)
      requires Valid()
      modifies this
      ensures Valid()
      ensures order == old(order)
      ensures !IsValid(pk) ==> reply == Error(BAD_REQUEST, INVALID_ID) && docs == old(docs)
      ensures IsValid(pk) && Key(pk) !in old(docs) ==> reply == Error(NOT_FOUND, NOT_FOUND_MSG) && docs == old(docs)
      ensures IsValid(pk) && Key(pk) in old(docs) ==>
        && (ID_FIELD in data && data[ID_FIELD] != Key(pk) ==>
              reply == Error(SERVER_ERROR, UPDATE_FAILED) && docs == old(docs))
        && (ID_FIELD !in data || data[ID_FIELD] == Key(pk) ==>
              reply == Message(UPDATED) && docs == old(docs)[Key(pk) := SetFields(old(docs)[Key(pk)], data)])
    {
      if !IsValid(pk) {
        return Error(BAD_REQUEST, INVALID_ID);
      }
      var key := Key(pk);
      if key !in docs {
        return Error(NOT_FOUND, NOT_FOUND_MSG);
      }
      if ID_FIELD in data && data[ID_FIELD] != key {
        return Error(SERVER_ERROR, UPDATE_FAILED);
      }
      docs := docs[key := SetFields(docs[key], data)];
      return Message(UPDATED);
    }

    /** `product_delete`. */
    method Delete(pk: string) returns (reply: Reply)
      requires Valid()
      modifies this
      ensures Valid()
      ensures !IsValid(pk) ==> reply == Error(BAD_REQUEST, INVALID_ID) && docs == old(docs) && order == old(order)
      ensures IsValid(pk) && Key(pk) !in old(docs) ==>
        reply == Error(NOT_FOUND, NOT_FOUND_MSG) && docs == old(docs) && order == old(order)
      ensures IsValid(pk) && Key(pk) in old(docs) ==>
        && reply == Message(DELETED)
        && docs == old(docs) - {Key(pk)}
        && order == Filter(old(order), k => k != Key(pk))
    {
      if !IsValid(pk) {
        return Error(BAD_REQUEST, INVALID_ID);
      }
      var key := Key(pk);
      if key !in docs {
        return Error(NOT_FOUND, NOT_FOUND_MSG);
      }
      FilterDistinct(order, k => k != key, Ident);
      docs := docs - {key};
      order := Filter(order, k => k != key);
      return Message(DELETED);
    }
  }
}
