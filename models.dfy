/** shared/models.js: the document schemas' enumerations and defaults, and
    the in-memory model fallbacks whose `findById`, `findOne` and `find`
    search one collection of the global store (absent when the process
    did not install one). */
module Models {
  import opened JsText
  import opened JsValues
  import opened MongoDb

  // ---------------------------------------------------------------------
  // Schema enumerations and defaults
  // ---------------------------------------------------------------------

  const UserRoles: seq<string> := ["user", "ngo", "admin"]
  const DefaultUserRole := "user"

  const ReportedStatuses: seq<string> := ["pending", "investigating", "rescued", "closed"]
  const DefaultReportedStatus := "pending"

  const Genders: seq<string> := ["male", "female", "unknown"]

  const AdoptableStatuses: seq<string> := ["available", "adopted", "pending", "unavailable"]
  const DefaultAdoptableStatus := "available"

  /** Each default is one of the values its enumeration allows. */
  lemma DefaultsAreAllowed()
    ensures DefaultUserRole in UserRoles
    ensures DefaultReportedStatus in ReportedStatuses
    ensures DefaultAdoptableStatus in AdoptableStatuses
  {
  }

  // ---------------------------------------------------------------------
  // Query matching
  // ---------------------------------------------------------------------

  /** What a model lookup returns: `null` when there is no global store,
      `undefined` when nothing matched, or the document. */
  datatype Lookup = NoStore | NotFound | Found(doc: Document)

  /** The loop over `for (const key in query)`: every query property equals
      (`===`) the document's property of that name. */
  predicate Matches(doc: Document, query: Document) {
    forall key :: key in query ==> Get(doc, key) == query[key]
  }

  /** `collection.find(matches)`: the first matching document. */
  function FirstMatch(docs: seq<Document>, query: Document): (r: Option<nat>)
    ensures r.Some? ==>
      && r.value < |docs| && Matches(docs[r.value], query)
      && forall j :: 0 <= j < r.value ==> !Matches(docs[j], query)
    ensures r.None? ==> forall j :: 0 <= j < |docs| ==> !Matches(docs[j], query)
  {
    if |docs| == 0 then None
    else if Matches(docs[0], query) then Some(0)
    else match FirstMatch(docs[1..], query)
      case None => None
      case Some(i) => Some(i + 1)
  }

  /** `InMemoryModel.findById(id)` on the model constructed with `modelName`
      (the constructor keeps it lower-cased as `this.name`). */
  function ModelFindById(store: InMemoryMongoDB?, modelName: string, id: Value): (r: Outcome<Lookup>)
    reads store
    ensures store == null ==> r == Ok(NoStore)
    ensures store != null && ToLower(modelName) !in store.collections ==> r.Thrown?
    ensures store != null && ToLower(modelName) in store.collections ==>
      match FindFirstById(store.collections[ToLower(modelName)], id)
      case Thrown(e) => r == Thrown(e)
      case Ok(None) => r == Ok(NotFound)
      case Ok(Some(d)) => r == Ok(Found(d))
  {
    if store == null then Ok(NoStore)
    else
      ToLowerIdempotent(modelName);
      match store.FindById(ToLower(modelName), id)
      case Thrown(e) => Thrown(e)
      case Ok(None) => Ok(NotFound)
      case Ok(Some(d)) => Ok(Found(d))
  }

  /** `InMemoryModel.findOne(query)`: the first document of the model's
      collection that matches every query property. */
  function ModelFindOne(store: InMemoryMongoDB?, modelName: string, query: Document): (r: Outcome<Lookup>)
    reads store
    ensures store == null ==> r == Ok(NoStore)
    ensures store != null && ToLower(modelName) !in store.collections ==> r.Thrown?
    ensures store != null && ToLower(modelName) in store.collections ==>
      var docs := store.collections[ToLower(modelName)];
      && r.Ok? && !r.value.NoStore?
      && (r.value.Found? <==> exists j :: 0 <= j < |docs| && Matches(docs[j], query))
      && (r.value.Found? ==>
            && Matches(r.value.doc, query)
            && exists j :: 0 <= j < |docs| && docs[j] == r.value.doc
                 && forall k :: 0 <= k < j ==> !Matches(docs[k], query))
  {
    var name := ToLower(modelName);
    if store == null then Ok(NoStore)
    else if name !in store.collections then Thrown("TypeError")
    else
      var docs := store.collections[name];
      match FirstMatch(docs, query)
      case None => Ok(NotFound)
      case Some(i) => Ok(Found(docs[i]))
  }

  /** `InMemoryModel.find(query)`: the whole collection for an empty query,
      otherwise the matching documents in collection order; `[]` without a
      store. */
  function ModelFind(store: InMemoryMongoDB?, modelName: string, query: Document): (r: Outcome<seq<Document>>)
    reads store
    ensures store == null ==> r == Ok([])
    ensures store != null && ToLower(modelName) !in store.collections ==> r.Thrown?
  {
    var name := ToLower(modelName);
    if store == null then Ok([])
    else if name !in store.collections then Thrown("TypeError")
    else if |query| == 0 then Ok(store.collections[name])
    else Ok(Filter(store.collections[name], d => Matches(d, query)))
  }

  /** `find` keeps exactly the matching documents, in order; with an empty query
      (which every document matches) that is the whole collection. */
  lemma FindIsMatchingSubsequence(store: InMemoryMongoDB, modelName: string, query: Document)
    requires ToLower(modelName) in store.collections
    ensures var docs := store.collections[ToLower(modelName)];
      && ModelFind(store, modelName, query) == Ok(Filter(docs, d => Matches(d, query)))
      && IsSubsequence(ModelFind(store, modelName, query).value, docs)
      && (|query| == 0 ==> ModelFind(store, modelName, query) == Ok(docs))
  {
    var docs := store.collections[ToLower(modelName)];
    if |query| == 0 {
      FilterKeepsAll(docs, d => Matches(d, query));
    }
    FilterIsSubsequence(docs, d => Matches(d, query));
  }

  /** `findOne` returns the first element of what `find` returns. */
  lemma {:induction false} FindOneIsHeadOfFind(docs: seq<Document>, query: Document)
    ensures var all := Filter(docs, d => Matches(d, query));
      match FirstMatch(docs, query)
      case None => all == []
      case Some(i) => all != [] && all[0] == docs[i]
  {
    if |docs| > 0 {
      FindOneIsHeadOfFind(docs[1..], query);
    }
  }
}
