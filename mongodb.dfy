/** The development fallback store of server/mongodb.js: four named
    collections of plain documents, held in a process-wide object, and one
    integer id counter per collection. */
module MongoDb {
  import opened JsText
  import opened JsValues

  const Users := "users"
  const ReportedAnimals := "reportedanimals"
  const AdoptableAnimals := "adoptableanimals"
  const Veterinarians := "veterinarians"

  const CollectionNames: set<string> := {Users, ReportedAnimals, AdoptableAnimals, Veterinarians}

  /** A counter property: a number, or the NaN that `undefined++` leaves behind
      under a name that was never initialised. */
  datatype Counter = Count(n: int) | NaN

  /** The value `counter++` stores. */
  function Increment(c: Counter): Counter {
    match c
    case Count(n) => Count(n + 1)
    case NaN => NaN
  }

  /** The test `doc[key].toString() === v.toString()` that the store's
      searches apply; `None` when either `toString` call throws (the property
      or `v` is `null` or `undefined`). */
  function KeyTextEquals(doc: Document, key: string, v: Value): (r: Option<bool>)
    ensures r.None? <==> ToStringMethod(Get(doc, key)).None? || ToStringMethod(v).None?
    ensures r.Some? ==> (r.value <==> JsString(Get(doc, key)) == JsString(v))
  {
    match ToStringMethod(Get(doc, key))
    case None => None
    case Some(a) =>
      match ToStringMethod(v)
      case None => None
      case Some(b) => Some(a == b)
  }

  /** `docs.findIndex(d => d._id.toString() === id.toString())`, scanning left
      to right: the first document whose id text equals that of `id`, `None`
      (that is, -1) when there is none, and a thrown TypeError when a document
      reached before any match has a `null`/`undefined` id (or `id` is one). */
  function FindIndexById(docs: seq<Document>, id: Value): (r: Outcome<Option<nat>>)
    ensures r.Ok? && r.value.Some? ==>
      && r.value.value < |docs|
      && KeyTextEquals(docs[r.value.value], "_id", id) == Some(true)
      && forall j :: 0 <= j < r.value.value ==> KeyTextEquals(docs[j], "_id", id) == Some(false)
    ensures r.Ok? && r.value.None? ==>
      forall j :: 0 <= j < |docs| ==> KeyTextEquals(docs[j], "_id", id) == Some(false)
    ensures r.Thrown? ==>
      exists j :: 0 <= j < |docs| && KeyTextEquals(docs[j], "_id", id).None?
                  && forall k :: 0 <= k < j ==> KeyTextEquals(docs[k], "_id", id) == Some(false)
  {
    if |docs| == 0 then Ok(None)
    else
      match KeyTextEquals(docs[0], "_id", id)
      case None => Thrown("TypeError")
      case Some(true) => Ok(Some(0))
      case Some(false) =>
        match FindIndexById(docs[1..], id)
        case Thrown(e) => Thrown(e)
        case Ok(None) => Ok(None)
        case Ok(Some(i)) => Ok(Some(i + 1))
  }

  /** A left-to-right id search stops at `i`: the id text of `docs[i]` equals
      that of `id`, and every earlier document's id text differs from it. */
  ghost predicate FirstIdMatch(docs: seq<Document>, id: Value, i: int) {
    && 0 <= i < |docs| && KeyTextEquals(docs[i], "_id", id) == Some(true)
    && forall j :: 0 <= j < i ==> KeyTextEquals(docs[j], "_id", id) == Some(false)
  }

  /** The search finds an index exactly when a search that stops there
      exists, and then it is that index. */
  lemma FindIndexByIdIsFirstMatch(docs: seq<Document>, id: Value)
    ensures forall i :: FirstIdMatch(docs, id, i) ==> FindIndexById(docs, id) == Ok(Some(i))
    ensures (FindIndexById(docs, id).Ok? && FindIndexById(docs, id).value.Some?) <==>
      exists i :: FirstIdMatch(docs, id, i)
  {
    var r := FindIndexById(docs, id);
    if r.Ok? && r.value.Some? {
      assert FirstIdMatch(docs, id, r.value.value);
    }
    forall i | FirstIdMatch(docs, id, i) ensures r == Ok(Some(i)) {
      if r.Thrown? {
        assert false;
      } else if r.value.Some? {
        assert r.value.value == i;
      }
    }
  }

  /** The collection names are already lower case, so `findById` and the
      models' searches reach them under their own names. */
  lemma CollectionNamesAreLowerCase()
    ensures forall name :: name in CollectionNames ==> ToLower(name) == name
  {
    assert ToLower(Users) == Users;
    assert ToLower(ReportedAnimals) == ReportedAnimals;
    assert ToLower(AdoptableAnimals) == AdoptableAnimals;
    assert ToLower(Veterinarians) == Veterinarians;
  }

  /** `docs.find(d => d._id.toString() === id.toString())`: the document at the
      index `findIndex` reports. */
  function FindFirstById(docs: seq<Document>, id: Value): Outcome<Option<Document>> {
    match FindIndexById(docs, id)
    case Thrown(e) => Thrown(e)
    case Ok(None) => Ok(None)
    case Ok(Some(i)) => Ok(Some(docs[i]))
  }

  /** A document appended behind documents with other ids is found by its own
      id: the store finds a freshly created record as long as the id the
      generator gave it is new. */
  lemma {:induction false} FindIndexAfterAppend(docs: seq<Document>, d: Document, id: Value)
    requires forall j :: 0 <= j < |docs| ==> KeyTextEquals(docs[j], "_id", id) == Some(false)
    requires KeyTextEquals(d, "_id", id) == Some(true)
    ensures FindIndexById(docs + [d], id) == Ok(Some(|docs|))
  {
    if |docs| > 0 {
      assert (docs + [d])[1..] == docs[1..] + [d];
      FindIndexAfterAppend(docs[1..], d, id);
    }
  }

  /** Replacing a document by one with the same id text does not change what
      an id search finds first. */
  lemma {:induction false} FindIndexAfterReplace(docs: seq<Document>, i: nat, d: Document, id: Value)
    requires i < |docs|
    requires KeyTextEquals(d, "_id", id) == KeyTextEquals(docs[i], "_id", id)
    ensures FindIndexById(docs[i := d], id) == FindIndexById(docs, id)
  {
    if i > 0 {
      assert docs[i := d][0] == docs[0];
      assert docs[i := d][1..] == docs[1..][i - 1 := d];
      FindIndexAfterReplace(docs[1..], i - 1, d, id);
    } else {
      assert docs[i := d][1..] == docs[1..];
    }
  }

  /** The store object: `collections` and `idCounter`, both updated in place. */
  class InMemoryMongoDB {
    var collections: map<string, seq<Document>>
    var idCounter: map<string, Counter>

    /** The four collections always exist and their counters stay positive numbers. */
    ghost predicate Valid()
      reads this
    {
      && collections.Keys == CollectionNames
      && CollectionNames <= idCounter.Keys
      && forall name :: name in CollectionNames ==> idCounter[name].Count? && idCounter[name].n >= 1
    }

    /** `new InMemoryMongoDB()`: four empty collections, every counter at 1. */
    constructor ()
      ensures Valid()
      ensures collections == map[Users := [], ReportedAnimals := [], AdoptableAnimals := [], Veterinarians := []]
      ensures idCounter == map[Users := Count(1), ReportedAnimals := Count(1), AdoptableAnimals := Count(1), Veterinarians := Count(1)]
    {
      collections := map[Users := [], ReportedAnimals := [], AdoptableAnimals := [], Veterinarians := []];
      idCounter := map[Users := Count(1), ReportedAnimals := Count(1), AdoptableAnimals := Count(1), Veterinarians := Count(1)];
    }

    /** `getNextId(name)`: post-increments the counter of the lower-cased name
        and returns its previous value; an unknown name yields NaN and leaves
        NaN stored under it. No other counter and no collection changes. */
    method GetNextId(collectionName: string) returns (id: Counter)
      requires Valid()
      modifies this
      ensures Valid()
      ensures collections == old(collections)
      ensures var key := ToLower(collectionName);
        && id == (if key in old(idCounter) then old(idCounter)[key] else NaN)
        && idCounter == old(idCounter)[key := Increment(id)]
      ensures ToLower(collectionName) in CollectionNames ==>
        id.Count? && idCounter[ToLower(collectionName)] == Count(id.n + 1)
    {
      var key := ToLower(collectionName);
      id := if key in idCounter then idCounter[key] else NaN;
      idCounter := idCounter[key := Increment(id)];
    }

    /** `findById(name, id)`: the first document of the lower-cased collection
        whose `_id` text equals that of `id`. Reading an unknown collection
        throws (its `find` is called on `undefined`). */
    function FindById(collectionName: string, id: Value): (r: Outcome<Option<Document>>)
      reads this
      ensures ToLower(collectionName) !in collections ==> r.Thrown?
      ensures ToLower(collectionName) in collections ==>
        r == FindFirstById(collections[ToLower(collectionName)], id)
    {
      var key := ToLower(collectionName);
      if key in collections then FindFirstById(collections[key], id) else Thrown("TypeError")
    }
  }
}
