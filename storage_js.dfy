/** The in-memory branch of `MongoDBStorage` (server/storage.js). Each
    operation works on the global store, passed here as `store` (`null`
    when the process installed none). Getters and updates catch every
    exception and answer `undefined`/`[]`/`false`; the create operations
    rethrow. The random id of `generateId` and the `new Date()` stamps are
    inputs (`freshId`, `now`). */
module MemoryStorage {
  import opened JsText
  import opened JsValues
  import opened MongoDb
  import Models

  const DefaultNearbyLimit := 10

  // ---------------------------------------------------------------------
  // New records
  // ---------------------------------------------------------------------

  /** `{ _id: freshId, ...data, ...stamps }`: the generated id unless the
      data brings its own `_id`, then the data, then the stamps on top. */
  function Stamp(data: Document, freshId: string, stamps: Document): (r: Document)
    ensures r.Keys == data.Keys + stamps.Keys + {"_id"}
    ensures forall k :: k in stamps ==> r[k] == stamps[k]
    ensures forall k :: k in data && k !in stamps ==> r[k] == data[k]
    ensures "_id" !in data && "_id" !in stamps ==> r["_id"] == Str(freshId)
  {
    Spread(Spread(map["_id" := Str(freshId)], data), stamps)
  }

  /** The record `createUser` and `createVeterinarian` store: the data
      under a fresh `_id`, stamped with `createdAt`. */
  function NewRecord(data: Document, freshId: string, now: Value): (r: Document)
    ensures r.Keys == data.Keys + {"_id", "createdAt"}
    ensures r["createdAt"] == now
    ensures forall k :: k in data && k != "createdAt" ==> r[k] == data[k]
  {
    Stamp(data, freshId, map["createdAt" := now])
  }

  /** The status a new record gets: the supplied one when it is truthy,
      otherwise the default. */
  function StatusOrDefault(data: Document, default: string): (v: Value)
    ensures Truthy(Get(data, "status")) ==> v == data["status"]
    ensures !Truthy(Get(data, "status")) ==> v == Str(default)
  {
    if Truthy(Get(data, "status")) then data["status"] else Str(default)
  }

  /** The record `createReportedAnimal` and `createAdoptableAnimal` store:
      the data under a fresh `_id`, with its status when that is truthy and
      the collection's default otherwise, stamped with `createdAt` and
      `updatedAt`. */
  function NewStatusRecord(data: Document, freshId: string, now: Value, default: string): (r: Document)
    ensures r.Keys == data.Keys + {"_id", "status", "createdAt", "updatedAt"}
    ensures r["status"] == (if Truthy(Get(data, "status")) then data["status"] else Str(default))
    ensures r["createdAt"] == now && r["updatedAt"] == now
    ensures forall k :: k in data && k !in {"status", "createdAt", "updatedAt"} ==> r[k] == data[k]
  {
    Stamp(data, freshId, map["status" := StatusOrDefault(data, default), "createdAt" := now, "updatedAt" := now])
  }

  /** The default status of a stored report. */
  const ReportDefault := "pending"
  /** The default status of a stored listing. */
  const ListingDefault := "available"

  /** The default statuses the store assigns are the schema defaults of shared/models.js. */
  lemma CreateDefaultsAreSchemaDefaults(data: Document, freshId: string, now: Value)
    requires !Truthy(Get(data, "status"))
    ensures NewStatusRecord(data, freshId, now, ReportDefault)["status"] == Str(Models.DefaultReportedStatus)
    ensures NewStatusRecord(data, freshId, now, ListingDefault)["status"] == Str(Models.DefaultAdoptableStatus)
  {
  }

  // ---------------------------------------------------------------------
  // Status updates
  // ---------------------------------------------------------------------

  /** The reported animal after `updateReportedAnimalStatus`: the old record
      with `status` and `updatedAt` replaced, and `assignedTo` replaced only
      when `assignedToId` is truthy; every other field is kept. */
  function UpdatedReport(doc: Document, status: Value, assignedToId: Value, now: Value): (r: Document)
    ensures r.Keys == doc.Keys + {"status", "updatedAt"} + (if Truthy(assignedToId) then {"assignedTo"} else {})
    ensures r["status"] == status && r["updatedAt"] == now
    ensures Truthy(assignedToId) ==> r["assignedTo"] == assignedToId
    ensures !Truthy(assignedToId) ==> Get(r, "assignedTo") == Get(doc, "assignedTo")
    ensures forall k :: k in doc && k !in {"status", "updatedAt", "assignedTo"} ==> r[k] == doc[k]
  {
    var updateData := map["status" := status, "updatedAt" := now];
    Spread(doc, if Truthy(assignedToId) then updateData["assignedTo" := assignedToId] else updateData)
  }

  /** The adoptable animal after `updateAdoptableAnimalStatus`: only `status`
      and `updatedAt` change. */
  function UpdatedListing(doc: Document, status: Value, now: Value): (r: Document)
    ensures r.Keys == doc.Keys + {"status", "updatedAt"}
    ensures r["status"] == status && r["updatedAt"] == now
    ensures forall k :: k in doc && k !in {"status", "updatedAt"} ==> r[k] == doc[k]
  {
    Spread(doc, map["status" := status, "updatedAt" := now])
  }

  // ---------------------------------------------------------------------
  // Filters over a collection
  // ---------------------------------------------------------------------

  /** `docs.filter(d => (d[key].toString() === v.toString()) == equal)`: the
      documents whose `key` text equals (or, with `equal` false, differs
      from) the text of `v`, in order; it throws as soon as one of the
      `toString` calls meets `null` or `undefined`. */
  function FilterByKeyText(docs: seq<Document>, key: string, v: Value, equal: bool): (r: Outcome<seq<Document>>)
    ensures r.Thrown? <==> exists i :: 0 <= i < |docs| && KeyTextEquals(docs[i], key, v).None?
    ensures r.Ok? ==> r.value == Filter(docs, KeyTextIs(key, v, equal))
  {
    if |docs| == 0 then Ok([])
    else
      match KeyTextEquals(docs[0], key, v)
      case None => Thrown("TypeError")
      case Some(same) =>
        match FilterByKeyText(docs[1..], key, v, equal)
        case Thrown(e) =>
          assert exists i :: 0 <= i < |docs| - 1 && KeyTextEquals(docs[1..][i], key, v).None?;
          Thrown(e)
        case Ok(rest) => Ok((if same == equal then [docs[0]] else []) + rest)
  }

  /** The filter's test: whether the comparison of the `key` text with that
      of `v` comes out as `equal` (and does not throw). */
  function KeyTextIs(key: string, v: Value, equal: bool): Document -> bool {
    d => KeyTextEquals(d, key, v) == Some(equal)
  }

  /** `docs.filter(d => d[key].toString() === v.toString())` inside a `try`
      whose `catch` answers `[]`: exactly the documents whose `key` text is
      that of `v`, in order and with their multiplicities, unless some
      comparison throws. */
  function KeyTextMatches(docs: seq<Document>, key: string, v: Value): (r: seq<Document>)
    ensures IsSubsequence(r, docs)
    ensures forall i :: 0 <= i < |r| ==> KeyTextEquals(r[i], key, v) == Some(true)
    ensures (exists i :: 0 <= i < |docs| && KeyTextEquals(docs[i], key, v).None?) ==> r == []
    ensures (forall i :: 0 <= i < |docs| ==> KeyTextEquals(docs[i], key, v).Some?) ==>
      forall x :: multiset(r)[x] == if KeyTextEquals(x, key, v) == Some(true) then multiset(docs)[x] else 0
  {
    var result := FilterByKeyText(docs, key, v, true);
    if result.Ok? then
      MatchesAreFilter(docs, key, v, result.value);
      result.value
    else
      EmptyIsSubsequence(docs);
      []
  }

  /** What the filter by `key` text keeps: a subsequence of matching
      documents, each as often as in the collection. */
  lemma MatchesAreFilter(docs: seq<Document>, key: string, v: Value, found: seq<Document>)
    requires found == Filter(docs, KeyTextIs(key, v, true))
    ensures IsSubsequence(found, docs)
    ensures forall i :: 0 <= i < |found| ==> KeyTextEquals(found[i], key, v) == Some(true)
    ensures forall x :: multiset(found)[x] == if KeyTextEquals(x, key, v) == Some(true) then multiset(docs)[x] else 0
  {
    FilterIsSubsequence(docs, KeyTextIs(key, v, true));
    FilterMultiset(docs, KeyTextIs(key, v, true));
  }

  /** `collection.slice(0, end)`: a negative end counts from the back. */
  function SliceTo(docs: seq<Document>, end: int): (r: seq<Document>)
    ensures end >= 0 ==> r == docs[..if end < |docs| then end else |docs|]
    ensures end < 0 ==> r == docs[..if |docs| + end > 0 then |docs| + end else 0]
  {
    if end >= |docs| then docs
    else if end >= 0 then docs[..end]
    else if |docs| + end > 0 then docs[..|docs| + end]
    else []
  }

  // ---------------------------------------------------------------------
  // Reads
  // ---------------------------------------------------------------------

  /** A collection of the store, or nothing without a store. */
  function Collection(store: InMemoryMongoDB?, name: string): (docs: seq<Document>)
    requires store != null ==> store.Valid()
    requires name in CollectionNames
    reads store
    ensures store == null ==> docs == []
  {
    if store == null then [] else store.collections[name]
  }

  /** `findById` on one collection, with exceptions read as `undefined`:
      the first document whose id text is that of `id`, found only when no
      document with a `null` or `undefined` id comes before it. Ids can
      repeat (a body may bring its own `_id`), and then the first one wins. */
  function FindByIdOrUndefined(store: InMemoryMongoDB?, name: string, id: Value): (r: Option<Document>)
    requires store != null ==> store.Valid()
    requires name in CollectionNames
    reads store
    ensures var docs := Collection(store, name);
      && (r.Some? <==> exists i :: FirstIdMatch(docs, id, i))
      && (forall i :: FirstIdMatch(docs, id, i) ==> r == Some(docs[i]))
    ensures store != null ==>
      match store.FindById(name, id)
      case Ok(found) => r == found
      case Thrown(_) => r.None?
  {
    if store == null then None
    else
      var docs := store.collections[name];
      var found := FindIndexById(docs, id);
      FindIndexByIdIsFirstMatch(docs, id);
      CollectionNamesAreLowerCase();
      assert docs == Collection(store, name);
      if found.Ok? && found.value.Some? then Some(docs[found.value.value]) else None
  }

  /** `getUser(id)` */
  function GetUser(store: InMemoryMongoDB?, id: Value): Option<Document>
    requires store != null ==> store.Valid()
    reads store
  {
    FindByIdOrUndefined(store, Users, id)
  }

  /** `getUserByUsername(username)`: the first user whose `username` is
      `===` the given one. */
  function GetUserByUsername(store: InMemoryMongoDB?, username: Value): (r: Option<Document>)
    requires store != null ==> store.Valid()
    reads store
    ensures var users := Collection(store, Users);
      r.Some? ==> (Get(r.value, "username") == username
        && exists i :: 0 <= i < |users| && users[i] == r.value
             && forall j :: 0 <= j < i ==> Get(users[j], "username") != username)
    ensures var users := Collection(store, Users);
      r.None? ==> forall i :: 0 <= i < |users| ==> Get(users[i], "username") != username
  {
    var users := Collection(store, Users);
    var query := map["username" := username];
    assert forall d :: Models.Matches(d, query) <==> Get(d, "username") == username;
    match Models.FirstMatch(users, query)
    case None => None
    case Some(i) => Some(users[i])
  }

  /** `getReportedAnimals()`: the whole collection, in insertion order and
      whatever the status; that is what the model's `find()` with no query
      gives. */
  function GetReportedAnimals(store: InMemoryMongoDB?): (r: seq<Document>)
    requires store != null ==> store.Valid()
    reads store
    ensures store == null ==> r == []
    ensures store != null ==> Models.ModelFind(store, ReportedAnimals, map[]) == Ok(r)
  {
    CollectionNamesAreLowerCase();
    Collection(store, ReportedAnimals)
  }

  /** `getReportedAnimalById(id)` */
  function GetReportedAnimalById(store: InMemoryMongoDB?, id: Value): Option<Document>
    requires store != null ==> store.Valid()
    reads store
  {
    FindByIdOrUndefined(store, ReportedAnimals, id)
  }

  /** `getReportedAnimalsByUser(userId)`: the reports whose `reportedBy` text is
      that of `userId`, in store order; `[]` when the filter throws. */
  function GetReportedAnimalsByUser(store: InMemoryMongoDB?, userId: Value): (r: seq<Document>)
    requires store != null ==> store.Valid()
    reads store
    ensures IsSubsequence(r, GetReportedAnimals(store))
    ensures forall i :: 0 <= i < |r| ==> KeyTextEquals(r[i], "reportedBy", userId) == Some(true)
    ensures var docs := GetReportedAnimals(store);
      (exists i :: 0 <= i < |docs| && KeyTextEquals(docs[i], "reportedBy", userId).None?) ==> r == []
    ensures var docs := GetReportedAnimals(store);
      (forall i :: 0 <= i < |docs| ==> KeyTextEquals(docs[i], "reportedBy", userId).Some?) ==>
        forall x :: multiset(r)[x] == if KeyTextEquals(x, "reportedBy", userId) == Some(true) then multiset(docs)[x] else 0
  {
    KeyTextMatches(GetReportedAnimals(store), "reportedBy", userId)
  }

  /** `getReportedAnimalsByStatus(status)`: the reports whose `status` is `===`
      the given one, in store order. */
  function GetReportedAnimalsByStatus(store: InMemoryMongoDB?, status: Value): (r: seq<Document>)
    requires store != null ==> store.Valid()
    reads store
    ensures IsSubsequence(r, GetReportedAnimals(store))
    ensures forall i :: 0 <= i < |r| ==> Get(r[i], "status") == status
    ensures forall x :: multiset(r)[x] == if Get(x, "status") == status then multiset(GetReportedAnimals(store))[x] else 0
  {
    var docs := GetReportedAnimals(store);
    FilterIsSubsequence(docs, d => Get(d, "status") == status);
    FilterMultiset(docs, d => Get(d, "status") == status);
    Filter(docs, d => Get(d, "status") == status)
  }

  /** `getAdoptableAnimals()`: the whole collection, whatever the status
      (adopted listings included), as the model's `find()` gives it. */
  function GetAdoptableAnimals(store: InMemoryMongoDB?): (r: seq<Document>)
    requires store != null ==> store.Valid()
    reads store
    ensures store == null ==> r == []
    ensures store != null ==> Models.ModelFind(store, AdoptableAnimals, map[]) == Ok(r)
  {
    CollectionNamesAreLowerCase();
    Collection(store, AdoptableAnimals)
  }

  /** `getAdoptableAnimalById(id)` */
  function GetAdoptableAnimalById(store: InMemoryMongoDB?, id: Value): Option<Document>
    requires store != null ==> store.Valid()
    reads store
  {
    FindByIdOrUndefined(store, AdoptableAnimals, id)
  }

  /** `getAdoptableAnimalsByNgo(ngoId)`: the listings whose `ngoId` text is that
      of the given id, in store order; `[]` when the filter throws. */
  function GetAdoptableAnimalsByNgo(store: InMemoryMongoDB?, ngoId: Value): (r: seq<Document>)
    requires store != null ==> store.Valid()
    reads store
    ensures IsSubsequence(r, GetAdoptableAnimals(store))
    ensures forall i :: 0 <= i < |r| ==> KeyTextEquals(r[i], "ngoId", ngoId) == Some(true)
    ensures var docs := GetAdoptableAnimals(store);
      (exists i :: 0 <= i < |docs| && KeyTextEquals(docs[i], "ngoId", ngoId).None?) ==> r == []
    ensures var docs := GetAdoptableAnimals(store);
      (forall i :: 0 <= i < |docs| ==> KeyTextEquals(docs[i], "ngoId", ngoId).Some?) ==>
        forall x :: multiset(r)[x] == if KeyTextEquals(x, "ngoId", ngoId) == Some(true) then multiset(docs)[x] else 0
  {
    KeyTextMatches(GetAdoptableAnimals(store), "ngoId", ngoId)
  }

  /** `getVeterinarians()`: every vet, as the model's `find()` gives them. */
  function GetVeterinarians(store: InMemoryMongoDB?): (r: seq<Document>)
    requires store != null ==> store.Valid()
    reads store
    ensures store == null ==> r == []
    ensures store != null ==> Models.ModelFind(store, Veterinarians, map[]) == Ok(r)
  {
    CollectionNamesAreLowerCase();
    Collection(store, Veterinarians)
  }

  /** `getVeterinarianById(id)` */
  function GetVeterinarianById(store: InMemoryMongoDB?, id: Value): Option<Document>
    requires store != null ==> store.Valid()
    reads store
  {
    FindByIdOrUndefined(store, Veterinarians, id)
  }

  /** `getNearbyVeterinarians(location, limit = 10)`: the first `limit` vets in
      store order, whatever the location; `limit` is `None` when omitted. */
  function GetNearbyVeterinarians(store: InMemoryMongoDB?, location: Value, limit: Option<int>): (r: seq<Document>)
    requires store != null ==> store.Valid()
    reads store
    ensures var vets := GetVeterinarians(store);
      var n := if limit.Some? then limit.value else DefaultNearbyLimit;
      && (n >= 0 ==> r == vets[..if n < |vets| then n else |vets|])
      && (n < 0 ==> r == vets[..if |vets| + n > 0 then |vets| + n else 0])
  {
    SliceTo(GetVeterinarians(store), if limit.Some? then limit.value else DefaultNearbyLimit)
  }

  // ---------------------------------------------------------------------
  // Writes
  // ---------------------------------------------------------------------

  /** `collection.push(doc)` */
  method Push(store: InMemoryMongoDB, name: string, doc: Document)
    requires store.Valid() && name in CollectionNames
    modifies store
    ensures store.Valid()
    ensures store.collections == old(store.collections)[name := old(store.collections[name]) + [doc]]
    ensures store.idCounter == old(store.idCounter)
  {
    store.collections := store.collections[name := store.collections[name] + [doc]];
  }

  /** `createUser(userData)`: appends the new user; throws without a store. */
  method CreateUser(store: InMemoryMongoDB?, userData: Document, freshId: string, now: Value) returns (r: Outcome<Document>)
    requires store != null ==> store.Valid()
    modifies store
    ensures store == null ==> r == Thrown("Storage not available")
    ensures store != null ==>
      && store.Valid() && store.idCounter == old(store.idCounter)
      && r == Ok(NewRecord(userData, freshId, now))
      && store.collections == old(store.collections)[Users := old(store.collections[Users]) + [r.value]]
  {
    if store == null {
      return Thrown("Storage not available");
    }
    var user := NewRecord(userData, freshId, now);
    Push(store, Users, user);
    r := Ok(user);
  }

  /** `createReportedAnimal(animalData)`: appends exactly one record at the end
      of the reported animals; every earlier record and every other
      collection is unchanged. */
  method CreateReportedAnimal(store: InMemoryMongoDB?, animalData: Document, freshId: string, now: Value) returns (r: Outcome<Document>)
    requires store != null ==> store.Valid()
    modifies store
    ensures store == null ==> r == Thrown("Storage not available")
    ensures store != null ==>
      && store.Valid() && store.idCounter == old(store.idCounter)
      && r == Ok(NewStatusRecord(animalData, freshId, now, ReportDefault))
      && store.collections == old(store.collections)[ReportedAnimals := old(store.collections[ReportedAnimals]) + [r.value]]
  {
    if store == null {
      return Thrown("Storage not available");
    }
    var animal := NewStatusRecord(animalData, freshId, now, ReportDefault);
    Push(store, ReportedAnimals, animal);
    r := Ok(animal);
  }

  /** `createAdoptableAnimal(animalData)`: appends one listing at the end. */
  method CreateAdoptableAnimal(store: InMemoryMongoDB?, animalData: Document, freshId: string, now: Value) returns (r: Outcome<Document>)
    requires store != null ==> store.Valid()
    modifies store
    ensures store == null ==> r == Thrown("Storage not available")
    ensures store != null ==>
      && store.Valid() && store.idCounter == old(store.idCounter)
      && r == Ok(NewStatusRecord(animalData, freshId, now, ListingDefault))
      && store.collections == old(store.collections)[AdoptableAnimals := old(store.collections[AdoptableAnimals]) + [r.value]]
  {
    if store == null {
      return Thrown("Storage not available");
    }
    var animal := NewStatusRecord(animalData, freshId, now, ListingDefault);
    Push(store, AdoptableAnimals, animal);
    r := Ok(animal);
  }

  /** `createVeterinarian(vetData)`: appends one vet at the end. */
  method CreateVeterinarian(store: InMemoryMongoDB?, vetData: Document, freshId: string, now: Value) returns (r: Outcome<Document>)
    requires store != null ==> store.Valid()
    modifies store
    ensures store == null ==> r == Thrown("Storage not available")
    ensures store != null ==>
      && store.Valid() && store.idCounter == old(store.idCounter)
      && r == Ok(NewRecord(vetData, freshId, now))
      && store.collections == old(store.collections)[Veterinarians := old(store.collections[Veterinarians]) + [r.value]]
  {
    if store == null {
      return Thrown("Storage not available");
    }
    var vet := NewRecord(vetData, freshId, now);
    Push(store, Veterinarians, vet);
    r := Ok(vet);
  }

  /** `updateReportedAnimalStatus(id, status, assignedToId)`: the first report
      with that id is replaced by its updated copy, which is returned; with
      no such report (or when the search throws) nothing changes and the
      answer is `undefined`. */
  method UpdateReportedAnimalStatus(store: InMemoryMongoDB?, id: Value, status: Value, assignedToId: Value, now: Value)
    returns (r: Option<Document>)
    requires store != null ==> store.Valid()
    modifies store
    ensures store == null ==> r.None?
    ensures store != null ==> store.Valid() && store.idCounter == old(store.idCounter)
    ensures store != null ==>
      var docs := old(store.collections[ReportedAnimals]);
      match FindIndexById(docs, id)
      case Ok(Some(i)) =>
        && r == Some(UpdatedReport(docs[i], status, assignedToId, now))
        && store.collections == old(store.collections)[ReportedAnimals := docs[i := r.value]]
      case _ => r.None? && store.collections == old(store.collections)
  {
    if store == null {
      return None;
    }
    var docs := store.collections[ReportedAnimals];
    match FindIndexById(docs, id)
    case Ok(Some(i)) =>
      var updated := UpdatedReport(docs[i], status, assignedToId, now);
      store.collections := store.collections[ReportedAnimals := docs[i := updated]];
      r := Some(updated);
    case _ =>
      r := None;
  }

  /** `updateAdoptableAnimalStatus(id, status)`: like the report update, but
      only `status` and `updatedAt` change. */
  method UpdateAdoptableAnimalStatus(store: InMemoryMongoDB?, id: Value, status: Value, now: Value)
    returns (r: Option<Document>)
    requires store != null ==> store.Valid()
    modifies store
    ensures store == null ==> r.None?
    ensures store != null ==> store.Valid() && store.idCounter == old(store.idCounter)
    ensures store != null ==>
      var docs := old(store.collections[AdoptableAnimals]);
      match FindIndexById(docs, id)
      case Ok(Some(i)) =>
        && r == Some(UpdatedListing(docs[i], status, now))
        && store.collections == old(store.collections)[AdoptableAnimals := docs[i := r.value]]
      case _ => r.None? && store.collections == old(store.collections)
  {
    if store == null {
      return None;
    }
    var docs := store.collections[AdoptableAnimals];
    match FindIndexById(docs, id)
    case Ok(Some(i)) =>
      var updated := UpdatedListing(docs[i], status, now);
      store.collections := store.collections[AdoptableAnimals := docs[i := updated]];
      r := Some(updated);
    case _ =>
      r := None;
  }

  /** `deleteAdoptableAnimal(id)`: keeps the listings whose id differs, in order,
      and reports whether the collection got shorter, that is whether some
      listing had the id. When the filter throws nothing changes and the
      answer is `false`. */
  method DeleteAdoptableAnimal(store: InMemoryMongoDB?, id: Value) returns (deleted: bool)
    requires store != null ==> store.Valid()
    modifies store
    ensures store == null ==> !deleted
    ensures store != null ==> store.Valid() && store.idCounter == old(store.idCounter)
    ensures store != null ==>
      var docs := old(store.collections[AdoptableAnimals]);
      match FilterByKeyText(docs, "_id", id, false)
      case Ok(rest) =>
        && store.collections == old(store.collections)[AdoptableAnimals := rest]
        && IsSubsequence(rest, docs)
        && (forall i :: 0 <= i < |rest| ==> KeyTextEquals(rest[i], "_id", id) == Some(false))
        && (deleted <==> exists i :: 0 <= i < |docs| && KeyTextEquals(docs[i], "_id", id) == Some(true))
      case Thrown(_) => !deleted && store.collections == old(store.collections)
  {
    if store == null {
      return false;
    }
    var docs := store.collections[AdoptableAnimals];
    match FilterByKeyText(docs, "_id", id, false)
    case Ok(rest) =>
      store.collections := store.collections[AdoptableAnimals := rest];
      RemovalFacts(docs, id);
      deleted := |docs| > |rest|;
    case Thrown(_) =>
      deleted := false;
  }

  /** What a removal filter that did not throw leaves: an order-preserving
      selection without the id, shorter exactly when some record had it. */
  lemma RemovalFacts(docs: seq<Document>, id: Value)
    requires FilterByKeyText(docs, "_id", id, false).Ok?
    ensures var rest := FilterByKeyText(docs, "_id", id, false).value;
      && IsSubsequence(rest, docs)
      && (forall i :: 0 <= i < |rest| ==> KeyTextEquals(rest[i], "_id", id) == Some(false))
      && (|rest| < |docs| <==> exists i :: 0 <= i < |docs| && KeyTextEquals(docs[i], "_id", id) == Some(true))
  {
    var p := KeyTextIs("_id", id, false);
    var rest := FilterByKeyText(docs, "_id", id, false).value;
    assert rest == Filter(docs, p);
    FilterIsSubsequence(docs, p);
    FilterShorter(docs, p);
    assert forall i :: 0 <= i < |docs| ==> KeyTextEquals(docs[i], "_id", id).Some?;
  }

  // ---------------------------------------------------------------------
  // How the operations fit together
  // ---------------------------------------------------------------------

  /** A created record can be found again by its generated id, provided the
      generator did not repeat an id already in the collection and the data
      did not bring an `_id` of its own. */
  lemma CreatedReportIsFound(docs: seq<Document>, animalData: Document, freshId: string, now: Value)
    requires "_id" !in animalData
    requires forall j :: 0 <= j < |docs| ==> KeyTextEquals(docs[j], "_id", Str(freshId)) == Some(false)
    ensures FindFirstById(docs + [NewStatusRecord(animalData, freshId, now, ReportDefault)], Str(freshId))
            == Ok(Some(NewStatusRecord(animalData, freshId, now, ReportDefault)))
  {
    FindIndexAfterAppend(docs, NewStatusRecord(animalData, freshId, now, ReportDefault), Str(freshId));
  }

  /** After a successful status update, looking the report up by its id finds
      the updated record. */
  lemma UpdatedReportIsFound(docs: seq<Document>, id: Value, status: Value, assignedToId: Value, now: Value)
    requires FindIndexById(docs, id).Ok? && FindIndexById(docs, id).value.Some?
    ensures var i := FindIndexById(docs, id).value.value;
      FindFirstById(docs[i := UpdatedReport(docs[i], status, assignedToId, now)], id)
        == Ok(Some(UpdatedReport(docs[i], status, assignedToId, now)))
  {
    var i := FindIndexById(docs, id).value.value;
    var d := UpdatedReport(docs[i], status, assignedToId, now);
    assert Get(d, "_id") == Get(docs[i], "_id");
    FindIndexAfterReplace(docs, i, d, id);
  }

  /** After a delete that did not throw, no listing with that id remains. */
  lemma DeletedListingIsGone(docs: seq<Document>, id: Value)
    requires FilterByKeyText(docs, "_id", id, false).Ok?
    ensures FindIndexById(FilterByKeyText(docs, "_id", id, false).value, id) == Ok(None)
  {
    // Every remaining id compares unequal without throwing, so the search
    // neither throws nor finds anything.
    RemovalFacts(docs, id);
  }
}
