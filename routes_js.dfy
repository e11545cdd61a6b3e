/** server/routes.js: the API over the in-memory `MongoDBStorage`. Bodies are
    plain documents; the signed-in user (`req.user`) is a user document; the
    upload middleware is known only by the names it gave the stored files.
    Any exception a handler meets becomes a 500 carrying its message. */
module MemoryRoutes {
  import opened JsText
  import opened JsValues
  import opened MongoDb
  import MemoryStorage

  datatype Session = Anonymous | SignedIn(user: Document)

  datatype ReplyBody = NoContent | Error(message: string) | One(doc: Document) | Many(docs: seq<Document>)

  datatype Reply = Reply(status: int, body: ReplyBody)

  /** `req.user.role === 'ngo'` */
  predicate IsNgoSession(who: Session) {
    who.SignedIn? && Get(who.user, "role") == Str("ngo")
  }

  /** `parseFloat` of the coordinates is not modelled: the pair is an opaque object. */
  const Coordinates := Obj("[object Object]")

  // ---------------------------------------------------------------------
  // Middleware
  // ---------------------------------------------------------------------

  /** `isAuthenticated`: `None` lets the request through. */
  function IsAuthenticated(who: Session): (r: Option<Reply>)
    ensures r.None? <==> who.SignedIn?
    ensures r.Some? ==> r.value.status == 401
  {
    if who.SignedIn? then None else Some(Reply(401, Error("Not authenticated")))
  }

  /** `isNGO`: 403 unless signed in with role `ngo`. */
  function IsNgo(who: Session): (r: Option<Reply>)
    ensures r.None? <==> IsNgoSession(who)
    ensures r.Some? ==> r.value.status == 403
  {
    if IsNgoSession(who) then None else Some(Reply(403, Error("Unauthorized, NGO role required")))
  }

  /** The answer of a lookup route: 404 for `undefined`. */
  function FoundOr404(found: Option<Document>, notFound: string): (reply: Reply)
    ensures found.None? <==> reply.status == 404
    ensures found.Some? ==> reply == Reply(200, One(found.value))
  {
    if found.Some? then Reply(200, One(found.value)) else Reply(404, Error(notFound))
  }

  // ---------------------------------------------------------------------
  // Payloads
  // ---------------------------------------------------------------------

  /** `imageFiles.map(file => '/uploads/' + file.filename)` */
  function ImagePaths(filenames: seq<string>): (r: seq<Value>)
    ensures |r| == |filenames|
    ensures forall i :: 0 <= i < |r| ==> r[i] == Str("/uploads/" + filenames[i])
  {
    if |filenames| == 0 then [] else [Str("/uploads/" + filenames[0])] + ImagePaths(filenames[1..])
  }

  /** The report `POST /api/reported-animals` stores: the body, then the
      caller as reporter, the image paths and the coordinates. */
  function ReportPayload(body: Document, caller: Document, filenames: seq<string>): (d: Document)
    ensures d.Keys == body.Keys + {"reportedBy", "images", "coordinates"}
    ensures d["reportedBy"] == Get(caller, "_id")
    ensures d["images"] == Arr(ImagePaths(filenames))
    ensures forall k :: k in body && k !in {"reportedBy", "images", "coordinates"} ==> d[k] == body[k]
  {
    Spread(body, map["reportedBy" := Get(caller, "_id"), "images" := Arr(ImagePaths(filenames)),
                     "coordinates" := Coordinates])
  }

  /** `parseInt(req.body.age) || null`: the age is `null` exactly when
      parsing gives NaN or 0, and otherwise the parsed number, which is
      truthy. */
  function AgeValue(age: Value): (v: Value)
    ensures v == Null <==> ParseInt(JsString(age)).None? || ParseInt(JsString(age)) == Some(0)
    ensures v != Null ==> v == Num(ParseInt(JsString(age)).value) && Truthy(v)
  {
    match ParseInt(JsString(age))
    case Some(n) => if n != 0 then Num(n) else Null
    case None => Null
  }

  /** A whole positive number as a text keeps its value as an age. */
  lemma AgeOfNumberText(n: int)
    requires n != 0
    ensures AgeValue(Str(IntToString(n))) == Num(n)
  {
    ParseIntOfIntToString(n);
  }

  /** The listing `POST /api/adoptable-animals` stores. */
  function ListingPayload(body: Document, caller: Document, filenames: seq<string>): (d: Document)
    ensures d.Keys == body.Keys + {"ngoId", "images", "age"}
    ensures d["ngoId"] == Get(caller, "_id")
    ensures d["images"] == Arr(ImagePaths(filenames))
    ensures d["age"] == AgeValue(Get(body, "age"))
    ensures forall k :: k in body && k !in {"ngoId", "images", "age"} ==> d[k] == body[k]
  {
    Spread(body, ListingFields(Get(caller, "_id"), filenames, AgeValue(Get(body, "age"))))
  }

  /** The three fields the listing route sets over the body. */
  function ListingFields(ngoId: Value, filenames: seq<string>, age: Value): (m: Document)
    ensures m.Keys == {"ngoId", "images", "age"}
    ensures m["ngoId"] == ngoId && m["images"] == Arr(ImagePaths(filenames)) && m["age"] == age
  {
    map["ngoId" := ngoId, "images" := Arr(ImagePaths(filenames)), "age" := age]
  }

  /** The message of the TypeError that calling `split` on a value without
      one raises. */
  const ServicesNotText := "req.body.services.split is not a function"

  /** `req.body.services ? req.body.services.split(',').map(s => s.trim()) : []`:
      one trimmed service per comma-separated piece; a truthy value that is
      not a string has no `split` and throws. */
  function Services(services: Value): (r: Outcome<Value>)
    ensures !Truthy(services) ==> r == Ok(Arr([]))
    ensures services.Str? && services.s != "" ==>
      && r.Ok? && r.value.Arr? && |r.value.items| == Occurrences(services.s, ',') + 1
      && forall i :: 0 <= i < |r.value.items| ==> r.value.items[i] == Str(Trim(Split(services.s, ',')[i]))
    ensures Truthy(services) && !services.Str? ==> r == Thrown(ServicesNotText)
  {
    if !Truthy(services) then Ok(Arr([]))
    else if services.Str? then
      var parts := Split(services.s, ',');
      Ok(Arr(seq(|parts|, i requires 0 <= i < |parts| => Str(Trim(parts[i])))))
    else Thrown(ServicesNotText)
  }

  predicate CommaFree(t: string) {
    forall j :: 0 <= j < |t| ==> t[j] != ','
  }

  predicate Unpadded(t: string) {
    t == [] || (!IsSpace(t[0]) && !IsSpace(t[|t| - 1]))
  }

  /** Trimming a comma-free piece leaves a comma-free, unpadded text. */
  lemma TrimmedPiece(p: string)
    requires CommaFree(p)
    ensures CommaFree(Trim(p)) && Unpadded(Trim(p))
  {
    var t := Trim(p);
    TrimSpec(p);
    var k :| SpaceAround(p, t, k);
    forall j | 0 <= j < |t| ensures t[j] != ',' {
      assert t[j] == p[k + j];
    }
  }

  /** Each listed service is a comma-free text with no space at either end. */
  lemma ServicesAreTrimmedPieces(s: string)
    requires s != ""
    ensures var r := Services(Str(s));
      forall i :: 0 <= i < |r.value.items| ==>
        r.value.items[i].Str? && CommaFree(r.value.items[i].s) && Unpadded(r.value.items[i].s)
  {
    var r := Services(Str(s));
    var parts := Split(s, ',');
    SplitPartsAvoidSeparator(s, ',');
    forall i | 0 <= i < |r.value.items|
      ensures r.value.items[i].Str? && CommaFree(r.value.items[i].s) && Unpadded(r.value.items[i].s)
    {
      assert r.value.items[i] == Str(Trim(parts[i]));
      assert CommaFree(parts[i]);
      TrimmedPiece(parts[i]);
    }
  }

  /** The vet `POST /api/veterinarians` stores. */
  function VetPayload(body: Document): (r: Outcome<Document>)
    ensures r.Ok? <==> Services(Get(body, "services")).Ok?
    ensures r.Ok? ==>
      && r.value.Keys == body.Keys + {"coordinates", "services"}
      && r.value["services"] == Services(Get(body, "services")).value
      && forall k :: k in body && k !in {"coordinates", "services"} ==> r.value[k] == body[k]
  {
    match Services(Get(body, "services"))
    case Thrown(e) => Thrown(e)
    case Ok(services) => Ok(Spread(body, map["coordinates" := Coordinates, "services" := services]))
  }

  /** `parseInt(limit) || 10`: a limit that is absent, 0 or not a number is 10. */
  function NearbyLimit(limit: Value): (n: int)
    ensures ParseInt(JsString(limit)).Some? && ParseInt(JsString(limit)).value != 0 ==> n == ParseInt(JsString(limit)).value
    ensures !(ParseInt(JsString(limit)).Some? && ParseInt(JsString(limit)).value != 0) ==> n == 10
    ensures n != 0
  {
    match ParseInt(JsString(limit))
    case Some(k) => if k != 0 then k else 10
    case None => 10
  }

  /** An absent limit falls back to ten, as does an explicit zero. */
  lemma NearbyLimitDefaults()
    ensures NearbyLimit(Undefined) == 10
    ensures NearbyLimit(Str("0")) == 10
    ensures NearbyLimit(Str("abc")) == 10
  {
    ParseIntNoDigits("undefined");
    ParseIntNoDigits("abc");
    ParseIntOfIntToString(0);
    assert IntToString(0) == "0";
  }

  // ---------------------------------------------------------------------
  // Read routes
  // ---------------------------------------------------------------------

  /** `GET /api/reported-animals`: every report, for any signed-in user. */
  function ListReportedAnimals(store: InMemoryMongoDB?, who: Session): (reply: Reply)
    requires store != null ==> store.Valid()
    reads store
    ensures who.Anonymous? <==> reply.status == 401
    ensures who.SignedIn? ==> reply == Reply(200, Many(MemoryStorage.GetReportedAnimals(store)))
  {
    match IsAuthenticated(who)
    case Some(denied) => denied
    case None => Reply(200, Many(MemoryStorage.GetReportedAnimals(store)))
  }

  /** `GET /api/reported-animals/user`: the caller's reports. */
  function ListOwnReportedAnimals(store: InMemoryMongoDB?, who: Session): (reply: Reply)
    requires store != null ==> store.Valid()
    reads store
    ensures who.Anonymous? <==> reply.status == 401
    ensures who.SignedIn? ==>
      && reply == Reply(200, Many(MemoryStorage.GetReportedAnimalsByUser(store, Get(who.user, "_id"))))
      && forall i :: 0 <= i < |reply.body.docs| ==> KeyTextEquals(reply.body.docs[i], "reportedBy", Get(who.user, "_id")) == Some(true)
  {
    match IsAuthenticated(who)
    case Some(denied) => denied
    case None => Reply(200, Many(MemoryStorage.GetReportedAnimalsByUser(store, Get(who.user, "_id"))))
  }

  /** `GET /api/reported-animals/status/:status` */
  function ListReportedAnimalsByStatus(store: InMemoryMongoDB?, who: Session, status: string): (reply: Reply)
    requires store != null ==> store.Valid()
    reads store
    ensures who.Anonymous? <==> reply.status == 401
    ensures who.SignedIn? ==>
      && reply == Reply(200, Many(MemoryStorage.GetReportedAnimalsByStatus(store, Str(status))))
      && forall i :: 0 <= i < |reply.body.docs| ==> Get(reply.body.docs[i], "status") == Str(status)
  {
    match IsAuthenticated(who)
    case Some(denied) => denied
    case None => Reply(200, Many(MemoryStorage.GetReportedAnimalsByStatus(store, Str(status))))
  }

  /** `GET /api/reported-animals/:id` */
  function GetReportedAnimal(store: InMemoryMongoDB?, who: Session, id: string): (reply: Reply)
    requires store != null ==> store.Valid()
    reads store
    ensures who.Anonymous? <==> reply.status == 401
    ensures who.SignedIn? ==> reply == FoundOr404(MemoryStorage.GetReportedAnimalById(store, Str(id)), "Animal not found")
  {
    match IsAuthenticated(who)
    case Some(denied) => denied
    case None => FoundOr404(MemoryStorage.GetReportedAnimalById(store, Str(id)), "Animal not found")
  }

  /** `GET /api/adoptable-animals`: open to all; every listing in the store,
      adopted ones included, and none without a store. */
  function ListAdoptableAnimals(store: InMemoryMongoDB?): (reply: Reply)
    requires store != null ==> store.Valid()
    reads store
    ensures reply.status == 200 && reply.body.Many?
    ensures reply.body.docs == MemoryStorage.Collection(store, AdoptableAnimals)
  {
    Reply(200, Many(MemoryStorage.GetAdoptableAnimals(store)))
  }

  /** `GET /api/adoptable-animals/ngo`: the calling NGO's listings. */
  function ListNgoAdoptableAnimals(store: InMemoryMongoDB?, who: Session): (reply: Reply)
    requires store != null ==> store.Valid()
    reads store
    ensures !IsNgoSession(who) <==> reply.status == 403
    ensures IsNgoSession(who) ==>
      && reply == Reply(200, Many(MemoryStorage.GetAdoptableAnimalsByNgo(store, Get(who.user, "_id"))))
      && forall i :: 0 <= i < |reply.body.docs| ==> KeyTextEquals(reply.body.docs[i], "ngoId", Get(who.user, "_id")) == Some(true)
  {
    match IsNgo(who)
    case Some(denied) => denied
    case None => Reply(200, Many(MemoryStorage.GetAdoptableAnimalsByNgo(store, Get(who.user, "_id"))))
  }

  /** `GET /api/adoptable-animals/:id`: open to all; the first listing whose
      id text is the parameter, or 404 (also when a listing with a `null` id
      comes first, or there is no store). */
  function GetAdoptableAnimal(store: InMemoryMongoDB?, id: string): (reply: Reply)
    requires store != null ==> store.Valid()
    reads store
    ensures var docs := MemoryStorage.Collection(store, AdoptableAnimals);
      && (reply.status == 200 <==> exists i :: FirstIdMatch(docs, Str(id), i))
      && (forall i :: FirstIdMatch(docs, Str(id), i) ==> reply == Reply(200, One(docs[i])))
      && (reply.status != 200 ==> reply == Reply(404, Error("Animal not found")))
  {
    FoundOr404(MemoryStorage.GetAdoptableAnimalById(store, Str(id)), "Animal not found")
  }

  /** `GET /api/veterinarians`: open to all; every vet in the store, and
      none without a store. */
  function ListVeterinarians(store: InMemoryMongoDB?): (reply: Reply)
    requires store != null ==> store.Valid()
    reads store
    ensures reply.status == 200 && reply.body.Many?
    ensures reply.body.docs == MemoryStorage.Collection(store, Veterinarians)
  {
    Reply(200, Many(MemoryStorage.GetVeterinarians(store)))
  }

  /** `GET /api/veterinarians/nearby`: open to all; the limit falls back to 10,
      so the answer is never cut to nothing by a limit of 0. */
  function ListNearbyVeterinarians(store: InMemoryMongoDB?, location: Value, limit: Value): (reply: Reply)
    requires store != null ==> store.Valid()
    reads store
    ensures reply == Reply(200, Many(MemoryStorage.GetNearbyVeterinarians(store, location, Some(NearbyLimit(limit)))))
    ensures NearbyLimit(limit) > 0 ==>
      |reply.body.docs| == if NearbyLimit(limit) < |MemoryStorage.GetVeterinarians(store)| then NearbyLimit(limit)
                           else |MemoryStorage.GetVeterinarians(store)|
  {
    Reply(200, Many(MemoryStorage.GetNearbyVeterinarians(store, location, Some(NearbyLimit(limit)))))
  }

  /** `GET /api/veterinarians/:id`: open to all; the first vet whose id text
      is the parameter, or 404. */
  function GetVeterinarian(store: InMemoryMongoDB?, id: string): (reply: Reply)
    requires store != null ==> store.Valid()
    reads store
    ensures var docs := MemoryStorage.Collection(store, Veterinarians);
      && (reply.status == 200 <==> exists i :: FirstIdMatch(docs, Str(id), i))
      && (forall i :: FirstIdMatch(docs, Str(id), i) ==> reply == Reply(200, One(docs[i])))
      && (reply.status != 200 ==> reply == Reply(404, Error("Veterinarian not found")))
  {
    FoundOr404(MemoryStorage.GetVeterinarianById(store, Str(id)), "Veterinarian not found")
  }

  // ---------------------------------------------------------------------
  // Write routes
  // ---------------------------------------------------------------------

  /** `POST /api/reported-animals`: stores the payload; the reporter is the
      caller whatever the body says. */
  method CreateReportedAnimal(store: InMemoryMongoDB?, who: Session, body: Document, filenames: seq<string>, freshId: string, now: Value)
    returns (reply: Reply)
    requires store != null ==> store.Valid()
    modifies store
    ensures store != null ==> store.idCounter == old(store.idCounter)
    ensures store != null ==> store.Valid()
    ensures who.Anonymous? ==> reply.status == 401 && (store != null ==> unchanged(store))
    ensures who.SignedIn? && store == null ==> reply == Reply(500, Error("Storage not available"))
    ensures who.SignedIn? && store != null ==>
      var animal := MemoryStorage.NewStatusRecord(ReportPayload(body, who.user, filenames), freshId, now, MemoryStorage.ReportDefault);
      && reply == Reply(201, One(animal))
      && store.collections == old(store.collections)[ReportedAnimals := old(store.collections[ReportedAnimals]) + [animal]]
      && animal["reportedBy"] == Get(who.user, "_id")
  {
    match IsAuthenticated(who)
    case Some(denied) =>
      return denied;
    case None =>
    var created := MemoryStorage.CreateReportedAnimal(store, ReportPayload(body, who.user, filenames), freshId, now);
    match created
    case Thrown(e) =>
      reply := Reply(500, Error(e));
    case Ok(animal) =>
      reply := Reply(201, One(animal));
  }

  /** `PATCH /api/reported-animals/:id/status`: any signed-in user; no status
      check; `req.body.assignedToId || null` is passed on. */
  method UpdateReportedAnimalStatus(store: InMemoryMongoDB?, who: Session, id: string, body: Document, now: Value)
    returns (reply: Reply)
    requires store != null ==> store.Valid()
    modifies store
    ensures store != null ==> store.idCounter == old(store.idCounter)
    ensures store != null ==> store.Valid()
    ensures who.Anonymous? ==> reply.status == 401 && (store != null ==> unchanged(store))
    ensures who.SignedIn? && store == null ==> reply.status == 404
    ensures who.SignedIn? && store != null ==>
      var docs := old(store.collections[ReportedAnimals]);
      var assignee := if Truthy(Get(body, "assignedToId")) then Get(body, "assignedToId") else Null;
      match FindIndexById(docs, Str(id))
      case Ok(Some(i)) =>
        var updated := MemoryStorage.UpdatedReport(docs[i], Get(body, "status"), assignee, now);
        && reply == Reply(200, One(updated))
        && store.collections == old(store.collections)[ReportedAnimals := docs[i := updated]]
      case _ => reply.status == 404 && store.collections == old(store.collections)
  {
    match IsAuthenticated(who)
    case Some(denied) =>
      return denied;
    case None =>
    var assignee := if Truthy(Get(body, "assignedToId")) then Get(body, "assignedToId") else Null;
    var animal := MemoryStorage.UpdateReportedAnimalStatus(store, Str(id), Get(body, "status"), assignee, now);
    match animal
    case None =>
      reply := Reply(404, Error("Animal not found"));
    case Some(a) =>
      reply := Reply(200, One(a));
  }

  /** `POST /api/adoptable-animals`: NGOs only; the lister is the caller. */
  method CreateAdoptableAnimal(store: InMemoryMongoDB?, who: Session, body: Document, filenames: seq<string>, freshId: string, now: Value)
    returns (reply: Reply)
    requires store != null ==> store.Valid()
    modifies store
    ensures store != null ==> store.idCounter == old(store.idCounter)
    ensures store != null ==> store.Valid()
    ensures !IsNgoSession(who) ==> reply.status == 403 && (store != null ==> unchanged(store))
    ensures IsNgoSession(who) && store == null ==> reply == Reply(500, Error("Storage not available"))
    ensures IsNgoSession(who) && store != null ==>
      var animal := MemoryStorage.NewStatusRecord(ListingPayload(body, who.user, filenames), freshId, now, MemoryStorage.ListingDefault);
      && reply == Reply(201, One(animal))
      && store.collections == old(store.collections)[AdoptableAnimals := old(store.collections[AdoptableAnimals]) + [animal]]
      && animal["ngoId"] == Get(who.user, "_id")
  {
    match IsNgo(who)
    case Some(denied) =>
      return denied;
    case None =>
    var created := MemoryStorage.CreateAdoptableAnimal(store, ListingPayload(body, who.user, filenames), freshId, now);
    match created
    case Thrown(e) =>
      reply := Reply(500, Error(e));
    case Ok(animal) =>
      reply := Reply(201, One(animal));
  }

  /** `PATCH /api/adoptable-animals/:id/status`: NGOs only, with no status and
      no ownership check. */
  method UpdateAdoptableAnimalStatus(store: InMemoryMongoDB?, who: Session, id: string, body: Document, now: Value)
    returns (reply: Reply)
    requires store != null ==> store.Valid()
    modifies store
    ensures store != null ==> store.idCounter == old(store.idCounter)
    ensures store != null ==> store.Valid()
    ensures !IsNgoSession(who) ==> reply.status == 403 && (store != null ==> unchanged(store))
    ensures IsNgoSession(who) && store == null ==> reply.status == 404
    ensures IsNgoSession(who) && store != null ==>
      var docs := old(store.collections[AdoptableAnimals]);
      match FindIndexById(docs, Str(id))
      case Ok(Some(i)) =>
        var updated := MemoryStorage.UpdatedListing(docs[i], Get(body, "status"), now);
        && reply == Reply(200, One(updated))
        && store.collections == old(store.collections)[AdoptableAnimals := docs[i := updated]]
      case _ => reply.status == 404 && store.collections == old(store.collections)
  {
    match IsNgo(who)
    case Some(denied) =>
      return denied;
    case None =>
    var animal := MemoryStorage.UpdateAdoptableAnimalStatus(store, Str(id), Get(body, "status"), now);
    match animal
    case None =>
      reply := Reply(404, Error("Animal not found"));
    case Some(a) =>
      reply := Reply(200, One(a));
  }

  /** `DELETE /api/adoptable-animals/:id`: NGOs only, with no ownership check;
      404 exactly when no listing had the id (or the search threw). */
  method DeleteAdoptableAnimal(store: InMemoryMongoDB?, who: Session, id: string) returns (reply: Reply)
    requires store != null ==> store.Valid()
    modifies store
    ensures store != null ==> store.idCounter == old(store.idCounter)
    ensures store != null ==> store.Valid()
    ensures !IsNgoSession(who) ==> reply.status == 403 && (store != null ==> unchanged(store))
    ensures IsNgoSession(who) && store == null ==> reply.status == 404
    ensures IsNgoSession(who) && store != null ==>
      var docs := old(store.collections[AdoptableAnimals]);
      match MemoryStorage.FilterByKeyText(docs, "_id", Str(id), false)
      case Ok(rest) =>
        && store.collections == old(store.collections)[AdoptableAnimals := rest]
        && (reply.status == 204 <==> exists i :: 0 <= i < |docs| && KeyTextEquals(docs[i], "_id", Str(id)) == Some(true))
        && (reply.status == 204 || reply.status == 404)
      case Thrown(_) => reply.status == 404 && store.collections == old(store.collections)
  {
    match IsNgo(who)
    case Some(denied) =>
      return denied;
    case None =>
    var success := MemoryStorage.DeleteAdoptableAnimal(store, Str(id));
    if !success {
      reply := Reply(404, Error("Animal not found"));
    } else {
      reply := Reply(204, NoContent);
    }
  }

  /** `POST /api/veterinarians`: signed-in users; the services text becomes a
      list of trimmed pieces. */
  method CreateVeterinarian(store: InMemoryMongoDB?, who: Session, body: Document, freshId: string, now: Value)
    returns (reply: Reply)
    requires store != null ==> store.Valid()
    modifies store
    ensures store != null ==> store.idCounter == old(store.idCounter)
    ensures store != null ==> store.Valid()
    ensures who.Anonymous? ==> reply.status == 401 && (store != null ==> unchanged(store))
    ensures who.SignedIn? && store == null ==> reply.status == 500
    ensures who.SignedIn? && VetPayload(body).Thrown? ==>
      reply == Reply(500, Error(ServicesNotText)) && (store != null ==> unchanged(store))
    ensures who.SignedIn? && store != null && VetPayload(body).Ok? ==>
      var vet := MemoryStorage.NewRecord(VetPayload(body).value, freshId, now);
      && reply == Reply(201, One(vet))
      && store.collections == old(store.collections)[Veterinarians := old(store.collections[Veterinarians]) + [vet]]
  {
    match IsAuthenticated(who)
    case Some(denied) =>
      return denied;
    case None =>
    match VetPayload(body)
    case Thrown(e) =>
      return Reply(500, Error(e));
    case Ok(vetData) =>
    var created := MemoryStorage.CreateVeterinarian(store, vetData, freshId, now);
    match created
    case Thrown(e) =>
      reply := Reply(500, Error(e));
    case Ok(vet) =>
      reply := Reply(201, One(vet));
  }
}
