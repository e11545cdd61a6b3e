/** server/routes.ts: the API over `DatabaseStorage`. Each handler runs its
    middleware, then a chain of checks, and ends in at most one storage
    call; any exception becomes a 500 (a 400 for the two create routes).
    The signed-in user (`req.user`) is the `Principal`; the uploaded file
    is known only by the name the upload middleware gave it. */
module ApiRoutes {
  import opened JsText
  import opened JsValues
  import opened Schema
  import opened SqlStorage

  datatype Principal = Anonymous | SignedIn(user: User)

  /** The JSON a handler sends, if any. */
  datatype Body =
    | NoContent
    | Message(text: string)
    | Report(report: ReportedAnimal)
    | Reports(reports: seq<ReportedAnimal>)
    | Listing(listing: AdoptableAnimal)
    | Listings(listings: seq<AdoptableAnimal>)
    | Vets(vets: seq<Veterinarian>)

  datatype Reply = Reply(status: int, body: Body)

  predicate IsNgoUser(who: Principal) {
    who.SignedIn? && who.user.role == Ngo
  }

  // ---------------------------------------------------------------------
  // Middleware
  // ---------------------------------------------------------------------

  /** `isAuthenticated`: `None` lets the request through. */
  function IsAuthenticated(who: Principal): (r: Option<Reply>)
    ensures r.None? <==> who.SignedIn?
    ensures r.Some? ==> r.value.status == 401
  {
    if who.SignedIn? then None else Some(Reply(401, Message("Unauthorized")))
  }

  /** `isNGO`: only a signed-in NGO gets through; everybody else, signed in
      or not, gets 403. */
  function IsNgo(who: Principal): (r: Option<Reply>)
    ensures r.None? <==> IsNgoUser(who)
    ensures r.Some? ==> r.value.status == 403
  {
    if IsNgoUser(who) then None else Some(Reply(403, Message("Forbidden: NGO access required")))
  }

  /** The range of a PostgreSQL `integer`, the type of every `serial` id. */
  const MinInteger := -0x8000_0000
  const MaxInteger := 0x7FFF_FFFF

  /** `parseInt(req.params.id)` as the value of an id column; `None` when the
      database refuses it: NaN, or a number outside the `integer` range. */
  function IdParam(param: string): (id: Option<int>)
    ensures id.Some? <==> ParseInt(param).Some? && MinInteger <= ParseInt(param).value <= MaxInteger
    ensures id.Some? ==> id == ParseInt(param)
  {
    match ParseInt(param)
    case Some(n) => if MinInteger <= n <= MaxInteger then Some(n) else None
    case None => None
  }

  /** Every id the database can hold, written out in a URL, reaches the
      query unchanged. */
  lemma IdParamOfIntToString(n: int)
    requires MinInteger <= n <= MaxInteger
    ensures IdParam(IntToString(n)) == Some(n)
  {
    ParseIntOfIntToString(n);
  }

  // ---------------------------------------------------------------------
  // Reported animals
  // ---------------------------------------------------------------------

  /** `GET /api/reported-animals`: every report for an NGO, the caller's own
      reports for anyone else. */
  function ListReportedAnimals(db: DatabaseStorage, who: Principal): (reply: Reply)
    reads db
    ensures who.Anonymous? <==> reply.status == 401
    ensures IsNgoUser(who) ==> reply == Reply(200, Reports(db.GetReportedAnimals()))
    ensures who.SignedIn? && !IsNgoUser(who) ==>
      && reply == Reply(200, Reports(db.GetReportedAnimalsByUser(who.user.id)))
      && forall a :: a in reply.body.reports ==> a.reportedById == who.user.id
  {
    match IsAuthenticated(who)
    case Some(denied) => denied
    case None =>
      if who.user.role == Ngo then Reply(200, Reports(db.GetReportedAnimals()))
      else
        var mine := db.GetReportedAnimalsByUser(who.user.id);
        assert forall a :: a in mine ==> multiset(mine)[a] > 0;
        Reply(200, Reports(mine))
  }

  /** `GET /api/reported-animals/:id`: 404 when absent, 403 unless the caller is
      an NGO or the reporter. */
  function GetReportedAnimal(db: DatabaseStorage, who: Principal, idParam: string): (reply: Reply)
    reads db
    ensures who.Anonymous? <==> reply.status == 401
    ensures who.SignedIn? && IdParam(idParam).None? ==> reply.status == 500
    ensures who.SignedIn? && IdParam(idParam).Some? ==>
      match db.GetReportedAnimalById(IdParam(idParam).value)
      case None => reply.status == 404
      case Some(a) =>
        if !IsNgoUser(who) && a.reportedById != who.user.id then reply.status == 403
        else reply == Reply(200, Report(a))
  {
    match IsAuthenticated(who)
    case Some(denied) => denied
    case None =>
      match IdParam(idParam)
      case None => Reply(500, Message("Failed to fetch animal"))
      case Some(id) =>
        match db.GetReportedAnimalById(id)
        case None => Reply(404, Message("Animal not found"))
        case Some(a) =>
          if who.user.role != Ngo && a.reportedById != who.user.id then Reply(403, Message("Forbidden"))
          else Reply(200, Report(a))
  }

  /** The object an insert schema's `parse` is given: the body with the
      owner key (`reportedById` for a report, `listedById` for a listing)
      forced to the caller and the photo taken from the upload. */
  function OwnedPayload(body: Document, owner: string, callerId: int, filename: Option<string>): (d: Document)
    requires owner != "photoUrl"
    ensures d.Keys == body.Keys + {owner, "photoUrl"}
    ensures d[owner] == Num(callerId)
    ensures d["photoUrl"] == (if filename.Some? then Str("/uploads/" + filename.value) else Undefined)
    ensures forall k :: k in body && k !in {owner, "photoUrl"} ==> d[k] == body[k]
  {
    Spread(body, map[owner := Num(callerId),
                     "photoUrl" := if filename.Some? then Str("/uploads/" + filename.value) else Undefined])
  }

  /** The row a valid report payload becomes belongs to the caller, carries
      the upload's photo (or none), is pending and has no assignee, whatever
      the body said about any of these. */
  lemma CreatedReportIsCallers(body: Document, callerId: int, filename: Option<string>, id: int, now: Timestamp)
    requires ParseInsertReportedAnimal(OwnedPayload(body, "reportedById", callerId, filename)).Some?
    ensures var row := ReportRow(id, now, ParseInsertReportedAnimal(OwnedPayload(body, "reportedById", callerId, filename)).value);
      && row.reportedById == callerId
      && row.status == DefaultReportStatus
      && row.assignedToId.None?
      && row.photoUrl == (if filename.Some? then Some("/uploads/" + filename.value) else None)
  {
    var payload := OwnedPayload(body, "reportedById", callerId, filename);
    var a := ParseInsertReportedAnimal(payload).value;
    assert a.photoUrl == OptionalTextField(payload, "photoUrl").value;
  }

  /** The report statuses are all declared ones. */
  ghost predicate DeclaredReportStatuses(db: DatabaseStorage)
    reads db
  {
    forall a :: a in db.reportedAnimals ==> a.status in ReportStatuses
  }

  /** `POST /api/reported-animals`: validates the payload and inserts it; the
      reporter is always the caller, whatever the body says, and the photo
      is the upload's or none. */
  method CreateReportedAnimal(db: DatabaseStorage, who: Principal, body: Document, filename: Option<string>, now: Timestamp)
    returns (reply: Reply)
    requires db.Valid()
    modifies db
    ensures db.Valid()
    ensures db.users == old(db.users) && db.adoptableAnimals == old(db.adoptableAnimals) && db.veterinarians == old(db.veterinarians)
    ensures db.nextUserId == old(db.nextUserId) && db.nextListingId == old(db.nextListingId) && db.nextVetId == old(db.nextVetId)
    ensures reply.status == 201 ==> db.nextReportId == old(db.nextReportId) + 1
    ensures old(DeclaredReportStatuses(db)) ==> DeclaredReportStatuses(db)
    ensures who.Anonymous? ==> reply.status == 401 && unchanged(db)
    ensures reply.status != 201 ==> unchanged(db)
    ensures who.SignedIn? ==>
      var parsed := ParseInsertReportedAnimal(OwnedPayload(body, "reportedById", who.user.id, filename));
      && (parsed.None? ==> reply.status == 400)
      && (parsed.Some? && !IsUserId(old(db.users), who.user.id) ==> reply.status == 400)
      && (parsed.Some? && IsUserId(old(db.users), who.user.id) ==>
            && reply == Reply(201, Report(ReportRow(old(db.nextReportId), now, parsed.value)))
            && db.reportedAnimals == old(db.reportedAnimals) + [reply.body.report])
  {
    match IsAuthenticated(who)
    case Some(denied) =>
      return denied;
    case None =>
    var payload := OwnedPayload(body, "reportedById", who.user.id, filename);
    match ParseInsertReportedAnimal(payload)
    case None =>
      return Reply(400, Message("Invalid data"));
    case Some(data) =>
      var created := db.CreateReportedAnimal(data, now);
      match created
      case Thrown(e) =>
        reply := Reply(400, Message("Invalid data"));
      case Ok(a) =>
        assert a.status in ReportStatuses;
        reply := Reply(201, Report(a));
  }

  /** `PATCH /api/reported-animals/:id/status`: NGOs only; a status outside
      the declared four is refused with 400 before the store is touched;
      otherwise the report gets the status and the caller as assignee. */
  method UpdateReportedAnimalStatus(db: DatabaseStorage, who: Principal, idParam: string, body: Document)
    returns (reply: Reply)
    requires db.Valid()
    modifies db
    ensures db.Valid()
    ensures db.users == old(db.users) && db.adoptableAnimals == old(db.adoptableAnimals) && db.veterinarians == old(db.veterinarians)
    ensures db.nextUserId == old(db.nextUserId) && db.nextReportId == old(db.nextReportId) && db.nextListingId == old(db.nextListingId) && db.nextVetId == old(db.nextVetId)
    ensures old(DeclaredReportStatuses(db)) ==> DeclaredReportStatuses(db)
    ensures !IsNgoUser(who) ==> reply.status == 403 && unchanged(db)
    ensures IsNgoUser(who) && !(Get(body, "status").Str? && Get(body, "status").s in ReportStatuses) ==>
      reply.status == 400 && unchanged(db)
    ensures reply.status != 200 ==> unchanged(db)
    ensures reply.status == 200 ==>
      && IsNgoUser(who) && IdParam(idParam).Some?
      && Get(body, "status").Str? && Get(body, "status").s in ReportStatuses
      && exists i :: 0 <= i < |old(db.reportedAnimals)| && old(db.reportedAnimals)[i].id == IdParam(idParam).value
           && reply.body == Report(WithStatus(old(db.reportedAnimals)[i], Get(body, "status").s, Some(who.user.id)))
           && db.reportedAnimals == old(db.reportedAnimals)[i := reply.body.report]
    ensures reply.status == 404 ==>
      IdParam(idParam).Some? && forall a :: a in db.reportedAnimals ==> a.id != IdParam(idParam).value
    ensures IsNgoUser(who) && Get(body, "status").Str? && Get(body, "status").s in ReportStatuses && IdParam(idParam).None? ==>
      reply == Reply(500, Message("Failed to update status")) && unchanged(db)
    ensures IsNgoUser(who) && Get(body, "status").Str? && Get(body, "status").s in ReportStatuses && IdParam(idParam).Some? ==>
      var id := IdParam(idParam).value;
      && ((forall a :: a in old(db.reportedAnimals) ==> a.id != id) ==> reply.status == 404)
      && ((exists a :: a in old(db.reportedAnimals) && a.id == id) ==>
            (reply.status == 200 <==> who.user.id == 0 || IsUserId(old(db.users), who.user.id)))
      && ((exists a :: a in old(db.reportedAnimals) && a.id == id) && reply.status != 200 ==> reply.status == 500)
  {
    match IsNgo(who)
    case Some(denied) =>
      return denied;
    case None =>
    var status := Get(body, "status");
    if !(status.Str? && status.s in ReportStatuses) {
      return Reply(400, Message("Invalid status"));
    }
    match IdParam(idParam)
    case None =>
      return Reply(500, Message("Failed to update status"));
    case Some(id) =>
    reply := ApplyReportStatus(db, id, status.s, who.user.id);
  }

  /** The `try` block of the status route once the status is known to be
      declared: the update with the caller as assignee, 404 when no report
      has the id, 500 when the caller's id is not a user's. */
  method ApplyReportStatus(db: DatabaseStorage, id: int, status: string, callerId: int) returns (reply: Reply)
    requires db.Valid() && status in ReportStatuses
    modifies db
    ensures db.Valid()
    ensures db.users == old(db.users) && db.adoptableAnimals == old(db.adoptableAnimals) && db.veterinarians == old(db.veterinarians)
    ensures db.nextUserId == old(db.nextUserId) && db.nextReportId == old(db.nextReportId) && db.nextListingId == old(db.nextListingId) && db.nextVetId == old(db.nextVetId)
    ensures old(DeclaredReportStatuses(db)) ==> DeclaredReportStatuses(db)
    ensures reply.status == 200 || reply.status == 404 || reply.status == 500
    ensures reply.status != 200 ==> unchanged(db)
    ensures reply.status == 200 ==>
      exists i :: 0 <= i < |old(db.reportedAnimals)| && old(db.reportedAnimals)[i].id == id
        && reply.body == Report(WithStatus(old(db.reportedAnimals)[i], status, Some(callerId)))
        && db.reportedAnimals == old(db.reportedAnimals)[i := reply.body.report]
    ensures reply.status == 404 <==> forall a :: a in old(db.reportedAnimals) ==> a.id != id
    ensures (exists a :: a in old(db.reportedAnimals) && a.id == id) ==>
      (reply.status == 200 <==> callerId == 0 || IsUserId(old(db.users), callerId))
  {
    var updated := db.UpdateReportedAnimalStatus(id, status, Some(callerId));
    match updated
    case Thrown(_) =>
      reply := Reply(500, Message("Failed to update status"));
    case Ok(None) =>
      reply := Reply(404, Message("Animal not found"));
    case Ok(Some(a)) =>
      reply := Reply(200, Report(a));
  }

  // ---------------------------------------------------------------------
  // Adoptable animals
  // ---------------------------------------------------------------------

  /** `GET /api/adoptable-animals`: open to all; the available listings. */
  function ListAdoptableAnimals(db: DatabaseStorage): (reply: Reply)
    reads db
    ensures reply.status == 200 && reply.body.Listings?
    ensures reply == Reply(200, Listings(db.GetAdoptableAnimals()))
    ensures NewestFirstOrder(reply.body.listings, ListingTime)
    ensures forall a :: a in reply.body.listings ==> a.status == "available"
    ensures forall a :: a in db.adoptableAnimals && a.status == "available" ==> a in reply.body.listings
  {
    var available := db.GetAdoptableAnimals();
    assert forall a :: a in available ==> multiset(available)[a] > 0;
    assert forall a :: a in db.adoptableAnimals ==> multiset(db.adoptableAnimals)[a] > 0;
    Reply(200, Listings(available))
  }

  /** `GET /api/adoptable-animals/:id`: open to all, whatever the status. */
  function GetAdoptableAnimal(db: DatabaseStorage, idParam: string): (reply: Reply)
    reads db
    ensures IdParam(idParam).None? ==> reply.status == 500
    ensures IdParam(idParam).Some? ==>
      match db.GetAdoptableAnimalById(IdParam(idParam).value)
      case None => reply.status == 404
      case Some(a) => reply == Reply(200, Listing(a))
  {
    match IdParam(idParam)
    case None => Reply(500, Message("Failed to fetch animal"))
    case Some(id) =>
      match db.GetAdoptableAnimalById(id)
      case None => Reply(404, Message("Animal not found"))
      case Some(a) => Reply(200, Listing(a))
  }

  /** `GET /api/ngo/adoptable-animals`: the caller's own listings. */
  function ListNgoAdoptableAnimals(db: DatabaseStorage, who: Principal): (reply: Reply)
    reads db
    ensures !IsNgoUser(who) <==> reply.status == 403
    ensures IsNgoUser(who) ==>
      && reply == Reply(200, Listings(db.GetAdoptableAnimalsByNgo(who.user.id)))
      && forall a :: a in reply.body.listings ==> a.listedById == who.user.id
  {
    match IsNgo(who)
    case Some(denied) => denied
    case None =>
      var mine := db.GetAdoptableAnimalsByNgo(who.user.id);
      assert forall a :: a in mine ==> multiset(mine)[a] > 0;
      Reply(200, Listings(mine))
  }

  /** `POST /api/adoptable-animals`: NGOs only; the lister is the caller. */
  method CreateAdoptableAnimal(db: DatabaseStorage, who: Principal, body: Document, filename: Option<string>, now: Timestamp)
    returns (reply: Reply)
    requires db.Valid()
    modifies db
    ensures db.Valid()
    ensures db.users == old(db.users) && db.reportedAnimals == old(db.reportedAnimals) && db.veterinarians == old(db.veterinarians)
    ensures db.nextUserId == old(db.nextUserId) && db.nextReportId == old(db.nextReportId) && db.nextVetId == old(db.nextVetId)
    ensures reply.status == 201 ==> db.nextListingId == old(db.nextListingId) + 1
    ensures !IsNgoUser(who) ==> reply.status == 403 && unchanged(db)
    ensures reply.status != 201 ==> unchanged(db)
    ensures IsNgoUser(who) ==>
      var parsed := ParseInsertAdoptableAnimal(OwnedPayload(body, "listedById", who.user.id, filename));
      && (parsed.None? ==> reply.status == 400)
      && (parsed.Some? && !IsUserId(old(db.users), who.user.id) ==> reply.status == 400)
      && (parsed.Some? && IsUserId(old(db.users), who.user.id) ==>
            && reply == Reply(201, Listing(ListingRow(old(db.nextListingId), now, parsed.value)))
            && db.adoptableAnimals == old(db.adoptableAnimals) + [reply.body.listing])
    ensures reply.status == 201 ==>
      reply.body.listing.listedById == who.user.id && reply.body.listing.status == DefaultListingStatus
  {
    match IsNgo(who)
    case Some(denied) =>
      return denied;
    case None =>
    var payload := OwnedPayload(body, "listedById", who.user.id, filename);
    match ParseInsertAdoptableAnimal(payload)
    case None =>
      return Reply(400, Message("Invalid data"));
    case Some(data) =>
      var created := db.CreateAdoptableAnimal(data, now);
      match created
      case Thrown(e) =>
        reply := Reply(400, Message("Invalid data"));
      case Ok(a) =>
        reply := Reply(201, Listing(a));
  }

  /** `PATCH /api/adoptable-animals/:id/status`: NGOs only; 400 for a status
      outside the declared three, then 404 when absent, then 403 unless the
      caller listed it; only then does the status change. */
  method UpdateAdoptableAnimalStatus(db: DatabaseStorage, who: Principal, idParam: string, body: Document)
    returns (reply: Reply)
    requires db.Valid()
    modifies db
    ensures db.Valid()
    ensures db.users == old(db.users) && db.reportedAnimals == old(db.reportedAnimals) && db.veterinarians == old(db.veterinarians)
    ensures db.nextUserId == old(db.nextUserId) && db.nextReportId == old(db.nextReportId) && db.nextListingId == old(db.nextListingId) && db.nextVetId == old(db.nextVetId)
    ensures !IsNgoUser(who) ==> reply.status == 403 && unchanged(db)
    ensures IsNgoUser(who) && !(Get(body, "status").Str? && Get(body, "status").s in ListingStatuses) ==>
      reply.status == 400 && unchanged(db)
    ensures reply.status != 200 ==> unchanged(db)
    ensures IsNgoUser(who) && Get(body, "status").Str? && Get(body, "status").s in ListingStatuses && IdParam(idParam).None? ==>
      reply == Reply(500, Message("Failed to update status")) && unchanged(db)
    ensures IsNgoUser(who) && Get(body, "status").Str? && Get(body, "status").s in ListingStatuses && IdParam(idParam).Some? ==>
      match old(db.GetAdoptableAnimalById(IdParam(idParam).value))
      case None => reply.status == 404
      case Some(a) =>
        if a.listedById != who.user.id then reply.status == 403
        else
          && reply == Reply(200, Listing(a.(status := Get(body, "status").s)))
          && exists i :: 0 <= i < |old(db.adoptableAnimals)| && old(db.adoptableAnimals)[i] == a
               && db.adoptableAnimals == old(db.adoptableAnimals)[i := reply.body.listing]
  {
    match IsNgo(who)
    case Some(denied) =>
      return denied;
    case None =>
    var status := Get(body, "status");
    if !(status.Str? && status.s in ListingStatuses) {
      return Reply(400, Message("Invalid status"));
    }
    match IdParam(idParam)
    case None =>
      return Reply(500, Message("Failed to update status"));
    case Some(id) =>
    match db.GetAdoptableAnimalById(id)
    case None =>
      return Reply(404, Message("Animal not found"));
    case Some(a) =>
    if a.listedById != who.user.id {
      return Reply(403, Message("Forbidden"));
    }
    RowByIdIsOnlyRow(db, id);
    var updated := db.UpdateAdoptableAnimalStatus(id, status.s);
    match updated
    case None =>
      reply := Reply(500, Message("Failed to update status"));
    case Some(u) =>
      reply := Reply(200, Listing(u));
  }

  /** `DELETE /api/adoptable-animals/:id`: NGOs only; 404 when absent, 403
      with nothing removed unless the caller listed it, otherwise the
      listing is removed and the answer is 204. */
  method DeleteAdoptableAnimal(db: DatabaseStorage, who: Principal, idParam: string) returns (reply: Reply)
    requires db.Valid()
    modifies db
    ensures db.Valid()
    ensures db.users == old(db.users) && db.reportedAnimals == old(db.reportedAnimals) && db.veterinarians == old(db.veterinarians)
    ensures db.nextUserId == old(db.nextUserId) && db.nextReportId == old(db.nextReportId) && db.nextListingId == old(db.nextListingId) && db.nextVetId == old(db.nextVetId)
    ensures !IsNgoUser(who) ==> reply.status == 403 && unchanged(db)
    ensures reply.status != 204 ==> unchanged(db)
    ensures IsNgoUser(who) && IdParam(idParam).None? ==>
      reply == Reply(500, Message("Failed to delete animal")) && unchanged(db)
    ensures IsNgoUser(who) && IdParam(idParam).Some? ==>
      match old(db.GetAdoptableAnimalById(IdParam(idParam).value))
      case None => reply.status == 404
      case Some(a) =>
        if a.listedById != who.user.id then reply.status == 403
        else
          && reply == Reply(204, NoContent)
          && db.adoptableAnimals == WithoutListing(old(db.adoptableAnimals), IdParam(idParam).value)
  {
    match IsNgo(who)
    case Some(denied) =>
      return denied;
    case None =>
    match IdParam(idParam)
    case None =>
      return Reply(500, Message("Failed to delete animal"));
    case Some(id) =>
    match db.GetAdoptableAnimalById(id)
    case None =>
      return Reply(404, Message("Animal not found"));
    case Some(a) =>
    if a.listedById != who.user.id {
      return Reply(403, Message("Forbidden"));
    }
    var _ := db.DeleteAdoptableAnimal(id);
    reply := Reply(204, NoContent);
  }

  // ---------------------------------------------------------------------
  // Veterinarians
  // ---------------------------------------------------------------------

  /** `req.query.x as string || fallback` */
  function QueryOr(q: Option<string>, fallback: string): (s: string)
    ensures q.Some? && q.value != "" ==> s == q.value
    ensures !(q.Some? && q.value != "") ==> s == fallback
  {
    if q.Some? && q.value != "" then q.value else fallback
  }

  /** `GET /api/veterinarians`: signed-in users only; with a location, the
      nearby search limited to `limit` (10 when not given); otherwise every
      vet. A limit that does not parse, or a negative one, fails with 500. */
  function ListVeterinarians(db: DatabaseStorage, who: Principal, location: Option<string>, limit: Option<string>): (reply: Reply)
    reads db
    ensures who.Anonymous? <==> reply.status == 401
    ensures who.SignedIn? && QueryOr(location, "") == "" ==> reply == Reply(200, Vets(db.GetVeterinarians()))
    ensures who.SignedIn? && QueryOr(location, "") != "" ==>
      match ParseInt(QueryOr(limit, "10"))
      case None => reply.status == 500
      case Some(n) =>
        match db.GetNearbyVeterinarians(QueryOr(location, ""), Some(n))
        case Thrown(_) => reply.status == 500
        case Ok(vets) => reply == Reply(200, Vets(vets)) && |vets| <= n
  {
    match IsAuthenticated(who)
    case Some(denied) => denied
    case None =>
      var loc := QueryOr(location, "");
      if loc == "" then Reply(200, Vets(db.GetVeterinarians()))
      else
        match ParseInt(QueryOr(limit, "10"))
        case None => Reply(500, Message("Failed to fetch veterinarians"))
        case Some(n) =>
          match db.GetNearbyVeterinarians(loc, Some(n))
          case Thrown(_) => Reply(500, Message("Failed to fetch veterinarians"))
          case Ok(vets) => Reply(200, Vets(vets))
  }

  /** Without a `limit` the nearby search returns at most ten vets. */
  lemma DefaultVetLimit(db: DatabaseStorage, who: Principal, location: string)
    requires who.SignedIn? && location != ""
    ensures var reply := ListVeterinarians(db, who, Some(location), None);
      reply.status == 200 && |reply.body.vets| <= 10
  {
    DefaultLimitParses();
    assert QueryOr(None, "10") == "10" && QueryOr(Some(location), "") == location;
  }

  /** The default limit text "10" reads as the number ten. */
  lemma DefaultLimitParses()
    ensures ParseInt("10") == Some(10)
  {
    TenHasNoLeadingSpace();
    TenIsDecimal();
    assert ParseSigned("10") == ParseMagnitude("10") == ParseDigits("10", 10);
  }

  lemma TenHasNoLeadingSpace()
    ensures TrimStart("10") == "10"
  {
    assert !IsSpace("10"[0]);
  }

  lemma TenIsDecimal()
    ensures DigitRun("10", 10) == 2 && DigitsValue("10"[..2], 10) == 10
  {
    DecimalDigitsRun("10");
    assert "10"[..2] == "10" && "10"[..1] == "1" && "10"[..0] == "";
  }
}
