/** shared/schema.ts: the four relational tables, the enumerations of their
    text columns, their defaults, and the insert schemas, each of which
    accepts a record without the columns the database fills in itself.
    Enumerated text columns that only an insert writes (role, urgency,
    gender, vaccination) are typed rows here; the two status columns are
    plain text, because an update may store any string in them. */
module Schema {
  import opened JsText
  import opened JsValues

  // ---------------------------------------------------------------------
  // Enumerations
  // ---------------------------------------------------------------------

  datatype Role = RegularUser | Ngo

  const RoleNames: seq<string> := ["user", "ngo"]
  const DefaultRole := RegularUser

  function RoleName(r: Role): (s: string)
    ensures s in RoleNames
  {
    match r
    case RegularUser => "user"
    case Ngo => "ngo"
  }

  /** The role a text denotes, if any: the inverse of `RoleName`. */
  function ParseRole(s: string): (r: Option<Role>)
    ensures r.Some? <==> s in RoleNames
    ensures r.Some? ==> RoleName(r.value) == s
    ensures forall x: Role :: RoleName(x) == s ==> r == Some(x)
  {
    if s == "user" then Some(RegularUser)
    else if s == "ngo" then Some(Ngo)
    else None
  }

  datatype Urgency = Urgent | NonUrgent

  const UrgencyNames: seq<string> := ["urgent", "non-urgent"]

  function UrgencyName(u: Urgency): (s: string)
    ensures s in UrgencyNames
  {
    match u
    case Urgent => "urgent"
    case NonUrgent => "non-urgent"
  }

  function ParseUrgency(s: string): (r: Option<Urgency>)
    ensures r.Some? <==> s in UrgencyNames
    ensures r.Some? ==> UrgencyName(r.value) == s
    ensures forall x: Urgency :: UrgencyName(x) == s ==> r == Some(x)
  {
    if s == "urgent" then Some(Urgent)
    else if s == "non-urgent" then Some(NonUrgent)
    else None
  }

  datatype Gender = Male | Female | UnknownGender

  const GenderNames: seq<string> := ["male", "female", "unknown"]

  function GenderName(g: Gender): (s: string)
    ensures s in GenderNames
  {
    match g
    case Male => "male"
    case Female => "female"
    case UnknownGender => "unknown"
  }

  function ParseGender(s: string): (r: Option<Gender>)
    ensures r.Some? <==> s in GenderNames
    ensures r.Some? ==> GenderName(r.value) == s
    ensures forall x: Gender :: GenderName(x) == s ==> r == Some(x)
  {
    if s == "male" then Some(Male)
    else if s == "female" then Some(Female)
    else if s == "unknown" then Some(UnknownGender)
    else None
  }

  datatype Vaccinated = Yes | No | Partial

  const VaccinatedNames: seq<string> := ["yes", "no", "partial"]

  function VaccinatedName(v: Vaccinated): (s: string)
    ensures s in VaccinatedNames
  {
    match v
    case Yes => "yes"
    case No => "no"
    case Partial => "partial"
  }

  function ParseVaccinated(s: string): (r: Option<Vaccinated>)
    ensures r.Some? <==> s in VaccinatedNames
    ensures r.Some? ==> VaccinatedName(r.value) == s
    ensures forall x: Vaccinated :: VaccinatedName(x) == s ==> r == Some(x)
  {
    if s == "yes" then Some(Yes)
    else if s == "no" then Some(No)
    else if s == "partial" then Some(Partial)
    else None
  }

  /** The values the reported-animal `status` column is declared with. */
  const ReportStatuses: seq<string> := ["pending", "in-progress", "resolved", "adoptable"]
  const DefaultReportStatus := "pending"

  /** The values the adoptable-animal `status` column is declared with. */
  const ListingStatuses: seq<string> := ["available", "pending", "adopted"]
  const DefaultListingStatus := "available"

  // ---------------------------------------------------------------------
  // Rows and insert records
  // ---------------------------------------------------------------------

  /** Timestamps are opaque instants, compared by their order only. */
  type Timestamp = int

  datatype User = User(
    id: int, username: string, password: string, fullName: string, role: Role,
    contactPhone: Option<string>, ngoName: Option<string>, ngoRegistration: Option<string>,
    location: Option<string>)

  /** `InsertUser`: every column but `id`; `role` may be left to its default. */
  datatype InsertUser = InsertUser(
    username: string, password: string, fullName: string, role: Option<Role>,
    contactPhone: Option<string>, ngoName: Option<string>, ngoRegistration: Option<string>,
    location: Option<string>)

  datatype ReportedAnimal = ReportedAnimal(
    id: int, animalType: string, urgency: Urgency, description: string, location: string,
    photoUrl: Option<string>, status: string, reportedAt: Timestamp, reportedById: int,
    assignedToId: Option<int>)

  /** `InsertReportedAnimal`: no `id`, `reportedAt`, `status` or `assignedToId`. */
  datatype InsertReportedAnimal = InsertReportedAnimal(
    animalType: string, urgency: Urgency, description: string, location: string,
    photoUrl: Option<string>, reportedById: int)

  datatype AdoptableAnimal = AdoptableAnimal(
    id: int, name: string, animalType: string, gender: Gender, age: string,
    vaccinated: Vaccinated, description: string, photoUrl: Option<string>, status: string,
    listedAt: Timestamp, listedById: int)

  /** `InsertAdoptableAnimal`: no `id`, `listedAt` or `status`. */
  datatype InsertAdoptableAnimal = InsertAdoptableAnimal(
    name: string, animalType: string, gender: Gender, age: string, vaccinated: Vaccinated,
    description: string, photoUrl: Option<string>, listedById: int)

  datatype Veterinarian = Veterinarian(
    id: int, name: string, address: string, phone: string, location: string,
    latitude: Option<string>, longitude: Option<string>)

  /** `InsertVeterinarian`: every column but `id`. */
  datatype InsertVeterinarian = InsertVeterinarian(
    name: string, address: string, phone: string, location: string,
    latitude: Option<string>, longitude: Option<string>)

  // ---------------------------------------------------------------------
  // The row an insert produces, and the insert record a row came from
  // ---------------------------------------------------------------------

  /** The user row an insert produces under serial id `id`. */
  function UserRow(id: int, u: InsertUser): (r: User)
    ensures r.id == id && r.username == u.username && r.password == u.password
    ensures r.role == (if u.role.Some? then u.role.value else DefaultRole)
  {
    User(id, u.username, u.password, u.fullName, if u.role.Some? then u.role.value else DefaultRole,
         u.contactPhone, u.ngoName, u.ngoRegistration, u.location)
  }

  function UserInsert(r: User): InsertUser {
    InsertUser(r.username, r.password, r.fullName, Some(r.role), r.contactPhone, r.ngoName,
               r.ngoRegistration, r.location)
  }

  /** The user insert record omits exactly the id: every row is the insert of
      its own fields, and an insert that names its role is recovered from its row. */
  lemma UserInsertOmitsOnlyId(r: User, u: InsertUser, id: int)
    ensures UserRow(r.id, UserInsert(r)) == r
    ensures u.role.Some? ==> UserInsert(UserRow(id, u)) == u
  {
  }

  /** The reported-animal row an insert produces: serial id `id`, reported at
      `now`, status `pending` and no assignee, whatever the caller supplied. */
  function ReportRow(id: int, now: Timestamp, a: InsertReportedAnimal): (r: ReportedAnimal)
    ensures r.id == id && r.reportedAt == now
    ensures r.status == DefaultReportStatus && r.assignedToId.None?
    ensures r.reportedById == a.reportedById
    ensures ReportInsert(r) == a
  {
    ReportedAnimal(id, a.animalType, a.urgency, a.description, a.location, a.photoUrl,
                   DefaultReportStatus, now, a.reportedById, None)
  }

  function ReportInsert(r: ReportedAnimal): InsertReportedAnimal {
    InsertReportedAnimal(r.animalType, r.urgency, r.description, r.location, r.photoUrl, r.reportedById)
  }

  /** A row is what inserting its own insert record produces exactly when its
      status is still the default and nobody is assigned. */
  lemma ReportRowIsFreshIff(r: ReportedAnimal)
    ensures ReportRow(r.id, r.reportedAt, ReportInsert(r)) == r
            <==> r.status == DefaultReportStatus && r.assignedToId.None?
  {
  }

  /** The adoptable-animal row an insert produces: status `available`. */
  function ListingRow(id: int, now: Timestamp, a: InsertAdoptableAnimal): (r: AdoptableAnimal)
    ensures r.id == id && r.listedAt == now && r.status == DefaultListingStatus
    ensures r.listedById == a.listedById
    ensures ListingInsert(r) == a
  {
    AdoptableAnimal(id, a.name, a.animalType, a.gender, a.age, a.vaccinated, a.description,
                    a.photoUrl, DefaultListingStatus, now, a.listedById)
  }

  function ListingInsert(r: AdoptableAnimal): InsertAdoptableAnimal {
    InsertAdoptableAnimal(r.name, r.animalType, r.gender, r.age, r.vaccinated, r.description,
                          r.photoUrl, r.listedById)
  }

  function VetRow(id: int, v: InsertVeterinarian): (r: Veterinarian)
    ensures r.id == id && r.name == v.name && r.address == v.address && r.location == v.location
    ensures VetInsert(r) == v
  {
    Veterinarian(id, v.name, v.address, v.phone, v.location, v.latitude, v.longitude)
  }

  function VetInsert(r: Veterinarian): InsertVeterinarian {
    InsertVeterinarian(r.name, r.address, r.phone, r.location, r.latitude, r.longitude)
  }

  // ---------------------------------------------------------------------
  // Parsing a request body with an insert schema
  // ---------------------------------------------------------------------

  /** A required text property. */
  function TextField(d: Document, key: string): (r: Option<string>)
    ensures r.Some? <==> Get(d, key).Str?
    ensures r.Some? ==> Get(d, key) == Str(r.value)
  {
    match Get(d, key)
    case Str(s) => Some(s)
    case _ => None
  }

  /** An optional, nullable text property: `Some(None)` when absent or `null`. */
  function OptionalTextField(d: Document, key: string): (r: Option<Option<string>>)
    ensures r.None? <==> !(Get(d, key).Str? || Get(d, key).Undefined? || Get(d, key).Null?)
    ensures r == Some(None) <==> Get(d, key).Undefined? || Get(d, key).Null?
    ensures r.Some? && r.value.Some? ==> Get(d, key) == Str(r.value.value)
  {
    match Get(d, key)
    case Undefined => Some(None)
    case Null => Some(None)
    case Str(s) => Some(Some(s))
    case _ => None
  }

  /** A required integer property. */
  function IntField(d: Document, key: string): (r: Option<int>)
    ensures r.Some? <==> Get(d, key).Num?
    ensures r.Some? ==> Get(d, key) == Num(r.value)
  {
    match Get(d, key)
    case Num(n) => Some(n)
    case _ => None
  }

  /** A required enumerated text property. */
  function EnumField<E>(d: Document, key: string, parse: string -> Option<E>): (r: Option<E>)
    ensures r.Some? ==> Get(d, key).Str? && parse(Get(d, key).s) == r
    ensures Get(d, key).Str? && parse(Get(d, key).s).Some? ==> r.Some?
  {
    match Get(d, key)
    case Str(s) => parse(s)
    case _ => None
  }

  function TextValue(s: Option<string>): Value {
    if s.Some? then Str(s.value) else Undefined
  }

  /** `insertUserSchema.parse(body)`: unknown properties are dropped. */
  function ParseInsertUser(d: Document): (r: Option<InsertUser>)
    ensures r.Some? <==>
      && TextField(d, "username").Some? && TextField(d, "password").Some? && TextField(d, "fullName").Some?
      && (Get(d, "role").Undefined? || EnumField(d, "role", ParseRole).Some?)
      && OptionalTextField(d, "contactPhone").Some? && OptionalTextField(d, "ngoName").Some?
      && OptionalTextField(d, "ngoRegistration").Some? && OptionalTextField(d, "location").Some?
  {
    var username := TextField(d, "username");
    var password := TextField(d, "password");
    var fullName := TextField(d, "fullName");
    var role := if Get(d, "role").Undefined? then Some(None)
                else match EnumField(d, "role", ParseRole) case Some(x) => Some(Some(x)) case None => None;
    var phone := OptionalTextField(d, "contactPhone");
    var ngoName := OptionalTextField(d, "ngoName");
    var ngoReg := OptionalTextField(d, "ngoRegistration");
    var location := OptionalTextField(d, "location");
    if username.Some? && password.Some? && fullName.Some? && role.Some? && phone.Some?
       && ngoName.Some? && ngoReg.Some? && location.Some?
    then Some(InsertUser(username.value, password.value, fullName.value, role.value, phone.value,
                         ngoName.value, ngoReg.value, location.value))
    else None
  }

  /** `insertReportedAnimalSchema.parse(body)`: the omitted columns are
      dropped with every other unknown property. */
  function ParseInsertReportedAnimal(d: Document): (r: Option<InsertReportedAnimal>)
    ensures r.Some? <==>
      && TextField(d, "animalType").Some? && EnumField(d, "urgency", ParseUrgency).Some?
      && TextField(d, "description").Some? && TextField(d, "location").Some?
      && OptionalTextField(d, "photoUrl").Some? && IntField(d, "reportedById").Some?
    ensures r.Some? ==> r.value.reportedById == Get(d, "reportedById").n
  {
    var animalType := TextField(d, "animalType");
    var urgency := EnumField(d, "urgency", ParseUrgency);
    var description := TextField(d, "description");
    var location := TextField(d, "location");
    var photoUrl := OptionalTextField(d, "photoUrl");
    var reportedById := IntField(d, "reportedById");
    if animalType.Some? && urgency.Some? && description.Some? && location.Some? && photoUrl.Some?
       && reportedById.Some?
    then Some(InsertReportedAnimal(animalType.value, urgency.value, description.value, location.value,
                                   photoUrl.value, reportedById.value))
    else None
  }

  /** The body a client would send for an insert record. */
  function ReportInsertBody(a: InsertReportedAnimal): Document {
    map["animalType" := Str(a.animalType), "urgency" := Str(UrgencyName(a.urgency)),
        "description" := Str(a.description), "location" := Str(a.location),
        "photoUrl" := TextValue(a.photoUrl), "reportedById" := Num(a.reportedById)]
  }

  /** Parsing the body of an insert record gives the record back. */
  lemma ParseReportInsertBody(a: InsertReportedAnimal)
    ensures ParseInsertReportedAnimal(ReportInsertBody(a)) == Some(a)
  {
    var d := ReportInsertBody(a);
    assert ParseUrgency(UrgencyName(a.urgency)) == Some(a.urgency);
    assert EnumField(d, "urgency", ParseUrgency) == Some(a.urgency);
  }

  /** The omitted columns cannot be chosen on insert: whatever a body says
      about `id`, `reportedAt`, `status` or `assignedToId` leaves the parsed
      record unchanged. */
  lemma ReportInsertIgnoresOmitted(d: Document, key: string, v: Value)
    requires key in {"id", "reportedAt", "status", "assignedToId"}
    ensures ParseInsertReportedAnimal(d[key := v]) == ParseInsertReportedAnimal(d)
  {
    var e := d[key := v];
    assert Get(e, "animalType") == Get(d, "animalType");
    assert Get(e, "urgency") == Get(d, "urgency");
    assert Get(e, "description") == Get(d, "description");
    assert Get(e, "location") == Get(d, "location");
    assert Get(e, "photoUrl") == Get(d, "photoUrl");
    assert Get(e, "reportedById") == Get(d, "reportedById");
  }

  /** `insertAdoptableAnimalSchema.parse(body)` */
  function ParseInsertAdoptableAnimal(d: Document): (r: Option<InsertAdoptableAnimal>)
    ensures r.Some? <==>
      && TextField(d, "name").Some? && TextField(d, "animalType").Some?
      && EnumField(d, "gender", ParseGender).Some? && TextField(d, "age").Some?
      && EnumField(d, "vaccinated", ParseVaccinated).Some? && TextField(d, "description").Some?
      && OptionalTextField(d, "photoUrl").Some? && IntField(d, "listedById").Some?
    ensures r.Some? ==> r.value.listedById == Get(d, "listedById").n
  {
    var name := TextField(d, "name");
    var animalType := TextField(d, "animalType");
    var gender := EnumField(d, "gender", ParseGender);
    var age := TextField(d, "age");
    var vaccinated := EnumField(d, "vaccinated", ParseVaccinated);
    var description := TextField(d, "description");
    var photoUrl := OptionalTextField(d, "photoUrl");
    var listedById := IntField(d, "listedById");
    if name.Some? && animalType.Some? && gender.Some? && age.Some? && vaccinated.Some?
       && description.Some? && photoUrl.Some? && listedById.Some?
    then Some(InsertAdoptableAnimal(name.value, animalType.value, gender.value, age.value,
                                    vaccinated.value, description.value, photoUrl.value, listedById.value))
    else None
  }

  /** Whatever a body says about `id`, `listedAt` or `status` leaves the parsed
      listing unchanged. */
  lemma ListingInsertIgnoresOmitted(d: Document, key: string, v: Value)
    requires key in {"id", "listedAt", "status"}
    ensures ParseInsertAdoptableAnimal(d[key := v]) == ParseInsertAdoptableAnimal(d)
  {
    var e := d[key := v];
    assert Get(e, "name") == Get(d, "name");
    assert Get(e, "animalType") == Get(d, "animalType");
    assert Get(e, "gender") == Get(d, "gender");
    assert Get(e, "age") == Get(d, "age");
    assert Get(e, "vaccinated") == Get(d, "vaccinated");
    assert Get(e, "description") == Get(d, "description");
    assert Get(e, "photoUrl") == Get(d, "photoUrl");
    assert Get(e, "listedById") == Get(d, "listedById");
  }

  /** `insertVeterinarianSchema.parse(body)` */
  function ParseInsertVeterinarian(d: Document): (r: Option<InsertVeterinarian>)
    ensures r.Some? <==>
      && TextField(d, "name").Some? && TextField(d, "address").Some?
      && TextField(d, "phone").Some? && TextField(d, "location").Some?
      && OptionalTextField(d, "latitude").Some? && OptionalTextField(d, "longitude").Some?
  {
    var name := TextField(d, "name");
    var address := TextField(d, "address");
    var phone := TextField(d, "phone");
    var location := TextField(d, "location");
    var latitude := OptionalTextField(d, "latitude");
    var longitude := OptionalTextField(d, "longitude");
    if name.Some? && address.Some? && phone.Some? && location.Some? && latitude.Some? && longitude.Some?
    then Some(InsertVeterinarian(name.value, address.value, phone.value, location.value,
                                 latitude.value, longitude.value))
    else None
  }
}
