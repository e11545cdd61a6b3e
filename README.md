# animalSOS in Dafny

A model of the core of animalSOS. The application lets people report injured
animals, lets NGOs triage those reports, list animals for adoption and find
veterinarians. The model covers two server back ends and the client-side
logic around them:

- **The development server (JavaScript).**
  - `InMemoryMongoDB` holds four document collections and one id counter per
    collection.
  - The in-memory branch of `MongoDBStorage` appends, overwrites and filters
    those collections in place.
  - The `InMemoryModel` searches `findById`, `findOne` and `find`.
  - The Express handlers of `server/routes.js` build request payloads by
    spreading the body and call the store.
- **The typed server (TypeScript).**
  - The tables and insert schemas of `shared/schema.ts`.
  - `DatabaseStorage`, modelled as a class over four tables with serial-id
    counters. Its invariant covers serial ids, unique user names and foreign
    keys.
  - The `server/routes.ts` handlers with their 401, 403, 400, 404 and 500
    decisions.
- **The client.**
  - The sign-in and registration schemas, and the error map built from their
    issues.
  - The report and adoption forms and the multipart bodies they post.
  - `uploadFile`'s checks.
  - The list filters of the NGO reports page and the adoption search.
  - The guard of protected routes.
  - The reported-animal table's "time since" text, status label and busy flag.

How JavaScript values are represented:

- A JavaScript object is a `map<string, Value>`, and `{...a, ...b}` is map
  union with `b` winning.
- Truthiness, `String(v)`, `v.toString()` (which throws on `null` and
  `undefined`), `parseInt` and `includes` are written out in `JsText` and
  `JsValues`.
- A thrown exception is an `Outcome` value, `Thrown(message)`.

How the model deals with the outside world:

- Everything outside the program becomes a parameter:
  - a freshly generated id;
  - `new Date()`;
  - an uploaded file's name;
  - a `fetch` response;
  - the result of a geolocation lookup.
- The process-wide store `global.inMemoryMongoDB` may be absent, so it is an
  `InMemoryMongoDB?`.

Status values are plain text, both in the documents and in the typed tables.
The check that a status is one of the allowed values is made by the
TypeScript routes, not by the store, and the model keeps that split.

`server/storage.ts` queries several columns that `shared/schema.ts` does not
declare:

- `reportedBy` and `createdAt` on reports;
- `listedBy` and `createdAt` on listings;
- `city` on vets;
- it also sets `assignedTo`.

The model reads each of these as the declared column that is evidently meant:

| storage.ts name | modelled as |
|---|---|
| `reportedBy` | `reportedById` |
| `createdAt` | `reportedAt` on reports, `listedAt` on listings |
| `listedBy` | `listedById` |
| `city` | `location` |
| `assignedTo` | `assignedToId` |

The two back ends are kept apart, even where their enums differ: models.js
has report statuses pending/investigating/rescued/closed, while schema.ts has
pending/in-progress/resolved/adoptable.

## Model

| member | source | states |
|---|---|---|
| MongoDb.InMemoryMongoDB.constructor | server/mongodb.js:5-13 | four empty collections and every counter at 1; the store invariant holds |
| MongoDb.InMemoryMongoDB.GetNextId | server/mongodb.js:16-18 | returns the lower-cased collection's counter and stores it plus one; an unknown name yields NaN and stores NaN; no collection and no other counter changes |
| MongoDb.InMemoryMongoDB.FindById | server/mongodb.js:21-24 | an unknown collection throws; otherwise the first document whose `_id` text equals the id's text |
| JsValues.ToStringMethod | server/mongodb.js:23 | `v.toString()` is absent exactly for null and undefined, and otherwise is `String(v)` |
| MongoDb.KeyTextEquals | server/mongodb.js:23 | the comparison throws exactly when either side is null or undefined; otherwise it is equality of the two texts |
| MongoDb.FindIndexById | server/mongodb.js:23 | a found index holds a matching document and every earlier document fails; not found means every document fails; a throw happens at a null or undefined id reached before any match |
| MongoDb.FindIndexByIdIsFirstMatch | server/mongodb.js:23 | the search yields index i exactly when document i is the first whose `_id` text matches, with no throw before it |
| MongoDb.CollectionNamesAreLowerCase | server/mongodb.js:6-11 | the four collection keys are already lower case, so `getNextId` and the models' lower-casing reach them |
| MongoDb.FindIndexAfterAppend | server/mongodb.js:23 | a document appended after documents with other ids is found at its own position |
| MongoDb.FindIndexAfterReplace | server/mongodb.js:23 | replacing a document by one with the same id text leaves the id search result unchanged |
| Models.DefaultsAreAllowed | shared/models.js:11-44 | each schema default is one of its enumeration's values |
| Models.FirstMatch | shared/models.js:96-101 | the first document that matches every query property; none earlier matches |
| Models.ModelFindById | shared/models.js:86-89 | null without a store; otherwise the store's `findById` on the model's lower-cased collection |
| Models.ModelFindOne | shared/models.js:91-102 | null without a store; found exactly when some document matches, and then the first match |
| Models.ModelFind | shared/models.js:104-119 | `[]` without a store; an unknown collection throws |
| Models.FindIsMatchingSubsequence | shared/models.js:104-119 | `find` returns exactly the matching documents, in order, as a subsequence; an empty query returns the whole collection |
| Models.FindOneIsHeadOfFind | shared/models.js:91-119 | `findOne` returns the first element of what `find` returns, and nothing exactly when `find` is empty |
| MemoryStorage.Stamp | server/storage.js:67-71 | the stored record has the data's keys plus `_id` and the stamps; stamps win and data beats the generated id |
| MemoryStorage.NewRecord | server/storage.js:67-71 | the user record (and the vet record, storage.js:390-394) keeps every supplied field under a fresh `_id` and adds `createdAt` |
| MemoryStorage.StatusOrDefault | server/storage.js:160 | a truthy supplied status is kept, anything else becomes the default |
| MemoryStorage.NewStatusRecord | server/storage.js:157-163 | status is the truthy supplied one or the default ("pending" here, "available" for listings at storage.js:267-273); both stamps equal now; other fields are kept |
| MemoryStorage.CreateDefaultsAreSchemaDefaults | server/storage.js:157-163 | the defaults the store assigns are the defaults of the models.js schemas |
| MemoryStorage.UpdatedReport | server/storage.js:176-203 | status and updatedAt are overwritten; assignedTo is set only for a truthy assignee; every other field is kept |
| MemoryStorage.UpdatedListing | server/storage.js:300-304 | only status and updatedAt change |
| MemoryStorage.FilterByKeyText | server/storage.js:120-122 | a filter by `toString()` text throws exactly when some document's property is null or undefined; otherwise it is the filter |
| MemoryStorage.SliceTo | server/storage.js:373 | `slice(0, end)`: the prefix of length end, with a negative end counted from the back |
| MemoryStorage.Collection | server/storage.js:34-36 | the named collection of the store, empty without a store |
| MemoryStorage.FindByIdOrUndefined | server/storage.js:97-112 | the `getXById` lookups: something is found exactly when some document is the first whose `_id` text matches with no throw before it, and then it is that document; `undefined` without a store or on a throw |
| MemoryStorage.GetUserByUsername | server/storage.js:44-57 | the first user whose username is strictly equal; none means no user has it |
| MemoryStorage.GetReportedAnimals | server/storage.js:83-95 | `[]` without a store, otherwise the whole collection, the same as the model's `find({})` |
| MemoryStorage.GetAdoptableAnimals | server/storage.js:216-228 | the same for listings |
| MemoryStorage.GetVeterinarians | server/storage.js:337-349 | the same for vets |
| MemoryStorage.KeyTextMatches | server/storage.js:120-122 | a subsequence whose every element matches; `[]` when some comparison throws; otherwise each document occurs as often as in the collection when it matches and not at all otherwise |
| MemoryStorage.GetReportedAnimalsByUser | server/storage.js:114-129 | the reports whose `reportedBy` text equals the user id's text, in order and with multiplicities; `[]` when some comparison throws |
| MemoryStorage.GetReportedAnimalsByStatus | server/storage.js:131-147 | exactly the reports whose status is strictly equal, in order and with multiplicities |
| MemoryStorage.GetAdoptableAnimalsByNgo | server/storage.js:244-257 | the listings whose `ngoId` text equals the NGO id's text, in order and with multiplicities; `[]` when some comparison throws |
| MemoryStorage.GetNearbyVeterinarians | server/storage.js:365-380 | the first `limit` vets (10 by default) in collection order; the location is ignored |
| MemoryStorage.Push | server/storage.js:155-165 | appends one document to the named collection and changes nothing else |
| MemoryStorage.CreateUser | server/storage.js:59-80 | throws "Storage not available" without a store; otherwise appends the built user and returns it |
| MemoryStorage.CreateReportedAnimal | server/storage.js:149-172 | the same for reports, with the default status |
| MemoryStorage.CreateAdoptableAnimal | server/storage.js:259-282 | the same for listings |
| MemoryStorage.CreateVeterinarian | server/storage.js:382-403 | the same for vets |
| MemoryStorage.UpdateReportedAnimalStatus | server/storage.js:174-213 | no store, no match or a throw returns undefined and changes nothing; otherwise the first match is replaced in place by the updated record, which is returned |
| MemoryStorage.UpdateAdoptableAnimalStatus | server/storage.js:284-314 | the same for listings |
| MemoryStorage.DeleteAdoptableAnimal | server/storage.js:316-334 | the collection becomes the id-filtered one; the result is true exactly when something was removed; it is false without a store or on a throw |
| MemoryStorage.RemovalFacts | server/storage.js:323-327 | the filtered collection is a subsequence; it is shorter exactly when some listing had that id |
| MemoryStorage.CreatedReportIsFound | server/storage.js:155-167 | a created report is found again by its fresh id |
| MemoryStorage.UpdatedReportIsFound | server/storage.js:194-205 | after an update, the id lookup finds the updated record at the same index |
| MemoryStorage.DeletedListingIsGone | server/storage.js:321-327 | after a delete, no listing with that id remains |
| Schema.RoleName | shared/schema.ts:11 | every role's text is one of the declared values |
| Schema.ParseRole | shared/schema.ts:11 | a role is parsed exactly from the declared texts and is the inverse of RoleName |
| Schema.UrgencyName | shared/schema.ts:27 | every urgency's text is one of the declared values |
| Schema.ParseUrgency | shared/schema.ts:27 | an urgency is parsed exactly from the declared texts and is the inverse of UrgencyName |
| Schema.GenderName | shared/schema.ts:45 | every gender's text is declared |
| Schema.ParseGender | shared/schema.ts:45 | the inverse of GenderName on the declared texts |
| Schema.VaccinatedName | shared/schema.ts:47 | every vaccination status's text is declared |
| Schema.ParseVaccinated | shared/schema.ts:47 | the inverse of VaccinatedName on the declared texts |
| Schema.UserRow | shared/schema.ts:6-17 | the inserted row has the given id and the insert's fields, with role defaulting to "user" |
| Schema.UserInsertOmitsOnlyId | shared/schema.ts:19-21 | row and insert are inverse to each other except for id (and an omitted role) |
| Schema.ReportRow | shared/schema.ts:24-38 | a new report gets the id, reportedAt now, status "pending" and no assignee; dropping those gives back the insert |
| Schema.ReportRowIsFreshIff | shared/schema.ts:37-38 | a row is rebuilt from its insert exactly when it is in the omitted fields' default state |
| Schema.ListingRow | shared/schema.ts:41-56 | a new listing gets the id, listedAt now and status "available"; dropping those gives back the insert |
| Schema.VetRow | shared/schema.ts:59-70 | a new vet row keeps every inserted field |
| Schema.TextField | shared/schema.ts:26 | a required text property is accepted exactly when it is a string |
| Schema.OptionalTextField | shared/schema.ts:30 | a nullable text property accepts a string, absence or null |
| Schema.IntField | shared/schema.ts:33 | a required integer property is accepted exactly when it is a number |
| Schema.EnumField | shared/schema.ts:27 | an enum property is accepted exactly when it is a declared text |
| Schema.ParseInsertUser | shared/schema.ts:19-21 | the body parses exactly when every required field has the right type and the role is absent or declared |
| Schema.ParseInsertReportedAnimal | shared/schema.ts:37-38 | the same for reports; the reporter id is the body's number |
| Schema.ParseReportInsertBody | shared/schema.ts:37-38 | encoding an insert as a body and parsing it gives the insert back |
| Schema.ReportInsertIgnoresOmitted | shared/schema.ts:37-38 | setting an omitted or unknown key does not change what parses |
| Schema.ParseInsertAdoptableAnimal | shared/schema.ts:55-56 | the same for listings |
| Schema.ListingInsertIgnoresOmitted | shared/schema.ts:55-56 | omitted or unknown keys do not change what parses |
| Schema.ParseInsertVeterinarian | shared/schema.ts:69-70 | a vet body parses exactly when its required text fields are strings |
| SqlStorage.InsertByTime | server/storage.ts:78 | inserting into a newest-first list keeps it newest-first and adds exactly one element |
| SqlStorage.NewestFirst | server/storage.ts:77-79 | `orderBy(desc(...))` is a newest-first permutation of its input |
| SqlStorage.SerialIdsUnique | shared/schema.ts:7 | serial ids are unique within a table |
| SqlStorage.FilterKeepsSerial | server/storage.ts:164-168 | deleting rows keeps the serial-id invariant |
| SqlStorage.UpdateKeepsSerial | server/storage.ts:110-120 | updating a row without changing its id keeps the invariant |
| SqlStorage.AppendKeepsSerial | server/storage.ts:68-74 | appending a row with the next serial id and advancing the counter keeps the invariant |
| SqlStorage.RowById | server/storage.ts:81-84 | a lookup by id finds a row with that id, or none exists |
| SqlStorage.WithStatus | server/storage.ts:113-116 | sets the status; a truthy assignee replaces the assignee; nothing else changes |
| SqlStorage.WithoutListing | server/storage.ts:164-168 | exactly the rows with other ids, in order and with multiplicities |
| SqlStorage.NearbyMatches | server/storage.ts:189-192 | exactly the vets whose address or location contains the text, in order |
| SqlStorage.Limit | server/storage.ts:193 | a negative limit throws; otherwise min(n, rows) of the rows, a sub-bag of them, all of them when they fit |
| SqlStorage.DatabaseStorage.constructor | server/storage.ts:50-55 | empty tables, every serial counter at 1, invariant holds |
| SqlStorage.DatabaseStorage.GetUser | server/storage.ts:58-61 | the user with that id, or none has it |
| SqlStorage.DatabaseStorage.GetUserByUsername | server/storage.ts:63-66 | the user with that name; none exactly when the name is not taken |
| SqlStorage.DatabaseStorage.CreateUser | server/storage.ts:68-74 | a taken name throws and changes nothing; otherwise the next serial id is used and the row appended |
| SqlStorage.DatabaseStorage.GetReportedAnimals | server/storage.ts:77-79 | every report, newest first |
| SqlStorage.DatabaseStorage.GetReportedAnimalById | server/storage.ts:81-84 | the report with that id, or none has it |
| SqlStorage.DatabaseStorage.GetReportedAnimalsByUser | server/storage.ts:86-92 | exactly the user's reports, newest first |
| SqlStorage.DatabaseStorage.GetReportedAnimalsByStatus | server/storage.ts:94-100 | exactly the reports with that status, newest first |
| SqlStorage.DatabaseStorage.CreateReportedAnimal | server/storage.ts:102-108 | an unknown reporter violates the foreign key and changes nothing; otherwise the fresh row is appended |
| SqlStorage.DatabaseStorage.UpdateReportedAnimalStatus | server/storage.ts:110-120 | the row with that id gets the new status (and a truthy assignee) and is returned; an unknown id changes nothing; an unknown assignee throws |
| SqlStorage.DatabaseStorage.GetAdoptableAnimals | server/storage.ts:123-129 | exactly the "available" listings, newest first |
| SqlStorage.DatabaseStorage.GetAdoptableAnimalById | server/storage.ts:131-137 | the listing with that id, or none has it |
| SqlStorage.DatabaseStorage.GetAdoptableAnimalsByNgo | server/storage.ts:139-145 | exactly the NGO's listings, newest first |
| SqlStorage.DatabaseStorage.CreateAdoptableAnimal | server/storage.ts:147-153 | the foreign key on the lister is checked the same way |
| SqlStorage.DatabaseStorage.UpdateAdoptableAnimalStatus | server/storage.ts:155-162 | the row with that id gets the new status; an unknown id changes nothing |
| SqlStorage.DatabaseStorage.DeleteAdoptableAnimal | server/storage.ts:164-169 | always true; the table loses exactly the rows with that id |
| SqlStorage.DatabaseStorage.GetVeterinarians | server/storage.ts:172-174 | every vet, in no promised order |
| SqlStorage.DatabaseStorage.GetVeterinarianById | server/storage.ts:176-182 | the vet with that id, or none has it |
| SqlStorage.DatabaseStorage.GetNearbyVeterinarians | server/storage.ts:185-194 | min(limit, matches) of the matching vets (limit 10 by default), a sub-bag of the matches; a negative limit fails; all matches when they fit |
| SqlStorage.DatabaseStorage.CreateVeterinarian | server/storage.ts:196-202 | appends the row under the next serial id |
| SqlStorage.RowByIdIsOnlyRow | server/storage.ts:131-137 | by unique serial ids, a found listing is the only row with that id |
| ApiRoutes.IsAuthenticated | server/routes.ts:30-35 | 401 exactly for an anonymous caller |
| ApiRoutes.IsNgo | server/routes.ts:38-43 | 403 exactly when the caller is not a signed-in NGO |
| ApiRoutes.ListReportedAnimals | server/routes.ts:53-66 | an NGO gets every report; any other caller gets only their own |
| ApiRoutes.GetReportedAnimal | server/routes.ts:68-82 | 401, then 500 for a non-numeric id, then 404, then 403 for someone else's report seen by a non-NGO, else 200 |
| ApiRoutes.OwnedPayload | server/routes.ts:87-91 | the body overridden by the caller under the owner key (`reportedById` here, `listedById` at routes.ts:152-156) and by the photo path |
| ApiRoutes.CreateReportedAnimal | server/routes.ts:84-98 | an invalid body is 400 and changes nothing; otherwise 201 with the stored row, only the reports table changes and only the report counter advances; report statuses stay declared |
| ApiRoutes.CreatedReportIsCallers | server/routes.ts:87-91 | a valid payload's row belongs to the caller, has the upload's photo or none, is pending and unassigned |
| ApiRoutes.IdParam | server/routes.ts:108 | `parseInt(req.params.id)` as a 32-bit integer column value: present exactly when the text parses to a number in range |
| ApiRoutes.IdParamOfIntToString | server/routes.ts:108 | every in-range id written in decimal is read back |
| ApiRoutes.UpdateReportedAnimalStatus | server/routes.ts:100-118 | 403, then 400 for an undeclared status, then 500 with nothing changed for an id that does not parse; for a good one, 404 exactly when no report has the id, and otherwise 200 exactly when the caller's id is 0 (falsy, so no assignee is set) or belongs to a user; the assignee becomes the caller when its id is non-zero; on 200 only the reports table changes and no counter moves |
| ApiRoutes.ApplyReportStatus | server/routes.ts:107-114 | for a declared status: 404 exactly when no report has the id; with a report, 200 exactly when the caller's id is 0 (falsy, so no assignee is set) or belongs to a user; the assignee becomes the caller when its id is non-zero; else 500 and nothing changes; only the reports table changes and no counter moves |
| ApiRoutes.ListAdoptableAnimals | server/routes.ts:121-128 | the storage's available listings, newest first, without sign-in |
| ApiRoutes.GetAdoptableAnimal | server/routes.ts:130-138 | 500 for a non-numeric id, 404 when missing, else the listing |
| ApiRoutes.ListNgoAdoptableAnimals | server/routes.ts:140-147 | 403 for non-NGOs; otherwise the caller's own listings |
| ApiRoutes.CreateAdoptableAnimal | server/routes.ts:149-163 | 403, then 400 for an invalid body, else 201 with the stored row; only the listings table changes and only the listing counter advances |
| ApiRoutes.UpdateAdoptableAnimalStatus | server/routes.ts:165-185 | 403, 400, then 500 with nothing changed for an id that does not parse, 404, 403 for another NGO's listing, else 200; only the owner's listing changes, no other table and no counter |
| ApiRoutes.DeleteAdoptableAnimal | server/routes.ts:187-202 | 403, then 500 with nothing changed for an id that does not parse, 404, 403 for another NGO's listing, else 204 and the listing is gone; no other table and no counter changes |
| ApiRoutes.QueryOr | server/routes.ts:207-208 | `q as string \|\| fallback` |
| ApiRoutes.ListVeterinarians | server/routes.ts:205-218 | 401 for anonymous callers; without a location every vet; with one, the limited nearby search, or 500 for a bad limit |
| ApiRoutes.DefaultVetLimit | server/routes.ts:208 | without a limit the nearby search returns at most ten vets |
| MemoryRoutes.IsAuthenticated | server/routes.js:32-37 | 401 exactly for anonymous callers |
| MemoryRoutes.IsNgo | server/routes.js:40-45 | 403 exactly unless the session's role is "ngo" |
| MemoryRoutes.FoundOr404 | server/routes.js:82-85 | 404 when nothing is found, else 200 with the record |
| JsValues.Spread | server/routes.js:97-105 | `{...a, ...b}` has the keys of both objects, b's values where b has the key and a's elsewhere |
| MemoryRoutes.ImagePaths | server/routes.js:94-95 | one "/uploads/" path per uploaded file, in order |
| MemoryRoutes.ReportPayload | server/routes.js:97-105 | the body overridden by reportedBy, images and coordinates |
| MemoryRoutes.AgeValue | server/routes.js:170 | the age is null exactly when parsing gives NaN or 0, and otherwise the truthy parsed number |
| JsText.ParseIntOfIntToString | server/routes.js:170 | `parseInt` reads back every integer written in decimal |
| MemoryRoutes.AgeOfNumberText | server/routes.js:170 | a non-zero number written as text keeps its value |
| MemoryRoutes.ListingPayload | server/routes.js:166-171 | the body overridden by ngoId, images and the parsed age |
| JsText.ParseInt | server/routes.js:170 | a parsed number needs at least one decimal digit in the text |
| JsText.Split | server/routes.js:246 | one more piece than there are separators |
| JsText.Trim | server/routes.js:246 | no longer than the text, and no white space at either end |
| MemoryRoutes.Services | server/routes.js:246 | a falsy value gives `[]`; a string gives one trimmed piece per comma-separated part; another truthy value throws "req.body.services.split is not a function" |
| JsText.JoinSplit | server/routes.js:246 | `split(',')` loses nothing: joining its pieces with commas gives the text back |
| JsText.SplitPartsAvoidSeparator | server/routes.js:246 | no piece of `split(',')` contains a comma |
| JsText.TrimSpec | server/routes.js:246 | `trim()` removes only white space, all of it at both ends |
| JsText.TrimIdempotent | server/routes.js:246 | trimming twice is trimming once |
| MemoryRoutes.ServicesAreTrimmedPieces | server/routes.js:246 | every service is comma-free and has no space at either end |
| MemoryRoutes.VetPayload | server/routes.js:240-247 | the body overridden by coordinates and services |
| MemoryRoutes.NearbyLimit | server/routes.js:219 | `parseInt(limit) \|\| 10` |
| MemoryRoutes.NearbyLimitDefaults | server/routes.js:219 | a missing, non-numeric or zero limit becomes 10 |
| MemoryRoutes.ListReportedAnimals | server/routes.js:52-59 | every report, for any signed-in caller |
| MemoryRoutes.ListOwnReportedAnimals | server/routes.js:61-68 | the caller's reports |
| MemoryRoutes.ListReportedAnimalsByStatus | server/routes.js:70-77 | the reports with that status |
| MemoryRoutes.GetReportedAnimal | server/routes.js:79-89 | 401, otherwise the report or 404 |
| MemoryRoutes.ListAdoptableAnimals | server/routes.js:130-137 | 200 with the listing collection as it stands, `[]` without a store, without sign-in |
| MemoryRoutes.ListNgoAdoptableAnimals | server/routes.js:139-146 | 403 for non-NGOs, else the caller's listings |
| MemoryRoutes.GetAdoptableAnimal | server/routes.js:148-158 | 200 exactly when some listing is the first whose id text matches, and then with that listing; otherwise 404 "Animal not found" |
| MemoryRoutes.ListVeterinarians | server/routes.js:207-214 | 200 with the vet collection as it stands, `[]` without a store |
| MemoryRoutes.ListNearbyVeterinarians | server/routes.js:216-224 | the nearby vets under the parsed-or-10 limit |
| MemoryRoutes.GetVeterinarian | server/routes.js:226-236 | 200 exactly when some vet is the first whose id text matches, and then with that vet; otherwise 404 "Veterinarian not found" |
| MemoryRoutes.CreateReportedAnimal | server/routes.js:91-112 | 401; 500 without a store; else 201 with the stored payload appended; the id counter never moves |
| MemoryRoutes.UpdateReportedAnimalStatus | server/routes.js:114-127 | a truthy `assignedToId` or null is passed on; 404 when the update returns nothing; the id counter never moves |
| MemoryRoutes.CreateAdoptableAnimal | server/routes.js:160-178 | 403; 500 without a store; else 201 with the stored listing; the id counter never moves |
| MemoryRoutes.UpdateAdoptableAnimalStatus | server/routes.js:180-192 | 403; 404 when nothing was updated; else 200; the id counter never moves |
| MemoryRoutes.DeleteAdoptableAnimal | server/routes.js:194-204 | 403; 204 exactly when a listing was removed, else 404; the id counter never moves |
| MemoryRoutes.CreateVeterinarian | server/routes.js:238-254 | 401; 500 without a store; a non-string truthy services value is 500 with the TypeError's message and stores nothing; else 201; the id counter never moves |
| JsText.JsLength | client/src/pages/auth-page.tsx:17 | `length` in UTF-16 code units: between one and two per character, one each when no character lies beyond U+FFFF |
| FormChecks.MinLength | client/src/pages/auth-page.tsx:17 | a `min(n, message)` rule yields no issue exactly when the text has at least n UTF-16 code units, else one issue with that message at that path |
| FormChecks.OneOf | client/src/pages/auth-page.tsx:24 | a `z.enum` rule yields no issue exactly when the text is one of the options, else one issue at that path |
| AuthPage.AuthForms.constructor | client/src/pages/auth-page.tsx:39-55 | empty error maps and the initial registration data with role "user" |
| AuthPage.LoginIssues | client/src/pages/auth-page.tsx:16-19 | no issue exactly when username has at least 3 and password at least 6 characters |
| AuthPage.RegisterIssues | client/src/pages/auth-page.tsx:22-30 | no issue exactly when fullName ≥ 2, username ≥ 3, role declared, confirmation ≥ 6 and both passwords equal |
| AuthPage.AcceptedPasswordIsLong | client/src/pages/auth-page.tsx:22-30 | an accepted registration's password has at least 6 characters |
| AuthPage.LastIssueWins | client/src/pages/auth-page.tsx:79-85 | a key has an error exactly when some issue names it, and the shown message is the last such issue's |
| AuthPage.CollectErrors | client/src/pages/auth-page.tsx:79-85 | the loop builds exactly the error map of the issues |
| AuthPage.MismatchIsShown | client/src/pages/auth-page.tsx:27-30 | differing passwords always show "Passwords do not match" on the confirmation field |
| AuthPage.WithoutConfirmation | client/src/pages/auth-page.tsx:117 | the payload carries every form field but the confirmation |
| AuthPage.RequestBody | client/src/pages/auth-page.tsx:117-118 | the sent body has no confirmPassword |
| AuthPage.AcceptedRegistrationIsInsertable | client/src/pages/auth-page.tsx:101-118 | what the form accepts, the insert-user schema accepts with the same name, password and role |
| AuthPage.AuthForms.HandleLoginSubmit | client/src/pages/auth-page.tsx:69-94 | errors shown and nothing sent on failure; errors cleared and credentials sent on success |
| AuthPage.AuthForms.HandleRegisterSubmit | client/src/pages/auth-page.tsx:97-119 | the same for registration, sending the form without confirmation |
| AuthPage.SignedInRedirect | client/src/pages/auth-page.tsx:58-66 | an NGO goes to /ngo/dashboard, anyone else to /dashboard, nobody signed in stays |
| AuthPage.RedirectTargetRenders | client/src/pages/auth-page.tsx:58-66 | the redirect target renders under the route guard |
| ReportForm.ReportFormState.constructor | client/src/components/report-form.tsx:53-64 | the default values, no file chosen, not submitting, no lookup pending |
| ReportForm.FormIssues | client/src/components/report-form.tsx:39-46 | valid exactly when animalType is non-empty, urgency declared, description ≥ 10 and location ≥ 3 |
| ReportForm.DefaultsAreRejected | client/src/components/report-form.tsx:59-64 | the defaults fail on animalType, description and location, not urgency |
| ReportForm.EntriesOrder | client/src/components/report-form.tsx:108-117 | the field order, then reportedById, then photo only when a file was chosen |
| ReportForm.ReportFormState.HandleGetLocation | client/src/components/report-form.tsx:67-90 | `isGettingLocation` is set during the lookup and cleared afterwards; a reported error clears the location, an address fills it, a failed lookup leaves it; the toast follows |
| ReportForm.ReportFormState.HandleFileChange | client/src/components/report-form.tsx:92-96 | the first chosen file, if any, becomes the selection |
| ReportForm.ReportFormState.HandleSubmit | client/src/components/report-form.tsx:98-134 | invalid values or no user send nothing; otherwise the fields, reporter and chosen photo are posted with isSubmitting set; onSuccess follows exactly an ok response and onError otherwise gets "Error: " and the status |
| AdoptionForm.AdoptionFormState.constructor | client/src/components/adoption-form.tsx:50-63 | the default values, no file chosen, not submitting |
| AdoptionForm.FormIssues | client/src/components/adoption-form.tsx:33-44 | valid exactly when name, animalType and age are non-empty, gender and vaccination declared, description ≥ 10 |
| AdoptionForm.DefaultsAreRejected | client/src/components/adoption-form.tsx:56-63 | the defaults fail on the text fields only |
| AdoptionForm.ListingEntries | client/src/components/adoption-form.tsx:82-91 | the six fields in schema order, then listedById, then photo only when chosen |
| AdoptionForm.AdoptionFormState.HandleFileChange | client/src/components/adoption-form.tsx:66-70 | the first chosen file, if any, becomes the selection |
| AdoptionForm.AdoptionFormState.HandleSubmit | client/src/components/adoption-form.tsx:72-110 | no user or invalid values send nothing; otherwise the body is posted, isSubmitting is set during the request and false afterwards, and onSuccess follows exactly an ok response |
| AdoptionForm.AcceptedEnumsParse | client/src/components/adoption-form.tsx:36-42 | accepted gender and vaccination texts parse as the server's enums |
| FileUpload.PrecheckError | client/src/lib/file-upload.ts:2-16 | no file, then the type allow-list, then the size cap, in that order |
| FileUpload.SizeLimitIsInclusive | client/src/lib/file-upload.ts:13-16 | exactly 5 MiB passes and one byte more fails |
| FileUpload.FieldEntriesArePresentFields | client/src/lib/file-upload.ts:23-27 | the extra entries are the fields that are neither undefined nor null, in order, as text |
| FileUpload.ResponseOutcome | client/src/lib/file-upload.ts:36-41 | ok gives the body; otherwise the error is the text, or "Error: status" when it is empty |
| FileUpload.UploadFile | client/src/lib/file-upload.ts:1-42 | a failed check rejects before any request; otherwise the photo is followed by the present fields and the response decides the outcome |
| ReportedAnimalsPage.TableRows | client/src/pages/ngo/reported-animals.tsx:18-22 | `[]` before data arrives; otherwise exactly the reports matching the active filters, as an ordered subsequence |
| ReportedAnimalsPage.UnfilteredShowsAll | client/src/pages/ngo/reported-animals.tsx:19-21 | with both filters null every report is shown |
| ReportedAnimalsPage.Toggle | client/src/pages/ngo/reported-animals.tsx:40-72 | pressing the selected value clears it, any other value selects it |
| ReportedAnimalsPage.Press | client/src/pages/ngo/reported-animals.tsx:33-72 | "All" resets only the status filter; each button leaves the other filter alone |
| ReportedAnimalsPage.ClicksStayReachable | client/src/pages/ngo/reported-animals.tsx:10-75 | any sequence of clicks keeps each filter null or one of its button values |
| ReportedAnimalsPage.SelectedStatusShowsOnlyIt | client/src/pages/ngo/reported-animals.tsx:19-72 | after selecting a status, every row has that status |
| AdoptionsPage.FilteredAnimals | client/src/pages/user/adoptions.tsx:17-24 | exactly the listings whose name, type or description contains the term regardless of case, in order |
| AdoptionsPage.EmptySearchKeepsAll | client/src/pages/user/adoptions.tsx:18-23 | an empty term keeps every listing |
| JsText.IncludesIffOccurs | client/src/pages/user/adoptions.tsx:21-23 | `includes` holds exactly when the term occurs at some position of the text |
| JsText.Includes | client/src/pages/user/adoptions.tsx:21-23 | the empty term is included in every text, and an included term is no longer than the text |
| JsText.ToLower | client/src/pages/user/adoptions.tsx:18 | same length, no capital letter left, every other character unchanged |
| JsText.ToLowerIdempotent | client/src/pages/user/adoptions.tsx:18 | lower-casing twice is lower-casing once |
| AdoptionsPage.SearchIgnoresCase | client/src/pages/user/adoptions.tsx:18 | terms equal up to case give the same result |
| AdoptionsPage.LowerCasedSearchIsSame | client/src/pages/user/adoptions.tsx:18 | lower-casing the term changes nothing |
| AdoptionsPage.PageView | client/src/pages/user/adoptions.tsx:44-63 | spinner while loading, cards when something matches, else a message depending only on whether a term was typed |
| ProtectedRoute.RouteScreen | client/src/lib/protected-route.tsx:16-39 | spinner while loading; /auth without a user; /dashboard for non-NGOs on /ngo paths; /ngo/dashboard for NGOs elsewhere but "/"; renders exactly in the remaining cases |
| ProtectedRoute.RedirectsSettle | client/src/lib/protected-route.tsx:30-39 | a signed-in user's redirect target renders, so there are no redirect loops |
| ReportedAnimalTable.FormatTimeSince | client/src/components/reported-animal-table.tsx:63-79 | under an hour the whole minutes, under a day the whole hours, else the whole days |
| ReportedAnimalTable.SingularIffOne | client/src/components/reported-animal-table.tsx:73-77 | the singular unit is used exactly when the count is 1 |
| ReportedAnimalTable.FormatCountsWholeUnits | client/src/components/reported-animal-table.tsx:63-79 | minutes under an hour, hours under a day, days beyond, each counting the whole units elapsed |
| ReportedAnimalTable.Boundaries | client/src/components/reported-animal-table.tsx:68-77 | 59 minutes gives "59 minutes ago", one hour "1 hour ago", one day "1 day ago" |
| ReportedAnimalTable.Capitalize | client/src/components/reported-animal-table.tsx:140 | the first character upper-cased and the rest unchanged |
| ReportedAnimalTable.CapitalizeKeepsLetters | client/src/components/reported-animal-table.tsx:140 | the label equals the status up to letter case |
| ReportedAnimalTable.StatusTable.constructor | client/src/components/reported-animal-table.tsx:33 | no row is being updated |
| ReportedAnimalTable.StatusTable.SelectDisabled | client/src/components/reported-animal-table.tsx:128 | when a row's select is disabled, no other row is being updated |
| ReportedAnimalTable.StatusTable.HandleStatusChange | client/src/components/reported-animal-table.tsx:43-61 | isUpdating holds the id during the request and is null afterwards, so every select is enabled again; the outcome picks the toast and the refetch |

## Left out

- I/O is not modelled: HTTP, Express, multer's disk storage, `express.static`, the session stores and `fetch`. A response is an input, and an uploaded file is its name.
- The real MongoDB (Mongoose) branches of server/storage.js and the Postgres driver behind server/storage.ts are left out. Only the meaning of the queries is modelled.
- `generateId` and `new Date()` are left out. They are parameters (`freshId`, `now`), and uniqueness of ids is a precondition where it is needed.
- `parseFloat` coordinates are left out: floating point is not modelled, so the coordinates object has an opaque text.
- `parseInt` without a radix is modelled with leading white space, an optional sign, `0x`/`0X` read in base 16 and decimal otherwise; the loss of precision beyond 2^53 is not modelled.
- client/src/lib/geolocation.ts is not part of this model. A lookup result is an input.
- `toLowerCase` and `toUpperCase` are modelled for ASCII letters only.
- ApiRoutes.IdParam: an id outside the 32-bit `serial` range is answered with 500, as Postgres refuses it; a number beyond 2^53, which `parseInt` rounds, is not distinguished.
- SQL `LIKE` is modelled as a case-sensitive substring test; `%` and `_` inside the searched text are not treated as wildcards.
- Serial sequences are not consumed by failed inserts. Ids that Postgres would skip are not modelled.
- A non-numeric id or limit in a typed route is modelled as a database error, answered with 500.
- Async scheduling, React state batching and rendering are left out; handlers run as sequential calls.
- The `InMemoryModel` binding of static methods is left out; only the matching predicates are modelled.
- Strict equality `===` on objects and arrays is modelled as value equality, not reference identity.
- Unknown properties of a JavaScript object read as `undefined`; prototype properties are not modelled.
- The JSON parsing of `response.json()` is left out: a successful upload resolves to the body text.
- Registration input-change handlers on the auth page are left out; the form state is an input to each submit.
- SqlStorage.DatabaseStorage.GetVeterinarians: states only that every vet is returned, because a query without `ORDER BY` promises no order.
- ReportForm.ReportFormState.HandleSubmit: it sets the parent's `isSubmitting` and does not reset it, as the component does; the parent's `onError` resets it, and that part is not modelled.
- MemoryStorage.NewStatusRecord: `createdAt` and `updatedAt` come from two `new Date()` readings (for reports and for listings), which the model merges into one `now`.
- SqlStorage.Limit: without an `ORDER BY` the database may choose any `n` rows; the model takes the first `n` in table order.
- SqlStorage.DatabaseStorage.GetReportedAnimals: storage.ts orders by `createdAt`, which the reports table does not declare (JavaScript reads it as `undefined`); the model orders by the declared `reportedAt`.
- SqlStorage.DatabaseStorage.GetReportedAnimalsByUser: storage.ts filters on `reportedBy` and orders by `createdAt`, which are not declared columns; the model uses `reportedById` and `reportedAt`.
- SqlStorage.DatabaseStorage.GetReportedAnimalsByStatus: storage.ts orders by `createdAt`, not a declared column of reports; the model orders by `reportedAt`.
- SqlStorage.DatabaseStorage.GetAdoptableAnimals: storage.ts orders by `createdAt`, not a declared column of listings; the model uses `listedAt`.
- SqlStorage.DatabaseStorage.GetAdoptableAnimalsByNgo: storage.ts filters on `listedBy` and orders by `createdAt`, not declared columns; the model uses `listedById` and `listedAt`.
- SqlStorage.DatabaseStorage.GetNearbyVeterinarians: storage.ts searches `city`, not a declared column of vets; the model searches `location`.
- SqlStorage.DatabaseStorage.UpdateReportedAnimalStatus: storage.ts sets `assignedTo`, not a declared column; the model sets `assignedToId`.
- ApiRoutes.CreateReportedAnimal: the 400 reply's `error` field, the `String(error)` of the schema or driver error, is not modelled; the reply carries only `message`.
- ApiRoutes.CreateAdoptableAnimal: the 400 reply's `error` field, the `String(error)` of the schema or driver error, is not modelled; the reply carries only `message`.
- MemoryRoutes.ImagePaths: takes any number of files; multer's `upload.array('images', 5)` rejects a sixth file before the handler runs, and that rejection is not modelled.
- ReportForm.ReportFormState.HandleSubmit and AdoptionForm.AdoptionFormState.HandleSubmit receive a response; a rejected `fetch` (a network error) and the paths it takes through the forms' `catch` blocks are not modelled.
- MemoryStorage getters by id (`getUser`, `getReportedAnimalById`, `getAdoptableAnimalById`, `getVeterinarianById`) are `FindByIdOrUndefined` on their collection and carry no contract of their own.
