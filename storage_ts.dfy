/** server/storage.ts: `DatabaseStorage`, whose every method is one query
    on the relational tables of shared/schema.ts. The tables are sequences
    of rows in insertion order; each `serial` column draws from its own
    counter. A read is the meaning of its select/where/orderBy/limit; an
    insert, update or delete changes one table and nothing else. */
module SqlStorage {
  import opened JsText
  import opened JsValues
  import opened Schema

  // ---------------------------------------------------------------------
  // `orderBy(desc(...))`
  // ---------------------------------------------------------------------

  /** Each row is at least as recent as every row after it. */
  predicate NewestFirstOrder<T>(s: seq<T>, time: T -> int) {
    forall i, j :: 0 <= i < j < |s| ==> time(s[i]) >= time(s[j])
  }

  /** Places `x` in front of the first row that is not more recent. */
  function InsertByTime<T>(x: T, s: seq<T>, time: T -> int): (r: seq<T>)
    requires NewestFirstOrder(s, time)
    ensures NewestFirstOrder(r, time)
    ensures multiset(r) == multiset(s) + multiset{x}
    ensures |r| == |s| + 1 && (r[0] == x || (|s| > 0 && r[0] == s[0]))
  {
    if |s| == 0 || time(x) >= time(s[0]) then [x] + s
    else
      var t := InsertByTime(x, s[1..], time);
      assert s == [s[0]] + s[1..];
      [s[0]] + t
  }

  /** The rows of `s` ordered from the most to the least recent. */
  function NewestFirst<T>(s: seq<T>, time: T -> int): (r: seq<T>)
    ensures NewestFirstOrder(r, time)
    ensures multiset(r) == multiset(s)
  {
    if |s| == 0 then []
    else
      assert s == [s[0]] + s[1..];
      InsertByTime(s[0], NewestFirst(s[1..], time), time)
  }

  function ReportTime(r: ReportedAnimal): int { r.reportedAt }
  function ListingTime(a: AdoptableAnimal): int { a.listedAt }
  function UserId(u: User): int { u.id }
  function ReportId(r: ReportedAnimal): int { r.id }
  function ListingId(a: AdoptableAnimal): int { a.id }
  function VetId(v: Veterinarian): int { v.id }

  /** Ids drawn from a `serial` counter now at `next`: positive, below
      `next`, and increasing in insertion order (hence distinct). */
  predicate SerialIds<T>(rows: seq<T>, id: T -> int, next: int) {
    && next >= 1
    && (forall i :: 0 <= i < |rows| ==> 1 <= id(rows[i]) < next)
    && (forall i, j :: 0 <= i < j < |rows| ==> id(rows[i]) < id(rows[j]))
  }

  /** A row drawn from a serial counter is the only one with its id. */
  lemma SerialIdsUnique<T>(rows: seq<T>, id: T -> int, next: int, i: nat, j: nat)
    requires SerialIds(rows, id, next) && i < |rows| && j < |rows|
    requires id(rows[i]) == id(rows[j])
    ensures i == j
  {
  }

  /** Dropping the first row keeps the ids serial. */
  lemma SerialTail<T>(rows: seq<T>, id: T -> int, next: int)
    requires SerialIds(rows, id, next) && |rows| > 0
    ensures SerialIds(rows[1..], id, next)
    ensures forall k :: 0 <= k < |rows| - 1 ==> id(rows[0]) < id(rows[1..][k])
  {
    var tail := rows[1..];
    forall i, j | 0 <= i < j < |tail| ensures id(tail[i]) < id(tail[j]) {
      assert tail[i] == rows[i + 1] && tail[j] == rows[j + 1];
    }
    forall k | 0 <= k < |tail| ensures id(rows[0]) < id(tail[k]) {
      assert tail[k] == rows[k + 1];
    }
  }

  /** A row with a smaller id than all the rows of a serial sequence can be
      put in front of it. */
  lemma SerialCons<T>(x: T, rows: seq<T>, id: T -> int, next: int)
    requires SerialIds(rows, id, next) && 1 <= id(x) < next
    requires forall k :: 0 <= k < |rows| ==> id(x) < id(rows[k])
    ensures SerialIds([x] + rows, id, next)
  {
    var s := [x] + rows;
    forall a, b | 0 <= a < b < |s| ensures id(s[a]) < id(s[b]) {
      assert s[b] == rows[b - 1];
      if a > 0 {
        assert s[a] == rows[a - 1];
      }
    }
  }

  /** Deleting rows keeps the remaining ids serial. */
  lemma {:induction false} FilterKeepsSerial<T>(rows: seq<T>, id: T -> int, next: int, p: T -> bool)
    requires SerialIds(rows, id, next)
    ensures SerialIds(Filter(rows, p), id, next)
  {
    if |rows| > 0 {
      var tail := rows[1..];
      SerialTail(rows, id, next);
      FilterKeepsSerial(tail, id, next, p);
      var f := Filter(tail, p);
      if p(rows[0]) {
        forall k | 0 <= k < |f| ensures id(rows[0]) < id(f[k]) {
          assert f[k] in tail;
        }
        SerialCons(rows[0], f, id, next);
        assert Filter(rows, p) == [rows[0]] + f;
      } else {
        assert Filter(rows, p) == f;
      }
    }
  }

  /** Replacing a row by one with the same id keeps the ids serial. */
  lemma UpdateKeepsSerial<T>(rows: seq<T>, id: T -> int, next: int, i: nat, v: T)
    requires SerialIds(rows, id, next) && i < |rows| && id(v) == id(rows[i])
    ensures SerialIds(rows[i := v], id, next)
  {
    var s := rows[i := v];
    forall a, b | 0 <= a < b < |s| ensures id(s[a]) < id(s[b]) {
      assert id(s[a]) == id(rows[a]) && id(s[b]) == id(rows[b]);
    }
  }

  /** An insert draws the counter's value: the ids stay serial under the
      incremented counter. */
  lemma AppendKeepsSerial<T>(rows: seq<T>, id: T -> int, next: int, v: T)
    requires SerialIds(rows, id, next) && id(v) == next
    ensures SerialIds(rows + [v], id, next + 1)
  {
    var s := rows + [v];
    forall a, b | 0 <= a < b < |s| ensures id(s[a]) < id(s[b]) {
      if b < |rows| {
        assert s[a] == rows[a] && s[b] == rows[b];
      } else {
        assert s[a] == rows[a];
      }
    }
  }

  /** Some user row has this id: what a foreign key to `users.id` demands. */
  predicate IsUserId(users: seq<User>, id: int) {
    exists u :: u in users && u.id == id
  }

  predicate UsernameTaken(users: seq<User>, username: string) {
    exists u :: u in users && u.username == username
  }

  /** Adding a user with a new name keeps user names unique and keeps every
      existing foreign key pointing at a user. */
  lemma AddUserKeepsLinks(users: seq<User>, row: User)
    requires forall i, j :: 0 <= i < j < |users| ==> users[i].username != users[j].username
    requires !UsernameTaken(users, row.username)
    ensures forall i, j :: 0 <= i < j < |users + [row]| ==> (users + [row])[i].username != (users + [row])[j].username
    ensures forall id :: IsUserId(users, id) ==> IsUserId(users + [row], id)
  {
    var s := users + [row];
    forall i, j | 0 <= i < j < |s| ensures s[i].username != s[j].username {
      assert s[i] == users[i];
      if j == |users| {
        assert s[i] in users;
      } else {
        assert s[j] == users[j];
      }
    }
    forall id | IsUserId(users, id) ensures IsUserId(s, id) {
      var u :| u in users && u.id == id;
      assert u in s;
    }
  }

  /** `eq(column, value)` on the row matching an id, as `[row] || undefined`. */
  function RowById<T>(rows: seq<T>, id: T -> int, key: int): (r: Option<T>)
    ensures r.Some? ==> id(r.value) == key && r.value in rows
    ensures r.None? ==> forall i :: 0 <= i < |rows| ==> id(rows[i]) != key
  {
    match FirstWhere(rows, x => id(x) == key)
    case Some(i) => Some(rows[i])
    case None => None
  }

  /** The reported animal after `update(...).set({ status, ...(assignedToId ?
      { assignedTo: assignedToId } : {}) })`: a falsy assignee (absent or 0)
      leaves the assignment as it was. */
  function WithStatus(r: ReportedAnimal, status: string, assignedToId: Option<int>): (u: ReportedAnimal)
    ensures u.status == status && u.id == r.id && u.reportedById == r.reportedById
    ensures u.assignedToId == (if assignedToId.Some? && assignedToId.value != 0 then assignedToId else r.assignedToId)
    ensures u.(status := r.status, assignedToId := r.assignedToId) == r
  {
    r.(status := status, assignedToId := if assignedToId.Some? && assignedToId.value != 0 then assignedToId else r.assignedToId)
  }

  /** What `delete(adoptableAnimals).where(eq(id, ...))` leaves. */
  function WithoutListing(rows: seq<AdoptableAnimal>, id: int): (r: seq<AdoptableAnimal>)
    ensures IsSubsequence(r, rows)
    ensures forall i :: 0 <= i < |r| ==> r[i].id != id
    ensures forall i :: 0 <= i < |rows| && rows[i].id != id ==> rows[i] in r
    ensures forall x :: multiset(r)[x] == if x.id != id then multiset(rows)[x] else 0
    ensures forall x :: x in r ==> x in rows
  {
    var p := (a: AdoptableAnimal) => a.id != id;
    FilterIsSubsequence(rows, p);
    FilterMultiset(rows, p);
    Filter(rows, p)
  }

  /** Deleting listings keeps the serial-id invariant of the table. */
  lemma WithoutListingKeepsSerial(rows: seq<AdoptableAnimal>, next: int, id: int)
    requires SerialIds(rows, ListingId, next)
    ensures SerialIds(WithoutListing(rows, id), ListingId, next)
  {
    FilterKeepsSerial(rows, ListingId, next, (a: AdoptableAnimal) => a.id != id);
  }

  /** `like(column, '%' + text + '%')`, read as a plain substring test. */
  predicate Like(column: string, text: string) {
    Includes(column, text)
  }

  /** The vets whose address or location contains the text, in table order. */
  function NearbyMatches(vets: seq<Veterinarian>, location: string): (r: seq<Veterinarian>)
    ensures IsSubsequence(r, vets)
    ensures forall i :: 0 <= i < |r| ==> Like(r[i].address, location) || Like(r[i].location, location)
    ensures forall i :: 0 <= i < |vets| && (Like(vets[i].address, location) || Like(vets[i].location, location)) ==> vets[i] in r
  {
    var p := (v: Veterinarian) => Like(v.address, location) || Like(v.location, location);
    FilterIsSubsequence(vets, p);
    Filter(vets, p)
  }

  /** `.limit(n)`: `n` of the rows, or all of them when fewer; PostgreSQL
      refuses a negative limit. Without an `ORDER BY` the database picks the
      rows; the model takes the first `n` in table order. */
  function Limit<T>(rows: seq<T>, n: int): (r: Outcome<seq<T>>)
    ensures n < 0 <==> r.Thrown?
    ensures r.Ok? ==> |r.value| == (if n < |rows| then n else |rows|)
    ensures r.Ok? ==> multiset(r.value) <= multiset(rows)
    ensures r.Ok? && |rows| <= n ==> r.value == rows
    ensures r.Ok? ==> r.value <= rows
  {
    if n < 0 then Thrown("LIMIT must not be negative")
    else if |rows| <= n then Ok(rows)
    else
      assert rows == rows[..n] + rows[n..];
      Ok(rows[..n])
  }

  class DatabaseStorage {
    var users: seq<User>
    var reportedAnimals: seq<ReportedAnimal>
    var adoptableAnimals: seq<AdoptableAnimal>
    var veterinarians: seq<Veterinarian>
    var nextUserId: int
    var nextReportId: int
    var nextListingId: int
    var nextVetId: int

    /** The table constraints: serial primary keys, a unique username, and
        the foreign keys to `users.id`. */
    ghost predicate Valid()
      reads this
    {
      && SerialIds(users, UserId, nextUserId)
      && SerialIds(reportedAnimals, ReportId, nextReportId)
      && SerialIds(adoptableAnimals, ListingId, nextListingId)
      && SerialIds(veterinarians, VetId, nextVetId)
      && (forall i, j :: 0 <= i < j < |users| ==> users[i].username != users[j].username)
      && (forall r :: r in reportedAnimals ==>
            IsUserId(users, r.reportedById) && (r.assignedToId.Some? ==> IsUserId(users, r.assignedToId.value)))
      && (forall a :: a in adoptableAnimals ==> IsUserId(users, a.listedById))
    }

    /** Empty tables, every sequence at 1. */
    constructor ()
      ensures Valid()
      ensures users == [] && reportedAnimals == [] && adoptableAnimals == [] && veterinarians == []
      ensures nextUserId == 1 && nextReportId == 1 && nextListingId == 1 && nextVetId == 1
    {
      users, reportedAnimals, adoptableAnimals, veterinarians := [], [], [], [];
      nextUserId, nextReportId, nextListingId, nextVetId := 1, 1, 1, 1;
    }

    // -------------------------------------------------------------------
    // Users
    // -------------------------------------------------------------------

    /** `getUser(id)`: the row with that id, or `undefined`. */
    function GetUser(id: int): (r: Option<User>)
      reads this
      ensures r.Some? ==> r.value in users && r.value.id == id
      ensures r.None? ==> forall u :: u in users ==> u.id != id
    {
      RowById(users, UserId, id)
    }

    /** `getUserByUsername(username)`: the row with that username, or `undefined`. */
    function GetUserByUsername(username: string): (r: Option<User>)
      reads this
      ensures r.Some? ==> r.value in users && r.value.username == username
      ensures r.None? <==> !UsernameTaken(users, username)
    {
      match FirstWhere(users, (u: User) => u.username == username)
      case Some(i) => Some(users[i])
      case None => None
    }

    /** `createUser(user)`: inserts the row under the next serial id; a taken
        username violates the unique constraint and nothing changes. */
    method CreateUser(u: InsertUser) returns (r: Outcome<User>)
      requires Valid()
      modifies this
      ensures Valid()
      ensures UsernameTaken(old(users), u.username) ==> r.Thrown? && unchanged(this)
      ensures !UsernameTaken(old(users), u.username) ==>
        && r == Ok(UserRow(old(nextUserId), u))
        && users == old(users) + [r.value] && nextUserId == old(nextUserId) + 1
        && reportedAnimals == old(reportedAnimals) && adoptableAnimals == old(adoptableAnimals)
        && veterinarians == old(veterinarians)
        && nextReportId == old(nextReportId) && nextListingId == old(nextListingId) && nextVetId == old(nextVetId)
    {
      if UsernameTaken(users, u.username) {
        return Thrown("duplicate key value violates unique constraint");
      }
      var row := UserRow(nextUserId, u);
      AppendKeepsSerial(users, UserId, nextUserId, row);
      AddUserKeepsLinks(users, row);
      users := users + [row];
      nextUserId := nextUserId + 1;
      r := Ok(row);
    }

    // -------------------------------------------------------------------
    // Reported animals
    // -------------------------------------------------------------------

    /** `getReportedAnimals()`: every report, newest first. */
    function GetReportedAnimals(): (r: seq<ReportedAnimal>)
      reads this
      ensures NewestFirstOrder(r, ReportTime)
      ensures multiset(r) == multiset(reportedAnimals)
    {
      NewestFirst(reportedAnimals, ReportTime)
    }

    /** `getReportedAnimalById(id)` */
    function GetReportedAnimalById(id: int): (r: Option<ReportedAnimal>)
      reads this
      ensures r.Some? ==> r.value in reportedAnimals && r.value.id == id
      ensures r.None? ==> forall a :: a in reportedAnimals ==> a.id != id
    {
      RowById(reportedAnimals, ReportId, id)
    }

    /** `getReportedAnimalsByUser(userId)`: exactly the reports of that user,
        newest first. */
    function GetReportedAnimalsByUser(userId: int): (r: seq<ReportedAnimal>)
      reads this
      ensures NewestFirstOrder(r, ReportTime)
      ensures forall x :: multiset(r)[x] == if x.reportedById == userId then multiset(reportedAnimals)[x] else 0
    {
      var p := (a: ReportedAnimal) => a.reportedById == userId;
      FilterMultiset(reportedAnimals, p);
      NewestFirst(Filter(reportedAnimals, p), ReportTime)
    }

    /** `getReportedAnimalsByStatus(status)`: exactly the reports with that
        status, newest first. */
    function GetReportedAnimalsByStatus(status: string): (r: seq<ReportedAnimal>)
      reads this
      ensures NewestFirstOrder(r, ReportTime)
      ensures forall x :: multiset(r)[x] == if x.status == status then multiset(reportedAnimals)[x] else 0
    {
      var p := (a: ReportedAnimal) => a.status == status;
      FilterMultiset(reportedAnimals, p);
      NewestFirst(Filter(reportedAnimals, p), ReportTime)
    }

    /** `createReportedAnimal(animal)`: inserts the row, reported at `now`, with
        the default status and no assignee; a reporter that is not a user
        violates the foreign key and nothing changes. */
    method CreateReportedAnimal(a: InsertReportedAnimal, now: Timestamp) returns (r: Outcome<ReportedAnimal>)
      requires Valid()
      modifies this
      ensures Valid()
      ensures !IsUserId(old(users), a.reportedById) ==> r.Thrown? && unchanged(this)
      ensures IsUserId(old(users), a.reportedById) ==>
        && r == Ok(ReportRow(old(nextReportId), now, a))
        && reportedAnimals == old(reportedAnimals) + [r.value] && nextReportId == old(nextReportId) + 1
        && users == old(users) && adoptableAnimals == old(adoptableAnimals) && veterinarians == old(veterinarians)
        && nextUserId == old(nextUserId) && nextListingId == old(nextListingId) && nextVetId == old(nextVetId)
    {
      if !IsUserId(users, a.reportedById) {
        return Thrown("violates foreign key constraint");
      }
      var row := ReportRow(nextReportId, now, a);
      AppendKeepsSerial(reportedAnimals, ReportId, nextReportId, row);
      reportedAnimals := reportedAnimals + [row];
      nextReportId := nextReportId + 1;
      r := Ok(row);
    }

    /** `updateReportedAnimalStatus(id, status, assignedToId?)`: the row with the
        id gets the status, and the assignee when `assignedToId` is truthy;
        `undefined` and no change when no row has the id. An assignee that is
        not a user violates the foreign key and nothing changes. */
    method UpdateReportedAnimalStatus(id: int, status: string, assignedToId: Option<int>)
      returns (r: Outcome<Option<ReportedAnimal>>)
      requires Valid()
      modifies this
      ensures Valid()
      ensures users == old(users) && adoptableAnimals == old(adoptableAnimals) && veterinarians == old(veterinarians)
      ensures nextUserId == old(nextUserId) && nextReportId == old(nextReportId)
      ensures nextListingId == old(nextListingId) && nextVetId == old(nextVetId)
      ensures !(r.Ok? && r.value.Some?) ==> unchanged(this)
      ensures match FirstWhere(old(reportedAnimals), (x: ReportedAnimal) => x.id == id)
        case None => r == Ok(None) && reportedAnimals == old(reportedAnimals)
        case Some(i) =>
          var updated := WithStatus(old(reportedAnimals)[i], status, assignedToId);
          if updated.assignedToId.Some? && !IsUserId(users, updated.assignedToId.value) then
            r.Thrown? && reportedAnimals == old(reportedAnimals)
          else
            r == Ok(Some(updated)) && reportedAnimals == old(reportedAnimals)[i := updated]
    ensures r.Ok? && r.value.Some? ==>
      exists i :: 0 <= i < |old(reportedAnimals)| && old(reportedAnimals)[i].id == id
        && r.value.value == WithStatus(old(reportedAnimals)[i], status, assignedToId)
        && reportedAnimals == old(reportedAnimals)[i := r.value.value]
    ensures r == Ok(None) <==> forall x :: x in old(reportedAnimals) ==> x.id != id
    ensures (exists x :: x in old(reportedAnimals) && x.id == id) ==>
      (r.Ok? <==> (assignedToId.Some? && assignedToId.value != 0 ==> IsUserId(users, assignedToId.value)))
    {
      match FirstWhere(reportedAnimals, (x: ReportedAnimal) => x.id == id)
      case None =>
        r := Ok(None);
      case Some(i) =>
        var updated := WithStatus(reportedAnimals[i], status, assignedToId);
        if updated.assignedToId.Some? && !IsUserId(users, updated.assignedToId.value) {
          return Thrown("violates foreign key constraint");
        }
        UpdateKeepsSerial(reportedAnimals, ReportId, nextReportId, i, updated);
        reportedAnimals := reportedAnimals[i := updated];
        r := Ok(Some(updated));
    }

    // -------------------------------------------------------------------
    // Adoptable animals
    // -------------------------------------------------------------------

    /** `getAdoptableAnimals()`: exactly the available listings, newest first. */
    function GetAdoptableAnimals(): (r: seq<AdoptableAnimal>)
      reads this
      ensures NewestFirstOrder(r, ListingTime)
      ensures forall x :: multiset(r)[x] == if x.status == "available" then multiset(adoptableAnimals)[x] else 0
    {
      var p := (a: AdoptableAnimal) => a.status == "available";
      FilterMultiset(adoptableAnimals, p);
      NewestFirst(Filter(adoptableAnimals, p), ListingTime)
    }

    /** `getAdoptableAnimalById(id)`, whatever the listing's status. */
    function GetAdoptableAnimalById(id: int): (r: Option<AdoptableAnimal>)
      reads this
      ensures r.Some? ==> r.value in adoptableAnimals && r.value.id == id
      ensures r.None? ==> forall a :: a in adoptableAnimals ==> a.id != id
    {
      RowById(adoptableAnimals, ListingId, id)
    }

    /** `getAdoptableAnimalsByNgo(ngoId)`: exactly the listings of that NGO,
        newest first, whatever their status. */
    function GetAdoptableAnimalsByNgo(ngoId: int): (r: seq<AdoptableAnimal>)
      reads this
      ensures NewestFirstOrder(r, ListingTime)
      ensures forall x :: multiset(r)[x] == if x.listedById == ngoId then multiset(adoptableAnimals)[x] else 0
    {
      var p := (a: AdoptableAnimal) => a.listedById == ngoId;
      FilterMultiset(adoptableAnimals, p);
      NewestFirst(Filter(adoptableAnimals, p), ListingTime)
    }

    /** `createAdoptableAnimal(animal)`: inserts the listing, listed at `now`,
        as available; a lister that is not a user changes nothing. */
    method CreateAdoptableAnimal(a: InsertAdoptableAnimal, now: Timestamp) returns (r: Outcome<AdoptableAnimal>)
      requires Valid()
      modifies this
      ensures Valid()
      ensures !IsUserId(old(users), a.listedById) ==> r.Thrown? && unchanged(this)
      ensures IsUserId(old(users), a.listedById) ==>
        && r == Ok(ListingRow(old(nextListingId), now, a))
        && adoptableAnimals == old(adoptableAnimals) + [r.value] && nextListingId == old(nextListingId) + 1
        && users == old(users) && reportedAnimals == old(reportedAnimals) && veterinarians == old(veterinarians)
        && nextUserId == old(nextUserId) && nextReportId == old(nextReportId) && nextVetId == old(nextVetId)
    {
      if !IsUserId(users, a.listedById) {
        return Thrown("violates foreign key constraint");
      }
      var row := ListingRow(nextListingId, now, a);
      AppendKeepsSerial(adoptableAnimals, ListingId, nextListingId, row);
      adoptableAnimals := adoptableAnimals + [row];
      nextListingId := nextListingId + 1;
      r := Ok(row);
    }

    /** `updateAdoptableAnimalStatus(id, status)`: only the status of the row
        with the id changes; `undefined` and no change when there is none. */
    method UpdateAdoptableAnimalStatus(id: int, status: string) returns (r: Option<AdoptableAnimal>)
      requires Valid()
      modifies this
      ensures Valid()
      ensures users == old(users) && reportedAnimals == old(reportedAnimals) && veterinarians == old(veterinarians)
      ensures nextUserId == old(nextUserId) && nextReportId == old(nextReportId)
      ensures nextListingId == old(nextListingId) && nextVetId == old(nextVetId)
      ensures r.None? ==> unchanged(this)
      ensures match FirstWhere(old(adoptableAnimals), (x: AdoptableAnimal) => x.id == id)
        case None => r.None? && adoptableAnimals == old(adoptableAnimals)
        case Some(i) =>
          && r == Some(old(adoptableAnimals)[i].(status := status))
          && adoptableAnimals == old(adoptableAnimals)[i := r.value]
    {
      match FirstWhere(adoptableAnimals, (x: AdoptableAnimal) => x.id == id)
      case None =>
        r := None;
      case Some(i) =>
        var updated := adoptableAnimals[i].(status := status);
        UpdateKeepsSerial(adoptableAnimals, ListingId, nextListingId, i, updated);
        adoptableAnimals := adoptableAnimals[i := updated];
        r := Some(updated);
    }

    /** `deleteAdoptableAnimal(id)`: removes the row with the id, if any, and
        answers `true` either way. */
    method DeleteAdoptableAnimal(id: int) returns (ok: bool)
      requires Valid()
      modifies this
      ensures Valid() && ok
      ensures adoptableAnimals == WithoutListing(old(adoptableAnimals), id)
      ensures users == old(users) && reportedAnimals == old(reportedAnimals) && veterinarians == old(veterinarians)
      ensures nextUserId == old(nextUserId) && nextReportId == old(nextReportId)
      ensures nextListingId == old(nextListingId) && nextVetId == old(nextVetId)
    {
      WithoutListingKeepsSerial(adoptableAnimals, nextListingId, id);
      adoptableAnimals := WithoutListing(adoptableAnimals, id);
      ok := true;
    }

    // -------------------------------------------------------------------
    // Veterinarians
    // -------------------------------------------------------------------

    /** `getVeterinarians()`: every vet; the query names no order. */
    function GetVeterinarians(): (r: seq<Veterinarian>)
      reads this
      ensures multiset(r) == multiset(veterinarians)
    {
      veterinarians
    }

    /** `getVeterinarianById(id)` */
    function GetVeterinarianById(id: int): (r: Option<Veterinarian>)
      reads this
      ensures r.Some? ==> r.value in veterinarians && r.value.id == id
      ensures r.None? ==> forall v :: v in veterinarians ==> v.id != id
    {
      RowById(veterinarians, VetId, id)
    }

    /** `getNearbyVeterinarians(location, limit = 10)`: at most `limit` vets
        whose address or location contains the text, in table order. */
    function GetNearbyVeterinarians(location: string, limit: Option<int>): (r: Outcome<seq<Veterinarian>>)
      reads this
      ensures var n := if limit.Some? then limit.value else 10;
        && (r.Thrown? <==> n < 0)
        && (r.Ok? ==> |r.value| == (if n < |NearbyMatches(veterinarians, location)| then n else |NearbyMatches(veterinarians, location)|))
        && (r.Ok? ==> multiset(r.value) <= multiset(NearbyMatches(veterinarians, location)))
        && (r.Ok? && |NearbyMatches(veterinarians, location)| <= n ==> r.value == NearbyMatches(veterinarians, location))
    {
      Limit(NearbyMatches(veterinarians, location), if limit.Some? then limit.value else 10)
    }

    /** `createVeterinarian(vet)`: inserts the row under the next serial id. */
    method CreateVeterinarian(v: InsertVeterinarian) returns (r: Veterinarian)
      requires Valid()
      modifies this
      ensures Valid()
      ensures r == VetRow(old(nextVetId), v)
      ensures veterinarians == old(veterinarians) + [r] && nextVetId == old(nextVetId) + 1
      ensures users == old(users) && reportedAnimals == old(reportedAnimals) && adoptableAnimals == old(adoptableAnimals)
      ensures nextUserId == old(nextUserId) && nextReportId == old(nextReportId) && nextListingId == old(nextListingId)
    {
      r := VetRow(nextVetId, v);
      AppendKeepsSerial(veterinarians, VetId, nextVetId, r);
      veterinarians := veterinarians + [r];
      nextVetId := nextVetId + 1;
    }
  }

  /** With serial ids, a lookup by id finds the only row with it: no other
      row of the table shares the id. */
  lemma RowByIdIsOnlyRow(db: DatabaseStorage, id: int)
    requires db.Valid()
    ensures db.GetAdoptableAnimalById(id).Some? ==>
      forall i :: 0 <= i < |db.adoptableAnimals| && db.adoptableAnimals[i].id == id ==>
        db.adoptableAnimals[i] == db.GetAdoptableAnimalById(id).value
  {
    if db.GetAdoptableAnimalById(id).Some? {
      var a := db.GetAdoptableAnimalById(id).value;
      var j :| 0 <= j < |db.adoptableAnimals| && db.adoptableAnimals[j] == a;
      forall i | 0 <= i < |db.adoptableAnimals| && db.adoptableAnimals[i].id == id
        ensures db.adoptableAnimals[i] == a
      {
        SerialIdsUnique(db.adoptableAnimals, ListingId, db.nextListingId, i, j);
      }
    }
  }
}
