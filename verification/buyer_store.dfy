/**
 * The buyer operations of src/lib/db/operations/buyers.ts over an immutable
 * store: the buyers table as a map from id to record, and the history
 * table as a sequence in insertion order. Fresh ids (uuidv4) and clock
 * readings (new Date(), the history table's defaultNow) are parameters.
 */
module BuyerStore {
  import opened Wrappers
  import opened Text
  import opened Enums
  import opened BuyerSchema
  import opened Sorting

  /** A stored lead: the validated fields plus the columns the database adds. Times are milliseconds. */
  datatype Buyer = Buyer(id: string, ownerId: string, createdAt: int, updatedAt: int, data: BuyerData)

  /** A column value as the diff records it; Null is SQL NULL / JavaScript null. */
  datatype FieldValue = Null | Text(s: string) | Number(n: nat) | TextList(items: seq<string>) | Instant(ms: int)

  datatype Change = Change(before: FieldValue, after: FieldValue)

  datatype HistoryEntry = HistoryEntry(id: string, buyerId: string, changedBy: string, changedAt: int, diff: map<string, Change>)

  datatype Db = Db(buyers: map<string, Buyer>, history: seq<HistoryEntry>)

  datatype StoreError = NotFound | Conflict | EditForbidden | DeleteForbidden

  function Message(e: StoreError): string {
    match e
    case NotFound => "Buyer not found"
    case Conflict => "Record has been modified by another user. Please refresh and try again."
    case EditForbidden => "You can only edit your own buyers"
    case DeleteForbidden => "You can only delete your own buyers"
  }

  /** The primary key: every record is filed under its own id. */
  predicate WellFormed(db: Db) {
    forall k :: k in db.buyers ==> db.buyers[k].id == k
  }

  // ---------------------------------------------------------------------
  // createBuyer
  // ---------------------------------------------------------------------

  const CreatedKey := "created"
  const CreatedNote := "New buyer created"

  /** The diff recorded for a new buyer. */
  const CreatedDiff: map<string, Change> := map[CreatedKey := Change(Null, Text(CreatedNote))]

  /**
   * createBuyer: inserts the record under the fresh id with the caller as
   * owner and both timestamps at now, then appends the "created" entry.
   */
  function CreateBuyer(db: Db, data: BuyerData, ownerId: string, id: string, historyId: string, now: int): (r: (Db, Buyer))
    requires id !in db.buyers
    ensures r.1 == Buyer(id, ownerId, now, now, data)
    ensures r.0.buyers == db.buyers[id := r.1]
    ensures r.0.history == db.history + [HistoryEntry(historyId, id, ownerId, now, CreatedDiff)]
  {
    var b := Buyer(id, ownerId, now, now, data);
    (Db(db.buyers[id := b], db.history + [HistoryEntry(historyId, id, ownerId, now, CreatedDiff)]), b)
  }

  // ---------------------------------------------------------------------
  // updateBuyer
  // ---------------------------------------------------------------------

  function TextOrNull(s: Option<string>): FieldValue {
    if s.Some? then Text(s.value) else Null
  }

  function NumberOrNull(n: Option<nat>): FieldValue {
    if n.Some? then Number(n.value) else Null
  }

  function BhkOrNull(b: Option<Bhk>): FieldValue {
    if b.Some? then Text(BhkName(b.value)) else Null
  }

  function TagsOrNull(t: Option<seq<string>>): FieldValue {
    if t.Some? then TextList(t.value) else Null
  }

  /** The keys an update may carry: the buyer fields plus id and updatedAt. */
  const UpdateKeys: set<string> := {
    "fullName", "email", "phone", "city", "propertyType", "bhk", "purpose", "budgetMin",
    "budgetMax", "timeline", "source", "status", "notes", "tags", "id", "updatedAt"}

  /** `existing[0][key]`: the stored column value under a key. */
  function Stored(b: Buyer, key: string): FieldValue {
    if key == "fullName" then Text(b.data.fullName)
    else if key == "email" then TextOrNull(b.data.email)
    else if key == "phone" then Text(b.data.phone)
    else if key == "city" then Text(CityName(b.data.city))
    else if key == "propertyType" then Text(PropertyTypeName(b.data.propertyType))
    else if key == "bhk" then BhkOrNull(b.data.bhk)
    else if key == "purpose" then Text(PurposeName(b.data.purpose))
    else if key == "budgetMin" then NumberOrNull(b.data.budgetMin)
    else if key == "budgetMax" then NumberOrNull(b.data.budgetMax)
    else if key == "timeline" then Text(TimelineName(b.data.timeline))
    else if key == "source" then Text(SourceName(b.data.source))
    else if key == "status" then Text(StatusName(b.data.status))
    else if key == "notes" then TextOrNull(b.data.notes)
    else if key == "tags" then TagsOrNull(b.data.tags)
    else if key == "id" then Text(b.id)
    else if key == "updatedAt" then Instant(b.updatedAt)
    else Null
  }

  /** `data[key]` for a key in `Object.keys(data)`; None when the update does not carry the key. */
  function Supplied(req: UpdateRequest, key: string): Option<FieldValue> {
    var p := req.patch;
    if key == "fullName" then (if p.fullName.Some? then Some(Text(p.fullName.value)) else None)
    else if key == "email" then (if p.email.Some? then Some(Text(p.email.value)) else None)
    else if key == "phone" then (if p.phone.Some? then Some(Text(p.phone.value)) else None)
    else if key == "city" then (if p.city.Some? then Some(Text(CityName(p.city.value))) else None)
    else if key == "propertyType" then (if p.propertyType.Some? then Some(Text(PropertyTypeName(p.propertyType.value))) else None)
    else if key == "bhk" then (if p.bhk.Some? then Some(Text(BhkName(p.bhk.value))) else None)
    else if key == "purpose" then (if p.purpose.Some? then Some(Text(PurposeName(p.purpose.value))) else None)
    else if key == "budgetMin" then (if p.budgetMin.Some? then Some(Number(p.budgetMin.value)) else None)
    else if key == "budgetMax" then (if p.budgetMax.Some? then Some(Number(p.budgetMax.value)) else None)
    else if key == "timeline" then (if p.timeline.Some? then Some(Text(TimelineName(p.timeline.value))) else None)
    else if key == "source" then (if p.source.Some? then Some(Text(SourceName(p.source.value))) else None)
    else if key == "status" then (if p.status.Some? then Some(Text(StatusName(p.status.value))) else None)
    else if key == "notes" then (if p.notes.Some? then Some(Text(p.notes.value)) else None)
    else if key == "tags" then (if p.tags.Some? then Some(TextList(p.tags.value)) else None)
    else if key == "id" then Some(Text(req.id))
    else if key == "updatedAt" then Some(Instant(req.updatedAt))
    else None
  }

  /**
   * `existing[0][key] !== data[key]`. Strings, numbers and null compare by
   * value. An array from the request is never the stored array object, so
   * supplied tags always count as changed.
   */
  predicate Differs(before: FieldValue, after: FieldValue) {
    after.TextList? || before != after
  }

  /** A supplied key that the diff records. */
  predicate Recorded(b: Buyer, req: UpdateRequest, key: string) {
    && key in UpdateKeys
    && key != "id" && key != "updatedAt"
    && Supplied(req, key).Some?
    && Differs(Stored(b, key), Supplied(req, key).value)
  }

  /** The diff of an update: (stored, supplied) for every recorded key. */
  function Diff(b: Buyer, req: UpdateRequest): (diff: map<string, Change>)
    ensures forall k :: k in diff <==> Recorded(b, req, k)
    ensures forall k :: k in diff ==> Supplied(req, k).Some? && diff[k] == Change(Stored(b, k), Supplied(req, k).value)
  {
    map k | k in UpdateKeys && Recorded(b, req, k) :: Change(Stored(b, k), Supplied(req, k).value)
  }

  /** `.set({ ...data })` on the buyer fields: supplied fields replace stored ones, the rest stay. */
  function ApplyPatch(d: BuyerData, p: Patch): BuyerData {
    BuyerData(
      p.fullName.GetOr(d.fullName),
      if p.email.Some? then p.email else d.email,
      p.phone.GetOr(d.phone),
      p.city.GetOr(d.city),
      p.propertyType.GetOr(d.propertyType),
      if p.bhk.Some? then p.bhk else d.bhk,
      p.purpose.GetOr(d.purpose),
      if p.budgetMin.Some? then p.budgetMin else d.budgetMin,
      if p.budgetMax.Some? then p.budgetMax else d.budgetMax,
      p.timeline.GetOr(d.timeline),
      p.source.GetOr(d.source),
      p.status.GetOr(d.status),
      if p.notes.Some? then p.notes else d.notes,
      if p.tags.Some? then p.tags else d.tags)
  }

  /**
   * updateBuyer. It fails with not-found for an unknown id, then with a
   * conflict when the stored updatedAt is not the caller's, and only then
   * with an ownership error. On success the supplied fields are written,
   * updatedAt becomes now, and a history entry is appended when the diff is
   * not empty.
   */
  /** The record exists, still carries the version the editor read, and belongs to the editor. */
  predicate Editable(db: Db, id: string, ownerId: string, currentUpdatedAt: int) {
    id in db.buyers && db.buyers[id].updatedAt == currentUpdatedAt && db.buyers[id].ownerId == ownerId
  }

  function UpdateBuyer(db: Db, id: string, req: UpdateRequest, ownerId: string, currentUpdatedAt: int,
                       now: int, historyId: string): (r: Result<(Db, Buyer), StoreError>)
    ensures id !in db.buyers ==> r == Failure(NotFound)
    ensures id in db.buyers && db.buyers[id].updatedAt != currentUpdatedAt ==> r == Failure(Conflict)
    ensures id in db.buyers && db.buyers[id].updatedAt == currentUpdatedAt && db.buyers[id].ownerId != ownerId ==>
      r == Failure(EditForbidden)
    ensures r.Success? <==> Editable(db, id, ownerId, currentUpdatedAt)
    ensures r.Success? ==>
      var prior := db.buyers[id];
      var diff := Diff(prior, req);
      && r.value.1 == prior.(updatedAt := now, data := ApplyPatch(prior.data, req.patch))
      && r.value.0.buyers == db.buyers[id := r.value.1]
      && r.value.0.history == db.history + (if diff == map[] then [] else [HistoryEntry(historyId, id, ownerId, now, diff)])
  {
    if id !in db.buyers then Failure(NotFound)
    else
      var existing := db.buyers[id];
      if existing.updatedAt != currentUpdatedAt then Failure(Conflict)
      else if existing.ownerId != ownerId then Failure(EditForbidden)
      else
        var diff := Diff(existing, req);
        var updated := existing.(updatedAt := now, data := ApplyPatch(existing.data, req.patch));
        var history := if |diff.Keys| > 0 then db.history + [HistoryEntry(historyId, id, ownerId, now, diff)] else db.history;
        Success((Db(db.buyers[id := updated], history), updated))
  }

  // ---------------------------------------------------------------------
  // getBuyer and deleteBuyer
  // ---------------------------------------------------------------------

  /** getBuyer: the record with that id, and only for its owner. */
  function GetBuyer(db: Db, id: string, ownerId: string): (r: Option<Buyer>)
    ensures r.Some? <==> id in db.buyers && db.buyers[id].ownerId == ownerId
    ensures r.Some? ==> r.value == db.buyers[id]
  {
    if id in db.buyers && db.buyers[id].ownerId == ownerId then Some(db.buyers[id]) else None
  }

  /** deleteBuyer: not-found first, then ownership; on success only that record goes, history stays. */
  function DeleteBuyer(db: Db, id: string, ownerId: string): (r: Result<Db, StoreError>)
    ensures id !in db.buyers ==> r == Failure(NotFound)
    ensures id in db.buyers && db.buyers[id].ownerId != ownerId ==> r == Failure(DeleteForbidden)
    ensures r.Success? <==> GetBuyer(db, id, ownerId).Some?
    ensures r.Success? ==> r.value.buyers == db.buyers - {id} && r.value.history == db.history
  {
    if id !in db.buyers then Failure(NotFound)
    else if db.buyers[id].ownerId != ownerId then Failure(DeleteForbidden)
    else Success(Db(db.buyers - {id}, db.history))
  }

  // ---------------------------------------------------------------------
  // getBuyers and getBuyersForExport
  // ---------------------------------------------------------------------

  /**
   * `ilike(col, '%' || search || '%')` over fullName, email and phone. A
   * NULL email matches nothing.
   */
  predicate SearchHit(d: BuyerData, search: string) {
    || ContainsIgnoringCase(d.fullName, search)
    || (d.email.Some? && ContainsIgnoringCase(d.email.value, search))
    || ContainsIgnoringCase(d.phone, search)
  }

  /** The WHERE clause: owner, each supplied equality filter, and the search when it is non-empty. */
  predicate Matches(b: Buyer, q: Query, ownerId: string) {
    && b.ownerId == ownerId
    && (q.city.Some? ==> b.data.city == q.city.value)
    && (q.propertyType.Some? ==> b.data.propertyType == q.propertyType.value)
    && (q.status.Some? ==> b.data.status == q.status.value)
    && (q.timeline.Some? ==> b.data.timeline == q.timeline.value)
    && (q.search.Some? && q.search.value != "" ==> SearchHit(b.data, q.search.value))
  }

  /** The ORDER BY column. */
  function SortKey(field: SortField): Buyer -> Key {
    match field
    case UpdatedAt => (b: Buyer) => IntKey(b.updatedAt)
    case CreatedAt => (b: Buyer) => IntKey(b.createdAt)
    case FullName => (b: Buyer) => TextKey(b.data.fullName)
  }

  /** The matching records, each once, in no particular order. */
  method Select(db: Db, q: Query, ownerId: string) returns (rows: seq<Buyer>)
    requires WellFormed(db)
    ensures forall b :: b in rows <==> b in db.buyers.Values && Matches(b, q, ownerId)
    ensures forall i, j :: 0 <= i < j < |rows| ==> rows[i].id != rows[j].id
  {
    rows := [];
    var keys := db.buyers.Keys;
    while keys != {}
      invariant keys <= db.buyers.Keys
      invariant forall b :: b in rows <==> b.id in db.buyers.Keys - keys && b == db.buyers[b.id] && Matches(b, q, ownerId)
      invariant forall i, j :: 0 <= i < j < |rows| ==> rows[i].id != rows[j].id
      decreases keys
    {
      var k :| k in keys;
      var b := db.buyers[k];
      if Matches(b, q, ownerId) {
        rows := rows + [b];
      }
      keys := keys - {k};
    }
  }

  /** The matching records ordered by the query's column and direction. */
  method Ordered(db: Db, q: Query, ownerId: string) returns (rows: seq<Buyer>)
    requires WellFormed(db)
    ensures forall b :: b in rows <==> b in db.buyers.Values && Matches(b, q, ownerId)
    ensures |rows| == |set k | k in db.buyers && Matches(db.buyers[k], q, ownerId)|
    ensures SortedBy(rows, SortKey(q.sortBy), q.sortOrder == Desc)
  {
    var all := Select(db, q, ownerId);
    MatchCount(db, q, ownerId, all);
    rows := Sort(all, SortKey(q.sortBy), q.sortOrder == Desc);
    forall b ensures b in rows <==> b in all {
      assert b in rows <==> b in multiset(rows);
      assert b in all <==> b in multiset(all);
    }
  }

  /** `Math.ceil(total / limit)` for a positive limit. */
  function CeilDiv(total: nat, limit: nat): (pages: nat)
    requires limit >= 1
    ensures (pages - 1) * limit < total <= pages * limit || (total == 0 && pages == 0)
  {
    (total + limit - 1) / limit
  }

  datatype Pagination = Pagination(page: nat, limit: nat, total: nat, totalPages: nat)

  datatype Listing = Listing(data: seq<Buyer>, pagination: Pagination)

  /**
   * getBuyers: the matching records in order, the page at offset
   * (page - 1) * limit, and the total count.
   */
  method GetBuyers(db: Db, filters: Filters, ownerId: string) returns (r: Listing)
    requires WellFormed(db)
    requires filters.page >= 1 && filters.limit >= 1
    ensures forall b :: b in r.data ==> b in db.buyers.Values && Matches(b, filters.query, ownerId)
    ensures |r.data| <= filters.limit
    ensures SortedBy(r.data, SortKey(filters.query.sortBy), filters.query.sortOrder == Desc)
    ensures r.pagination.page == filters.page && r.pagination.limit == filters.limit
    ensures r.pagination.total == |set k | k in db.buyers && Matches(db.buyers[k], filters.query, ownerId)|
    ensures r.pagination.totalPages == CeilDiv(r.pagination.total, filters.limit)
    ensures exists all: seq<Buyer> ::
      && |all| == r.pagination.total
      && (forall b :: b in all <==> b in db.buyers.Values && Matches(b, filters.query, ownerId))
      && SortedBy(all, SortKey(filters.query.sortBy), filters.query.sortOrder == Desc)
      && r.data == Page(all, filters.page, filters.limit)
  {
    var all := Ordered(db, filters.query, ownerId);
    var total := |all|;
    var data := Page(all, filters.page, filters.limit);
    SortedSlice(all, Offset(filters.page, filters.limit), |data|, SortKey(filters.query.sortBy), filters.query.sortOrder == Desc);
    r := Listing(data, Pagination(filters.page, filters.limit, total, CeilDiv(total, filters.limit)));
  }

  /** `(page - 1) * limit` */
  function Offset(page: nat, limit: nat): nat
    requires page >= 1
  {
    (page - 1) * limit
  }

  /** `.limit(limit).offset((page - 1) * limit)` */
  function Page<T>(all: seq<T>, page: nat, limit: nat): (r: seq<T>)
    requires page >= 1
    ensures |r| <= limit
    ensures Offset(page, limit) >= |all| ==> r == []
    ensures Offset(page, limit) < |all| ==>
      |r| == Min(limit, |all| - Offset(page, limit)) && forall i :: 0 <= i < |r| ==> r[i] == all[Offset(page, limit) + i]
  {
    var offset := Offset(page, limit);
    if offset >= |all| then [] else all[offset..offset + Min(limit, |all| - offset)]
  }

  function Min(a: nat, b: nat): nat {
    if a <= b then a else b
  }

  lemma SortedSlice<T>(s: seq<T>, offset: nat, n: nat, key: T -> Key, descending: bool)
    requires SortedBy(s, key, descending)
    ensures offset + n <= |s| ==> SortedBy(s[offset..offset + n], key, descending)
  {
  }

  /** The number of matching keys is the number of matching rows. */
  lemma MatchCount(db: Db, q: Query, ownerId: string, all: seq<Buyer>)
    requires WellFormed(db)
    requires forall b :: b in all <==> b in db.buyers.Values && Matches(b, q, ownerId)
    requires forall i, j :: 0 <= i < j < |all| ==> all[i].id != all[j].id
    ensures |all| == |set k | k in db.buyers && Matches(db.buyers[k], q, ownerId)|
  {
    var keys := set k | k in db.buyers && Matches(db.buyers[k], q, ownerId);
    var ids := set i | 0 <= i < |all| :: all[i].id;
    assert ids == keys by {
      forall k | k in keys ensures k in ids {
        var b := db.buyers[k];
        assert b in db.buyers.Values;
        assert b in all;
        var i :| 0 <= i < |all| && all[i] == b;
      }
      forall k | k in ids ensures k in keys {
        var i :| 0 <= i < |all| && all[i].id == k;
        assert all[i] in all;
      }
    }
    IdsOfDistinct(all);
  }

  lemma {:induction false} IdsOfDistinct(s: seq<Buyer>)
    requires forall i, j :: 0 <= i < j < |s| ==> s[i].id != s[j].id
    ensures |set i | 0 <= i < |s| :: s[i].id| == |s|
  {
    if s != [] {
      var t := s[..|s| - 1];
      IdsOfDistinct(t);
      var before := set i | 0 <= i < |t| :: t[i].id;
      var after := set i | 0 <= i < |s| :: s[i].id;
      assert after == before + {s[|s| - 1].id};
      assert s[|s| - 1].id !in before;
    }
  }

  /** getBuyersForExport: every matching record, ordered, without pagination. */
  method GetBuyersForExport(db: Db, q: Query, ownerId: string) returns (rows: seq<Buyer>)
    requires WellFormed(db)
    ensures forall b :: b in rows <==> b in db.buyers.Values && Matches(b, q, ownerId)
    ensures |rows| == |set k | k in db.buyers && Matches(db.buyers[k], q, ownerId)|
    ensures SortedBy(rows, SortKey(q.sortBy), q.sortOrder == Desc)
  {
    rows := Ordered(db, q, ownerId);
  }

  // ---------------------------------------------------------------------
  // getBuyerHistory
  // ---------------------------------------------------------------------

  /** The most entries getBuyerHistory returns. */
  const HistoryLimit: nat := 5

  /** A history row joined with the name of the user who made the change (NULL when the user is gone). */
  datatype HistoryView = HistoryView(entry: HistoryEntry, changedByName: Option<string>)

  /** The entries of one buyer, in insertion order. */
  function EntriesFor(history: seq<HistoryEntry>, buyerId: string): (r: seq<HistoryEntry>)
    ensures forall e :: e in r <==> e in history && e.buyerId == buyerId
    ensures multiset(r) <= multiset(history)
  {
    if history == [] then []
    else
      var front := history[..|history| - 1];
      var last := history[|history| - 1];
      assert history == front + [last];
      EntriesFor(front, buyerId) + (if last.buyerId == buyerId then [last] else [])
  }

  function ChangedAtKey(e: HistoryEntry): Key {
    IntKey(e.changedAt)
  }

  /**
   * `.orderBy(desc(changedAt)).limit(n)`: at most n entries, newest first;
   * every entry left out is no newer than every entry kept.
   */
  function Latest(entries: seq<HistoryEntry>, n: nat): (r: seq<HistoryEntry>)
    ensures |r| == Min(n, |entries|)
    ensures multiset(r) <= multiset(entries)
    ensures forall i, j :: 0 <= i < j < |r| ==> r[i].changedAt >= r[j].changedAt
    ensures forall e, i :: e in multiset(entries) - multiset(r) && 0 <= i < |r| ==> e.changedAt <= r[i].changedAt
  {
    var sorted := Sort(entries, ChangedAtKey, true);
    var r := sorted[..Min(n, |sorted|)];
    NewestPrefix(entries, sorted, r);
    r
  }

  lemma NewestPrefix(entries: seq<HistoryEntry>, s: seq<HistoryEntry>, r: seq<HistoryEntry>)
    requires SortedBy(s, ChangedAtKey, true)
    requires multiset(s) == multiset(entries)
    requires |r| <= |s| && r == s[..|r|]
    ensures multiset(r) <= multiset(entries)
    ensures forall i, j :: 0 <= i < j < |r| ==> r[i].changedAt >= r[j].changedAt
    ensures forall e, i :: e in multiset(entries) - multiset(r) && 0 <= i < |r| ==> e.changedAt <= r[i].changedAt
  {
    var rest := s[|r|..];
    assert s == r + rest;
    assert multiset(entries) - multiset(r) == multiset(rest);
    PrefixDescending(s, r);
    RestNoNewer(s, r, rest);
  }

  lemma PrefixDescending(s: seq<HistoryEntry>, r: seq<HistoryEntry>)
    requires SortedBy(s, ChangedAtKey, true)
    requires |r| <= |s| && r == s[..|r|]
    ensures forall i, j :: 0 <= i < j < |r| ==> r[i].changedAt >= r[j].changedAt
  {
    forall i, j | 0 <= i < j < |r| ensures r[i].changedAt >= r[j].changedAt {
      assert r[i] == s[i] && r[j] == s[j];
      assert InOrder(ChangedAtKey(s[i]), ChangedAtKey(s[j]), true);
    }
  }

  lemma RestNoNewer(s: seq<HistoryEntry>, r: seq<HistoryEntry>, rest: seq<HistoryEntry>)
    requires SortedBy(s, ChangedAtKey, true)
    requires s == r + rest
    ensures forall e, i :: e in multiset(rest) && 0 <= i < |r| ==> e.changedAt <= r[i].changedAt
  {
    forall e: HistoryEntry, i | e in multiset(rest) && 0 <= i < |r| ensures e.changedAt <= r[i].changedAt {
      assert e in rest;
      var m :| 0 <= m < |rest| && rest[m] == e;
      assert s[|r| + m] == e && r[i] == s[i];
      assert InOrder(ChangedAtKey(s[i]), ChangedAtKey(s[|r| + m]), true);
    }
  }

  function UserName(names: map<string, string>, userId: string): Option<string> {
    if userId in names then Some(names[userId]) else None
  }

  function Views(entries: seq<HistoryEntry>, names: map<string, string>): (r: seq<HistoryView>)
    ensures |r| == |entries|
    ensures forall i :: 0 <= i < |entries| ==> r[i] == HistoryView(entries[i], UserName(names, entries[i].changedBy))
  {
    seq(|entries|, i requires 0 <= i < |entries| => HistoryView(entries[i], UserName(names, entries[i].changedBy)))
  }

  /**
   * getBuyerHistory: not-found unless getBuyer would return the record;
   * otherwise the buyer's five newest entries, newest first, each with the
   * name of its author. `names` is the users table, id to name.
   */
  function GetBuyerHistory(db: Db, buyerId: string, ownerId: string, names: map<string, string>): (r: Result<seq<HistoryView>, StoreError>)
    ensures r.Failure? <==> GetBuyer(db, buyerId, ownerId).None?
    ensures r.Failure? ==> r.error == NotFound
    ensures r.Success? ==>
      var shown := Latest(EntriesFor(db.history, buyerId), HistoryLimit);
      && |r.value| == Min(HistoryLimit, |EntriesFor(db.history, buyerId)|)
      && (forall i :: 0 <= i < |r.value| ==> r.value[i] == HistoryView(shown[i], UserName(names, shown[i].changedBy)))
  {
    if GetBuyer(db, buyerId, ownerId).None? then Failure(NotFound)
    else Success(Views(Latest(EntriesFor(db.history, buyerId), HistoryLimit), names))
  }
}
