/**
 * Properties of the buyer operations: what one operation leaves for the
 * next (create then get, delete then get, a second update with a stale
 * token), the primary-key invariant, the audit trail the update diff keeps,
 * and the pages of a listing.
 */
module BuyerStoreProps {
  import opened Wrappers
  import opened Enums
  import opened BuyerSchema
  import opened BuyerStore

  /** A created buyer is found by its owner, and by nobody else. */
  lemma CreateThenGet(db: Db, data: BuyerData, ownerId: string, id: string, historyId: string, now: int, caller: string)
    requires id !in db.buyers
    ensures var (db', b) := CreateBuyer(db, data, ownerId, id, historyId, now);
      && (caller == ownerId ==> GetBuyer(db', id, caller) == Some(b))
      && (caller != ownerId ==> GetBuyer(db', id, caller).None?)
      && b.data == data && b.createdAt == b.updatedAt == now
  {
  }

  /** Creating leaves every other record as it was. */
  lemma CreateKeepsOthers(db: Db, data: BuyerData, ownerId: string, id: string, historyId: string, now: int, other: string, caller: string)
    requires id !in db.buyers && other != id
    ensures GetBuyer(CreateBuyer(db, data, ownerId, id, historyId, now).0, other, caller) == GetBuyer(db, other, caller)
  {
  }

  lemma CreatePreservesWellFormed(db: Db, data: BuyerData, ownerId: string, id: string, historyId: string, now: int)
    requires WellFormed(db) && id !in db.buyers
    ensures WellFormed(CreateBuyer(db, data, ownerId, id, historyId, now).0)
  {
  }

  lemma UpdatePreservesWellFormed(db: Db, id: string, req: UpdateRequest, ownerId: string, token: int, now: int, historyId: string)
    requires WellFormed(db)
    ensures var r := UpdateBuyer(db, id, req, ownerId, token, now, historyId);
      r.Success? ==> WellFormed(r.value.0) && r.value.1.id == id
  {
  }

  lemma DeletePreservesWellFormed(db: Db, id: string, ownerId: string)
    requires WellFormed(db)
    ensures var r := DeleteBuyer(db, id, ownerId);
      r.Success? ==> WellFormed(r.value)
  {
  }

  /** After a delete the record is gone for everyone, and the others are untouched. */
  lemma DeleteThenGet(db: Db, id: string, ownerId: string, caller: string, other: string)
    requires DeleteBuyer(db, id, ownerId).Success?
    ensures GetBuyer(DeleteBuyer(db, id, ownerId).value, id, caller).None?
    ensures other != id ==> GetBuyer(DeleteBuyer(db, id, ownerId).value, other, caller) == GetBuyer(db, other, caller)
  {
  }

  /**
   * Optimistic concurrency: two editors read the record at the same
   * updatedAt. Once the first update lands at a later instant, the second,
   * carrying the same token, is refused with a conflict and changes nothing.
   */
  lemma StaleTokenConflicts(db: Db, id: string, first: UpdateRequest, second: UpdateRequest, ownerId: string,
                            token: int, now: int, later: int, h1: string, h2: string)
    requires Editable(db, id, ownerId, token)
    requires now != token
    ensures UpdateBuyer(UpdateBuyer(db, id, first, ownerId, token, now, h1).value.0, id, second, ownerId, token, later, h2)
      == Failure(Conflict)
  {
  }

  /** A second update with the fresh token goes through. */
  lemma FreshTokenAccepted(db: Db, id: string, first: UpdateRequest, second: UpdateRequest, ownerId: string,
                           token: int, now: int, later: int, h1: string, h2: string)
    requires Editable(db, id, ownerId, token)
    ensures UpdateBuyer(UpdateBuyer(db, id, first, ownerId, token, now, h1).value.0, id, second, ownerId, now, later, h2).Success?
  {
  }

  /** Writing the same fields twice is writing them once. */
  lemma ApplyPatchIdempotent(d: BuyerData, p: Patch)
    ensures ApplyPatch(ApplyPatch(d, p), p) == ApplyPatch(d, p)
  {
  }

  /** The record after the update's write, before updatedAt is bumped. */
  function Patched(b: Buyer, req: UpdateRequest): Buyer {
    b.(data := ApplyPatch(b.data, req.patch))
  }

  /** The keys of the buyer fields, the ones an update writes. */
  predicate FieldKey(k: string) {
    k in UpdateKeys && k != "id" && k != "updatedAt"
  }

  /** A supplied field reads back as the value supplied. */
  lemma {:induction false} StoredAfterPatch(b: Buyer, req: UpdateRequest, k: string)
    requires FieldKey(k) && Supplied(req, k).Some?
    ensures Stored(Patched(b, req), k) == Supplied(req, k).value
  {
    var p := req.patch;
    var d := Patched(b, req).data;
    if k == "email" {
      assert d.email == p.email;
    } else if k == "bhk" {
      assert d.bhk == p.bhk;
    } else if k == "budgetMin" {
      assert d.budgetMin == p.budgetMin;
    } else if k == "budgetMax" {
      assert d.budgetMax == p.budgetMax;
    } else if k == "notes" {
      assert d.notes == p.notes;
    } else if k == "tags" {
      assert d.tags == p.tags;
    }
  }

  /** A field not supplied reads back as before. */
  lemma StoredUnsupplied(b: Buyer, req: UpdateRequest, k: string)
    requires FieldKey(k) && Supplied(req, k).None?
    ensures Stored(Patched(b, req), k) == Stored(b, k)
  {
  }

  /**
   * The audit trail: every change the diff records goes from the value the
   * record held to the value it holds after the update.
   */
  lemma DiffRecordsTransition(b: Buyer, req: UpdateRequest, k: string)
    requires k in Diff(b, req)
    ensures Diff(b, req)[k].before == Stored(b, k)
    ensures Diff(b, req)[k].after == Stored(Patched(b, req), k)
  {
    StoredAfterPatch(b, req, k);
  }

  /**
   * Conversely, a field whose value the update changes is in the diff; so
   * an update with an empty diff leaves every field as it was.
   */
  lemma ChangedFieldRecorded(b: Buyer, req: UpdateRequest, k: string)
    requires FieldKey(k)
    requires Stored(Patched(b, req), k) != Stored(b, k)
    ensures k in Diff(b, req)
  {
    if Supplied(req, k).None? {
      StoredUnsupplied(b, req, k);
    } else {
      StoredAfterPatch(b, req, k);
    }
  }

  /**
   * Sending the same update again records at most the tags: every other
   * field already holds the value sent.
   */
  lemma RepeatedUpdateRecordsOnlyTags(b: Buyer, req: UpdateRequest)
    ensures forall k :: k in Diff(Patched(b, req), req) ==> k == "tags"
  {
    forall k | k in Diff(Patched(b, req), req) ensures k == "tags" {
      StoredAfterPatch(b, req, k);
      OnlyTagsAreLists(req, k);
    }
  }

  lemma OnlyTagsAreLists(req: UpdateRequest, k: string)
    requires Supplied(req, k).Some? && Supplied(req, k).value.TextList?
    ensures k == "tags"
  {
  }

  /** The update appends a history entry exactly when some field's value is recorded as changed. */
  lemma HistoryIffRecorded(db: Db, id: string, req: UpdateRequest, ownerId: string, token: int, now: int, historyId: string)
    requires Editable(db, id, ownerId, token)
    ensures var db' := UpdateBuyer(db, id, req, ownerId, token, now, historyId).value.0;
      && (|db'.history| == |db.history| + 1 <==> exists k :: Recorded(db.buyers[id], req, k))
      && (|db'.history| == |db.history| <==> forall k :: !Recorded(db.buyers[id], req, k))
  {
    var diff := Diff(db.buyers[id], req);
    if exists k :: Recorded(db.buyers[id], req, k) {
      var k :| Recorded(db.buyers[id], req, k);
      assert k in diff;
    }
  }

  /** Row x of a listing is on page x / limit + 1, at position x % limit. */
  lemma {:induction false} PageCovers<T>(all: seq<T>, limit: nat, x: nat)
    requires limit >= 1 && x < |all|
    ensures var page := x / limit + 1;
      x % limit < |Page(all, page, limit)| && Page(all, page, limit)[x % limit] == all[x]
  {
    var page := x / limit + 1;
    assert Offset(page, limit) == x / limit * limit;
    assert x / limit * limit + x % limit == x;
  }
}
