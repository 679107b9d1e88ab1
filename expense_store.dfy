/** The expenses collection and the routes that read or change one document:
    `GET`, `PUT` and `DELETE /api/expenses/:id`, and `POST /api/expenses`. */
module ExpenseStore {
  import opened Wrappers
  import opened Calendar
  import opened ExpenseSchema
  import opened JsText

  /** What a route answers: the document (none after a delete), 404, 401, or the
      validation failure that surfaces as a 500 with the validator messages. */
  datatype Outcome =
    | Success(doc: Option<Expense>)
    | NotFound
    | NotAuthorized
    | Invalid(violations: seq<Violation>)

  /** The ids other than `id`, in order. */
  function Without(ids: seq<ExpenseId>, id: ExpenseId): (r: seq<ExpenseId>)
    ensures forall x :: x in r <==> x in ids && x != id
    ensures forall x :: multiset(r)[x] == if x == id then 0 else multiset(ids)[x]
  {
    if ids == [] then []
    else
      assert ids == [ids[0]] + ids[1..];
      (if ids[0] == id then [] else [ids[0]]) + Without(ids[1..], id)
  }

  /** Every document is filed under its own id, below the next id, and satisfies
      the schema; the order lists every id once. */
  ghost predicate Consistent(records: map<ExpenseId, Expense>, order: seq<ExpenseId>, nextId: ExpenseId)
  {
    && (forall id :: id in records ==> records[id].id == id && id < nextId && ExpenseSchema.Valid(records[id]))
    && (forall i :: 0 <= i < |order| ==> order[i] in records)
    && (forall id :: id in records ==> id in order)
    && NoRepeats(order)
  }

  /** No id is listed twice. */
  predicate NoRepeats(ids: seq<ExpenseId>)
  {
    forall i, j :: 0 <= i < j < |ids| ==> ids[i] != ids[j]
  }

  /** Removing an id from a list without repeats leaves one without repeats. */
  lemma {:induction false} WithoutNoRepeats(ids: seq<ExpenseId>, id: ExpenseId)
    requires NoRepeats(ids)
    ensures NoRepeats(Without(ids, id))
    decreases |ids|
  {
    if ids != [] {
      var tail := ids[1..];
      assert NoRepeats(tail) by {
        forall i, j | 0 <= i < j < |tail| ensures tail[i] != tail[j] {
          assert tail[i] == ids[i + 1] && tail[j] == ids[j + 1];
        }
      }
      WithoutNoRepeats(tail, id);
      var rest := Without(tail, id);
      if ids[0] != id {
        assert ids[0] !in tail by {
          forall k | 0 <= k < |tail| ensures tail[k] != ids[0] {
            assert tail[k] == ids[k + 1];
          }
        }
        assert ids[0] !in rest;
        var r := [ids[0]] + rest;
        forall i, j | 0 <= i < j < |r| ensures r[i] != r[j] {
          if i == 0 {
            assert r[j] == rest[j - 1] && r[j] in rest;
          } else {
            assert r[i] == rest[i - 1] && r[j] == rest[j - 1];
          }
        }
      } else {
        assert Without(ids, id) == [] + rest;
      }
    }
  }

  lemma RemoveConsistent(records: map<ExpenseId, Expense>, order: seq<ExpenseId>, nextId: ExpenseId, id: ExpenseId)
    requires Consistent(records, order, nextId)
    ensures Consistent(records - {id}, Without(order, id), nextId)
  {
    var r := Without(order, id);
    forall i | 0 <= i < |r| ensures r[i] in records - {id} {
      assert r[i] in r;
    }
    WithoutNoRepeats(order, id);
  }

  lemma AddConsistent(records: map<ExpenseId, Expense>, order: seq<ExpenseId>, nextId: ExpenseId, e: Expense)
    requires Consistent(records, order, nextId)
    requires e.id == nextId && ExpenseSchema.Valid(e)
    ensures e.id !in records
    ensures Consistent(records[e.id := e], order + [e.id], nextId + 1)
  {
    assert e.id !in order;
    var r := order + [e.id];
    forall i, j | 0 <= i < j < |r| ensures r[i] != r[j] {
      if j == |order| {
        assert r[i] == order[i] && order[i] in records;
      } else {
        assert r[i] == order[i] && r[j] == order[j];
      }
    }
  }

  /** `req.body.user = req.user.id` followed by `Expense.create(req.body)`. */
  function CreateOwned(requester: UserId, body: ExpenseBody, id: ExpenseId, now: Date): (r: Result<Expense, seq<Violation>>)
    ensures r.Ok? <==> AcceptableNew(body.(user := Some(requester)))
    ensures r.Ok? ==> ExpenseSchema.Valid(r.value)
    ensures r.Ok? ==> var e := r.value;
      && e.id == id && e.user == requester && e.amount == body.amount.value
      && e.description == Trim(body.description.value) && e.category == body.category.value
      && e.date == body.date.GetOr(now) && e.notes == TrimmedField(body.notes)
      && e.createdAt == body.createdAt.GetOr(now)
    ensures r.Err? ==> r.error == Violations(CastNew(body.(user := Some(requester)), now)) && r.error != []
  {
    ExpenseSchema.Create(body.(user := Some(requester)), id, now)
  }

  class Store {
    /** The documents by id. */
    var records: map<ExpenseId, Expense>
    /** The ids in natural (insertion) order. */
    var order: seq<ExpenseId>
    /** The next id to hand out; stands for `ObjectId` generation. */
    var nextId: ExpenseId

    ghost predicate Valid()
      reads this
    {
      Consistent(records, order, nextId)
    }

    /** The stored documents in natural order; every one satisfies the schema. */
    function Documents(): (docs: seq<Expense>)
      reads this
      requires Valid()
      ensures |docs| == |order| && forall i :: 0 <= i < |order| ==> docs[i] == records[order[i]]
      ensures forall e :: e in docs ==> ExpenseSchema.Valid(e) && e.id in records && records[e.id] == e
    {
      var ids, recs := order, records;
      seq(|ids|, i requires 0 <= i < |ids| && ids[i] in recs => recs[ids[i]])
    }

    constructor ()
      ensures Valid() && records == map[] && order == []
    {
      records := map[];
      order := [];
      nextId := 0;
    }

    /** `POST /api/expenses`: the owner is set to the requester whatever the body
        says, then the document is validated and stored under a fresh id. */
    method CreateExpense(requester: UserId, body: ExpenseBody, now: Date) returns (o: Outcome)
      requires Valid()
      modifies this
      ensures Valid()
      ensures o.Success? || o.Invalid?
      ensures o.Success? <==> AcceptableNew(body.(user := Some(requester)))
      ensures o.Success? ==>
        && o.doc.Some? && o.doc.value == CreateOwned(requester, body, old(nextId), now).value
        && o.doc.value.id !in old(records)
        && records == old(records)[o.doc.value.id := o.doc.value]
        && order == old(order) + [o.doc.value.id]
      ensures o.Invalid? ==>
        && o.violations == CreateOwned(requester, body, old(nextId), now).error
        && records == old(records) && order == old(order)
    {
      var r := CreateOwned(requester, body, nextId, now);
      if r.Err? {
        o := Invalid(r.error);
      } else {
        File(r.value);
        o := Success(Some(r.value));
      }
    }

    /** Stores a schema-valid document under the next id. */
    method File(e: Expense)
      requires Valid() && e.id == nextId && ExpenseSchema.Valid(e)
      modifies this
      ensures Valid()
      ensures e.id !in old(records)
      ensures records == old(records)[e.id := e] && order == old(order) + [e.id]
    {
      AddConsistent(records, order, nextId, e);
      records, order, nextId := records[e.id := e], order + [e.id], nextId + 1;
    }

    /** `GET /api/expenses/:id`: a missing id is reported before the owner is
        compared. */
    method GetExpense(requester: UserId, id: ExpenseId) returns (o: Outcome)
      requires Valid()
      ensures id !in records ==> o == NotFound
      ensures id in records && records[id].user != requester ==> o == NotAuthorized
      ensures id in records && records[id].user == requester ==> o == Success(Some(records[id]))
    {
      if id !in records {
        return NotFound;
      }
      if records[id].user != requester {
        return NotAuthorized;
      }
      o := Success(Some(records[id]));
    }

    /** `PUT /api/expenses/:id`: 404, then 401, then the validating update. The
        store changes only when the update succeeds, and then only at `id`. */
    method UpdateExpense(requester: UserId, id: ExpenseId, body: ExpenseBody) returns (o: Outcome)
      requires Valid()
      modifies this
      ensures Valid()
      ensures order == old(order) && nextId == old(nextId)
      ensures id !in old(records) ==> o == NotFound
      ensures id in old(records) && old(records)[id].user != requester ==> o == NotAuthorized
      ensures id in old(records) && old(records)[id].user == requester ==>
        match ExpenseSchema.Update(old(records)[id], body)
        case Ok(u) => o == Success(Some(u)) && records == old(records)[id := u]
        case Err(vs) => o == Invalid(vs)
      ensures !o.Success? ==> records == old(records)
    {
      if id !in records {
        return NotFound;
      }
      if records[id].user != requester {
        return NotAuthorized;
      }
      var r := ExpenseSchema.Update(records[id], body);
      match r
      case Err(vs) =>
        o := Invalid(vs);
      case Ok(u) =>
        records := records[id := u];
        o := Success(Some(u));
    }

    /** `DELETE /api/expenses/:id`: 404, then 401; an authorised delete removes
        exactly that document. */
    method DeleteExpense(requester: UserId, id: ExpenseId) returns (o: Outcome)
      requires Valid()
      modifies this
      ensures Valid()
      ensures nextId == old(nextId)
      ensures id !in old(records) ==> o == NotFound
      ensures id in old(records) && old(records)[id].user != requester ==> o == NotAuthorized
      ensures id in old(records) && old(records)[id].user == requester ==>
        o == Success(None) && records == old(records) - {id} && id !in order
      ensures !o.Success? ==> records == old(records) && order == old(order)
      ensures forall x :: x != id ==> multiset(order)[x] == multiset(old(order))[x]
    {
      if id !in records {
        return NotFound;
      }
      if records[id].user != requester {
        return NotAuthorized;
      }
      RemoveConsistent(records, order, nextId, id);
      records := records - {id};
      order := Without(order, id);
      o := Success(None);
    }
  }
}
