/**
 The idempotency repository as a table updated in place, and the service that decides from it.
 Other requests may change the table between any two of the calls `Acquire` makes; at the moment it
 decides, it is the atomic `Call` of the protocol.
 */
module IdempotencyService {
  import opened Options
  import opened Idempotency

  class IdempotencyRepository {
    var rows: Table

    ghost predicate Valid()
      reads this
    {
      Unique(rows)
    }

    constructor ()
      ensures Valid() && rows == map[]
    {
      rows := map[];
    }

    method FindByKeyAndPath(slot: Slot) returns (found: Option<RequestId>)
      ensures Finds(rows, slot, found)
    {
      if i :| i in rows && rows[i].slot == slot {
        return Some(i);
      }
      return None;
    }

    /** False is the unique-constraint error. */
    method Create(id: RequestId, slot: Slot, hash: Fingerprint) returns (created: bool)
      requires Valid() && id !in rows
      modifies this
      ensures Valid() && created == !Taken(old(rows), slot)
      ensures rows == if created then old(rows)[id := Record(slot, hash, None)] else old(rows)
    {
      created := !Taken(rows, slot);
      if created {
        rows := rows[id := Record(slot, hash, None)];
      }
    }

    method SaveResponse(id: RequestId, response: Response)
      requires Valid() && id in rows
      modifies this
      ensures Valid() && rows == old(rows)[id := old(rows)[id].(response := Some(response))]
    {
      rows := rows[id := rows[id].(response := Some(response))];
    }

    method DeleteById(id: RequestId)
      requires Valid() && id in rows
      modifies this
      ensures Valid() && rows == old(rows) - {id}
    {
      rows := rows - {id};
    }
  }

  /** Whatever other requests do between two calls: the caller knows no more than that its id stays unused. */
  method OtherRequests(repository: IdempotencyRepository, id: RequestId)
    requires repository.Valid() && id !in repository.rows
    modifies repository
    ensures repository.Valid() && id !in repository.rows
  {
  }

  /**
   `acquire`: look up, else insert, and look up once more when the insert hits the unique constraint.
   `before` is the table just before the deciding call; LookupLost is the rethrown insert error.
   */
  method Acquire(repository: IdempotencyRepository, id: RequestId, slot: Slot, hash: Fingerprint)
    returns (answer: Answer, ghost before: Table)
    requires repository.Valid() && id !in repository.rows
    modifies repository
    ensures repository.Valid() && Unique(before)
    ensures answer != LookupLost ==> Call(Abs(before), slot, hash) == (Abs(repository.rows), answer)
    ensures answer == LookupLost ==> !Taken(before, slot)
    ensures answer != Run ==> repository.rows == before && id !in before
    ensures answer == Run ==> id !in before && repository.rows == before[id := Record(slot, hash, None)]
  {
    OtherRequests(repository, id);
    before := repository.rows;
    var existing := repository.FindByKeyAndPath(slot);
    if existing.Some? {
      AbsAt(before, existing.value);
      return Resolve(repository.rows[existing.value], hash), before;
    }
    OtherRequests(repository, id);
    before := repository.rows;
    AbsDomain(before, slot);
    var created := repository.Create(id, slot, hash);
    if created {
      AbsInsert(before, id, Record(slot, hash, None));
      return Run, before;
    }
    OtherRequests(repository, id);
    before := repository.rows;
    var raced := repository.FindByKeyAndPath(slot);
    if raced.None? {
      return LookupLost, before;
    }
    AbsAt(before, raced.value);
    return Resolve(repository.rows[raced.value], hash), before;
  }

  /** `complete`: keep a 2xx response, delete the record of anything else so that the key can be used again. */
  method Complete(repository: IdempotencyRepository, id: RequestId, response: Response)
    requires repository.Valid() && id in repository.rows
    modifies repository
    ensures repository.Valid() && repository.rows == CompleteRecord(old(repository.rows), id, response)
    ensures old(repository.rows)[id].slot in Abs(old(repository.rows))
    ensures Abs(repository.rows) == Finish(Abs(old(repository.rows)), old(repository.rows)[id].slot, response)
  {
    AbsComplete(repository.rows, id, response);
    if !ShouldPersist(response.statusCode) {
      repository.DeleteById(id);
      return;
    }
    repository.SaveResponse(id, response);
  }

  /** Whatever other requests do while the handler of `id` runs: its record is its own. */
  method OthersWhileRunning(repository: IdempotencyRepository, id: RequestId)
    requires repository.Valid() && id in repository.rows
    modifies repository
    ensures repository.Valid() && id in repository.rows && repository.rows[id] == old(repository.rows)[id]
  {
  }

  const InternalServerError: Option<nat> := Some(0)

  /** How the route handler ends: a body, an exception that carries a status, or any other exception. */
  datatype Outcome =
    | Returns(statusCode: int, body: Option<nat>)
    | Fails(statusCode: int, body: Option<nat>)
    | FailsOtherwise

  function Completion(outcome: Outcome): Response {
    match outcome
    case Returns(statusCode, body) => Response(if statusCode == 0 then 200 else statusCode, body)
    case Fails(statusCode, body) => Response(statusCode, body)
    case FailsOtherwise => Response(500, InternalServerError)
  }

  /**
   What a run leaves in its slot: a 2xx answer of the handler, where code 0 counts as 200, is kept, one without a body
   as a request still in progress; an exception frees the slot, unless its own status is a 2xx.
   */
  ghost predicate Leaves(m: Atomic, slot: Slot, hash: Fingerprint, outcome: Outcome) {
    match outcome
    case Returns(code, Some(body)) =>
      if code == 0 then Holds(m, slot, Done(hash, Response(200, Some(body))))
      else if 200 <= code <= 299 then Holds(m, slot, Done(hash, Response(code, Some(body))))
      else slot !in m
    case Returns(code, None) =>
      if code == 0 || 200 <= code <= 299 then Holds(m, slot, Started(hash)) else slot !in m
    case Fails(code, Some(body)) =>
      if 200 <= code <= 299 then Holds(m, slot, Done(hash, Response(code, Some(body)))) else slot !in m
    case Fails(code, None) => if 200 <= code <= 299 then Holds(m, slot, Started(hash)) else slot !in m
    case FailsOtherwise => slot !in m
  }

  ghost predicate Holds(m: Atomic, slot: Slot, entry: Entry) {
    slot in m && m[slot] == entry
  }

  lemma CompletionLeaves(m: Atomic, slot: Slot, hash: Fingerprint, outcome: Outcome)
    requires Holds(m, slot, Started(hash))
    ensures
      var m' := Finish(m, slot, Completion(outcome));
      Leaves(m', slot, hash, outcome) && m' - {slot} == m - {slot}
  {
  }

  /**
   `intercept`: replay or refuse without running, or run the handler and complete with however it ended.
   `before` is the table before the last write of this request, or the final one if it wrote nothing.
   */
  method Intercept(repository: IdempotencyRepository, id: RequestId, slot: Slot, hash: Fingerprint, outcome: Outcome)
    returns (answer: Answer, ghost before: Table)
    requires repository.Valid() && id !in repository.rows
    modifies repository
    ensures repository.Valid() && Unique(before)
    ensures answer != Run ==> repository.rows == before
    ensures answer != Run && answer != LookupLost ==> Call(Abs(before), slot, hash) == (Abs(before), answer)
    ensures answer == Run ==>
      slot in Abs(before) && Abs(before)[slot] == Started(hash)
          && Abs(repository.rows) == Finish(Abs(before), slot, Completion(outcome))
    ensures answer == Run ==>
      Leaves(Abs(repository.rows), slot, hash, outcome) && Abs(repository.rows) - {slot} == Abs(before) - {slot}
  {
    answer, before := Acquire(repository, id, slot, hash);
    if answer == Run {
      OthersWhileRunning(repository, id);
      before := repository.rows;
      AbsAt(before, id);
      CompletionLeaves(Abs(before), slot, hash, outcome);
      Complete(repository, id, Completion(outcome));
    }
  }
}
