/**
 The idempotency protocol: records under a unique (key, path), and requests that look a record up,
 insert one, run, and complete.  Requests interleave freely and may die between any two steps.

 A record is named by the request that inserted it: a request inserts at most one record and the
 database gives it a fresh id.  The fingerprint stands for the hash of the canonical request text.
 */
module Idempotency {
  import opened Options

  type RequestId = nat
  type Fingerprint = nat

  datatype Slot = Slot(key: string, path: string)

  /** A response without a body is stored as null, which reads back as if nothing had been stored. */
  datatype Response = Response(statusCode: int, body: Option<nat>)

  datatype Record = Record(slot: Slot, hash: Fingerprint, response: Option<Response>)

  type Table = map<RequestId, Record>

  // ----- the table, with its unique (key, path)

  ghost predicate Unique(t: Table) {
    forall i, j | i in t && j in t && t[i].slot == t[j].slot :: i == j
  }

  predicate Taken(t: Table, slot: Slot) {
    exists i | i in t :: t[i].slot == slot
  }

  /** What `acquire` answers: run the handler, replay a stored response, or one of the two conflicts. */
  datatype Answer = Run | Replay(response: Response) | Conflict | InProgress | LookupLost

  /** `resolveExistingRecord`. */
  function Resolve(r: Record, hash: Fingerprint): Answer {
    if r.hash != hash then Conflict
    else if r.response.None? || r.response.value.body.None? then InProgress
    else Replay(r.response.value)
  }

  /** `shouldPersistResponse`. */
  predicate ShouldPersist(statusCode: int) {
    200 <= statusCode < 300
  }

  function CompleteRecord(t: Table, id: RequestId, response: Response): Table
    requires id in t
  {
    if ShouldPersist(response.statusCode) then t[id := t[id].(response := Some(response))]
    else t - {id}
  }

  // ----- the machine

  datatype Stage =
    | Looking                // before the first lookup
    | Inserting              // the lookup found nothing
    | Relooking              // the insert hit the unique constraint
    | Running                // the insert succeeded; the handler runs
    | Answered(answer: Answer)
    | Completed(response: Response)

  datatype Request = Request(slot: Slot, hash: Fingerprint, stage: Stage, alive: bool)

  datatype State = State(table: Table, requests: map<RequestId, Request>)

  const Init := State(map[], map[])

  datatype Step =
    | Arrive(id: RequestId, slot: Slot, hash: Fingerprint)
    | Find(id: RequestId, found: Option<RequestId>)
    | Insert(id: RequestId)
    | Complete(id: RequestId, response: Response)
    | Crash(id: RequestId)

  predicate At(s: State, id: RequestId, stage: Stage) {
    id in s.requests && s.requests[id].alive && s.requests[id].stage == stage
  }

  /** `found` is the record of the slot, or None when there is none. */
  predicate Finds(t: Table, slot: Slot, found: Option<RequestId>) {
    if found.Some? then found.value in t && t[found.value].slot == slot else !Taken(t, slot)
  }

  predicate Enabled(s: State, step: Step) {
    match step
    case Arrive(id, _, _) => id !in s.requests
    case Find(id, found) => (At(s, id, Looking) || At(s, id, Relooking)) && Finds(s.table, s.requests[id].slot, found)
    case Insert(id) => At(s, id, Inserting)
    case Complete(id, _) => At(s, id, Running) && id in s.table
    case Crash(id) => id in s.requests
  }

  function Goto(s: State, id: RequestId, stage: Stage): State
    requires id in s.requests
  {
    s.(requests := s.requests[id := s.requests[id].(stage := stage)])
  }

  function Apply(s: State, step: Step): State
    requires Enabled(s, step)
  {
    match step
    case Arrive(id, slot, hash) => s.(requests := s.requests[id := Request(slot, hash, Looking, true)])
    case Find(id, found) =>
      var r := s.requests[id];
      Goto(s, id,
           if found.Some? then Answered(Resolve(s.table[found.value], r.hash))
           else if r.stage == Looking then Inserting
           else Answered(LookupLost))
    case Insert(id) =>
      var r := s.requests[id];
      if Taken(s.table, r.slot) then Goto(s, id, Relooking)
      else Goto(s, id, Running).(table := s.table[id := Record(r.slot, r.hash, None)])
    case Complete(id, response) =>
      Goto(s, id, Completed(response)).(table := CompleteRecord(s.table, id, response))
    case Crash(id) => s.(requests := s.requests[id := s.requests[id].(alive := false)])
  }

  predicate Legal(s: State, steps: seq<Step>)
    decreases |steps|
  {
    steps == [] || (Enabled(s, steps[0]) && Legal(Apply(s, steps[0]), steps[1..]))
  }

  function Exec(s: State, steps: seq<Step>): State
    requires Legal(s, steps)
    decreases |steps|
  {
    if steps == [] then s else Exec(Apply(s, steps[0]), steps[1..])
  }

  // ----- invariant: records and running requests are the same thing

  ghost predicate RecordOk(s: State, id: RequestId)
    requires id in s.table
  {
    && id in s.requests && s.requests[id].slot == s.table[id].slot && s.requests[id].hash == s.table[id].hash
    && (if s.table[id].response.None? then s.requests[id].stage == Running
        else
          s.requests[id].stage == Completed(s.table[id].response.value)
          && ShouldPersist(s.table[id].response.value.statusCode))
  }

  ghost predicate RequestOk(s: State, id: RequestId)
    requires id in s.requests
  {
    var stage := s.requests[id].stage;
    && (stage == Running ==> id in s.table)
    && (stage.Completed? && ShouldPersist(stage.response.statusCode) ==> id in s.table)
    && stage != Answered(Run)
  }

  ghost predicate Valid(s: State) {
    && Unique(s.table)
    && (forall id | id in s.table :: RecordOk(s, id))
    && (forall id | id in s.requests :: RequestOk(s, id))
  }

  lemma StepKeepsUnique(s: State, step: Step)
    requires Valid(s) && Enabled(s, step)
    ensures Unique(Apply(s, step).table)
  {
  }

  lemma StepKeepsRecord(s: State, step: Step, id: RequestId)
    requires Valid(s) && Enabled(s, step) && id in Apply(s, step).table
    ensures RecordOk(Apply(s, step), id)
  {
    assert id in s.table ==> RecordOk(s, id);
  }

  lemma StepKeepsRequest(s: State, step: Step, id: RequestId)
    requires Valid(s) && Enabled(s, step) && id in Apply(s, step).requests
    ensures RequestOk(Apply(s, step), id)
  {
    assert id in s.requests ==> RequestOk(s, id);
  }

  lemma StepKeepsValid(s: State, step: Step)
    requires Valid(s) && Enabled(s, step)
    ensures Valid(Apply(s, step))
  {
    var s' := Apply(s, step);
    StepKeepsUnique(s, step);
    forall id | id in s'.table ensures RecordOk(s', id) { StepKeepsRecord(s, step, id); }
    forall id | id in s'.requests ensures RequestOk(s', id) { StepKeepsRequest(s, step, id); }
  }

  lemma {:induction false} RunKeepsValid(s: State, steps: seq<Step>)
    requires Valid(s) && Legal(s, steps)
    ensures Valid(Exec(s, steps))
    decreases |steps|
  {
    if steps != [] {
      StepKeepsValid(s, steps[0]);
      RunKeepsValid(Apply(s, steps[0]), steps[1..]);
    }
  }

  // ----- the atomic map that the protocol refines

  datatype Entry = Started(hash: Fingerprint) | Done(hash: Fingerprint, response: Response)

  type Atomic = map<Slot, Entry>

  function EntryOf(r: Record): Entry {
    if r.response.Some? && r.response.value.body.Some? then Done(r.hash, r.response.value) else Started(r.hash)
  }

  function SlotsOf(t: Table): set<Slot> {
    set i | i in t :: t[i].slot
  }

  /** The record of a taken slot. */
  ghost function RecordOf(t: Table, slot: Slot): RequestId
    requires Taken(t, slot)
    ensures RecordOf(t, slot) in t && t[RecordOf(t, slot)].slot == slot
  {
    var i :| i in t && t[i].slot == slot;
    i
  }

  ghost function Abs(t: Table): Atomic {
    map slot | slot in SlotsOf(t) :: EntryOf(t[RecordOf(t, slot)])
  }

  /** One atomic request: run if the slot is free, otherwise answer from its entry. */
  function Call(m: Atomic, slot: Slot, hash: Fingerprint): (Atomic, Answer) {
    if slot !in m then (m[slot := Started(hash)], Run)
    else if m[slot].hash != hash then (m, Conflict)
    else if m[slot].Started? then (m, InProgress)
    else (m, Replay(m[slot].response))
  }

  /** One atomic completion: keep a 2xx response if it has a body, free the slot if it is not 2xx. */
  function Finish(m: Atomic, slot: Slot, response: Response): Atomic
    requires slot in m
  {
    if !(200 <= response.statusCode <= 299) then m - {slot}
    else m[slot := if response.body.Some? then Done(m[slot].hash, response) else Started(m[slot].hash)]
  }

  lemma AbsAt(t: Table, id: RequestId)
    requires Unique(t) && id in t
    ensures t[id].slot in Abs(t) && Abs(t)[t[id].slot] == EntryOf(t[id])
  {
    assert t[id].slot in SlotsOf(t);
  }

  lemma AbsDomain(t: Table, slot: Slot)
    ensures slot in Abs(t) <==> Taken(t, slot)
  {
  }

  lemma AbsInsert(t: Table, id: RequestId, r: Record)
    requires Unique(t) && id !in t && !Taken(t, r.slot)
    ensures Unique(t[id := r]) && Abs(t[id := r]) == Abs(t)[r.slot := EntryOf(r)]
  {
    var t' := t[id := r];
    forall slot ensures slot in Abs(t') <==> slot in Abs(t) || slot == r.slot {
      AbsDomain(t, slot);
      AbsDomain(t', slot);
      assert t'[id].slot == r.slot;
      if i: RequestId :| i in t && t[i].slot == slot { assert t'[i].slot == slot; }
    }
    forall slot | slot in Abs(t') ensures Abs(t')[slot] == Abs(t)[r.slot := EntryOf(r)][slot] {
      var i := RecordOf(t', slot);
      AbsAt(t', i);
      if i != id { AbsAt(t, i); }
    }
  }

  lemma AbsComplete(t: Table, id: RequestId, response: Response)
    requires Unique(t) && id in t
    ensures t[id].slot in Abs(t) && Abs(CompleteRecord(t, id, response)) == Finish(Abs(t), t[id].slot, response)
  {
    AbsAt(t, id);
    var t', slot0 := CompleteRecord(t, id, response), t[id].slot;
    var m := Finish(Abs(t), slot0, response);
    forall slot ensures slot in Abs(t') <==> slot in m {
      AbsDomain(t, slot);
      AbsDomain(t', slot);
      if i: RequestId :| i in t && t[i].slot == slot {
        assert i in t' ==> t'[i].slot == slot;
      }
    }
    forall slot | slot in Abs(t') ensures Abs(t')[slot] == m[slot] {
      var i := RecordOf(t', slot);
      AbsAt(t', i);
      AbsAt(t, i);
    }
  }

  /** Does this step decide what its request is answered? */
  ghost predicate Decides(s: State, step: Step, answer: Answer) {
    && Enabled(s, step)
    && ((step.Find? && Apply(s, step).requests[step.id].stage == Answered(answer) && answer != LookupLost)
        || (step.Insert? && Apply(s, step).requests[step.id].stage == Running && answer == Run))
  }

  /** What the refinement asks of one step. */
  ghost predicate Refines(s: State, step: Step, answer: Answer)
    requires Enabled(s, step)
  {
    var m, m' := Abs(s.table), Abs(Apply(s, step).table);
    && (Decides(s, step, answer) ==> Call(m, s.requests[step.id].slot, s.requests[step.id].hash) == (m', answer))
    && (step.Complete? ==> s.requests[step.id].slot in m && m' == Finish(m, s.requests[step.id].slot, step.response))
    && (step.Arrive? || step.Crash? || step.Find? ==> m' == m)
    && (step.Insert? && Apply(s, step).requests[step.id].stage != Running ==> m' == m)
  }

  lemma FindRefines(s: State, id: RequestId, found: Option<RequestId>, answer: Answer)
    requires Valid(s) && Enabled(s, Find(id, found))
    ensures Refines(s, Find(id, found), answer)
  {
    if found.Some? { AbsAt(s.table, found.value); }
  }

  lemma InsertRefines(s: State, id: RequestId, answer: Answer)
    requires Valid(s) && Enabled(s, Insert(id))
    ensures Refines(s, Insert(id), answer)
  {
    var r := s.requests[id];
    AbsDomain(s.table, r.slot);
    assert forall i | i in s.table :: RecordOk(s, i);
    if !Taken(s.table, r.slot) { AbsInsert(s.table, id, Record(r.slot, r.hash, None)); }
  }

  lemma CompleteRefines(s: State, id: RequestId, response: Response, answer: Answer)
    requires Valid(s) && Enabled(s, Complete(id, response))
    ensures Refines(s, Complete(id, response), answer)
  {
    assert RecordOk(s, id);
    AbsComplete(s.table, id, response);
  }

  /**
   Refinement: a step that decides an answer is one atomic Call, a completion is one atomic Finish, and
   every other step leaves the atomic map as it was.
   */
  lemma StepRefines(s: State, step: Step, answer: Answer)
    requires Valid(s) && Enabled(s, step)
    ensures Refines(s, step, answer)
  {
    match step
    case Find(id, found) => FindRefines(s, id, found, answer);
    case Insert(id) => InsertRefines(s, id, answer);
    case Complete(id, response) => CompleteRefines(s, id, response, answer);
    case _ =>
  }

  // ----- results over runs

  /** The second lookup is the last: it answers from the record it finds, and gives up when it finds none. */
  lemma RelookAnswers(s: State, id: RequestId, found: Option<RequestId>)
    requires Valid(s) && At(s, id, Relooking) && Enabled(s, Find(id, found))
    ensures
      var stage := Apply(s, Find(id, found)).requests[id].stage;
      stage.Answered? && stage.answer != Run && (stage.answer == LookupLost <==> s.requests[id].slot !in Abs(s.table))
  {
    AbsDomain(s.table, s.requests[id].slot);
  }

  /** At most one request holds the right to run per key and path, dead or alive. */
  lemma OneRunner(steps: seq<Step>, i: RequestId, j: RequestId)
    requires Legal(Init, steps)
    requires
      var s := Exec(Init, steps);
      i in s.requests && j in s.requests && s.requests[i].slot == s.requests[j].slot
      && s.requests[i].stage == Running && s.requests[j].stage == Running
    ensures i == j
  {
    RunKeepsValid(Init, steps);
    var s := Exec(Init, steps);
    assert RequestOk(s, i) && RequestOk(s, j) && RecordOk(s, i) && RecordOk(s, j);
  }

  predicate Completes(s: State, step: Step, slot: Slot) {
    step.Complete? && step.id in s.requests && s.requests[step.id].slot == slot
  }

  /** No request of this slot completes during the run. */
  predicate NoneCompletes(s: State, steps: seq<Step>, slot: Slot)
    requires Legal(s, steps)
    decreases |steps|
  {
    steps == [] || (!Completes(s, steps[0], slot) && NoneCompletes(Apply(s, steps[0]), steps[1..], slot))
  }

  predicate PastInsert(r: Request, slot: Slot) {
    r.slot == slot && r.stage != Looking && r.stage != Inserting
  }

  ghost predicate SomeoneRuns(s: State, slot: Slot) {
    exists i :: i in s.requests && s.requests[i].slot == slot && s.requests[i].stage == Running
  }

  ghost predicate RunsOncePast(s: State, slot: Slot) {
    (exists i :: i in s.requests && PastInsert(s.requests[i], slot)) ==> SomeoneRuns(s, slot)
  }

  lemma StepKeepsRunner(s: State, step: Step, slot: Slot)
    requires Valid(s) && Enabled(s, step) && RunsOncePast(s, slot) && !Completes(s, step, slot)
    ensures RunsOncePast(Apply(s, step), slot)
  {
    var s' := Apply(s, step);
    if i :| i in s'.requests && PastInsert(s'.requests[i], slot) {
      if SomeoneRuns(s, slot) {
        var j :| j in s.requests && s.requests[j].slot == slot && s.requests[j].stage == Running;
        assert s'.requests[j].slot == slot && s'.requests[j].stage == Running;
      } else {
        assert i in s.requests ==> !PastInsert(s.requests[i], slot);
        assert forall r | r in s.table :: RecordOk(s, r);
        assert s'.requests[i].stage == Running;
      }
    }
  }

  lemma {:induction false} RunKeepsRunner(s: State, steps: seq<Step>, slot: Slot)
    requires Valid(s) && Legal(s, steps) && RunsOncePast(s, slot) && NoneCompletes(s, steps, slot)
    ensures RunsOncePast(Exec(s, steps), slot)
    decreases |steps|
  {
    if steps != [] {
      StepKeepsRunner(s, steps[0], slot);
      StepKeepsValid(s, steps[0]);
      RunKeepsRunner(Apply(s, steps[0]), steps[1..], slot);
    }
  }

  /** Of any number of requests for one slot, exactly one gets to run: as soon as one is past its insert, one runs. */
  lemma ExactlyOneRuns(steps: seq<Step>, slot: Slot, i: RequestId)
    requires Legal(Init, steps) && NoneCompletes(Init, steps, slot)
    requires var s := Exec(Init, steps); i in s.requests && PastInsert(s.requests[i], slot)
    ensures
      var s := Exec(Init, steps);
      exists j :: j in s.requests && s.requests[j].slot == slot && s.requests[j].stage == Running
                  && forall k | k in s.requests && s.requests[k].slot == slot && s.requests[k].stage == Running ::
                     k == j
  {
    RunKeepsRunner(Init, steps, slot);
    var s := Exec(Init, steps);
    assert SomeoneRuns(s, slot);
    var j :| j in s.requests && s.requests[j].slot == slot && s.requests[j].stage == Running;
    forall k | k in s.requests && s.requests[k].slot == slot && s.requests[k].stage == Running ensures k == j {
      OneRunner(steps, k, j);
    }
  }

  predicate Stored(s: State, i: RequestId, record: Record) {
    i in s.table && s.table[i] == record && record.response.Some?
  }

  function Due(record: Record, hash: Fingerprint): Answer
    requires record.response.Some?
  {
    if hash != record.hash then Conflict
    else if record.response.value.body.None? then InProgress
    else Replay(record.response.value)
  }

  /** A request that is not answered when the response is stored, wherever it stands, or that arrives later. */
  predicate Unanswered(stage: Stage) {
    stage == Looking || stage == Inserting || stage == Relooking
  }

  /** Such a request is still unanswered, or got the stored response. */
  ghost predicate LateIsServed(s: State, record: Record, late: RequestId)
    requires record.response.Some?
  {
    late in s.requests && s.requests[late].slot == record.slot ==>
      Unanswered(s.requests[late].stage) || s.requests[late].stage == Answered(Due(record, s.requests[late].hash))
  }

  lemma StepServesLate(s: State, i: RequestId, record: Record, late: RequestId, step: Step)
    requires Valid(s) && Stored(s, i, record) && Enabled(s, step) && LateIsServed(s, record, late)
    ensures Stored(Apply(s, step), i, record) && LateIsServed(Apply(s, step), record, late)
  {
    assert RecordOk(s, i);
    assert Taken(s.table, record.slot);
  }

  /**
   Once a response is stored it stays, and every request of its slot that was not answered before, or arrives
   later, with the same payload gets exactly it, if and only if it has a body; without one the slot looks in
   progress for ever.  Another payload gets a conflict.  This includes requests that lose their insert and look
   up again.
   */
  lemma {:induction false} StoredResponseIsReplayed(s: State, i: RequestId, record: Record, late: RequestId,
                                                    steps: seq<Step>)
    requires Valid(s) && Stored(s, i, record) && Legal(s, steps) && LateIsServed(s, record, late)
    ensures var s' := Exec(s, steps); Stored(s', i, record) && LateIsServed(s', record, late)
    decreases |steps|
  {
    if steps != [] {
      StepServesLate(s, i, record, late, steps[0]);
      StepKeepsValid(s, steps[0]);
      StoredResponseIsReplayed(Apply(s, steps[0]), i, record, late, steps[1..]);
    }
  }
}
