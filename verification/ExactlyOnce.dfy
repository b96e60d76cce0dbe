/**
 The two protocols together: the idempotency layer starts a deposit or withdraw handler when its insert
 succeeds, and completes when that handler returns; 2xx exactly when the handler did not fail.

 Whatever the interleaving, with crashes and overlapping passes, all requests under one key and path
 change a position's balance at most once, and a request that freed its key never changes one (A4).  Without
 A4 a key can be used twice only if a request was applied, threw late and freed it.
 */
module ExactlyOnce {
  import opened Options
  import opened Rows
  import opened Blocks
  import P = Protocol
  import Invariants
  import Balances
  import Exclusion
  import Lifecycle
  import I = Idempotency

  datatype World = World(core: P.State, web: I.State)

  datatype Step =
    | Web(step: I.Step)                                                      // arrivals, lookups, lost inserts, crashes
    | Begin(id: I.RequestId, request: P.Request, position: PositionKey)      // the insert that wins starts the handler
    | Core(action: P.Step)
    | End(id: I.RequestId, response: I.Response)

  const Init := World(P.Init, I.Init)

  predicate InsertWins(w: World, id: I.RequestId) {
    id in w.web.requests && !I.Taken(w.web.table, w.web.requests[id].slot)
  }

  predicate Enabled(c: P.Chain, a: P.Assumptions, w: World, step: Step) {
    match step
    case Web(s) => I.Enabled(w.web, s) && !s.Complete? && (s.Insert? ==> !InsertWins(w, s.id))
    case Begin(id, request, position) =>
      I.Enabled(w.web, I.Insert(id)) && InsertWins(w, id) && P.Enabled(c, w.core, P.Arrive(id, request, position))
    case Core(s) => P.Enabled(c, w.core, s) && P.Obeys(a, w.core, s) && !s.Arrive?
    case End(id, response) =>
      && I.Enabled(w.web, I.Complete(id, response)) && id in w.core.handlers
      && w.core.handlers[id].pc.Finished? && w.core.handlers[id].alive
      && (I.ShouldPersist(response.statusCode) <==> w.core.handlers[id].pc.ok)
  }

  function Apply(c: P.Chain, a: P.Assumptions, w: World, step: Step): World
    requires Enabled(c, a, w, step)
  {
    match step
    case Web(s) => w.(web := I.Apply(w.web, s))
    case Begin(id, request, position) =>
      World(P.Apply(c, w.core, P.Arrive(id, request, position)), I.Apply(w.web, I.Insert(id)))
    case Core(s) => w.(core := P.Apply(c, w.core, s))
    case End(id, response) => w.(web := I.Apply(w.web, I.Complete(id, response)))
  }

  predicate Legal(c: P.Chain, a: P.Assumptions, w: World, steps: seq<Step>)
    decreases |steps|
  {
    steps == [] || (Enabled(c, a, w, steps[0]) && Legal(c, a, Apply(c, a, w, steps[0]), steps[1..]))
  }

  function Exec(c: P.Chain, a: P.Assumptions, w: World, steps: seq<Step>): World
    requires Legal(c, a, w, steps)
    decreases |steps|
  {
    if steps == [] then w else Exec(c, a, Apply(c, a, w, steps[0]), steps[1..])
  }

  // ----- how the layers hang together

  predicate Linked(w: World, id: Id) {
    && (id in w.core.handlers ==>
          id in w.web.requests && (w.web.requests[id].stage == I.Running || w.web.requests[id].stage.Completed?))
    && (id in w.web.requests && w.web.requests[id].stage.Completed? ==>
          id in w.core.handlers
              && w.core.handlers[id].pc == P.Finished(I.ShouldPersist(w.web.requests[id].stage.response.statusCode)))
  }

  ghost predicate Valid(c: P.Chain, a: P.Assumptions, w: World) {
    && Invariants.Base(c, w.core) && Lifecycle.AllUnconfirmable(w.core)
    && (a.noLateThrow ==> Lifecycle.AllUnsent(w.core))
    && I.Valid(w.web) && forall id: Id :: Linked(w, id)
  }

  /** A finished handler stays finished. */
  lemma FinishedStays(c: P.Chain, s: P.State, step: P.Step, id: Id)
    requires P.Enabled(c, s, step) && id in s.handlers && s.handlers[id].pc.Finished?
    ensures id in P.Apply(c, s, step).handlers && P.Apply(c, s, step).handlers[id].pc == s.handlers[id].pc
  {
  }

  lemma CoreKeepsHandlers(c: P.Chain, s: P.State, step: P.Step)
    requires P.Enabled(c, s, step) && !step.Arrive?
    ensures P.Apply(c, s, step).handlers.Keys == s.handlers.Keys
  {
  }

  lemma StepKeepsLinks(c: P.Chain, a: P.Assumptions, w: World, step: Step, id: Id)
    requires Enabled(c, a, w, step) && Linked(w, id)
    ensures Linked(Apply(c, a, w, step), id)
  {
    if step.Core? {
      CoreKeepsHandlers(c, w.core, step.action);
      assert id in P.Apply(c, w.core, step.action).handlers <==> id in w.core.handlers;
      if id in w.core.handlers && w.core.handlers[id].pc.Finished? { FinishedStays(c, w.core, step.action, id); }
    }
  }

  lemma StepKeepsValid(c: P.Chain, a: P.Assumptions, w: World, step: Step)
    requires Valid(c, a, w) && Enabled(c, a, w, step)
    ensures Valid(c, a, Apply(c, a, w, step))
  {
    forall id: Id ensures Linked(Apply(c, a, w, step), id) {
      StepKeepsLinks(c, a, w, step, id);
    }
    match step
    case Web(s) => I.StepKeepsValid(w.web, s);
    case Begin(id, request, position) =>
      I.StepKeepsValid(w.web, I.Insert(id));
      Invariants.StepKeepsBase(c, w.core, P.Arrive(id, request, position));
      Lifecycle.StepKeepsUnconfirmable(c, w.core, P.Arrive(id, request, position));
      if a.noLateThrow { Lifecycle.StepKeepsUnsent(c, a, w.core, P.Arrive(id, request, position)); }
    case Core(s) =>
      Invariants.StepKeepsBase(c, w.core, s);
      Lifecycle.StepKeepsUnconfirmable(c, w.core, s);
      if a.noLateThrow { Lifecycle.StepKeepsUnsent(c, a, w.core, s); }
    case End(id, response) => I.StepKeepsValid(w.web, I.Complete(id, response));
  }

  lemma {:induction false} RunKeepsValid(c: P.Chain, a: P.Assumptions, w: World, steps: seq<Step>)
    requires Valid(c, a, w) && Legal(c, a, w, steps)
    ensures Valid(c, a, Exec(c, a, w, steps))
    decreases |steps|
  {
    if steps != [] {
      StepKeepsValid(c, a, w, steps[0]);
      RunKeepsValid(c, a, Apply(c, a, w, steps[0]), steps[1..]);
    }
  }

  lemma InitIsValid(c: P.Chain, a: P.Assumptions)
    ensures Valid(c, a, Init)
  {
  }

  /** The request has completed without a 2xx, which freed its key. */
  predicate Freed(w: World, id: Id) {
    id in w.web.requests && w.web.requests[id].stage.Completed?
    && !I.ShouldPersist(w.web.requests[id].stage.response.statusCode)
  }

  predicate OwnsItsKey(w: World, id: Id) {
    id in w.web.requests && id in w.web.table && w.web.table[id].slot == w.web.requests[id].slot
  }

  /** A request with a logged balance change still owns the record of its key, unless it freed it. */
  lemma AppliedOwnsItsKey(c: P.Chain, a: P.Assumptions, w: World, i: nat)
    requires Valid(c, a, w) && i < |w.core.log|
    ensures w.core.log[i].id in w.web.requests
    ensures Freed(w, w.core.log[i].id) || OwnsItsKey(w, w.core.log[i].id)
    ensures a.noLateThrow ==> !Freed(w, w.core.log[i].id)
  {
    var id := w.core.log[i].id;
    assert Invariants.EntryOk(w.core.tables, w.core.log[i]);
    assert a.noLateThrow ==> Lifecycle.Unsent(w.core.tables, id, w.core.handlers[id]);
    assert Linked(w, id);
    assert I.RequestOk(w.web, id);
    if id in w.web.table { assert I.RecordOk(w.web, id); }
  }

  /**
   Two balance changes under one key and path need two requests, and one of these was applied and yet freed the key:
   its handler threw after it had been applied.
   */
  lemma TwicePerKeyNeedsFreed(c: P.Chain, a: P.Assumptions, steps: seq<Step>, i: nat, j: nat)
    requires Legal(c, a, Init, steps)
    requires var log := Exec(c, a, Init, steps).core.log; i < |log| && j < |log| && i != j
    ensures
      var w := Exec(c, a, Init, steps);
      var one, two := w.core.log[i].id, w.core.log[j].id;
      && one in w.web.requests && two in w.web.requests
      && (w.web.requests[one].slot == w.web.requests[two].slot ==> one != two && (Freed(w, one) || Freed(w, two)))
  {
    InitIsValid(c, a);
    RunKeepsValid(c, a, Init, steps);
    var w := Exec(c, a, Init, steps);
    AppliedOwnsItsKey(c, a, w, i);
    AppliedOwnsItsKey(c, a, w, j);
    assert Invariants.LogOk(w.core) && I.Unique(w.web.table);
  }

  /** All requests under one key and path change a balance at most once, over both layers. */
  lemma OncePerKey(c: P.Chain, a: P.Assumptions, steps: seq<Step>, i: nat, j: nat)
    requires a.noLateThrow && Legal(c, a, Init, steps)
    requires var log := Exec(c, a, Init, steps).core.log; i < |log| && j < |log|
    ensures
      var w := Exec(c, a, Init, steps);
      && w.core.log[i].id in w.web.requests && w.core.log[j].id in w.web.requests
      && (w.web.requests[w.core.log[i].id].slot == w.web.requests[w.core.log[j].id].slot ==> i == j)
  {
    InitIsValid(c, a);
    RunKeepsValid(c, a, Init, steps);
    AppliedOwnsItsKey(c, a, Exec(c, a, Init, steps), i);
    AppliedOwnsItsKey(c, a, Exec(c, a, Init, steps), j);
    if i != j { TwicePerKeyNeedsFreed(c, a, steps, i, j); }
  }

  lemma StepKeepsFreed(c: P.Chain, a: P.Assumptions, w: World, step: Step, id: Id)
    requires Valid(c, a, w) && Enabled(c, a, w, step) && Freed(w, id)
    ensures Freed(Apply(c, a, w, step), id)
    ensures Exclusion.Logged(Apply(c, a, w, step).core.log, id) <==> Exclusion.Logged(w.core.log, id)
  {
    assert Linked(w, id);
    match step
    case Core(s) => Lifecycle.StepAppliesNothing(c, w.core, s, id);
    case Begin(i, request, position) => Lifecycle.StepAppliesNothing(c, w.core, P.Arrive(i, request, position), id);
    case _ =>
  }

  /** With no assumption: from the moment a request has freed its key, it changes no balance. */
  lemma {:induction false} FreedAppliesNoMore(c: P.Chain, a: P.Assumptions, w: World, id: Id, steps: seq<Step>)
    requires Valid(c, a, w) && Freed(w, id) && Legal(c, a, w, steps)
    ensures Freed(Exec(c, a, w, steps), id)
    ensures Exclusion.Logged(Exec(c, a, w, steps).core.log, id) <==> Exclusion.Logged(w.core.log, id)
    decreases |steps|
  {
    if steps != [] {
      StepKeepsValid(c, a, w, steps[0]);
      StepKeepsFreed(c, a, w, steps[0], id);
      FreedAppliesNoMore(c, a, Apply(c, a, w, steps[0]), id, steps[1..]);
    }
  }

  /** Under A4: a request that completed without a 2xx, and so freed its key, has changed no balance and never will. */
  lemma FreedNeverApplies(c: P.Chain, a: P.Assumptions, w: World, id: Id, steps: seq<Step>)
    requires a.noLateThrow && Valid(c, a, w) && Freed(w, id) && Legal(c, a, w, steps)
    ensures Freed(Exec(c, a, w, steps), id) && !Exclusion.Logged(Exec(c, a, w, steps).core.log, id)
  {
    forall i | 0 <= i < |w.core.log| ensures w.core.log[i].id != id {
      AppliedOwnsItsKey(c, a, w, i);
    }
    FreedAppliesNoMore(c, a, w, id, steps);
  }
}
