/**
 The life of a transaction row: its documented moves, when the sweep lists only rows whose handler is gone
 (A3) and no handler enters its catch arm after markSubmitted returned (A4), and exactly which writes
 leave them when nothing is assumed.
 */
module Lifecycle {
  import opened Options
  import opened Rows
  import opened Blocks
  import opened Protocol
  import opened Invariants
  import opened Balances
  import opened Exclusion

  /** The moves the design documents: CREATED to SUBMITTED or FAILED, SUBMITTED to CONFIRMED or REVERTED. */
  predicate StatusMove(x: TransactionStatus, y: TransactionStatus) {
    || x == y
    || (x == TransactionStatus.CREATED && (y == TransactionStatus.SUBMITTED || y == TransactionStatus.FAILED))
    || (x == TransactionStatus.SUBMITTED && (y == TransactionStatus.CONFIRMED || y == TransactionStatus.REVERTED))
  }

  /** A row without a hash is CREATED or FAILED; a handler that ended with an error left a FAILED row or none. */
  predicate Tracked(d: Tables, id: Id, h: Handler) {
    id in d.transactions ==>
      && var t := d.transactions[id];
      && (t.txHash.None? ==> t.status == TransactionStatus.CREATED || t.status == TransactionStatus.FAILED)
      && (t.txHash.Some? ==> t.status != TransactionStatus.CREATED && t.status != TransactionStatus.FAILED)
      && (h.pc == CatchRow ==> t.txHash.None?)
      && (h.pc == CatchPosition || h.pc == Finished(false) ==> Abandoned(d, id))
  }

  ghost predicate AllTracked(s: State) {
    forall id | id in s.handlers :: Tracked(s.tables, id, s.handlers[id])
  }

  lemma TurnTracks(c: Chain, d: Tables, id: Id, h: Handler, act: Act)
    requires CanAct(c, d, id, h, act) && LocalOk(c, d, id, h) && NotSwept(d, id, h) && Tracked(d, id, h)
    requires act.Throw? ==> BeforeSubmit(h.pc)
    ensures
      var turn := Perform(c, d, id, h, act);
      && Tracked(turn.tables, id, turn.handler)
      && (id in d.transactions ==> StatusMove(d.transactions[id].status, turn.tables.transactions[id].status))
  {
  }

  lemma WorkTracks(c: Chain, d: Tables, w: Work, move: Move, h: Handler)
    requires CanWork(c, d, w, move) && WorkOk(d, w) && LocalOk(c, d, w.id, h) && WorkStale(d, w, h)
    requires Tracked(d, w.id, h)
    ensures
      var stage := DoWork(c, d, w, move);
      && Tracked(stage.tables, w.id, h)
      && StatusMove(d.transactions[w.id].status, stage.tables.transactions[w.id].status)
  {
  }

  /** One step takes every row along a documented move, although updateStatus itself is unconditional. */
  ghost predicate MovesStatuses(d: Tables, d': Tables) {
    forall t | t in d.transactions ::
      t in d'.transactions && StatusMove(d.transactions[t].status, d'.transactions[t].status)
  }

  lemma AdvanceKeepsTracked(s: State, d: Tables, id: Id, h: Handler)
    requires AllTracked(s) && id in s.handlers && Touches(s.tables, d, id, h.position)
    requires Tracked(d, id, h)
    requires id in s.tables.transactions ==> StatusMove(s.tables.transactions[id].status, d.transactions[id].status)
    ensures AllTracked(s.(tables := d, handlers := s.handlers[id := h]))
    ensures MovesStatuses(s.tables, d)
  {
  }

  lemma HandleTracks(c: Chain, a: Assumptions, s: State, id: Id, act: Act)
    requires Base(c, s) && Guarded(c, s) && AllTracked(s)
    requires Enabled(c, s, Handle(id, act)) && Obeys(a, s, Handle(id, act)) && a.noLateThrow
    ensures var s' := Apply(c, s, Handle(id, act)); AllTracked(s') && MovesStatuses(s.tables, s'.tables)
  {
    var h := s.handlers[id];
    assert LocalOk(c, s.tables, id, h) && NotSwept(s.tables, id, h) && Tracked(s.tables, id, h);
    var turn := Perform(c, s.tables, id, h, act);
    TurnTouches(c, s.tables, id, h, act);
    TurnTracks(c, s.tables, id, h, act);
    AdvanceKeepsTracked(s, turn.tables, id, turn.handler);
  }

  lemma DriveTracks(c: Chain, s: State, p: nat, move: Move)
    requires Base(c, s) && Guarded(c, s) && AllTracked(s) && Enabled(c, s, Drive(p, move)) && !move.ListPending?
    ensures var s' := Apply(c, s, Drive(p, move)); AllTracked(s') && MovesStatuses(s.tables, s'.tables)
  {
    var w := s.passes[p].todo[0];
    assert w in s.passes[p].todo && WorkOk(s.tables, w) && WorkStale(s.tables, w, s.handlers[w.id]);
    var h := s.handlers[w.id];
    assert LocalOk(c, s.tables, w.id, h) && Tracked(s.tables, w.id, h);
    WorkKeeps(c, s.tables, w, move, h);
    WorkTracks(c, s.tables, w, move, h);
    AdvanceKeepsTracked(s, DoWork(c, s.tables, w, move).tables, w.id, h);
    assert s.handlers[w.id := h] == s.handlers;
  }

  lemma StepTracks(c: Chain, a: Assumptions, s: State, step: Step)
    requires Base(c, s) && Guarded(c, s) && AllTracked(s)
    requires Enabled(c, s, step) && Obeys(a, s, step) && a.noLateThrow
    ensures AllTracked(Apply(c, s, step)) && MovesStatuses(s.tables, Apply(c, s, step).tables)
  {
    if step.Handle? {
      HandleTracks(c, a, s, step.id, step.act);
    } else if step.Drive? && !step.move.ListPending? {
      DriveTracks(c, s, step.p, step.move);
    } else {
      var s' := Apply(c, s, step);
      assert s'.tables == s.tables;
      assert step.Arrive? ==> step.id !in s.tables.transactions;
    }
  }

  // ----- with no assumption: a request that has given up

  /** Past the first write of its catch arm, or ended before it reserved. */
  predicate GivenUp(pc: Pc) {
    pc == CatchPosition || pc == Finished(false)
  }

  /** Its row can no longer be confirmed. */
  predicate Unconfirmable(d: Tables, id: Id, h: Handler) {
    GivenUp(h.pc) && id in d.transactions ==> d.transactions[id].status != TransactionStatus.SUBMITTED
  }

  ghost predicate AllUnconfirmable(s: State) {
    forall id | id in s.handlers :: Unconfirmable(s.tables, id, s.handlers[id])
  }

  lemma TurnKeepsUnconfirmable(c: Chain, d: Tables, id: Id, h: Handler, act: Act)
    requires CanAct(c, d, id, h, act) && LocalOk(c, d, id, h) && Unconfirmable(d, id, h)
    ensures
      var turn := Perform(c, d, id, h, act);
      Unconfirmable(turn.tables, id, turn.handler) && (GivenUp(h.pc) ==> GivenUp(turn.handler.pc) && turn.moved == [])
  {
  }

  lemma WorkKeepsUnconfirmable(c: Chain, d: Tables, w: Work, move: Move, id: Id, h: Handler)
    requires CanWork(c, d, w, move) && Unconfirmable(d, id, h)
    ensures
      var stage := DoWork(c, d, w, move);
      && Unconfirmable(stage.tables, id, h)
      && (GivenUp(h.pc) && stage.moved != [] ==> stage.moved[0].id != id) && |stage.moved| <= 1
  {
  }

  /** Every step keeps this, and none applies anything for a request that has given up. */
  lemma StepAppliesNothing(c: Chain, s: State, step: Step, id: Id)
    requires Base(c, s) && AllUnconfirmable(s) && Enabled(c, s, step)
    requires id in s.handlers && GivenUp(s.handlers[id].pc)
    ensures
      var s' := Apply(c, s, step);
      id in s'.handlers && GivenUp(s'.handlers[id].pc) && (Logged(s'.log, id) <==> Logged(s.log, id))
  {
    var s' := Apply(c, s, step);
    if step.Handle? {
      var h := s.handlers[step.id];
      assert LocalOk(c, s.tables, step.id, h);
      TurnTouches(c, s.tables, step.id, h, step.act);
      TurnKeepsUnconfirmable(c, s.tables, step.id, h, step.act);
      LoggedAfter(s.log, Perform(c, s.tables, step.id, h, step.act).moved, id);
    } else if step.Drive? && !step.move.ListPending? {
      var w := s.passes[step.p].todo[0];
      WorkKeepsUnconfirmable(c, s.tables, w, step.move, id, s.handlers[id]);
      LoggedAfter(s.log, DoWork(c, s.tables, w, step.move).moved, id);
    }
  }

  lemma LoggedAfter(log: seq<Entry>, moved: seq<Entry>, id: Id)
    requires |moved| <= 1 && (moved != [] ==> moved[0].id != id)
    ensures Logged(log + moved, id) <==> Logged(log, id)
  {
    if Logged(log, id) { StillLogged(log, moved, id); }
    if i :| 0 <= i < |log + moved| && (log + moved)[i].id == id {
      assert i < |log| && log[i].id == id;
    }
  }

  lemma StepKeepsUnconfirmable(c: Chain, s: State, step: Step)
    requires Base(c, s) && AllUnconfirmable(s) && Enabled(c, s, step)
    ensures AllUnconfirmable(Apply(c, s, step))
  {
    if step.Handle? {
      var h := s.handlers[step.id];
      assert LocalOk(c, s.tables, step.id, h);
      TurnTouches(c, s.tables, step.id, h, step.act);
      TurnKeepsUnconfirmable(c, s.tables, step.id, h, step.act);
    } else if step.Drive? && !step.move.ListPending? {
      forall id | id in s.handlers ensures Unconfirmable(Apply(c, s, step).tables, id, s.handlers[id]) {
        WorkKeepsUnconfirmable(c, s.tables, s.passes[step.p].todo[0], step.move, id, s.handlers[id]);
      }
    } else if step.Arrive? {
      assert step.id !in s.tables.transactions;
    }
  }

  // ----- under A4 alone

  /** A handler that ended or is ending with an error never got a hash. */
  predicate Unsent(d: Tables, id: Id, h: Handler) {
    (h.pc == CatchRow || h.pc == CatchPosition || h.pc == Finished(false)) && id in d.transactions ==>
        d.transactions[id].txHash.None?
  }

  ghost predicate AllUnsent(s: State) {
    forall id | id in s.handlers :: Unsent(s.tables, id, s.handlers[id])
  }

  lemma TurnKeepsUnsent(c: Chain, d: Tables, id: Id, h: Handler, act: Act)
    requires CanAct(c, d, id, h, act) && LocalOk(c, d, id, h) && Unsent(d, id, h)
    requires act.Throw? ==> BeforeSubmit(h.pc)
    ensures var turn := Perform(c, d, id, h, act); Unsent(turn.tables, id, turn.handler)
  {
  }

  /** A pass writes no hash. */
  lemma WorkWritesNoHash(c: Chain, d: Tables, w: Work, move: Move)
    requires CanWork(c, d, w, move)
    ensures
      forall t | t in DoWork(c, d, w, move).tables.transactions ::
        t in d.transactions && DoWork(c, d, w, move).tables.transactions[t].txHash == d.transactions[t].txHash
  {
  }

  lemma StepKeepsUnsent(c: Chain, a: Assumptions, s: State, step: Step)
    requires Base(c, s) && AllUnsent(s) && Enabled(c, s, step) && Obeys(a, s, step) && a.noLateThrow
    ensures AllUnsent(Apply(c, s, step))
  {
    if step.Handle? {
      var h := s.handlers[step.id];
      assert LocalOk(c, s.tables, step.id, h);
      TurnTouches(c, s.tables, step.id, h, step.act);
      TurnKeepsUnsent(c, s.tables, step.id, h, step.act);
    } else if step.Drive? && !step.move.ListPending? {
      WorkWritesNoHash(c, s.tables, s.passes[step.p].todo[0], step.move);
    }
  }

  // ----- with no assumption: exactly which writes leave the documented moves

  predicate FailStaleIsNext(s: State, step: Step, t: Id) {
    && step.Drive? && !step.move.ListPending? && step.p in s.passes && s.passes[step.p].todo != []
    && s.passes[step.p].todo[0].FailStale? && s.passes[step.p].todo[0].id == t
  }

  /** The two writes that set a row FAILED: the catch arm of its own request, and a sweep. */
  predicate FailsRow(s: State, step: Step, t: Id) {
    step == Handle(t, CatchFirst) || FailStaleIsNext(s, step, t)
  }

  predicate SettleRevertsNext(c: Chain, s: State, step: Step, t: Id) {
    && step.Drive? && step.move.Reconciled? && step.p in s.passes && s.passes[step.p].todo != []
    && var w := s.passes[step.p].todo[0];
    w.Settle? && w.id == t && Reverted(c, w.row.txHash)
  }

  /** The writes that set a row REVERTED: its own handler's, and a pass's. */
  predicate RevertsRow(c: Chain, s: State, step: Step, t: Id) {
    || (t in s.handlers
           && step == Handle(t, if s.handlers[t].request.DepositRequest? then RevertSecond else RevertFirst))
    || SettleRevertsNext(c, s, step, t)
  }

  /** A write that finds the row in a status it was not meant for. */
  predicate Misplaced(c: Chain, s: State, step: Step, t: Id)
    requires t in s.tables.transactions
  {
    var x := s.tables.transactions[t].status;
    || (FailsRow(s, step, t) && x != TransactionStatus.CREATED && x != TransactionStatus.FAILED)
    || (RevertsRow(c, s, step, t) && x != TransactionStatus.SUBMITTED && x != TransactionStatus.REVERTED)
    || (step == Handle(t, Submit) && x != TransactionStatus.CREATED)
  }

  lemma OwnTurnMovesIff(c: Chain, s: State, t: Id, act: Act)
    requires Enabled(c, s, Handle(t, act)) && LocalOk(c, s.tables, t, s.handlers[t]) && t in s.tables.transactions
    ensures
      var turn := Perform(c, s.tables, t, s.handlers[t], act);
      t in turn.tables.transactions
      && (StatusMove(s.tables.transactions[t].status, turn.tables.transactions[t].status)
          <==> !Misplaced(c, s, Handle(t, act), t))
  {
  }

  lemma OwnWorkMovesIff(c: Chain, s: State, p: nat, move: Move)
    requires Enabled(c, s, Drive(p, move)) && !move.ListPending?
    requires
      var w := s.passes[p].todo[0];
      WorkOk(s.tables, w) && w.id in s.handlers && LocalOk(c, s.tables, w.id, s.handlers[w.id])
    ensures
      var w := s.passes[p].todo[0];
      var stage := DoWork(c, s.tables, w, move);
      w.id in stage.tables.transactions
      && (StatusMove(s.tables.transactions[w.id].status, stage.tables.transactions[w.id].status)
          <==> !Misplaced(c, s, Drive(p, move), w.id))
  {
  }

  lemma OtherRowStays(c: Chain, s: State, step: Step, t: Id)
    requires Base(c, s) && Enabled(c, s, step) && t in s.tables.transactions
    requires step.Handle? ==> step.id != t
    requires step.Drive? && !step.move.ListPending? ==> s.passes[step.p].todo[0].id != t
    ensures var d' := Apply(c, s, step).tables; t in d'.transactions && d'.transactions[t] == s.tables.transactions[t]
  {
    if step.Handle? {
      assert LocalOk(c, s.tables, step.id, s.handlers[step.id]);
      TurnTouches(c, s.tables, step.id, s.handlers[step.id], step.act);
    } else if step.Drive? && !step.move.ListPending? {
      var w := s.passes[step.p].todo[0];
      assert w in s.passes[step.p].todo && WorkOk(s.tables, w) && LocalOk(c, s.tables, w.id, s.handlers[w.id]);
      WorkKeeps(c, s.tables, w, step.move, s.handlers[w.id]);
    }
  }

  /** Exactly which steps take a row along an undocumented move. */
  lemma MoveIsDocumentedIff(c: Chain, s: State, step: Step, t: Id)
    requires Base(c, s) && Enabled(c, s, step) && t in s.tables.transactions
    ensures t in Apply(c, s, step).tables.transactions
    ensures
      StatusMove(s.tables.transactions[t].status, Apply(c, s, step).tables.transactions[t].status)
      <==> !Misplaced(c, s, step, t)
  {
    if step.Handle? && step.id == t {
      assert LocalOk(c, s.tables, t, s.handlers[t]);
      OwnTurnMovesIff(c, s, t, step.act);
    } else if step.Drive? && !step.move.ListPending? && s.passes[step.p].todo[0].id == t {
      var w := s.passes[step.p].todo[0];
      assert w in s.passes[step.p].todo && WorkOk(s.tables, w) && LocalOk(c, s.tables, t, s.handlers[t]);
      OwnWorkMovesIff(c, s, step.p, step.move);
    } else {
      OtherRowStays(c, s, step, t);
    }
  }

  /** Exactly which steps make a CONFIRMED row forget it: the catch arm of its own request, and a sweep of the row. */
  lemma ConfirmationIsForgottenIff(c: Chain, s: State, step: Step, t: Id)
    requires Base(c, s) && Enabled(c, s, step)
    requires t in s.tables.transactions && s.tables.transactions[t].status == TransactionStatus.CONFIRMED
    ensures t in Apply(c, s, step).tables.transactions
    ensures Apply(c, s, step).tables.transactions[t].status != TransactionStatus.CONFIRMED <==> FailsRow(s, step, t)
  {
    MoveIsDocumentedIff(c, s, step, t);
    NothingElseMisplaced(c, s, step, t);
  }

  /** The other misplaced writes never meet a CONFIRMED row: its receipt is a success and its handler has submitted. */
  lemma NothingElseMisplaced(c: Chain, s: State, step: Step, t: Id)
    requires Base(c, s) && Enabled(c, s, step)
    requires t in s.tables.transactions && s.tables.transactions[t].status == TransactionStatus.CONFIRMED
    ensures Misplaced(c, s, step, t) <==> FailsRow(s, step, t)
  {
    assert LocalOk(c, s.tables, t, s.handlers[t]);
    if step.Drive? && !step.move.ListPending? {
      var w := s.passes[step.p].todo[0];
      assert w in s.passes[step.p].todo && WorkOk(s.tables, w);
    }
  }
}
