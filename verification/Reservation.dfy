/**
 A first deposit or a withdraw that has its position to itself, from its reservation on (A3, A4).
 It either gets a hash, and from then on `Recovery` applies, or ends FAILED; a failed withdraw has
 freed its position exactly if its handler came to the end of its catch arm.
 */
module Reservation {
  import opened Options
  import opened Rows
  import opened Blocks
  import opened Protocol
  import opened Invariants
  import opened Balances
  import opened Exclusion
  import opened Lifecycle
  import opened Runs
  import opened Recovery

  /**
   A failed withdraw holds its position until its catch arm ends; a failed deposit's new position fails at some time.
   */
  predicate FailedOk(t: Transaction, h: Handler, p: Position, balance: int) {
    if t.kind == WITHDRAW then p == Holding(if h.pc == Finished(false) then ACTIVE else WITHDRAWING, balance)
    else p == FailedPosition || (p == PendingPosition() && h.pc != Finished(false))
  }

  /** Where row and position can stand from the reservation on. */
  predicate Underway(c: Chain, d: Tables, id: Id, h: Handler, balance: int) {
    && id in d.transactions && h.position in d.positions
    && (h.request.DepositRequest? ==> h.isNew && balance == 0)
    && var t, p := d.transactions[id], d.positions[h.position];
    match t.status
    case CREATED => p == Waiting(t.kind, balance)
    case FAILED => FailedOk(t, h, p, balance)
    case _ => OnItsWay(c, d, id, h, balance)
  }

  lemma TurnStaysUnderway(c: Chain, d: Tables, id: Id, h: Handler, act: Act, balance: int)
    requires CanAct(c, d, id, h, act) && LocalOk(c, d, id, h) && NotSwept(d, id, h) && Tracked(d, id, h)
    requires act.Throw? ==> BeforeSubmit(h.pc)
    requires Underway(c, d, id, h, balance)
    ensures var turn := Perform(c, d, id, h, act); Underway(c, turn.tables, id, turn.handler, balance)
  {
    if OnItsWay(c, d, id, h, balance) { TurnStaysOnItsWay(c, d, id, h, act, balance); }
  }

  lemma WorkStaysUnderway(c: Chain, d: Tables, w: Work, move: Move, h: Handler, balance: int)
    requires CanWork(c, d, w, move) && WorkOk(d, w) && LocalOk(c, d, w.id, h) && WorkStale(d, w, h)
    requires Tracked(d, w.id, h)
    requires Underway(c, d, w.id, h, balance)
    ensures Underway(c, DoWork(c, d, w, move).tables, w.id, h, balance)
  {
    if OnItsWay(c, d, w.id, h, balance) { WorkStaysOnItsWay(c, d, w, move, h, balance); }
  }

  lemma ElsewhereStaysUnderway(c: Chain, d: Tables, d': Tables, other: Id, k: PositionKey, id: Id, h: Handler,
                               balance: int)
    requires Underway(c, d, id, h, balance) && Touches(d, d', other, k) && other != id && k != h.position
    ensures Underway(c, d', id, h, balance)
  {
  }

  // ----- alone on a position

  /** No pass holds work of another request on position `k`. */
  ghost predicate NoOtherWork(s: State, k: PositionKey, id: Id) {
    forall p, w | p in s.passes && w in s.passes[p].todo && w.id != id && w.id in s.handlers ::
        s.handlers[w.id].position != k
  }

  ghost predicate Alone(s: State, k: PositionKey, id: Id) {
    OthersAreDone(s, k, id) && NoOtherWork(s, k, id)
  }

  /** Request `id` has reserved and has its position to itself. */
  ghost predicate Solo(c: Chain, s: State, id: Id, balance: int) {
    && Kept(c, Careful, s) && id in s.handlers
    && Alone(s, s.handlers[id].position, id)
    && Underway(c, s.tables, id, s.handlers[id], balance)
  }

  /** What is known of one request under A3 and A4. */
  predicate KnownWell(c: Chain, s: State, u: Id) {
    Known(c, s, u) && NotSwept(s.tables, u, s.handlers[u]) && Tracked(s.tables, u, s.handlers[u])
  }

  lemma KeptKnows(c: Chain, s: State, u: Id)
    requires Kept(c, Careful, s) && u in s.handlers
    ensures KnownWell(c, s, u)
  {
  }

  lemma KeptKnowsHead(c: Chain, s: State, p: nat)
    requires Kept(c, Careful, s) && p in s.passes && s.passes[p].todo != []
    ensures
      var w := s.passes[p].todo[0];
      KnownWell(c, s, w.id) && WorkOk(s.tables, w) && WorkStale(s.tables, w, s.handlers[w.id])
  {
    assert s.passes[p].todo[0] in s.passes[p].todo;
  }

  lemma HandleStaysUnderway(c: Chain, s: State, id: Id, balance: int, other: Id, act: Act)
    requires id in s.handlers && Underway(c, s.tables, id, s.handlers[id], balance)
    requires OthersAreDone(s, s.handlers[id].position, id)
    requires KnownWell(c, s, other) && CanAct(c, s.tables, other, s.handlers[other], act)
    requires act.Throw? ==> BeforeSubmit(s.handlers[other].pc)
    ensures
      var turn := Perform(c, s.tables, other, s.handlers[other], act);
      Underway(c, turn.tables, id, if other == id then turn.handler else s.handlers[id], balance)
  {
    var h := s.handlers[other];
    if other == id {
      TurnStaysUnderway(c, s.tables, id, h, act, balance);
    } else if h.position == s.handlers[id].position {
      GoneWritesNothing(c, s.tables, other, h, act);
    } else {
      TurnTouches(c, s.tables, other, h, act);
      var turn := Perform(c, s.tables, other, h, act);
      ElsewhereStaysUnderway(c, s.tables, turn.tables, other, h.position, id, s.handlers[id], balance);
    }
  }

  lemma HandleLeavesNoOtherWork(c: Chain, s: State, k: PositionKey, id: Id, other: Id, act: Act)
    requires NoOtherWork(s, k, id) && Known(c, s, other) && Enabled(c, s, Handle(other, act))
    ensures NoOtherWork(Apply(c, s, Handle(other, act)), k, id)
  {
    TurnTouches(c, s.tables, other, s.handlers[other], act);
  }

  lemma DriveStaysUnderway(c: Chain, s: State, id: Id, balance: int, w: Work, move: Move)
    requires id in s.handlers && Underway(c, s.tables, id, s.handlers[id], balance)
    requires KnownWell(c, s, w.id) && WorkOk(s.tables, w) && WorkStale(s.tables, w, s.handlers[w.id])
    requires CanWork(c, s.tables, w, move)
    requires w.id != id ==> s.handlers[w.id].position != s.handlers[id].position
    ensures Underway(c, DoWork(c, s.tables, w, move).tables, id, s.handlers[id], balance)
  {
    if w.id == id {
      WorkStaysUnderway(c, s.tables, w, move, s.handlers[id], balance);
    } else {
      WorkKeeps(c, s.tables, w, move, s.handlers[w.id]);
      var d' := DoWork(c, s.tables, w, move).tables;
      ElsewhereStaysUnderway(c, s.tables, d', w.id, s.handlers[w.id].position, id, s.handlers[id], balance);
    }
  }

  lemma DriveLeavesNoOtherWork(c: Chain, s: State, k: PositionKey, id: Id, p: nat, move: Move)
    requires NoOtherWork(s, k, id)
    requires Enabled(c, s, Drive(p, move)) && !move.ListPending? && s.passes[p].todo[0].id in s.handlers
    ensures NoOtherWork(Apply(c, s, Drive(p, move)), k, id)
  {
    var todo := s.passes[p].todo;
    assert todo[0] in todo && forall v | v in todo[1..] :: v in todo;
    WorkGoesOn(c, s.tables, todo[0], move);
  }

  lemma IdleKeepsSolo(c: Chain, s: State, id: Id, balance: int, step: Step)
    requires Solo(c, s, id, balance) && Enabled(c, s, step) && !ArrivesAt(step, s.handlers[id].position)
    requires !step.Handle? && (step.Drive? ==> step.move.ListPending?)
    ensures
      var s' := Apply(c, s, step);
      Alone(s', s.handlers[id].position, id) && Underway(c, s'.tables, id, s'.handlers[id], balance)
  {
    assert Apply(c, s, step).tables == s.tables;
    IdleLeavesNoOtherWork(c, s, id, balance, step);
  }

  lemma IdleLeavesNoOtherWork(c: Chain, s: State, id: Id, balance: int, step: Step)
    requires Solo(c, s, id, balance) && Enabled(c, s, step) && !ArrivesAt(step, s.handlers[id].position)
    requires !step.Handle? && (step.Drive? ==> step.move.ListPending?)
    ensures NoOtherWork(Apply(c, s, step), s.handlers[id].position, id)
  {
    if step.StartPass? || step.Drive? {
      var ids := if step.StartPass? then step.stale else step.move.pending;
      forall t | t in ids && t != id ensures t in s.handlers && s.handlers[t].position != s.handlers[id].position {
        assert IsOpen(s.tables.transactions[t]);
      }
    }
  }

  lemma HandleKeepsSolo(c: Chain, s: State, id: Id, balance: int, other: Id, act: Act)
    requires Solo(c, s, id, balance) && Enabled(c, s, Handle(other, act))
    requires act.Throw? ==> BeforeSubmit(s.handlers[other].pc)
    ensures
      var s' := Apply(c, s, Handle(other, act));
      && s'.handlers[id].position == s.handlers[id].position
      && Alone(s', s.handlers[id].position, id) && Underway(c, s'.tables, id, s'.handlers[id], balance)
  {
    KeptKnows(c, s, other);
    HandleStaysUnderway(c, s, id, balance, other, act);
    HandleLeavesOthersDone(c, s, id, other, act);
    HandleLeavesNoOtherWork(c, s, s.handlers[id].position, id, other, act);
  }

  lemma DriveKeepsSolo(c: Chain, s: State, id: Id, balance: int, p: nat, move: Move)
    requires Solo(c, s, id, balance) && Enabled(c, s, Drive(p, move)) && !move.ListPending?
    ensures
      var s' := Apply(c, s, Drive(p, move));
      Alone(s', s.handlers[id].position, id) && Underway(c, s'.tables, id, s'.handlers[id], balance)
  {
    KeptKnowsHead(c, s, p);
    var w := s.passes[p].todo[0];
    assert w in s.passes[p].todo;
    DriveStaysUnderway(c, s, id, balance, w, move);
    DriveLeavesOthersDone(c, s, id, p, move);
    DriveLeavesNoOtherWork(c, s, s.handlers[id].position, id, p, move);
  }

  lemma StepKeepsSolo(c: Chain, s: State, id: Id, balance: int, step: Step)
    requires Solo(c, s, id, balance) && Enabled(c, s, step) && Obeys(Careful, s, step)
    requires !ArrivesAt(step, s.handlers[id].position)
    ensures Solo(c, Apply(c, s, step), id, balance)
    ensures Apply(c, s, step).handlers[id].position == s.handlers[id].position
  {
    StepKeeps(c, Careful, s, step);
    if step.Handle? {
      HandleKeepsSolo(c, s, id, balance, step.id, step.act);
    } else if step.Drive? && !step.move.ListPending? {
      DriveKeepsSolo(c, s, id, balance, step.p, step.move);
    } else {
      IdleKeepsSolo(c, s, id, balance, step);
    }
  }

  lemma {:induction false} RunKeepsSolo(c: Chain, s: State, id: Id, balance: int, steps: seq<Step>)
    requires Solo(c, s, id, balance) && Legal(c, Careful, s, steps) && NoArrivalAt(steps, s.handlers[id].position)
    ensures
      var s' := Exec(c, Careful, s, steps);
      Solo(c, s', id, balance) && s'.handlers[id].position == s.handlers[id].position
    decreases |steps|
  {
    if steps != [] {
      assert steps[0] in steps;
      StepKeepsSolo(c, s, id, balance, steps[0]);
      RunKeepsSolo(c, Apply(c, s, steps[0]), id, balance, steps[1..]);
    }
  }

  // ----- where it begins and where it leads

  lemma FirstDepositBeginsSolo(c: Chain, s: State, id: Id)
    requires Kept(c, Careful, s) && Enabled(c, s, Handle(id, StartDeposit))
    requires s.handlers[id].position !in s.tables.positions
    requires Alone(s, s.handlers[id].position, id)
    ensures Solo(c, Apply(c, s, Handle(id, StartDeposit)), id, 0)
  {
    var k := s.handlers[id].position;
    KeptKnows(c, s, id);
    assert !DepositBlocked(s.tables, k) by {
      forall t | t in s.tables.transactions ensures s.tables.transactions[t].position != k {
        KeptKnows(c, s, t);
      }
    }
    HandleLeavesOthersDone(c, s, id, id, StartDeposit);
    HandleLeavesNoOtherWork(c, s, k, id, id, StartDeposit);
    StepKeeps(c, Careful, s, Handle(id, StartDeposit));
  }

  lemma WithdrawBeginsSolo(c: Chain, s: State, id: Id, balance: int)
    requires Kept(c, Careful, s) && Enabled(c, s, Handle(id, StartWithdraw))
    requires s.tables.positions[s.handlers[id].position] == Holding(ACTIVE, balance)
    requires Alone(s, s.handlers[id].position, id)
    ensures Solo(c, Apply(c, s, Handle(id, StartWithdraw)), id, balance)
  {
    var k := s.handlers[id].position;
    KeptKnows(c, s, id);
    assert !HasOpenWithdraw(s.tables.transactions, k) by {
      forall t | t in s.tables.transactions && IsOpen(s.tables.transactions[t])
        ensures s.tables.transactions[t].position != k
      {
        KeptKnows(c, s, t);
      }
    }
    HandleLeavesOthersDone(c, s, id, id, StartWithdraw);
    HandleLeavesNoOtherWork(c, s, k, id, id, StartWithdraw);
    StepKeeps(c, Careful, s, Handle(id, StartWithdraw));
  }

  /** Once the row has a hash, A3 is needed no more: whoever settles the request, it recovers. */
  lemma SubmittedRecovers(c: Chain, s: State, id: Id, balance: int, hash: Hash)
    requires Solo(c, s, id, balance) && HashOf(s, id, hash)
    ensures Settling(c, s, id, balance)
  {
    KeptKnows(c, s, id);
    var k := s.handlers[id].position;
    forall p, w | p in s.passes && w in s.passes[p].todo && w.id in s.handlers && s.handlers[w.id].position == k
      ensures w.id == id && w.Settle?
    {
      assert WorkStale(s.tables, w, s.handlers[w.id]);
    }
  }

  predicate HasFailed(s: State, id: Id, kind: TransactionType) {
    && id in s.handlers && id in s.tables.transactions && s.handlers[id].position in s.tables.positions
    && s.tables.transactions[id].kind == kind && s.tables.transactions[id].status == TransactionStatus.FAILED
  }

  /** Where a failed withdraw stands. */
  predicate FailedWithdrawStands(s: State, id: Id, balance: int)
    requires HasFailed(s, id, WITHDRAW)
  {
    var h, p := s.handlers[id], s.tables.positions[s.handlers[id].position];
    && (p == Holding(ACTIVE, balance) || p == Holding(WITHDRAWING, balance))
    && (p.status == ACTIVE <==> h.pc == Finished(false))
  }

  /**
   A withdraw that has its position to itself and has failed has freed it exactly if its handler came to the end of its
   catch arm; the stale sweep never frees it.
   */
  lemma FailedWithdrawIsFreedIff(c: Chain, s: State, id: Id, balance: int, steps: seq<Step>)
    requires Solo(c, s, id, balance) && Legal(c, Careful, s, steps) && NoArrivalAt(steps, s.handlers[id].position)
    requires HasFailed(Exec(c, Careful, s, steps), id, WITHDRAW)
    ensures FailedWithdrawStands(Exec(c, Careful, s, steps), id, balance)
  {
    RunKeepsSolo(c, s, id, balance, steps);
    SoloFailedWithdraw(c, Exec(c, Careful, s, steps), id, balance);
  }

  lemma SoloFailedWithdraw(c: Chain, s: State, id: Id, balance: int)
    requires Solo(c, s, id, balance) && HasFailed(s, id, WITHDRAW)
    ensures FailedWithdrawStands(s, id, balance)
  {
  }

  predicate DeadWithoutCatch(h: Handler) {
    !h.alive && h.pc != Finished(false)
  }

  lemma FailedStays(c: Chain, s: State, id: Id, balance: int, kind: TransactionType, step: Step)
    requires Solo(c, s, id, balance) && HasFailed(s, id, kind) && DeadWithoutCatch(s.handlers[id])
    requires Enabled(c, s, step) && Obeys(Careful, s, step)
    ensures HasFailed(Apply(c, s, step), id, kind) && Apply(c, s, step).handlers[id] == s.handlers[id]
  {
    StepTracks(c, Careful, s, step);
    StepGrows(c, s, step);
  }

  /** A failed withdraw whose handler died first keeps its position WITHDRAWING in every run without a new request. */
  lemma {:induction false} FailedWithdrawStaysHeld(c: Chain, s: State, id: Id, balance: int, steps: seq<Step>)
    requires Solo(c, s, id, balance) && HasFailed(s, id, WITHDRAW) && DeadWithoutCatch(s.handlers[id])
    requires Legal(c, Careful, s, steps) && NoArrivalAt(steps, s.handlers[id].position)
    ensures
      var s' := Exec(c, Careful, s, steps);
      && HasFailed(s', id, WITHDRAW) && s'.handlers[id] == s.handlers[id]
      && s'.tables.positions[s.handlers[id].position] == Holding(WITHDRAWING, balance)
    decreases |steps|
  {
    if steps != [] {
      assert steps[0] in steps;
      FailedStays(c, s, id, balance, WITHDRAW, steps[0]);
      StepKeepsSolo(c, s, id, balance, steps[0]);
      FailedWithdrawStaysHeld(c, Apply(c, s, steps[0]), id, balance, steps[1..]);
    }
  }
}
