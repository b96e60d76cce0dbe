/**
 Crash recovery: a submitted first deposit or withdraw that has its position to itself ends in the
 one outcome its receipt calls for, whether its handler, the reconciler or any interleaving of
 both carries it there, with crashes anywhere.  The only assumption is A4.
 */
module Recovery {
  import opened Options
  import opened Rows
  import opened Blocks
  import opened Protocol
  import opened Invariants
  import opened Runs

  const FailedPosition := Position(PositionStatus.FAILED, 0, 0, 0)

  function Holding(status: PositionStatus, balance: int): Position {
    Position(status, balance, balance, balance)
  }

  /** The status and the position a receipt calls for; `balance` is what the position held before. */
  function Outcome(success: bool, t: Transaction, balance: int): (TransactionStatus, Position) {
    if success then
      (TransactionStatus.CONFIRMED,
       if t.kind == DEPOSIT then Activated(t.amount, t.amount, t.amount)
       else Withdrawn(Holding(WITHDRAWING, balance), t.amount, t.amount))
    else
      (TransactionStatus.REVERTED, if t.kind == DEPOSIT then FailedPosition else Holding(ACTIVE, balance))
  }

  /** The withdraw handler died, or still stands, between marking the row and freeing the position. */
  predicate HalfReverted(t: Transaction, h: Handler, p: Position, balance: int) {
    t.kind == WITHDRAW && t.status == TransactionStatus.REVERTED && h.pc == Reverting
        && p == Holding(WITHDRAWING, balance)
  }

  /** The position as the reservation leaves it. */
  function Waiting(kind: TransactionType, balance: int): Position {
    Holding(if kind == DEPOSIT then PENDING else WITHDRAWING, balance)
  }

  /** How far request `id` can be on its way to its outcome once its row has a hash. */
  predicate OnItsWay(c: Chain, d: Tables, id: Id, h: Handler, balance: int) {
    && id in d.transactions && h.position in d.positions
    && (h.request.DepositRequest? ==> h.isNew && balance == 0)
    && AfterSubmit(h.pc)
    && var t, p := d.transactions[id], d.positions[h.position];
    && t.txHash.Some?
    && (t.kind == WITHDRAW && h.pc == Reverting ==> t.status == TransactionStatus.REVERTED)
    &&
    match t.status
    case SUBMITTED =>
      (p == Waiting(t.kind, balance) && h.pc != Reverting)
          || (t.kind == DEPOSIT && Reverted(c, t.txHash) && p == FailedPosition)
    case CONFIRMED => p == Outcome(true, t, balance).1
    case REVERTED => p == Outcome(false, t, balance).1 || HalfReverted(t, h, p, balance)
    case _ => false
  }

  lemma TurnStaysOnItsWay(c: Chain, d: Tables, id: Id, h: Handler, act: Act, balance: int)
    requires CanAct(c, d, id, h, act) && LocalOk(c, d, id, h) && !act.Throw?
    requires OnItsWay(c, d, id, h, balance)
    ensures var turn := Perform(c, d, id, h, act); OnItsWay(c, turn.tables, id, turn.handler, balance)
  {
  }

  lemma WorkStaysOnItsWay(c: Chain, d: Tables, w: Work, move: Move, h: Handler, balance: int)
    requires CanWork(c, d, w, move) && WorkOk(d, w) && LocalOk(c, d, w.id, h) && w.Settle?
    requires OnItsWay(c, d, w.id, h, balance)
    ensures OnItsWay(c, DoWork(c, d, w, move).tables, w.id, h, balance)
  {
  }

  // ----- alone on a position

  /** No other request can act on position `k` any more. */
  ghost predicate OthersAreDone(s: State, k: PositionKey, id: Id) {
    forall u | u in s.handlers && u != id && s.handlers[u].position == k ::
      Gone(s.handlers[u]) && (u in s.tables.transactions ==> !IsOpen(s.tables.transactions[u]))
  }

  /** Every piece of pass work on position `k` settles request `id`. */
  ghost predicate OnlySettles(s: State, k: PositionKey, id: Id) {
    forall p, w | p in s.passes && w in s.passes[p].todo && w.id in s.handlers && s.handlers[w.id].position == k ::
      w.id == id && w.Settle?
  }

  /** Request `id` has been submitted and has its position to itself. */
  ghost predicate Settling(c: Chain, s: State, id: Id, balance: int) {
    && Base(c, s) && id in s.handlers
    && OnItsWay(c, s.tables, id, s.handlers[id], balance)
    && OthersAreDone(s, s.handlers[id].position, id)
    && OnlySettles(s, s.handlers[id].position, id)
  }

  predicate ArrivesAt(step: Step, k: PositionKey) {
    step.Arrive? && step.position == k
  }

  /** A handler that is gone can at most crash, which writes nothing. */
  lemma GoneWritesNothing(c: Chain, d: Tables, id: Id, h: Handler, act: Act)
    requires CanAct(c, d, id, h, act) && Gone(h)
    ensures
      var turn := Perform(c, d, id, h, act);
      turn.tables == d && Gone(turn.handler) && turn.handler.position == h.position
  {
  }

  predicate Known(c: Chain, s: State, u: Id) {
    u in s.handlers && LocalOk(c, s.tables, u, s.handlers[u])
  }

  /** What the invariant says of the head of a pass and of its request. */
  lemma HeadIsKnown(c: Chain, s: State, p: nat)
    requires Base(c, s) && p in s.passes && s.passes[p].todo != []
    ensures var w := s.passes[p].todo[0]; Known(c, s, w.id) && WorkOk(s.tables, w)
  {
    var w := s.passes[p].todo[0];
    assert w in s.passes[p].todo && WorkOk(s.tables, w);
  }

  /** Writes for another request on another position change nothing for this one. */
  lemma ElsewhereStaysOnItsWay(c: Chain, d: Tables, d': Tables, other: Id, k: PositionKey, id: Id, h: Handler,
                               balance: int)
    requires OnItsWay(c, d, id, h, balance) && Touches(d, d', other, k) && other != id && k != h.position
    ensures OnItsWay(c, d', id, h, balance)
  {
  }

  lemma HandleStaysOnItsWay(c: Chain, s: State, id: Id, balance: int, other: Id, act: Act)
    requires id in s.handlers && OnItsWay(c, s.tables, id, s.handlers[id], balance)
    requires OthersAreDone(s, s.handlers[id].position, id)
    requires Known(c, s, other) && CanAct(c, s.tables, other, s.handlers[other], act)
    requires act.Throw? ==> BeforeSubmit(s.handlers[other].pc)
    ensures
      var turn := Perform(c, s.tables, other, s.handlers[other], act);
      OnItsWay(c, turn.tables, id, if other == id then turn.handler else s.handlers[id], balance)
  {
    var h := s.handlers[other];
    if other == id {
      TurnStaysOnItsWay(c, s.tables, id, h, act, balance);
    } else if h.position == s.handlers[id].position {
      GoneWritesNothing(c, s.tables, other, h, act);
    } else {
      TurnTouches(c, s.tables, other, h, act);
      var turn := Perform(c, s.tables, other, h, act);
      ElsewhereStaysOnItsWay(c, s.tables, turn.tables, other, h.position, id, s.handlers[id], balance);
    }
  }

  lemma HandleLeavesOthersDone(c: Chain, s: State, id: Id, other: Id, act: Act)
    requires id in s.handlers && OthersAreDone(s, s.handlers[id].position, id)
    requires Known(c, s, other) && Enabled(c, s, Handle(other, act))
    ensures
      var s' := Apply(c, s, Handle(other, act));
      s'.handlers[id].position == s.handlers[id].position && OthersAreDone(s', s.handlers[id].position, id)
  {
    var h := s.handlers[other];
    TurnTouches(c, s.tables, other, h, act);
    if other != id && h.position == s.handlers[id].position { GoneWritesNothing(c, s.tables, other, h, act); }
  }

  lemma HandleStillOnlySettles(c: Chain, s: State, k: PositionKey, id: Id, other: Id, act: Act)
    requires OnlySettles(s, k, id) && Known(c, s, other) && Enabled(c, s, Handle(other, act))
    ensures OnlySettles(Apply(c, s, Handle(other, act)), k, id)
  {
    TurnTouches(c, s.tables, other, s.handlers[other], act);
  }

  lemma DriveStaysOnItsWay(c: Chain, s: State, id: Id, balance: int, w: Work, move: Move)
    requires id in s.handlers && OnItsWay(c, s.tables, id, s.handlers[id], balance)
    requires Known(c, s, w.id) && WorkOk(s.tables, w) && CanWork(c, s.tables, w, move)
    requires s.handlers[w.id].position == s.handlers[id].position ==> w.id == id && w.Settle?
    ensures OnItsWay(c, DoWork(c, s.tables, w, move).tables, id, s.handlers[id], balance)
  {
    if w.id == id {
      WorkStaysOnItsWay(c, s.tables, w, move, s.handlers[id], balance);
    } else {
      WorkKeeps(c, s.tables, w, move, s.handlers[w.id]);
      var d' := DoWork(c, s.tables, w, move).tables;
      ElsewhereStaysOnItsWay(c, s.tables, d', w.id, s.handlers[w.id].position, id, s.handlers[id], balance);
    }
  }

  /** The work that a piece of work leaves behind is about the same request; a settled row leaves none. */
  lemma WorkGoesOn(c: Chain, d: Tables, w: Work, move: Move)
    requires CanWork(c, d, w, move)
    ensures forall v | v in DoWork(c, d, w, move).more :: v.id == w.id && !v.Settle? && !w.Settle?
  {
  }

  lemma DriveLeavesOthersDone(c: Chain, s: State, id: Id, p: nat, move: Move)
    requires id in s.handlers && OthersAreDone(s, s.handlers[id].position, id)
    requires Enabled(c, s, Drive(p, move)) && !move.ListPending?
    requires
      var w := s.passes[p].todo[0];
      Known(c, s, w.id) && WorkOk(s.tables, w) && (s.handlers[w.id].position == s.handlers[id].position ==> w.id == id)
    ensures OthersAreDone(Apply(c, s, Drive(p, move)), s.handlers[id].position, id)
  {
    var w := s.passes[p].todo[0];
    WorkKeeps(c, s.tables, w, move, s.handlers[w.id]);
  }

  lemma DriveStillOnlySettles(c: Chain, s: State, id: Id, p: nat, move: Move)
    requires id in s.handlers && OnlySettles(s, s.handlers[id].position, id)
    requires Enabled(c, s, Drive(p, move)) && !move.ListPending? && s.passes[p].todo[0].id in s.handlers
    ensures OnlySettles(Apply(c, s, Drive(p, move)), s.handlers[id].position, id)
  {
    var todo := s.passes[p].todo;
    assert todo[0] in todo && forall v | v in todo[1..] :: v in todo;
    WorkGoesOn(c, s.tables, todo[0], move);
  }

  /** Arrivals elsewhere and listings: the only open row on the position is that of `id`, which has a hash. */
  lemma IdleKeepsSettling(c: Chain, s: State, id: Id, balance: int, step: Step)
    requires Settling(c, s, id, balance) && Enabled(c, s, step) && !ArrivesAt(step, s.handlers[id].position)
    requires !step.Handle? && (step.Drive? ==> step.move.ListPending?)
    ensures
      var s' := Apply(c, s, step);
      && OnItsWay(c, s'.tables, id, s'.handlers[id], balance)
      && OthersAreDone(s', s.handlers[id].position, id) && OnlySettles(s', s.handlers[id].position, id)
  {
    assert Apply(c, s, step).tables == s.tables;
    if step.StartPass? || step.Drive? {
      var ids := if step.StartPass? then step.stale else step.move.pending;
      forall t | t in ids && t in s.handlers && s.handlers[t].position == s.handlers[id].position
        ensures t == id && step.Drive?
      {
        assert IsOpen(s.tables.transactions[t]);
      }
    }
    if step.Arrive? {
      assert forall p, w | p in s.passes && w in s.passes[p].todo :: WorkOk(s.tables, w) && w.id != step.id;
    }
  }

  lemma HandleKeepsSettling(c: Chain, s: State, id: Id, balance: int, other: Id, act: Act)
    requires Settling(c, s, id, balance) && Enabled(c, s, Handle(other, act))
    requires act.Throw? ==> BeforeSubmit(s.handlers[other].pc)
    ensures Settling(c, Apply(c, s, Handle(other, act)), id, balance)
    ensures Apply(c, s, Handle(other, act)).handlers[id].position == s.handlers[id].position
  {
    StepKeepsBase(c, s, Handle(other, act));
    assert Known(c, s, other);
    HandleStaysOnItsWay(c, s, id, balance, other, act);
    HandleLeavesOthersDone(c, s, id, other, act);
    HandleStillOnlySettles(c, s, s.handlers[id].position, id, other, act);
  }

  lemma DriveKeepsSettling(c: Chain, s: State, id: Id, balance: int, p: nat, move: Move)
    requires Settling(c, s, id, balance) && Enabled(c, s, Drive(p, move)) && !move.ListPending?
    ensures Settling(c, Apply(c, s, Drive(p, move)), id, balance)
  {
    StepKeepsBase(c, s, Drive(p, move));
    HeadIsKnown(c, s, p);
    var w := s.passes[p].todo[0];
    assert w in s.passes[p].todo;
    DriveStaysOnItsWay(c, s, id, balance, w, move);
    DriveLeavesOthersDone(c, s, id, p, move);
    DriveStillOnlySettles(c, s, id, p, move);
  }

  lemma StepKeepsSettling(c: Chain, s: State, id: Id, balance: int, step: Step)
    requires Settling(c, s, id, balance)
    requires Enabled(c, s, step) && Obeys(NoLateThrow, s, step) && !ArrivesAt(step, s.handlers[id].position)
    ensures Settling(c, Apply(c, s, step), id, balance)
    ensures Apply(c, s, step).handlers[id].position == s.handlers[id].position
  {
    if step.Handle? {
      HandleKeepsSettling(c, s, id, balance, step.id, step.act);
    } else if step.Drive? && !step.move.ListPending? {
      DriveKeepsSettling(c, s, id, balance, step.p, step.move);
    } else {
      StepKeepsBase(c, s, step);
      IdleKeepsSettling(c, s, id, balance, step);
    }
  }

  predicate NoArrivalAt(steps: seq<Step>, k: PositionKey) {
    forall step | step in steps :: !ArrivesAt(step, k)
  }

  lemma {:induction false} RunKeepsSettling(c: Chain, s: State, id: Id, balance: int, steps: seq<Step>)
    requires Settling(c, s, id, balance) && Legal(c, NoLateThrow, s, steps)
    requires NoArrivalAt(steps, s.handlers[id].position)
    ensures
      var s' := Exec(c, NoLateThrow, s, steps);
      Settling(c, s', id, balance) && s'.handlers[id].position == s.handlers[id].position && Grows(s.tables, s'.tables)
    decreases |steps|
  {
    if steps != [] {
      assert steps[0] in steps;
      StepKeepsSettling(c, s, id, balance, steps[0]);
      StepGrows(c, s, steps[0]);
      RunKeepsSettling(c, Apply(c, s, steps[0]), id, balance, steps[1..]);
      GrowsTransitive(s.tables, Apply(c, s, steps[0]).tables, Exec(c, NoLateThrow, s, steps).tables);
    }
  }

  // ----- the results

  predicate HashOf(s: State, id: Id, hash: Hash) {
    id in s.tables.transactions && s.tables.transactions[id].txHash == Some(hash)
  }

  ghost predicate SettledAs(c: Chain, s: State, id: Id, hash: Hash, balance: int) {
    && hash in c && id in s.tables.transactions && id in s.handlers && s.handlers[id].position in s.tables.positions
    && var t := s.tables.transactions[id];
    (t.status, s.tables.positions[s.handlers[id].position]) == Outcome(c[hash].success, t, balance)
  }

  /** A run from `s` in which no other request comes to the position, and after which the row is no longer SUBMITTED. */
  ghost predicate Settles(c: Chain, s: State, id: Id, steps: seq<Step>) {
    && id in s.handlers && Legal(c, NoLateThrow, s, steps) && NoArrivalAt(steps, s.handlers[id].position)
    && var s' := Exec(c, NoLateThrow, s, steps);
    id in s'.tables.transactions && s'.tables.transactions[id].status != TransactionStatus.SUBMITTED
  }

  ghost predicate StandsHalfReverted(s: State, id: Id, balance: int) {
    && id in s.handlers && id in s.tables.transactions && s.handlers[id].position in s.tables.positions
    && HalfReverted(s.tables.transactions[id], s.handlers[id], s.tables.positions[s.handlers[id].position], balance)
  }

  /**
   Once submitted, whoever settles the request, in whatever order: as soon as the row is no longer
   SUBMITTED, row and position are what the receipt calls for, except exactly while a withdraw is half reverted.
   */
  lemma SettlesByReceipt(c: Chain, s: State, id: Id, balance: int, hash: Hash, steps: seq<Step>)
    requires Settling(c, s, id, balance) && HashOf(s, id, hash) && Settles(c, s, id, steps)
    ensures
      var s' := Exec(c, NoLateThrow, s, steps);
      SettledAs(c, s', id, hash, balance) <==> !StandsHalfReverted(s', id, balance)
  {
    RunKeepsSettling(c, s, id, balance, steps);
    assert Known(c, Exec(c, NoLateThrow, s, steps), id);
  }

  /** Confluence: any two ways to settle a submitted request leave the same status and the same position row. */
  lemma Confluence(c: Chain, s: State, id: Id, balance: int, hash: Hash, one: seq<Step>, two: seq<Step>)
    requires Settling(c, s, id, balance) && HashOf(s, id, hash)
    requires Settles(c, s, id, one) && !StandsHalfReverted(Exec(c, NoLateThrow, s, one), id, balance)
    requires Settles(c, s, id, two) && !StandsHalfReverted(Exec(c, NoLateThrow, s, two), id, balance)
    ensures
      var k, s1, s2 := s.handlers[id].position, Exec(c, NoLateThrow, s, one), Exec(c, NoLateThrow, s, two);
      && k in s1.tables.positions && k in s2.tables.positions && id in s1.tables.transactions
         && id in s2.tables.transactions
      && s1.tables.positions[k] == s2.tables.positions[k]
      && s1.tables.transactions[id].status == s2.tables.transactions[id].status
  {
    SettlesByReceipt(c, s, id, balance, hash, one);
    SettlesByReceipt(c, s, id, balance, hash, two);
    RunKeepsSettling(c, s, id, balance, one);
    RunKeepsSettling(c, s, id, balance, two);
  }

  lemma ReconcileSettles(c: Chain, s: State, id: Id, balance: int, hash: Hash, w: Work)
    requires Known(c, s, id) && OnItsWay(c, s.tables, id, s.handlers[id], balance) && HashOf(s, id, hash) && hash in c
    requires s.tables.transactions[id].status == TransactionStatus.SUBMITTED
    requires w == Settle(id, s.tables.transactions[id])
    ensures CanWork(c, s.tables, w, Reconciled)
    ensures SettledAs(c, s.(tables := DoWork(c, s.tables, w, Reconciled).tables), id, hash, balance)
  {
  }

  function RecoveryPass(p: nat, id: Id): seq<Step> {
    [StartPass(p, []), Drive(p, ListPending([id])), Drive(p, Reconciled)]
  }

  /** A pass that has listed exactly request `id`. */
  lemma PassLists(c: Chain, a: Assumptions, s: State, p: nat, id: Id)
    requires p !in s.passes && id in s.tables.transactions && IsPendingReconciliation(s.tables.transactions[id])
    ensures Legal(c, a, s, RecoveryPass(p, id)[..2])
    ensures
      Exec(c, a, s, RecoveryPass(p, id)[..2])
      == s.(passes := s.passes[p := Pass(false, [Settle(id, s.tables.transactions[id])])])
  {
    var s1 := Apply(c, s, StartPass(p, []));
    assert Enabled(c, s1, Drive(p, ListPending([id])));
    assert SettleWork(s.tables, [id]) == [Settle(id, s.tables.transactions[id])];
    var s2 := Apply(c, s1, Drive(p, ListPending([id])));
    assert s2.passes == s.passes[p := Pass(false, [Settle(id, s.tables.transactions[id])])];
    ExecAppends(c, a, s, [], StartPass(p, []));
    ExecAppends(c, a, s, [] + [StartPass(p, [])], Drive(p, ListPending([id])));
    assert RecoveryPass(p, id)[..2] == [] + [StartPass(p, [])] + [Drive(p, ListPending([id]))];
  }

  /** Whatever happened to the handler, one pass settles a submitted request as its receipt calls for. */
  lemma PassRecovers(c: Chain, a: Assumptions, s: State, id: Id, balance: int, hash: Hash, p: nat)
    requires Settling(c, s, id, balance) && HashOf(s, id, hash) && hash in c && p !in s.passes
    requires s.tables.transactions[id].status == TransactionStatus.SUBMITTED
    ensures Legal(c, a, s, RecoveryPass(p, id))
    ensures SettledAs(c, Exec(c, a, s, RecoveryPass(p, id)), id, hash, balance)
  {
    assert Known(c, s, id);
    PassLists(c, a, s, p, id);
    var s2 := s.(passes := s.passes[p := Pass(false, [Settle(id, s.tables.transactions[id])])]);
    ReconcileSettles(c, s, id, balance, hash, Settle(id, s.tables.transactions[id]));
    ExecAppends(c, a, s, RecoveryPass(p, id)[..2], Drive(p, Reconciled));
    assert RecoveryPass(p, id) == RecoveryPass(p, id)[..2] + [Drive(p, Reconciled)];
  }

  /** The exception is permanent: a half-reverted withdraw of a dead handler that no pass has listed. */
  ghost predicate Stuck(s: State, id: Id, balance: int) {
    && StandsHalfReverted(s, id, balance)
    && !s.handlers[id].alive
    && forall p, w | p in s.passes && w in s.passes[p].todo :: w.id != id
  }

  lemma StuckUnderHandle(c: Chain, s: State, id: Id, balance: int, other: Id, act: Act)
    requires Stuck(s, id, balance) && OthersAreDone(s, s.handlers[id].position, id)
    requires Known(c, s, other) && Enabled(c, s, Handle(other, act))
    ensures Stuck(Apply(c, s, Handle(other, act)), id, balance)
  {
    var h := s.handlers[other];
    if h.position == s.handlers[id].position {
      GoneWritesNothing(c, s.tables, other, h, act);
    } else {
      TurnTouches(c, s.tables, other, h, act);
    }
  }

  lemma StuckUnderDrive(c: Chain, s: State, id: Id, balance: int, p: nat, move: Move)
    requires Stuck(s, id, balance) && OnlySettles(s, s.handlers[id].position, id)
    requires Enabled(c, s, Drive(p, move)) && !move.ListPending?
    requires var w := s.passes[p].todo[0]; Known(c, s, w.id) && WorkOk(s.tables, w)
    ensures Stuck(Apply(c, s, Drive(p, move)), id, balance)
  {
    var todo := s.passes[p].todo;
    var w := todo[0];
    assert w in todo && forall v | v in todo[1..] :: v in todo;
    WorkKeeps(c, s.tables, w, move, s.handlers[w.id]);
    WorkGoesOn(c, s.tables, w, move);
  }

  lemma StuckStays(c: Chain, s: State, id: Id, balance: int, step: Step)
    requires Settling(c, s, id, balance) && Stuck(s, id, balance)
    requires Enabled(c, s, step) && Obeys(NoLateThrow, s, step) && !ArrivesAt(step, s.handlers[id].position)
    ensures Stuck(Apply(c, s, step), id, balance)
  {
    if step.Handle? {
      assert Known(c, s, step.id);
      StuckUnderHandle(c, s, id, balance, step.id, step.act);
    } else if step.Drive? && !step.move.ListPending? {
      HeadIsKnown(c, s, step.p);
      StuckUnderDrive(c, s, id, balance, step.p, step.move);
    }
  }

  lemma {:induction false} StuckForever(c: Chain, s: State, id: Id, balance: int, steps: seq<Step>)
    requires Settling(c, s, id, balance) && Stuck(s, id, balance)
    requires Legal(c, NoLateThrow, s, steps) && NoArrivalAt(steps, s.handlers[id].position)
    ensures Stuck(Exec(c, NoLateThrow, s, steps), id, balance)
    decreases |steps|
  {
    if steps != [] {
      assert steps[0] in steps;
      StuckStays(c, s, id, balance, steps[0]);
      StepKeepsSettling(c, s, id, balance, steps[0]);
      StuckForever(c, Apply(c, s, steps[0]), id, balance, steps[1..]);
    }
  }
}
