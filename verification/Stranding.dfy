/**
 A first deposit that has failed while its position is still PENDING.  As long as its handler lives or
 a pass still works on it, the position can be failed too; otherwise it stays PENDING for ever, and
 every later deposit of this user into this vault is refused.
 */
module Stranding {
  import opened Options
  import opened Rows
  import opened Blocks
  import opened Protocol
  import opened Invariants
  import opened Exclusion
  import opened Lifecycle
  import opened Runs
  import opened Recovery
  import opened Reservation

  /** The row has failed and the position has not. */
  predicate HalfFailed(d: Tables, id: Id, k: PositionKey) {
    && id in d.transactions && k in d.positions && d.positions[k].status == PENDING
    && var t := d.transactions[id];
    t.kind == DEPOSIT && t.position == k && t.status == TransactionStatus.FAILED && t.txHash.None?
  }

  predicate FailedWhilePending(s: State, id: Id) {
    id in s.handlers && HalfFailed(s.tables, id, s.handlers[id].position)
  }

  lemma ElsewhereStaysHalfFailed(d: Tables, d': Tables, other: Id, j: PositionKey, id: Id, k: PositionKey)
    requires HalfFailed(d, id, k) && Touches(d, d', other, j) && other != id && j != k
    ensures HalfFailed(d', id, k)
  {
  }

  /** Every other request that has a row on position `k` is over. */
  ghost predicate OtherRowsAreDone(s: State, k: PositionKey, id: Id) {
    forall u | u in s.handlers && u != id && s.handlers[u].position == k && u in s.tables.transactions ::
      Gone(s.handlers[u]) && !IsOpen(s.tables.transactions[u])
  }

  ghost predicate NoWorkOn(s: State, k: PositionKey) {
    forall p, w | p in s.passes && w in s.passes[p].todo && w.id in s.handlers :: s.handlers[w.id].position != k
  }

  /** Nobody is left to release the position; requests may still come to it. */
  ghost predicate Stranded(s: State, id: Id) {
    && FailedWhilePending(s, id) && !s.handlers[id].alive
    && OtherRowsAreDone(s, s.handlers[id].position, id) && NoWorkOn(s, s.handlers[id].position)
  }

  // ----- for ever

  /** A request without a row writes nothing while its position is PENDING. */
  lemma PendingRefuses(c: Chain, d: Tables, id: Id, h: Handler, act: Act)
    requires CanAct(c, d, id, h, act) && LocalOk(c, d, id, h) && id !in d.transactions
    requires h.position in d.positions && d.positions[h.position].status == PENDING
    ensures Perform(c, d, id, h, act).tables == d && Perform(c, d, id, h, act).handler.position == h.position
  {
  }

  /** One turn of another request: the row and the position stay as they are, and if it has a row here it stays over. */
  lemma TurnKeepsHalfFailed(c: Chain, s: State, id: Id, other: Id, act: Act)
    requires Stranded(s, id) && Known(c, s, other) && CanAct(c, s.tables, other, s.handlers[other], act)
    ensures
      var turn := Perform(c, s.tables, other, s.handlers[other], act);
      && other != id && turn.handler.position == s.handlers[other].position
      && HalfFailed(turn.tables, id, s.handlers[id].position)
      && (turn.handler.position == s.handlers[id].position ==>
            turn.tables == s.tables && (other in s.tables.transactions ==> Gone(turn.handler)))
      && (turn.handler.position != s.handlers[id].position ==>
             Touches(s.tables, turn.tables, other, turn.handler.position))
  {
    var h := s.handlers[other];
    if h.position != s.handlers[id].position {
      TurnTouches(c, s.tables, other, h, act);
      var turn := Perform(c, s.tables, other, h, act);
      ElsewhereStaysHalfFailed(s.tables, turn.tables, other, h.position, id, s.handlers[id].position);
    } else if other in s.tables.transactions {
      GoneWritesNothing(c, s.tables, other, h, act);
    } else {
      PendingRefuses(c, s.tables, other, h, act);
    }
  }

  lemma HandleKeepsStranded(c: Chain, s: State, id: Id, other: Id, act: Act)
    requires Stranded(s, id) && Known(c, s, other) && Enabled(c, s, Handle(other, act))
    ensures Stranded(Apply(c, s, Handle(other, act)), id)
    ensures Apply(c, s, Handle(other, act)).handlers[id] == s.handlers[id]
  {
    TurnKeepsHalfFailed(c, s, id, other, act);
  }

  lemma WorkKeepsHalfFailed(c: Chain, d: Tables, w: Work, move: Move, h: Handler, id: Id, k: PositionKey)
    requires CanWork(c, d, w, move) && WorkOk(d, w) && LocalOk(c, d, w.id, h) && HalfFailed(d, id, k) && h.position != k
    ensures
      var d' := DoWork(c, d, w, move).tables;
      HalfFailed(d', id, k) && Touches(d, d', w.id, h.position) && w.id != id
  {
    WorkKeeps(c, d, w, move, h);
    ElsewhereStaysHalfFailed(d, DoWork(c, d, w, move).tables, w.id, h.position, id, k);
  }

  lemma DriveKeepsStranded(c: Chain, s: State, id: Id, p: nat, move: Move)
    requires Base(c, s) && Stranded(s, id) && Enabled(c, s, Drive(p, move)) && !move.ListPending?
    ensures Stranded(Apply(c, s, Drive(p, move)), id)
  {
    HeadIsKnown(c, s, p);
    var todo := s.passes[p].todo;
    var w := todo[0];
    assert w in todo && forall v | v in todo[1..] :: v in todo;
    WorkKeepsHalfFailed(c, s.tables, w, move, s.handlers[w.id], id, s.handlers[id].position);
    WorkGoesOn(c, s.tables, w, move);
  }

  lemma IdleKeepsStranded(c: Chain, s: State, id: Id, step: Step)
    requires Base(c, s) && Stranded(s, id) && Enabled(c, s, step)
    requires !step.Handle? && (step.Drive? ==> step.move.ListPending?)
    ensures Stranded(Apply(c, s, step), id)
  {
    if step.StartPass? || step.Drive? {
      var ids := if step.StartPass? then step.stale else step.move.pending;
      forall t | t in ids ensures t in s.handlers && s.handlers[t].position != s.handlers[id].position {
        assert IsOpen(s.tables.transactions[t]);
      }
    }
    if step.Arrive? {
      forall p, w | p in s.passes && w in s.passes[p].todo ensures w.id != step.id {
        assert WorkOk(s.tables, w);
      }
    }
  }

  lemma StepKeepsStranded(c: Chain, s: State, id: Id, step: Step)
    requires Base(c, s) && Stranded(s, id) && Enabled(c, s, step)
    ensures Stranded(Apply(c, s, step), id)
    ensures Apply(c, s, step).handlers[id].position == s.handlers[id].position
  {
    if step.Handle? {
      assert Known(c, s, step.id);
      HandleKeepsStranded(c, s, id, step.id, step.act);
    } else if step.Drive? && !step.move.ListPending? {
      DriveKeepsStranded(c, s, id, step.p, step.move);
    } else {
      IdleKeepsStranded(c, s, id, step);
    }
  }

  /** In every run, with any new requests and passes, the position stays PENDING and its user cannot deposit again. */
  lemma {:induction false} StrandedForever(c: Chain, a: Assumptions, s: State, id: Id, steps: seq<Step>)
    requires Base(c, s) && Stranded(s, id) && Legal(c, a, s, steps)
    ensures
      var s' := Exec(c, a, s, steps);
      && Stranded(s', id) && s'.handlers[id].position == s.handlers[id].position
      && DepositBlocked(s'.tables, s.handlers[id].position)
    decreases |steps|
  {
    if steps != [] {
      StepKeepsStranded(c, s, id, steps[0]);
      StepKeepsBase(c, s, steps[0]);
      StrandedForever(c, a, Apply(c, s, steps[0]), id, steps[1..]);
    }
  }

  // ----- unless somebody is left

  function WorkLength(w: Work): nat {
    match w
    case FailStale(_, _) => 3
    case ReadStale(_, _) => 2
    case _ => 1
  }

  /** An upper bound on the moves a pass needs for its work. */
  function Length(todo: seq<Work>): nat {
    if todo == [] then 0 else WorkLength(todo[0]) + Length(todo[1..])
  }

  lemma LengthShrinks(c: Chain, d: Tables, todo: seq<Work>, move: Move)
    requires todo != [] && CanWork(c, d, todo[0], move)
    ensures Length(DoWork(c, d, todo[0], move).more + todo[1..]) < Length(todo)
  {
    var more := DoWork(c, d, todo[0], move).more;
    if more == [] {
      assert more + todo[1..] == todo[1..];
    } else {
      assert (more + todo[1..])[1..] == todo[1..];
    }
  }

  ghost predicate WorksOn(todo: seq<Work>, id: Id) {
    exists w :: w in todo && w.id == id
  }

  function EasyMove(w: Work): Move {
    if w.Settle? then Skip else Sweep
  }

  /** One piece of work of the deposit itself: it fails the position, or leaves work to do. */
  lemma OwnWorkMoves(c: Chain, d: Tables, w: Work, k: PositionKey)
    requires HalfFailed(d, w.id, k) && WorkOk(d, w)
    ensures CanWork(c, d, w, EasyMove(w))
    ensures
      var stage := DoWork(c, d, w, EasyMove(w));
      && k in stage.tables.positions
      && (stage.tables.positions[k].status != PENDING
          || (HalfFailed(stage.tables, w.id, k) && |stage.more| == 1 && stage.more[0].id == w.id))
  {
  }

  /** One move of a pass on the way to failing the position: it does so, or its work on the deposit remains. */
  lemma MoveTowardsRelease(c: Chain, s: State, id: Id, p: nat)
    requires Base(c, s) && FailedWhilePending(s, id) && p in s.passes && WorksOn(s.passes[p].todo, id)
    ensures
      var todo := s.passes[p].todo;
      && CanWork(c, s.tables, todo[0], EasyMove(todo[0]))
      && var stage := DoWork(c, s.tables, todo[0], EasyMove(todo[0]));
      var k := s.handlers[id].position;
      && k in stage.tables.positions
      && (stage.tables.positions[k].status != PENDING
          || (HalfFailed(stage.tables, id, k) && WorksOn(stage.more + todo[1..], id)))
  {
    HeadIsKnown(c, s, p);
    var todo, k := s.passes[p].todo, s.handlers[id].position;
    var w := todo[0];
    var stage := DoWork(c, s.tables, w, EasyMove(w));
    if w.id == id {
      OwnWorkMoves(c, s.tables, w, k);
      if |stage.more| == 1 { assert stage.more[0] in stage.more + todo[1..]; }
    } else {
      var v :| v in todo && v.id == id;
      assert v in todo[1..] && v in stage.more + todo[1..];
      WorkKeeps(c, s.tables, w, EasyMove(w), s.handlers[w.id]);
    }
  }

  predicate LeftPending(s: State, k: PositionKey) {
    k in s.tables.positions && s.tables.positions[k].status != PENDING
  }

  /** A pass that still holds work on the deposit can come to fail its position. */
  lemma {:induction false} PassReleases(c: Chain, a: Assumptions, s: State, id: Id, p: nat) returns (steps: seq<Step>)
    requires Base(c, s) && FailedWhilePending(s, id) && p in s.passes && WorksOn(s.passes[p].todo, id)
    ensures Legal(c, a, s, steps) && LeftPending(Exec(c, a, s, steps), s.handlers[id].position)
    decreases Length(s.passes[p].todo)
  {
    MoveTowardsRelease(c, s, id, p);
    LengthShrinks(c, s.tables, s.passes[p].todo, EasyMove(s.passes[p].todo[0]));
    var step := Drive(p, EasyMove(s.passes[p].todo[0]));
    var s' := Apply(c, s, step);
    StepKeepsBase(c, s, step);
    steps := [];
    if s'.tables.positions[s.handlers[id].position].status == PENDING {
      steps := PassReleases(c, a, s', id, p);
    }
    assert ([step] + steps)[1..] == steps;
    steps := [step] + steps;
  }

  /** A living handler is in its catch arm and can end it. */
  lemma HandlerReleases(c: Chain, s: State, id: Id) returns (steps: seq<Step>)
    requires Solo(c, s, id, 0) && FailedWhilePending(s, id) && s.handlers[id].alive
    ensures Legal(c, Careful, s, steps) && LeftPending(Exec(c, Careful, s, steps), s.handlers[id].position)
  {
    KeptKnows(c, s, id);
    var first, second := Handle(id, CatchFirst), Handle(id, CatchSecond);
    if s.handlers[id].pc == CatchRow {
      ExecAppends(c, Careful, s, [], first);
      ExecAppends(c, Careful, s, [] + [first], second);
      steps := [] + [first] + [second];
    } else {
      assert s.handlers[id].pc == CatchPosition;
      ExecAppends(c, Careful, s, [], second);
      steps := [] + [second];
    }
  }

  /** Somebody is left: the handler lives, or some pass holds work on the deposit. */
  ghost predicate SomebodyIsLeft(s: State, id: Id) {
    id in s.handlers && (s.handlers[id].alive || exists p :: p in s.passes && WorksOn(s.passes[p].todo, id))
  }

  /** Otherwise the deposit is stranded. */
  lemma NobodyLeftStrands(c: Chain, s: State, id: Id)
    requires Solo(c, s, id, 0) && FailedWhilePending(s, id) && !SomebodyIsLeft(s, id)
    ensures Stranded(s, id)
  {
    forall p, w | p in s.passes && w in s.passes[p].todo && w.id in s.handlers
      ensures s.handlers[w.id].position != s.handlers[id].position
    {
      assert !WorksOn(s.passes[p].todo, id);
    }
  }

  /** A run that takes the position out of PENDING. */
  predicate Releases(c: Chain, s: State, k: PositionKey, steps: seq<Step>) {
    Legal(c, Careful, s, steps) && LeftPending(Exec(c, Careful, s, steps), k)
  }

  /**
   Exactly when a failed first deposit that has its position to itself leaves it PENDING for ever: some run takes the
   position out of PENDING if and only if its handler lives or a pass still holds work on it.
   */
  lemma ReleasedIffSomebodyIsLeft(c: Chain, s: State, id: Id)
    requires Solo(c, s, id, 0) && FailedWhilePending(s, id)
    ensures (exists steps :: Releases(c, s, s.handlers[id].position, steps)) <==> SomebodyIsLeft(s, id)
  {
    var k := s.handlers[id].position;
    if SomebodyIsLeft(s, id) {
      var steps := SomebodyReleases(c, s, id);
    } else {
      NobodyLeftStrands(c, s, id);
      forall steps ensures !Releases(c, s, k, steps) {
        if Legal(c, Careful, s, steps) { StrandedForever(c, Careful, s, id, steps); }
      }
    }
  }

  lemma SomebodyReleases(c: Chain, s: State, id: Id) returns (steps: seq<Step>)
    requires Solo(c, s, id, 0) && FailedWhilePending(s, id) && SomebodyIsLeft(s, id)
    ensures Releases(c, s, s.handlers[id].position, steps)
  {
    if s.handlers[id].alive {
      steps := HandlerReleases(c, s, id);
    } else {
      var p :| p in s.passes && WorksOn(s.passes[p].todo, id);
      steps := PassReleases(c, Careful, s, id, p);
    }
  }
}
