/**
 A withdraw that stands half reverted: its row is REVERTED and its position still WITHDRAWING.  As long as
 its handler lives or a pass holds work on it, the position can be freed; otherwise it never is, in any run
 in which no new request comes to the position.
 */
module Freeing {
  import opened Options
  import opened Rows
  import opened Blocks
  import opened Protocol
  import opened Invariants
  import opened Runs
  import opened Recovery
  import opened Stranding

  predicate IsFree(s: State, k: PositionKey) {
    k in s.tables.positions && s.tables.positions[k].status == ACTIVE
  }

  /** A run under A4, without a new request on the position, that frees it. */
  predicate Frees(c: Chain, s: State, k: PositionKey, steps: seq<Step>) {
    Legal(c, NoLateThrow, s, steps) && NoArrivalAt(steps, k) && IsFree(Exec(c, NoLateThrow, s, steps), k)
  }

  /** Reconciles request `id`, and takes the easy way with all others. */
  function MoveFor(w: Work, id: Id): Move {
    if w.id == id && w.Settle? then Reconciled else EasyMove(w)
  }

  /** A pass that settles the half-reverted withdraw frees its position. */
  lemma SettleFrees(c: Chain, d: Tables, w: Work, h: Handler, balance: int)
    requires WorkOk(d, w) && LocalOk(c, d, w.id, h) && w.Settle? && h.position in d.positions
    requires HalfReverted(d.transactions[w.id], h, d.positions[h.position], balance)
    ensures CanWork(c, d, w, Reconciled)
    ensures
      var d' := DoWork(c, d, w, Reconciled).tables;
      h.position in d'.positions && d'.positions[h.position].status == ACTIVE
  {
  }

  /** One move of a pass that holds work on the withdraw: it frees the position, or everything stays as it was. */
  lemma MoveTowardsFreeing(c: Chain, s: State, id: Id, balance: int, p: nat)
    requires Settling(c, s, id, balance) && StandsHalfReverted(s, id, balance)
    requires p in s.passes && WorksOn(s.passes[p].todo, id)
    ensures
      var todo := s.passes[p].todo;
      var move := MoveFor(todo[0], id);
      && CanWork(c, s.tables, todo[0], move) && !move.ListPending?
      && var stage := DoWork(c, s.tables, todo[0], move);
      IsFree(s.(tables := stage.tables), s.handlers[id].position)
      || (StandsHalfReverted(s.(tables := stage.tables), id, balance) && WorksOn(stage.more + todo[1..], id))
  {
    HeadIsKnown(c, s, p);
    var todo := s.passes[p].todo;
    var w := todo[0];
    var stage := DoWork(c, s.tables, w, MoveFor(w, id));
    assert w in todo;
    if w.id == id {
      SettleFrees(c, s.tables, w, s.handlers[id], balance);
    } else {
      var v :| v in todo && v.id == id;
      assert v in todo[1..] && v in stage.more + todo[1..];
      WorkKeeps(c, s.tables, w, MoveFor(w, id), s.handlers[w.id]);
    }
  }

  lemma {:induction false} PassFrees(c: Chain, s: State, id: Id, balance: int, p: nat) returns (steps: seq<Step>)
    requires Settling(c, s, id, balance) && StandsHalfReverted(s, id, balance)
    requires p in s.passes && WorksOn(s.passes[p].todo, id)
    ensures Frees(c, s, s.handlers[id].position, steps)
    decreases Length(s.passes[p].todo)
  {
    MoveTowardsFreeing(c, s, id, balance, p);
    var todo := s.passes[p].todo;
    var step := Drive(p, MoveFor(todo[0], id));
    LengthShrinks(c, s.tables, todo, MoveFor(todo[0], id));
    var s' := Apply(c, s, step);
    steps := [];
    if !IsFree(s', s.handlers[id].position) {
      DriveKeepsSettling(c, s, id, balance, p, MoveFor(todo[0], id));
      steps := PassFrees(c, s', id, balance, p);
    }
    assert ([step] + steps)[1..] == steps;
    steps := [step] + steps;
  }

  /** A living handler has only its second write to make. */
  lemma HandlerFrees(c: Chain, s: State, id: Id, balance: int) returns (steps: seq<Step>)
    requires Settling(c, s, id, balance) && StandsHalfReverted(s, id, balance) && s.handlers[id].alive
    ensures Frees(c, s, s.handlers[id].position, steps)
  {
    assert Known(c, s, id);
    ExecAppends(c, NoLateThrow, s, [], Handle(id, RevertSecond));
    steps := [] + [Handle(id, RevertSecond)];
  }

  lemma SomebodyFrees(c: Chain, s: State, id: Id, balance: int) returns (steps: seq<Step>)
    requires Settling(c, s, id, balance) && StandsHalfReverted(s, id, balance) && SomebodyIsLeft(s, id)
    ensures Frees(c, s, s.handlers[id].position, steps)
  {
    if s.handlers[id].alive {
      steps := HandlerFrees(c, s, id, balance);
    } else {
      var p :| p in s.passes && WorksOn(s.passes[p].todo, id);
      steps := PassFrees(c, s, id, balance, p);
    }
  }

  lemma NobodyLeftIsStuck(s: State, id: Id, balance: int)
    requires StandsHalfReverted(s, id, balance) && !SomebodyIsLeft(s, id)
    ensures Stuck(s, id, balance)
  {
    forall p, w | p in s.passes && w in s.passes[p].todo ensures w.id != id {
      assert !WorksOn(s.passes[p].todo, id);
    }
  }

  /**
   Exactly when a half-reverted withdraw keeps its position WITHDRAWING for ever: some run without a new request frees
   the position if and only if its handler lives or a pass still holds work on it.
   */
  lemma FreedIffSomebodyIsLeft(c: Chain, s: State, id: Id, balance: int)
    requires Settling(c, s, id, balance) && StandsHalfReverted(s, id, balance)
    ensures (exists steps :: Frees(c, s, s.handlers[id].position, steps)) <==> SomebodyIsLeft(s, id)
  {
    var k := s.handlers[id].position;
    if SomebodyIsLeft(s, id) {
      var steps := SomebodyFrees(c, s, id, balance);
    } else {
      NobodyLeftIsStuck(s, id, balance);
      forall steps ensures !Frees(c, s, k, steps) {
        if Legal(c, NoLateThrow, s, steps) && NoArrivalAt(steps, k) { NeverFreed(c, s, id, balance, steps); }
      }
    }
  }

  lemma NeverFreed(c: Chain, s: State, id: Id, balance: int, steps: seq<Step>)
    requires Settling(c, s, id, balance) && Stuck(s, id, balance)
    requires Legal(c, NoLateThrow, s, steps) && NoArrivalAt(steps, s.handlers[id].position)
    ensures !IsFree(Exec(c, NoLateThrow, s, steps), s.handlers[id].position)
  {
    StuckForever(c, s, id, balance, steps);
    RunKeepsSettling(c, s, id, balance, steps);
  }
}
