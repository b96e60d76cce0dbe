/**
 What every step keeps, with no assumption on the environment beyond atomic blocks and fixed receipts.

 The proofs go in two stages.  One turn of a handler or one piece of work of a pass touches one
 transaction row and one position row, so first the facts about those two rows are shown to be
 kept; then the rest of the state follows because it did not change.
 */
module Invariants {
  import opened Options
  import opened Rows
  import opened Blocks
  import opened Protocol

  /** The share count a SUBMITTED row carries to the reconciler. */
  function CarriedShares(kind: TransactionType, m: Metadata): Option<int> {
    if kind == DEPOSIT then m.estimatedShares else m.sharesBurned
  }

  predicate BeforeSubmit(pc: Pc) {
    pc == Reserved || pc == Broadcast
  }

  predicate AfterSubmit(pc: Pc) {
    pc == Submitted || pc == Reverting || pc == Settled || pc == Finished(true)
  }

  predicate Succeeded(c: Chain, hash: Option<Hash>) {
    hash.Some? && hash.value in c && c[hash.value].success
  }

  predicate Reverted(c: Chain, hash: Option<Hash>) {
    hash.Some? && hash.value in c && !c[hash.value].success
  }

  // ----- facts about single rows

  predicate PositionOk(p: Position) {
    && p.shares == p.currentAmount == p.depositedAmount >= 0
    && (p.status == PENDING || p.status == CLOSED ==> p.shares == 0)
  }

  predicate HandlerOk(d: Tables, id: Id, h: Handler) {
    && (h.pc == Ready || h.pc == Checked ==> id !in d.transactions)
    && (InTry(h.pc) || h.pc == CatchRow || h.pc == CatchPosition || h.pc == Finished(true) ==> id in d.transactions)
    && (h.pc == Checked || id in d.transactions ==>
          h.shares == h.amount >= 0 && h.position in d.positions
          && (h.request.WithdrawRequest? ==> d.positions[h.position].status != PENDING))
    && (h.pc == Checked ==> h.request.WithdrawRequest? && h.seen.status == ACTIVE && h.amount <= h.seen.shares)
  }

  /** The block number a row carries is that of its receipt; it is written when the row is settled. */
  predicate BlockOk(c: Chain, t: Transaction) {
    && (t.blockNumber.Some? ==>
          t.txHash.Some? && t.txHash.value in c && t.blockNumber == Some(c[t.txHash.value].blockNumber))
    && (t.status == TransactionStatus.CONFIRMED || t.status == TransactionStatus.REVERTED ==> t.blockNumber.Some?)
    && (t.status == TransactionStatus.CREATED || t.status == TransactionStatus.SUBMITTED ==> t.blockNumber.None?)
  }

  predicate RowOk(c: Chain, t: Transaction, h: Handler) {
    && BlockOk(c, t)
    && t.kind == h.request.Kind() && t.position == h.position && t.amount == h.amount
    && (BeforeSubmit(h.pc) ==>
           t.txHash.None? && (t.status == TransactionStatus.CREATED || t.status == TransactionStatus.FAILED))
    && (AfterSubmit(h.pc) ==> t.txHash.Some?)
    && (h.pc == Reverting ==> Reverted(c, t.txHash))
    && (t.txHash.Some? ==> t.txHash.value == h.hash)
    && (t.status == TransactionStatus.CREATED ==> t.txHash.None?)
    && (t.status == TransactionStatus.SUBMITTED ==>
           t.txHash.Some? && CarriedShares(t.kind, t.metadata) == Some(t.amount))
    && (t.status == TransactionStatus.CONFIRMED ==> Succeeded(c, t.txHash))
    && (t.status == TransactionStatus.REVERTED ==> Reverted(c, t.txHash))
  }

  predicate WorkOk(d: Tables, w: Work) {
    && w.id in d.transactions
    && var t := d.transactions[w.id];
    match w
    case FailStale(_, row) => row.kind == t.kind && row.position == t.position
    case ReadStale(_, position) => t.kind == DEPOSIT && position == t.position
    case MarkStale(_, position) => t.kind == DEPOSIT && position == t.position
    case Settle(_, row) =>
      row.kind == t.kind && row.position == t.position && row.amount == t.amount && row.txHash.Some?
      && row.txHash == t.txHash && CarriedShares(row.kind, row.metadata) == Some(row.amount)
  }

  /** A logged transaction can never again be confirmed: it was submitted and is not SUBMITTED any more. */
  predicate EntryOk(d: Tables, e: Entry) {
    && e.id in d.transactions
    && var t := d.transactions[e.id];
    && e.position == t.position && e.shares == t.amount && e.credit == (t.kind == DEPOSIT)
    && t.status != TransactionStatus.SUBMITTED && t.txHash.Some?
  }

  /** The invariant, as far as it speaks of one request, its row and its position. */
  predicate LocalOk(c: Chain, d: Tables, id: Id, h: Handler) {
    && HandlerOk(d, id, h)
    && (id in d.transactions ==> RowOk(c, d.transactions[id], h))
    && (h.position in d.positions ==> PositionOk(d.positions[h.position]))
  }

  // ----- one turn touches one transaction row and one position row

  /** A hash is written once; a row that has left SUBMITTED does not come back to it. */
  predicate RowGrows(t: Transaction, t': Transaction) {
    && t.kind == t'.kind && t.position == t'.position && t.amount == t'.amount
    && (t.txHash.Some? ==> t'.txHash == t.txHash)
    && (t.txHash.Some? && t.status != TransactionStatus.SUBMITTED ==> t'.status != TransactionStatus.SUBMITTED)
  }

  /** PENDING is never entered again. */
  predicate PositionGrows(p: Position, p': Position) {
    p.status != PENDING ==> p'.status != PENDING
  }

  ghost predicate Touches(d: Tables, d': Tables, id: Id, k: PositionKey) {
    && (d'.transactions == d.transactions
        || (id in d'.transactions && d'.transactions == d.transactions[id := d'.transactions[id]]))
    && (d'.positions == d.positions
        || (k in d'.positions && d'.positions == d.positions[k := d'.positions[k]]))
    && (id in d.transactions ==> RowGrows(d.transactions[id], d'.transactions[id]))
    && (k in d.positions ==> PositionGrows(d.positions[k], d'.positions[k]))
  }

  /** Rows are never removed; a hash is never overwritten and PENDING is never entered again. */
  ghost predicate Grows(d: Tables, d': Tables) {
    && (forall t | t in d.transactions :: t in d'.transactions && RowGrows(d.transactions[t], d'.transactions[t]))
    && (forall k | k in d.positions :: k in d'.positions && PositionGrows(d.positions[k], d'.positions[k]))
  }

  lemma TouchesGrows(d: Tables, d': Tables, id: Id, k: PositionKey)
    requires Touches(d, d', id, k)
    ensures Grows(d, d')
  {
  }

  predicate MovedOk(d: Tables, d': Tables, id: Id, moved: seq<Entry>) {
    |moved| == 0
    || (|moved| == 1 && moved[0].id == id && id in d.transactions
        && d.transactions[id].status == TransactionStatus.SUBMITTED && EntryOk(d', moved[0]))
  }

  lemma TurnTouches(c: Chain, d: Tables, id: Id, h: Handler, act: Act)
    requires CanAct(c, d, id, h, act) && LocalOk(c, d, id, h)
    ensures
      var turn := Perform(c, d, id, h, act);
      && turn.handler.position == h.position && turn.handler.request == h.request
      && Touches(d, turn.tables, id, h.position)
      && MovedOk(d, turn.tables, id, turn.moved)
  {
  }

  /** The acts that decide the fate of the row. */
  predicate Decides(act: Act) {
    act.Confirm? || act.RevertFirst? || act.RevertSecond? || act.CatchFirst?
  }

  lemma DecisionKeepsRow(c: Chain, d: Tables, id: Id, h: Handler, act: Act)
    requires CanAct(c, d, id, h, act) && LocalOk(c, d, id, h) && Decides(act)
    ensures var turn := Perform(c, d, id, h, act); id in turn.tables.transactions ==>
        RowOk(c, turn.tables.transactions[id], turn.handler)
  {
  }

  lemma OtherActKeepsRow(c: Chain, d: Tables, id: Id, h: Handler, act: Act)
    requires CanAct(c, d, id, h, act) && LocalOk(c, d, id, h) && !Decides(act)
    ensures var turn := Perform(c, d, id, h, act); id in turn.tables.transactions ==>
        RowOk(c, turn.tables.transactions[id], turn.handler)
  {
  }

  lemma TurnKeepsRow(c: Chain, d: Tables, id: Id, h: Handler, act: Act)
    requires CanAct(c, d, id, h, act) && LocalOk(c, d, id, h)
    ensures var turn := Perform(c, d, id, h, act); id in turn.tables.transactions ==>
        RowOk(c, turn.tables.transactions[id], turn.handler)
  {
    if Decides(act) { DecisionKeepsRow(c, d, id, h, act); } else { OtherActKeepsRow(c, d, id, h, act); }
  }

  lemma TurnKeepsPosition(c: Chain, d: Tables, id: Id, h: Handler, act: Act)
    requires CanAct(c, d, id, h, act) && LocalOk(c, d, id, h)
    ensures
      var turn := Perform(c, d, id, h, act);
      h.position in turn.tables.positions ==> PositionOk(turn.tables.positions[h.position])
  {
  }

  lemma TurnKeepsHandler(c: Chain, d: Tables, id: Id, h: Handler, act: Act)
    requires CanAct(c, d, id, h, act) && LocalOk(c, d, id, h)
    ensures var turn := Perform(c, d, id, h, act); HandlerOk(turn.tables, id, turn.handler)
  {
  }

  lemma WorkKeeps(c: Chain, d: Tables, w: Work, move: Move, h: Handler)
    requires CanWork(c, d, w, move) && WorkOk(d, w) && LocalOk(c, d, w.id, h)
    ensures
      var stage := DoWork(c, d, w, move);
      && LocalOk(c, stage.tables, w.id, h)
      && Touches(d, stage.tables, w.id, h.position)
      && MovedOk(d, stage.tables, w.id, stage.moved)
      && forall v | v in stage.more :: WorkOk(stage.tables, v)
  {
  }

  // ----- the whole state

  ghost predicate RequestsOk(c: Chain, s: State) {
    && (forall id | id in s.handlers :: LocalOk(c, s.tables, id, s.handlers[id]))
    && (forall id | id in s.tables.transactions :: id in s.handlers)
  }

  ghost predicate PositionsOk(s: State) {
    forall k | k in s.tables.positions :: PositionOk(s.tables.positions[k])
  }

  ghost predicate WorksOk(s: State) {
    forall p, w | p in s.passes && w in s.passes[p].todo :: WorkOk(s.tables, w)
  }

  ghost predicate LogOk(s: State) {
    && (forall i | 0 <= i < |s.log| :: EntryOk(s.tables, s.log[i]))
    && (forall i, j | 0 <= i < j < |s.log| :: s.log[i].id != s.log[j].id)
  }

  ghost predicate Base(c: Chain, s: State) {
    RequestsOk(c, s) && PositionsOk(s) && WorksOk(s) && LogOk(s)
  }

  /** What a turn or a piece of work changes, seen from the whole state. */
  ghost predicate Advances(c: Chain, s: State, d: Tables, id: Id, h: Handler, moved: seq<Entry>) {
    && id in s.handlers && h.position == s.handlers[id].position
    && LocalOk(c, d, id, h) && Touches(s.tables, d, id, h.position) && MovedOk(s.tables, d, id, moved)
  }

  lemma AdvanceKeepsOthers(c: Chain, s: State, d: Tables, id: Id, h: Handler, moved: seq<Entry>, other: Id)
    requires Base(c, s) && Advances(c, s, d, id, h, moved) && other in s.handlers && other != id
    ensures LocalOk(c, d, other, s.handlers[other])
  {
  }

  lemma AdvanceKeepsWork(c: Chain, s: State, d: Tables, id: Id, h: Handler, moved: seq<Entry>, w: Work)
    requires Base(c, s) && Advances(c, s, d, id, h, moved) && WorkOk(s.tables, w)
    ensures WorkOk(d, w)
  {
    assert w.id in s.handlers;
  }

  lemma AdvanceKeepsEntry(c: Chain, s: State, d: Tables, id: Id, h: Handler, moved: seq<Entry>, e: Entry)
    requires Base(c, s) && Advances(c, s, d, id, h, moved) && EntryOk(s.tables, e)
    ensures EntryOk(d, e) && (moved != [] ==> e.id != id)
  {
  }

  lemma LogAppends(s: State, d: Tables, moved: seq<Entry>)
    requires LogOk(s.(tables := d)) && |moved| <= 1
    requires moved != [] ==> EntryOk(d, moved[0]) && forall i | 0 <= i < |s.log| :: s.log[i].id != moved[0].id
    ensures LogOk(s.(tables := d, log := s.log + moved))
  {
    var log := s.log + moved;
    forall i | 0 <= i < |log| ensures EntryOk(d, log[i]) {
      if i < |s.log| { assert log[i] == s.log[i]; } else { assert log[i] == moved[0]; }
    }
  }

  lemma AdvanceKeepsLog(c: Chain, s: State, d: Tables, id: Id, h: Handler, moved: seq<Entry>)
    requires Base(c, s) && Advances(c, s, d, id, h, moved)
    ensures LogOk(s.(tables := d, log := s.log + moved))
  {
    forall i | 0 <= i < |s.log| ensures EntryOk(d, s.log[i]) && (moved != [] ==> s.log[i].id != id) {
      AdvanceKeepsEntry(c, s, d, id, h, moved, s.log[i]);
    }
    LogAppends(s, d, moved);
  }

  lemma AdvanceKeepsBase(c: Chain, s: State, d: Tables, id: Id, h: Handler, moved: seq<Entry>, passes: map<nat, Pass>)
    requires Base(c, s) && Advances(c, s, d, id, h, moved)
    requires forall p, w | p in passes && w in passes[p].todo :: WorkOk(d, w)
    ensures Base(c, State(d, s.handlers[id := h], passes, s.log + moved))
  {
    var s' := State(d, s.handlers[id := h], passes, s.log + moved);
    AdvanceKeepsLog(c, s, d, id, h, moved);
    forall i | i in s'.handlers ensures LocalOk(c, d, i, s'.handlers[i]) {
      if i != id { AdvanceKeepsOthers(c, s, d, id, h, moved, i); }
    }
    assert PositionsOk(s') by { assert LocalOk(c, s.tables, id, s.handlers[id]); }
  }

  lemma HandleKeepsBase(c: Chain, s: State, id: Id, act: Act)
    requires Base(c, s) && Enabled(c, s, Handle(id, act))
    ensures Base(c, Apply(c, s, Handle(id, act)))
  {
    var h := s.handlers[id];
    var turn := Perform(c, s.tables, id, h, act);
    assert LocalOk(c, s.tables, id, h);
    TurnTouches(c, s.tables, id, h, act);
    TurnKeepsRow(c, s.tables, id, h, act);
    TurnKeepsHandler(c, s.tables, id, h, act);
    TurnKeepsPosition(c, s.tables, id, h, act);
    forall p, w | p in s.passes && w in s.passes[p].todo ensures WorkOk(turn.tables, w) {
      AdvanceKeepsWork(c, s, turn.tables, id, turn.handler, turn.moved, w);
    }
    AdvanceKeepsBase(c, s, turn.tables, id, turn.handler, turn.moved, s.passes);
  }

  lemma DriveKeepsBase(c: Chain, s: State, p: nat, move: Move)
    requires Base(c, s) && Enabled(c, s, Drive(p, move)) && !move.ListPending?
    ensures Base(c, Apply(c, s, Drive(p, move)))
  {
    var todo := s.passes[p].todo;
    var w := todo[0];
    assert w in todo && WorkOk(s.tables, w);
    var h := s.handlers[w.id];
    assert LocalOk(c, s.tables, w.id, h);
    var stage := DoWork(c, s.tables, w, move);
    WorkKeeps(c, s.tables, w, move, h);
    var passes := s.passes[p := s.passes[p].(todo := stage.more + todo[1..])];
    forall q, v | q in passes && v in passes[q].todo ensures WorkOk(stage.tables, v) {
      if q != p || v !in stage.more {
        assert v in s.passes[q].todo;
        AdvanceKeepsWork(c, s, stage.tables, w.id, h, stage.moved, v);
      }
    }
    AdvanceKeepsBase(c, s, stage.tables, w.id, h, stage.moved, passes);
    assert s.handlers[w.id := h] == s.handlers;
  }

  lemma StepKeepsBase(c: Chain, s: State, step: Step)
    requires Base(c, s) && Enabled(c, s, step)
    ensures Base(c, Apply(c, s, step))
  {
    match step
    case Handle(id, act) => HandleKeepsBase(c, s, id, act);
    case Drive(p, move) => if !move.ListPending? { DriveKeepsBase(c, s, p, move); }
    case _ =>
  }
}
