/** How one turn or one piece of work changes the balances of its position, and when a row is opened or closed. */
module Balances {
  import opened Numbers
  import opened Options
  import opened Rows
  import opened Blocks
  import opened Protocol
  import opened Invariants

  function Shares(d: Tables, k: PositionKey): int {
    if k in d.positions then d.positions[k].shares else 0
  }

  /**
   Balances change exactly when something is logged.  A credit adds to what was there unless it
   activates the position, which overwrites; a debit takes at most what is there.
   */
  predicate Accounts(d: Tables, d': Tables, k: PositionKey, moved: seq<Entry>, activates: bool) {
    if moved == [] then
      (k in d.positions ==> k in d'.positions && SameBalances(d.positions[k], d'.positions[k]))
          && Shares(d', k) == Shares(d, k)
    else
      && k in d.positions && k in d'.positions && moved[0].position == k && moved[0].before == d.positions[k].shares
      && d'.positions[k].shares ==
         (if !moved[0].credit then moved[0].before - Min(moved[0].before, moved[0].shares)
          else if activates then moved[0].shares
          else moved[0].before + moved[0].shares)
  }

  /** Does this act overwrite the balances rather than add to them? */
  predicate Activates(h: Handler) {
    h.request.DepositRequest? && h.isNew
  }

  lemma TurnAccounts(c: Chain, d: Tables, id: Id, h: Handler, act: Act)
    requires CanAct(c, d, id, h, act) && LocalOk(c, d, id, h)
    ensures var turn := Perform(c, d, id, h, act); Accounts(d, turn.tables, h.position, turn.moved, Activates(h))
  {
  }

  /** The reconciler only ever credits by activating a PENDING position, whose balance is zero. */
  lemma WorkAccounts(c: Chain, d: Tables, w: Work, move: Move, h: Handler)
    requires CanWork(c, d, w, move) && WorkOk(d, w) && LocalOk(c, d, w.id, h)
    ensures
      var stage := DoWork(c, d, w, move);
      && Accounts(d, stage.tables, h.position, stage.moved, true)
      && (stage.moved != [] && stage.moved[0].credit ==>
             d.positions[h.position].status == PENDING && stage.moved[0].before == 0)
  {
  }

  // ----- opening and closing rows, when the sweep only lists rows whose handler is gone

  /** A live handler that has not submitted yet still has its CREATED row; the catch arm has closed its row. */
  predicate NotSwept(d: Tables, id: Id, h: Handler) {
    && (h.alive && BeforeSubmit(h.pc) ==>
           id in d.transactions && d.transactions[id].status == TransactionStatus.CREATED)
    && (h.pc == CatchPosition ==> id in d.transactions && !IsOpen(d.transactions[id]))
  }

  predicate RowClosed(d: Tables, id: Id) {
    id in d.transactions && !IsOpen(d.transactions[id])
  }

  predicate Abandoned(d: Tables, id: Id) {
    id in d.transactions && d.transactions[id].status == TransactionStatus.FAILED && d.transactions[id].txHash.None?
  }

  /** Work of the sweep stands for a row whose handler is gone, and from its second stage on the row is FAILED. */
  predicate WorkStale(d: Tables, w: Work, h: Handler) {
    match w
    case FailStale(id, _) => Gone(h) && id in d.transactions && d.transactions[id].txHash.None?
    case ReadStale(id, _) => Abandoned(d, id)
    case MarkStale(id, _) => Abandoned(d, id)
    case Settle(_, _) => true
  }

  /** A row is opened only when the tables hold no open row of its kind; no row is reopened. */
  lemma TurnOpens(c: Chain, d: Tables, id: Id, h: Handler, act: Act)
    requires CanAct(c, d, id, h, act) && LocalOk(c, d, id, h) && NotSwept(d, id, h)
    ensures
      var turn := Perform(c, d, id, h, act);
      && NotSwept(turn.tables, id, turn.handler)
      && (RowClosed(d, id) ==> RowClosed(turn.tables, id))
      && (Abandoned(d, id) ==> Abandoned(turn.tables, id))
      && (Gone(h) ==> Gone(turn.handler))
      && (id in d.transactions ==> turn.handler.isNew == h.isNew)
      && (h.position !in d.positions && h.position in turn.tables.positions ==>
             turn.tables.positions[h.position] == PendingPosition())
      && (id !in d.transactions && id in turn.tables.transactions ==>
            turn.tables.transactions[id].status == TransactionStatus.CREATED &&
            if h.request.DepositRequest? then
              !DepositBlocked(d, h.position) && turn.handler.isNew == (h.position !in d.positions)
            else !HasOpenWithdraw(d.transactions, h.position) && act.StartWithdraw? && h.position in d.positions)
  {
  }

  lemma WorkCloses(c: Chain, d: Tables, w: Work, move: Move, h: Handler)
    requires CanWork(c, d, w, move) && WorkOk(d, w) && LocalOk(c, d, w.id, h) && NotSwept(d, w.id, h)
    requires WorkStale(d, w, h)
    ensures
      var stage := DoWork(c, d, w, move);
      && NotSwept(stage.tables, w.id, h)
      && (RowClosed(d, w.id) ==> RowClosed(stage.tables, w.id))
      && (Abandoned(d, w.id) ==> Abandoned(stage.tables, w.id))
      && forall v | v in stage.more :: WorkStale(stage.tables, v, h) && v.id == w.id
  {
  }

  // ----- a PENDING position

  /** Only a deposit takes a position out of PENDING, and then its row is closed or its receipt is a revert. */
  predicate LeavesPending(c: Chain, d: Tables, d': Tables, id: Id, h: Handler) {
    var k := h.position;
    k in d.positions && d.positions[k].status == PENDING ==>
      k in d'.positions &&
      (d'.positions[k].status == PENDING
       || (h.request.DepositRequest? && id in d'.transactions
           && (RowClosed(d', id) || Reverted(c, d'.transactions[id].txHash))))
  }

  /** A row that becomes CONFIRMED is applied, unless a pass confirms it and the position is not the one it expects. */
  predicate ConfirmApplies(c: Chain, d: Tables, d': Tables, id: Id, h: Handler, moved: seq<Entry>) {
    id in d.transactions && id in d'.transactions
    && d'.transactions[id].status == TransactionStatus.CONFIRMED
       && d.transactions[id].status != TransactionStatus.CONFIRMED ==>
      && d.transactions[id].status == TransactionStatus.SUBMITTED
      && (moved != [] || h.request.WithdrawRequest?
             || (h.position in d.positions && d.positions[h.position].status != PENDING))
  }

  lemma TurnLeavesPending(c: Chain, d: Tables, id: Id, h: Handler, act: Act)
    requires CanAct(c, d, id, h, act) && LocalOk(c, d, id, h) && NotSwept(d, id, h)
    ensures
      var turn := Perform(c, d, id, h, act);
      LeavesPending(c, d, turn.tables, id, h) && ConfirmApplies(c, d, turn.tables, id, h, turn.moved)
  {
  }

  lemma WorkLeavesPending(c: Chain, d: Tables, w: Work, move: Move, h: Handler)
    requires CanWork(c, d, w, move) && WorkOk(d, w) && LocalOk(c, d, w.id, h) && WorkStale(d, w, h)
    ensures
      var stage := DoWork(c, d, w, move);
      LeavesPending(c, d, stage.tables, w.id, h) && ConfirmApplies(c, d, stage.tables, w.id, h, stage.moved)
  {
  }
}
