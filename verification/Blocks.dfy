/**
 The atomic blocks: each function is one single-row update or one `$transaction` block of the
 deposit service, the withdraw service or the reconciler, as a function of the two tables.
 `moved` records the credit or debit the block applied to a position, if any.
 */
module Blocks {
  import opened Options
  import opened Rows

  datatype Tables = Tables(positions: map<PositionKey, Position>, transactions: map<Id, Transaction>)

  /** One applied balance change: `before` is the share balance the block found. */
  datatype Entry = Entry(id: Id, position: PositionKey, credit: bool, shares: int, before: int)

  datatype Effect = Effect(tables: Tables, moved: seq<Entry>)

  // ----- single updates

  function Write(d: Tables, id: Id, u: Update): Tables
    requires id in d.transactions
  {
    d.(transactions := d.transactions[id := Updated(d.transactions[id], u)])
  }

  function MarkSubmitted(d: Tables, id: Id, hash: Hash, metadata: Metadata): Tables
    requires id in d.transactions
  {
    Write(d, id, Update(TransactionStatus.SUBMITTED, Some(hash), None, Some(metadata)))
  }

  function MarkFailed(d: Tables, id: Id): Tables
    requires id in d.transactions
  {
    Write(d, id, Update(TransactionStatus.FAILED, None, None, Some(NoMetadata)))
  }

  function MarkReverted(d: Tables, id: Id, blockNumber: nat): Tables
    requires id in d.transactions
  {
    Write(d, id, Update(TransactionStatus.REVERTED, None, Some(blockNumber), Some(NoMetadata)))
  }

  function SetStatus(d: Tables, position: PositionKey, status: PositionStatus): Tables
    requires position in d.positions
  {
    d.(positions := d.positions[position := d.positions[position].(status := status)])
  }

  function SetPosition(d: Tables, position: PositionKey, row: Position): Tables {
    d.(positions := d.positions[position := row])
  }

  /** The compare-and-set: only a SUBMITTED row becomes CONFIRMED. */
  predicate Confirmable(d: Tables, id: Id)
    requires id in d.transactions
  {
    d.transactions[id].status == TransactionStatus.SUBMITTED
  }

  function ConfirmSubmitted(d: Tables, id: Id, blockNumber: nat, metadata: Metadata): Tables
    requires id in d.transactions
  {
    if Confirmable(d, id) then
      Write(d, id, Update(TransactionStatus.CONFIRMED, None, Some(blockNumber), Some(metadata)))
    else d
  }

  // ----- reservations

  predicate DepositBlocked(d: Tables, position: PositionKey) {
    (position in d.positions && d.positions[position].status == PENDING) || HasOpenDeposit(d.transactions, position)
  }

  /** The deposit reservation: a PENDING row for a first deposit, and a CREATED transaction. */
  function ReserveDeposit(d: Tables, id: Id, position: PositionKey, amount: int, shares: int): Tables {
    Tables(
      if position in d.positions then d.positions else d.positions[position := PendingPosition()],
      d.transactions[id := NewTransaction(DEPOSIT, position, amount, Metadata(Some(shares), None))])
  }

  function ReserveWithdraw(d: Tables, id: Id, position: PositionKey, amount: int, shares: int): Tables
    requires position in d.positions
  {
    SetStatus(d, position, WITHDRAWING)
    .(transactions := d.transactions[id := NewTransaction(WITHDRAW, position, amount, Metadata(None, Some(shares)))])
  }

  // ----- confirmations by the request handlers

  function ConfirmDeposit(d: Tables, id: Id, blockNumber: nat, position: PositionKey, amount: int, shares: int,
                          isNew: bool): Effect
    requires id in d.transactions && position in d.positions
  {
    var confirmed := ConfirmSubmitted(d, id, blockNumber, Metadata(Some(shares), None));
    if !Confirmable(d, id) then Effect(confirmed, [])
    else
      var row := d.positions[position];
      Effect(
        SetPosition(confirmed, position,
                    if isNew then Activated(amount, amount, shares) else Increased(row, amount, amount, shares)),
        [Entry(id, position, true, shares, row.shares)])
  }

  function ConfirmWithdraw(d: Tables, id: Id, blockNumber: nat, position: PositionKey, amount: int, shares: int): Effect
    requires id in d.transactions && position in d.positions
  {
    var confirmed := ConfirmSubmitted(d, id, blockNumber, Metadata(None, Some(shares)));
    if !Confirmable(d, id) then Effect(confirmed, [])
    else
      var row := d.positions[position];
      Effect(SetPosition(confirmed, position, Withdrawn(row, amount, shares)),
             [Entry(id, position, false, shares, row.shares)])
  }

  // ----- the reconciler's blocks, which act on the row it listed earlier

  function ReconcileDeposit(d: Tables, id: Id, listed: Transaction, blockNumber: nat): Effect
    requires id in d.transactions
  {
    var shares := ReadShares(listed.metadata.estimatedShares);
    var confirmed := ConfirmSubmitted(d, id, blockNumber, Metadata(Some(shares), None));
    if !Confirmable(d, id) || listed.position !in d.positions || d.positions[listed.position].status != PENDING then
      Effect(confirmed, [])
    else
      Effect(
        SetPosition(confirmed, listed.position, Activated(listed.amount, listed.amount, shares)),
        [Entry(id, listed.position, true, shares, d.positions[listed.position].shares)])
  }

  function ReconcileWithdraw(d: Tables, id: Id, listed: Transaction, blockNumber: nat): Effect
    requires id in d.transactions
  {
    var shares := ReadShares(listed.metadata.sharesBurned);
    var confirmed := ConfirmSubmitted(d, id, blockNumber, Metadata(None, Some(shares)));
    if !Confirmable(d, id) || listed.position !in d.positions || d.positions[listed.position].status != WITHDRAWING then
      Effect(confirmed, [])
    else
      var row := d.positions[listed.position];
      Effect(
        SetPosition(confirmed, listed.position, Withdrawn(row, listed.amount, shares)),
        [Entry(id, listed.position, false, shares, row.shares)])
  }

  function ReconcileReverted(d: Tables, id: Id, listed: Transaction, blockNumber: nat): Tables
    requires id in d.transactions
  {
    var reverted := MarkReverted(d, id, blockNumber);
    if listed.position !in d.positions then reverted
    else if listed.kind == DEPOSIT && d.positions[listed.position].status == PENDING then
      SetStatus(reverted, listed.position, PositionStatus.FAILED)
    else if listed.kind == WITHDRAW && d.positions[listed.position].status == WITHDRAWING then
      SetStatus(reverted, listed.position, ACTIVE)
    else reverted
  }

  /** `reconcileTransaction` once a receipt has been found. */
  function Reconcile(d: Tables, id: Id, listed: Transaction, receipt: Receipt): Effect
    requires id in d.transactions
  {
    if !receipt.success then Effect(ReconcileReverted(d, id, listed, receipt.blockNumber), [])
    else if listed.kind == DEPOSIT then ReconcileDeposit(d, id, listed, receipt.blockNumber)
    else ReconcileWithdraw(d, id, listed, receipt.blockNumber)
  }
}
