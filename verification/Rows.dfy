/**
 The rows of the `positions` and `transactions` tables and what one write does to one row.

 A position is addressed by its unique (user, vault) pair.  A transaction row is named by the
 request that creates it: a request creates at most one row and the database gives it a fresh id.
 */
module Rows {
  import opened Options

  type Id = nat
  type Hash = nat

  datatype PositionKey = PositionKey(user: nat, vault: nat)

  datatype PositionStatus = ACTIVE | CLOSED | PENDING | WITHDRAWING | FAILED

  datatype Position = Position(status: PositionStatus, depositedAmount: int, currentAmount: int, shares: int)

  datatype TransactionType = DEPOSIT | WITHDRAW

  datatype TransactionStatus = CREATED | SUBMITTED | CONFIRMED | FAILED | REVERTED

  /** The two metadata fields that are ever read back; every other field is audit text. */
  datatype Metadata = Metadata(estimatedShares: Option<int>, sharesBurned: Option<int>)

  const NoMetadata := Metadata(None, None)

  datatype Transaction = Transaction(
    kind: TransactionType, status: TransactionStatus, position: PositionKey, amount: int,
    txHash: Option<Hash>, blockNumber: Option<nat>, metadata: Metadata)

  datatype Receipt = Receipt(success: bool, blockNumber: nat)

  // ----- position rows

  function PendingPosition(): Position {
    Position(PENDING, 0, 0, 0)
  }

  function Activated(deposited: int, current: int, shares: int): Position {
    Position(ACTIVE, deposited, current, shares)
  }

  function Increased(p: Position, deposited: int, current: int, shares: int): Position {
    Position(ACTIVE, p.depositedAmount + deposited, p.currentAmount + current, p.shares + shares)
  }

  /** A withdraw that uses up the shares closes the row and zeroes all three balances. */
  function Withdrawn(p: Position, amount: int, shares: int): Position {
    if p.shares - shares <= 0 then Position(CLOSED, 0, 0, 0)
    else Position(ACTIVE, p.depositedAmount - amount, p.currentAmount - amount, p.shares - shares)
  }

  predicate SameBalances(p: Position, q: Position) {
    p.depositedAmount == q.depositedAmount && p.currentAmount == q.currentAmount && p.shares == q.shares
  }

  // ----- transaction rows

  function NewTransaction(kind: TransactionType, position: PositionKey, amount: int, metadata: Metadata): Transaction {
    Transaction(kind, TransactionStatus.CREATED, position, amount, None, None, metadata)
  }

  /** What `updateStatus` is given: an absent field leaves the column as it is. */
  datatype Update = Update(status: TransactionStatus, txHash: Option<Hash>, blockNumber: Option<nat>,
                           metadata: Option<Metadata>)

  function Updated(t: Transaction, u: Update): Transaction {
    t.(status := u.status,
       txHash := if u.txHash.Some? then u.txHash else t.txHash,
       blockNumber := if u.blockNumber.Some? then u.blockNumber else t.blockNumber,
       metadata := if u.metadata.Some? then u.metadata.value else t.metadata)
  }

  predicate IsOpen(t: Transaction) {
    t.status == TransactionStatus.CREATED || t.status == TransactionStatus.SUBMITTED
  }

  /** `findOpenDeposit`: some unfinished deposit of this user into this vault. */
  predicate HasOpenDeposit(transactions: map<Id, Transaction>, position: PositionKey) {
    exists t | t in transactions ::
        transactions[t].kind == DEPOSIT && transactions[t].position == position && IsOpen(transactions[t])
  }

  /** `findOpenWithdraw`: some unfinished withdraw from this position. */
  predicate HasOpenWithdraw(transactions: map<Id, Transaction>, position: PositionKey) {
    exists t | t in transactions ::
        transactions[t].kind == WITHDRAW && transactions[t].position == position && IsOpen(transactions[t])
  }

  /** `readMetadataString`: a missing field reads as zero. */
  function ReadShares(field: Option<int>): int {
    if field.Some? then field.value else 0
  }
}
