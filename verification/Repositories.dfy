/** The two repositories, as tables updated in place. */
module Repositories {
  import opened Numbers
  import opened Options
  import opened Rows
  import opened Blocks
  import opened Protocol

  /** When each row was created or last updated; ids without a row do not matter. */
  type Times = Id -> nat

  function At(times: Times, id: Id, now: nat): Times {
    (t: Id) => if t == id then now else times(t)
  }

  predicate SameTimes(ids: set<Id>, f: Times, g: Times) {
    forall t | t in ids :: f(t) == g(t)
  }

  ghost predicate SameExcept(f: Times, g: Times, id: Id) {
    forall t | t != id :: f(t) == g(t)
  }

  /** The status is the new one, an absent field keeps its value, and a given one replaces it. */
  ghost predicate Overwritten(t: Transaction, t': Transaction, u: Update) {
    && t'.kind == t.kind && t'.position == t.position && t'.amount == t.amount && t'.status == u.status
    && (u.txHash.None? ==> t'.txHash == t.txHash) && (u.txHash.Some? ==> t'.txHash == u.txHash)
    && (u.blockNumber.None? ==> t'.blockNumber == t.blockNumber)
       && (u.blockNumber.Some? ==> t'.blockNumber == u.blockNumber)
    && (u.metadata.None? ==> t'.metadata == t.metadata) && (u.metadata.Some? ==> Some(t'.metadata) == u.metadata)
  }

  /** An unfinished row of this kind on this position. */
  ghost predicate Open(t: Transaction, kind: TransactionType, position: PositionKey) {
    && t.kind == kind && t.position == position
    && (t.status == TransactionStatus.CREATED || t.status == TransactionStatus.SUBMITTED)
  }

  /** A row that was created before the cutoff and never got a hash. */
  ghost predicate LeftOver(t: Transaction, createdAt: nat, olderThan: nat) {
    t.status == TransactionStatus.CREATED && t.txHash == None && createdAt < olderThan
  }

  /** A row that waits for its receipt. */
  ghost predicate Waiting(t: Transaction) {
    t.status == TransactionStatus.SUBMITTED && t.txHash != None
  }

  /** The listed rows are left over; if they are fewer than 50, they are all the rows left over. */
  ghost predicate ListsLeftOver(ids: seq<Id>, rows: map<Id, Transaction>, createdAt: Times, olderThan: nat) {
    && |ids| <= 50 && (forall t | t in ids :: t in rows && LeftOver(rows[t], createdAt(t), olderThan))
    && (|ids| < 50 ==> forall t | t in rows && LeftOver(rows[t], createdAt(t), olderThan) :: t in ids)
  }

  ghost predicate ListsWaiting(ids: seq<Id>, rows: map<Id, Transaction>) {
    && |ids| <= 100 && (forall t | t in ids :: t in rows && Waiting(rows[t]))
    && (|ids| < 100 ==> forall t | t in rows && Waiting(rows[t]) :: t in ids)
  }

  class TransactionsRepository {
    var rows: map<Id, Transaction>
    var createdAt: Times
    var updatedAt: Times
    var clock: nat

    /** What a sweep with this cutoff would find without its limit. */
    function Stale(olderThan: nat): set<Id>
      reads this
    {
      StaleIn(rows, Before(createdAt, olderThan))
    }

    constructor ()
      ensures rows == map[]
    {
      rows, createdAt, updatedAt, clock := map[], (t: Id) => 0, (t: Id) => 0, 0;
    }

    /** Time passes, or it does not. */
    method Tick()
      modifies this`clock
      ensures clock >= old(clock)
    {
      var elapsed :| elapsed >= 0;
      clock := clock + elapsed;
    }

    method Create(id: Id, kind: TransactionType, position: PositionKey, amount: int, metadata: Metadata)
      requires id !in rows
      modifies this
      ensures rows ==
        old(rows)[id := Transaction(kind, TransactionStatus.CREATED, position, amount, None, None, metadata)]
      ensures createdAt(id) == updatedAt(id) == clock && clock >= old(clock)
      ensures SameExcept(createdAt, old(createdAt), id) && SameExcept(updatedAt, old(updatedAt), id)
    {
      Tick();
      rows := rows[id := NewTransaction(kind, position, amount, metadata)];
      createdAt, updatedAt := At(createdAt, id, clock), At(updatedAt, id, clock);
    }

    /** Unconditional: whatever the row's status is, it becomes the given one. */
    method UpdateStatus(id: Id, update: Update)
      requires id in rows
      modifies this
      ensures rows == old(rows)[id := Updated(old(rows)[id], update)]
      ensures Overwritten(old(rows)[id], rows[id], update)
      ensures createdAt == old(createdAt) && updatedAt(id) == clock && clock >= old(clock)
      ensures SameExcept(updatedAt, old(updatedAt), id)
    {
      Tick();
      rows := rows[id := Updated(rows[id], update)];
      updatedAt := At(updatedAt, id, clock);
    }

    method MarkSubmitted(id: Id, hash: Hash, metadata: Metadata)
      requires id in rows
      modifies this
      ensures createdAt == old(createdAt) && SameExcept(updatedAt, old(updatedAt), id)
      ensures forall positions ::
        Tables(positions, rows) == Blocks.MarkSubmitted(Tables(positions, old(rows)), id, hash, metadata)
    {
      UpdateStatus(id, Update(TransactionStatus.SUBMITTED, Some(hash), None, Some(metadata)));
    }

    method MarkFailed(id: Id)
      requires id in rows
      modifies this
      ensures createdAt == old(createdAt) && SameExcept(updatedAt, old(updatedAt), id)
      ensures forall positions :: Tables(positions, rows) == Blocks.MarkFailed(Tables(positions, old(rows)), id)
    {
      UpdateStatus(id, Update(TransactionStatus.FAILED, None, None, Some(NoMetadata)));
    }

    method MarkReverted(id: Id, blockNumber: nat)
      requires id in rows
      modifies this
      ensures createdAt == old(createdAt) && SameExcept(updatedAt, old(updatedAt), id)
      ensures forall positions ::
        Tables(positions, rows) == Blocks.MarkReverted(Tables(positions, old(rows)), id, blockNumber)
    {
      UpdateStatus(id, Update(TransactionStatus.REVERTED, None, Some(blockNumber), Some(NoMetadata)));
    }

    /** The compare-and-set; `applied` says whether the row was SUBMITTED. */
    method ConfirmSubmitted(id: Id, blockNumber: nat, metadata: Metadata) returns (applied: bool)
      requires id in rows
      modifies this
      ensures createdAt == old(createdAt) && SameExcept(updatedAt, old(updatedAt), id)
      ensures applied == (old(rows)[id].status == TransactionStatus.SUBMITTED)
      ensures forall positions ::
        Tables(positions, rows) == Blocks.ConfirmSubmitted(Tables(positions, old(rows)), id, blockNumber, metadata)
    {
      applied := rows[id].status == TransactionStatus.SUBMITTED;
      if applied {
        UpdateStatus(id, Update(TransactionStatus.CONFIRMED, None, Some(blockNumber), Some(metadata)));
      }
    }

    /** `findOpenDeposit` and `findOpenWithdraw`: some unfinished row of this kind on this position. */
    method FindOpen(kind: TransactionType, position: PositionKey) returns (open: Option<Id>)
      ensures open.Some?
          <==> if kind == DEPOSIT then HasOpenDeposit(rows, position) else HasOpenWithdraw(rows, position)
      ensures open.Some? <==> exists t | t in rows :: Open(rows[t], kind, position)
    {
      if t :| t in rows && rows[t].kind == kind && rows[t].position == position && IsOpen(rows[t]) {
        return Some(t);
      }
      return None;
    }

    method FindPendingReconciliation() returns (ids: seq<Id>)
      ensures OldestFirst(ids, PendingIn(rows), PENDING_LIMIT, updatedAt)
      ensures ListsWaiting(ids, rows)
    {
      ids := Oldest(PendingIn(rows), PENDING_LIMIT, updatedAt);
      if |ids| < PENDING_LIMIT { ShortListsAll(ids, PendingIn(rows), PENDING_LIMIT, updatedAt); }
    }

    method FindStaleCreated(olderThan: nat) returns (ids: seq<Id>)
      ensures OldestFirst(ids, Stale(olderThan), STALE_LIMIT, createdAt)
      ensures ListsLeftOver(ids, rows, createdAt, olderThan)
    {
      ids := Oldest(Stale(olderThan), STALE_LIMIT, createdAt);
      if |ids| < STALE_LIMIT { ShortListsAll(ids, Stale(olderThan), STALE_LIMIT, createdAt); }
    }
  }

  function PendingIn(rows: map<Id, Transaction>): set<Id> {
    set t | t in rows && IsPendingReconciliation(rows[t])
  }

  function StaleIn(rows: map<Id, Transaction>, aged: Id -> bool): set<Id> {
    set t | t in rows && aged(t) && IsStale(rows[t])
  }

  function Before(times: Times, cutoff: nat): Id -> bool {
    (t: Id) => times(t) < cutoff
  }

  // ----- ordered listings with a limit

  predicate Distinct(ids: seq<Id>) {
    forall i, j | 0 <= i < j < |ids| :: ids[i] != ids[j]
  }

  /** The `limit` oldest of the wanted rows, or all of them, oldest first. */
  predicate OldestFirst(ids: seq<Id>, wanted: set<Id>, limit: nat, times: Times)
  {
    && Distinct(ids) && |ids| == Min(|wanted|, limit)
    && (forall id | id in ids :: id in wanted)
    && (forall i, j | 0 <= i < j < |ids| :: times(ids[i]) <= times(ids[j]))
    && (forall id, t | id in ids && t in wanted && t !in ids :: times(id) <= times(t))
  }

  function Listed(scanned: seq<Id>): set<Id> {
    set t | t in scanned
  }

  lemma SubsetSize(a: set<Id>, b: set<Id>)
    requires a <= b
    ensures |a| <= |b| && (|a| == |b| ==> a == b)
  {
    assert |b| == |a| + |b - a| by { assert b == a + (b - a); }
    if |a| == |b| { assert b - a == {}; }
  }

  lemma {:induction false} DistinctSize(ids: seq<Id>)
    requires Distinct(ids)
    ensures |Listed(ids)| == |ids|
  {
    if ids == [] {
      assert Listed(ids) == {};
    } else {
      var front, last := ids[..|ids| - 1], ids[|ids| - 1];
      DistinctSize(front);
      assert ids == front + [last] && last !in front;
      assert Listed(ids) == Listed(front) + {last};
    }
  }

  /** A listing that does not reach its limit has every wanted row. */
  lemma ShortListsAll(ids: seq<Id>, wanted: set<Id>, limit: nat, times: Times)
    requires OldestFirst(ids, wanted, limit, times) && |ids| < limit
    ensures forall t | t in wanted :: t in ids
  {
    DistinctSize(ids);
    SubsetSize(Listed(ids), wanted);
  }

  method Earliest(wanted: set<Id>, times: Times) returns (id: Id)
    requires wanted != {}
    ensures id in wanted && forall t | t in wanted :: times(id) <= times(t)
  {
    id :| id in wanted;
    var left := wanted - {id};
    while left != {}
      invariant left <= wanted && id in wanted
      invariant forall t | t in wanted && t !in left :: times(id) <= times(t)
      decreases |left|
    {
      var t :| t in left;
      left := left - {t};
      if times(t) < times(id) {
        id := t;
      }
    }
  }

  method Oldest(wanted: set<Id>, limit: nat, times: Times) returns (ids: seq<Id>)
    ensures OldestFirst(ids, wanted, limit, times)
  {
    ids := [];
    var left := wanted;
    while left != {} && |ids| < limit
      invariant left <= wanted && |ids| + |left| == |wanted| && |ids| <= limit && Distinct(ids)
      invariant forall id | id in wanted :: id in ids <==> id !in left
      invariant forall id | id in ids :: id in wanted
      invariant forall i, j | 0 <= i < j < |ids| :: times(ids[i]) <= times(ids[j])
      invariant forall id, t | id in ids && t in left :: times(id) <= times(t)
      decreases |left|
    {
      var id := Earliest(left, times);
      ids := ids + [id];
      left := left - {id};
    }
  }

  class PositionsRepository {
    var rows: map<PositionKey, Position>

    constructor ()
      ensures rows == map[]
    {
      rows := map[];
    }

    method Find(position: PositionKey) returns (row: Option<Position>)
      ensures row == if position in rows then Some(rows[position]) else None
    {
      row := if position in rows then Some(rows[position]) else None;
    }

    method CreatePending(position: PositionKey)
      requires position !in rows
      modifies this
      ensures rows == old(rows)[position := Position(PENDING, 0, 0, 0)]
    {
      rows := rows[position := PendingPosition()];
    }

    method Activate(position: PositionKey, deposited: int, current: int, shares: int)
      requires position in rows
      modifies this
      ensures rows == old(rows)[position := Activated(deposited, current, shares)]
    {
      rows := rows[position := rows[position].(status := ACTIVE, depositedAmount := deposited,
                                               currentAmount := current, shares := shares)];
    }

    method AddDeposit(position: PositionKey, deposited: int, current: int, shares: int)
      requires position in rows
      modifies this
      ensures rows == old(rows)[position := Increased(old(rows)[position], deposited, current, shares)]
    {
      var p := rows[position];
      rows := rows[position := p.(status := ACTIVE, depositedAmount := p.depositedAmount + deposited,
                                  currentAmount := p.currentAmount + current, shares := p.shares + shares)];
    }

    /** False is the error of a missing position. */
    method SubtractWithdraw(position: PositionKey, amount: int, shares: int) returns (found: bool)
      modifies this
      ensures found == (position in old(rows))
      ensures rows == if found then old(rows)[position := Withdrawn(old(rows)[position], amount, shares)] else old(rows)
    {
      var existing := Find(position);
      if existing.None? {
        return false;
      }
      var p := existing.value;
      var remainingShares := p.shares - shares;
      var remainingCurrent := p.currentAmount - amount;
      var remainingDeposited := p.depositedAmount - amount;
      if remainingShares <= 0 {
        rows := rows[position := p.(status := CLOSED, depositedAmount := 0, currentAmount := 0, shares := 0)];
      } else {
        rows := rows[position := p.(status := ACTIVE, depositedAmount := remainingDeposited,
                                    currentAmount := remainingCurrent, shares := remainingShares)];
      }
      return true;
    }

    method Mark(position: PositionKey, status: PositionStatus)
      requires position in rows
      modifies this
      ensures rows == old(rows)[position := old(rows)[position].(status := status)]
    {
      rows := rows[position := rows[position].(status := status)];
    }

    method MarkWithdrawing(position: PositionKey)
      requires position in rows
      modifies this
      ensures rows == old(rows)[position := old(rows)[position].(status := WITHDRAWING)]
    {
      Mark(position, WITHDRAWING);
    }

    method MarkActive(position: PositionKey)
      requires position in rows
      modifies this
      ensures rows == old(rows)[position := old(rows)[position].(status := ACTIVE)]
    {
      Mark(position, ACTIVE);
    }

    method MarkFailed(position: PositionKey)
      requires position in rows
      modifies this
      ensures rows == old(rows)[position := old(rows)[position].(status := PositionStatus.FAILED)]
    {
      Mark(position, PositionStatus.FAILED);
    }
  }
}
