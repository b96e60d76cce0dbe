/** The reconciliation service: one pass over the rows it lists, with its counters. */
module Reconciliation {
  import opened Backlog
  import opened Numbers
  import opened Options
  import opened Rows
  import opened Blocks
  import opened Protocol
  import opened Invariants
  import opened Repositories
  import opened Services

  // ----- receipts

  /** One answer of the chain client: an error, nothing, or a receipt. */
  datatype Lookup = Throws | Missing | Found(receipt: Receipt)

  type Client = (Hash, nat) -> Lookup

  const MAX_ATTEMPTS := 3

  /** The client only ever returns the receipt the chain holds. */
  ghost predicate Honest(c: Chain, fetch: Client) {
    forall hash, attempt :: fetch(hash, attempt).Found? ==> hash in c && c[hash] == fetch(hash, attempt).receipt
  }

  predicate AnswersAt(fetch: Client, hash: Hash, attempt: nat) {
    !fetch(hash, attempt).Throws? && forall k: nat | 1 <= k < attempt :: fetch(hash, k).Throws?
  }

  /** Some attempt that is reached returns a receipt. */
  predicate Available(fetch: Client, hash: Hash) {
    exists attempt: nat | 1 <= attempt <= MAX_ATTEMPTS :: AnswersAt(fetch, hash, attempt) && fetch(hash, attempt).Found?
  }

  /** What three attempts come to: the first that does not throw decides. */
  function Answer(fetch: Client, hash: Hash): Lookup {
    if !fetch(hash, 1).Throws? then fetch(hash, 1)
    else if !fetch(hash, 2).Throws? then fetch(hash, 2)
    else fetch(hash, 3)
  }

  lemma AvailableMeans(fetch: Client, hash: Hash)
    ensures Available(fetch, hash) <==> Answer(fetch, hash).Found?
  {
    assert AnswersAt(fetch, hash, 1) <==> !fetch(hash, 1).Throws?;
    assert AnswersAt(fetch, hash, 2) <==> fetch(hash, 1).Throws? && !fetch(hash, 2).Throws?;
    assert AnswersAt(fetch, hash, 3) <==>
        fetch(hash, 1).Throws? && fetch(hash, 2).Throws? && !fetch(hash, 3).Throws?;
  }

  lemma RetryMeans(fetch: Client, hash: Hash, answer: Lookup)
    requires answer.Throws? <==> forall k: nat | 1 <= k <= MAX_ATTEMPTS :: fetch(hash, k).Throws?
    requires !answer.Throws? ==>
        exists k: nat | 1 <= k <= MAX_ATTEMPTS :: AnswersAt(fetch, hash, k) && answer == fetch(hash, k)
    ensures answer == Answer(fetch, hash)
  {
    if answer.Throws? {
      assert fetch(hash, 1).Throws? && fetch(hash, 2).Throws? && fetch(hash, 3).Throws?;
    } else {
      var k: nat :| 1 <= k <= MAX_ATTEMPTS && AnswersAt(fetch, hash, k) && answer == fetch(hash, k);
      assert k == 1 || k == 2 || k == 3;
      assert k > 1 ==> fetch(hash, 1).Throws?;
      assert k > 2 ==> fetch(hash, 2).Throws?;
    }
  }

  /** The first attempt that does not throw decides; if all of them throw, so does this. */
  method GetTransactionReceiptWithRetry(fetch: Client, hash: Hash, maxAttempts: nat) returns (answer: Lookup)
    ensures answer.Throws? <==> forall k: nat | 1 <= k <= maxAttempts :: fetch(hash, k).Throws?
    ensures !answer.Throws? ==>
        exists k: nat | 1 <= k <= maxAttempts :: AnswersAt(fetch, hash, k) && answer == fetch(hash, k)
  {
    var attempt := 1;
    while attempt <= maxAttempts
      invariant 1 <= attempt <= maxAttempts + 1
      invariant forall k: nat | 1 <= k < attempt :: fetch(hash, k).Throws?
    {
      answer := fetch(hash, attempt);
      if !answer.Throws? {
        assert AnswersAt(fetch, hash, attempt);
        return;
      }
      attempt := attempt + 1;
    }
    return Throws;
  }

  // ----- the blocks of a pass

  ghost predicate Heads(b: Backend, p: nat, w: Work)
    reads b
  {
    p in b.state.passes && b.state.passes[p].todo != [] && b.state.passes[p].todo[0] == w
  }

  method ConfirmDepositTransaction(b: Backend, p: nat, id: Id, row: Transaction, blockNumber: nat)
    requires b.Valid() && Heads(b, p, Settle(id, row)) && CanWork(b.chain, b.state.tables, Settle(id, row), Reconciled)
    requires row.kind == DEPOSIT && b.chain[row.txHash.value] == Receipt(true, blockNumber)
    modifies b, b.positions, b.transactions
    ensures b.Valid() && b.history == old(b.history) + [Drive(p, Reconciled)]
    ensures p in b.state.passes
    ensures b.state.passes[p] == old(b.state).passes[p].(todo := old(b.state).passes[p].todo[1..])
    ensures b.state.tables == ReconcileDeposit(old(b.state).tables, id, row, blockNumber).tables
    ensures b.transactions.createdAt == old(b.transactions.createdAt)
    ensures SameExcept(b.transactions.updatedAt, old(b.transactions.updatedAt), id)
  {
    var shares := ReadShares(row.metadata.estimatedShares);
    var applied := b.transactions.ConfirmSubmitted(id, blockNumber, Metadata(Some(shares), None));
    if applied {
      var position := b.positions.Find(row.position);
      if position.Some? && position.value.status == PENDING {
        b.positions.Activate(row.position, row.amount, row.amount, shares);
      }
    }
    b.TakeWork(p, Reconciled);
  }

  method ConfirmWithdrawTransaction(b: Backend, p: nat, id: Id, row: Transaction, blockNumber: nat)
    requires b.Valid() && Heads(b, p, Settle(id, row)) && CanWork(b.chain, b.state.tables, Settle(id, row), Reconciled)
    requires row.kind == WITHDRAW && b.chain[row.txHash.value] == Receipt(true, blockNumber)
    modifies b, b.positions, b.transactions
    ensures b.Valid() && b.history == old(b.history) + [Drive(p, Reconciled)]
    ensures p in b.state.passes
    ensures b.state.passes[p] == old(b.state).passes[p].(todo := old(b.state).passes[p].todo[1..])
    ensures b.state.tables == ReconcileWithdraw(old(b.state).tables, id, row, blockNumber).tables
    ensures b.transactions.createdAt == old(b.transactions.createdAt)
    ensures SameExcept(b.transactions.updatedAt, old(b.transactions.updatedAt), id)
  {
    var shares := ReadShares(row.metadata.sharesBurned);
    var applied := b.transactions.ConfirmSubmitted(id, blockNumber, Metadata(None, Some(shares)));
    if applied {
      var position := b.positions.Find(row.position);
      if position.Some? && position.value.status == WITHDRAWING {
        var found := b.positions.SubtractWithdraw(row.position, row.amount, shares);
      }
    }
    b.TakeWork(p, Reconciled);
  }

  method HandleRevertedTransaction(b: Backend, p: nat, id: Id, row: Transaction, blockNumber: nat)
    requires b.Valid() && Heads(b, p, Settle(id, row)) && CanWork(b.chain, b.state.tables, Settle(id, row), Reconciled)
    requires b.chain[row.txHash.value] == Receipt(false, blockNumber)
    modifies b, b.positions, b.transactions
    ensures b.Valid() && b.history == old(b.history) + [Drive(p, Reconciled)]
    ensures p in b.state.passes
    ensures b.state.passes[p] == old(b.state).passes[p].(todo := old(b.state).passes[p].todo[1..])
    ensures b.state.tables == ReconcileReverted(old(b.state).tables, id, row, blockNumber)
    ensures b.transactions.createdAt == old(b.transactions.createdAt)
    ensures SameExcept(b.transactions.updatedAt, old(b.transactions.updatedAt), id)
  {
    b.transactions.MarkReverted(id, blockNumber);
    var position := b.positions.Find(row.position);
    if row.kind == DEPOSIT && position.Some? && position.value.status == PENDING {
      b.positions.MarkFailed(row.position);
    } else if row.kind == WITHDRAW && position.Some? && position.value.status == WITHDRAWING {
      b.positions.MarkActive(row.position);
    }
    b.TakeWork(p, Reconciled);
  }

  /** The share count a listed row carries; a row without one counts as zero. */
  function Carried(field: Option<int>): int {
    match field
    case Some(shares) => shares
    case None => 0
  }

  /**
   What settling a SUBMITTED row from its listed copy does: the row gets the status and the block of the receipt; a
   PENDING position is credited or fails, a WITHDRAWING one is debited or freed, any other stays as it is.
   */
  lemma ReconciledMeans(d: Tables, id: Id, listed: Transaction, receipt: Receipt)
    requires id in d.transactions && Confirmable(d, id) && listed.position in d.positions
    ensures
      var d' := Reconcile(d, id, listed, receipt).tables;
      var t, t', p := d.transactions[id], d'.transactions[id], d.positions[listed.position];
      && OnlyTouched(d, d', id, listed.position)
      && t'.kind == t.kind && t'.position == t.position && t'.amount == t.amount && t'.txHash == t.txHash
      && t'.status == (if receipt.success then TransactionStatus.CONFIRMED else TransactionStatus.REVERTED)
      && t'.blockNumber == Some(receipt.blockNumber)
      && d'.positions[listed.position] ==
         if listed.kind == DEPOSIT && p.status == PENDING then
           if receipt.success then
             Position(ACTIVE, listed.amount, listed.amount, Carried(listed.metadata.estimatedShares))
           else p.(status := PositionStatus.FAILED)
         else if listed.kind == WITHDRAW && p.status == WITHDRAWING then
           if !receipt.success then p.(status := ACTIVE)
           else if Carried(listed.metadata.sharesBurned) >= p.shares then Position(CLOSED, 0, 0, 0)
           else
             Position(ACTIVE, p.depositedAmount - listed.amount, p.currentAmount - listed.amount,
                      p.shares - Carried(listed.metadata.sharesBurned))
         else p
  {
  }

  datatype Outcome = Confirmed | Reverted | Pending | Threw

  /** What the answer for its hash makes of a row. */
  predicate EndsIn(row: Transaction, fetch: Client, outcome: Outcome) {
    row.txHash.Some? &&
    match outcome
    case Confirmed => Answer(fetch, row.txHash.value).Found? && Answer(fetch, row.txHash.value).receipt.success
    case Reverted => Answer(fetch, row.txHash.value).Found? && !Answer(fetch, row.txHash.value).receipt.success
    case Pending => Answer(fetch, row.txHash.value).Missing?
    case Threw => Answer(fetch, row.txHash.value).Throws?
  }

  /** `reconcileTransaction`, with the catch around it: Threw is the error that is only logged. */
  method ReconcileTransaction(b: Backend, p: nat, id: Id, row: Transaction, fetch: Client) returns (outcome: Outcome)
    requires b.Valid() && Heads(b, p, Settle(id, row)) && Honest(b.chain, fetch)
    modifies b, b.positions, b.transactions
    ensures b.Valid() && old(b.history) <= b.history
    ensures p in b.state.passes
    ensures b.state.passes[p] == old(b.state).passes[p].(todo := old(b.state).passes[p].todo[1..])
    ensures EndsIn(row, fetch, outcome)
    ensures row.txHash.Some? && (Available(fetch, row.txHash.value) <==> outcome == Confirmed || outcome == Reverted)
    ensures outcome == Pending || outcome == Threw ==>
      b.state.tables == old(b.state).tables && b.transactions.updatedAt == old(b.transactions.updatedAt)
    ensures b.transactions.createdAt == old(b.transactions.createdAt)
    ensures SameExcept(b.transactions.updatedAt, old(b.transactions.updatedAt), id)
    ensures outcome == Confirmed || outcome == Reverted ==>
      row.txHash.value in b.chain && id in old(b.state).tables.transactions
      && (outcome == Confirmed <==> b.chain[row.txHash.value].success)
      && b.state.tables == Reconcile(old(b.state).tables, id, row, b.chain[row.txHash.value]).tables
  {
    ReachedHasWork(b.chain, b.history, b.state, p);
    var answer := GetTransactionReceiptWithRetry(fetch, row.txHash.value, MAX_ATTEMPTS);
    RetryMeans(fetch, row.txHash.value, answer);
    AvailableMeans(fetch, row.txHash.value);
    if !answer.Found? {
      b.TakeWork(p, Skip);
      return if answer.Missing? then Pending else Threw;
    }
    var receipt := answer.receipt;
    if !receipt.success {
      HandleRevertedTransaction(b, p, id, row, receipt.blockNumber);
      return Reverted;
    }
    if row.kind == DEPOSIT {
      ConfirmDepositTransaction(b, p, id, row, receipt.blockNumber);
    } else {
      ConfirmWithdrawTransaction(b, p, id, row, receipt.blockNumber);
    }
    return Confirmed;
  }

  /** What the stale branch makes of the positions: a PENDING position of a deposit fails. */
  function SweptPosition(rows: map<PositionKey, Position>, t: Transaction): map<PositionKey, Position> {
    if t.kind == DEPOSIT && t.position in rows && rows[t.position].status == PENDING then
      rows[t.position := rows[t.position].(status := PositionStatus.FAILED)]
    else rows
  }

  /** The second half of the stale branch, for a deposit: read its position, and fail it if it is PENDING. */
  method FailStalePosition(b: Backend, p: nat, id: Id, row: Transaction, ghost alone: bool)
    requires b.Valid() && Heads(b, p, ReadStale(id, row.position)) && row.kind == DEPOSIT
    modifies b, b.positions, b.transactions
    ensures b.Valid() && old(b.history) <= b.history
    ensures p in b.state.passes
    ensures b.state.passes[p] == old(b.state).passes[p].(todo := old(b.state).passes[p].todo[1..])
    ensures alone ==>
      && b.transactions.rows == old(b.transactions.rows) && b.transactions.createdAt == old(b.transactions.createdAt)
      && b.transactions.updatedAt == old(b.transactions.updatedAt)
      && b.positions.rows == SweptPosition(old(b.positions.rows), row)
  {
    ReachedHasWork(b.chain, b.history, b.state, p);
    var position := b.positions.Find(row.position);
    b.TakeWork(p, Sweep);
    if position.Some? && position.value.status == PENDING {
      b.OthersThanPass(p, alone);
      ReachedHasWork(b.chain, b.history, b.state, p);
      b.positions.MarkFailed(row.position);
      b.TakeWork(p, Sweep);
    }
  }

  /** The stale branch for one listed row: up to three separate updates. */
  method FailStaleTransaction(b: Backend, p: nat, id: Id, row: Transaction, ghost alone: bool)
    requires b.Valid() && Heads(b, p, FailStale(id, row))
    modifies b, b.positions, b.transactions
    ensures b.Valid() && old(b.history) <= b.history
    ensures p in b.state.passes
    ensures b.state.passes[p] == old(b.state).passes[p].(todo := old(b.state).passes[p].todo[1..])
    ensures alone ==>
      && id in old(b.transactions.rows)
         && b.transactions.rows == Blocks.MarkFailed(old(b.state).tables, id).transactions
      && b.transactions.createdAt == old(b.transactions.createdAt)
      && SameExcept(b.transactions.updatedAt, old(b.transactions.updatedAt), id)
      && b.positions.rows == SweptPosition(old(b.positions.rows), row)
  {
    ReachedHasWork(b.chain, b.history, b.state, p);
    b.transactions.MarkFailed(id);
    b.TakeWork(p, Sweep);
    if row.kind == DEPOSIT {
      b.OthersThanPass(p, alone);
      FailStalePosition(b, p, id, row, alone);
    }
  }

  // ----- one pass over what it lists

  datatype Summary = Summary(scanned: nat, confirmed: nat, reverted: nat, failed: nat, pending: nat)

  /** Every pending row after was a pending row before, unchanged. */
  predicate NoNewPending(before: map<Id, Transaction>, after: map<Id, Transaction>) {
    forall t | t in PendingIn(after) :: t in PendingIn(before) && after[t] == before[t]
  }

  /** A row that becomes terminal leaves both lists; no other row enters or leaves them. */
  lemma RowLeavesLists(rows: map<Id, Transaction>, aged: Id -> bool, id: Id, t: Transaction)
    requires id in rows && !IsOpen(t)
    ensures PendingIn(rows[id := t]) == PendingIn(rows) - {id}
    ensures StaleIn(rows[id := t], aged) == StaleIn(rows, aged) - {id}
    ensures NoNewPending(rows, rows[id := t])
  {
  }

  /** The rows still to be handled stand in the table as they were listed. */
  predicate StillStale(rows: map<Id, Transaction>, aged: Id -> bool, ids: seq<Id>, listed: map<Id, Transaction>) {
    && (forall id | id in ids :: id in listed && id in StaleIn(rows, aged) && rows[id] == listed[id])
    && (forall j, k | 0 <= j < k < |ids| :: ids[j] != ids[k])
  }

  predicate StillPending(rows: map<Id, Transaction>, ids: seq<Id>, listed: map<Id, Transaction>) {
    && (forall id | id in ids :: id in listed && id in PendingIn(rows) && rows[id] == listed[id])
    && (forall j, k | 0 <= j < k < |ids| :: ids[j] != ids[k])
  }

  lemma StaleAdvances(rows: map<Id, Transaction>, aged: Id -> bool, ids: seq<Id>, listed: map<Id, Transaction>,
                      t: Transaction)
    requires ids != [] && StillStale(rows, aged, ids, listed) && !IsOpen(t)
    ensures
      var rows' := rows[ids[0] := t];
      && StillStale(rows', aged, ids[1..], listed)
      && StaleIn(rows', aged) == StaleIn(rows, aged) - {ids[0]} && |StaleIn(rows', aged)| == |StaleIn(rows, aged)| - 1
      && PendingIn(rows') == PendingIn(rows) && NoNewPending(rows, rows')
  {
    assert ids[0] in ids && ids[0] !in ids[1..];
    RowLeavesLists(rows, aged, ids[0], t);
  }

  lemma PendingAdvances(rows: map<Id, Transaction>, aged: Id -> bool, ids: seq<Id>, listed: map<Id, Transaction>,
                        t: Transaction)
    requires ids != [] && StillPending(rows, ids, listed) && !IsOpen(t)
    ensures
      var rows' := rows[ids[0] := t];
      && StillPending(rows', ids[1..], listed)
      && PendingIn(rows') == PendingIn(rows) - {ids[0]} && |PendingIn(rows')| == |PendingIn(rows)| - 1
      && StaleIn(rows', aged) == StaleIn(rows, aged) && NoNewPending(rows, rows')
  {
    assert ids[0] in ids && ids[0] !in ids[1..];
    RowLeavesLists(rows, aged, ids[0], t);
  }

  /** Pass `p` of backend `b` has exactly this work left. */
  ghost predicate Works(b: Backend, p: nat, sweeping: bool, work: seq<Work>)
    reads b, b.positions, b.transactions
  {
    b.Valid() && p in b.state.passes && b.state.passes[p] == Pass(sweeping, work)
  }

  /** The rows `ids` have failed and no other row has changed. */
  predicate RowsFailed(before: map<Id, Transaction>, after: map<Id, Transaction>, ids: seq<Id>) {
    && after.Keys == before.Keys
    && forall t | t in before ::
         after[t] ==
         if t in ids then before[t].(status := TransactionStatus.FAILED, metadata := Metadata(None, None))
         else before[t]
  }

  /** `n` rows, those of `ids`, have left the stale list and nothing else has entered or left a list. */
  predicate Swept(before: map<Id, Transaction>, after: map<Id, Transaction>, aged: Id -> bool, ids: seq<Id>) {
    && RowsFailed(before, after, ids)
    && StaleIn(after, aged) == StaleIn(before, aged) - (set id | id in ids)
    && |StaleIn(after, aged)| == |StaleIn(before, aged)| - |ids|
    && PendingIn(after) == PendingIn(before) && NoNewPending(before, after)
  }

  lemma SweptAdds(x: map<Id, Transaction>, y: map<Id, Transaction>, z: map<Id, Transaction>, aged: Id -> bool,
                  ids: seq<Id>, id: Id)
    requires Swept(x, y, aged, ids) && Swept(y, z, aged, [id])
    ensures Swept(x, z, aged, ids + [id])
  {
    assert (set t | t in ids + [id]) == (set t | t in ids) + {id};
    assert (set t | t in [id]) == {id};
  }

  method FailNext(b: Backend, p: nat, ghost aged: Id -> bool, ids: seq<Id>, listed: map<Id, Transaction>,
                  ghost work: seq<Work>, ghost alone: bool)
    requires ids != [] && ids[0] in listed && work != [] && work[0] == FailStale(ids[0], listed[ids[0]])
    requires Works(b, p, true, work) && (alone ==> StillStale(b.transactions.rows, aged, ids, listed))
    modifies b, b.positions, b.transactions
    ensures Works(b, p, true, work[1..]) && old(b.history) <= b.history
    ensures alone ==>
      && StillStale(b.transactions.rows, aged, ids[1..], listed)
      && Swept(old(b.transactions.rows), b.transactions.rows, aged, [ids[0]])
      && b.transactions.createdAt == old(b.transactions.createdAt)
      && SameTimes(PendingIn(b.transactions.rows), b.transactions.updatedAt, old(b.transactions.updatedAt))
      && b.positions.rows == SweptPosition(old(b.positions.rows), listed[ids[0]])
  {
    b.OthersThanPass(p, alone);
    ghost var before := b.transactions.rows;
    FailStaleTransaction(b, p, ids[0], listed[ids[0]], alone);
    if alone {
      StaleAdvances(before, aged, ids, listed, b.transactions.rows[ids[0]]);
      assert (set id | id in [ids[0]]) == {ids[0]};
    }
  }

  /** Lists the stale rows, as copies, and starts the pass with them. */
  method ListStaleTransactions(b: Backend, p: nat, olderThan: nat)
    returns (ids: seq<Id>, listed: map<Id, Transaction>, ghost work: seq<Work>)
    requires b.Valid() && p !in b.state.passes
    modifies b
    ensures Works(b, p, true, work) && old(b.history) <= b.history
    ensures listed == b.transactions.rows
    ensures StillStale(listed, Before(b.transactions.createdAt, olderThan), ids, listed)
    ensures OldestFirst(ids, b.transactions.Stale(olderThan), STALE_LIMIT, b.transactions.createdAt) && |work| == |ids|
    ensures ListsLeftOver(ids, listed, b.transactions.createdAt, olderThan)
    ensures FailsRows(work, ids, listed)
  {
    listed := b.transactions.rows;
    ids := b.transactions.FindStaleCreated(olderThan);
    work := FailWork(b.state.tables, ids);
    b.Take(StartPass(p, ids));
  }

  /** The positions after the rows of `ids` have been swept one after the other. */
  ghost function SweptPositions(rows: map<PositionKey, Position>, ids: seq<Id>, listed: map<Id, Transaction>)
    : map<PositionKey, Position>
    requires forall id | id in ids :: id in listed
  {
    if ids == [] then rows
    else
      var before, last := ids[..|ids| - 1], ids[|ids| - 1];
      SweptPosition(SweptPositions(rows, before, listed), listed[last])
  }

  /** Some deposit of `ids` is on position `k`. */
  predicate DepositsOn(ids: seq<Id>, listed: map<Id, Transaction>, k: PositionKey) {
    exists id | id in ids && id in listed :: listed[id].kind == DEPOSIT && listed[id].position == k
  }

  /** A PENDING position fails exactly if one of the deposits of `ids` is on it; nothing else changes. */
  predicate PositionsSwept(
    before: map<PositionKey, Position>, after: map<PositionKey, Position>, ids: seq<Id>, listed: map<Id, Transaction>)
  {
    && after.Keys == before.Keys
    && forall k | k in before ::
         after[k] ==
         if before[k].status == PENDING && DepositsOn(ids, listed, k) then before[k].(status := PositionStatus.FAILED)
         else before[k]
  }

  lemma {:induction false} SweptPositionsAt(
    rows: map<PositionKey, Position>, ids: seq<Id>, listed: map<Id, Transaction>)
    requires forall id | id in ids :: id in listed
    ensures PositionsSwept(rows, SweptPositions(rows, ids, listed), ids, listed)
  {
    if ids != [] {
      var before, last := ids[..|ids| - 1], ids[|ids| - 1];
      SweptPositionsAt(rows, before, listed);
      assert ids == before + [last];
      forall k ensures DepositsOn(ids, listed, k) <==>
          DepositsOn(before, listed, k) || (listed[last].kind == DEPOSIT && listed[last].position == k)
      {
      }
    }
  }

  /** After the rows `done` have been swept, with the rows `left` still to do. */
  ghost predicate ListSwept(listed: map<Id, Transaction>, rows: map<Id, Transaction>, aged: Id -> bool, done: seq<Id>,
                            left: seq<Id>, f: Times, g: Times)
  {
    StillStale(rows, aged, left, listed) && Swept(listed, rows, aged, done) && SameTimes(PendingIn(rows), g, f)
  }

  ghost predicate SweptTo(ps: map<PositionKey, Position>, qs: map<PositionKey, Position>, done: seq<Id>,
                          listed: map<Id, Transaction>)
  {
    (forall id | id in done :: id in listed) && qs == SweptPositions(ps, done, listed)
  }

  lemma SweepBegins(listed: map<Id, Transaction>, aged: Id -> bool, ids: seq<Id>, f: Times)
    requires StillStale(listed, aged, ids, listed)
    ensures ListSwept(listed, listed, aged, [], ids, f, f)
  {
    assert (set id: Id | id in []) == {};
  }

  lemma SweepMovesOn(listed: map<Id, Transaction>, x: map<Id, Transaction>, y: map<Id, Transaction>, aged: Id -> bool,
                     done: seq<Id>, left: seq<Id>, f: Times, g: Times, h: Times)
    requires left != [] && ListSwept(listed, x, aged, done, left, f, g)
    requires StillStale(y, aged, left[1..], listed) && Swept(x, y, aged, [left[0]]) && SameTimes(PendingIn(y), h, g)
    ensures ListSwept(listed, y, aged, done + [left[0]], left[1..], f, h)
  {
    SweptAdds(listed, x, y, aged, done, left[0]);
  }

  lemma SweptToNext(ps: map<PositionKey, Position>, qs: map<PositionKey, Position>, done: seq<Id>, id: Id,
                    listed: map<Id, Transaction>)
    requires SweptTo(ps, qs, done, listed) && id in listed
    ensures SweptTo(ps, SweptPosition(qs, listed[id]), done + [id], listed)
  {
    assert (done + [id])[..|done|] == done;
  }

  /** The work that is left fails the rows that are left, as they were listed. */
  ghost predicate FailsRows(work: seq<Work>, ids: seq<Id>, listed: map<Id, Transaction>) {
    |work| == |ids| && forall i | 0 <= i < |ids| :: ids[i] in listed && work[i] == FailStale(ids[i], listed[ids[i]])
  }

  lemma FailsRest(work: seq<Work>, ids: seq<Id>, listed: map<Id, Transaction>)
    requires FailsRows(work, ids, listed) && ids != []
    ensures work != [] && ids[0] in listed && work[0] == FailStale(ids[0], listed[ids[0]])
    ensures FailsRows(work[1..], ids[1..], listed)
  {
  }

  lemma NextRow(ids: seq<Id>, done: seq<Id>, left: seq<Id>)
    requires left != [] && done + left == ids
    ensures (done + [left[0]]) + left[1..] == ids && |done + [left[0]]| == |done| + 1
    ensures Distinct(ids) ==> left[0] !in done
  {
    assert ids[|done|] == left[0] && ids[..|done|] == done;
  }

  /** One turn of the loop over the stale rows. */
  method SweepOne(b: Backend, p: nat, ghost aged: Id -> bool, ghost done: seq<Id>, left: seq<Id>,
                  listed: map<Id, Transaction>, ghost work: seq<Work>, ghost positions: map<PositionKey, Position>,
                  ghost times: Times, ghost alone: bool)
    requires left != [] && Works(b, p, true, work) && FailsRows(work, left, listed)
    requires alone ==>
      && ListSwept(listed, b.transactions.rows, aged, done, left, times, b.transactions.updatedAt)
      && SweptTo(positions, b.positions.rows, done, listed)
    modifies b, b.positions, b.transactions
    ensures work != [] && Works(b, p, true, work[1..]) && old(b.history) <= b.history
    ensures alone ==>
      && b.transactions.createdAt == old(b.transactions.createdAt)
      && ListSwept(listed, b.transactions.rows, aged, done + [left[0]], left[1..], times, b.transactions.updatedAt)
      && SweptTo(positions, b.positions.rows, done + [left[0]], listed)
  {
    FailsRest(work, left, listed);
    ghost var before, was, g := b.transactions.rows, b.positions.rows, b.transactions.updatedAt;
    FailNext(b, p, aged, left, listed, work, alone);
    if alone {
      SweepMovesOn(listed, before, b.transactions.rows, aged, done, left, times, g, b.transactions.updatedAt);
      SweptToNext(positions, was, done, left[0], listed);
    }
  }

  /** The loop over the stale rows. */
  method SweepListed(b: Backend, p: nat, ghost aged: Id -> bool, ids: seq<Id>, listed: map<Id, Transaction>,
                     ghost work: seq<Work>, ghost alone: bool)
    returns (failed: nat)
    requires Works(b, p, true, work) && FailsRows(work, ids, listed)
    requires b.transactions.rows == listed && StillStale(listed, aged, ids, listed)
    modifies b, b.positions, b.transactions
    ensures Works(b, p, true, []) && old(b.history) <= b.history && failed == |ids|
    ensures alone ==>
      && b.transactions.createdAt == old(b.transactions.createdAt)
      && ListSwept(listed, b.transactions.rows, aged, ids, [], old(b.transactions.updatedAt), b.transactions.updatedAt)
      && SweptTo(old(b.positions.rows), b.positions.rows, ids, listed)
  {
    failed := 0;
    ghost var positions, times := b.positions.rows, b.transactions.updatedAt;
    SweepBegins(listed, aged, ids, times);
    var left := ids;
    ghost var done, rest := [], work;
    while left != []
      invariant Works(b, p, true, rest) && old(b.history) <= b.history
      invariant FailsRows(rest, left, listed) && done + left == ids && failed == |done|
      invariant alone ==> b.transactions.createdAt == old(b.transactions.createdAt)
      invariant alone ==> ListSwept(listed, b.transactions.rows, aged, done, left, times, b.transactions.updatedAt)
      invariant alone ==> SweptTo(positions, b.positions.rows, done, listed)
      decreases |left|
    {
      NextRow(ids, done, left);
      FailsRest(rest, left, listed);
      failed := failed + 1;
      SweepOne(b, p, aged, done, left, listed, rest, positions, times, alone);
      done, left, rest := done + [left[0]], left[1..], rest[1..];
    }
    assert done == ids;
  }

  /**
   `reconcileStaleCreatedTransactions`; `swept` are the rows it failed.  With nobody else at work, they leave the stale
   list, a PENDING position fails exactly if one of them deposits into it, and every other position stays as it is.
   */
  method ReconcileStaleCreatedTransactions(b: Backend, p: nat, olderThan: nat, ghost alone: bool)
    returns (failed: nat, ghost swept: seq<Id>)
    requires b.Valid() && p !in b.state.passes
    modifies b, b.positions, b.transactions
    ensures Works(b, p, true, []) && old(b.history) <= b.history
    ensures failed == |swept|
    ensures OldestFirst(swept, old(b.transactions.Stale(olderThan)), STALE_LIMIT, old(b.transactions.createdAt))
    ensures ListsLeftOver(swept, old(b.transactions.rows), old(b.transactions.createdAt), olderThan)
    ensures alone ==>
      && RowsFailed(old(b.transactions.rows), b.transactions.rows, swept)
      && (forall t | t in old(b.transactions.rows) && old(b.transactions.createdAt)(t) >= olderThan ::
            b.transactions.rows[t] == old(b.transactions.rows)[t])
      && b.transactions.createdAt == old(b.transactions.createdAt)
      && SameTimes(PendingIn(b.transactions.rows), b.transactions.updatedAt, old(b.transactions.updatedAt))
      && Swept(old(b.transactions.rows), b.transactions.rows, Before(b.transactions.createdAt, olderThan), swept)
    ensures alone ==> PositionsSwept(old(b.positions.rows), b.positions.rows, swept, old(b.transactions.rows))
  {
    var ids, listed;
    ghost var work;
    ids, listed, work := ListStaleTransactions(b, p, olderThan);
    swept := ids;
    ghost var positions := b.positions.rows;
    failed := SweepListed(b, p, Before(b.transactions.createdAt, olderThan), ids, listed, work, alone);
    SweptPositionsAt(positions, ids, listed);
  }

  /** `n` rows have left the pending list and nothing else has entered or left a list. */
  predicate Settled(before: map<Id, Transaction>, after: map<Id, Transaction>, aged: Id -> bool, n: nat) {
    && |PendingIn(after)| == |PendingIn(before)| - n
    && StaleIn(after, aged) == StaleIn(before, aged)
    && NoNewPending(before, after)
  }

  lemma SettledAdds(x: map<Id, Transaction>, y: map<Id, Transaction>, z: map<Id, Transaction>, aged: Id -> bool,
                    m: nat, n: nat)
    requires Settled(x, y, aged, m) && Settled(y, z, aged, n)
    ensures Settled(x, z, aged, m + n)
  {
  }

  /** Every pending row has a receipt that the client finds in time. */
  ghost predicate AllAvailable(rows: map<Id, Transaction>, fetch: Client) {
    forall t | t in PendingIn(rows) :: Available(fetch, rows[t].txHash.value)
  }

  /** The pending rows whose receipts the client finds in time. */
  ghost function Ready(rows: map<Id, Transaction>, fetch: Client): set<Id> {
    set t | t in PendingIn(rows) && Available(fetch, rows[t].txHash.value)
  }

  /** What looking at row `id` does to the queue: it leaves if its receipt is at hand, and nothing else moves. */
  ghost predicate QueueMoves(before: map<Id, Transaction>, after: map<Id, Transaction>, aged: Id -> bool, id: Id,
                             one: nat, ready: set<Id>, f: Times, g: Times)
  {
    && Settled(before, after, aged, one)
    && PendingIn(after) == PendingIn(before) - {id} * ready
    && SameTimes(PendingIn(after), g, f)
  }

  lemma SettledRowLeaves(before: map<Id, Transaction>, aged: Id -> bool, ids: seq<Id>, listed: map<Id, Transaction>,
                         t: Transaction, ready: set<Id>, f: Times, g: Times)
    requires ids != [] && StillPending(before, ids, listed) && !IsOpen(t)
    requires ids[0] in ready && SameExcept(g, f, ids[0])
    ensures StillPending(before[ids[0] := t], ids[1..], listed)
    ensures QueueMoves(before, before[ids[0] := t], aged, ids[0], 1, ready, f, g)
  {
    PendingAdvances(before, aged, ids, listed, t);
    assert {ids[0]} * ready == {ids[0]};
  }

  lemma UnsettledRowStays(before: map<Id, Transaction>, aged: Id -> bool, ids: seq<Id>, listed: map<Id, Transaction>,
                          ready: set<Id>, f: Times)
    requires ids != [] && StillPending(before, ids, listed) && ids[0] !in ready
    ensures StillPending(before, ids[1..], listed) && QueueMoves(before, before, aged, ids[0], 0, ready, f, f)
  {
    assert {ids[0]} * ready == {};
  }

  method SettleNext(b: Backend, p: nat, ghost aged: Id -> bool, ids: seq<Id>, listed: map<Id, Transaction>,
                    ghost work: seq<Work>, fetch: Client, ghost alone: bool)
    returns (outcome: Outcome)
    requires ids != [] && ids[0] in PendingIn(listed) && work != [] && work[0] == Settle(ids[0], listed[ids[0]])
    requires Works(b, p, false, work) && Honest(b.chain, fetch)
    requires alone ==> StillPending(b.transactions.rows, ids, listed)
    modifies b, b.positions, b.transactions
    ensures Works(b, p, false, work[1..]) && old(b.history) <= b.history
    ensures EndsIn(listed[ids[0]], fetch, outcome)
    ensures ids[0] in Ready(listed, fetch) <==> outcome == Confirmed || outcome == Reverted
    ensures alone ==>
      && StillPending(b.transactions.rows, ids[1..], listed)
      && b.transactions.createdAt == old(b.transactions.createdAt)
      && QueueMoves(old(b.transactions.rows), b.transactions.rows, aged, ids[0],
                    if outcome == Confirmed || outcome == Reverted then 1 else 0,
                    Ready(listed, fetch), old(b.transactions.updatedAt), b.transactions.updatedAt)
  {
    b.OthersThanPass(p, alone);
    ghost var before, times := b.transactions.rows, b.transactions.updatedAt;
    outcome := ReconcileTransaction(b, p, ids[0], listed[ids[0]], fetch);
    if alone {
      assert ids[0] in ids;
      if outcome == Confirmed || outcome == Reverted {
        var row := b.transactions.rows[ids[0]];
        assert b.transactions.rows == before[ids[0] := row];
        SettledRowLeaves(before, aged, ids, listed, row, Ready(listed, fetch), times, b.transactions.updatedAt);
      } else {
        UnsettledRowStays(before, aged, ids, listed, Ready(listed, fetch), times);
      }
    }
  }

  /** The queue after the rows `done` have been looked at and `n` of them settled; the rows `left` are still to do. */
  ghost predicate QueueMoved(listed: map<Id, Transaction>, rows: map<Id, Transaction>, aged: Id -> bool, done: seq<Id>,
                             left: seq<Id>, n: nat, ready: set<Id>, f: Times, g: Times)
  {
    && StillPending(rows, left, listed)
    && Settled(listed, rows, aged, n)
    && PendingIn(rows) == PendingIn(listed) - Listed(done) * ready
    && SameTimes(PendingIn(rows), g, f)
  }

  lemma QueueMovesOn(listed: map<Id, Transaction>, x: map<Id, Transaction>, y: map<Id, Transaction>, aged: Id -> bool,
                     done: seq<Id>, left: seq<Id>, n: nat, one: nat, ready: set<Id>, f: Times, g: Times, h: Times)
    requires left != [] && QueueMoved(listed, x, aged, done, left, n, ready, f, g)
    requires QueueMoves(x, y, aged, left[0], one, ready, g, h) && StillPending(y, left[1..], listed)
    ensures QueueMoved(listed, y, aged, done + [left[0]], left[1..], n + one, ready, f, h)
  {
    OneMoreListed(PendingIn(listed), done, left[0], ready);
    SettledAdds(listed, x, y, aged, n, one);
  }

  /** Lists the rows to settle, as copies, and hands them to the pass. */
  method ListPendingTransactions(b: Backend, p: nat)
    returns (ids: seq<Id>, listed: map<Id, Transaction>, ghost work: seq<Work>)
    requires Works(b, p, true, [])
    modifies b
    ensures Works(b, p, false, work) && old(b.history) <= b.history
    ensures listed == b.transactions.rows && StillPending(listed, ids, listed)
    ensures OldestFirst(ids, PendingIn(listed), PENDING_LIMIT, b.transactions.updatedAt) && |work| == |ids|
    ensures b.transactions.updatedAt == old(b.transactions.updatedAt) && listed == old(b.transactions.rows)
    ensures ListsWaiting(ids, listed)
    ensures SettlesRows(work, ids, listed)
  {
    listed := b.transactions.rows;
    ids := b.transactions.FindPendingReconciliation();
    work := SettleWork(b.state.tables, ids);
    b.Take(Drive(p, ListPending(ids)));
  }

  /** One row more has been looked at. */
  function Counted(s: Summary, outcome: Outcome): Summary {
    match outcome
    case Confirmed => s.(scanned := s.scanned + 1, confirmed := s.confirmed + 1)
    case Reverted => s.(scanned := s.scanned + 1, reverted := s.reverted + 1)
    case Pending => s.(scanned := s.scanned + 1, pending := s.pending + 1)
    case Threw => s.(scanned := s.scanned + 1)
  }

  /** The counters after `n` rows, of which `settled` were confirmed or reverted. */
  ghost predicate Tallied(summary: Summary, threw: nat, failed: nat, n: nat, settled: nat) {
    && summary.failed == failed && summary.scanned == failed + n
    && summary.confirmed + summary.reverted == settled
    && settled + summary.pending + threw == n
  }

  /** The listed rows that end in this way. */
  function Ending(ids: seq<Id>, listed: map<Id, Transaction>, fetch: Client, outcome: Outcome): set<Id> {
    set t | t in ids && t in listed && EndsIn(listed[t], fetch, outcome)
  }

  /** Each counter is the number of rows that end in its way. */
  ghost predicate Counts(summary: Summary, threw: nat, ids: seq<Id>, listed: map<Id, Transaction>, fetch: Client) {
    && summary.confirmed == |Ending(ids, listed, fetch, Confirmed)|
    && summary.reverted == |Ending(ids, listed, fetch, Reverted)|
    && summary.pending == |Ending(ids, listed, fetch, Pending)|
    && threw == |Ending(ids, listed, fetch, Threw)|
  }

  lemma EndingAdds(ids: seq<Id>, id: Id, listed: map<Id, Transaction>, fetch: Client, outcome: Outcome)
    requires id !in ids && id in listed
    ensures |Ending(ids + [id], listed, fetch, outcome)| ==
      |Ending(ids, listed, fetch, outcome)| + if EndsIn(listed[id], fetch, outcome) then 1 else 0
  {
    var one := if EndsIn(listed[id], fetch, outcome) then {id} else {};
    assert Ending(ids + [id], listed, fetch, outcome) == Ending(ids, listed, fetch, outcome) + one;
  }

  lemma CountAdds(summary: Summary, threw: nat, ids: seq<Id>, id: Id, listed: map<Id, Transaction>, fetch: Client,
                  outcome: Outcome)
    requires Counts(summary, threw, ids, listed, fetch) && id !in ids && id in listed
    requires EndsIn(listed[id], fetch, outcome)
    ensures Counts(Counted(summary, outcome), threw + (if outcome == Threw then 1 else 0), ids + [id], listed, fetch)
  {
    EndingAdds(ids, id, listed, fetch, Confirmed);
    EndingAdds(ids, id, listed, fetch, Reverted);
    EndingAdds(ids, id, listed, fetch, Pending);
    EndingAdds(ids, id, listed, fetch, Threw);
  }

  lemma TallyAdds(summary: Summary, threw: nat, failed: nat, n: nat, settled: nat, outcome: Outcome)
    requires Tallied(summary, threw, failed, n, settled)
    ensures
      var one := if outcome == Confirmed || outcome == Reverted then 1 else 0;
      Tallied(Counted(summary, outcome), threw + (if outcome == Threw then 1 else 0), failed, n + 1, settled + one)
  {
  }

  /** The work that is left settles the rows that are left, as they were listed. */
  ghost predicate SettlesRows(work: seq<Work>, ids: seq<Id>, listed: map<Id, Transaction>) {
    |work| == |ids| && forall i | 0 <= i < |ids| ::
        ids[i] in PendingIn(listed) && work[i] == Settle(ids[i], listed[ids[i]])
  }

  lemma SettlesRest(work: seq<Work>, ids: seq<Id>, listed: map<Id, Transaction>)
    requires SettlesRows(work, ids, listed) && ids != []
    ensures work != [] && ids[0] in PendingIn(listed) && work[0] == Settle(ids[0], listed[ids[0]])
    ensures SettlesRows(work[1..], ids[1..], listed)
  {
  }

  /** Only rows without a receipt at hand are counted as pending or have thrown. */
  lemma AllReady(rows: map<Id, Transaction>, fetch: Client)
    requires AllAvailable(rows, fetch)
    ensures Ready(rows, fetch) == PendingIn(rows)
  {
  }

  /** One turn of the loop: the next row is looked at and counted; `n` of the rows before it were settled. */
  method SettleAndCount(b: Backend, p: nat, ghost aged: Id -> bool, ghost done: seq<Id>, left: seq<Id>,
                        listed: map<Id, Transaction>, ghost work: seq<Work>, fetch: Client, ghost failed: nat,
                        s: Summary, t: nat, ghost n: nat, ghost times: Times, ghost alone: bool)
    returns (summary: Summary, threw: nat, ghost settled: nat)
    requires left != [] && SettlesRows(work, left, listed)
    requires Works(b, p, false, work) && Honest(b.chain, fetch) && Tallied(s, t, failed, |done|, n)
    requires Counts(s, t, done, listed, fetch) && left[0] !in done
    requires alone ==>
      QueueMoved(listed, b.transactions.rows, aged, done, left, n, Ready(listed, fetch), times,
                 b.transactions.updatedAt)
    modifies b, b.positions, b.transactions
    ensures work != [] && Works(b, p, false, work[1..]) && old(b.history) <= b.history
    ensures Tallied(summary, threw, failed, |done| + 1, settled)
    ensures Counts(summary, threw, done + [left[0]], listed, fetch)
    ensures settled == n + if left[0] in Ready(listed, fetch) then 1 else 0
    ensures alone ==>
      && b.transactions.createdAt == old(b.transactions.createdAt)
      && QueueMoved(listed, b.transactions.rows, aged, done + [left[0]], left[1..], settled, Ready(listed, fetch),
                    times, b.transactions.updatedAt)
  {
    SettlesRest(work, left, listed);
    ghost var before, g := b.transactions.rows, b.transactions.updatedAt;
    var outcome := SettleNext(b, p, aged, left, listed, work, fetch, alone);
    ghost var one := if outcome == Confirmed || outcome == Reverted then 1 else 0;
    if alone {
      QueueMovesOn(listed, before, b.transactions.rows, aged, done, left, n, one, Ready(listed, fetch), times, g,
                   b.transactions.updatedAt);
    }
    TallyAdds(s, t, failed, |done|, n, outcome);
    CountAdds(s, t, done, left[0], listed, fetch, outcome);
    summary, threw, settled := Counted(s, outcome), t + (if outcome == Threw then 1 else 0), n + one;
  }

  lemma QueueBegins(listed: map<Id, Transaction>, aged: Id -> bool, ids: seq<Id>, ready: set<Id>, f: Times)
    requires StillPending(listed, ids, listed)
    ensures QueueMoved(listed, listed, aged, [], ids, 0, ready, f, f)
  {
    assert Listed([]) == {};
  }

  /** Once all listed rows have been looked at, the queue has made one pass. */
  lemma QueueHasPassed(listed: map<Id, Transaction>, rows: map<Id, Transaction>, aged: Id -> bool, ids: seq<Id>, n: nat,
                       ready: set<Id>, f: Times, g: Times)
    requires OldestFirst(ids, PendingIn(listed), PENDING_LIMIT, f)
    requires QueueMoved(listed, rows, aged, ids, [], n, ready, f, g)
    ensures OnePass(PendingIn(listed), PendingIn(rows), f, ready)
  {
  }

  lemma NothingCounted(listed: map<Id, Transaction>, fetch: Client, failed: nat)
    ensures Counts(Summary(failed, 0, 0, failed, 0), 0, [], listed, fetch)
  {
    assert forall outcome :: Ending([], listed, fetch, outcome) == {};
  }

  /** The loop over the listed rows. */
  method SettleListed(b: Backend, p: nat, ghost aged: Id -> bool, ids: seq<Id>, listed: map<Id, Transaction>,
                      ghost work: seq<Work>, failed: nat, fetch: Client, ghost alone: bool)
    returns (summary: Summary, threw: nat, ghost settled: nat)
    requires Works(b, p, false, work) && Honest(b.chain, fetch) && SettlesRows(work, ids, listed) && Distinct(ids)
    requires alone ==> b.transactions.rows == listed && StillPending(listed, ids, listed)
    modifies b, b.positions, b.transactions
    ensures Works(b, p, false, []) && old(b.history) <= b.history
    ensures Tallied(summary, threw, failed, |ids|, settled) && Counts(summary, threw, ids, listed, fetch)
    ensures Ready(listed, fetch) == PendingIn(listed) ==> settled == |ids|
    ensures alone ==>
      && b.transactions.createdAt == old(b.transactions.createdAt)
      && QueueMoved(listed, b.transactions.rows, aged, ids, [], settled, Ready(listed, fetch),
                    old(b.transactions.updatedAt), b.transactions.updatedAt)
  {
    summary, threw, settled := Summary(failed, 0, 0, failed, 0), 0, 0;
    ghost var times := b.transactions.updatedAt;
    if alone { QueueBegins(listed, aged, ids, Ready(listed, fetch), times); }
    NothingCounted(listed, fetch, failed);
    var left := ids;
    ghost var done, rest := [], work;
    while left != []
      invariant Works(b, p, false, rest) && old(b.history) <= b.history
      invariant SettlesRows(rest, left, listed) && done + left == ids
      invariant Tallied(summary, threw, failed, |done|, settled) && Counts(summary, threw, done, listed, fetch)
      invariant Ready(listed, fetch) == PendingIn(listed) ==> settled == |done|
      invariant alone ==> b.transactions.createdAt == old(b.transactions.createdAt)
      invariant alone ==>
        QueueMoved(listed, b.transactions.rows, aged, done, left, settled, Ready(listed, fetch), times,
                   b.transactions.updatedAt)
      decreases |left|
    {
      NextRow(ids, done, left);
      SettlesRest(rest, left, listed);
      summary, threw, settled :=
        SettleAndCount(b, p, aged, done, left, listed, rest, fetch, failed, summary, threw, settled, times, alone);
      done, left, rest := done + [left[0]], left[1..], rest[1..];
    }
    assert done == ids;
  }

  /** The rows that have left the queue and whose hash was mined with this result. */
  function LeftAs(c: Chain, x: map<Id, Transaction>, y: map<Id, Transaction>, success: bool): set<Id> {
    set t | t in PendingIn(x) - PendingIn(y) && x[t].txHash.value in c && c[x[t].txHash.value].success == success
  }

  /** The counters, by the rows and receipts there were before: `scanned` are the oldest of the queue. */
  ghost predicate Reports(c: Chain, summary: Summary, threw: nat, scanned: seq<Id>, x: map<Id, Transaction>,
                          y: map<Id, Transaction>, f: Times, fetch: Client)
  {
    && OldestFirst(scanned, PendingIn(x), PENDING_LIMIT, f) && Counts(summary, threw, scanned, x, fetch)
    && summary.confirmed == |LeftAs(c, x, y, true)| && summary.reverted == |LeftAs(c, x, y, false)|
  }

  lemma CountsAreReported(c: Chain, summary: Summary, threw: nat, scanned: seq<Id>, x: map<Id, Transaction>,
                          y: map<Id, Transaction>, f: Times, fetch: Client)
    requires OldestFirst(scanned, PendingIn(x), PENDING_LIMIT, f) && Counts(summary, threw, scanned, x, fetch)
    requires Honest(c, fetch) && PendingIn(y) == PendingIn(x) - Listed(scanned) * Ready(x, fetch)
    ensures Reports(c, summary, threw, scanned, x, y, f, fetch)
  {
    forall t | t in PendingIn(x) ensures t in Ready(x, fetch) <==> Answer(fetch, x[t].txHash.value).Found? {
      AvailableMeans(fetch, x[t].txHash.value);
    }
    assert Ending(scanned, x, fetch, Confirmed) == LeftAs(c, x, y, true);
    assert Ending(scanned, x, fetch, Reverted) == LeftAs(c, x, y, false);
  }

  method ReconcilePendingTransactions(b: Backend, p: nat, ghost aged: Id -> bool, failed: nat, fetch: Client,
                                      ghost alone: bool)
    returns (summary: Summary, threw: nat, ghost scanned: seq<Id>, ghost listed: map<Id, Transaction>)
    requires Works(b, p, true, []) && Honest(b.chain, fetch)
    modifies b, b.positions, b.transactions
    ensures Works(b, p, false, []) && old(b.history) <= b.history
    ensures
      Tallied(summary, threw, failed, Min(|PendingIn(old(b.transactions.rows))|, PENDING_LIMIT),
              summary.confirmed + summary.reverted)
    ensures listed == old(b.transactions.rows) && ListsWaiting(scanned, listed)
    ensures OldestFirst(scanned, PendingIn(listed), PENDING_LIMIT, old(b.transactions.updatedAt))
    ensures Counts(summary, threw, scanned, listed, fetch)
    ensures Ready(old(b.transactions.rows), fetch) == PendingIn(old(b.transactions.rows)) ==>
        summary.pending + threw == 0
    ensures alone ==>
      && Settled(old(b.transactions.rows), b.transactions.rows, aged, summary.confirmed + summary.reverted)
      && b.transactions.createdAt == old(b.transactions.createdAt)
      && SameTimes(PendingIn(b.transactions.rows), b.transactions.updatedAt, old(b.transactions.updatedAt))
      && OnePass(PendingIn(old(b.transactions.rows)), PendingIn(b.transactions.rows), old(b.transactions.updatedAt),
                 Ready(old(b.transactions.rows), fetch))
      && Reports(b.chain, summary, threw, scanned, listed, b.transactions.rows, old(b.transactions.updatedAt), fetch)
  {
    var ids, rows;
    ghost var work, settled;
    ids, rows, work := ListPendingTransactions(b, p);
    scanned, listed := ids, rows;
    summary, threw, settled := SettleListed(b, p, aged, ids, rows, work, failed, fetch, alone);
    if alone {
      CountsAreReported(b.chain, summary, threw, ids, rows, b.transactions.rows, old(b.transactions.updatedAt), fetch);
      QueueHasPassed(listed, b.transactions.rows, aged, ids, settled, Ready(listed, fetch),
                     old(b.transactions.updatedAt), b.transactions.updatedAt);
    }
  }

  /** One pass takes the rows from `x` to `y`: the pending ones that are left are as they were, also in their times. */
  ghost predicate QueuePassed(x: map<Id, Transaction>, y: map<Id, Transaction>, f: Times, g: Times, fetch: Client) {
    && OnePass(PendingIn(x), PendingIn(y), f, Ready(x, fetch))
    && NoNewPending(x, y) && SameTimes(PendingIn(y), g, f)
  }

  lemma ReadyStays(x: map<Id, Transaction>, y: map<Id, Transaction>, fetch: Client)
    requires NoNewPending(x, y)
    ensures Ready(y, fetch) == Ready(x, fetch) * PendingIn(y)
  {
  }

  /** The sweep has left the queue as it was. */
  ghost predicate QueueKept(x: map<Id, Transaction>, y: map<Id, Transaction>, f: Times, g: Times) {
    PendingIn(y) == PendingIn(x) && NoNewPending(x, y) && SameTimes(PendingIn(y), g, f)
  }

  /** The sweep comes first and leaves the pending rows alone, so the pass may be read from before it. */
  lemma SweepThenPass(x: map<Id, Transaction>, y: map<Id, Transaction>, z: map<Id, Transaction>, f: Times, g: Times,
                      h: Times, fetch: Client)
    requires QueueKept(x, y, f, g)
    requires QueuePassed(y, z, g, h, fetch)
    ensures QueuePassed(x, z, f, h, fetch)
  {
    ReadyStays(x, y, fetch);
    SamePass(PendingIn(y), PendingIn(z), g, f, Ready(y, fetch), Ready(x, fetch));
  }

  lemma SweepThenCount(c: Chain, summary: Summary, threw: nat, scanned: seq<Id>, x: map<Id, Transaction>,
                       y: map<Id, Transaction>, z: map<Id, Transaction>, f: Times, g: Times, fetch: Client)
    requires QueueKept(x, y, f, g)
    requires Reports(c, summary, threw, scanned, y, z, g, fetch)
    ensures Reports(c, summary, threw, scanned, x, z, f, fetch)
  {
    assert forall t | t in scanned :: t in PendingIn(x) && x[t] == y[t];
    assert forall outcome :: Ending(scanned, x, fetch, outcome) == Ending(scanned, y, fetch, outcome);
    assert LeftAs(c, x, z, true) == LeftAs(c, y, z, true) && LeftAs(c, x, z, false) == LeftAs(c, y, z, false);
  }

  /** The second half of a pass, read from the rows `x` and times `f` there were before the first half. */
  method SettleAfterSweep(b: Backend, p: nat, ghost aged: Id -> bool, failed: nat, fetch: Client,
                          ghost x: map<Id, Transaction>, ghost f: Times, ghost alone: bool)
    returns (summary: Summary, threw: nat, ghost scanned: seq<Id>)
    requires Works(b, p, true, []) && Honest(b.chain, fetch)
    requires alone ==> QueueKept(x, b.transactions.rows, f, b.transactions.updatedAt)
    modifies b, b.positions, b.transactions
    ensures Works(b, p, false, []) && old(b.history) <= b.history
    ensures summary.failed == failed
    ensures summary.scanned == failed + summary.confirmed + summary.reverted + summary.pending + threw
    ensures alone ==>
      && summary.scanned == failed + Min(|PendingIn(x)|, PENDING_LIMIT)
      && Settled(old(b.transactions.rows), b.transactions.rows, aged, summary.confirmed + summary.reverted)
      && b.transactions.createdAt == old(b.transactions.createdAt)
      && QueuePassed(x, b.transactions.rows, f, b.transactions.updatedAt, fetch)
    ensures alone ==> Reports(b.chain, summary, threw, scanned, x, b.transactions.rows, f, fetch)
    ensures alone && AllAvailable(x, fetch) ==> summary.pending + threw == 0
  {
    b.OthersThanPass(p, alone);
    ghost var rows, times, listed := b.transactions.rows, b.transactions.updatedAt, map[];
    if AllAvailable(rows, fetch) { AllReady(rows, fetch); }
    summary, threw, scanned, listed := ReconcilePendingTransactions(b, p, aged, failed, fetch, alone);
    if alone {
      SweepThenCount(b.chain, summary, threw, scanned, x, rows, b.transactions.rows, f, times, fetch);
      SweepThenPass(x, rows, b.transactions.rows, f, times, b.transactions.updatedAt, fetch);
    }
  }

  /**
   `runReconciliation`: fail the stale rows, then settle the pending ones.  Every scanned row is counted once; with
   nobody else at work, exactly the rows counted as failed, confirmed or reverted leave the two lists.
   */
  method RunReconciliation(b: Backend, p: nat, olderThan: nat, fetch: Client, ghost alone: bool)
    returns (summary: Summary, threw: nat, ghost swept: seq<Id>, ghost scanned: seq<Id>)
    requires b.Valid() && p !in b.state.passes && Honest(b.chain, fetch)
    modifies b, b.positions, b.transactions
    ensures b.Valid() && old(b.history) <= b.history && p !in b.state.passes
    ensures summary.scanned == summary.failed + summary.confirmed + summary.reverted + summary.pending + threw
    ensures summary.failed == Min(|old(b.transactions.Stale(olderThan))|, STALE_LIMIT) == |swept|
    ensures ListsLeftOver(swept, old(b.transactions.rows), old(b.transactions.createdAt), olderThan)
    ensures alone ==>
      Reports(b.chain, summary, threw, scanned, old(b.transactions.rows), b.transactions.rows,
              old(b.transactions.updatedAt), fetch)
    ensures alone ==>
      && summary.scanned == summary.failed + Min(|PendingIn(old(b.transactions.rows))|, PENDING_LIMIT)
      && |b.transactions.Stale(olderThan)| == |old(b.transactions.Stale(olderThan))| - summary.failed
      && |PendingIn(b.transactions.rows)| ==
         |PendingIn(old(b.transactions.rows))| - summary.confirmed - summary.reverted
      && b.transactions.createdAt == old(b.transactions.createdAt)
      && QueuePassed(old(b.transactions.rows), b.transactions.rows, old(b.transactions.updatedAt),
                     b.transactions.updatedAt, fetch)
    ensures alone && AllAvailable(old(b.transactions.rows), fetch) ==> summary.pending == 0 && threw == 0
  {
    ghost var x, f := b.transactions.rows, b.transactions.updatedAt;
    var failed;
    failed, swept := ReconcileStaleCreatedTransactions(b, p, olderThan, alone);
    ghost var aged := Before(b.transactions.createdAt, olderThan);
    summary, threw, scanned := SettleAfterSweep(b, p, aged, failed, fetch, x, f, alone);
    b.Take(EndPass(p));
  }

  /**
   Passes run one at a time, with no new work and every receipt at hand, clear the backlog exactly when there are
   enough of them for both limits.
   */
  method DrainBacklog(b: Backend, p: nat, olderThan: nat, fetch: Client, passes: nat)
    requires b.Valid() && p !in b.state.passes && Honest(b.chain, fetch) && AllAvailable(b.transactions.rows, fetch)
    modifies b, b.positions, b.transactions
    ensures b.Valid() && old(b.history) <= b.history
    ensures PendingIn(b.transactions.rows) == {} <==> |PendingIn(old(b.transactions.rows))| <= 100 * passes
    ensures b.transactions.Stale(olderThan) == {} <==> |old(b.transactions.Stale(olderThan))| <= 50 * passes
  {
    ghost var n, m := |PendingIn(b.transactions.rows)|, |b.transactions.Stale(olderThan)|;
    for k := 0 to passes
      invariant b.Valid() && old(b.history) <= b.history && p !in b.state.passes
      invariant AllAvailable(b.transactions.rows, fetch)
      invariant |PendingIn(b.transactions.rows)| == if n <= PENDING_LIMIT * k then 0 else n - PENDING_LIMIT * k
      invariant |b.transactions.Stale(olderThan)| == if m <= STALE_LIMIT * k then 0 else m - STALE_LIMIT * k
    {
      var summary, threw, swept, scanned := RunReconciliation(b, p, olderThan, fetch, true);
    }
  }

  /** One pass more after those of `queues`, all of them read from the first. */
  lemma OnePassMore(queues: seq<set<Id>>, x: map<Id, Transaction>, y: map<Id, Transaction>, z: map<Id, Transaction>,
                    f: Times, g: Times, h: Times, fetch: Client)
    requires Passes(queues, f, Ready(x, fetch)) && Last(queues) == PendingIn(y)
    requires NoNewPending(x, y) && SameTimes(PendingIn(y), g, f) && QueuePassed(y, z, g, h, fetch)
    ensures Passes(queues + [PendingIn(z)], f, Ready(x, fetch))
    ensures NoNewPending(x, z) && SameTimes(PendingIn(z), h, f)
  {
    ReadyStays(x, y, fetch);
    SamePass(PendingIn(y), PendingIn(z), g, f, Ready(y, fetch), Ready(x, fetch));
    OnePassAdded(queues, PendingIn(z), f, Ready(x, fetch));
  }

  /** Settled are exactly the rows with a receipt at hand and fewer than a hundred older ones without. */
  ghost predicate InTheLongRun(rows: map<Id, Transaction>, after: map<Id, Transaction>, times: Times, fetch: Client) {
    (forall t, u | t in PendingIn(rows) && u in PendingIn(rows) && times(t) == times(u) :: t == u) ==>
      forall t | t in PendingIn(rows) ::
        t !in PendingIn(after) <==>
          && Available(fetch, rows[t].txHash.value)
          && |Older(PendingIn(rows), times, t) - Ready(rows, fetch)| < PENDING_LIMIT
  }

  lemma ServedInTheLongRun(queues: seq<set<Id>>, rows: map<Id, Transaction>, after: map<Id, Transaction>, times: Times,
                           fetch: Client)
    requires Passes(queues, times, Ready(rows, fetch)) && |queues| - 1 > |PendingIn(rows)|
    requires queues[0] == PendingIn(rows) && Last(queues) == PendingIn(after)
    ensures InTheLongRun(rows, after, times, fetch)
  {
    if forall t, u | t in PendingIn(rows) && u in PendingIn(rows) && times(t) == times(u) :: t == u {
      forall t | t in PendingIn(rows)
        ensures t !in PendingIn(after) <==>
            && Available(fetch, rows[t].txHash.value)
            && |Older(PendingIn(rows), times, t) - Ready(rows, fetch)| < PENDING_LIMIT
      {
        ServedIff(queues, times, Ready(rows, fetch), t);
      }
    }
  }

  /**
   Passes run one at a time, with no new work and receipts still missing for some rows: the queue moves by one pass
   after the other, and which rows enough of them settle is decided by the rows before the first.
   */
  method RunPasses(b: Backend, p: nat, olderThan: nat, fetch: Client, passes: nat) returns (ghost queues: seq<set<Id>>)
    requires b.Valid() && p !in b.state.passes && Honest(b.chain, fetch)
    modifies b, b.positions, b.transactions
    ensures b.Valid() && old(b.history) <= b.history
    ensures |queues| == passes + 1 && queues[0] == PendingIn(old(b.transactions.rows))
    ensures Last(queues) == PendingIn(b.transactions.rows)
    ensures Passes(queues, old(b.transactions.updatedAt), Ready(old(b.transactions.rows), fetch))
    ensures passes > |PendingIn(old(b.transactions.rows))| ==>
      InTheLongRun(old(b.transactions.rows), b.transactions.rows, old(b.transactions.updatedAt), fetch)
  {
    queues := [PendingIn(b.transactions.rows)];
    ghost var rows, times := b.transactions.rows, b.transactions.updatedAt;
    for k := 0 to passes
      invariant b.Valid() && old(b.history) <= b.history && p !in b.state.passes
      invariant |queues| == k + 1 && queues[0] == PendingIn(rows) && Last(queues) == PendingIn(b.transactions.rows)
      invariant Passes(queues, times, Ready(rows, fetch))
      invariant NoNewPending(rows, b.transactions.rows)
      invariant SameTimes(PendingIn(b.transactions.rows), b.transactions.updatedAt, times)
    {
      ghost var x, g := b.transactions.rows, b.transactions.updatedAt;
      var summary, threw, swept, scanned := RunReconciliation(b, p, olderThan, fetch, true);
      OnePassMore(queues, rows, x, b.transactions.rows, times, g, b.transactions.updatedAt, fetch);
      queues := queues + [PendingIn(b.transactions.rows)];
    }
    if passes > |PendingIn(rows)| { ServedInTheLongRun(queues, rows, b.transactions.rows, times, fetch); }
  }
}
