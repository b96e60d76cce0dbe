/**
 The request handlers as ordered writes to the two repositories, with the machine kept alongside:
 `history` is a run of the protocol and `state` is where it leads, and the rows of the repositories
 are the tables of that state.  Between any two blocks other actors may continue the run as they
 like, unless the caller is `alone`.  So every method is a run of the protocol, and what is proved
 of all runs holds of the rows the methods leave behind.
 */
module Services {
  import opened Options
  import opened Rows
  import opened Blocks
  import opened Protocol
  import opened Invariants
  import opened Balances
  import opened Conservation
  import opened Runs
  import opened Repositories

  ghost predicate Reached(c: Chain, history: seq<Step>, s: State) {
    Legal(c, Anything, Init, history) && Exec(c, Anything, Init, history) == s
  }

  lemma ReachedHasRows(c: Chain, history: seq<Step>, s: State, id: Id)
    requires Reached(c, history, s) && id in s.handlers
    ensures
      var pc := s.handlers[id].pc;
      && (InTry(pc) || pc == CatchRow || pc == CatchPosition ==> HasRows(s.tables, id, s.handlers[id]))
      && (pc == Ready || pc == Checked ==> id !in s.tables.transactions)
      && (pc == Checked ==> s.handlers[id].position in s.tables.positions)
  {
    RunFromInit(c, Anything, history);
    assert LocalOk(c, s.tables, id, s.handlers[id]);
  }

  lemma ReachedHasWork(c: Chain, history: seq<Step>, s: State, p: nat)
    requires Reached(c, history, s) && p in s.passes && s.passes[p].todo != []
    ensures
      var w := s.passes[p].todo[0];
      && WorkOk(s.tables, w)
      && s.tables.transactions[w.id].position in s.tables.positions
  {
    RunFromInit(c, Anything, history);
    var w := s.passes[p].todo[0];
    assert w in s.passes[p].todo && WorkOk(s.tables, w) && LocalOk(c, s.tables, w.id, s.handlers[w.id]);
  }

  /** What the wallet and the chain client answer one handler: no hash means the send threw. */
  datatype World = World(broadcast: Option<Hash>, receiptArrives: bool)

  // ----- what a handler leaves behind when nobody else acts in between

  predicate Arrives(c: Chain, world: World) {
    world.broadcast.Some? && world.receiptArrives && world.broadcast.value in c
  }

  function FailNew(d: Tables, position: PositionKey, isNew: bool): Tables
    requires position in d.positions
  {
    if isNew then SetStatus(d, position, PositionStatus.FAILED) else d
  }

  function SettledDeposit(d: Tables, id: Id, position: PositionKey, amount: int, isNew: bool, receipt: Receipt): Tables
    requires id in d.transactions && position in d.positions
  {
    if receipt.success then ConfirmDeposit(d, id, receipt.blockNumber, position, amount, amount, isNew).tables
    else MarkReverted(FailNew(d, position, isNew), id, receipt.blockNumber)
  }

  function Deposited(c: Chain, d: Tables, id: Id, position: PositionKey, amount: int, world: World): Tables {
    var isNew := position !in d.positions;
    var reserved := ReserveDeposit(d, id, position, amount, amount);
    if world.broadcast.None? then FailNew(MarkFailed(reserved, id), position, isNew)
    else
      var submitted := MarkSubmitted(reserved, id, world.broadcast.value, Metadata(Some(amount), None));
      if Arrives(c, world) then SettledDeposit(submitted, id, position, amount, isNew, c[world.broadcast.value])
      else FailNew(MarkFailed(submitted, id), position, isNew)
  }

  function SettledWithdraw(d: Tables, id: Id, position: PositionKey, amount: int, shares: int, receipt: Receipt): Tables
    requires id in d.transactions && position in d.positions
  {
    if receipt.success then ConfirmWithdraw(d, id, receipt.blockNumber, position, amount, shares).tables
    else SetStatus(MarkReverted(d, id, receipt.blockNumber), position, ACTIVE)
  }

  function Withdrew(c: Chain, d: Tables, id: Id, position: PositionKey, amount: int, shares: int, world: World): Tables
    requires position in d.positions
  {
    var reserved := ReserveWithdraw(d, id, position, amount, shares);
    if world.broadcast.None? then SetStatus(MarkFailed(reserved, id), position, ACTIVE)
    else
      var submitted := MarkSubmitted(reserved, id, world.broadcast.value, Metadata(None, Some(shares)));
      if Arrives(c, world) then SettledWithdraw(submitted, id, position, amount, shares, c[world.broadcast.value])
      else SetStatus(MarkFailed(submitted, id), position, ACTIVE)
  }

  /** The terms of an acceptable withdraw: an ACTIVE position that covers it, and no other withdraw under way. */
  function AcceptedWithdraw(d: Tables, position: PositionKey, request: Request, onChainShares: nat): Option<(int, int)>
    requires request.WithdrawRequest?
  {
    if position !in d.positions || d.positions[position].status != ACTIVE
        || HasOpenWithdraw(d.transactions, position) then None
    else WithdrawTerms(d.positions[position], request, onChainShares)
  }

  function FinalStatus(c: Chain, world: World): TransactionStatus {
    if !Arrives(c, world) then TransactionStatus.FAILED
    else if c[world.broadcast.value].success then TransactionStatus.CONFIRMED
    else TransactionStatus.REVERTED
  }

  /** Nothing but the request's own row and position changes. */
  predicate OnlyTouched(d: Tables, d': Tables, id: Id, position: PositionKey) {
    && id in d'.transactions && d'.transactions == d.transactions[id := d'.transactions[id]]
    && position in d'.positions && d'.positions == d.positions[position := d'.positions[position]]
  }

  /** The row a request leaves behind. */
  predicate EndsAs(
    c: Chain, t: Transaction, kind: TransactionType, position: PositionKey, amount: int, shares: int, world: World)
  {
    && t.kind == kind && t.position == position && t.amount == amount && t.txHash == world.broadcast
    && t.status == FinalStatus(c, world)
    && t.blockNumber == (if Arrives(c, world) then Some(c[world.broadcast.value].blockNumber) else None)
    && t.metadata == (if t.status != TransactionStatus.CONFIRMED then Metadata(None, None)
                      else if kind == DEPOSIT then Metadata(Some(shares), None)
                      else Metadata(None, Some(shares)))
  }

  lemma SettledDepositMeans(d: Tables, id: Id, position: PositionKey, amount: int, isNew: bool, receipt: Receipt)
    requires id in d.transactions && Confirmable(d, id) && position in d.positions
    requires isNew ==> d.positions[position] == PendingPosition()
    ensures
      var d' := SettledDeposit(d, id, position, amount, isNew, receipt);
      var t, t', p := d.transactions[id], d'.transactions[id], d.positions[position];
      && OnlyTouched(d, d', id, position)
      && t'.kind == t.kind && t'.position == t.position && t'.amount == t.amount && t'.txHash == t.txHash
      && t'.status == (if receipt.success then TransactionStatus.CONFIRMED else TransactionStatus.REVERTED)
      && t'.blockNumber == Some(receipt.blockNumber)
      && t'.metadata == (if receipt.success then Metadata(Some(amount), None) else Metadata(None, None))
      && d'.positions[position] ==
         if receipt.success then
           Position(ACTIVE, p.depositedAmount + amount, p.currentAmount + amount, p.shares + amount)
         else if isNew then Position(PositionStatus.FAILED, 0, 0, 0) else p
  {
  }

  /** A deposit adds its amount to all three balances if its receipt is a success, and nothing otherwise. */
  lemma DepositedMeans(c: Chain, d: Tables, id: Id, position: PositionKey, amount: int, world: World)
    ensures
      var d' := Deposited(c, d, id, position, amount, world);
      && OnlyTouched(d, d', id, position) && EndsAs(c, d'.transactions[id], DEPOSIT, position, amount, amount, world)
      && var p := d'.positions[position];
      var before := if position in d.positions then d.positions[position] else PendingPosition();
      if FinalStatus(c, world) == TransactionStatus.CONFIRMED then
        p == Position(ACTIVE, before.depositedAmount + amount, before.currentAmount + amount, before.shares + amount)
      else p == if position in d.positions then before else Position(PositionStatus.FAILED, 0, 0, 0)
  {
    var isNew := position !in d.positions;
    var reserved := ReserveDeposit(d, id, position, amount, amount);
    assert OnlyTouched(d, reserved, id, position);
    if world.broadcast.Some? {
      var submitted := MarkSubmitted(reserved, id, world.broadcast.value, Metadata(Some(amount), None));
      assert OnlyTouched(d, submitted, id, position) && submitted.positions == reserved.positions;
      if Arrives(c, world) {
        SettledDepositMeans(submitted, id, position, amount, isNew, c[world.broadcast.value]);
      }
    }
  }

  /** A withdraw takes its terms from the balances if its receipt is a success; otherwise no position changes at all. */
  lemma WithdrewMeans(c: Chain, d: Tables, id: Id, position: PositionKey, amount: int, shares: int, world: World)
    requires position in d.positions && d.positions[position].status == ACTIVE && shares <= d.positions[position].shares
    ensures
      var d' := Withdrew(c, d, id, position, amount, shares, world);
      && OnlyTouched(d, d', id, position) && EndsAs(c, d'.transactions[id], WITHDRAW, position, amount, shares, world)
      && if FinalStatus(c, world) != TransactionStatus.CONFIRMED then d'.positions == d.positions
         else
           var p, p' := d.positions[position], d'.positions[position];
           if shares == p.shares then p' == Position(CLOSED, 0, 0, 0)
           else p' == Position(ACTIVE, p.depositedAmount - amount, p.currentAmount - amount, p.shares - shares)
  {
  }

  /**
   Exactly which withdraws are accepted: a full withdraw that the chain does not cover is refused, not cut down to the
   lesser balance.
   */
  lemma WhichWithdrawsAreAccepted(d: Tables, position: PositionKey, request: Request, onChainShares: nat)
    requires request.WithdrawRequest? && position in d.positions
    ensures
      var p := d.positions[position];
      var accepted := AcceptedWithdraw(d, position, request, onChainShares);
      && (accepted.Some? <==>
            p.status == ACTIVE && !HasOpenWithdraw(d.transactions, position)
            && if request.fullWithdraw then p.shares <= onChainShares
               else request.wanted.Some? && request.wanted.value <= p.currentAmount && request.wanted.value <= p.shares
                    && request.wanted.value <= onChainShares)
      && (accepted.Some? ==>
            accepted.value == if request.fullWithdraw then (p.currentAmount, p.shares)
                else (request.wanted.value, request.wanted.value))
  {
  }

  class Backend {
    const chain: Chain
    const positions: PositionsRepository
    const transactions: TransactionsRepository
    ghost var state: State
    ghost var history: seq<Step>

    ghost predicate Valid()
      reads this, positions, transactions
    {
      Reached(chain, history, state) && state.tables == Tables(positions.rows, transactions.rows)
    }

    constructor (chain: Chain)
      ensures Valid() && history == []
      ensures this.chain == chain && fresh(positions) && fresh(transactions)
    {
      this.chain := chain;
      positions := new PositionsRepository();
      transactions := new TransactionsRepository();
      state, history := Init, [];
    }

    /** One block of the machine, taken when the repositories hold the rows it leaves. */
    ghost method Take(step: Step)
      requires Reached(chain, history, state) && Enabled(chain, state, step)
      requires Apply(chain, state, step).tables == Tables(positions.rows, transactions.rows)
      modifies this
      ensures Valid() && state == Apply(chain, old(state), step) && history == old(history) + [step]
    {
      ExecAppends(chain, Anything, Init, history, step);
      state, history := Apply(chain, state, step), history + [step];
    }

    /** One turn of handler `id`, likewise. */
    ghost method TakeTurn(id: Id, act: Act)
      requires Reached(chain, history, state) && id in state.handlers
      requires CanAct(chain, state.tables, id, state.handlers[id], act)
      requires Perform(chain, state.tables, id, state.handlers[id], act).tables ==
          Tables(positions.rows, transactions.rows)
      modifies this
      ensures Valid() && history == old(history) + [Handle(id, act)]
      ensures id in state.handlers
      ensures
        var turn := Perform(chain, old(state).tables, id, old(state).handlers[id], act);
        state.tables == turn.tables && state.handlers[id] == turn.handler
    {
      Take(Handle(id, act));
    }

    /** Whatever the other actors do between two blocks of handler `id`. */
    method OthersThanHandler(id: Id, ghost alone: bool)
      requires Valid() && id in state.handlers
      modifies this, positions, transactions
      ensures Valid() && old(history) <= history
      ensures id in state.handlers && state.handlers[id] == old(state).handlers[id]
      ensures alone ==> state == old(state)
    {
    }

    /** One piece of work of pass `p`, likewise. */
    ghost method TakeWork(p: nat, move: Move)
      requires Reached(chain, history, state) && p in state.passes && state.passes[p].todo != []
      requires CanWork(chain, state.tables, state.passes[p].todo[0], move)
      requires DoWork(chain, state.tables, state.passes[p].todo[0], move).tables ==
          Tables(positions.rows, transactions.rows)
      modifies this
      ensures Valid() && history == old(history) + [Drive(p, move)]
      ensures p in state.passes
      ensures
        var pass := old(state).passes[p];
        var stage := DoWork(chain, old(state).tables, pass.todo[0], move);
        state.tables == stage.tables && state.passes[p] == pass.(todo := stage.more + pass.todo[1..])
    {
      Take(Drive(p, move));
    }

    /** Whatever the other actors do between two pieces of work of pass `p`. */
    method OthersThanPass(p: nat, ghost alone: bool)
      requires Valid() && p in state.passes
      modifies this, positions, transactions
      ensures Valid() && old(history) <= history
      ensures p in state.passes && state.passes[p] == old(state).passes[p]
      ensures alone ==>
        && state == old(state)
        && transactions.createdAt == old(transactions.createdAt)
           && transactions.updatedAt == old(transactions.updatedAt)
    {
    }

    // ----- deposits

    /** `assertNoDuplicateDeposit`, and the same two reads at the start of the reservation. */
    method DepositInProgress(position: PositionKey) returns (blocked: bool)
      ensures blocked == DepositBlocked(Tables(positions.rows, transactions.rows), position)
    {
      var existing := positions.Find(position);
      if existing.Some? && existing.value.status == PENDING {
        return true;
      }
      var open := transactions.FindOpen(DEPOSIT, position);
      return open.Some?;
    }

    method ReserveDeposit(id: Id, position: PositionKey, amount: nat) returns (blocked: bool, isNew: bool)
      requires Valid() && id in state.handlers && state.handlers[id].position == position
      requires state.handlers[id].request == DepositRequest(amount)
      requires CanAct(chain, state.tables, id, state.handlers[id], StartDeposit)
      modifies this, positions, transactions
      ensures Valid() && history == old(history) + [Handle(id, StartDeposit)]
      ensures id in state.handlers
      ensures
        var turn := Perform(chain, old(state).tables, id, old(state).handlers[id], StartDeposit);
        state.tables == turn.tables && state.handlers[id] == turn.handler
      ensures blocked == DepositBlocked(old(state).tables, position)
      ensures !blocked ==> isNew == (position !in old(state).tables.positions)
    {
      ReachedHasRows(chain, history, state, id);
      isNew := false;
      blocked := DepositInProgress(position);
      if !blocked {
        var existing := positions.Find(position);
        if existing.None? {
          positions.CreatePending(position);
          isNew := true;
        }
        transactions.Create(id, DEPOSIT, position, amount, Metadata(Some(PreviewDepositShares(amount)), None));
      }
      TakeTurn(id, StartDeposit);
    }

    method ConfirmDeposit(id: Id, position: PositionKey, amount: nat, hash: Hash, isNew: bool)
      requires Valid() && id in state.handlers
      requires
        var h := state.handlers[id];
        h.position == position && h.request == DepositRequest(amount) && h.amount == amount
        && h.shares == PreviewDepositShares(amount) && h.isNew == isNew && h.hash == hash
           && CanAct(chain, state.tables, id, h, Confirm)
      modifies this, positions, transactions
      ensures Valid() && history == old(history) + [Handle(id, Confirm)]
      ensures id in state.handlers
      ensures
        var turn := Perform(chain, old(state).tables, id, old(state).handlers[id], Confirm);
        state.tables == turn.tables && state.handlers[id] == turn.handler
    {
      var shares := PreviewDepositShares(amount);
      var applied := transactions.ConfirmSubmitted(id, chain[hash].blockNumber, Metadata(Some(shares), None));
      if applied {
        if isNew {
          positions.Activate(position, amount, amount, shares);
        } else {
          positions.AddDeposit(position, amount, amount, shares);
        }
      }
      TakeTurn(id, Confirm);
    }

    method MarkSubmitted(id: Id, hash: Hash, metadata: Metadata)
      requires Valid() && id in state.handlers
      requires
        var h := state.handlers[id];
        h.hash == hash && metadata == SubmittedMetadata(h) && CanAct(chain, state.tables, id, h, Submit)
      modifies this, positions, transactions
      ensures Valid() && history == old(history) + [Handle(id, Submit)]
      ensures id in state.handlers
      ensures
        var turn := Perform(chain, old(state).tables, id, old(state).handlers[id], Submit);
        state.tables == turn.tables && state.handlers[id] == turn.handler
    {
      transactions.MarkSubmitted(id, hash, metadata);
      TakeTurn(id, Submit);
    }

    /** A reverted deposit fails its new position first and then marks the row. */
    method RevertDeposit(id: Id, position: PositionKey, amount: nat, hash: Hash, isNew: bool, ghost alone: bool)
      requires Valid() && id in state.handlers
      requires
        var h := state.handlers[id];
        h.position == position && h.request == DepositRequest(amount) && h.isNew == isNew && h.hash == hash
        && CanAct(chain, state.tables, id, h, RevertFirst)
      modifies this, positions, transactions
      ensures Valid() && old(history) <= history
      ensures id in state.handlers && state.handlers[id] == old(state).handlers[id].(pc := Settled)
      ensures alone ==> HasRows(old(state).tables, id, old(state).handlers[id])
      ensures alone ==>
          state.tables == MarkReverted(FailNew(old(state).tables, position, isNew), id, chain[hash].blockNumber)
    {
      if isNew {
        positions.MarkFailed(position);
      }
      TakeTurn(id, RevertFirst);
      OthersThanHandler(id, alone);
      ReachedHasRows(chain, history, state, id);
      transactions.MarkReverted(id, chain[hash].blockNumber);
      TakeTurn(id, RevertSecond);
    }

    /** The first write of either catch arm. */
    method FailTransaction(id: Id, ghost alone: bool)
      requires Valid() && id in state.handlers && CanAct(chain, state.tables, id, state.handlers[id], Throw)
      modifies this, positions, transactions
      ensures Valid() && old(history) <= history
      ensures id in state.handlers && state.handlers[id] == old(state).handlers[id].(pc := CatchPosition)
      ensures alone ==> id in old(state).tables.transactions && state.tables == Blocks.MarkFailed(old(state).tables, id)
    {
      TakeTurn(id, Throw);
      OthersThanHandler(id, alone);
      ReachedHasRows(chain, history, state, id);
      transactions.MarkFailed(id);
      TakeTurn(id, CatchFirst);
    }

    /** The catch arm of a deposit. */
    method FailDeposit(id: Id, position: PositionKey, amount: nat, isNew: bool, ghost alone: bool)
      requires Valid() && id in state.handlers
      requires
        var h := state.handlers[id];
        h.position == position && h.request == DepositRequest(amount) && h.isNew == isNew
            && CanAct(chain, state.tables, id, h, Throw)
      modifies this, positions, transactions
      ensures Valid() && old(history) <= history
      ensures id in state.handlers && state.handlers[id] == old(state).handlers[id].(pc := Finished(false))
      ensures alone ==> HasRows(old(state).tables, id, old(state).handlers[id])
      ensures alone ==> state.tables == FailNew(Blocks.MarkFailed(old(state).tables, id), position, isNew)
    {
      FailTransaction(id, alone);
      OthersThanHandler(id, alone);
      ReachedHasRows(chain, history, state, id);
      if isNew {
        positions.MarkFailed(position);
      }
      TakeTurn(id, CatchSecond);
    }

    /** From the reservation to the hash on the row; false when the send threw. */
    method SubmitDeposit(id: Id, amount: nat, hash: Hash, ghost alone: bool)
      requires Valid() && id in state.handlers
      requires
        var h := state.handlers[id];
        h.request == DepositRequest(amount) && h.shares == PreviewDepositShares(amount) && h.alive && h.pc == Reserved
      modifies this, positions, transactions
      ensures Valid() && old(history) <= history
      ensures id in state.handlers && state.handlers[id] == old(state).handlers[id].(pc := Submitted, hash := hash)
      ensures alone ==> id in old(state).tables.transactions
      ensures alone ==> state.tables == Blocks.MarkSubmitted(old(state).tables, id, hash, Metadata(Some(amount), None))
    {
      TakeTurn(id, Send(hash));
      OthersThanHandler(id, alone);
      ReachedHasRows(chain, history, state, id);
      MarkSubmitted(id, hash, Metadata(Some(PreviewDepositShares(amount)), None));
    }

    /** The checks and the reservation; false is one of the exceptions before the first write. */
    method BeginDeposit(id: Id, position: PositionKey, amount: nat, funded: bool, ghost alone: bool)
      returns (begun: bool, isNew: bool)
      requires Valid() && id !in state.handlers
      modifies this, positions, transactions
      ensures Valid() && old(history) <= history && id in state.handlers
      ensures !begun ==> state.handlers[id].pc == Finished(false)
      ensures begun ==>
        var h := state.handlers[id];
        h.position == position && h.request == DepositRequest(amount) && h.amount == amount
            && h.shares == PreviewDepositShares(amount)
        && h.isNew == isNew && h.alive && h.pc == Reserved
      ensures alone ==> begun == (funded && !DepositBlocked(old(state).tables, position))
      ensures alone && begun ==> isNew == (position !in old(state).tables.positions)
      ensures alone ==>
        state.tables == if begun then Blocks.ReserveDeposit(old(state).tables, id, position, amount, amount)
            else old(state).tables
    {
      begun, isNew := false, false;
      Take(Arrive(id, DepositRequest(amount), position));
      if !funded {
        TakeTurn(id, Refuse);
        return;
      }
      OthersThanHandler(id, alone);
      var duplicate := DepositInProgress(position);
      TakeTurn(id, CheckDeposit);
      if duplicate {
        return;
      }
      OthersThanHandler(id, alone);
      var blocked;
      blocked, isNew := ReserveDeposit(id, position, amount);
      begun := !blocked;
    }

    /** The receipt and what it decides; the position and the row end as `SettledDeposit` says. */
    method SettleDeposit(id: Id, position: PositionKey, amount: nat, hash: Hash, isNew: bool, ghost alone: bool)
      requires Valid() && id in state.handlers && hash in chain
      requires
        var h := state.handlers[id];
        h.position == position && h.request == DepositRequest(amount) && h.amount == amount
            && h.shares == PreviewDepositShares(amount)
        && h.isNew == isNew && h.hash == hash && h.alive && h.pc == Submitted
      modifies this, positions, transactions
      ensures Valid() && old(history) <= history
      ensures id in state.handlers && state.handlers[id] == old(state).handlers[id].(pc := Finished(true))
      ensures alone ==> HasRows(old(state).tables, id, old(state).handlers[id])
      ensures alone ==>
        state.tables == SettledDeposit(old(state).tables, id, position, amount, isNew, chain[hash])
    {
      OthersThanHandler(id, alone);
      ReachedHasRows(chain, history, state, id);
      if chain[hash].success {
        ConfirmDeposit(id, position, amount, hash, isNew);
      } else {
        RevertDeposit(id, position, amount, hash, isNew, alone);
      }
      OthersThanHandler(id, alone);
      TakeTurn(id, Return);
    }

    method DepositVault(id: Id, position: PositionKey, amount: nat, walletBalance: nat, allowance: nat, world: World,
                        ghost alone: bool)
      returns (ok: bool)
      requires Valid() && id !in state.handlers
      modifies this, positions, transactions
      ensures Valid() && old(history) <= history
      ensures id in state.handlers && state.handlers[id].pc == Finished(ok)
      ensures ok ==> Arrives(chain, world)
      ensures alone ==>
        var accepted := amount <= walletBalance && amount <= allowance && !DepositBlocked(old(state).tables, position);
        && ok == (accepted && Arrives(chain, world))
        && state.tables == if accepted then Deposited(chain, old(state).tables, id, position, amount, world)
           else old(state).tables
    {
      var begun, isNew := BeginDeposit(id, position, amount, amount <= walletBalance && amount <= allowance, alone);
      if !begun {
        return false;
      }
      OthersThanHandler(id, alone);
      if world.broadcast.None? {
        FailDeposit(id, position, amount, isNew, alone);
        return false;
      }
      var hash := world.broadcast.value;
      SubmitDeposit(id, amount, hash, alone);
      OthersThanHandler(id, alone);
      if !world.receiptArrives || hash !in chain {
        FailDeposit(id, position, amount, isNew, alone);
        return false;
      }
      SettleDeposit(id, position, amount, hash, isNew, alone);
      return true;
    }

    // ----- withdraws

    /** The reservation; `begun` is false when another withdraw of the position is under way. */
    method ReserveWithdraw(id: Id, position: PositionKey, amount: int, shares: int) returns (blocked: bool)
      requires Valid() && id in state.handlers
      requires
        var h := state.handlers[id];
        h.position == position && h.amount == amount && h.shares == shares
            && CanAct(chain, state.tables, id, h, StartWithdraw)
      modifies this, positions, transactions
      ensures Valid() && history == old(history) + [Handle(id, StartWithdraw)]
      ensures blocked == HasOpenWithdraw(old(state).tables.transactions, position)
      ensures id in state.handlers
      ensures
        var turn := Perform(chain, old(state).tables, id, old(state).handlers[id], StartWithdraw);
        state.tables == turn.tables && state.handlers[id] == turn.handler
    {
      ReachedHasRows(chain, history, state, id);
      var open := transactions.FindOpen(WITHDRAW, position);
      blocked := open.Some?;
      if !blocked {
        positions.MarkWithdrawing(position);
        transactions.Create(id, WITHDRAW, position, amount, Metadata(None, Some(shares)));
      }
      TakeTurn(id, StartWithdraw);
    }

    /** The first read of the position and what is computed from it; None is one of the exceptions. */
    method CheckWithdraw(id: Id, position: PositionKey, request: Request, onChainShares: nat)
      returns (terms: Option<(int, int)>)
      requires Valid() && id in state.handlers && request.WithdrawRequest?
      requires
        var h := state.handlers[id];
        h.position == position && h.request == request && h.alive && h.pc == Ready
      modifies this, positions, transactions
      ensures Valid() && history == old(history) + [Handle(id, Act.CheckWithdraw(onChainShares))]
      ensures id in state.handlers && state.tables == old(state).tables
      ensures terms ==
        (if position !in state.tables.positions || state.tables.positions[position].status != ACTIVE then None
         else WithdrawTerms(state.tables.positions[position], request, onChainShares))
      ensures terms.None? ==> state.handlers[id].pc == Finished(false)
      ensures terms.Some? ==>
        var h := state.handlers[id];
        h.position == position && h.request == request && h.alive && h.pc == Checked
            && (h.amount, h.shares) == terms.value
    {
      var found := positions.Find(position);
      terms := None;
      if found.Some? && found.value.status == ACTIVE {
        terms := WithdrawTerms(found.value, request, onChainShares);
      }
      TakeTurn(id, Act.CheckWithdraw(onChainShares));
    }

    /** The second check for an open withdraw, and the reservation, which checks once more. */
    method ReserveUnlessOpen(id: Id, position: PositionKey, amount: int, shares: int, ghost alone: bool)
      returns (reserved: bool)
      requires Valid() && id in state.handlers
      requires
        var h := state.handlers[id];
        h.position == position && h.amount == amount && h.shares == shares && h.alive && h.pc == Checked
      modifies this, positions, transactions
      ensures Valid() && old(history) <= history
      ensures id in state.handlers
      ensures state.handlers[id] == old(state).handlers[id].(pc := if reserved then Reserved else Finished(false))
      ensures alone ==> reserved == !HasOpenWithdraw(old(state).tables.transactions, position)
      ensures alone && reserved ==> position in old(state).tables.positions
      ensures alone ==>
        state.tables == if reserved then Blocks.ReserveWithdraw(old(state).tables, id, position, amount, shares)
            else old(state).tables
    {
      var open := transactions.FindOpen(WITHDRAW, position);
      TakeTurn(id, CheckOpenWithdraw);
      if open.Some? {
        return false;
      }
      OthersThanHandler(id, alone);
      ReachedHasRows(chain, history, state, id);
      var blocked := ReserveWithdraw(id, position, amount, shares);
      return !blocked;
    }

    method BeginWithdraw(id: Id, position: PositionKey, request: Request, onChainShares: nat, ghost alone: bool)
      returns (begun: Option<(int, int)>)
      requires Valid() && id !in state.handlers && request.WithdrawRequest?
      modifies this, positions, transactions
      ensures Valid() && old(history) <= history && id in state.handlers
      ensures begun.None? ==> state.handlers[id].pc == Finished(false)
      ensures begun.Some? ==>
        var h := state.handlers[id];
        h.position == position && h.request == request && (h.amount, h.shares) == begun.value && h.alive
            && h.pc == Reserved
      ensures alone ==> begun == AcceptedWithdraw(old(state).tables, position, request, onChainShares)
      ensures alone && begun.None? ==> state.tables == old(state).tables
      ensures alone && begun.Some? ==>
        state.tables == Blocks.ReserveWithdraw(old(state).tables, id, position, begun.value.0, begun.value.1)
    {
      Take(Arrive(id, request, position));
      OthersThanHandler(id, alone);
      begun := CheckWithdraw(id, position, request, onChainShares);
      if begun.None? {
        return;
      }
      OthersThanHandler(id, alone);
      var reserved := ReserveUnlessOpen(id, position, begun.value.0, begun.value.1, alone);
      if !reserved {
        return None;
      }
    }

    method SubmitWithdraw(id: Id, shares: int, hash: Hash, ghost alone: bool)
      requires Valid() && id in state.handlers
      requires
        var h := state.handlers[id];
        h.request.WithdrawRequest? && h.shares == shares && h.alive && h.pc == Reserved
      modifies this, positions, transactions
      ensures Valid() && old(history) <= history
      ensures id in state.handlers && state.handlers[id] == old(state).handlers[id].(pc := Submitted, hash := hash)
      ensures alone ==> id in old(state).tables.transactions
      ensures alone ==> state.tables == Blocks.MarkSubmitted(old(state).tables, id, hash, Metadata(None, Some(shares)))
    {
      TakeTurn(id, Send(hash));
      OthersThanHandler(id, alone);
      ReachedHasRows(chain, history, state, id);
      MarkSubmitted(id, hash, Metadata(None, Some(shares)));
    }

    method ConfirmWithdraw(id: Id, position: PositionKey, amount: int, shares: int, hash: Hash)
      requires Valid() && id in state.handlers
      requires
        var h := state.handlers[id];
        h.position == position && h.request.WithdrawRequest? && h.amount == amount && h.shares == shares
            && h.hash == hash
        && CanAct(chain, state.tables, id, h, Confirm)
      modifies this, positions, transactions
      ensures Valid() && history == old(history) + [Handle(id, Confirm)]
      ensures id in state.handlers
      ensures
        var turn := Perform(chain, old(state).tables, id, old(state).handlers[id], Confirm);
        state.tables == turn.tables && state.handlers[id] == turn.handler
    {
      var applied := transactions.ConfirmSubmitted(id, chain[hash].blockNumber, Metadata(None, Some(shares)));
      if applied {
        var found := positions.SubtractWithdraw(position, amount, shares);
      }
      TakeTurn(id, Confirm);
    }

    /**
     A reverted withdraw marks the row first and then frees the position: a crash between the two leaves it
     WITHDRAWING.
     */
    method RevertWithdraw(id: Id, position: PositionKey, hash: Hash, ghost alone: bool)
      requires Valid() && id in state.handlers
      requires
        var h := state.handlers[id];
        h.position == position && h.request.WithdrawRequest? && h.hash == hash
            && CanAct(chain, state.tables, id, h, RevertFirst)
      modifies this, positions, transactions
      ensures Valid() && old(history) <= history
      ensures id in state.handlers && state.handlers[id] == old(state).handlers[id].(pc := Settled)
      ensures alone ==> HasRows(old(state).tables, id, old(state).handlers[id])
      ensures alone ==>
          state.tables == SetStatus(MarkReverted(old(state).tables, id, chain[hash].blockNumber), position, ACTIVE)
    {
      transactions.MarkReverted(id, chain[hash].blockNumber);
      TakeTurn(id, RevertFirst);
      OthersThanHandler(id, alone);
      ReachedHasRows(chain, history, state, id);
      positions.MarkActive(position);
      TakeTurn(id, RevertSecond);
    }

    /** The catch arm of a withdraw. */
    method FailWithdraw(id: Id, position: PositionKey, ghost alone: bool)
      requires Valid() && id in state.handlers
      requires
        var h := state.handlers[id];
        h.position == position && h.request.WithdrawRequest? && CanAct(chain, state.tables, id, h, Throw)
      modifies this, positions, transactions
      ensures Valid() && old(history) <= history
      ensures id in state.handlers && state.handlers[id] == old(state).handlers[id].(pc := Finished(false))
      ensures alone ==> HasRows(old(state).tables, id, old(state).handlers[id])
      ensures alone ==> state.tables == SetStatus(Blocks.MarkFailed(old(state).tables, id), position, ACTIVE)
    {
      FailTransaction(id, alone);
      OthersThanHandler(id, alone);
      ReachedHasRows(chain, history, state, id);
      positions.MarkActive(position);
      TakeTurn(id, CatchSecond);
    }

    method SettleWithdraw(id: Id, position: PositionKey, amount: int, shares: int, hash: Hash, ghost alone: bool)
      requires Valid() && id in state.handlers && hash in chain
      requires
        var h := state.handlers[id];
        h.position == position && h.request.WithdrawRequest? && h.amount == amount && h.shares == shares
            && h.hash == hash
        && h.alive && h.pc == Submitted
      modifies this, positions, transactions
      ensures Valid() && old(history) <= history
      ensures id in state.handlers && state.handlers[id] == old(state).handlers[id].(pc := Finished(true))
      ensures alone ==> HasRows(old(state).tables, id, old(state).handlers[id])
      ensures alone ==> state.tables == SettledWithdraw(old(state).tables, id, position, amount, shares, chain[hash])
    {
      OthersThanHandler(id, alone);
      ReachedHasRows(chain, history, state, id);
      if chain[hash].success {
        ConfirmWithdraw(id, position, amount, shares, hash);
      } else {
        RevertWithdraw(id, position, hash, alone);
      }
      OthersThanHandler(id, alone);
      TakeTurn(id, Return);
    }

    method WithdrawPosition(id: Id, position: PositionKey, request: Request, onChainShares: nat, world: World,
                            ghost alone: bool)
      returns (ok: bool)
      requires Valid() && id !in state.handlers && request.WithdrawRequest?
      modifies this, positions, transactions
      ensures Valid() && old(history) <= history
      ensures id in state.handlers && state.handlers[id].pc == Finished(ok)
      ensures ok ==> Arrives(chain, world)
      ensures alone ==>
        var terms := AcceptedWithdraw(old(state).tables, position, request, onChainShares);
        && ok == (terms.Some? && Arrives(chain, world))
        && state.tables == if terms.None? then old(state).tables
                           else Withdrew(chain, old(state).tables, id, position, terms.value.0, terms.value.1, world)
    {
      var begun := BeginWithdraw(id, position, request, onChainShares, alone);
      if begun.None? {
        return false;
      }
      var (amount, shares) := begun.value;
      OthersThanHandler(id, alone);
      if world.broadcast.None? {
        FailWithdraw(id, position, alone);
        return false;
      }
      var hash := world.broadcast.value;
      SubmitWithdraw(id, shares, hash, alone);
      OthersThanHandler(id, alone);
      if !world.receiptArrives || hash !in chain {
        FailWithdraw(id, position, alone);
        return false;
      }
      SettleWithdraw(id, position, amount, shares, hash, alone);
      return true;
    }
  }

  /** Whatever methods ran in whatever interleaving, the rows they leave are in lockstep and no balance is negative. */
  lemma RowsAreInLockstep(b: Backend, k: PositionKey)
    requires b.Valid() && k in b.positions.rows
    ensures
      var p := b.positions.rows[k];
      p.shares == p.currentAmount == p.depositedAmount >= 0
          && (p.status == PENDING || p.status == CLOSED ==> p.shares == 0)
  {
    Lockstep(b.chain, Anything, b.history, k);
  }

  /** Every CONFIRMED row was mined with success, and every row's balance change is logged at most once. */
  lemma RowsFollowTheChain(b: Backend, t: Id)
    requires b.Valid() && t in b.transactions.rows
    ensures b.transactions.rows[t].status == TransactionStatus.CONFIRMED ==>
        Succeeded(b.chain, b.transactions.rows[t].txHash)
    ensures forall i, j | 0 <= i < j < |b.state.log| :: b.state.log[i].id != b.state.log[j].id
  {
    ReceiptsDecide(b.chain, Anything, b.history, t);
    RunFromInit(b.chain, Anything, b.history);
  }

  /** When the steps taken meet assumptions, the history is a run under them, and what is proved of such runs holds. */
  lemma HistoryObeys(b: Backend, a: Assumptions)
    requires b.Valid() && ObeyedBy(b.chain, a, Init, b.history)
    ensures Legal(b.chain, a, Init, b.history) && Exec(b.chain, a, Init, b.history) == b.state
  {
    ObeyingRunIsLegal(b.chain, a, Init, b.history);
  }

  /** Under A3 and A5 the rows hold exactly what the log says. */
  lemma RowsAreConserved(b: Backend, a: Assumptions, k: PositionKey)
    requires b.Valid() && ObeyedBy(b.chain, a, Init, b.history) && a.sweepsOnlyDead && a.reservesCovered
    requires k in b.positions.rows
    ensures b.positions.rows[k].shares == Net(b.state.log, k)
  {
    HistoryObeys(b, a);
    BalancesAreConserved(b.chain, a, b.history, k);
  }
}
