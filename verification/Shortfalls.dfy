/**
 Runs that show where the code falls short of its documentation, and where an assumption is needed.
 Each run starts from empty tables and obeys every assumption but the one it is about.
 */
module Shortfalls {
  import opened Options
  import opened Rows
  import opened Blocks
  import opened Protocol
  import opened Invariants
  import opened Balances
  import opened Conservation
  import opened Recovery
  import opened Runs
  import opened Stranding

  const K := PositionKey(1, 1)

  /** Three hashes mined with success and one that reverted. */
  const Mined: Chain :=
    map[7 := Receipt(true, 100), 8 := Receipt(true, 101), 9 := Receipt(true, 102), 10 := Receipt(false, 103)]

  ghost predicate Reaches(a: Assumptions, steps: seq<Step>, s: State) {
    Legal(Mined, a, Init, steps) && Exec(Mined, a, Init, steps) == s
  }

  lemma Take(a: Assumptions, steps: seq<Step>, s: State, step: Step) returns (longer: seq<Step>, s': State)
    requires Reaches(a, steps, s) && Enabled(Mined, s, step) && Obeys(a, s, step)
    ensures s' == Apply(Mined, s, step) && Reaches(a, longer, s')
  {
    ExecAppends(Mined, a, Init, steps, step);
    longer, s' := steps + [step], Apply(Mined, s, step);
  }

  lemma Turn(a: Assumptions, steps: seq<Step>, s: State, id: Id, act: Act) returns (longer: seq<Step>, s': State)
    requires Reaches(a, steps, s) && id in s.handlers && CanAct(Mined, s.tables, id, s.handlers[id], act)
    requires Obeys(a, s, Handle(id, act))
    ensures
      var turn := Perform(Mined, s.tables, id, s.handlers[id], act);
      s' == State(turn.tables, s.handlers[id := turn.handler], s.passes, s.log + turn.moved)
    ensures Reaches(a, longer, s')
  {
    longer, s' := Take(a, steps, s, Handle(id, act));
  }

  function SubmittedHandler(amount: nat, hash: Hash, isNew: bool): Handler {
    Handler(DepositRequest(amount), K, Unseen, amount, amount, isNew, hash, Submitted, true)
  }

  lemma ReserveDepositRun(a: Assumptions, steps: seq<Step>, s: State, id: Id, amount: nat)
    returns (longer: seq<Step>, s': State)
    requires Reaches(a, steps, s) && id !in s.handlers && !DepositBlocked(s.tables, K)
    ensures Reaches(a, longer, s') && s'.passes == s.passes && s'.log == s.log
    ensures s'.handlers == s.handlers[id := SubmittedHandler(amount, 0, K !in s.tables.positions).(pc := Reserved)]
    ensures s'.tables == ReserveDeposit(s.tables, id, K, amount, amount)
  {
    longer, s' := Take(a, steps, s, Arrive(id, DepositRequest(amount), K));
    longer, s' := Turn(a, longer, s', id, StartDeposit);
    assert s'.handlers == s.handlers[id := SubmittedHandler(amount, 0, K !in s.tables.positions).(pc := Reserved)];
  }

  lemma SubmitRun(a: Assumptions, steps: seq<Step>, s: State, id: Id, amount: nat, hash: Hash, isNew: bool)
    returns (longer: seq<Step>, s': State)
    requires Reaches(a, steps, s) && id in s.handlers
    requires s.handlers[id] == SubmittedHandler(amount, 0, isNew).(pc := Reserved)
    requires id in s.tables.transactions && K in s.tables.positions
    ensures Reaches(a, longer, s') && s'.passes == s.passes && s'.log == s.log
    ensures s'.handlers == s.handlers[id := SubmittedHandler(amount, hash, isNew)]
    ensures s'.tables == MarkSubmitted(s.tables, id, hash, Metadata(Some(amount), None))
  {
    longer, s' := Turn(a, steps, s, id, Send(hash));
    longer, s' := Turn(a, longer, s', id, Submit);
    assert s'.handlers == s.handlers[id := SubmittedHandler(amount, hash, isNew)];
  }

  /** Request `id`, whose hash was mined with success, confirms its deposit. */
  lemma ConfirmDepositRun(a: Assumptions, steps: seq<Step>, s: State, id: Id, amount: nat, hash: Hash, isNew: bool)
    returns (longer: seq<Step>, s': State)
    requires Reaches(a, steps, s) && id in s.handlers && s.handlers[id] == SubmittedHandler(amount, hash, isNew)
    requires id in s.tables.transactions && K in s.tables.positions && hash in Mined && Mined[hash].success
    requires s.tables.transactions[id].status == TransactionStatus.SUBMITTED
    ensures Reaches(a, longer, s') && s'.passes == s.passes
    ensures s'.handlers == s.handlers[id := SubmittedHandler(amount, hash, isNew).(pc := Settled)]
    ensures s'.log == s.log + [Entry(id, K, true, amount, s.tables.positions[K].shares)]
    ensures
      var row := s.tables.positions[K];
      s'.tables.positions ==
      s.tables.positions[K := if isNew then Activated(amount, amount, amount)
          else Increased(row, amount, amount, amount)]
    ensures id in s'.tables.transactions
    ensures s'.tables.transactions == s.tables.transactions[id := s'.tables.transactions[id]]
    ensures
      var t, t' := s.tables.transactions[id], s'.tables.transactions[id];
      t'.status == TransactionStatus.CONFIRMED && t'.kind == t.kind && t'.position == t.position
          && t'.amount == t.amount
  {
    longer, s' := Turn(a, steps, s, id, Confirm);
  }

  /** Request 0 makes the first deposit, of 5, and confirms it. */
  lemma FirstDeposit(a: Assumptions) returns (steps: seq<Step>, s: State)
    ensures Reaches(a, steps, s)
    ensures s.handlers.Keys == {0} && s.passes == map[] && s.tables.transactions.Keys == {0}
    ensures s.tables.positions == map[K := Activated(5, 5, 5)] && s.log == [Entry(0, K, true, 5, 0)]
    ensures s.tables.transactions[0].status == TransactionStatus.CONFIRMED
    ensures s.handlers[0] == SubmittedHandler(5, 7, true).(pc := Settled)
  {
    steps, s := ReserveDepositRun(a, [], Init, 0, 5);
    steps, s := SubmitRun(a, steps, s, 0, 5, 7, true);
    steps, s := ConfirmDepositRun(a, steps, s, 0, 5, 7, true);
  }

  /** Pass `p` lists request `id`, whose hash was mined, and reconciles it. */
  lemma PassRun(a: Assumptions, steps: seq<Step>, s: State, p: nat, id: Id) returns (longer: seq<Step>, s': State)
    requires Reaches(a, steps, s) && p !in s.passes && id in s.tables.transactions
    requires IsPendingReconciliation(s.tables.transactions[id]) && s.tables.transactions[id].txHash.value in Mined
    ensures Reaches(a, longer, s') && s'.handlers == s.handlers
    ensures
      var t := s.tables.transactions[id];
      var effect := Reconcile(s.tables, id, t, Mined[t.txHash.value]);
      s'.tables == effect.tables && s'.log == s.log + effect.moved
  {
    longer, s' := Take(a, steps, s, StartPass(p, []));
    longer, s' := Take(a, longer, s', Drive(p, ListPending([id])));
    assert s'.passes[p].todo == [Settle(id, s.tables.transactions[id])];
    longer, s' := Take(a, longer, s', Drive(p, Reconciled));
  }

  /** A top-up confirmed by a pass is never credited, although every assumption holds. */
  lemma TopUpLost() returns (steps: seq<Step>, s: State)
    ensures Reaches(Everything, steps, s)
    ensures 1 in s.tables.transactions && s.tables.transactions[1].kind == DEPOSIT
    ensures s.tables.transactions[1].amount == 3
    ensures s.tables.transactions[1].status == TransactionStatus.CONFIRMED
    ensures s.tables.positions == map[K := Activated(5, 5, 5)]
  {
    steps, s := FirstDeposit(Everything);
    steps, s := ReserveDepositRun(Everything, steps, s, 1, 3);
    steps, s := SubmitRun(Everything, steps, s, 1, 3, 8, false);
    steps, s := PassRun(Everything, steps, s, 0, 1);
  }

  /** Without A4: a late throw turns a credited row FAILED, and the request fails. */
  lemma LateThrowForgetsCredit() returns (steps: seq<Step>, s: State)
    ensures Reaches(Everything.(noLateThrow := false), steps, s)
    ensures s.log == [Entry(0, K, true, 5, 0)] && 0 in s.tables.transactions && 0 in s.handlers
    ensures s.tables.transactions[0].status == TransactionStatus.FAILED && s.handlers[0].pc == Finished(false)
  {
    var a := Everything.(noLateThrow := false);
    steps, s := FirstDeposit(a);
    steps, s := Turn(a, steps, s, 0, Throw);
    steps, s := Turn(a, steps, s, 0, CatchFirst);
    steps, s := Turn(a, steps, s, 0, CatchSecond);
  }

  /** Request 0 reserves a first deposit of 5 and is swept while it lives. */
  lemma SweptFirstDeposit(a: Assumptions) returns (steps: seq<Step>, s: State)
    requires !a.sweepsOnlyDead
    ensures Reaches(a, steps, s) && s.log == []
    ensures s.handlers == map[0 := SubmittedHandler(5, 0, true).(pc := Reserved)]
    ensures s.tables.positions == map[K := FailedPosition] && s.tables.transactions.Keys == {0}
    ensures s.tables.transactions[0].status == TransactionStatus.FAILED
  {
    steps, s := ReserveDepositRun(a, [], Init, 0, 5);
    steps, s := SweepRun(a, steps, s, 0);
  }

  /** Request 0 is swept while it lives, and request 1 deposits 3 into the position it created. */
  lemma SweptAndFollowed(a: Assumptions) returns (steps: seq<Step>, s: State)
    requires !a.sweepsOnlyDead
    ensures Reaches(a, steps, s) && s.log == [Entry(1, K, true, 3, 0)]
    ensures s.tables.positions == map[K := Activated(3, 3, 3)]
    ensures 0 in s.handlers && s.handlers[0] == SubmittedHandler(5, 0, true).(pc := Reserved)
    ensures 0 in s.tables.transactions
  {
    steps, s := SweptFirstDeposit(a);
    assert !DepositBlocked(s.tables, K);
    steps, s := ReserveDepositRun(a, steps, s, 1, 3);
    steps, s := SubmitRun(a, steps, s, 1, 3, 8, false);
    steps, s := ConfirmDepositRun(a, steps, s, 1, 3, 8, false);
  }

  /** Without A3: a swept but live first deposit later overwrites the balance of the deposit that followed it. */
  lemma SweptHandlerOverwrites() returns (steps: seq<Step>, s: State)
    ensures Reaches(Everything.(sweepsOnlyDead := false), steps, s)
    ensures Shares(s.tables, K) == 5 && Net(s.log, K) == 8
  {
    var a := Everything.(sweepsOnlyDead := false);
    steps, s := SweptAndFollowed(a);
    var first := s.log;
    steps, s := SubmitRun(a, steps, s, 0, 5, 7, true);
    steps, s := ConfirmDepositRun(a, steps, s, 0, 5, 7, true);
    NetGrows([], first, K);
    NetGrows(first, [Entry(0, K, true, 5, 3)], K);
  }

  /** A pass sweeps the first deposit `id`, which is still CREATED, and fails its PENDING position. */
  lemma SweepRun(a: Assumptions, steps: seq<Step>, s: State, id: Id) returns (longer: seq<Step>, s': State)
    requires Reaches(a, steps, s) && !a.sweepsOnlyDead && s.passes == map[]
    requires id in s.tables.transactions
    requires s.tables.transactions[id] == NewTransaction(DEPOSIT, K, 5, Metadata(Some(5), None))
    requires K in s.tables.positions && s.tables.positions[K] == PendingPosition()
    ensures Reaches(a, longer, s') && s'.handlers == s.handlers && s'.log == s.log
    ensures s'.tables == SetStatus(MarkFailed(s.tables, id), K, PositionStatus.FAILED)
  {
    longer, s' := Take(a, steps, s, StartPass(0, [id]));
    assert s'.passes[0].todo == [FailStale(id, s.tables.transactions[id])];
    longer, s' := Take(a, longer, s', Drive(0, Sweep));
    assert s'.passes[0].todo == [ReadStale(id, K)];
    longer, s' := Take(a, longer, s', Drive(0, Sweep));
    assert s'.passes[0].todo == [MarkStale(id, K)];
    longer, s' := Take(a, longer, s', Drive(0, Sweep));
  }

  function FullWithdrawHandler(balance: int, hash: Hash, pc: Pc): Handler {
    Handler(WithdrawRequest(true, None), K, Activated(balance, balance, balance), balance, balance, false, hash, pc,
        true)
  }

  /** Request `id` reads the position and passes the checks of a full withdraw. */
  lemma ReadRun(a: Assumptions, steps: seq<Step>, s: State, id: Id, balance: nat) returns (longer: seq<Step>, s': State)
    requires Reaches(a, steps, s) && id !in s.handlers
    requires K in s.tables.positions && s.tables.positions[K] == Activated(balance, balance, balance)
    ensures Reaches(a, longer, s') && s'.passes == s.passes && s'.log == s.log && s'.tables == s.tables
    ensures s'.handlers == s.handlers[id := FullWithdrawHandler(balance, 0, Checked)]
  {
    longer, s' := Take(a, steps, s, Arrive(id, WithdrawRequest(true, None), K));
    longer, s' := Turn(a, longer, s', id, CheckWithdraw(balance));
    assert s'.handlers == s.handlers[id := FullWithdrawHandler(balance, 0, Checked)];
  }

  predicate CoveredOrFree(a: Assumptions, d: Tables, amount: int) {
    K in d.positions && (a.reservesCovered ==> amount <= d.positions[K].shares)
  }

  function WithdrawRow(balance: int, hash: Hash): Transaction {
    Transaction(WITHDRAW, TransactionStatus.SUBMITTED, K, balance, Some(hash), None, Metadata(None, Some(balance)))
  }

  /** A checked full withdraw is reserved. */
  lemma ReserveWithdrawRun(a: Assumptions, steps: seq<Step>, s: State, id: Id, balance: nat)
    returns (longer: seq<Step>, s': State)
    requires Reaches(a, steps, s) && id in s.handlers && s.handlers[id] == FullWithdrawHandler(balance, 0, Checked)
    requires CoveredOrFree(a, s.tables, balance) && !HasOpenWithdraw(s.tables.transactions, K)
    ensures Reaches(a, longer, s') && s'.passes == s.passes && s'.log == s.log
    ensures s'.handlers == s.handlers[id := FullWithdrawHandler(balance, 0, Reserved)]
    ensures s'.tables == ReserveWithdraw(s.tables, id, K, balance, balance)
  {
    longer, s' := Turn(a, steps, s, id, StartWithdraw);
  }

  /** A checked full withdraw is reserved and submitted. */
  lemma SubmitWithdrawRun(a: Assumptions, steps: seq<Step>, s: State, id: Id, balance: nat, hash: Hash)
    returns (longer: seq<Step>, s': State)
    requires Reaches(a, steps, s) && id in s.handlers && s.handlers[id] == FullWithdrawHandler(balance, 0, Checked)
    requires CoveredOrFree(a, s.tables, balance) && !HasOpenWithdraw(s.tables.transactions, K)
    ensures Reaches(a, longer, s') && s'.passes == s.passes && s'.log == s.log
    ensures s'.handlers == s.handlers[id := FullWithdrawHandler(balance, hash, Submitted)]
    ensures s'.tables.transactions == s.tables.transactions[id := WithdrawRow(balance, hash)]
    ensures s'.tables.positions == s.tables.positions[K := s.tables.positions[K].(status := WITHDRAWING)]
  {
    longer, s' := ReserveWithdrawRun(a, steps, s, id, balance);
    longer, s' := Turn(a, longer, s', id, Send(hash));
    longer, s' := Turn(a, longer, s', id, Submit);
    assert s'.handlers == s.handlers[id := FullWithdrawHandler(balance, hash, Submitted)];
    assert s'.tables.transactions == s.tables.transactions[id := WithdrawRow(balance, hash)];
  }

  /** After a finished deposit of 5, request 1 submits a full withdraw. */
  lemma FullWithdrawRun(hash: Hash) returns (steps: seq<Step>, s: State)
    ensures Reaches(Everything, steps, s) && s.passes == map[]
    ensures s.handlers.Keys == {0, 1} && s.handlers[0] == SubmittedHandler(5, 7, true).(pc := Finished(true))
    ensures s.handlers[1] == FullWithdrawHandler(5, hash, Submitted)
    ensures 0 in s.tables.transactions && s.tables.transactions[0].status == TransactionStatus.CONFIRMED
    ensures 1 in s.tables.transactions && s.tables.transactions[1] == WithdrawRow(5, hash)
    ensures s.tables.positions == map[K := Holding(WITHDRAWING, 5)]
  {
    steps, s := FirstDeposit(Everything);
    steps, s := Turn(Everything, steps, s, 0, Return);
    steps, s := ReadRun(Everything, steps, s, 1, 5);
    steps, s := SubmitWithdrawRun(Everything, steps, s, 1, 5, hash);
  }

  /**
   Request 1 submits a full withdraw of 5, which reverts, and dies between marking its row and freeing its position.
   */
  lemma HalfRevertedRun() returns (steps: seq<Step>, s: State)
    ensures Reaches(Everything, steps, s) && s.passes == map[]
    ensures s.handlers.Keys == {0, 1} && s.handlers[0] == SubmittedHandler(5, 7, true).(pc := Finished(true))
    ensures s.handlers[1] == FullWithdrawHandler(5, 10, Reverting).(alive := false)
    ensures 0 in s.tables.transactions && s.tables.transactions[0].status == TransactionStatus.CONFIRMED
    ensures 1 in s.tables.transactions && s.tables.transactions[1].kind == WITHDRAW
    ensures s.tables.transactions[1].status == TransactionStatus.REVERTED && s.tables.transactions[1].txHash == Some(10)
    ensures s.tables.positions == map[K := Holding(WITHDRAWING, 5)]
  {
    steps, s := FullWithdrawRun(10);
    steps, s := Turn(Everything, steps, s, 1, RevertFirst);
    steps, s := Turn(Everything, steps, s, 1, Crash);
  }

  /** The exception of the recovery results is reached, although every assumption holds. */
  lemma HalfRevertedIsReached() returns (steps: seq<Step>, s: State)
    ensures Reaches(Everything, steps, s) && Settling(Mined, s, 1, 5) && Stuck(s, 1, 5)
  {
    steps, s := HalfRevertedRun();
    RunFromInit(Mined, Everything, steps);
  }

  /** Request `id`, whose hash was mined with success, confirms its withdraw. */
  lemma ConfirmWithdrawRun(a: Assumptions, steps: seq<Step>, s: State, id: Id, balance: nat, hash: Hash)
    returns (longer: seq<Step>, s': State)
    requires Reaches(a, steps, s) && id in s.handlers && s.handlers[id] == FullWithdrawHandler(balance, hash, Submitted)
    requires id in s.tables.transactions && s.tables.transactions[id] == WithdrawRow(balance, hash)
    requires K in s.tables.positions && hash in Mined && Mined[hash].success
    ensures Reaches(a, longer, s') && s'.passes == s.passes
    ensures s'.handlers == s.handlers[id := FullWithdrawHandler(balance, hash, Settled)]
    ensures s'.log == s.log + [Entry(id, K, false, balance, s.tables.positions[K].shares)]
    ensures
      s'.tables.positions == s.tables.positions[K := Withdrawn(s.tables.positions[K], balance, balance)]
    ensures id in s'.tables.transactions && s'.tables.transactions[id].status == TransactionStatus.CONFIRMED
    ensures s'.tables.transactions == s.tables.transactions[id := s'.tables.transactions[id]]
  {
    longer, s' := Turn(a, steps, s, id, Confirm);
  }

  /** Without A5: two withdraws that both read a balance of 5 are both applied, and the second debit finds nothing. */
  lemma StaleReadOverdraws() returns (steps: seq<Step>, s: State)
    ensures Reaches(Everything.(reservesCovered := false), steps, s)
    ensures |s.log| == 3 && s.log[2] == Entry(2, K, false, 5, 0) && Net(s.log, K) == -5 && Shares(s.tables, K) == 0
  {
    var a := Everything.(reservesCovered := false);
    steps, s := FirstDeposit(a);
    var first := s.log;
    steps, s := ReadRun(a, steps, s, 1, 5);
    steps, s := ReadRun(a, steps, s, 2, 5);
    steps, s := SubmitWithdrawRun(a, steps, s, 1, 5, 8);
    steps, s := ConfirmWithdrawRun(a, steps, s, 1, 5, 8);
    steps, s := SubmitWithdrawRun(a, steps, s, 2, 5, 9);
    steps, s := ConfirmWithdrawRun(a, steps, s, 2, 5, 9);
    NetGrows([], first, K);
    NetGrows(first, [Entry(1, K, false, 5, 5)], K);
    NetGrows(first + [Entry(1, K, false, 5, 5)], [Entry(2, K, false, 5, 0)], K);
  }

  /** A withdraw confirmed by a pass after a top-up was credited is never debited, although every assumption holds. */
  lemma WithdrawLost() returns (steps: seq<Step>, s: State)
    ensures Reaches(Everything, steps, s)
    ensures 1 in s.tables.transactions && s.tables.transactions[1].kind == WITHDRAW
    ensures s.tables.transactions[1].amount == 5
    ensures s.tables.transactions[1].status == TransactionStatus.CONFIRMED
    ensures K in s.tables.positions && s.tables.positions[K] == Activated(8, 8, 8)
  {
    steps, s := FirstDeposit(Everything);
    steps, s := ReadRun(Everything, steps, s, 1, 5);
    steps, s := SubmitWithdrawRun(Everything, steps, s, 1, 5, 8);
    steps, s := ReserveDepositRun(Everything, steps, s, 2, 3);
    steps, s := SubmitRun(Everything, steps, s, 2, 3, 9, false);
    steps, s := ConfirmDepositRun(Everything, steps, s, 2, 3, 9, false);
    steps, s := PassRun(Everything, steps, s, 0, 1);
  }

  /**
   The sweep fails a stale withdraw but never frees its position: a crash before the broadcast leaves it WITHDRAWING.
   */
  lemma StaleWithdrawKeepsItsPosition() returns (steps: seq<Step>, s: State)
    ensures Reaches(Everything, steps, s)
    ensures 1 in s.tables.transactions && s.tables.transactions[1].status == TransactionStatus.FAILED
    ensures s.tables.positions == map[K := Activated(5, 5, 5).(status := WITHDRAWING)]
    ensures s.passes == map[0 := Pass(true, [])]
  {
    steps, s := FirstDeposit(Everything);
    steps, s := ReadRun(Everything, steps, s, 1, 5);
    steps, s := Turn(Everything, steps, s, 1, StartWithdraw);
    steps, s := Turn(Everything, steps, s, 1, Crash);
    steps, s := FailWithdrawRun(Everything, steps, s, 1);
  }

  /** A pass fails the stale withdraw `id`, whose handler has died, and leaves every position as it was. */
  lemma FailWithdrawRun(a: Assumptions, steps: seq<Step>, s: State, id: Id) returns (longer: seq<Step>, s': State)
    requires Reaches(a, steps, s) && s.passes == map[] && id in s.handlers && !s.handlers[id].alive
    requires id in s.tables.transactions && IsStale(s.tables.transactions[id])
    requires s.tables.transactions[id].kind == WITHDRAW
    ensures Reaches(a, longer, s') && s'.passes == map[0 := Pass(true, [])]
    ensures s'.tables == MarkFailed(s.tables, id)
  {
    longer, s' := Take(a, steps, s, StartPass(0, [id]));
    assert s'.passes[0].todo == [FailStale(id, s.tables.transactions[id])];
    longer, s' := Take(a, longer, s', Drive(0, Sweep));
    assert s'.passes[0].todo == [];
    assert s'.passes == map[0 := Pass(true, [])];
  }

  /** Request 0 reserves a first deposit and dies. */
  lemma DeadDepositRun() returns (steps: seq<Step>, s: State)
    ensures Reaches(Everything, steps, s) && s.passes == map[] && s.log == []
    ensures s.handlers == map[0 := SubmittedHandler(5, 0, true).(pc := Reserved, alive := false)]
    ensures s.tables == ReserveDeposit(Init.tables, 0, K, 5, 5)
  {
    steps, s := ReserveDepositRun(Everything, [], Init, 0, 5);
    steps, s := Turn(Everything, steps, s, 0, Crash);
  }

  /**
   A sweep that dies between its two updates strands the position of a first deposit, although every assumption holds.
   */
  lemma SweepStrands() returns (steps: seq<Step>, s: State)
    ensures Reaches(Everything, steps, s) && Stranded(s, 0) && DepositBlocked(s.tables, K)
  {
    steps, s := DeadDepositRun();
    steps, s := Take(Everything, steps, s, StartPass(0, [0]));
    assert s.passes[0].todo == [FailStale(0, s.tables.transactions[0])];
    steps, s := Take(Everything, steps, s, Drive(0, Sweep));
    steps, s := Take(Everything, steps, s, EndPass(0));
  }

  /** So does a handler that dies between the two writes of its catch arm. */
  lemma CatchArmStrands() returns (steps: seq<Step>, s: State)
    ensures Reaches(Everything, steps, s) && Stranded(s, 0) && DepositBlocked(s.tables, K)
  {
    steps, s := DeadCatchArmRun();
  }

  lemma DeadCatchArmRun() returns (steps: seq<Step>, s: State)
    ensures Reaches(Everything, steps, s) && s.passes == map[] && s.log == []
    ensures s.handlers == map[0 := SubmittedHandler(5, 0, true).(pc := CatchPosition, alive := false)]
    ensures s.tables == MarkFailed(ReserveDeposit(Init.tables, 0, K, 5, 5), 0)
  {
    steps, s := ReserveDepositRun(Everything, [], Init, 0, 5);
    var reserved := s.tables;
    steps, s := Turn(Everything, steps, s, 0, Throw);
    steps, s := Turn(Everything, steps, s, 0, CatchFirst);
    assert s.tables == MarkFailed(reserved, 0);
    steps, s := Turn(Everything, steps, s, 0, Crash);
  }

  predicate IsConfirmed(d: Tables, t: Id) {
    t in d.transactions && d.transactions[t].status == TransactionStatus.CONFIRMED
  }

  /**
   Exactly when a pass applies what it confirms: the position must still be PENDING for a deposit and
   WITHDRAWING for a withdraw.  A handler always applies what it confirms.
   */
  lemma ConfirmationAppliesIff(c: Chain, s: State, step: Step, t: Id)
    requires Base(c, s) && Enabled(c, s, step) && t in s.tables.transactions
    requires !IsConfirmed(s.tables, t) && IsConfirmed(Apply(c, s, step).tables, t)
    ensures
      var row := s.tables.transactions[t];
      row.position in s.tables.positions
      && (|Apply(c, s, step).log| == |s.log| + 1 <==>
            step.Handle?
                || s.tables.positions[row.position].status == (if row.kind == DEPOSIT then PENDING else WITHDRAWING))
  {
    if step.Handle? {
      assert LocalOk(c, s.tables, step.id, s.handlers[step.id]);
      TurnTouches(c, s.tables, step.id, s.handlers[step.id], step.act);
    } else if step.Drive? && !step.move.ListPending? {
      var w := s.passes[step.p].todo[0];
      assert w in s.passes[step.p].todo && WorkOk(s.tables, w) && LocalOk(c, s.tables, w.id, s.handlers[w.id]);
      WorkKeeps(c, s.tables, w, step.move, s.handlers[w.id]);
    }
  }
}
