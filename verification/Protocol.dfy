/**
 The deposit / withdraw / reconcile protocol as a machine of atomic steps.

 Request handlers and reconciliation passes interleave freely; a handler or a pass may die between
 any two of its steps, and any number of passes may overlap.  A pass keeps the rows it listed and
 later writes from those copies.  The log lists every balance change, oldest first.
 */
module Protocol {
  import opened Options
  import opened Rows
  import opened Blocks

  datatype Request =
    | DepositRequest(amount: nat)
    | WithdrawRequest(fullWithdraw: bool, wanted: Option<nat>)
  {
    function Kind(): TransactionType {
      if DepositRequest? then DEPOSIT else WITHDRAW
    }
  }

  /** Where a handler stands: the name says what it has already done. */
  datatype Pc =
    | Ready          // nothing written yet
    | Checked        // a withdraw has read its position and passed the checks
    | Reserved       // the CREATED row exists
    | Broadcast      // the wallet returned a hash
    | Submitted      // markSubmitted returned
    | Reverting      // receipt reverted, first of the two writes done
    | Settled        // last write of the success or revert path done
    | CatchRow       // in the catch arm, nothing written there yet
    | CatchPosition  // in the catch arm, transaction row marked FAILED
    | Finished(ok: bool)

  datatype Handler = Handler(
    request: Request, position: PositionKey, seen: Position, amount: int, shares: int,
    isNew: bool, hash: Hash, pc: Pc, alive: bool)

  /** One unit of work of a pass; FailStale and Settle carry the row as it was listed. */
  datatype Work =
    | FailStale(id: Id, row: Transaction)
    | ReadStale(id: Id, position: PositionKey)
    | MarkStale(id: Id, position: PositionKey)
    | Settle(id: Id, row: Transaction)

  datatype Pass = Pass(sweeping: bool, todo: seq<Work>)

  datatype State = State(tables: Tables, handlers: map<Id, Handler>, passes: map<nat, Pass>, log: seq<Entry>)

  type Chain = map<Hash, Receipt>

  const Init := State(Tables(map[], map[]), map[], map[], [])

  /** What a handler does next; each act is one atomic block. */
  datatype Act =
    | Refuse
    | CheckDeposit
    | StartDeposit
    | CheckWithdraw(onChainShares: nat)
    | CheckOpenWithdraw
    | StartWithdraw
    | Send(hash: Hash)
    | Submit
    | Confirm
    | RevertFirst
    | RevertSecond
    | Return
    | Throw
    | CatchFirst
    | CatchSecond
    | Crash

  /** What a reconciliation pass does next. */
  datatype Move =
    | ListPending(pending: seq<Id>)
    | Sweep
    | Reconciled
    | Skip

  datatype Step =
    | Arrive(id: Id, request: Request, position: PositionKey)
    | Handle(id: Id, act: Act)
    | StartPass(p: nat, stale: seq<Id>)
    | Drive(p: nat, move: Move)
    | EndPass(p: nat)

  // ----- what the withdraw handler computes before it writes

  function PreviewDepositShares(amount: int): int { amount }

  function PreviewWithdrawShares(amount: int): int { amount }

  /** `resolveWithdrawAmount`; None is the BadRequest exception. */
  function ResolveWithdrawAmount(seen: Position, request: Request): Option<int>
    requires request.WithdrawRequest?
  {
    if request.fullWithdraw then Some(seen.currentAmount)
    else if request.wanted.Some? then Some(request.wanted.value)
    else None
  }

  /** The amount and the shares a withdraw will burn, or None when one of the checks throws. */
  function WithdrawTerms(seen: Position, request: Request, onChainShares: int): Option<(int, int)>
    requires request.WithdrawRequest?
  {
    var amount := ResolveWithdrawAmount(seen, request);
    if amount.None? || amount.value > seen.currentAmount then None
    else
      var shares := if request.fullWithdraw then seen.shares else PreviewWithdrawShares(amount.value);
      if shares > seen.shares || shares > onChainShares then None
      else Some((amount.value, shares))
  }

  function SubmittedMetadata(h: Handler): Metadata {
    if h.request.DepositRequest? then Metadata(Some(h.shares), None) else Metadata(None, Some(h.shares))
  }

  // ----- request handlers: one act on the tables and the handler itself

  predicate InTry(pc: Pc) {
    pc == Reserved || pc == Broadcast || pc == Submitted || pc == Reverting || pc == Settled
  }

  predicate HasRows(d: Tables, id: Id, h: Handler) {
    id in d.transactions && h.position in d.positions
  }

  predicate CanAct(c: Chain, d: Tables, id: Id, h: Handler, act: Act) {
    h.alive &&
    match act
    case Refuse => h.pc == Ready || h.pc == Checked
    case CheckDeposit => h.pc == Ready && h.request.DepositRequest?
    case StartDeposit => h.pc == Ready && h.request.DepositRequest?
    case CheckWithdraw(_) => h.pc == Ready && h.request.WithdrawRequest?
    case CheckOpenWithdraw => h.pc == Checked
    case StartWithdraw => h.pc == Checked && h.position in d.positions
    case Send(_) => h.pc == Reserved
    case Submit => h.pc == Broadcast && HasRows(d, id, h)
    case Confirm => h.pc == Submitted && HasRows(d, id, h) && h.hash in c && c[h.hash].success
    case RevertFirst => h.pc == Submitted && HasRows(d, id, h) && h.hash in c && !c[h.hash].success
    case RevertSecond => h.pc == Reverting && HasRows(d, id, h) && h.hash in c
    case Return => h.pc == Settled
    case Throw => InTry(h.pc)
    case CatchFirst => h.pc == CatchRow && HasRows(d, id, h)
    case CatchSecond => h.pc == CatchPosition && HasRows(d, id, h)
    case Crash => true
  }

  datatype Turn = Turn(tables: Tables, handler: Handler, moved: seq<Entry>)

  function Goto(d: Tables, h: Handler, pc: Pc): Turn {
    Turn(d, h.(pc := pc), [])
  }

  /** What a failing handler does to its position: a withdraw frees it, a first deposit fails it. */
  function ReleasePosition(d: Tables, h: Handler): Tables
    requires h.position in d.positions
  {
    if h.request.WithdrawRequest? then SetStatus(d, h.position, ACTIVE)
    else if h.isNew then SetStatus(d, h.position, PositionStatus.FAILED)
    else d
  }

  function ActStartDeposit(d: Tables, id: Id, h: Handler): Turn
    requires h.request.DepositRequest?
  {
    if DepositBlocked(d, h.position) then Goto(d, h, Finished(false))
    else
      var amount, shares := h.request.amount, PreviewDepositShares(h.request.amount);
      Turn(ReserveDeposit(d, id, h.position, amount, shares),
           h.(pc := Reserved, amount := amount, shares := shares, isNew := h.position !in d.positions), [])
  }

  function ActCheckWithdraw(d: Tables, h: Handler, onChainShares: nat): Turn
    requires h.request.WithdrawRequest?
  {
    if h.position !in d.positions || d.positions[h.position].status != ACTIVE then Goto(d, h, Finished(false))
    else
      var seen := d.positions[h.position];
      var terms := WithdrawTerms(seen, h.request, onChainShares);
      if terms.None? then Goto(d, h, Finished(false))
      else Turn(d, h.(pc := Checked, seen := seen, amount := terms.value.0, shares := terms.value.1), [])
  }

  function ActStartWithdraw(d: Tables, id: Id, h: Handler): Turn
    requires h.position in d.positions
  {
    if HasOpenWithdraw(d.transactions, h.position) then Goto(d, h, Finished(false))
    else Goto(ReserveWithdraw(d, id, h.position, h.amount, h.shares), h, Reserved)
  }

  function ActConfirm(c: Chain, d: Tables, id: Id, h: Handler): Turn
    requires HasRows(d, id, h) && h.hash in c
  {
    var block := c[h.hash].blockNumber;
    var effect :=
      if h.request.DepositRequest? then ConfirmDeposit(d, id, block, h.position, h.amount, h.shares, h.isNew)
      else ConfirmWithdraw(d, id, block, h.position, h.amount, h.shares);
    Turn(effect.tables, h.(pc := Settled), effect.moved)
  }

  /** A reverted deposit fails its new position before the row; a reverted withdraw marks the row first. */
  function ActRevertFirst(c: Chain, d: Tables, id: Id, h: Handler): Turn
    requires HasRows(d, id, h) && h.hash in c
  {
    var block := c[h.hash].blockNumber;
    Goto(if h.request.DepositRequest? then ReleasePosition(d, h) else MarkReverted(d, id, block), h, Reverting)
  }

  function ActRevertSecond(c: Chain, d: Tables, id: Id, h: Handler): Turn
    requires HasRows(d, id, h) && h.hash in c
  {
    var block := c[h.hash].blockNumber;
    Goto(if h.request.DepositRequest? then MarkReverted(d, id, block) else ReleasePosition(d, h), h, Settled)
  }

  function Perform(c: Chain, d: Tables, id: Id, h: Handler, act: Act): Turn
    requires CanAct(c, d, id, h, act)
  {
    match act
    case Refuse => Goto(d, h, Finished(false))
    case CheckDeposit => if DepositBlocked(d, h.position) then Goto(d, h, Finished(false)) else Turn(d, h, [])
    case StartDeposit => ActStartDeposit(d, id, h)
    case CheckWithdraw(onChainShares) => ActCheckWithdraw(d, h, onChainShares)
    case CheckOpenWithdraw =>
      if HasOpenWithdraw(d.transactions, h.position) then Goto(d, h, Finished(false)) else Turn(d, h, [])
    case StartWithdraw => ActStartWithdraw(d, id, h)
    case Send(hash) => Turn(d, h.(pc := Broadcast, hash := hash), [])
    case Submit => Goto(MarkSubmitted(d, id, h.hash, SubmittedMetadata(h)), h, Submitted)
    case Confirm => ActConfirm(c, d, id, h)
    case RevertFirst => ActRevertFirst(c, d, id, h)
    case RevertSecond => ActRevertSecond(c, d, id, h)
    case Return => Goto(d, h, Finished(true))
    case Throw => Goto(d, h, CatchRow)
    case CatchFirst => Goto(MarkFailed(d, id), h, CatchPosition)
    case CatchSecond => Goto(ReleasePosition(d, h), h, Finished(false))
    case Crash => Turn(d, h.(alive := false), [])
  }

  // ----- reconciliation passes: one move on the tables and the pass itself

  predicate IsStale(t: Transaction) {
    t.status == TransactionStatus.CREATED && t.txHash.None?
  }

  predicate IsPendingReconciliation(t: Transaction) {
    t.status == TransactionStatus.SUBMITTED && t.txHash.Some?
  }

  const STALE_LIMIT := 50
  const PENDING_LIMIT := 100

  function FailWork(d: Tables, ids: seq<Id>): seq<Work>
    requires forall id | id in ids :: id in d.transactions
  {
    seq(|ids|, i requires 0 <= i < |ids| => assert ids[i] in ids; FailStale(ids[i], d.transactions[ids[i]]))
  }

  function SettleWork(d: Tables, ids: seq<Id>): seq<Work>
    requires forall id | id in ids :: id in d.transactions
  {
    seq(|ids|, i requires 0 <= i < |ids| => assert ids[i] in ids; Settle(ids[i], d.transactions[ids[i]]))
  }

  /** `more` is put in front of the work that remains after the head. */
  datatype Stage = Stage(tables: Tables, more: seq<Work>, moved: seq<Entry>)

  predicate CanWork(c: Chain, d: Tables, w: Work, move: Move) {
    w.id in d.transactions &&
    match move
    case ListPending(_) => false
    case Sweep => !w.Settle?
    case Reconciled => w.Settle? && w.row.txHash.Some? && w.row.txHash.value in c
    case Skip => w.Settle?
  }

  function DoWork(c: Chain, d: Tables, w: Work, move: Move): Stage
    requires CanWork(c, d, w, move)
  {
    match w
    case FailStale(id, row) =>
      Stage(MarkFailed(d, id), if row.kind == DEPOSIT then [ReadStale(id, row.position)] else [], [])
    case ReadStale(id, position) =>
      var pending := position in d.positions && d.positions[position].status == PENDING;
      Stage(d, if pending then [MarkStale(id, position)] else [], [])
    case MarkStale(id, position) =>
      Stage(if position in d.positions then SetStatus(d, position, PositionStatus.FAILED) else d, [], [])
    case Settle(id, row) =>
      if move.Skip? then Stage(d, [], [])
      else var effect := Reconcile(d, id, row, c[row.txHash.value]); Stage(effect.tables, [], effect.moved)
  }

  // ----- the machine

  predicate Enabled(c: Chain, s: State, step: Step) {
    match step
    case Arrive(id, _, _) => id !in s.handlers
    case Handle(id, act) => id in s.handlers && CanAct(c, s.tables, id, s.handlers[id], act)
    case StartPass(p, stale) =>
      p !in s.passes && |stale| <= STALE_LIMIT
      && forall id | id in stale :: id in s.tables.transactions && IsStale(s.tables.transactions[id])
    case Drive(p, move) =>
      p in s.passes &&
      if move.ListPending? then
        s.passes[p].sweeping && s.passes[p].todo == [] && |move.pending| <= PENDING_LIMIT
        && forall id | id in move.pending ::
           id in s.tables.transactions && IsPendingReconciliation(s.tables.transactions[id])
      else s.passes[p].todo != [] && CanWork(c, s.tables, s.passes[p].todo[0], move)
    case EndPass(p) => p in s.passes
  }

  function ApplyHandle(c: Chain, s: State, id: Id, act: Act): State
    requires Enabled(c, s, Handle(id, act))
  {
    var turn := Perform(c, s.tables, id, s.handlers[id], act);
    State(turn.tables, s.handlers[id := turn.handler], s.passes, s.log + turn.moved)
  }

  function ApplyDrive(c: Chain, s: State, p: nat, move: Move): State
    requires Enabled(c, s, Drive(p, move))
  {
    if move.ListPending? then s.(passes := s.passes[p := Pass(false, SettleWork(s.tables, move.pending))])
    else
      var stage := DoWork(c, s.tables, s.passes[p].todo[0], move);
      var rest := s.passes[p].(todo := stage.more + s.passes[p].todo[1..]);
      State(stage.tables, s.handlers, s.passes[p := rest], s.log + stage.moved)
  }

  const Unseen := PendingPosition()

  function Apply(c: Chain, s: State, step: Step): State
    requires Enabled(c, s, step)
  {
    match step
    case Arrive(id, request, position) =>
      s.(handlers := s.handlers[id := Handler(request, position, Unseen, 0, 0, false, 0, Ready, true)])
    case Handle(id, act) => ApplyHandle(c, s, id, act)
    case StartPass(p, stale) => s.(passes := s.passes[p := Pass(true, FailWork(s.tables, stale))])
    case Drive(p, move) => ApplyDrive(c, s, p, move)
    case EndPass(p) => s.(passes := s.passes - {p})
  }

  // ----- assumptions on the environment and runs

  /**
   A3: the stale sweep lists only rows whose handler is gone.
   A4: after markSubmitted returned, a handler does not enter its catch arm.
   A5: when a withdraw reserves, its position still covers it; this is so when the reservation sees
       the row the withdraw first read.
   (A1, one block is one step, is the shape of `Step`; A2, a receipt never changes, is the constant `Chain`.)
   */
  datatype Assumptions = Assumptions(sweepsOnlyDead: bool, noLateThrow: bool, reservesCovered: bool)

  const Anything := Assumptions(false, false, false)
  const NoLateThrow := Assumptions(false, true, false)
  const Careful := Assumptions(true, true, false)
  const Everything := Assumptions(true, true, true)

  predicate Gone(h: Handler) {
    !h.alive || h.pc.Finished?
  }

  predicate Obeys(a: Assumptions, s: State, step: Step) {
    && (a.sweepsOnlyDead && step.StartPass? ==>
          forall id | id in step.stale :: id in s.handlers && Gone(s.handlers[id]))
    && (a.noLateThrow && step.Handle? && step.act.Throw? && step.id in s.handlers ==>
          s.handlers[step.id].pc == Reserved || s.handlers[step.id].pc == Broadcast)
    && (a.reservesCovered && step.Handle? && step.act.StartWithdraw? && step.id in s.handlers ==>
          s.handlers[step.id].position in s.tables.positions
          && s.handlers[step.id].amount <= s.tables.positions[s.handlers[step.id].position].shares)
  }

  predicate Legal(c: Chain, a: Assumptions, s: State, steps: seq<Step>)
    decreases |steps|
  {
    steps == [] || (Enabled(c, s, steps[0]) && Obeys(a, s, steps[0]) && Legal(c, a, Apply(c, s, steps[0]), steps[1..]))
  }

  function Exec(c: Chain, a: Assumptions, s: State, steps: seq<Step>): State
    requires Legal(c, a, s, steps)
    decreases |steps|
  {
    if steps == [] then s else Exec(c, a, Apply(c, s, steps[0]), steps[1..])
  }

  /** One more step at the end of a run. */
  lemma {:induction false} ExecAppends(c: Chain, a: Assumptions, s: State, steps: seq<Step>, step: Step)
    requires Legal(c, a, s, steps)
    requires var s' := Exec(c, a, s, steps); Enabled(c, s', step) && Obeys(a, s', step)
    ensures Legal(c, a, s, steps + [step]) && Exec(c, a, s, steps + [step]) == Apply(c, Exec(c, a, s, steps), step)
    decreases |steps|
  {
    if steps == [] {
      assert steps + [step] == [step];
    } else {
      ExecAppends(c, a, Apply(c, s, steps[0]), steps[1..], step);
      assert (steps + [step])[1..] == steps[1..] + [step];
    }
  }

  /** Every step of a run meets the assumptions. */
  predicate ObeyedBy(c: Chain, a: Assumptions, s: State, steps: seq<Step>)
    requires Legal(c, Anything, s, steps)
    decreases |steps|
  {
    steps == [] || (Obeys(a, s, steps[0]) && ObeyedBy(c, a, Apply(c, s, steps[0]), steps[1..]))
  }

  /** A run without assumptions whose steps meet some is a run under them. */
  lemma {:induction false} ObeyingRunIsLegal(c: Chain, a: Assumptions, s: State, steps: seq<Step>)
    requires Legal(c, Anything, s, steps) && ObeyedBy(c, a, s, steps)
    ensures Legal(c, a, s, steps) && Exec(c, a, s, steps) == Exec(c, Anything, s, steps)
    decreases |steps|
  {
    if steps != [] { ObeyingRunIsLegal(c, a, Apply(c, s, steps[0]), steps[1..]); }
  }
}
