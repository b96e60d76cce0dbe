/** The main results about the protocol: what holds in every state of every run. */
module Runs {
  import opened Options
  import opened Rows
  import opened Blocks
  import opened Protocol
  import opened Invariants
  import opened Balances
  import opened Exclusion
  import opened Conservation
  import opened Lifecycle

  /** Everything that was applied was mined with success. */
  ghost predicate LogMined(c: Chain, s: State) {
    forall i | 0 <= i < |s.log| ::
      s.log[i].id in s.tables.transactions && Succeeded(c, s.tables.transactions[s.log[i].id].txHash)
  }

  lemma TurnAppliesMined(c: Chain, d: Tables, id: Id, h: Handler, act: Act)
    requires CanAct(c, d, id, h, act) && LocalOk(c, d, id, h)
    ensures var turn := Perform(c, d, id, h, act); turn.moved != [] ==> Succeeded(c, d.transactions[id].txHash)
  {
  }

  lemma WorkAppliesMined(c: Chain, d: Tables, w: Work, move: Move)
    requires CanWork(c, d, w, move) && WorkOk(d, w)
    ensures DoWork(c, d, w, move).moved != [] ==> Succeeded(c, d.transactions[w.id].txHash)
  {
  }

  lemma LogStaysMined(c: Chain, s: State, d: Tables, id: Id, k: PositionKey, moved: seq<Entry>)
    requires LogMined(c, s) && Touches(s.tables, d, id, k) && MovedOk(s.tables, d, id, moved)
    requires moved != [] ==> id in s.tables.transactions && Succeeded(c, s.tables.transactions[id].txHash)
    ensures LogMined(c, s.(tables := d, log := s.log + moved))
  {
    var log := s.log + moved;
    forall i | 0 <= i < |log| ensures log[i].id in d.transactions && Succeeded(c, d.transactions[log[i].id].txHash) {
      if i < |s.log| { assert log[i] == s.log[i]; } else { assert log[i] == moved[0]; }
    }
  }

  lemma StepKeepsMined(c: Chain, s: State, step: Step)
    requires Base(c, s) && LogMined(c, s) && Enabled(c, s, step)
    ensures LogMined(c, Apply(c, s, step))
  {
    if step.Handle? {
      var h := s.handlers[step.id];
      assert LocalOk(c, s.tables, step.id, h);
      var turn := Perform(c, s.tables, step.id, h, step.act);
      TurnTouches(c, s.tables, step.id, h, step.act);
      TurnAppliesMined(c, s.tables, step.id, h, step.act);
      LogStaysMined(c, s, turn.tables, step.id, h.position, turn.moved);
    } else if step.Drive? && !step.move.ListPending? {
      var w := s.passes[step.p].todo[0];
      assert w in s.passes[step.p].todo && WorkOk(s.tables, w) && LocalOk(c, s.tables, w.id, s.handlers[w.id]);
      var stage := DoWork(c, s.tables, w, step.move);
      WorkKeeps(c, s.tables, w, step.move, s.handlers[w.id]);
      WorkAppliesMined(c, s.tables, w, step.move);
      LogStaysMined(c, s, stage.tables, w.id, s.handlers[w.id].position, stage.moved);
    }
  }

  /** What a run keeps, by the assumptions it obeys. */
  ghost predicate Kept(c: Chain, a: Assumptions, s: State) {
    && Base(c, s) && LogMined(c, s) && AllUnconfirmable(s)
    && (a.sweepsOnlyDead ==> Guarded(c, s))
    && (a.sweepsOnlyDead && a.reservesCovered ==> Money(s))
    && (a.sweepsOnlyDead && a.noLateThrow ==> AllTracked(s))
  }

  lemma StepKeeps(c: Chain, a: Assumptions, s: State, step: Step)
    requires Kept(c, a, s) && Enabled(c, s, step) && Obeys(a, s, step)
    ensures Kept(c, a, Apply(c, s, step))
  {
    StepKeepsBase(c, s, step);
    StepKeepsMined(c, s, step);
    StepKeepsUnconfirmable(c, s, step);
    if a.sweepsOnlyDead {
      StepKeepsGuarded(c, a, s, step);
      if a.reservesCovered { StepKeepsMoney(c, a, s, step); }
      if a.noLateThrow { StepTracks(c, a, s, step); }
    }
  }

  lemma {:induction false} RunKeeps(c: Chain, a: Assumptions, s: State, steps: seq<Step>)
    requires Kept(c, a, s) && Legal(c, a, s, steps)
    ensures Kept(c, a, Exec(c, a, s, steps))
    decreases |steps|
  {
    if steps != [] {
      StepKeeps(c, a, s, steps[0]);
      RunKeeps(c, a, Apply(c, s, steps[0]), steps[1..]);
    }
  }

  lemma RunFromInit(c: Chain, a: Assumptions, steps: seq<Step>)
    requires Legal(c, a, Init, steps)
    ensures Kept(c, a, Exec(c, a, Init, steps))
  {
    assert Money(Init) by { assert forall k: PositionKey :: Net([], k) == 0; }
    RunKeeps(c, a, Init, steps);
  }

  // ----- with no assumption on handlers, sweeps or reads

  /** Each transaction is applied at most once, and only if its hash was mined with success. */
  lemma AtMostOnce(c: Chain, a: Assumptions, steps: seq<Step>, i: nat, j: nat)
    requires Legal(c, a, Init, steps)
    requires var log := Exec(c, a, Init, steps).log; i < |log| && j < |log| && log[i].id == log[j].id
    ensures i == j
    ensures
      var s := Exec(c, a, Init, steps);
      && s.log[i].id in s.tables.transactions
      && var t := s.tables.transactions[s.log[i].id];
      Succeeded(c, t.txHash) && t.status != TransactionStatus.SUBMITTED && s.log[i].shares == t.amount
          && s.log[i].position == t.position
  {
    RunFromInit(c, a, steps);
    assert EntryOk(Exec(c, a, Init, steps).tables, Exec(c, a, Init, steps).log[i]);
  }

  /** No step changes a balance except by the one entry it logs for that position. */
  lemma BalancesFollowTheLog(c: Chain, s: State, step: Step, k: PositionKey)
    requires Base(c, s) && Enabled(c, s, step) && k in s.tables.positions
    ensures
      var s' := Apply(c, s, step);
      && k in s'.tables.positions
      && s.log <= s'.log && |s'.log| <= |s.log| + 1
      && (SameBalances(s.tables.positions[k], s'.tables.positions[k])
          || (|s'.log| == |s.log| + 1 && s'.log[|s.log|].position == k
                 && s'.log[|s.log|].before == s.tables.positions[k].shares))
  {
    if step.Handle? {
      var h := s.handlers[step.id];
      assert LocalOk(c, s.tables, step.id, h);
      TurnTouches(c, s.tables, step.id, h, step.act);
      TurnAccounts(c, s.tables, step.id, h, step.act);
    } else if step.Drive? && !step.move.ListPending? {
      var w := s.passes[step.p].todo[0];
      assert w in s.passes[step.p].todo && WorkOk(s.tables, w) && LocalOk(c, s.tables, w.id, s.handlers[w.id]);
      WorkKeeps(c, s.tables, w, step.move, s.handlers[w.id]);
      WorkAccounts(c, s.tables, w, step.move, s.handlers[w.id]);
    }
  }

  /** A credit that activates finds a zero balance, and a debit finds enough. */
  predicate Exact(e: Entry, activates: bool) {
    if e.credit then activates ==> e.before == 0 else e.shares <= e.before
  }

  lemma EntryConservesIff(d: Tables, d': Tables, at: PositionKey, log: seq<Entry>, moved: seq<Entry>, activates: bool,
                          k: PositionKey)
    requires Accounts(d, d', at, moved, activates) && |moved| <= 1 && (k != at ==> Shares(d', k) == Shares(d, k))
    requires Shares(d, k) == Net(log, k)
    ensures Shares(d', k) == Net(log + moved, k)
        <==> (moved != [] && moved[0].position == k ==> Exact(moved[0], activates))
  {
    NetGrows(log, moved, k);
  }

  /** Nothing to apply on `k`, or a first deposit on a zero balance, a top-up, or a withdraw that the balance covers. */
  predicate TurnIsCovered(d: Tables, id: Id, h: Handler, act: Act, k: PositionKey) {
    act.Confirm? && id in d.transactions && Confirmable(d, id) && h.position == k && k in d.positions ==>
      if h.request.DepositRequest? then h.isNew ==> d.positions[k].shares == 0 else h.amount <= d.positions[k].shares
  }

  lemma TurnIsExactIff(c: Chain, d: Tables, id: Id, h: Handler, act: Act, k: PositionKey)
    requires CanAct(c, d, id, h, act) && LocalOk(c, d, id, h)
    ensures
      var turn := Perform(c, d, id, h, act);
      (turn.moved != [] && turn.moved[0].position == k ==> Exact(turn.moved[0], Activates(h)))
      <==> TurnIsCovered(d, id, h, act, k)
  {
  }

  /**
   Exactly which turns keep the balance of `k` equal to its applied deposits minus its applied withdraws, by what stands
   before the turn.
   */
  lemma TurnConservesIff(c: Chain, s: State, id: Id, act: Act, k: PositionKey)
    requires Base(c, s) && Enabled(c, s, Handle(id, act)) && Shares(s.tables, k) == Net(s.log, k)
    ensures
      var s' := Apply(c, s, Handle(id, act));
      Shares(s'.tables, k) == Net(s'.log, k) <==> TurnIsCovered(s.tables, id, s.handlers[id], act, k)
  {
    var h := s.handlers[id];
    assert LocalOk(c, s.tables, id, h);
    var turn := Perform(c, s.tables, id, h, act);
    TurnTouches(c, s.tables, id, h, act);
    TurnAccounts(c, s.tables, id, h, act);
    TurnIsExactIff(c, s.tables, id, h, act, k);
    EntryConservesIff(s.tables, turn.tables, h.position, s.log, turn.moved, Activates(h), k);
  }

  /** A pass that settles a listed withdraw on `k` finds it covered, if it comes to debit at all. */
  predicate WorkIsCovered(c: Chain, d: Tables, w: Work, move: Move, k: PositionKey) {
    move.Reconciled? && w.Settle? && w.row.kind == WITHDRAW && w.row.position == k && Succeeded(c, w.row.txHash)
    && w.id in d.transactions && Confirmable(d, w.id) && k in d.positions && d.positions[k].status == WITHDRAWING ==>
      w.row.amount <= d.positions[k].shares
  }

  lemma WorkIsExactIff(c: Chain, d: Tables, w: Work, move: Move, k: PositionKey)
    requires CanWork(c, d, w, move) && WorkOk(d, w)
    ensures
      var stage := DoWork(c, d, w, move);
      (stage.moved != [] && stage.moved[0].position == k ==> Exact(stage.moved[0], false))
      <==> WorkIsCovered(c, d, w, move, k)
  {
  }

  /** Exactly which moves of a pass keep it: those that debit no more than the position holds. */
  lemma WorkConservesIff(c: Chain, s: State, p: nat, move: Move, k: PositionKey)
    requires Base(c, s) && Enabled(c, s, Drive(p, move)) && !move.ListPending? && Shares(s.tables, k) == Net(s.log, k)
    ensures
      var s' := Apply(c, s, Drive(p, move));
      Shares(s'.tables, k) == Net(s'.log, k) <==> WorkIsCovered(c, s.tables, s.passes[p].todo[0], move, k)
  {
    var w := s.passes[p].todo[0];
    assert w in s.passes[p].todo && WorkOk(s.tables, w) && LocalOk(c, s.tables, w.id, s.handlers[w.id]);
    var stage := DoWork(c, s.tables, w, move);
    WorkKeeps(c, s.tables, w, move, s.handlers[w.id]);
    WorkAccounts(c, s.tables, w, move, s.handlers[w.id]);
    WorkIsExactIff(c, s.tables, w, move, k);
    EntryConservesIff(s.tables, stage.tables, s.handlers[w.id].position, s.log, stage.moved, true, k);
  }

  /** Shares, current amount and deposited amount are one number, never negative, and zero while PENDING or CLOSED. */
  lemma Lockstep(c: Chain, a: Assumptions, steps: seq<Step>, k: PositionKey)
    requires Legal(c, a, Init, steps) && k in Exec(c, a, Init, steps).tables.positions
    ensures
      var p := Exec(c, a, Init, steps).tables.positions[k];
      && p.shares == p.currentAmount == p.depositedAmount >= 0
      && (p.status == PENDING || p.status == CLOSED ==> p.shares == 0)
  {
    RunFromInit(c, a, steps);
  }

  /** A CONFIRMED row has a hash whose receipt is a success, a REVERTED row one whose receipt is a revert. */
  lemma ReceiptsDecide(c: Chain, a: Assumptions, steps: seq<Step>, t: Id)
    requires Legal(c, a, Init, steps) && t in Exec(c, a, Init, steps).tables.transactions
    ensures
      var row := Exec(c, a, Init, steps).tables.transactions[t];
      && (row.status == TransactionStatus.CONFIRMED ==> Succeeded(c, row.txHash))
      && (row.status == TransactionStatus.REVERTED ==> Reverted(c, row.txHash))
      && (row.status == TransactionStatus.CREATED ==> row.txHash.None? && row.blockNumber.None?)
      && (row.status == TransactionStatus.SUBMITTED ==> row.txHash.Some? && row.blockNumber.None?)
      && (row.status == TransactionStatus.CONFIRMED || row.status == TransactionStatus.REVERTED ==>
            row.blockNumber == Some(c[row.txHash.value].blockNumber))
  {
    RunFromInit(c, a, steps);
    assert LocalOk(c, Exec(c, a, Init, steps).tables, t, Exec(c, a, Init, steps).handlers[t]);
  }

  lemma StepGrows(c: Chain, s: State, step: Step)
    requires Base(c, s) && Enabled(c, s, step)
    ensures Grows(s.tables, Apply(c, s, step).tables)
  {
    var d' := Apply(c, s, step).tables;
    if step.Handle? {
      var h := s.handlers[step.id];
      assert LocalOk(c, s.tables, step.id, h);
      TurnTouches(c, s.tables, step.id, h, step.act);
      TouchesGrows(s.tables, d', step.id, h.position);
    } else if step.Drive? && !step.move.ListPending? {
      var w := s.passes[step.p].todo[0];
      assert w in s.passes[step.p].todo && WorkOk(s.tables, w) && LocalOk(c, s.tables, w.id, s.handlers[w.id]);
      WorkKeeps(c, s.tables, w, step.move, s.handlers[w.id]);
      TouchesGrows(s.tables, d', w.id, s.handlers[w.id].position);
    }
  }

  lemma GrowsTransitive(d: Tables, e: Tables, f: Tables)
    requires Grows(d, e) && Grows(e, f)
    ensures Grows(d, f)
  {
  }

  lemma {:induction false} RunGrows(c: Chain, a: Assumptions, s: State, steps: seq<Step>)
    requires Base(c, s) && Legal(c, a, s, steps)
    ensures Grows(s.tables, Exec(c, a, s, steps).tables)
    decreases |steps|
  {
    if steps != [] {
      StepGrows(c, s, steps[0]);
      StepKeepsBase(c, s, steps[0]);
      RunGrows(c, a, Apply(c, s, steps[0]), steps[1..]);
      GrowsTransitive(s.tables, Apply(c, s, steps[0]).tables, Exec(c, a, s, steps).tables);
    }
  }

  /** Nothing is applied any more for a request that has given up. */
  lemma {:induction false} NothingIsAppliedAfter(c: Chain, a: Assumptions, s: State, id: Id, steps: seq<Step>)
    requires Base(c, s) && AllUnconfirmable(s) && id in s.handlers && GivenUp(s.handlers[id].pc)
    requires Legal(c, a, s, steps)
    ensures Logged(Exec(c, a, s, steps).log, id) <==> Logged(s.log, id)
    decreases |steps|
  {
    if steps != [] {
      StepAppliesNothing(c, s, steps[0], id);
      StepKeepsBase(c, s, steps[0]);
      StepKeepsUnconfirmable(c, s, steps[0]);
      NothingIsAppliedAfter(c, a, Apply(c, s, steps[0]), id, steps[1..]);
    }
  }

  /** A request that enters its catch arm changes a balance exactly if it was applied before the arm's first write. */
  lemma FailedIsAppliedIff(c: Chain, a: Assumptions, before: seq<Step>, id: Id, after: seq<Step>)
    requires Legal(c, a, Init, before) && Enabled(c, Exec(c, a, Init, before), Handle(id, CatchFirst))
    requires Legal(c, a, Apply(c, Exec(c, a, Init, before), Handle(id, CatchFirst)), after)
    ensures
      var s := Exec(c, a, Init, before);
      Logged(Exec(c, a, Apply(c, s, Handle(id, CatchFirst)), after).log, id) <==> Logged(s.log, id)
  {
    RunFromInit(c, a, before);
    var s := Exec(c, a, Init, before);
    StepKeepsBase(c, s, Handle(id, CatchFirst));
    StepKeepsUnconfirmable(c, s, Handle(id, CatchFirst));
    assert Apply(c, s, Handle(id, CatchFirst)).log == s.log;
    NothingIsAppliedAfter(c, a, Apply(c, s, Handle(id, CatchFirst)), id, after);
  }

  // ----- under A3

  /** At most one unfinished deposit per user and vault, and one unfinished withdraw per position. */
  lemma MutualExclusion(c: Chain, a: Assumptions, steps: seq<Step>, t: Id, u: Id)
    requires a.sweepsOnlyDead && Legal(c, a, Init, steps)
    requires
      var rows := Exec(c, a, Init, steps).tables.transactions;
      t in rows && u in rows && IsOpen(rows[t]) && IsOpen(rows[u]) && rows[t].kind == rows[u].kind
          && rows[t].position == rows[u].position
    ensures t == u
  {
    RunFromInit(c, a, steps);
  }

  /** A confirmed first deposit has been credited, whoever confirmed it. */
  lemma FirstDepositIsCredited(c: Chain, a: Assumptions, steps: seq<Step>, t: Id)
    requires a.sweepsOnlyDead && Legal(c, a, Init, steps)
    requires
      var s := Exec(c, a, Init, steps);
      t in s.tables.transactions && t in s.handlers && Activates(s.handlers[t])
      && s.tables.transactions[t].status == TransactionStatus.CONFIRMED
    ensures Logged(Exec(c, a, Init, steps).log, t)
  {
    RunFromInit(c, a, steps);
  }

  /** `activate` only ever overwrites a zero balance, whoever calls it. */
  lemma ActivationsOverwriteZero(c: Chain, a: Assumptions, steps: seq<Step>, step: Step)
    requires a.sweepsOnlyDead && Legal(c, a, Init, steps)
    requires var s := Exec(c, a, Init, steps); Enabled(c, s, step) && Activating(c, s, step)
    ensures
      var s := Exec(c, a, Init, steps);
      var e := Apply(c, s, step).log[|s.log|];
      && e.before == 0 && e.position in s.tables.positions
      && SameBalances(s.tables.positions[e.position], PendingPosition())
  {
    RunFromInit(c, a, steps);
    ActivationFindsZero(c, Exec(c, a, Init, steps), step);
  }

  /** The step applies a credit by overwriting: a handler that created the position, or a pass. */
  predicate Activating(c: Chain, s: State, step: Step)
    requires Enabled(c, s, step)
  {
    && |Apply(c, s, step).log| > |s.log| && Apply(c, s, step).log[|s.log|].credit
    && (step.Handle? ==> step.id in s.handlers && Activates(s.handlers[step.id]))
  }

  lemma ActivationFindsZero(c: Chain, s: State, step: Step)
    requires Base(c, s) && Guarded(c, s) && Enabled(c, s, step) && Activating(c, s, step)
    ensures
      var e := Apply(c, s, step).log[|s.log|];
      && e.before == 0 && e.position in s.tables.positions
      && SameBalances(s.tables.positions[e.position], PendingPosition())
  {
    if step.Handle? {
      var h := s.handlers[step.id];
      assert LocalOk(c, s.tables, step.id, h);
      TurnTouches(c, s.tables, step.id, h, step.act);
      TurnAccounts(c, s.tables, step.id, h, step.act);
      assert FirstOpen(s, step.id) && FirstOk(c, s, step.id);
    } else {
      var w := s.passes[step.p].todo[0];
      assert w in s.passes[step.p].todo && WorkOk(s.tables, w) && LocalOk(c, s.tables, w.id, s.handlers[w.id]);
      WorkAccounts(c, s.tables, w, step.move, s.handlers[w.id]);
    }
  }

  // ----- under A3 and A5

  /** Conservation: a balance is its applied deposits minus its applied withdraws, and no debit overdraws. */
  lemma BalancesAreConserved(c: Chain, a: Assumptions, steps: seq<Step>, k: PositionKey)
    requires a.sweepsOnlyDead && a.reservesCovered && Legal(c, a, Init, steps)
    ensures
      var s := Exec(c, a, Init, steps);
      && Shares(s.tables, k) == Net(s.log, k)
      && forall i | 0 <= i < |s.log| && !s.log[i].credit :: s.log[i].shares <= s.log[i].before
  {
    RunFromInit(c, a, steps);
  }

  /** Reserving against the very row the withdraw read is enough for A5. */
  lemma FreshReadIsCovered(c: Chain, s: State, id: Id)
    requires Base(c, s) && Enabled(c, s, Handle(id, StartWithdraw))
    requires s.tables.positions[s.handlers[id].position] == s.handlers[id].seen
    ensures Obeys(Assumptions(false, false, true), s, Handle(id, StartWithdraw))
  {
    assert LocalOk(c, s.tables, id, s.handlers[id]);
  }

  // ----- under A3 and A4

  lemma StatusMoves(c: Chain, a: Assumptions, steps: seq<Step>, step: Step, t: Id)
    requires a.sweepsOnlyDead && a.noLateThrow && Legal(c, a, Init, steps)
    requires var s := Exec(c, a, Init, steps); Enabled(c, s, step) && Obeys(a, s, step) && t in s.tables.transactions
    ensures
      var s := Exec(c, a, Init, steps);
      var s' := Apply(c, s, step);
      t in s'.tables.transactions && StatusMove(s.tables.transactions[t].status, s'.tables.transactions[t].status)
  {
    RunFromInit(c, a, steps);
    StepTracks(c, a, Exec(c, a, Init, steps), step);
  }
}
