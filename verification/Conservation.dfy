/**
 Conservation of balances, when the sweep lists only rows whose handler is gone (A3) and a withdraw
 reserves only what its position still covers (A5): the balance of every position is the sum of the
 applied deposits minus the sum of the applied withdraws, and no debit exceeds what was there.
 */
module Conservation {
  import opened Options
  import opened Rows
  import opened Blocks
  import opened Protocol
  import opened Invariants
  import opened Balances
  import opened Exclusion

  function Signed(e: Entry, k: PositionKey): int {
    if e.position != k then 0 else if e.credit then e.shares else -e.shares
  }

  /** Applied deposits minus applied withdraws of one position. */
  function Net(log: seq<Entry>, k: PositionKey): int {
    if log == [] then 0 else Net(log[..|log| - 1], k) + Signed(log[|log| - 1], k)
  }

  lemma NetGrows(log: seq<Entry>, moved: seq<Entry>, k: PositionKey)
    requires |moved| <= 1
    ensures Net(log + moved, k) == Net(log, k) + (if moved == [] then 0 else Signed(moved[0], k))
  {
    if moved == [] {
      assert log + moved == log;
    } else {
      assert (log + moved)[..|log|] == log;
    }
  }

  ghost predicate Balanced(s: State) {
    forall k: PositionKey :: Shares(s.tables, k) == Net(s.log, k)
  }

  /** An open withdraw is covered by its position. */
  ghost predicate Funded(d: Tables) {
    forall t | t in d.transactions && d.transactions[t].kind == WITHDRAW && IsOpen(d.transactions[t]) ::
      d.transactions[t].amount <= Shares(d, d.transactions[t].position)
  }

  ghost predicate NoOverdraft(log: seq<Entry>) {
    forall i | 0 <= i < |log| && !log[i].credit :: log[i].shares <= log[i].before
  }

  ghost predicate Money(s: State) {
    Balanced(s) && Funded(s.tables) && NoOverdraft(s.log)
  }

  /** Every entry moves the balance by exactly its amount: an activation finds zero, a debit finds enough. */
  lemma EntryMovesItsShares(c: Chain, s: State, d: Tables, id: Id, h: Handler, moved: seq<Entry>, ov: bool)
    requires Base(c, s) && Guarded(c, s) && Money(s) && Advanced(c, s, d, id, h, moved, ov) && moved != []
    ensures moved[0].position == h.position && Shares(d, h.position) == moved[0].before + Signed(moved[0], h.position)
    ensures !moved[0].credit ==> moved[0].shares <= moved[0].before
  {
    var e := moved[0];
    assert LocalOk(c, s.tables, id, s.handlers[id]) && EntryOk(d, e);
    if e.credit && Activates(h) {
      assert FirstOpen(s, id) && FirstOk(c, s, id);
    }
  }

  /** A debit closes the only open withdraw of its position. */
  lemma DebitClosesWithdraw(c: Chain, s: State, d: Tables, id: Id, h: Handler, moved: seq<Entry>, ov: bool, t: Id)
    requires Base(c, s) && Guarded(c, s) && Advanced(c, s, d, id, h, moved, ov)
    requires moved != [] && !moved[0].credit
    requires t in d.transactions && d.transactions[t].kind == WITHDRAW && IsOpen(d.transactions[t])
    ensures d.transactions[t].position != h.position
  {
    OpenWasOpen(c, s, d, id, h, moved, ov, t);
    assert LocalOk(c, s.tables, id, s.handlers[id]) && EntryOk(d, moved[0]);
  }

  lemma OpenStaysFunded(c: Chain, s: State, d: Tables, id: Id, h: Handler, moved: seq<Entry>, ov: bool, t: Id)
    requires Base(c, s) && Guarded(c, s) && Money(s) && Advanced(c, s, d, id, h, moved, ov)
    requires id !in s.tables.transactions && id in d.transactions && h.request.WithdrawRequest? ==>
        h.amount <= Shares(s.tables, h.position)
    requires t in d.transactions && d.transactions[t].kind == WITHDRAW && IsOpen(d.transactions[t])
    ensures d.transactions[t].amount <= Shares(d, d.transactions[t].position)
  {
    OpenWasOpen(c, s, d, id, h, moved, ov, t);
    if moved != [] {
      EntryMovesItsShares(c, s, d, id, h, moved, ov);
      if !moved[0].credit { DebitClosesWithdraw(c, s, d, id, h, moved, ov, t); }
      assert EntryOk(d, moved[0]);
    }
  }

  lemma AdvanceKeepsFunded(c: Chain, s: State, d: Tables, id: Id, h: Handler, moved: seq<Entry>, ov: bool)
    requires Base(c, s) && Guarded(c, s) && Money(s) && Advanced(c, s, d, id, h, moved, ov)
    requires id !in s.tables.transactions && id in d.transactions && h.request.WithdrawRequest? ==>
        h.amount <= Shares(s.tables, h.position)
    ensures Funded(d)
  {
    forall t | t in d.transactions && d.transactions[t].kind == WITHDRAW && IsOpen(d.transactions[t])
      ensures d.transactions[t].amount <= Shares(d, d.transactions[t].position)
    {
      OpenStaysFunded(c, s, d, id, h, moved, ov, t);
    }
  }

  lemma AdvanceKeepsBalance(c: Chain, s: State, d: Tables, id: Id, h: Handler, moved: seq<Entry>, ov: bool,
                            k: PositionKey)
    requires Base(c, s) && Guarded(c, s) && Money(s) && Advanced(c, s, d, id, h, moved, ov)
    ensures Shares(d, k) == Net(s.log + moved, k)
  {
    NetGrows(s.log, moved, k);
    assert Shares(s.tables, k) == Net(s.log, k);
    if moved != [] { EntryMovesItsShares(c, s, d, id, h, moved, ov); }
  }

  lemma NoOverdraftGrows(log: seq<Entry>, moved: seq<Entry>)
    requires NoOverdraft(log) && |moved| <= 1
    requires moved != [] && !moved[0].credit ==> moved[0].shares <= moved[0].before
    ensures NoOverdraft(log + moved)
  {
  }

  lemma AdvanceKeepsMoney(c: Chain, s: State, d: Tables, id: Id, h: Handler, moved: seq<Entry>, ov: bool,
                          passes: map<nat, Pass>)
    requires Base(c, s) && Guarded(c, s) && Money(s) && Advanced(c, s, d, id, h, moved, ov)
    requires id !in s.tables.transactions && id in d.transactions && h.request.WithdrawRequest? ==>
        h.amount <= Shares(s.tables, h.position)
    ensures Money(Next(s, d, id, h, passes, moved))
  {
    AdvanceKeepsFunded(c, s, d, id, h, moved, ov);
    if moved != [] { EntryMovesItsShares(c, s, d, id, h, moved, ov); }
    NoOverdraftGrows(s.log, moved);
    forall k: PositionKey ensures Shares(d, k) == Net(s.log + moved, k) {
      AdvanceKeepsBalance(c, s, d, id, h, moved, ov, k);
    }
  }

  lemma HandleKeepsMoney(c: Chain, a: Assumptions, s: State, id: Id, act: Act)
    requires Base(c, s) && Guarded(c, s) && Money(s)
    requires Enabled(c, s, Handle(id, act)) && Obeys(a, s, Handle(id, act)) && a.reservesCovered
    ensures Money(Apply(c, s, Handle(id, act)))
  {
    var h := s.handlers[id];
    HandleAdvances(c, s, id, act);
    assert LocalOk(c, s.tables, id, h);
    var turn := Perform(c, s.tables, id, h, act);
    AdvanceKeepsMoney(c, s, turn.tables, id, turn.handler, turn.moved, Activates(h), s.passes);
  }

  lemma DriveKeepsMoney(c: Chain, s: State, p: nat, move: Move)
    requires Base(c, s) && Guarded(c, s) && Money(s) && Enabled(c, s, Drive(p, move)) && !move.ListPending?
    ensures Money(Apply(c, s, Drive(p, move)))
  {
    DriveAdvances(c, s, p, move);
    var w := s.passes[p].todo[0];
    var stage := DoWork(c, s.tables, w, move);
    assert w in s.passes[p].todo && WorkOk(s.tables, w);
    AdvanceKeepsMoney(c, s, stage.tables, w.id, s.handlers[w.id], stage.moved, true,
        Apply(c, s, Drive(p, move)).passes);
    assert s.handlers[w.id := s.handlers[w.id]] == s.handlers;
  }

  lemma StepKeepsMoney(c: Chain, a: Assumptions, s: State, step: Step)
    requires Base(c, s) && Guarded(c, s) && Money(s)
    requires Enabled(c, s, step) && Obeys(a, s, step) && a.reservesCovered
    ensures Money(Apply(c, s, step))
  {
    if step.Handle? {
      HandleKeepsMoney(c, a, s, step.id, step.act);
    } else if step.Drive? && !step.move.ListPending? {
      DriveKeepsMoney(c, s, step.p, step.move);
    } else {
      assert Apply(c, s, step).tables == s.tables && Apply(c, s, step).log == s.log;
    }
  }
}
