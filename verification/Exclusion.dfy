/**
 Mutual exclusion and what it buys, when the stale sweep lists only rows whose handler is gone (A3):
 at most one open deposit and one open withdraw per position, and a first deposit owns its position
 until it is settled, so that its confirmation is always credited and never overwrites a balance.
 */
module Exclusion {
  import opened Options
  import opened Rows
  import opened Blocks
  import opened Protocol
  import opened Invariants
  import opened Balances

  ghost predicate Swept(s: State) {
    && (forall id | id in s.handlers :: NotSwept(s.tables, id, s.handlers[id]))
    && (forall p, w | p in s.passes && w in s.passes[p].todo ::
           w.id in s.handlers && WorkStale(s.tables, w, s.handlers[w.id]))
  }

  /** At most one open row of each kind per position. */
  ghost predicate Exclusive(d: Tables) {
    forall t, u | t in d.transactions && u in d.transactions && IsOpen(d.transactions[t]) && IsOpen(d.transactions[u])
                  && d.transactions[t].kind == d.transactions[u].kind
                     && d.transactions[t].position == d.transactions[u].position ::
      t == u
  }

  /** An unfinished deposit that created its position. */
  predicate FirstOpen(s: State, t: Id) {
    t in s.tables.transactions && IsOpen(s.tables.transactions[t]) && t in s.handlers && Activates(s.handlers[t])
  }

  ghost predicate FirstOk(c: Chain, s: State, t: Id)
    requires FirstOpen(s, t)
  {
    var k := s.handlers[t].position;
    && k in s.tables.positions && s.tables.positions[k].shares == 0
    && (forall u | u in s.tables.transactions && s.tables.transactions[u].kind == DEPOSIT
                  && s.tables.transactions[u].position == k :: u == t)
    && (Reverted(c, s.tables.transactions[t].txHash) || s.tables.positions[k].status == PENDING)
  }

  ghost predicate FirstsOk(c: Chain, s: State) {
    forall t | FirstOpen(s, t) :: FirstOk(c, s, t)
  }

  ghost predicate Logged(log: seq<Entry>, t: Id) {
    exists i :: 0 <= i < |log| && log[i].id == t
  }

  ghost predicate FirstsCredited(s: State) {
    forall t | t in s.tables.transactions && s.tables.transactions[t].status == TransactionStatus.CONFIRMED
               && t in s.handlers && Activates(s.handlers[t]) ::
      Logged(s.log, t)
  }

  ghost predicate Guarded(c: Chain, s: State) {
    Swept(s) && Exclusive(s.tables) && FirstsOk(c, s) && FirstsCredited(s)
  }

  /** Everything the layers above need to know about one turn or one piece of work. */
  ghost predicate Advanced(c: Chain, s: State, d: Tables, id: Id, h: Handler, moved: seq<Entry>, overwrites: bool) {
    && Advances(c, s, d, id, h, moved)
    && h.request == s.handlers[id].request
    && NotSwept(d, id, h)
    && (RowClosed(s.tables, id) ==> RowClosed(d, id))
    && (Abandoned(s.tables, id) ==> Abandoned(d, id))
    && (Gone(s.handlers[id]) ==>
          Gone(h) && (id in s.tables.transactions ==> d.transactions[id].txHash == s.tables.transactions[id].txHash))
    && (id in s.tables.transactions ==> h.isNew == s.handlers[id].isNew)
    && (h.position !in s.tables.positions && h.position in d.positions ==> d.positions[h.position] == PendingPosition())
    && (id !in s.tables.transactions && id in d.transactions ==>
          d.transactions[id].status == TransactionStatus.CREATED &&
          if h.request.DepositRequest? then
            !DepositBlocked(s.tables, h.position) && h.isNew == (h.position !in s.tables.positions)
          else !HasOpenWithdraw(s.tables.transactions, h.position) && h.position in s.tables.positions)
    && Accounts(s.tables, d, h.position, moved, overwrites)
    && (moved != [] && moved[0].credit && overwrites ==>
           Activates(h) || s.tables.positions[h.position].status == PENDING)
    && LeavesPending(c, s.tables, d, id, h)
    && ConfirmApplies(c, s.tables, d, id, h, moved)
  }

  lemma HandleAdvances(c: Chain, s: State, id: Id, act: Act)
    requires Base(c, s) && Swept(s) && Enabled(c, s, Handle(id, act))
    ensures
      var turn := Perform(c, s.tables, id, s.handlers[id], act);
      Advanced(c, s, turn.tables, id, turn.handler, turn.moved, Activates(s.handlers[id]))
  {
    var h := s.handlers[id];
    assert LocalOk(c, s.tables, id, h);
    TurnTouches(c, s.tables, id, h, act);
    TurnKeepsRow(c, s.tables, id, h, act);
    TurnKeepsHandler(c, s.tables, id, h, act);
    TurnKeepsPosition(c, s.tables, id, h, act);
    TurnAccounts(c, s.tables, id, h, act);
    TurnOpens(c, s.tables, id, h, act);
    TurnLeavesPending(c, s.tables, id, h, act);
  }

  lemma DriveAdvances(c: Chain, s: State, p: nat, move: Move)
    requires Base(c, s) && Swept(s) && Enabled(c, s, Drive(p, move)) && !move.ListPending?
    ensures
      var w := s.passes[p].todo[0];
      var stage := DoWork(c, s.tables, w, move);
      w.id in s.handlers && Advanced(c, s, stage.tables, w.id, s.handlers[w.id], stage.moved, true)
  {
    var w := s.passes[p].todo[0];
    assert w in s.passes[p].todo && WorkOk(s.tables, w);
    var h := s.handlers[w.id];
    assert LocalOk(c, s.tables, w.id, h);
    WorkKeeps(c, s.tables, w, move, h);
    WorkAccounts(c, s.tables, w, move, h);
    WorkCloses(c, s.tables, w, move, h);
    WorkLeavesPending(c, s.tables, w, move, h);
  }

  function Next(s: State, d: Tables, id: Id, h: Handler, passes: map<nat, Pass>, moved: seq<Entry>): State {
    State(d, s.handlers[id := h], passes, s.log + moved)
  }

  /** An open row was open before the step, unless the step reserved it. */
  lemma OpenWasOpen(c: Chain, s: State, d: Tables, id: Id, h: Handler, moved: seq<Entry>, ov: bool, t: Id)
    requires Base(c, s) && Guarded(c, s) && Advanced(c, s, d, id, h, moved, ov) && t in d.transactions
    requires IsOpen(d.transactions[t])
    ensures
      (t == id && id !in s.tables.transactions)
      || (t in s.tables.transactions && IsOpen(s.tables.transactions[t])
          && s.tables.transactions[t].kind == d.transactions[t].kind
             && s.tables.transactions[t].position == d.transactions[t].position)
  {
  }

  /** A newly reserved row finds no open row of its kind on its position. */
  lemma NewRowIsSole(c: Chain, s: State, d: Tables, id: Id, h: Handler, moved: seq<Entry>, ov: bool, t: Id)
    requires Base(c, s) && Guarded(c, s) && Advanced(c, s, d, id, h, moved, ov)
    requires id !in s.tables.transactions && id in d.transactions && t in s.tables.transactions
    requires IsOpen(s.tables.transactions[t])
    ensures
      s.tables.transactions[t].kind != d.transactions[id].kind
          || s.tables.transactions[t].position != d.transactions[id].position
  {
    var row := s.tables.transactions[t];
    assert row.kind == DEPOSIT ==> HasOpenDeposit(s.tables.transactions, row.position);
    assert row.kind == WITHDRAW ==> HasOpenWithdraw(s.tables.transactions, row.position);
  }

  lemma AdvanceKeepsExclusive(c: Chain, s: State, d: Tables, id: Id, h: Handler, moved: seq<Entry>, ov: bool)
    requires Base(c, s) && Guarded(c, s) && Advanced(c, s, d, id, h, moved, ov)
    ensures Exclusive(d)
  {
    forall t, u | t in d.transactions && u in d.transactions && IsOpen(d.transactions[t]) && IsOpen(d.transactions[u])
                  && d.transactions[t].kind == d.transactions[u].kind
                     && d.transactions[t].position == d.transactions[u].position
      ensures t == u
    {
      OpenWasOpen(c, s, d, id, h, moved, ov, t);
      OpenWasOpen(c, s, d, id, h, moved, ov, u);
      if id !in s.tables.transactions && t != u {
        if t == id { NewRowIsSole(c, s, d, id, h, moved, ov, u); }
        if u == id { NewRowIsSole(c, s, d, id, h, moved, ov, t); }
      }
    }
  }

  /** A first deposit that is open after a step was open before it, unless the step reserved it. */
  lemma FirstWasOpen(c: Chain, s: State, d: Tables, id: Id, h: Handler, moved: seq<Entry>, ov: bool,
                     passes: map<nat, Pass>, t: Id)
    requires Base(c, s) && Guarded(c, s) && Advanced(c, s, d, id, h, moved, ov)
    requires FirstOpen(Next(s, d, id, h, passes, moved), t)
    ensures FirstOpen(s, t) || (t == id && id !in s.tables.transactions && h.position !in s.tables.positions)
  {
  }

  lemma RowsHavePositions(c: Chain, s: State)
    requires Base(c, s)
    ensures forall u | u in s.tables.transactions :: s.tables.transactions[u].position in s.tables.positions
  {
    forall u | u in s.tables.transactions ensures s.tables.transactions[u].position in s.tables.positions {
      assert LocalOk(c, s.tables, u, s.handlers[u]);
    }
  }

  lemma NewFirstIsSole(c: Chain, s: State, d: Tables, id: Id, h: Handler, moved: seq<Entry>, ov: bool, u: Id)
    requires Base(c, s) && Guarded(c, s) && Advanced(c, s, d, id, h, moved, ov) && h.position !in s.tables.positions
    requires u in d.transactions && d.transactions[u].position == h.position
    ensures u == id
  {
    RowsHavePositions(c, s);
  }

  lemma OldFirstStaysSole(c: Chain, s: State, d: Tables, id: Id, h: Handler, moved: seq<Entry>, ov: bool, t: Id, u: Id)
    requires Base(c, s) && Guarded(c, s) && Advanced(c, s, d, id, h, moved, ov) && FirstOpen(s, t)
    requires u in d.transactions && d.transactions[u].kind == DEPOSIT
    requires d.transactions[u].position == s.handlers[t].position
    ensures u == t
  {
    assert FirstOk(c, s, t) && RowOk(c, s.tables.transactions[t], s.handlers[t]);
    if u !in s.tables.transactions { assert HasOpenDeposit(s.tables.transactions, s.handlers[t].position); }
  }

  lemma FirstStaysSole(c: Chain, s: State, d: Tables, id: Id, h: Handler, moved: seq<Entry>, ov: bool,
                       passes: map<nat, Pass>, t: Id, u: Id)
    requires Base(c, s) && Guarded(c, s) && Advanced(c, s, d, id, h, moved, ov)
    requires FirstOpen(Next(s, d, id, h, passes, moved), t)
    requires u in d.transactions && d.transactions[u].kind == DEPOSIT
    requires d.transactions[u].position == s.handlers[id := h][t].position
    ensures u == t
  {
    FirstWasOpen(c, s, d, id, h, moved, ov, passes, t);
    if FirstOpen(s, t) {
      OldFirstStaysSole(c, s, d, id, h, moved, ov, t, u);
    } else {
      NewFirstIsSole(c, s, d, id, h, moved, ov, u);
    }
  }

  lemma FirstStaysZero(c: Chain, s: State, d: Tables, id: Id, h: Handler, moved: seq<Entry>, ov: bool,
                       passes: map<nat, Pass>, t: Id)
    requires Base(c, s) && Guarded(c, s) && Advanced(c, s, d, id, h, moved, ov)
    requires FirstOpen(Next(s, d, id, h, passes, moved), t)
    ensures var k := s.handlers[id := h][t].position; k in d.positions && d.positions[k].shares == 0
  {
    FirstWasOpen(c, s, d, id, h, moved, ov, passes, t);
    if FirstOpen(s, t) {
      assert FirstOk(c, s, t);
      if moved != [] && h.position == s.handlers[t].position { NoOtherMoves(c, s, d, id, h, moved, ov, t); }
    }
  }

  /**
   While a first deposit is open, only its own confirmation moves the balance, and that closes it; a debit finds
   nothing.
   */
  lemma NoOtherMoves(c: Chain, s: State, d: Tables, id: Id, h: Handler, moved: seq<Entry>, ov: bool, t: Id)
    requires Base(c, s) && Guarded(c, s) && Advanced(c, s, d, id, h, moved, ov)
    requires FirstOpen(s, t) && moved != [] && h.position == s.handlers[t].position
    ensures t in d.transactions && (moved[0].credit ==> !IsOpen(d.transactions[t]))
    ensures !moved[0].credit ==> d.positions[h.position].shares == 0
  {
    assert FirstOk(c, s, t) && RowOk(c, s.tables.transactions[id], s.handlers[id]) && EntryOk(d, moved[0]);
  }

  lemma FirstStaysPending(c: Chain, s: State, d: Tables, id: Id, h: Handler, moved: seq<Entry>, ov: bool,
                          passes: map<nat, Pass>, t: Id)
    requires Base(c, s) && Guarded(c, s) && Advanced(c, s, d, id, h, moved, ov)
    requires FirstOpen(Next(s, d, id, h, passes, moved), t)
    requires !Reverted(c, d.transactions[t].txHash)
    ensures var k := s.handlers[id := h][t].position; k in d.positions && d.positions[k].status == PENDING
  {
    FirstWasOpen(c, s, d, id, h, moved, ov, passes, t);
    FirstStaysZero(c, s, d, id, h, moved, ov, passes, t);
    if FirstOpen(s, t) {
      assert FirstOk(c, s, t);
      if h.position == s.handlers[t].position && id in d.transactions && h.request.DepositRequest? {
        FirstStaysSole(c, s, d, id, h, moved, ov, passes, t, id);
      }
    }
  }

  lemma AdvanceKeepsSweeps(c: Chain, s: State, d: Tables, id: Id, h: Handler, moved: seq<Entry>, ov: bool, w: Work)
    requires Base(c, s) && Guarded(c, s) && Advanced(c, s, d, id, h, moved, ov)
    requires w.id in s.handlers && WorkStale(s.tables, w, s.handlers[w.id])
    ensures WorkStale(d, w, s.handlers[id := h][w.id])
  {
  }

  lemma StillLogged(log: seq<Entry>, moved: seq<Entry>, t: Id)
    requires Logged(log, t)
    ensures Logged(log + moved, t)
  {
    var i :| 0 <= i < |log| && log[i].id == t;
    assert (log + moved)[i].id == t;
  }

  /** The confirmation of a first deposit is applied: until then its position is PENDING. */
  lemma ConfirmedFirstMoves(c: Chain, s: State, d: Tables, id: Id, h: Handler, moved: seq<Entry>, ov: bool)
    requires Base(c, s) && Guarded(c, s) && Advanced(c, s, d, id, h, moved, ov)
    requires id in s.tables.transactions && s.tables.transactions[id].status != TransactionStatus.CONFIRMED
    requires d.transactions[id].status == TransactionStatus.CONFIRMED && Activates(h)
    ensures |moved| == 1 && moved[0].id == id
  {
    assert FirstOpen(s, id) && FirstOk(c, s, id);
    assert Succeeded(c, d.transactions[id].txHash);
  }

  lemma FirstStaysCredited(c: Chain, s: State, d: Tables, id: Id, h: Handler, moved: seq<Entry>, ov: bool,
                           passes: map<nat, Pass>, t: Id)
    requires Base(c, s) && Guarded(c, s) && Advanced(c, s, d, id, h, moved, ov)
    requires t in d.transactions && d.transactions[t].status == TransactionStatus.CONFIRMED
    requires Activates(s.handlers[id := h][t])
    requires t in s.handlers
    ensures Logged(s.log + moved, t)
  {
    if t == id && s.tables.transactions[t].status != TransactionStatus.CONFIRMED {
      ConfirmedFirstMoves(c, s, d, id, h, moved, ov);
      assert (s.log + moved)[|s.log|].id == t;
    } else {
      StillLogged(s.log, moved, t);
    }
  }

  lemma AdvanceKeepsGuarded(c: Chain, s: State, d: Tables, id: Id, h: Handler, moved: seq<Entry>, ov: bool,
                            passes: map<nat, Pass>)
    requires Base(c, s) && Guarded(c, s) && Advanced(c, s, d, id, h, moved, ov)
    requires forall p, w | p in passes && w in passes[p].todo ::
        w.id in s.handlers && WorkStale(d, w, s.handlers[id := h][w.id])
    ensures Guarded(c, Next(s, d, id, h, passes, moved))
  {
    var s' := Next(s, d, id, h, passes, moved);
    AdvanceKeepsExclusive(c, s, d, id, h, moved, ov);
    forall t | FirstOpen(s', t) ensures FirstOk(c, s', t) {
      FirstStaysZero(c, s, d, id, h, moved, ov, passes, t);
      if !Reverted(c, d.transactions[t].txHash) { FirstStaysPending(c, s, d, id, h, moved, ov, passes, t); }
      forall u | u in d.transactions && d.transactions[u].kind == DEPOSIT
          && d.transactions[u].position == s'.handlers[t].position
        ensures u == t
      {
        FirstStaysSole(c, s, d, id, h, moved, ov, passes, t, u);
      }
    }
    forall t | t in d.transactions && d.transactions[t].status == TransactionStatus.CONFIRMED
               && t in s'.handlers && Activates(s'.handlers[t])
      ensures Logged(s'.log, t)
    {
      FirstStaysCredited(c, s, d, id, h, moved, ov, passes, t);
    }
    forall i | i in s'.handlers ensures NotSwept(d, i, s'.handlers[i]) {
      if i != id { assert NotSwept(s.tables, i, s.handlers[i]); }
    }
  }

  lemma HandleKeepsGuarded(c: Chain, s: State, id: Id, act: Act)
    requires Base(c, s) && Guarded(c, s) && Enabled(c, s, Handle(id, act))
    ensures Guarded(c, Apply(c, s, Handle(id, act)))
  {
    HandleAdvances(c, s, id, act);
    var turn := Perform(c, s.tables, id, s.handlers[id], act);
    var ov := Activates(s.handlers[id]);
    forall p, w | p in s.passes && w in s.passes[p].todo
      ensures w.id in s.handlers && WorkStale(turn.tables, w, s.handlers[id := turn.handler][w.id])
    {
      AdvanceKeepsSweeps(c, s, turn.tables, id, turn.handler, turn.moved, ov, w);
    }
    AdvanceKeepsGuarded(c, s, turn.tables, id, turn.handler, turn.moved, ov, s.passes);
  }

  lemma DriveKeepsSweeps(c: Chain, s: State, p: nat, move: Move, q: nat, v: Work)
    requires Base(c, s) && Guarded(c, s) && Enabled(c, s, Drive(p, move)) && !move.ListPending?
    requires var s' := Apply(c, s, Drive(p, move)); q in s'.passes && v in s'.passes[q].todo
    ensures v.id in s.handlers && WorkStale(Apply(c, s, Drive(p, move)).tables, v, s.handlers[v.id])
  {
    DriveAdvances(c, s, p, move);
    var todo := s.passes[p].todo;
    var w := todo[0];
    assert w in todo;
    var h := s.handlers[w.id];
    var stage := DoWork(c, s.tables, w, move);
    assert s.handlers[w.id := h] == s.handlers;
    WorkCloses(c, s.tables, w, move, h) by { assert WorkOk(s.tables, w) && LocalOk(c, s.tables, w.id, h); }
    if q != p || v !in stage.more {
      assert v in s.passes[q].todo;
      AdvanceKeepsSweeps(c, s, stage.tables, w.id, h, stage.moved, true, v);
    }
  }

  lemma DriveKeepsGuarded(c: Chain, s: State, p: nat, move: Move)
    requires Base(c, s) && Guarded(c, s) && Enabled(c, s, Drive(p, move)) && !move.ListPending?
    ensures Guarded(c, Apply(c, s, Drive(p, move)))
  {
    DriveAdvances(c, s, p, move);
    var w := s.passes[p].todo[0];
    var h := s.handlers[w.id];
    var stage := DoWork(c, s.tables, w, move);
    var passes := Apply(c, s, Drive(p, move)).passes;
    assert s.handlers[w.id := h] == s.handlers;
    forall q, v | q in passes && v in passes[q].todo
      ensures v.id in s.handlers && WorkStale(stage.tables, v, s.handlers[v.id])
    {
      DriveKeepsSweeps(c, s, p, move, q, v);
    }
    AdvanceKeepsGuarded(c, s, stage.tables, w.id, h, stage.moved, true, passes);
  }

  /** Arrivals and listings write no row. */
  lemma IdleKeepsGuarded(c: Chain, a: Assumptions, s: State, step: Step)
    requires Base(c, s) && Guarded(c, s) && Enabled(c, s, step) && Obeys(a, s, step) && a.sweepsOnlyDead
    requires !step.Handle? && (step.Drive? ==> step.move.ListPending?)
    ensures Guarded(c, Apply(c, s, step))
  {
    var s' := Apply(c, s, step);
    assert s'.tables == s.tables && s'.log == s.log;
    assert Swept(s') by {
      if step.Arrive? { assert step.id !in s.tables.transactions; }
    }
    forall t | FirstOpen(s', t) ensures FirstOk(c, s', t) {
      assert FirstOpen(s, t);
    }
  }

  lemma StepKeepsGuarded(c: Chain, a: Assumptions, s: State, step: Step)
    requires Base(c, s) && Guarded(c, s) && Enabled(c, s, step) && Obeys(a, s, step) && a.sweepsOnlyDead
    ensures Guarded(c, Apply(c, s, step))
  {
    if step.Handle? {
      HandleKeepsGuarded(c, s, step.id, step.act);
    } else if step.Drive? && !step.move.ListPending? {
      DriveKeepsGuarded(c, s, step.p, step.move);
    } else {
      IdleKeepsGuarded(c, a, s, step);
    }
  }
}
