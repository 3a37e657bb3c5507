/**
 The interleaving machine leaves nothing out: what an atomic command or edit would do, a
 transaction alone in the machine can be scheduled to do.
 */
module Solo {
  import opened Base
  import opened Calendar
  import opened Schedule
  import opened Model
  import opened Commands
  import opened Invariants
  import opened Transactions
  import opened Serializability
  import Concurrency

  // ----------------------------------------------------------- visit commands

  lemma ReachedThen(s: Sys, actions: seq<Action>, a: Action)
    requires Reached(s, actions).Some? && Enabled(Reached(s, actions).value, a)
    ensures Reached(s, actions + [a]) == Some(After(Reached(s, actions).value, a))
  {
    assert (actions + [a])[..|actions|] == actions;
  }

  /** State s with a single live transaction t on top. */
  function Alone(s: Sys, t: TxnId, locks: map<Lock, TxnId>, v: VisitTxn): Sys {
    s.(locks := locks, txns := s.txns[t := Visiting(v)])
  }

  /** A step of t that takes the locks `more` and changes its own state to v'. */
  lemma SoloStep(s: Sys, t: TxnId, locks: map<Lock, TxnId>, v: VisitTxn, actions: seq<Action>, a: Action,
                 locks': map<Lock, TxnId>, v': VisitTxn)
    requires Reached(s, actions) == Some(Alone(s, t, locks, v))
    requires Owner(a) == t && !a.Tick? && !a.BeginVisit? && !a.BeginEdit? && !a.Abort?
    requires EnabledVisit(Alone(s, t, locks, v), a, t)
    requires AfterVisit(Alone(s, t, locks, v), a, t) == Alone(s, t, locks, v).(locks := locks').WithVisit(t, v')
    ensures Reached(s, actions + [a]) == Some(Alone(s, t, locks', v'))
  {
    hide EnabledVisit, AfterVisit, EnabledEdit, AfterEdit;
    ReachedThen(s, actions, a);
    assert s.txns[t := Visiting(v)][t := Visiting(v')] == s.txns[t := Visiting(v')];
  }

  /** The transaction of a lone visit command once it holds its barber and has read clock and row. */
  function Prepared(rows: Rows, cmd: Visit, now: Instant): VisitTxn {
    VisitTxn(cmd, Inserted, TargetBarber(rows, cmd), TargetBarber(rows, cmd),
             Some(now), Some(SeenIn(rows, cmd)), None, None, None)
  }

  function PreparedLocks(rows: Rows, cmd: Visit, t: TxnId): map<Lock, TxnId>
    requires TargetBarber(rows, cmd).Some?
  {
    map[ReceiptLock(cmd.Identity()) := t, BarberLock(TargetBarber(rows, cmd).value) := t]
  }

  lemma SoloClaims(s: Sys, t: TxnId, cmd: Visit) returns (actions: seq<Action>)
    requires t !in s.txns && s.locks == map[] && cmd.WellFormed()
    requires cmd.Identity() !in s.rows.receipts && TargetBarber(s.rows, cmd).Some?
    ensures var v := VisitTxn(cmd, Inserted, TargetBarber(s.rows, cmd), None, None, None, None, None, None);
            Reached(s, actions) == Some(Alone(s, t, map[ReceiptLock(cmd.Identity()) := t], v))
  {
    hide SeenIn, GateOf, PlanSeen, TargetBarber;
    var v := VisitTxn(cmd, Unclaimed, None, None, None, None, None, None, None);
    var claimed := map[ReceiptLock(cmd.Identity()) := t];
    ReachedThen(s, [], BeginVisit(t, cmd));
    actions := [BeginVisit(t, cmd)];
    assert [] + actions == actions;
    SoloStep(s, t, map[], v, actions, ClaimReceipt(t), claimed, v.(claim := Inserted));
    actions := actions + [ClaimReceipt(t)];
    SoloStep(s, t, claimed, v.(claim := Inserted), actions, ReadTarget(t),
             claimed, v.(claim := Inserted, target := TargetBarber(s.rows, cmd)));
    actions := actions + [ReadTarget(t)];
  }

  lemma SoloPrepares(s: Sys, t: TxnId, cmd: Visit) returns (actions: seq<Action>)
    requires t !in s.txns && s.locks == map[] && cmd.WellFormed()
    requires cmd.Identity() !in s.rows.receipts && TargetBarber(s.rows, cmd).Some?
    ensures Reached(s, actions) ==
            Some(Alone(s, t, PreparedLocks(s.rows, cmd, t), Prepared(s.rows, cmd, s.clock)))
  {
    actions := SoloClaims(s, t, cmd);
    hide SeenIn, GateOf, PlanSeen, TargetBarber;
    var target := TargetBarber(s.rows, cmd);
    var v := VisitTxn(cmd, Inserted, target, None, None, None, None, None, None);
    var locks := PreparedLocks(s.rows, cmd, t);
    assert map[ReceiptLock(cmd.Identity()) := t][BarberLock(target.value) := t] == locks;
    SoloStep(s, t, map[ReceiptLock(cmd.Identity()) := t], v, actions, LockBarber(t), locks, v.(barber := target));
    actions := actions + [LockBarber(t)];
    SoloStep(s, t, locks, v.(barber := target), actions, ReadClock(t), locks,
             v.(barber := target, now := Some(s.clock)));
    actions := actions + [ReadClock(t)];
    SoloStep(s, t, locks, v.(barber := target, now := Some(s.clock)), actions, ReadRow(t),
             locks, Prepared(s.rows, cmd, s.clock));
    actions := actions + [ReadRow(t)];
  }

  /** Both dates' shifts, when the guards consult the schedule. */
  lemma SoloConsults(s: Sys, t: TxnId, locks: map<Lock, TxnId>, v: VisitTxn, actions: seq<Action>)
      returns (actions': seq<Action>, v': VisitTxn)
    requires Reached(s, actions) == Some(Alone(s, t, locks, v))
    requires v.seen.Some? && v.now.Some? && v.before.None? && v.today.None? && v.written.None?
    ensures v' == v.(before := v'.before, today := v'.today) && ReadyToWrite(s.rows.catalog, v')
    ensures Reached(s, actions') == Some(Alone(s, t, locks, v'))
  {
    hide SeenIn, GateOf, PlanSeen, ShiftsOn;
    actions', v' := actions, v;
    if Consulting(s.rows.catalog, v) {
      v' := v.(before := Some(ShiftsRead(s.rows, v, VisitDate(s.rows.catalog, v) - 1)));
      SoloStep(s, t, locks, v, actions, ReadBefore(t), locks, v');
      actions' := actions + [ReadBefore(t)];
      var v'' := v'.(today := Some(ShiftsRead(s.rows, v', VisitDate(s.rows.catalog, v'))));
      SoloStep(s, t, locks, v', actions', ReadToday(t), locks, v'');
      actions', v' := actions' + [ReadToday(t)], v'';
    }
  }

  lemma AnsweredHasTarget(rows: Rows, cmd: Visit, draw: Draw)
    requires cmd.Identity() !in rows.receipts && Execute(rows, cmd, draw).1.Answered?
    ensures TargetBarber(rows, cmd).Some?
  {
    hide MayStart, FitIn, VerdictOn, Stored;
  }

  /** A command the rows would answer gets past its guards and its constraints. */
  lemma AnsweredGoesThrough(s: Sys, v: VisitTxn, draw: Draw)
    requires ReadsCurrent(s.rows, s.clock, v) && ReadyToWrite(s.rows.catalog, v)
    requires v.seen.value == SeenIn(s.rows, v.cmd) && draw.now == v.now.value
    requires v.cmd.Identity() !in s.rows.receipts && Execute(s.rows, v.cmd, draw).1.Answered?
    requires forall l | l in s.locks :: l.ReceiptLock? || l.BarberLock?
    ensures WriteGoesThrough(s, PlanSeen(s.rows.catalog, v, draw))
  {
    FitIsCurrent(s.rows, s.clock, v);
    hide GateOf, PlanOf, FitIn, SeenIn, FitSeen, ReadsCurrent, Finish, WriteGoesThrough;
    assert Effect(s.rows, v.cmd, draw) == Finish(s.rows, PlanSeen(s.rows.catalog, v, draw));
    DoneGoesThrough(s, PlanSeen(s.rows.catalog, v, draw));
  }

  lemma DoneGoesThrough(s: Sys, plan: Plan)
    requires Finish(s.rows, plan).Done? && forall l | l in s.locks :: l.ReceiptLock? || l.BarberLock?
    ensures WriteGoesThrough(s, plan)
  {
    hide VerdictOn, Stored;
  }

  /**
   The machine refuses nothing the atomic command grants: alone, a visit command the rows
   would answer can be scheduled to its commit, with the answer and rows of `Execute`.
   */
  lemma LoneCommandCommits(s: Sys, t: TxnId, cmd: Visit, draw: Draw) returns (actions: seq<Action>)
    requires SysInv(s) && t !in s.txns && s.locks == map[] && cmd.WellFormed()
    requires cmd.Identity() !in s.rows.receipts && draw.now == s.clock && Execute(s.rows, cmd, draw).1.Answered?
    ensures Reached(s, actions).Some?
    ensures var s' := Reached(s, actions).value; var (rows', answer) := Execute(s.rows, cmd, draw);
            s'.rows == rows' && s'.log == s.log + [Logged(VisitAt(cmd, draw), answer)]
  {
    AnsweredHasTarget(s.rows, cmd, draw);
    hide Execute, SysInv, Reached, ReadyToWrite, TargetBarber, SeenIn;
    var ready;
    actions, ready := SoloReady(s, t, cmd, draw);
    SoloWrites(s, ready, t, draw, actions);
    actions := actions + [WriteBooking(t, draw)];
    ReachedKeeps(s, actions);
    actions := SoloCommits(s, Reached(s, actions).value, t, cmd, draw, actions);
  }

  /** The command has made all its reads and holds nothing but its receipt and its barber. */
  lemma SoloReady(s: Sys, t: TxnId, cmd: Visit, draw: Draw) returns (actions: seq<Action>, ready: Sys)
    requires t !in s.txns && s.locks == map[] && cmd.WellFormed() && draw.now == s.clock
    requires cmd.Identity() !in s.rows.receipts && TargetBarber(s.rows, cmd).Some?
    ensures Reached(s, actions) == Some(ready) && ready.IsVisit(t) && ready.rows == s.rows && ready.log == s.log
    ensures forall l | l in ready.locks :: l.ReceiptLock? || l.BarberLock?
    ensures var v := ready.txns[t].v;
            v.cmd == cmd && v.seen == Some(SeenIn(s.rows, cmd)) && v.now == Some(draw.now)
            && ReadyToWrite(s.rows.catalog, v)
  {
    actions := SoloPrepares(s, t, cmd);
    var locks := PreparedLocks(s.rows, cmd, t);
    hide Reached, ReadyToWrite, TargetBarber, SeenIn;
    var v: VisitTxn;
    actions, v := SoloConsults(s, t, locks, Prepared(s.rows, cmd, s.clock), actions);
    ready := Alone(s, t, locks, v);
  }

  lemma SoloWrites(s: Sys, ready: Sys, t: TxnId, draw: Draw, actions: seq<Action>)
    requires SysInv(s) && Reached(s, actions) == Some(ready) && ready.IsVisit(t)
    requires forall l | l in ready.locks :: l.ReceiptLock? || l.BarberLock?
    requires ReadyToWrite(ready.rows.catalog, ready.txns[t].v)
    requires var v := ready.txns[t].v;
             && v.seen.value == SeenIn(ready.rows, v.cmd) && v.now == Some(draw.now)
             && v.cmd.Identity() !in ready.rows.receipts && Execute(ready.rows, v.cmd, draw).1.Answered?
    ensures var r := Reached(s, actions + [WriteBooking(t, draw)]);
            && r.Some? && r.value.rows == ready.rows && r.value.log == ready.log && r.value.IsVisit(t)
            && r.value.txns[t].v.cmd == ready.txns[t].v.cmd
            && r.value.txns[t].v.written.Some? && r.value.txns[t].v.written.value.draw == draw
  {
    ReachedKeeps(s, actions);
    TxnReadsCurrent(ready, t);
    AnsweredGoesThrough(ready, ready.txns[t].v, draw);
    hide Reached, SysInv, ReadsCurrent, SeenIn, Execute, PlanSeen, WriteGoesThrough, ReadyToWrite, EnabledVisit, After;
    WriteEnabled(ready, t, draw);
    ReachedThen(s, actions, WriteBooking(t, draw));
    AfterWrite(ready, t, draw);
  }

  lemma WriteEnabled(s: Sys, t: TxnId, draw: Draw)
    requires s.IsVisit(t) && ReadyToWrite(s.rows.catalog, s.txns[t].v) && s.txns[t].v.now == Some(draw.now)
    requires WriteGoesThrough(s, PlanSeen(s.rows.catalog, s.txns[t].v, draw))
    ensures EnabledVisit(s, WriteBooking(t, draw), t) && Enabled(s, WriteBooking(t, draw))
  {
    hide PlanSeen, WriteGoesThrough, EnabledEdit, Consulting;
  }

  lemma AfterWrite(s: Sys, t: TxnId, draw: Draw)
    requires EnabledVisit(s, WriteBooking(t, draw), t) && Enabled(s, WriteBooking(t, draw))
    ensures var s' := After(s, WriteBooking(t, draw));
            && s'.rows == s.rows && s'.log == s.log && s'.IsVisit(t)
            && s'.txns[t].v.cmd == s.txns[t].v.cmd
            && s'.txns[t].v.written.Some? && s'.txns[t].v.written.value.draw == draw
  {
    hide PlanSeen, WriteGoesThrough, EnabledEdit, VerdictOn, Enabled;
  }

  lemma TxnReadsCurrent(s: Sys, t: TxnId)
    requires SysInv(s) && s.IsVisit(t)
    ensures ReadsCurrent(s.rows, s.clock, s.txns[t].v)
  {
    hide Inv, LogSerial, ReadsCurrent, WriteInv, ClaimInv, BarberInv;
  }

  lemma SoloCommits(s: Sys, written: Sys, t: TxnId, cmd: Visit, draw: Draw, actions: seq<Action>)
      returns (actions': seq<Action>)
    requires Reached(s, actions) == Some(written) && SysInv(written)
    requires written.IsVisit(t) && written.txns[t].v.cmd == cmd
    requires written.txns[t].v.written.Some? && written.txns[t].v.written.value.draw == draw
    ensures Reached(s, actions').Some?
    ensures var s' := Reached(s, actions').value; var (rows', answer) := Execute(written.rows, cmd, draw);
            s'.rows == rows' && s'.log == written.log + [Logged(VisitAt(cmd, draw), answer)]
  {
    var v := written.txns[t].v;
    assert VisitInv(written.rows, written.clock, HeldBy(written.locks, t), v) by { hide VisitInv, Inv, LogSerial; }
    CommitIsAtomic(written.rows, written.clock, HeldBy(written.locks, t), v);
    hide Reached, SysInv, Execute, PlanSeen, Published, ClaimInv, BarberInv, ReadsCurrent;
    ReachedThen(s, actions, CommitVisit(t));
    actions' := actions + [CommitVisit(t)];
  }

  // ------------------------------------------------------------ catalog edits

  function AloneEditing(s: Sys, t: TxnId, locks: map<Lock, TxnId>, e: EditTxn): Sys {
    s.(locks := locks, txns := s.txns[t := Editing(e)])
  }

  lemma SoloEditStep(s: Sys, t: TxnId, locks: map<Lock, TxnId>, e: EditTxn, actions: seq<Action>, a: Action,
                     locks': map<Lock, TxnId>, e': EditTxn)
    requires Reached(s, actions) == Some(AloneEditing(s, t, locks, e))
    requires Owner(a) == t && !a.Tick? && !a.BeginVisit? && !a.BeginEdit? && !a.Abort?
    requires EnabledEdit(AloneEditing(s, t, locks, e), a, t)
    requires AfterEdit(AloneEditing(s, t, locks, e), a, t)
             == AloneEditing(s, t, locks, e).(locks := locks').WithEdit(t, e')
    ensures Reached(s, actions + [a]) == Some(AloneEditing(s, t, locks', e'))
  {
    assert !EnabledVisit(AloneEditing(s, t, locks, e), a, t);
    hide EnabledVisit, AfterVisit, EnabledEdit, AfterEdit;
    ReachedThen(s, actions, a);
    assert s.txns[t := Editing(e)][t := Editing(e')] == s.txns[t := Editing(e')];
  }

  function Fresh(edit: Edit): EditTxn { EditTxn(edit, None, None, 0, None, None, None, None, false) }

  /** The branch's lock, then the first k of its barbers'. */
  function EditLocksUpTo(c: Catalog, branch: Id, k: nat, t: TxnId): map<Lock, TxnId>
    requires k <= |BarbersOf(c, branch)|
  {
    if k == 0 then map[BranchLock(branch) := t]
    else EditLocksUpTo(c, branch, k - 1, t)[BarberLock(BarbersOf(c, branch)[k - 1]) := t]
  }

  lemma SoloLocksBranch(s: Sys, t: TxnId, edit: Edit, branch: Id) returns (actions: seq<Action>)
    requires t !in s.txns && s.locks == map[] && EditedBranch(s.rows, edit) == Some(branch)
    requires branch in s.rows.catalog.branches
    ensures Reached(s, actions) ==
            Some(AloneEditing(s, t, EditLocksUpTo(s.rows.catalog, branch, 0, t),
                              Fresh(edit).(home := Some(branch), branch := Some(branch))))
  {
    hide RowOf, BarbersOf, EditedBranch;
    ReachedThen(s, [], BeginEdit(t, edit));
    actions := [BeginEdit(t, edit)];
    assert [] + actions == actions;
    assert Reached(s, actions) == Some(AloneEditing(s, t, map[], Fresh(edit)));
    SoloReadsHome(s, t, edit, branch, actions);
    actions := actions + [ReadHome(t)];
    SoloTakesBranch(s, t, edit, branch, actions);
    actions := actions + [LockBranch(t)];
  }

  lemma SoloReadsHome(s: Sys, t: TxnId, edit: Edit, branch: Id, actions: seq<Action>)
    requires Reached(s, actions) == Some(AloneEditing(s, t, map[], Fresh(edit)))
    requires EditedBranch(s.rows, edit) == Some(branch)
    ensures Reached(s, actions + [ReadHome(t)]) == Some(AloneEditing(s, t, map[], Fresh(edit).(home := Some(branch))))
  {
    hide RowOf, BarbersOf, EditedBranch, AllLocked, RowValid, FutureVerdict, Matches;
    SoloEditStep(s, t, map[], Fresh(edit), actions, ReadHome(t), map[], Fresh(edit).(home := Some(branch)));
  }

  lemma SoloTakesBranch(s: Sys, t: TxnId, edit: Edit, branch: Id, actions: seq<Action>)
    requires Reached(s, actions) == Some(AloneEditing(s, t, map[], Fresh(edit).(home := Some(branch))))
    requires branch in s.rows.catalog.branches
    ensures Reached(s, actions + [LockBranch(t)]) ==
            Some(AloneEditing(s, t, EditLocksUpTo(s.rows.catalog, branch, 0, t),
                              Fresh(edit).(home := Some(branch), branch := Some(branch))))
  {
    hide RowOf, BarbersOf, EditedBranch, AllLocked, RowValid, FutureVerdict, Matches;
    assert map[BranchLock(branch) := t] == EditLocksUpTo(s.rows.catalog, branch, 0, t);
    var e := Fresh(edit).(home := Some(branch));
    SoloEditStep(s, t, map[], e, actions, LockBranch(t), map[BranchLock(branch) := t], e.(branch := Some(branch)));
  }

  lemma {:induction false} SoloLocksBarbers(s: Sys, t: TxnId, edit: Edit, branch: Id, k: nat)
      returns (actions: seq<Action>)
    requires t !in s.txns && s.locks == map[] && EditedBranch(s.rows, edit) == Some(branch)
    requires branch in s.rows.catalog.branches
    requires k <= |BarbersOf(s.rows.catalog, branch)|
    ensures Reached(s, actions) ==
            Some(AloneEditing(s, t, EditLocksUpTo(s.rows.catalog, branch, k, t),
                              Fresh(edit).(home := Some(branch), branch := Some(branch), barbersLocked := k)))
  {
    if k == 0 {
      actions := SoloLocksBranch(s, t, edit, branch);
    } else {
      var c := s.rows.catalog;
      actions := SoloLocksBarbers(s, t, edit, branch, k - 1);
      var e := Fresh(edit).(home := Some(branch), branch := Some(branch), barbersLocked := k - 1);
      NextBarberFree(c, branch, k - 1, t, k - 1);
      hide BarbersOf, EditedBranch, Reached;
      SoloLocksNext(s, t, EditLocksUpTo(c, branch, k - 1, t), e, actions);
      actions := actions + [LockNextBarber(t)];
    }
  }

  lemma SoloLocksNext(s: Sys, t: TxnId, locks: map<Lock, TxnId>, e: EditTxn, actions: seq<Action>)
    requires Reached(s, actions) == Some(AloneEditing(s, t, locks, e)) && e.branch.Some?
    requires e.barbersLocked < |BarbersOf(s.rows.catalog, e.branch.value)|
    requires BarberLock(BarbersOf(s.rows.catalog, e.branch.value)[e.barbersLocked]) !in locks
    ensures Reached(s, actions + [LockNextBarber(t)]) ==
            Some(AloneEditing(s, t, locks[BarberLock(BarbersOf(s.rows.catalog, e.branch.value)[e.barbersLocked]) := t],
                              e.(barbersLocked := e.barbersLocked + 1)))
  {
    hide AllLocked, RowValid, RowOf, FutureVerdict, Matches, BarbersOf;
    SoloEditStep(s, t, locks, e, actions, LockNextBarber(t),
                 locks[BarberLock(BarbersOf(s.rows.catalog, e.branch.value)[e.barbersLocked]) := t],
                 e.(barbersLocked := e.barbersLocked + 1));
  }

  lemma {:induction false} NextBarberFree(c: Catalog, branch: Id, k: nat, t: TxnId, next: nat)
    requires k <= next < |BarbersOf(c, branch)|
    ensures BarberLock(BarbersOf(c, branch)[next]) !in EditLocksUpTo(c, branch, k, t)
  {
    if k > 0 {
      NextBarberFree(c, branch, k - 1, t, next);
      assert BarbersOf(c, branch)[k - 1] < BarbersOf(c, branch)[next];
    }
  }

  /** Everything up to the re-check, under all locks. */
  lemma SoloRewrites(s: Sys, t: TxnId, edit: Edit, branch: Id)
      returns (actions: seq<Action>, locks: map<Lock, TxnId>, e: EditTxn)
    requires t !in s.txns && s.locks == map[] && Rewritten(s.rows, edit).Ok?
    requires EditedBranch(s.rows, edit) == Some(branch)
    ensures Reached(s, actions) == Some(AloneEditing(s, t, locks, e))
    ensures e.edit == edit && e.buffered.Some? && e.now == Some(s.clock) && e.future == None && !e.checked
    ensures e.buffered.value.Barber().Some? <==> !edit.EditService?
  {
    var all := |BarbersOf(s.rows.catalog, branch)|;
    actions := SoloLocksBarbers(s, t, edit, branch, all);
    locks := EditLocksUpTo(s.rows.catalog, branch, all, t);
    e := Fresh(edit).(home := Some(branch), branch := Some(branch), barbersLocked := all);
    hide BarbersOf, EditLocksUpTo;
    actions, e := SoloWritesRow(s, t, locks, e, actions);
  }

  lemma SoloWritesRow(s: Sys, t: TxnId, locks: map<Lock, TxnId>, e: EditTxn, actions: seq<Action>)
      returns (actions': seq<Action>, e': EditTxn)
    requires Reached(s, actions) == Some(AloneEditing(s, t, locks, e)) && Rewritten(s.rows, e.edit).Ok?
    requires AllLocked(s.rows.catalog, e)
    requires e == Fresh(e.edit).(home := e.home, branch := e.branch, barbersLocked := e.barbersLocked)
    ensures Reached(s, actions') == Some(AloneEditing(s, t, locks, e'))
    ensures e'.edit == e.edit && e'.buffered.Some? && e'.now == Some(s.clock) && e'.future == None && !e'.checked
    ensures e'.buffered.value.Barber().Some? <==> !e.edit.EditService?
  {
    var row := RowOf(s.rows, e.edit);
    RewritableRow(s.rows, e.edit);
    hide RowValid, RowOf, Changed, Matches, Rewritten, AllLocked;
    SoloReadsRow(s, t, locks, e, actions);
    actions', e' := actions + [ReadEdited(t)], e.(row := row);
    SoloBuffers(s, t, locks, e', actions');
    actions', e' := actions' + [WriteEdited(t)], e'.(buffered := Some(Changed(e.edit, row.value)));
    SoloReadsClock(s, t, locks, e', actions');
    actions', e' := actions' + [ReadEditClock(t)], e'.(now := Some(s.clock));
  }

  lemma SoloReadsRow(s: Sys, t: TxnId, locks: map<Lock, TxnId>, e: EditTxn, actions: seq<Action>)
    requires Reached(s, actions) == Some(AloneEditing(s, t, locks, e))
    requires AllLocked(s.rows.catalog, e) && e.row.None? && RowOf(s.rows, e.edit).Some?
    ensures Reached(s, actions + [ReadEdited(t)]) == Some(AloneEditing(s, t, locks, e.(row := RowOf(s.rows, e.edit))))
  {
    hide AllLocked, RowValid, RowOf, FutureVerdict, Matches;
    SoloEditStep(s, t, locks, e, actions, ReadEdited(t), locks, e.(row := RowOf(s.rows, e.edit)));
  }

  lemma SoloBuffers(s: Sys, t: TxnId, locks: map<Lock, TxnId>, e: EditTxn, actions: seq<Action>)
    requires Reached(s, actions) == Some(AloneEditing(s, t, locks, e)) && e.row.Some? && e.buffered.None?
    requires !e.edit.unknownField && Matches(e.edit, e.row.value)
    requires RowValid(s.rows, e.edit.id, Changed(e.edit, e.row.value))
    ensures Reached(s, actions + [WriteEdited(t)])
            == Some(AloneEditing(s, t, locks, e.(buffered := Some(Changed(e.edit, e.row.value)))))
  {
    hide AllLocked, RowValid, RowOf, FutureVerdict, Changed;
    SoloEditStep(s, t, locks, e, actions, WriteEdited(t), locks, e.(buffered := Some(Changed(e.edit, e.row.value))));
  }

  lemma SoloReadsClock(s: Sys, t: TxnId, locks: map<Lock, TxnId>, e: EditTxn, actions: seq<Action>)
    requires Reached(s, actions) == Some(AloneEditing(s, t, locks, e)) && e.buffered.Some? && e.now.None?
    ensures Reached(s, actions + [ReadEditClock(t)]) == Some(AloneEditing(s, t, locks, e.(now := Some(s.clock))))
  {
    hide AllLocked, RowValid, RowOf, FutureVerdict, Matches;
    SoloEditStep(s, t, locks, e, actions, ReadEditClock(t), locks, e.(now := Some(s.clock)));
  }

  lemma RewritableRow(rows: Rows, edit: Edit)
    requires Rewritten(rows, edit).Ok?
    ensures var row := RowOf(rows, edit);
            && row.Some? && Matches(edit, row.value) && !edit.unknownField
            && RowValid(rows, edit.id, Changed(edit, row.value))
            && (Changed(edit, row.value).Barber().Some? <==> !edit.EditService?)
  {
    hide RowValid;
  }

  /** Alone, an edit the rows would accept can be scheduled to its commit, with the rows of `ExecuteEdit`. */
  lemma LoneEditCommits(s: Sys, t: TxnId, edit: Edit) returns (actions: seq<Action>)
    requires SysInv(s) && t !in s.txns && s.locks == map[] && ExecuteEdit(s.rows, edit, s.clock).1 == Edited
    ensures Reached(s, actions).Some?
    ensures var s' := Reached(s, actions).value;
            s'.rows == ExecuteEdit(s.rows, edit, s.clock).0 && s'.log == s.log + [Logged(EditAt(edit, s.clock), Edited)]
  {
    AcceptedIsRewritten(s.rows, edit, s.clock);
    hide Reached, SysInv, ExecuteEdit, EditedBranch, Rewritten;
    var branch := EditedBranch(s.rows, edit).value;
    var locks, e;
    actions, locks, e := SoloRewrites(s, t, edit, branch);
    hide AloneEditing;
    actions := SoloFinishesEdit(s, t, locks, e, actions);
  }

  lemma SoloFinishesEdit(s: Sys, t: TxnId, locks: map<Lock, TxnId>, e: EditTxn, actions: seq<Action>)
      returns (actions': seq<Action>)
    requires SysInv(s) && Reached(s, actions) == Some(AloneEditing(s, t, locks, e))
    requires ExecuteEdit(s.rows, e.edit, s.clock).1 == Edited
    requires e.buffered.Some? && e.now == Some(s.clock) && e.future == None && !e.checked
    requires e.buffered.value.Barber().Some? <==> !e.edit.EditService?
    ensures Reached(s, actions').Some?
    ensures var s' := Reached(s, actions').value;
            s'.rows == ExecuteEdit(s.rows, e.edit, s.clock).0
            && s'.log == s.log + [Logged(EditAt(e.edit, s.clock), Edited)]
  {
    hide Reached, SysInv, ExecuteEdit;
    actions' := actions;
    var last := e;
    if !e.edit.EditService? { actions', last := SoloChecks(s, t, locks, e, actions); }
    ReachedKeeps(s, actions');
    actions' := SoloCommitsEdit(s, AloneEditing(s, t, locks, last), t, actions');
  }

  lemma AcceptedIsRewritten(rows: Rows, edit: Edit, now: Instant)
    requires ExecuteEdit(rows, edit, now).1 == Edited
    ensures Rewritten(rows, edit).Ok? && EditedBranch(rows, edit).Some?
  {
    hide Recheck, RowValid;
  }

  lemma SoloChecks(s: Sys, t: TxnId, locks: map<Lock, TxnId>, e: EditTxn, actions: seq<Action>)
      returns (actions': seq<Action>, e': EditTxn)
    requires SysInv(s) && Reached(s, actions) == Some(AloneEditing(s, t, locks, e))
    requires ExecuteEdit(s.rows, e.edit, s.clock).1 == Edited
    requires e.buffered.Some? && e.buffered.value.Barber().Some? && e.now == Some(s.clock) && e.future == None
    requires !e.checked
    ensures Reached(s, actions') == Some(AloneEditing(s, t, locks, e'))
    ensures e'.edit == e.edit && e'.buffered == e.buffered && e'.now == e.now && e'.checked
  {
    var future := BookingsOf(s.rows.bookings, e.buffered.value.Barber().value);
    hide SysInv, ExecuteEdit, FutureVerdict, BookingsOf, EditReads, EditLocks, Reached;
    SoloReadsFuture(s, t, locks, e, actions);
    actions', e' := actions + [ReadFuture(t)], e.(future := Some(future));
    ReachedKeeps(s, actions');
    EditingTxn(AloneEditing(s, t, locks, e'), t);
    Concurrency.EditDecides(s.rows, s.clock, HeldBy(locks, t), e');
    SoloPassesCheck(s, t, locks, e', actions');
    actions', e' := actions' + [CheckFuture(t)], e'.(checked := true);
  }

  lemma SoloReadsFuture(s: Sys, t: TxnId, locks: map<Lock, TxnId>, e: EditTxn, actions: seq<Action>)
    requires Reached(s, actions) == Some(AloneEditing(s, t, locks, e))
    requires e.buffered.Some? && e.buffered.value.Barber().Some? && e.now.Some? && e.future.None?
    ensures Reached(s, actions + [ReadFuture(t)])
            == Some(AloneEditing(s, t, locks,
                                    e.(future := Some(BookingsOf(s.rows.bookings, e.buffered.value.Barber().value)))))
  {
    hide AllLocked, RowValid, RowOf, FutureVerdict, Matches, BookingsOf;
    SoloEditStep(s, t, locks, e, actions, ReadFuture(t), locks,
                 e.(future := Some(BookingsOf(s.rows.bookings, e.buffered.value.Barber().value))));
  }

  lemma SoloPassesCheck(s: Sys, t: TxnId, locks: map<Lock, TxnId>, e: EditTxn, actions: seq<Action>)
    requires Reached(s, actions) == Some(AloneEditing(s, t, locks, e))
    requires e.now.Some? && e.future.Some? && !e.checked && FutureVerdict(s.rows, e) == None
    ensures Reached(s, actions + [CheckFuture(t)]) == Some(AloneEditing(s, t, locks, e.(checked := true)))
  {
    hide AllLocked, RowValid, RowOf, FutureVerdict, Matches;
    SoloEditStep(s, t, locks, e, actions, CheckFuture(t), locks, e.(checked := true));
  }

  lemma SoloCommitsEdit(s: Sys, last: Sys, t: TxnId, actions: seq<Action>) returns (actions': seq<Action>)
    requires Reached(s, actions) == Some(last) && SysInv(last) && last.IsEdit(t)
    requires var e := last.txns[t].e; e.buffered.Some? && (e.checked || e.edit.EditService?) && e.now.Some?
    ensures Reached(s, actions').Some?
    ensures var s' := Reached(s, actions').value; var e := last.txns[t].e;
            s'.rows == ExecuteEdit(last.rows, e.edit, e.now.value).0
            && s'.log == last.log + [Logged(EditAt(e.edit, e.now.value), Edited)]
  {
    EditingTxn(last, t);
    EditIsAtomic(last.rows, last.clock, HeldBy(last.locks, t), last.txns[t].e);
    hide Reached, SysInv, ExecuteEdit, Patched, EditReads, EditLocks;
    ReachedThen(s, actions, CommitEdit(t));
    actions' := actions + [CommitEdit(t)];
  }

  lemma EditingTxn(s: Sys, t: TxnId)
    requires SysInv(s) && s.IsEdit(t)
    ensures EditLocks(s.rows, HeldBy(s.locks, t), s.txns[t].e) && EditReads(s.rows, s.clock, s.txns[t].e)
  {
    assert TxnInv(s.rows, s.clock, HeldBy(s.locks, t), s.txns[t]);
    hide Inv, LogSerial, EditLocks, EditReads;
  }
}
