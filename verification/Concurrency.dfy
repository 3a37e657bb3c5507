/** What the interleavings guarantee, state by state. */
module Concurrency {
  import opened Base
  import opened Calendar
  import opened Schedule
  import opened Model
  import opened Commands
  import opened Invariants
  import opened Lifecycle
  import opened Transactions
  import opened Serializability
  import Idempotency

  /** In every state of every interleaving, seen at the database clock. */
  lemma EveryStateIsSafe(rows: Rows, clock: Instant, actions: seq<Action>)
    requires Inv(rows, clock) && Reached(Initial(rows, clock), actions).Some?
    ensures var s := Reached(Initial(rows, clock), actions).value; var bookings := s.rows.bookings;
            && (forall id | id in bookings && bookings[id].status != Cancelled && bookings[id].startAt >= s.clock ::
                  BookingFitsRows(s.rows, bookings[id]))
            && (forall i, j | i in bookings && j in bookings && i != j && bookings[i].barber == bookings[j].barber
                              && bookings[i].status != Cancelled && bookings[j].status != Cancelled ::
                  bookings[i].endAt <= bookings[j].startAt || bookings[j].endAt <= bookings[i].startAt)
            && (forall id | id in bookings ::
                  bookings[id].endAt == bookings[id].startAt + bookings[id].durationSeconds * SECOND)
            && (forall id | id in bookings && bookings[id].status != Cancelled && s.clock < bookings[id].endAt ::
                  bookings[id].status == Confirmed)
            && (forall k | k in s.rows.receipts :: !s.rows.receipts[k].Processing?)
            && AuditFaithful(s.rows) && OutboxFaithful(s.rows)
  {
    SerializableInCommitOrder(rows, clock, actions);
    var bookings := Reached(Initial(rows, clock), actions).value.rows.bookings;
    hide Reached, Initial, BookingFitsRows;
    forall i, j | i in bookings && j in bookings && i != j && bookings[i].barber == bookings[j].barber
                  && bookings[i].status != Cancelled && bookings[j].status != Cancelled
      ensures bookings[i].endAt <= bookings[j].startAt || bookings[j].endAt <= bookings[i].startAt
    {
      assert !Collide(bookings[i], bookings[j]);
    }
  }

  /** From the start of any interleaving to any of its states, no booking's past is rewritten. */
  lemma InterleavingsEvolve(rows: Rows, clock: Instant, actions: seq<Action>)
    requires Inv(rows, clock) && Reached(Initial(rows, clock), actions).Some?
    ensures AllEvolved(rows.bookings, Reached(Initial(rows, clock), actions).value.rows.bookings)
  {
    InitialInv(rows, clock);
    ReachedKeeps(Initial(rows, clock), actions);
    var s := Reached(Initial(rows, clock), actions).value;
    hide *;
    LaterClock(rows, clock, s, actions);
    RunEvolves(rows, Events(s.log), s.clock);
  }

  lemma LaterClock(rows: Rows, clock: Instant, s: Sys, actions: seq<Action>)
    requires Inv(rows, clock) && Reached(Initial(rows, clock), actions) == Some(s)
    ensures Inv(rows, s.clock)
  {
    ClockGrows(Initial(rows, clock), actions);
    ClockAdvances(rows, clock, s.clock);
  }

  lemma {:induction false} ClockGrows(s: Sys, actions: seq<Action>)
    requires Reached(s, actions).Some?
    ensures s.clock <= Reached(s, actions).value.clock
    decreases |actions|
  {
    hide EnabledVisit, EnabledEdit, Published, ShiftsRead, SeenIn, PlanSeen, VerdictOn, Patched;
    if actions != [] {
      ClockGrows(s, actions[..|actions| - 1]);
    }
  }

  /** Two entries of the commit log never performed the same command. */
  lemma PerformedOnce(rows: Rows, clock: Instant, actions: seq<Action>, i: nat, j: nat)
    requires Inv(rows, clock) && Reached(Initial(rows, clock), actions).Some?
    requires var log := Reached(Initial(rows, clock), actions).value.log;
             && i < |log| && j < |log| && log[i].event.VisitAt? && log[j].event.VisitAt?
             && Idempotency.SameKey(log[i].event.cmd, log[j].event.cmd)
             && log[i].answer.Answered? && !log[i].answer.replayed && log[j].answer.Answered? && !log[j].answer.replayed
    ensures i == j
  {
    SerializableInCommitOrder(rows, clock, actions);
    var log := Reached(Initial(rows, clock), actions).value.log;
    Idempotency.KeysAreShared(log[i].event.cmd, log[j].event.cmd);
    hide Reached, Inv, Idempotency.AnswerAt, Idempotency.SameKey;
    Idempotency.AtMostOnce(rows, Events(log), log[i].event.cmd.Identity(), i, j);
  }

  /** What the transaction has read is what the same query would return now. */
  ghost predicate Current(rows: Rows, txn: Txn) {
    match txn
    case Visiting(v) =>
      && (v.seen.Some? && Guarded(rows.catalog, v.cmd) ==> v.seen.value == SeenIn(rows, v.cmd))
      && (v.before.Some? ==>
           Consulting(rows.catalog, v) && v.before.value == ShiftsRead(rows, v, VisitDate(rows.catalog, v) - 1))
      && (v.today.Some? ==>
           Consulting(rows.catalog, v) && v.today.value == ShiftsRead(rows, v, VisitDate(rows.catalog, v)))
    case Editing(e) =>
      && (e.home.Some? ==> EditedBranch(rows, e.edit) == e.home)
      && (e.row.Some? ==> RowOf(rows, e.edit) == e.row)
      && (e.future.Some? ==>
           e.buffered.Some? && e.buffered.value.Barber().Some?
           && e.future.value == BookingsOf(rows.bookings, e.buffered.value.Barber().value))
  }

  lemma TxnCurrent(rows: Rows, clock: Instant, held: set<Lock>, txn: Txn)
    requires TxnInv(rows, clock, held, txn)
    ensures Current(rows, txn)
  {
    hide SeenIn, GateOf, RowOf, BookingsOf, RowValid, FutureVerdict, PlanOf, VerdictOn, Admits,
         ShiftsRead, EditedBranch;
  }

  /**
   In every state, whatever a live transaction has read under its locks is current: the
   booking or service row, both dates' shifts, the edited row, the bookings to re-check.
   */
  lemma ReadsStayCurrent(rows: Rows, clock: Instant, actions: seq<Action>, t: TxnId)
    requires Inv(rows, clock) && Reached(Initial(rows, clock), actions).Some?
    requires t in Reached(Initial(rows, clock), actions).value.txns
    ensures var s := Reached(Initial(rows, clock), actions).value; Current(s.rows, s.txns[t])
  {
    InitialInv(rows, clock);
    ReachedKeeps(Initial(rows, clock), actions);
    var s := Reached(Initial(rows, clock), actions).value;
    hide Reached, Inv, LogSerial, Current, TxnInv;
    TxnCurrent(s.rows, s.clock, HeldBy(s.locks, t), s.txns[t]);
  }

  lemma EditDecides(rows: Rows, clock: Instant, held: set<Lock>, e: EditTxn)
    requires EditLocks(rows, held, e) && EditReads(rows, clock, e) && e.future.Some?
    ensures e.now.Some? && !e.edit.EditService?
    ensures ExecuteEdit(rows, e.edit, e.now.value).1 ==
            match FutureVerdict(rows, e) case None => Edited case Some(f) => Raised(f)
  {
    ChangedKeepsPlace(e.edit, e.row.value);
    PatchedElsewhere(rows, e.edit.id, e.buffered.value);
    hide RowValid, FutureFit, Changed, Patched, BarbersOf, RosterOf, BookingsOf;
    assert Rewritten(rows, e.edit) == Ok(Patched(rows, e.edit.id, e.buffered.value));
  }

  lemma VisitDecides(rows: Rows, clock: Instant, v: VisitTxn, draw: Draw)
    requires ReadsCurrent(rows, clock, v) && ReadyToWrite(rows.catalog, v) && Guarded(rows.catalog, v.cmd)
    requires draw.now == v.now.value
    ensures Effect(rows, v.cmd, draw) == Finish(rows, PlanSeen(rows.catalog, v, draw))
  {
    FitIsCurrent(rows, clock, v);
    hide GateOf, PlanOf, FitIn, SeenIn, FitSeen, ReadsCurrent, Finish;
  }

  /** What the next step of an edit would raise, if anything. */
  function EditRefusal(rows: Rows, e: EditTxn): Option<Failure> {
    if e.home.None? then (if EditedBranch(rows, e.edit).None? then Some(NotFound) else None)
    else if e.branch.None? then (if e.home.value !in rows.catalog.branches then Some(NotFound) else None)
    else if e.row.None? then (if RowOf(rows, e.edit).None? then Some(NotFound) else None)
    else if e.buffered.None? then
      if e.edit.unknownField then Some(UnsupportedField)
      else if Matches(e.edit, e.row.value) && !RowValid(rows, e.edit.id, Changed(e.edit, e.row.value))
        then Some(ValidationError)
      else None
    else if e.now.Some? && e.future.Some? && !e.checked then FutureVerdict(rows, e)
    else None
  }

  /** The edit's clock, once it has read it; before that any clock gives the same refusal. */
  predicate EditClock(e: EditTxn, now: Instant) { e.now.Some? ==> now == e.now.value }

  lemma EditRefuses(rows: Rows, clock: Instant, held: set<Lock>, e: EditTxn, now: Instant)
    requires EditLocks(rows, held, e) && EditReads(rows, clock, e) && EditClock(e, now) && EditRefusal(rows, e).Some?
    ensures ExecuteEdit(rows, e.edit, now) == (rows, Raised(EditRefusal(rows, e).value))
  {
    if e.buffered.Some? {
      EditDecides(rows, clock, held, e);
      EditFrame(rows, e.edit, now);
    }
    hide RowValid, FutureVerdict, Changed, BarbersOf, Recheck;
  }

  lemma TargetlessRefuses(rows: Rows, cmd: Visit, draw: Draw)
    requires TargetBarber(rows, cmd).None? && cmd.Identity() !in rows.receipts
    ensures Execute(rows, cmd, draw) == (rows, Raised(NotFound))
  {
    hide VerdictOn, FitIn;
  }

  /** A create for a barber without any assignment in the branch raises, whatever service it read. */
  lemma UnguardedRefuses(c: Catalog, v: VisitTxn, draw: Draw)
    requires v.seen.Some? && v.now.Some? && draw.now == v.now.value && !Guarded(c, v.cmd)
    ensures PlanSeen(c, v, draw).Stop?
  {
    hide MayStart, FitSeen;
    assert Assignment(v.cmd.branch, v.cmd.barber, v.cmd.service) !in c.assignments;
  }

  lemma UnguardedRaises(rows: Rows, cmd: Visit, draw: Draw)
    requires cmd.Create? && !Guarded(rows.catalog, cmd) && cmd.Identity() !in rows.receipts
    ensures Execute(rows, cmd, draw).0 == rows && Execute(rows, cmd, draw).1.Raised?
  {
    hide MayStart, FitIn, VerdictOn;
    assert Assignment(cmd.branch, cmd.barber, cmd.service) !in rows.catalog.assignments;
  }

  /** The day before cannot be evaluated: the command raises before it reads the day itself. */
  predicate Unreadable(c: Catalog, v: VisitTxn) {
    Consulting(c, v) && v.before.Some? &&
    !Evaluates(c.branches[GateSeen(c, v).branch].zone, VisitDate(c, v) - 1, v.before.value)
  }

  lemma UnreadableRefuses(rows: Rows, clock: Instant, v: VisitTxn, draw: Draw)
    requires ReadsCurrent(rows, clock, v) && Unreadable(rows.catalog, v) && Guarded(rows.catalog, v.cmd)
    requires draw.now == v.now.value
    ensures Effect(rows, v.cmd, draw) == Failed(LocalTimeFailure)
  {
    hide GateOf, SeenIn, ShiftsOn, Evaluates;
  }

  /**
   What a visit command does or raises now. Its exception is that of running it whole, except
   for a create without an assignment: that raises in either case, for what it then reads.
   */
  ghost predicate VisitDecided(rows: Rows, v: VisitTxn, draw: Draw) {
    && (v.claim.Inserted? && v.target.None? && TargetBarber(rows, v.cmd).None? ==>
          Execute(rows, v.cmd, draw) == (rows, Raised(NotFound)))
    && (v.now.Some? && draw.now == v.now.value && v.seen.Some? ==>
         && (Guarded(rows.catalog, v.cmd) && Unreadable(rows.catalog, v) ==>
              Effect(rows, v.cmd, draw) == Failed(LocalTimeFailure))
         && (Guarded(rows.catalog, v.cmd) && ReadyToWrite(rows.catalog, v) ==>
              Effect(rows, v.cmd, draw) == Finish(rows, PlanSeen(rows.catalog, v, draw)))
         && (!Guarded(rows.catalog, v.cmd) ==>
              && PlanSeen(rows.catalog, v, draw).Stop?
              && Execute(rows, v.cmd, draw).0 == rows && Execute(rows, v.cmd, draw).1.Raised?))
  }

  /** What an edit commits or raises now is what running it whole would. */
  ghost predicate EditDecided(rows: Rows, e: EditTxn, now: Instant) {
    && (EditRefusal(rows, e).Some? ==> ExecuteEdit(rows, e.edit, now) == (rows, Raised(EditRefusal(rows, e).value)))
    && (e.now.Some? && e.future.Some? && FutureVerdict(rows, e).None? ==> ExecuteEdit(rows, e.edit, now).1 == Edited)
  }

  ghost predicate Decided(rows: Rows, txn: Txn) {
    match txn
    case Visiting(v) => forall draw: Draw :: VisitDecided(rows, v, draw)
    case Editing(e) => forall now: Instant | EditClock(e, now) :: EditDecided(rows, e, now)
  }

  lemma VisitIsDecided(rows: Rows, clock: Instant, held: set<Lock>, v: VisitTxn, draw: Draw)
    requires VisitInv(rows, clock, held, v)
    ensures VisitDecided(rows, v, draw)
  {
    if v.claim.Inserted? && v.target.None? && TargetBarber(rows, v.cmd).None? {
      TargetlessRefuses(rows, v.cmd, draw);
    }
    if v.now.Some? && draw.now == v.now.value && v.seen.Some? {
      if !Guarded(rows.catalog, v.cmd) {
        UnguardedRefuses(rows.catalog, v, draw);
        UnguardedRaises(rows, v.cmd, draw);
      } else {
        if Unreadable(rows.catalog, v) { UnreadableRefuses(rows, clock, v, draw); }
        if ReadyToWrite(rows.catalog, v) { VisitDecides(rows, clock, v, draw); }
      }
    }
    hide Effect, Execute, Finish, PlanSeen, TargetBarber, Guarded, Unreadable, ReadyToWrite, ReadsCurrent;
  }

  lemma EditIsDecided(rows: Rows, clock: Instant, held: set<Lock>, e: EditTxn, now: Instant)
    requires EditLocks(rows, held, e) && EditReads(rows, clock, e) && EditClock(e, now)
    ensures EditDecided(rows, e, now)
  {
    if EditRefusal(rows, e).Some? { EditRefuses(rows, clock, held, e, now); }
    if e.now.Some? && e.future.Some? && FutureVerdict(rows, e).None? { EditDecides(rows, clock, held, e); }
    hide EditRefusal, ExecuteEdit, FutureVerdict, EditLocks, EditReads;
  }

  lemma TxnDecided(rows: Rows, clock: Instant, held: set<Lock>, txn: Txn)
    requires TxnInv(rows, clock, held, txn)
    ensures Decided(rows, txn)
  {
    hide VisitInv, VisitDecided, EditDecided, EditLocks, EditReads;
    match txn
    case Visiting(v) =>
      forall draw: Draw
        ensures VisitDecided(rows, v, draw)
      {
        VisitIsDecided(rows, clock, held, v, draw);
      }
    case Editing(e) =>
      forall now: Instant | EditClock(e, now)
        ensures EditDecided(rows, e, now)
      {
        EditIsDecided(rows, clock, held, e, now);
      }
  }

  /**
   Refusals are as atomic as commits: in every state, what a live transaction is about to write
   or to raise, at any of its steps, is what its command or edit, run whole now, would write or
   raise; in particular an edit raises the conflicting bookings of that very moment.
   */
  lemma DecisionsAreAtomic(rows: Rows, clock: Instant, actions: seq<Action>, t: TxnId)
    requires Inv(rows, clock) && Reached(Initial(rows, clock), actions).Some?
    requires t in Reached(Initial(rows, clock), actions).value.txns
    ensures var s := Reached(Initial(rows, clock), actions).value; Decided(s.rows, s.txns[t])
  {
    InitialInv(rows, clock);
    ReachedKeeps(Initial(rows, clock), actions);
    var s := Reached(Initial(rows, clock), actions).value;
    hide Reached, Inv, LogSerial, Decided, TxnInv;
    TxnDecided(s.rows, s.clock, HeldBy(s.locks, t), s.txns[t]);
  }
}
