/** The life of a booking over serial runs: its journal, its snapshots, and its deadlines. */
module Lifecycle {
  import opened Base
  import opened Calendar
  import opened Schedule
  import opened Model
  import opened Commands
  import opened Invariants

  // ------------------------------------------------------------------ history

  /** A booking's life so far, read off its changes alone. */
  datatype Life = Unborn | Living(status: Status) | Illegal

  function Advance(life: Life, change: Change): Life {
    if life == Unborn && change == BookingCreated then Living(Confirmed)
    else if life == Living(Confirmed) && change != BookingCreated then Living(StatusAfter(change))
    else Illegal
  }

  function Fold(changes: seq<Change>): Life {
    if changes == [] then Unborn else Advance(Fold(changes[..|changes| - 1]), changes[|changes| - 1])
  }

  /** The audit operations of a booking in the order of their versions. */
  ghost function History(rows: Rows, id: Id): seq<Change>
    requires AuditFaithful(rows) && id in rows.bookings
  {
    seq(if rows.bookings[id].version > 0 then rows.bookings[id].version else 0,
        i requires 0 <= i < rows.bookings[id].version => rows.audit[AuditKey(id, i + 1)].change)
  }

  lemma {:induction false} FoldPrefix(rows: Rows, id: Id, v: nat)
    requires AuditFaithful(rows) && id in rows.bookings && 1 <= v <= rows.bookings[id].version
    ensures Fold(History(rows, id)[..v]) == Living(StatusAfter(rows.audit[AuditKey(id, v)].change))
  {
    var h := History(rows, id);
    assert EntryInPlace(rows.bookings[id], v, rows.audit[AuditKey(id, v)].change);
    if v == 1 {
      assert h[..1] == [BookingCreated];
      assert h[..1][..0] == [];
    } else {
      FoldPrefix(rows, id, v - 1);
      assert EntryInPlace(rows.bookings[id], v - 1, rows.audit[AuditKey(id, v - 1)].change);
      assert h[..v][..v - 1] == h[..v - 1];
    }
  }

  /**
   The journal is a faithful history: versions run 1..version once each, the operations
   read created, rescheduled..., and at most one final change; folding them gives the row.
   What is no booking has no entry, so these trails are all of the journal.
   */
  lemma JournalTellsTheRow(rows: Rows, id: Id)
    requires AuditFaithful(rows) && OutboxFaithful(rows) && TablesValid(rows)
    ensures if id in rows.bookings then
              var h := History(rows, id); var b := rows.bookings[id];
              && |h| == b.version && Fold(h) == Living(b.status)
              && h[0] == BookingCreated
              && (forall i | 0 < i < |h| - 1 :: h[i] == BookingRescheduled)
              && (forall v :: AuditKey(id, v) in rows.audit <==> 1 <= v <= |h|)
              && (forall v, ch :: OutboxKey(id, v, ch) in rows.outbox <==> 1 <= v <= |h| && h[v - 1] == ch)
              && (forall v, ch | OutboxKey(id, v, ch) in rows.outbox ::
                    rows.outbox[OutboxKey(id, v, ch)] == OutboxEvent(id, StatusAfter(ch), v))
            else
              && (forall v :: AuditKey(id, v) !in rows.audit)
              && (forall v, ch :: OutboxKey(id, v, ch) !in rows.outbox)
  {
    if id in rows.bookings {
      var h := History(rows, id);
      var b := rows.bookings[id];
      forall i: nat | i < |h|
        ensures EntryInPlace(b, i + 1, h[i])
      {
        assert AuditKey(id, i + 1) in rows.audit;
      }
      FoldPrefix(rows, id, b.version);
      assert h[..b.version] == h;
      forall i | 0 < i < |h| - 1
        ensures h[i] == BookingRescheduled
      {
        assert EntryInPlace(b, i + 1, h[i]);
      }
    }
  }

  /** The journal has room for every planned write. */
  lemma JournalHasRoom(rows: Rows, w: BookingWrite, now: Instant)
    requires TablesValid(rows) && AuditFaithful(rows) && OutboxFaithful(rows) && WriteShape(rows, w, now)
    requires w.isInsert ==> w.id !in rows.bookings
    ensures BookingChecks(w.booking)
    ensures AuditKey(w.id, w.booking.version) !in rows.audit
    ensures OutboxKey(w.id, w.booking.version, w.change) !in rows.outbox
  {
    if !w.isInsert {
      assert BookingChecks(rows.bookings[w.id]);
    }
  }

  predicate QuietReply(r: Response) {
    r.error.Some? || r.noOp == Some(true)
  }

  /** Guards answer with an error or a no-op; a planned write answers with neither. */
  lemma PlanReplies(c: Catalog, cmd: Visit, seen: Seen, fit: Fit, draw: Draw)
    requires cmd.WellFormed()
    ensures var plan := PlanOf(c, cmd, seen, fit, draw);
            && (plan.Return? ==> QuietReply(plan.response))
            && (plan.Write? ==> var w := plan.write;
                 && !QuietReply(w.response) && w.change == ChangeOf(cmd)
                 && w.response.booking == Some(w.id) && w.response.version == Some(w.booking.version)
                 && (w.taken.Some? ==> w.taken.value.Reply? && QuietReply(w.taken.value.response)))
  {
  }

  lemma FinishReplies(rows: Rows, plan: Plan)
    requires plan.Return? ==> QuietReply(plan.response)
    requires plan.Write? && plan.write.taken.Some? && plan.write.taken.value.Reply? ==>
               QuietReply(plan.write.taken.value.response)
    ensures var o := Finish(rows, plan);
            o.Done? && !(plan.Write? && VerdictOn(rows, plan.write) == Accepted) ==> QuietReply(o.response)
  {
  }

  /** An answer without an error and not marked as a no-op comes from an accepted write. */
  lemma ReplyTellsWrite(rows: Rows, cmd: Visit, draw: Draw)
    requires cmd.WellFormed()
    ensures var a := Execute(rows, cmd, draw).1; var w := WriteIn(rows, cmd, draw);
            && (w.None? && a.Answered? && !a.replayed ==> QuietReply(a.response))
            && (w.Some? ==> a == Answered(w.value.code, w.value.response, false) && !QuietReply(a.response)
                            && w.value.change == ChangeOf(cmd)
                            && a.response.booking == Some(w.value.id)
                            && a.response.version == Some(w.value.booking.version))
  {
    ExecuteShape(rows, cmd, draw);
    if cmd.Identity() !in rows.receipts {
      var seen := SeenIn(rows, cmd);
      PlanReplies(rows.catalog, cmd, seen, FitIn(rows, GateOf(rows.catalog, cmd, seen, draw.now)), draw);
      FinishReplies(rows, PlanIn(rows, cmd, draw));
    }
  }

  predicate Quiet(a: Answer) {
    a.Raised? || (a.Answered? && (a.replayed || QuietReply(a.response)))
  }

  /** Refused, replayed and no-op commands change nothing but the receipt; others add one entry. */
  lemma OneEntryPerChange(rows: Rows, cmd: Visit, draw: Draw, clock: Instant)
    requires Core(rows, clock) && cmd.WellFormed()
    ensures var (rows', a) := Execute(rows, cmd, draw);
            && (Quiet(a) ==> rows'.(receipts := rows.receipts) == rows)
            && (a.Raised? || (a.Answered? && a.replayed) ==> rows' == rows)
            && (!Quiet(a) ==>
                 && a.Answered? && a.response.booking.Some? && a.response.version.Some?
                 && var id, v := a.response.booking.value, a.response.version.value;
                 && AuditKey(id, v) !in rows.audit && rows'.audit.Keys == rows.audit.Keys + {AuditKey(id, v)}
                 && rows'.outbox.Keys == rows.outbox.Keys + {OutboxKey(id, v, ChangeOf(cmd))}
                 && OutboxKey(id, v, ChangeOf(cmd)) !in rows.outbox
                 && rows'.audit[AuditKey(id, v)] ==
                    AuditEntry(ChangeOf(cmd), cmd.scope.principalKind, cmd.scope.principalId,
                               if cmd.Cancel? then cmd.reason else "", cmd.correlation)
                 && rows'.bookings.Keys == rows.bookings.Keys + {id} && rows'.bookings[id].version == v
                 && rows'.outbox[OutboxKey(id, v, ChangeOf(cmd))] == OutboxEvent(id, rows'.bookings[id].status, v))
  {
    ExecuteShape(rows, cmd, draw);
    ReplyTellsWrite(rows, cmd, draw);
    var w := WriteIn(rows, cmd, draw);
    if w.Some? {
      PlannedWrite(rows, cmd, draw);
      WriteSource(rows, cmd, draw);
      StoredAddsOne(rows, w.value, draw.now);
    }
  }

  lemma StoredAddsOne(rows: Rows, w: BookingWrite, now: Instant)
    requires TablesValid(rows) && AuditFaithful(rows) && OutboxFaithful(rows) && WriteShape(rows, w, now)
    requires VerdictOn(rows, w) == Accepted
    ensures var rows' := Stored(rows, w); var v := w.booking.version;
            && AuditKey(w.id, v) !in rows.audit && rows'.audit.Keys == rows.audit.Keys + {AuditKey(w.id, v)}
            && OutboxKey(w.id, v, w.change) !in rows.outbox
            && rows'.outbox.Keys == rows.outbox.Keys + {OutboxKey(w.id, v, w.change)}
            && rows'.bookings.Keys == rows.bookings.Keys + {w.id} && rows'.bookings[w.id].version == v
  {
  }

  // ---------------------------------------------------------- integrity errors

  /** A planned change of status never meets the exclusion constraint. */
  lemma StatusChangeKeepsSlot(rows: Rows, w: BookingWrite, now: Instant)
    requires Disjoint(rows.bookings) && WriteShape(rows, w, now)
    requires w.change != BookingCreated && w.change != BookingRescheduled
    ensures !Excluded(BookingsOf(rows.bookings, w.booking.barber), w.id, w.booking)
  {
    forall other | other in rows.bookings && other != w.id
      ensures !Collide(rows.bookings[w.id], rows.bookings[other])
    {
    }
  }

  /**
   With a fresh booking id and a fresh secret no constraint of the booking, journal or
   token tables ever surfaces as an error: only the exclusion of a taken slot can fire,
   and that one is answered.
   */
  lemma NoIntegrityError(rows: Rows, cmd: Visit, draw: Draw, clock: Instant)
    requires Core(rows, clock) && cmd.WellFormed()
    requires cmd.Create? ==> draw.freshId !in rows.bookings
    requires cmd.Create? && cmd.secret.Some? ==> !DigestTaken(rows.tokens, Sha256(cmd.secret.value))
    ensures Execute(rows, cmd, draw).1 != Raised(IntegrityError)
  {
    var plan := PlanIn(rows, cmd, draw);
    if plan.Write? {
      PlannedWrite(rows, cmd, draw);
      WriteSource(rows, cmd, draw);
      NeverBroken(rows, plan.write, draw.now);
    }
    RefusalsRaiseRules(rows, cmd, draw);
    hide PlanIn, VerdictOn, Core, WriteShape, Execute;
    IntegrityErrorSource(rows, cmd, draw);
  }

  /** An IntegrityError comes from a guard, from a broken constraint, or from a slot taken unexpectedly. */
  lemma IntegrityErrorSource(rows: Rows, cmd: Visit, draw: Draw)
    ensures var plan := PlanIn(rows, cmd, draw);
            || Execute(rows, cmd, draw).1 != Raised(IntegrityError)
            || plan == Stop(IntegrityError)
            || (plan.Write? && VerdictOn(rows, plan.write) == Broken)
            || (plan.Write? && VerdictOn(rows, plan.write) == SlotTaken
                && !(plan.write.taken.Some? && plan.write.taken.value.Reply?))
  {
    hide PlanOf, GateOf, FitIn, VerdictOn, Stored;
  }

  /** Beside the exclusion of a taken slot no constraint can reject a planned write. */
  lemma NeverBroken(rows: Rows, w: BookingWrite, now: Instant)
    requires TablesValid(rows) && Disjoint(rows.bookings) && AuditFaithful(rows) && OutboxFaithful(rows)
    requires WriteShape(rows, w, now)
    requires w.isInsert ==> w.id !in rows.bookings
    requires w.token.Some? ==> w.isInsert && !DigestTaken(rows.tokens, w.token.value.digest)
    ensures VerdictOn(rows, w) != Broken
    ensures w.change != BookingCreated && w.change != BookingRescheduled ==> VerdictOn(rows, w) == Accepted
  {
    JournalHasRoom(rows, w, now);
    if w.change != BookingCreated && w.change != BookingRescheduled {
      StatusChangeKeepsSlot(rows, w, now);
    }
  }

  lemma WriteSource(rows: Rows, cmd: Visit, draw: Draw)
    requires cmd.WellFormed() && PlanIn(rows, cmd, draw).Write?
    ensures var w := PlanIn(rows, cmd, draw).write;
            && w.change == ChangeOf(cmd)
            && w.entry == AuditEntry(ChangeOf(cmd), cmd.scope.principalKind, cmd.scope.principalId,
                                     if cmd.Cancel? then cmd.reason else "", cmd.correlation)
            && (w.taken.None? <==> w.change != BookingCreated && w.change != BookingRescheduled)
            && (w.taken.Some? ==> w.taken.value.Reply?)
            && (w.isInsert ==> w.id == draw.freshId)
            && (w.token.Some? ==>
                 cmd.Create? && w.isInsert && cmd.secret.Some? && w.token.value.digest == Sha256(cmd.secret.value))
  {
  }

  lemma RefusalsRaiseRules(rows: Rows, cmd: Visit, draw: Draw)
    ensures PlanIn(rows, cmd, draw) != Stop(IntegrityError)
  {
  }

  /** A reschedule onto a taken slot changes no booking and reports the row's own version. */
  lemma RescheduleConflictKeepsTheRow(rows: Rows, cmd: Visit, draw: Draw)
    requires cmd.Reschedule? && Execute(rows, cmd, draw).1.Answered? && !Execute(rows, cmd, draw).1.replayed
    requires Execute(rows, cmd, draw).1.code == SLOT_CONFLICT
    ensures var (rows', a) := Execute(rows, cmd, draw);
            && rows'.(receipts := rows.receipts) == rows
            && cmd.booking in rows.bookings
            && a.response.version == Some(rows.bookings[cmd.booking].version)
            && exists other | other in rows.bookings && other != cmd.booking ::
                 && rows.bookings[other].barber == rows.bookings[cmd.booking].barber
                 && rows.bookings[other].status != Cancelled
                 && Overlaps(cmd.startAt.utc, cmd.startAt.utc + rows.bookings[cmd.booking].durationSeconds * SECOND,
                             rows.bookings[other].startAt, rows.bookings[other].endAt)
  {
    var w := PlanIn(rows, cmd, draw).write;
    assert VerdictOn(rows, w) == SlotTaken;
  }

  // --------------------------------------------------------------- immutability

  /** How a booking row may change: never its snapshot, never down, never after an end state. */
  predicate Evolved(b: Booking, b': Booking) {
    && SameSnapshot(b, b') && b.version <= b'.version
    && (b.status != Confirmed || b.version == b'.version ==> b' == b)
  }

  ghost predicate AllEvolved(before: map<Id, Booking>, after: map<Id, Booking>) {
    forall id | id in before :: id in after && Evolved(before[id], after[id])
  }

  lemma StepEvolves(rows: Rows, e: Event, clock: Instant)
    requires Inv(rows, clock) && Admissible(e, clock)
    ensures AllEvolved(rows.bookings, Step(rows, e).0.bookings)
  {
    hide Execute, ExecuteEdit;
    if e.VisitAt? { ExecuteEvolves(rows, e.cmd, e.draw); }
    if e.EditAt? { EditFrame(rows, e.edit, e.now); }
  }

  lemma ExecuteEvolves(rows: Rows, cmd: Visit, draw: Draw)
    requires TablesValid(rows) && cmd.WellFormed()
    ensures AllEvolved(rows.bookings, Execute(rows, cmd, draw).0.bookings)
  {
    ExecuteShape(rows, cmd, draw);
    var w := WriteIn(rows, cmd, draw);
    if w.Some? {
      PlannedWrite(rows, cmd, draw);
      StoredEvolves(rows, w.value, draw.now);
    }
  }

  lemma StoredEvolves(rows: Rows, w: BookingWrite, now: Instant)
    requires WriteShape(rows, w, now) && (w.isInsert ==> w.id !in rows.bookings)
    ensures AllEvolved(rows.bookings, Stored(rows, w).bookings)
  {
  }

  /** Over any run, snapshots stay, versions only grow, and ended bookings never change. */
  lemma {:induction false} RunEvolves(rows: Rows, events: seq<Event>, clock: Instant)
    requires Inv(rows, clock) && forall e | e in events :: Admissible(e, clock)
    ensures AllEvolved(rows.bookings, Run(rows, events).bookings)
    decreases |events|
  {
    if events == [] {
    } else {
      var n := |events| - 1;
      hide Step;
      RunEvolves(rows, events[..n], clock);
      RunKeeps(rows, events[..n], clock);
      StepEvolves(Run(rows, events[..n]), events[n], clock);
      var mid, last := Run(rows, events[..n]).bookings, Run(rows, events).bookings;
      forall id | id in rows.bookings
        ensures id in last && Evolved(rows.bookings[id], last[id])
      {
        assert Evolved(rows.bookings[id], mid[id]) && Evolved(mid[id], last[id]);
      }
    }
  }

  // ------------------------------------------------------------ time discipline

  /** When one execution changes a booking, the clock allowed exactly that change. */
  lemma ChangesInTime(rows: Rows, cmd: Visit, draw: Draw, rows': Rows, id: Id)
    requires TablesValid(rows) && cmd.WellFormed() && rows' == Execute(rows, cmd, draw).0
    requires id in rows.bookings && id in rows'.bookings && rows'.bookings[id] != rows.bookings[id]
    ensures var b, b' := rows.bookings[id], rows'.bookings[id];
            && !cmd.Create? && id == cmd.booking && b.status == Confirmed && b.version == cmd.expectedVersion
            && b'.version == b.version + 1
            && (b'.status == Cancelled ==>
                  cmd.Cancel? && draw.now < b.startAt && (cmd.override || b.startAt - draw.now >= 2 * HOUR))
            && (b'.status == Completed || b'.status == NoShow ==>
                 cmd.Outcome? && b'.status == cmd.target && b.endAt <= draw.now)
            && (b'.status == Confirmed ==>
                  cmd.Reschedule? && draw.now < b.startAt && b'.startAt == cmd.startAt.utc && b'.startAt != b.startAt
                  && MayStart(rows.catalog.branches[b.branch], cmd.startAt, draw.now) && BookingFitsRows(rows, b'))
  {
    hide BookingFits, RosterOf, MayStart, Replay;
    ExecuteShape(rows, cmd, draw);
    PlannedWrite(rows, cmd, draw);
  }

  // ------------------------------------------------------------- schedule edits

  /** A visit of the barber in the branch that is still to come. */
  predicate Upcoming(rows: Rows, branch: Id, barber: Id, now: Instant, id: Id) {
    && id in rows.bookings && rows.bookings[id].branch == branch && rows.bookings[id].barber == barber
    && rows.bookings[id].status != Cancelled && rows.bookings[id].startAt >= now
  }

  /** The schedule's verdict on a booking, with the rules and exceptions of `rows'`. */
  function FitAfter(rows: Rows, rows': Rows, branch: Id, barber: Id, id: Id): Fit
    requires branch in rows.catalog.branches && id in rows.bookings
  {
    BookingFits(rows.catalog.branches[branch].zone, RosterOf(rows'.rules, rows'.exceptions, branch, barber),
                rows.bookings[id].startAt, rows.bookings[id].endAt)
  }

  /** An upcoming visit that the edited schedule no longer admits. */
  predicate Stranded(rows: Rows, rows': Rows, branch: Id, barber: Id, now: Instant, id: Id) {
    && branch in rows.catalog.branches && Upcoming(rows, branch, barber, now, id)
    && FitAfter(rows, rows', branch, barber, id) == Misfit
  }

  /** An upcoming visit that the edited schedule cannot be asked about. */
  predicate Undecided(rows: Rows, rows': Rows, branch: Id, barber: Id, now: Instant, id: Id) {
    && branch in rows.catalog.branches && Upcoming(rows, branch, barber, now, id)
    && FitAfter(rows, rows', branch, barber, id) == Unevaluable
  }

  /** The re-check over edited rows, booking by booking. */
  ghost predicate Judged(rows: Rows, rows': Rows, branch: Id, barber: Id, now: Instant, f: Option<Failure>) {
    if exists id :: Undecided(rows, rows', branch, barber, now, id) then f == Some(LocalTimeFailure)
    else if exists id :: Stranded(rows, rows', branch, barber, now, id) then
      && f.Some? && f.value.ScheduleConflict?
      && (forall i, j | 0 <= i < j < |f.value.bookings| :: f.value.bookings[i] < f.value.bookings[j])
      && (forall id :: id in f.value.bookings <==> Stranded(rows, rows', branch, barber, now, id))
    else f == None
  }

  /**
   Everything a validated edit of a rule or exception can come to: LocalTimeFailure if some
   upcoming visit of the branch and barber cannot be judged, otherwise a conflict naming exactly
   the visits it would strand, in ascending order and once each, if there are any, and otherwise
   it commits and all of them fit. What is not committed changes nothing. Services are not re-checked.
   */
  lemma EditReportsConflicts(rows: Rows, e: Edit, now: Instant)
    requires Rewritten(rows, e).Ok?
    ensures var (rows', a) := ExecuteEdit(rows, e, now); var edited := Rewritten(rows, e).value;
            && (a == Edited ==> rows' == edited) && (a != Edited ==> rows' == rows)
            && if e.EditService? then a == Edited
               else
                 && EditedBranch(rows, e).Some? && EditedBarber(rows, e).Some?
                 && var branch, barber := EditedBranch(rows, e).value, EditedBarber(rows, e).value;
                    && Judged(rows, edited, branch, barber, now, if a.Raised? then Some(a.failure) else None)
                    && (a == Edited || a.Raised?)
                    && (a == Edited ==> forall id | Upcoming(rows, branch, barber, now, id) ::
                          BookingFitsRows(edited, rows.bookings[id]))
  {
    if !e.EditService? {
      RewrittenFrame(rows, e);
      hide Rewritten;
      RecheckJudges(rows, Rewritten(rows, e).value, EditedBranch(rows, e).value, EditedBarber(rows, e).value, now);
    }
  }

  /** What the re-check over the edited rows finds, booking by booking. */
  lemma RecheckJudges(rows: Rows, rows': Rows, branch: Id, barber: Id, now: Instant)
    requires branch in rows.catalog.branches
    requires rows' == rows.(services := rows'.services, rules := rows'.rules, exceptions := rows'.exceptions)
    ensures var f := Recheck(rows', branch, barber, now);
            && Judged(rows, rows', branch, barber, now, f)
            && (f == None ==> forall id | Upcoming(rows, branch, barber, now, id) ::
                  BookingFitsRows(rows', rows.bookings[id]))
  {
    hide BookingFits, RosterOf, Least;
    var z := rows.catalog.branches[branch].zone;
    var roster := RosterOf(rows'.rules, rows'.exceptions, branch, barber);
    var barberRows := BookingsOf(rows.bookings, barber);
    var conflicts := ConflictIds(z, roster, barberRows, branch, now);
    forall id
      ensures id in FutureIds(barberRows, branch, now) <==> Upcoming(rows, branch, barber, now, id)
      ensures id in conflicts <==> Stranded(rows, rows', branch, barber, now, id)
    {
    }
    if id :| Undecided(rows, rows', branch, barber, now, id) {
      assert id in FutureIds(barberRows, branch, now);
      assert AnyUnevaluable(z, roster, barberRows, branch, now);
    }
    if AnyUnevaluable(z, roster, barberRows, branch, now) {
      var id :| id in FutureIds(barberRows, branch, now)
                && BookingFits(z, roster, barberRows[id].startAt, barberRows[id].endAt) == Unevaluable;
      assert Undecided(rows, rows', branch, barber, now, id);
    }
    if Recheck(rows', branch, barber, now) == None {
      forall id | Upcoming(rows, branch, barber, now, id)
        ensures BookingFitsRows(rows', rows.bookings[id])
      {
        assert id !in conflicts && !Undecided(rows, rows', branch, barber, now, id);
      }
    }
    if conflicts != {} { var id := Member(conflicts); }
  }
}
