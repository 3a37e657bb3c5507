/** What every committed command keeps, and what whole serial runs therefore show. */
module Invariants {
  import opened Base
  import opened Calendar
  import opened Schedule
  import opened Model
  import opened Commands

  // --------------------------------------------------------------- predicates

  ghost predicate TablesValid(rows: Rows) {
    && rows.catalog.Valid()
    && (forall id | id in rows.services :: ServiceFields(rows.services[id]))
    && (forall a | a in rows.catalog.assignments :: AssignmentServed(rows.services, a))
    && (forall id | id in rows.bookings ::
          && BookingChecks(rows.bookings[id]) && rows.bookings[id].branch in rows.catalog.branches
          && rows.catalog.Assigned(rows.bookings[id].branch, rows.bookings[id].barber))
    && (forall id | id in rows.tokens :: id in rows.bookings)
    && (forall x, y | x in rows.exceptions && y in rows.exceptions && x != y ::
         !SameDate(rows.exceptions[x], rows.exceptions[y]))
  }

  /** The assigned service exists, and in the branch of the assignment. */
  predicate AssignmentServed(services: map<Id, Service>, a: Assignment) {
    a.service in services && services[a.service].branch == a.branch
  }

  predicate SameDate(x: DatedException, y: DatedException) {
    x.branch == y.branch && x.barber == y.barber && x.localDate == y.localDate
  }

  predicate Collide(a: Booking, b: Booking) {
    a.barber == b.barber && a.status != Cancelled && b.status != Cancelled
    && Overlaps(a.startAt, a.endAt, b.startAt, b.endAt)
  }

  /** Non-cancelled bookings of one barber never overlap, whatever their branches. */
  ghost predicate Disjoint(bookings: map<Id, Booking>) {
    forall i, j | i in bookings && j in bookings && i != j :: !Collide(bookings[i], bookings[j])
  }

  function StatusAfter(change: Change): Status {
    match change
    case BookingCreated => Confirmed
    case BookingRescheduled => Confirmed
    case BookingCancelled => Cancelled
    case BookingCompleted => Completed
    case BookingNoShow => NoShow
  }

  /** Entry v of a booking's audit trail: first created, then moved, and last its status. */
  predicate EntryInPlace(b: Booking, v: int, change: Change) {
    && (change == BookingCreated <==> v == 1)
    && (v < b.version ==> StatusAfter(change) == Confirmed)
    && (v == b.version ==> StatusAfter(change) == b.status)
  }

  ghost predicate AuditFaithful(rows: Rows) {
    && (forall id, v :: AuditKey(id, v) in rows.audit <==> id in rows.bookings && 1 <= v <= rows.bookings[id].version)
    && (forall id, v | AuditKey(id, v) in rows.audit ::
          EntryInPlace(rows.bookings[id], v, rows.audit[AuditKey(id, v)].change))
  }

  ghost predicate OutboxFaithful(rows: Rows) {
    && (forall id, v, ch :: OutboxKey(id, v, ch) in rows.outbox <==>
          AuditKey(id, v) in rows.audit && rows.audit[AuditKey(id, v)].change == ch)
    && (forall id, v, ch | OutboxKey(id, v, ch) in rows.outbox ::
          rows.outbox[OutboxKey(id, v, ch)] == OutboxEvent(id, StatusAfter(ch), v))
  }

  /** An outcome is only on record once the visit is over. */
  ghost predicate Timely(bookings: map<Id, Booking>, clock: Instant) {
    forall id | id in bookings && (bookings[id].status == Completed || bookings[id].status == NoShow) ::
      bookings[id].endAt <= clock
  }

  predicate BookingFitsRows(rows: Rows, b: Booking) {
    b.branch in rows.catalog.branches &&
    BookingFits(rows.catalog.branches[b.branch].zone, RosterOf(rows.rules, rows.exceptions, b.branch, b.barber),
                b.startAt, b.endAt) == Fits
  }

  /** Every non-cancelled booking that starts at or after the clock fits the schedule. */
  ghost predicate FitsFrom(rows: Rows, clock: Instant) {
    forall id | id in rows.bookings && rows.bookings[id].status != Cancelled && rows.bookings[id].startAt >= clock ::
      BookingFitsRows(rows, rows.bookings[id])
  }

  ghost predicate ReceiptsSettled(receipts: map<ReceiptKey, Receipt>) {
    forall k | k in receipts :: !receipts[k].Processing?
  }

  /** The part of the invariant that does not look at receipts. */
  ghost predicate Core(rows: Rows, clock: Instant) {
    && TablesValid(rows) && Disjoint(rows.bookings)
    && AuditFaithful(rows) && OutboxFaithful(rows)
    && Timely(rows.bookings, clock) && FitsFrom(rows, clock)
  }

  ghost predicate Inv(rows: Rows, clock: Instant) {
    Core(rows, clock) && ReceiptsSettled(rows.receipts)
  }

  // --------------------------------------------------- shape of one execution

  /** The write one execution gets accepted, if it gets that far. */
  function WriteIn(rows: Rows, cmd: Visit, draw: Draw): Option<BookingWrite> {
    if cmd.Identity() in rows.receipts then None
    else
      var plan := PlanIn(rows, cmd, draw);
      if plan.Write? && VerdictOn(rows, plan.write) == Accepted then Some(plan.write) else None
  }

  function PlanIn(rows: Rows, cmd: Visit, draw: Draw): Plan {
    var seen := SeenIn(rows, cmd);
    PlanOf(rows.catalog, cmd, seen, FitIn(rows, GateOf(rows.catalog, cmd, seen, draw.now)), draw)
  }

  /** What a planned write may do to the row it found. */
  ghost predicate WriteShape(rows: Rows, w: BookingWrite, now: Instant) {
    var n := w.booking;
    && w.entry.change == w.change
    && n.branch in rows.catalog.branches && rows.catalog.Assigned(n.branch, n.barber)
    && n.endAt == n.startAt + n.durationSeconds * SECOND && n.durationSeconds > 0 && n.servicePrice >= 0
    && (w.isInsert ==> w.change == BookingCreated && n.version == 1 && n.status == Confirmed
                       && BookingFitsRows(rows, n))
    && (!w.isInsert ==> w.id in rows.bookings && UpdateShape(rows, rows.bookings[w.id], n, w.change, now))
  }

  /** A legal move of a confirmed booking b to n. */
  ghost predicate UpdateShape(rows: Rows, b: Booking, n: Booking, change: Change, now: Instant) {
    && b.status == Confirmed
    && n.version == b.version + 1 && n.status == StatusAfter(change)
    && SameSnapshot(b, n)
    && (match change
        case BookingCreated => false
        case BookingRescheduled => now < b.startAt && BookingFitsRows(rows, n)
        case BookingCancelled => now < b.startAt && n.startAt == b.startAt && n.endAt == b.endAt
        case _ => b.endAt <= now && n.startAt == b.startAt && n.endAt == b.endAt)
  }

  /** Everything a booking never changes. */
  predicate SameSnapshot(a: Booking, b: Booking) {
    && a.branch == b.branch && a.barber == b.barber && a.service == b.service
    && a.serviceName == b.serviceName && a.servicePrice == b.servicePrice && a.currency == b.currency
    && a.durationSeconds == b.durationSeconds && a.timezone == b.timezone
  }

  lemma PlannedWrite(rows: Rows, cmd: Visit, draw: Draw)
    requires TablesValid(rows) && cmd.WellFormed() && PlanIn(rows, cmd, draw).Write?
    ensures WriteShape(rows, PlanIn(rows, cmd, draw).write, draw.now)
    ensures PlanIn(rows, cmd, draw).write.isInsert <==> cmd.Create?
  {
    if cmd.Create? {
      PlannedInsert(rows, cmd, draw);
    } else {
      PlannedUpdate(rows, cmd, draw);
    }
  }

  lemma PlannedInsert(rows: Rows, cmd: Visit, draw: Draw)
    requires TablesValid(rows) && cmd.Create? && PlanIn(rows, cmd, draw).Write?
    ensures PlanIn(rows, cmd, draw).write.isInsert && WriteShape(rows, PlanIn(rows, cmd, draw).write, draw.now)
  {
    hide MayStart, BookingFits, RosterOf;
    var service := SeenIn(rows, cmd).service;
    assert service.Some? && service.value == rows.services[cmd.service];
    assert Assignment(cmd.branch, cmd.barber, cmd.service) in rows.catalog.assignments;
  }

  lemma PlannedUpdate(rows: Rows, cmd: Visit, draw: Draw)
    requires TablesValid(rows) && cmd.WellFormed() && !cmd.Create? && PlanIn(rows, cmd, draw).Write?
    ensures !PlanIn(rows, cmd, draw).write.isInsert && WriteShape(rows, PlanIn(rows, cmd, draw).write, draw.now)
  {
    hide MayStart, BookingFits, RosterOf, CreateGate, InsertOf;
    var booking := SeenIn(rows, cmd).booking;
    assert booking.Some? && booking.value == rows.bookings[cmd.booking];
    assert BookingChecks(booking.value);
  }

  lemma ExecuteShape(rows: Rows, cmd: Visit, draw: Draw)
    ensures var w := WriteIn(rows, cmd, draw); var (rows', a) := Execute(rows, cmd, draw);
            && rows'.(receipts := rows.receipts) == (if w.Some? then Stored(rows, w.value) else rows)
            && (a.Raised? || (a.Answered? && a.replayed) ==> rows' == rows && w.None?)
            && (w.Some? ==> a == Answered(w.value.code, w.value.response, false))
  {
  }

  // -------------------------------------------------------- one step keeps it

  lemma StoredTables(rows: Rows, w: BookingWrite, now: Instant)
    requires TablesValid(rows) && Disjoint(rows.bookings)
    requires WriteShape(rows, w, now) && VerdictOn(rows, w) == Accepted
    ensures TablesValid(Stored(rows, w)) && Disjoint(Stored(rows, w).bookings)
  {
    var bookings := Stored(rows, w).bookings;
    forall i | i in rows.bookings && i != w.id
      ensures !Collide(rows.bookings[i], w.booking)
    {
      if rows.bookings[i].barber == w.booking.barber {
        assert i in BookingsOf(rows.bookings, w.booking.barber);
      }
    }
  }

  lemma StoredAudit(rows: Rows, w: BookingWrite, now: Instant)
    requires TablesValid(rows) && AuditFaithful(rows)
    requires WriteShape(rows, w, now) && VerdictOn(rows, w) == Accepted
    ensures AuditFaithful(Stored(rows, w))
  {
    hide BookingFitsRows, Excluded, BookingsOf, DigestTaken;
    var rows' := Stored(rows, w);
    if !w.isInsert { assert BookingChecks(rows.bookings[w.id]); }
    forall id, v | AuditKey(id, v) in rows'.audit
      ensures EntryInPlace(rows'.bookings[id], v, rows'.audit[AuditKey(id, v)].change)
    {
      if AuditKey(id, v) in rows.audit {
        assert EntryInPlace(rows.bookings[id], v, rows.audit[AuditKey(id, v)].change);
      }
    }
  }

  lemma StoredOutbox(rows: Rows, w: BookingWrite, now: Instant)
    requires OutboxFaithful(rows)
    requires WriteShape(rows, w, now) && VerdictOn(rows, w) == Accepted
    ensures OutboxFaithful(Stored(rows, w))
  {
    hide BookingFitsRows, Excluded, BookingsOf, DigestTaken, BookingChecks;
  }

  lemma StoredTimes(rows: Rows, w: BookingWrite, now: Instant, clock: Instant)
    requires now <= clock && Timely(rows.bookings, clock) && FitsFrom(rows, clock)
    requires WriteShape(rows, w, now)
    ensures Timely(Stored(rows, w).bookings, clock) && FitsFrom(Stored(rows, w), clock)
  {
  }

  lemma ExecuteKeeps(rows: Rows, cmd: Visit, draw: Draw, clock: Instant)
    requires Inv(rows, clock) && draw.now <= clock && cmd.WellFormed()
    ensures Inv(Execute(rows, cmd, draw).0, clock)
  {
    ExecuteShape(rows, cmd, draw);
    var w := WriteIn(rows, cmd, draw);
    var rows' := Execute(rows, cmd, draw).0;
    if w.Some? {
      PlannedWrite(rows, cmd, draw);
      StoredTables(rows, w.value, draw.now);
      StoredAudit(rows, w.value, draw.now);
      StoredOutbox(rows, w.value, draw.now);
      StoredTimes(rows, w.value, draw.now, clock);
    }
    CoreIgnoresReceipts(rows'.(receipts := rows.receipts), rows', clock);
    ExecuteSettles(rows, cmd, draw);
  }

  lemma CoreIgnoresReceipts(a: Rows, b: Rows, clock: Instant)
    requires Core(a, clock) && a == b.(receipts := a.receipts)
    ensures Core(b, clock)
  {
  }

  /** An effect leaves receipts, the catalog and earlier tokens alone. */
  lemma EffectFrame(rows: Rows, cmd: Visit, draw: Draw)
    ensures var o := Effect(rows, cmd, draw);
            o.Done? ==>
              && o.rows == rows.(bookings := o.rows.bookings, audit := o.rows.audit, outbox := o.rows.outbox,
                                 tokens := o.rows.tokens)
              && forall id | id in rows.tokens :: id in o.rows.tokens && o.rows.tokens[id] == rows.tokens[id]
  {
    hide PlanOf, GateOf, FitIn;
    var seen := SeenIn(rows, cmd);
    FinishFrame(rows, PlanOf(rows.catalog, cmd, seen, FitIn(rows, GateOf(rows.catalog, cmd, seen, draw.now)), draw));
  }

  lemma FinishFrame(rows: Rows, plan: Plan)
    ensures var o := Finish(rows, plan);
            o.Done? ==>
              && o.rows == rows.(bookings := o.rows.bookings, audit := o.rows.audit, outbox := o.rows.outbox,
                                 tokens := o.rows.tokens)
              && forall id | id in rows.tokens :: id in o.rows.tokens && o.rows.tokens[id] == rows.tokens[id]
  {
    hide Excluded, BookingsOf, DigestTaken, BookingChecks;
  }

  lemma ExecuteSettles(rows: Rows, cmd: Visit, draw: Draw)
    requires ReceiptsSettled(rows.receipts)
    ensures ReceiptsSettled(Execute(rows, cmd, draw).0.receipts)
  {
    hide Effect, Replay;
    EffectFrame(rows, cmd, draw);
  }

  /** Housekeeping removes results and tokens, and nothing else. */
  lemma HousekeepingKeeps(rows: Rows, rows': Rows, clock: Instant)
    requires Inv(rows, clock)
    requires rows' == rows.(receipts := rows'.receipts, redactions := rows'.redactions, tokens := rows'.tokens)
    requires rows'.tokens.Keys <= rows.tokens.Keys && ReceiptsSettled(rows'.receipts)
    ensures Inv(rows', clock)
  {
  }

  /** What an edit that passes validation leaves alone. */
  lemma RewrittenFrame(rows: Rows, e: Edit)
    requires Rewritten(rows, e).Ok?
    ensures var rows' := Rewritten(rows, e).value;
            && rows' == rows.(services := rows'.services, rules := rows'.rules, exceptions := rows'.exceptions)
            && EditedBranch(rows, e).Some? && EditedBranch(rows, e).value in rows.catalog.branches
            && (!e.EditService? ==> EditedBarber(rows, e).Some?)
  {
  }

  /** Catalog edits touch services, rules and exceptions only. */
  lemma EditFrame(rows: Rows, e: Edit, now: Instant)
    ensures var (rows', a) := ExecuteEdit(rows, e, now);
            && rows' == rows.(services := rows'.services, rules := rows'.rules, exceptions := rows'.exceptions)
            && (a == Edited ==> Rewritten(rows, e) == Ok(rows')) && (a != Edited ==> rows' == rows && a.Raised?)
  {
    hide Recheck;
    if Rewritten(rows, e).Ok? { RewrittenFrame(rows, e); }
  }

  /** Rosters other than the edited one are untouched by an edit. */
  lemma OtherRosters(rows: Rows, e: Edit, branch: Id, barber: Id)
    requires Rewritten(rows, e).Ok?
    requires EditedBranch(rows, e) != Some(branch) || EditedBarber(rows, e) != Some(barber)
    ensures var rows' := Rewritten(rows, e).value;
            RosterOf(rows'.rules, rows'.exceptions, branch, barber)
            == RosterOf(rows.rules, rows.exceptions, branch, barber)
  {
    var rows' := Rewritten(rows, e).value;
    var before, after := RosterOf(rows.rules, rows.exceptions, branch, barber),
                         RosterOf(rows'.rules, rows'.exceptions, branch, barber);
    assert before.rules == after.rules;
    assert before.exceptions == after.exceptions;
  }

  lemma RewrittenTables(rows: Rows, e: Edit)
    requires TablesValid(rows) && Rewritten(rows, e).Ok?
    ensures TablesValid(Rewritten(rows, e).value)
  {
    if e.EditException? {
      var x := ChangedException(rows.exceptions[e.id], e.exceptionChanges);
      var roster := RosterOf(rows.rules, rows.exceptions, x.branch, x.barber).exceptions;
      forall y | y in rows.exceptions && y != e.id
        ensures !SameDate(x, rows.exceptions[y])
      {
        if rows.exceptions[y].branch == x.branch && rows.exceptions[y].barber == x.barber {
          assert y in roster;
        }
      }
    }
  }

  lemma EditRechecked(rows: Rows, e: Edit, now: Instant)
    requires ExecuteEdit(rows, e, now).1 == Edited
    ensures Rewritten(rows, e) == Ok(ExecuteEdit(rows, e, now).0)
    ensures !e.EditService? ==>
              Recheck(Rewritten(rows, e).value, EditedBranch(rows, e).value, EditedBarber(rows, e).value, now) == None
  {
    hide Recheck;
  }

  /** A committed edit leaves every future booking fitting. */
  lemma EditKeepsFit(rows: Rows, e: Edit, now: Instant, clock: Instant)
    requires now <= clock && FitsFrom(rows, clock) && ExecuteEdit(rows, e, now).1 == Edited
    ensures FitsFrom(ExecuteEdit(rows, e, now).0, clock)
  {
    EditRechecked(rows, e, now);
    var rows' := ExecuteEdit(rows, e, now).0;
    RewrittenFrame(rows, e);
    hide ExecuteEdit, Rewritten, BookingFits, RosterOf;
    forall id | id in rows.bookings && rows.bookings[id].status != Cancelled && rows.bookings[id].startAt >= clock
      ensures BookingFitsRows(rows', rows.bookings[id])
    {
      var b := rows.bookings[id];
      if EditedBranch(rows, e) == Some(b.branch) && EditedBarber(rows, e) == Some(b.barber) {
        var barberRows := BookingsOf(rows.bookings, b.barber);
        assert id in FutureIds(barberRows, b.branch, now);
        var z := rows.catalog.branches[b.branch].zone;
        var roster := RosterOf(rows'.rules, rows'.exceptions, b.branch, b.barber);
        assert id !in ConflictIds(z, roster, barberRows, b.branch, now);
      } else {
        OtherRosters(rows, e, b.branch, b.barber);
      }
    }
  }

  lemma EditKeeps(rows: Rows, e: Edit, now: Instant, clock: Instant)
    requires Inv(rows, clock) && now <= clock
    ensures Inv(ExecuteEdit(rows, e, now).0, clock)
  {
    hide ExecuteEdit, Rewritten;
    EditFrame(rows, e, now);
    if ExecuteEdit(rows, e, now).1 == Edited {
      RewrittenTables(rows, e);
      EditKeepsFit(rows, e, now, clock);
    }
  }

  lemma ClockAdvances(rows: Rows, clock: Instant, clock': Instant)
    requires Inv(rows, clock) && clock <= clock'
    ensures Inv(rows, clock')
  {
  }

  // --------------------------------------------------------------------- runs

  ghost predicate Admissible(e: Event, clock: Instant) {
    match e
    case VisitAt(cmd, draw) => cmd.WellFormed() && draw.now <= clock
    case EditAt(_, now) => now <= clock
    case _ => true
  }

  lemma StepKeeps(rows: Rows, e: Event, clock: Instant)
    requires Inv(rows, clock) && Admissible(e, clock)
    ensures Inv(Step(rows, e).0, clock)
  {
    hide Execute, ExecuteEdit, Core;
    match e
    case VisitAt(cmd, draw) => ExecuteKeeps(rows, cmd, draw, clock);
    case EditAt(edit, now) => EditKeeps(rows, edit, now, clock);
    case _ => HousekeepingKeeps(rows, Step(rows, e).0, clock);
  }

  /** Every serial run keeps the invariant, at any clock no reading of the run exceeds. */
  lemma {:induction false} RunKeeps(rows: Rows, events: seq<Event>, clock: Instant)
    requires Inv(rows, clock) && forall e | e in events :: Admissible(e, clock)
    ensures Inv(Run(rows, events), clock)
    decreases |events|
  {
    if events == [] {
    } else {
      var n := |events| - 1;
      hide Step;
      RunKeeps(rows, events[..n], clock);
      StepKeeps(Run(rows, events[..n]), events[n], clock);
    }
  }
}
