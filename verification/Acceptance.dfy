/**
 Which commands go through, and what every other one is told. Each answer is tied to conditions
 a reader can check against the catalog, the rules and exceptions, and the other bookings.
 */
module Acceptance {
  import opened Base
  import opened Calendar
  import opened Schedule
  import opened Model
  import opened Commands
  import opened Invariants
  import opened Lifecycle

  /** Another visit of the barber, in whatever branch, overlaps [start,end). */
  predicate Taken(bookings: map<Id, Booking>, id: Id, barber: Id, start: Instant, end: Instant) {
    exists other | other in bookings && other != id ::
      bookings[other].barber == barber && bookings[other].status != Cancelled
      && Overlaps(start, end, bookings[other].startAt, bookings[other].endAt)
  }

  lemma TakenIsExcluded(bookings: map<Id, Booking>, id: Id, b: Booking)
    requires b.status != Cancelled
    ensures Excluded(BookingsOf(bookings, b.barber), id, b) <==> Taken(bookings, id, b.barber, b.startAt, b.endAt)
  {
    var mine := BookingsOf(bookings, b.barber);
    assert forall other :: other in mine <==> (other in bookings && bookings[other].barber == b.barber);
  }

  // ------------------------------------------------------------- working hours

  /** The barber's hours in the branch, told from all rules and exceptions. */
  ghost predicate OnDuty(rows: Rows, branch: Id, barber: Id, date: int, starts: TimeOfDay, ends: TimeOfDay) {
    || (exists id | id in rows.exceptions ::
          && rows.exceptions[id].branch == branch && rows.exceptions[id].barber == barber
          && ReplacedBy(rows.exceptions[id], date, starts, ends))
    || ((forall id | id in rows.exceptions && rows.exceptions[id].branch == branch
                     && rows.exceptions[id].barber == barber :: rows.exceptions[id].localDate != date)
        && exists id | id in rows.rules ::
             rows.rules[id].branch == branch && rows.rules[id].barber == barber
             && RuledBy(rows.rules[id], date, starts, ends))
  }

  /** Hours of some date, looked at without the two-date shortcut, contain the visit. */
  ghost predicate Staffed(rows: Rows, branch: Id, barber: Id, start: Instant, end: Instant) {
    branch in rows.catalog.branches &&
    exists date, starts, ends ::
      OnDuty(rows, branch, barber, date, starts, ends)
      && HoursContain(rows.catalog.branches[branch].zone, date, starts, ends, start, end)
  }

  ghost predicate DutyReads(rows: Rows, branch: Id, barber: Id, date: int) {
    branch in rows.catalog.branches &&
    forall starts, ends | OnDuty(rows, branch, barber, date, starts, ends) ::
      HoursRead(rows.catalog.branches[branch].zone, date, starts, ends)
  }

  /** The hours of the visit's date and of the day before all begin and end at wall times shown once. */
  ghost predicate Evaluable(rows: Rows, branch: Id, barber: Id, start: Instant) {
    branch in rows.catalog.branches &&
    var day := DateOf(rows.catalog.branches[branch].zone.Show(start));
    DutyReads(rows, branch, barber, day - 1) && DutyReads(rows, branch, barber, day)
  }

  lemma DutyTold(rows: Rows, branch: Id, barber: Id, date: int, starts: TimeOfDay, ends: TimeOfDay)
    ensures Works(RosterOf(rows.rules, rows.exceptions, branch, barber), date, starts, ends)
            <==> OnDuty(rows, branch, barber, date, starts, ends)
  {
    var roster := RosterOf(rows.rules, rows.exceptions, branch, barber);
    hide ReplacedBy, RuledBy;
    if id :| id in rows.exceptions && rows.exceptions[id].branch == branch && rows.exceptions[id].barber == barber
             && ReplacedBy(rows.exceptions[id], date, starts, ends) {
      assert id in roster.exceptions;
    }
    if id :| id in rows.rules && rows.rules[id].branch == branch && rows.rules[id].barber == barber
             && RuledBy(rows.rules[id], date, starts, ends) {
      assert id in roster.rules;
    }
    assert forall id | id in rows.exceptions && rows.exceptions[id].branch == branch
                       && rows.exceptions[id].barber == barber :: id in roster.exceptions;
  }

  lemma CoveredTold(rows: Rows, branch: Id, barber: Id, start: Instant, end: Instant)
    requires branch in rows.catalog.branches
    ensures CoveredSomeday(rows.catalog.branches[branch].zone, RosterOf(rows.rules, rows.exceptions, branch, barber),
                           start, end)
            <==> Staffed(rows, branch, barber, start, end)
  {
    hide Works, OnDuty, HoursContain, RosterOf;
    var z, roster := rows.catalog.branches[branch].zone, RosterOf(rows.rules, rows.exceptions, branch, barber);
    if CoveredSomeday(z, roster, start, end) {
      var date: int :| DateContains(z, roster, date, start, end);
      var starts, ends :| Works(roster, date, starts, ends) && HoursContain(z, date, starts, ends, start, end);
      DutyTold(rows, branch, barber, date, starts, ends);
    }
    if Staffed(rows, branch, barber, start, end) {
      var date: int, starts, ends :| OnDuty(rows, branch, barber, date, starts, ends)
                                     && HoursContain(z, date, starts, ends, start, end);
      DutyTold(rows, branch, barber, date, starts, ends);
      assert DateContains(z, roster, date, start, end);
    }
  }

  lemma ReadsTold(rows: Rows, branch: Id, barber: Id, date: int)
    requires branch in rows.catalog.branches
    ensures DateReads(rows.catalog.branches[branch].zone, RosterOf(rows.rules, rows.exceptions, branch, barber), date)
            <==> DutyReads(rows, branch, barber, date)
  {
    var roster := RosterOf(rows.rules, rows.exceptions, branch, barber);
    hide Works, OnDuty, HoursRead, RosterOf;
    forall starts, ends
      ensures Works(roster, date, starts, ends) <==> OnDuty(rows, branch, barber, date, starts, ends)
    {
      DutyTold(rows, branch, barber, date, starts, ends);
    }
  }

  /** The verdict of the schedule, told from all rules and exceptions and over all dates. */
  lemma StaffedOrNot(rows: Rows, branch: Id, barber: Id, start: Instant, end: Instant)
    requires rows.catalog.Valid() && start < end && branch in rows.catalog.branches
    ensures BookingFits(rows.catalog.branches[branch].zone,
                        RosterOf(rows.rules, rows.exceptions, branch, barber), start, end)
            == if !Evaluable(rows, branch, barber, start) then Unevaluable
               else if Staffed(rows, branch, barber, start, end) then Fits else Misfit
  {
    var z, roster := rows.catalog.branches[branch].zone, RosterOf(rows.rules, rows.exceptions, branch, barber);
    hide BookingFits, DateReads, DateContains, DutyReads, Staffed, RosterOf, CoveredSomeday;
    FitFromRows(z, roster, start, end);
    ReadsTold(rows, branch, barber, DateOf(z.Show(start)) - 1);
    ReadsTold(rows, branch, barber, DateOf(z.Show(start)));
    CoveredTold(rows, branch, barber, start, end);
    if BookingFits(z, roster, start, end) != Unevaluable { TwoDatesSuffice(z, roster, start, end); }
  }

  // -------------------------------------------------------------------- replies

  /** An error reply names the booking and its version. */
  function Refusing(id: Id, code: Code, version: int): Response {
    Response(Some(id), None, Some(code), Some(version), None, None)
  }

  function Confirming(id: Id, status: Status, version: int, noOp: bool): Response {
    Response(Some(id), Some(status), None, Some(version), Some(noOp), None)
  }

  /** Nothing but the receipt is written. */
  predicate Unwritten(rows: Rows, rows': Rows) {
    rows'.(receipts := rows.receipts) == rows
  }

  /** Besides receipt and journal only the booking, and with an insert its token, is written. */
  predicate Wrote(rows: Rows, rows': Rows, id: Id, b: Booking, token: Option<Token>) {
    rows'.(receipts := rows.receipts, audit := rows.audit, outbox := rows.outbox)
    == rows.(bookings := rows.bookings[id := b],
             tokens := if token.Some? then rows.tokens[id := token.value] else rows.tokens)
  }

  lemma WroteBooking(rows: Rows, rows': Rows, id: Id, b: Booking, token: Option<Token>)
    requires Wrote(rows, rows', id, b, token)
    ensures rows'.bookings == rows.bookings[id := b]
  {
  }

  /** The answer and the rows a plan leads to. */
  predicate AnswersPlan(rows: Rows, plan: Plan, rows': Rows, a: Answer) {
    match plan
    case Stop(f) => a == Raised(f) && rows' == rows
    case Return(code, response) => a == Answered(code, response, false) && Unwritten(rows, rows')
    case Write(w) =>
      match VerdictOn(rows, w)
      case Accepted => a == Answered(w.code, w.response, false) && Wrote(rows, rows', w.id, w.booking, w.token)
      case SlotTaken =>
        w.taken.Some? && w.taken.value.Reply? ==>
          a == Answered(w.taken.value.code, w.taken.value.response, false) && Unwritten(rows, rows')
      case Broken => a == Raised(IntegrityError) && rows' == rows
  }

  lemma AcceptedAnswers(rows: Rows, plan: Plan, rows': Rows, a: Answer)
    requires plan.Write? && VerdictOn(rows, plan.write) == Accepted && AnswersPlan(rows, plan, rows', a)
    ensures a == Answered(plan.write.code, plan.write.response, false)
    ensures rows'.bookings == rows.bookings[plan.write.id := plan.write.booking]
  {
    hide VerdictOn, Wrote, Unwritten;
    WroteBooking(rows, rows', plan.write.id, plan.write.booking, plan.write.token);
  }

  lemma FinishAnswers(rows: Rows, plan: Plan, cmd: Visit, at: Instant)
    ensures match Finish(rows, plan)
            case Failed(f) => AnswersPlan(rows, plan, rows, Raised(f))
            case Done(rows', code, response) =>
              AnswersPlan(rows, plan, WithReceipt(rows', cmd, code, response, at), Answered(code, response, false))
  {
    hide VerdictOn;
  }

  lemma AnswerOfPlan(rows: Rows, cmd: Visit, draw: Draw)
    requires cmd.Identity() !in rows.receipts
    ensures AnswersPlan(rows, PlanIn(rows, cmd, draw), Execute(rows, cmd, draw).0, Execute(rows, cmd, draw).1)
  {
    hide PlanOf, GateOf, SeenIn, FitIn, Finish, AnswersPlan;
    assert Effect(rows, cmd, draw) == Finish(rows, PlanIn(rows, cmd, draw));
    FinishAnswers(rows, PlanIn(rows, cmd, draw), cmd, draw.completedAt);
  }

  lemma QuietAnswers(rows: Rows, plan: Plan, rows': Rows, a: Answer)
    requires !plan.Write? && AnswersPlan(rows, plan, rows', a)
    ensures plan.Stop? ==> a == Raised(plan.failure) && rows' == rows
    ensures plan.Return? ==> a == Answered(plan.code, plan.response, false) && Unwritten(rows, rows')
  {
    hide VerdictOn;
  }

  // --------------------------------------------------------------------- create

  /** The catalog and the start rules allow the request. */
  predicate Requestable(rows: Rows, cmd: Visit, now: Instant)
    requires cmd.Create?
  {
    && cmd.branch in rows.catalog.branches && rows.catalog.branches[cmd.branch].business == cmd.scope.business
    && cmd.service in rows.services && rows.services[cmd.service].branch == cmd.branch
    && rows.services[cmd.service].isActive
    && cmd.barber in rows.catalog.barbers && rows.catalog.barbers[cmd.barber]
    && Assignment(cmd.branch, cmd.barber, cmd.service) in rows.catalog.assignments
    && rows.catalog.assignments[Assignment(cmd.branch, cmd.barber, cmd.service)]
    && MayStart(rows.catalog.branches[cmd.branch], cmd.startAt, now)
  }

  function RequestedEnd(rows: Rows, cmd: Visit, now: Instant): Instant
    requires cmd.Create? && Requestable(rows, cmd, now)
  {
    cmd.startAt.utc + rows.services[cmd.service].durationSeconds * SECOND
  }

  /** A confirmed first version carrying the snapshots of service and zone. */
  function RequestedBooking(rows: Rows, cmd: Visit, now: Instant): Booking
    requires cmd.Create? && Requestable(rows, cmd, now)
  {
    var s := rows.services[cmd.service];
    Booking(cmd.branch, cmd.barber, cmd.service, Confirmed, 1, cmd.startAt.utc, RequestedEnd(rows, cmd, now),
            s.name, s.price, s.currency, s.durationSeconds, rows.catalog.branches[cmd.branch].zone)
  }

  function RequestedToken(cmd: Visit, draw: Draw): Option<Token>
    requires cmd.Create?
  {
    if cmd.secret.None? then None
    else Some(Token(Sha256(cmd.secret.value), Fernet(cmd.secret.value), cmd.session, draw.insertedAt))
  }

  /** What a request the catalog or the start rules forbid is told: what is missing before what is wrong. */
  function Objection(rows: Rows, cmd: Visit): Failure
    requires cmd.Create?
  {
    if cmd.barber !in rows.catalog.barbers || cmd.branch !in rows.catalog.branches then NotFound
    else if rows.catalog.branches[cmd.branch].business != cmd.scope.business then RuleViolation
    else if !(cmd.service in rows.services && rows.services[cmd.service].branch == cmd.branch
              && rows.services[cmd.service].isActive) then NotFound
    else RuleViolation
  }

  predicate Clashing(rows: Rows, cmd: Visit, draw: Draw)
    requires cmd.Create? && Requestable(rows, cmd, draw.now)
  {
    Taken(rows.bookings, draw.freshId, cmd.barber, cmd.startAt.utc, RequestedEnd(rows, cmd, draw.now))
  }

  lemma CreateGateExactly(rows: Rows, cmd: Visit, now: Instant)
    requires cmd.Create?
    ensures var gate := GateOf(rows.catalog, cmd, SeenIn(rows, cmd), now);
            if Requestable(rows, cmd, now) then
              gate == Consult(cmd.branch, cmd.barber, cmd.startAt.utc, RequestedEnd(rows, cmd, now))
              && SeenIn(rows, cmd).service == Some(rows.services[cmd.service])
            else gate == Refuse(Objection(rows, cmd))
  {
    hide OnGrid;
  }

  predicate InsertsRequest(w: BookingWrite, cmd: Visit, draw: Draw, requested: Booking)
    requires cmd.Create?
  {
    && w.isInsert && w.id == draw.freshId && w.code == CREATED && w.booking == requested
    && w.response == Response(Some(draw.freshId), Some(Confirmed), None, Some(1), None,
                              if cmd.secret.Some? then Some(Fernet(cmd.secret.value)) else None)
    && w.taken == Some(Reply(SLOT_CONFLICT, Response(None, None, Some(SLOT_CONFLICT), None, None, None)))
    && w.token == RequestedToken(cmd, draw)
  }

  lemma RefusedPlan(rows: Rows, cmd: Visit, draw: Draw)
    ensures var gate := GateOf(rows.catalog, cmd, SeenIn(rows, cmd), draw.now); var plan := PlanIn(rows, cmd, draw);
            && (gate.Refuse? ==> plan == Stop(gate.failure))
            && (gate.Reply? ==> plan == Return(gate.code, gate.response))
  {
    hide GateOf, SeenIn, FitIn;
  }

  lemma CreatePlan(rows: Rows, cmd: Visit, draw: Draw)
    requires cmd.Create? && Requestable(rows, cmd, draw.now)
    requires GateOf(rows.catalog, cmd, SeenIn(rows, cmd), draw.now)
             == Consult(cmd.branch, cmd.barber, cmd.startAt.utc, RequestedEnd(rows, cmd, draw.now))
    requires SeenIn(rows, cmd).service == Some(rows.services[cmd.service])
    ensures var fit := BookingFits(rows.catalog.branches[cmd.branch].zone,
                                   RosterOf(rows.rules, rows.exceptions, cmd.branch, cmd.barber),
                                   cmd.startAt.utc, RequestedEnd(rows, cmd, draw.now));
            var plan := PlanIn(rows, cmd, draw);
            match fit
            case Fits => plan == Write(InsertOf(rows.catalog, cmd, rows.services[cmd.service], draw))
            case Misfit => plan == Stop(RuleViolation)
            case Unevaluable => plan == Stop(LocalTimeFailure)
  {
    hide GateOf, SeenIn, BookingFits, RosterOf;
  }

  lemma CreatePlanExactly(rows: Rows, cmd: Visit, draw: Draw, clock: Instant)
    requires Core(rows, clock) && cmd.Create?
    ensures var plan := PlanIn(rows, cmd, draw);
            if !Requestable(rows, cmd, draw.now) then plan == Stop(Objection(rows, cmd))
            else if !Evaluable(rows, cmd.branch, cmd.barber, cmd.startAt.utc) then plan == Stop(LocalTimeFailure)
            else if !Staffed(rows, cmd.branch, cmd.barber, cmd.startAt.utc, RequestedEnd(rows, cmd, draw.now))
            then plan == Stop(RuleViolation)
            else plan.Write? && InsertsRequest(plan.write, cmd, draw, RequestedBooking(rows, cmd, draw.now))
    ensures TablesValid(rows)
  {
    var now := draw.now;
    CreateGateExactly(rows, cmd, now);
    RefusedPlan(rows, cmd, draw);
    if Requestable(rows, cmd, now) {
      assert ServiceFields(rows.services[cmd.service]);
      StaffedOrNot(rows, cmd.branch, cmd.barber, cmd.startAt.utc, RequestedEnd(rows, cmd, now));
      CreatePlan(rows, cmd, draw);
    }
    hide Core, GateOf, SeenIn, PlanIn, Staffed, Evaluable, BookingFits;
  }

  /** The constraints an insert can meet, in their order: its id, the slot, its token. */
  lemma InsertVerdict(rows: Rows, w: BookingWrite, cmd: Visit, draw: Draw, clock: Instant)
    requires Core(rows, clock) && cmd.Create? && Requestable(rows, cmd, draw.now)
    requires InsertsRequest(w, cmd, draw, RequestedBooking(rows, cmd, draw.now)) && WriteShape(rows, w, draw.now)
    ensures VerdictOn(rows, w) ==
            if draw.freshId in rows.bookings then Broken
            else if Clashing(rows, cmd, draw) then SlotTaken
            else if cmd.secret.Some? && DigestTaken(rows.tokens, Sha256(cmd.secret.value)) then Broken else Accepted
  {
    if draw.freshId !in rows.bookings {
      JournalHasRoom(rows, w, draw.now);
      TakenIsExcluded(rows.bookings, w.id, w.booking);
      assert draw.freshId !in rows.tokens;
    }
    hide Core, Requestable, WriteShape, Taken, DigestTaken, Excluded, BookingsOf, BookingChecks;
  }

  lemma InsertAnswers(rows: Rows, plan: Plan, cmd: Visit, draw: Draw, requested: Booking, rows': Rows, a: Answer)
    requires cmd.Create? && plan.Write? && InsertsRequest(plan.write, cmd, draw, requested)
    requires AnswersPlan(rows, plan, rows', a)
    ensures match VerdictOn(rows, plan.write)
            case Broken => a == Raised(IntegrityError) && rows' == rows
            case SlotTaken =>
              a == Answered(SLOT_CONFLICT, Response(None, None, Some(SLOT_CONFLICT), None, None, None), false)
              && Unwritten(rows, rows')
            case Accepted =>
              a == Answered(CREATED, Response(Some(draw.freshId), Some(Confirmed), None, Some(1), None,
                                              if cmd.secret.Some? then Some(Fernet(cmd.secret.value)) else None), false)
              && Wrote(rows, rows', draw.freshId, requested, RequestedToken(cmd, draw))
  {
    hide VerdictOn, Wrote, Unwritten;
  }

  /**
   Everything a first create can come to. It raises what is missing or wrong; LocalTimeFailure
   if hours of its two dates do not read; a rule violation if no hours of any date contain it;
   SLOT_CONFLICT if another visit of the barber overlaps; and otherwise stores the booking with
   the snapshots of service and zone, and the token, and answers with its id. Only a repeated
   booking id or secret raises an integrity error.
   */
  lemma CreateExactly(rows: Rows, cmd: Visit, draw: Draw, clock: Instant)
    requires Core(rows, clock) && cmd.Create? && cmd.Identity() !in rows.receipts
    ensures var (rows', a) := Execute(rows, cmd, draw);
            if !Requestable(rows, cmd, draw.now) then a == Raised(Objection(rows, cmd)) && rows' == rows
            else if !Evaluable(rows, cmd.branch, cmd.barber, cmd.startAt.utc) then
              a == Raised(LocalTimeFailure) && rows' == rows
            else if !Staffed(rows, cmd.branch, cmd.barber, cmd.startAt.utc, RequestedEnd(rows, cmd, draw.now)) then
              a == Raised(RuleViolation) && rows' == rows
            else if draw.freshId in rows.bookings then a == Raised(IntegrityError) && rows' == rows
            else if Clashing(rows, cmd, draw) then
              a == Answered(SLOT_CONFLICT, Response(None, None, Some(SLOT_CONFLICT), None, None, None), false)
              && Unwritten(rows, rows')
            else if cmd.secret.Some? && DigestTaken(rows.tokens, Sha256(cmd.secret.value)) then
              a == Raised(IntegrityError) && rows' == rows
            else
              a == Answered(CREATED, Response(Some(draw.freshId), Some(Confirmed), None, Some(1), None,
                                              if cmd.secret.Some? then Some(Fernet(cmd.secret.value)) else None), false)
              && Wrote(rows, rows', draw.freshId, RequestedBooking(rows, cmd, draw.now), RequestedToken(cmd, draw))
  {
    CreatePlanExactly(rows, cmd, draw, clock);
    assert cmd.WellFormed();
    hide *;
    var plan := PlanIn(rows, cmd, draw);
    var (rows', a) := Execute(rows, cmd, draw);
    AnswerOfPlan(rows, cmd, draw);
    if plan.Write? {
      PlannedWrite(rows, cmd, draw);
      InsertVerdict(rows, plan.write, cmd, draw, clock);
      InsertAnswers(rows, plan, cmd, draw, RequestedBooking(rows, cmd, draw.now), rows', a);
    } else {
      QuietAnswers(rows, plan, rows', a);
    }
  }

  // ------------------------------------------------------- existing bookings

  /** With fresh keys the only constraint that can object is the exclusion of overlaps. */
  lemma VerdictTells(rows: Rows, w: BookingWrite, now: Instant, clock: Instant)
    requires Core(rows, clock) && WriteShape(rows, w, now) && w.booking.status != Cancelled
    requires w.isInsert ==> w.id !in rows.bookings
    requires w.token.Some? ==> w.isInsert && !DigestTaken(rows.tokens, w.token.value.digest)
    ensures VerdictOn(rows, w) ==
            if Taken(rows.bookings, w.id, w.booking.barber, w.booking.startAt, w.booking.endAt)
              then SlotTaken else Accepted
  {
    hide WriteShape, Timely, FitsFrom, BookingChecks;
    NeverBroken(rows, w, now);
    TakenIsExcluded(rows.bookings, w.id, w.booking);
  }

  /** The booking is in the command's business, and is what the command's scope aims at. */
  predicate Owned(rows: Rows, cmd: Visit)
    requires !cmd.Create? && cmd.booking in rows.bookings
  {
    var branch := rows.bookings[cmd.booking].branch;
    && branch in rows.catalog.branches && rows.catalog.branches[branch].business == cmd.scope.business
    && cmd.scope.target == Some(cmd.booking)
  }

  lemma TargetPlan(rows: Rows, cmd: Visit, draw: Draw)
    requires TablesValid(rows) && !cmd.Create?
    ensures cmd.booking !in rows.bookings ==> PlanIn(rows, cmd, draw) == Stop(NotFound)
    ensures cmd.booking in rows.bookings && !Owned(rows, cmd) ==> PlanIn(rows, cmd, draw) == Stop(ScopeViolation)
  {
    hide BookingFits, CancelGate, RescheduleGate, OutcomeGate;
  }

  /** The write replaces the command's booking by n and answers with n's status and version. */
  predicate Updates(w: BookingWrite, cmd: Visit, n: Booking, code: Code)
    requires !cmd.Create?
  {
    && !w.isInsert && w.id == cmd.booking && w.booking == n && w.token == None
    && w.code == code && w.response == Confirming(cmd.booking, n.status, n.version, false)
  }

  lemma UpdateAnswers(rows: Rows, plan: Plan, cmd: Visit, n: Booking, code: Code, rows': Rows, a: Answer)
    requires !cmd.Create? && plan.Write? && Updates(plan.write, cmd, n, code) && AnswersPlan(rows, plan, rows', a)
    ensures VerdictOn(rows, plan.write) == Accepted ==>
              && a == Answered(code, Confirming(cmd.booking, n.status, n.version, false), false)
              && Wrote(rows, rows', cmd.booking, n, None)
    ensures VerdictOn(rows, plan.write) == SlotTaken && RefusesTaken(plan.write, cmd) ==>
              && a == Answered(SLOT_CONFLICT, Refusing(cmd.booking, SLOT_CONFLICT, cmd.expectedVersion), false)
              && Unwritten(rows, rows')
  {
    hide VerdictOn, Wrote, Unwritten, Refusing, Confirming;
  }

  // ----------------------------------------------------------------- reschedule

  function Moved(b: Booking, start: Instant): Booking {
    b.(startAt := start, endAt := start + b.durationSeconds * SECOND, version := b.version + 1)
  }

  predicate RefusesTaken(w: BookingWrite, cmd: Visit)
    requires !cmd.Create?
  {
    w.taken == Some(Reply(SLOT_CONFLICT, Refusing(cmd.booking, SLOT_CONFLICT, cmd.expectedVersion)))
  }

  lemma MoveGateExactly(rows: Rows, cmd: Visit, now: Instant)
    requires cmd.Reschedule? && cmd.startAt.Aware? && cmd.booking in rows.bookings && Owned(rows, cmd)
    ensures var b := rows.bookings[cmd.booking]; var gate := GateOf(rows.catalog, cmd, SeenIn(rows, cmd), now);
            && SeenIn(rows, cmd).booking == Some(b)
            && gate == (if b.status != Confirmed then
                         Reply(STATE_CONFLICT, Refusing(cmd.booking, STATE_CONFLICT, b.version))
                        else if b.version != cmd.expectedVersion then
                         Reply(VERSION_CONFLICT, Refusing(cmd.booking, VERSION_CONFLICT, b.version))
                        else if cmd.startAt.utc == b.startAt then
                         Reply(RESCHEDULED, Confirming(cmd.booking, Confirmed, b.version, true))
                        else if now >= b.startAt then
                         Reply(RESCHEDULE_CLOSED, Refusing(cmd.booking, RESCHEDULE_CLOSED, b.version))
                        else if !MayStart(rows.catalog.branches[b.branch], cmd.startAt, now) then
                         Reply(TIME_RULE_VIOLATION, Refusing(cmd.booking, TIME_RULE_VIOLATION, b.version))
                        else Consult(b.branch, b.barber, cmd.startAt.utc,
                                     cmd.startAt.utc + b.durationSeconds * SECOND))
  {
    hide MayStart;
  }

  lemma MovePlan(rows: Rows, cmd: Visit, draw: Draw)
    requires cmd.Reschedule? && cmd.startAt.Aware? && cmd.booking in rows.bookings
    requires SeenIn(rows, cmd).booking == Some(rows.bookings[cmd.booking])
    requires GateOf(rows.catalog, cmd, SeenIn(rows, cmd), draw.now).Consult?
    ensures var gate := GateOf(rows.catalog, cmd, SeenIn(rows, cmd), draw.now); var plan := PlanIn(rows, cmd, draw);
            var b := rows.bookings[cmd.booking];
            match FitIn(rows, gate)
            case Fits =>
              plan.Write? && Updates(plan.write, cmd, Moved(b, cmd.startAt.utc), RESCHEDULED)
              && RefusesTaken(plan.write, cmd)
            case Misfit => plan == Return(TIME_RULE_VIOLATION, Refusing(cmd.booking, TIME_RULE_VIOLATION, b.version))
            case Unevaluable => plan == Stop(LocalTimeFailure)
  {
    hide GateOf, SeenIn, FitIn;
  }

  /** The schedule's verdict on the time a move asks for. */
  lemma MoveFit(rows: Rows, cmd: Visit, gate: Gate, clock: Instant)
    requires Core(rows, clock) && cmd.Reschedule? && cmd.startAt.Aware? && cmd.booking in rows.bookings
    requires var b := rows.bookings[cmd.booking];
             gate == Consult(b.branch, b.barber, cmd.startAt.utc, cmd.startAt.utc + b.durationSeconds * SECOND)
    ensures FitIn(rows, gate) ==
            if !Evaluable(rows, gate.branch, gate.barber, gate.start) then Unevaluable
            else if Staffed(rows, gate.branch, gate.barber, gate.start, gate.end) then Fits else Misfit
  {
    assert BookingChecks(rows.bookings[cmd.booking]);
    hide BookingFits, Evaluable, Staffed, RosterOf;
    StaffedOrNot(rows, gate.branch, gate.barber, gate.start, gate.end);
  }

  lemma ReschedulePlanExactly(rows: Rows, cmd: Visit, draw: Draw, clock: Instant)
    requires Core(rows, clock) && cmd.Reschedule? && cmd.startAt.Aware? && cmd.booking in rows.bookings
    requires Owned(rows, cmd)
    ensures var b := rows.bookings[cmd.booking]; var n := Moved(b, cmd.startAt.utc);
            var plan := PlanIn(rows, cmd, draw);
            if b.status != Confirmed then
              plan == Return(STATE_CONFLICT, Refusing(cmd.booking, STATE_CONFLICT, b.version))
            else if b.version != cmd.expectedVersion then
              plan == Return(VERSION_CONFLICT, Refusing(cmd.booking, VERSION_CONFLICT, b.version))
            else if cmd.startAt.utc == b.startAt then
              plan == Return(RESCHEDULED, Confirming(cmd.booking, Confirmed, b.version, true))
            else if draw.now >= b.startAt then
              plan == Return(RESCHEDULE_CLOSED, Refusing(cmd.booking, RESCHEDULE_CLOSED, b.version))
            else if !MayStart(rows.catalog.branches[b.branch], cmd.startAt, draw.now) then
              plan == Return(TIME_RULE_VIOLATION, Refusing(cmd.booking, TIME_RULE_VIOLATION, b.version))
            else if !Evaluable(rows, b.branch, b.barber, n.startAt) then plan == Stop(LocalTimeFailure)
            else if !Staffed(rows, b.branch, b.barber, n.startAt, n.endAt) then
              plan == Return(TIME_RULE_VIOLATION, Refusing(cmd.booking, TIME_RULE_VIOLATION, b.version))
            else plan.Write? && Updates(plan.write, cmd, n, RESCHEDULED) && RefusesTaken(plan.write, cmd)
  {
    MoveGateExactly(rows, cmd, draw.now);
    RefusedPlan(rows, cmd, draw);
    var gate := GateOf(rows.catalog, cmd, SeenIn(rows, cmd), draw.now);
    hide Core, Staffed, Evaluable, GateOf, Owned, PlanIn, SeenIn, MayStart, FitIn, Refusing, Confirming, Updates,
         RefusesTaken;
    if gate.Consult? {
      MoveFit(rows, cmd, gate, clock);
      MovePlan(rows, cmd, draw);
    }
  }

  lemma MoveVerdict(rows: Rows, w: BookingWrite, cmd: Visit, draw: Draw, clock: Instant, n: Booking)
    requires Core(rows, clock) && cmd.Reschedule? && Updates(w, cmd, n, RESCHEDULED) && n.status == Confirmed
    requires WriteShape(rows, w, draw.now)
    ensures VerdictOn(rows, w) ==
            if Taken(rows.bookings, cmd.booking, n.barber, n.startAt, n.endAt) then SlotTaken else Accepted
  {
    hide Core, VerdictOn, WriteShape, Taken;
    VerdictTells(rows, w, draw.now, clock);
  }

  /**
   Everything a first reschedule can come to, in the order of its checks. Every error names the
   booking and its true version; a move to the present start confirms the row as it is; and the
   booking moves, keeping its length, exactly if nothing objects.
   */
  lemma RescheduleExactly(rows: Rows, cmd: Visit, draw: Draw, clock: Instant)
    requires Core(rows, clock) && cmd.Reschedule? && cmd.startAt.Aware? && cmd.Identity() !in rows.receipts
    ensures var (rows', a) := Execute(rows, cmd, draw); var id := cmd.booking;
            if id !in rows.bookings then a == Raised(NotFound) && rows' == rows
            else if !Owned(rows, cmd) then a == Raised(ScopeViolation) && rows' == rows
            else
              var b := rows.bookings[id]; var n := Moved(b, cmd.startAt.utc);
              if b.status != Confirmed then
                a == Answered(STATE_CONFLICT, Refusing(id, STATE_CONFLICT, b.version), false) && Unwritten(rows, rows')
              else if b.version != cmd.expectedVersion then
                a == Answered(VERSION_CONFLICT, Refusing(id, VERSION_CONFLICT, b.version), false)
                && Unwritten(rows, rows')
              else if cmd.startAt.utc == b.startAt then
                a == Answered(RESCHEDULED, Confirming(id, Confirmed, b.version, true), false) && Unwritten(rows, rows')
              else if draw.now >= b.startAt then
                a == Answered(RESCHEDULE_CLOSED, Refusing(id, RESCHEDULE_CLOSED, b.version), false)
                && Unwritten(rows, rows')
              else if !MayStart(rows.catalog.branches[b.branch], cmd.startAt, draw.now) then
                a == Answered(TIME_RULE_VIOLATION, Refusing(id, TIME_RULE_VIOLATION, b.version), false)
                && Unwritten(rows, rows')
              else if !Evaluable(rows, b.branch, b.barber, n.startAt) then
                a == Raised(LocalTimeFailure) && rows' == rows
              else if !Staffed(rows, b.branch, b.barber, n.startAt, n.endAt) then
                a == Answered(TIME_RULE_VIOLATION, Refusing(id, TIME_RULE_VIOLATION, b.version), false)
                && Unwritten(rows, rows')
              else if Taken(rows.bookings, id, b.barber, n.startAt, n.endAt) then
                a == Answered(SLOT_CONFLICT, Refusing(id, SLOT_CONFLICT, b.version), false) && Unwritten(rows, rows')
              else
                a == Answered(RESCHEDULED, Confirming(id, Confirmed, b.version + 1, false), false)
                && Wrote(rows, rows', id, n, None)
  {
    TargetPlan(rows, cmd, draw);
    assert TablesValid(rows) && cmd.WellFormed();
    if cmd.booking in rows.bookings && Owned(rows, cmd) {
      ReschedulePlanExactly(rows, cmd, draw, clock);
      var b, n := rows.bookings[cmd.booking], Moved(rows.bookings[cmd.booking], cmd.startAt.utc);
      assert n.barber == b.barber && n.status == b.status && n.version == b.version + 1;
    }
    hide *;
    var plan := PlanIn(rows, cmd, draw);
    var (rows', a) := Execute(rows, cmd, draw);
    AnswerOfPlan(rows, cmd, draw);
    if plan.Write? {
      var n := Moved(rows.bookings[cmd.booking], cmd.startAt.utc);
      PlannedWrite(rows, cmd, draw);
      MoveVerdict(rows, plan.write, cmd, draw, clock, n);
      UpdateAnswers(rows, plan, cmd, n, RESCHEDULED, rows', a);
    } else {
      QuietAnswers(rows, plan, rows', a);
    }
  }

  // ------------------------------------------------- cancellation and outcomes

  lemma CancelGateExactly(rows: Rows, cmd: Visit, now: Instant)
    requires cmd.Cancel? && cmd.booking in rows.bookings && Owned(rows, cmd)
    ensures var b := rows.bookings[cmd.booking]; var gate := GateOf(rows.catalog, cmd, SeenIn(rows, cmd), now);
            && SeenIn(rows, cmd).booking == Some(b)
            && gate == (if b.status == Cancelled then
                         Reply(CANCELLED, Confirming(cmd.booking, Cancelled, b.version, true))
                        else if b.status != Confirmed then
                         Reply(STATE_CONFLICT, Refusing(cmd.booking, STATE_CONFLICT, b.version))
                        else if b.version != cmd.expectedVersion then
                         Reply(VERSION_CONFLICT, Refusing(cmd.booking, VERSION_CONFLICT, b.version))
                        else if now >= b.startAt || (!cmd.override && b.startAt - now < 2 * HOUR) then
                         Reply(CANCELLATION_CLOSED, Refusing(cmd.booking, CANCELLATION_CLOSED, b.version))
                        else Proceed)
  {
  }

  lemma OutcomeGateExactly(rows: Rows, cmd: Visit, now: Instant)
    requires cmd.Outcome? && cmd.WellFormed() && cmd.booking in rows.bookings && Owned(rows, cmd)
    ensures var b := rows.bookings[cmd.booking]; var gate := GateOf(rows.catalog, cmd, SeenIn(rows, cmd), now);
            var code := if cmd.target == Completed then COMPLETED else NO_SHOW;
            && SeenIn(rows, cmd).booking == Some(b)
            && gate == (if !cmd.permitted then Refuse(Forbidden)
                        else if b.status == cmd.target then
                         Reply(code, Confirming(cmd.booking, b.status, b.version, true))
                        else if b.status != Confirmed then
                         Reply(STATE_CONFLICT, Refusing(cmd.booking, STATE_CONFLICT, b.version))
                        else if b.version != cmd.expectedVersion then
                         Reply(VERSION_CONFLICT, Refusing(cmd.booking, VERSION_CONFLICT, b.version))
                        else if now < b.endAt then
                         Reply(OUTCOME_TOO_EARLY, Refusing(cmd.booking, OUTCOME_TOO_EARLY, b.version))
                        else Proceed)
  {
  }

  lemma ClosePlan(rows: Rows, cmd: Visit, draw: Draw, status: Status, code: Code)
    requires (cmd.Cancel? || cmd.Outcome?) && cmd.booking in rows.bookings
    requires cmd.Cancel? ==> status == Cancelled && code == CANCELLED
    requires cmd.Outcome? ==> status == cmd.target && code == if cmd.target == Completed then COMPLETED else NO_SHOW
    requires SeenIn(rows, cmd).booking == Some(rows.bookings[cmd.booking])
    requires GateOf(rows.catalog, cmd, SeenIn(rows, cmd), draw.now) == Proceed
    ensures var b := rows.bookings[cmd.booking]; var plan := PlanIn(rows, cmd, draw);
            plan.Write? && Updates(plan.write, cmd, b.(status := status, version := b.version + 1), code)
  {
    hide GateOf, SeenIn, FitIn;
  }

  /** Nothing can object to a planned change of status. */
  lemma StatusPlan(rows: Rows, cmd: Visit, draw: Draw, clock: Instant)
    requires Core(rows, clock) && (cmd.Cancel? || cmd.Outcome?) && cmd.WellFormed()
    ensures var plan := PlanIn(rows, cmd, draw); plan.Write? ==> VerdictOn(rows, plan.write) == Accepted
  {
    if PlanIn(rows, cmd, draw).Write? {
      PlannedWrite(rows, cmd, draw);
      WriteSource(rows, cmd, draw);
      var w := PlanIn(rows, cmd, draw).write;
      hide PlanIn, VerdictOn;
      assert w.change != BookingCreated && w.change != BookingRescheduled;
      NeverBroken(rows, w, draw.now);
    }
  }

  lemma CancelPlanExactly(rows: Rows, cmd: Visit, draw: Draw)
    requires cmd.Cancel? && cmd.booking in rows.bookings && Owned(rows, cmd)
    ensures var b := rows.bookings[cmd.booking]; var plan := PlanIn(rows, cmd, draw);
            if b.status == Cancelled then
              plan == Return(CANCELLED, Confirming(cmd.booking, Cancelled, b.version, true))
            else if b.status != Confirmed then
              plan == Return(STATE_CONFLICT, Refusing(cmd.booking, STATE_CONFLICT, b.version))
            else if b.version != cmd.expectedVersion then
              plan == Return(VERSION_CONFLICT, Refusing(cmd.booking, VERSION_CONFLICT, b.version))
            else if draw.now >= b.startAt || (!cmd.override && b.startAt - draw.now < 2 * HOUR) then
              plan == Return(CANCELLATION_CLOSED, Refusing(cmd.booking, CANCELLATION_CLOSED, b.version))
            else
              plan.Write?
              && Updates(plan.write, cmd, b.(status := Cancelled, version := b.version + 1), CANCELLED)
  {
    CancelGateExactly(rows, cmd, draw.now);
    hide GateOf, SeenIn, PlanIn, Updates, Refusing, Confirming, Owned;
    RefusedPlan(rows, cmd, draw);
    if GateOf(rows.catalog, cmd, SeenIn(rows, cmd), draw.now) == Proceed {
      ClosePlan(rows, cmd, draw, Cancelled, CANCELLED);
    }
  }

  lemma OutcomePlanExactly(rows: Rows, cmd: Visit, draw: Draw)
    requires cmd.Outcome? && cmd.WellFormed() && cmd.booking in rows.bookings && Owned(rows, cmd)
    ensures var b := rows.bookings[cmd.booking]; var plan := PlanIn(rows, cmd, draw);
            var code := if cmd.target == Completed then COMPLETED else NO_SHOW;
            if !cmd.permitted then plan == Stop(Forbidden)
            else if b.status == cmd.target then
              plan == Return(code, Confirming(cmd.booking, b.status, b.version, true))
            else if b.status != Confirmed then
              plan == Return(STATE_CONFLICT, Refusing(cmd.booking, STATE_CONFLICT, b.version))
            else if b.version != cmd.expectedVersion then
              plan == Return(VERSION_CONFLICT, Refusing(cmd.booking, VERSION_CONFLICT, b.version))
            else if draw.now < b.endAt then
              plan == Return(OUTCOME_TOO_EARLY, Refusing(cmd.booking, OUTCOME_TOO_EARLY, b.version))
            else
              plan.Write? && Updates(plan.write, cmd, b.(status := cmd.target, version := b.version + 1), code)
  {
    OutcomeGateExactly(rows, cmd, draw.now);
    hide GateOf, SeenIn, PlanIn, Updates, Refusing, Confirming, Owned;
    RefusedPlan(rows, cmd, draw);
    if GateOf(rows.catalog, cmd, SeenIn(rows, cmd), draw.now) == Proceed {
      ClosePlan(rows, cmd, draw, cmd.target, if cmd.target == Completed then COMPLETED else NO_SHOW);
    }
  }

  /**
   Everything a first cancellation can come to: what is cancelled stays so, as a no-op; errors
   name the booking and its version; and the row is cancelled exactly if it is confirmed, of the
   expected version, and before its start, by two hours unless overridden.
   */
  lemma CancelExactly(rows: Rows, cmd: Visit, draw: Draw, clock: Instant)
    requires Core(rows, clock) && cmd.Cancel? && cmd.Identity() !in rows.receipts
    ensures var (rows', a) := Execute(rows, cmd, draw); var id := cmd.booking;
            if id !in rows.bookings then a == Raised(NotFound) && rows' == rows
            else if !Owned(rows, cmd) then a == Raised(ScopeViolation) && rows' == rows
            else
              var b := rows.bookings[id];
              if b.status == Cancelled then
                a == Answered(CANCELLED, Confirming(id, Cancelled, b.version, true), false) && Unwritten(rows, rows')
              else if b.status != Confirmed then
                a == Answered(STATE_CONFLICT, Refusing(id, STATE_CONFLICT, b.version), false) && Unwritten(rows, rows')
              else if b.version != cmd.expectedVersion then
                a == Answered(VERSION_CONFLICT, Refusing(id, VERSION_CONFLICT, b.version), false)
                && Unwritten(rows, rows')
              else if draw.now >= b.startAt || (!cmd.override && b.startAt - draw.now < 2 * HOUR) then
                a == Answered(CANCELLATION_CLOSED, Refusing(id, CANCELLATION_CLOSED, b.version), false)
                && Unwritten(rows, rows')
              else
                a == Answered(CANCELLED, Confirming(id, Cancelled, b.version + 1, false), false)
                && Wrote(rows, rows', id, b.(status := Cancelled, version := b.version + 1), None)
  {
    TargetPlan(rows, cmd, draw);
    assert TablesValid(rows) && cmd.WellFormed();
    hide *;
    var plan := PlanIn(rows, cmd, draw);
    var (rows', a) := Execute(rows, cmd, draw);
    StatusPlan(rows, cmd, draw, clock);
    AnswerOfPlan(rows, cmd, draw);
    if cmd.booking in rows.bookings && Owned(rows, cmd) { CancelPlanExactly(rows, cmd, draw); }
    if plan.Write? {
      var n := rows.bookings[cmd.booking].(status := Cancelled, version := rows.bookings[cmd.booking].version + 1);
      UpdateAnswers(rows, plan, cmd, n, CANCELLED, rows', a);
    } else {
      QuietAnswers(rows, plan, rows', a);
    }
  }

  /**
   Everything a first completion or no-show can come to; the outcome is recorded exactly if the
   principal may, the row is confirmed and of the expected version, and the visit is over.
   */
  lemma OutcomeExactly(rows: Rows, cmd: Visit, draw: Draw, clock: Instant)
    requires Core(rows, clock) && cmd.Outcome? && cmd.WellFormed() && cmd.Identity() !in rows.receipts
    ensures var (rows', a) := Execute(rows, cmd, draw); var id := cmd.booking;
            var code := if cmd.target == Completed then COMPLETED else NO_SHOW;
            if id !in rows.bookings then a == Raised(NotFound) && rows' == rows
            else if !Owned(rows, cmd) then a == Raised(ScopeViolation) && rows' == rows
            else if !cmd.permitted then a == Raised(Forbidden) && rows' == rows
            else
              var b := rows.bookings[id];
              if b.status == cmd.target then
                a == Answered(code, Confirming(id, b.status, b.version, true), false) && Unwritten(rows, rows')
              else if b.status != Confirmed then
                a == Answered(STATE_CONFLICT, Refusing(id, STATE_CONFLICT, b.version), false) && Unwritten(rows, rows')
              else if b.version != cmd.expectedVersion then
                a == Answered(VERSION_CONFLICT, Refusing(id, VERSION_CONFLICT, b.version), false)
                && Unwritten(rows, rows')
              else if draw.now < b.endAt then
                a == Answered(OUTCOME_TOO_EARLY, Refusing(id, OUTCOME_TOO_EARLY, b.version), false)
                && Unwritten(rows, rows')
              else
                a == Answered(code, Confirming(id, cmd.target, b.version + 1, false), false)
                && Wrote(rows, rows', id, b.(status := cmd.target, version := b.version + 1), None)
  {
    TargetPlan(rows, cmd, draw);
    assert TablesValid(rows);
    hide *;
    var plan := PlanIn(rows, cmd, draw);
    var (rows', a) := Execute(rows, cmd, draw);
    StatusPlan(rows, cmd, draw, clock);
    AnswerOfPlan(rows, cmd, draw);
    if cmd.booking in rows.bookings && Owned(rows, cmd) { OutcomePlanExactly(rows, cmd, draw); }
    if plan.Write? {
      var n := rows.bookings[cmd.booking].(status := cmd.target, version := rows.bookings[cmd.booking].version + 1);
      var code := if cmd.target == Completed then COMPLETED else NO_SHOW;
      UpdateAnswers(rows, plan, cmd, n, code, rows', a);
    } else {
      QuietAnswers(rows, plan, rows', a);
    }
  }

  // ---------------------------------------------------------------- closed dates

  /** An exception of the barber in the branch closes the date. */
  predicate ClosedOn(rows: Rows, branch: Id, barber: Id, date: int) {
    exists id | id in rows.exceptions ::
      rows.exceptions[id].branch == branch && rows.exceptions[id].barber == barber
      && rows.exceptions[id].localDate == date && rows.exceptions[id].kind == Closed
  }

  lemma NobodyOnDuty(rows: Rows, branch: Id, barber: Id, date: int)
    requires TablesValid(rows) && ClosedOn(rows, branch, barber, date)
    ensures forall starts, ends :: !OnDuty(rows, branch, barber, date, starts, ends)
  {
    hide Catalog.Valid, ServiceFields, BookingChecks, AssignmentServed, RuledBy;
    var closed :| closed in rows.exceptions && rows.exceptions[closed].branch == branch
                  && rows.exceptions[closed].barber == barber
                  && rows.exceptions[closed].localDate == date && rows.exceptions[closed].kind == Closed;
    forall id, starts, ends | id in rows.exceptions && rows.exceptions[id].branch == branch
                              && rows.exceptions[id].barber == barber
      ensures !ReplacedBy(rows.exceptions[id], date, starts, ends)
    {
      if id != closed { assert !SameDate(rows.exceptions[id], rows.exceptions[closed]); }
    }
  }

  /** Where the visit's date and the day before are closed, whatever the weekly rules say, it never fits. */
  lemma ClosedDatesAdmitNothing(rows: Rows, branch: Id, barber: Id, start: Instant, end: Instant)
    requires TablesValid(rows) && branch in rows.catalog.branches && start < end
    requires var day := DateOf(rows.catalog.branches[branch].zone.Show(start));
             ClosedOn(rows, branch, barber, day - 1) && ClosedOn(rows, branch, barber, day)
    ensures Evaluable(rows, branch, barber, start) && !Staffed(rows, branch, barber, start, end)
  {
    var z := rows.catalog.branches[branch].zone;
    var roster := RosterOf(rows.rules, rows.exceptions, branch, barber);
    var day := DateOf(z.Show(start));
    NobodyOnDuty(rows, branch, barber, day - 1);
    NobodyOnDuty(rows, branch, barber, day);
    StaffedOrNot(rows, branch, barber, start, end);
    FitFromRows(z, roster, start, end);
    forall date, starts, ends
      ensures Works(roster, date, starts, ends) <==> OnDuty(rows, branch, barber, date, starts, ends)
    {
      DutyTold(rows, branch, barber, date, starts, ends);
    }
    hide BookingFits, Works, OnDuty, HoursRead, HoursContain, RosterOf, ClosedOn, TablesValid, Staffed;
  }

  /** And so no command books or moves a visit there. */
  lemma ClosedDatesStayEmpty(rows: Rows, cmd: Visit, draw: Draw, clock: Instant, branch: Id, barber: Id)
    requires Core(rows, clock) && (cmd.Create? || cmd.Reschedule?) && cmd.startAt.Aware?
    requires cmd.Identity() !in rows.receipts && branch in rows.catalog.branches
    requires cmd.Create? ==> branch == cmd.branch && barber == cmd.barber
    requires cmd.Reschedule? && cmd.booking in rows.bookings ==>
               branch == rows.bookings[cmd.booking].branch && barber == rows.bookings[cmd.booking].barber
    requires var day := DateOf(rows.catalog.branches[branch].zone.Show(cmd.startAt.utc));
             ClosedOn(rows, branch, barber, day - 1) && ClosedOn(rows, branch, barber, day)
    ensures Unwritten(rows, Execute(rows, cmd, draw).0)
    ensures cmd.Create? ==> Execute(rows, cmd, draw).1.Raised?
  {
    assert TablesValid(rows);
    if cmd.Create? {
      if Requestable(rows, cmd, draw.now) {
        assert ServiceFields(rows.services[cmd.service]);
        ClosedDatesAdmitNothing(rows, branch, barber, cmd.startAt.utc, RequestedEnd(rows, cmd, draw.now));
      }
      hide Core, Execute, Requestable, Staffed, Evaluable, ClosedOn, Taken, Wrote;
      CreateExactly(rows, cmd, draw, clock);
    } else {
      if cmd.booking in rows.bookings {
        var b := rows.bookings[cmd.booking];
        assert BookingChecks(b);
        ClosedDatesAdmitNothing(rows, branch, barber, cmd.startAt.utc, cmd.startAt.utc + b.durationSeconds * SECOND);
      }
      hide Core, Execute, Owned, Staffed, Evaluable, ClosedOn, Taken, Wrote, MayStart;
      RescheduleExactly(rows, cmd, draw, clock);
    }
  }
}
