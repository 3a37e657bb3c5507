/**
 The commands as the repository runs them: statements over tables that are updated in
 place, with savepoints and rollback. Each method is proved against the function of
 `Commands` that states its result; locks are the business of `Transactions`.
 */
module Database {
  import opened Base
  import opened Calendar
  import opened Schedule
  import opened Model
  import opened Commands
  import opened Invariants
  import opened Idempotency
  import opened Lifecycle

  /** The booking a command loads, changes in memory and saves. */
  class BookingInstance {
    const id: Id
    const loaded: Booking
    var status: Status
    var version: int
    var startAt: Instant
    var endAt: Instant

    constructor (id: Id, b: Booking)
      ensures this.id == id && this.loaded == b && Value() == b
    {
      this.id, loaded, status, version, startAt, endAt := id, b, b.status, b.version, b.startAt, b.endAt;
    }

    function Value(): Booking
      reads this
    {
      loaded.(status := status, version := version, startAt := startAt, endAt := endAt)
    }
  }

  datatype Violation = ExclusionConstraint | OtherConstraint

  /** What an effect returns, or the exception that rolls its transaction back. */
  type EffectResult = Result<(Code, Response), Failure>

  /** The result is the outcome's, and so are the rows unless an exception discards them. */
  ghost predicate Agrees(o: Outcome, r: EffectResult, rows: Rows) {
    match o
    case Failed(f) => r == Err(f)
    case Done(rows', code, response) => r == Ok((code, response)) && rows == rows'
  }

  class Database {
    const catalog: Catalog
    var services: map<Id, Service>
    var rules: map<Id, Rule>
    var exceptions: map<Id, DatedException>
    var bookings: map<Id, Booking>
    var audit: map<AuditKey, AuditEntry>
    var outbox: map<OutboxKey, OutboxEvent>
    var tokens: map<Id, Token>
    var receipts: map<ReceiptKey, Receipt>
    var redactions: set<ReceiptKey>

    constructor (rows: Rows)
      ensures State() == rows
    {
      catalog, services, rules, exceptions := rows.catalog, rows.services, rows.rules, rows.exceptions;
      bookings, audit, outbox, tokens := rows.bookings, rows.audit, rows.outbox, rows.tokens;
      receipts, redactions := rows.receipts, rows.redactions;
    }

    function State(): Rows
      reads this
    {
      Rows(catalog, services, rules, exceptions, bookings, audit, outbox, tokens, receipts, redactions)
    }

    method Rollback(saved: Rows)
      requires saved.catalog == catalog
      modifies this
      ensures State() == saved
    {
      services, rules, exceptions := saved.services, saved.rules, saved.exceptions;
      bookings, audit, outbox, tokens := saved.bookings, saved.audit, saved.outbox, saved.tokens;
      receipts, redactions := saved.receipts, saved.redactions;
    }

    // ------------------------------------------------------------ booking writes

    /** Insert or update under a savepoint: a violated constraint undoes the write. */
    method SaveBooking(instance: BookingInstance, isInsert: bool) returns (violation: Option<Violation>)
      modifies `bookings
      ensures var b, id := instance.Value(), instance.id;
              violation == (if (isInsert && id in old(bookings)) || !BookingChecks(b) then Some(OtherConstraint)
                            else if Excluded(BookingsOf(old(bookings), b.barber), id, b) then Some(ExclusionConstraint)
                            else None)
      ensures bookings == if violation == None then old(bookings)[instance.id := instance.Value()] else old(bookings)
    {
      var savepoint := bookings;
      var b := instance.Value();
      if isInsert && instance.id in bookings {
        return Some(OtherConstraint);
      }
      bookings := bookings[instance.id := b];
      if !BookingChecks(b) {
        bookings := savepoint;
        return Some(OtherConstraint);
      }
      OwnRowIsNoRival(savepoint, instance.id, b);
      if Excluded(BookingsOf(bookings, b.barber), instance.id, b) {
        bookings := savepoint;
        return Some(ExclusionConstraint);
      }
      return None;
    }

    /** One audit entry, then one outbox event; either unique constraint raises. */
    method AppendBookingChange(cmd: Visit, instance: BookingInstance) returns (ok: bool)
      modifies `audit, `outbox
      ensures var b, id := instance.Value(), instance.id;
              var auditKey, outboxKey := AuditKey(id, b.version), OutboxKey(id, b.version, ChangeOf(cmd));
              && ok == (auditKey !in old(audit) && outboxKey !in old(outbox))
              && (ok ==> audit == old(audit)[auditKey := EntryOf(cmd)]
                         && outbox == old(outbox)[outboxKey := OutboxEvent(id, b.status, b.version)])
    {
      var id, version := instance.id, instance.version;
      if AuditKey(id, version) in audit {
        return false;
      }
      audit := audit[AuditKey(id, version) :=
        AuditEntry(ChangeOf(cmd), cmd.scope.principalKind, cmd.scope.principalId,
                   if cmd.Cancel? then cmd.reason else "", cmd.correlation)];
      if OutboxKey(id, version, ChangeOf(cmd)) in outbox {
        return false;
      }
      outbox := outbox[OutboxKey(id, version, ChangeOf(cmd)) := OutboxEvent(id, instance.status, version)];
      return true;
    }

    /** Saves the changed instance and, unless a constraint objects, appends its journal entries. */
    method SaveAndJournal(cmd: Visit, instance: BookingInstance) returns (violation: Option<Violation>)
      modifies `bookings, `audit, `outbox
      ensures var b, id, rows := instance.Value(), instance.id, old(State());
              var auditKey, outboxKey := AuditKey(id, b.version), OutboxKey(id, b.version, ChangeOf(cmd));
              && violation == (if !BookingChecks(b) then Some(OtherConstraint)
                               else if Excluded(BookingsOf(rows.bookings, b.barber), id, b)
                                 then Some(ExclusionConstraint)
                               else if auditKey in rows.audit || outboxKey in rows.outbox then Some(OtherConstraint)
                               else None)
              && (violation == None ==>
                    State() == rows.(bookings := rows.bookings[id := b], audit := rows.audit[auditKey := EntryOf(cmd)],
                                     outbox := rows.outbox[outboxKey := OutboxEvent(id, b.status, b.version)]))
              && (violation == Some(ExclusionConstraint) ==> State() == rows)
    {
      hide BookingChecks, Excluded, BookingsOf, ChangeOf, EntryOf;
      violation := SaveBooking(instance, false);
      if violation.None? {
        var ok := AppendBookingChange(cmd, instance);
        if !ok {
          violation := Some(OtherConstraint);
        }
      }
    }

    method CreateToken(id: Id, token: Token) returns (ok: bool)
      modifies `tokens
      ensures ok == (id !in old(tokens) && !DigestTaken(old(tokens), token.digest))
      ensures tokens == if ok then old(tokens)[id := token] else old(tokens)
    {
      if id in tokens || DigestTaken(tokens, token.digest) {
        return false;
      }
      tokens := tokens[id := token];
      return true;
    }

    // ----------------------------------------------------------------- effects

    /** The guards of a create, up to the schedule; None lets the insert go on. */
    method CreateGuards(cmd: Visit, draw: Draw) returns (stop: Option<EffectResult>)
      requires cmd.Create?
      ensures stop.Some? ==> Agrees(Effect(State(), cmd, draw), stop.value, State())
      ensures stop.None? ==>
                && cmd.startAt.Aware? && cmd.branch in catalog.branches && cmd.service in services
                && PlanIn(State(), cmd, draw) == Write(InsertOf(catalog, cmd, services[cmd.service], draw))
    {
      hide VerdictOn, MayStart, BookingFits, InsertOf, RosterOf;
      if cmd.barber !in catalog.barbers || cmd.branch !in catalog.branches {
        return Some(Err(NotFound));
      }
      var branch := catalog.branches[cmd.branch];
      if branch.business != cmd.scope.business {
        return Some(Err(RuleViolation));
      }
      if cmd.service !in services || services[cmd.service].branch != cmd.branch || !services[cmd.service].isActive {
        return Some(Err(NotFound));
      }
      var service := services[cmd.service];
      if !catalog.barbers[cmd.barber] {
        return Some(Err(RuleViolation));
      }
      var assignment := Assignment(cmd.branch, cmd.barber, cmd.service);
      if assignment !in catalog.assignments || !catalog.assignments[assignment] {
        return Some(Err(RuleViolation));
      }
      if cmd.startAt.Naive? || !MayStart(branch, cmd.startAt, draw.now) {
        MayStartIsAware(branch, cmd.startAt, draw.now);
        return Some(Err(RuleViolation));
      }
      var startAt := cmd.startAt.utc;
      var endAt := startAt + service.durationSeconds * SECOND;
      match BookingFits(branch.zone, RosterOf(rules, exceptions, cmd.branch, cmd.barber), startAt, endAt) {
        case Unevaluable => return Some(Err(LocalTimeFailure));
        case Misfit => return Some(Err(RuleViolation));
        case Fits => return None;
      }
    }

    /** Booking, journal and token of a create whose guards have passed. */
    method InsertNewBooking(cmd: Visit, draw: Draw) returns (r: EffectResult)
      requires cmd.Create? && cmd.startAt.Aware? && cmd.branch in catalog.branches && cmd.service in services
      modifies this
      ensures Agrees(Finish(old(State()), Write(InsertOf(catalog, cmd, old(services)[cmd.service], draw))), r, State())
    {
      hide BookingChecks, Excluded, BookingsOf, DigestTaken;
      var service := services[cmd.service];
      var startAt := cmd.startAt.utc;
      var booking := new BookingInstance(draw.freshId,
        Booking(cmd.branch, cmd.barber, cmd.service, Confirmed, 1,
                startAt, startAt + service.durationSeconds * SECOND,
                service.name, service.price, service.currency, service.durationSeconds,
                catalog.branches[cmd.branch].zone));
      var violation := SaveBooking(booking, true);
      if violation == Some(ExclusionConstraint) {
        return Ok((SLOT_CONFLICT, Response(None, None, Some(SLOT_CONFLICT), None, None, None)));
      } else if violation.Some? {
        return Err(IntegrityError);
      }
      var ok := AppendBookingChange(cmd, booking);
      if !ok {
        return Err(IntegrityError);
      }
      if cmd.secret.Some? {
        ok := CreateToken(booking.id,
          Token(Sha256(cmd.secret.value), Fernet(cmd.secret.value), cmd.session, draw.insertedAt));
        if !ok {
          return Err(IntegrityError);
        }
      }
      var cipher := if cmd.secret.Some? then Some(Fernet(cmd.secret.value)) else None;
      return Ok((CREATED, Response(Some(booking.id), Some(Confirmed), None, Some(1), None, cipher)));
    }

    method CreateEffect(cmd: Visit, draw: Draw) returns (r: EffectResult)
      requires cmd.Create?
      modifies this
      ensures Agrees(Effect(old(State()), cmd, draw), r, State())
    {
      hide PlanIn, Finish, InsertOf;
      var stop := CreateGuards(cmd, draw);
      if stop.Some? {
        return stop.value;
      }
      EffectIsPlanFinished(State(), cmd, draw);
      r := InsertNewBooking(cmd, draw);
    }

    /** Loads the target under the barber's lock; an exception when it is out of scope. */
    method LoadTarget(cmd: Visit, draw: Draw) returns (r: Result<Booking, Failure>)
      requires !cmd.Create?
      ensures match r
              case Err(f) => Effect(State(), cmd, draw) == Failed(f)
              case Ok(b) =>
                && cmd.booking in bookings && bookings[cmd.booking] == b && b.branch in catalog.branches
                && GateOf(catalog, cmd, SeenIn(State(), cmd), draw.now) ==
                   if cmd.Cancel? then CancelGate(cmd, b, draw.now)
                   else if cmd.Reschedule? then RescheduleGate(catalog.branches[b.branch], cmd, b, draw.now)
                   else OutcomeGate(cmd, b, draw.now)
    {
      hide CancelGate, RescheduleGate, OutcomeGate, BookingFits;
      if cmd.booking !in bookings || bookings[cmd.booking].branch !in catalog.branches {
        return Err(NotFound);
      }
      var b := bookings[cmd.booking];
      if catalog.branches[b.branch].business != cmd.scope.business || cmd.scope.target != Some(cmd.booking) {
        return Err(ScopeViolation);
      }
      return Ok(b);
    }

    method RescheduleGuards(cmd: Visit, draw: Draw) returns (stop: Option<EffectResult>)
      requires cmd.Reschedule?
      ensures stop.Some? ==> Agrees(Effect(State(), cmd, draw), stop.value, State())
      ensures stop.None? ==>
                && cmd.booking in bookings && cmd.startAt.Aware?
                && PlanIn(State(), cmd, draw) == Write(UpdateOf(cmd, bookings[cmd.booking]))
    {
      hide VerdictOn, MayStart, BookingFits, UpdateOf, RosterOf, GateOf;
      var target := LoadTarget(cmd, draw);
      if target.Err? {
        return Some(Err(target.error));
      }
      var booking := target.value;
      var version := Some(booking.version);
      var id := Some(cmd.booking);
      if booking.status != Confirmed {
        return Some(Ok((STATE_CONFLICT, Response(id, None, Some(STATE_CONFLICT), version, None, None))));
      }
      if booking.version != cmd.expectedVersion {
        return Some(Ok((VERSION_CONFLICT, Response(id, None, Some(VERSION_CONFLICT), version, None, None))));
      }
      if cmd.startAt.Naive? {
        return Some(Err(RuleViolation));
      }
      if cmd.startAt.utc == booking.startAt {
        return Some(Ok((RESCHEDULED, Response(id, Some(booking.status), None, version, Some(true), None))));
      }
      if draw.now >= booking.startAt {
        return Some(Ok((RESCHEDULE_CLOSED, Response(id, None, Some(RESCHEDULE_CLOSED), version, None, None))));
      }
      var branch := catalog.branches[booking.branch];
      if !MayStart(branch, cmd.startAt, draw.now) {
        return Some(Ok((TIME_RULE_VIOLATION, Response(id, None, Some(TIME_RULE_VIOLATION), version, None, None))));
      }
      var startAt := cmd.startAt.utc;
      var endAt := startAt + booking.durationSeconds * SECOND;
      match BookingFits(branch.zone, RosterOf(rules, exceptions, booking.branch, booking.barber), startAt, endAt) {
        case Unevaluable =>
          return Some(Err(LocalTimeFailure));
        case Misfit =>
          return Some(Ok((TIME_RULE_VIOLATION, Response(id, None, Some(TIME_RULE_VIOLATION), version, None, None))));
        case Fits =>
          return None;
      }
    }

    /**
     The instance is moved in memory before the save. When the exclusion constraint undoes
     the save, the reply carries the expected version and not the instance's.
     */
    method MoveBooking(cmd: Visit) returns (r: EffectResult)
      requires cmd.Reschedule? && cmd.startAt.Aware? && cmd.booking in bookings
      modifies this
      ensures Agrees(Finish(old(State()), Write(UpdateOf(cmd, old(bookings)[cmd.booking]))), r, State())
    {
      MovingWrite(cmd, bookings[cmd.booking]);
      FinishUpdate(State(), UpdateOf(cmd, bookings[cmd.booking]));
      hide BookingChecks, Excluded, BookingsOf, UpdateOf, Finish, ChangeOf, EntryOf, DigestTaken;
      var booking := new BookingInstance(cmd.booking, bookings[cmd.booking]);
      booking.startAt := cmd.startAt.utc;
      booking.endAt := cmd.startAt.utc + booking.loaded.durationSeconds * SECOND;
      booking.version := booking.version + 1;
      var violation := SaveAndJournal(cmd, booking);
      if violation == Some(ExclusionConstraint) {
        return Ok((SLOT_CONFLICT,
                   Response(Some(cmd.booking), None, Some(SLOT_CONFLICT), Some(cmd.expectedVersion), None, None)));
      } else if violation.Some? {
        return Err(IntegrityError);
      }
      return Ok((RESCHEDULED,
                 Response(Some(cmd.booking), Some(booking.status), None, Some(booking.version), Some(false), None)));
    }

    method RescheduleEffect(cmd: Visit, draw: Draw) returns (r: EffectResult)
      requires cmd.Reschedule?
      modifies this
      ensures Agrees(Effect(old(State()), cmd, draw), r, State())
    {
      hide PlanIn, Finish, UpdateOf;
      var stop := RescheduleGuards(cmd, draw);
      if stop.Some? {
        return stop.value;
      }
      EffectIsPlanFinished(State(), cmd, draw);
      r := MoveBooking(cmd);
    }

    method CancelGuards(cmd: Visit, draw: Draw) returns (stop: Option<EffectResult>)
      requires cmd.Cancel?
      ensures stop.Some? ==> Agrees(Effect(State(), cmd, draw), stop.value, State())
      ensures stop.None? ==>
                cmd.booking in bookings && PlanIn(State(), cmd, draw) == Write(UpdateOf(cmd, bookings[cmd.booking]))
    {
      hide VerdictOn, UpdateOf, GateOf, BookingFits, RosterOf;
      var target := LoadTarget(cmd, draw);
      if target.Err? {
        return Some(Err(target.error));
      }
      var booking := target.value;
      var version := Some(booking.version);
      var id := Some(cmd.booking);
      if booking.status == Cancelled {
        return Some(Ok((CANCELLED, Response(id, Some(Cancelled), None, version, Some(true), None))));
      }
      if booking.status != Confirmed {
        return Some(Ok((STATE_CONFLICT, Response(id, None, Some(STATE_CONFLICT), version, None, None))));
      }
      if booking.version != cmd.expectedVersion {
        return Some(Ok((VERSION_CONFLICT, Response(id, None, Some(VERSION_CONFLICT), version, None, None))));
      }
      if draw.now >= booking.startAt {
        return Some(Ok((CANCELLATION_CLOSED, Response(id, None, Some(CANCELLATION_CLOSED), version, None, None))));
      }
      if !cmd.override && booking.startAt - draw.now < CANCELLATION_WINDOW {
        return Some(Ok((CANCELLATION_CLOSED, Response(id, None, Some(CANCELLATION_CLOSED), version, None, None))));
      }
      return None;
    }

    /** Sets a terminal status on the instance, saves it and appends the journal. */
    method CloseBooking(cmd: Visit, status: Status, code: Code) returns (r: EffectResult)
      requires !cmd.Create? && cmd.booking in bookings
      requires (cmd.Cancel? && status == Cancelled && code == CANCELLED)
               || (cmd.Outcome? && status == cmd.target && code == OutcomeCode(status))
      modifies this
      ensures Agrees(Finish(old(State()), Write(UpdateOf(cmd, old(bookings)[cmd.booking]))), r, State())
    {
      ClosingWrite(cmd, bookings[cmd.booking]);
      FinishUpdate(State(), UpdateOf(cmd, bookings[cmd.booking]));
      hide BookingChecks, Excluded, BookingsOf, UpdateOf, Finish, ChangeOf, EntryOf, OutcomeCode;
      var booking := new BookingInstance(cmd.booking, bookings[cmd.booking]);
      booking.status := status;
      booking.version := booking.version + 1;
      var violation := SaveAndJournal(cmd, booking);
      if violation.Some? {
        return Err(IntegrityError);
      }
      return Ok((code, Response(Some(cmd.booking), Some(status), None, Some(booking.version), Some(false), None)));
    }

    method CancelEffect(cmd: Visit, draw: Draw) returns (r: EffectResult)
      requires cmd.Cancel?
      modifies this
      ensures Agrees(Effect(old(State()), cmd, draw), r, State())
    {
      hide PlanIn, Finish, UpdateOf;
      var stop := CancelGuards(cmd, draw);
      if stop.Some? {
        return stop.value;
      }
      EffectIsPlanFinished(State(), cmd, draw);
      r := CloseBooking(cmd, Cancelled, CANCELLED);
    }

    method OutcomeGuards(cmd: Visit, draw: Draw) returns (stop: Option<EffectResult>)
      requires cmd.Outcome?
      ensures stop.Some? ==> Agrees(Effect(State(), cmd, draw), stop.value, State())
      ensures stop.None? ==>
                cmd.booking in bookings && PlanIn(State(), cmd, draw) == Write(UpdateOf(cmd, bookings[cmd.booking]))
    {
      hide VerdictOn, UpdateOf, GateOf, BookingFits, RosterOf;
      var target := LoadTarget(cmd, draw);
      if target.Err? {
        return Some(Err(target.error));
      }
      if !cmd.permitted {
        return Some(Err(Forbidden));
      }
      var booking := target.value;
      var version := Some(booking.version);
      var id := Some(cmd.booking);
      if booking.status == cmd.target {
        return Some(Ok((OutcomeCode(cmd.target), Response(id, Some(cmd.target), None, version, Some(true), None))));
      }
      if booking.status != Confirmed {
        return Some(Ok((STATE_CONFLICT, Response(id, None, Some(STATE_CONFLICT), version, None, None))));
      }
      if booking.version != cmd.expectedVersion {
        return Some(Ok((VERSION_CONFLICT, Response(id, None, Some(VERSION_CONFLICT), version, None, None))));
      }
      if draw.now < booking.endAt {
        return Some(Ok((OUTCOME_TOO_EARLY, Response(id, None, Some(OUTCOME_TOO_EARLY), version, None, None))));
      }
      return None;
    }

    method OutcomeEffect(cmd: Visit, draw: Draw) returns (r: EffectResult)
      requires cmd.Outcome?
      modifies this
      ensures Agrees(Effect(old(State()), cmd, draw), r, State())
    {
      hide PlanIn, Finish, UpdateOf;
      var stop := OutcomeGuards(cmd, draw);
      if stop.Some? {
        return stop.value;
      }
      EffectIsPlanFinished(State(), cmd, draw);
      r := CloseBooking(cmd, cmd.target, OutcomeCode(cmd.target));
    }

    // ------------------------------------------------------------- transactions

    /** The receipt is claimed, the effect runs, and its result is stored in the same transaction. */
    method ExecuteIdempotent(cmd: Visit, draw: Draw) returns (answer: Answer)
      modifies this
      ensures (State(), answer) == Execute(old(State()), cmd, draw)
    {
      hide Effect;
      var saved := State();
      var key, fingerprint := cmd.Identity(), cmd.FingerprintOf();
      if key in receipts {
        var receipt := receipts[key];
        if receipt.fingerprint != fingerprint {
          return Raised(IdempotencyConflict);
        }
        if receipt.Tombstone? {
          return Raised(ResultExpired);
        }
        if receipt.Processing? || receipt.expiresAt <= draw.completedAt {
          return Raised(ResultExpired);
        }
        return Answered(receipt.code, receipt.response, true);
      }
      receipts := receipts[key := Processing(fingerprint)];
      EffectIgnoresReceipts(saved, State(), cmd, draw);
      EffectFrame(saved, cmd, draw);
      var r := RunEffect(cmd, draw);
      if r.Err? {
        Rollback(saved);
        return Raised(r.error);
      }
      var (code, response) := r.value;
      assert saved.receipts[key := Processing(fingerprint)][key := Finished(fingerprint, code, response,
               draw.completedAt, draw.completedAt + RESPONSE_RETENTION)] ==
             saved.receipts[key := Finished(fingerprint, code, response,
               draw.completedAt, draw.completedAt + RESPONSE_RETENTION)];
      receipts := receipts[key := Finished(fingerprint, code, response, draw.completedAt,
                                           draw.completedAt + RESPONSE_RETENTION)];
      return Answered(code, response, false);
    }

    method RunEffect(cmd: Visit, draw: Draw) returns (r: EffectResult)
      modifies this
      ensures Agrees(Effect(old(State()), cmd, draw), r, State())
    {
      hide Effect;
      match cmd {
        case Create(_, _, _, _, _, _, _, _, _) => r := CreateEffect(cmd, draw);
        case Cancel(_, _, _, _, _, _, _) => r := CancelEffect(cmd, draw);
        case Reschedule(_, _, _, _, _, _) => r := RescheduleEffect(cmd, draw);
        case Outcome(_, _, _, _, _, _, _) => r := OutcomeEffect(cmd, draw);
      }
    }

    /**
     The loop every command runs around its transaction: the whole transaction again after a
     deadlock or a serialization failure, at most three times and before the deadline. Other
     transactions may commit before each attempt.
     */
    method WithRetries(cmd: Visit, attempts: seq<Attempt>) returns (ending: Ending)
      requires |attempts| == 3
      modifies this
      ensures (State(), ending) == Retried(old(State()), cmd, attempts, 0)
    {
      hide Execute;
      for attempt := 0 to 3
        invariant Retried(old(State()), cmd, attempts, 0) == Retried(State(), cmd, attempts, attempt)
      {
        OthersCommit(attempts[attempt].others);
        var saved := State();
        var answer := ExecuteIdempotent(cmd, attempts[attempt].draw);
        match attempts[attempt].fault {
          case None =>
            return if answer.Raised? then Rejected(answer.failure) else Returned(answer);
          case Some(fault) =>
            if !attempts[attempt].committed {
              Rollback(saved);
            }
            if fault == Serialization && attempt < 2 && attempts[attempt].beforeDeadline {
              continue;
            }
            if fault == Serialization || fault == Timeout {
              return RetryLater;
            }
            return DatabaseError;
        }
      }
      return RetryLater;
    }

    /** The checks a command on an existing booking makes before its transaction. */
    method Precheck(cmd: Visit, allowOverride: bool) returns (failure: Option<Failure>)
      ensures failure == Prechecked(State(), cmd, allowOverride)
    {
      if cmd.Create? {
        return None;
      }
      if cmd.Cancel? && (|cmd.reason| > 64 || (cmd.override && cmd.reason == "")) {
        return Some(RuleViolation);
      }
      if cmd.expectedVersion < 1 {
        return Some(RuleViolation);
      }
      if cmd.Reschedule? && cmd.startAt.Naive? {
        return Some(RuleViolation);
      }
      if cmd.Cancel? && cmd.override && !allowOverride {
        return Some(RuleViolation);
      }
      if cmd.scope.target != Some(cmd.booking) || cmd.booking !in bookings {
        return Some(RuleViolation);
      }
      var branch := bookings[cmd.booking].branch;
      if branch !in catalog.branches || catalog.branches[branch].business != cmd.scope.business {
        return Some(RuleViolation);
      }
      if cmd.Outcome? && !cmd.permitted {
        return Some(Forbidden);
      }
      return None;
    }

    /** `create_booking`, `cancel_booking`, `reschedule_booking`, `complete_booking`, `mark_no_show`. */
    method Submit(cmd: Visit, allowOverride: bool, attempts: seq<Attempt>) returns (ending: Ending)
      requires |attempts| == 3
      modifies this
      ensures (State(), ending) == Submitted(old(State()), cmd, allowOverride, attempts)
    {
      var failure := Precheck(cmd, allowOverride);
      if failure.Some? {
        return Rejected(failure.value);
      }
      ending := WithRetries(cmd, attempts);
    }

    // ------------------------------------------------------------- catalog edits

    /** `_ensure_future_bookings_fit`, in id order; the first shift it cannot evaluate raises. */
    method EnsureFutureBookingsFit(branch: Id, barber: Id, now: Instant) returns (failure: Option<Failure>)
      requires branch in catalog.branches
      ensures failure == Recheck(State(), branch, barber, now)
      ensures Judged(State(), State(), branch, barber, now, failure)
    {
      hide BookingFits, RosterOf, BookingsOf, Recheck, FutureIds, Judged;
      RecheckIsJudged(State(), branch, barber, now);
      var zone, roster := catalog.branches[branch].zone, RosterOf(rules, exceptions, branch, barber);
      var barberRows := BookingsOf(bookings, barber);
      var queue := Ascending(FutureIds(barberRows, branch, now));
      var conflicts: seq<Id> := [];
      for i := 0 to |queue|
        invariant forall id | id in queue[..i] :: FitOfRow(zone, roster, barberRows, id) != Unevaluable
        invariant forall j, k | 0 <= j < k < |conflicts| :: conflicts[j] < conflicts[k]
        invariant forall id :: id in conflicts <==>
                      (id in queue[..i] && FitOfRow(zone, roster, barberRows, id) == Misfit)
      {
        var id := queue[i];
        FutureIsKnown(barberRows, branch, now, id);
        assert id in queue && queue[..i + 1] == queue[..i] + [id];
        assert forall j | 0 <= j < |conflicts| :: conflicts[j] in conflicts;
        match BookingFits(zone, roster, barberRows[id].startAt, barberRows[id].endAt) {
          case Unevaluable =>
            RecheckRaises(State(), branch, barber, now, id);
            return Some(LocalTimeFailure);
          case Misfit => conflicts := conflicts + [id];
          case Fits =>
        }
      }
      assert queue[..|queue|] == queue;
      RecheckLists(State(), branch, barber, now, conflicts);
      if conflicts != [] {
        return Some(ScheduleConflict(conflicts));
      }
      return None;
    }

    /** The rule is changed in memory, validated, saved, and every future booking re-checked. */
    method UpdateScheduleRule(e: Edit, now: Instant) returns (answer: Answer)
      requires e.EditRule?
      modifies this
      ensures (State(), answer) == ExecuteEdit(old(State()), e, now)
    {
      hide FutureFit, RuleValid;
      if e.id !in rules || rules[e.id].branch !in catalog.branches {
        return Raised(NotFound);
      }
      if e.unknownField {
        return Raised(UnsupportedField);
      }
      var saved := State();
      var rule := SetRuleFields(rules[e.id], e.ruleChanges);
      if !RuleValid(catalog, RosterOf(rules, exceptions, rule.branch, rule.barber).rules, e.id, rule) {
        return Raised(ValidationError);
      }
      rules := rules[e.id := rule];
      var failure := EnsureFutureBookingsFit(rule.branch, rule.barber, now);
      if failure.Some? {
        Rollback(saved);
        return Raised(failure.value);
      }
      return Edited;
    }

    method UpdateScheduleException(e: Edit, now: Instant) returns (answer: Answer)
      requires e.EditException?
      modifies this
      ensures (State(), answer) == ExecuteEdit(old(State()), e, now)
    {
      hide FutureFit, ExceptionValid;
      if e.id !in exceptions || exceptions[e.id].branch !in catalog.branches {
        return Raised(NotFound);
      }
      if e.unknownField {
        return Raised(UnsupportedField);
      }
      var saved := State();
      var exception := SetExceptionFields(exceptions[e.id], e.exceptionChanges);
      if !ExceptionValid(catalog, RosterOf(rules, exceptions, exception.branch, exception.barber).exceptions,
                         e.id, exception) {
        return Raised(ValidationError);
      }
      exceptions := exceptions[e.id := exception];
      var failure := EnsureFutureBookingsFit(exception.branch, exception.barber, now);
      if failure.Some? {
        Rollback(saved);
        return Raised(failure.value);
      }
      return Edited;
    }

    method UpdateServiceOffering(e: Edit, now: Instant) returns (answer: Answer)
      requires e.EditService?
      modifies this
      ensures (State(), answer) == ExecuteEdit(old(State()), e, now)
    {
      hide ServiceValid;
      if e.id !in services || services[e.id].branch !in catalog.branches {
        return Raised(NotFound);
      }
      if e.unknownField {
        return Raised(UnsupportedField);
      }
      var service := SetServiceFields(services[e.id], e.serviceChanges);
      if !ServiceValid(ServicesOf(services, service.branch), e.id, service) {
        return Raised(ValidationError);
      }
      services := services[e.id := service];
      return Edited;
    }

    // -------------------------------------------------------------- housekeeping

    /** `redact_expired_receipts`: one receipt after the other, whatever their order. */
    method RedactExpiredReceipts(moment: Instant) returns (count: nat)
      modifies `receipts, `redactions
      ensures State() == Redact(old(State()), moment)
      ensures count == |ExpiredKeys(old(receipts), moment)|
    {
      var expired := ExpiredKeys(receipts, moment);
      ghost var before := receipts;
      var pending := expired;
      count := 0;
      AllTombstoned(before, moment);
      hide ExpiredKeys;
      while pending != {}
        invariant pending <= expired && count == |expired| - |pending|
        invariant pending <= receipts.Keys && receipts == Tombstoned(before, expired - pending)
        invariant redactions == old(redactions) + (expired - pending)
        decreases |pending|
      {
        var key :| key in pending;
        TombstonedNext(before, expired - pending, key);
        assert expired - pending + {key} == expired - (pending - {key});
        receipts := receipts[key := Tombstone(receipts[key].fingerprint)];
        redactions := redactions + {key};
        count := count + 1;
        pending := pending - {key};
      }
      assert expired - pending == expired;
    }

    method ReplaceResultWithTombstone(key: ReceiptKey) returns (answer: Answer)
      modifies `receipts
      ensures (State(), answer) == Retire(old(State()), key)
    {
      if key !in receipts {
        return Raised(NotFound);
      }
      receipts := receipts[key := Tombstone(receipts[key].fingerprint)];
      return Edited;
    }

    method RevokeOldManagementTokens(moment: Instant) returns (deleted: int)
      modifies `tokens
      ensures State() == Revoke(old(State()), moment)
      ensures deleted == |old(tokens)| - |tokens|
    {
      var cutoff := moment - TOKEN_RETENTION;
      var kept := map id | id in tokens && tokens[id].createdAt >= cutoff :: tokens[id];
      deleted := |tokens| - |kept|;
      tokens := kept;
    }

    // ---------------------------------------------------------- other transactions

    method Apply(e: Event)
      modifies this
      ensures State() == Step(old(State()), e).0
    {
      hide Execute, ExecuteEdit;
      match e {
        case VisitAt(cmd, draw) => var _ := ExecuteIdempotent(cmd, draw);
        case EditAt(edit, now) =>
          match edit {
            case EditRule(_, _, _) => var _ := UpdateScheduleRule(edit, now);
            case EditException(_, _, _) => var _ := UpdateScheduleException(edit, now);
            case EditService(_, _, _) => var _ := UpdateServiceOffering(edit, now);
          }
        case RetireAt(key) => var _ := ReplaceResultWithTombstone(key);
        case RedactAt(moment) => var _ := RedactExpiredReceipts(moment);
        case RevokeAt(moment) => var _ := RevokeOldManagementTokens(moment);
      }
    }

    /** What other clients commit meanwhile. */
    method OthersCommit(events: seq<Event>)
      modifies this
      ensures State() == Run(old(State()), events)
    {
      hide Step;
      for i := 0 to |events|
        invariant State() == Run(old(State()), events[..i])
      {
        Apply(events[i]);
        assert events[..i + 1][..i] == events[..i];
      }
      assert events[..|events|] == events;
    }
  }

  lemma RecheckIsJudged(rows: Rows, branch: Id, barber: Id, now: Instant)
    requires branch in rows.catalog.branches
    ensures Judged(rows, rows, branch, barber, now, Recheck(rows, branch, barber, now))
  {
    hide Judged, Recheck;
    RecheckJudges(rows, rows, branch, barber, now);
  }

  lemma FutureIsKnown(barberRows: map<Id, Booking>, branch: Id, now: Instant, id: Id)
    ensures id in FutureIds(barberRows, branch, now) ==> id in barberRows
  {
  }

  lemma RecheckRaises(rows: Rows, branch: Id, barber: Id, now: Instant, id: Id)
    requires branch in rows.catalog.branches && id in FutureIds(BookingsOf(rows.bookings, barber), branch, now)
    requires FitOfRow(rows.catalog.branches[branch].zone, RosterOf(rows.rules, rows.exceptions, branch, barber),
                      BookingsOf(rows.bookings, barber), id) == Unevaluable
    ensures Recheck(rows, branch, barber, now) == Some(LocalTimeFailure)
  {
    hide BookingFits, RosterOf, BookingsOf, ConflictIds;
  }

  lemma RecheckLists(rows: Rows, branch: Id, barber: Id, now: Instant, conflicts: seq<Id>)
    requires branch in rows.catalog.branches
    requires forall j, k | 0 <= j < k < |conflicts| :: conflicts[j] < conflicts[k]
    requires var zone, roster := rows.catalog.branches[branch].zone,
                                 RosterOf(rows.rules, rows.exceptions, branch, barber);
             var barberRows := BookingsOf(rows.bookings, barber);
             && (forall id | id in FutureIds(barberRows, branch, now) ::
                   FitOfRow(zone, roster, barberRows, id) != Unevaluable)
             && (forall id :: id in conflicts <==> (id in FutureIds(barberRows, branch, now)
                                                    && FitOfRow(zone, roster, barberRows, id) == Misfit))
    ensures Recheck(rows, branch, barber, now) == if conflicts == [] then None else Some(ScheduleConflict(conflicts))
  {
    hide BookingFits, RosterOf, BookingsOf;
    var zone, roster := rows.catalog.branches[branch].zone, RosterOf(rows.rules, rows.exceptions, branch, barber);
    var barberRows := BookingsOf(rows.bookings, barber);
    var found := ConflictIds(zone, roster, barberRows, branch, now);
    AscendingIsUnique(conflicts, Ascending(found));
    HasMember(conflicts);
  }

  method SetRuleFields(r: Rule, changes: RuleChanges) returns (rule: Rule)
    ensures rule == ChangedRule(r, changes)
  {
    rule := r;
    if changes.weekday.Some? { rule := rule.(weekday := changes.weekday.value); }
    if changes.startsAt.Some? { rule := rule.(startsAt := changes.startsAt.value); }
    if changes.endsAt.Some? { rule := rule.(endsAt := changes.endsAt.value); }
    if changes.isActive.Some? { rule := rule.(isActive := changes.isActive.value); }
  }

  method SetExceptionFields(x: DatedException, changes: ExceptionChanges) returns (exception: DatedException)
    ensures exception == ChangedException(x, changes)
  {
    exception := x;
    if changes.localDate.Some? { exception := exception.(localDate := changes.localDate.value); }
    if changes.kind.Some? { exception := exception.(kind := changes.kind.value); }
    if changes.startsAt.Some? { exception := exception.(startsAt := changes.startsAt.value); }
    if changes.endsAt.Some? { exception := exception.(endsAt := changes.endsAt.value); }
    if changes.reason.Some? { exception := exception.(reason := changes.reason.value); }
  }

  method SetServiceFields(s: Service, changes: ServiceChanges) returns (service: Service)
    ensures service == ChangedService(s, changes)
  {
    service := s;
    if changes.name.Some? { service := service.(name := changes.name.value); }
    if changes.price.Some? { service := service.(price := changes.price.value); }
    if changes.currency.Some? { service := service.(currency := changes.currency.value); }
    if changes.durationSeconds.Some? { service := service.(durationSeconds := changes.durationSeconds.value); }
    if changes.isActive.Some? { service := service.(isActive := changes.isActive.value); }
  }

  lemma EffectIsPlanFinished(rows: Rows, cmd: Visit, draw: Draw)
    ensures Effect(rows, cmd, draw) == Finish(rows, PlanIn(rows, cmd, draw))
  {
  }

  /** An update meets the checks, then the exclusion, then the keys of the journal. */
  lemma FinishUpdate(rows: Rows, w: BookingWrite)
    requires !w.isInsert && w.token == None
    ensures var auditKey, outboxKey := AuditKey(w.id, w.booking.version), OutboxKey(w.id, w.booking.version, w.change);
            Finish(rows, Write(w)) ==
            if !BookingChecks(w.booking) then Failed(IntegrityError)
            else if Excluded(BookingsOf(rows.bookings, w.booking.barber), w.id, w.booking) then
              if w.taken.Some? && w.taken.value.Reply? then Done(rows, w.taken.value.code, w.taken.value.response)
              else Failed(IntegrityError)
            else if auditKey in rows.audit || outboxKey in rows.outbox then Failed(IntegrityError)
            else
              Done(rows.(bookings := rows.bookings[w.id := w.booking], audit := rows.audit[auditKey := w.entry],
                         outbox := rows.outbox[outboxKey := OutboxEvent(w.id, w.booking.status, w.booking.version)]),
                   w.code, w.response)
  {
    hide BookingChecks, Excluded, BookingsOf;
  }

  lemma MovingWrite(cmd: Visit, b: Booking)
    requires cmd.Reschedule? && cmd.startAt.Aware?
    ensures var w := UpdateOf(cmd, b); var start := cmd.startAt.utc;
            && w.id == cmd.booking && !w.isInsert && w.token == None && w.code == RESCHEDULED
            && w.booking == b.(startAt := start, endAt := start + b.durationSeconds * SECOND, version := b.version + 1)
            && w.change == ChangeOf(cmd) && w.entry == EntryOf(cmd)
            && w.response == Response(Some(cmd.booking), Some(b.status), None, Some(b.version + 1), Some(false), None)
            && w.taken == Some(Reply(SLOT_CONFLICT,
                 Response(Some(cmd.booking), None, Some(SLOT_CONFLICT), Some(cmd.expectedVersion), None, None)))
  {
  }

  lemma ClosingWrite(cmd: Visit, b: Booking)
    requires cmd.Cancel? || cmd.Outcome?
    ensures var w := UpdateOf(cmd, b); var status := if cmd.Cancel? then Cancelled else cmd.target;
            && w.id == cmd.booking && !w.isInsert && w.booking == b.(status := status, version := b.version + 1)
            && w.change == ChangeOf(cmd) && w.entry == EntryOf(cmd) && w.token == None && w.taken == None
            && w.code == (if cmd.Cancel? then CANCELLED else OutcomeCode(status))
            && w.response == Response(Some(cmd.booking), Some(status), None, Some(b.version + 1), Some(false), None)
  {
  }

  lemma MayStartIsAware(branch: Branch, startAt: StartAt, now: Instant)
    ensures MayStart(branch, startAt, now) ==> startAt.Aware?
  {
  }

  // ----------------------------------------------------------------- retries

  datatype Fault = Serialization | Timeout | OtherFault

  /**
   What the environment does to one attempt: what others commit before it, what it draws,
   whether the connection reports a fault, whether the transaction was nevertheless
   committed, and whether time is left.
   */
  datatype Attempt = Attempt(others: seq<Event>, draw: Draw, fault: Option<Fault>, committed: bool,
        beforeDeadline: bool)

  datatype Ending = Returned(answer: Answer) | Rejected(failure: Failure) | RetryLater | DatabaseError

  /** A further attempt follows attempt k. */
  predicate TriesAgain(attempts: seq<Attempt>, k: nat)
    requires k < |attempts|
  {
    attempts[k].fault == Some(Serialization) && k < 2 && attempts[k].beforeDeadline
  }

  function Retried(rows: Rows, cmd: Visit, attempts: seq<Attempt>, k: nat): (Rows, Ending)
    requires k <= |attempts| == 3
    decreases 3 - k
  {
    if k == 3 then (rows, RetryLater)
    else
      var a := attempts[k];
      var found := Run(rows, a.others);
      var (rows', answer) := Execute(found, cmd, a.draw);
      match a.fault
      case None => (rows', if answer.Raised? then Rejected(answer.failure) else Returned(answer))
      case Some(fault) =>
        var left := if a.committed then rows' else found;
        if TriesAgain(attempts, k) then Retried(left, cmd, attempts, k + 1)
        else (left, if fault == OtherFault then DatabaseError else RetryLater)
  }

  /** Everything committed during the call, by others and by its own attempts, in order. */
  function Committed(cmd: Visit, attempts: seq<Attempt>, k: nat): seq<Event>
    requires k <= |attempts| == 3
    decreases 3 - k
  {
    if k == 3 then []
    else
      var a := attempts[k];
      a.others + (if a.fault.None? || a.committed then [VisitAt(cmd, a.draw)] else [])
      + (if TriesAgain(attempts, k) then Committed(cmd, attempts, k + 1) else [])
  }

  function FitOfRow(z: Zone, roster: Roster, barberRows: map<Id, Booking>, id: Id): Fit {
    if id in barberRows then BookingFits(z, roster, barberRows[id].startAt, barberRows[id].endAt) else Fits
  }

  function Prechecked(rows: Rows, cmd: Visit, allowOverride: bool): Option<Failure> {
    if cmd.Create? then None
    else if (cmd.Cancel? && (|cmd.reason| > 64 || (cmd.override && (cmd.reason == "" || !allowOverride))))
            || cmd.expectedVersion < 1 || (cmd.Reschedule? && cmd.startAt.Naive?)
            || cmd.scope.target != Some(cmd.booking) || cmd.booking !in rows.bookings then Some(RuleViolation)
    else
      var branch := rows.bookings[cmd.booking].branch;
      if branch !in rows.catalog.branches || rows.catalog.branches[branch].business != cmd.scope.business
        then Some(RuleViolation)
      else if cmd.Outcome? && !cmd.permitted then Some(Forbidden)
      else None
  }

  function Submitted(rows: Rows, cmd: Visit, allowOverride: bool, attempts: seq<Attempt>): (Rows, Ending)
    requires |attempts| == 3
  {
    var failure := Prechecked(rows, cmd, allowOverride);
    if failure.Some? then (rows, Rejected(failure.value)) else Retried(rows, cmd, attempts, 0)
  }

  /**
   Whatever faults interrupt the three attempts, before or after their commits, and whatever
   others commit in between, the call amounts to a serial run in which its key is performed at
   most once. What it returns is what the receipt then holds; a rejected call whose key has no
   receipt has performed nothing.
   */
  lemma RetriesPerformOnce(rows: Rows, cmd: Visit, attempts: seq<Attempt>, k: nat)
    requires k <= |attempts| == 3
    ensures var (rows', ending) := Retried(rows, cmd, attempts, k);
            var key, events := cmd.Identity(), Committed(cmd, attempts, k);
            && rows' == Run(rows, events)
            && (forall i: nat, j: nat | i < |events| && j < |events|
                                        && Performs(rows, events, i, key) && Performs(rows, events, j, key) :: i == j)
            && (ending.Returned? ==>
                  && ending.answer.Answered? && key in rows'.receipts && rows'.receipts[key].Finished?
                  && rows'.receipts[key].code == ending.answer.code
                  && rows'.receipts[key].response == ending.answer.response
                  && rows'.receipts[key].fingerprint == cmd.FingerprintOf())
            && (key !in rows'.receipts ==> forall i: nat | i < |events| :: !Performs(rows, events, i, key))
  {
    RetriesAreARun(rows, cmd, attempts, k);
    var key, events := cmd.Identity(), Committed(cmd, attempts, k);
    hide Retried, Committed, Run, Performs;
    forall i: nat, j: nat | i < |events| && j < |events|
                            && Performs(rows, events, i, key) && Performs(rows, events, j, key)
      ensures i == j && key in Run(rows, events).receipts
    {
      AtMostOnce(rows, events, key, i, j);
    }
  }

  lemma {:induction false} RetriesAreARun(rows: Rows, cmd: Visit, attempts: seq<Attempt>, k: nat)
    requires k <= |attempts| == 3
    ensures var (rows', ending) := Retried(rows, cmd, attempts, k); var key := cmd.Identity();
            && rows' == Run(rows, Committed(cmd, attempts, k))
            && (ending.Returned? ==>
                  && ending.answer.Answered? && key in rows'.receipts && rows'.receipts[key].Finished?
                  && rows'.receipts[key].code == ending.answer.code
                  && rows'.receipts[key].response == ending.answer.response
                  && rows'.receipts[key].fingerprint == cmd.FingerprintOf())
    decreases 3 - k
  {
    if k < 3 {
      var a := attempts[k];
      var found := Run(rows, a.others);
      var rest := if TriesAgain(attempts, k) then Committed(cmd, attempts, k + 1) else [];
      var own := if a.fault.None? || a.committed then [VisitAt(cmd, a.draw)] else [];
      AnswerIsStored(found, cmd, a.draw);
      OwnAttempt(found, cmd, a);
      RunConcat(rows, a.others, own);
      RunConcat(rows, a.others + own, rest);
      hide Run, Execute;
      if TriesAgain(attempts, k) {
        RetriesAreARun(Run(found, own), cmd, attempts, k + 1);
      } else {
        assert a.others + own + rest == a.others + own;
      }
    }
  }

  lemma OwnAttempt(found: Rows, cmd: Visit, a: Attempt)
    ensures Run(found, if a.fault.None? || a.committed then [VisitAt(cmd, a.draw)] else []) ==
            if a.fault.None? || a.committed then Execute(found, cmd, a.draw).0 else found
  {
    hide Execute;
    assert [VisitAt(cmd, a.draw)][..0] == [];
  }

  lemma AnswerIsStored(rows: Rows, cmd: Visit, draw: Draw)
    ensures var (rows', answer) := Execute(rows, cmd, draw); var key := cmd.Identity();
            && (answer.Raised? || answer.Answered?)
            && (answer.Answered? ==>
                  && key in rows'.receipts && rows'.receipts[key].Finished?
                  && rows'.receipts[key].code == answer.code && rows'.receipts[key].response == answer.response
                  && rows'.receipts[key].fingerprint == cmd.FingerprintOf())
  {
    ExecuteReceipts(rows, cmd, draw);
    NeverEdited(rows, cmd, draw);
    if cmd.Identity() in rows.receipts { ExecuteReplays(rows, cmd, draw); }
    hide Execute;
  }

  /** Undisturbed, the call leaves its rows alone or as one execution of the command. */
  lemma {:induction false} UndisturbedRetries(rows: Rows, cmd: Visit, attempts: seq<Attempt>, k: nat)
    requires k <= |attempts| == 3 && forall a | a in attempts :: a.others == []
    ensures var rows' := Retried(rows, cmd, attempts, k).0;
            rows' == rows || (cmd.Identity() !in rows.receipts
                              && exists i | k <= i < 3 :: rows' == Execute(rows, cmd, attempts[i].draw).0)
    decreases 3 - k
  {
    hide Execute;
    if k < 3 {
      var a := attempts[k];
      assert a in attempts;
      ExecuteReceipts(rows, cmd, a.draw);
      NeverEdited(rows, cmd, a.draw);
      var (rows', answer) := Execute(rows, cmd, a.draw);
      if a.fault.Some? {
        UndisturbedRetries(if a.committed then rows' else rows, cmd, attempts, k + 1);
      }
    }
  }

  /** What the first n attempts leave committed, if each of them fails and is tried again. */
  function Trail(cmd: Visit, attempts: seq<Attempt>, n: nat): seq<Event>
    requires n <= |attempts|
  {
    if n == 0 then []
    else
      Trail(cmd, attempts, n - 1) + attempts[n - 1].others
      + (if attempts[n - 1].committed then [VisitAt(cmd, attempts[n - 1].draw)] else [])
  }

  predicate Retryable(a: Attempt) {
    a.fault == Some(Serialization) && a.beforeDeadline
  }

  lemma {:induction false} ReachesAttempt(rows: Rows, cmd: Visit, attempts: seq<Attempt>, n: nat)
    requires n < |attempts| == 3 && forall i | 0 <= i < n :: Retryable(attempts[i])
    ensures Retried(rows, cmd, attempts, 0) == Retried(Run(rows, Trail(cmd, attempts, n)), cmd, attempts, n)
  {
    hide Execute;
    if n > 0 {
      ReachesAttempt(rows, cmd, attempts, n - 1);
      var a, before := attempts[n - 1], Trail(cmd, attempts, n - 1);
      var own := if a.committed then [VisitAt(cmd, a.draw)] else [];
      RunConcat(rows, before, a.others);
      RunConcat(rows, before + a.others, own);
      OwnAttempt(Run(rows, before + a.others), cmd, a);
      hide Run;
      assert Retryable(a);
    }
  }

  /**
   How a call ends, exactly. Let n be the first attempt that is the third, or not failed by a
   deadlock or serialization failure, or out of time. The attempts before it run once each, and
   so does this one, on the rows they and others have left; without a fault its answer or its
   exception is returned, after a deadlock, serialization failure or timeout the caller is told
   to retry later, and any other fault is passed on.
   */
  lemma RetriesExactly(rows: Rows, cmd: Visit, attempts: seq<Attempt>, n: nat)
    requires n < |attempts| == 3 && (forall i | 0 <= i < n :: Retryable(attempts[i]))
    requires n == 2 || !Retryable(attempts[n])
    ensures var found := Run(rows, Trail(cmd, attempts, n) + attempts[n].others);
            var (done, answer) := Execute(found, cmd, attempts[n].draw);
            Retried(rows, cmd, attempts, 0) ==
              match attempts[n].fault
              case None => (done, if answer.Raised? then Rejected(answer.failure) else Returned(answer))
              case Some(fault) =>
                (if attempts[n].committed then done else found,
                 if fault == Serialization || fault == Timeout then RetryLater else DatabaseError)
  {
    hide Execute;
    ReachesAttempt(rows, cmd, attempts, n);
    RunConcat(rows, Trail(cmd, attempts, n), attempts[n].others);
    hide Run, Trail;
  }

  /** The command may be tried: it is well-formed, aims at a booking of its business, and overrides with authority. */
  predicate Admitted(rows: Rows, cmd: Visit, allowOverride: bool)
    requires !cmd.Create?
  {
    && cmd.expectedVersion >= 1 && cmd.scope.target == Some(cmd.booking) && cmd.booking in rows.bookings
    && rows.bookings[cmd.booking].branch in rows.catalog.branches
    && rows.catalog.branches[rows.bookings[cmd.booking].branch].business == cmd.scope.business
    && (cmd.Reschedule? ==> cmd.startAt.Aware?)
    && (cmd.Cancel? ==> |cmd.reason| <= 64 && (cmd.override ==> cmd.reason != "" && allowOverride))
  }

  /** What a call does before its transaction: it refuses, changing nothing, or goes on to its attempts. */
  lemma SubmitChecksFirst(rows: Rows, cmd: Visit, allowOverride: bool, attempts: seq<Attempt>)
    requires |attempts| == 3
    ensures Submitted(rows, cmd, allowOverride, attempts) ==
            if !cmd.Create? && !Admitted(rows, cmd, allowOverride) then (rows, Rejected(RuleViolation))
            else if cmd.Outcome? && !cmd.permitted then (rows, Rejected(Forbidden))
            else Retried(rows, cmd, attempts, 0)
  {
    hide Retried;
  }

  lemma NeverEdited(rows: Rows, cmd: Visit, draw: Draw)
    ensures Execute(rows, cmd, draw).1 != Edited
  {
    hide Effect;
  }

  lemma {:induction false} RunKeepsCatalog(rows: Rows, events: seq<Event>)
    ensures Run(rows, events).catalog == rows.catalog
    decreases |events|
  {
    hide Step;
    if events != [] {
      var n := |events| - 1;
      RunKeepsCatalog(rows, events[..n]);
      StepKeepsCatalog(Run(rows, events[..n]), events[n]);
    }
  }

  lemma StepKeepsCatalog(rows: Rows, e: Event)
    ensures Step(rows, e).0.catalog == rows.catalog
  {
    hide Effect, ExecuteEdit;
    if e.VisitAt? { EffectFrame(rows, e.cmd, e.draw); }
    if e.EditAt? { EditFrame(rows, e.edit, e.now); }
  }

  /** What a command checked before its transaction, the transaction will find unchanged. */
  lemma PrecheckStays(rows: Rows, cmd: Visit, allowOverride: bool, events: seq<Event>, clock: Instant)
    requires Inv(rows, clock) && forall e | e in events :: Admissible(e, clock)
    requires Prechecked(rows, cmd, allowOverride) == None
    ensures Prechecked(Run(rows, events), cmd, allowOverride) == None
  {
    hide Inv, Run, Admissible;
    RunEvolves(rows, events, clock);
    RunKeepsCatalog(rows, events);
  }

  /** Hence the same checks inside the transaction never fail for a command that passed them. */
  lemma PrecheckedIsInScope(rows: Rows, cmd: Visit, allowOverride: bool, draw: Draw)
    requires Prechecked(rows, cmd, allowOverride) == None && !cmd.Create?
    ensures Execute(rows, cmd, draw).1 !in {Raised(NotFound), Raised(ScopeViolation), Raised(Forbidden),
                                               Raised(RuleViolation)}
  {
    hide BookingFits, VerdictOn, Stored, MayStart;
  }

  function Tombstoned(receipts: map<ReceiptKey, Receipt>, keys: set<ReceiptKey>): map<ReceiptKey, Receipt> {
    map k | k in receipts :: if k in keys then Tombstone(receipts[k].fingerprint) else receipts[k]
  }

  lemma TombstonedNext(receipts: map<ReceiptKey, Receipt>, done: set<ReceiptKey>, key: ReceiptKey)
    requires key in receipts && key !in done
    ensures var now := Tombstoned(receipts, done);
            key in now && now[key := Tombstone(now[key].fingerprint)] == Tombstoned(receipts, done + {key})
  {
  }

  lemma AllTombstoned(receipts: map<ReceiptKey, Receipt>, moment: Instant)
    ensures Tombstoned(receipts, {}) == receipts && ExpiredKeys(receipts, moment) <= receipts.Keys
    ensures forall rows: Rows | rows.receipts == receipts ::
              Redact(rows, moment) == rows.(receipts := Tombstoned(receipts, ExpiredKeys(receipts, moment)),
                                            redactions := rows.redactions + ExpiredKeys(receipts, moment))
  {
  }

  lemma OwnRowIsNoRival(bookings: map<Id, Booking>, id: Id, b: Booking)
    ensures Excluded(BookingsOf(bookings[id := b], b.barber), id, b) == Excluded(BookingsOf(bookings, b.barber), id, b)
  {
    var rows, rows' := BookingsOf(bookings, b.barber), BookingsOf(bookings[id := b], b.barber);
    assert forall other | other != id :: other in rows <==> other in rows';
  }
}
