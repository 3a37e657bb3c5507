/**
 One committed execution of each command, as a function of the rows it starts from.

 A command is split the way the code is: what it reads (`Seen`), the guards in their
 order (`Gate`), the verdict of the schedule, the row it wants to write (`NewRow`), and
 the constraints of the database (`VerdictOn`).
 */
module Commands {
  import opened Base
  import opened Calendar
  import opened Schedule
  import opened Model

  const CANCELLATION_WINDOW: int := 2 * HOUR

  // -------------------------------------------------------------- start rules

  predicate OnGrid(branch: Branch, w: Wall) {
    branch.gridMinutes > 0 && w % SECOND == 0 && (w % DAY) / SECOND % (branch.gridMinutes * 60) == 0
  }

  /** `validate_booking_start` raises nothing. */
  predicate MayStart(branch: Branch, startAt: StartAt, now: Instant) {
    && startAt.Aware?
    && startAt.utc >= now + branch.minLeadMinutes * MINUTE
    && DateOf(branch.zone.Show(startAt.utc)) <= DateOf(branch.zone.Show(now)) + branch.horizonDays
    && OnGrid(branch, branch.zone.Show(startAt.utc))
  }

  // ------------------------------------------------------------------- guards

  /** What a command reads under the barber's lock. */
  datatype Seen = Seen(service: Option<Service>, booking: Option<Booking>)

  datatype Gate =
    | Refuse(failure: Failure)
    | Reply(code: Code, response: Response)
    | Proceed
    | Consult(branch: Id, barber: Id, start: Instant, end: Instant)

  function ErrorReply(id: Id, code: Code, version: int): Gate {
    Reply(code, Response(Some(id), None, Some(code), Some(version), None, None))
  }

  function NoOpReply(id: Id, code: Code, b: Booking): Gate {
    Reply(code, Response(Some(id), Some(b.status), None, Some(b.version), Some(true), None))
  }

  function OutcomeCode(target: Status): Code {
    if target == Completed then COMPLETED else NO_SHOW
  }

  function CreateGate(c: Catalog, cmd: Visit, service: Option<Service>, now: Instant): Gate
    requires cmd.Create?
  {
    if cmd.barber !in c.barbers || cmd.branch !in c.branches then Refuse(NotFound)
    else if c.branches[cmd.branch].business != cmd.scope.business then Refuse(RuleViolation)
    else if service.None? || !service.value.isActive then Refuse(NotFound)
    else if !c.barbers[cmd.barber] then Refuse(RuleViolation)
    else
      var a := Assignment(cmd.branch, cmd.barber, cmd.service);
      if a !in c.assignments || !c.assignments[a] then Refuse(RuleViolation)
      else if !MayStart(c.branches[cmd.branch], cmd.startAt, now) then Refuse(RuleViolation)
      else
        Consult(cmd.branch, cmd.barber, cmd.startAt.utc,
                cmd.startAt.utc + service.value.durationSeconds * SECOND)
  }

  function CancelGate(cmd: Visit, b: Booking, now: Instant): Gate
    requires cmd.Cancel?
  {
    if b.status == Cancelled then NoOpReply(cmd.booking, CANCELLED, b)
    else if b.status != Confirmed then ErrorReply(cmd.booking, STATE_CONFLICT, b.version)
    else if b.version != cmd.expectedVersion then ErrorReply(cmd.booking, VERSION_CONFLICT, b.version)
    else if now >= b.startAt then ErrorReply(cmd.booking, CANCELLATION_CLOSED, b.version)
    else if !cmd.override && b.startAt - now < CANCELLATION_WINDOW then
      ErrorReply(cmd.booking, CANCELLATION_CLOSED, b.version)
    else Proceed
  }

  /** A start without a time zone is rejected before the transaction; here it is a refusal. */
  function RescheduleGate(branch: Branch, cmd: Visit, b: Booking, now: Instant): Gate
    requires cmd.Reschedule?
  {
    if b.status != Confirmed then ErrorReply(cmd.booking, STATE_CONFLICT, b.version)
    else if b.version != cmd.expectedVersion then ErrorReply(cmd.booking, VERSION_CONFLICT, b.version)
    else if cmd.startAt.Naive? then Refuse(RuleViolation)
    else if cmd.startAt.utc == b.startAt then NoOpReply(cmd.booking, RESCHEDULED, b)
    else if now >= b.startAt then ErrorReply(cmd.booking, RESCHEDULE_CLOSED, b.version)
    else if !MayStart(branch, cmd.startAt, now) then ErrorReply(cmd.booking, TIME_RULE_VIOLATION, b.version)
    else Consult(b.branch, b.barber, cmd.startAt.utc, cmd.startAt.utc + b.durationSeconds * SECOND)
  }

  function OutcomeGate(cmd: Visit, b: Booking, now: Instant): Gate
    requires cmd.Outcome?
  {
    if !cmd.permitted then Refuse(Forbidden)
    else if b.status == cmd.target then NoOpReply(cmd.booking, OutcomeCode(cmd.target), b)
    else if b.status != Confirmed then ErrorReply(cmd.booking, STATE_CONFLICT, b.version)
    else if b.version != cmd.expectedVersion then ErrorReply(cmd.booking, VERSION_CONFLICT, b.version)
    else if now < b.endAt then ErrorReply(cmd.booking, OUTCOME_TOO_EARLY, b.version)
    else Proceed
  }

  function GateOf(c: Catalog, cmd: Visit, seen: Seen, now: Instant): Gate {
    if cmd.Create? then CreateGate(c, cmd, seen.service, now)
    else if seen.booking.None? || seen.booking.value.branch !in c.branches then Refuse(NotFound)
    else
      var b := seen.booking.value;
      var branch := c.branches[b.branch];
      if branch.business != cmd.scope.business || cmd.scope.target != Some(cmd.booking) then Refuse(ScopeViolation)
      else if cmd.Cancel? then CancelGate(cmd, b, now)
      else if cmd.Reschedule? then RescheduleGate(branch, cmd, b, now)
      else OutcomeGate(cmd, b, now)
  }

  // ------------------------------------------------------------------- writes

  /** The row to store, its journal entry, and the replies of success and of a taken slot. */
  datatype BookingWrite = BookingWrite(
    id: Id, isInsert: bool, booking: Booking, change: Change, entry: AuditEntry, token: Option<Token>,
    code: Code, response: Response, taken: Option<Gate>)

  function ChangeOf(cmd: Visit): Change {
    match cmd
    case Create(_, _, _, _, _, _, _, _, _) => BookingCreated
    case Cancel(_, _, _, _, _, _, _) => BookingCancelled
    case Reschedule(_, _, _, _, _, _) => BookingRescheduled
    case Outcome(_, _, _, _, _, target, _) => if target == Completed then BookingCompleted else BookingNoShow
  }

  function EntryOf(cmd: Visit): AuditEntry {
    AuditEntry(ChangeOf(cmd), cmd.scope.principalKind, cmd.scope.principalId,
               if cmd.Cancel? then cmd.reason else "", cmd.correlation)
  }

  function InsertOf(c: Catalog, cmd: Visit, s: Service, draw: Draw): BookingWrite
    requires cmd.Create? && cmd.startAt.Aware? && cmd.branch in c.branches
  {
    var start := cmd.startAt.utc;
    var b := Booking(cmd.branch, cmd.barber, cmd.service, Confirmed, 1,
                     start, start + s.durationSeconds * SECOND,
                     s.name, s.price, s.currency, s.durationSeconds, c.branches[cmd.branch].zone);
    var cipher := if cmd.secret.Some? then Some(Fernet(cmd.secret.value)) else None;
    var token := if cmd.secret.Some?
      then Some(Token(Sha256(cmd.secret.value), Fernet(cmd.secret.value), cmd.session, draw.insertedAt)) else None;
    BookingWrite(draw.freshId, true, b, BookingCreated, EntryOf(cmd), token,
                 CREATED, Response(Some(draw.freshId), Some(Confirmed), None, Some(1), None, cipher),
                 Some(Reply(SLOT_CONFLICT, Response(None, None, Some(SLOT_CONFLICT), None, None, None))))
  }

  function UpdateOf(cmd: Visit, b: Booking): BookingWrite
    requires !cmd.Create? && (cmd.Reschedule? ==> cmd.startAt.Aware?)
  {
    var b' :=
      match cmd
      case Cancel(_, _, _, _, _, _, _) => b.(status := Cancelled, version := b.version + 1)
      case Reschedule(_, _, _, _, _, startAt) =>
        b.(startAt := startAt.utc, endAt := startAt.utc + b.durationSeconds * SECOND, version := b.version + 1)
      case Outcome(_, _, _, _, _, target, _) => b.(status := target, version := b.version + 1);
    var code :=
      match cmd
      case Cancel(_, _, _, _, _, _, _) => CANCELLED
      case Reschedule(_, _, _, _, _, _) => RESCHEDULED
      case Outcome(_, _, _, _, _, target, _) => OutcomeCode(target);
    BookingWrite(cmd.booking, false, b', ChangeOf(cmd), EntryOf(cmd), None,
                 code, Response(Some(cmd.booking), Some(b'.status), None, Some(b'.version), Some(false), None),
                 if cmd.Reschedule? then Some(ErrorReply(cmd.booking, SLOT_CONFLICT, cmd.expectedVersion)) else None)
  }

  datatype Plan = Stop(failure: Failure) | Return(code: Code, response: Response) | Write(write: BookingWrite)

  /** What the guards and the schedule's verdict (ignored unless consulted) lead to. */
  function PlanOf(c: Catalog, cmd: Visit, seen: Seen, fit: Fit, draw: Draw): Plan {
    match GateOf(c, cmd, seen, draw.now)
    case Refuse(f) => Stop(f)
    case Reply(code, response) => Return(code, response)
    case Proceed => Write(UpdateOf(cmd, seen.booking.value))
    case Consult(_, _, _, _) =>
      match fit
      case Unevaluable => Stop(LocalTimeFailure)
      case Misfit =>
        if cmd.Create? then Stop(RuleViolation)
        else
          Return(TIME_RULE_VIOLATION, ErrorReply(cmd.booking, TIME_RULE_VIOLATION, seen.booking.value.version).response)
      case Fits =>
        if cmd.Create? then Write(InsertOf(c, cmd, seen.service.value, draw))
        else Write(UpdateOf(cmd, seen.booking.value))
  }

  datatype Verdict = Accepted | SlotTaken | Broken

  predicate DigestTaken(tokens: map<Id, Token>, digest: Digest) {
    exists id | id in tokens :: tokens[id].digest == digest
  }

  /** The constraints of the booking, journal and token tables, in the order they are met. */
  function VerdictOn(rows: Rows, w: BookingWrite): Verdict {
    if (w.isInsert && w.id in rows.bookings) || !BookingChecks(w.booking) then Broken
    else if Excluded(BookingsOf(rows.bookings, w.booking.barber), w.id, w.booking) then SlotTaken
    else if AuditKey(w.id, w.booking.version) in rows.audit
            || OutboxKey(w.id, w.booking.version, w.change) in rows.outbox then Broken
    else if w.token.Some? && (w.id in rows.tokens || DigestTaken(rows.tokens, w.token.value.digest)) then Broken
    else Accepted
  }

  /** The rows after an accepted write. */
  function Stored(rows: Rows, w: BookingWrite): Rows {
    rows.(bookings := rows.bookings[w.id := w.booking],
          audit := rows.audit[AuditKey(w.id, w.booking.version) := w.entry],
          outbox := rows.outbox[OutboxKey(w.id, w.booking.version, w.change) :=
                                OutboxEvent(w.id, w.booking.status, w.booking.version)],
          tokens := if w.token.Some? then rows.tokens[w.id := w.token.value] else rows.tokens)
  }

  datatype Outcome = Done(rows: Rows, code: Code, response: Response) | Failed(failure: Failure)

  function Finish(rows: Rows, plan: Plan): Outcome {
    match plan
    case Stop(f) => Failed(f)
    case Return(code, response) => Done(rows, code, response)
    case Write(w) =>
      match VerdictOn(rows, w)
      case Accepted => Done(Stored(rows, w), w.code, w.response)
      case Broken => Failed(IntegrityError)
      case SlotTaken =>
        if w.taken.Some? && w.taken.value.Reply? then Done(rows, w.taken.value.code, w.taken.value.response)
        else Failed(IntegrityError)
  }

  // -------------------------------------------------------------- transaction

  function ServicesOf(services: map<Id, Service>, branch: Id): map<Id, Service> {
    map id | id in services && services[id].branch == branch :: services[id]
  }

  function SeenIn(rows: Rows, cmd: Visit): Seen {
    if cmd.Create? then Seen(Lookup(ServicesOf(rows.services, cmd.branch), cmd.service), None)
    else Seen(None, Lookup(rows.bookings, cmd.booking))
  }

  function FitIn(rows: Rows, gate: Gate): Fit {
    if gate.Consult? && gate.branch in rows.catalog.branches then
      BookingFits(rows.catalog.branches[gate.branch].zone,
                  RosterOf(rows.rules, rows.exceptions, gate.branch, gate.barber), gate.start, gate.end)
    else Fits
  }

  function Effect(rows: Rows, cmd: Visit, draw: Draw): Outcome {
    var seen := SeenIn(rows, cmd);
    var fit := FitIn(rows, GateOf(rows.catalog, cmd, seen, draw.now));
    Finish(rows, PlanOf(rows.catalog, cmd, seen, fit, draw))
  }

  function Replay(receipt: Receipt, fingerprint: Fingerprint, now: Instant): Answer {
    if receipt.fingerprint != fingerprint then Raised(IdempotencyConflict)
    else if !receipt.Finished? || receipt.expiresAt <= now then Raised(ResultExpired)
    else Answered(receipt.code, receipt.response, true)
  }

  function WithReceipt(rows: Rows, cmd: Visit, code: Code, response: Response, completedAt: Instant): Rows {
    rows.(receipts := rows.receipts[cmd.Identity() :=
      Finished(cmd.FingerprintOf(), code, response, completedAt, completedAt + RESPONSE_RETENTION)])
  }

  /** `execute_idempotent` around the command's effect. */
  function Execute(rows: Rows, cmd: Visit, draw: Draw): (Rows, Answer) {
    if cmd.Identity() in rows.receipts then
      (rows, Replay(rows.receipts[cmd.Identity()], cmd.FingerprintOf(), draw.completedAt))
    else
      match Effect(rows, cmd, draw)
      case Failed(f) => (rows, Raised(f))
      case Done(rows', code, response) =>
        (WithReceipt(rows', cmd, code, response, draw.completedAt), Answered(code, response, false))
  }

  // --------------------------------------------------------------- catalog edits

  function OrElse<T>(change: Option<T>, current: T): T {
    if change.Some? then change.value else current
  }

  function ChangedRule(r: Rule, ch: RuleChanges): Rule {
    r.(weekday := OrElse(ch.weekday, r.weekday), startsAt := OrElse(ch.startsAt, r.startsAt),
       endsAt := OrElse(ch.endsAt, r.endsAt), isActive := OrElse(ch.isActive, r.isActive))
  }

  function ChangedException(x: DatedException, ch: ExceptionChanges): DatedException {
    x.(localDate := OrElse(ch.localDate, x.localDate), kind := OrElse(ch.kind, x.kind),
       startsAt := OrElse(ch.startsAt, x.startsAt), endsAt := OrElse(ch.endsAt, x.endsAt),
       reason := OrElse(ch.reason, x.reason))
  }

  function ChangedService(s: Service, ch: ServiceChanges): Service {
    s.(name := OrElse(ch.name, s.name), price := OrElse(ch.price, s.price),
       currency := OrElse(ch.currency, s.currency),
       durationSeconds := OrElse(ch.durationSeconds, s.durationSeconds), isActive := OrElse(ch.isActive, s.isActive))
  }

  /** `full_clean` of a rule, beside the other rules of its roster. */
  predicate RuleValid(c: Catalog, roster: map<Id, Rule>, id: Id, r: Rule) {
    && 0 <= r.weekday <= 6 && r.startsAt != r.endsAt && c.Assigned(r.branch, r.barber)
    && forall other | other in roster && other != id ::
         !(roster[other].weekday == r.weekday && roster[other].startsAt == r.startsAt
           && roster[other].endsAt == r.endsAt)
  }

  predicate ExceptionValid(c: Catalog, roster: map<Id, DatedException>, id: Id, x: DatedException) {
    && c.Assigned(x.branch, x.barber) && |x.reason| <= 200
    && (if x.kind == Closed then x.startsAt == None && x.endsAt == None
        else x.startsAt.Some? && x.endsAt.Some? && x.startsAt != x.endsAt)
    && forall other | other in roster && other != id :: roster[other].localDate != x.localDate
  }

  predicate ServiceFields(s: Service) {
    && 0 < |s.name| <= 200 && 0 <= s.price < 10_000_000_000 && 1 <= s.durationSeconds <= 2147483647
    && |s.currency| == 3 && forall i | 0 <= i < 3 :: 'A' <= s.currency[i] <= 'Z'
  }

  predicate ServiceValid(branchServices: map<Id, Service>, id: Id, s: Service) {
    ServiceFields(s) && forall other | other in branchServices && other != id :: branchServices[other].name != s.name
  }

  /** Bookings an edit of the barber's roster in the branch must still accommodate. */
  function FutureIds(barberRows: map<Id, Booking>, branch: Id, now: Instant): set<Id> {
    set id | id in barberRows && barberRows[id].branch == branch
             && barberRows[id].startAt >= now && barberRows[id].status != Cancelled
  }

  function ConflictIds(z: Zone, roster: Roster, barberRows: map<Id, Booking>, branch: Id, now: Instant): set<Id> {
    set id | id in FutureIds(barberRows, branch, now)
             && BookingFits(z, roster, barberRows[id].startAt, barberRows[id].endAt) == Misfit
  }

  predicate AnyUnevaluable(z: Zone, roster: Roster, barberRows: map<Id, Booking>, branch: Id, now: Instant) {
    exists id | id in FutureIds(barberRows, branch, now) ::
      BookingFits(z, roster, barberRows[id].startAt, barberRows[id].endAt) == Unevaluable
  }

  /** `_ensure_future_bookings_fit`: None, or the exception it raises. */
  function FutureFit(z: Zone, roster: Roster, barberRows: map<Id, Booking>, branch: Id, now: Instant): Option<Failure> {
    if AnyUnevaluable(z, roster, barberRows, branch, now) then Some(LocalTimeFailure)
    else
      var conflicts := ConflictIds(z, roster, barberRows, branch, now);
      if conflicts == {} then None else Some(ScheduleConflict(Ascending(conflicts)))
  }

  /** The re-check an edit of (branch, barber) runs over rows that already hold the edit. */
  function Recheck(rows: Rows, branch: Id, barber: Id, now: Instant): Option<Failure> {
    if branch !in rows.catalog.branches then Some(NotFound)
    else FutureFit(rows.catalog.branches[branch].zone, RosterOf(rows.rules, rows.exceptions, branch, barber),
                   BookingsOf(rows.bookings, barber), branch, now)
  }

  /** A row of the schedule or of the service catalog, as an edit reads or writes it. */
  datatype CatalogRow = RuleRow(rule: Rule) | ExceptionRow(exception: DatedException) | ServiceRow(service: Service)
  {
    function Branch(): Id {
      match this
      case RuleRow(r) => r.branch
      case ExceptionRow(x) => x.branch
      case ServiceRow(s) => s.branch
    }

    /** The barber whose roster the row belongs to; services belong to none. */
    function Barber(): Option<Id> {
      match this
      case RuleRow(r) => Some(r.barber)
      case ExceptionRow(x) => Some(x.barber)
      case ServiceRow(_) => None
    }
  }

  function RowOf(rows: Rows, e: Edit): Option<CatalogRow> {
    match e
    case EditRule(id, _, _) => if id in rows.rules then Some(RuleRow(rows.rules[id])) else None
    case EditException(id, _, _) => if id in rows.exceptions then Some(ExceptionRow(rows.exceptions[id])) else None
    case EditService(id, _, _) => if id in rows.services then Some(ServiceRow(rows.services[id])) else None
  }

  predicate Matches(e: Edit, row: CatalogRow) {
    (e.EditRule? <==> row.RuleRow?) && (e.EditException? <==> row.ExceptionRow?)
  }

  /** The row with the requested fields set in memory. */
  function Changed(e: Edit, row: CatalogRow): CatalogRow
    requires Matches(e, row)
  {
    match e
    case EditRule(_, ch, _) => RuleRow(ChangedRule(row.rule, ch))
    case EditException(_, ch, _) => ExceptionRow(ChangedException(row.exception, ch))
    case EditService(_, ch, _) => ServiceRow(ChangedService(row.service, ch))
  }

  /** `full_clean` of the changed row beside the rows it must not duplicate. */
  predicate RowValid(rows: Rows, id: Id, row: CatalogRow) {
    match row
    case RuleRow(r) => RuleValid(rows.catalog, RosterOf(rows.rules, rows.exceptions, r.branch, r.barber).rules, id, r)
    case ExceptionRow(x) =>
      ExceptionValid(rows.catalog, RosterOf(rows.rules, rows.exceptions, x.branch, x.barber).exceptions, id, x)
    case ServiceRow(s) => ServiceValid(ServicesOf(rows.services, s.branch), id, s)
  }

  function Patched(rows: Rows, id: Id, row: CatalogRow): Rows {
    match row
    case RuleRow(r) => rows.(rules := rows.rules[id := r])
    case ExceptionRow(x) => rows.(exceptions := rows.exceptions[id := x])
    case ServiceRow(s) => rows.(services := rows.services[id := s])
  }

  /** The rows with the edit written, or the exception raised before the write. */
  function Rewritten(rows: Rows, e: Edit): Result<Rows, Failure> {
    var row := RowOf(rows, e);
    if row.None? || row.value.Branch() !in rows.catalog.branches then Err(NotFound)
    else if e.unknownField then Err(UnsupportedField)
    else if !RowValid(rows, e.id, Changed(e, row.value)) then Err(ValidationError)
    else Ok(Patched(rows, e.id, Changed(e, row.value)))
  }

  function EditedBranch(rows: Rows, e: Edit): Option<Id> {
    if RowOf(rows, e).Some? then Some(RowOf(rows, e).value.Branch()) else None
  }

  function EditedBarber(rows: Rows, e: Edit): Option<Id> {
    if RowOf(rows, e).Some? then RowOf(rows, e).value.Barber() else None
  }

  function ExecuteEdit(rows: Rows, e: Edit, now: Instant): (Rows, Answer) {
    match Rewritten(rows, e)
    case Err(f) => (rows, Raised(f))
    case Ok(rows') =>
      if e.EditService? then (rows', Edited)
      else
        match Recheck(rows', EditedBranch(rows, e).value, EditedBarber(rows, e).value, now)
        case Some(f) => (rows, Raised(f))
        case None => (rows', Edited)
  }

  // ---------------------------------------------------------------- housekeeping

  predicate Expired(r: Receipt, moment: Instant) {
    r.Finished? && r.expiresAt <= moment
  }

  function ExpiredKeys(receipts: map<ReceiptKey, Receipt>, moment: Instant): set<ReceiptKey> {
    set k | k in receipts && Expired(receipts[k], moment)
  }

  /** `redact_expired_receipts`. */
  function Redact(rows: Rows, moment: Instant): Rows {
    rows.(receipts := map k | k in rows.receipts ::
            if Expired(rows.receipts[k], moment) then Tombstone(rows.receipts[k].fingerprint) else rows.receipts[k],
          redactions := rows.redactions + ExpiredKeys(rows.receipts, moment))
  }

  /** `revoke_old_management_tokens` with its default retention. */
  function Revoke(rows: Rows, moment: Instant): Rows {
    rows.(tokens := map id | id in rows.tokens && rows.tokens[id].createdAt >= moment - TOKEN_RETENTION
                      :: rows.tokens[id])
  }

  /** `replace_result_with_tombstone`. */
  function Retire(rows: Rows, key: ReceiptKey): (Rows, Answer) {
    if key !in rows.receipts then (rows, Raised(NotFound))
    else (rows.(receipts := rows.receipts[key := Tombstone(rows.receipts[key].fingerprint)]), Edited)
  }

  // ------------------------------------------------------------------ serial runs

  datatype Event =
    | VisitAt(cmd: Visit, draw: Draw)
    | EditAt(edit: Edit, now: Instant)
    | RetireAt(key: ReceiptKey)
    | RedactAt(moment: Instant)
    | RevokeAt(moment: Instant)

  function Step(rows: Rows, e: Event): (Rows, Answer) {
    match e
    case VisitAt(cmd, draw) => Execute(rows, cmd, draw)
    case EditAt(edit, now) => ExecuteEdit(rows, edit, now)
    case RetireAt(key) => Retire(rows, key)
    case RedactAt(moment) => (Redact(rows, moment), Edited)
    case RevokeAt(moment) => (Revoke(rows, moment), Edited)
  }

  function Run(rows: Rows, events: seq<Event>): Rows
    decreases |events|
  {
    if events == [] then rows else Step(Run(rows, events[..|events| - 1]), events[|events| - 1]).0
  }
}
