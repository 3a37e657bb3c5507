/** The rows of the database, the commands, and what a command reports. */
module Model {
  import opened Base
  import opened Calendar
  import opened Schedule

  // ----------------------------------------------------------------- catalog

  datatype Branch = Branch(
    business: Id, zone: Zone, horizonDays: int, minLeadMinutes: int, gridMinutes: int)

  datatype Assignment = Assignment(branch: Id, barber: Id, service: Id)

  /** Rows no command of the repository changes. `barbers` and `assignments` map to is_active. */
  datatype Catalog = Catalog(
    branches: map<Id, Branch>, barbers: map<Id, bool>, assignments: map<Assignment, bool>)
  {
    /** The barber has some assignment, active or not, in the branch. */
    predicate Assigned(branch: Id, barber: Id) {
      exists a | a in assignments :: a.branch == branch && a.barber == barber
    }

    ghost predicate Valid() {
      && (forall b | b in branches :: branches[b].zone.WellSeparated() && branches[b].gridMinutes > 0)
      && (forall a | a in assignments :: a.branch in branches && a.barber in barbers)
    }
  }

  datatype Service = Service(
    branch: Id, name: string, price: int, currency: string, durationSeconds: int, isActive: bool)

  // ---------------------------------------------------------------- bookings

  datatype Status = Confirmed | Cancelled | Completed | NoShow

  datatype Booking = Booking(
    branch: Id, barber: Id, service: Id, status: Status, version: int,
    startAt: Instant, endAt: Instant,
    serviceName: string, servicePrice: int, currency: string, durationSeconds: int, timezone: Zone)

  /** The check constraints of the booking table. */
  predicate BookingChecks(b: Booking) {
    b.version >= 1 && b.endAt > b.startAt && b.endAt == b.startAt + b.durationSeconds * SECOND
    && b.durationSeconds > 0 && b.servicePrice >= 0
  }

  /** Intersection of two half-open ranges, `&&` on `[)` ranges. */
  predicate Overlaps(start: Instant, end: Instant, start': Instant, end': Instant) {
    start < end' && start' < end
  }

  function BookingsOf(bookings: map<Id, Booking>, barber: Id): map<Id, Booking> {
    map id | id in bookings && bookings[id].barber == barber :: bookings[id]
  }

  /** The partial exclusion constraint rejects row `id` beside its barber's other rows. */
  predicate Excluded(barberRows: map<Id, Booking>, id: Id, b: Booking) {
    b.status != Cancelled &&
    exists other | other in barberRows && other != id ::
      barberRows[other].status != Cancelled
      && Overlaps(b.startAt, b.endAt, barberRows[other].startAt, barberRows[other].endAt)
  }

  // ----------------------------------------------------------------- journal

  datatype Change = BookingCreated | BookingRescheduled | BookingCancelled | BookingCompleted | BookingNoShow

  datatype AuditKey = AuditKey(booking: Id, version: int)
  datatype AuditEntry = AuditEntry(
    change: Change, actorKind: string, actorId: string, reason: string, correlation: Id)

  datatype OutboxKey = OutboxKey(booking: Id, version: int, change: Change)
  /** Payload of an outbox event: booking id, status and version. */
  datatype OutboxEvent = OutboxEvent(booking: Id, status: Status, version: int)

  // ------------------------------------------------------------------ tokens

  /** A digest and a ciphertext of a raw secret: injective, and invertible with the key. */
  datatype Digest = Sha256(raw: string)
  datatype Cipher = Fernet(raw: string)

  datatype Token = Token(digest: Digest, cipher: Cipher, session: string, createdAt: Instant)

  // ---------------------------------------------------------------- receipts

  datatype Scope = Scope(
    business: Id, principalKind: string, principalId: string, channel: string, target: Option<Id>)

  datatype Operation = CREATE_BOOKING | CANCEL_BOOKING | RESCHEDULE_BOOKING | COMPLETE_BOOKING | MARK_NO_SHOW

  /** A requested start: without a time zone, or an instant written with some UTC offset. */
  datatype StartAt = Naive(wall: Wall) | Aware(utc: Instant, offset: int)

  datatype Fingerprint =
    | CreatePrint(barber: Id, branch: Id, service: Id, startAt: StartAt)
    | CancelPrint(booking: Id, expectedVersion: int, override: bool, reason: string)
    | ReschedulePrint(booking: Id, expectedVersion: int, startAt: StartAt)
    | OutcomePrint(operation: Operation, booking: Id, expectedVersion: int)

  datatype Code =
    | CREATED | SLOT_CONFLICT
    | CANCELLED | CANCELLATION_CLOSED
    | RESCHEDULED | RESCHEDULE_CLOSED | TIME_RULE_VIOLATION
    | COMPLETED | NO_SHOW | OUTCOME_TOO_EARLY
    | STATE_CONFLICT | VERSION_CONFLICT

  /** The stored response; an absent field is an absent key. */
  datatype Response = Response(
    booking: Option<Id>, status: Option<Status>, error: Option<Code>,
    version: Option<int>, noOp: Option<bool>, token: Option<Cipher>)

  datatype ReceiptKey = ReceiptKey(scope: Scope, operation: Operation, key: string)

  /** The constructors are the state/result consistency check of the receipt table. */
  datatype Receipt =
    | Processing(fingerprint: Fingerprint)
    | Finished(fingerprint: Fingerprint, code: Code, response: Response, completedAt: Instant, expiresAt: Instant)
    | Tombstone(fingerprint: Fingerprint)

  const RESPONSE_RETENTION: int := 30 * DAY
  const TOKEN_RETENTION: int := 90 * DAY

  // -------------------------------------------------------------------- rows

  datatype Rows = Rows(
    catalog: Catalog,
    services: map<Id, Service>,
    rules: map<Id, Rule>,
    exceptions: map<Id, DatedException>,
    bookings: map<Id, Booking>,
    audit: map<AuditKey, AuditEntry>,
    outbox: map<OutboxKey, OutboxEvent>,
    tokens: map<Id, Token>,
    receipts: map<ReceiptKey, Receipt>,
    redactions: set<ReceiptKey>)

  function RosterOf(rules: map<Id, Rule>, exceptions: map<Id, DatedException>, branch: Id, barber: Id): Roster {
    Roster(
      map id | id in rules && rules[id].branch == branch && rules[id].barber == barber :: rules[id],
      map id | id in exceptions && exceptions[id].branch == branch && exceptions[id].barber == barber :: exceptions[id])
  }

  function Lookup<T>(table: map<Id, T>, id: Id): Option<T> {
    if id in table then Some(table[id]) else None
  }

  // ---------------------------------------------------------------- commands

  datatype Visit =
    | Create(scope: Scope, key: string, correlation: Id,
             branch: Id, barber: Id, service: Id, startAt: StartAt,
             secret: Option<string>, session: string)
    | Cancel(scope: Scope, key: string, correlation: Id,
             booking: Id, expectedVersion: int, reason: string, override: bool)
    | Reschedule(scope: Scope, key: string, correlation: Id,
                 booking: Id, expectedVersion: int, startAt: StartAt)
    | Outcome(scope: Scope, key: string, correlation: Id,
              booking: Id, expectedVersion: int, target: Status, permitted: bool)
  {
    predicate WellFormed() { Outcome? ==> target == Completed || target == NoShow }

    function OperationName(): Operation {
      match this
      case Create(_, _, _, _, _, _, _, _, _) => CREATE_BOOKING
      case Cancel(_, _, _, _, _, _, _) => CANCEL_BOOKING
      case Reschedule(_, _, _, _, _, _) => RESCHEDULE_BOOKING
      case Outcome(_, _, _, _, _, target, _) => if target == Completed then COMPLETE_BOOKING else MARK_NO_SHOW
    }

    function Identity(): ReceiptKey { ReceiptKey(scope, OperationName(), key) }

    function FingerprintOf(): Fingerprint {
      match this
      case Create(_, _, _, branch, barber, service, startAt, _, _) => CreatePrint(barber, branch, service, startAt)
      case Cancel(_, _, _, booking, expected, reason, override) => CancelPrint(booking, expected, override, reason)
      case Reschedule(_, _, _, booking, expected, startAt) => ReschedulePrint(booking, expected, startAt)
      case Outcome(_, _, _, booking, expected, _, _) => OutcomePrint(OperationName(), booking, expected)
    }
  }

  /** What one execution draws from its environment: clocks and a random booking id. */
  datatype Draw = Draw(now: Instant, insertedAt: Instant, completedAt: Instant, freshId: Id)

  datatype Failure =
    | NotFound | ScopeViolation | RuleViolation | Forbidden | IntegrityError | LocalTimeFailure
    | IdempotencyConflict | ResultExpired
    | UnsupportedField | ValidationError | ScheduleConflict(bookings: seq<Id>)

  /** A returned result, or a raised exception, which rolls the transaction back. */
  datatype Answer =
    | Answered(code: Code, response: Response, replayed: bool)
    | Edited
    | Raised(failure: Failure)

  // ------------------------------------------------------------ catalog edits

  datatype RuleChanges = RuleChanges(
    weekday: Option<int>, startsAt: Option<TimeOfDay>, endsAt: Option<TimeOfDay>, isActive: Option<bool>)

  /** `startsAt` and `endsAt` may be set to a time or to null. */
  datatype ExceptionChanges = ExceptionChanges(
    localDate: Option<int>, kind: Option<ExceptionKind>,
    startsAt: Option<Option<TimeOfDay>>, endsAt: Option<Option<TimeOfDay>>, reason: Option<string>)

  datatype ServiceChanges = ServiceChanges(
    name: Option<string>, price: Option<int>, currency: Option<string>,
    durationSeconds: Option<int>, isActive: Option<bool>)

  /** `unknownField` tells whether the mapping of changes names a field that may not be edited. */
  datatype Edit =
    | EditRule(id: Id, ruleChanges: RuleChanges, unknownField: bool)
    | EditException(id: Id, exceptionChanges: ExceptionChanges, unknownField: bool)
    | EditService(id: Id, serviceChanges: ServiceChanges, unknownField: bool)
}
