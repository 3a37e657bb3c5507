/**
 Concurrent transactions at the granularity of lock, read, write, check and commit.

 Every step works on rows committed so far plus the transaction's own buffer. Row locks
 and the wait for a rival's unique insert are both entries of one lock table; a step whose
 lock is taken is not enabled. A crash, a deadlock and a timeout are all `Abort`.
 The machine admits every order of the reads a command makes under its barber's lock.
 */
module Transactions {
  import opened Base
  import opened Calendar
  import opened Schedule
  import opened Model
  import opened Commands

  type TxnId = int

  datatype Lock =
    | ReceiptLock(key: ReceiptKey)
    | BranchLock(branch: Id)
    | BarberLock(barber: Id)
    | BookingLock(booking: Id)
    | DigestLock(digest: Digest)

  /** The receipt step: inserted as PROCESSING, or found committed and locked. */
  datatype Claim = Unclaimed | Inserted | Found(receipt: Receipt)

  /** A visit command between its steps: what it has locked, read and buffered. */
  datatype VisitTxn = VisitTxn(
    cmd: Visit, claim: Claim, target: Option<Id>, barber: Option<Id>,
    now: Option<Instant>, seen: Option<Seen>,
    before: Option<set<Shift>>, today: Option<set<Shift>>,
    written: Option<Written>)

  /** The decision taken at the write, and what the constraints said to it. */
  datatype Written = Written(plan: Plan, verdict: Verdict, draw: Draw)

  /** An edit between its steps; `home` is the branch read before any lock is taken. */
  datatype EditTxn = EditTxn(
    edit: Edit, home: Option<Id>, branch: Option<Id>, barbersLocked: nat,
    row: Option<CatalogRow>, buffered: Option<CatalogRow>,
    now: Option<Instant>, future: Option<map<Id, Booking>>, checked: bool)

  datatype Txn = Visiting(v: VisitTxn) | Editing(e: EditTxn)

  datatype Logged = Logged(event: Event, answer: Answer)

  /** Committed rows, the database clock, the lock table, live transactions, and the commit log. */
  datatype Sys = Sys(
    start: Rows, rows: Rows, clock: Instant, locks: map<Lock, TxnId>, txns: map<TxnId, Txn>, log: seq<Logged>)
  {
    predicate Free(l: Lock) { l !in locks }

    predicate IsVisit(t: TxnId) { t in txns && txns[t].Visiting? }

    predicate IsEdit(t: TxnId) { t in txns && txns[t].Editing? }

    function WithVisit(t: TxnId, v: VisitTxn): Sys { this.(txns := txns[t := Visiting(v)]) }

    function WithEdit(t: TxnId, e: EditTxn): Sys { this.(txns := txns[t := Editing(e)]) }

    function Locked(t: TxnId, l: Lock): Sys { this.(locks := locks[l := t]) }

    /** The transaction is gone and its locks are released. */
    function Ended(t: TxnId): Sys {
      this.(txns := map u | u in txns && u != t :: txns[u], locks := map l | l in locks && locks[l] != t :: locks[l])
    }
  }

  function HeldBy(locks: map<Lock, TxnId>, t: TxnId): set<Lock> {
    set l | l in locks && locks[l] == t
  }

  datatype Action =
    | Tick(clock: Instant)
    | BeginVisit(t: TxnId, cmd: Visit)
    | BeginEdit(t: TxnId, edit: Edit)
    | Abort(t: TxnId)
    | ClaimReceipt(t: TxnId)
    | ReadTarget(t: TxnId)
    | LockBarber(t: TxnId)
    | ReadClock(t: TxnId)
    | ReadRow(t: TxnId)
    | ReadBefore(t: TxnId)
    | ReadToday(t: TxnId)
    | WriteBooking(t: TxnId, draw: Draw)
    | CommitVisit(t: TxnId)
    | CommitReplay(t: TxnId, draw: Draw)
    | ReadHome(t: TxnId)
    | LockBranch(t: TxnId)
    | LockNextBarber(t: TxnId)
    | ReadEdited(t: TxnId)
    | WriteEdited(t: TxnId)
    | ReadEditClock(t: TxnId)
    | ReadFuture(t: TxnId)
    | CheckFuture(t: TxnId)
    | CommitEdit(t: TxnId)

  // ------------------------------------------------------------ visit commands

  /** The barber row a visit command locks: named, or read off the booking without a lock. */
  function TargetBarber(rows: Rows, cmd: Visit): Option<Id> {
    if cmd.Create? then (if cmd.barber in rows.catalog.barbers then Some(cmd.barber) else None)
    else if cmd.booking in rows.bookings then Some(rows.bookings[cmd.booking].barber)
    else None
  }

  /** What the guards say to the reads made so far. */
  function GateSeen(c: Catalog, v: VisitTxn): Gate
    requires v.seen.Some? && v.now.Some?
  {
    GateOf(c, v.cmd, v.seen.value, v.now.value)
  }

  predicate Consulting(c: Catalog, v: VisitTxn) {
    v.seen.Some? && v.now.Some? && GateSeen(c, v).Consult? && GateSeen(c, v).branch in c.branches
  }

  function VisitDate(c: Catalog, v: VisitTxn): int
    requires Consulting(c, v)
  {
    DateOf(c.branches[GateSeen(c, v).branch].zone.Show(GateSeen(c, v).start))
  }

  /** The shifts of one date, as the two schedule queries return them. */
  function ShiftsRead(rows: Rows, v: VisitTxn, date: int): set<Shift>
    requires Consulting(rows.catalog, v)
  {
    var g := GateSeen(rows.catalog, v);
    ShiftsOn(RosterOf(rows.rules, rows.exceptions, g.branch, g.barber), date)
  }

  /** The schedule's verdict on the shifts the transaction itself has read. */
  function FitSeen(c: Catalog, v: VisitTxn): Fit {
    if Consulting(c, v) && v.before.Some? && v.today.Some? then
      var g := GateSeen(c, v);
      Admits(c.branches[g.branch].zone, VisitDate(c, v), v.before.value, v.today.value, g.start, g.end)
    else Fits
  }

  predicate ReadyToWrite(c: Catalog, v: VisitTxn) {
    && v.seen.Some? && v.now.Some? && v.written.None?
    && (Consulting(c, v) ==> v.before.Some? && v.today.Some?)
  }

  function PlanSeen(c: Catalog, v: VisitTxn, draw: Draw): Plan
    requires v.seen.Some?
  {
    PlanOf(c, v.cmd, v.seen.value, FitSeen(c, v), draw)
  }

  /** Row lock or unique-index entry of the booking, and of the secret's digest. */
  predicate WriteLocksFree(s: Sys, w: BookingWrite) {
    s.Free(BookingLock(w.id)) && (w.token.Some? ==> s.Free(DigestLock(w.token.value.digest)))
  }

  function WithWriteLocks(s: Sys, t: TxnId, w: BookingWrite): Sys {
    var s' := s.Locked(t, BookingLock(w.id));
    if w.token.Some? then s'.Locked(t, DigestLock(w.token.value.digest)) else s'
  }

  /** The write neither raises nor waits. */
  predicate WriteGoesThrough(s: Sys, plan: Plan) {
    match plan
    case Stop(_) => false
    case Return(_, _) => true
    case Write(w) =>
      && WriteLocksFree(s, w)
      && (match VerdictOn(s.rows, w)
          case Accepted => true
          case Broken => false
          case SlotTaken => w.taken.Some? && w.taken.value.Reply?)
  }

  /** Code and response recorded in the receipt, and the buffered rows made visible. */
  function Published(rows: Rows, v: VisitTxn): (Rows, Code, Response)
    requires v.written.Some? && !v.written.value.plan.Stop?
  {
    var wr := v.written.value;
    match wr.plan
    case Return(code, response) => (rows, code, response)
    case Write(w) =>
      if wr.verdict == SlotTaken && w.taken.Some? && w.taken.value.Reply?
        then (rows, w.taken.value.code, w.taken.value.response)
      else (Stored(rows, w), w.code, w.response)
  }

  // --------------------------------------------------------------- catalog edits

  /** Barbers of the branch in the order they are locked. */
  function BarbersOf(c: Catalog, branch: Id): seq<Id> {
    Ascending(set a | a in c.assignments && a.branch == branch :: a.barber)
  }

  predicate AllLocked(c: Catalog, e: EditTxn) {
    e.branch.Some? && e.branch.value in c.branches && e.barbersLocked == |BarbersOf(c, e.branch.value)|
  }

  /** The future bookings already read, against the schedule with the transaction's own write. */
  function FutureVerdict(rows: Rows, e: EditTxn): Option<Failure>
    requires e.now.Some? && e.future.Some?
  {
    if e.buffered.Some? && e.buffered.value.Barber().Some?
       && e.branch.Some? && e.branch.value in rows.catalog.branches then
      var own := Patched(rows, e.edit.id, e.buffered.value);
      FutureFit(rows.catalog.branches[e.branch.value].zone,
                RosterOf(own.rules, own.exceptions, e.branch.value, e.buffered.value.Barber().value),
                e.future.value, e.branch.value, e.now.value)
    else Some(NotFound)
  }

  // ---------------------------------------------------------------------- steps

  predicate EnabledVisit(s: Sys, a: Action, t: TxnId) {
    s.IsVisit(t) &&
    var v := s.txns[t].v;
    match a
    case ClaimReceipt(_) => v.claim.Unclaimed? && s.Free(ReceiptLock(v.cmd.Identity()))
    case ReadTarget(_) => v.claim.Inserted? && v.target.None? && TargetBarber(s.rows, v.cmd).Some?
    case LockBarber(_) => v.barber.None? && v.target.Some? && s.Free(BarberLock(v.target.value))
    case ReadClock(_) => v.barber.Some? && v.now.None?
    case ReadRow(_) => v.barber.Some? && v.seen.None?
    case ReadBefore(_) => Consulting(s.rows.catalog, v) && v.before.None?
    case ReadToday(_) => Consulting(s.rows.catalog, v) && v.today.None?
    case WriteBooking(_, draw) =>
      ReadyToWrite(s.rows.catalog, v) && draw.now == v.now.value
      && WriteGoesThrough(s, PlanSeen(s.rows.catalog, v, draw))
    case CommitVisit(_) => v.written.Some? && !v.written.value.plan.Stop?
    case CommitReplay(_, draw) => v.claim.Found? && draw.now <= s.clock
    case _ => false
  }

  function AfterVisit(s: Sys, a: Action, t: TxnId): Sys
    requires EnabledVisit(s, a, t)
  {
    var v := s.txns[t].v;
    match a
    case ClaimReceipt(_) =>
      var key := v.cmd.Identity();
      var claim := if key in s.rows.receipts then Found(s.rows.receipts[key]) else Inserted;
      s.Locked(t, ReceiptLock(key)).WithVisit(t, v.(claim := claim))
    case ReadTarget(_) => s.WithVisit(t, v.(target := TargetBarber(s.rows, v.cmd)))
    case LockBarber(_) => s.Locked(t, BarberLock(v.target.value)).WithVisit(t, v.(barber := v.target))
    case ReadClock(_) => s.WithVisit(t, v.(now := Some(s.clock)))
    case ReadRow(_) => s.WithVisit(t, v.(seen := Some(SeenIn(s.rows, v.cmd))))
    case ReadBefore(_) =>
      s.WithVisit(t, v.(before := Some(ShiftsRead(s.rows, v, VisitDate(s.rows.catalog, v) - 1))))
    case ReadToday(_) =>
      s.WithVisit(t, v.(today := Some(ShiftsRead(s.rows, v, VisitDate(s.rows.catalog, v)))))
    case WriteBooking(_, draw) =>
      var plan := PlanSeen(s.rows.catalog, v, draw);
      if plan.Write? then
        WithWriteLocks(s, t, plan.write)
          .WithVisit(t, v.(written := Some(Written(plan, VerdictOn(s.rows, plan.write), draw))))
      else s.WithVisit(t, v.(written := Some(Written(plan, Accepted, draw))))
    case CommitVisit(_) =>
      var draw := v.written.value.draw;
      var (rows, code, response) := Published(s.rows, v);
      s.(rows := WithReceipt(rows, v.cmd, code, response, draw.completedAt),
         log := s.log + [Logged(VisitAt(v.cmd, draw), Answered(code, response, false))]).Ended(t)
    case CommitReplay(_, draw) =>
      s.(log := s.log + [Logged(VisitAt(v.cmd, draw),
                              Replay(v.claim.receipt, v.cmd.FingerprintOf(), draw.completedAt))]).Ended(t)
    case _ => s
  }

  predicate EnabledEdit(s: Sys, a: Action, t: TxnId) {
    s.IsEdit(t) &&
    var e := s.txns[t].e;
    match a
    case ReadHome(_) => e.home.None? && EditedBranch(s.rows, e.edit).Some?
    case LockBranch(_) =>
      e.branch.None? && e.home.Some? && e.home.value in s.rows.catalog.branches && s.Free(BranchLock(e.home.value))
    case LockNextBarber(_) =>
      e.branch.Some? && e.barbersLocked < |BarbersOf(s.rows.catalog, e.branch.value)|
      && s.Free(BarberLock(BarbersOf(s.rows.catalog, e.branch.value)[e.barbersLocked]))
    case ReadEdited(_) => AllLocked(s.rows.catalog, e) && e.row.None? && RowOf(s.rows, e.edit).Some?
    case WriteEdited(_) =>
      e.row.Some? && e.buffered.None? && !e.edit.unknownField && Matches(e.edit, e.row.value)
      && RowValid(s.rows, e.edit.id, Changed(e.edit, e.row.value))
    case ReadEditClock(_) => e.buffered.Some? && e.now.None?
    case ReadFuture(_) => e.now.Some? && e.future.None? && e.buffered.Some? && e.buffered.value.Barber().Some?
    case CheckFuture(_) => e.future.Some? && !e.checked && e.now.Some? && FutureVerdict(s.rows, e) == None
    case CommitEdit(_) => e.buffered.Some? && (e.checked || e.edit.EditService?)
    case _ => false
  }

  function AfterEdit(s: Sys, a: Action, t: TxnId): Sys
    requires EnabledEdit(s, a, t)
  {
    var e := s.txns[t].e;
    match a
    case ReadHome(_) => s.WithEdit(t, e.(home := EditedBranch(s.rows, e.edit)))
    case LockBranch(_) =>
      s.Locked(t, BranchLock(e.home.value)).WithEdit(t, e.(branch := e.home))
    case LockNextBarber(_) =>
      s.Locked(t, BarberLock(BarbersOf(s.rows.catalog, e.branch.value)[e.barbersLocked]))
       .WithEdit(t, e.(barbersLocked := e.barbersLocked + 1))
    case ReadEdited(_) => s.WithEdit(t, e.(row := RowOf(s.rows, e.edit)))
    case WriteEdited(_) => s.WithEdit(t, e.(buffered := Some(Changed(e.edit, e.row.value))))
    case ReadEditClock(_) => s.WithEdit(t, e.(now := Some(s.clock)))
    case ReadFuture(_) =>
      s.WithEdit(t, e.(future := Some(BookingsOf(s.rows.bookings, e.buffered.value.Barber().value))))
    case CheckFuture(_) => s.WithEdit(t, e.(checked := true))
    case CommitEdit(_) =>
      s.(rows := Patched(s.rows, e.edit.id, e.buffered.value),
         log := s.log + [Logged(EditAt(e.edit, OrElse(e.now, s.clock)), Edited)]).Ended(t)
    case _ => s
  }

  /** The transaction a step belongs to. */
  function Owner(a: Action): TxnId {
    if a.Tick? then 0 else a.t
  }

  predicate Enabled(s: Sys, a: Action) {
    match a
    case Tick(clock) => s.clock <= clock
    case BeginVisit(t, cmd) => t !in s.txns && cmd.WellFormed()
    case BeginEdit(t, _) => t !in s.txns
    case Abort(t) => t in s.txns
    case _ => EnabledVisit(s, a, Owner(a)) || EnabledEdit(s, a, Owner(a))
  }

  function After(s: Sys, a: Action): Sys {
    match a
    case Tick(clock) => s.(clock := clock)
    case BeginVisit(t, cmd) => s.WithVisit(t, VisitTxn(cmd, Unclaimed, None, None, None, None, None, None, None))
    case BeginEdit(t, edit) => s.WithEdit(t, EditTxn(edit, None, None, 0, None, None, None, None, false))
    case Abort(t) => s.Ended(t)
    case _ =>
      if EnabledVisit(s, a, Owner(a)) then AfterVisit(s, a, Owner(a))
      else if EnabledEdit(s, a, Owner(a)) then AfterEdit(s, a, Owner(a))
      else s
  }

  function Initial(rows: Rows, clock: Instant): Sys {
    Sys(rows, rows, clock, map[], map[], [])
  }

  /** The state after a schedule of steps, if every step was enabled. */
  function Reached(s: Sys, actions: seq<Action>): Option<Sys>
    decreases |actions|
  {
    if actions == [] then Some(s)
    else
      var pre := Reached(s, actions[..|actions| - 1]);
      if pre.Some? && Enabled(pre.value, actions[|actions| - 1])
        then Some(After(pre.value, actions[|actions| - 1])) else None
  }

  function Events(log: seq<Logged>): seq<Event> {
    seq(|log|, i requires 0 <= i < |log| => log[i].event)
  }
}
