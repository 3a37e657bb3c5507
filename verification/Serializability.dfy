/**
 Every schedule of the transactions is serializable in commit order: while a transaction
 holds its locks, what it read stays current, so its commit is one atomic execution.
 */
module Serializability {
  import opened Base
  import opened Calendar
  import opened Schedule
  import opened Model
  import opened Commands
  import opened Invariants
  import opened Transactions
  import Idempotency

  // ------------------------------------------------- what locks keep in place

  function RulesIn(rules: map<Id, Rule>, branch: Id): map<Id, Rule> {
    map id | id in rules && rules[id].branch == branch :: rules[id]
  }

  function ExceptionsIn(exceptions: map<Id, DatedException>, branch: Id): map<Id, DatedException> {
    map id | id in exceptions && exceptions[id].branch == branch :: exceptions[id]
  }

  ghost predicate BarberUntouched(rows: Rows, rows': Rows, barber: Id) {
    && BookingsOf(rows'.bookings, barber) == BookingsOf(rows.bookings, barber)
    && forall branch | rows.catalog.Assigned(branch, barber) ::
         && RosterOf(rows'.rules, rows'.exceptions, branch, barber)
            == RosterOf(rows.rules, rows.exceptions, branch, barber)
         && ServicesOf(rows'.services, branch) == ServicesOf(rows.services, branch)
  }

  ghost predicate BranchUntouched(rows: Rows, rows': Rows, branch: Id) {
    && ServicesOf(rows'.services, branch) == ServicesOf(rows.services, branch)
    && RulesIn(rows'.rules, branch) == RulesIn(rows.rules, branch)
    && ExceptionsIn(rows'.exceptions, branch) == ExceptionsIn(rows.exceptions, branch)
  }

  ghost predicate BookingUntouched(rows: Rows, rows': Rows, id: Id) {
    && (id in rows'.bookings <==> id in rows.bookings) && (id in rows'.tokens <==> id in rows.tokens)
    && (forall v :: AuditKey(id, v) in rows'.audit <==> AuditKey(id, v) in rows.audit)
    && (forall v, ch :: OutboxKey(id, v, ch) in rows'.outbox <==> OutboxKey(id, v, ch) in rows.outbox)
  }

  ghost predicate ReceiptUntouched(rows: Rows, rows': Rows, key: ReceiptKey) {
    && (key in rows'.receipts <==> key in rows.receipts)
    && (key in rows.receipts ==> rows'.receipts[key] == rows.receipts[key])
  }

  /** What is read before any lock: rows stay, and keep their barber and branch for good. */
  ghost predicate PlacesKept(rows: Rows, rows': Rows) {
    && (forall id | id in rows.bookings ::
         id in rows'.bookings && rows'.bookings[id].barber == rows.bookings[id].barber)
    && (forall id | id in rows.rules :: id in rows'.rules && rows'.rules[id].branch == rows.rules[id].branch)
    && (forall id | id in rows.exceptions ::
         id in rows'.exceptions && rows'.exceptions[id].branch == rows.exceptions[id].branch)
    && (forall id | id in rows.services ::
         id in rows'.services && rows'.services[id].branch == rows.services[id].branch)
  }

  /** The change from rows to rows' respects every lock in `held`. */
  ghost predicate Untouched(rows: Rows, rows': Rows, held: set<Lock>) {
    && rows'.catalog == rows.catalog && PlacesKept(rows, rows')
    && (forall b | BarberLock(b) in held :: BarberUntouched(rows, rows', b))
    && (forall br | BranchLock(br) in held :: BranchUntouched(rows, rows', br))
    && (forall id | BookingLock(id) in held :: BookingUntouched(rows, rows', id))
    && (forall d | DigestLock(d) in held :: DigestTaken(rows'.tokens, d) == DigestTaken(rows.tokens, d))
    && (forall k | ReceiptLock(k) in held :: ReceiptUntouched(rows, rows', k))
  }

  // ------------------------------------------------------ transaction invariants

  /** Without any assignment to the branch the guards refuse, whatever service was read. */
  predicate Guarded(c: Catalog, cmd: Visit) {
    cmd.Create? ==> c.Assigned(cmd.branch, cmd.barber)
  }

  ghost predicate ClaimInv(rows: Rows, held: set<Lock>, v: VisitTxn) {
    var key := v.cmd.Identity();
    match v.claim
    case Unclaimed => true
    case Inserted => ReceiptLock(key) in held && key !in rows.receipts
    case Found(r) => ReceiptLock(key) in held && key in rows.receipts && rows.receipts[key] == r
  }

  ghost predicate BarberInv(rows: Rows, held: set<Lock>, v: VisitTxn) {
    && (v.target.Some? ==> v.claim.Inserted? && TargetBarber(rows, v.cmd) == v.target)
    && (v.barber.Some? ==> v.target == v.barber && BarberLock(v.barber.value) in held)
  }

  /** The reads of a transaction are what it would read now. */
  ghost predicate ReadsCurrent(rows: Rows, clock: Instant, v: VisitTxn) {
    && (v.now.Some? ==> v.barber.Some? && v.now.value <= clock)
    && (v.seen.Some? ==> v.barber.Some? && (Guarded(rows.catalog, v.cmd) ==> v.seen.value == SeenIn(rows, v.cmd)))
    && (v.before.Some? ==>
         Consulting(rows.catalog, v) && v.before.value == ShiftsRead(rows, v, VisitDate(rows.catalog, v) - 1))
    && (v.today.Some? ==>
         Consulting(rows.catalog, v) && v.today.value == ShiftsRead(rows, v, VisitDate(rows.catalog, v)))
  }

  ghost predicate WriteInv(rows: Rows, held: set<Lock>, v: VisitTxn) {
    v.written.Some? ==>
      var wr := v.written.value;
      && v.seen.Some? && v.now.Some? && wr.draw.now == v.now.value
      && (Consulting(rows.catalog, v) ==> v.before.Some? && v.today.Some?)
      && wr.plan == PlanSeen(rows.catalog, v, wr.draw) && !wr.plan.Stop?
      && (wr.plan.Write? ==> BufferInv(rows, held, v.barber, wr.plan.write, wr.verdict))
  }

  ghost predicate BufferInv(rows: Rows, held: set<Lock>, barber: Option<Id>, w: BookingWrite, verdict: Verdict) {
    && BookingLock(w.id) in held && (w.token.Some? ==> DigestLock(w.token.value.digest) in held)
    && barber == Some(w.booking.barber)
    && verdict == VerdictOn(rows, w) && verdict != Broken
    && (verdict == SlotTaken ==> w.taken.Some? && w.taken.value.Reply?)
  }

  ghost predicate VisitInv(rows: Rows, clock: Instant, held: set<Lock>, v: VisitTxn) {
    && v.cmd.WellFormed()
    && ClaimInv(rows, held, v) && BarberInv(rows, held, v)
    && ReadsCurrent(rows, clock, v) && WriteInv(rows, held, v)
  }

  ghost predicate EditLocks(rows: Rows, held: set<Lock>, e: EditTxn) {
    && (e.home.Some? ==> EditedBranch(rows, e.edit) == e.home)
    && (e.branch.Some? ==>
         e.home == e.branch && BranchLock(e.branch.value) in held && e.branch.value in rows.catalog.branches)
    && (e.branch.None? ==> e.barbersLocked == 0)
    && (e.branch.Some? ==>
         && e.barbersLocked <= |BarbersOf(rows.catalog, e.branch.value)|
         && forall i | 0 <= i < e.barbersLocked :: BarberLock(BarbersOf(rows.catalog, e.branch.value)[i]) in held)
  }

  ghost predicate EditReads(rows: Rows, clock: Instant, e: EditTxn) {
    && (e.row.Some? ==> AllLocked(rows.catalog, e) && RowOf(rows, e.edit) == e.row && Matches(e.edit, e.row.value))
    && (e.buffered.Some? ==>
         && e.row.Some? && !e.edit.unknownField
         && e.buffered.value == Changed(e.edit, e.row.value)
         && RowValid(rows, e.edit.id, e.buffered.value))
    && (e.now.Some? ==> e.now.value <= clock)
    && (e.future.Some? ==>
         && e.now.Some? && e.buffered.Some? && e.buffered.value.Barber().Some?
         && e.future.value == BookingsOf(rows.bookings, e.buffered.value.Barber().value))
    && (e.checked ==> e.future.Some? && FutureVerdict(rows, e) == None)
  }

  ghost predicate TxnInv(rows: Rows, clock: Instant, held: set<Lock>, txn: Txn) {
    match txn
    case Visiting(v) => VisitInv(rows, clock, held, v)
    case Editing(e) => EditLocks(rows, held, e) && EditReads(rows, clock, e)
  }

  // ------------------------------------------------- foreign commits are harmless

  /** A visit's lookups live in the slice its barber's lock keeps in place. */
  lemma SeenUntouched(rows: Rows, rows': Rows, cmd: Visit, barber: Id)
    requires rows'.catalog == rows.catalog && BarberUntouched(rows, rows', barber)
    requires TargetBarber(rows, cmd) == Some(barber)
    ensures Guarded(rows.catalog, cmd) ==> SeenIn(rows', cmd) == SeenIn(rows, cmd)
  {
    if !cmd.Create? {
      assert cmd.booking in BookingsOf(rows.bookings, barber);
      assert cmd.booking in BookingsOf(rows'.bookings, barber);
      assert rows'.bookings[cmd.booking] == BookingsOf(rows'.bookings, barber)[cmd.booking];
    }
  }

  /** A command that consults the schedule does so for its locked barber, assigned to the branch. */
  lemma ConsultsOwnBarber(rows: Rows, clock: Instant, held: set<Lock>, v: VisitTxn)
    requires TablesValid(rows) && BarberInv(rows, held, v) && Consulting(rows.catalog, v)
    requires v.barber.Some? && (Guarded(rows.catalog, v.cmd) ==> v.seen.value == SeenIn(rows, v.cmd))
    ensures var g := GateSeen(rows.catalog, v);
            Some(g.barber) == v.barber && rows.catalog.Assigned(g.branch, g.barber)
  {
    hide MayStart;
    if v.cmd.Create? {
      assert Assignment(v.cmd.branch, v.cmd.barber, v.cmd.service) in rows.catalog.assignments;
    }
  }

  lemma VerdictUntouched(rows: Rows, rows': Rows, held: set<Lock>, barber: Id, w: BookingWrite)
    requires Untouched(rows, rows', held) && BarberLock(barber) in held && w.booking.barber == barber
    requires BookingLock(w.id) in held && (w.token.Some? ==> DigestLock(w.token.value.digest) in held)
    ensures VerdictOn(rows', w) == VerdictOn(rows, w)
  {
    hide Excluded, BookingChecks, DigestTaken;
    assert BarberUntouched(rows, rows', barber) && BookingUntouched(rows, rows', w.id);
  }

  lemma VisitStable(rows: Rows, rows': Rows, clock: Instant, held: set<Lock>, v: VisitTxn)
    requires TablesValid(rows) && VisitInv(rows, clock, held, v) && Untouched(rows, rows', held)
    ensures VisitInv(rows', clock, held, v)
  {
    hide VerdictOn, PlanOf, GateOf, SeenIn, ShiftsOn, Admits, RosterOf, BookingsOf, DigestTaken, ServicesOf;
    if v.claim != Unclaimed { assert ReceiptUntouched(rows, rows', v.cmd.Identity()); }
    if v.target.Some? { assert TargetBarber(rows', v.cmd) == v.target; }
    if v.barber.Some? {
      SeenUntouched(rows, rows', v.cmd, v.barber.value);
      if Consulting(rows.catalog, v) {
        ConsultsOwnBarber(rows, clock, held, v);
      }
      if v.written.Some? && v.written.value.plan.Write? {
        VerdictUntouched(rows, rows', held, v.barber.value, v.written.value.plan.write);
      }
    }
  }

  /** Rows of a branch as the edited row's own checks see them. */
  lemma RosterFromBranch(rows: Rows, rows': Rows, branch: Id, barber: Id)
    requires BranchUntouched(rows, rows', branch)
    ensures RosterOf(rows'.rules, rows'.exceptions, branch, barber)
            == RosterOf(rows.rules, rows.exceptions, branch, barber)
    ensures ServicesOf(rows'.services, branch) == ServicesOf(rows.services, branch)
  {
    var a, b := RosterOf(rows.rules, rows.exceptions, branch, barber),
                RosterOf(rows'.rules, rows'.exceptions, branch, barber);
    forall id
      ensures id in a.rules <==> id in b.rules
      ensures id in a.rules ==> a.rules[id] == b.rules[id]
      ensures id in a.exceptions <==> id in b.exceptions
      ensures id in a.exceptions ==> a.exceptions[id] == b.exceptions[id]
    {
      assert id in RulesIn(rows.rules, branch) <==> id in RulesIn(rows'.rules, branch);
      assert id in ExceptionsIn(rows.exceptions, branch) <==> id in ExceptionsIn(rows'.exceptions, branch);
      if id in RulesIn(rows.rules, branch) {
        assert RulesIn(rows.rules, branch)[id] == RulesIn(rows'.rules, branch)[id];
      }
      if id in ExceptionsIn(rows.exceptions, branch) {
        assert ExceptionsIn(rows.exceptions, branch)[id] == ExceptionsIn(rows'.exceptions, branch)[id];
      }
    }
    assert a.rules == b.rules && a.exceptions == b.exceptions;
  }

  lemma RowUntouched(rows: Rows, rows': Rows, e: Edit, branch: Id)
    requires BranchUntouched(rows, rows', branch) && EditedBranch(rows, e) == Some(branch)
    ensures RowOf(rows', e) == RowOf(rows, e) && EditedBranch(rows', e) == Some(branch)
  {
    match e
    case EditRule(id, _, _) => assert id in RulesIn(rows.rules, branch) && id in RulesIn(rows'.rules, branch);
      assert RulesIn(rows'.rules, branch)[id] == RulesIn(rows.rules, branch)[id];
    case EditException(id, _, _) =>
      assert id in ExceptionsIn(rows.exceptions, branch) && id in ExceptionsIn(rows'.exceptions, branch);
      assert ExceptionsIn(rows'.exceptions, branch)[id] == ExceptionsIn(rows.exceptions, branch)[id];
    case EditService(id, _, _) =>
      assert id in ServicesOf(rows.services, branch) && id in ServicesOf(rows'.services, branch);
      assert ServicesOf(rows'.services, branch)[id] == ServicesOf(rows.services, branch)[id];
  }

  lemma ValidUntouched(rows: Rows, rows': Rows, id: Id, row: CatalogRow)
    requires rows'.catalog == rows.catalog && BranchUntouched(rows, rows', row.Branch())
    ensures RowValid(rows', id, row) == RowValid(rows, id, row)
  {
    hide RuleValid, ExceptionValid, ServiceValid;
    if row.Barber().Some? { RosterFromBranch(rows, rows', row.Branch(), row.Barber().value); }
  }

  /** A roster with one of its rows overwritten depends on that roster alone. */
  lemma PatchedRoster(rows: Rows, rows': Rows, id: Id, row: CatalogRow)
    requires row.Barber().Some?
    requires RosterOf(rows'.rules, rows'.exceptions, row.Branch(), row.Barber().value)
             == RosterOf(rows.rules, rows.exceptions, row.Branch(), row.Barber().value)
    ensures var p, p' := Patched(rows, id, row), Patched(rows', id, row);
            RosterOf(p'.rules, p'.exceptions, row.Branch(), row.Barber().value)
            == RosterOf(p.rules, p.exceptions, row.Branch(), row.Barber().value)
  {
    if row.RuleRow? {
      PatchedRule(rows.rules, rows.exceptions, id, row.rule);
      PatchedRule(rows'.rules, rows'.exceptions, id, row.rule);
    } else {
      PatchedException(rows.rules, rows.exceptions, id, row.exception);
      PatchedException(rows'.rules, rows'.exceptions, id, row.exception);
    }
    hide RosterOf;
  }

  lemma PatchedRule(rules: map<Id, Rule>, exceptions: map<Id, DatedException>, id: Id, r: Rule)
    ensures var before := RosterOf(rules, exceptions, r.branch, r.barber);
            RosterOf(rules[id := r], exceptions, r.branch, r.barber) == before.(rules := before.rules[id := r])
  {
    var before, after := RosterOf(rules, exceptions, r.branch, r.barber),
                         RosterOf(rules[id := r], exceptions, r.branch, r.barber);
    assert after.rules == before.rules[id := r];
  }

  lemma PatchedException(rules: map<Id, Rule>, exceptions: map<Id, DatedException>, id: Id, x: DatedException)
    ensures var before := RosterOf(rules, exceptions, x.branch, x.barber);
            RosterOf(rules, exceptions[id := x], x.branch, x.barber)
            == before.(exceptions := before.exceptions[id := x])
  {
    var before, after := RosterOf(rules, exceptions, x.branch, x.barber),
                         RosterOf(rules, exceptions[id := x], x.branch, x.barber);
    assert after.exceptions == before.exceptions[id := x];
  }

  /** Validation only passes for an assigned barber, whose lock the edit therefore holds. */
  lemma EditHoldsItsBarber(rows: Rows, held: set<Lock>, e: EditTxn)
    requires EditLocks(rows, held, e) && AllLocked(rows.catalog, e)
    requires e.buffered.Some? && e.buffered.value.Barber().Some?
    requires e.buffered.value.Branch() == e.branch.value && RowValid(rows, e.edit.id, e.buffered.value)
    ensures BarberLock(e.buffered.value.Barber().value) in held
  {
    LocksEveryAssigned(rows.catalog, held, e, e.buffered.value.Barber().value);
  }

  lemma LocksEveryAssigned(c: Catalog, held: set<Lock>, e: EditTxn, barber: Id)
    requires AllLocked(c, e) && c.Assigned(e.branch.value, barber)
    requires forall i | 0 <= i < e.barbersLocked :: BarberLock(BarbersOf(c, e.branch.value)[i]) in held
    ensures BarberLock(barber) in held
  {
    var a :| a in c.assignments && a.branch == e.branch.value && a.barber == barber;
    assert barber in (set x | x in c.assignments && x.branch == e.branch.value :: x.barber);
    assert barber in BarbersOf(c, e.branch.value);
    var i :| 0 <= i < |BarbersOf(c, e.branch.value)| && BarbersOf(c, e.branch.value)[i] == barber;
  }

  lemma ChangedKeepsPlace(e: Edit, row: CatalogRow)
    requires Matches(e, row)
    ensures Changed(e, row).Branch() == row.Branch() && Changed(e, row).Barber() == row.Barber()
  {
  }

  lemma EditStable(rows: Rows, rows': Rows, clock: Instant, held: set<Lock>, e: EditTxn)
    requires EditLocks(rows, held, e) && EditReads(rows, clock, e) && Untouched(rows, rows', held)
    ensures EditLocks(rows', held, e) && EditReads(rows', clock, e)
  {
    if e.home.Some? { BranchStays(rows, rows', e.edit); }
    hide RosterOf, BookingsOf, ServicesOf, RowValid, FutureVerdict, RowOf, Patched, Changed, PlacesKept;
    if e.branch.Some? {
      var branch := e.branch.value;
      assert BranchUntouched(rows, rows', branch);
      RowUntouched(rows, rows', e.edit, branch);
      if e.buffered.Some? {
        ChangedKeepsPlace(e.edit, e.row.value);
        ValidUntouched(rows, rows', e.edit.id, e.buffered.value);
        if e.future.Some? {
          EditHoldsItsBarber(rows, held, e);
          assert BarberUntouched(rows, rows', e.buffered.value.Barber().value);
          FutureUntouched(rows, rows', e);
        }
      }
    }
  }

  lemma BranchStays(rows: Rows, rows': Rows, e: Edit)
    requires PlacesKept(rows, rows') && EditedBranch(rows, e).Some?
    ensures EditedBranch(rows', e) == EditedBranch(rows, e)
  {
  }

  lemma FutureUntouched(rows: Rows, rows': Rows, e: EditTxn)
    requires rows'.catalog == rows.catalog && e.branch.Some? && BranchUntouched(rows, rows', e.branch.value)
    requires e.buffered.Some? && e.buffered.value.Barber().Some? && e.now.Some? && e.future.Some?
    requires e.buffered.value.Branch() == e.branch.value
    ensures FutureVerdict(rows', e) == FutureVerdict(rows, e)
  {
    hide FutureFit;
    RosterFromBranch(rows, rows', e.branch.value, e.buffered.value.Barber().value);
    PatchedRoster(rows, rows', e.edit.id, e.buffered.value);
    hide RosterOf, Patched;
  }

  lemma PatchedElsewhere(rows: Rows, id: Id, row: CatalogRow)
    ensures var p := Patched(rows, id, row);
            p == rows.(services := p.services, rules := p.rules, exceptions := p.exceptions)
  {
  }

  // ------------------------------------------------------- what a commit touches

  /** A stored write stays within its own locks. */
  lemma StoredRespectsLocks(rows: Rows, w: BookingWrite, mine: set<Lock>, held: set<Lock>)
    requires BarberLock(w.booking.barber) in mine && BookingLock(w.id) in mine
    requires w.token.Some? ==> DigestLock(w.token.value.digest) in mine
    requires w.id in rows.bookings ==> rows.bookings[w.id].barber == w.booking.barber
    requires w.token.Some? ==> w.id !in rows.tokens
    requires mine !! held
    ensures Untouched(rows, Stored(rows, w), held)
  {
    var rows' := Stored(rows, w);
    forall b | BarberLock(b) in held
      ensures BarberUntouched(rows, rows', b)
    {
      assert b != w.booking.barber;
      assert BookingsOf(rows'.bookings, b) == BookingsOf(rows.bookings, b);
    }
    forall id | BookingLock(id) in held
      ensures BookingUntouched(rows, rows', id)
    {
      assert id != w.id;
    }
    forall d | DigestLock(d) in held
      ensures DigestTaken(rows'.tokens, d) == DigestTaken(rows.tokens, d)
    {
      if DigestTaken(rows.tokens, d) {
        var id :| id in rows.tokens && rows.tokens[id].digest == d;
        assert id in rows'.tokens && rows'.tokens[id].digest == d;
      }
    }
  }

  /** An edit stays within its branch lock and the locks of the branch's barbers. */
  lemma PatchRespectsLocks(rows: Rows, e: EditTxn, mine: set<Lock>, held: set<Lock>)
    requires EditLocks(rows, mine, e) && AllLocked(rows.catalog, e) && mine !! held
    requires e.buffered.Some? && e.row.Some? && RowOf(rows, e.edit) == e.row && Matches(e.edit, e.row.value)
    requires e.buffered.value == Changed(e.edit, e.row.value)
    ensures Untouched(rows, Patched(rows, e.edit.id, e.buffered.value), held)
  {
    var rows' := Patched(rows, e.edit.id, e.buffered.value);
    ChangedKeepsPlace(e.edit, e.row.value);
    forall br: Id | br != e.branch.value
      ensures BranchUntouched(rows, rows', br)
    {
      OtherBranch(rows, e.edit, e.row.value, e.buffered.value, br);
    }
    PatchFrame(rows, e.edit, e.row.value, e.buffered.value);
    hide Patched, BranchUntouched, BarberUntouched, PlacesKept, RowOf, Changed, BarbersOf;
    forall b | BarberLock(b) in held
      ensures BarberUntouched(rows, rows', b)
    {
      PatchSparesBarber(rows, rows', e, mine, held, b);
    }
  }

  /** A patch changes one catalog row, which stays in its place. */
  lemma PatchFrame(rows: Rows, e: Edit, row: CatalogRow, row': CatalogRow)
    requires RowOf(rows, e) == Some(row) && Matches(e, row) && row' == Changed(e, row)
    ensures var rows' := Patched(rows, e.id, row');
            && rows' == rows.(rules := rows'.rules, exceptions := rows'.exceptions, services := rows'.services)
            && PlacesKept(rows, rows')
  {
    ChangedKeepsPlace(e, row);
  }

  lemma PatchSparesBarber(rows: Rows, rows': Rows, e: EditTxn, mine: set<Lock>, held: set<Lock>, b: Id)
    requires EditLocks(rows, mine, e) && AllLocked(rows.catalog, e) && mine !! held && BarberLock(b) in held
    requires rows'.bookings == rows.bookings && forall br: Id | br != e.branch.value :: BranchUntouched(rows, rows', br)
    ensures BarberUntouched(rows, rows', b)
  {
    hide BranchUntouched, RosterOf, ServicesOf, BookingsOf, BarbersOf;
    forall br | rows.catalog.Assigned(br, b)
      ensures RosterOf(rows'.rules, rows'.exceptions, br, b) == RosterOf(rows.rules, rows.exceptions, br, b)
      ensures ServicesOf(rows'.services, br) == ServicesOf(rows.services, br)
    {
      if br == e.branch.value {
        LocksEveryAssigned(rows.catalog, mine, e, b);
        assert false;
      }
      RosterFromBranch(rows, rows', br, b);
    }
  }

  lemma OtherBranch(rows: Rows, e: Edit, row: CatalogRow, row': CatalogRow, branch: Id)
    requires RowOf(rows, e) == Some(row) && Matches(e, row) && row' == Changed(e, row)
    requires row.Branch() != branch
    ensures BranchUntouched(rows, Patched(rows, e.id, row'), branch)
  {
    var rows' := Patched(rows, e.id, row');
    ChangedKeepsPlace(e, row);
    assert ServicesOf(rows'.services, branch) == ServicesOf(rows.services, branch);
    assert RulesIn(rows'.rules, branch) == RulesIn(rows.rules, branch);
    assert ExceptionsIn(rows'.exceptions, branch) == ExceptionsIn(rows.exceptions, branch);
  }

  // --------------------------------------------------------- the system invariant

  /** The log replays to the committed rows, answer by answer. */
  ghost predicate LogSerial(s: Sys) {
    && Run(s.start, Events(s.log)) == s.rows
    && (forall i: nat | i < |s.log| :: s.log[i].answer == Idempotency.AnswerAt(s.start, Events(s.log), i))
    && (forall i | 0 <= i < |s.log| :: Admissible(s.log[i].event, s.clock))
  }

  ghost predicate SysInv(s: Sys) {
    && Inv(s.rows, s.clock)
    && (forall t | t in s.txns :: TxnInv(s.rows, s.clock, HeldBy(s.locks, t), s.txns[t]))
    && (forall l | l in s.locks :: s.locks[l] in s.txns)
    && LogSerial(s)
  }

  /** A step that changes its own transaction and takes free locks, but commits nothing. */
  lemma LocalStep(s: Sys, s': Sys, t: TxnId, txn: Txn)
    requires SysInv(s) && s' == s.(locks := s'.locks, txns := s.txns[t := txn])
    requires forall l | l in s.locks :: l in s'.locks && s'.locks[l] == s.locks[l]
    requires forall l | l in s'.locks && l !in s.locks :: s'.locks[l] == t
    requires TxnInv(s.rows, s.clock, HeldBy(s'.locks, t), txn)
    ensures SysInv(s')
  {
    hide TxnInv, Inv, Run, Idempotency.AnswerAt;
    forall u | u in s'.txns
      ensures TxnInv(s'.rows, s'.clock, HeldBy(s'.locks, u), s'.txns[u])
    {
      if u != t { assert HeldBy(s'.locks, u) == HeldBy(s.locks, u); }
    }
  }

  lemma HeldGrows(locks: map<Lock, TxnId>, t: TxnId, l: Lock)
    requires l !in locks
    ensures HeldBy(locks[l := t], t) == HeldBy(locks, t) + {l}
  {
  }

  // ---------------------------------------------------------------- visit steps

  lemma ClaimKeeps(s: Sys, t: TxnId)
    requires SysInv(s) && EnabledVisit(s, ClaimReceipt(t), t)
    ensures SysInv(AfterVisit(s, ClaimReceipt(t), t))
  {
    hide Inv, LogSerial, SeenIn, GateOf;
    var s' := AfterVisit(s, ClaimReceipt(t), t);
    var v := s.txns[t].v;
    HeldGrows(s.locks, t, ReceiptLock(v.cmd.Identity()));
    assert VisitInv(s.rows, s.clock, HeldBy(s.locks, t), v);
    LocalStep(s, s', t, s'.txns[t]);
  }

  lemma LockBarberKeeps(s: Sys, t: TxnId)
    requires SysInv(s) && EnabledVisit(s, LockBarber(t), t)
    ensures SysInv(AfterVisit(s, LockBarber(t), t))
  {
    hide Inv, LogSerial, SeenIn, GateOf;
    var s' := AfterVisit(s, LockBarber(t), t);
    var v := s.txns[t].v;
    HeldGrows(s.locks, t, BarberLock(v.target.value));
    assert VisitInv(s.rows, s.clock, HeldBy(s.locks, t), v);
    LocalStep(s, s', t, s'.txns[t]);
  }

  lemma VisitOf(s: Sys, t: TxnId)
    requires SysInv(s) && s.IsVisit(t)
    ensures VisitInv(s.rows, s.clock, HeldBy(s.locks, t), s.txns[t].v)
  {
    assert TxnInv(s.rows, s.clock, HeldBy(s.locks, t), s.txns[t]);
    hide VisitInv, Inv, LogSerial;
  }

  lemma ReadKeeps(s: Sys, a: Action, t: TxnId)
    requires a.ReadTarget? || a.ReadClock? || a.ReadRow? || a.ReadBefore? || a.ReadToday?
    requires SysInv(s) && EnabledVisit(s, a, t)
    ensures SysInv(AfterVisit(s, a, t))
  {
    assert s.IsVisit(t);
    VisitOf(s, t);
    ReadIsCurrent(s, a, t);
    hide SysInv, VisitInv, EnabledVisit, AfterVisit;
    var s' := AfterVisit(s, a, t);
    LocalStep(s, s', t, s'.txns[t]);
  }

  lemma ReadIsCurrent(s: Sys, a: Action, t: TxnId)
    requires a.ReadTarget? || a.ReadClock? || a.ReadRow? || a.ReadBefore? || a.ReadToday?
    requires EnabledVisit(s, a, t) && VisitInv(s.rows, s.clock, HeldBy(s.locks, t), s.txns[t].v)
    ensures var s' := AfterVisit(s, a, t);
            && s'.IsVisit(t) && s' == s.WithVisit(t, s'.txns[t].v)
            && VisitInv(s.rows, s.clock, HeldBy(s.locks, t), s'.txns[t].v)
  {
    hide SeenIn, GateOf, PlanOf, ShiftsOn, VerdictOn;
  }

  lemma WritesOwnBarber(rows: Rows, clock: Instant, held: set<Lock>, v: VisitTxn, draw: Draw)
    requires VisitInv(rows, clock, held, v) && v.seen.Some? && PlanSeen(rows.catalog, v, draw).Write?
    ensures v.barber == Some(PlanSeen(rows.catalog, v, draw).write.booking.barber)
    ensures var w := PlanSeen(rows.catalog, v, draw).write;
            !w.isInsert ==> w.id in rows.bookings && rows.bookings[w.id].barber == w.booking.barber
  {
    hide FitSeen, MayStart;
  }

  lemma WriteKeeps(s: Sys, t: TxnId, draw: Draw)
    requires SysInv(s) && EnabledVisit(s, WriteBooking(t, draw), t)
    ensures SysInv(AfterVisit(s, WriteBooking(t, draw), t))
  {
    assert s.IsVisit(t);
    VisitOf(s, t);
    var v := s.txns[t].v;
    if PlanSeen(s.rows.catalog, v, draw).Write? { WritesOwnBarber(s.rows, s.clock, HeldBy(s.locks, t), v, draw); }
    WrittenInv(s, t, draw);
    WriteIsLocal(s, t, draw);
    hide SysInv, VisitInv, EnabledVisit, AfterVisit;
    var s' := AfterVisit(s, WriteBooking(t, draw), t);
    LocalStep(s, s', t, s'.txns[t]);
  }

  lemma WriteLocksHeld(s: Sys, t: TxnId, w: BookingWrite)
    requires WriteLocksFree(s, w)
    ensures var held := HeldBy(WithWriteLocks(s, t, w).locks, t);
            && HeldBy(s.locks, t) <= held && BookingLock(w.id) in held
            && (w.token.Some? ==> DigestLock(w.token.value.digest) in held)
  {
  }

  lemma WriteIsLocal(s: Sys, t: TxnId, draw: Draw)
    requires EnabledVisit(s, WriteBooking(t, draw), t)
    ensures var s' := AfterVisit(s, WriteBooking(t, draw), t);
            && s'.IsVisit(t) && s' == s.(locks := s'.locks, txns := s.txns[t := s'.txns[t]])
            && (forall l | l in s.locks :: l in s'.locks && s'.locks[l] == s.locks[l])
            && (forall l | l in s'.locks && l !in s.locks :: s'.locks[l] == t)
  {
    hide PlanSeen, VerdictOn, Consulting;
  }

  lemma WrittenInv(s: Sys, t: TxnId, draw: Draw)
    requires EnabledVisit(s, WriteBooking(t, draw), t) && VisitInv(s.rows, s.clock, HeldBy(s.locks, t), s.txns[t].v)
    requires var plan := PlanSeen(s.rows.catalog, s.txns[t].v, draw);
             plan.Write? ==> s.txns[t].v.barber == Some(plan.write.booking.barber)
    ensures var s' := AfterVisit(s, WriteBooking(t, draw), t);
            s'.IsVisit(t) && VisitInv(s.rows, s.clock, HeldBy(s'.locks, t), s'.txns[t].v)
  {
    hide SeenIn, GateOf, PlanOf, ShiftsOn, VerdictOn, ClaimInv, BarberInv, ReadsCurrent;
    var s' := AfterVisit(s, WriteBooking(t, draw), t);
    var v, v' := s.txns[t].v, s'.txns[t].v;
    if v'.written.value.plan.Write? { WriteLocksHeld(s, t, v'.written.value.plan.write); }
    ReadsOutliveWrite(s.rows, s.clock, HeldBy(s.locks, t), HeldBy(s'.locks, t), v, v');
  }

  lemma ReadsOutliveWrite(rows: Rows, clock: Instant, held: set<Lock>, held': set<Lock>, v: VisitTxn, v': VisitTxn)
    requires ClaimInv(rows, held, v) && BarberInv(rows, held, v) && ReadsCurrent(rows, clock, v)
    requires v' == v.(written := v'.written) && held <= held'
    ensures ClaimInv(rows, held', v') && BarberInv(rows, held', v') && ReadsCurrent(rows, clock, v')
  {
    hide SeenIn, GateOf, PlanOf, ShiftsOn, VerdictOn;
  }

  lemma PlanNeedsGuard(c: Catalog, v: VisitTxn, draw: Draw)
    requires v.seen.Some? && !PlanSeen(c, v, draw).Stop?
    ensures Guarded(c, v.cmd)
  {
    hide MayStart, FitSeen, InsertOf, UpdateOf;
    if v.cmd.Create? {
      assert Assignment(v.cmd.branch, v.cmd.barber, v.cmd.service) in c.assignments;
    }
  }

  /** The verdict on what was read is the verdict on the rows as they are. */
  lemma FitIsCurrent(rows: Rows, clock: Instant, v: VisitTxn)
    requires ReadsCurrent(rows, clock, v) && v.seen.Some? && v.now.Some?
    requires Consulting(rows.catalog, v) ==> v.before.Some? && v.today.Some?
    ensures FitSeen(rows.catalog, v) == FitIn(rows, GateSeen(rows.catalog, v))
  {
    hide GateOf, Admits, ShiftsOn, SeenIn;
  }

  /** Committing publishes exactly what one atomic execution would, with the same answer. */
  lemma CommitIsAtomic(rows: Rows, clock: Instant, held: set<Lock>, v: VisitTxn)
    requires VisitInv(rows, clock, held, v) && v.written.Some?
    ensures var (rows', code, response) := Published(rows, v); var draw := v.written.value.draw;
            Execute(rows, v.cmd, draw)
            == (WithReceipt(rows', v.cmd, code, response, draw.completedAt), Answered(code, response, false))
    ensures v.claim.Inserted?
  {
    var draw := v.written.value.draw;
    PlanNeedsGuard(rows.catalog, v, draw);
    FitIsCurrent(rows, clock, v);
    hide GateOf, PlanOf, FitIn, VerdictOn, SeenIn, FitSeen;
    assert PlanIn(rows, v.cmd, draw) == v.written.value.plan;
    assert Effect(rows, v.cmd, draw) == Finish(rows, v.written.value.plan);
  }

  /** Publishing respects the locks of every other transaction. */
  lemma PublishedRespectsLocks(rows: Rows, clock: Instant, mine: set<Lock>, v: VisitTxn, held: set<Lock>)
    requires VisitInv(rows, clock, mine, v) && v.written.Some? && mine !! held
    ensures var (rows', code, response) := Published(rows, v);
            Untouched(rows, WithReceipt(rows', v.cmd, code, response, v.written.value.draw.completedAt), held)
  {
    var (rows', code, response) := Published(rows, v);
    BufferRespectsLocks(rows, clock, mine, v, held);
    CommitIsAtomic(rows, clock, mine, v);
    assert ReceiptLock(v.cmd.Identity()) in mine by { hide BarberInv, ReadsCurrent, WriteInv; }
    hide VisitInv, Published, Untouched;
    ReceiptRespectsLocks(rows, rows', v.cmd, code, response, v.written.value.draw.completedAt, held);
  }

  lemma BufferRespectsLocks(rows: Rows, clock: Instant, mine: set<Lock>, v: VisitTxn, held: set<Lock>)
    requires VisitInv(rows, clock, mine, v) && v.written.Some? && mine !! held
    ensures Untouched(rows, Published(rows, v).0, held) && Published(rows, v).0.receipts == rows.receipts
  {
    var wr := v.written.value;
    CommitIsAtomic(rows, clock, mine, v);
    if wr.plan.Write? && wr.verdict == Accepted {
      WritesOwnBarber(rows, clock, mine, v, wr.draw);
      hide GateOf, PlanOf, SeenIn, FitSeen, Excluded, BookingsOf, Untouched;
      StoredRespectsLocks(rows, wr.plan.write, mine, held);
    } else {
      hide GateOf, PlanOf, SeenIn, FitSeen, VerdictOn, Stored;
      assert Published(rows, v).0 == rows;
      NothingTouched(rows, held);
    }
  }

  lemma ReceiptRespectsLocks(rows: Rows, rows': Rows, cmd: Visit, code: Code, response: Response, at: Instant,
        held: set<Lock>)
    requires Untouched(rows, rows', held) && rows'.receipts == rows.receipts
    requires ReceiptLock(cmd.Identity()) !in held
    ensures Untouched(rows, WithReceipt(rows', cmd, code, response, at), held)
  {
    hide RosterOf, ServicesOf, BookingsOf, DigestTaken;
    var rows'' := WithReceipt(rows', cmd, code, response, at);
    forall b | BarberLock(b) in held
      ensures BarberUntouched(rows, rows'', b)
    {
      assert BarberUntouched(rows, rows', b);
    }
    forall br | BranchLock(br) in held
      ensures BranchUntouched(rows, rows'', br)
    {
      assert BranchUntouched(rows, rows', br);
    }
    forall id | BookingLock(id) in held
      ensures BookingUntouched(rows, rows'', id)
    {
      assert BookingUntouched(rows, rows', id);
    }
    forall k | ReceiptLock(k) in held
      ensures ReceiptUntouched(rows, rows'', k)
    {
      assert ReceiptUntouched(rows, rows', k);
    }
  }

  // -------------------------------------------------------------------- commits

  lemma LogGrows(s: Sys, s': Sys, e: Event, a: Answer)
    requires LogSerial(s) && s'.start == s.start && s'.clock == s.clock && s'.log == s.log + [Logged(e, a)]
    requires Step(s.rows, e) == (s'.rows, a) && Admissible(e, s.clock)
    ensures LogSerial(s')
  {
    hide Step;
    var n := |s.log|;
    var events, events' := Events(s.log), Events(s'.log);
    assert events' == events + [e];
    assert events'[..n] == events;
    forall i: nat | i < |s'.log|
      ensures s'.log[i].answer == Idempotency.AnswerAt(s'.start, events', i)
    {
      assert events'[..i] == events[..i];
      if i < n { assert s.log[i].answer == Idempotency.AnswerAt(s.start, events, i); }
    }
  }

  /** The committing transaction ends; the others find their locked rows untouched. */
  lemma CommitStep(s: Sys, s': Sys, t: TxnId, e: Event, a: Answer)
    requires SysInv(s) && t in s.txns && Admissible(e, s.clock)
    requires Step(s.rows, e) == (s'.rows, a)
    requires s' == s.(rows := s'.rows, log := s.log + [Logged(e, a)]).Ended(t)
    requires forall u | u in s.txns && u != t :: Untouched(s.rows, s'.rows, HeldBy(s.locks, u))
    ensures SysInv(s')
  {
    StepKeeps(s.rows, e, s.clock);
    hide Inv, Step;
    LogGrows(s, s', e, a);
    hide LogSerial, Untouched, TxnInv;
    EndedKeepsOthers(s, s', t);
  }

  lemma EndedKeepsOthers(s: Sys, s': Sys, t: TxnId)
    requires TablesValid(s.rows) && s'.clock == s.clock
    requires forall u | u in s.txns && u != t ::
               TxnInv(s.rows, s.clock, HeldBy(s.locks, u), s.txns[u]) && Untouched(s.rows, s'.rows, HeldBy(s.locks, u))
    requires s'.txns == s.Ended(t).txns && s'.locks == s.Ended(t).locks
    requires forall l | l in s.locks :: s.locks[l] in s.txns
    ensures forall u | u in s'.txns :: TxnInv(s'.rows, s'.clock, HeldBy(s'.locks, u), s'.txns[u])
    ensures forall l | l in s'.locks :: s'.locks[l] in s'.txns
  {
    hide Untouched, TablesValid;
    forall u | u in s'.txns
      ensures TxnInv(s'.rows, s'.clock, HeldBy(s'.locks, u), s'.txns[u])
    {
      assert HeldBy(s'.locks, u) == HeldBy(s.locks, u);
      TxnStable(s.rows, s'.rows, s.clock, HeldBy(s.locks, u), s.txns[u]);
    }
  }

  lemma TxnStable(rows: Rows, rows': Rows, clock: Instant, held: set<Lock>, txn: Txn)
    requires TablesValid(rows) && TxnInv(rows, clock, held, txn) && Untouched(rows, rows', held)
    ensures TxnInv(rows', clock, held, txn)
  {
    match txn
    case Visiting(v) => VisitStable(rows, rows', clock, held, v);
    case Editing(e) => EditStable(rows, rows', clock, held, e);
  }

  lemma LocksDisjoint(locks: map<Lock, TxnId>, t: TxnId, u: TxnId)
    requires t != u
    ensures HeldBy(locks, t) !! HeldBy(locks, u)
  {
  }

  lemma CommitVisitKeeps(s: Sys, t: TxnId)
    requires SysInv(s) && EnabledVisit(s, CommitVisit(t), t)
    ensures SysInv(AfterVisit(s, CommitVisit(t), t))
  {
    var s' := AfterVisit(s, CommitVisit(t), t);
    var v := s.txns[t].v;
    var mine := HeldBy(s.locks, t);
    assert VisitInv(s.rows, s.clock, mine, v);
    CommitIsAtomic(s.rows, s.clock, mine, v);
    forall u | u in s.txns && u != t
      ensures Untouched(s.rows, s'.rows, HeldBy(s.locks, u))
    {
      LocksDisjoint(s.locks, t, u);
      PublishedRespectsLocks(s.rows, s.clock, mine, v, HeldBy(s.locks, u));
    }
    hide Inv, LogSerial, TxnInv, Untouched, Execute, Published, GateOf;
    var draw := v.written.value.draw;
    CommitStep(s, s', t, VisitAt(v.cmd, draw), Execute(s.rows, v.cmd, draw).1);
  }

  lemma CommitReplayKeeps(s: Sys, t: TxnId, draw: Draw)
    requires SysInv(s) && EnabledVisit(s, CommitReplay(t, draw), t)
    ensures SysInv(AfterVisit(s, CommitReplay(t, draw), t))
  {
    var s' := AfterVisit(s, CommitReplay(t, draw), t);
    var v := s.txns[t].v;
    assert VisitInv(s.rows, s.clock, HeldBy(s.locks, t), v);
    Idempotency.ExecuteReplays(s.rows, v.cmd, draw);
    hide Inv, LogSerial, TxnInv, Execute, Replay, Untouched;
    forall u | u in s.txns && u != t
      ensures Untouched(s.rows, s'.rows, HeldBy(s.locks, u))
    {
      NothingTouched(s.rows, HeldBy(s.locks, u));
    }
    CommitStep(s, s', t, VisitAt(v.cmd, draw), Execute(s.rows, v.cmd, draw).1);
  }

  // ------------------------------------------------------------------ edit steps

  lemma LockBranchKeeps(s: Sys, t: TxnId)
    requires SysInv(s) && EnabledEdit(s, LockBranch(t), t)
    ensures SysInv(AfterEdit(s, LockBranch(t), t))
  {
    hide Inv, LogSerial, RowOf, RowValid, FutureFit;
    var s' := AfterEdit(s, LockBranch(t), t);
    HeldGrows(s.locks, t, BranchLock(s.txns[t].e.home.value));
    assert TxnInv(s.rows, s.clock, HeldBy(s.locks, t), s.txns[t]);
    LocalStep(s, s', t, s'.txns[t]);
  }

  lemma LockNextKeeps(s: Sys, t: TxnId)
    requires SysInv(s) && EnabledEdit(s, LockNextBarber(t), t)
    ensures SysInv(AfterEdit(s, LockNextBarber(t), t))
  {
    hide Inv, LogSerial, RowOf, RowValid, FutureFit, BarbersOf;
    var s' := AfterEdit(s, LockNextBarber(t), t);
    var e := s.txns[t].e;
    HeldGrows(s.locks, t, BarberLock(BarbersOf(s.rows.catalog, e.branch.value)[e.barbersLocked]));
    assert TxnInv(s.rows, s.clock, HeldBy(s.locks, t), s.txns[t]);
    LocalStep(s, s', t, s'.txns[t]);
  }

  lemma ReadEditedKeeps(s: Sys, t: TxnId)
    requires SysInv(s) && EnabledEdit(s, ReadEdited(t), t)
    ensures SysInv(AfterEdit(s, ReadEdited(t), t))
  {
    hide Inv, LogSerial, RowValid, FutureFit, BarbersOf, Changed, Patched;
    var s' := AfterEdit(s, ReadEdited(t), t);
    assert TxnInv(s.rows, s.clock, HeldBy(s.locks, t), s.txns[t]);
    LocalStep(s, s', t, s'.txns[t]);
  }

  lemma WriteEditedKeeps(s: Sys, t: TxnId)
    requires SysInv(s) && EnabledEdit(s, WriteEdited(t), t)
    ensures SysInv(AfterEdit(s, WriteEdited(t), t))
  {
    hide Inv, LogSerial, RowOf, RowValid, FutureFit, BarbersOf, Changed, Patched, RosterOf, BookingsOf;
    var s' := AfterEdit(s, WriteEdited(t), t);
    assert TxnInv(s.rows, s.clock, HeldBy(s.locks, t), s.txns[t]);
    LocalStep(s, s', t, s'.txns[t]);
  }

  lemma EditLocalKeeps(s: Sys, a: Action, t: TxnId)
    requires a.ReadHome? || a.ReadEditClock? || a.ReadFuture? || a.CheckFuture?
    requires SysInv(s) && EnabledEdit(s, a, t)
    ensures SysInv(AfterEdit(s, a, t))
  {
    hide Inv, LogSerial, RowOf, RowValid, FutureFit, BarbersOf, Changed, Patched, RosterOf, BookingsOf;
    var s' := AfterEdit(s, a, t);
    assert TxnInv(s.rows, s.clock, HeldBy(s.locks, t), s.txns[t]);
    LocalStep(s, s', t, s'.txns[t]);
  }

  /** Committing an edit is one atomic execution of it. */
  lemma EditIsAtomic(rows: Rows, clock: Instant, held: set<Lock>, e: EditTxn)
    requires EditLocks(rows, held, e) && EditReads(rows, clock, e)
    requires e.buffered.Some? && (e.checked || e.edit.EditService?)
    ensures ExecuteEdit(rows, e.edit, OrElse(e.now, clock)) == (Patched(rows, e.edit.id, e.buffered.value), Edited)
    ensures AllLocked(rows.catalog, e) && e.row.Some? && RowOf(rows, e.edit) == e.row
  {
    ChangedKeepsPlace(e.edit, e.row.value);
    PatchedElsewhere(rows, e.edit.id, e.buffered.value);
    hide RowValid, FutureFit, Changed, Patched, BarbersOf, RosterOf, BookingsOf;
    assert Rewritten(rows, e.edit) == Ok(Patched(rows, e.edit.id, e.buffered.value));
  }

  lemma CommitEditKeeps(s: Sys, t: TxnId)
    requires SysInv(s) && EnabledEdit(s, CommitEdit(t), t)
    ensures SysInv(AfterEdit(s, CommitEdit(t), t))
  {
    var s' := AfterEdit(s, CommitEdit(t), t);
    var e := s.txns[t].e;
    var mine := HeldBy(s.locks, t);
    assert TxnInv(s.rows, s.clock, mine, s.txns[t]);
    EditIsAtomic(s.rows, s.clock, mine, e);
    forall u | u in s.txns && u != t
      ensures Untouched(s.rows, s'.rows, HeldBy(s.locks, u))
    {
      LocksDisjoint(s.locks, t, u);
      PatchRespectsLocks(s.rows, e, mine, HeldBy(s.locks, u));
    }
    hide Inv, LogSerial, TxnInv, Untouched, ExecuteEdit, Patched, RowOf, EditReads;
    CommitStep(s, s', t, EditAt(e.edit, OrElse(e.now, s.clock)), Edited);
  }

  // ------------------------------------------------------------------- any step

  lemma TickKeeps(s: Sys, clock: Instant)
    requires SysInv(s) && s.clock <= clock
    ensures SysInv(s.(clock := clock))
  {
    ClockAdvances(s.rows, s.clock, clock);
    hide Inv, Run, Idempotency.AnswerAt, SeenIn, GateOf, PlanOf, VerdictOn, RowOf, RowValid, FutureFit;
    forall t | t in s.txns
      ensures TxnInv(s.rows, clock, HeldBy(s.locks, t), s.txns[t])
    {
      assert TxnInv(s.rows, s.clock, HeldBy(s.locks, t), s.txns[t]);
    }
    forall i | 0 <= i < |s.log|
      ensures Admissible(s.log[i].event, clock)
    {
      assert Admissible(s.log[i].event, s.clock);
    }
  }

  lemma BeginKeeps(s: Sys, a: Action)
    requires SysInv(s) && Enabled(s, a) && (a.BeginVisit? || a.BeginEdit?)
    ensures SysInv(After(s, a))
  {
    hide Inv, LogSerial;
    var s' := After(s, a);
    LocalStep(s, s', a.t, s'.txns[a.t]);
  }

  lemma AbortKeeps(s: Sys, t: TxnId)
    requires SysInv(s) && t in s.txns
    ensures SysInv(s.Ended(t))
  {
    hide TxnInv, Run, Idempotency.AnswerAt, AuditFaithful, OutboxFaithful, FitsFrom, TablesValid;
    assert TablesValid(s.rows);
    forall u | u in s.txns && u != t
      ensures Untouched(s.rows, s.rows, HeldBy(s.locks, u))
    {
      NothingTouched(s.rows, HeldBy(s.locks, u));
    }
    hide Inv, Untouched;
    EndedKeepsOthers(s, s.Ended(t), t);
  }

  lemma NothingTouched(rows: Rows, held: set<Lock>)
    ensures Untouched(rows, rows, held)
  {
  }

  lemma AfterKeeps(s: Sys, a: Action)
    requires SysInv(s) && Enabled(s, a)
    ensures SysInv(After(s, a))
  {
    hide SysInv, EnabledVisit, EnabledEdit;
    match a
    case Tick(clock) => TickKeeps(s, clock);
    case BeginVisit(_, _) => BeginKeeps(s, a);
    case BeginEdit(_, _) => BeginKeeps(s, a);
    case Abort(t) => AbortKeeps(s, t);
    case _ => if EnabledVisit(s, a, Owner(a)) { VisitStepKeeps(s, a); } else { EditStepKeeps(s, a); }
  }

  lemma VisitStepKeeps(s: Sys, a: Action)
    requires !a.Tick? && SysInv(s) && EnabledVisit(s, a, a.t)
    ensures SysInv(AfterVisit(s, a, a.t))
  {
    hide SysInv;
    match a
    case ClaimReceipt(t) => ClaimKeeps(s, t);
    case LockBarber(t) => LockBarberKeeps(s, t);
    case WriteBooking(t, draw) => WriteKeeps(s, t, draw);
    case CommitVisit(t) => CommitVisitKeeps(s, t);
    case CommitReplay(t, draw) => CommitReplayKeeps(s, t, draw);
    case ReadTarget(t) => ReadKeeps(s, a, t);
    case ReadClock(t) => ReadKeeps(s, a, t);
    case ReadRow(t) => ReadKeeps(s, a, t);
    case ReadBefore(t) => ReadKeeps(s, a, t);
    case ReadToday(t) => ReadKeeps(s, a, t);
    case _ =>
  }

  lemma EditStepKeeps(s: Sys, a: Action)
    requires !a.Tick? && SysInv(s) && EnabledEdit(s, a, a.t)
    ensures SysInv(AfterEdit(s, a, a.t))
  {
    hide SysInv;
    match a
    case LockBranch(t) => LockBranchKeeps(s, t);
    case LockNextBarber(t) => LockNextKeeps(s, t);
    case CommitEdit(t) => CommitEditKeeps(s, t);
    case ReadEdited(t) => ReadEditedKeeps(s, t);
    case WriteEdited(t) => WriteEditedKeeps(s, t);
    case ReadHome(t) => EditLocalKeeps(s, a, t);
    case ReadEditClock(t) => EditLocalKeeps(s, a, t);
    case ReadFuture(t) => EditLocalKeeps(s, a, t);
    case CheckFuture(t) => EditLocalKeeps(s, a, t);
    case _ =>
  }

  // ------------------------------------------------------------------- theorems

  lemma {:induction false} ReachedKeeps(s: Sys, actions: seq<Action>)
    requires SysInv(s) && Reached(s, actions).Some?
    ensures SysInv(Reached(s, actions).value) && Reached(s, actions).value.start == s.start
    decreases |actions|
  {
    hide SysInv;
    if actions != [] {
      var n := |actions| - 1;
      ReachedKeeps(s, actions[..n]);
      var pre := Reached(s, actions[..n]).value;
      AfterKeeps(pre, actions[n]);
      StartKept(pre, actions[n]);
    }
  }

  lemma StartKept(s: Sys, a: Action)
    requires Enabled(s, a)
    ensures After(s, a).start == s.start
  {
    hide EnabledVisit, EnabledEdit, AfterVisit, AfterEdit;
    if EnabledVisit(s, a, Owner(a)) {
      VisitKeepsStart(s, a, Owner(a));
    } else if EnabledEdit(s, a, Owner(a)) {
      EditKeepsStart(s, a, Owner(a));
    }
  }

  lemma VisitKeepsStart(s: Sys, a: Action, t: TxnId)
    requires EnabledVisit(s, a, t)
    ensures AfterVisit(s, a, t).start == s.start
  {
    hide EnabledVisit, Published, ShiftsRead, SeenIn, PlanSeen, VerdictOn;
  }

  lemma EditKeepsStart(s: Sys, a: Action, t: TxnId)
    requires EnabledEdit(s, a, t)
    ensures AfterEdit(s, a, t).start == s.start
  {
    hide EnabledEdit, Patched;
  }

  lemma InitialInv(rows: Rows, clock: Instant)
    requires Inv(rows, clock)
    ensures SysInv(Initial(rows, clock))
  {
  }

  /**
   Whatever the interleaving: the committed rows and every answer are those of running the
   committed commands one at a time in commit order, and the rows keep their invariant at
   the current clock.
   */
  lemma SerializableInCommitOrder(rows: Rows, clock: Instant, actions: seq<Action>)
    requires Inv(rows, clock) && Reached(Initial(rows, clock), actions).Some?
    ensures var s := Reached(Initial(rows, clock), actions).value; var events := Events(s.log);
            && s.rows == Run(rows, events)
            && (forall i: nat | i < |s.log| :: s.log[i].answer == Idempotency.AnswerAt(rows, events, i))
            && Inv(s.rows, s.clock)
  {
    InitialInv(rows, clock);
    ReachedKeeps(Initial(rows, clock), actions);
  }
}
