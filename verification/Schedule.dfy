/**
 Evaluation of a barber's roster in one branch: weekly rules, dated exceptions, and the
 question whether a visit fits into a working shift.
 */
module Schedule {
  import opened Base
  import opened Calendar

  type TimeOfDay = t: int | 0 <= t < DAY

  datatype Rule = Rule(
    branch: Id, barber: Id, weekday: int, startsAt: TimeOfDay, endsAt: TimeOfDay, isActive: bool)

  datatype ExceptionKind = Closed | Replacement

  datatype DatedException = DatedException(
    branch: Id, barber: Id, localDate: int, kind: ExceptionKind,
    startsAt: Option<TimeOfDay>, endsAt: Option<TimeOfDay>, reason: string)

  /** The rules and exceptions of one barber in one branch. */
  datatype Roster = Roster(rules: map<Id, Rule>, exceptions: map<Id, DatedException>)

  /** A shift of one date; a rule's interval is also checked to be positive in UTC. */
  datatype Shift = Shift(starts: TimeOfDay, ends: TimeOfDay, isRule: bool)

  datatype Fit = Fits | Misfit | Unevaluable

  /** `date.weekday()`, Monday being 0, for proleptic ordinals (day 1 is a Monday). */
  function Weekday(date: int): int { (date + 6) % 7 }

  function ExceptionsOn(roster: Roster, date: int): set<Id> {
    set id | id in roster.exceptions && roster.exceptions[id].localDate == date
  }

  /**
   `intervals_starting_on` before conversion. The unique constraint leaves at most one
   exception a date; its order of rules is not observable through `any`.
   */
  function ShiftsOn(roster: Roster, date: int): set<Shift> {
    var dated := ExceptionsOn(roster, date);
    if dated != {} then
      set id | id in dated && roster.exceptions[id].kind == Replacement
               && roster.exceptions[id].startsAt.Some? && roster.exceptions[id].endsAt.Some?
        :: Shift(roster.exceptions[id].startsAt.value, roster.exceptions[id].endsAt.value, false)
    else
      set id | id in roster.rules && roster.rules[id].weekday == Weekday(date) && roster.rules[id].isActive
        :: Shift(roster.rules[id].startsAt, roster.rules[id].endsAt, true)
  }

  function ShiftStart(date: int, shift: Shift): Wall { date * DAY + shift.starts }

  /** A shift that does not end after it starts runs into the next date. */
  function ShiftEnd(date: int, shift: Shift): Wall {
    (if shift.ends > shift.starts then date else date + 1) * DAY + shift.ends
  }

  function ShiftInterval(z: Zone, date: int, shift: Shift): Result<(Instant, Instant), LocalTimeError> {
    match (LocalToUtc(z, ShiftStart(date, shift), None), LocalToUtc(z, ShiftEnd(date, shift), None))
    case (Err(e), _) => Err(e)
    case (Ok(_), Err(e)) => Err(e)
    case (Ok(s), Ok(e)) => if shift.isRule && e <= s then Err(NotPositive) else Ok((s, e))
  }

  predicate Evaluates(z: Zone, date: int, shifts: set<Shift>) {
    forall s | s in shifts :: ShiftInterval(z, date, s).Ok?
  }

  predicate Covers(z: Zone, date: int, shift: Shift, start: Instant, end: Instant) {
    var r := ShiftInterval(z, date, shift);
    r.Ok? && r.value.0 <= start && end <= r.value.1
  }

  predicate AnyCovers(z: Zone, date: int, shifts: set<Shift>, start: Instant, end: Instant) {
    exists s | s in shifts :: Covers(z, date, s, start, end)
  }

  /** The verdict on [start,end) from the shifts of the day before and of the day itself. */
  function Admits(z: Zone, date: int, before: set<Shift>, today: set<Shift>, start: Instant, end: Instant): Fit {
    if !Evaluates(z, date - 1, before) || !Evaluates(z, date, today) then Unevaluable
    else if AnyCovers(z, date - 1, before, start, end) || AnyCovers(z, date, today, start, end) then Fits
    else Misfit
  }

  /** `booking_fits_schedule`; `Unevaluable` stands for a raised LocalTimeError. */
  function BookingFits(z: Zone, roster: Roster, start: Instant, end: Instant): Fit {
    var date := DateOf(z.Show(start));
    Admits(z, date, ShiftsOn(roster, date - 1), ShiftsOn(roster, date), start, end)
  }

  // ------------------------------------------------------------ told from the rows

  predicate ReplacedBy(x: DatedException, date: int, starts: TimeOfDay, ends: TimeOfDay) {
    x.localDate == date && x.kind == Replacement && x.startsAt == Some(starts) && x.endsAt == Some(ends)
  }

  /** The weekly rule is active on the date's weekday, Monday being 0 and day 1 a Monday. */
  predicate RuledBy(r: Rule, date: int, starts: TimeOfDay, ends: TimeOfDay) {
    r.isActive && r.weekday == (date + 6) % 7 && r.startsAt == starts && r.endsAt == ends
  }

  /**
   The barber works these hours from the date on: a replacement of that date says so, or the
   date has no exception of any kind and a weekly rule says so.
   */
  ghost predicate Works(roster: Roster, date: int, starts: TimeOfDay, ends: TimeOfDay) {
    || (exists id | id in roster.exceptions :: ReplacedBy(roster.exceptions[id], date, starts, ends))
    || ((forall id | id in roster.exceptions :: roster.exceptions[id].localDate != date)
        && exists id | id in roster.rules :: RuledBy(roster.rules[id], date, starts, ends))
  }

  /** u and no other instant shows w. */
  ghost predicate ShowsOnly(z: Zone, u: Instant, w: Wall) {
    forall v :: z.Show(v) == w <==> v == u
  }

  /** Hours whose end is not after their start run into the next date. */
  function Closing(date: int, starts: TimeOfDay, ends: TimeOfDay): Wall {
    if ends > starts then date * DAY + ends else date * DAY + DAY + ends
  }

  /** s and e are the only instants showing where the hours begin and end. */
  ghost predicate Bounds(z: Zone, date: int, starts: TimeOfDay, ends: TimeOfDay, s: Instant, e: Instant) {
    ShowsOnly(z, s, date * DAY + starts) && ShowsOnly(z, e, Closing(date, starts, ends))
  }

  ghost predicate HoursRead(z: Zone, date: int, starts: TimeOfDay, ends: TimeOfDay) {
    exists s, e :: Bounds(z, date, starts, ends, s, e)
  }

  ghost predicate HoursContain(z: Zone, date: int, starts: TimeOfDay, ends: TimeOfDay, start: Instant, end: Instant) {
    exists s, e :: Bounds(z, date, starts, ends, s, e) && s <= start && end <= e
  }

  ghost predicate DateReads(z: Zone, roster: Roster, date: int) {
    forall starts, ends | Works(roster, date, starts, ends) :: HoursRead(z, date, starts, ends)
  }

  ghost predicate DateContains(z: Zone, roster: Roster, date: int, start: Instant, end: Instant) {
    exists starts, ends :: Works(roster, date, starts, ends) && HoursContain(z, date, starts, ends, start, end)
  }

  /** Some hours of the roster, starting on any date at all, contain [start,end). */
  ghost predicate CoveredSomeday(z: Zone, roster: Roster, start: Instant, end: Instant) {
    exists date: int :: DateContains(z, roster, date, start, end)
  }

  // ---------------------------------------------------------------- theorems

  /** The endpoints of an evaluated shift are the only instants showing its wall times. */
  lemma ShiftEndpoints(z: Zone, date: int, shift: Shift)
    requires z.WellSeparated()
    requires LocalToUtc(z, ShiftStart(date, shift), None).Ok? && LocalToUtc(z, ShiftEnd(date, shift), None).Ok?
    ensures var s := LocalToUtc(z, ShiftStart(date, shift), None).value;
            var e := LocalToUtc(z, ShiftEnd(date, shift), None).value;
            && z.Unambiguous(s) && z.Show(s) == ShiftStart(date, shift)
            && z.Unambiguous(e) && z.Show(e) == ShiftEnd(date, shift)
            && s < e
  {
    ExactInverse(z, ShiftStart(date, shift));
    ExactInverse(z, ShiftEnd(date, shift));
    var s := LocalToUtc(z, ShiftStart(date, shift), None).value;
    var e := LocalToUtc(z, ShiftEnd(date, shift), None).value;
    assert z.Show(s) == ShiftStart(date, shift) && z.Show(e) == ShiftEnd(date, shift);
    OrderAgrees(z, e, s);
  }

  /** The guard against intervals that are not positive in UTC never fires. */
  lemma IntervalsArePositive(z: Zone, date: int, shift: Shift)
    requires z.WellSeparated()
    ensures ShiftInterval(z, date, shift) != Err(NotPositive)
    ensures ShiftInterval(z, date, shift).Ok? ==>
              ShiftInterval(z, date, shift).value.0 < ShiftInterval(z, date, shift).value.1
  {
    ExactInverse(z, ShiftStart(date, shift));
    ExactInverse(z, ShiftEnd(date, shift));
    if LocalToUtc(z, ShiftStart(date, shift), None).Ok? && LocalToUtc(z, ShiftEnd(date, shift), None).Ok? {
      ShiftEndpoints(z, date, shift);
    }
  }

  /** A shift can only contain a visit that starts on its own date or on the next one. */
  lemma CoveringDates(z: Zone, date: int, shift: Shift, start: Instant, end: Instant)
    requires z.WellSeparated() && start < end
    requires Covers(z, date, shift, start, end)
    ensures var day := DateOf(z.Show(start)); date == day - 1 || date == day
  {
    ShiftEndpoints(z, date, shift);
    var r := ShiftInterval(z, date, shift).value;
    OrderAgrees(z, r.0, start);
    OrderAgrees(z, r.1, start);
  }

  lemma ShiftsTold(roster: Roster, date: int, starts: TimeOfDay, ends: TimeOfDay)
    ensures Works(roster, date, starts, ends)
            <==> exists isRule :: Shift(starts, ends, isRule) in ShiftsOn(roster, date)
  {
    var dated := ExceptionsOn(roster, date);
    if id :| id in roster.exceptions && ReplacedBy(roster.exceptions[id], date, starts, ends) {
      assert id in dated;
      assert Shift(starts, ends, false) in ShiftsOn(roster, date);
    } else if dated == {} {
      forall id | id in roster.exceptions
        ensures roster.exceptions[id].localDate != date
      {
        assert id !in dated;
      }
      if id :| id in roster.rules && RuledBy(roster.rules[id], date, starts, ends) {
        assert Shift(starts, ends, true) in ShiftsOn(roster, date);
      }
    } else {
      var id := Member(dated);
      assert id in roster.exceptions && roster.exceptions[id].localDate == date;
    }
  }

  /** An evaluated shift lies between the only instants showing its hours. */
  lemma ShiftTold(z: Zone, date: int, shift: Shift, s: Instant, e: Instant)
    requires z.WellSeparated()
    ensures ShiftInterval(z, date, shift) == Ok((s, e)) <==> Bounds(z, date, shift.starts, shift.ends, s, e)
  {
    IntervalsArePositive(z, date, shift);
    ReadOnce(z, ShiftStart(date, shift), s);
    ReadOnce(z, ShiftEnd(date, shift), e);
    assert ShiftEnd(date, shift) == Closing(date, shift.starts, shift.ends);
    hide LocalToUtc, ShowsOnly;
  }

  lemma ReadOnce(z: Zone, w: Wall, u: Instant)
    requires z.WellSeparated()
    ensures LocalToUtc(z, w, None) == Ok(u) <==> ShowsOnly(z, u, w)
  {
    ExactInverse(z, w);
    hide LocalToUtc;
    assert ShowsOnly(z, u, w) ==> z.Show(u) == w;
  }

  lemma HoursTold(z: Zone, date: int, shift: Shift, start: Instant, end: Instant)
    requires z.WellSeparated()
    ensures ShiftInterval(z, date, shift).Ok? <==> HoursRead(z, date, shift.starts, shift.ends)
    ensures Covers(z, date, shift, start, end) <==> HoursContain(z, date, shift.starts, shift.ends, start, end)
  {
    hide ShiftInterval, Bounds;
    var r := ShiftInterval(z, date, shift);
    forall s, e
      ensures r == Ok((s, e)) <==> Bounds(z, date, shift.starts, shift.ends, s, e)
    {
      ShiftTold(z, date, shift, s, e);
    }
    if r.Ok? { assert Bounds(z, date, shift.starts, shift.ends, r.value.0, r.value.1); }
  }

  /** The shifts evaluated for a date, and what they contain, told from the rows. */
  lemma DateTold(z: Zone, roster: Roster, date: int, start: Instant, end: Instant)
    requires z.WellSeparated()
    ensures Evaluates(z, date, ShiftsOn(roster, date)) <==> DateReads(z, roster, date)
    ensures AnyCovers(z, date, ShiftsOn(roster, date), start, end) <==> DateContains(z, roster, date, start, end)
  {
    hide ShiftsOn, Works, HoursRead, HoursContain, Covers, ShiftInterval;
    var shifts := ShiftsOn(roster, date);
    forall shift: Shift
      ensures ShiftInterval(z, date, shift).Ok? <==> HoursRead(z, date, shift.starts, shift.ends)
      ensures Covers(z, date, shift, start, end) <==> HoursContain(z, date, shift.starts, shift.ends, start, end)
      ensures shift in shifts ==> Works(roster, date, shift.starts, shift.ends)
    {
      HoursTold(z, date, shift, start, end);
      ShiftsTold(roster, date, shift.starts, shift.ends);
      assert shift == Shift(shift.starts, shift.ends, shift.isRule);
    }
    forall starts, ends | Works(roster, date, starts, ends)
      ensures exists isRule :: Shift(starts, ends, isRule) in shifts
    {
      ShiftsTold(roster, date, starts, ends);
    }
    if Evaluates(z, date, shifts) {
      forall starts, ends | Works(roster, date, starts, ends)
        ensures HoursRead(z, date, starts, ends)
      {
        var isRule :| Shift(starts, ends, isRule) in shifts;
      }
    }
    if starts, ends :| Works(roster, date, starts, ends) && HoursContain(z, date, starts, ends, start, end) {
      var isRule :| Shift(starts, ends, isRule) in shifts;
      assert Covers(z, date, Shift(starts, ends, isRule), start, end);
    }
  }

  /**
   The verdict, told from the rows alone: it raises exactly if some hours of the visit's date or
   of the day before do not read, and otherwise the visit fits exactly if hours of one of the
   two dates contain it. A closed date, or one with a replacement, has no weekly hours.
   */
  lemma FitFromRows(z: Zone, roster: Roster, start: Instant, end: Instant)
    requires z.WellSeparated()
    ensures var day := DateOf(z.Show(start)); var fit := BookingFits(z, roster, start, end);
            && (fit == Unevaluable <==> !(DateReads(z, roster, day - 1) && DateReads(z, roster, day)))
            && (fit == Fits <==>
                 && DateReads(z, roster, day - 1) && DateReads(z, roster, day)
                 && (DateContains(z, roster, day - 1, start, end) || DateContains(z, roster, day, start, end)))
  {
    hide ShiftsOn, Evaluates, AnyCovers, DateReads, DateContains, DateOf, Zone.Show, Zone.WellSeparated;
    var day := DateOf(z.Show(start));
    DateTold(z, roster, day - 1, start, end);
    DateTold(z, roster, day, start, end);
  }

  /** Looking at two dates misses no shift, overnight shifts and clock changes included. */
  lemma TwoDatesSuffice(z: Zone, roster: Roster, start: Instant, end: Instant)
    requires z.WellSeparated() && start < end
    requires BookingFits(z, roster, start, end) != Unevaluable
    ensures BookingFits(z, roster, start, end) == Fits <==> CoveredSomeday(z, roster, start, end)
  {
    FitFromRows(z, roster, start, end);
    hide BookingFits, DateReads;
    if date :| DateContains(z, roster, date, start, end) {
      DateTold(z, roster, date, start, end);
      hide DateContains, ShiftsOn;
      var shift :| shift in ShiftsOn(roster, date) && Covers(z, date, shift, start, end);
      CoveringDates(z, date, shift, start, end);
    }
  }

  /** Two dates are also needed: a visit after midnight may belong to yesterday's shift only. */
  lemma OvernightVisitNeedsYesterday()
    ensures exists z: Zone, roster: Roster, start, end ::
              && z.WellSeparated() && start < end
              && BookingFits(z, roster, start, end) == Fits
              && !exists starts, ends :: Works(roster, DateOf(z.Show(start)), starts, ends)
  {
    var z := Zone(0, []);
    var night := DatedException(1, 1, 9, Replacement, Some(22 * HOUR), Some(6 * HOUR), "");
    var roster := Roster(map[], map[1 := night]);
    var start, end := 10 * DAY + HOUR, 10 * DAY + 2 * HOUR;
    var shift := Shift(22 * HOUR, 6 * HOUR, false);
    assert 1 in ExceptionsOn(roster, 9);
    assert ShiftsOn(roster, 9) == {shift};
    assert ExceptionsOn(roster, 10) == {};
    assert ShiftsOn(roster, 10) == {};
    assert Covers(z, 9, shift, start, end);
    assert BookingFits(z, roster, start, end) == Fits;
  }
}
