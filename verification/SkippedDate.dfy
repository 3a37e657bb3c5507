/**
 An input on which availability and create disagree. Clocks spring forward at midnight before
 date 10, and the barber's night shift of date 9 ends in the missing hour: availability
 skips that date and publishes the morning of date 10, for which create raises.
 */
module SkippedDate {
  import opened Base
  import opened Calendar
  import opened Schedule
  import opened Model
  import opened Commands
  import opened Invariants
  import opened Availability

  const MIDNIGHT: Instant := 10 * DAY
  const NOW: Instant := 9 * DAY

  function SpringZone(): Zone { Zone(0, [Transition(MIDNIGHT, HOUR)]) }

  function Night(): DatedException {
    DatedException(1, 1, 9, Replacement, Some(22 * HOUR), Some(30 * MINUTE), "")
  }

  function Day(): DatedException {
    DatedException(1, 1, 10, Replacement, Some(8 * HOUR), Some(12 * HOUR), "")
  }

  function NightShift(): Shift { Shift(22 * HOUR, 30 * MINUTE, false) }

  function DayShift(): Shift { Shift(8 * HOUR, 12 * HOUR, false) }

  function Salon(): Branch { Branch(1, SpringZone(), 60, 30, 60) }

  function Haircut(): Service { Service(1, "Haircut", 1000, "RUB", 3600, true) }

  function Shop(): Rows {
    Rows(Catalog(map[1 := Salon()], map[1 := true], map[Assignment(1, 1, 1) := true]),
         map[1 := Haircut()], map[], map[1 := Night(), 2 := Day()],
         map[], map[], map[], map[], map[], {})
  }

  function OneDay(): Query { Query(1, 1, 10, 10, None, None, 100) }

  /** Eight o'clock on the wall, an hour long. */
  function Morning(): Slot { Slot(MIDNIGHT + 7 * HOUR, 1, 1, MIDNIGHT + 8 * HOUR) }

  function Booking8(): Visit {
    Create(Scope(1, "USER", "7", "API", None), "key", 1, 1, 1, 1, Aware(MIDNIGHT + 7 * HOUR, 0), None, "")
  }

  function FirstDraw(): Draw { Draw(NOW, NOW, NOW, 1) }

  lemma ShopIsSound()
    ensures Core(Shop(), NOW)
  {
    assert SpringZone().WellSeparated();
    assert ServiceFields(Haircut());
    assert Assignment(1, 1, 1) in Shop().catalog.assignments;
  }

  function TheRoster(): Roster { Roster(map[], map[1 := Night(), 2 := Day()]) }

  lemma ShopRoster()
    ensures RosterOf(Shop().rules, Shop().exceptions, 1, 1) == TheRoster()
  {
  }

  lemma DatedShifts()
    ensures ShiftsOn(TheRoster(), 9) == {NightShift()} && ShiftsOn(TheRoster(), 10) == {DayShift()}
  {
    assert 1 in ExceptionsOn(TheRoster(), 9) && 2 in ExceptionsOn(TheRoster(), 10);
  }

  lemma ShiftsConvert()
    ensures ShiftInterval(SpringZone(), 9, NightShift()).Err?
    ensures ShiftInterval(SpringZone(), 10, DayShift()) == Ok((MIDNIGHT + 7 * HOUR, MIDNIGHT + 11 * HOUR))
  {
    assert LocalToUtc(SpringZone(), MIDNIGHT + 30 * MINUTE, None) == Err(DoesNotExist);
  }

  lemma MorningOnClock()
    ensures SpringZone().Show(MIDNIGHT + 7 * HOUR) == MIDNIGHT + 8 * HOUR && SpringZone().Show(NOW) == NOW
    ensures LocalToUtc(SpringZone(), MIDNIGHT + 8 * HOUR, None) == Ok(MIDNIGHT + 7 * HOUR)
  {
  }

  /** On date 10 the skipped night leaves exactly the visits inside the day shift. */
  lemma OnlyTheDayCovers(start: Instant, end: Instant)
    ensures LenientlyCovered(SpringZone(), TheRoster(), 10, start, end)
            <==> (MIDNIGHT + 7 * HOUR <= start && end <= MIDNIGHT + 11 * HOUR)
    ensures !Evaluates(SpringZone(), 9, ShiftsOn(TheRoster(), 9))
  {
    DatedShifts();
    ShiftsConvert();
    hide ShiftsOn, ShiftInterval, TheRoster, SpringZone, NightShift, DayShift;
    assert NightShift() in ShiftsOn(TheRoster(), 9);
    assert DayShift() in ShiftsOn(TheRoster(), 10);
  }

  lemma MorningIsOpen()
    ensures QueryBranch(Shop().catalog, OneDay(), NOW) == Ok(Salon())
    ensures Open(Shop(), OneDay(), Salon(), NOW, Morning())
    ensures VerdictFor(Shop(), OneDay(), Salon(), Morning()) == Unevaluable
  {
    ShopRoster();
    MorningOnClock();
    OnlyTheDayCovers(Morning().start, Morning().end);
    hide ShiftsOn, Evaluates, AnyCovers, LenientlyCovered, LocalToUtc, RosterOf, TheRoster, SpringZone;
  }

  /** Every open slot of the day starts no earlier. */
  lemma MorningIsFirst(t: Slot)
    requires Open(Shop(), OneDay(), Salon(), NOW, t)
    ensures !Precedes(t, Morning())
  {
    ShopRoster();
    OnlyTheDayCovers(t.start, t.end);
    hide ShiftsOn, Evaluates, AnyCovers, LenientlyCovered, LocalToUtc, RosterOf, TheRoster, SpringZone, MayStart;
    assert t.barber == 1 && t.service == 1;
  }

  /**
   The unconditional claim is false. In rows that satisfy every constraint the list of the day
   publishes a slot, whatever else it holds, and a create for it, with rows and clock
   unchanged, raises a calendar error.
   */
  lemma PublishedSlotRaises()
    returns (rows: Rows, q: Query, branch: Branch, now: Instant, s: Slot, cmd: Visit, draw: Draw)
    ensures Core(rows, now) && QueryBranch(rows.catalog, q, now) == Ok(branch) && Open(rows, q, branch, now, s)
    ensures forall slots | FirstOpen(rows, q, branch, now, slots) :: s in slots
    ensures Submits(cmd, q, s) && FreshDraw(rows, cmd, draw) && draw.now == now
    ensures Execute(rows, cmd, draw) == (rows, Raised(LocalTimeFailure))
  {
    rows, q, branch, now, s, cmd, draw := Shop(), OneDay(), Salon(), NOW, Morning(), Booking8(), FirstDraw();
    ShopIsSound();
    MorningIsOpen();
    hide Core, Open, QueryBranch, Execute, VerdictFor, Shop, Precedes;
    forall slots | FirstOpen(rows, q, branch, now, slots)
      ensures s in slots
    {
      if s !in slots {
        assert slots[0] in slots;
        MorningIsFirst(slots[0]);
      }
    }
    ShopIsFresh();
    OpenSlotIsBooked(rows, q, branch, now, s, cmd, draw, now);
  }

  lemma ShopIsFresh()
    ensures FreshDraw(Shop(), Booking8(), FirstDraw())
  {
  }
}
