/** The read-only list of free slots, and its agreement with what a create accepts. */
module Availability {
  import opened Base
  import opened Calendar
  import opened Schedule
  import opened Model
  import opened Commands
  import opened Invariants
  import Acceptance

  const MAX_RANGE_DAYS: int := 31
  const MAX_RESULTS: int := 500

  datatype Query = Query(
    business: Id, branch: Id, dateFrom: int, dateTo: int, barber: Option<Id>, service: Option<Id>, limit: int)

  datatype QueryError = DatesReversed | RangeTooLong | BadLimit | OutOfScope | BeyondHorizon

  datatype Slot = Slot(start: Instant, barber: Id, service: Id, end: Instant)

  /** Field by field, in the order the slot declares its fields. */
  predicate Precedes(a: Slot, b: Slot) {
    a.start < b.start || (a.start == b.start &&
      (a.barber < b.barber || (a.barber == b.barber &&
        (a.service < b.service || (a.service == b.service && a.end < b.end)))))
  }

  predicate Increasing(slots: seq<Slot>) {
    forall i, j | 0 <= i < j < |slots| :: Precedes(slots[i], slots[j])
  }

  predicate Distinct(slots: seq<Slot>) {
    forall i, j | 0 <= i < j < |slots| :: slots[i] != slots[j]
  }

  function QueryBranch(c: Catalog, q: Query, now: Instant): Result<Branch, QueryError> {
    if q.dateTo < q.dateFrom then Err(DatesReversed)
    else if q.dateTo - q.dateFrom + 1 > MAX_RANGE_DAYS then Err(RangeTooLong)
    else if !(1 <= q.limit <= MAX_RESULTS) then Err(BadLimit)
    else if q.branch !in c.branches || c.branches[q.branch].business != q.business then Err(OutOfScope)
    else
      var branch := c.branches[q.branch];
      if q.dateTo > DateOf(branch.zone.Show(now)) + branch.horizonDays then Err(BeyondHorizon) else Ok(branch)
  }

  predicate InBusiness(c: Catalog, q: Query) {
    q.branch in c.branches && c.branches[q.branch].business == q.business
  }

  predicate Beyond(c: Catalog, q: Query, now: Instant)
    requires InBusiness(c, q)
  {
    var branch := c.branches[q.branch];
    q.dateTo - DateOf(branch.zone.Show(now)) > branch.horizonDays
  }

  /** A query is answered exactly if its dates, limit, scope and horizon are in order; else the first fault is named. */
  lemma QueryAnswered(c: Catalog, q: Query, now: Instant)
    ensures var r := QueryBranch(c, q, now);
            var fair := q.dateFrom <= q.dateTo <= q.dateFrom + 30; var few := 1 <= q.limit <= 500;
            && (r.Ok? <==> fair && few && InBusiness(c, q) && !Beyond(c, q, now))
            && (r.Ok? ==> r.value == c.branches[q.branch])
            && (r == Err(DatesReversed) <==> q.dateTo < q.dateFrom)
            && (r == Err(RangeTooLong) <==> q.dateFrom + 30 < q.dateTo)
            && (r == Err(BadLimit) <==> fair && !few)
            && (r == Err(OutOfScope) <==> fair && few && !InBusiness(c, q))
            && (r == Err(BeyondHorizon) <==> fair && few && InBusiness(c, q) && Beyond(c, q, now))
  {
  }

  // ------------------------------------------------------------- what is open

  /** The instant a grid point of its own wall date converts to. */
  predicate OnSlotGrid(branch: Branch, u: Instant) {
    var w := branch.zone.Show(u);
    branch.gridMinutes > 0 && w % DAY % (branch.gridMinutes * MINUTE) == 0 && LocalToUtc(branch.zone, w, None) == Ok(u)
  }

  predicate DateCovers(z: Zone, roster: Roster, date: int, start: Instant, end: Instant) {
    Evaluates(z, date, ShiftsOn(roster, date)) && AnyCovers(z, date, ShiftsOn(roster, date), start, end)
  }

  /** Some shift of the two dates contains the visit; a date that raises is skipped. */
  predicate LenientlyCovered(z: Zone, roster: Roster, date: int, start: Instant, end: Instant) {
    DateCovers(z, roster, date - 1, start, end) || DateCovers(z, roster, date, start, end)
  }

  predicate Bookable(rows: Rows, a: Assignment) {
    && a in rows.catalog.assignments && rows.catalog.assignments[a]
    && a.barber in rows.catalog.barbers && rows.catalog.barbers[a.barber]
    && a.service in rows.services && rows.services[a.service].isActive
  }

  predicate Asked(q: Query, a: Assignment) {
    a.branch == q.branch && (q.barber.Some? ==> a.barber == q.barber.value)
    && (q.service.Some? ==> a.service == q.service.value)
  }

  /** The calendar allows the slot for its assignment, as of `now`. */
  predicate Offered(rows: Rows, branch: Branch, now: Instant, a: Assignment, s: Slot) {
    && s.barber == a.barber && s.service == a.service && a.service in rows.services
    && OnSlotGrid(branch, s.start) && MayStart(branch, Aware(s.start, 0), now)
    && s.end == s.start + rows.services[a.service].durationSeconds * SECOND
    && LenientlyCovered(branch.zone, RosterOf(rows.rules, rows.exceptions, a.branch, a.barber),
                        DateOf(branch.zone.Show(s.start)), s.start, s.end)
  }

  predicate InRange(q: Query, branch: Branch, s: Slot) {
    q.dateFrom <= DateOf(branch.zone.Show(s.start)) <= q.dateTo
  }

  predicate Candidate(rows: Rows, q: Query, branch: Branch, now: Instant, s: Slot) {
    var a := Assignment(q.branch, s.barber, s.service);
    Bookable(rows, a) && Asked(q, a) && Offered(rows, branch, now, a, s) && InRange(q, branch, s)
  }

  /** A visit of the barber, in whatever branch, overlaps the slot. */
  predicate Busy(bookings: map<Id, Booking>, s: Slot) {
    exists id | id in bookings ::
      bookings[id].barber == s.barber && bookings[id].status != Cancelled
      && Overlaps(bookings[id].startAt, bookings[id].endAt, s.start, s.end)
  }

  predicate Open(rows: Rows, q: Query, branch: Branch, now: Instant, s: Slot) {
    Candidate(rows, q, branch, now, s) && !Busy(rows.bookings, s)
  }

  // ------------------------------------------------------------------ the loops

  predicate InSome(intervals: seq<(Instant, Instant)>, start: Instant, end: Instant) {
    exists i | 0 <= i < |intervals| :: intervals[i].0 <= start && end <= intervals[i].1
  }

  lemma InSomeMore(a: seq<(Instant, Instant)>, b: seq<(Instant, Instant)>, start: Instant, end: Instant)
    ensures InSome(a + b, start, end) <==> (InSome(a, start, end) || InSome(b, start, end))
  {
    var all := a + b;
    if InSome(a, start, end) {
      var i :| 0 <= i < |a| && a[i].0 <= start && end <= a[i].1;
      assert all[i] == a[i];
    }
    if InSome(b, start, end) {
      var i :| 0 <= i < |b| && b[i].0 <= start && end <= b[i].1;
      assert all[|a| + i] == b[i];
    }
  }

  lemma InOne(interval: (Instant, Instant), start: Instant, end: Instant)
    ensures InSome([interval], start, end) <==> (interval.0 <= start && end <= interval.1)
  {
    assert [interval][0] == interval;
  }

  /** `intervals_starting_on`; None stands for a raised LocalTimeError. */
  method IntervalsStartingOn(z: Zone, roster: Roster, date: int) returns (r: Option<seq<(Instant, Instant)>>)
    ensures r.Some? <==> Evaluates(z, date, ShiftsOn(roster, date))
    ensures r.Some? ==>
              forall start, end ::
                InSome(r.value, start, end) <==> AnyCovers(z, date, ShiftsOn(roster, date), start, end)
    ensures z.WellSeparated() ==>
              && (r.Some? <==> DateReads(z, roster, date))
              && (r.Some? ==> forall start, end ::
                    InSome(r.value, start, end) <==> DateContains(z, roster, date, start, end))
  {
    hide ShiftsOn, ShiftInterval, DateReads, DateContains;
    var shifts := ShiftsOn(roster, date);
    var pending := shifts;
    var intervals: seq<(Instant, Instant)> := [];
    while pending != {}
      invariant pending <= shifts && Evaluates(z, date, shifts - pending)
      invariant forall start, end :: InSome(intervals, start, end) <==> AnyCovers(z, date, shifts - pending, start, end)
      decreases |pending|
    {
      var shift :| shift in pending;
      var interval := ShiftInterval(z, date, shift);
      if interval.Err? {
        ToldIfSeparated(z, roster, date, []);
        return None;
      }
      forall start, end
        ensures InSome(intervals + [interval.value], start, end) <==>
                (InSome(intervals, start, end) || Covers(z, date, shift, start, end))
      {
        InSomeMore(intervals, [interval.value], start, end);
        InOne(interval.value, start, end);
      }
      intervals := intervals + [interval.value];
      assert shifts - (pending - {shift}) == (shifts - pending) + {shift};
      pending := pending - {shift};
    }
    assert shifts - pending == shifts;
    ToldIfSeparated(z, roster, date, intervals);
    return Some(intervals);
  }

  lemma ToldIfSeparated(z: Zone, roster: Roster, date: int, intervals: seq<(Instant, Instant)>)
    ensures z.WellSeparated() ==> (Evaluates(z, date, ShiftsOn(roster, date)) <==> DateReads(z, roster, date))
    ensures z.WellSeparated()
            && (forall start, end ::
                  InSome(intervals, start, end) <==> AnyCovers(z, date, ShiftsOn(roster, date), start, end))
            ==> forall start, end :: InSome(intervals, start, end) <==> DateContains(z, roster, date, start, end)
  {
    hide ShiftsOn, InSome, AnyCovers, DateContains, DateReads;
    if z.WellSeparated() { DatesTold(z, roster, date); }
  }

  lemma DatesTold(z: Zone, roster: Roster, date: int)
    requires z.WellSeparated()
    ensures Evaluates(z, date, ShiftsOn(roster, date)) <==> DateReads(z, roster, date)
    ensures forall start, end ::
              AnyCovers(z, date, ShiftsOn(roster, date), start, end) <==> DateContains(z, roster, date, start, end)
  {
    hide ShiftsOn, AnyCovers, DateContains, Evaluates, DateReads;
    DateTold(z, roster, date, 0, 0);
    forall start, end
      ensures AnyCovers(z, date, ShiftsOn(roster, date), start, end) <==> DateContains(z, roster, date, start, end)
    {
      DateTold(z, roster, date, start, end);
    }
  }

  /** Hours of one of the two dates contain the visit, a date whose hours do not all read being skipped. */
  ghost predicate LenientlyWorked(z: Zone, roster: Roster, date: int, start: Instant, end: Instant) {
    || (DateReads(z, roster, date - 1) && DateContains(z, roster, date - 1, start, end))
    || (DateReads(z, roster, date) && DateContains(z, roster, date, start, end))
  }

  lemma LenientlyTold(z: Zone, roster: Roster, date: int, start: Instant, end: Instant)
    requires z.WellSeparated()
    ensures LenientlyCovered(z, roster, date, start, end) <==> LenientlyWorked(z, roster, date, start, end)
  {
    hide ShiftsOn, AnyCovers, DateContains, Evaluates, DateReads;
    DateTold(z, roster, date - 1, start, end);
    DateTold(z, roster, date, start, end);
  }

  method ScheduleIntervals(z: Zone, roster: Roster, date: int) returns (intervals: seq<(Instant, Instant)>)
    ensures forall start, end :: InSome(intervals, start, end) <==> LenientlyCovered(z, roster, date, start, end)
    ensures z.WellSeparated() ==>
              forall start, end :: InSome(intervals, start, end) <==> LenientlyWorked(z, roster, date, start, end)
  {
    hide ShiftsOn, Evaluates, AnyCovers, InSome, DateReads, DateContains, LenientlyWorked;
    if z.WellSeparated() {
      forall start, end
        ensures LenientlyCovered(z, roster, date, start, end) <==> LenientlyWorked(z, roster, date, start, end)
      {
        LenientlyTold(z, roster, date, start, end);
      }
    }
    intervals := [];
    NothingInNone();
    for scheduleDate := date - 1 to date + 1
      invariant forall start, end :: InSome(intervals, start, end) <==>
                  ((scheduleDate > date - 1 && DateCovers(z, roster, date - 1, start, end))
                   || (scheduleDate > date && DateCovers(z, roster, date, start, end)))
    {
      var found := IntervalsStartingOn(z, roster, scheduleDate);
      if found.Some? {
        forall start, end
          ensures InSome(intervals + found.value, start, end) <==>
                  (InSome(intervals, start, end) || InSome(found.value, start, end))
        {
          InSomeMore(intervals, found.value, start, end);
        }
        intervals := intervals + found.value;
      }
    }
  }

  lemma NothingInNone()
    ensures forall start, end :: !InSome([], start, end)
  {
  }

  predicate StartsOn(branch: Branch, date: int, u: Instant) {
    DateOf(branch.zone.Show(u)) == date && OnSlotGrid(branch, u)
  }

  lemma {:induction false} Farther(step: int, p: int, q: int)
    requires step > 0 && p < q
    ensures step * p + step <= step * q
    decreases q - p
  {
    assert step * q == step * (q - 1) + step;
    if p < q - 1 {
      Farther(step, p, q - 1);
    }
  }

  lemma NextGridPoint(x: int, y: int, step: int)
    requires step > 0 && x % step == 0 && y % step == 0 && x <= y < x + step
    ensures x == y
  {
    var p, q := x / step, y / step;
    assert x == step * p && y == step * q;
    if p < q {
      Farther(step, p, q);
    } else if q < p {
      Farther(step, q, p);
    }
  }

  lemma StepStays(x: int, step: int)
    requires step > 0 && x % step == 0
    ensures (x + step) % step == 0
  {
    var p, q, r := x / step + 1, (x + step) / step, (x + step) % step;
    assert x + step == step * p && x + step == step * q + r;
    if p < q {
      Farther(step, p, q);
    } else if q < p {
      Farther(step, q, p);
    }
  }

  /** Walks the local grid of one date, skipping wall times that do not convert. */
  method CandidateStarts(branch: Branch, date: int) returns (starts: seq<Instant>)
    requires branch.gridMinutes > 0
    ensures forall u :: u in starts <==> StartsOn(branch, date, u)
    ensures forall i, j | 0 <= i < j < |starts| :: starts[i] != starts[j]
  {
    hide LocalToUtc;
    var z, step := branch.zone, branch.gridMinutes * MINUTE;
    var local := date * DAY;
    var localEnd := local + DAY;
    starts := [];
    while local < localEnd
      invariant date * DAY <= local && (local - date * DAY) % step == 0
      invariant forall u :: u in starts <==> (StartsOn(branch, date, u) && z.Show(u) < local)
      invariant forall i, j | 0 <= i < j < |starts| :: starts[i] != starts[j]
      decreases localEnd - local
    {
      var r := LocalToUtc(z, local, None);
      GridStep(branch, date, local);
      if r.Ok? {
        starts := starts + [r.value];
      }
      StepStays(local - date * DAY, step);
      local := local + step;
    }
  }

  /** The only start in the next grid step is the one its first wall time converts to. */
  lemma GridStep(branch: Branch, date: int, local: Wall)
    requires branch.gridMinutes > 0 && date * DAY <= local < date * DAY + DAY
    requires (local - date * DAY) % (branch.gridMinutes * MINUTE) == 0
    ensures var r := LocalToUtc(branch.zone, local, None); var step := branch.gridMinutes * MINUTE;
            && (r.Ok? ==> branch.zone.Show(r.value) == local)
            && forall u :: (StartsOn(branch, date, u) && local <= branch.zone.Show(u) < local + step) <==> r == Ok(u)
  {
    var z, step := branch.zone, branch.gridMinutes * MINUTE;
    assert local % DAY == local - date * DAY;
    forall u | StartsOn(branch, date, u) && local <= z.Show(u) < local + step
      ensures z.Show(u) == local
    {
      assert z.Show(u) % DAY == z.Show(u) - date * DAY;
      NextGridPoint(local - date * DAY, z.Show(u) - date * DAY, step);
    }
  }

  function EndOf(rows: Rows, a: Assignment, start: Instant): Instant
    requires a.service in rows.services
  {
    start + rows.services[a.service].durationSeconds * SECOND
  }

  predicate OfferedOn(rows: Rows, branch: Branch, now: Instant, a: Assignment, date: int, s: Slot) {
    Offered(rows, branch, now, a, s) && DateOf(branch.zone.Show(s.start)) == date
  }

  method SlotsOn(rows: Rows, branch: Branch, now: Instant, a: Assignment, date: int) returns (slots: seq<Slot>)
    requires branch.gridMinutes > 0 && a.service in rows.services
    ensures forall s :: s in slots <==> OfferedOn(rows, branch, now, a, date, s)
    ensures Distinct(slots)
  {
    hide OnSlotGrid, MayStart, LenientlyCovered, InSome, RosterOf;
    var intervals := ScheduleIntervals(branch.zone, RosterOf(rows.rules, rows.exceptions, a.branch, a.barber), date);
    var starts := CandidateStarts(branch, date);
    slots := [];
    for i := 0 to |starts|
      invariant forall s :: s in slots <==> (s.start in starts[..i] && OfferedOn(rows, branch, now, a, date, s))
      invariant Distinct(slots)
    {
      var start := starts[i];
      var end := EndOf(rows, a, start);
      assert start in starts && start !in starts[..i] && starts[..i + 1] == starts[..i] + [start];
      if MayStart(branch, Aware(start, 0), now) {
        if InSome(intervals, start, end) {
          slots := slots + [Slot(start, a.barber, a.service, end)];
        }
      }
    }
    assert starts[..|starts|] == starts;
    forall s | OfferedOn(rows, branch, now, a, date, s)
      ensures s.start in starts
    {
      assert StartsOn(branch, date, s.start);
    }
  }

  lemma DistinctAppend(a: seq<Slot>, b: seq<Slot>)
    requires Distinct(a) && Distinct(b) && forall s | s in a :: s !in b
    ensures Distinct(a + b)
  {
    var all := a + b;
    forall i, j | 0 <= i < j < |all|
      ensures all[i] != all[j]
    {
      if i < |a| <= j {
        assert a[i] in a && b[j - |a|] in b;
      }
    }
  }

  method SlotsOf(rows: Rows, q: Query, branch: Branch, now: Instant, a: Assignment) returns (slots: seq<Slot>)
    requires branch.gridMinutes > 0 && a.service in rows.services && q.dateFrom <= q.dateTo
    ensures forall s :: s in slots <==> (Offered(rows, branch, now, a, s) && InRange(q, branch, s))
    ensures Distinct(slots)
  {
    hide Offered, Distinct;
    slots := [];
    NoSlotsAreDistinct();
    for date := q.dateFrom to q.dateTo + 1
      invariant forall s :: s in slots <==>
                  (Offered(rows, branch, now, a, s) && q.dateFrom <= DateOf(branch.zone.Show(s.start)) < date)
      invariant Distinct(slots)
    {
      var more := SlotsOn(rows, branch, now, a, date);
      DistinctAppend(slots, more);
      slots := slots + more;
    }
  }

  lemma NoSlotsAreDistinct()
    ensures Distinct([])
  {
  }

  /** The assignments of the query; the database orders them, the final sort forgets it. */
  function Selected(rows: Rows, q: Query): set<Assignment> {
    set a | a in rows.catalog.assignments && Bookable(rows, a) && Asked(q, a)
  }

  method Candidates(rows: Rows, q: Query, branch: Branch, now: Instant) returns (slots: seq<Slot>)
    requires branch.gridMinutes > 0 && q.dateFrom <= q.dateTo
    ensures forall s :: s in slots <==> Candidate(rows, q, branch, now, s)
    ensures Distinct(slots)
  {
    hide OnSlotGrid, MayStart, LenientlyCovered, InRange, Distinct, Bookable, Asked;
    var selected := Selected(rows, q);
    var pending := selected;
    slots := [];
    NoSlotsAreDistinct();
    while pending != {}
      invariant pending <= selected
      invariant forall s :: s in slots <==>
                  (Assignment(q.branch, s.barber, s.service) in selected - pending
                   && Candidate(rows, q, branch, now, s))
      invariant Distinct(slots)
      decreases |pending|
    {
      var a :| a in pending;
      SelectedAssignment(rows, q, a);
      var more := SlotsOf(rows, q, branch, now, a);
      DistinctAppend(slots, more);
      slots := slots + more;
      pending := pending - {a};
    }
    forall s | Candidate(rows, q, branch, now, s)
      ensures Assignment(q.branch, s.barber, s.service) in selected
    {
      CandidateIsSelected(rows, q, branch, now, s);
    }
  }

  lemma CandidateIsSelected(rows: Rows, q: Query, branch: Branch, now: Instant, s: Slot)
    requires Candidate(rows, q, branch, now, s)
    ensures Assignment(q.branch, s.barber, s.service) in Selected(rows, q)
  {
    hide Offered, InRange;
  }

  lemma SelectedAssignment(rows: Rows, q: Query, a: Assignment)
    requires a in Selected(rows, q)
    ensures a == Assignment(q.branch, a.barber, a.service) && a.service in rows.services
    ensures Bookable(rows, a) && Asked(q, a)
  {
  }

  /** The prefetched bookings: of these barbers, not cancelled, meeting the window. */
  function Occupied(bookings: map<Id, Booking>, barbers: set<Id>, from: Instant, to: Instant): map<Id, Booking> {
    map id | id in bookings && bookings[id].barber in barbers && bookings[id].startAt < to
             && bookings[id].endAt > from && bookings[id].status != Cancelled :: bookings[id]
  }

  lemma BusyInWindow(bookings: map<Id, Booking>, s: Slot, barbers: set<Id>, from: Instant, to: Instant)
    requires Busy(bookings, s) && s.barber in barbers && from <= s.start && s.end <= to
    ensures Busy(Occupied(bookings, barbers, from, to), s)
  {
    var id :| id in bookings && bookings[id].barber == s.barber && bookings[id].status != Cancelled
              && Overlaps(bookings[id].startAt, bookings[id].endAt, s.start, s.end);
    assert id in Occupied(bookings, barbers, from, to);
  }

  /** Bookings that meet the window of all candidates are prefetched; the filter needs no others. */
  method WithoutBusy(bookings: map<Id, Booking>, candidates: seq<Slot>) returns (available: seq<Slot>)
    requires Distinct(candidates)
    ensures forall s :: s in available <==> (s in candidates && !Busy(bookings, s))
    ensures Distinct(available)
  {
    if candidates == [] {
      return [];
    }
    var firstStart, lastEnd := candidates[0].start, candidates[0].end;
    for i := 1 to |candidates|
      invariant forall j | 0 <= j < i :: firstStart <= candidates[j].start && candidates[j].end <= lastEnd
    {
      firstStart, lastEnd := Min(firstStart, candidates[i].start), Max(lastEnd, candidates[i].end);
    }
    var barbers := set s | s in candidates :: s.barber;
    var occupied := Occupied(bookings, barbers, firstStart, lastEnd);
    available := [];
    for i := 0 to |candidates|
      invariant forall s :: s in available <==> (s in candidates[..i] && !Busy(bookings, s))
      invariant Distinct(available)
    {
      var s := candidates[i];
      assert s in candidates && s.barber in barbers;
      if Busy(bookings, s) {
        BusyInWindow(bookings, s, barbers, firstStart, lastEnd);
      }
      assert s !in candidates[..i] && candidates[..i + 1] == candidates[..i] + [s];
      if !Busy(occupied, s) {
        available := available + [s];
      }
    }
    assert candidates[..|candidates|] == candidates;
  }

  // --------------------------------------------------------- order and limit

  function Insert(s: Slot, sorted: seq<Slot>): seq<Slot> {
    if sorted == [] || Precedes(s, sorted[0]) then [s] + sorted else [sorted[0]] + Insert(s, sorted[1..])
  }

  /** `sorted(slots)`. */
  function Sorted(slots: seq<Slot>): seq<Slot> {
    if slots == [] then [] else Insert(slots[0], Sorted(slots[1..]))
  }

  lemma {:induction false} InsertKeeps(s: Slot, sorted: seq<Slot>)
    requires Increasing(sorted) && s !in sorted
    ensures Increasing(Insert(s, sorted))
    ensures forall x :: x in Insert(s, sorted) <==> x == s || x in sorted
  {
    if sorted == [] || Precedes(s, sorted[0]) {
    } else {
      InsertKeeps(s, sorted[1..]);
      var rest := Insert(s, sorted[1..]);
      forall j | 0 <= j < |rest|
        ensures Precedes(sorted[0], rest[j])
      {
        assert rest[j] in rest;
      }
      assert sorted == [sorted[0]] + sorted[1..];
    }
  }

  lemma {:induction false} SortedIsIncreasing(slots: seq<Slot>)
    requires Distinct(slots)
    ensures Increasing(Sorted(slots)) && forall x :: x in Sorted(slots) <==> x in slots
  {
    if slots != [] {
      SortedIsIncreasing(slots[1..]);
      assert slots == [slots[0]] + slots[1..];
      InsertKeeps(slots[0], Sorted(slots[1..]));
    }
  }

  /** The slots are the first `limit` of all that are open, in their order. */
  ghost predicate FirstOpen(rows: Rows, q: Query, branch: Branch, now: Instant, slots: seq<Slot>) {
    && Increasing(slots) && |slots| <= q.limit
    && (forall s | s in slots :: Open(rows, q, branch, now, s))
    && (forall s | Open(rows, q, branch, now, s) && s !in slots ::
          |slots| == q.limit && forall t | t in slots :: Precedes(t, s))
  }

  method ListAvailableSlots(rows: Rows, q: Query, now: Instant) returns (r: Result<seq<Slot>, QueryError>)
    requires forall b | b in rows.catalog.branches :: rows.catalog.branches[b].gridMinutes > 0
    ensures match (QueryBranch(rows.catalog, q, now), r)
            case (Err(e), _) => r == Err(e)
            case (Ok(branch), Ok(slots)) => FirstOpen(rows, q, branch, now, slots)
            case (Ok(_), Err(_)) => false
  {
    hide Candidate, Busy, Distinct, Increasing, Sorted;
    var checked := QueryBranch(rows.catalog, q, now);
    if checked.Err? {
      return Err(checked.error);
    }
    var branch := checked.value;
    var candidates := Candidates(rows, q, branch, now);
    var available := WithoutBusy(rows.bookings, candidates);
    SortedIsIncreasing(available);
    var sorted := Sorted(available);
    var slots := if |sorted| <= q.limit then sorted else sorted[..q.limit];
    TakeFirst(rows, q, branch, now, sorted);
    return Ok(slots);
  }

  lemma TakeFirst(rows: Rows, q: Query, branch: Branch, now: Instant, sorted: seq<Slot>)
    requires Increasing(sorted) && q.limit >= 0
    requires forall s :: s in sorted <==> Open(rows, q, branch, now, s)
    ensures FirstOpen(rows, q, branch, now, if |sorted| <= q.limit then sorted else sorted[..q.limit])
  {
    hide Open, Precedes;
    if |sorted| > q.limit {
      var slots := sorted[..q.limit];
      forall s, t | s in sorted && s !in slots && t in slots
        ensures Precedes(t, s)
      {
        var i :| 0 <= i < |sorted| && sorted[i] == s;
        var j :| 0 <= j < |slots| && slots[j] == t;
        assert i >= q.limit || slots[i] == s;
      }
    }
  }

  lemma {:induction false} DistinctSize(slots: seq<Slot>)
    requires Distinct(slots)
    ensures |set s | s in slots| == |slots|
  {
    if slots != [] {
      DistinctSize(slots[1..]);
      assert slots == [slots[0]] + slots[1..];
      assert (set s | s in slots) == {slots[0]} + (set s | s in slots[1..]);
    }
  }

  lemma TailSlots(a: seq<Slot>, s: Slot)
    requires a != [] && Increasing(a)
    ensures s in a[1..] <==> (s in a && s != a[0])
  {
    if s in a && s != a[0] {
      var i :| 0 <= i < |a| && a[i] == s;
      assert a[1..][i - 1] == s;
    }
  }

  lemma {:induction false} IncreasingIsUnique(a: seq<Slot>, b: seq<Slot>)
    requires Increasing(a) && Increasing(b) && forall s :: s in a <==> s in b
    ensures a == b
  {
    if a == [] {
      HasMember(b);
    } else {
      assert a[0] in a && a[0] in b && b[0] in b && b[0] in a;
      forall s
        ensures s in a[1..] <==> s in b[1..]
      {
        TailSlots(a, s);
        TailSlots(b, s);
      }
      IncreasingIsUnique(a[1..], b[1..]);
    }
  }

  /** One list misses a slot of another only by being full of earlier ones; so they are the same. */
  lemma NothingExtra(rows: Rows, q: Query, branch: Branch, now: Instant, a: seq<Slot>, b: seq<Slot>, s: Slot)
    requires FirstOpen(rows, q, branch, now, a) && FirstOpen(rows, q, branch, now, b) && s in a
    ensures s in b
  {
    hide Open;
    if s !in b {
      forall t | t in b
        ensures t in a
      {
      }
      var inA, inB := set t | t in a, set t | t in b;
      DistinctSize(a);
      DistinctSize(b);
      assert inB <= inA - {s};
      assert |inA - {s}| == |inA| - 1;
      Smaller(inB, inA - {s});
    }
  }

  lemma Smaller(a: set<Slot>, b: set<Slot>)
    requires a <= b
    ensures |a| <= |b|
  {
    assert b == a + (b - a);
  }

  /** The published list is canonical: rows, clock and query determine it. */
  lemma FirstOpenIsUnique(rows: Rows, q: Query, branch: Branch, now: Instant, a: seq<Slot>, b: seq<Slot>)
    requires FirstOpen(rows, q, branch, now, a) && FirstOpen(rows, q, branch, now, b)
    ensures a == b
  {
    forall s
      ensures s in a <==> s in b
    {
      if s in a { NothingExtra(rows, q, branch, now, a, b, s); }
      if s in b { NothingExtra(rows, q, branch, now, b, a, s); }
    }
    hide Open, Precedes;
    IncreasingIsUnique(a, b);
  }

  /** What was asked for: the barber and the service of the query, if it names them, in its dates. */
  predicate Wanted(q: Query, branch: Branch, s: Slot) {
    && (q.barber == None || q.barber == Some(s.barber)) && (q.service == None || q.service == Some(s.service))
    && q.dateFrom <= DateOf(branch.zone.Show(s.start)) <= q.dateTo
  }

  lemma WantedIsAsked(q: Query, branch: Branch, s: Slot)
    ensures Wanted(q, branch, s) <==> Asked(q, Assignment(q.branch, s.barber, s.service)) && InRange(q, branch, s)
  {
  }

  /** The list is in the order of starts, then of barbers, then of services. */
  lemma ListedInOrder(rows: Rows, q: Query, branch: Branch, now: Instant, slots: seq<Slot>, i: nat, j: nat)
    requires FirstOpen(rows, q, branch, now, slots) && i < j < |slots|
    ensures var a, b := slots[i], slots[j];
            a.start < b.start || (a.start == b.start &&
                                  (a.barber < b.barber || (a.barber == b.barber && a.service < b.service)))
  {
    assert Precedes(slots[i], slots[j]) && slots[i] in slots && slots[j] in slots;
    assert Open(rows, q, branch, now, slots[i]) && Open(rows, q, branch, now, slots[j]);
    hide FirstOpen, Busy, Bookable, OnSlotGrid, MayStart, LenientlyCovered;
  }

  /**
   What a client can rely on: at most 500 slots and no more than asked for, of the barber and
   service asked for, in at most 31 dates, none too soon or too far.
   */
  lemma ListedSlotsAreNear(rows: Rows, q: Query, branch: Branch, now: Instant, slots: seq<Slot>, s: Slot)
    requires QueryBranch(rows.catalog, q, now) == Ok(branch) && FirstOpen(rows, q, branch, now, slots) && s in slots
    ensures |slots| <= q.limit <= 500 && branch.business == q.business && Wanted(q, branch, s)
    ensures now + branch.minLeadMinutes * MINUTE <= s.start
    ensures var date := DateOf(branch.zone.Show(s.start));
            q.dateFrom <= date < q.dateFrom + 31 && date <= DateOf(branch.zone.Show(now)) + branch.horizonDays
  {
  }

  // ---------------------------------------------------- agreement with create

  /** The create command asks for the slot, in the branch of the query. */
  predicate Submits(cmd: Visit, q: Query, s: Slot) {
    && cmd.Create? && cmd.scope.business == q.business && cmd.branch == q.branch
    && cmd.barber == s.barber && cmd.service == s.service
    && cmd.startAt.Aware? && cmd.startAt.utc == s.start
  }

  /** A first use of its key, with an id and a secret never used before. */
  predicate FreshDraw(rows: Rows, cmd: Visit, draw: Draw) {
    && cmd.Create? && cmd.Identity() !in rows.receipts && draw.freshId !in rows.bookings
    && (cmd.secret.Some? ==> !DigestTaken(rows.tokens, Sha256(cmd.secret.value)))
  }

  lemma MayStartIgnoresOffset(branch: Branch, utc: Instant, offset: int, now: Instant)
    ensures MayStart(branch, Aware(utc, offset), now) == MayStart(branch, Aware(utc, 0), now)
  {
  }

  lemma CandidateIsServed(rows: Rows, q: Query, branch: Branch, now: Instant, s: Slot)
    requires TablesValid(rows) && Candidate(rows, q, branch, now, s)
    ensures s.service in rows.services && rows.services[s.service].branch == q.branch
  {
    var a := Assignment(q.branch, s.barber, s.service);
    hide Offered, InRange;
    assert AssignmentServed(rows.services, a);
  }

  lemma CandidateConsults(rows: Rows, q: Query, branch: Branch, now: Instant, s: Slot, cmd: Visit)
    requires QueryBranch(rows.catalog, q, now) == Ok(branch) && Candidate(rows, q, branch, now, s) && Submits(cmd, q, s)
    requires rows.services[s.service].branch == q.branch
    ensures GateOf(rows.catalog, cmd, SeenIn(rows, cmd), now) == Consult(q.branch, s.barber, s.start, s.end)
    ensures SeenIn(rows, cmd).service == Some(rows.services[s.service])
    ensures FitIn(rows, GateOf(rows.catalog, cmd, SeenIn(rows, cmd), now)) == VerdictFor(rows, q, branch, s)
  {
    hide BookingFits, RosterOf, OnSlotGrid, LenientlyCovered, InRange, MayStart;
    MayStartIgnoresOffset(branch, s.start, cmd.startAt.offset, now);
  }

  function VerdictFor(rows: Rows, q: Query, branch: Branch, s: Slot): Fit {
    BookingFits(branch.zone, RosterOf(rows.rules, rows.exceptions, q.branch, s.barber), s.start, s.end)
  }

  /** Where both dates evaluate, skipping dates and raising come to the same. */
  lemma LenientIsStrict(z: Zone, roster: Roster, start: Instant, end: Instant)
    ensures var date := DateOf(z.Show(start));
            && (BookingFits(z, roster, start, end) != Unevaluable ==>
                  (LenientlyCovered(z, roster, date, start, end) <==> BookingFits(z, roster, start, end) == Fits))
  {
    hide ShiftsOn, Evaluates, AnyCovers;
  }

  lemma BusyIsTaken(bookings: map<Id, Booking>, id: Id, s: Slot)
    requires id !in bookings
    ensures Acceptance.Taken(bookings, id, s.barber, s.start, s.end) <==> Busy(bookings, s)
  {
  }

  lemma FreeSlotIsAccepted(rows: Rows, w: BookingWrite, s: Slot, now: Instant, clock: Instant)
    requires Core(rows, clock) && WriteShape(rows, w, now) && w.isInsert && w.id !in rows.bookings
    requires w.token.Some? ==> !DigestTaken(rows.tokens, w.token.value.digest)
    requires w.booking.barber == s.barber && w.booking.startAt == s.start && w.booking.endAt == s.end
    requires w.booking.status == Confirmed && !Busy(rows.bookings, s)
    ensures VerdictOn(rows, w) == Accepted
  {
    hide Core, WriteShape, VerdictOn, Busy, Acceptance.Taken;
    Acceptance.VerdictTells(rows, w, now, clock);
    BusyIsTaken(rows.bookings, w.id, s);
  }

  lemma CoreTables(rows: Rows, q: Query, branch: Branch, now: Instant, clock: Instant)
    requires Core(rows, clock) && QueryBranch(rows.catalog, q, now) == Ok(branch)
    ensures TablesValid(rows) && branch.zone.WellSeparated()
  {
  }

  /**
   Soundness, exactly: with rows and clock unchanged, a free slot submitted to create is
   booked to the same end, unless one of its two dates cannot be evaluated; then it raises.
   */
  lemma OpenSlotIsBooked(rows: Rows, q: Query, branch: Branch, now: Instant, s: Slot, cmd: Visit, draw: Draw,
        clock: Instant)
    requires Core(rows, clock) && QueryBranch(rows.catalog, q, now) == Ok(branch) && Open(rows, q, branch, now, s)
    requires Submits(cmd, q, s) && FreshDraw(rows, cmd, draw) && draw.now == now
    ensures var (rows', a) := Execute(rows, cmd, draw);
            if VerdictFor(rows, q, branch, s) == Unevaluable then a == Raised(LocalTimeFailure) && rows' == rows
            else
              && a.Answered? && a.code == CREATED && !a.replayed && draw.freshId in rows'.bookings
              && var b := rows'.bookings[draw.freshId];
                 b.branch == q.branch && b.barber == s.barber && b.service == s.service
                 && b.startAt == s.start && b.endAt == s.end && b.status == Confirmed
  {
    OpenSlotPlan(rows, q, branch, now, s, cmd, draw, clock);
    assert cmd.Identity() !in rows.receipts && cmd.Create? && cmd.WellFormed() && !Busy(rows.bookings, s);
    hide *;
    var plan := PlanIn(rows, cmd, draw);
    var (rows', a) := Execute(rows, cmd, draw);
    Acceptance.AnswerOfPlan(rows, cmd, draw);
    if VerdictFor(rows, q, branch, s) != Unevaluable {
      PlannedWrite(rows, cmd, draw);
      SlotAnswers(rows, plan, q, s, cmd, draw, rows', a, clock);
    } else {
      Acceptance.QuietAnswers(rows, plan, rows', a);
    }
  }

  lemma SlotAnswers(rows: Rows, plan: Plan, q: Query, s: Slot, cmd: Visit, draw: Draw, rows': Rows, a: Answer,
                    clock: Instant)
    requires Core(rows, clock) && FreshDraw(rows, cmd, draw) && !Busy(rows.bookings, s)
    requires plan.Write? && BooksSlot(plan.write, q, s, cmd, draw) && WriteShape(rows, plan.write, draw.now)
    requires Acceptance.AnswersPlan(rows, plan, rows', a)
    ensures a.Answered? && a.code == CREATED && !a.replayed && draw.freshId in rows'.bookings
    ensures var b := rows'.bookings[draw.freshId];
            b.branch == q.branch && b.barber == s.barber && b.service == s.service
            && b.startAt == s.start && b.endAt == s.end && b.status == Confirmed
  {
    hide Core, VerdictOn, Busy, WriteShape, FreshDraw, Acceptance.AnswersPlan;
    OpenSlotIsAccepted(rows, plan.write, s, cmd, draw, clock);
    Acceptance.AcceptedAnswers(rows, plan, rows', a);
  }

  /** The insert that books the slot. */
  predicate BooksSlot(w: BookingWrite, q: Query, s: Slot, cmd: Visit, draw: Draw)
    requires cmd.Create?
  {
    && w.isInsert && w.id == draw.freshId && w.code == CREATED
    && w.booking.branch == q.branch && w.booking.barber == s.barber && w.booking.service == s.service
    && w.booking.startAt == s.start && w.booking.endAt == s.end && w.booking.status == Confirmed
    && (w.token.Some? ==> cmd.secret.Some? && w.token.value.digest == Sha256(cmd.secret.value))
  }

  lemma OpenSlotPlan(rows: Rows, q: Query, branch: Branch, now: Instant, s: Slot, cmd: Visit, draw: Draw,
        clock: Instant)
    requires Core(rows, clock) && QueryBranch(rows.catalog, q, now) == Ok(branch) && Candidate(rows, q, branch, now, s)
    requires Submits(cmd, q, s) && draw.now == now
    ensures TablesValid(rows)
    ensures var plan := PlanIn(rows, cmd, draw);
            if VerdictFor(rows, q, branch, s) == Unevaluable then plan == Stop(LocalTimeFailure)
            else plan.Write? && BooksSlot(plan.write, q, s, cmd, draw)
  {
    CoreTables(rows, q, branch, now, clock);
    hide Core;
    CandidateIsServed(rows, q, branch, now, s);
    CandidateConsults(rows, q, branch, now, s, cmd);
    CandidateFits(rows, q, branch, now, s);
    SlotInsert(rows, q, branch, now, s, cmd, draw);
    hide GateOf, FitIn, VerdictFor, SeenIn, PlanIn, Candidate, TablesValid, InsertOf, BooksSlot, QueryBranch;
    ConsultPlan(rows, cmd, draw);
  }

  lemma SlotInsert(rows: Rows, q: Query, branch: Branch, now: Instant, s: Slot, cmd: Visit, draw: Draw)
    requires QueryBranch(rows.catalog, q, now) == Ok(branch) && Candidate(rows, q, branch, now, s) && Submits(cmd, q, s)
    ensures cmd.branch in rows.catalog.branches
    ensures BooksSlot(InsertOf(rows.catalog, cmd, rows.services[s.service], draw), q, s, cmd, draw)
  {
    hide OnSlotGrid, MayStart, LenientlyCovered, InRange, Bookable, Asked, RosterOf;
  }

  lemma CandidateFits(rows: Rows, q: Query, branch: Branch, now: Instant, s: Slot)
    requires Candidate(rows, q, branch, now, s)
    ensures VerdictFor(rows, q, branch, s) != Misfit
  {
    LenientIsStrict(branch.zone, RosterOf(rows.rules, rows.exceptions, q.branch, s.barber), s.start, s.end);
    hide OnSlotGrid, MayStart, LenientlyCovered, InRange, Bookable, Asked, RosterOf, BookingFits;
  }

  lemma OpenSlotIsAccepted(rows: Rows, w: BookingWrite, s: Slot, cmd: Visit, draw: Draw, clock: Instant)
    requires Core(rows, clock) && FreshDraw(rows, cmd, draw) && WriteShape(rows, w, draw.now) && !Busy(rows.bookings, s)
    requires w.isInsert && w.id == draw.freshId && w.booking.status == Confirmed
    requires w.booking.barber == s.barber && w.booking.startAt == s.start && w.booking.endAt == s.end
    requires w.token.Some? ==> cmd.secret.Some? && w.token.value.digest == Sha256(cmd.secret.value)
    ensures VerdictOn(rows, w) == Accepted
  {
    hide Core, WriteShape, VerdictOn, Busy;
    FreeSlotIsAccepted(rows, w, s, draw.now, clock);
  }

  lemma ConsultPlan(rows: Rows, cmd: Visit, draw: Draw)
    requires cmd.Create? && cmd.startAt.Aware? && GateOf(rows.catalog, cmd, SeenIn(rows, cmd), draw.now).Consult?
    requires cmd.branch in rows.catalog.branches && SeenIn(rows, cmd).service.Some?
    ensures var fit := FitIn(rows, GateOf(rows.catalog, cmd, SeenIn(rows, cmd), draw.now));
            PlanIn(rows, cmd, draw) ==
              match fit
              case Unevaluable => Stop(LocalTimeFailure)
              case Misfit => Stop(RuleViolation)
              case Fits => Write(InsertOf(rows.catalog, cmd, SeenIn(rows, cmd).service.value, draw))
  {
    hide GateOf, SeenIn, FitIn, InsertOf;
  }

  lemma ModSplit(x: int, m: int)
    requires 0 <= x && m > 0
    ensures x % (m * MINUTE) == 0 <==> (x % SECOND == 0 && x / SECOND % (m * 60) == 0)
  {
    var k := m * 60;
    assert m * MINUTE == k * SECOND;
    if x % (k * SECOND) == 0 {
      var n := x / (k * SECOND);
      assert x == (k * SECOND) * n;
      assert x == SECOND * (k * n) by { Assoc(k, SECOND, n); }
      assert x / SECOND == k * n;
      MultipleMod(k, n);
    }
    if x % SECOND == 0 && x / SECOND % k == 0 {
      var n := x / SECOND / k;
      assert x / SECOND == k * n;
      assert x == (k * SECOND) * n by { Assoc(k, SECOND, n); }
      MultipleMod(k * SECOND, n);
    }
  }

  lemma Assoc(a: int, b: int, c: int)
    ensures (a * b) * c == b * (a * c)
  {
  }

  lemma MultipleMod(m: int, n: int)
    requires m > 0
    ensures (m * n) % m == 0
  {
    var q, r := (m * n) / m, (m * n) % m;
    assert m * n == m * q + r;
    if n < q {
      Farther(m, n, q);
    } else if q < n {
      Farther(m, q, n);
    }
  }

  predicate GridPoint(branch: Branch, w: Wall, k: nat) {
    w == DateOf(w) * DAY + branch.gridMinutes * MINUTE * k
  }

  /**
   The start rules: an instant with a zone, at least the lead time ahead, at most the horizon's
   dates ahead, and a whole number of grid steps after local midnight.
   */
  lemma StartRules(branch: Branch, startAt: StartAt, now: Instant)
    requires branch.gridMinutes > 0
    ensures MayStart(branch, startAt, now) <==>
            && startAt.Aware? && startAt.utc - now >= branch.minLeadMinutes * 60 * SECOND
            && DateOf(branch.zone.Show(startAt.utc)) - DateOf(branch.zone.Show(now)) <= branch.horizonDays
            && exists k: nat :: GridPoint(branch, branch.zone.Show(startAt.utc), k)
  {
    if startAt.Aware? {
      var w, step := branch.zone.Show(startAt.utc), branch.gridMinutes * MINUTE;
      SecondsAgree(w, branch.gridMinutes);
      if w % DAY % step == 0 {
        assert w % DAY == step * (w % DAY / step);
        assert GridPoint(branch, w, w % DAY / step);
      }
      if k: nat :| GridPoint(branch, w, k) {
        MultipleMod(step, k);
      }
    }
  }

  /** The grid rule of the guards is the grid the query walks. */
  lemma GridAgrees(branch: Branch, u: Instant)
    requires branch.zone.WellSeparated() && branch.zone.Unambiguous(u)
    ensures OnGrid(branch, branch.zone.Show(u)) <==> OnSlotGrid(branch, u)
  {
    var w := branch.zone.Show(u);
    ExactInverse(branch.zone, w);
    hide LocalToUtc;
    if branch.gridMinutes > 0 { SecondsAgree(w, branch.gridMinutes); }
  }

  lemma SecondsAgree(w: Wall, m: int)
    requires m > 0
    ensures w % DAY % (m * MINUTE) == 0 <==> (w % SECOND == 0 && w % DAY / SECOND % (m * 60) == 0)
  {
    ModSplit(w % DAY, m);
    SecondOfDay(w);
  }

  lemma SecondOfDay(w: Wall)
    ensures w % SECOND == w % DAY % SECOND
  {
  }

  /** A create is only answered CREATED for an accepted insert, at the instants its guards allow. */
  lemma CreatedWasAccepted(rows: Rows, cmd: Visit, draw: Draw)
    requires cmd.Create? && cmd.Identity() !in rows.receipts
    requires Execute(rows, cmd, draw).1.Answered? && Execute(rows, cmd, draw).1.code == CREATED
    ensures var gate := GateOf(rows.catalog, cmd, SeenIn(rows, cmd), draw.now); var plan := PlanIn(rows, cmd, draw);
            && gate.Consult? && FitIn(rows, gate) == Fits
            && plan.Write? && plan.write.isInsert && plan.write.id == draw.freshId
            && VerdictOn(rows, plan.write) == Accepted
            && plan.write.booking.barber == gate.barber
            && plan.write.booking.startAt == gate.start && plan.write.booking.endAt == gate.end
            && Execute(rows, cmd, draw).0.bookings == rows.bookings[draw.freshId := plan.write.booking]
  {
    hide MayStart, VerdictOn, BookingFits, ServicesOf;
  }

  lemma ConsultedIsCandidate(rows: Rows, q: Query, branch: Branch, now: Instant, s: Slot, cmd: Visit)
    requires QueryBranch(rows.catalog, q, now) == Ok(branch) && Submits(cmd, q, s)
    requires Asked(q, Assignment(q.branch, s.barber, s.service)) && InRange(q, branch, s)
    requires branch.zone.WellSeparated() && branch.zone.Unambiguous(s.start)
    requires var gate := GateOf(rows.catalog, cmd, SeenIn(rows, cmd), now);
             gate.Consult? && FitIn(rows, gate) == Fits && gate.end == s.end
    ensures Candidate(rows, q, branch, now, s)
  {
    GridAgrees(branch, s.start);
    MayStartIgnoresOffset(branch, s.start, cmd.startAt.offset, now);
    LenientIsStrict(branch.zone, RosterOf(rows.rules, rows.exceptions, q.branch, s.barber), s.start, s.end);
    hide OnSlotGrid, LenientlyCovered, InRange, Asked, BookingFits, RosterOf, OnGrid;
    MayStartOnGrid(branch, cmd.startAt, now);
    assert CreateGate(rows.catalog, cmd, SeenIn(rows, cmd).service, now).Consult?;
    assert MayStart(branch, cmd.startAt, now) by { hide MayStart; }
  }

  lemma MayStartOnGrid(branch: Branch, startAt: StartAt, now: Instant)
    ensures MayStart(branch, startAt, now) ==> startAt.Aware? && OnGrid(branch, branch.zone.Show(startAt.utc))
  {
  }

  /** What create accepts from the query's range and filters, the calendar offers. */
  lemma BookedSlotIsOpen(rows: Rows, q: Query, branch: Branch, now: Instant, s: Slot, cmd: Visit, draw: Draw,
        clock: Instant)
    requires Core(rows, clock) && QueryBranch(rows.catalog, q, now) == Ok(branch)
    requires Submits(cmd, q, s) && FreshDraw(rows, cmd, draw) && draw.now == now
    requires Wanted(q, branch, s) && branch.zone.Unambiguous(s.start)
    requires Execute(rows, cmd, draw).1.Answered? && Execute(rows, cmd, draw).1.code == CREATED
    requires draw.freshId in Execute(rows, cmd, draw).0.bookings
    requires Execute(rows, cmd, draw).0.bookings[draw.freshId].endAt == s.end
    ensures Open(rows, q, branch, now, s)
  {
    CoreTables(rows, q, branch, now, clock);
    WantedIsAsked(q, branch, s);
    hide Core, Execute, VerdictOn, Wanted;
    CreatedWasAccepted(rows, cmd, draw);
    PlannedWrite(rows, cmd, draw);
    ConsultsTheRequest(rows.catalog, cmd, SeenIn(rows, cmd), now);
    hide GateOf, SeenIn, FitIn, PlanIn, VerdictOn, Candidate, Busy, Execute, QueryBranch, Asked, InRange, FreshDraw;
    ConsultedIsCandidate(rows, q, branch, now, s, cmd);
    SlotIsFree(rows, cmd, draw, s, clock);
  }

  lemma ConsultsTheRequest(c: Catalog, cmd: Visit, seen: Seen, now: Instant)
    requires cmd.Create? && GateOf(c, cmd, seen, now).Consult?
    ensures cmd.startAt.Aware? && GateOf(c, cmd, seen, now).start == cmd.startAt.utc
    ensures GateOf(c, cmd, seen, now).barber == cmd.barber
  {
    hide OnGrid;
  }

  lemma SlotIsFree(rows: Rows, cmd: Visit, draw: Draw, s: Slot, clock: Instant)
    requires Core(rows, clock) && FreshDraw(rows, cmd, draw) && PlanIn(rows, cmd, draw).Write?
    requires var w := PlanIn(rows, cmd, draw).write;
             && w.isInsert && w.id == draw.freshId && WriteShape(rows, w, draw.now) && VerdictOn(rows, w) == Accepted
             && w.booking.barber == s.barber && w.booking.startAt == s.start && w.booking.endAt == s.end
    ensures !Busy(rows.bookings, s)
  {
    var w := PlanIn(rows, cmd, draw).write;
    hide Core, PlanIn;
    Acceptance.TakenIsExcluded(rows.bookings, w.id, w.booking);
    BusyIsTaken(rows.bookings, draw.freshId, s);
  }

  /**
   The published list against create, at full strength: a listed slot is booked to the same
   end whenever both its dates evaluate, and a slot create would book is listed, unless the
   list is full and everything on it comes earlier.
   */
  lemma ListAgreesWithCreate(rows: Rows, q: Query, branch: Branch, now: Instant, slots: seq<Slot>,
                             s: Slot, cmd: Visit, draw: Draw, clock: Instant)
    requires Core(rows, clock) && QueryBranch(rows.catalog, q, now) == Ok(branch)
    requires FirstOpen(rows, q, branch, now, slots)
    requires Submits(cmd, q, s) && FreshDraw(rows, cmd, draw) && draw.now == now
    requires s.service in rows.services ==> s.end == s.start + rows.services[s.service].durationSeconds * SECOND
    ensures s in slots && VerdictFor(rows, q, branch, s) != Unevaluable ==> Booked(rows, cmd, draw)
    ensures Booked(rows, cmd, draw) && branch.zone.Unambiguous(s.start)
            && Wanted(q, branch, s) ==>
              s in slots || (|slots| == q.limit && forall t | t in slots :: Precedes(t, s) && t.start <= s.start)
  {
    if s in slots {
      OpenSlotIsBooked(rows, q, branch, now, s, cmd, draw, clock);
    } else if Booked(rows, cmd, draw) && branch.zone.Unambiguous(s.start) && Wanted(q, branch, s) {
      BookedEnd(rows, cmd, draw);
      hide Core, Execute, Open, FreshDraw, QueryBranch, Wanted;
      BookedSlotIsOpen(rows, q, branch, now, s, cmd, draw, clock);
    }
  }

  predicate Booked(rows: Rows, cmd: Visit, draw: Draw) {
    Execute(rows, cmd, draw).1.Answered? && Execute(rows, cmd, draw).1.code == CREATED
  }

  lemma BookedEnd(rows: Rows, cmd: Visit, draw: Draw)
    requires cmd.Create? && cmd.Identity() !in rows.receipts && Booked(rows, cmd, draw)
    ensures cmd.service in rows.services && cmd.startAt.Aware? && draw.freshId in Execute(rows, cmd, draw).0.bookings
    ensures Execute(rows, cmd, draw).0.bookings[draw.freshId].endAt
            == cmd.startAt.utc + rows.services[cmd.service].durationSeconds * SECOND
  {
    CreatedWasAccepted(rows, cmd, draw);
    hide MayStart, VerdictOn, BookingFits, Execute;
  }
}
