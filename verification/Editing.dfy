/** What catalog edits keep: the constraints of the rule, exception and service tables. */
module Editing {
  import opened Base
  import opened Calendar
  import opened Schedule
  import opened Model
  import opened Commands
  import opened Invariants

  predicate RuleInOrder(c: Catalog, r: Rule) {
    0 <= r.weekday <= 6 && r.startsAt != r.endsAt && c.Assigned(r.branch, r.barber)
  }

  predicate SameSlot(r: Rule, r': Rule) {
    r.branch == r'.branch && r.barber == r'.barber && r.weekday == r'.weekday
    && r.startsAt == r'.startsAt && r.endsAt == r'.endsAt
  }

  predicate ExceptionInOrder(c: Catalog, x: DatedException) {
    && c.Assigned(x.branch, x.barber) && |x.reason| <= 200
    && (x.kind == Closed <==> x.startsAt.None?) && (x.kind == Closed <==> x.endsAt.None?)
    && (x.kind == Replacement ==> x.startsAt != x.endsAt)
  }

  predicate SameName(s: Service, s': Service) {
    s.branch == s'.branch && s.name == s'.name
  }

  ghost predicate RulesInOrder(rows: Rows) {
    && (forall id | id in rows.rules :: RuleInOrder(rows.catalog, rows.rules[id]))
    && (forall i, j | i in rows.rules && j in rows.rules && i != j :: !SameSlot(rows.rules[i], rows.rules[j]))
  }

  ghost predicate ExceptionsInOrder(rows: Rows) {
    && (forall id | id in rows.exceptions :: ExceptionInOrder(rows.catalog, rows.exceptions[id]))
    && (forall i, j | i in rows.exceptions && j in rows.exceptions && i != j ::
         !SameDate(rows.exceptions[i], rows.exceptions[j]))
  }

  ghost predicate ServicesInOrder(rows: Rows) {
    && (forall id | id in rows.services :: ServiceFields(rows.services[id]))
    && (forall i, j | i in rows.services && j in rows.services && i != j ::
         !SameName(rows.services[i], rows.services[j]))
  }

  ghost predicate InOrder(rows: Rows) {
    RulesInOrder(rows) && ExceptionsInOrder(rows) && ServicesInOrder(rows)
  }

  lemma RuleEditKeeps(rows: Rows, e: Edit)
    requires InOrder(rows) && e.EditRule? && Rewritten(rows, e).Ok?
    ensures InOrder(Rewritten(rows, e).value)
  {
    var r := ChangedRule(rows.rules[e.id], e.ruleChanges);
    var roster := RosterOf(rows.rules, rows.exceptions, r.branch, r.barber).rules;
    forall other | other in rows.rules && other != e.id
      ensures !SameSlot(r, rows.rules[other]) && !SameSlot(rows.rules[other], r)
    {
      if rows.rules[other].branch == r.branch && rows.rules[other].barber == r.barber {
        assert other in roster;
      }
    }
  }

  lemma ExceptionEditKeeps(rows: Rows, e: Edit)
    requires InOrder(rows) && e.EditException? && Rewritten(rows, e).Ok?
    ensures InOrder(Rewritten(rows, e).value)
  {
    var x := ChangedException(rows.exceptions[e.id], e.exceptionChanges);
    var roster := RosterOf(rows.rules, rows.exceptions, x.branch, x.barber).exceptions;
    forall other | other in rows.exceptions && other != e.id
      ensures !SameDate(x, rows.exceptions[other]) && !SameDate(rows.exceptions[other], x)
    {
      if rows.exceptions[other].branch == x.branch && rows.exceptions[other].barber == x.barber {
        assert other in roster;
      }
    }
  }

  lemma ServiceEditKeeps(rows: Rows, e: Edit)
    requires InOrder(rows) && e.EditService? && Rewritten(rows, e).Ok?
    ensures InOrder(Rewritten(rows, e).value)
  {
    var s := ChangedService(rows.services[e.id], e.serviceChanges);
    var siblings := ServicesOf(rows.services, s.branch);
    forall other | other in rows.services && other != e.id
      ensures !SameName(s, rows.services[other]) && !SameName(rows.services[other], s)
    {
      if rows.services[other].branch == s.branch {
        assert other in siblings;
      }
    }
  }

  lemma StepKeepsOrder(rows: Rows, e: Event)
    requires InOrder(rows)
    ensures InOrder(Step(rows, e).0)
  {
    hide Execute, ExecuteEdit, RuleInOrder, ExceptionInOrder, ServiceFields, SameSlot, SameDate, SameName;
    if e.VisitAt? {
      VisitKeepsOrder(rows, e.cmd, e.draw);
    } else if e.EditAt? {
      EditKeepsOrder(rows, e.edit, e.now);
    }
  }

  lemma EditKeepsOrder(rows: Rows, e: Edit, now: Instant)
    requires InOrder(rows)
    ensures InOrder(ExecuteEdit(rows, e, now).0)
  {
    hide InOrder, Rewritten, ExecuteEdit;
    EditFrame(rows, e, now);
    if Rewritten(rows, e).Ok? {
      match e
      case EditRule(_, _, _) => RuleEditKeeps(rows, e);
      case EditException(_, _, _) => ExceptionEditKeeps(rows, e);
      case EditService(_, _, _) => ServiceEditKeeps(rows, e);
    }
  }

  lemma VisitKeepsOrder(rows: Rows, cmd: Visit, draw: Draw)
    requires InOrder(rows)
    ensures InOrder(Execute(rows, cmd, draw).0)
  {
    hide Effect, Replay;
    EffectFrame(rows, cmd, draw);
  }

  /** Over every run each table keeps its constraints, whatever the edits ask for. */
  lemma {:induction false} RunKeepsOrder(rows: Rows, events: seq<Event>)
    requires InOrder(rows)
    ensures InOrder(Run(rows, events))
    decreases |events|
  {
    hide Step, InOrder;
    if events != [] {
      var n := |events| - 1;
      RunKeepsOrder(rows, events[..n]);
      StepKeepsOrder(Run(rows, events[..n]), events[n]);
    }
  }

  predicate Takes<T(==)>(change: Option<T>, before: T, after: T) {
    after == if change.Some? then change.value else before
  }

  /** r' is r with the requested fields set, and all others kept. */
  predicate AsksRule(r: Rule, ch: RuleChanges, r': Rule) {
    r'.branch == r.branch && r'.barber == r.barber && Takes(ch.weekday, r.weekday, r'.weekday)
    && Takes(ch.startsAt, r.startsAt, r'.startsAt) && Takes(ch.endsAt, r.endsAt, r'.endsAt)
    && Takes(ch.isActive, r.isActive, r'.isActive)
  }

  predicate AsksException(x: DatedException, ch: ExceptionChanges, x': DatedException) {
    x'.branch == x.branch && x'.barber == x.barber && Takes(ch.localDate, x.localDate, x'.localDate)
    && Takes(ch.kind, x.kind, x'.kind) && Takes(ch.startsAt, x.startsAt, x'.startsAt)
    && Takes(ch.endsAt, x.endsAt, x'.endsAt) && Takes(ch.reason, x.reason, x'.reason)
  }

  predicate AsksService(s: Service, ch: ServiceChanges, s': Service) {
    s'.branch == s.branch && Takes(ch.name, s.name, s'.name) && Takes(ch.price, s.price, s'.price)
    && Takes(ch.currency, s.currency, s'.currency)
    && Takes(ch.durationSeconds, s.durationSeconds, s'.durationSeconds)
    && Takes(ch.isActive, s.isActive, s'.isActive)
  }

  predicate RuleHasRoom(rows: Rows, id: Id, r: Rule) {
    RuleInOrder(rows.catalog, r) && forall other | other in rows.rules && other != id :: !SameSlot(rows.rules[other], r)
  }

  predicate ExceptionHasRoom(rows: Rows, id: Id, x: DatedException) {
    && ExceptionInOrder(rows.catalog, x)
    && forall other | other in rows.exceptions && other != id :: !SameDate(rows.exceptions[other], x)
  }

  predicate ServiceHasRoom(rows: Rows, id: Id, s: Service) {
    ServiceFields(s) && forall other | other in rows.services && other != id :: !SameName(rows.services[other], s)
  }

  lemma RuleIsValid(rows: Rows, id: Id, r: Rule)
    ensures RowValid(rows, id, RuleRow(r)) <==> RuleHasRoom(rows, id, r)
  {
    var roster := RosterOf(rows.rules, rows.exceptions, r.branch, r.barber).rules;
    assert forall other | other in rows.rules && rows.rules[other].branch == r.branch
                          && rows.rules[other].barber == r.barber :: other in roster;
  }

  lemma ExceptionIsValid(rows: Rows, id: Id, x: DatedException)
    ensures RowValid(rows, id, ExceptionRow(x)) <==> ExceptionHasRoom(rows, id, x)
  {
    var roster := RosterOf(rows.rules, rows.exceptions, x.branch, x.barber).exceptions;
    assert forall other | other in rows.exceptions && rows.exceptions[other].branch == x.branch
                          && rows.exceptions[other].barber == x.barber :: other in roster;
  }

  lemma ServiceIsValid(rows: Rows, id: Id, s: Service)
    ensures RowValid(rows, id, ServiceRow(s)) <==> ServiceHasRoom(rows, id, s)
  {
    var siblings := ServicesOf(rows.services, s.branch);
    hide ServiceFields;
    assert forall other | other in rows.services && rows.services[other].branch == s.branch :: other in siblings;
  }

  /**
   Validation, exactly: a missing row, a field that may not be edited, and then a row which with
   exactly the requested fields set breaks its own constraints or repeats another row are refused,
   in this order; any other edit writes that row and no other.
   */
  lemma ValidatedExactly(rows: Rows, e: Edit)
    ensures match e
            case EditRule(id, ch, unknown) =>
              if id !in rows.rules || rows.rules[id].branch !in rows.catalog.branches then
                Rewritten(rows, e) == Err(NotFound)
              else if unknown then Rewritten(rows, e) == Err(UnsupportedField)
              else
                exists r' :: AsksRule(rows.rules[id], ch, r') &&
                  Rewritten(rows, e) == if RuleHasRoom(rows, id, r') then Ok(rows.(rules := rows.rules[id := r']))
                                        else Err(ValidationError)
            case EditException(id, ch, unknown) =>
              if id !in rows.exceptions || rows.exceptions[id].branch !in rows.catalog.branches then
                Rewritten(rows, e) == Err(NotFound)
              else if unknown then Rewritten(rows, e) == Err(UnsupportedField)
              else
                exists x' :: AsksException(rows.exceptions[id], ch, x') &&
                  Rewritten(rows, e) == if ExceptionHasRoom(rows, id, x')
                                        then Ok(rows.(exceptions := rows.exceptions[id := x']))
                                        else Err(ValidationError)
            case EditService(id, ch, unknown) =>
              if id !in rows.services || rows.services[id].branch !in rows.catalog.branches then
                Rewritten(rows, e) == Err(NotFound)
              else if unknown then Rewritten(rows, e) == Err(UnsupportedField)
              else
                exists s' :: AsksService(rows.services[id], ch, s') &&
                  Rewritten(rows, e) == if ServiceHasRoom(rows, id, s')
                                        then Ok(rows.(services := rows.services[id := s']))
                                        else Err(ValidationError)
  {
    match e
    case EditRule(id, ch, _) =>
      if id in rows.rules {
        var r' := ChangedRule(rows.rules[id], ch);
        assert AsksRule(rows.rules[id], ch, r');
        RuleIsValid(rows, id, r');
      }
    case EditException(id, ch, _) =>
      if id in rows.exceptions {
        var x' := ChangedException(rows.exceptions[id], ch);
        assert AsksException(rows.exceptions[id], ch, x');
        ExceptionIsValid(rows, id, x');
      }
    case EditService(id, ch, _) =>
      if id in rows.services {
        var s' := ChangedService(rows.services[id], ch);
        assert AsksService(rows.services[id], ch, s');
        ServiceIsValid(rows, id, s');
      }
    hide RowValid, RuleHasRoom, ExceptionHasRoom, ServiceHasRoom;
  }
}
