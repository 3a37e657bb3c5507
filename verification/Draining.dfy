/**
 One worker at a time over the table: its turns, answered in time and far enough apart, end
 every delivery, and which way each one ends depends only on its own transport calls.
 */
module Draining {
  import opened Base
  import opened Calendar
  import opened Delivery
  import opened Workers
  import opened Termination

  /** Nothing locked, and the transport's answer is recorded before the lease lapses. */
  predicate InTime(turn: Turn) {
    turn.locked == {} && turn.claimedAt <= turn.answeredAt < turn.claimedAt + LEASE
  }

  /** The worker comes back for a row no sooner than its longest wait after the last answer. */
  predicate Patient(turns: seq<Turn>) {
    && (forall turn | turn in turns :: InTime(turn))
    && (forall i, j | 0 <= i < j < |turns| :: turns[i].answeredAt + LONGEST_WAIT <= turns[j].claimedAt)
  }

  predicate Due(r: Row, now: Instant) {
    r.Terminal() || (r.state == Pending && r.attempts < MAX_ATTEMPTS && r.availableAt <= now)
  }

  /** Rows of the destination are ended, or pending and ready. */
  ghost predicate AllDue(rows: map<Id, Row>, d: string, now: Instant) {
    forall id | id in rows && rows[id].destination == d :: Due(rows[id], now)
  }

  // ----------------------------------------------------------------- one turn

  /** A row claimed in the turn, with the turn's answer. */
  function Worked(r: Row, turn: Turn): Row {
    var claimed := Claimed(r, turn.token, turn.claimedAt);
    if turn.sent.Success? then Acknowledged(claimed, turn.token, turn.answeredAt)
    else Failed(claimed, turn.token, turn.answeredAt, turn.sent.error)
  }

  lemma WorkedRow(r: Row, turn: Turn)
    requires InTime(turn) && r.state == Pending && r.attempts < MAX_ATTEMPTS
    ensures var r' := Worked(r, turn);
            && r'.event == r.event && r'.destination == r.destination
            && Due(r', turn.answeredAt + LONGEST_WAIT) && Weight(r') <= Weight(r) - 2
            && (r'.state == Delivered <==> turn.sent.Success?)
            && (r'.state == Parked ==> r'.attempts == MAX_ATTEMPTS)
  {
    BackoffBelowCap(r.attempts + 1);
  }

  /** The rows after the turn has inserted what was missing. */
  function Listed(t: Table, d: string, turn: Turn): map<Id, Row> {
    Enlist(t.rows, t.nextId, turn.events, d, turn.claimedAt).0
  }

  function Chosen(t: Table, d: string, turn: Turn): Option<Id> {
    Pick(Listed(t, d, turn), d, turn.claimedAt, turn.locked)
  }

  lemma TurnShape(t: Table, d: string, turn: Turn)
    ensures var rows, id := Listed(t, d, turn), Chosen(t, d, turn);
            var (t', worked) := AfterTurn(t, d, turn);
            && t'.nextId == Enlist(t.rows, t.nextId, turn.events, d, turn.claimedAt).1
            && worked == id.Some?
            && (if id.None? then t'.rows == rows
                 else id.value in rows && t'.rows == rows[id.value := Worked(rows[id.value], turn)])
  {
    hide Enlist, Pick, Acknowledged, Failed, Claimed;
  }

  /** Listed rows are due at the claim, and the chosen one is pending. */
  lemma ListedDue(t: Table, d: string, turn: Turn)
    requires TableInv(t) && InTime(turn) && AllDue(t.rows, d, turn.claimedAt)
    ensures var rows, id := Listed(t, d, turn), Chosen(t, d, turn);
            && AllDue(rows, d, turn.claimedAt)
            && (id.Some? ==>
                 && id.value in rows && rows[id.value].destination == d
                 && rows[id.value].state == Pending && rows[id.value].attempts < MAX_ATTEMPTS)
            && (id.None? ==> forall x | x in rows && rows[x].destination == d :: rows[x].Terminal())
  {
    Enlisted(t.rows, t.nextId, turn.events, d, turn.claimedAt);
    var rows, id := Listed(t, d, turn), Chosen(t, d, turn);
    hide Enlist, Pick, TableInv;
    if id.None? {
      forall x | x in rows && rows[x].destination == d
        ensures rows[x].Terminal()
      {
        assert x !in Claimable(rows, d, turn.claimedAt, turn.locked);
      }
    }
  }

  /** A turn keeps the table in order and all its rows due by the longest wait after its answer. */
  lemma TurnKeepsDue(t: Table, d: string, turn: Turn)
    requires TableInv(t) && InTime(turn) && AllDue(t.rows, d, turn.claimedAt)
    ensures var t' := AfterTurn(t, d, turn).0; TableInv(t') && AllDue(t'.rows, d, turn.answeredAt + LONGEST_WAIT)
  {
    Enlisted(t.rows, t.nextId, turn.events, d, turn.claimedAt);
    TurnShape(t, d, turn);
    ListedDue(t, d, turn);
    var id := Chosen(t, d, turn);
    if id.Some? { WorkedRow(Listed(t, d, turn)[id.value], turn); }
    hide AfterTurn, Enlist, Pick, Worked;
  }

  ghost predicate AllListed(rows: map<Id, Row>, d: string, events: seq<Id>) {
    forall id | id in rows && rows[id].destination == d :: rows[id].event in events
  }

  lemma {:induction false} WorkDrops(rows: map<Id, Row>, rows': map<Id, Row>, d: string, events: seq<Id>, event: Id,
        drop: nat)
    requires forall e | e in events :: EventWeight(rows', d, e) <= EventWeight(rows, d, e)
    requires event in events && EventWeight(rows', d, event) <= EventWeight(rows, d, event) - drop
    ensures WorkLeft(rows', d, events) <= WorkLeft(rows, d, events) - drop
  {
    var rest := events[1..];
    assert forall e | e in events :: e == events[0] || e in rest;
    if event == events[0] {
      WorkCompares(rows, rows', d, rest);
    } else {
      assert EventWeight(rows', d, events[0]) <= EventWeight(rows, d, events[0]);
      WorkDrops(rows, rows', d, rest, event, drop);
    }
  }

  lemma {:induction false} NoWork(rows: map<Id, Row>, d: string, events: seq<Id>)
    requires forall e | e in events :: EventWeight(rows, d, e) == 0
    ensures WorkLeft(rows, d, events) == 0
  {
    if events != [] {
      assert events[0] in events;
      NoWork(rows, d, events[1..]);
    }
  }

  /** A turn that finds something to claim lowers the measure by two; one that does not means all is done. */
  lemma TurnWorks(t: Table, d: string, turn: Turn, events: seq<Id>)
    requires TableInv(t) && InTime(turn) && AllDue(t.rows, d, turn.claimedAt)
    requires turn.events == events && AllListed(t.rows, d, events)
    ensures var (t', worked) := AfterTurn(t, d, turn);
            && AllListed(t'.rows, d, events)
            && WorkLeft(t'.rows, d, events) <= if worked then WorkLeft(t.rows, d, events) - 2 else 0
  {
    Enlisted(t.rows, t.nextId, turn.events, d, turn.claimedAt);
    TurnShape(t, d, turn);
    ListedDue(t, d, turn);
    var t', rows, id := AfterTurn(t, d, turn).0, Listed(t, d, turn), Chosen(t, d, turn);
    assert AllListed(rows, d, events);
    if id.Some? {
      WorkedRow(rows[id.value], turn);
      ChosenWeighsLess(t, d, turn, events, id.value);
    } else {
      hide AfterTurn, Enlist, Pick, EventWeight, AllDue;
      forall e | e in events
        ensures EventWeight(t'.rows, d, e) == 0
      {
        RowIsFor(rows, RowFor(rows, d, e));
      }
      NoWork(rows, d, events);
    }
    hide AfterTurn, Enlist, Pick, Worked, WorkLeft;
  }

  lemma ChosenWeighsLess(t: Table, d: string, turn: Turn, events: seq<Id>, id: Id)
    requires TableInv(t) && turn.events == events && AllListed(Listed(t, d, turn), d, events)
    requires var rows := Listed(t, d, turn);
             && TableInv(Table(rows, AfterTurn(t, d, turn).0.nextId))
             && id in rows && rows[id].destination == d
             && AfterTurn(t, d, turn).0.rows == rows[id := Worked(rows[id], turn)]
             && Worked(rows[id], turn).event == rows[id].event && Worked(rows[id], turn).destination == d
             && Weight(Worked(rows[id], turn)) <= Weight(rows[id]) - 2
    ensures WorkLeft(AfterTurn(t, d, turn).0.rows, d, events) <= WorkLeft(t.rows, d, events) - 2
  {
    var rows, rows' := Listed(t, d, turn), AfterTurn(t, d, turn).0.rows;
    var r, r' := rows[id], Worked(rows[id], turn);
    hide AfterTurn, Enlist, Pick, Worked, Weight;
    forall e
      ensures EventWeight(rows', d, e) == if e == r.event then Weight(r') else EventWeight(t.rows, d, e)
    {
      EnlistedWeight(t.rows, t.nextId, events, d, turn.claimedAt, d, e);
      ReplacedWeight(rows, id, r', d, e);
    }
    EnlistedWeight(t.rows, t.nextId, events, d, turn.claimedAt, d, r.event);
    RowIsFor(rows, id);
    hide EventWeight;
    WorkDrops(t.rows, rows', d, events, r.event, 2);
  }

  // ---------------------------------------------------------------- many turns

  lemma PatientRest(turns: seq<Turn>)
    requires turns != [] && Patient(turns)
    ensures InTime(turns[0]) && Patient(turns[1..])
    ensures |turns| > 1 ==> turns[0].answeredAt + LONGEST_WAIT <= turns[1].claimedAt
  {
    var rest := turns[1..];
    assert turns[0] in turns;
    forall turn | turn in rest
      ensures turn in turns
    {
    }
    assert forall i | 0 <= i < |rest| :: rest[i] == turns[i + 1];
  }

  /** Everything is due when the first turn claims. */
  ghost predicate Starts(t: Table, d: string, turns: seq<Turn>) {
    TableInv(t) && (turns != [] ==> AllDue(t.rows, d, turns[0].claimedAt))
  }

  lemma StartsAgain(t: Table, d: string, turns: seq<Turn>)
    requires turns != [] && Patient(turns) && Starts(t, d, turns)
    ensures Patient(turns[1..]) && Starts(AfterTurn(t, d, turns[0]).0, d, turns[1..])
  {
    PatientRest(turns);
    TurnKeepsDue(t, d, turns[0]);
    hide AfterTurn, TableInv;
  }

  /** Turns that see the same events lower the measure to nothing, two at a time. */
  lemma {:induction false} TurnsDrain(t: Table, d: string, turns: seq<Turn>, events: seq<Id>)
    requires Patient(turns) && Starts(t, d, turns) && AllListed(t.rows, d, events)
    requires forall turn | turn in turns :: turn.events == events
    requires WorkLeft(t.rows, d, events) <= 2 * |turns|
    ensures var t' := AfterTurns(t, d, turns);
            TableInv(t') && AllListed(t'.rows, d, events) && WorkLeft(t'.rows, d, events) <= 0
    decreases |turns|
  {
    if turns != [] {
      PatientRest(turns);
      assert turns[0] in turns;
      TurnWorks(t, d, turns[0], events);
      StartsAgain(t, d, turns);
      hide AfterTurn, Patient, Starts, WorkLeft, AllListed;
      TurnsDrain(AfterTurn(t, d, turns[0]).0, d, turns[1..], events);
    }
  }

  /** Turns before the last event was published leave everything ready for the turns after it. */
  lemma {:induction false} TurnsReach(t: Table, d: string, before: seq<Turn>, after: seq<Turn>, events: seq<Id>)
    requires Patient(before + after) && Starts(t, d, before + after) && AllListed(t.rows, d, events)
    requires forall turn | turn in before :: forall e | e in turn.events :: e in events
    ensures var mid := AfterTurns(t, d, before);
            && Patient(after) && Starts(mid, d, after) && AllListed(mid.rows, d, events)
            && AfterTurns(t, d, before + after) == AfterTurns(mid, d, after)
    decreases |before|
  {
    var turns := before + after;
    if before == [] {
      assert turns == after;
    } else {
      assert turns[0] == before[0] && turns[1..] == before[1..] + after;
      assert before[0] in before;
      PatientRest(turns);
      StartsAgain(t, d, turns);
      TurnLists(t, d, turns[0], events);
      hide AfterTurn, Patient, Starts, AllListed;
      TurnsReach(AfterTurn(t, d, turns[0]).0, d, before[1..], after, events);
    }
  }

  lemma TurnLists(t: Table, d: string, turn: Turn, events: seq<Id>)
    requires TableInv(t) && InTime(turn) && AllDue(t.rows, d, turn.claimedAt) && AllListed(t.rows, d, events)
    requires forall e | e in turn.events :: e in events
    ensures AllListed(AfterTurn(t, d, turn).0.rows, d, events)
  {
    Enlisted(t.rows, t.nextId, turn.events, d, turn.claimedAt);
    TurnShape(t, d, turn);
    ListedDue(t, d, turn);
    var id := Chosen(t, d, turn);
    if id.Some? { WorkedRow(Listed(t, d, turn)[id.value], turn); }
    hide AfterTurn, Enlist, Pick, Worked;
  }

  ghost predicate AllSettled(rows: map<Id, Row>, d: string) {
    forall id | id in rows && rows[id].destination == d ::
      rows[id].Terminal() || (rows[id].state == Pending && rows[id].attempts < MAX_ATTEMPTS)
  }

  lemma {:induction false} TurnsSettle(t: Table, d: string, turns: seq<Turn>)
    requires turns != [] && Patient(turns) && Starts(t, d, turns)
    ensures AllSettled(AfterTurns(t, d, turns).rows, d) && AllSettled(t.rows, d)
    decreases |turns|
  {
    PatientRest(turns);
    TurnKeepsDue(t, d, turns[0]);
    StartsAgain(t, d, turns);
    hide AfterTurn;
    if |turns| > 1 { TurnsSettle(AfterTurn(t, d, turns[0]).0, d, turns[1..]); }
  }

  /** In some turn the worker claimed the row and its transport call returned. */
  predicate SentBy(t: Table, d: string, turns: seq<Turn>, id: Id)
    decreases |turns|
  {
    turns != [] &&
    ((Chosen(t, d, turns[0]) == Some(id) && turns[0].sent.Success?)
    || SentBy(AfterTurn(t, d, turns[0]).0, d, turns[1..], id))
  }

  predicate WasDelivered(t: Table, id: Id) { id in t.rows && t.rows[id].state == Delivered }

  predicate WasEnded(t: Table, id: Id) { id in t.rows && t.rows[id].Terminal() }

  lemma TurnDelivers(t: Table, d: string, turn: Turn, id: Id)
    requires TableInv(t) && InTime(turn) && AllDue(t.rows, d, turn.claimedAt)
    ensures var t' := AfterTurn(t, d, turn).0;
            && (WasDelivered(t', id) <==>
                 (WasDelivered(t, id) || (Chosen(t, d, turn) == Some(id) && turn.sent.Success?)))
            && (WasEnded(t, id) ==> WasEnded(t', id) && t'.rows[id] == t.rows[id])
            && (WasEnded(t', id) && !WasEnded(t, id) && t'.rows[id].state == Parked ==>
                 t'.rows[id].attempts == MAX_ATTEMPTS)
  {
    ListedKeeps(t, d, turn, id);
    TurnShape(t, d, turn);
    ListedDue(t, d, turn);
    var chosen := Chosen(t, d, turn);
    if chosen.Some? { WorkedRow(Listed(t, d, turn)[chosen.value], turn); }
    hide AfterTurn, Listed, Chosen, Worked, AllDue, TableInv;
  }

  lemma ListedKeeps(t: Table, d: string, turn: Turn, id: Id)
    requires TableInv(t)
    ensures var rows := Listed(t, d, turn);
            && (id in t.rows ==> id in rows && rows[id] == t.rows[id])
            && (id in rows && id !in t.rows ==> rows[id].state == Pending)
  {
    Enlisted(t.rows, t.nextId, turn.events, d, turn.claimedAt);
    hide Enlist;
  }

  /** Delivered are the rows some turn sent, parked the others that used exactly 20 attempts. */
  lemma {:induction false} WhichWay(t: Table, d: string, turns: seq<Turn>, id: Id)
    requires Patient(turns) && Starts(t, d, turns)
    ensures var t' := AfterTurns(t, d, turns);
            && (WasDelivered(t', id) <==> (WasDelivered(t, id) || SentBy(t, d, turns, id)))
            && (WasEnded(t, id) ==> WasEnded(t', id) && t'.rows[id] == t.rows[id])
            && (WasEnded(t', id) && !WasEnded(t, id) && t'.rows[id].state == Parked ==>
                 t'.rows[id].attempts == MAX_ATTEMPTS)
    decreases |turns|
  {
    if turns != [] {
      PatientRest(turns);
      TurnDelivers(t, d, turns[0], id);
      StartsAgain(t, d, turns);
      hide AfterTurn, Chosen, Patient, Starts;
      WhichWay(AfterTurn(t, d, turns[0]).0, d, turns[1..], id);
    }
  }

  lemma NoWorkMeansEnded(rows: map<Id, Row>, d: string, events: seq<Id>)
    requires Unique(rows) && AllSettled(rows, d) && WorkLeft(rows, d, events) <= 0
    ensures forall e | e in events :: HasRow(rows, e, d)
    ensures forall id | id in rows && rows[id].destination == d && rows[id].event in events :: rows[id].Terminal()
  {
    SettledWeights(rows, d);
    WorkAtMost(rows, d, events);
    forall id | id in rows && rows[id].destination == d && rows[id].event in events
      ensures rows[id].Terminal()
    {
      RowIsFor(rows, id);
    }
    hide WorkLeft;
  }

  lemma SettledWeights(rows: map<Id, Row>, d: string)
    requires AllSettled(rows, d)
    ensures forall e :: 0 <= EventWeight(rows, d, e) <= 2 * MAX_ATTEMPTS
  {
  }

  /**
   Every delivery ends. Whatever rows a worker finds pending and whatever events appear while it
   works, once no more events come 20 turns for each event deliver or park all of them: delivered
   are exactly the rows whose transport call returned in some turn, and a row that was parked
   has used exactly 20 attempts.
   */
  lemma DeliveriesEnd(t: Table, d: string, before: seq<Turn>, after: seq<Turn>, events: seq<Id>)
    requires Patient(before + after) && Starts(t, d, before + after) && AllListed(t.rows, d, events)
    requires forall turn | turn in before :: forall e | e in turn.events :: e in events
    requires forall turn | turn in after :: turn.events == events
    requires |after| >= 20 * |events|
    ensures var end := AfterTurns(t, d, before + after);
            && (forall e | e in events :: HasRow(end.rows, e, d))
            && (forall id | id in end.rows && end.rows[id].destination == d ::
                  && end.rows[id].Terminal()
                  && (end.rows[id].state == Delivered <==> (WasDelivered(t, id) || SentBy(t, d, before + after, id)))
                  && (end.rows[id].state == Parked && !WasEnded(t, id) ==> end.rows[id].attempts == 20))
  {
    var mid, end := AfterTurns(t, d, before), AfterTurns(t, d, before + after);
    TurnsReach(t, d, before, after, events);
    if after == [] {
      assert events == [];
    } else {
      TurnsSettle(mid, d, after);
      SettledWeights(mid.rows, d);
      WorkAtMost(mid.rows, d, events);
      TurnsDrain(mid, d, after, events);
      NoWorkMeansEnded(end.rows, d, events);
    }
    hide AfterTurns, Patient, Starts, SentBy, WorkLeft, AllSettled;
    forall id | id in end.rows && end.rows[id].destination == d
      ensures end.rows[id].Terminal()
      ensures end.rows[id].state == Delivered <==> (WasDelivered(t, id) || SentBy(t, d, before + after, id))
      ensures end.rows[id].state == Parked && !WasEnded(t, id) ==> end.rows[id].attempts == 20
    {
      WhichWay(t, d, before + after, id);
    }
  }

  // ------------------------------------------------------ turns and interleavings

  /** A worker's turn, step by step in the machine of interleavings. */
  function TurnSteps(s: World, w: WorkerId, d: string, turn: Turn): seq<Action> {
    [ClaimBy(w, d, turn.claimedAt, turn.locked, turn.token)] +
    (if Chosen(s.table, d, turn).None? then []
     else if turn.sent.Success? then [TransportOk(w), AckBy(w, turn.answeredAt)]
     else [TransportError(w, turn.sent.error), FailBy(w, turn.answeredAt)])
  }

  lemma OneStep(s: World, a: Action)
    requires Enabled(s, a)
    ensures Reached(s, [a]) == Some(After(s, a))
  {
    assert [a][..0] == [];
  }

  lemma ThreeSteps(s: World, a: Action, b: Action, c: Action)
    requires Enabled(s, a) && Enabled(After(s, a), b) && Enabled(After(After(s, a), b), c)
    ensures Reached(s, [a, b, c]) == Some(After(After(After(s, a), b), c))
  {
    hide After, Enabled;
    OneStep(s, a);
    assert [a, b][..1] == [a];
    assert Reached(s, [a, b]) == Some(After(After(s, a), b));
    assert [a, b, c][..2] == [a, b];
  }

  lemma TurnClaims(s: World, w: WorkerId, d: string, turn: Turn)
    requires w !in s.workers && turn.token !in s.issued && turn.events == s.events
    ensures var a := ClaimBy(w, d, turn.claimedAt, turn.locked, turn.token);
            var rows, id := Listed(s.table, d, turn), Chosen(s.table, d, turn);
            && Enabled(s, a)
            && var taken := After(s, a);
               && taken.history.Keys == taken.table.rows.Keys
               && taken.table.nextId == AfterTurn(s.table, d, turn).0.nextId
               && (if id.None? then taken.table.rows == rows && w !in taken.workers
                   else && id.value in rows && w in taken.workers && taken.workers[w] == Sending(id.value, turn.token)
                        && taken.table.rows == rows[id.value := Claimed(rows[id.value], turn.token, turn.claimedAt)])
  {
    TurnShape(s.table, d, turn);
    hide Enlist, Pick, AfterTurn;
  }

  /** A turn of the worker loop is the claim, the transport call and the answer of one idle worker. */
  lemma TurnIsSteps(s: World, w: WorkerId, d: string, turn: Turn)
    requires w !in s.workers && turn.token !in s.issued && turn.events == s.events
    ensures var s' := Reached(s, TurnSteps(s, w, d, turn));
            s'.Some? && s'.value.table == AfterTurn(s.table, d, turn).0 && w !in s'.value.workers
  {
    var a := ClaimBy(w, d, turn.claimedAt, turn.locked, turn.token);
    TurnClaims(s, w, d, turn);
    TurnShape(s.table, d, turn);
    hide After, AfterTurn, Listed, Chosen, Reached;
    var rows, id := Listed(s.table, d, turn), Chosen(s.table, d, turn);
    if id.None? {
      OneStep(s, a);
      assert [a] + [] == [a];
    } else {
      AnswerSteps(s, After(s, a), w, turn, a);
      var claimed := Claimed(rows[id.value], turn.token, turn.claimedAt);
      assert rows[id.value := claimed][id.value := Worked(rows[id.value], turn)]
             == rows[id.value := Worked(rows[id.value], turn)];
      assert forall b, c: Action :: [a] + [b, c] == [a, b, c];
    }
  }

  /** The rest of the turn after its claim. */
  lemma AnswerSteps(s: World, taken: World, w: WorkerId, turn: Turn, a: Action)
    requires Enabled(s, a) && After(s, a) == taken
    requires w in taken.workers && taken.workers[w].Sending? && taken.workers[w].id in taken.table.rows
    requires taken.history.Keys == taken.table.rows.Keys
    ensures var id, token := taken.workers[w].id, taken.workers[w].token;
            var r := taken.table.rows[id];
            var r' := if turn.sent.Success? then Acknowledged(r, token, turn.answeredAt)
                      else Failed(r, token, turn.answeredAt, turn.sent.error);
            var steps := if turn.sent.Success? then [a, TransportOk(w), AckBy(w, turn.answeredAt)]
                         else [a, TransportError(w, turn.sent.error), FailBy(w, turn.answeredAt)];
            var s' := Reached(s, steps);
            s'.Some? && s'.value.table == taken.table.(rows := taken.table.rows[id := r']) && w !in s'.value.workers
  {
    hide Acknowledged, Failed, AfterClaim, Reached;
    var id, token := taken.workers[w].id, taken.workers[w].token;
    assert taken.table.rows[id := taken.table.rows[id]] == taken.table.rows;
    if turn.sent.Success? {
      ThreeSteps(s, a, TransportOk(w), AckBy(w, turn.answeredAt));
    } else {
      ThreeSteps(s, a, TransportError(w, turn.sent.error), FailBy(w, turn.answeredAt));
    }
  }
}
