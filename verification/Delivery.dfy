/**
 Leased delivery of outbox events. The table functions say what one transaction does to one
 row, the class runs them as the source does, and the machine lets any number of workers
 interleave them, each step with whatever clock reading its worker has.
 */
module Delivery {
  import opened Base
  import opened Calendar

  const LEASE: int := 30 * SECOND
  const MAX_ATTEMPTS: nat := 20
  const CAP: int := 300

  type OwnerToken = int

  datatype State = Pending | Processing | Delivered | Parked

  datatype Row = Row(
    event: Id, destination: string, state: State, owner: Option<OwnerToken>, leaseExpiresAt: Option<Instant>,
    attempts: nat, availableAt: Instant, deliveredAt: Option<Instant>, lastError: string)
  {
    predicate Terminal() { state == Delivered || state == Parked }

    predicate Ready(now: Instant) {
      (state == Pending && availableAt <= now)
      || (state == Processing && leaseExpiresAt.Some? && leaseExpiresAt.value <= now)
    }
  }

  // ---------------------------------------------------- one transaction each

  predicate HasRow(rows: map<Id, Row>, event: Id, destination: string) {
    exists id | id in rows :: rows[id].event == event && rows[id].destination == destination
  }

  /** `bulk_create(ignore_conflicts=True)`: a pending row for every event that has none. */
  function Enlist(rows: map<Id, Row>, nextId: Id, events: seq<Id>, destination: string, now: Instant)
      : (map<Id, Row>, Id)
    decreases |events|
  {
    if events == [] then (rows, nextId)
    else if HasRow(rows, events[0], destination) then Enlist(rows, nextId, events[1..], destination, now)
    else
      Enlist(rows[nextId := Row(events[0], destination, Pending, None, None, 0, now, None, "")], nextId + 1,
             events[1..], destination, now)
  }

  /** Ready rows of the destination that no other transaction has locked. */
  function Claimable(rows: map<Id, Row>, destination: string, now: Instant, locked: set<Id>): set<Id> {
    set id | id in rows && rows[id].destination == destination && rows[id].Ready(now) && id !in locked
  }

  predicate Sooner(rows: map<Id, Row>, i: Id, j: Id)
    requires i in rows && j in rows
  {
    rows[i].availableAt < rows[j].availableAt || (rows[i].availableAt == rows[j].availableAt && i < j)
  }

  /** `order_by("available_at", "id").first()`. */
  function First(rows: map<Id, Row>, ids: seq<Id>): (first: Option<Id>)
    requires forall id | id in ids :: id in rows
    ensures first.None? <==> ids == []
    ensures first.Some? ==> first.value in ids &&
                             forall id | id in ids && id != first.value :: Sooner(rows, first.value, id)
  {
    if ids == [] then None
    else
      var rest := First(rows, ids[1..]);
      assert forall id | id in ids :: id == ids[0] || id in ids[1..];
      if rest.Some? && (Sooner(rows, rest.value, ids[0]) || rest.value == ids[0]) then rest else Some(ids[0])
  }

  function Claimed(r: Row, token: OwnerToken, now: Instant): Row {
    r.(state := Processing, owner := Some(token), leaseExpiresAt := Some(now + LEASE), attempts := r.attempts + 1)
  }

  /** The row the claim takes, among rows that already hold a delivery for every event. */
  function Pick(rows: map<Id, Row>, destination: string, now: Instant, locked: set<Id>): (id: Option<Id>)
    ensures id.Some? ==> id.value in rows && id.value in Claimable(rows, destination, now, locked)
    ensures id.None? <==> Claimable(rows, destination, now, locked) == {}
  {
    First(rows, Ascending(Claimable(rows, destination, now, locked)))
  }

  predicate Holds(r: Row, token: OwnerToken) {
    r.state == Processing && r.owner == Some(token)
  }

  function Acknowledged(r: Row, token: OwnerToken, now: Instant): Row {
    if Holds(r, token) && r.leaseExpiresAt.Some? && r.leaseExpiresAt.value > now then
      r.(state := Delivered, deliveredAt := Some(now), owner := None, leaseExpiresAt := None, lastError := "")
    else r
  }

  function Power(n: nat): int { if n == 0 then 1 else 2 * Power(n - 1) }

  /** Seconds until the next attempt. */
  function Backoff(attempts: nat): int { Min(CAP, Power(Min(attempts, 8))) }

  /** The waits after 0 to 8 attempts; after more it is the last. */
  const WAITS: seq<int> := [1, 2, 4, 8, 16, 32, 64, 128, 256]

  lemma {:induction false} PowerIsWait(n: nat)
    requires n <= 8
    ensures Power(n) == WAITS[n]
  {
    if n > 0 { PowerIsWait(n - 1); }
  }

  /** The cap of 300 seconds is never reached: the longest wait is 256 seconds. */
  lemma BackoffBelowCap(attempts: nat)
    ensures Backoff(attempts) == WAITS[Min(attempts, 8)] && 1 <= Backoff(attempts) <= 256 < CAP
  {
    PowerIsWait(Min(attempts, 8));
  }

  function Failed(r: Row, token: OwnerToken, now: Instant, error: string): Row {
    if !Holds(r, token) then r
    else
      var released := r.(owner := None, leaseExpiresAt := None,
                        lastError := if |error| > 200 then error[..200] else error);
      if r.attempts >= MAX_ATTEMPTS then released.(state := Parked, availableAt := now)
      else released.(state := Pending, availableAt := now + Backoff(r.attempts) * SECOND)
  }

  // ----------------------------------------------------------------- the table

  datatype Claim = Claim(id: Id, token: OwnerToken, event: Id)

  /** What the transport does with the event. */
  datatype Sent = Success | Failure(error: string)

  /** One turn of a worker: committed events, clock readings, rows others lock, token, transport. */
  datatype Turn = Turn(events: seq<Id>, claimedAt: Instant, locked: set<Id>, token: OwnerToken, sent: Sent,
        answeredAt: Instant)

  datatype Table = Table(rows: map<Id, Row>, nextId: Id)

  function AfterClaim(t: Table, destination: string, turn: Turn): (Table, Option<Claim>) {
    var (rows, nextId) := Enlist(t.rows, t.nextId, turn.events, destination, turn.claimedAt);
    var id := Pick(rows, destination, turn.claimedAt, turn.locked);
    if id.None? then (Table(rows, nextId), None)
    else (Table(rows[id.value := Claimed(rows[id.value], turn.token, turn.claimedAt)], nextId),
          Some(Claim(id.value, turn.token, rows[id.value].event)))
  }

  function AfterTurn(t: Table, destination: string, turn: Turn): (Table, bool) {
    var (t', claim) := AfterClaim(t, destination, turn);
    if claim.None? then (t', false)
    else
      var id := claim.value.id;
      if id !in t'.rows then (t', true)
      else
        var r := t'.rows[id];
        var r' := if turn.sent.Success? then Acknowledged(r, turn.token, turn.answeredAt)
                  else Failed(r, turn.token, turn.answeredAt, turn.sent.error);
        (t'.(rows := t'.rows[id := r']), true)
  }

  function AfterTurns(t: Table, destination: string, turns: seq<Turn>): Table
    decreases |turns|
  {
    if turns == [] then t else AfterTurns(AfterTurn(t, destination, turns[0]).0, destination, turns[1..])
  }

  class Deliveries {
    var rows: map<Id, Row>
    var nextId: Id

    constructor ()
      ensures State() == Table(map[], 1)
    {
      rows, nextId := map[], 1;
    }

    function State(): Table
      reads this
    {
      Table(rows, nextId)
    }

    method ClaimNext(destination: string, turn: Turn) returns (claim: Option<Claim>)
      modifies this
      ensures (State(), claim) == AfterClaim(old(State()), destination, turn)
    {
      var events, now := turn.events, turn.claimedAt;
      for i := 0 to |events|
        invariant Enlist(rows, nextId, events[i..], destination, now)
                  == Enlist(old(rows), old(nextId), turn.events, destination, now)
      {
        assert events[i..][0] == events[i] && events[i..][1..] == events[i + 1..];
        if !HasRow(rows, events[i], destination) {
          rows := rows[nextId := Row(events[i], destination, Pending, None, None, 0, now, None, "")];
          nextId := nextId + 1;
        }
      }
      var id := Pick(rows, destination, now, turn.locked);
      if id.None? {
        return None;
      }
      var row := rows[id.value];
      row := row.(state := Processing);
      row := row.(owner := Some(turn.token));
      row := row.(leaseExpiresAt := Some(now + LEASE));
      row := row.(attempts := row.attempts + 1);
      rows := rows[id.value := row];
      return Some(Claim(id.value, turn.token, row.event));
    }

    /** The conditional update: no row matches unless the lease is the caller's and still runs. */
    method Acknowledge(id: Id, token: OwnerToken, now: Instant) returns (updated: bool)
      modifies `rows
      ensures updated == (id in old(rows) && Acknowledged(old(rows)[id], token, now) != old(rows)[id])
      ensures rows == if id in old(rows) then old(rows)[id := Acknowledged(old(rows)[id], token, now)] else old(rows)
    {
      if id !in rows {
        return false;
      }
      var row := rows[id];
      if !(row.state == Processing && row.owner == Some(token)
           && row.leaseExpiresAt.Some? && row.leaseExpiresAt.value > now) {
        return false;
      }
      rows := rows[id := row.(state := Delivered, deliveredAt := Some(now),
                                 owner := None, leaseExpiresAt := None, lastError := "")];
      return true;
    }

    method Fail(id: Id, token: OwnerToken, now: Instant, error: string) returns (released: bool)
      modifies `rows
      ensures released == (id in old(rows) && Holds(old(rows)[id], token))
      ensures rows == if id in old(rows) then old(rows)[id := Failed(old(rows)[id], token, now, error)] else old(rows)
      ensures released ==>
                && id in rows && rows[id].owner == None && rows[id].leaseExpiresAt == None
                && (old(rows)[id].attempts < 20 ==>
                      rows[id].state == Pending
                      && rows[id].availableAt == now + WAITS[Min(old(rows)[id].attempts, 8)] * SECOND)
                && (old(rows)[id].attempts >= 20 ==> rows[id].state == Parked && rows[id].availableAt == now)
    {
      if id !in rows || rows[id].state != Processing || rows[id].owner != Some(token) {
        return false;
      }
      var row := rows[id];
      BackoffBelowCap(row.attempts);
      if row.attempts >= MAX_ATTEMPTS {
        row := row.(state := Parked, availableAt := now);
      } else {
        row := row.(state := Pending, availableAt := now + Min(CAP, Power(Min(row.attempts, 8))) * SECOND);
      }
      row := row.(owner := None, leaseExpiresAt := None, lastError := if |error| > 200 then error[..200] else error);
      rows := rows[id := row];
      return true;
    }

    method DeliverOne(destination: string, turn: Turn) returns (worked: bool)
      modifies this
      ensures (State(), worked) == AfterTurn(old(State()), destination, turn)
    {
      var claim := ClaimNext(destination, turn);
      if claim.None? {
        return false;
      }
      match turn.sent {
        case Success => var _ := Acknowledge(claim.value.id, claim.value.token, turn.answeredAt);
        case Failure(error) => var _ := Fail(claim.value.id, claim.value.token, turn.answeredAt, error);
      }
      return true;
    }

    /** The worker loop; the turns end when `stop` is set, waiting between them is left out. */
    method RunWorker(destination: string, turns: seq<Turn>)
      modifies this
      ensures State() == AfterTurns(old(State()), destination, turns)
    {
      for i := 0 to |turns|
        invariant AfterTurns(State(), destination, turns[i..])
                  == AfterTurns(old(State()), destination, turns)
      {
        var _ := DeliverOne(destination, turns[i]);
        assert turns[i..][0] == turns[i] && turns[i..][1..] == turns[i + 1..];
      }
    }
  }
}
