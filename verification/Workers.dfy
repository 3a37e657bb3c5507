/**
 Any number of delivery workers over one table. A worker claims, calls the transport outside
 every transaction, and then acknowledges or fails; it may also crash at any point. Every
 step brings its own clock reading, so clocks may disagree and run backwards.
 */
module Workers {
  import opened Base
  import opened Calendar
  import opened Delivery

  type WorkerId = int

  /** Tokens of a delivery's claims, oldest first, and its last change. */
  datatype History = History(tokens: seq<OwnerToken>, ackedBy: Option<OwnerToken>, touched: Instant, touches: nat)
  {
    predicate Latest(token: OwnerToken) { tokens != [] && tokens[|tokens| - 1] == token }
  }

  datatype Work =
    | Sending(id: Id, token: OwnerToken)
    | Succeeded(id: Id, token: OwnerToken)
    | Refused(id: Id, token: OwnerToken, error: string)

  /** `sent` records the transport calls that returned; `issued` the tokens ever drawn. */
  datatype World = World(
    events: seq<Id>, table: Table, history: map<Id, History>, workers: map<WorkerId, Work>,
    sent: set<(Id, OwnerToken)>, issued: set<OwnerToken>)

  datatype Action =
    | Publish(event: Id, at: nat)
    | ClaimBy(w: WorkerId, destination: string, now: Instant, locked: set<Id>, token: OwnerToken)
    | TransportOk(w: WorkerId)
    | TransportError(w: WorkerId, error: string)
    | AckBy(w: WorkerId, now: Instant)
    | FailBy(w: WorkerId, now: Instant)
    | Crash(w: WorkerId)

  predicate Enabled(s: World, a: Action) {
    match a
    case Publish(event, at) => event !in s.events && at <= |s.events|
    case ClaimBy(w, _, _, _, token) => w !in s.workers && token !in s.issued
    case TransportOk(w) => w in s.workers && s.workers[w].Sending?
    case TransportError(w, _) => w in s.workers && s.workers[w].Sending?
    case AckBy(w, _) => w in s.workers && s.workers[w].Succeeded?
    case FailBy(w, _) => w in s.workers && s.workers[w].Refused?
    case Crash(w) => w in s.workers
  }

  function ClaimTurn(s: World, a: Action): Turn
    requires a.ClaimBy?
  {
    Turn(s.events, a.now, a.locked, a.token, Success, a.now)
  }

  /** Histories of the rows the claim has inserted or taken. */
  function Recorded(history: map<Id, History>, rows: map<Id, Row>, now: Instant): map<Id, History> {
    map id | id in rows :: if id in history then history[id] else History([], None, now, 0)
  }

  function Touched(h: History, now: Instant): History { h.(touched := now, touches := h.touches + 1) }

  /** The row of a finished delivery attempt replaced by r, with its history. */
  function WithRow(s: World, id: Id, r: Row, now: Instant, acked: Option<OwnerToken>): World {
    if id !in s.table.rows || id !in s.history || s.table.rows[id] == r then s
    else s.(table := s.table.(rows := s.table.rows[id := r]),
            history := s.history[id := Touched(s.history[id].(ackedBy := acked), now)])
  }

  function Without(workers: map<WorkerId, Work>, w: WorkerId): map<WorkerId, Work> {
    map u | u in workers && u != w :: workers[u]
  }

  function After(s: World, a: Action): World
    requires Enabled(s, a)
  {
    match a
    case Publish(event, at) => s.(events := s.events[..at] + [event] + s.events[at..])
    case ClaimBy(w, destination, now, _, token) =>
      var (t', claim) := AfterClaim(s.table, destination, ClaimTurn(s, a));
      var history := Recorded(s.history, t'.rows, now);
      if claim.None? then s.(table := t', history := history)
      else
        var id := claim.value.id;
        var h := if id in history then history[id] else History([], None, now, 0);
        s.(table := t', history := history[id := Touched(h.(tokens := h.tokens + [token]), now)],
           workers := s.workers[w := Sending(id, token)], issued := s.issued + {token})
    case TransportOk(w) =>
      var work := s.workers[w];
      s.(workers := s.workers[w := Succeeded(work.id, work.token)], sent := s.sent + {(work.id, work.token)})
    case TransportError(w, error) =>
      s.(workers := s.workers[w := Refused(s.workers[w].id, s.workers[w].token, error)])
    case AckBy(w, now) =>
      var work := s.workers[w];
      if work.id !in s.table.rows then s
      else WithRow(s, work.id, Acknowledged(s.table.rows[work.id], work.token, now), now, Some(work.token))
           .(workers := Without(s.workers, w))
    case FailBy(w, now) =>
      var work := s.workers[w];
      if work.id !in s.table.rows then s
      else WithRow(s, work.id, Failed(s.table.rows[work.id], work.token, now, work.error), now, None)
           .(workers := Without(s.workers, w))
    case Crash(w) => s.(workers := Without(s.workers, w))
  }

  function Initial(): World {
    World([], Table(map[], 1), map[], map[], {}, {})
  }

  function Reached(s: World, actions: seq<Action>): Option<World>
    decreases |actions|
  {
    if actions == [] then Some(s)
    else
      var pre := Reached(s, actions[..|actions| - 1]);
      if pre.Some? && Enabled(pre.value, actions[|actions| - 1])
        then Some(After(pre.value, actions[|actions| - 1])) else None
  }

  // ---------------------------------------------------------------- invariant

  const LONGEST_WAIT: int := 256 * SECOND

  predicate RowInv(r: Row) {
    && (r.owner.Some? <==> r.state == Processing) && (r.leaseExpiresAt.Some? <==> r.state == Processing)
    && (r.state == Pending ==> r.attempts < MAX_ATTEMPTS) && (r.state == Parked ==> r.attempts >= MAX_ATTEMPTS)
    && (r.deliveredAt.Some? <==> r.state == Delivered)
  }

  predicate NoRepeat(tokens: seq<OwnerToken>) {
    forall i, j | 0 <= i < j < |tokens| :: tokens[i] != tokens[j]
  }

  predicate HistoryInv(r: Row, h: History, id: Id, sent: set<(Id, OwnerToken)>, issued: set<OwnerToken>) {
    && RowInv(r) && r.attempts == |h.tokens| && NoRepeat(h.tokens)
    && (r.state == Processing ==> h.Latest(r.owner.value) && r.leaseExpiresAt == Some(h.touched + LEASE))
    && (r.state == Pending ==> r.availableAt <= h.touched + LONGEST_WAIT)
    && (r.state == Delivered <==> h.ackedBy.Some?)
    && (r.state == Delivered ==> h.Latest(h.ackedBy.value) && (id, h.ackedBy.value) in sent)
    && (forall t | t in h.tokens :: t in issued)
  }

  /** At most one row for an event and a destination. */
  ghost predicate Unique(rows: map<Id, Row>) {
    forall i, j | i in rows && j in rows && rows[i].event == rows[j].event && rows[i].destination == rows[j].destination
      :: i == j
  }

  ghost predicate TableInv(t: Table) {
    Unique(t.rows) && forall id | id in t.rows :: id < t.nextId
  }

  ghost predicate WorkersInv(s: World) {
    forall w | w in s.workers ::
      && s.workers[w].id in s.history && s.workers[w].token in s.history[s.workers[w].id].tokens
      && (s.workers[w].Succeeded? ==> (s.workers[w].id, s.workers[w].token) in s.sent)
  }

  ghost predicate RowsInv(s: World) {
    forall id | id in s.table.rows ::
      && id in s.history && s.table.rows[id].event in s.events
      && HistoryInv(s.table.rows[id], s.history[id], id, s.sent, s.issued)
  }

  ghost predicate WorldInv(s: World) {
    && TableInv(s.table) && s.history.Keys == s.table.rows.Keys && RowsInv(s) && WorkersInv(s)
  }

  // ----------------------------------------------------------- steps on a row

  lemma {:induction false} Enlisted(rows: map<Id, Row>, nextId: Id, events: seq<Id>, destination: string, now: Instant)
    requires TableInv(Table(rows, nextId))
    ensures var (rows', nextId') := Enlist(rows, nextId, events, destination, now);
            && TableInv(Table(rows', nextId'))
            && (forall id | id in rows :: id in rows' && rows'[id] == rows[id])
            && (forall id | id in rows' && id !in rows ::
                  rows'[id] == Row(rows'[id].event, destination, Pending, None, None, 0, now, None, "") &&
                    rows'[id].event in events)
            && (forall e | e in events :: HasRow(rows', e, destination))
    decreases |events|
  {
    if events != [] {
      var more := if HasRow(rows, events[0], destination) then rows
        else rows[nextId := Row(events[0], destination, Pending, None, None, 0, now, None, "")];
      var next := if HasRow(rows, events[0], destination) then nextId else nextId + 1;
      assert HasRow(more, events[0], destination) by {
        if !HasRow(rows, events[0], destination) { assert nextId in more; }
      }
      Enlisted(more, next, events[1..], destination, now);
      var rows' := Enlist(rows, nextId, events, destination, now).0;
      var id :| id in more && more[id].event == events[0] && more[id].destination == destination;
      assert id in rows';
      assert events == [events[0]] + events[1..];
    }
  }

  /** A claim of a ready row: a new latest token and a lease of 30 seconds. */
  lemma ClaimedRow(r: Row, h: History, id: Id, sent: set<(Id, OwnerToken)>, issued: set<OwnerToken>,
                   token: OwnerToken, now: Instant)
    requires HistoryInv(r, h, id, sent, issued) && !r.Terminal() && token !in issued
    ensures HistoryInv(Claimed(r, token, now), Touched(h.(tokens := h.tokens + [token]), now),
                       id, sent, issued + {token})
  {
    var tokens := h.tokens + [token];
    forall i, j | 0 <= i < j < |tokens|
      ensures tokens[i] != tokens[j]
    {
      assert h.tokens[i] in h.tokens;
    }
  }

  lemma AcknowledgedRow(r: Row, h: History, id: Id, sent: set<(Id, OwnerToken)>, issued: set<OwnerToken>,
                        token: OwnerToken, now: Instant)
    requires HistoryInv(r, h, id, sent, issued) && (id, token) in sent && Acknowledged(r, token, now) != r
    ensures HistoryInv(Acknowledged(r, token, now), Touched(h.(ackedBy := Some(token)), now), id, sent, issued)
    ensures h.Latest(token)
  {
  }

  lemma FailedRow(r: Row, h: History, id: Id, sent: set<(Id, OwnerToken)>, issued: set<OwnerToken>,
                  token: OwnerToken, now: Instant, error: string)
    requires HistoryInv(r, h, id, sent, issued) && Failed(r, token, now, error) != r
    ensures HistoryInv(Failed(r, token, now, error), Touched(h.(ackedBy := None), now), id, sent, issued)
    ensures h.Latest(token)
  {
    BackoffBelowCap(r.attempts);
  }

  lemma WithRowKeeps(s: World, id: Id, r: Row, now: Instant, acked: Option<OwnerToken>)
    requires WorldInv(s) && id in s.table.rows
    requires r.event == s.table.rows[id].event && r.destination == s.table.rows[id].destination
    requires r != s.table.rows[id] ==>
               HistoryInv(r, Touched(s.history[id].(ackedBy := acked), now), id, s.sent, s.issued)
    ensures WorldInv(WithRow(s, id, r, now, acked))
  {
    hide HistoryInv;
  }

  lemma DroppedWorker(s: World, w: WorkerId)
    requires WorldInv(s)
    ensures WorldInv(s.(workers := Without(s.workers, w)))
  {
    hide HistoryInv;
  }

  lemma MoreSent(r: Row, h: History, id: Id, sent: set<(Id, OwnerToken)>, issued: set<OwnerToken>,
                 more: (Id, OwnerToken))
    requires HistoryInv(r, h, id, sent, issued)
    ensures HistoryInv(r, h, id, sent + {more}, issued)
  {
  }

  lemma MoreIssued(r: Row, h: History, id: Id, sent: set<(Id, OwnerToken)>, issued: set<OwnerToken>,
                   token: OwnerToken)
    requires HistoryInv(r, h, id, sent, issued)
    ensures HistoryInv(r, h, id, sent, issued + {token})
  {
  }

  /** The table after the insertion of missing rows, before any row is taken. */
  function EnlistedWorld(s: World, destination: string, now: Instant): World {
    var (rows, nextId) := Enlist(s.table.rows, s.table.nextId, s.events, destination, now);
    s.(table := Table(rows, nextId), history := Recorded(s.history, rows, now))
  }

  lemma EnlistKeeps(s: World, destination: string, now: Instant)
    requires WorldInv(s)
    ensures WorldInv(EnlistedWorld(s, destination, now))
  {
    Enlisted(s.table.rows, s.table.nextId, s.events, destination, now);
    var s' := EnlistedWorld(s, destination, now);
    forall id | id in s'.table.rows
      ensures s'.table.rows[id].event in s'.events
      ensures HistoryInv(s'.table.rows[id], s'.history[id], id, s'.sent, s'.issued)
    {
      if id in s.table.rows { assert s'.history[id] == s.history[id]; }
    }
    hide HistoryInv, Enlist;
  }

  /** The row claimed by the worker. */
  function TakenWorld(s: World, w: WorkerId, id: Id, token: OwnerToken, now: Instant): World
    requires id in s.table.rows && id in s.history
  {
    s.(table := s.table.(rows := s.table.rows[id := Claimed(s.table.rows[id], token, now)]),
       history := s.history[id := Touched(s.history[id].(tokens := s.history[id].tokens + [token]), now)],
       workers := s.workers[w := Sending(id, token)], issued := s.issued + {token})
  }

  /** A claim inserts the missing rows and then takes the first claimable one, if any. */
  lemma ClaimEnlistsThenTakes(s: World, a: Action) returns (mid: World, id: Option<Id>)
    requires Enabled(s, a) && a.ClaimBy?
    ensures mid == EnlistedWorld(s, a.destination, a.now) && id == Pick(mid.table.rows, a.destination, a.now, a.locked)
    ensures id.Some? ==> id.value in mid.table.rows && id.value in mid.history
    ensures After(s, a) == if id.None? then mid else TakenWorld(mid, a.w, id.value, a.token, a.now)
  {
    hide Enlist, Pick;
    mid := EnlistedWorld(s, a.destination, a.now);
    id := Pick(mid.table.rows, a.destination, a.now, a.locked);
  }

  lemma TakeKeeps(s: World, w: WorkerId, id: Id, token: OwnerToken, now: Instant)
    requires WorldInv(s) && id in s.table.rows && !s.table.rows[id].Terminal() && token !in s.issued && w !in s.workers
    ensures WorldInv(TakenWorld(s, w, id, token, now))
  {
    ClaimedRow(s.table.rows[id], s.history[id], id, s.sent, s.issued, token, now);
    hide HistoryInv;
    forall x | x in s.table.rows
      ensures HistoryInv(s.table.rows[x], s.history[x], x, s.sent, s.issued + {token})
    {
      MoreIssued(s.table.rows[x], s.history[x], x, s.sent, s.issued, token);
    }
  }

  lemma ClaimKeeps(s: World, a: Action)
    requires WorldInv(s) && Enabled(s, a) && a.ClaimBy?
    ensures WorldInv(After(s, a))
  {
    EnlistKeeps(s, a.destination, a.now);
    var mid, id := ClaimEnlistsThenTakes(s, a);
    hide WorldInv, Enlist, TakenWorld, After, EnlistedWorld, Pick;
    if id.Some? {
      assert !mid.table.rows[id.value].Terminal();
      EnlistedBesides(s, a.destination, a.now);
      TakeKeeps(mid, a.w, id.value, a.token, a.now);
    }
  }

  lemma EnlistedBesides(s: World, destination: string, now: Instant)
    ensures var mid := EnlistedWorld(s, destination, now);
            mid.workers == s.workers && mid.issued == s.issued && mid.events == s.events
  {
    hide Enlist;
  }

  lemma AfterKeeps(s: World, a: Action)
    requires WorldInv(s) && Enabled(s, a)
    ensures WorldInv(After(s, a))
  {
    match a
    case Publish(event, at) => hide HistoryInv;
    case ClaimBy(_, _, _, _, _) => hide *; ClaimKeeps(s, a);
    case TransportOk(w) => SentKeeps(s, w);
    case TransportError(w, _) => hide HistoryInv;
    case AckBy(w, now) => AnswerKeeps(s, a);
    case FailBy(w, now) => AnswerKeeps(s, a);
    case Crash(w) => hide WorldInv; DroppedWorker(s, w);
  }

  lemma SentKeeps(s: World, w: WorkerId)
    requires WorldInv(s) && Enabled(s, TransportOk(w))
    ensures WorldInv(After(s, TransportOk(w)))
  {
    hide HistoryInv;
    var more := (s.workers[w].id, s.workers[w].token);
    forall x | x in s.table.rows
      ensures HistoryInv(s.table.rows[x], s.history[x], x, s.sent + {more}, s.issued)
    {
      MoreSent(s.table.rows[x], s.history[x], x, s.sent, s.issued, more);
    }
  }

  lemma AnswerKeeps(s: World, a: Action)
    requires WorldInv(s) && Enabled(s, a) && (a.AckBy? || a.FailBy?)
    ensures WorldInv(After(s, a))
  {
    var work := s.workers[a.w];
    var r, h := s.table.rows[work.id], s.history[work.id];
    if a.AckBy? {
      if Acknowledged(r, work.token, a.now) != r {
        AcknowledgedRow(r, h, work.id, s.sent, s.issued, work.token, a.now);
      }
      WithRowKeeps(s, work.id, Acknowledged(r, work.token, a.now), a.now, Some(work.token));
      DroppedWorker(WithRow(s, work.id, Acknowledged(r, work.token, a.now), a.now, Some(work.token)), a.w);
    } else {
      if Failed(r, work.token, a.now, work.error) != r {
        FailedRow(r, h, work.id, s.sent, s.issued, work.token, a.now, work.error);
      }
      WithRowKeeps(s, work.id, Failed(r, work.token, a.now, work.error), a.now, None);
      DroppedWorker(WithRow(s, work.id, Failed(r, work.token, a.now, work.error), a.now, None), a.w);
    }
    hide WorldInv, HistoryInv, Acknowledged, Failed;
  }

  lemma {:induction false} ReachedKeeps(s: World, actions: seq<Action>)
    requires WorldInv(s) && Reached(s, actions).Some?
    ensures WorldInv(Reached(s, actions).value)
    decreases |actions|
  {
    hide WorldInv, After, Enabled;
    if actions != [] {
      ReachedKeeps(s, actions[..|actions| - 1]);
      AfterKeeps(Reached(s, actions[..|actions| - 1]).value, actions[|actions| - 1]);
    }
  }

  // ----------------------------------------------------------------- theorems

  /**
   In every state of every run: a lease is on record exactly while a row is processed, the
   retry limit separates pending from parked rows, a delivered row was acknowledged by the
   owner of its latest claim after that owner's transport call returned, and no event has two
   rows for one destination.
   */
  lemma EveryStateIsSound(actions: seq<Action>, id: Id)
    requires Reached(Initial(), actions).Some? && id in Reached(Initial(), actions).value.table.rows
    ensures var s := Reached(Initial(), actions).value; var r := s.table.rows[id];
            && (r.owner.Some? <==> r.state == Processing) && (r.leaseExpiresAt.Some? <==> r.state == Processing)
            && id in s.history
            && (r.state == Pending ==> r.attempts < 20 && r.availableAt <= s.history[id].touched + 256 * SECOND)
            && (r.state == Processing ==> r.leaseExpiresAt == Some(s.history[id].touched + 30 * SECOND))
            && (r.state == Parked ==> r.attempts >= 20)
            && (r.state == Delivered ==>
                  && s.history[id].ackedBy.Some?
                  && s.history[id].Latest(s.history[id].ackedBy.value) && (id, s.history[id].ackedBy.value) in s.sent)
            && r.event in s.events
            && (forall other | other in s.table.rows && s.table.rows[other].event == r.event
                               && s.table.rows[other].destination == r.destination :: other == id)
  {
    assert WorldInv(Initial());
    ReachedKeeps(Initial(), actions);
  }

  /**
   Whatever the clocks say, answering changes exactly the worker's own row, exactly while that
   row is processed under its latest claim, and an acknowledgement only within 30 seconds of it.
   */
  lemma Fencing(s: World, a: Action, id: Id)
    requires WorldInv(s) && Enabled(s, a) && (a.AckBy? || a.FailBy?) && id in s.table.rows
    ensures id in After(s, a).table.rows && id in s.history
    ensures After(s, a).table.rows[id] != s.table.rows[id] <==>
              && s.workers[a.w].id == id && s.history[id].Latest(s.workers[a.w].token)
              && s.table.rows[id].state == Processing
              && (a.AckBy? ==> a.now < s.history[id].touched + 30 * SECOND)
  {
    assert HistoryInv(s.table.rows[id], s.history[id], id, s.sent, s.issued);
  }

  /** A worker whose claim has been superseded changes nothing by answering. */
  lemma SupersededOwnerIsInert(s: World, a: Action)
    requires WorldInv(s) && Enabled(s, a) && (a.AckBy? || a.FailBy?)
    requires s.workers[a.w].id in s.history && !s.history[s.workers[a.w].id].Latest(s.workers[a.w].token)
    ensures After(s, a) == s.(workers := Without(s.workers, a.w))
  {
    var work := s.workers[a.w];
    var r := s.table.rows[work.id];
    assert HistoryInv(r, s.history[work.id], work.id, s.sent, s.issued);
    assert !Holds(r, work.token);
  }

  /**
   What an answer writes, exactly. The latest owner of a processed row delivers it while its lease
   runs, and by failing releases it: for a retry 1, 2, 4, ... and at most 256 seconds later, or for
   good if it has used its 20 attempts. Every other answer writes nothing.
   */
  lemma AnswersExactly(s: World, a: Action)
    requires WorldInv(s) && Enabled(s, a) && (a.AckBy? || a.FailBy?)
    ensures var id := s.workers[a.w].id; var rows' := After(s, a).table.rows;
            && id in s.table.rows && id in s.history
            && var r := s.table.rows[id];
               if r.state != Processing || !s.history[id].Latest(s.workers[a.w].token) then rows' == s.table.rows
               else if a.AckBy? then
                 rows' == if a.now < s.history[id].touched + 30 * SECOND
                   then s.table.rows[id := r.(state := Delivered, deliveredAt := Some(a.now),
                                              owner := None, leaseExpiresAt := None, lastError := "")]
                   else s.table.rows
               else
                 && rows' == s.table.rows[id := rows'[id]] && rows'[id].lastError <= s.workers[a.w].error
                 && |rows'[id].lastError| == Min(200, |s.workers[a.w].error|)
                 && rows'[id] == r.(lastError := rows'[id].lastError, owner := None, leaseExpiresAt := None,
                                    state := if r.attempts < 20 then Pending else Parked,
                                    availableAt := if r.attempts < 20 then a.now + WAITS[Min(r.attempts, 8)] * SECOND
                                                   else a.now)
  {
    var work := s.workers[a.w];
    assert work.id in s.history;
    var r := s.table.rows[work.id];
    assert HistoryInv(r, s.history[work.id], work.id, s.sent, s.issued);
    BackoffBelowCap(r.attempts);
    HoldsIfLatest(r, s.history[work.id], work.id, s.sent, s.issued, work.token);
    hide WorldInv, HistoryInv, Backoff, WAITS;
    assert s.table.rows[work.id := r] == s.table.rows;
  }

  lemma HoldsIfLatest(r: Row, h: History, id: Id, sent: set<(Id, OwnerToken)>, issued: set<OwnerToken>,
                      token: OwnerToken)
    requires HistoryInv(r, h, id, sent, issued)
    ensures Holds(r, token) <==> r.state == Processing && h.Latest(token)
    ensures r.state == Processing ==> r.leaseExpiresAt == Some(h.touched + 30 * SECOND)
  {
  }

  /** The row may be claimed: pending and available, or processed under a lease that has lapsed. */
  predicate MayBeTaken(r: Row, now: Instant) {
    || (r.state == Pending && r.availableAt <= now)
    || (r.state == Processing && r.leaseExpiresAt.Some? && r.leaseExpiresAt.value <= now)
  }

  /**
   What a claim writes, exactly: every event without a row gets a pending one with no attempts,
   available at once; and the row it takes, if any, is one of the destination that nobody has
   locked and that may be claimed, now processed by the worker with one more attempt and a lease
   of 30 seconds. It writes nothing else.
   */
  lemma ClaimsExactly(s: World, a: Action, id: Id)
    requires WorldInv(s) && Enabled(s, a) && a.ClaimBy? && id in After(s, a).table.rows
    ensures var s' := After(s, a); var r' := s'.table.rows[id];
            var r := if id in s.table.rows then s.table.rows[id]
                     else Row(r'.event, a.destination, Pending, None, None, 0, a.now, None, "");
            && r'.event in s.events
            && if a.w in s'.workers && s'.workers[a.w].id == id then
                 && s'.workers[a.w] == Sending(id, a.token) && id !in a.locked
                 && r.destination == a.destination && MayBeTaken(r, a.now)
                 && r' == r.(state := Processing, owner := Some(a.token), leaseExpiresAt := Some(a.now + 30 * SECOND),
                             attempts := r.attempts + 1)
               else r' == r
  {
    hide HistoryInv, Enlist, Pick, Recorded;
    Enlisted(s.table.rows, s.table.nextId, s.events, a.destination, a.now);
    EnlistedBesides(s, a.destination, a.now);
    EnlistKeeps(s, a.destination, a.now);
    var mid, picked := ClaimEnlistsThenTakes(s, a);
    assert mid.table.rows == Enlist(s.table.rows, s.table.nextId, s.events, a.destination, a.now).0;
    assert forall x | x in mid.table.rows :: mid.table.rows[x].event in s.events;
    hide WorldInv, EnlistedWorld, After;
    assert id in mid.table.rows;
  }

  /** Step k of the run takes the waiting row, which is due by the claim's clock. */
  predicate EndsWait(s: World, actions: seq<Action>, k: nat, id: Id, r: Row)
    requires k < |actions|
  {
    && Reached(s, actions[..k]).Some?
    && var now := Reached(s, actions[..k]).value;
       id in now.table.rows && now.table.rows[id] == r
       && actions[k].ClaimBy? && actions[k].destination == r.destination && r.availableAt <= actions[k].now
       && id !in actions[k].locked
  }

  lemma PendingWaits(s: World, a: Action, id: Id)
    requires WorldInv(s) && Enabled(s, a) && id in s.table.rows && s.table.rows[id].state == Pending
    ensures id in After(s, a).table.rows
    ensures After(s, a).table.rows[id] == s.table.rows[id] ||
              (a.ClaimBy? && a.destination == s.table.rows[id].destination && s.table.rows[id].availableAt <= a.now
               && id !in a.locked)
  {
    StepKeepsRow(s, a, id);
    if a.ClaimBy? {
      ClaimsExactly(s, a, id);
    } else if a.AckBy? || a.FailBy? {
      AnswersExactly(s, a);
    }
    hide WorldInv, WAITS;
  }

  /** A pending row stays as it is until some claim takes it, at a clock no earlier than its time. */
  lemma {:induction false} WaitsUntilDue(s: World, actions: seq<Action>, id: Id)
    requires WorldInv(s) && Reached(s, actions).Some? && id in s.table.rows && s.table.rows[id].state == Pending
    ensures var rows' := Reached(s, actions).value.table.rows;
            && id in rows'
            && (rows'[id] == s.table.rows[id]
                || exists k: nat :: k < |actions| && EndsWait(s, actions, k, id, s.table.rows[id]))
    decreases |actions|
  {
    hide WorldInv, After, Enabled;
    if actions != [] {
      var n := |actions| - 1;
      var r := s.table.rows[id];
      WaitsUntilDue(s, actions[..n], id);
      ReachedKeeps(s, actions[..n]);
      var pre := Reached(s, actions[..n]).value;
      StepKeepsRow(pre, actions[n], id);
      if pre.table.rows[id] == r {
        PendingWaits(pre, actions[n], id);
        assert After(pre, actions[n]).table.rows[id] == r || EndsWait(s, actions, n, id, r);
      } else {
        var k: nat :| k < n && EndsWait(s, actions[..n], k, id, r);
        assert actions[..n][..k] == actions[..k];
        assert EndsWait(s, actions, k, id, r);
      }
    }
  }

  /**
   Backoff over runs: after its latest owner fails a row with n < 20 attempts, the row stays
   pending until a claim whose clock is at least min(2^n, 256) seconds after the failure.
   */
  lemma FailureBacksOff(s: World, a: Action, later: seq<Action>, id: Id)
    requires WorldInv(s) && Enabled(s, a) && a.FailBy? && s.workers[a.w].id == id && id in s.table.rows
    requires s.table.rows[id].state == Processing && s.table.rows[id].attempts < 20
    requires id in s.history && s.history[id].Latest(s.workers[a.w].token)
    requires Reached(After(s, a), later).Some?
    ensures id in After(s, a).table.rows
    ensures var r := After(s, a).table.rows[id]; var rows' := Reached(After(s, a), later).value.table.rows;
            && r.state == Pending && r.attempts == s.table.rows[id].attempts
            && r.availableAt == a.now + WAITS[Min(r.attempts, 8)] * SECOND
            && id in rows'
            && (rows'[id] == r || exists k: nat :: k < |later| && EndsWait(After(s, a), later, k, id, r))
  {
    AnswersExactly(s, a);
    AfterKeeps(s, a);
    hide WorldInv, After, Enabled, WAITS;
    WaitsUntilDue(After(s, a), later, id);
  }

  /** Steps keep rows; delivered and parked rows they do not touch at all. */
  lemma StepKeepsRow(s: World, a: Action, id: Id)
    requires WorldInv(s) && Enabled(s, a) && id in s.table.rows
    ensures var rows' := After(s, a).table.rows;
            && id in rows' && rows'[id].event == s.table.rows[id].event
            && rows'[id].destination == s.table.rows[id].destination
            && s.table.rows[id].attempts <= rows'[id].attempts
            && (s.table.rows[id].Terminal() ==> rows'[id] == s.table.rows[id])
  {
    hide HistoryInv, Power;
    if a.ClaimBy? { ClaimKeepsRow(s, a, id); }
  }

  lemma ClaimKeepsRow(s: World, a: Action, id: Id)
    requires WorldInv(s) && Enabled(s, a) && a.ClaimBy? && id in s.table.rows
    ensures var rows' := After(s, a).table.rows;
            && id in rows' && rows'[id].event == s.table.rows[id].event
            && rows'[id].destination == s.table.rows[id].destination
            && s.table.rows[id].attempts <= rows'[id].attempts
            && (s.table.rows[id].Terminal() ==> rows'[id] == s.table.rows[id])
  {
    Enlisted(s.table.rows, s.table.nextId, s.events, a.destination, a.now);
    var mid, taken := ClaimEnlistsThenTakes(s, a);
    assert mid.table.rows[id] == s.table.rows[id];
    hide WorldInv, Enlist, After, EnlistedWorld;
  }

  lemma {:induction false} RunKeepsRow(s: World, actions: seq<Action>, id: Id)
    requires WorldInv(s) && Reached(s, actions).Some? && id in s.table.rows
    ensures var rows' := Reached(s, actions).value.table.rows;
            && id in rows' && rows'[id].event == s.table.rows[id].event
            && rows'[id].destination == s.table.rows[id].destination
            && (s.table.rows[id].Terminal() ==> rows'[id] == s.table.rows[id])
    decreases |actions|
  {
    hide WorldInv, After, Enabled;
    if actions != [] {
      var n := |actions| - 1;
      RunKeepsRow(s, actions[..n], id);
      ReachedKeeps(s, actions[..n]);
      StepKeepsRow(Reached(s, actions[..n]).value, actions[n], id);
    }
  }

  /**
   An event committed before some claim for a destination has exactly one row there, in that
   state and in every later one.
   */
  lemma OneRowPerEvent(s: World, a: Action, later: seq<Action>, event: Id)
    requires WorldInv(s) && Enabled(s, a) && a.ClaimBy? && event in s.events && Reached(After(s, a), later).Some?
    ensures var rows' := Reached(After(s, a), later).value.table.rows;
            && (exists id | id in rows' :: rows'[id].event == event && rows'[id].destination == a.destination)
            && (forall i, j | i in rows' && j in rows' && rows'[i].event == event && rows'[j].event == event
                              && rows'[i].destination == a.destination && rows'[j].destination == a.destination
                              :: i == j)
  {
    AfterKeeps(s, a);
    ReachedKeeps(After(s, a), later);
    Enlisted(s.table.rows, s.table.nextId, s.events, a.destination, a.now);
    ClaimKeepsEnlisted(s, a);
    hide Reached, After, HistoryInv, Enlist;
    assert HasRow(After(s, a).table.rows, event, a.destination);
    var id :| id in After(s, a).table.rows && After(s, a).table.rows[id].event == event
              && After(s, a).table.rows[id].destination == a.destination;
    RunKeepsRow(After(s, a), later, id);
  }

  lemma ClaimKeepsEnlisted(s: World, a: Action)
    requires Enabled(s, a) && a.ClaimBy?
    ensures var enlisted := Enlist(s.table.rows, s.table.nextId, s.events, a.destination, a.now).0;
            forall e | HasRow(enlisted, e, a.destination) :: HasRow(After(s, a).table.rows, e, a.destination)
  {
    var enlisted := Enlist(s.table.rows, s.table.nextId, s.events, a.destination, a.now).0;
    hide Enlist, Pick, Claimable;
    forall e | HasRow(enlisted, e, a.destination)
      ensures HasRow(After(s, a).table.rows, e, a.destination)
    {
      var id :| id in enlisted && enlisted[id].event == e && enlisted[id].destination == a.destination;
      assert id in After(s, a).table.rows;
    }
  }

  /** A row that is neither delivered nor parked is claimable 256 seconds after its last change. */
  lemma ReadyInTime(s: World, id: Id, now: Instant)
    requires WorldInv(s) && id in s.table.rows && !s.table.rows[id].Terminal()
    requires s.history[id].touched + 256 * SECOND <= now
    ensures s.table.rows[id].Ready(now)
  {
    assert HistoryInv(s.table.rows[id], s.history[id], id, s.sent, s.issued);
  }

  /** A ready row nobody has locked is taken, or one available earlier, just inserted rows included. */
  lemma ClaimTakesAReadyRow(s: World, a: Action, id: Id)
    requires WorldInv(s) && Enabled(s, a) && a.ClaimBy? && id in s.table.rows
    requires s.table.rows[id].destination == a.destination && s.table.rows[id].Ready(a.now) && id !in a.locked
    ensures var s' := After(s, a); var rows := EnlistedWorld(s, a.destination, a.now).table.rows;
            && id in rows && rows[id] == s.table.rows[id]
            && a.w in s'.workers && s'.workers[a.w].Sending? && s'.workers[a.w].id in rows
            && var taken := s'.workers[a.w].id;
               taken == id || rows[taken].availableAt < rows[id].availableAt
               || (rows[taken].availableAt == rows[id].availableAt && taken < id)
  {
    Enlisted(s.table.rows, s.table.nextId, s.events, a.destination, a.now);
    var rows := Enlist(s.table.rows, s.table.nextId, s.events, a.destination, a.now).0;
    hide Enlist, HistoryInv;
    assert id in Claimable(rows, a.destination, a.now, a.locked);
  }
}
