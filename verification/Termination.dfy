/**
 How often a delivery is attempted, and when attempting ends, for any number of workers: the
 exact condition of the attempt limit, and a measure summed over all deliveries that falls
 with every step as long as claims are answered before their leases lapse.
 */
module Termination {
  import opened Base
  import opened Calendar
  import opened Delivery
  import opened Workers

  // ---------------------------------------------------------- the attempt limit

  ghost predicate WithinLimit(rows: map<Id, Row>) {
    forall id | id in rows :: rows[id].attempts <= MAX_ATTEMPTS
  }

  /** The claim is about to take over the lapsed lease of row `id`, which has used all its attempts. */
  predicate OvertakesAt(s: World, a: Action, id: Id) {
    && a.ClaimBy? && id in s.table.rows
    && s.table.rows[id].state == Processing && s.table.rows[id].attempts == MAX_ATTEMPTS
    && Pick(EnlistedWorld(s, a.destination, a.now).table.rows, a.destination, a.now, a.locked) == Some(id)
  }

  predicate Overtakes(s: World, a: Action) {
    exists id | id in s.table.rows :: OvertakesAt(s, a, id)
  }

  /** The only step that takes a row past the limit is a claim of a lapsed lease at the limit. */
  lemma LimitPassedExactly(s: World, a: Action, id: Id)
    requires WorldInv(s) && Enabled(s, a) && WithinLimit(s.table.rows) && id in After(s, a).table.rows
    ensures After(s, a).table.rows[id].attempts > 20 <==> OvertakesAt(s, a, id)
  {
    if a.ClaimBy? {
      ClaimPassesExactly(s, a, id);
    } else {
      hide Power, NoRepeat;
    }
  }

  lemma ClaimPassesExactly(s: World, a: Action, id: Id)
    requires WorldInv(s) && Enabled(s, a) && WithinLimit(s.table.rows) && a.ClaimBy? && id in After(s, a).table.rows
    ensures After(s, a).table.rows[id].attempts > 20 <==> OvertakesAt(s, a, id)
  {
    Enlisted(s.table.rows, s.table.nextId, s.events, a.destination, a.now);
    var mid, picked := ClaimEnlistsThenTakes(s, a);
    if id in s.table.rows {
      assert HistoryInv(s.table.rows[id], s.history[id], id, s.sent, s.issued);
    }
    hide WorldInv, After, Enlist, Pick, HistoryInv, EnlistedWorld;
  }

  ghost predicate WithinAt(actions: seq<Action>, n: nat)
    requires n <= |actions|
  {
    Reached(Initial(), actions[..n]).Some? && WithinLimit(Reached(Initial(), actions[..n]).value.table.rows)
  }

  ghost predicate OvertakenAt(actions: seq<Action>, n: nat)
    requires n < |actions|
  {
    Reached(Initial(), actions[..n]).Some? && Overtakes(Reached(Initial(), actions[..n]).value, actions[n])
  }

  lemma {:induction false} PrefixReached(s: World, actions: seq<Action>, n: nat)
    requires n <= |actions| && Reached(s, actions).Some?
    ensures Reached(s, actions[..n]).Some?
    ensures n < |actions| ==>
              && Enabled(Reached(s, actions[..n]).value, actions[n])
              && Reached(s, actions[..n + 1]) == Some(After(Reached(s, actions[..n]).value, actions[n]))
    decreases |actions|
  {
    hide After, Enabled;
    if n == |actions| {
      assert actions[..n] == actions;
    } else {
      var m := |actions| - 1;
      var shorter := actions[..m];
      if n < m {
        PrefixReached(s, shorter, n);
        assert shorter[..n] == actions[..n] && shorter[..n + 1] == actions[..n + 1];
      } else {
        assert actions[..n + 1] == actions;
      }
    }
  }

  lemma LimitStep(actions: seq<Action>, n: nat)
    requires Reached(Initial(), actions).Some? && n < |actions| && WithinAt(actions, n)
    ensures WithinAt(actions, n + 1) <==> !OvertakenAt(actions, n)
  {
    PrefixReached(Initial(), actions, n);
    assert WorldInv(Initial());
    ReachedKeeps(Initial(), actions[..n]);
    var s := Reached(Initial(), actions[..n]).value;
    var a := actions[n];
    hide After, Enabled, WorldInv, OvertakesAt, Reached;
    forall id | id in After(s, a).table.rows
      ensures After(s, a).table.rows[id].attempts > 20 <==> OvertakesAt(s, a, id)
    {
      LimitPassedExactly(s, a, id);
    }
    if Overtakes(s, a) {
      var id :| id in s.table.rows && OvertakesAt(s, a, id);
      StepKeepsRow(s, a, id);
    }
  }

  /**
   The attempt limit, exactly: no row exceeds 20 attempts in any state of a run if and only if
   no claim of the run takes over a lapsed lease of a row that already has 20.
   */
  lemma LimitHoldsExactly(actions: seq<Action>)
    requires Reached(Initial(), actions).Some?
    ensures (forall n: nat | n <= |actions| :: WithinAt(actions, n))
            <==> (forall n: nat | n < |actions| :: !OvertakenAt(actions, n))
  {
    hide WithinAt, OvertakenAt;
    if forall n: nat | n <= |actions| :: WithinAt(actions, n) {
      forall n: nat | n < |actions|
        ensures !OvertakenAt(actions, n)
      {
        assert WithinAt(actions, n) && WithinAt(actions, n + 1);
        LimitStep(actions, n);
      }
    }
    if forall n: nat | n < |actions| :: !OvertakenAt(actions, n) {
      forall n: nat | n <= |actions|
        ensures WithinAt(actions, n)
      {
        NeverOvertaken(actions, n);
      }
    }
  }

  lemma {:induction false} NeverOvertaken(actions: seq<Action>, n: nat)
    requires Reached(Initial(), actions).Some? && n <= |actions|
    requires forall k: nat | k < |actions| :: !OvertakenAt(actions, k)
    ensures WithinAt(actions, n)
    decreases n
  {
    hide OvertakenAt;
    PrefixReached(Initial(), actions, n);
    if n > 0 {
      NeverOvertaken(actions, n - 1);
      assert !OvertakenAt(actions, n - 1);
      LimitStep(actions, n - 1);
    } else {
      assert actions[..0] == [];
    }
  }

  /** One event, whose only row has been claimed n times and never answered. */
  predicate ClaimedOften(s: World, n: nat) {
    && s.events == [7] && s.table.nextId == 2 && s.table.rows.Keys == {1} && s.history.Keys == {1}
    && s.table.rows[1].event == 7 && s.table.rows[1].destination == "d" && s.table.rows[1].state == Processing
    && s.table.rows[1].attempts == n && s.table.rows[1].leaseExpiresAt == Some(n * LEASE + LEASE)
    && (forall w | w in s.workers :: w <= n) && (forall t | t in s.issued :: t <= n)
  }

  lemma OneClaimable(rows: map<Id, Row>, now: Instant)
    requires rows.Keys == {1} && rows[1].destination == "d" && rows[1].Ready(now)
    ensures Pick(rows, "d", now, {}) == Some(1)
  {
    assert 1 in Claimable(rows, "d", now, {});
  }

  lemma NothingToEnlist(rows: map<Id, Row>, now: Instant)
    requires rows.Keys == {1} && rows[1].event == 7 && rows[1].destination == "d"
    ensures Enlist(rows, 2, [7], "d", now) == (rows, 2)
  {
    assert HasRow(rows, 7, "d");
  }

  lemma FirstClaim(s: World)
    requires s == World([7], Table(map[], 1), map[], map[], {}, {})
    ensures var a := ClaimBy(1, "d", LEASE, {}, 1); Enabled(s, a) && ClaimedOften(After(s, a), 1)
  {
    var row := Row(7, "d", Pending, None, None, 0, LEASE, None, "");
    var rows: map<Id, Row> := map[];
    assert !HasRow(rows, 7, "d");
    assert Enlist(rows, 1, [7], "d", LEASE) == (map[1 := row], 2);
    OneClaimable(map[1 := row], LEASE);
    hide Enlist, Pick;
  }

  lemma NextClaim(s: World, n: nat)
    requires n > 0 && ClaimedOften(s, n)
    ensures var a := ClaimBy(n + 1, "d", (n + 1) * LEASE, {}, n + 1); Enabled(s, a) && ClaimedOften(After(s, a), n + 1)
  {
    NothingToEnlist(s.table.rows, (n + 1) * LEASE);
    OneClaimable(s.table.rows, (n + 1) * LEASE);
    hide Enlist, Pick;
  }

  /** No bound at all holds without it: for every n some run claims one row n times. */
  lemma {:induction false} LapsingLeasesPassEveryLimit(n: nat) returns (actions: seq<Action>)
    requires n > 0
    ensures Reached(Initial(), actions).Some? && ClaimedOften(Reached(Initial(), actions).value, n)
    decreases n
  {
    hide After, Enabled, ClaimedOften;
    if n == 1 {
      var published := [Publish(7, 0)];
      FirstPublished();
      var s := Reached(Initial(), published).value;
      FirstClaim(s);
      actions := published + [ClaimBy(1, "d", LEASE, {}, 1)];
      assert actions[..1] == published;
    } else {
      var before := LapsingLeasesPassEveryLimit(n - 1);
      actions := before + [ClaimBy(n, "d", n * LEASE, {}, n)];
      assert actions[..|before|] == before;
      NextClaim(Reached(Initial(), before).value, n - 1);
    }
  }

  lemma FirstPublished()
    ensures Reached(Initial(), [Publish(7, 0)]) == Some(World([7], Table(map[], 1), map[], map[], {}, {}))
  {
    assert [Publish(7, 0)][..0] == [];
    assert After(Initial(), Publish(7, 0)).events == [7];
  }

  // -------------------------------------------------------- answers in time

  /** The claim does not take over anyone's lapsed lease. */
  predicate Prompt(s: World, a: Action) {
    a.ClaimBy? ==>
      forall id | id in Claimable(s.table.rows, a.destination, a.now, a.locked) :: s.table.rows[id].state == Pending
  }

  predicate PromptRun(s: World, actions: seq<Action>)
    requires Reached(s, actions).Some?
    decreases |actions|
  {
    if actions == [] then true
    else
      var n := |actions| - 1;
      PromptRun(s, actions[..n]) && Prompt(Reached(s, actions[..n]).value, actions[n])
  }

  /** Changes a row can still go through. */
  function Weight(r: Row): int {
    if r.Terminal() then 0
    else if r.state == Pending then 2 * (MAX_ATTEMPTS - r.attempts)
    else 2 * (MAX_ATTEMPTS - r.attempts) + 1
  }

  predicate Bounded(r: Row, h: History) {
    r.attempts <= MAX_ATTEMPTS && h.touches + Weight(r) <= 2 * MAX_ATTEMPTS
  }

  ghost predicate AllBounded(s: World) {
    forall id | id in s.table.rows && id in s.history :: Bounded(s.table.rows[id], s.history[id])
  }

  /** In a prompt step every row that changes has one change less to go. */
  lemma PromptStep(s: World, a: Action, id: Id)
    requires WorldInv(s) && Enabled(s, a) && Prompt(s, a) && AllBounded(s)
    requires id in After(s, a).table.rows && id in After(s, a).history
    ensures Bounded(After(s, a).table.rows[id], After(s, a).history[id])
    ensures id in s.table.rows && After(s, a).table.rows[id] != s.table.rows[id] ==>
              Weight(After(s, a).table.rows[id]) < Weight(s.table.rows[id])
  {
    if a.ClaimBy? {
      PromptClaim(s, a, id);
    } else {
      hide Power, NoRepeat;
    }
  }

  lemma PromptClaim(s: World, a: Action, id: Id)
    requires WorldInv(s) && Enabled(s, a) && Prompt(s, a) && AllBounded(s) && a.ClaimBy?
    requires id in After(s, a).table.rows && id in After(s, a).history
    ensures Bounded(After(s, a).table.rows[id], After(s, a).history[id])
    ensures id in s.table.rows && After(s, a).table.rows[id] != s.table.rows[id] ==>
              Weight(After(s, a).table.rows[id]) < Weight(s.table.rows[id])
  {
    var mid, picked := ClaimEnlistsThenTakes(s, a);
    EnlistedIsBounded(s, a, id, mid, picked);
    hide WorldInv, AllBounded, EnlistedWorld, Pick, After, Prompt, Bounded, Weight, Claimed;
    if picked == Some(id) {
      ClaimLessens(mid.table.rows[id], mid.history[id], a.token, a.now);
    }
  }

  lemma ClaimLessens(r: Row, h: History, token: OwnerToken, now: Instant)
    requires Bounded(r, h) && r.state == Pending && r.attempts < MAX_ATTEMPTS
    ensures Bounded(Claimed(r, token, now), Touched(h.(tokens := h.tokens + [token]), now))
    ensures Weight(Claimed(r, token, now)) < Weight(r)
  {
  }

  lemma EnlistedIsBounded(s: World, a: Action, id: Id, mid: World, picked: Option<Id>)
    requires WorldInv(s) && Prompt(s, a) && AllBounded(s) && a.ClaimBy?
    requires mid == EnlistedWorld(s, a.destination, a.now)
    requires picked == Pick(mid.table.rows, a.destination, a.now, a.locked)
    requires id in mid.table.rows
    ensures id in mid.history && Bounded(mid.table.rows[id], mid.history[id])
    ensures id in s.table.rows ==> mid.table.rows[id] == s.table.rows[id]
    ensures picked == Some(id) ==> mid.table.rows[id].state == Pending && mid.table.rows[id].attempts < MAX_ATTEMPTS
  {
    Enlisted(s.table.rows, s.table.nextId, s.events, a.destination, a.now);
    if id in s.table.rows {
      PickedIsPending(s, a, id, mid, picked);
    }
    hide WorldInv, AllBounded, Enlist, Pick, Prompt, NoRepeat;
  }

  lemma PickedIsPending(s: World, a: Action, id: Id, mid: World, picked: Option<Id>)
    requires WorldInv(s) && Prompt(s, a) && AllBounded(s) && a.ClaimBy? && id in s.table.rows
    requires id in mid.table.rows && mid.table.rows[id] == s.table.rows[id]
    requires picked == Pick(mid.table.rows, a.destination, a.now, a.locked)
    ensures id in s.history && Bounded(s.table.rows[id], s.history[id]) && RowInv(s.table.rows[id])
    ensures picked == Some(id) ==> s.table.rows[id].state == Pending
  {
    assert HistoryInv(s.table.rows[id], s.history[id], id, s.sent, s.issued);
    if picked == Some(id) { assert id in Claimable(s.table.rows, a.destination, a.now, a.locked); }
    hide Pick;
  }

  lemma {:induction false} PromptRunBounded(actions: seq<Action>)
    requires Reached(Initial(), actions).Some? && PromptRun(Initial(), actions)
    ensures AllBounded(Reached(Initial(), actions).value)
    decreases |actions|
  {
    hide After, Enabled, Prompt, Bounded;
    if actions != [] {
      var n := |actions| - 1;
      PromptRunBounded(actions[..n]);
      assert WorldInv(Initial());
      ReachedKeeps(Initial(), actions[..n]);
      var pre := Reached(Initial(), actions[..n]).value;
      var s := After(pre, actions[n]);
      hide WorldInv, AllBounded;
      forall id | id in s.table.rows && id in s.history
        ensures Bounded(s.table.rows[id], s.history[id])
      {
        PromptStep(pre, actions[n], id);
      }
      assert AllBounded(s) by { BoundedEverywhere(s); }
    }
  }

  lemma BoundedEverywhere(s: World)
    requires forall id | id in s.table.rows && id in s.history :: Bounded(s.table.rows[id], s.history[id])
    ensures AllBounded(s)
  {
    hide Bounded;
  }

  /** Worker w ends its claim by acknowledging or failing. */
  predicate Answers(a: Action, w: WorkerId) {
    (a.AckBy? || a.FailBy?) && a.w == w
  }

  /** Between the steps i and k the worker neither answers nor crashes. */
  ghost predicate Quiet(actions: seq<Action>, i: nat, k: nat, w: WorkerId)
    requires k <= |actions|
  {
    forall m | i < m < k :: !Answers(actions[m], w) && actions[m] != Crash(w)
  }

  /** The claim of step i took a row. */
  ghost predicate Took(actions: seq<Action>, i: nat)
    requires i < |actions| && actions[i].ClaimBy?
  {
    Reached(Initial(), actions[..i + 1]).Some? && actions[i].w in Reached(Initial(), actions[..i + 1]).value.workers
  }

  /** Step k is the answer of the claim of step i, by its own worker, before the lease lapses. */
  ghost predicate AnswersInTime(actions: seq<Action>, i: nat, k: nat)
    requires i < k < |actions| && actions[i].ClaimBy?
  {
    Answers(actions[k], actions[i].w) && actions[k].now < actions[i].now + LEASE && Quiet(actions, i, k, actions[i].w)
  }

  ghost predicate InTimeBefore(actions: seq<Action>, i: nat, j: nat)
    requires i < j < |actions| && actions[i].ClaimBy?
  {
    exists k: nat | i < k < j :: AnswersInTime(actions, i, k)
  }

  /** Every claim is answered before its lease lapses: by the time a later claim reads a clock past it. */
  ghost predicate Punctual(actions: seq<Action>) {
    forall i: nat, j: nat | i < j < |actions| && actions[i].ClaimBy? && actions[j].ClaimBy?
                            && actions[i].now + LEASE <= actions[j].now && Took(actions, i) ::
      InTimeBefore(actions, i, j)
  }

  /** Step m ends the claim of step i without a timely answer: by a crash or by a late acknowledgement. */
  ghost predicate LosesClaim(actions: seq<Action>, i: nat, m: nat)
    requires i < m < |actions| && actions[i].ClaimBy?
  {
    var w := actions[i].w;
    && Quiet(actions, i, m, w)
    && (actions[m] == Crash(w) || (Answers(actions[m], w) && actions[i].now + LEASE <= actions[m].now))
  }

  ghost predicate LostBefore(actions: seq<Action>, i: nat, n: nat)
    requires i < n <= |actions| && actions[i].ClaimBy?
  {
    exists m: nat | i < m < n :: LosesClaim(actions, i, m)
  }

  /** The row is processed for the claim of step i, whose worker still holds it or has lost it. */
  ghost predicate Outstanding(actions: seq<Action>, i: nat, n: nat, s: World, id: Id)
    requires i < n <= |actions| && id in s.table.rows
  {
    && actions[i].ClaimBy? && Took(actions, i)
    && s.table.rows[id].owner == Some(actions[i].token)
    && s.table.rows[id].leaseExpiresAt == Some(actions[i].now + LEASE)
    && (LostBefore(actions, i, n)
        || (Quiet(actions, i, n, actions[i].w) && actions[i].w in s.workers
            && s.workers[actions[i].w].id == id && s.workers[actions[i].w].token == actions[i].token))
  }

  ghost predicate Accounted(actions: seq<Action>, n: nat, s: World, id: Id)
    requires n <= |actions| && id in s.table.rows
  {
    exists i: nat | i < n :: Outstanding(actions, i, n, s, id)
  }

  ghost predicate AllOutstanding(actions: seq<Action>, n: nat, s: World)
    requires n <= |actions|
  {
    forall id | id in s.table.rows && s.table.rows[id].state == Processing :: Accounted(actions, n, s, id)
  }

  /** A row processed after a step was claimed by the step or has not changed. */
  lemma StillProcessing(s: World, a: Action, id: Id)
    requires WorldInv(s) && Enabled(s, a)
    requires id in After(s, a).table.rows && After(s, a).table.rows[id].state == Processing
    ensures var s' := After(s, a);
            || (a.ClaimBy? && a.w in s'.workers && s'.workers[a.w] == Sending(id, a.token)
                && s'.table.rows[id].owner == Some(a.token) && s'.table.rows[id].leaseExpiresAt == Some(a.now + LEASE))
            || (id in s.table.rows && s'.table.rows[id] == s.table.rows[id])
  {
    if a.ClaimBy? {
      Enlisted(s.table.rows, s.table.nextId, s.events, a.destination, a.now);
      var mid, picked := ClaimEnlistsThenTakes(s, a);
      hide WorldInv, After, Enlist, Pick, HistoryInv;
    } else {
      hide Power, NoRepeat;
    }
  }

  /** Another step leaves a held claim held, or is its timely answer, which ends the processing, or loses it. */
  lemma HeldStep(s: World, a: Action, w: WorkerId, id: Id)
    requires WorldInv(s) && Enabled(s, a) && w in s.workers && s.workers[w].id == id && id in s.table.rows
    requires Holds(s.table.rows[id], s.workers[w].token)
    ensures a == Crash(w) || Answers(a, w)
            || (w in After(s, a).workers && After(s, a).workers[w].id == id
                && After(s, a).workers[w].token == s.workers[w].token)
    ensures id in After(s, a).table.rows && Answers(a, w) && After(s, a).table.rows[id] == s.table.rows[id] ==>
              s.table.rows[id].leaseExpiresAt.Some? && s.table.rows[id].leaseExpiresAt.value <= a.now
  {
    assert HistoryInv(s.table.rows[id], s.history[id], id, s.sent, s.issued);
    if a.ClaimBy? {
      var mid, picked := ClaimEnlistsThenTakes(s, a);
      EnlistedBesides(s, a.destination, a.now);
      hide WorldInv, After, Enlist, Pick, HistoryInv, EnlistedWorld;
    } else {
      hide Power, NoRepeat, Recorded;
    }
  }

  lemma OutstandingStep(actions: seq<Action>, n: nat, id: Id)
    requires Reached(Initial(), actions).Some? && n < |actions|
    requires var s := Reached(Initial(), actions[..n]);
                 s.Some? && WorldInv(s.value) && AllOutstanding(actions, n, s.value)
    requires var s' := Reached(Initial(), actions[..n + 1]);
             s'.Some? && id in s'.value.table.rows && s'.value.table.rows[id].state == Processing
    ensures Accounted(actions, n + 1, Reached(Initial(), actions[..n + 1]).value, id)
  {
    PrefixReached(Initial(), actions, n);
    var s, s', a := Reached(Initial(), actions[..n]).value, Reached(Initial(), actions[..n + 1]).value, actions[n];
    StillProcessing(s, a, id);
    hide After, Enabled, WorldInv, Reached;
    if id in s.table.rows && s'.table.rows[id] == s.table.rows[id] {
      var i: nat :| i < n && Outstanding(actions, i, n, s, id);
      KeepsOutstanding(actions, i, n, s, s', id);
    } else {
      assert Outstanding(actions, n, n + 1, s', id);
    }
  }

  lemma KeepsOutstanding(actions: seq<Action>, i: nat, n: nat, s: World, s': World, id: Id)
    requires i < n < |actions| && WorldInv(s) && Enabled(s, actions[n]) && s' == After(s, actions[n])
    requires id in s.table.rows && id in s'.table.rows && s'.table.rows[id] == s.table.rows[id]
    requires s.table.rows[id].state == Processing && Outstanding(actions, i, n, s, id)
    ensures Outstanding(actions, i, n + 1, s', id)
  {
    var w, a := actions[i].w, actions[n];
    if LostBefore(actions, i, n) {
      LostStays(actions, i, n);
    } else {
      HeldStep(s, a, w, id);
      hide WorldInv, After, Enabled, Took, LostBefore, Quiet;
      if a == Crash(w) || Answers(a, w) {
        LosesNow(actions, i, n);
      } else {
        QuietGrows(actions, i, n, w);
      }
    }
    hide WorldInv, After, Enabled, Took, LostBefore, Quiet;
  }

  lemma QuietGrows(actions: seq<Action>, i: nat, n: nat, w: WorkerId)
    requires n < |actions| && Quiet(actions, i, n, w) && !Answers(actions[n], w) && actions[n] != Crash(w)
    ensures Quiet(actions, i, n + 1, w)
  {
  }

  lemma LostStays(actions: seq<Action>, i: nat, n: nat)
    requires i < n < |actions| && actions[i].ClaimBy? && LostBefore(actions, i, n)
    ensures LostBefore(actions, i, n + 1)
  {
    hide LosesClaim;
    var m: nat :| i < m < n && LosesClaim(actions, i, m);
  }

  lemma LosesNow(actions: seq<Action>, i: nat, n: nat)
    requires i < n < |actions| && actions[i].ClaimBy? && LosesClaim(actions, i, n)
    ensures LostBefore(actions, i, n + 1)
  {
    hide LosesClaim;
  }

  lemma {:induction false} EveryClaimAccounted(actions: seq<Action>, n: nat)
    requires Reached(Initial(), actions).Some? && n <= |actions|
    ensures Reached(Initial(), actions[..n]).Some?
    ensures WorldInv(Reached(Initial(), actions[..n]).value)
    ensures AllOutstanding(actions, n, Reached(Initial(), actions[..n]).value)
    decreases n
  {
    hide WorldInv, After, Enabled, Accounted;
    if n == 0 {
      assert actions[..0] == [];
      InitialIsSound();
    } else {
      EveryClaimAccounted(actions, n - 1);
      PrefixReached(Initial(), actions, n - 1);
      AfterKeeps(Reached(Initial(), actions[..n - 1]).value, actions[n - 1]);
      var s' := Reached(Initial(), actions[..n]).value;
      hide Reached;
      forall id | id in s'.table.rows && s'.table.rows[id].state == Processing
        ensures Accounted(actions, n, s', id)
      {
        OutstandingStep(actions, n - 1, id);
      }
    }
  }

  lemma InitialIsSound()
    ensures WorldInv(Initial())
  {
  }

  /** A timely answer leaves nothing to lose. */
  lemma InTimeOrLost(actions: seq<Action>, i: nat, k: nat, m: nat)
    requires i < k < |actions| && i < m < |actions| && actions[i].ClaimBy?
    requires AnswersInTime(actions, i, k)
    ensures !LosesClaim(actions, i, m)
  {
  }

  /** If claims are answered in time, no claim takes over a lease. */
  lemma PunctualIsPrompt(actions: seq<Action>, j: nat)
    requires Reached(Initial(), actions).Some? && Punctual(actions) && j < |actions|
    ensures Reached(Initial(), actions[..j]).Some? && Prompt(Reached(Initial(), actions[..j]).value, actions[j])
  {
    EveryClaimAccounted(actions, j);
    var s, a := Reached(Initial(), actions[..j]).value, actions[j];
    hide WorldInv, Reached;
    if a.ClaimBy? {
      forall id | id in Claimable(s.table.rows, a.destination, a.now, a.locked)
        ensures s.table.rows[id].state == Pending
      {
        if s.table.rows[id].state == Processing {
          var i: nat :| i < j && Outstanding(actions, i, j, s, id);
          assert InTimeBefore(actions, i, j);
          var k: nat :| i < k < j && AnswersInTime(actions, i, k);
          if LostBefore(actions, i, j) {
            var m: nat :| i < m < j && LosesClaim(actions, i, m);
            InTimeOrLost(actions, i, k, m);
          }
          assert false;
        }
      }
    }
  }

  lemma {:induction false} PunctualRunIsPrompt(actions: seq<Action>, n: nat)
    requires Reached(Initial(), actions).Some? && Punctual(actions) && n <= |actions|
    ensures Reached(Initial(), actions[..n]).Some? && PromptRun(Initial(), actions[..n])
    decreases n
  {
    hide After, Enabled, Prompt, Punctual;
    PrefixReached(Initial(), actions, n);
    if n > 0 {
      PunctualRunIsPrompt(actions, n - 1);
      PunctualIsPrompt(actions, n - 1);
      assert actions[..n][..n - 1] == actions[..n - 1];
    }
  }

  /**
   As long as every claim is answered before its lease lapses, an event is claimed, and so
   sent, at most 20 times per destination, and its row changes at most 40 times; a row that
   has changed 40 times is delivered or parked.
   */
  lemma PunctualRunsAreBounded(actions: seq<Action>, id: Id)
    requires Reached(Initial(), actions).Some? && Punctual(actions)
    requires id in Reached(Initial(), actions).value.table.rows
    ensures var s := Reached(Initial(), actions).value;
            && id in s.history && |s.history[id].tokens| <= 20 && s.history[id].touches <= 40
            && (s.history[id].touches == 40 ==> s.table.rows[id].Terminal())
  {
    PunctualRunIsPrompt(actions, |actions|);
    assert actions[..|actions|] == actions;
    PromptRunBounded(actions);
    InitialIsSound();
    ReachedKeeps(Initial(), actions);
    var s := Reached(Initial(), actions).value;
    hide Reached, PromptRun, Punctual;
    assert Bounded(s.table.rows[id], s.history[id]);
    assert HistoryInv(s.table.rows[id], s.history[id], id, s.sent, s.issued);
  }

  // ---------------------------------------------- a measure over all deliveries

  /** The row of an event that has one. */
  ghost function RowFor(rows: map<Id, Row>, destination: string, event: Id): (id: Id)
    requires HasRow(rows, event, destination)
    ensures id in rows && rows[id].event == event && rows[id].destination == destination
  {
    var id :| id in rows && rows[id].event == event && rows[id].destination == destination;
    id
  }

  /** Changes the event can still go through; an event without a row has them all ahead. */
  ghost function EventWeight(rows: map<Id, Row>, destination: string, event: Id): int {
    if HasRow(rows, event, destination) then Weight(rows[RowFor(rows, destination, event)]) else 2 * MAX_ATTEMPTS
  }

  ghost function WorkLeft(rows: map<Id, Row>, destination: string, events: seq<Id>): int {
    if events == [] then 0 else EventWeight(rows, destination, events[0]) + WorkLeft(rows, destination, events[1..])
  }

  lemma RowIsFor(rows: map<Id, Row>, id: Id)
    requires Unique(rows) && id in rows
    ensures HasRow(rows, rows[id].event, rows[id].destination)
    ensures EventWeight(rows, rows[id].destination, rows[id].event) == Weight(rows[id])
  {
  }

  /** If no event's share rises the sum does not rise, and if one falls it falls. */
  lemma {:induction false} WorkCompares(rows: map<Id, Row>, rows': map<Id, Row>, d: string, events: seq<Id>)
    requires forall e | e in events :: EventWeight(rows', d, e) <= EventWeight(rows, d, e)
    ensures WorkLeft(rows', d, events) <= WorkLeft(rows, d, events)
    ensures (exists e | e in events :: EventWeight(rows', d, e) < EventWeight(rows, d, e)) ==>
              WorkLeft(rows', d, events) < WorkLeft(rows, d, events)
  {
    if events != [] {
      assert events[0] in events;
      WorkCompares(rows, rows', d, events[1..]);
      assert forall e | e in events :: e == events[0] || e in events[1..];
    }
  }

  lemma {:induction false} WorkOfInsertion(rows: map<Id, Row>, d: string, events: seq<Id>, at: nat, event: Id)
    requires at <= |events|
    ensures WorkLeft(rows, d, events[..at] + [event] + events[at..])
            == WorkLeft(rows, d, events) + EventWeight(rows, d, event)
    decreases at
  {
    var more := events[..at] + [event] + events[at..];
    if at == 0 {
      assert more[1..] == events;
    } else {
      WorkOfInsertion(rows, d, events[1..], at - 1, event);
      assert more[1..] == events[1..][..at - 1] + [event] + events[1..][at - 1..];
    }
  }

  lemma {:induction false} WorkAtMost(rows: map<Id, Row>, d: string, events: seq<Id>)
    requires forall e | e in events :: 0 <= EventWeight(rows, d, e) <= 2 * MAX_ATTEMPTS
    ensures 0 <= WorkLeft(rows, d, events) <= 2 * MAX_ATTEMPTS * |events|
    ensures WorkLeft(rows, d, events) == 0 ==> forall e | e in events :: EventWeight(rows, d, e) == 0
  {
    if events != [] {
      assert events[0] in events;
      WorkAtMost(rows, d, events[1..]);
      assert forall e | e in events :: e == events[0] || e in events[1..];
    }
  }

  /** Inserting the missing rows changes no share: an inserted row has all its changes ahead. */
  lemma EnlistedWeight(rows: map<Id, Row>, nextId: Id, listed: seq<Id>, d: string, now: Instant, destination: string,
        e: Id)
    requires TableInv(Table(rows, nextId))
    ensures EventWeight(Enlist(rows, nextId, listed, destination, now).0, d, e) == EventWeight(rows, d, e)
  {
    Enlisted(rows, nextId, listed, destination, now);
    var rows' := Enlist(rows, nextId, listed, destination, now).0;
    if HasRow(rows, e, d) {
      var id := RowFor(rows, d, e);
      assert id in rows' && rows'[id] == rows[id];
      RowIsFor(rows', id);
    } else if HasRow(rows', e, d) {
      assert rows'[RowFor(rows', d, e)].state == Pending;
    }
  }

  /** Replacing one row changes the share of its event only. */
  lemma ReplacedWeight(rows: map<Id, Row>, id: Id, r: Row, d: string, e: Id)
    requires Unique(rows) && id in rows && r.event == rows[id].event && r.destination == rows[id].destination
    ensures Unique(rows[id := r])
    ensures EventWeight(rows[id := r], d, e) ==
            if rows[id].event == e && rows[id].destination == d then Weight(r) else EventWeight(rows, d, e)
  {
    var rows' := rows[id := r];
    assert Unique(rows');
    if HasRow(rows, e, d) {
      var x := RowFor(rows, d, e);
      assert x in rows' && rows'[x].event == e && rows'[x].destination == d;
      RowIsFor(rows', x);
    } else {
      assert !HasRow(rows', e, d);
    }
  }

  /** A claim that takes a row of the destination, or an answer that changes one. */
  predicate Progresses(s: World, a: Action, d: string)
    requires Enabled(s, a)
  {
    match a
    case ClaimBy(w, destination, _, _, _) => destination == d && w in After(s, a).workers
    case AckBy(w, _) => AnswerChanges(s, a, d)
    case FailBy(w, _) => AnswerChanges(s, a, d)
    case _ => false
  }

  predicate AnswerChanges(s: World, a: Action, d: string)
    requires Enabled(s, a) && (a.AckBy? || a.FailBy?)
  {
    var id := s.workers[a.w].id;
    id in s.table.rows && s.table.rows[id].destination == d
    && id in After(s, a).table.rows && After(s, a).table.rows[id] != s.table.rows[id]
  }

  lemma ClaimWeight(s: World, a: Action, d: string, e: Id)
    requires WorldInv(s) && Enabled(s, a) && a.ClaimBy? && Prompt(s, a) && AllBounded(s)
    ensures EventWeight(After(s, a).table.rows, d, e) <= EventWeight(s.table.rows, d, e)
    ensures Progresses(s, a, d) && e == After(s, a).table.rows[After(s, a).workers[a.w].id].event ==>
              e in s.events && EventWeight(After(s, a).table.rows, d, e) < EventWeight(s.table.rows, d, e)
  {
    var mid, picked := ClaimEnlistsThenTakes(s, a);
    EnlistedWeight(s.table.rows, s.table.nextId, s.events, d, a.now, a.destination, e);
    EnlistKeeps(s, a.destination, a.now);
    EnlistedBesides(s, a.destination, a.now);
    assert mid.table.rows == Enlist(s.table.rows, s.table.nextId, s.events, a.destination, a.now).0;
    if picked.Some? {
      var id := picked.value;
      var r := mid.table.rows[id];
      EnlistedIsBounded(s, a, id, mid, picked);
      ClaimLessens(r, mid.history[id], a.token, a.now);
      ReplacedWeight(mid.table.rows, id, Claimed(r, a.token, a.now), d, e);
      assert r.destination == a.destination;
      RowIsFor(mid.table.rows, id);
    }
    hide AllBounded, Prompt, Enlist, EnlistedWorld, Pick, After, EventWeight, Weight, Bounded, HistoryInv;
  }

  lemma AnswerWeight(s: World, a: Action, d: string, e: Id)
    requires WorldInv(s) && Enabled(s, a) && (a.AckBy? || a.FailBy?) && AllBounded(s)
    ensures EventWeight(After(s, a).table.rows, d, e) <= EventWeight(s.table.rows, d, e)
    ensures AnswerChanges(s, a, d) && e == s.table.rows[s.workers[a.w].id].event ==>
              e in s.events && EventWeight(After(s, a).table.rows, d, e) < EventWeight(s.table.rows, d, e)
  {
    var id := s.workers[a.w].id;
    assert id in s.table.rows && id in After(s, a).table.rows;
    var r' := After(s, a).table.rows[id];
    OnlyOwnRow(s, a);
    PromptStep(s, a, id);
    ReplacedWeight(s.table.rows, id, r', d, e);
    RowIsFor(s.table.rows, id);
    assert s.table.rows[id].event in s.events;
    hide WorldInv, After, EventWeight, Weight, Bounded, AllBounded, Enabled;
  }

  lemma OnlyOwnRow(s: World, a: Action)
    requires WorldInv(s) && Enabled(s, a) && (a.AckBy? || a.FailBy?)
    ensures var id := s.workers[a.w].id;
            && id in s.table.rows && id in After(s, a).table.rows && id in After(s, a).history
            && After(s, a).table.rows == s.table.rows[id := After(s, a).table.rows[id]]
            && After(s, a).table.rows[id].event == s.table.rows[id].event
            && After(s, a).table.rows[id].destination == s.table.rows[id].destination
            && After(s, a).events == s.events
  {
    hide Power, NoRepeat;
    var id := s.workers[a.w].id;
    assert s.table.rows[id := s.table.rows[id]] == s.table.rows;
  }

  /**
   The measure: the changes still ahead, summed over all events of the destination. As long as
   no lease is taken over no step raises it, except that a new event brings its 40, and every
   claim that takes a row and every answer that changes one lowers it.
   */
  lemma MeasureFalls(s: World, a: Action, d: string)
    requires WorldInv(s) && Enabled(s, a) && Prompt(s, a) && AllBounded(s)
    ensures WorkLeft(After(s, a).table.rows, d, After(s, a).events)
            <= WorkLeft(s.table.rows, d, s.events) + (if a.Publish? then 40 else 0)
    ensures Progresses(s, a, d) ==>
              WorkLeft(After(s, a).table.rows, d, After(s, a).events) < WorkLeft(s.table.rows, d, s.events)
  {
    match a
    case Publish(event, at) =>
      assert !HasRow(s.table.rows, event, d);
      WorkOfInsertion(s.table.rows, d, s.events, at, event);
    case ClaimBy(w, destination, now, _, _) =>
      EnlistedBesides(s, destination, now);
      forall e
        ensures EventWeight(After(s, a).table.rows, d, e) <= EventWeight(s.table.rows, d, e)
      {
        ClaimWeight(s, a, d, e);
      }
      if Progresses(s, a, d) {
        ClaimWeight(s, a, d, After(s, a).table.rows[After(s, a).workers[w].id].event);
      }
      ClaimKeepsEvents(s, a);
      WorkCompares(s.table.rows, After(s, a).table.rows, d, s.events);
      hide WorldInv, After, EventWeight, Enabled, Prompt, AllBounded, Progresses;
    case AckBy(_, _) => AnswerFalls(s, a, d);
    case FailBy(_, _) => AnswerFalls(s, a, d);
    case _ =>
  }

  lemma ClaimKeepsEvents(s: World, a: Action)
    requires Enabled(s, a) && a.ClaimBy?
    ensures After(s, a).events == s.events
  {
    hide Enlist, Pick, Recorded;
  }

  lemma AnswerFalls(s: World, a: Action, d: string)
    requires WorldInv(s) && Enabled(s, a) && (a.AckBy? || a.FailBy?) && AllBounded(s)
    ensures WorkLeft(After(s, a).table.rows, d, After(s, a).events) <= WorkLeft(s.table.rows, d, s.events)
    ensures AnswerChanges(s, a, d) ==>
              WorkLeft(After(s, a).table.rows, d, After(s, a).events) < WorkLeft(s.table.rows, d, s.events)
  {
    OnlyOwnRow(s, a);
    forall e
      ensures EventWeight(After(s, a).table.rows, d, e) <= EventWeight(s.table.rows, d, e)
    {
      AnswerWeight(s, a, d, e);
    }
    AnswerWeight(s, a, d, s.table.rows[s.workers[a.w].id].event);
    WorkCompares(s.table.rows, After(s, a).table.rows, d, s.events);
    hide WorldInv, After, EventWeight, Enabled, AllBounded, AnswerChanges;
  }

  /** Steps of the run that made progress for the destination. */
  ghost function Progress(actions: seq<Action>, d: string): nat
    requires Reached(Initial(), actions).Some?
    decreases |actions|
  {
    if actions == [] then 0
    else
      var n := |actions| - 1;
      Progress(actions[..n], d) + (if Progresses(Reached(Initial(), actions[..n]).value, actions[n], d) then 1 else 0)
  }

  lemma {:induction false} ProgressIsPaidFor(actions: seq<Action>, d: string)
    requires Reached(Initial(), actions).Some? && PromptRun(Initial(), actions)
    ensures var s := Reached(Initial(), actions).value;
            Progress(actions, d) + WorkLeft(s.table.rows, d, s.events) <= 40 * |s.events|
    decreases |actions|
  {
    if actions == [] {
    } else {
      var n := |actions| - 1;
      hide After, Enabled, Prompt, Progresses, WorkLeft;
      ProgressIsPaidFor(actions[..n], d);
      PromptRunBounded(actions[..n]);
      InitialIsSound();
      ReachedKeeps(Initial(), actions[..n]);
      var pre := Reached(Initial(), actions[..n]).value;
      MeasureFalls(pre, actions[n], d);
      EventsGrow(pre, actions[n]);
    }
  }

  lemma EventsGrow(s: World, a: Action)
    requires Enabled(s, a)
    ensures |After(s, a).events| == |s.events| + (if a.Publish? then 1 else 0)
  {
    hide Enlist, Pick, Recorded, Acknowledged, Failed;
  }

  /**
   In a run whose claims are answered in time, at most 40 steps per event make progress, and
   what is left of the 40 is the measure.
   */
  lemma PunctualRunsMakeFiniteProgress(actions: seq<Action>, d: string)
    requires Reached(Initial(), actions).Some? && Punctual(actions)
    ensures var s := Reached(Initial(), actions).value;
            && 0 <= WorkLeft(s.table.rows, d, s.events)
            && Progress(actions, d) + WorkLeft(s.table.rows, d, s.events) <= 40 * |s.events|
  {
    PunctualRunIsPrompt(actions, |actions|);
    assert actions[..|actions|] == actions;
    ProgressIsPaidFor(actions, d);
    PromptRunBounded(actions);
    var s := Reached(Initial(), actions).value;
    InitialIsSound();
    ReachedKeeps(Initial(), actions);
    WeightsInRange(s, d);
    WorkAtMost(s.table.rows, d, s.events);
  }

  lemma WeightsInRange(s: World, d: string)
    requires WorldInv(s) && AllBounded(s)
    ensures forall e :: 0 <= EventWeight(s.table.rows, d, e) <= 2 * MAX_ATTEMPTS
  {
    forall e
      ensures 0 <= EventWeight(s.table.rows, d, e) <= 2 * MAX_ATTEMPTS
    {
      if HasRow(s.table.rows, e, d) {
        var id := RowFor(s.table.rows, d, e);
        assert Bounded(s.table.rows[id], s.history[id]);
        assert HistoryInv(s.table.rows[id], s.history[id], id, s.sent, s.issued);
      }
    }
  }

  /**
   And progress is possible until the end: a claim that comes back empty, 256 seconds after the
   last change of every row and with nothing locked, means that every event is delivered or parked.
   */
  lemma EmptyClaimMeansDone(s: World, a: Action)
    requires WorldInv(s) && Enabled(s, a) && a.ClaimBy? && a.locked == {} && a.w !in After(s, a).workers
    requires forall id | id in s.table.rows && s.table.rows[id].destination == a.destination ::
               s.history[id].touched + 256 * SECOND <= a.now
    ensures forall e | e in s.events :: HasRow(After(s, a).table.rows, e, a.destination)
    ensures forall id | id in After(s, a).table.rows && After(s, a).table.rows[id].destination == a.destination ::
              After(s, a).table.rows[id].Terminal()
  {
    Enlisted(s.table.rows, s.table.nextId, s.events, a.destination, a.now);
    var mid, picked := ClaimEnlistsThenTakes(s, a);
    assert picked.None?;
    forall id | id in mid.table.rows && mid.table.rows[id].destination == a.destination
      ensures mid.table.rows[id].Terminal()
    {
      assert id !in Claimable(mid.table.rows, a.destination, a.now, a.locked);
      if id in s.table.rows && !s.table.rows[id].Terminal() { ReadyInTime(s, id, a.now); }
    }
    hide WorldInv, Enlist, Pick;
  }
}
