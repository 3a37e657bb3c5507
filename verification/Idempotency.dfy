/**
 Receipts over serial runs: effects at most once, first answers replayed, redaction that
 nobody can observe, and tokens that outlive the replays handing them out.
 */
module Idempotency {
  import opened Base
  import opened Calendar
  import opened Schedule
  import opened Model
  import opened Commands
  import opened Invariants

  /** The answer of event i of a run. */
  function AnswerAt(rows: Rows, events: seq<Event>, i: nat): Answer
    requires i < |events|
  {
    Step(Run(rows, events[..i]), events[i]).1
  }

  /** Event i executed the effect of the command identified by key and committed it. */
  predicate Performs(rows: Rows, events: seq<Event>, i: nat, key: ReceiptKey)
    requires i < |events|
  {
    && events[i].VisitAt? && events[i].cmd.Identity() == key
    && AnswerAt(rows, events, i).Answered? && !AnswerAt(rows, events, i).replayed
  }

  lemma RunSnoc(rows: Rows, events: seq<Event>, i: nat)
    requires i < |events|
    ensures Run(rows, events[..i + 1]) == Step(Run(rows, events[..i]), events[i]).0
  {
    assert events[..i + 1][..i] == events[..i];
  }

  lemma {:induction false} RunConcat(rows: Rows, before: seq<Event>, after: seq<Event>)
    ensures Run(rows, before + after) == Run(Run(rows, before), after)
    decreases |after|
  {
    hide Step;
    if after == [] {
      assert before + after == before;
    } else {
      var n := |after| - 1;
      RunConcat(rows, before, after[..n]);
      assert (before + after)[..|before| + n] == before + after[..n];
    }
  }

  // ------------------------------------------------------------- at most once

  /** The event removes the result r of the key: directly, or by a redaction after its expiry. */
  predicate Removes(e: Event, key: ReceiptKey, r: Receipt) {
    e == RetireAt(key) || (e.RedactAt? && Expired(r, e.moment))
  }

  /** The only thing an event can do to a stored receipt is remove its result. */
  lemma StepKeepsReceipt(rows: Rows, e: Event, key: ReceiptKey)
    requires key in rows.receipts
    ensures var rows' := Step(rows, e).0; var r := rows.receipts[key];
            && key in rows'.receipts
            && rows'.receipts[key] == if Removes(e, key, r) then Tombstone(r.fingerprint) else r
  {
    hide Execute, ExecuteEdit;
    match e
    case VisitAt(cmd, draw) => VisitKeepsReceipt(rows, cmd, draw, key);
    case EditAt(edit, now) => EditFrame(rows, edit, now);
    case _ =>
  }

  lemma VisitKeepsReceipt(rows: Rows, cmd: Visit, draw: Draw, key: ReceiptKey)
    requires key in rows.receipts
    ensures var rows' := Execute(rows, cmd, draw).0;
            key in rows'.receipts && rows'.receipts[key] == rows.receipts[key]
  {
    hide Execute;
    ExecuteReceipts(rows, cmd, draw);
  }

  lemma ExecuteReplays(rows: Rows, cmd: Visit, draw: Draw)
    requires cmd.Identity() in rows.receipts
    ensures Execute(rows, cmd, draw)
            == (rows, Replay(rows.receipts[cmd.Identity()], cmd.FingerprintOf(), draw.completedAt))
  {
    hide Effect;
  }

  lemma ExecuteReceipts(rows: Rows, cmd: Visit, draw: Draw)
    ensures var (rows', a) := Execute(rows, cmd, draw);
            if cmd.Identity() !in rows.receipts && a.Answered? then
              && !a.replayed
              && rows'.receipts == rows.receipts[cmd.Identity() := Finished(cmd.FingerprintOf(), a.code, a.response,
                                                 draw.completedAt, draw.completedAt + RESPONSE_RETENTION)]
            else
              rows' == rows && (a.Answered? ==> a.replayed)
  {
    hide Effect;
    EffectFrame(rows, cmd, draw);
  }

  /** A result stays exactly until some event removes it; its key and fingerprint stay for good. */
  lemma {:induction false} RunKeepsReceipt(rows: Rows, events: seq<Event>, key: ReceiptKey)
    requires key in rows.receipts
    ensures var rows' := Run(rows, events); var r := rows.receipts[key];
            && key in rows'.receipts
            && rows'.receipts[key] == if exists e :: e in events && Removes(e, key, r) then Tombstone(r.fingerprint)
                                      else r
    decreases |events|
  {
    hide Execute, ExecuteEdit;
    if events != [] {
      var n := |events| - 1;
      RunKeepsReceipt(rows, events[..n], key);
      var mid := Run(rows, events[..n]);
      StepKeepsReceipt(mid, events[n], key);
      var r := rows.receipts[key];
      hide Run, Step;
      assert forall e :: e in events <==> e in events[..n] || e == events[n];
      if Removes(events[n], key, r) { assert events[n] in events; }
      if e :| e in events[..n] && Removes(e, key, r) { assert e in events; }
    }
  }

  /**
   Over any run, whatever is retried, replayed, expired or retired, the effect behind one
   (scope, operation, key) is committed by at most one event, and never after a receipt exists.
   */
  lemma AtMostOnce(rows: Rows, events: seq<Event>, key: ReceiptKey, i: nat, j: nat)
    requires i < |events| && j < |events|
    requires Performs(rows, events, i, key) && Performs(rows, events, j, key)
    ensures i == j && key !in rows.receipts && key in Run(rows, events).receipts
  {
    hide Execute, ExecuteEdit;
    NotAgain(rows, events, key, i, j);
    NotAgain(rows, events, key, j, i);
    if key in rows.receipts {
      RunKeepsReceipt(rows, events[..i], key);
      ExecuteReceipts(Run(rows, events[..i]), events[i].cmd, events[i].draw);
    }
    RunSnoc(rows, events, i);
    ExecuteReceipts(Run(rows, events[..i]), events[i].cmd, events[i].draw);
    RunConcat(rows, events[..i + 1], events[i + 1..]);
    assert events[..i + 1] + events[i + 1..] == events;
    RunKeepsReceipt(Run(rows, events[..i + 1]), events[i + 1..], key);
  }

  lemma NotAgain(rows: Rows, events: seq<Event>, key: ReceiptKey, i: nat, j: nat)
    requires i < |events| && j < |events|
    requires Performs(rows, events, i, key) && Performs(rows, events, j, key)
    ensures !(i < j)
  {
    hide Execute, ExecuteEdit;
    if i < j {
      ReceiptFrom(rows, events, i, j);
      ExecuteReceipts(Run(rows, events[..j]), events[j].cmd, events[j].draw);
      assert false;
    }
  }

  /** An event between i and j removes the result that event i stored, or finds it expired. */
  predicate RemovedBetween(events: seq<Event>, i: nat, j: nat, expiry: Instant)
    requires i < j <= |events| && events[i].VisitAt?
  {
    exists k | i < k < j ::
      events[k] == RetireAt(events[i].cmd.Identity()) || (events[k].RedactAt? && expiry <= events[k].moment)
  }

  /** The receipt the performing event i leaves behind, as event j finds it. */
  lemma ReceiptFrom(rows: Rows, events: seq<Event>, i: nat, j: nat)
    requires i < j <= |events| && events[i].VisitAt?
    requires Performs(rows, events, i, events[i].cmd.Identity())
    ensures var a := AnswerAt(rows, events, i); var key := events[i].cmd.Identity();
            var first := Finished(events[i].cmd.FingerprintOf(), a.code, a.response, events[i].draw.completedAt,
                                  events[i].draw.completedAt + RESPONSE_RETENTION);
            var now := Run(rows, events[..j]).receipts;
            && key in now
            && now[key] == if RemovedBetween(events, i, j, first.expiresAt) then Tombstone(first.fingerprint) else first
  {
    hide Execute, ExecuteEdit;
    var key := events[i].cmd.Identity();
    ReceiptOfPerformer(rows, events, i);
    var between := events[i + 1..j];
    assert events[..i + 1] + between == events[..j];
    RunConcat(rows, events[..i + 1], between);
    var mid := Run(rows, events[..i + 1]);
    RunKeepsReceipt(mid, between, key);
    var r := mid.receipts[key];
    if e :| e in between && Removes(e, key, r) {
      var x :| 0 <= x < |between| && between[x] == e;
      assert events[i + 1 + x] == e;
    }
    if k :| i < k < j && (events[k] == RetireAt(key) || (events[k].RedactAt? && r.expiresAt <= events[k].moment)) {
      assert between[k - i - 1] == events[k];
      assert events[k] in between && Removes(events[k], key, r);
    }
  }

  lemma ReceiptOfPerformer(rows: Rows, events: seq<Event>, i: nat)
    requires i < |events| && events[i].VisitAt? && Performs(rows, events, i, events[i].cmd.Identity())
    ensures var a := AnswerAt(rows, events, i); var key := events[i].cmd.Identity();
            var now := Run(rows, events[..i + 1]).receipts;
            key in now && now[key]
              == Finished(events[i].cmd.FingerprintOf(), a.code, a.response, events[i].draw.completedAt,
                                               events[i].draw.completedAt + RESPONSE_RETENTION)
  {
    hide Execute, ExecuteEdit;
    RunSnoc(rows, events, i);
    ExecuteReceipts(Run(rows, events[..i]), events[i].cmd, events[i].draw);
  }

  /** Commands of one kind; completions and no-shows are two kinds. */
  predicate SameKind(a: Visit, b: Visit) {
    || (a.Create? && b.Create?) || (a.Cancel? && b.Cancel?) || (a.Reschedule? && b.Reschedule?)
    || (a.Outcome? && b.Outcome? && (a.target == Completed <==> b.target == Completed))
  }

  /** The same key of the same principal, business, channel and target, for the same kind of command. */
  predicate SameKey(a: Visit, b: Visit) {
    && a.key == b.key && SameKind(a, b)
    && a.scope.business == b.scope.business && a.scope.principalKind == b.scope.principalKind
    && a.scope.principalId == b.scope.principalId && a.scope.channel == b.scope.channel
    && a.scope.target == b.scope.target
  }

  /** Two commands share a receipt exactly if they share all of this. */
  lemma KeysAreShared(a: Visit, b: Visit)
    ensures a.Identity() == b.Identity() <==> SameKey(a, b)
  {
  }

  /** What a client has to repeat for a retry to count as the same command. */
  predicate SamePayload(a: Visit, b: Visit) {
    match (a, b)
    case (Create(_, _, _, branch, barber, service, startAt, _, _),
          Create(_, _, _, branch', barber', service', startAt', _, _)) =>
      branch == branch' && barber == barber' && service == service' && startAt == startAt'
    case (Cancel(_, _, _, booking, version, reason, override),
          Cancel(_, _, _, booking', version', reason', override')) =>
      booking == booking' && version == version' && reason == reason' && override == override'
    case (Reschedule(_, _, _, booking, version, startAt), Reschedule(_, _, _, booking', version', startAt')) =>
      booking == booking' && version == version' && startAt == startAt'
    case (Outcome(_, _, _, booking, version, target, _), Outcome(_, _, _, booking', version', target', _)) =>
      booking == booking' && version == version'
    case _ => false
  }

  /** Under one key, fingerprints agree exactly on equal payloads; secrets and rights are no part of them. */
  lemma FingerprintIsPayload(a: Visit, b: Visit)
    requires SameKey(a, b)
    ensures a.FingerprintOf() == b.FingerprintOf() <==> SamePayload(a, b)
  {
  }

  /**
   Whatever follows a committed command, exactly: the same key with another payload conflicts;
   the same payload gets the first answer if its clock is within 30 days and no event in between
   has removed the result, and "expired" otherwise. No such event changes anything.
   */
  lemma LaterUsesOfAKey(rows: Rows, events: seq<Event>, i: nat, j: nat)
    requires i < j < |events| && events[i].VisitAt? && events[j].VisitAt?
    requires Performs(rows, events, i, events[i].cmd.Identity())
    requires SameKey(events[i].cmd, events[j].cmd)
    ensures var first := AnswerAt(rows, events, i); var expiry := events[i].draw.completedAt + 30 * DAY;
            && Run(rows, events[..j + 1]) == Run(rows, events[..j])
            && AnswerAt(rows, events, j) ==
               if !SamePayload(events[i].cmd, events[j].cmd) then Raised(IdempotencyConflict)
               else if RemovedBetween(events, i, j, expiry) || expiry <= events[j].draw.completedAt then
                 Raised(ResultExpired)
               else Answered(first.code, first.response, true)
  {
    hide Execute, ExecuteEdit;
    KeysAreShared(events[i].cmd, events[j].cmd);
    FingerprintIsPayload(events[i].cmd, events[j].cmd);
    ReceiptFrom(rows, events, i, j);
    RunSnoc(rows, events, j);
    ExecuteReplays(Run(rows, events[..j]), events[j].cmd, events[j].draw);
    hide SamePayload, SameKey, RemovedBetween;
  }

  /** A key that no command of a run has used has no receipt. */
  lemma {:induction false} UnusedKey(rows: Rows, events: seq<Event>, cmd: Visit)
    requires forall e | e in events && e.VisitAt? :: !SameKey(e.cmd, cmd)
    requires cmd.Identity() !in rows.receipts
    ensures cmd.Identity() !in Run(rows, events).receipts
    decreases |events|
  {
    hide Step, SameKey;
    if events != [] {
      var n := |events| - 1;
      UnusedKey(rows, events[..n], cmd);
      assert events[n] in events;
      StepUnusedKey(Run(rows, events[..n]), events[n], cmd);
    }
  }

  lemma StepUnusedKey(rows: Rows, e: Event, cmd: Visit)
    requires cmd.Identity() !in rows.receipts && (e.VisitAt? ==> !SameKey(e.cmd, cmd))
    ensures cmd.Identity() !in Step(rows, e).0.receipts
  {
    hide Execute, ExecuteEdit, SameKey;
    if e.VisitAt? {
      KeysAreShared(e.cmd, cmd);
      ExecuteReceipts(rows, e.cmd, e.draw);
    }
    if e.EditAt? { EditFrame(rows, e.edit, e.now); }
  }

  /**
   What others do under their own keys never answers for a command: one whose principal,
   business, channel, target, kind or key is new is neither replayed nor found conflicting or
   expired, in any run that starts without receipts. It is executed, on the rows it finds.
   */
  lemma FirstUseIsExecuted(rows: Rows, events: seq<Event>, j: nat)
    requires rows.receipts == map[] && j < |events| && events[j].VisitAt?
    requires forall i | 0 <= i < j && events[i].VisitAt? :: !SameKey(events[i].cmd, events[j].cmd)
    ensures var a := AnswerAt(rows, events, j); var cmd := events[j].cmd;
            && !(a.Answered? && a.replayed) && a != Raised(IdempotencyConflict) && a != Raised(ResultExpired)
            && cmd.Identity() !in Run(rows, events[..j]).receipts
            && match Effect(Run(rows, events[..j]), cmd, events[j].draw)
               case Failed(f) => a == Raised(f)
               case Done(_, code, response) => a == Answered(code, response, false)
  {
    hide Effect, Run;
    var cmd, found := events[j].cmd, Run(rows, events[..j]);
    UnusedKey(rows, events[..j], cmd);
    EffectNeverReplays(found, cmd, events[j].draw);
  }

  lemma EffectNeverReplays(rows: Rows, cmd: Visit, draw: Draw)
    ensures Effect(rows, cmd, draw) != Failed(IdempotencyConflict) && Effect(rows, cmd, draw) != Failed(ResultExpired)
  {
    hide MayStart, FitIn, VerdictOn, SeenIn;
  }

  // ----------------------------------------------------------------- redaction

  /** `b` is `a` with some results that had expired by `moment` already removed. */
  ghost predicate Blurred(a: Rows, b: Rows, moment: Instant) {
    && b == a.(receipts := b.receipts, redactions := b.redactions)
    && b.receipts.Keys == a.receipts.Keys
    && forall k | k in a.receipts ::
         b.receipts[k] == a.receipts[k]
         || (Expired(a.receipts[k], moment) && b.receipts[k] == Tombstone(a.receipts[k].fingerprint))
  }

  lemma EffectIgnoresReceipts(a: Rows, b: Rows, cmd: Visit, draw: Draw)
    requires b == a.(receipts := b.receipts, redactions := b.redactions)
    ensures Effect(b, cmd, draw) ==
            match Effect(a, cmd, draw)
            case Failed(f) => Failed(f)
            case Done(rows', code, response) =>
              Done(rows'.(receipts := b.receipts, redactions := b.redactions), code, response)
  {
    var seen := SeenIn(a, cmd);
    assert SeenIn(b, cmd) == seen;
    var gate := GateOf(a.catalog, cmd, seen, draw.now);
    assert FitIn(b, gate) == FitIn(a, gate);
    FinishIgnoresReceipts(a, b, PlanOf(a.catalog, cmd, seen, FitIn(a, gate), draw));
  }

  lemma FinishIgnoresReceipts(a: Rows, b: Rows, plan: Plan)
    requires b == a.(receipts := b.receipts, redactions := b.redactions)
    ensures Finish(b, plan) ==
            match Finish(a, plan)
            case Failed(f) => Failed(f)
            case Done(rows', code, response) =>
              Done(rows'.(receipts := b.receipts, redactions := b.redactions), code, response)
  {
    if plan.Write? {
      assert VerdictOn(a, plan.write) == VerdictOn(b, plan.write);
    }
  }

  lemma ExecuteBlurred(a: Rows, b: Rows, cmd: Visit, draw: Draw, moment: Instant)
    requires Blurred(a, b, moment) && moment <= draw.completedAt
    ensures Execute(a, cmd, draw).1 == Execute(b, cmd, draw).1
    ensures Blurred(Execute(a, cmd, draw).0, Execute(b, cmd, draw).0, moment)
  {
    if cmd.Identity() in a.receipts {
      ReplayBlurred(a, b, cmd, draw, moment);
    } else {
      EffectIgnoresReceipts(a, b, cmd, draw);
      EffectFrame(a, cmd, draw);
      hide Effect;
      match Effect(a, cmd, draw)
      case Failed(_) =>
      case Done(rows', code, response) =>
        var done := rows'.(receipts := b.receipts, redactions := b.redactions);
        assert Blurred(rows', done, moment);
        assert Execute(a, cmd, draw).0 == WithReceipt(rows', cmd, code, response, draw.completedAt);
        assert Execute(b, cmd, draw).0 == WithReceipt(done, cmd, code, response, draw.completedAt);
        ReceiptBlurred(rows', done, cmd, code, response, draw.completedAt, moment);
    }
  }

  lemma ReplayBlurred(a: Rows, b: Rows, cmd: Visit, draw: Draw, moment: Instant)
    requires Blurred(a, b, moment) && moment <= draw.completedAt && cmd.Identity() in a.receipts
    ensures Execute(a, cmd, draw) == (a, Execute(b, cmd, draw).1) && Execute(b, cmd, draw).0 == b
  {
    hide Effect;
  }

  lemma ReceiptBlurred(a: Rows, b: Rows, cmd: Visit, code: Code, response: Response, at: Instant, moment: Instant)
    requires Blurred(a, b, moment)
    ensures Blurred(WithReceipt(a, cmd, code, response, at), WithReceipt(b, cmd, code, response, at), moment)
  {
  }

  lemma EditBlurred(a: Rows, b: Rows, e: Edit, now: Instant, moment: Instant)
    requires Blurred(a, b, moment)
    ensures ExecuteEdit(a, e, now).1 == ExecuteEdit(b, e, now).1
    ensures Blurred(ExecuteEdit(a, e, now).0, ExecuteEdit(b, e, now).0, moment)
  {
    hide FutureFit, BookingsOf, RosterOf, RuleValid, ExceptionValid, ServiceValid;
  }

  lemma StepBlurred(a: Rows, b: Rows, e: Event, moment: Instant)
    requires Blurred(a, b, moment) && (e.VisitAt? ==> moment <= e.draw.completedAt)
    ensures Step(a, e).1 == Step(b, e).1 && Blurred(Step(a, e).0, Step(b, e).0, moment)
  {
    hide Execute, ExecuteEdit;
    match e
    case VisitAt(cmd, draw) => ExecuteBlurred(a, b, cmd, draw, moment);
    case EditAt(edit, now) => EditBlurred(a, b, edit, now, moment);
    case _ =>
  }

  lemma {:induction false} RunBlurred(a: Rows, b: Rows, events: seq<Event>, moment: Instant)
    requires Blurred(a, b, moment)
    requires forall e | e in events :: e.VisitAt? ==> moment <= e.draw.completedAt
    ensures Blurred(Run(a, events), Run(b, events), moment)
    decreases |events|
  {
    hide Execute, ExecuteEdit;
    if events != [] {
      var n := |events| - 1;
      RunBlurred(a, b, events[..n], moment);
      StepBlurred(Run(a, events[..n]), Run(b, events[..n]), events[n], moment);
    }
  }

  /**
   Redacting at `moment` anywhere in a run changes no answer of any later command whose clock is
   at or after that moment, and no row other than receipt bodies and redaction records.
   */
  lemma RedactionUnobservable(rows: Rows, before: seq<Event>, after: seq<Event>, moment: Instant)
    requires forall e | e in after :: e.VisitAt? ==> moment <= e.draw.completedAt
    ensures var plain, redacted := Run(rows, before), Run(rows, before + [RedactAt(moment)]);
            && Blurred(Run(plain, after), Run(redacted, after), moment)
            && forall i | 0 <= i < |after| :: AnswerAt(plain, after, i) == AnswerAt(redacted, after, i)
  {
    hide Execute, ExecuteEdit;
    var plain, redacted := Run(rows, before), Run(rows, before + [RedactAt(moment)]);
    assert (before + [RedactAt(moment)])[..|before|] == before;
    assert Blurred(plain, redacted, moment);
    forall i | 0 <= i <= |after|
      ensures Blurred(Run(plain, after[..i]), Run(redacted, after[..i]), moment)
    {
      RunBlurred(plain, redacted, after[..i], moment);
    }
    forall i | 0 <= i < |after|
      ensures AnswerAt(plain, after, i) == AnswerAt(redacted, after, i)
    {
      assert after[i] in after;
      StepBlurred(Run(plain, after[..i]), Run(redacted, after[..i]), after[i], moment);
    }
    assert after[..|after|] == after;
  }

  /** Redaction records belong to removed results, and a removed result never comes back. */
  ghost predicate RecordsSettled(rows: Rows) {
    forall k | k in rows.redactions :: k in rows.receipts && rows.receipts[k].Tombstone?
  }

  lemma StepKeepsRecords(rows: Rows, e: Event)
    requires RecordsSettled(rows)
    ensures RecordsSettled(Step(rows, e).0)
  {
    hide Execute, ExecuteEdit;
    match e
    case VisitAt(cmd, draw) =>
      ExecuteReceipts(rows, cmd, draw);
      VisitKeepsRecords(rows, cmd, draw);
    case EditAt(edit, now) => EditFrame(rows, edit, now);
    case _ =>
  }

  lemma VisitKeepsRecords(rows: Rows, cmd: Visit, draw: Draw)
    ensures Execute(rows, cmd, draw).0.redactions == rows.redactions
  {
    hide Effect, Replay;
    EffectFrame(rows, cmd, draw);
  }

  lemma {:induction false} RunKeepsRecords(rows: Rows, events: seq<Event>)
    requires RecordsSettled(rows)
    ensures RecordsSettled(Run(rows, events))
    decreases |events|
  {
    hide Step, RecordsSettled;
    if events != [] {
      var n := |events| - 1;
      RunKeepsRecords(rows, events[..n]);
      StepKeepsRecords(Run(rows, events[..n]), events[n]);
    }
  }

  /**
   After any run redacting twice is redacting once, and each receipt it tombstones gets its
   one record, which it did not have before.
   */
  lemma RedactionIdempotent(start: Rows, events: seq<Event>, moment: Instant, moment': Instant)
    requires moment' <= moment && RecordsSettled(start)
    ensures var rows := Run(start, events); var once := Redact(rows, moment);
            && Redact(once, moment') == once && ExpiredKeys(once.receipts, moment') == {}
            && |once.redactions| == |rows.redactions| + |ExpiredKeys(rows.receipts, moment)|
            && RecordsSettled(once)
            && (forall k | k in rows.receipts && once.receipts[k] != rows.receipts[k] ::
                  k in once.redactions && k !in rows.redactions)
  {
    RunKeepsRecords(start, events);
    hide Run, RecordsSettled;
    RedactedTwice(Run(start, events), moment, moment');
  }

  lemma RedactedTwice(rows: Rows, moment: Instant, moment': Instant)
    requires moment' <= moment && RecordsSettled(rows)
    ensures var once := Redact(rows, moment);
            && Redact(once, moment') == once && ExpiredKeys(once.receipts, moment') == {}
            && |once.redactions| == |rows.redactions| + |ExpiredKeys(rows.receipts, moment)|
            && RecordsSettled(once)
            && (forall k | k in rows.receipts && once.receipts[k] != rows.receipts[k] ::
                  k in once.redactions && k !in rows.redactions)
  {
    var once := Redact(rows, moment);
    var keys := ExpiredKeys(rows.receipts, moment);
    assert rows.redactions !! keys;
    NothingLeftToRedact(rows, moment, moment');
    assert Redact(once, moment').redactions == once.redactions;
    assert Redact(once, moment').receipts == once.receipts;
  }

  lemma NothingLeftToRedact(rows: Rows, moment: Instant, moment': Instant)
    requires moment' <= moment
    ensures ExpiredKeys(Redact(rows, moment).receipts, moment') == {}
  {
    var once := Redact(rows, moment).receipts;
    forall k | k in once
      ensures !Expired(once[k], moment')
    {
    }
  }

  // --------------------------------------------------------------------- tokens

  /** `authorize_management_token` finds a grant. */
  predicate Authorizes(tokens: map<Id, Token>, booking: Id, raw: string, session: string) {
    raw != "" && booking in tokens && tokens[booking].digest == Sha256(raw) && tokens[booking].session == session
  }

  function Decrypt(cipher: Cipher): string { cipher.raw }

  lemma {:induction false} TokenKept(rows: Rows, events: seq<Event>, id: Id, moment: Instant)
    requires id in rows.tokens && moment <= rows.tokens[id].createdAt + TOKEN_RETENTION
    requires forall e | e in events :: e.RevokeAt? ==> e.moment <= moment
    ensures id in Run(rows, events).tokens && Run(rows, events).tokens[id] == rows.tokens[id]
    decreases |events|
  {
    hide Execute, ExecuteEdit;
    if events != [] {
      var n := |events| - 1;
      TokenKept(rows, events[..n], id, moment);
      var mid := Run(rows, events[..n]);
      assert events[n] in events;
      StepKeepsToken(mid, events[n], id, moment);
    }
  }

  lemma StepKeepsToken(rows: Rows, e: Event, id: Id, moment: Instant)
    requires id in rows.tokens && moment <= rows.tokens[id].createdAt + TOKEN_RETENTION
    requires e.RevokeAt? ==> e.moment <= moment
    ensures id in Step(rows, e).0.tokens && Step(rows, e).0.tokens[id] == rows.tokens[id]
  {
    hide Execute, ExecuteEdit;
    if e.VisitAt? { ExecuteKeepsTokens(rows, e.cmd, e.draw, id); }
    if e.EditAt? { EditFrame(rows, e.edit, e.now); }
  }

  lemma ExecuteKeepsTokens(rows: Rows, cmd: Visit, draw: Draw, id: Id)
    requires id in rows.tokens
    ensures id in Execute(rows, cmd, draw).0.tokens && Execute(rows, cmd, draw).0.tokens[id] == rows.tokens[id]
  {
    hide Effect, Replay;
    EffectFrame(rows, cmd, draw);
  }

  /** A committed create with a secret stores the token it answers with. */
  lemma CreateStoresToken(rows: Rows, cmd: Visit, draw: Draw)
    requires cmd.Create? && cmd.secret.Some? && cmd.Identity() !in rows.receipts
    requires Execute(rows, cmd, draw).1.Answered? && Execute(rows, cmd, draw).1.code == CREATED
    ensures var (rows', a) := Execute(rows, cmd, draw);
            && a.response.booking == Some(draw.freshId) && a.response.token == Some(Fernet(cmd.secret.value))
            && draw.freshId in rows'.tokens
            && draw.freshId in rows'.bookings
            && rows'.tokens[draw.freshId] ==
                 Token(Sha256(cmd.secret.value), Fernet(cmd.secret.value), cmd.session, draw.insertedAt)
  {
  }

  /**
   A create is answered again, with whatever new secret: the token in the answer decrypts to
   the first secret and still authorizes the booking from the first session, provided the
   first transaction took under 60 days and tokens were revoked at no later moment.
   */
  lemma ReplayedTokenAuthorizes(rows: Rows, events: seq<Event>, i: nat, j: nat)
    requires i < j < |events| && events[i].VisitAt? && events[j].VisitAt?
    requires Performs(rows, events, i, events[i].cmd.Identity())
    requires events[i].cmd.Create? && events[i].cmd.secret.Some? && events[i].cmd.secret.value != ""
    requires AnswerAt(rows, events, i).code == CREATED
    requires SameKey(events[i].cmd, events[j].cmd) && AnswerAt(rows, events, j).Answered?
    requires events[i].draw.completedAt < events[i].draw.insertedAt + 60 * DAY
    requires forall k | i < k < j && events[k].RevokeAt? :: events[k].moment <= events[j].draw.completedAt
    ensures var again := AnswerAt(rows, events, j);
            && again.code == CREATED && again.replayed && again.response.booking.Some? && again.response.token.Some?
            && Decrypt(again.response.token.value) == events[i].cmd.secret.value
            && Authorizes(Run(rows, events[..j]).tokens, again.response.booking.value,
                          Decrypt(again.response.token.value), events[i].cmd.session)
  {
    hide Execute, ExecuteEdit;
    LaterUsesOfAKey(rows, events, i, j);
    TokenOfPerformer(rows, events, i);
    var between := events[i + 1..j];
    assert events[..i + 1] + between == events[..j];
    RunConcat(rows, events[..i + 1], between);
    forall e | e in between && e.RevokeAt?
      ensures e.moment <= events[j].draw.completedAt
    {
      var x :| 0 <= x < |between| && between[x] == e;
      assert events[i + 1 + x] == e;
    }
    TokenKept(Run(rows, events[..i + 1]), between, events[i].draw.freshId, events[j].draw.completedAt);
  }

  lemma TokenOfPerformer(rows: Rows, events: seq<Event>, i: nat)
    requires i < |events| && events[i].VisitAt? && Performs(rows, events, i, events[i].cmd.Identity())
    requires events[i].cmd.Create? && events[i].cmd.secret.Some? && AnswerAt(rows, events, i).code == CREATED
    ensures var cmd, draw := events[i].cmd, events[i].draw;
            var a := AnswerAt(rows, events, i); var tokens := Run(rows, events[..i + 1]).tokens;
            && a.response.booking == Some(draw.freshId) && a.response.token == Some(Fernet(cmd.secret.value))
            && draw.freshId in tokens && draw.freshId in Run(rows, events[..i + 1]).bookings
            && tokens[draw.freshId] ==
                 Token(Sha256(cmd.secret.value), Fernet(cmd.secret.value), cmd.session, draw.insertedAt)
  {
    hide Execute, ExecuteEdit;
    var pre := Run(rows, events[..i]);
    ExecuteReceipts(pre, events[i].cmd, events[i].draw);
    CreateStoresToken(pre, events[i].cmd, events[i].draw);
    RunSnoc(rows, events, i);
  }

  /** The event revokes tokens created over 90 days before its moment, this one among them. */
  predicate Outdates(e: Event, createdAt: Instant) {
    e.RevokeAt? && createdAt + 90 * DAY < e.moment
  }

  /** A booking's token never changes, and leaves exactly with a revocation it is too old for. */
  lemma StepKeepsTokenOf(rows: Rows, e: Event, id: Id)
    requires id in rows.bookings
    ensures var rows' := Step(rows, e).0;
            && id in rows'.bookings
            && (id in rows'.tokens <==> id in rows.tokens && !Outdates(e, rows.tokens[id].createdAt))
            && (id in rows'.tokens ==> rows'.tokens[id] == rows.tokens[id])
  {
    hide Execute, ExecuteEdit;
    if e.VisitAt? { ExecuteAddsTokens(rows, e.cmd, e.draw, id); }
    if e.EditAt? { EditFrame(rows, e.edit, e.now); }
  }

  lemma ExecuteAddsTokens(rows: Rows, cmd: Visit, draw: Draw, id: Id)
    requires id in rows.bookings
    ensures var rows' := Execute(rows, cmd, draw).0;
            && id in rows'.bookings && (id in rows'.tokens <==> id in rows.tokens)
            && (id in rows'.tokens ==> rows'.tokens[id] == rows.tokens[id])
  {
    ExecuteShape(rows, cmd, draw);
    var w := WriteIn(rows, cmd, draw);
    if w.Some? { TokensComeWithInserts(rows, cmd, draw); }
    hide Execute, WriteIn, VerdictOn, PlanIn;
  }

  lemma TokensComeWithInserts(rows: Rows, cmd: Visit, draw: Draw)
    requires WriteIn(rows, cmd, draw).Some?
    ensures var w := WriteIn(rows, cmd, draw).value; w.token.Some? ==> w.isInsert && w.id !in rows.bookings
  {
    hide GateOf, SeenIn, FitIn, DigestTaken, Excluded, BookingsOf, BookingChecks;
  }

  lemma {:induction false} RunKeepsTokenOf(rows: Rows, events: seq<Event>, id: Id)
    requires id in rows.bookings && id in rows.tokens
    ensures var rows' := Run(rows, events);
            && id in rows'.bookings
            && (id in rows'.tokens <==> forall e | e in events :: !Outdates(e, rows.tokens[id].createdAt))
            && (id in rows'.tokens ==> rows'.tokens[id] == rows.tokens[id])
    decreases |events|
  {
    hide Step, Outdates;
    if events != [] {
      var n := |events| - 1;
      RunKeepsTokenOf(rows, events[..n], id);
      StepKeepsTokenOf(Run(rows, events[..n]), events[n], id);
      assert forall e :: e in events <==> e in events[..n] || e == events[n];
    }
  }

  /**
   A capability, exactly: over any run after a create, its booking is opened by the first secret
   in the first session, until a revocation that comes over 90 days after the token was stored,
   and by no other secret, in no other session, and never after that.
   */
  lemma TokenAuthorizesExactly(rows: Rows, events: seq<Event>, i: nat, j: nat, raw: string, session: string)
    requires i < j <= |events| && events[i].VisitAt? && Performs(rows, events, i, events[i].cmd.Identity())
    requires events[i].cmd.Create? && events[i].cmd.secret.Some? && AnswerAt(rows, events, i).code == CREATED
    ensures var cmd, draw := events[i].cmd, events[i].draw;
            Authorizes(Run(rows, events[..j]).tokens, draw.freshId, raw, session) <==>
              && raw != "" && raw == cmd.secret.value && session == cmd.session
              && forall k | i < k < j :: !Outdates(events[k], draw.insertedAt)
  {
    hide Execute, ExecuteEdit, Outdates;
    TokenOfPerformer(rows, events, i);
    var between := events[i + 1..j];
    assert events[..i + 1] + between == events[..j];
    RunConcat(rows, events[..i + 1], between);
    var mid, id := Run(rows, events[..i + 1]), events[i].draw.freshId;
    RunKeepsTokenOf(mid, between, id);
    forall k | i < k < j
      ensures events[k] in between
    {
      assert between[k - i - 1] == events[k];
    }
    forall e | e in between
      ensures exists k :: i < k < j && events[k] == e
    {
      var x :| 0 <= x < |between| && between[x] == e;
      assert events[i + 1 + x] == e;
    }
    hide Run;
  }
}
