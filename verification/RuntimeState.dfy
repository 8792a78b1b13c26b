/** Recovery bookkeeping (src/state.rs, RuntimeState). */
module RuntimeStates {
  import opened Prelude
  import opened Models

  datatype Action = Resumed | Unconfirmed | Skipped

  datatype Mark = Mark(action: Action, at: Time)

  datatype Pending = Pending(
    failureKey: string,
    provider: string,
    sessionId: string,
    failedTurn: string,
    recoveryTurn: string,
    startedAt: Time,
    automatic: bool,
    observationFailures: nat,
    lastObservationAt: Option<Time>)

  datatype Outcome = Outcome(completedAt: Time, automatic: bool, success: bool)

  /** The document that is kept in memory and replaced atomically on disk. */
  datatype Doc = Doc(
    handled: map<string, Mark>,
    observed: map<string, Time>,
    attempts: map<string, seq<Time>>,
    pending: map<string, Pending>,
    outcomes: seq<Outcome>)

  const EMPTY := Doc(map[], map[], map[], map[], [])

  const HISTORY: int := Days(30)
  const MAX_OUTCOMES: nat := 10_000

  /** The instants of a list that are not before a cutoff. */
  function Recent(times: seq<Time>, cutoff: Time): seq<Time> {
    if times == [] then []
    else
      var n := |times| - 1;
      Recent(times[..n], cutoff) + (if times[n] >= cutoff then [times[n]] else [])
  }

  function RecentOutcomes(outcomes: seq<Outcome>, cutoff: Time): seq<Outcome> {
    if outcomes == [] then []
    else
      var n := |outcomes| - 1;
      RecentOutcomes(outcomes[..n], cutoff) + (if outcomes[n].completedAt >= cutoff then [outcomes[n]] else [])
  }

  function AttemptsOf(d: Doc, key: string): seq<Time> {
    if key in d.attempts then d.attempts[key] else []
  }

  function LatestAttempt(d: Doc, key: string): Option<Time> {
    var times := AttemptsOf(d, key);
    if times == [] then None else Some(times[|times| - 1])
  }

  function HandledAction(d: Doc, failureKey: string): Option<Action> {
    if failureKey in d.handled then Some(d.handled[failureKey].action) else None
  }

  predicate HasPendingFor(d: Doc, provider: string, sessionId: string) {
    exists k :: k in d.pending && d.pending[k].provider == provider && d.pending[k].sessionId == sessionId
  }

  function PruneAttempts(attempts: map<string, seq<Time>>, cutoff: Time): map<string, seq<Time>> {
    map k | k in attempts && Recent(attempts[k], cutoff) != [] :: Recent(attempts[k], cutoff)
  }

  function Pruned(d: Doc, now: Time): Doc {
    var cutoff := now - HISTORY;
    var outcomes := RecentOutcomes(d.outcomes, cutoff);
    Doc(
      map k | k in d.handled && d.handled[k].at >= cutoff :: d.handled[k],
      map k | k in d.observed && d.observed[k] >= cutoff :: d.observed[k],
      PruneAttempts(d.attempts, cutoff),
      d.pending,
      if |outcomes| > MAX_OUTCOMES then outcomes[|outcomes| - MAX_OUTCOMES..] else outcomes)
  }

  function Marked(d: Doc, failureKey: string, action: Action, now: Time): Doc {
    d.(handled := d.handled[failureKey := Mark(action, now)])
  }

  function Seen(d: Doc, failureKey: string, now: Time): Doc {
    if failureKey in d.observed then d else d.(observed := d.observed[failureKey := now])
  }

  function Trimmed(d: Doc, key: string, now: Time, windowSeconds: int): Doc {
    d.(attempts := d.attempts[key := Recent(AttemptsOf(d, key), now - Seconds(windowSeconds))])
  }

  function WithAttempt(d: Doc, key: string, now: Time): Doc {
    d.(attempts := d.attempts[key := AttemptsOf(d, key) + [now]])
  }

  function Cleared(d: Doc, key: string): Doc { d.(attempts := d.attempts - {key}) }

  function Begun(d: Doc, failure: Failure, recoveryTurn: string, now: Time, automatic: bool): Doc {
    d.(pending := d.pending[failure.Key() :=
      Pending(failure.Key(), failure.provider, failure.sessionId, failure.turnId, recoveryTurn, now, automatic, 0,
              None)])
  }

  function Finished(d: Doc, failureKey: string, success: bool, now: Time): Doc {
    if failureKey in d.pending
    then d.(pending := d.pending - {failureKey},
            outcomes := d.outcomes + [Outcome(now, d.pending[failureKey].automatic, success)])
    else d
  }

  function ObservationFailed(p: Pending, now: Time): Pending {
    p.(observationFailures := Min(p.observationFailures + 1, U32_MAX), lastObservationAt := Some(now))
  }

  function Unobserved(d: Doc, failureKey: string, now: Time): Doc {
    if failureKey in d.pending
    then d.(pending := d.pending[failureKey := ObservationFailed(d.pending[failureKey], now)])
    else d
  }

  function Abandoned(d: Doc, failureKey: string): Doc { d.(pending := d.pending - {failureKey}) }

  datatype Metrics = Metrics(automatic: nat, manual: nat, failed: nat, handsFreePercent: nat)

  function CountOutcomes(outcomes: seq<Outcome>, since: Time, automatic: bool, success: bool): nat {
    if outcomes == [] then 0
    else
      var n := |outcomes| - 1;
      CountOutcomes(outcomes[..n], since, automatic, success)
      + (if outcomes[n].completedAt >= since && outcomes[n].automatic == automatic && outcomes[n].success == success
         then 1 else 0)
  }

  // ---------------------------------------------------------------- the object

  /** The running copy and the file it was last saved to. */
  class RuntimeState {
    var handled: map<string, Mark>
    var observed: map<string, Time>
    var attempts: map<string, seq<Time>>
    var pending: map<string, Pending>
    var outcomes: seq<Outcome>
    var disk: Doc

    ghost function View(): Doc
      reads this
    {
      Doc(handled, observed, attempts, pending, outcomes)
    }

    constructor Load(file: Doc)
      ensures View() == file && disk == file
    {
      handled, observed, attempts := file.handled, file.observed, file.attempts;
      pending, outcomes := file.pending, file.outcomes;
      disk := file;
    }

    method Save(writes: bool) returns (saved: bool)
      modifies this`disk
      ensures saved == writes
      ensures disk == if writes then View() else old(disk)
    {
      if writes {
        disk := Doc(handled, observed, attempts, pending, outcomes);
      }
      return writes;
    }

    method MarkHandled(failureKey: string, action: Action, now: Time)
      modifies this`handled
      ensures View() == Marked(old(View()), failureKey, action, now)
    {
      handled := handled[failureKey := Mark(action, now)];
    }

    method FirstSeen(failureKey: string, now: Time) returns (at: Time)
      modifies this`observed
      ensures View() == Seen(old(View()), failureKey, now)
      ensures failureKey in observed && at == observed[failureKey]
    {
      if failureKey !in observed {
        observed := observed[failureKey := now];
      }
      at := observed[failureKey];
    }

    method RecentAttempts(key: string, now: Time, windowSeconds: int) returns (count: nat)
      modifies this`attempts
      ensures View() == Trimmed(old(View()), key, now, windowSeconds)
      ensures count == |AttemptsOf(View(), key)|
    {
      var cutoff := now - Seconds(windowSeconds);
      var times := if key in attempts then attempts[key] else [];
      var kept := RetainRecent(times, cutoff);
      attempts := attempts[key := kept];
      count := |kept|;
    }

    method RecordAttempt(key: string, now: Time)
      modifies this`attempts
      ensures View() == WithAttempt(old(View()), key, now)
    {
      attempts := attempts[key := (if key in attempts then attempts[key] else []) + [now]];
    }

    method ClearAttempts(key: string)
      modifies this`attempts
      ensures View() == Cleared(old(View()), key)
    {
      attempts := attempts - {key};
    }

    method BeginRecovery(failure: Failure, recoveryTurn: string, now: Time, automatic: bool)
      modifies this`pending
      ensures View() == Begun(old(View()), failure, recoveryTurn, now, automatic)
    {
      pending := pending[failure.Key() := Pending(
        failure.Key(), failure.provider, failure.sessionId, failure.turnId, recoveryTurn, now, automatic, 0, None)];
    }

    method HasPending(provider: string, sessionId: string) returns (found: bool)
      ensures found == HasPendingFor(View(), provider, sessionId)
    {
      found := exists k :: k in pending && pending[k].provider == provider && pending[k].sessionId == sessionId;
    }

    method FinishRecovery(failureKey: string, success: bool, now: Time) returns (was: Option<Pending>)
      modifies this`pending, this`outcomes
      ensures View() == Finished(old(View()), failureKey, success, now)
      ensures was == if failureKey in old(pending) then Some(old(pending)[failureKey]) else None
    {
      if failureKey !in pending {
        return None;
      }
      was := Some(pending[failureKey]);
      pending := pending - {failureKey};
      outcomes := outcomes + [Outcome(now, was.value.automatic, success)];
    }

    method RecordObservationFailure(failureKey: string, now: Time) returns (failures: Option<nat>)
      modifies this`pending
      ensures View() == Unobserved(old(View()), failureKey, now)
      ensures failures == if failureKey in old(pending)
                          then Some(ObservationFailed(old(pending)[failureKey], now).observationFailures) else None
    {
      if failureKey !in pending {
        return None;
      }
      var p := pending[failureKey];
      p := p.(observationFailures := if p.observationFailures >= U32_MAX then U32_MAX else p.observationFailures + 1);
      p := p.(lastObservationAt := Some(now));
      pending := pending[failureKey := p];
      return Some(p.observationFailures);
    }

    method AbandonRecovery(failureKey: string) returns (found: bool)
      modifies this`pending
      ensures View() == Abandoned(old(View()), failureKey)
      ensures found == (failureKey in old(pending))
    {
      found := failureKey in pending;
      pending := pending - {failureKey};
    }

    method Prune(now: Time)
      modifies this`handled, this`observed, this`attempts, this`outcomes
      ensures View() == Pruned(old(View()), now)
    {
      var cutoff := now - HISTORY;
      handled := map k | k in handled && handled[k].at >= cutoff :: handled[k];
      observed := map k | k in observed && observed[k] >= cutoff :: observed[k];
      attempts := PruneAttempts(attempts, cutoff);
      var kept := RetainOutcomes(outcomes, cutoff);
      outcomes := if |kept| > MAX_OUTCOMES then kept[|kept| - MAX_OUTCOMES..] else kept;
    }

    method MetricsSince(since: Time) returns (m: Metrics)
      ensures m.automatic == CountOutcomes(outcomes, since, true, true)
      ensures m.manual == CountOutcomes(outcomes, since, false, true)
      ensures m.failed == CountOutcomes(outcomes, since, true, false) + CountOutcomes(outcomes, since, false, false)
      ensures m.handsFreePercent <= 100
      ensures m.automatic + m.manual == 0 ==> m.handsFreePercent == 100
      ensures var resolved := m.automatic + m.manual;
              resolved > 0 ==> m.automatic * 100 - resolved < m.handsFreePercent * resolved <= m.automatic * 100
    {
      var automatic, manual, failed := 0, 0, 0;
      for i := 0 to |outcomes|
        invariant automatic == CountOutcomes(outcomes[..i], since, true, true)
        invariant manual == CountOutcomes(outcomes[..i], since, false, true)
        invariant failed == CountOutcomes(outcomes[..i], since, true, false)
                            + CountOutcomes(outcomes[..i], since, false, false)
      {
        assert outcomes[..i + 1][..i] == outcomes[..i];
        var o := outcomes[i];
        if o.completedAt >= since {
          if o.success && o.automatic {
            automatic := automatic + 1;
          } else if o.success {
            manual := manual + 1;
          } else {
            failed := failed + 1;
          }
        }
      }
      assert outcomes[..|outcomes|] == outcomes;
      var resolved := automatic + manual;
      var percent := 100;
      if resolved > 0 {
        percent := automatic * 100 / resolved;
        PercentBounds(automatic, resolved);
      }
      m := Metrics(automatic, manual, failed, percent);
    }
  }

  lemma PercentBounds(part: nat, whole: nat)
    requires 0 < whole && part <= whole
    ensures var p := part * 100 / whole;
            0 <= p <= 100 && p * whole <= part * 100 < p * whole + whole
  {
    var p := part * 100 / whole;
    assert p * whole + part * 100 % whole == part * 100;
    CancelFactor(p, 100, whole);
  }

  lemma CancelFactor(a: nat, b: nat, w: nat)
    requires 0 < w && a * w <= b * w
    ensures a <= b
  {
    if a > b {
      MulMonotone(w, b + 1, a);
    }
  }

  method RetainRecent(times: seq<Time>, cutoff: Time) returns (kept: seq<Time>)
    ensures kept == Recent(times, cutoff)
  {
    kept := [];
    for i := 0 to |times|
      invariant kept == Recent(times[..i], cutoff)
    {
      assert times[..i + 1][..i] == times[..i];
      if times[i] >= cutoff {
        kept := kept + [times[i]];
      }
    }
    assert times[..|times|] == times;
  }

  method RetainOutcomes(outcomes: seq<Outcome>, cutoff: Time) returns (kept: seq<Outcome>)
    ensures kept == RecentOutcomes(outcomes, cutoff)
  {
    kept := [];
    for i := 0 to |outcomes|
      invariant kept == RecentOutcomes(outcomes[..i], cutoff)
    {
      assert outcomes[..i + 1][..i] == outcomes[..i];
      if outcomes[i].completedAt >= cutoff {
        kept := kept + [outcomes[i]];
      }
    }
    assert outcomes[..|outcomes|] == outcomes;
  }
}
