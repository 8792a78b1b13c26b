/** The life of recoveries: every change of the runtime state, every save of it, every resume
    and every crash, as steps of one machine (src/engine.rs over src/state.rs). */
module Recovery {
  import opened Prelude
  import opened Models
  import opened Conditions
  import opened Config
  import opened Backoff
  import opened RuntimeStates

  const MAX_AGE: int := Days(7)
  const ORPHAN_MAX_AGE: int := Days(1)
  const MAX_OBSERVATION_FAILURES: nat := 20
  const I64_MAX: nat := 0x7FFF_FFFF_FFFF_FFFF

  // ---------------------------------------------------------------- observing outcomes

  datatype TurnOutcome = InProgress | Completed | Failed | Unknown

  /** What one poll learns about a recovery turn. */
  datatype Observation = Unloaded | Erred | Saw(outcome: TurnOutcome)

  predicate Expired(p: Pending, failures: nat, watched: bool, now: Time) {
    var age := now - p.startedAt;
    age >= MAX_AGE || (age >= ORPHAN_MAX_AGE && failures >= MAX_OBSERVATION_FAILURES && !watched)
  }

  function Observed(d: Doc, failureKey: string, seen: Observation, watched: bool, now: Time): Doc
    requires failureKey in d.pending
  {
    var p := d.pending[failureKey];
    match seen
    case Unloaded => d
    case Saw(Completed) => Finished(d, failureKey, true, now)
    case Saw(Failed) => Finished(d, failureKey, false, now)
    case Saw(InProgress) => if now - p.startedAt >= MAX_AGE then Abandoned(d, failureKey) else d
    case _ =>
      var counted := Unobserved(d, failureKey, now);
      if Expired(p, counted.pending[failureKey].observationFailures, watched, now)
      then Abandoned(counted, failureKey) else counted
  }

  // ---------------------------------------------------------------- the machine

  datatype ResumeResult = Started(turn: string) | Unacknowledged | Refused

  /** The provider may have applied the resume. */
  predicate MayHaveStarted(r: ResumeResult) { !r.Refused? }

  /** A decision to send: who, why, under which policy. */
  datatype Plan = Plan(target: string, failure: Failure, policy: ResolvedPolicy, automatic: bool)

  datatype Pc = Idle | Recorded(plan: Plan) | Saved(plan: Plan) | Returned(plan: Plan, result: ResumeResult)

  datatype Send = Send(target: string, failureKey: string, at: Time, automatic: bool, result: ResumeResult)

  /** Recoveries since the last start: those found on disk, begun, and how they ended. */
  datatype Tally = Tally(found: nat, begun: nat, overwritten: nat, completed: nat, failed: nat, abandoned: nat)

  /** The settings that stay fixed: the attempt window and the largest resolved attempt limit. */
  datatype Limits = Limits(windowSeconds: int, maxAttempts: nat)

  /** `sent` holds, for each target, the instants of the resumes since its attempts were last
      cleared; `acked` the latest resume of a failure that may have started a turn, and `lost`
      the failures whose mark a crash took away. These and `sends` and `tally` are history. */
  datatype Machine = Machine(
    mem: Doc,
    disk: Doc,
    now: Time,
    pc: Pc,
    sent: map<string, seq<Time>>,
    sends: seq<Send>,
    acked: map<string, Time>,
    lost: set<string>,
    tally: Tally)

  datatype Step =
    | Enter(at: Time)
    | Prune
    | Observe(failureKey: string, seen: Observation, watched: bool)
    | Healthy(provider: string, sessionId: string)
    | NoteFirst(failureKey: string)
    | Trim(key: string)
    | SkipFailure(failureKey: string)
    | Record(plan: Plan)
    | Save(writes: bool)
    | Resume(result: ResumeResult)
    | Settle
    | Crash

  predicate Blocks(d: Doc, failureKey: string) {
    HandledAction(d, failureKey) == Some(Resumed) || HandledAction(d, failureKey) == Some(Unconfirmed)
  }

  /** When the next automatic attempt may go out. */
  function ReadyAt(d: Doc, plan: Plan, now: Time): Time {
    var attempts := AttemptsOf(d, plan.target);
    var first := if plan.failure.Key() in d.observed then d.observed[plan.failure.Key()] else now;
    LatestAttempt(d, plan.target).GetOr(first)
    + Seconds(Min(RetryDelay(plan.policy, |attempts|, plan.failure.retryAfterSeconds), I64_MAX))
  }

  predicate Enabled(m: Machine, limits: Limits, step: Step) {
    match step
    case Enter(at) => m.pc.Idle? && m.now <= at
    case Observe(key, _, _) => m.pc.Idle? && key in m.mem.pending
    case Healthy(provider, session) => m.pc.Idle? && !HasPendingFor(m.mem, provider, session)
    case SkipFailure(key) => m.pc.Idle? && !Blocks(m.mem, key)
    case Record(plan) =>
      && m.pc.Idle?
      && |AttemptsOf(m.mem, plan.target)| < plan.policy.maxAttempts <= limits.maxAttempts
      && (plan.automatic ==> !Blocks(m.mem, plan.failure.Key()) && ReadyAt(m.mem, plan, m.now) <= m.now)
    case Save(_) => m.pc.Idle? || m.pc.Recorded?
    case Resume(_) => m.pc.Saved?
    case Settle => m.pc.Returned?
    case Crash => true
    case _ => m.pc.Idle?
  }

  function SentTo(m: Machine, key: string): seq<Time> { if key in m.sent then m.sent[key] else [] }

  function Apply(m: Machine, limits: Limits, step: Step): Machine
    requires Enabled(m, limits, step)
  {
    match step
    case Enter(at) => m.(now := at)
    case Prune => m.(mem := Pruned(m.mem, m.now))
    case Observe(key, seen, watched) =>
      m.(mem := Observed(m.mem, key, seen, watched, m.now), tally := Tallied(m, key, seen, watched))
    case Healthy(provider, session) =>
      var key := provider + ":" + session;
      m.(mem := Cleared(m.mem, key), sent := m.sent[key := []])
    case NoteFirst(key) => m.(mem := Seen(m.mem, key, m.now))
    case Trim(key) => m.(mem := Trimmed(m.mem, key, m.now, limits.windowSeconds))
    case SkipFailure(key) => m.(mem := Marked(m.mem, key, Skipped, m.now))
    case Record(plan) => m.(mem := WithAttempt(m.mem, plan.target, m.now), pc := Recorded(plan))
    case Save(writes) =>
      m.(disk := if writes then m.mem else m.disk,
         pc := if m.pc.Recorded? && writes then Saved(m.pc.plan) else Pc.Idle)
    case Resume(result) =>
      var plan := m.pc.plan;
      var key := plan.failure.Key();
      m.(pc := Returned(plan, result),
         sent := m.sent[plan.target := SentTo(m, plan.target) + [m.now]],
         sends := m.sends + [Send(plan.target, key, m.now, plan.automatic, result)],
         acked := if MayHaveStarted(result) then m.acked[key := m.now] else m.acked)
    case Settle => Settled(m, m.pc.plan, m.pc.result).(pc := Pc.Idle)
    case Crash =>
      m.(mem := m.disk, pc := Pc.Idle,
         lost := m.lost + (set k | k in m.acked && !MarkSurvives(m, k)),
         tally := Tally(|m.disk.pending|, 0, 0, 0, 0, 0))
  }

  /** The file holds a mark at least as recent as the failure's latest effective resume, or
      the mark is old enough to have been pruned. */
  predicate MarkSurvives(m: Machine, key: string)
    requires key in m.acked
  {
    || (Blocks(m.disk, key) && m.acked[key] <= m.disk.handled[key].at)
    || m.acked[key] + HISTORY < m.now
  }

  function Settled(m: Machine, plan: Plan, result: ResumeResult): Machine {
    var key := plan.failure.Key();
    match result
    case Started(turn) =>
      m.(mem := Marked(Begun(m.mem, plan.failure, turn, m.now, plan.automatic), key, Resumed, m.now),
         tally := m.tally.(begun := m.tally.begun + 1,
                           overwritten := m.tally.overwritten + if key in m.mem.pending then 1 else 0))
    case Unacknowledged => m.(mem := Marked(m.mem, key, Unconfirmed, m.now))
    case Refused => m
  }

  function Tallied(m: Machine, key: string, seen: Observation, watched: bool): Tally
    requires key in m.mem.pending
  {
    if key in Observed(m.mem, key, seen, watched, m.now).pending then m.tally
    else match seen
         case Saw(Completed) => m.tally.(completed := m.tally.completed + 1)
         case Saw(Failed) => m.tally.(failed := m.tally.failed + 1)
         case Unloaded => m.tally
         case _ => m.tally.(abandoned := m.tally.abandoned + 1)
  }

  // ---------------------------------------------------------------- runs

  predicate Run(m: Machine, limits: Limits, steps: seq<Step>)
    decreases |steps|
  {
    steps == [] || (Enabled(m, limits, steps[0]) && Run(Apply(m, limits, steps[0]), limits, steps[1..]))
  }

  /** The state after a run (where a step is not enabled the run stops). */
  function After(m: Machine, limits: Limits, steps: seq<Step>): Machine
    decreases |steps|
  {
    if steps == [] || !Enabled(m, limits, steps[0]) then m
    else After(Apply(m, limits, steps[0]), limits, steps[1..])
  }

  lemma {:induction false} RunConcat(m: Machine, limits: Limits, a: seq<Step>, b: seq<Step>)
    requires Run(m, limits, a) && Run(After(m, limits, a), limits, b)
    ensures Run(m, limits, a + b)
    ensures After(m, limits, a + b) == After(After(m, limits, a), limits, b)
    decreases |a|
  {
    if a == [] {
      assert a + b == b;
    } else {
      RunConcat(Apply(m, limits, a[0]), limits, a[1..], b);
      assert (a + b)[0] == a[0] && (a + b)[1..] == a[1..] + b;
    }
  }

  function OneStep(step: Step): seq<Step> { [step] }

  lemma RunOne(m: Machine, limits: Limits, step: Step)
    requires Enabled(m, limits, step)
    ensures Run(m, limits, OneStep(step)) && After(m, limits, OneStep(step)) == Apply(m, limits, step)
  {
    assert OneStep(step)[1..] == [];
  }

  lemma RunThen(m: Machine, limits: Limits, steps: seq<Step>, step: Step)
    requires Run(m, limits, steps) && Enabled(After(m, limits, steps), limits, step)
    ensures Run(m, limits, steps + OneStep(step))
    ensures After(m, limits, steps + OneStep(step)) == Apply(After(m, limits, steps), limits, step)
  {
    RunOne(After(m, limits, steps), limits, step);
    RunConcat(m, limits, steps, OneStep(step));
  }

  /** A service that starts with whatever its file holds. */
  predicate Starts(m: Machine) {
    && m.mem == m.disk && m.pc.Idle?
    && m.sent == map[] && m.sends == [] && m.acked == map[] && m.lost == {}
    && m.tally == Tally(|m.disk.pending|, 0, 0, 0, 0, 0)
    && (forall k :: k in m.disk.pending ==> m.disk.pending[k].failureKey == k)
    && (forall k, i :: k in m.disk.attempts && 0 <= i < |m.disk.attempts[k]| ==> m.disk.attempts[k][i] <= m.now)
    && (forall k :: k in m.disk.attempts ==> Sorted(m.disk.attempts[k]))
  }

  predicate Sorted(times: seq<Time>) { forall i, j :: 0 <= i < j < |times| ==> times[i] <= times[j] }

  // ---------------------------------------------------------------- the attempt budget

  /** How many instants are not before `from`. */
  function Count(times: seq<Time>, from: Time): (n: nat)
    ensures n <= |times|
  {
    if times == [] then 0
    else
      var n := |times| - 1;
      Count(times[..n], from) + (if times[n] >= from then 1 else 0)
  }

  /** How many instants fall into a closed window. */
  function CountIn(times: seq<Time>, from: Time, to: Time): nat {
    if times == [] then 0
    else
      var n := |times| - 1;
      CountIn(times[..n], from, to) + (if from <= times[n] <= to then 1 else 0)
  }

  lemma {:induction false} CountOfRecent(times: seq<Time>, cutoff: Time, from: Time)
    requires cutoff <= from
    ensures Count(Recent(times, cutoff), from) == Count(times, from)
  {
    if times == [] {
    } else {
      var n := |times| - 1;
      CountOfRecent(times[..n], cutoff, from);
      if times[n] >= cutoff {
        CountOfAppend(Recent(times[..n], cutoff), times[n], from);
      } else {
        assert Recent(times, cutoff) == Recent(times[..n], cutoff);
      }
    }
  }

  lemma CountOfAppend(times: seq<Time>, t: Time, from: Time)
    ensures Count(times + [t], from) == Count(times, from) + if t >= from then 1 else 0
  {
    assert (times + [t])[..|times|] == times;
  }

  lemma CountInOfAppend(times: seq<Time>, t: Time, from: Time, to: Time)
    ensures CountIn(times + [t], from, to) == CountIn(times, from, to) + if from <= t <= to then 1 else 0
  {
    assert (times + [t])[..|times|] == times;
  }

  lemma {:induction false} CountInIsBelowCount(times: seq<Time>, from: Time, to: Time)
    ensures CountIn(times, from, to) <= Count(times, from)
  {
    if times == [] {
    } else {
      CountInIsBelowCount(times[..|times| - 1], from, to);
    }
  }

  lemma {:induction false} CountIsAntitone(times: seq<Time>, from: Time, later: Time)
    requires from <= later
    ensures Count(times, later) <= Count(times, from)
  {
    if times == [] {
    } else {
      CountIsAntitone(times[..|times| - 1], from, later);
    }
  }

  /** The recorded attempts account for every resume that still matters, plus `owed`. */
  ghost predicate Covers(recorded: seq<Time>, sent: seq<Time>, owed: nat, now: Time, windowSeconds: int) {
    forall from :: now - Seconds(windowSeconds) <= from ==>
      Count(sent, from) + (if from <= now then owed else 0) <= Count(recorded, from)
  }

  /** An attempt that was recorded but not yet sent. */
  function Owed(pc: Pc, key: string): nat {
    if (pc.Recorded? || pc.Saved?) && pc.plan.target == key then 1 else 0
  }

  function OwedOnDisk(pc: Pc, key: string): nat {
    if pc.Saved? && pc.plan.target == key then 1 else 0
  }

  ghost predicate WindowsBounded(sent: seq<Time>, limits: Limits) {
    forall from, to :: to <= from + Seconds(limits.windowSeconds) ==> CountIn(sent, from, to) <= limits.maxAttempts
  }

  ghost predicate BudgetInv(m: Machine, limits: Limits, key: string) {
    && Covers(AttemptsOf(m.mem, key), SentTo(m, key), Owed(m.pc, key), m.now, limits.windowSeconds)
    && Covers(AttemptsOf(m.disk, key), SentTo(m, key), OwedOnDisk(m.pc, key), m.now, limits.windowSeconds)
    && (Owed(m.pc, key) == 1 ==>
          Count(AttemptsOf(m.mem, key), m.now - Seconds(limits.windowSeconds)) <= limits.maxAttempts)
    && (forall i :: 0 <= i < |SentTo(m, key)| ==> SentTo(m, key)[i] <= m.now)
    && WindowsBounded(SentTo(m, key), limits)
  }

  lemma CoversRecent(recorded: seq<Time>, sent: seq<Time>, owed: nat, now: Time, windowSeconds: int, cutoff: Time)
    requires Covers(recorded, sent, owed, now, windowSeconds)
    requires cutoff <= now - Seconds(windowSeconds)
    ensures Covers(Recent(recorded, cutoff), sent, owed, now, windowSeconds)
  {
    forall from | now - Seconds(windowSeconds) <= from
      ensures Count(sent, from) + (if from <= now then owed else 0) <= Count(Recent(recorded, cutoff), from)
    {
      CountOfRecent(recorded, cutoff, from);
    }
  }

  lemma PrunedAttempts(d: Doc, now: Time, key: string)
    ensures AttemptsOf(Pruned(d, now), key) == Recent(AttemptsOf(d, key), now - HISTORY)
  {
  }

  lemma CoversAfterRecord(recorded: seq<Time>, sent: seq<Time>, now: Time, windowSeconds: int)
    requires Covers(recorded, sent, 0, now, windowSeconds)
    ensures Covers(recorded + [now], sent, 1, now, windowSeconds)
  {
    forall from ensures Count(recorded + [now], from) == Count(recorded, from) + if now >= from then 1 else 0 {
      CountOfAppend(recorded, now, from);
    }
  }

  lemma CoversAfterSend(recorded: seq<Time>, sent: seq<Time>, now: Time, windowSeconds: int)
    requires Covers(recorded, sent, 1, now, windowSeconds)
    ensures Covers(recorded, sent + [now], 0, now, windowSeconds)
  {
    forall from ensures Count(sent + [now], from) == Count(sent, from) + if now >= from then 1 else 0 {
      CountOfAppend(sent, now, from);
    }
  }

  lemma WindowsAfterSend(recorded: seq<Time>, sent: seq<Time>, now: Time, limits: Limits)
    requires 0 < limits.windowSeconds && WindowsBounded(sent, limits)
    requires Covers(recorded, sent, 1, now, limits.windowSeconds)
    requires Count(recorded, now - Seconds(limits.windowSeconds)) <= limits.maxAttempts
    ensures WindowsBounded(sent + [now], limits)
  {
    forall from, to | to <= from + Seconds(limits.windowSeconds)
      ensures CountIn(sent + [now], from, to) <= limits.maxAttempts
    {
      CountInOfAppend(sent, now, from, to);
      if from <= now <= to {
        CountInIsBelowCount(sent, from, to);
        CountIsAntitone(recorded, now - Seconds(limits.windowSeconds), from);
        assert Count(sent, from) + 1 <= Count(recorded, from);
      }
    }
  }

  lemma RecordKeepsBudget(m: Machine, limits: Limits, step: Step, key: string)
    requires BudgetInv(m, limits, key) && step.Record? && Enabled(m, limits, step)
    ensures BudgetInv(Apply(m, limits, step), limits, key)
  {
    if key == step.plan.target {
      CoversAfterRecord(AttemptsOf(m.mem, key), SentTo(m, key), m.now, limits.windowSeconds);
    } else {
      BudgetFrame(m, Apply(m, limits, step), limits, key);
    }
  }

  lemma ResumeKeepsBudget(m: Machine, limits: Limits, step: Step, key: string)
    requires BudgetInv(m, limits, key) && step.Resume? && Enabled(m, limits, step)
    requires 0 < limits.windowSeconds
    ensures BudgetInv(Apply(m, limits, step), limits, key)
  {
    if key == m.pc.plan.target {
      CoversAfterSend(AttemptsOf(m.mem, key), SentTo(m, key), m.now, limits.windowSeconds);
      CoversAfterSend(AttemptsOf(m.disk, key), SentTo(m, key), m.now, limits.windowSeconds);
      WindowsAfterSend(AttemptsOf(m.mem, key), SentTo(m, key), m.now, limits);
    } else {
      BudgetFrame(m, Apply(m, limits, step), limits, key);
    }
  }

  /** Nothing that concerns the target's budget changed, and time did not go back. */
  lemma BudgetFrame(m: Machine, n: Machine, limits: Limits, key: string)
    requires BudgetInv(m, limits, key)
    requires AttemptsOf(n.mem, key) == AttemptsOf(m.mem, key) && AttemptsOf(n.disk, key) == AttemptsOf(m.disk, key)
    requires SentTo(n, key) == SentTo(m, key)
    requires Owed(m.pc, key) == Owed(n.pc, key) == 0
    requires m.now <= n.now
    ensures BudgetInv(n, limits, key)
  {
  }

  lemma PruneKeepsBudget(m: Machine, limits: Limits, key: string)
    requires BudgetInv(m, limits, key) && m.pc.Idle?
    requires Seconds(limits.windowSeconds) <= HISTORY
    ensures BudgetInv(m.(mem := Pruned(m.mem, m.now)), limits, key)
  {
    PrunedAttempts(m.mem, m.now, key);
    CoversRecent(AttemptsOf(m.mem, key), SentTo(m, key), 0, m.now, limits.windowSeconds, m.now - HISTORY);
  }

  lemma TrimKeepsBudget(m: Machine, limits: Limits, k: string, key: string)
    requires BudgetInv(m, limits, key) && m.pc.Idle?
    ensures BudgetInv(m.(mem := Trimmed(m.mem, k, m.now, limits.windowSeconds)), limits, key)
  {
    CoversRecent(AttemptsOf(m.mem, key), SentTo(m, key), 0, m.now, limits.windowSeconds,
                 m.now - Seconds(limits.windowSeconds));
  }

  lemma ClearKeepsBudget(m: Machine, limits: Limits, k: string, key: string)
    requires BudgetInv(m, limits, key) && m.pc.Idle?
    ensures BudgetInv(m.(mem := Cleared(m.mem, k), sent := m.sent[k := []]), limits, key)
  {
  }

  lemma SaveKeepsBudget(m: Machine, limits: Limits, step: Step, key: string)
    requires BudgetInv(m, limits, key) && step.Save? && Enabled(m, limits, step)
    ensures BudgetInv(Apply(m, limits, step), limits, key)
  {
  }

  /** Observing a recovery changes nothing but that recovery and the outcomes. */
  lemma ObservedFrame(d: Doc, key: string, seen: Observation, watched: bool, now: Time)
    requires key in d.pending
    ensures OnlyRecovery(d, key, Observed(d, key, seen, watched, now))
  {
    AbandonedFrame(d, key);
    FinishedFrame(d, key, now);
    UnobservedFrame(d, key, now);
    AbandonedFrame(Unobserved(d, key, now), key);
  }

  ghost predicate OnlyRecovery(d: Doc, key: string, after: Doc) {
    && after.attempts == d.attempts && after.handled == d.handled && after.observed == d.observed
    && after.pending.Keys - {key} == d.pending.Keys - {key}
    && (key in d.pending && key in after.pending ==>
          after.pending.Keys == d.pending.Keys && after.pending[key].failureKey == d.pending[key].failureKey)
    && (forall k :: k in after.pending && k != key ==> k in d.pending && after.pending[k] == d.pending[k])
  }

  lemma AbandonedFrame(d: Doc, key: string)
    requires key in d.pending
    ensures OnlyRecovery(d, key, Abandoned(d, key))
  {
  }

  lemma FinishedFrame(d: Doc, key: string, now: Time)
    requires key in d.pending
    ensures forall success :: OnlyRecovery(d, key, Finished(d, key, success, now))
  {
    AbandonedFrame(d, key);
  }

  lemma UnobservedFrame(d: Doc, key: string, now: Time)
    requires key in d.pending
    ensures OnlyRecovery(d, key, Unobserved(d, key, now))
    ensures key in Unobserved(d, key, now).pending
  {
  }

  lemma SettledFrame(m: Machine, plan: Plan, result: ResumeResult)
    ensures var n := Settled(m, plan, result);
            && n == m.(mem := n.mem, tally := n.tally)
            && n.mem.attempts == m.mem.attempts && n.mem.observed == m.mem.observed && n.mem.outcomes == m.mem.outcomes
  {
  }

  lemma AttemptsUntouched(m: Machine, limits: Limits, step: Step)
    requires Enabled(m, limits, step)
    requires step.Enter? || step.Observe? || step.NoteFirst? || step.SkipFailure? || step.Settle?
    ensures var n := Apply(m, limits, step);
            && n.mem.attempts == m.mem.attempts && n.disk == m.disk && n.sent == m.sent
            && m.now <= n.now && n.pc.Idle?
  {
    if step.Observe? {
      ObservedFrame(m.mem, step.failureKey, step.seen, step.watched, m.now);
    } else if step.Settle? {
      SettledFrame(m, m.pc.plan, m.pc.result);
    }
  }

  lemma StepKeepsBudget(m: Machine, limits: Limits, step: Step, key: string)
    requires BudgetInv(m, limits, key) && Enabled(m, limits, step)
    requires 0 < limits.windowSeconds && Seconds(limits.windowSeconds) <= HISTORY
    ensures BudgetInv(Apply(m, limits, step), limits, key)
  {
    match step {
      case Record(_) => RecordKeepsBudget(m, limits, step, key);
      case Resume(_) => ResumeKeepsBudget(m, limits, step, key);
      case Prune => PruneKeepsBudget(m, limits, key);
      case Trim(k) => TrimKeepsBudget(m, limits, k, key);
      case Healthy(provider, session) => ClearKeepsBudget(m, limits, provider + ":" + session, key);
      case Save(_) => SaveKeepsBudget(m, limits, step, key);
      case Crash => CrashKeepsBudget(m, limits, key);
      case _ =>
        AttemptsUntouched(m, limits, step);
        BudgetFrame(m, Apply(m, limits, step), limits, key);
    }
  }

  lemma CrashKeepsBudget(m: Machine, limits: Limits, key: string)
    requires BudgetInv(m, limits, key)
    ensures BudgetInv(Apply(m, limits, Crash), limits, key)
  {
  }

  lemma {:induction false} RunKeepsBudget(m: Machine, limits: Limits, steps: seq<Step>, key: string)
    requires BudgetInv(m, limits, key) && Run(m, limits, steps)
    requires 0 < limits.windowSeconds && Seconds(limits.windowSeconds) <= HISTORY
    ensures BudgetInv(After(m, limits, steps), limits, key)
    decreases |steps|
  {
    if steps == [] {
    } else {
      StepKeepsBudget(m, limits, steps[0], key);
      RunKeepsBudget(Apply(m, limits, steps[0]), limits, steps[1..], key);
    }
  }

  /** For any target and any closed window of the attempt length, automatic and manual
      resumes since the last clear never exceed the largest attempt limit, whatever fails to
      save and wherever the service crashes. */
  lemma AttemptBudget(m: Machine, limits: Limits, steps: seq<Step>, key: string, from: Time)
    requires Starts(m) && Run(m, limits, steps)
    requires 0 < limits.windowSeconds && Seconds(limits.windowSeconds) <= HISTORY
    ensures CountIn(SentTo(After(m, limits, steps), key), from, from + Seconds(limits.windowSeconds))
              <= limits.maxAttempts
  {
    RunKeepsBudget(m, limits, steps, key);
  }

  lemma BudgetAt(m: Machine, limits: Limits, steps: seq<Step>, after: Machine, key: string, from: Time)
    requires Starts(m) && Run(m, limits, steps) && after == After(m, limits, steps)
    requires 0 < limits.windowSeconds && Seconds(limits.windowSeconds) <= HISTORY
    ensures CountIn(SentTo(after, key), from, from + Seconds(limits.windowSeconds)) <= limits.maxAttempts
  {
    AttemptBudget(m, limits, steps, key, from);
  }

  // ---------------------------------------------------------------- spacing

  lemma {:induction false} RecentSorted(times: seq<Time>, cutoff: Time)
    requires Sorted(times)
    ensures Sorted(Recent(times, cutoff))
    ensures forall i :: 0 <= i < |Recent(times, cutoff)| ==> Recent(times, cutoff)[i] in times
  {
    if times == [] {
    } else {
      var n := |times| - 1;
      var rest := Recent(times[..n], cutoff);
      RecentSorted(times[..n], cutoff);
      forall i | 0 <= i < |rest| ensures rest[i] in times && rest[i] <= times[n] {
        assert rest[i] in times[..n];
      }
    }
  }

  /** A list of past instants in the order they happened. */
  ghost predicate Past(times: seq<Time>, now: Time) {
    Sorted(times) && forall i :: 0 <= i < |times| ==> times[i] <= now
  }

  ghost predicate OrderInv(m: Machine, key: string) {
    Past(AttemptsOf(m.mem, key), m.now) && Past(AttemptsOf(m.disk, key), m.now) && Past(SentTo(m, key), m.now)
  }

  lemma PastRecent(times: seq<Time>, cutoff: Time, now: Time)
    requires Past(times, now)
    ensures Past(Recent(times, cutoff), now)
  {
    RecentSorted(times, cutoff);
  }

  lemma PastLater(times: seq<Time>, now: Time, later: Time)
    requires Past(times, now) && now <= later
    ensures Past(times, later) && Past(times + [now], later)
  {
  }

  lemma GrowKeepsOrder(m: Machine, limits: Limits, step: Step, key: string)
    requires OrderInv(m, key) && Enabled(m, limits, step) && (step.Record? || step.Resume?)
    ensures OrderInv(Apply(m, limits, step), key)
  {
    PastLater(AttemptsOf(m.mem, key), m.now, m.now);
    PastLater(SentTo(m, key), m.now, m.now);
  }

  lemma StepKeepsOrder(m: Machine, limits: Limits, step: Step, key: string)
    requires OrderInv(m, key) && Enabled(m, limits, step)
    ensures OrderInv(Apply(m, limits, step), key)
  {
    match step {
      case Record(_) => GrowKeepsOrder(m, limits, step, key);
      case Resume(_) => GrowKeepsOrder(m, limits, step, key);
      case Prune =>
        PrunedAttempts(m.mem, m.now, key);
        PastRecent(AttemptsOf(m.mem, key), m.now - HISTORY, m.now);
      case Trim(_) => PastRecent(AttemptsOf(m.mem, key), m.now - Seconds(limits.windowSeconds), m.now);
      case Healthy(_, _) =>
      case Save(_) =>
      case Crash =>
      case _ =>
        AttemptsUntouched(m, limits, step);
        var n := Apply(m, limits, step);
        PastLater(AttemptsOf(m.mem, key), m.now, n.now);
        PastLater(AttemptsOf(m.disk, key), m.now, n.now);
        PastLater(SentTo(m, key), m.now, n.now);
    }
  }

  lemma {:induction false} RunKeepsOrder(m: Machine, limits: Limits, steps: seq<Step>, key: string)
    requires OrderInv(m, key) && Run(m, limits, steps)
    ensures OrderInv(After(m, limits, steps), key)
    decreases |steps|
  {
    if steps == [] {
    } else {
      StepKeepsOrder(m, limits, steps[0], key);
      RunKeepsOrder(Apply(m, limits, steps[0]), limits, steps[1..], key);
    }
  }

  lemma {:induction false} CountPositive(times: seq<Time>, from: Time)
    requires Count(times, from) > 0 && Sorted(times)
    ensures times[|times| - 1] >= from
  {
    var n := |times| - 1;
    if times[n] < from {
      CountPositive(times[..n], from);
    }
  }

  lemma {:induction false} CountOfAll(times: seq<Time>, from: Time)
    requires forall i :: 0 <= i < |times| ==> times[i] >= from
    ensures Count(times, from) == |times|
  {
    if times == [] {
    } else {
      CountOfAll(times[..|times| - 1], from);
    }
  }

  /** The recorded attempts reach as far as the resumes of the window, in number and in time. */
  lemma RecordedReachesSent(m: Machine, limits: Limits, key: string)
    requires BudgetInv(m, limits, key) && OrderInv(m, key)
    requires SentTo(m, key) != [] && SentTo(m, key)[0] >= m.now - Seconds(limits.windowSeconds)
    ensures var sent, recorded := SentTo(m, key), AttemptsOf(m.mem, key);
            |sent| <= |recorded| && recorded[|recorded| - 1] >= sent[|sent| - 1]
  {
    var sent, recorded := SentTo(m, key), AttemptsOf(m.mem, key);
    CountOfAll(sent, sent[0]);
    assert Count(sent, sent[0]) <= Count(recorded, sent[0]);
    var last := sent[|sent| - 1];
    assert Count(sent, last) >= 1;
    CountPositive(recorded, last);
  }

  /** The delay after more attempts covers the exact exponential of fewer. */
  lemma DelayCovers(policy: ResolvedPolicy, fewer: nat, more: nat, retryAfter: Option<nat>)
    requires policy.backoff == Some(Exponential) && policy.maxDelay <= I64_MAX && fewer <= more
    ensures Min(policy.initialDelay * Pow2(fewer), policy.maxDelay)
              <= Min(RetryDelay(policy, more, retryAfter), I64_MAX)
  {
    DelayIsMonotone(policy, fewer, more, retryAfter);
    ExponentialIsExact(policy, fewer);
  }

  /** Inside one window without a clear, an automatic resume under an exponential policy comes
      at least min(initial * 2^n, maximum) seconds after the resume before it, where n counts
      the resumes so far. */
  lemma ResumesAreSpaced(m: Machine, limits: Limits, steps: seq<Step>, plan: Plan)
    requires Starts(m) && Run(m, limits, steps)
    requires 0 < limits.windowSeconds && Seconds(limits.windowSeconds) <= HISTORY
    requires plan.automatic && Enabled(After(m, limits, steps), limits, Record(plan))
    requires plan.policy.backoff == Some(Exponential) && plan.policy.maxDelay <= I64_MAX
    requires var sent := SentTo(After(m, limits, steps), plan.target);
             sent != [] && sent[0] >= After(m, limits, steps).now - Seconds(limits.windowSeconds)
    ensures var sent := SentTo(After(m, limits, steps), plan.target);
            After(m, limits, steps).now - sent[|sent| - 1]
              >= Seconds(Min(plan.policy.initialDelay * Pow2(|sent|), plan.policy.maxDelay))
  {
    RunKeepsBudget(m, limits, steps, plan.target);
    RunKeepsOrder(m, limits, steps, plan.target);
    RecordIsSpaced(After(m, limits, steps), limits, plan);
  }

  lemma RecordIsSpaced(m: Machine, limits: Limits, plan: Plan)
    requires BudgetInv(m, limits, plan.target) && OrderInv(m, plan.target)
    requires plan.automatic && Enabled(m, limits, Record(plan))
    requires plan.policy.backoff == Some(Exponential) && plan.policy.maxDelay <= I64_MAX
    requires SentTo(m, plan.target) != [] && SentTo(m, plan.target)[0] >= m.now - Seconds(limits.windowSeconds)
    ensures var sent := SentTo(m, plan.target);
            m.now - sent[|sent| - 1] >= Seconds(Min(plan.policy.initialDelay * Pow2(|sent|), plan.policy.maxDelay))
  {
    ReadyIsLater(m, limits, plan);
  }

  lemma ReadyIsLater(m: Machine, limits: Limits, plan: Plan)
    requires BudgetInv(m, limits, plan.target) && OrderInv(m, plan.target)
    requires plan.policy.backoff == Some(Exponential) && plan.policy.maxDelay <= I64_MAX
    requires SentTo(m, plan.target) != [] && SentTo(m, plan.target)[0] >= m.now - Seconds(limits.windowSeconds)
    ensures var sent := SentTo(m, plan.target);
            ReadyAt(m.mem, plan, m.now) - sent[|sent| - 1]
              >= Seconds(Min(plan.policy.initialDelay * Pow2(|sent|), plan.policy.maxDelay))
  {
    RecordedReachesSent(m, limits, plan.target);
    DelayCovers(plan.policy, |SentTo(m, plan.target)|, |AttemptsOf(m.mem, plan.target)|,
                plan.failure.retryAfterSeconds);
  }

  // ---------------------------------------------------------------- at most once

  /** A resume that may have started a turn leaves a blocking mark that lasts until pruning. */
  ghost predicate MarkInv(m: Machine, key: string) {
    && (key in m.acked ==> m.acked[key] <= m.now)
    && (key in m.acked && key !in m.lost ==>
          || (Blocks(m.mem, key) && m.acked[key] <= m.mem.handled[key].at)
          || m.acked[key] + HISTORY < m.now
          || (m.pc.Returned? && m.pc.plan.failure.Key() == key && MayHaveStarted(m.pc.result)))
    && ((m.pc.Recorded? || m.pc.Saved?) && m.pc.plan.automatic ==> !Blocks(m.mem, m.pc.plan.failure.Key()))
  }

  lemma PrunedMark(d: Doc, now: Time, key: string)
    ensures key in Pruned(d, now).handled <==> key in d.handled && d.handled[key].at >= now - HISTORY
    ensures key in Pruned(d, now).handled ==> Pruned(d, now).handled[key] == d.handled[key]
  {
  }

  lemma StepKeepsMark(m: Machine, limits: Limits, step: Step, key: string)
    requires MarkInv(m, key) && Enabled(m, limits, step)
    ensures MarkInv(Apply(m, limits, step), key)
  {
    match step {
      case Prune => PrunedMark(m.mem, m.now, key);
      case Observe(k, seen, watched) => ObservedFrame(m.mem, k, seen, watched, m.now);
      case Settle => SettledMark(m, key);
      case Record(_) =>
      case Resume(_) =>
      case Crash =>
      case _ =>
    }
  }

  lemma SettledMark(m: Machine, key: string)
    requires MarkInv(m, key) && m.pc.Returned?
    ensures MarkInv(Settled(m, m.pc.plan, m.pc.result).(pc := Pc.Idle), key)
  {
  }

  /** The history of sends: the latest effective one of each failure is remembered, and a
      second automatic one needs the mark to be pruned or lost. */
  ghost predicate OnceInv(m: Machine) {
    && (forall key :: MarkInv(m, key))
    && (forall i :: 0 <= i < |m.sends| && MayHaveStarted(m.sends[i].result) ==>
          m.sends[i].failureKey in m.acked && m.sends[i].at <= m.acked[m.sends[i].failureKey])
    && (forall i, j :: 0 <= i < j < |m.sends| ==> Apart(m, m.sends[i], m.sends[j]))
  }

  predicate Apart(m: Machine, first: Send, second: Send) {
    first.failureKey == second.failureKey && second.automatic && MayHaveStarted(first.result) ==>
      first.at + HISTORY < second.at || first.failureKey in m.lost
  }

  lemma ResumeKeepsOnce(m: Machine, limits: Limits, step: Step)
    requires OnceInv(m) && Enabled(m, limits, step) && step.Resume?
    ensures OnceInv(Apply(m, limits, step))
  {
    var n := Apply(m, limits, step);
    var fk := m.pc.plan.failure.Key();
    assert MarkInv(m, fk);
    forall key ensures MarkInv(n, key) {
      assert MarkInv(m, key);
      StepKeepsMark(m, limits, step, key);
    }
    forall i, j | 0 <= i < j < |n.sends| ensures Apart(n, n.sends[i], n.sends[j]) {
      if j < |m.sends| {
        assert Apart(m, m.sends[i], m.sends[j]);
      } else {
        assert n.sends[i] == m.sends[i];
      }
    }
  }

  lemma SendsUntouched(m: Machine, limits: Limits, step: Step)
    requires Enabled(m, limits, step) && !step.Resume?
    ensures var n := Apply(m, limits, step);
            n.sends == m.sends && n.acked == m.acked && m.lost <= n.lost && (!step.Crash? ==> n.lost == m.lost)
  {
    if step.Settle? {
      SettledFrame(m, m.pc.plan, m.pc.result);
    }
  }

  lemma StepKeepsOnce(m: Machine, limits: Limits, step: Step)
    requires OnceInv(m) && Enabled(m, limits, step)
    ensures OnceInv(Apply(m, limits, step))
  {
    if step.Resume? {
      ResumeKeepsOnce(m, limits, step);
    } else {
      var n := Apply(m, limits, step);
      SendsUntouched(m, limits, step);
      forall key ensures MarkInv(n, key) {
        assert MarkInv(m, key);
        StepKeepsMark(m, limits, step, key);
      }
      forall i, j | 0 <= i < j < |n.sends| ensures Apart(n, n.sends[i], n.sends[j]) {
        assert Apart(m, m.sends[i], m.sends[j]);
      }
    }
  }

  lemma {:induction false} RunKeepsOnce(m: Machine, limits: Limits, steps: seq<Step>)
    requires OnceInv(m) && Run(m, limits, steps)
    ensures OnceInv(After(m, limits, steps))
    decreases |steps|
  {
    if steps == [] {
    } else {
      StepKeepsOnce(m, limits, steps[0]);
      RunKeepsOnce(Apply(m, limits, steps[0]), limits, steps[1..]);
    }
  }

  /** A crash of the run finds the file without a mark of the failure's latest effective resume,
      which pruning would still keep. */
  predicate LosesMark(m: Machine, limits: Limits, steps: seq<Step>, key: string)
    requires Run(m, limits, steps)
    decreases |steps|
  {
    steps != [] &&
    ((steps[0].Crash? && key in m.acked && !MarkSurvives(m, key))
     || LosesMark(Apply(m, limits, steps[0]), limits, steps[1..], key))
  }

  lemma {:induction false} LostIsExact(m: Machine, limits: Limits, steps: seq<Step>, key: string)
    requires Run(m, limits, steps)
    ensures key in After(m, limits, steps).lost <==> key in m.lost || LosesMark(m, limits, steps, key)
    decreases |steps|
  {
    if steps != [] {
      var n := Apply(m, limits, steps[0]);
      if !steps[0].Crash? && !steps[0].Resume? {
        SendsUntouched(m, limits, steps[0]);
      }
      LostIsExact(n, limits, steps[1..], key);
    }
  }

  /** Once a resume of a failure may have started a turn, whoever sent it, every later
      automatic resume of the same failure comes after the 30-day prune, unless a crash found
      the file without the failure's mark. */
  lemma AtMostOnce(m: Machine, limits: Limits, steps: seq<Step>, i: nat, j: nat)
    requires Starts(m) && Run(m, limits, steps)
    requires i < j < |After(m, limits, steps).sends|
    requires var sends := After(m, limits, steps).sends;
             sends[i].failureKey == sends[j].failureKey && sends[j].automatic && MayHaveStarted(sends[i].result)
    ensures var n := After(m, limits, steps);
            n.sends[i].at + HISTORY < n.sends[j].at || LosesMark(m, limits, steps, n.sends[i].failureKey)
  {
    RunKeepsOnce(m, limits, steps);
    LostIsExact(m, limits, steps, After(m, limits, steps).sends[i].failureKey);
  }

  /** The file has every blocking mark of the memory, as recent, and no effective answer is
      still unmarked. */
  ghost predicate MarksAreSaved(m: Machine) {
    && (forall k :: Blocks(m.mem, k) ==> Blocks(m.disk, k) && m.mem.handled[k].at <= m.disk.handled[k].at)
    && !(m.pc.Returned? && MayHaveStarted(m.pc.result))
  }

  /** Every crash of the run finds the blocking marks on disk. */
  ghost predicate CleanCrashes(m: Machine, limits: Limits, steps: seq<Step>)
    requires Run(m, limits, steps)
    decreases |steps|
  {
    steps == [] ||
    ((steps[0].Crash? ==> MarksAreSaved(m)) && CleanCrashes(Apply(m, limits, steps[0]), limits, steps[1..]))
  }

  lemma {:induction false} CleanRunKeepsMarks(m: Machine, limits: Limits, steps: seq<Step>, key: string)
    requires OnceInv(m) && key !in m.lost && Run(m, limits, steps) && CleanCrashes(m, limits, steps)
    ensures !LosesMark(m, limits, steps, key)
    decreases |steps|
  {
    if steps != [] {
      StepKeepsOnce(m, limits, steps[0]);
      assert MarkInv(m, key);
      if !steps[0].Crash? && !steps[0].Resume? {
        SendsUntouched(m, limits, steps[0]);
      }
      CleanRunKeepsMarks(Apply(m, limits, steps[0]), limits, steps[1..], key);
    }
  }

  /** Marks are lost only to a crash between an effective resume and the next successful save:
      unsaved skips, attempts, outcomes or refused answers lose none. */
  lemma CleanCrashesLoseNothing(m: Machine, limits: Limits, steps: seq<Step>, key: string)
    requires Starts(m) && Run(m, limits, steps) && CleanCrashes(m, limits, steps)
    ensures !LosesMark(m, limits, steps, key)
  {
    StartsConserved(m);
    CleanRunKeepsMarks(m, limits, steps, key);
  }

  // ---------------------------------------------------------------- what a mark holds back

  predicate CrashFree(steps: seq<Step>) { forall i :: 0 <= i < |steps| ==> !steps[i].Crash? }

  /** From this place in the history on, the loop resumed the failure no later than the deadline. */
  ghost predicate ResumedBy(sends: seq<Send>, since: nat, key: string, deadline: Time) {
    exists j :: since <= j < |sends| && sends[j].failureKey == key && sends[j].automatic && sends[j].at <= deadline
  }

  lemma {:induction false} RecentOfOld(times: seq<Time>, cutoff: Time)
    requires forall i :: 0 <= i < |times| ==> times[i] < cutoff
    ensures Recent(times, cutoff) == []
  {
    if times != [] {
      RecentOfOld(times[..|times| - 1], cutoff);
    }
  }

  /** A blocking mark at least as recent as `since` is in memory, or it is time to prune it; and no
      automatic resume of the failure was decided or made before that. */
  ghost predicate HeldBack(m: Machine, key: string, since: Time, from: nat) {
    && since <= m.now
    && ((Blocks(m.mem, key) && m.mem.handled[key].at >= since) || since + HISTORY < m.now)
    && ((m.pc.Recorded? || m.pc.Saved?) && m.pc.plan.automatic && m.pc.plan.failure.Key() == key ==>
          since + HISTORY < m.now)
    && (forall j :: from <= j < |m.sends| && m.sends[j].failureKey == key && m.sends[j].automatic ==>
          since + HISTORY < m.sends[j].at)
  }

  lemma StepHoldsBack(m: Machine, limits: Limits, step: Step, key: string, since: Time, from: nat)
    requires HeldBack(m, key, since, from) && Enabled(m, limits, step) && !step.Crash?
    ensures HeldBack(Apply(m, limits, step), key, since, from)
  {
    match step {
      case Prune => PrunedMark(m.mem, m.now, key);
      case Observe(k, seen, watched) => ObservedFrame(m.mem, k, seen, watched, m.now);
      case Settle => SettledFrame(m, m.pc.plan, m.pc.result);
      case _ =>
    }
  }

  lemma {:induction false} RunHoldsBack(m: Machine, limits: Limits, steps: seq<Step>, key: string, since: Time,
                                        from: nat)
    requires HeldBack(m, key, since, from) && Run(m, limits, steps) && CrashFree(steps)
    ensures HeldBack(After(m, limits, steps), key, since, from)
    decreases |steps|
  {
    if steps != [] {
      StepHoldsBack(m, limits, steps[0], key, since, from);
      RunHoldsBack(Apply(m, limits, steps[0]), limits, steps[1..], key, since, from);
    }
  }

  /** Without a crash, a failure with a blocking mark is not resumed automatically until the mark is
      old enough to be pruned. */
  lemma MarkedIsNotResumed(m: Machine, limits: Limits, steps: seq<Step>, key: string, deadline: Time)
    requires m.pc.Idle? && Run(m, limits, steps) && CrashFree(steps)
    requires Blocks(m.mem, key) && m.mem.handled[key].at <= m.now && deadline <= m.mem.handled[key].at + HISTORY
    ensures !ResumedBy(After(m, limits, steps).sends, |m.sends|, key, deadline)
  {
    RunHoldsBack(m, limits, steps, key, m.mem.handled[key].at, |m.sends|);
  }

  // ---------------------------------------------------------------- conservation

  lemma InsertSize<V>(m: map<string, V>, k: string, v: V)
    ensures |m[k := v]| == |m| + if k in m then 0 else 1
  {
    assert m[k := v].Keys == m.Keys + {k};
    assert |m| == |m.Keys| && |m[k := v]| == |m[k := v].Keys|;
  }

  lemma RemoveSize<V>(m: map<string, V>, k: string)
    ensures |m - {k}| == |m| - if k in m then 1 else 0
  {
    assert (m - {k}).Keys == m.Keys - {k};
    assert |m| == |m.Keys| && |m - {k}| == |(m - {k}).Keys|;
  }

  ghost predicate OwnKeys(d: Doc) {
    forall k :: k in d.pending ==> d.pending[k].failureKey == k
  }

  /** No recovery disappears without being counted. */
  ghost predicate Conserved(m: Machine) {
    && m.tally.found + m.tally.begun
       == |m.mem.pending| + m.tally.overwritten + m.tally.completed + m.tally.failed + m.tally.abandoned
    && OwnKeys(m.mem) && OwnKeys(m.disk)
  }

  lemma ObservedSize(d: Doc, key: string, seen: Observation, watched: bool, now: Time)
    requires key in d.pending
    ensures var after := Observed(d, key, seen, watched, now);
            |after.pending| == |d.pending| - if key in after.pending then 0 else 1
  {
    var after := Observed(d, key, seen, watched, now);
    ObservedFrame(d, key, seen, watched, now);
    RemoveSize(d.pending, key);
    if key in after.pending {
      assert after.pending.Keys == d.pending.Keys;
      assert |after.pending| == |after.pending.Keys| && |d.pending| == |d.pending.Keys|;
    } else {
      assert after.pending == d.pending - {key};
    }
  }

  function Resolved(t: Tally): nat { t.overwritten + t.completed + t.failed + t.abandoned }

  lemma TalliedOnce(m: Machine, key: string, seen: Observation, watched: bool)
    requires key in m.mem.pending
    ensures var t := Tallied(m, key, seen, watched);
            && t.found == m.tally.found && t.begun == m.tally.begun
            && Resolved(t) == Resolved(m.tally)
                              + if key in Observed(m.mem, key, seen, watched, m.now).pending then 0 else 1
  {
  }

  lemma ObserveConserves(m: Machine, limits: Limits, step: Step)
    requires Conserved(m) && Enabled(m, limits, step) && step.Observe?
    ensures Conserved(Apply(m, limits, step))
  {
    ObservedFrame(m.mem, step.failureKey, step.seen, step.watched, m.now);
    ObservedSize(m.mem, step.failureKey, step.seen, step.watched, m.now);
    TalliedOnce(m, step.failureKey, step.seen, step.watched);
  }

  lemma SettleConserves(m: Machine, limits: Limits)
    requires Conserved(m) && m.pc.Returned?
    ensures Conserved(Apply(m, limits, Settle))
  {
    if m.pc.result.Started? {
      var f := m.pc.plan.failure;
      InsertSize(m.mem.pending, f.Key(),
                 Pending(f.Key(), f.provider, f.sessionId, f.turnId, m.pc.result.turn, m.now, m.pc.plan.automatic, 0,
                         None));
    }
  }

  lemma StepConserves(m: Machine, limits: Limits, step: Step)
    requires Conserved(m) && Enabled(m, limits, step)
    ensures Conserved(Apply(m, limits, step))
  {
    match step {
      case Observe(_, _, _) => ObserveConserves(m, limits, step);
      case Settle => SettleConserves(m, limits);
      case _ =>
    }
  }

  lemma {:induction false} RunConserves(m: Machine, limits: Limits, steps: seq<Step>)
    requires Conserved(m) && Run(m, limits, steps)
    ensures Conserved(After(m, limits, steps))
    decreases |steps|
  {
    if steps != [] {
      StepConserves(m, limits, steps[0]);
      RunConserves(Apply(m, limits, steps[0]), limits, steps[1..]);
    }
  }

  lemma StartsConserved(m: Machine)
    requires Starts(m)
    ensures Conserved(m) && OnceInv(m)
  {
  }

  /** Over every run, recoveries found at the last start or begun since are exactly those still
      pending plus those completed, failed, abandoned or overwritten; each pending one is stored
      under its own failure key. */
  lemma RecoveriesAreConserved(m: Machine, limits: Limits, steps: seq<Step>)
    requires Starts(m) && Run(m, limits, steps)
    ensures Conserved(After(m, limits, steps))
  {
    StartsConserved(m);
    RunConserves(m, limits, steps);
  }

  // ---------------------------------------------------------------- a pass over the pending recoveries

  /** What one pass asks about each recovery. */
  type Answers = string -> (Observation, bool)

  /** A pass over recoveries in some order. */
  function Pass(d: Doc, order: seq<string>, ask: Answers, now: Time): Doc
    decreases |order|
  {
    if order == [] then d
    else
      var n := |order| - 1;
      var before := Pass(d, order[..n], ask, now);
      if order[n] in before.pending
      then Observed(before, order[n], ask(order[n]).0, ask(order[n]).1, now)
      else before
  }

  /** One recovery after its observation, or None when it is over. */
  function Fate(p: Pending, seen: Observation, watched: bool, now: Time): Option<Pending> {
    match seen
    case Unloaded => Some(p)
    case Saw(Completed) => None
    case Saw(Failed) => None
    case Saw(InProgress) => if now - p.startedAt >= MAX_AGE then None else Some(p)
    case _ =>
      var q := ObservationFailed(p, now);
      if Expired(p, q.observationFailures, watched, now) then None else Some(q)
  }

  /** The outcome that one observation records. */
  function OutcomesOf(p: Pending, seen: Observation, now: Time): seq<Outcome> {
    match seen
    case Saw(Completed) => [Outcome(now, p.automatic, true)]
    case Saw(Failed) => [Outcome(now, p.automatic, false)]
    case _ => []
  }

  function Verdict(p: Pending, seen: Observation, now: Time): multiset<Outcome> {
    multiset(OutcomesOf(p, seen, now))
  }

  lemma AbandonedAfterUnobserved(d: Doc, key: string, now: Time)
    requires key in d.pending
    ensures Abandoned(Unobserved(d, key, now), key) == Abandoned(d, key)
    ensures Unobserved(d, key, now).pending[key] == ObservationFailed(d.pending[key], now)
  {
    var counted := Unobserved(d, key, now);
    assert counted.pending - {key} == d.pending - {key};
  }

  lemma ObservedFate(d: Doc, key: string, seen: Observation, watched: bool, now: Time)
    requires key in d.pending
    ensures var after := Observed(d, key, seen, watched, now);
            var fate := Fate(d.pending[key], seen, watched, now);
            && after.pending == (if fate.Some? then d.pending[key := fate.value] else d.pending - {key})
            && after.outcomes == d.outcomes + OutcomesOf(d.pending[key], seen, now)
  {
    AbandonedAfterUnobserved(d, key, now);
    assert d.pending[key := d.pending[key]] == d.pending;
  }

  predicate Distinct(order: seq<string>) { forall i, j :: 0 <= i < j < |order| ==> order[i] != order[j] }

  function Elements(order: seq<string>): set<string> { set k | k in order }

  function FateIn(d: Doc, ask: Answers, now: Time, key: string): Option<Pending>
    requires key in d.pending
  {
    Fate(d.pending[key], ask(key).0, ask(key).1, now)
  }

  /** Each recovery meets its own fate, whatever order the map was walked in. */
  lemma {:induction false} PassDecidesEach(d: Doc, order: seq<string>, ask: Answers, now: Time)
    requires Distinct(order)
    ensures forall k :: k in d.pending ==>
              var after := Pass(d, order, ask, now).pending;
              if k !in order then k in after && after[k] == d.pending[k]
              else if FateIn(d, ask, now, k).Some? then k in after && after[k] == FateIn(d, ask, now, k).value
              else k !in after
    ensures Pass(d, order, ask, now).pending.Keys <= d.pending.Keys
    ensures Pass(d, order, ask, now).handled == d.handled && Pass(d, order, ask, now).attempts == d.attempts
    decreases |order|
  {
    if order == [] {
    } else {
      var n := |order| - 1;
      var before := Pass(d, order[..n], ask, now);
      PassDecidesEach(d, order[..n], ask, now);
      assert order[n] !in order[..n];
      assert forall k :: k in order <==> k in order[..n] || k == order[n];
      if order[n] in before.pending {
        ObservedFate(before, order[n], ask(order[n]).0, ask(order[n]).1, now);
        ObservedFrame(before, order[n], ask(order[n]).0, ask(order[n]).1, now);
      }
    }
  }

  /** The outcomes a set of recoveries records. */
  ghost function Verdicts(d: Doc, keys: set<string>, ask: Answers, now: Time): multiset<Outcome>
    requires keys <= d.pending.Keys
  {
    if keys == {} then multiset{}
    else
      var k :| k in keys;
      Verdict(d.pending[k], ask(k).0, now) + Verdicts(d, keys - {k}, ask, now)
  }

  lemma {:induction false} VerdictsSplit(d: Doc, keys: set<string>, ask: Answers, now: Time, k: string)
    requires keys <= d.pending.Keys && k in keys
    ensures Verdicts(d, keys, ask, now)
         == Verdict(d.pending[k], ask(k).0, now) + Verdicts(d, keys - {k}, ask, now)
    decreases keys
  {
    var j :| j in keys
      && Verdicts(d, keys, ask, now) == Verdict(d.pending[j], ask(j).0, now) + Verdicts(d, keys - {j}, ask, now);
    if j != k {
      VerdictsSplit(d, keys - {j}, ask, now, k);
      VerdictsSplit(d, keys - {k}, ask, now, j);
      assert keys - {j} - {k} == keys - {k} - {j};
    }
  }

  lemma {:induction false} PassRecords(d: Doc, order: seq<string>, ask: Answers, now: Time)
    requires Distinct(order) && Elements(order) <= d.pending.Keys
    ensures multiset(Pass(d, order, ask, now).outcomes)
         == multiset(d.outcomes) + Verdicts(d, Elements(order), ask, now)
    decreases |order|
  {
    if order == [] {
      assert Elements(order) == {};
    } else {
      var n := |order| - 1;
      var front := order[..n];
      var before := Pass(d, front, ask, now);
      assert order[n] in order && order[n] !in front;
      assert Elements(order) - {order[n]} == Elements(front) by {
        assert forall k :: k in order <==> k in front || k == order[n];
      }
      PassRecords(d, front, ask, now);
      PassDecidesEach(d, front, ask, now);
      ObservedFate(before, order[n], ask(order[n]).0, ask(order[n]).1, now);
      VerdictsSplit(d, Elements(order), ask, now, order[n]);
    }
  }

  /** The order in which a pass walks the pending map shows neither in what stays pending nor
      in which outcomes are recorded. */
  lemma PassIgnoresOrder(d: Doc, a: seq<string>, b: seq<string>, ask: Answers, now: Time)
    requires Distinct(a) && Distinct(b)
    requires Elements(a) == Elements(b) == d.pending.Keys
    ensures Pass(d, a, ask, now).pending == Pass(d, b, ask, now).pending
    ensures multiset(Pass(d, a, ask, now).outcomes) == multiset(Pass(d, b, ask, now).outcomes)
  {
    PassDecidesEach(d, a, ask, now);
    PassDecidesEach(d, b, ask, now);
    PassRecords(d, a, ask, now);
    PassRecords(d, b, ask, now);
    assert forall k :: k in d.pending ==> k in Elements(a) && k in Elements(b);
  }

  /** Observation is bounded: after a pass every recovery whose provider is loaded is younger
      than seven days, and one that is no longer watched and could not be observed is younger
      than a day or has failed fewer than twenty observations. */
  lemma ObservationIsBounded(d: Doc, order: seq<string>, ask: Answers, now: Time, key: string)
    requires Distinct(order) && Elements(order) == d.pending.Keys
    requires key in Pass(d, order, ask, now).pending && !ask(key).0.Unloaded?
    ensures var p := Pass(d, order, ask, now).pending[key];
            && now - p.startedAt < MAX_AGE
            && (ask(key).0 != Saw(InProgress) && !ask(key).1 ==>
                  now - p.startedAt < ORPHAN_MAX_AGE || p.observationFailures < MAX_OBSERVATION_FAILURES)
  {
    PassDecidesEach(d, order, ask, now);
    assert key in Elements(order);
  }
}
