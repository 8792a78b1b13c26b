/** One poll of the engine and one manual retry, as the steps they take on the recovery
    machine (src/engine.rs). Everything the surroundings answer is an input: the permit at
    each check, the provider's replies, and which saves succeed. */
module Engine {
  import opened Prelude
  import opened Models
  import opened Conditions
  import opened Config
  import opened Backoff
  import opened RuntimeStates
  import opened Recovery

  /** The provider's answer about the latest turn: an error, a healthy turn, or a failed one. */
  datatype Reply = NoReply | HealthyTurn | FailedTurn(failure: Failure)

  /** What the surroundings answer while one target is processed, in the order it is asked. */
  datatype Poll = Poll(
    allowedFirst: bool,
    latest: Reply,
    allowedBeforeRecheck: bool,
    recheck: Reply,
    allowedAfterRecheck: bool,
    allowedInBoundary: bool,
    saves: bool,
    result: ResumeResult,
    savesAfter: bool)

  datatype EventKind =
    | ProviderError | FailureSkipped | RetryExhausted | RetryWaiting | RetryDryRun
    | RetryCancelled | RetrySent | RetryUnconfirmed | RetryFailed
    | RecoveryCompleted | RecoveryFailed | RecoveryUnconfirmed

  datatype Event = Event(kind: EventKind, target: string)

  datatype Env = Env(policy: string -> ResolvedPolicy, loaded: set<string>, dryRun: bool, limits: Limits)

  /** The steps one activity takes, the events it emits, and whether it ran to its end. */
  datatype Turn = Turn(steps: seq<Step>, events: seq<Event>, ok: bool)

  function Quiet(steps: seq<Step>): Turn { Turn(steps, [], true) }

  function Tell(steps: seq<Step>, kind: EventKind, target: string): Turn { Turn(steps, [Event(kind, target)], true) }

  /** Record, save, resume, settle, save: the same for the loop and for a manual retry. */
  function SendTurn(plan: Plan, poll: Poll): Turn {
    var recorded := OneStep(Record(plan)) + OneStep(Save(poll.saves));
    if !poll.saves then Turn(recorded, [], false)
    else
      var settled := recorded + OneStep(Resume(poll.result)) + OneStep(Settle);
      match poll.result
      case Started(_) => Tell(settled + OneStep(Save(poll.savesAfter)), RetrySent, plan.target)
      case Unacknowledged => Tell(settled + OneStep(Save(poll.savesAfter)), RetryUnconfirmed, plan.target)
      case Refused => Tell(settled, RetryFailed, plan.target)
  }

  /** The failure was already resumed, or skipped under a policy that still skips. */
  predicate Done(d: Doc, policy: ResolvedPolicy, failureKey: string) {
    Blocks(d, failureKey) || (policy.action == Skip && HandledAction(d, failureKey) == Some(Skipped))
  }

  predicate SameTurn(reply: Reply, failure: Failure) {
    reply.FailedTurn? && reply.failure.turnId == failure.turnId
  }

  /** An attempt that is due: look again and send. */
  function ConfirmTurn(env: Env, plan: Plan, poll: Poll): Turn {
    if env.dryRun then Tell([], RetryDryRun, plan.target)
    else if !poll.allowedBeforeRecheck then Tell([], RetryCancelled, plan.target)
    else if poll.recheck.NoReply? then Turn([], [], false)
    else if !poll.allowedAfterRecheck then Tell([], RetryCancelled, plan.target)
    else if !SameTurn(poll.recheck, plan.failure) then Tell([], RetryCancelled, plan.target)
    else if !poll.allowedInBoundary then Tell([], RetryCancelled, plan.target)
    else SendTurn(plan, poll)
  }

  /** A failed turn under a retry policy, after it was noted and old attempts were dropped. */
  function RetryTurn(env: Env, noted: Machine, plan: Plan, poll: Poll): Turn {
    var attempts := |AttemptsOf(noted.mem, plan.target)|;
    if attempts >= plan.policy.maxAttempts then Tell([], RetryExhausted, plan.target)
    else if noted.now < ReadyAt(noted.mem, plan, noted.now) then Tell([], RetryWaiting, plan.target)
    else ConfirmTurn(env, plan, poll)
  }

  function NotedSteps(failure: Failure, key: string): seq<Step> {
    OneStep(NoteFirst(failure.Key())) + OneStep(Trim(key))
  }

  function Then(steps: seq<Step>, t: Turn): Turn { t.(steps := steps + t.steps) }

  function TargetTurn(env: Env, m: Machine, target: WatchTarget, poll: Poll): Turn {
    if !poll.allowedFirst then Quiet([])
    else match if target.provider in env.loaded then poll.latest else NoReply
      case NoReply => Tell([], ProviderError, target.Key())
      case HealthyTurn =>
        if HasPendingFor(m.mem, target.provider, target.sessionId) then Quiet([])
        else Quiet(OneStep(Healthy(target.provider, target.sessionId)))
      case FailedTurn(failure) =>
        var policy := env.policy(failure.condition);
        if Done(m.mem, policy, failure.Key()) then Quiet([])
        else if policy.action == Skip then
          Tell(OneStep(SkipFailure(failure.Key())), FailureSkipped, target.Key())
        else
          var noted := NotedSteps(failure, target.Key());
          Then(noted, RetryTurn(env, After(m, env.limits, noted), Plan(target.Key(), failure, policy, true), poll))
  }

  function LoopTurn(env: Env, m: Machine, targets: seq<WatchTarget>, polls: seq<Poll>): Turn
    requires |targets| == |polls|
    decreases |targets|
  {
    if targets == [] then Quiet([])
    else
      var first := TargetTurn(env, m, targets[0], polls[0]);
      if !first.ok then first
      else
        var rest := LoopTurn(env, After(m, env.limits, first.steps), targets[1..], polls[1..]);
        Turn(first.steps + rest.steps, first.events + rest.events, rest.ok)
  }

  predicate Watched(targets: seq<WatchTarget>, p: Pending) {
    exists i :: 0 <= i < |targets| && targets[i].provider == p.provider && targets[i].sessionId == p.sessionId
  }

  /** The questions of one observation pass, with the provider's answers. */
  function Ask(targets: seq<WatchTarget>, pending: map<string, Pending>, seen: string -> Observation): Answers {
    k => (seen(k), k in pending && Watched(targets, pending[k]))
  }

  function ObserveSteps(order: seq<string>, ask: Answers): seq<Step> {
    if order == [] then []
    else
      var n := |order| - 1;
      ObserveSteps(order[..n], ask) + OneStep(Observe(order[n], ask(order[n]).0, ask(order[n]).1))
  }

  /** What one observation tells when it ends a recovery. */
  function ObserveEvent(p: Pending, seen: Observation, watched: bool, now: Time): Option<Event> {
    if Fate(p, seen, watched, now).Some? then None
    else
      var kind := match seen
        case Saw(Completed) => RecoveryCompleted
        case Saw(Failed) => RecoveryFailed
        case _ => RecoveryUnconfirmed;
      Some(Event(kind, p.provider + ":" + p.sessionId))
  }

  function Listed(event: Option<Event>): seq<Event> { if event.Some? then [event.value] else [] }

  function ObserveEvents(pending: map<string, Pending>, order: seq<string>, ask: Answers, now: Time): seq<Event>
    requires Elements(order) <= pending.Keys
  {
    if order == [] then []
    else
      var n := |order| - 1;
      assert order[n] in Elements(order) && Elements(order[..n]) <= Elements(order);
      ObserveEvents(pending, order[..n], ask, now)
      + Listed(ObserveEvent(pending[order[n]], ask(order[n]).0, ask(order[n]).1, now))
  }

  /** A pass tells exactly of the recoveries it ends, each once. */
  lemma {:induction false} EventsTellOfEnds(d: Doc, order: seq<string>, ask: Answers, now: Time)
    requires Distinct(order) && Elements(order) <= d.pending.Keys
    ensures |ObserveEvents(d.pending, order, ask, now)| == |d.pending| - |Pass(d, order, ask, now).pending|
    decreases |order|
  {
    if order == [] {
    } else {
      var n := |order| - 1;
      assert order[n] in Elements(order) && order[n] !in order[..n];
      assert Elements(order[..n]) <= Elements(order);
      EventsTellOfEnds(d, order[..n], ask, now);
      PassDecidesEach(d, order[..n], ask, now);
      var before := Pass(d, order[..n], ask, now);
      ObservedSize(before, order[n], ask(order[n]).0, ask(order[n]).1, now);
      ObservedFate(before, order[n], ask(order[n]).0, ask(order[n]).1, now);
    }
  }

  // ---------------------------------------------------------------- the steps are legal

  ghost predicate Fits(env: Env) { forall c :: env.policy(c).maxAttempts <= env.limits.maxAttempts }

  /** After a run of its steps the machine is between activities again. */
  ghost predicate Legal(env: Env, m: Machine, steps: seq<Step>) {
    && Run(m, env.limits, steps)
    && After(m, env.limits, steps).pc.Idle?
    && After(m, env.limits, steps).now == m.now
  }

  lemma LegalThen(env: Env, m: Machine, a: seq<Step>, b: seq<Step>)
    requires Legal(env, m, a) && Legal(env, After(m, env.limits, a), b)
    ensures Legal(env, m, a + b)
    ensures After(m, env.limits, a + b) == After(After(m, env.limits, a), env.limits, b)
  {
    RunConcat(m, env.limits, a, b);
  }

  lemma LegalOne(env: Env, m: Machine, step: Step)
    requires Enabled(m, env.limits, step) && m.pc.Idle?
    requires !step.Enter? && !step.Record?
    ensures Legal(env, m, OneStep(step))
    ensures After(m, env.limits, OneStep(step)) == Apply(m, env.limits, step)
  {
    RunOne(m, env.limits, step);
  }

  lemma SendIsLegal(env: Env, m: Machine, plan: Plan, poll: Poll)
    requires Enabled(m, env.limits, Record(plan))
    ensures Legal(env, m, SendTurn(plan, poll).steps)
    ensures var n := After(m, env.limits, SendTurn(plan, poll).steps);
            n.sends == m.sends + if poll.saves
              then [Send(plan.target, plan.failure.Key(), m.now, plan.automatic, poll.result)] else []
  {
    var record := OneStep(Record(plan));
    RunOne(m, env.limits, Record(plan));
    var saved := record + OneStep(Save(poll.saves));
    RunThen(m, env.limits, record, Save(poll.saves));
    if poll.saves {
      var resumed := saved + OneStep(Resume(poll.result));
      RunThen(m, env.limits, saved, Resume(poll.result));
      var settled := resumed + OneStep(Settle);
      RunThen(m, env.limits, resumed, Settle);
      var before := After(m, env.limits, resumed);
      SettledFrame(before, plan, poll.result);
      if !poll.result.Refused? {
        RunThen(m, env.limits, settled, Save(poll.savesAfter));
      }
    }
  }

  lemma NotedIsLegal(env: Env, m: Machine, failure: Failure, key: string)
    requires m.pc.Idle?
    ensures Legal(env, m, NotedSteps(failure, key))
    ensures var n := After(m, env.limits, NotedSteps(failure, key));
            && n == m.(mem := Trimmed(Seen(m.mem, failure.Key(), m.now), key, m.now, env.limits.windowSeconds))
            && n.mem.handled == m.mem.handled
  {
    var first := OneStep(NoteFirst(failure.Key()));
    RunOne(m, env.limits, NoteFirst(failure.Key()));
    RunThen(m, env.limits, first, Trim(key));
  }

  lemma EmptyIsLegal(env: Env, m: Machine)
    requires m.pc.Idle?
    ensures Legal(env, m, []) && After(m, env.limits, []) == m
  {
  }

  lemma RetryIsLegal(env: Env, noted: Machine, plan: Plan, poll: Poll)
    requires noted.pc.Idle? && plan.automatic && plan.policy.maxAttempts <= env.limits.maxAttempts
    requires !Blocks(noted.mem, plan.failure.Key())
    ensures Legal(env, noted, RetryTurn(env, noted, plan, poll).steps)
    ensures var n := After(noted, env.limits, RetryTurn(env, noted, plan, poll).steps);
            |noted.sends| <= |n.sends| <= |noted.sends| + 1
  {
    EmptyIsLegal(env, noted);
    if Enabled(noted, env.limits, Record(plan)) {
      SendIsLegal(env, noted, plan, poll);
    }
  }

  /** How a retry turn goes once the failure is noted: exhausted, waiting, or due. */
  lemma RetryUnfolds(env: Env, m: Machine, plan: Plan, poll: Poll)
    requires m.pc.Idle? && plan.automatic && plan.policy.maxAttempts <= env.limits.maxAttempts
    requires !Blocks(m.mem, plan.failure.Key())
    ensures var noted := NotedSteps(plan.failure, plan.target);
            var n := After(m, env.limits, noted);
            var t := Then(noted, RetryTurn(env, n, plan, poll));
            && n == m.(mem := Trimmed(Seen(m.mem, plan.failure.Key(), m.now), plan.target, m.now,
                                      env.limits.windowSeconds))
            && if |AttemptsOf(n.mem, plan.target)| >= plan.policy.maxAttempts
               then t == Tell(noted, RetryExhausted, plan.target)
               else if n.now < ReadyAt(n.mem, plan, n.now) then t == Tell(noted, RetryWaiting, plan.target)
               else
                 && t == Then(noted, ConfirmTurn(env, plan, poll)) && Enabled(n, env.limits, Record(plan))
                 && After(m, env.limits, t.steps) == After(n, env.limits, ConfirmTurn(env, plan, poll).steps)
  {
    var noted := NotedSteps(plan.failure, plan.target);
    NotedIsLegal(env, m, plan.failure, plan.target);
    var n := After(m, env.limits, noted);
    RetryIsLegal(env, n, plan, poll);
    LegalThen(env, m, noted, RetryTurn(env, n, plan, poll).steps);
    assert noted + [] == noted;
  }

  /** Whatever the surroundings answer, one target takes only enabled steps and resumes at
      most once. */
  lemma TargetIsLegal(env: Env, m: Machine, target: WatchTarget, poll: Poll)
    requires Fits(env) && m.pc.Idle?
    ensures Legal(env, m, TargetTurn(env, m, target, poll).steps)
    ensures |After(m, env.limits, TargetTurn(env, m, target, poll).steps).sends| <= |m.sends| + 1
  {
    EmptyIsLegal(env, m);
    if poll.allowedFirst && target.provider in env.loaded {
      match poll.latest {
        case NoReply =>
        case HealthyTurn =>
          if !HasPendingFor(m.mem, target.provider, target.sessionId) {
            LegalOne(env, m, Healthy(target.provider, target.sessionId));
          }
        case FailedTurn(failure) =>
          var policy := env.policy(failure.condition);
          if !Done(m.mem, policy, failure.Key()) {
            if policy.action == Skip {
              LegalOne(env, m, SkipFailure(failure.Key()));
            } else {
              RetryTargetIsLegal(env, m, target, poll);
            }
          }
      }
    }
  }

  lemma RetryTargetIsLegal(env: Env, m: Machine, target: WatchTarget, poll: Poll)
    requires Fits(env) && m.pc.Idle?
    requires poll.allowedFirst && target.provider in env.loaded && poll.latest.FailedTurn?
    requires var policy := env.policy(poll.latest.failure.condition);
             policy.action == Retry && !Done(m.mem, policy, poll.latest.failure.Key())
    ensures Legal(env, m, TargetTurn(env, m, target, poll).steps)
    ensures |After(m, env.limits, TargetTurn(env, m, target, poll).steps).sends| <= |m.sends| + 1
  {
    var failure := poll.latest.failure;
    var plan := Plan(target.Key(), failure, env.policy(failure.condition), true);
    var noted := NotedSteps(failure, target.Key());
    NotedIsLegal(env, m, failure, target.Key());
    var n := After(m, env.limits, noted);
    RetryIsLegal(env, n, plan, poll);
    LegalThen(env, m, noted, RetryTurn(env, n, plan, poll).steps);
  }

  /** A poll over all targets is a run of the recovery machine, so every property of its runs
      holds for the engine, and no target is resumed twice in it. */
  lemma {:induction false} LoopIsLegal(env: Env, m: Machine, targets: seq<WatchTarget>, polls: seq<Poll>)
    requires Fits(env) && m.pc.Idle? && |targets| == |polls|
    ensures Legal(env, m, LoopTurn(env, m, targets, polls).steps)
    ensures |After(m, env.limits, LoopTurn(env, m, targets, polls).steps).sends| <= |m.sends| + |targets|
    decreases |targets|
  {
    if targets == [] {
      EmptyIsLegal(env, m);
    } else {
      var first := TargetTurn(env, m, targets[0], polls[0]);
      TargetIsLegal(env, m, targets[0], polls[0]);
      if first.ok {
        var n := After(m, env.limits, first.steps);
        LoopIsLegal(env, n, targets[1..], polls[1..]);
        LegalThen(env, m, first.steps, LoopTurn(env, n, targets[1..], polls[1..]).steps);
      }
    }
  }

  /** The observation steps carry out one pass. */
  lemma {:induction false} ObserveIsLegal(env: Env, m: Machine, order: seq<string>, ask: Answers)
    requires m.pc.Idle? && Distinct(order) && Elements(order) <= m.mem.pending.Keys
    ensures Legal(env, m, ObserveSteps(order, ask))
    ensures var n := After(m, env.limits, ObserveSteps(order, ask));
            n == m.(mem := Pass(m.mem, order, ask, m.now), tally := n.tally)
    decreases |order|
  {
    if order == [] {
      EmptyIsLegal(env, m);
    } else {
      var n := |order| - 1;
      assert order[n] in Elements(order) && order[n] !in order[..n];
      assert Elements(order[..n]) <= Elements(order);
      ObserveIsLegal(env, m, order[..n], ask);
      PassDecidesEach(m.mem, order[..n], ask, m.now);
      RunThen(m, env.limits, ObserveSteps(order[..n], ask), Observe(order[n], ask(order[n]).0, ask(order[n]).1));
    }
  }

  // ---------------------------------------------------------------- a whole poll, a manual retry

  /** Observe what is pending, then visit the targets, then save. */
  function PollTurn(env: Env, m: Machine, now: Time, order: seq<string>, ask: Answers,
                    targets: seq<WatchTarget>, polls: seq<Poll>, saves: bool): Turn
    requires |targets| == |polls| && Elements(order) <= m.mem.pending.Keys
  {
    var start := StartSteps(now, order, ask);
    var visited := LoopTurn(env, After(m, env.limits, start), targets, polls);
    Turn(start + VisitSteps(visited, saves),
         ObserveEvents(m.mem.pending, order, ask, now) + visited.events,
         visited.ok)
  }

  function StartSteps(now: Time, order: seq<string>, ask: Answers): seq<Step> {
    OneStep(Enter(now)) + OneStep(Prune) + ObserveSteps(order, ask)
  }

  /** A manual retry consults neither the handled marks nor the backoff. */
  function ManualTurn(env: Env, m: Machine, now: Time, target: WatchTarget, poll: Poll): Turn {
    var entered := OneStep(Enter(now));
    if !poll.allowedFirst || target.provider !in env.loaded || !poll.latest.FailedTurn? then Turn(entered, [], false)
    else
      var failure := poll.latest.failure;
      var policy := env.policy(failure.condition);
      if policy.action != Retry then Turn(entered, [], false)
      else
        var trimmed := entered + OneStep(Trim(target.Key()));
        var n := After(m, env.limits, trimmed);
        if |AttemptsOf(n.mem, target.Key())| >= policy.maxAttempts || !poll.allowedInBoundary
        then Turn(trimmed, [], false)
        else
          var sent := SendTurn(Plan(target.Key(), failure, policy, false), poll);
          Turn(trimmed + sent.steps, if poll.result.Refused? then [] else sent.events, sent.ok && poll.result.Started?)
  }

  lemma OpenedIsLegal(env: Env, m: Machine, now: Time, order: seq<string>, ask: Answers)
    requires m.pc.Idle? && m.now <= now && Distinct(order) && Elements(order) == m.mem.pending.Keys
    ensures var start := StartSteps(now, order, ask);
            var n := After(m, env.limits, start);
            && Run(m, env.limits, start) && n.pc.Idle? && n.now == now && n.disk == m.disk
            && n.mem == Pass(Pruned(m.mem, now), order, ask, now)
  {
    var entered := OneStep(Enter(now));
    RunOne(m, env.limits, Enter(now));
    RunThen(m, env.limits, entered, Prune);
    var pruned := entered + OneStep(Prune);
    var n := After(m, env.limits, pruned);
    ObserveIsLegal(env, n, order, ask);
    RunConcat(m, env.limits, pruned, ObserveSteps(order, ask));
  }

  function VisitSteps(visited: Turn, saves: bool): seq<Step> {
    visited.steps + if visited.ok then OneStep(Save(saves)) else []
  }

  lemma VisitsAreLegal(env: Env, m: Machine, targets: seq<WatchTarget>, polls: seq<Poll>, saves: bool)
    requires Fits(env) && m.pc.Idle? && |targets| == |polls|
    ensures Legal(env, m, VisitSteps(LoopTurn(env, m, targets, polls), saves))
    ensures var visited := LoopTurn(env, m, targets, polls);
            var n := After(m, env.limits, visited.steps);
            && n.pc.Idle?
            && After(m, env.limits, VisitSteps(visited, saves))
               == After(n, env.limits, if visited.ok then OneStep(Save(saves)) else [])
  {
    var visited := LoopTurn(env, m, targets, polls);
    LoopIsLegal(env, m, targets, polls);
    if visited.ok {
      LegalOne(env, After(m, env.limits, visited.steps), Save(saves));
      LegalThen(env, m, visited.steps, OneStep(Save(saves)));
    } else {
      assert VisitSteps(visited, saves) == visited.steps;
    }
  }

  /** A whole poll is a run of the recovery machine. */
  lemma PollIsRun(env: Env, m: Machine, now: Time, order: seq<string>, ask: Answers,
                  targets: seq<WatchTarget>, polls: seq<Poll>, saves: bool)
    requires Fits(env) && m.pc.Idle? && m.now <= now && |targets| == |polls|
    requires Distinct(order) && Elements(order) == m.mem.pending.Keys
    ensures var steps := PollTurn(env, m, now, order, ask, targets, polls, saves).steps;
            && Run(m, env.limits, steps)
            && After(m, env.limits, steps).pc.Idle?
            && After(m, env.limits, steps).now == now
    ensures var start := StartSteps(now, order, ask);
            var n := After(m, env.limits, start);
            After(m, env.limits, PollTurn(env, m, now, order, ask, targets, polls, saves).steps)
              == After(n, env.limits, VisitSteps(LoopTurn(env, n, targets, polls), saves))
  {
    OpenedIsLegal(env, m, now, order, ask);
    var n := After(m, env.limits, StartSteps(now, order, ask));
    VisitsAreLegal(env, n, targets, polls, saves);
    RunConcat(m, env.limits, StartSteps(now, order, ask), VisitSteps(LoopTurn(env, n, targets, polls), saves));
  }

  /** So is a manual retry, and it resumes at most once. */
  lemma ManualIsRun(env: Env, m: Machine, now: Time, target: WatchTarget, poll: Poll)
    requires Fits(env) && m.pc.Idle? && m.now <= now
    ensures var steps := ManualTurn(env, m, now, target, poll).steps;
            && Run(m, env.limits, steps) && After(m, env.limits, steps).pc.Idle?
            && |After(m, env.limits, steps).sends| <= |m.sends| + 1
  {
    var entered := OneStep(Enter(now));
    RunOne(m, env.limits, Enter(now));
    RunThen(m, env.limits, entered, Trim(target.Key()));
    var trimmed := entered + OneStep(Trim(target.Key()));
    var n := After(m, env.limits, trimmed);
    if poll.latest.FailedTurn? {
      var policy := env.policy(poll.latest.failure.condition);
      var plan := Plan(target.Key(), poll.latest.failure, policy, false);
      if Enabled(n, env.limits, Record(plan)) {
        SendIsLegal(env, n, plan, poll);
        RunConcat(m, env.limits, trimmed, SendTurn(plan, poll).steps);
      }
    }
  }

  // ---------------------------------------------------------------- the engine object

  /** The engine mutates its runtime state in place. `m` is the recovery machine that the
      state and its file stand for. */
  class WatchEngine {
    const state: RuntimeState
    const env: Env
    var targets: seq<WatchTarget>
    ghost var m: Machine

    ghost predicate Valid()
      reads this, state
    {
      Fits(env) && m.mem == state.View() && m.disk == state.disk && m.pc.Idle?
    }

    constructor (state: RuntimeState, env: Env, targets: seq<WatchTarget>, ghost m: Machine)
      requires Fits(env) && m.mem == state.View() && m.disk == state.disk && m.pc.Idle?
      ensures Valid() && this.state == state && this.env == env && this.targets == targets && this.m == m
    {
      this.state, this.env, this.targets, this.m := state, env, targets, m;
    }

    /** Record, save, resume, settle, save (src/engine.rs:298-364 and 684-727). */
    method Transmit(plan: Plan, now: Time, poll: Poll) returns (event: Option<Event>, ok: bool)
      requires Valid() && now == m.now && Enabled(m, env.limits, Record(plan))
      modifies this`m, state
      ensures Valid()
      ensures var t := SendTurn(plan, poll);
              && m == After(old(m), env.limits, t.steps)
              && ok == t.ok && t.events == Listed(event)
    {
      SendIsLegal(env, m, plan, poll);
      SendStates(env, m, plan, poll);
      m := After(m, env.limits, SendTurn(plan, poll).steps);
      state.RecordAttempt(plan.target, now);
      var saved := state.Save(poll.saves);
      if !saved {
        return None, false;
      }
      match poll.result
      case Started(turn) =>
        state.BeginRecovery(plan.failure, turn, now, plan.automatic);
        state.MarkHandled(plan.failure.Key(), Resumed, now);
        var _ := state.Save(poll.savesAfter);
        return Some(Event(RetrySent, plan.target)), true;
      case Unacknowledged =>
        state.MarkHandled(plan.failure.Key(), Unconfirmed, now);
        var _ := state.Save(poll.savesAfter);
        return Some(Event(RetryUnconfirmed, plan.target)), true;
      case Refused =>
        return Some(Event(RetryFailed, plan.target)), true;
    }

    /** One iteration of the loop over targets. */
    method Visit(target: WatchTarget, now: Time, poll: Poll) returns (event: Option<Event>, ok: bool)
      requires Valid() && now == m.now
      modifies this`m, state
      ensures Valid() && m.now == now
      ensures var t := TargetTurn(env, old(m), target, poll);
              && m == After(old(m), env.limits, t.steps)
              && ok == t.ok && t.events == Listed(event)
    {
      TargetIsLegal(env, m, target, poll);
      EmptyIsLegal(env, m);
      if !poll.allowedFirst {
        return None, true;
      }
      var reply := if target.provider in env.loaded then poll.latest else NoReply;
      if reply.NoReply? {
        return Some(Event(ProviderError, target.Key())), true;
      }
      if reply.HealthyTurn? {
        var pending := state.HasPending(target.provider, target.sessionId);
        if !pending {
          LegalOne(env, m, Healthy(target.provider, target.sessionId));
          m := Apply(m, env.limits, Healthy(target.provider, target.sessionId));
          state.ClearAttempts(target.Key());
        }
        return None, true;
      }
      var failure := reply.failure;
      var policy := env.policy(failure.condition);
      var handled := state.handled;
      var action := if failure.Key() in handled then Some(handled[failure.Key()].action) else None;
      if action == Some(Resumed) || action == Some(Unconfirmed) || (policy.action == Skip && action == Some(Skipped)) {
        return None, true;
      }
      if policy.action == Skip {
        LegalOne(env, m, SkipFailure(failure.Key()));
        m := Apply(m, env.limits, SkipFailure(failure.Key()));
        state.MarkHandled(failure.Key(), Skipped, now);
        return Some(Event(FailureSkipped, target.Key())), true;
      }
      event, ok := Retry(target, failure, policy, now, poll);
    }

    method Retry(target: WatchTarget, failure: Failure, policy: ResolvedPolicy, now: Time, poll: Poll)
      returns (event: Option<Event>, ok: bool)
      requires Valid() && now == m.now
      requires policy == env.policy(failure.condition) && !Blocks(m.mem, failure.Key())
      modifies this`m, state
      ensures Valid() && m.now == now
      ensures var noted := NotedSteps(failure, target.Key());
              var t := Then(noted, RetryTurn(env, After(old(m), env.limits, noted),
                                             Plan(target.Key(), failure, policy, true), poll));
              && m == After(old(m), env.limits, t.steps)
              && ok == t.ok && t.events == Listed(event)
    {
      var plan := Plan(target.Key(), failure, policy, true);
      RetryUnfolds(env, m, plan, poll);
      m := After(m, env.limits, NotedSteps(failure, target.Key()));
      var firstSeen := state.FirstSeen(failure.Key(), now);
      var attempts := state.RecentAttempts(target.Key(), now, env.limits.windowSeconds);
      if attempts >= policy.maxAttempts {
        return Some(Event(RetryExhausted, target.Key())), true;
      }
      var delay := RetryDelay(policy, attempts, failure.retryAfterSeconds);
      var times := state.attempts[target.Key()];
      var delayFrom := if times == [] then firstSeen else times[|times| - 1];
      var readyAt := delayFrom + Seconds(Min(delay, I64_MAX));
      assert readyAt == ReadyAt(m.mem, plan, now);
      if now < readyAt {
        return Some(Event(RetryWaiting, target.Key())), true;
      }
      event, ok := Confirm(plan, now, poll);
    }

    /** An attempt that is due (src/engine.rs:235-364). */
    method Confirm(plan: Plan, now: Time, poll: Poll) returns (event: Option<Event>, ok: bool)
      requires Valid() && now == m.now && Enabled(m, env.limits, Record(plan))
      modifies this`m, state
      ensures Valid() && m.now == now
      ensures var t := ConfirmTurn(env, plan, poll);
              && m == After(old(m), env.limits, t.steps)
              && ok == t.ok && t.events == Listed(event)
    {
      EmptyIsLegal(env, m);
      if env.dryRun {
        return Some(Event(RetryDryRun, plan.target)), true;
      }
      if !poll.allowedBeforeRecheck {
        return Some(Event(RetryCancelled, plan.target)), true;
      }
      if poll.recheck.NoReply? {
        return None, false;
      }
      if !poll.allowedAfterRecheck {
        return Some(Event(RetryCancelled, plan.target)), true;
      }
      if !(poll.recheck.FailedTurn? && poll.recheck.failure.turnId == plan.failure.turnId) {
        return Some(Event(RetryCancelled, plan.target)), true;
      }
      if !poll.allowedInBoundary {
        return Some(Event(RetryCancelled, plan.target)), true;
      }
      SendIsLegal(env, m, plan, poll);
      event, ok := Transmit(plan, now, poll);
    }

    /** The observation pass, over the pending recoveries in the order the map yields them. */
    method ReconcilePending(order: seq<string>, seen: string -> Observation, now: Time) returns (events: seq<Event>)
      requires Valid() && now == m.now
      requires Distinct(order) && Elements(order) == state.pending.Keys
      modifies this`m, state
      ensures Valid() && m.now == now
      ensures m == After(old(m), env.limits, ObserveSteps(order, Ask(targets, old(state.pending), seen)))
      ensures events == ObserveEvents(old(state.pending), order, Ask(targets, old(state.pending), seen), now)
    {
      ghost var before := m;
      var pending := state.pending;
      ghost var ask := Ask(targets, pending, seen);
      events := [];
      for i := 0 to |order|
        invariant Valid() && m.now == now
        invariant Elements(order[..i]) <= pending.Keys
        invariant m == After(before, env.limits, ObserveSteps(order[..i], ask))
        invariant events == ObserveEvents(pending, order[..i], ask, now)
        modifies this`m, state
      {
        var key := order[i];
        ObserveNext(env, before, order, ask, i);
        NextEvent(pending, order, ask, now, i);
        m := After(before, env.limits, ObserveSteps(order[..i + 1], ask));
        var watched := IsWatched(targets, pending[key]);
        var event := ObserveOne(key, pending[key], seen(key), watched, now);
        events := events + Listed(event);
      }
      assert order[..|order|] == order;
    }

    /** One observation (src/engine.rs:384-478). */
    method ObserveOne(key: string, pending: Pending, seen: Observation, watched: bool, now: Time)
      returns (event: Option<Event>)
      requires key in state.pending && state.pending[key] == pending
      modifies state
      ensures state.View() == Observed(old(state.View()), key, seen, watched, now)
      ensures state.disk == old(state.disk)
      ensures event == ObserveEvent(pending, seen, watched, now)
    {
      var target := pending.provider + ":" + pending.sessionId;
      event := None;
      match seen
      case Unloaded =>
      case Saw(Completed) =>
        var _ := state.FinishRecovery(key, true, now);
        event := Some(Event(RecoveryCompleted, target));
      case Saw(Failed) =>
        var _ := state.FinishRecovery(key, false, now);
        event := Some(Event(RecoveryFailed, target));
      case Saw(InProgress) =>
        if now - pending.startedAt >= MAX_AGE {
          var _ := state.AbandonRecovery(key);
          event := Some(Event(RecoveryUnconfirmed, target));
        }
      case _ =>
        var failures := state.RecordObservationFailure(key, now);
        if Expired(pending, failures.GetOr(0), watched, now) {
          var _ := state.AbandonRecovery(key);
          event := Some(Event(RecoveryUnconfirmed, target));
        }
    }

    /** A poll: prune, observe, visit every target, save. An error from the second look at a
        turn or from saving an attempt ends it early. */
    method RunOnceAuthorized(now: Time, order: seq<string>, seen: string -> Observation, polls: seq<Poll>, saves: bool)
      returns (events: seq<Event>, ok: bool)
      requires Valid() && m.now <= now && |polls| == |targets|
      requires Distinct(order) && Elements(order) == state.pending.Keys
      modifies this`m, state
      ensures Valid() && m.now == now
      ensures var t := PollTurn(env, old(m), now, order, Ask(targets, old(state.pending), seen), targets, polls, saves);
              m == After(old(m), env.limits, t.steps) && events == t.events && ok == t.ok
    {
      ghost var before := m;
      ghost var ask := Ask(targets, state.pending, seen);
      OpenedIsLegal(env, m, now, order, ask);
      PollIsRun(env, m, now, order, ask, targets, polls, saves);
      PrunedRun(env, m, now, order, ask);
      m := After(m, env.limits, OneStep(Enter(now)) + OneStep(Prune));
      state.Prune(now);
      var observed := ReconcilePending(order, seen, now);
      ghost var start := m;
      var told, finished := VisitAll(now, polls);
      events, ok := observed + told, finished;
      VisitsAreLegal(env, start, targets, polls, saves);
      EmptyIsLegal(env, m);
      if ok {
        RunOne(m, env.limits, Save(saves));
        m := Apply(m, env.limits, Save(saves));
        var _ := state.Save(saves);
      }
    }

    method VisitAll(now: Time, polls: seq<Poll>) returns (events: seq<Event>, ok: bool)
      requires Valid() && m.now == now && |polls| == |targets|
      modifies this`m, state
      ensures Valid() && m.now == now
      ensures var t := LoopTurn(env, old(m), targets, polls);
              m == After(old(m), env.limits, t.steps) && events == t.events && ok == t.ok
    {
      ghost var before := m;
      ghost var done: seq<Step> := [];
      events, ok := [], true;
      LoopStart(env, m, targets, polls);
      for i := 0 to |targets|
        invariant Valid() && m.now == now && ok
        invariant Legal(env, before, done) && m == After(before, env.limits, done)
        invariant LoopTurn(env, before, targets, polls) == Continue(done, events,
                                                                    LoopTurn(env, m, targets[i..], polls[i..]))
        modifies this`m, state
      {
        LoopStep(env, m, targets, polls, i, done, events);
        LoopAdvance(env, before, m, targets[i], polls[i], done);
        done := done + TargetTurn(env, m, targets[i], polls[i]).steps;
        var event, more := Visit(targets[i], now, polls[i]);
        events := if event.Some? then events + [event.value] else events + [];
        if !more {
          return events, false;
        }
      }
      LoopEnd(env, m, targets, polls, done, events);
    }

    /** A manual retry of one watched session; the receipt's turn, or None for an error. */
    method RetryNow(provider: string, sessionId: string, now: Time, poll: Poll)
      returns (turn: Option<string>, event: Option<Event>)
      requires Valid() && m.now <= now
      modifies this`m, state
      ensures Valid()
      ensures var target := FirstMatch(targets, provider, sessionId);
              if target.None?
              then turn.None? && event.None? && m == old(m)
                   && state.View() == old(state.View()) && state.disk == old(state.disk)
              else
                var t := ManualTurn(env, old(m), now, target.value, poll);
                && m == After(old(m), env.limits, t.steps)
                && t.events == Listed(event)
                && (turn.Some? <==> t.ok) && (turn.Some? ==> poll.result == Started(turn.value))
    {
      var target := FirstMatch(targets, provider, sessionId);
      if target.None? {
        return None, None;
      }
      turn, event := RetryTarget(target.value, now, poll);
    }

    method RetryTarget(target: WatchTarget, now: Time, poll: Poll)
      returns (turn: Option<string>, event: Option<Event>)
      requires Valid() && m.now <= now
      modifies this`m, state
      ensures Valid()
      ensures var t := ManualTurn(env, old(m), now, target, poll);
              && m == After(old(m), env.limits, t.steps)
              && t.events == Listed(event)
              && (turn.Some? <==> t.ok) && (turn.Some? ==> poll.result == Started(turn.value))
    {
      ghost var before := m;
      ghost var entered := OneStep(Enter(now));
      ghost var trimmed := entered + OneStep(Trim(target.Key()));
      RunOne(m, env.limits, Enter(now));
      RunThen(m, env.limits, entered, Trim(target.Key()));
      m := After(m, env.limits, entered);
      if !poll.allowedFirst {
        return None, None;
      }
      if target.provider !in env.loaded || !poll.latest.FailedTurn? {
        return None, None;
      }
      var failure := poll.latest.failure;
      var policy := env.policy(failure.condition);
      if policy.action != PolicyAction.Retry {
        return None, None;
      }
      var attempts := state.RecentAttempts(target.Key(), now, env.limits.windowSeconds);
      m := After(before, env.limits, trimmed);
      if attempts >= policy.maxAttempts {
        return None, None;
      }
      if !poll.allowedInBoundary {
        return None, None;
      }
      var plan := Plan(target.Key(), failure, policy, false);
      SendIsLegal(env, m, plan, poll);
      RunConcat(before, env.limits, trimmed, SendTurn(plan, poll).steps);
      var told, ok := Transmit(plan, now, poll);
      if !ok {
        return None, None;
      }
      match poll.result
      case Started(id) => return Some(id), told;
      case Unacknowledged => return None, told;
      case Refused => return None, None;
    }
  }

  function FirstMatch(targets: seq<WatchTarget>, provider: string, sessionId: string): Option<WatchTarget> {
    if targets == [] then None
    else if targets[0].provider == provider && targets[0].sessionId == sessionId then Some(targets[0])
    else FirstMatch(targets[1..], provider, sessionId)
  }

  method IsWatched(targets: seq<WatchTarget>, p: Pending) returns (watched: bool)
    ensures watched == Watched(targets, p)
  {
    watched := exists i :: 0 <= i < |targets|
                        && targets[i].provider == p.provider && targets[i].sessionId == p.sessionId;
  }

  lemma NextEvent(pending: map<string, Pending>, order: seq<string>, ask: Answers, now: Time, i: nat)
    requires i < |order| && Elements(order) <= pending.Keys
    ensures Elements(order[..i]) <= pending.Keys && Elements(order[..i + 1]) <= pending.Keys && order[i] in pending
    ensures ObserveEvents(pending, order[..i + 1], ask, now)
         == ObserveEvents(pending, order[..i], ask, now)
            + Listed(ObserveEvent(pending[order[i]], ask(order[i]).0, ask(order[i]).1, now))
  {
    assert order[i] in Elements(order);
    assert Elements(order[..i]) <= Elements(order) && Elements(order[..i + 1]) <= Elements(order);
    assert order[..i + 1][..i] == order[..i];
  }

  /** The recovery that is observed next is still as it was when the pass began. */
  lemma ObserveNext(env: Env, m: Machine, order: seq<string>, ask: Answers, i: nat)
    requires m.pc.Idle? && Distinct(order) && Elements(order) == m.mem.pending.Keys && i < |order|
    ensures order[i] in m.mem.pending
    ensures var before := After(m, env.limits, ObserveSteps(order[..i], ask));
            var after := After(m, env.limits, ObserveSteps(order[..i + 1], ask));
            && order[i] in before.mem.pending && before.mem.pending[order[i]] == m.mem.pending[order[i]]
            && after == before.(mem := Observed(before.mem, order[i], ask(order[i]).0, ask(order[i]).1, m.now),
                                tally := after.tally)
  {
    assert order[i] in Elements(order) && order[i] !in order[..i];
    assert Elements(order[..i]) <= Elements(order) && Elements(order[..i + 1]) <= Elements(order);
    assert order[..i + 1][..i] == order[..i] && order[..i + 1][i] == order[i];
    ObserveIsLegal(env, m, order[..i], ask);
    ObserveIsLegal(env, m, order[..i + 1], ask);
    PassDecidesEach(m.mem, order[..i], ask, m.now);
  }

  function Continue(steps: seq<Step>, events: seq<Event>, rest: Turn): Turn {
    Turn(steps + rest.steps, events + rest.events, rest.ok)
  }

  lemma LoopStep(env: Env, m: Machine, targets: seq<WatchTarget>, polls: seq<Poll>, i: nat,
                 done: seq<Step>, events: seq<Event>)
    requires |targets| == |polls| && i < |targets|
    ensures var turn := TargetTurn(env, m, targets[i], polls[i]);
            Continue(done, events, LoopTurn(env, m, targets[i..], polls[i..]))
              == if !turn.ok then Turn(done + turn.steps, events + turn.events, false)
                 else Continue(done + turn.steps, events + turn.events,
                               LoopTurn(env, After(m, env.limits, turn.steps), targets[i + 1..], polls[i + 1..]))
  {
    var turn := TargetTurn(env, m, targets[i], polls[i]);
    assert targets[i..][1..] == targets[i + 1..] && polls[i..][1..] == polls[i + 1..];
    assert targets[i..][0] == targets[i] && polls[i..][0] == polls[i];
    var rest := LoopTurn(env, After(m, env.limits, turn.steps), targets[i + 1..], polls[i + 1..]);
    assert done + (turn.steps + rest.steps) == done + turn.steps + rest.steps;
    assert events + (turn.events + rest.events) == events + turn.events + rest.events;
  }

  lemma LoopStart(env: Env, m: Machine, targets: seq<WatchTarget>, polls: seq<Poll>)
    requires m.pc.Idle? && |targets| == |polls|
    ensures Legal(env, m, []) && After(m, env.limits, []) == m
    ensures LoopTurn(env, m, targets, polls) == Continue([], [], LoopTurn(env, m, targets[0..], polls[0..]))
  {
    assert targets[0..] == targets && polls[0..] == polls;
  }

  lemma LoopAdvance(env: Env, before: Machine, m: Machine, target: WatchTarget, poll: Poll, done: seq<Step>)
    requires Fits(env) && Legal(env, before, done) && m == After(before, env.limits, done)
    ensures var steps := TargetTurn(env, m, target, poll).steps;
            Legal(env, before, done + steps) && After(before, env.limits, done + steps) == After(m, env.limits, steps)
  {
    TargetIsLegal(env, m, target, poll);
    LegalThen(env, before, done, TargetTurn(env, m, target, poll).steps);
  }

  lemma LoopEnd(env: Env, m: Machine, targets: seq<WatchTarget>, polls: seq<Poll>, done: seq<Step>, events: seq<Event>)
    requires |targets| == |polls|
    ensures Continue(done, events, LoopTurn(env, m, targets[|targets|..], polls[|polls|..])) == Turn(done, events, true)
  {
    assert targets[|targets|..] == [];
  }

  lemma PrunedRun(env: Env, m: Machine, now: Time, order: seq<string>, ask: Answers)
    requires m.pc.Idle? && m.now <= now
    ensures var pruned := OneStep(Enter(now)) + OneStep(Prune);
            var n := After(m, env.limits, pruned);
            && Run(m, env.limits, pruned) && n == m.(now := now, mem := Pruned(m.mem, now))
            && (Distinct(order) && Elements(order) == m.mem.pending.Keys ==>
                  After(n, env.limits, ObserveSteps(order, ask)) == After(m, env.limits, StartSteps(now, order, ask)))
  {
    RunOne(m, env.limits, Enter(now));
    RunThen(m, env.limits, OneStep(Enter(now)), Prune);
    var pruned := OneStep(Enter(now)) + OneStep(Prune);
    if Distinct(order) && Elements(order) == m.mem.pending.Keys {
      var n := After(m, env.limits, pruned);
      ObserveIsLegal(env, n, order, ask);
      RunConcat(m, env.limits, pruned, ObserveSteps(order, ask));
    }
  }

  /** The documents after a send, said directly. */
  lemma SendStates(env: Env, m: Machine, plan: Plan, poll: Poll)
    requires Enabled(m, env.limits, Record(plan))
    ensures var n := After(m, env.limits, SendTurn(plan, poll).steps);
            var recorded := WithAttempt(m.mem, plan.target, m.now);
            if !poll.saves then n.mem == recorded && n.disk == m.disk
            else match poll.result
                 case Started(turn) =>
                   var begun := Marked(Begun(recorded, plan.failure, turn, m.now, plan.automatic), plan.failure.Key(),
                                       Resumed, m.now);
                   n.mem == begun && n.disk == (if poll.savesAfter then begun else recorded)
                 case Unacknowledged =>
                   var marked := Marked(recorded, plan.failure.Key(), Unconfirmed, m.now);
                   n.mem == marked && n.disk == (if poll.savesAfter then marked else recorded)
                 case Refused => n.mem == recorded && n.disk == recorded
  {
    var record := OneStep(Record(plan));
    RunOne(m, env.limits, Record(plan));
    var saved := record + OneStep(Save(poll.saves));
    RunThen(m, env.limits, record, Save(poll.saves));
    if poll.saves {
      var resumed := saved + OneStep(Resume(poll.result));
      RunThen(m, env.limits, saved, Resume(poll.result));
      var settled := resumed + OneStep(Settle);
      RunThen(m, env.limits, resumed, Settle);
      if !poll.result.Refused? {
        RunThen(m, env.limits, settled, Save(poll.savesAfter));
      }
    }
  }
}
