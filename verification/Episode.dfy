/** The engine over time: polls and manual retries one after another, cut off by crashes anywhere
    (src/engine.rs, and the loop and the retry tasks of src/daemon.rs). */
module Episodes {
  import opened Prelude
  import opened Models
  import opened Conditions
  import opened Config
  import opened Backoff
  import opened RuntimeStates
  import opened Recovery
  import opened Engine

  /** What wakes the engine, with everything the surroundings answer. */
  datatype Activity =
    | Round(now: Time, order: seq<string>, seen: string -> Observation, targets: seq<WatchTarget>, polls: seq<Poll>,
            saves: bool)
    | Manual(now: Time, target: WatchTarget, poll: Poll)

  /** An activity, cut off by a crash and a restart after some of its steps, or complete. */
  datatype Episode = Episode(activity: Activity, crashAfter: Option<nat>)

  ghost predicate Possible(m: Machine, a: Activity) {
    && m.now <= a.now
    && (a.Round? ==> |a.targets| == |a.polls| && Distinct(a.order) && Elements(a.order) == m.mem.pending.Keys)
  }

  function StepsOf(env: Env, m: Machine, a: Activity): seq<Step>
    requires a.Round? ==> |a.targets| == |a.polls| && Elements(a.order) <= m.mem.pending.Keys
  {
    match a
    case Round(now, order, seen, targets, polls, saves) =>
      PollTurn(env, m, now, order, Ask(targets, Pruned(m.mem, now).pending, seen), targets, polls, saves).steps
    case Manual(now, target, poll) => ManualTurn(env, m, now, target, poll).steps
  }

  ghost function EpisodeSteps(env: Env, m: Machine, e: Episode): seq<Step> {
    if !Possible(m, e.activity) then []
    else
      var steps := StepsOf(env, m, e.activity);
      if e.crashAfter.Some? && e.crashAfter.value <= |steps|
      then steps[..e.crashAfter.value] + OneStep(Crash) else steps
  }

  /** An episode with the steps it took. */
  datatype Chapter = Chapter(episode: Episode, steps: seq<Step>)

  /** The machine before each chapter of a service run. */
  function Before(m: Machine, limits: Limits, chapters: seq<Chapter>, i: nat): Machine
    requires i <= |chapters|
  {
    if i == 0 then m else After(Before(m, limits, chapters, i - 1), limits, chapters[i - 1].steps)
  }

  /** The chapter tells what its episode does to the machine before it. */
  ghost predicate Happens(env: Env, m: Machine, chapters: seq<Chapter>, i: nat)
    requires i < |chapters|
  {
    var before, c := Before(m, env.limits, chapters, i), chapters[i];
    Possible(before, c.episode.activity) && c.steps == EpisodeSteps(env, before, c.episode)
  }

  /** One episode after another, each from where the one before left the machine. */
  ghost predicate Serves(env: Env, m: Machine, chapters: seq<Chapter>) {
    forall i: nat :: i < |chapters| ==> Happens(env, m, chapters, i)
  }

  lemma {:induction false} RunPrefix(m: Machine, limits: Limits, steps: seq<Step>, k: nat)
    requires Run(m, limits, steps) && k <= |steps|
    ensures Run(m, limits, steps[..k])
    decreases k
  {
    if k > 0 {
      RunPrefix(Apply(m, limits, steps[0]), limits, steps[1..], k - 1);
      assert steps[..k][1..] == steps[1..][..k - 1];
    }
  }

  lemma EpisodeIsRun(env: Env, m: Machine, e: Episode)
    requires Fits(env) && m.pc.Idle? && Possible(m, e.activity)
    ensures Run(m, env.limits, EpisodeSteps(env, m, e))
    ensures After(m, env.limits, EpisodeSteps(env, m, e)).pc.Idle?
  {
    match e.activity {
      case Round(now, order, seen, targets, polls, saves) =>
        PollIsRun(env, m, now, order, Ask(targets, Pruned(m.mem, now).pending, seen), targets, polls, saves);
      case Manual(now, target, poll) => ManualIsRun(env, m, now, target, poll);
    }
    var steps := StepsOf(env, m, e.activity);
    if e.crashAfter.Some? && e.crashAfter.value <= |steps| {
      RunPrefix(m, env.limits, steps, e.crashAfter.value);
      RunThen(m, env.limits, steps[..e.crashAfter.value], Crash);
    }
  }

  // ---------------------------------------------------------------- what the steps rest on

  /** What the surroundings said of a target whose attempts are cleared, or to which an attempt is
      recorded: every permit check passed, the failed turn was unchanged on a second look, and the
      policy retries. */
  predicate Grounds(env: Env, target: WatchTarget, poll: Poll, step: Step) {
    match step
    case Healthy(provider, sessionId) =>
      && provider == target.provider && sessionId == target.sessionId && provider in env.loaded
      && poll.allowedFirst && poll.latest.HealthyTurn?
    case Record(plan) =>
      && poll.allowedFirst && poll.allowedBeforeRecheck && poll.allowedAfterRecheck && poll.allowedInBoundary
      && !env.dryRun && target.provider in env.loaded
      && poll.latest.FailedTurn? && SameTurn(poll.recheck, poll.latest.failure)
      && plan == Plan(target.Key(), poll.latest.failure, env.policy(poll.latest.failure.condition), true)
      && plan.policy.action == Retry
    case _ => true
  }

  lemma TargetHasGrounds(env: Env, m: Machine, target: WatchTarget, poll: Poll, k: nat)
    requires k < |TargetTurn(env, m, target, poll).steps|
    ensures Grounds(env, target, poll, TargetTurn(env, m, target, poll).steps[k])
  {
  }

  /** A manual retry needs a permit at the start and inside the boundary, a failed turn and a policy
      that retries. */
  predicate ManualGrounds(env: Env, target: WatchTarget, poll: Poll, step: Step) {
    match step
    case Healthy(_, _) => false
    case Record(plan) =>
      && poll.allowedFirst && poll.allowedInBoundary && target.provider in env.loaded && poll.latest.FailedTurn?
      && plan == Plan(target.Key(), poll.latest.failure, env.policy(poll.latest.failure.condition), false)
      && plan.policy.action == Retry
    case _ => true
  }

  ghost predicate Visited(env: Env, targets: seq<WatchTarget>, polls: seq<Poll>, step: Step) {
    step.Healthy? || step.Record? ==>
      exists i: nat :: i < |targets| == |polls| && Grounds(env, targets[i], polls[i], step)
  }

  /** One of the activity's targets is the ground for the step. */
  ghost predicate Grounded(env: Env, a: Activity, step: Step) {
    if a.Round? then Visited(env, a.targets, a.polls, step) else ManualGrounds(env, a.target, a.poll, step)
  }

  lemma {:induction false} LoopHasGrounds(env: Env, m: Machine, targets: seq<WatchTarget>, polls: seq<Poll>, k: nat)
    requires |targets| == |polls| && k < |LoopTurn(env, m, targets, polls).steps|
    ensures Visited(env, targets, polls, LoopTurn(env, m, targets, polls).steps[k])
    decreases |targets|
  {
    var first := TargetTurn(env, m, targets[0], polls[0]);
    if k < |first.steps| {
      TargetHasGrounds(env, m, targets[0], polls[0], k);
    } else {
      var n := After(m, env.limits, first.steps);
      var step := LoopTurn(env, n, targets[1..], polls[1..]).steps[k - |first.steps|];
      LoopHasGrounds(env, n, targets[1..], polls[1..], k - |first.steps|);
      if step.Healthy? || step.Record? {
        var i: nat :| i < |targets[1..]| && Grounds(env, targets[1..][i], polls[1..][i], step);
        assert Grounds(env, targets[i + 1], polls[i + 1], step);
      }
    }
  }

  lemma {:induction false} ObserveStepsObserve(order: seq<string>, ask: Answers, k: nat)
    requires k < |ObserveSteps(order, ask)|
    ensures ObserveSteps(order, ask)[k].Observe?
    decreases |order|
  {
    if k < |ObserveSteps(order[..|order| - 1], ask)| {
      ObserveStepsObserve(order[..|order| - 1], ask, k);
    }
  }

  lemma StartStepsOnlyObserve(now: Time, order: seq<string>, ask: Answers, k: nat)
    requires k < |StartSteps(now, order, ask)|
    ensures var step := StartSteps(now, order, ask)[k];
            !step.Healthy? && !step.Record?
  {
    if k >= 2 {
      ObserveStepsObserve(order, ask, k - 2);
      assert StartSteps(now, order, ask)[k] == ObserveSteps(order, ask)[k - 2];
    }
  }

  lemma RoundHasGrounds(env: Env, m: Machine, a: Activity, k: nat)
    requires a.Round? && Possible(m, a) && k < |StepsOf(env, m, a)|
    ensures Grounded(env, a, StepsOf(env, m, a)[k])
  {
    var ask := Ask(a.targets, Pruned(m.mem, a.now).pending, a.seen);
    var start := StartSteps(a.now, a.order, ask);
    var n := After(m, env.limits, start);
    var visited := LoopTurn(env, n, a.targets, a.polls);
    if k < |start| {
      StartStepsOnlyObserve(a.now, a.order, ask, k);
    } else if k - |start| < |visited.steps| {
      LoopHasGrounds(env, n, a.targets, a.polls, k - |start|);
      assert StepsOf(env, m, a)[k] == visited.steps[k - |start|];
    }
  }

  lemma ManualHasGrounds(env: Env, m: Machine, a: Activity, k: nat)
    requires a.Manual? && k < |StepsOf(env, m, a)|
    ensures Grounded(env, a, StepsOf(env, m, a)[k])
  {
  }

  lemma ChapterIsRun(env: Env, m: Machine, chapters: seq<Chapter>, i: nat)
    requires i < |chapters| && Fits(env) && Happens(env, m, chapters, i)
    requires Before(m, env.limits, chapters, i).pc.Idle?
    ensures var before := Before(m, env.limits, chapters, i);
            Run(before, env.limits, chapters[i].steps) && After(before, env.limits, chapters[i].steps).pc.Idle?
  {
    EpisodeIsRun(env, Before(m, env.limits, chapters, i), chapters[i].episode);
  }

  /** Polls and manual retries, cut off by crashes anywhere, are a run of the recovery machine. */
  lemma {:induction false} ServiceIsRun(env: Env, m: Machine, chapters: seq<Chapter>, i: nat) returns (steps: seq<Step>)
    requires Fits(env) && m.pc.Idle? && Serves(env, m, chapters) && i <= |chapters|
    ensures Run(m, env.limits, steps) && After(m, env.limits, steps) == Before(m, env.limits, chapters, i)
    ensures Before(m, env.limits, chapters, i).pc.Idle?
    decreases i
  {
    if i == 0 {
      steps := [];
    } else {
      steps := ServiceIsRun(env, m, chapters, i - 1);
      ChapterIsRun(env, m, chapters, i - 1);
      RunConcat(m, env.limits, steps, chapters[i - 1].steps);
      steps := steps + chapters[i - 1].steps;
    }
  }

  lemma {:induction false} RunEnables(m: Machine, limits: Limits, steps: seq<Step>, k: nat)
    requires Run(m, limits, steps) && k < |steps|
    ensures Enabled(After(m, limits, steps[..k]), limits, steps[k])
    ensures After(m, limits, steps[..k + 1]) == Apply(After(m, limits, steps[..k]), limits, steps[k])
    decreases k
  {
    if k > 0 {
      RunEnables(Apply(m, limits, steps[0]), limits, steps[1..], k - 1);
      assert steps[..k][1..] == steps[1..][..k - 1];
      assert steps[..k + 1][1..] == steps[1..][..k];
    } else {
      assert steps[..1][1..] == [];
    }
  }

  /** A plan in flight: its attempt is recorded, and saved before the resume; an automatic one has
      no blocking mark. */
  ghost predicate InFlight(m: Machine) {
    m.pc.Recorded? || m.pc.Saved? ==>
      && LatestAttempt(m.mem, m.pc.plan.target) == Some(m.now)
      && (m.pc.plan.automatic ==> !Blocks(m.mem, m.pc.plan.failure.Key()))
      && (m.pc.Saved? ==> m.disk == m.mem)
  }

  /** A plan in flight was recorded in the same activity. */
  lemma {:induction false} PlanHasGrounds(env: Env, a: Activity, m: Machine, steps: seq<Step>, k: nat)
    requires Run(m, env.limits, steps) && k <= |steps| && m.pc.Idle?
    requires forall j :: 0 <= j < |steps| ==> Grounded(env, a, steps[j])
    ensures var n := After(m, env.limits, steps[..k]);
            InFlight(n) && (!n.pc.Idle? ==> Grounded(env, a, Record(n.pc.plan)))
    decreases k
  {
    if k == 0 {
      assert steps[..0] == [];
    } else {
      PlanHasGrounds(env, a, m, steps, k - 1);
      RunEnables(m, env.limits, steps, k - 1);
      assert Grounded(env, a, steps[k - 1]);
      StepKeepsFlight(After(m, env.limits, steps[..k - 1]), env.limits, steps[k - 1]);
    }
  }

  lemma StepKeepsFlight(m: Machine, limits: Limits, step: Step)
    requires Enabled(m, limits, step) && InFlight(m)
    ensures var n := Apply(m, limits, step);
            InFlight(n) && (!n.pc.Idle? ==> step == Record(n.pc.plan) || (!m.pc.Idle? && m.pc.plan == n.pc.plan))
  {
    if step.Settle? {
      SettledFrame(m, m.pc.plan, m.pc.result);
    }
  }

  lemma EpisodeHasGrounds(env: Env, m: Machine, e: Episode, k: nat)
    requires Possible(m, e.activity) && k < |EpisodeSteps(env, m, e)|
    ensures Grounded(env, e.activity, EpisodeSteps(env, m, e)[k])
  {
    if k < |StepsOf(env, m, e.activity)| {
      if e.activity.Round? {
        RoundHasGrounds(env, m, e.activity, k);
      } else {
        ManualHasGrounds(env, m, e.activity, k);
      }
    }
  }

  /** In every episode of a service run, attempts are cleared only for a target whose latest turn was
      healthy, while nothing is pending for it. */
  lemma ClearsOnlyHealthy(env: Env, m: Machine, e: Episode, k: nat)
    requires Fits(env) && m.pc.Idle? && Possible(m, e.activity)
    requires k < |EpisodeSteps(env, m, e)| && EpisodeSteps(env, m, e)[k].Healthy?
    ensures var steps := EpisodeSteps(env, m, e);
            && Grounded(env, e.activity, steps[k])
            && !HasPendingFor(After(m, env.limits, steps[..k]).mem, steps[k].provider, steps[k].sessionId)
  {
    EpisodeIsRun(env, m, e);
    EpisodeHasGrounds(env, m, e, k);
    RunEnables(m, env.limits, EpisodeSteps(env, m, e), k);
  }

  /** In every episode of a service run, a resume goes out only for a plan that the activity's answers
      are the ground for (every permit check passed, and for the loop the failed turn was unchanged
      on a second look), with its attempt in the file and, for the loop, without a blocking mark. */
  lemma ResumesOnlyWhenRechecked(env: Env, m: Machine, e: Episode, k: nat)
    requires Fits(env) && m.pc.Idle? && Possible(m, e.activity)
    requires k < |EpisodeSteps(env, m, e)| && EpisodeSteps(env, m, e)[k].Resume?
    ensures var now := After(m, env.limits, EpisodeSteps(env, m, e)[..k]);
            && now.pc.Saved? && Grounded(env, e.activity, Record(now.pc.plan))
            && (now.pc.plan.automatic ==> !Blocks(now.mem, now.pc.plan.failure.Key()))
            && now.now in AttemptsOf(now.disk, now.pc.plan.target)
  {
    var steps := EpisodeSteps(env, m, e);
    EpisodeIsRun(env, m, e);
    forall j: nat | j < |steps| ensures Grounded(env, e.activity, steps[j]) {
      EpisodeHasGrounds(env, m, e, j);
    }
    PlanHasGrounds(env, e.activity, m, steps, k);
    RunEnables(m, env.limits, steps, k);
  }

  /** What every clearing and every resume of an episode rests on. */
  ghost predicate RestsOnAnswers(env: Env, m: Machine, e: Episode) {
    forall k: nat :: k < |EpisodeSteps(env, m, e)| ==>
      Justified(env, e.activity, After(m, env.limits, EpisodeSteps(env, m, e)[..k]), EpisodeSteps(env, m, e)[k])
  }

  ghost predicate Justified(env: Env, a: Activity, now: Machine, step: Step) {
    match step
    case Healthy(provider, sessionId) => Grounded(env, a, step) && !HasPendingFor(now.mem, provider, sessionId)
    case Resume(_) =>
      && now.pc.Saved? && Grounded(env, a, Record(now.pc.plan))
      && (now.pc.plan.automatic ==> !Blocks(now.mem, now.pc.plan.failure.Key()))
      && now.now in AttemptsOf(now.disk, now.pc.plan.target)
    case _ => true
  }

  lemma EpisodeRestsOnAnswers(env: Env, m: Machine, e: Episode)
    requires Fits(env) && m.pc.Idle? && Possible(m, e.activity)
    ensures RestsOnAnswers(env, m, e)
  {
    var steps := EpisodeSteps(env, m, e);
    forall k: nat | k < |steps| ensures Justified(env, e.activity, After(m, env.limits, steps[..k]), steps[k]) {
      if steps[k].Healthy? {
        ClearsOnlyHealthy(env, m, e, k);
      } else if steps[k].Resume? {
        ResumesOnlyWhenRechecked(env, m, e, k);
      }
    }
  }

  /** Over every service run with crashes anywhere, each clearing and each resume rests on what the
      surroundings answered in its own activity. */
  lemma ServiceRestsOnAnswers(env: Env, m: Machine, chapters: seq<Chapter>, i: nat)
    requires Fits(env) && m.pc.Idle? && Serves(env, m, chapters) && i < |chapters|
    ensures RestsOnAnswers(env, Before(m, env.limits, chapters, i), chapters[i].episode)
  {
    var reach := ServiceIsRun(env, m, chapters, i);
    assert Happens(env, m, chapters, i);
    EpisodeRestsOnAnswers(env, Before(m, env.limits, chapters, i), chapters[i].episode);
  }

  /** The engine's surroundings under some settings. */
  function Configured(settings: Settings, loaded: set<string>, dryRun: bool): Env {
    Env(c => Policy(settings, c), loaded, dryRun, Limits(settings.attemptWindow, AttemptLimit(settings)))
  }

  /** Valid settings fit: every condition resolves within their largest attempt limit. */
  lemma ConfiguredFits(settings: Settings, env: Env)
    requires Validate(settings) && env == Configured(settings, env.loaded, env.dryRun)
    ensures Fits(env) && env.limits.windowSeconds == settings.attemptWindow > 0
    ensures env.limits.maxAttempts == AttemptLimit(settings)
  {
    forall c ensures env.policy(c).maxAttempts <= env.limits.maxAttempts {
      LargestLimitCovers(settings, c);
    }
  }

  /** Whatever the provider answers, whatever fails to save and wherever the service crashes: no
      target is resumed, by polls and manual retries together, more often within one attempt window
      since its last clear than the largest attempt limit. */
  lemma ServiceStaysInBudget(env: Env, m: Machine, chapters: seq<Chapter>, i: nat, after: Machine, key: string,
                             from: Time)
    requires Fits(env) && 0 < env.limits.windowSeconds && Seconds(env.limits.windowSeconds) <= HISTORY
    requires Starts(m) && Serves(env, m, chapters) && i <= |chapters| && after == Before(m, env.limits, chapters, i)
    ensures CountIn(SentTo(after, key), from, from + Seconds(env.limits.windowSeconds)) <= env.limits.maxAttempts
  {
    var steps := ServiceIsRun(env, m, chapters, i);
    BudgetAt(m, env.limits, steps, after, key, from);
  }
}
