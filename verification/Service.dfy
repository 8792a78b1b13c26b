/** The engine inside the service: the permit answers that a poll or a manual retry gets are those of
    the interleaved protocol, so each resume is authorized and within budget at once. */
module Service {
  import opened Prelude
  import opened Models
  import opened RuntimeStates
  import opened Recovery
  import opened Engine
  import opened Episodes
  import C = Config
  import P = Protocol
  import W = Watchlist

  /** After this run of the protocol the task, holding the boundary for the key, is allowed to send. */
  ghost predicate Allowed(start: P.State, run: P.Steps, t: P.Tid, settings: C.Settings, revision: nat, key: string) {
    && P.Run(start, run)
    && var s := P.After(start, run);
       && t in s.tasks && s.tasks[t].Sender? && s.tasks[t].spc == P.Guarded(key)
       && s.tasks[t].job.settings == settings && s.tasks[t].job.revision == revision
       && s.permit.Allows(key, revision)
  }

  /** Every permission an activity was given inside the boundary comes from the permit, at a moment
      of some run in which its task asked for that target. */
  ghost predicate Permitted(start: P.State, t: P.Tid, settings: C.Settings, revision: nat, a: Activity) {
    match a
    case Round(_, _, _, targets, polls, _) =>
      forall i: nat :: i < |targets| == |polls| && polls[i].allowedInBoundary ==>
        exists run :: Allowed(start, run, t, settings, revision, targets[i].Key())
    case Manual(_, target, poll) =>
      poll.allowedInBoundary ==> exists run :: Allowed(start, run, t, settings, revision, target.Key())
  }

  /** At that moment the plan's target is watched, and the settings in force are these. */
  ghost predicate InForce(start: P.State, run: P.Steps, settings: C.Settings, target: string) {
    && P.Run(start, run)
    && target in W.Keys(P.After(start, run).doc) && P.After(start, run).settings == settings
  }

  lemma PermissionIsInForce(start: P.State, run: P.Steps, t: P.Tid, settings: C.Settings, revision: nat, target: string)
    requires P.Initial(start) && Allowed(start, run, t, settings, revision, target)
    ensures InForce(start, run, settings, target)
  {
    P.SendsAreAuthorized(start, run, t);
  }

  /** An engine configured with some settings plans with the policy these settings give the condition. */
  lemma PlannedPolicy(settings: C.Settings, env: Env, a: Activity, plan: Plan)
    requires env == Configured(settings, env.loaded, env.dryRun) && Grounded(env, a, Record(plan))
    ensures plan.policy == C.Policy(settings, plan.failure.condition)
  {
  }

  lemma PlanIsPermitted(start: P.State, t: P.Tid, settings: C.Settings, revision: nat, env: Env, a: Activity,
                        plan: Plan)
    returns (run: P.Steps)
    requires P.Initial(start) && Permitted(start, t, settings, revision, a) && Grounded(env, a, Record(plan))
    ensures Allowed(start, run, t, settings, revision, plan.target) && InForce(start, run, settings, plan.target)
  {
    if a.Round? {
      var i: nat :| i < |a.targets| == |a.polls| && Grounds(env, a.targets[i], a.polls[i], Record(plan));
      run :| Allowed(start, run, t, settings, revision, a.targets[i].Key());
    } else {
      run :| Allowed(start, run, t, settings, revision, a.target.Key());
    }
    PermissionIsInForce(start, run, t, settings, revision, plan.target);
  }

  /** The step from one state of the machine to the other is a resume, one of these steps. */
  ghost predicate ResumesAt(m: Machine, limits: Limits, steps: seq<Step>, k: nat, now: Machine, after: Machine) {
    && k < |steps| && steps[k].Resume?
    && now == After(m, limits, steps[..k]) && after == After(m, limits, steps[..k + 1])
  }

  lemma ResumeIsReached(env: Env, m: Machine, e: Episode, k: nat, now: Machine,
                        after: Machine) returns (more: seq<Step>)
    requires Fits(env) && m.pc.Idle? && Possible(m, e.activity)
    requires ResumesAt(m, env.limits, EpisodeSteps(env, m, e), k, now, after)
    ensures Run(m, env.limits, more) && After(m, env.limits, more) == after
  {
    var steps := EpisodeSteps(env, m, e);
    EpisodeIsRun(env, m, e);
    RunPrefix(m, env.limits, steps, k + 1);
    more := steps[..k + 1];
  }

  lemma BudgetBeyond(m: Machine, limits: Limits, reach: seq<Step>, before: Machine, more: seq<Step>, after: Machine,
                     key: string, from: Time)
    requires Starts(m) && Run(m, limits, reach) && After(m, limits, reach) == before
    requires Run(before, limits, more) && After(before, limits, more) == after
    requires 0 < limits.windowSeconds && Seconds(limits.windowSeconds) <= HISTORY
    ensures CountIn(SentTo(after, key), from, from + Seconds(limits.windowSeconds)) <= limits.maxAttempts
  {
    RunConcat(m, limits, reach, more);
    BudgetAt(m, limits, reach + more, after, key, from);
  }

  lemma ResumeIsAuthorized(start: P.State, t: P.Tid, settings: C.Settings, revision: nat,
                           env: Env, before: Machine, e: Episode, k: nat, now: Machine, after: Machine)
    returns (run: P.Steps)
    requires Fits(env) && before.pc.Idle? && Possible(before, e.activity)
    requires ResumesAt(before, env.limits, EpisodeSteps(env, before, e), k, now, after)
    requires P.Initial(start) && Permitted(start, t, settings, revision, e.activity)
    ensures now.pc.Saved? && Grounded(env, e.activity, Record(now.pc.plan))
    ensures Allowed(start, run, t, settings, revision, now.pc.plan.target)
    ensures InForce(start, run, settings, now.pc.plan.target)
  {
    ResumesOnlyWhenRechecked(env, before, e, k);
    run := PlanIsPermitted(start, t, settings, revision, env, e.activity, now.pc.plan);
  }

  lemma ResumeIsInBudget(env: Env, m: Machine, reach: seq<Step>, before: Machine, e: Episode, k: nat,
                         now: Machine, after: Machine, key: string, from: Time)
    requires Fits(env) && 0 < env.limits.windowSeconds && Seconds(env.limits.windowSeconds) <= HISTORY
    requires Starts(m) && Run(m, env.limits, reach) && After(m, env.limits, reach) == before && before.pc.Idle?
    requires Possible(before, e.activity) && ResumesAt(before, env.limits, EpisodeSteps(env, before, e), k, now, after)
    ensures CountIn(SentTo(after, key), from, from + Seconds(env.limits.windowSeconds)) <= env.limits.maxAttempts
  {
    var more := ResumeIsReached(env, before, e, k, now, after);
    BudgetBeyond(m, env.limits, reach, before, more, after, key, from);
  }

  lemma ResumeIsAuthorizedAndInBudget(start: P.State, t: P.Tid, settings: C.Settings, revision: nat,
                                      env: Env, m: Machine, reach: seq<Step>, before: Machine,
                                      e: Episode, k: nat, now: Machine, after: Machine, from: Time)
    returns (run: P.Steps)
    requires Fits(env) && 0 < env.limits.windowSeconds && Seconds(env.limits.windowSeconds) <= HISTORY
    requires Starts(m) && Run(m, env.limits, reach) && After(m, env.limits, reach) == before && before.pc.Idle?
    requires Possible(before, e.activity) && ResumesAt(before, env.limits, EpisodeSteps(env, before, e), k, now, after)
    requires P.Initial(start) && Permitted(start, t, settings, revision, e.activity)
    ensures now.pc.Saved? && Grounded(env, e.activity, Record(now.pc.plan))
    ensures Allowed(start, run, t, settings, revision, now.pc.plan.target)
    ensures InForce(start, run, settings, now.pc.plan.target)
    ensures CountIn(SentTo(after, now.pc.plan.target), from, from + Seconds(env.limits.windowSeconds))
              <= env.limits.maxAttempts
  {
    run := ResumeIsAuthorized(start, t, settings, revision, env, before, e, k, now, after);
    ResumeIsInBudget(env, m, reach, before, e, k, now, after, now.pc.plan.target, from);
  }

  lemma ServedResumeIsAuthorized(start: P.State, t: P.Tid, settings: C.Settings, revision: nat,
                                 env: Env, m: Machine, chapters: seq<Chapter>, i: nat, before: Machine,
                                 k: nat, now: Machine, after: Machine, from: Time)
    returns (run: P.Steps)
    requires Fits(env) && 0 < env.limits.windowSeconds && Seconds(env.limits.windowSeconds) <= HISTORY
    requires Starts(m) && Serves(env, m, chapters) && i < |chapters| && before == Before(m, env.limits, chapters, i)
    requires ResumesAt(before, env.limits, chapters[i].steps, k, now, after)
    requires P.Initial(start) && Permitted(start, t, settings, revision, chapters[i].episode.activity)
    ensures now.pc.Saved? && Grounded(env, chapters[i].episode.activity, Record(now.pc.plan))
    ensures Allowed(start, run, t, settings, revision, now.pc.plan.target)
    ensures InForce(start, run, settings, now.pc.plan.target)
    ensures CountIn(SentTo(after, now.pc.plan.target), from, from + Seconds(env.limits.windowSeconds))
              <= env.limits.maxAttempts
  {
    var reach := ServiceIsRun(env, m, chapters, i);
    assert Happens(env, m, chapters, i);
    run := ResumeIsAuthorizedAndInBudget(start, t, settings, revision, env, m, reach, before, chapters[i].episode,
                                  k, now, after, from);
  }

  /** Over every service run with crashes anywhere, each resume goes out for a target that was
      watched, under the policy that was in force, when its task was allowed to send; and with it the
      resumes of that target in any attempt window are at most the largest attempt limit. */
  lemma ResumesAreAuthorizedAndInBudget(start: P.State, t: P.Tid, settings: C.Settings, revision: nat,
                                        env: Env, m: Machine, chapters: seq<Chapter>, i: nat, before: Machine,
                                        k: nat, now: Machine, after: Machine, from: Time)
    returns (run: P.Steps)
    requires env == Configured(settings, env.loaded, env.dryRun)
    requires Fits(env) && 0 < env.limits.windowSeconds && Seconds(env.limits.windowSeconds) <= HISTORY
    requires Starts(m) && Serves(env, m, chapters) && i < |chapters| && before == Before(m, env.limits, chapters, i)
    requires ResumesAt(before, env.limits, chapters[i].steps, k, now, after)
    requires P.Initial(start) && Permitted(start, t, settings, revision, chapters[i].episode.activity)
    ensures now.pc.Saved?
    ensures Allowed(start, run, t, settings, revision, now.pc.plan.target)
    ensures InForce(start, run, settings, now.pc.plan.target)
    ensures now.pc.plan.policy == C.Policy(P.After(start, run).settings, now.pc.plan.failure.condition)
    ensures CountIn(SentTo(after, now.pc.plan.target), from, from + Seconds(env.limits.windowSeconds))
              <= env.limits.maxAttempts
  {
    run := ServedResumeIsAuthorized(start, t, settings, revision, env, m, chapters, i, before, k, now, after, from);
    PlannedPolicy(settings, env, chapters[i].episode.activity, now.pc.plan);
  }
}
