/** When the engine resumes a failure again: exactly which failures its loop can resume from a state
    between activities, as after a crash (src/engine.rs over src/state.rs). */
module Repeats {
  import opened Prelude
  import opened Models
  import opened Conditions
  import opened Config
  import opened Backoff
  import opened RuntimeStates
  import opened Recovery
  import opened Engine
  import opened Episodes

  // ---------------------------------------------------------------- what is asked

  function TargetKey(failure: Failure): string { failure.provider + ":" + failure.sessionId }

  function PolicyFor(env: Env, failure: Failure): ResolvedPolicy { env.policy(failure.condition) }

  function PlanFor(env: Env, failure: Failure): Plan {
    Plan(TargetKey(failure), failure, PolicyFor(env, failure), true)
  }

  /** The wait before a first attempt. */
  function FirstDelay(env: Env, failure: Failure): int {
    Seconds(Min(RetryDelay(PolicyFor(env, failure), 0, failure.retryAfterSeconds), I64_MAX))
  }

  /** The loop is set up to retry such a failure: its provider is loaded, it is no dry run, the policy
      retries at least once, and the first sighting is still remembered when the first delay is over. */
  predicate Retried(env: Env, failure: Failure) {
    && failure.provider in env.loaded && !env.dryRun
    && PolicyFor(env, failure).action == Retry && PolicyFor(env, failure).maxAttempts >= 1
    && FirstDelay(env, failure) <= HISTORY
  }

  /** Whenever the failure is reported, it is this one, for its own session. */
  ghost predicate Steady(a: Activity, failure: Failure) {
    a.Round? ==> forall i: nat :: i < |a.targets| == |a.polls| ==> SteadyAnswer(a.targets[i], a.polls[i], failure)
  }

  predicate SteadyAnswer(target: WatchTarget, poll: Poll, failure: Failure) {
    poll.latest.FailedTurn? && poll.latest.failure.Key() == failure.Key() ==>
      poll.latest.failure == failure && target.provider == failure.provider && target.sessionId == failure.sessionId
  }

  /** A service run without a crash in which the failure is reported steadily. */
  ghost predicate Undisturbed(env: Env, m: Machine, chapters: seq<Chapter>, failure: Failure) {
    && Serves(env, m, chapters)
    && forall i: nat :: i < |chapters| ==> Calm(chapters[i].episode, failure)
  }

  ghost predicate Calm(e: Episode, failure: Failure) { e.crashAfter.None? && Steady(e.activity, failure) }

  /** In some such run the loop resumes the failure by the deadline. */
  ghost predicate LoopResumes(env: Env, m: Machine, failure: Failure, deadline: Time) {
    exists chapters :: Undisturbed(env, m, chapters, failure)
      && ResumedBy(Before(m, env.limits, chapters, |chapters|).sends, |m.sends|, failure.Key(), deadline)
  }

  // ---------------------------------------------------------------- rounds that resume

  lemma {:induction false} Enumerate(keys: set<string>) returns (order: seq<string>)
    ensures Distinct(order) && Elements(order) == keys
    decreases keys
  {
    if keys == {} {
      order := [];
    } else {
      var k :| k in keys;
      var rest := Enumerate(keys - {k});
      order := rest + [k];
      assert forall i :: 0 <= i < |rest| ==> rest[i] in Elements(rest);
      assert forall x :: x in Elements(order) <==> x in Elements(rest) || x == k;
    }
  }

  /** A pass over providers that are not loaded changes nothing. */
  lemma {:induction false} UnloadedPass(d: Doc, order: seq<string>, ask: Answers, now: Time)
    requires forall k :: ask(k).0 == Unloaded
    ensures Pass(d, order, ask, now) == d
    decreases |order|
  {
    if order != [] {
      UnloadedPass(d, order[..|order| - 1], ask, now);
    }
  }

  function Watch(failure: Failure): WatchTarget {
    WatchTarget(Automatic, failure.provider, failure.sessionId, None, None, 0, None)
  }

  /** The surroundings report the failure, and allow the resume or not. */
  function Answer(failure: Failure, allow: bool): Poll {
    Poll(true, FailedTurn(failure), allow, FailedTurn(failure), true, true, true, Started("again"), true)
  }

  function OneRound(at: Time, order: seq<string>, failure: Failure, allow: bool): Activity {
    Round(at, order, _ => Unloaded, [Watch(failure)], [Answer(failure, allow)], true)
  }

  /** What the engine knows when it decides about the failure at some time. */
  function NotedAt(env: Env, d: Doc, failure: Failure, at: Time): Doc {
    Trimmed(Seen(Pruned(d, at), failure.Key(), at), TargetKey(failure), at, env.limits.windowSeconds)
  }

  /** The attempt is due: attempts are left, and the delay is over. */
  predicate Due(env: Env, d: Doc, failure: Failure, at: Time) {
    && |AttemptsOf(NotedAt(env, d, failure, at), TargetKey(failure))| < PolicyFor(env, failure).maxAttempts
    && ReadyAt(NotedAt(env, d, failure, at), PlanFor(env, failure), at) <= at
  }

  lemma Opened(env: Env, m: Machine, at: Time, order: seq<string>, ask: Answers)
    requires m.pc.Idle? && m.now <= at && Distinct(order) && Elements(order) == m.mem.pending.Keys
    requires forall k :: ask(k).0 == Unloaded
    ensures var start := StartSteps(at, order, ask);
            var n := After(m, env.limits, start);
            Run(m, env.limits, start) && n == m.(now := at, mem := Pruned(m.mem, at), tally := n.tally)
  {
    OpenedIsLegal(env, m, at, order, ask);
    PrunedRun(env, m, at, order, ask);
    var n := After(m, env.limits, OneStep(Enter(at)) + OneStep(Prune));
    ObserveIsLegal(env, n, order, ask);
    UnloadedPass(Pruned(m.mem, at), order, ask, at);
  }

  /** One target's visit, and the save at the end. */
  lemma OneTarget(env: Env, n: Machine, target: WatchTarget, poll: Poll)
    requires Fits(env) && n.pc.Idle? && TargetTurn(env, n, target, poll).ok
    ensures var visit := TargetTurn(env, n, target, poll).steps;
            && VisitSteps(LoopTurn(env, n, [target], [poll]), true) == visit + OneStep(Save(true))
            && After(n, env.limits, visit).pc.Idle?
            && After(n, env.limits, visit + OneStep(Save(true))) == Apply(After(n, env.limits, visit), env.limits,
                                                                          Save(true))
  {
    var visit := TargetTurn(env, n, target, poll);
    TargetIsLegal(env, n, target, poll);
    var rest := LoopTurn(env, After(n, env.limits, visit.steps), [target][1..], [poll][1..]);
    assert rest == Quiet([]);
    assert visit.steps + [] == visit.steps;
    RunThen(n, env.limits, visit.steps, Save(true));
  }

  /** The failure is noted, whatever is decided about it then. */
  lemma VisitNotes(env: Env, n: Machine, failure: Failure, allow: bool)
    requires Fits(env) && n.pc.Idle? && failure.provider in env.loaded && PolicyFor(env, failure).action == Retry
    requires !Blocks(n.mem, failure.Key())
    ensures var noted := NotedSteps(failure, TargetKey(failure));
            var noting := After(n, env.limits, noted);
            var visit := TargetTurn(env, n, Watch(failure), Answer(failure, allow));
            && noting.pc.Idle?
            && noting == n.(mem := Trimmed(Seen(n.mem, failure.Key(), n.now), TargetKey(failure), n.now,
                                           env.limits.windowSeconds))
            && visit == Then(noted, RetryTurn(env, noting, PlanFor(env, failure), Answer(failure, allow)))
  {
    NotedIsLegal(env, n, failure, TargetKey(failure));
  }

  lemma DeniedVisit(env: Env, n: Machine, failure: Failure)
    requires Fits(env) && n.pc.Idle? && failure.provider in env.loaded && PolicyFor(env, failure).action == Retry
    requires !Blocks(n.mem, failure.Key())
    ensures var visit := TargetTurn(env, n, Watch(failure), Answer(failure, false));
            visit.ok && visit.steps == NotedSteps(failure, TargetKey(failure))
  {
    VisitNotes(env, n, failure, false);
    var noted := NotedSteps(failure, TargetKey(failure));
    assert noted + [] == noted;
  }

  /** The machine after a round of one target: it is opened by pruning, and the rest depends on that. */
  lemma RoundOpens(env: Env, m: Machine, at: Time, order: seq<string>, failure: Failure, allow: bool)
    returns (n: Machine)
    requires Fits(env) && m.pc.Idle? && m.now <= at && Distinct(order) && Elements(order) == m.mem.pending.Keys
    ensures n == m.(now := at, mem := Pruned(m.mem, at), tally := n.tally)
    ensures After(m, env.limits, StepsOf(env, m, OneRound(at, order, failure, allow))) == AfterVisit(env, n, failure,
                                                                                                     allow)
  {
    var a := OneRound(at, order, failure, allow);
    var ask := Ask(a.targets, Pruned(m.mem, at).pending, a.seen);
    Opened(env, m, at, order, ask);
    PollIsRun(env, m, at, order, ask, a.targets, a.polls, true);
    n := After(m, env.limits, StartSteps(at, order, ask));
  }

  function AfterVisit(env: Env, n: Machine, failure: Failure, allow: bool): Machine {
    After(n, env.limits, VisitSteps(LoopTurn(env, n, [Watch(failure)], [Answer(failure, allow)]), true))
  }

  lemma AfterDenied(env: Env, n: Machine, failure: Failure)
    requires Fits(env) && n.pc.Idle? && failure.provider in env.loaded && PolicyFor(env, failure).action == Retry
    requires !Blocks(n.mem, failure.Key())
    ensures var d := Trimmed(Seen(n.mem, failure.Key(), n.now), TargetKey(failure), n.now, env.limits.windowSeconds);
            AfterVisit(env, n, failure, false) == n.(mem := d, disk := d)
  {
    DeniedVisit(env, n, failure);
    NotedIsLegal(env, n, failure, TargetKey(failure));
    OneTarget(env, n, Watch(failure), Answer(failure, false));
  }

  /** A round that is not allowed to resume notes the failure, and saves that. */
  lemma DeniedRound(env: Env, m: Machine, at: Time, order: seq<string>, failure: Failure)
    requires Fits(env) && m.pc.Idle? && m.now <= at && Distinct(order) && Elements(order) == m.mem.pending.Keys
    requires failure.provider in env.loaded && PolicyFor(env, failure).action == Retry
    requires !Blocks(m.mem, failure.Key())
    ensures var n := After(m, env.limits, StepsOf(env, m, OneRound(at, order, failure, false)));
            n == m.(now := at, mem := NotedAt(env, m.mem, failure, at), disk := NotedAt(env, m.mem, failure, at),
                    tally := n.tally)
  {
    var n := RoundOpens(env, m, at, order, failure, false);
    AfterDenied(env, n, failure);
  }

  predicate DueNow(env: Env, n: Machine, failure: Failure) {
    var d := Trimmed(Seen(n.mem, failure.Key(), n.now), TargetKey(failure), n.now, env.limits.windowSeconds);
    && |AttemptsOf(d, TargetKey(failure))| < PolicyFor(env, failure).maxAttempts
    && ReadyAt(d, PlanFor(env, failure), n.now) <= n.now
  }

  lemma AllowedVisit(env: Env, n: Machine, failure: Failure)
    requires Fits(env) && n.pc.Idle? && Retried(env, failure) && !Blocks(n.mem, failure.Key())
    requires DueNow(env, n, failure)
    ensures var visit := TargetTurn(env, n, Watch(failure), Answer(failure, true));
            && visit.ok
            && visit.steps == NotedSteps(failure, TargetKey(failure))
                              + SendTurn(PlanFor(env, failure), Answer(failure, true)).steps
  {
    VisitNotes(env, n, failure, true);
  }

  lemma AllowedSend(env: Env, n: Machine, failure: Failure)
    requires Fits(env) && n.pc.Idle? && Retried(env, failure) && !Blocks(n.mem, failure.Key())
    requires DueNow(env, n, failure)
    ensures var steps := NotedSteps(failure, TargetKey(failure))
                         + SendTurn(PlanFor(env, failure), Answer(failure, true)).steps;
            && After(n, env.limits, steps).pc.Idle?
            && After(n, env.limits, steps).sends
               == n.sends + [Send(TargetKey(failure), failure.Key(), n.now, true, Started("again"))]
  {
    var plan, poll, noted := PlanFor(env, failure), Answer(failure, true), NotedSteps(failure, TargetKey(failure));
    NotedIsLegal(env, n, failure, TargetKey(failure));
    SendIsLegal(env, After(n, env.limits, noted), plan, poll);
    RunConcat(n, env.limits, noted, SendTurn(plan, poll).steps);
  }

  lemma AfterAllowed(env: Env, n: Machine, failure: Failure)
    requires Fits(env) && n.pc.Idle? && Retried(env, failure) && !Blocks(n.mem, failure.Key())
    requires DueNow(env, n, failure)
    ensures AfterVisit(env, n, failure, true).sends
         == n.sends + [Send(TargetKey(failure), failure.Key(), n.now, true, Started("again"))]
  {
    AllowedVisit(env, n, failure);
    AllowedSend(env, n, failure);
    OneTarget(env, n, Watch(failure), Answer(failure, true));
  }

  /** A poll in which nothing stands in the way resumes a failure that is due. */
  lemma AllowedRound(env: Env, m: Machine, at: Time, order: seq<string>, failure: Failure)
    requires Fits(env) && m.pc.Idle? && m.now <= at && Distinct(order) && Elements(order) == m.mem.pending.Keys
    requires Retried(env, failure) && !Blocks(m.mem, failure.Key()) && Due(env, m.mem, failure, at)
    ensures After(m, env.limits, StepsOf(env, m, OneRound(at, order, failure, true))).sends
         == m.sends + [Send(TargetKey(failure), failure.Key(), at, true, Started("again"))]
  {
    var n := RoundOpens(env, m, at, order, failure, true);
    AfterAllowed(env, n, failure);
  }

  // ---------------------------------------------------------------- an unmarked failure is resumed

  /** A time by which the window is empty again and the first delay after that is over. */
  function Unhurried(env: Env, m: Machine, failure: Failure): Time {
    var seen := if failure.Key() in m.mem.observed then m.mem.observed[failure.Key()] else m.now;
    Max(EmptyAgain(env, m), seen) + FirstDelay(env, failure)
  }

  function EmptyAgain(env: Env, m: Machine): Time { m.now + Seconds(env.limits.windowSeconds) + 1 }

  ghost predicate NoneAfter(times: seq<Time>, now: Time) { forall i :: 0 <= i < |times| ==> times[i] <= now }

  lemma {:induction false} RecentStaysOld(times: seq<Time>, cutoff: Time, now: Time)
    requires NoneAfter(times, now)
    ensures NoneAfter(Recent(times, cutoff), now)
  {
    if times != [] {
      RecentStaysOld(times[..|times| - 1], cutoff, now);
    }
  }

  lemma NotedAttempts(env: Env, d: Doc, failure: Failure, at: Time)
    ensures AttemptsOf(NotedAt(env, d, failure, at), TargetKey(failure))
         == Recent(Recent(AttemptsOf(d, TargetKey(failure)), at - HISTORY), at - Seconds(env.limits.windowSeconds))
  {
    PrunedAttempts(d, at, TargetKey(failure));
  }

  lemma OldIsDropped(times: seq<Time>, cutoff: Time, now: Time, later: Time)
    requires NoneAfter(times, now) && now < later
    ensures Recent(Recent(times, cutoff), later) == []
  {
    RecentStaysOld(times, cutoff, now);
    RecentOfOld(Recent(times, cutoff), later);
  }

  lemma NoAttemptsAfterWindow(env: Env, m: Machine, failure: Failure)
    requires 0 < env.limits.windowSeconds && NoneAfter(AttemptsOf(m.mem, TargetKey(failure)), m.now)
    ensures AttemptsOf(NotedAt(env, m.mem, failure, EmptyAgain(env, m)), TargetKey(failure)) == []
  {
    var at := EmptyAgain(env, m);
    NotedAttempts(env, m.mem, failure, at);
    OldIsDropped(AttemptsOf(m.mem, TargetKey(failure)), at - HISTORY, m.now, at - Seconds(env.limits.windowSeconds));
  }

  /** The failure has been seen within the time that is remembered, and not later than can be waited for. */
  lemma SeenAfterWindow(env: Env, m: Machine, failure: Failure)
    requires 0 < env.limits.windowSeconds
    ensures var a := EmptyAgain(env, m);
            var d := NotedAt(env, m.mem, failure, a);
            && failure.Key() in d.observed && a - HISTORY <= d.observed[failure.Key()]
            && d.observed[failure.Key()] + FirstDelay(env, failure) <= Unhurried(env, m, failure)
            && a + FirstDelay(env, failure) <= Unhurried(env, m, failure)
  {
  }

  /** Without attempts, a failure whose first delay is over while its first sighting is remembered is due. */
  lemma DueAfterDelay(env: Env, d: Doc, failure: Failure, at: Time)
    requires AttemptsOf(d, TargetKey(failure)) == [] && failure.Key() in d.observed
    requires PolicyFor(env, failure).maxAttempts >= 1
    requires d.observed[failure.Key()] + FirstDelay(env, failure) <= at <= d.observed[failure.Key()] + HISTORY
    ensures Due(env, d, failure, at)
  {
    PrunedAttempts(d, at, TargetKey(failure));
    assert AttemptsOf(NotedAt(env, d, failure, at), TargetKey(failure)) == [];
  }

  function Told(env: Env, m: Machine, a: Activity): Chapter
    requires a.Round? ==> |a.targets| == |a.polls| && Elements(a.order) <= m.mem.pending.Keys
  {
    Chapter(Episode(a, None), StepsOf(env, m, a))
  }

  lemma TwoChapters(env: Env, m: Machine, a: Activity, n: Machine, b: Activity, failure: Failure)
    requires Possible(m, a) && Steady(a, failure) && n == After(m, env.limits, StepsOf(env, m, a))
    requires Possible(n, b) && Steady(b, failure)
    ensures var chapters := [Told(env, m, a), Told(env, n, b)];
            && Undisturbed(env, m, chapters, failure)
            && Before(m, env.limits, chapters, 2) == After(n, env.limits, StepsOf(env, n, b))
  {
    var chapters := [Told(env, m, a), Told(env, n, b)];
    assert Before(m, env.limits, chapters, 1) == n;
    assert Happens(env, m, chapters, 0);
    assert Happens(env, m, chapters, 1);
  }

  lemma FirstRound(env: Env, m: Machine, failure: Failure, at: Time) returns (a: Activity, n: Machine)
    requires Fits(env) && m.pc.Idle? && m.now <= at && Retried(env, failure) && !Blocks(m.mem, failure.Key())
    ensures Possible(m, a) && Steady(a, failure) && n == After(m, env.limits, StepsOf(env, m, a))
    ensures n.pc.Idle? && n.now == at && n.sends == m.sends && n.mem == NotedAt(env, m.mem, failure, at)
    ensures !Blocks(n.mem, failure.Key())
  {
    var order := Enumerate(m.mem.pending.Keys);
    a := OneRound(at, order, failure, false);
    DeniedRound(env, m, at, order, failure);
    n := After(m, env.limits, StepsOf(env, m, a));
  }

  lemma SecondRound(env: Env, m: Machine, failure: Failure, at: Time) returns (a: Activity)
    requires Fits(env) && m.pc.Idle? && m.now <= at && Retried(env, failure) && !Blocks(m.mem, failure.Key())
    requires Due(env, m.mem, failure, at)
    ensures Possible(m, a) && Steady(a, failure)
    ensures After(m, env.limits, StepsOf(env, m, a)).sends
         == m.sends + [Send(TargetKey(failure), failure.Key(), at, true, Started("again"))]
  {
    var order := Enumerate(m.mem.pending.Keys);
    a := OneRound(at, order, failure, true);
    AllowedRound(env, m, at, order, failure);
  }

  lemma ResumedInTwo(env: Env, m: Machine, a: Activity, n: Machine, b: Activity, failure: Failure, at: Time,
                     deadline: Time)
    requires Possible(m, a) && Steady(a, failure) && n == After(m, env.limits, StepsOf(env, m, a))
    requires Possible(n, b) && Steady(b, failure) && at <= deadline
    requires After(n, env.limits, StepsOf(env, n, b)).sends
          == m.sends + [Send(TargetKey(failure), failure.Key(), at, true, Started("again"))]
    ensures LoopResumes(env, m, failure, deadline)
  {
    TwoChapters(env, m, a, n, b, failure);
    var chapters := [Told(env, m, a), Told(env, n, b)];
    var sends := Before(m, env.limits, chapters, |chapters|).sends;
    assert sends[|m.sends|].failureKey == failure.Key();
    assert ResumedBy(sends, |m.sends|, failure.Key(), deadline);
  }

  /** A failure that is set up to be retried and has no blocking mark is resumed in two polls: one when
      the window is empty, which notes it, and one when the first delay is over. */
  lemma UnmarkedIsResumed(env: Env, m: Machine, failure: Failure, deadline: Time)
    requires Fits(env) && m.pc.Idle? && 0 < env.limits.windowSeconds
    requires NoneAfter(AttemptsOf(m.mem, TargetKey(failure)), m.now)
    requires Retried(env, failure) && !Blocks(m.mem, failure.Key()) && Unhurried(env, m, failure) <= deadline
    ensures LoopResumes(env, m, failure, deadline)
  {
    var at := EmptyAgain(env, m);
    NoAttemptsAfterWindow(env, m, failure);
    SeenAfterWindow(env, m, failure);
    var a, n := FirstRound(env, m, failure, at);
    var later := Max(at, n.mem.observed[failure.Key()] + FirstDelay(env, failure));
    DueAfterDelay(env, n.mem, failure, later);
    var b := SecondRound(env, n, failure, later);
    ResumedInTwo(env, m, a, n, b, failure, later, deadline);
  }

  // ---------------------------------------------------------------- what the steps of an activity are

  predicate Inner(step: Step) { !step.Enter? && !step.Crash? }

  lemma TargetIsInner(env: Env, m: Machine, target: WatchTarget, poll: Poll, k: nat)
    requires k < |TargetTurn(env, m, target, poll).steps|
    ensures Inner(TargetTurn(env, m, target, poll).steps[k])
  {
  }

  lemma {:induction false} LoopIsInner(env: Env, m: Machine, targets: seq<WatchTarget>, polls: seq<Poll>, k: nat)
    requires |targets| == |polls| && k < |LoopTurn(env, m, targets, polls).steps|
    ensures Inner(LoopTurn(env, m, targets, polls).steps[k])
    decreases |targets|
  {
    var first := TargetTurn(env, m, targets[0], polls[0]);
    if k < |first.steps| {
      TargetIsInner(env, m, targets[0], polls[0], k);
    } else {
      LoopIsInner(env, After(m, env.limits, first.steps), targets[1..], polls[1..], k - |first.steps|);
    }
  }

  lemma StartIsInner(now: Time, order: seq<string>, ask: Answers, k: nat)
    requires 0 < k < |StartSteps(now, order, ask)|
    ensures Inner(StartSteps(now, order, ask)[k])
  {
    if k >= 2 {
      ObserveStepsObserve(order, ask, k - 2);
      assert StartSteps(now, order, ask)[k] == ObserveSteps(order, ask)[k - 2];
    }
  }

  lemma VisitIsInner(env: Env, n: Machine, targets: seq<WatchTarget>, polls: seq<Poll>, saves: bool, k: nat)
    requires |targets| == |polls| && k < |VisitSteps(LoopTurn(env, n, targets, polls), saves)|
    ensures Inner(VisitSteps(LoopTurn(env, n, targets, polls), saves)[k])
  {
    if k < |LoopTurn(env, n, targets, polls).steps| {
      LoopIsInner(env, n, targets, polls, k);
    }
  }

  lemma AllInner(start: seq<Step>, visit: seq<Step>)
    requires |start| >= 2 && start[0].Enter? && start[1] == Prune
    requires forall k: nat :: 0 < k < |start| ==> Inner(start[k])
    requires forall k: nat :: k < |visit| ==> Inner(visit[k])
    ensures var steps := start + visit;
            && |steps| >= 2 && steps[0].Enter? && steps[1] == Prune
            && forall k: nat :: 0 < k < |steps| ==> Inner(steps[k])
  {
  }

  lemma StartAndVisitAreInner(env: Env, n: Machine, now: Time, order: seq<string>, ask: Answers,
                              targets: seq<WatchTarget>, polls: seq<Poll>, saves: bool)
    requires |targets| == |polls|
    ensures var steps := StartSteps(now, order, ask) + VisitSteps(LoopTurn(env, n, targets, polls), saves);
            && |steps| >= 2 && steps[0].Enter? && steps[1] == Prune
            && forall k: nat :: 0 < k < |steps| ==> Inner(steps[k])
  {
    var start, visit := StartSteps(now, order, ask), VisitSteps(LoopTurn(env, n, targets, polls), saves);
    forall k: nat | 0 < k < |start| ensures Inner(start[k]) {
      StartIsInner(now, order, ask, k);
    }
    forall k: nat | k < |visit| ensures Inner(visit[k]) {
      VisitIsInner(env, n, targets, polls, saves, k);
    }
    AllInner(start, visit);
  }

  /** A round enters and prunes, and then does neither enter nor crash. */
  lemma RoundIsInner(env: Env, m: Machine, a: Activity, k: nat)
    requires a.Round? && Possible(m, a)
    ensures var steps := StepsOf(env, m, a);
            && |steps| >= 2 && steps[0].Enter? && steps[1] == Prune
            && (0 < k < |steps| ==> Inner(steps[k]))
  {
    var ask := Ask(a.targets, Pruned(m.mem, a.now).pending, a.seen);
    var n := After(m, env.limits, StartSteps(a.now, a.order, ask));
    StartAndVisitAreInner(env, n, a.now, a.order, ask, a.targets, a.polls, a.saves);
  }

  lemma ManualIsInner(env: Env, m: Machine, a: Activity, k: nat)
    requires a.Manual?
    ensures 0 < k < |StepsOf(env, m, a)| ==> Inner(StepsOf(env, m, a)[k])
    ensures |StepsOf(env, m, a)| > 0 && StepsOf(env, m, a)[0].Enter?
  {
  }

  lemma ActivityIsCrashFree(env: Env, m: Machine, a: Activity)
    requires Possible(m, a)
    ensures CrashFree(StepsOf(env, m, a))
  {
    forall k: nat | k < |StepsOf(env, m, a)| ensures !StepsOf(env, m, a)[k].Crash? {
      if a.Round? {
        RoundIsInner(env, m, a, k);
      } else {
        ManualIsInner(env, m, a, k);
      }
    }
  }

  lemma {:induction false} CalmServiceIsCrashFree(env: Env, m: Machine, chapters: seq<Chapter>, failure: Failure,
                                                  i: nat)
    returns (steps: seq<Step>)
    requires Fits(env) && m.pc.Idle? && Undisturbed(env, m, chapters, failure) && i <= |chapters|
    ensures Run(m, env.limits, steps) && After(m, env.limits, steps) == Before(m, env.limits, chapters, i)
    ensures CrashFree(steps) && Before(m, env.limits, chapters, i).pc.Idle?
    decreases i
  {
    if i == 0 {
      steps := [];
    } else {
      steps := CalmServiceIsCrashFree(env, m, chapters, failure, i - 1);
      ChapterIsRun(env, m, chapters, i - 1);
      CalmChapter(env, m, chapters, failure, i - 1);
      RunConcat(m, env.limits, steps, chapters[i - 1].steps);
      CrashFreeConcat(steps, chapters[i - 1].steps);
      steps := steps + chapters[i - 1].steps;
    }
  }

  lemma CrashFreeConcat(a: seq<Step>, b: seq<Step>)
    requires CrashFree(a) && CrashFree(b)
    ensures CrashFree(a + b)
  {
  }

  lemma CalmChapter(env: Env, m: Machine, chapters: seq<Chapter>, failure: Failure, i: nat)
    requires Undisturbed(env, m, chapters, failure) && i < |chapters|
    ensures var before, a := Before(m, env.limits, chapters, i), chapters[i].episode.activity;
            Possible(before, a) && Steady(a, failure) && chapters[i].steps == StepsOf(env, before, a)
    ensures CrashFree(chapters[i].steps)
  {
    assert Happens(env, m, chapters, i);
    assert Calm(chapters[i].episode, failure);
    ActivityIsCrashFree(env, Before(m, env.limits, chapters, i), chapters[i].episode.activity);
  }

  // ---------------------------------------------------------------- other failures are not resumed

  /** Nothing in the document is older than what pruning keeps. */
  ghost predicate Remembered(d: Doc, now: Time) {
    && (forall k :: k in d.observed ==> d.observed[k] >= now - HISTORY)
    && (forall k :: AllSince(AttemptsOf(d, k), now - HISTORY))
  }

  ghost predicate AllSince(times: seq<Time>, cutoff: Time) { forall i :: 0 <= i < |times| ==> times[i] >= cutoff }

  lemma {:induction false} RecentIsSince(times: seq<Time>, cutoff: Time, since: Time)
    requires cutoff >= since || AllSince(times, since)
    ensures AllSince(Recent(times, cutoff), since)
  {
    if times != [] {
      RecentIsSince(times[..|times| - 1], cutoff, since);
    }
  }

  lemma PrunedIsRemembered(d: Doc, now: Time)
    ensures Remembered(Pruned(d, now), now)
  {
    forall k ensures AllSince(AttemptsOf(Pruned(d, now), k), now - HISTORY) {
      PrunedAttempts(d, now, k);
      RecentIsSince(AttemptsOf(d, k), now - HISTORY, now - HISTORY);
    }
  }

  lemma TrimmedIsRemembered(d: Doc, key: string, now: Time, windowSeconds: int)
    requires Remembered(d, now)
    ensures Remembered(Trimmed(d, key, now, windowSeconds), now)
  {
    assert AllSince(AttemptsOf(d, key), now - HISTORY);
    RecentIsSince(AttemptsOf(d, key), now - Seconds(windowSeconds), now - HISTORY);
    forall k ensures AllSince(AttemptsOf(Trimmed(d, key, now, windowSeconds), k), now - HISTORY) {
      assert AllSince(AttemptsOf(d, k), now - HISTORY);
    }
  }

  lemma RecordIsRemembered(d: Doc, key: string, now: Time)
    requires Remembered(d, now)
    ensures Remembered(WithAttempt(d, key, now), now) && Remembered(Cleared(d, key), now)
  {
    forall k ensures AllSince(AttemptsOf(WithAttempt(d, key, now), k), now - HISTORY)
                  && AllSince(AttemptsOf(Cleared(d, key), k), now - HISTORY) {
      assert AllSince(AttemptsOf(d, k), now - HISTORY) && AllSince(AttemptsOf(d, key), now - HISTORY);
    }
  }

  lemma SameIsRemembered(d: Doc, after: Doc, now: Time)
    requires Remembered(d, now) && after.observed == d.observed && after.attempts == d.attempts
    ensures Remembered(after, now)
  {
    forall k ensures AllSince(AttemptsOf(after, k), now - HISTORY) {
      assert AllSince(AttemptsOf(d, k), now - HISTORY);
    }
  }

  lemma SeenIsRemembered(d: Doc, key: string, now: Time)
    requires Remembered(d, now)
    ensures Remembered(Seen(d, key, now), now)
  {
    SameIsRemembered(d, Seen(d, key, now).(observed := d.observed), now);
    forall k ensures AllSince(AttemptsOf(Seen(d, key, now), k), now - HISTORY) {
      assert AllSince(AttemptsOf(d, k), now - HISTORY);
    }
  }

  lemma StepIsRemembered(m: Machine, limits: Limits, step: Step)
    requires Enabled(m, limits, step) && Inner(step) && (step.Prune? || Remembered(m.mem, m.now))
    ensures var n := Apply(m, limits, step);
            n.now == m.now && Remembered(n.mem, n.now)
  {
    var n := Apply(m, limits, step);
    match step {
      case Prune => PrunedIsRemembered(m.mem, m.now);
      case Trim(key) => TrimmedIsRemembered(m.mem, key, m.now, limits.windowSeconds);
      case Record(plan) => RecordIsRemembered(m.mem, plan.target, m.now);
      case Healthy(provider, session) => RecordIsRemembered(m.mem, provider + ":" + session, m.now);
      case Observe(key, seen, watched) =>
        ObservedFrame(m.mem, key, seen, watched, m.now);
        SameIsRemembered(m.mem, n.mem, m.now);
      case Settle =>
        SettledFrame(m, m.pc.plan, m.pc.result);
        SameIsRemembered(m.mem, n.mem, m.now);
      case NoteFirst(key) => SeenIsRemembered(m.mem, key, m.now);
      case _ => SameIsRemembered(m.mem, n.mem, m.now);
    }
  }

  /** The loop has neither decided on nor made a resume of the failure from this place in the history on. */
  ghost predicate LeftAlone(m: Machine, key: string, from: nat) {
    && (m.pc.Recorded? || m.pc.Saved? ==> !Resumes(m.pc.plan, key))
    && (forall j :: from <= j < |m.sends| ==> !(m.sends[j].failureKey == key && m.sends[j].automatic))
  }

  predicate Resumes(plan: Plan, key: string) { plan.automatic && plan.failure.Key() == key }

  lemma StepLeavesAlone(m: Machine, limits: Limits, step: Step, key: string, from: nat)
    requires Enabled(m, limits, step) && LeftAlone(m, key, from)
    requires step.Record? ==> !Resumes(step.plan, key)
    ensures LeftAlone(Apply(m, limits, step), key, from)
  {
    if step.Settle? {
      SettledFrame(m, m.pc.plan, m.pc.result);
    }
  }

  /** When an attempt is recorded in a round, its failure is set up to be retried. */
  lemma RecordedIsRetried(env: Env, m: Machine, a: Activity, plan: Plan, failure: Failure)
    requires a.Round? && Grounded(env, a, Record(plan)) && Steady(a, failure)
    requires Enabled(m, env.limits, Record(plan)) && Remembered(m.mem, m.now)
    requires Resumes(plan, failure.Key()) && PolicyFor(env, failure).maxDelay <= U64_MAX
    ensures Retried(env, failure)
  {
    var i: nat :| i < |a.targets| == |a.polls| && Grounds(env, a.targets[i], a.polls[i], Record(plan));
    assert SteadyAnswer(a.targets[i], a.polls[i], failure);
    var attempts := AttemptsOf(m.mem, plan.target);
    assert AllSince(attempts, m.now - HISTORY);
    FirstDelayIsLeast(plan.policy, |attempts|, failure.retryAfterSeconds);
  }

  lemma RoundStepLeavesAlone(env: Env, m: Machine, a: Activity, step: Step, failure: Failure, from: nat)
    requires a.Round? && Grounded(env, a, step) && Steady(a, failure) && Enabled(m, env.limits, step)
    requires !Retried(env, failure) && PolicyFor(env, failure).maxDelay <= U64_MAX
    requires LeftAlone(m, failure.Key(), from) && (step.Record? ==> Remembered(m.mem, m.now))
    ensures LeftAlone(Apply(m, env.limits, step), failure.Key(), from)
  {
    if step.Record? && Resumes(step.plan, failure.Key()) {
      RecordedIsRetried(env, m, a, step.plan, failure);
    }
    StepLeavesAlone(m, env.limits, step, failure.Key(), from);
  }

  lemma {:induction false} RoundRemembers(env: Env, m: Machine, a: Activity, k: nat)
    requires a.Round? && Possible(m, a) && Run(m, env.limits, StepsOf(env, m, a)) && 2 <= k <= |StepsOf(env, m, a)|
    ensures var n := After(m, env.limits, StepsOf(env, m, a)[..k]);
            Remembered(n.mem, n.now)
    decreases k
  {
    var steps := StepsOf(env, m, a);
    RunEnables(m, env.limits, steps, k - 1);
    RoundIsInner(env, m, a, k - 1);
    if k > 2 {
      RoundRemembers(env, m, a, k - 1);
    }
    StepIsRemembered(After(m, env.limits, steps[..k - 1]), env.limits, steps[k - 1]);
  }

  lemma {:induction false} RoundLeavesAlone(env: Env, m: Machine, a: Activity, failure: Failure, from: nat, k: nat)
    requires a.Round? && Possible(m, a) && Steady(a, failure) && Run(m, env.limits, StepsOf(env, m, a))
    requires !Retried(env, failure) && PolicyFor(env, failure).maxDelay <= U64_MAX
    requires LeftAlone(m, failure.Key(), from) && k <= |StepsOf(env, m, a)|
    ensures LeftAlone(After(m, env.limits, StepsOf(env, m, a)[..k]), failure.Key(), from)
    decreases k
  {
    var steps := StepsOf(env, m, a);
    if k == 0 {
      assert steps[..0] == [];
    } else {
      RoundLeavesAlone(env, m, a, failure, from, k - 1);
      RunEnables(m, env.limits, steps, k - 1);
      RoundIsInner(env, m, a, k - 1);
      RoundHasGrounds(env, m, a, k - 1);
      if k > 2 {
        RoundRemembers(env, m, a, k - 1);
      }
      RoundStepLeavesAlone(env, After(m, env.limits, steps[..k - 1]), a, steps[k - 1], failure, from);
    }
  }

  /** A manual retry resumes nothing automatically. */
  lemma {:induction false} ManualLeavesAlone(env: Env, m: Machine, a: Activity, key: string, from: nat, k: nat)
    requires a.Manual? && Run(m, env.limits, StepsOf(env, m, a))
    requires LeftAlone(m, key, from) && k <= |StepsOf(env, m, a)|
    ensures LeftAlone(After(m, env.limits, StepsOf(env, m, a)[..k]), key, from)
    decreases k
  {
    var steps := StepsOf(env, m, a);
    if k == 0 {
      assert steps[..0] == [];
    } else {
      ManualLeavesAlone(env, m, a, key, from, k - 1);
      RunEnables(m, env.limits, steps, k - 1);
      ManualHasGrounds(env, m, a, k - 1);
      StepLeavesAlone(After(m, env.limits, steps[..k - 1]), env.limits, steps[k - 1], key, from);
    }
  }

  lemma ActivityLeavesAlone(env: Env, m: Machine, a: Activity, failure: Failure, from: nat)
    requires Possible(m, a) && Steady(a, failure) && Run(m, env.limits, StepsOf(env, m, a))
    requires !Retried(env, failure) && PolicyFor(env, failure).maxDelay <= U64_MAX
    requires LeftAlone(m, failure.Key(), from)
    ensures LeftAlone(After(m, env.limits, StepsOf(env, m, a)), failure.Key(), from)
  {
    var steps := StepsOf(env, m, a);
    assert steps[..|steps|] == steps;
    if a.Round? {
      RoundLeavesAlone(env, m, a, failure, from, |steps|);
    } else {
      ManualLeavesAlone(env, m, a, failure.Key(), from, |steps|);
    }
  }

  lemma {:induction false} ServiceLeavesAlone(env: Env, m: Machine, chapters: seq<Chapter>, failure: Failure, i: nat)
    requires Fits(env) && m.pc.Idle? && Undisturbed(env, m, chapters, failure) && i <= |chapters|
    requires !Retried(env, failure) && PolicyFor(env, failure).maxDelay <= U64_MAX
    ensures LeftAlone(Before(m, env.limits, chapters, i), failure.Key(), |m.sends|)
    decreases i
  {
    if i > 0 {
      ServiceLeavesAlone(env, m, chapters, failure, i - 1);
      CalmChapter(env, m, chapters, failure, i - 1);
      var reach := CalmServiceIsCrashFree(env, m, chapters, failure, i - 1);
      ChapterIsRun(env, m, chapters, i - 1);
      ActivityLeavesAlone(env, Before(m, env.limits, chapters, i - 1), chapters[i - 1].episode.activity, failure,
                          |m.sends|);
    }
  }

  // ---------------------------------------------------------------- exactly when

  /** Between activities, without a crash, and before a mark is old enough to be pruned: the loop can
      still resume a failure if and only if it has no blocking mark and is set up to be retried. */
  lemma LoopResumesExactly(env: Env, m: Machine, failure: Failure, deadline: Time)
    requires Fits(env) && m.pc.Idle? && 0 < env.limits.windowSeconds && PolicyFor(env, failure).maxDelay <= U64_MAX
    requires NoneAfter(AttemptsOf(m.mem, TargetKey(failure)), m.now)
    requires Unhurried(env, m, failure) <= deadline
    requires var key := failure.Key();
             Blocks(m.mem, key) ==> m.mem.handled[key].at <= m.now && deadline <= m.mem.handled[key].at + HISTORY
    ensures LoopResumes(env, m, failure, deadline) <==> !Blocks(m.mem, failure.Key()) && Retried(env, failure)
  {
    if !Blocks(m.mem, failure.Key()) && Retried(env, failure) {
      UnmarkedIsResumed(env, m, failure, deadline);
    } else if LoopResumes(env, m, failure, deadline) {
      var chapters :| Undisturbed(env, m, chapters, failure)
        && ResumedBy(Before(m, env.limits, chapters, |chapters|).sends, |m.sends|, failure.Key(), deadline);
      if Blocks(m.mem, failure.Key()) {
        var steps := CalmServiceIsCrashFree(env, m, chapters, failure, |chapters|);
        MarkedIsNotResumed(m, env.limits, steps, failure.Key(), deadline);
      } else {
        ServiceLeavesAlone(env, m, chapters, failure, |chapters|);
      }
    }
  }

  /** A service run that ends with a crash. */
  ghost predicate Crashes(env: Env, start: Machine, chapters: seq<Chapter>, m: Machine) {
    && Serves(env, start, chapters) && chapters != []
    && m == Before(start, env.limits, chapters, |chapters|)
    && var steps := chapters[|chapters| - 1].steps;
       steps != [] && steps[|steps| - 1] == Crash
  }

  /** A restart continues with what the file held. */
  lemma CrashReloads(env: Env, start: Machine, chapters: seq<Chapter>, m: Machine)
    requires Fits(env) && start.pc.Idle? && Crashes(env, start, chapters, m)
    ensures m.mem == m.disk && m.pc.Idle?
  {
    var n := |chapters| - 1;
    var reach := ServiceIsRun(env, start, chapters, n);
    ChapterIsRun(env, start, chapters, n);
    var steps := chapters[n].steps;
    RunEnables(Before(start, env.limits, chapters, n), env.limits, steps, |steps| - 1);
    assert steps[..|steps|] == steps;
  }

  /** Wherever a service run crashes, the restarted loop can resume a failure, before its mark would be
      pruned, if and only if the file held no blocking mark of it and it is set up to be retried:
      whether it was resumed before makes no difference. */
  lemma CrashRepeatsExactly(env: Env, start: Machine, chapters: seq<Chapter>, m: Machine, failure: Failure,
                            deadline: Time)
    requires Fits(env) && 0 < env.limits.windowSeconds && PolicyFor(env, failure).maxDelay <= U64_MAX
    requires Starts(start) && Crashes(env, start, chapters, m)
    requires Unhurried(env, m, failure) <= deadline
    requires var key := failure.Key();
             Blocks(m.disk, key) ==> m.disk.handled[key].at <= m.now && deadline <= m.disk.handled[key].at + HISTORY
    ensures LoopResumes(env, m, failure, deadline) <==> !Blocks(m.disk, failure.Key()) && Retried(env, failure)
  {
    CrashReloads(env, start, chapters, m);
    var steps := ServiceIsRun(env, start, chapters, |chapters|);
    RunKeepsOrder(start, env.limits, steps, TargetKey(failure));
    LoopResumesExactly(env, m, failure, deadline);
  }

  // ---------------------------------------------------------------- a crash that repeats a resume

  function ResumeSteps(plan: Plan, result: ResumeResult): seq<Step> {
    OneStep(Record(plan)) + OneStep(Save(true)) + OneStep(Resume(result))
  }

  lemma ResumeRuns(m: Machine, limits: Limits, plan: Plan, result: ResumeResult)
    requires Enabled(m, limits, Record(plan))
    ensures Run(m, limits, ResumeSteps(plan, result))
    ensures var n := After(m, limits, ResumeSteps(plan, result));
            && n.now == m.now && n.disk == WithAttempt(m.mem, plan.target, m.now)
            && n.sends == m.sends + [Send(plan.target, plan.failure.Key(), m.now, plan.automatic, result)]
  {
    RunOne(m, limits, Record(plan));
    RunThen(m, limits, OneStep(Record(plan)), Save(true));
    RunThen(m, limits, OneStep(Record(plan)) + OneStep(Save(true)), Resume(result));
  }

  /** The visit begins by noting the failure and resuming it. */
  lemma VisitBegins(env: Env, n: Machine, failure: Failure) returns (rest: seq<Step>)
    requires Fits(env) && n.pc.Idle? && Retried(env, failure) && !Blocks(n.mem, failure.Key())
    requires DueNow(env, n, failure)
    ensures VisitSteps(LoopTurn(env, n, [Watch(failure)], [Answer(failure, true)]), true)
         == NotedSteps(failure, TargetKey(failure)) + ResumeSteps(PlanFor(env, failure), Started("again")) + rest
  {
    AllowedVisit(env, n, failure);
    OneTarget(env, n, Watch(failure), Answer(failure, true));
    rest := OneStep(Settle) + OneStep(Save(true)) + OneStep(Save(true));
    var resume := ResumeSteps(PlanFor(env, failure), Started("again"));
    assert SendTurn(PlanFor(env, failure), Answer(failure, true)).steps + OneStep(Save(true)) == resume + rest;
    Regroup(NotedSteps(failure, TargetKey(failure)), SendTurn(PlanFor(env, failure), Answer(failure, true)).steps,
            OneStep(Save(true)), resume, rest);
  }

  lemma Regroup<T>(a: seq<T>, b: seq<T>, c: seq<T>, d: seq<T>, e: seq<T>)
    requires b + c == d + e
    ensures (a + b) + c == (a + d) + e
  {
    assert (a + b) + c == a + (b + c);
    assert (a + d) + e == a + (d + e);
  }

  lemma Front<T>(a: seq<T>, b: seq<T>, c: seq<T>)
    ensures (a + (b + c))[..|a| + |b|] == a + b
  {
  }

  /** The machine right after the provider's answer, before anything is said about it in the file. */
  lemma ResumeIsOut(env: Env, n: Machine, failure: Failure)
    requires Fits(env) && n.pc.Idle? && Retried(env, failure) && !Blocks(n.mem, failure.Key())
    requires DueNow(env, n, failure)
    ensures var steps := NotedSteps(failure, TargetKey(failure)) + ResumeSteps(PlanFor(env, failure), Started("again"));
            var d := Trimmed(Seen(n.mem, failure.Key(), n.now), TargetKey(failure), n.now, env.limits.windowSeconds);
            var out := After(n, env.limits, steps);
            && Run(n, env.limits, steps) && out.now == n.now && out.disk == WithAttempt(d, TargetKey(failure), n.now)
            && out.sends == n.sends + [Send(TargetKey(failure), failure.Key(), n.now, true, Started("again"))]
  {
    var noted := NotedSteps(failure, TargetKey(failure));
    NotedIsLegal(env, n, failure, TargetKey(failure));
    ResumeRuns(After(n, env.limits, noted), env.limits, PlanFor(env, failure), Started("again"));
    RunConcat(n, env.limits, noted, ResumeSteps(PlanFor(env, failure), Started("again")));
  }

  /** The steps of a round that crashes right after the provider's answer. */
  lemma CrashedSteps(env: Env, m: Machine, failure: Failure, at: Time)
    returns (e: Episode, start: seq<Step>, n: Machine)
    requires Fits(env) && m.pc.Idle? && m.now <= at && Retried(env, failure) && !Blocks(m.mem, failure.Key())
    requires Due(env, m.mem, failure, at)
    ensures Possible(m, e.activity) && Run(m, env.limits, start) && After(m, env.limits, start) == n
    ensures n == m.(now := at, mem := Pruned(m.mem, at), tally := n.tally)
    ensures EpisodeSteps(env, m, e)
         == start + (NotedSteps(failure, TargetKey(failure)) + ResumeSteps(PlanFor(env, failure), Started("again")))
            + OneStep(Crash)
  {
    var order := Enumerate(m.mem.pending.Keys);
    var a := OneRound(at, order, failure, true);
    var ask := Ask(a.targets, Pruned(m.mem, at).pending, a.seen);
    Opened(env, m, at, order, ask);
    start := StartSteps(at, order, ask);
    n := After(m, env.limits, start);
    var rest := VisitBegins(env, n, failure);
    var begun := NotedSteps(failure, TargetKey(failure)) + ResumeSteps(PlanFor(env, failure), Started("again"));
    assert StepsOf(env, m, a) == start + (begun + rest);
    Front(start, begun, rest);
    e := Episode(a, Some(|start| + |begun|));
  }

  /** A due failure can be resumed in a round that crashes before its mark is saved. */
  lemma CrashedRound(env: Env, m: Machine, failure: Failure, at: Time) returns (e: Episode, after: Machine)
    requires Fits(env) && m.pc.Idle? && m.now <= at && Retried(env, failure) && !Blocks(m.mem, failure.Key())
    requires Due(env, m.mem, failure, at)
    ensures Possible(m, e.activity) && after == After(m, env.limits, EpisodeSteps(env, m, e))
    ensures after.pc.Idle? && after.now == at && after.mem == after.disk
    ensures after.disk == WithAttempt(NotedAt(env, m.mem, failure, at), TargetKey(failure), at)
    ensures after.sends == m.sends + [Send(TargetKey(failure), failure.Key(), at, true, Started("again"))]
  {
    var start, n;
    e, start, n := CrashedSteps(env, m, failure, at);
    var begun := NotedSteps(failure, TargetKey(failure)) + ResumeSteps(PlanFor(env, failure), Started("again"));
    ResumeIsOut(env, n, failure);
    RunConcat(m, env.limits, start, begun);
    RunThen(m, env.limits, start + begun, Crash);
    after := After(m, env.limits, EpisodeSteps(env, m, e));
  }

  /** The wait after some attempts. */
  function DelayAfter(env: Env, failure: Failure, attempts: nat): int {
    Seconds(Min(RetryDelay(PolicyFor(env, failure), attempts, failure.retryAfterSeconds), I64_MAX))
  }

  /** An attempt that still counts makes the failure due again after the second delay. */
  lemma DueAfterAttempt(env: Env, d: Doc, failure: Failure, last: Time, at: Time)
    requires AttemptsOf(d, TargetKey(failure)) == [last] && PolicyFor(env, failure).maxAttempts >= 2
    requires last + DelayAfter(env, failure, 1) <= at
    requires at <= last + Seconds(env.limits.windowSeconds) && at <= last + HISTORY
    ensures Due(env, d, failure, at)
  {
    NotedAttempts(env, d, failure, at);
    RecentOfOne(last, at - HISTORY);
    RecentOfOne(last, at - Seconds(env.limits.windowSeconds));
  }

  lemma RecentOfOne(t: Time, cutoff: Time)
    ensures Recent([t], cutoff) == if t >= cutoff then [t] else []
  {
    assert [t][..0] == [];
  }

  const EMPTY_START := Machine(EMPTY, EMPTY, 0, Pc.Idle, map[], [], map[], {}, Tally(0, 0, 0, 0, 0, 0))

  lemma EmptyStarts()
    ensures Starts(EMPTY_START)
  {
  }

  lemma ThreeChapters(env: Env, m: Machine, a: Episode, n: Machine, b: Episode, o: Machine, c: Episode)
    returns (chapters: seq<Chapter>)
    requires Possible(m, a.activity) && n == After(m, env.limits, EpisodeSteps(env, m, a))
    requires Possible(n, b.activity) && o == After(n, env.limits, EpisodeSteps(env, n, b))
    requires Possible(o, c.activity)
    ensures Serves(env, m, chapters)
    ensures Before(m, env.limits, chapters, |chapters|) == After(o, env.limits, EpisodeSteps(env, o, c))
  {
    chapters := [Chapter(a, EpisodeSteps(env, m, a)), Chapter(b, EpisodeSteps(env, n, b)),
                 Chapter(c, EpisodeSteps(env, o, c))];
    assert Before(m, env.limits, chapters, 1) == n;
    assert Before(m, env.limits, chapters, 2) == o;
    assert Happens(env, m, chapters, 0) && Happens(env, m, chapters, 1) && Happens(env, m, chapters, 2);
  }

  /** Two effective automatic resumes of one failure, this long apart. */
  ghost predicate ResumedTwice(sends: seq<Send>, failure: Failure, apart: int) {
    && |sends| == 2 && sends[1].at - sends[0].at == apart
    && forall i :: 0 <= i < 2 ==>
         sends[i].failureKey == failure.Key() && sends[i].automatic && MayHaveStarted(sends[i].result)
  }

  /** Some service run with a crash, from empty files, resumes the failure twice. */
  ghost predicate Repeats(env: Env, failure: Failure, apart: int) {
    exists chapters ::
      && Serves(env, EMPTY_START, chapters)
      && ResumedTwice(Before(EMPTY_START, env.limits, chapters, |chapters|).sends, failure, apart)
  }

  lemma CrashedOnce(env: Env, failure: Failure) returns (a: Episode, n: Machine, b: Episode, o: Machine)
    requires Fits(env) && Retried(env, failure)
    ensures Possible(EMPTY_START, a.activity) && n == After(EMPTY_START, env.limits, EpisodeSteps(env, EMPTY_START, a))
    ensures Possible(n, b.activity) && o == After(n, env.limits, EpisodeSteps(env, n, b))
    ensures o.pc.Idle? && o.now == FirstDelay(env, failure) && !Blocks(o.mem, failure.Key())
    ensures AttemptsOf(o.mem, TargetKey(failure)) == [o.now]
    ensures o.sends == [Send(TargetKey(failure), failure.Key(), o.now, true, Started("again"))]
  {
    var first;
    first, n := FirstRound(env, EMPTY_START, failure, 0);
    a := Episode(first, None);
    NotedAttempts(env, EMPTY, failure, 0);
    DueAfterDelay(env, n.mem, failure, FirstDelay(env, failure));
    b, o := CrashedRound(env, n, failure, FirstDelay(env, failure));
    NotedAttempts(env, n.mem, failure, FirstDelay(env, failure));
  }

  /** A failure that is set up to be retried at least twice, the second time while the first attempt
      still counts, is resumed twice when the service crashes between the provider's answer and the
      next save. */
  lemma CrashRepeats(env: Env, failure: Failure)
    requires Fits(env) && Retried(env, failure) && PolicyFor(env, failure).maxAttempts >= 2
    requires DelayAfter(env, failure, 1) <= Seconds(env.limits.windowSeconds) && DelayAfter(env, failure, 1) <= HISTORY
    ensures Repeats(env, failure, DelayAfter(env, failure, 1))
  {
    var a, n, b, o := CrashedOnce(env, failure);
    var at := o.now + DelayAfter(env, failure, 1);
    DueAfterAttempt(env, o.mem, failure, o.now, at);
    var c := SecondRound(env, o, failure, at);
    var chapters := ThreeChapters(env, EMPTY_START, a, n, b, o, Episode(c, None));
    RepeatsBy(env, failure, chapters, Before(EMPTY_START, env.limits, chapters, |chapters|).sends);
  }

  lemma RepeatsBy(env: Env, failure: Failure, chapters: seq<Chapter>, sends: seq<Send>)
    requires Serves(env, EMPTY_START, chapters)
    requires sends == Before(EMPTY_START, env.limits, chapters, |chapters|).sends
    requires ResumedTwice(sends, failure, DelayAfter(env, failure, 1))
    ensures Repeats(env, failure, DelayAfter(env, failure, 1))
  {
  }

  const SAMPLE := Failure("codex", "s", "t", "network.connection_failed", None)

  function Defaults(): Env { Configured(DEFAULT_SETTINGS, {"codex"}, false) }

  lemma SamplePolicy()
    ensures var p := PolicyFor(Defaults(), SAMPLE);
            && p.action == Retry && p.backoff == Some(Exponential)
            && p.initialDelay == 5 && p.maxDelay == 120 && p.maxAttempts == 5
  {
    RetryDefaultIsRegistered();
  }

  lemma SampleDelay(policy: ResolvedPolicy, attempts: nat)
    requires policy.backoff == Some(Exponential) && policy.initialDelay == 5 && policy.maxDelay == 120 && attempts <= 1
    ensures RetryDelay(policy, attempts, None) == if attempts == 0 then 5 else 10
  {
    ExponentialIsExact(policy, attempts);
    assert Pow2(0) == 1 && Pow2(1) == 2;
  }

  lemma SampleIsRetried()
    ensures Fits(Defaults()) && Retried(Defaults(), SAMPLE) && Defaults().limits.windowSeconds == 3600
    ensures PolicyFor(Defaults(), SAMPLE).maxAttempts >= 2 && DelayAfter(Defaults(), SAMPLE, 1) == Seconds(10)
  {
    DefaultSettingsAreValid();
    ConfiguredFits(DEFAULT_SETTINGS, Defaults());
    SamplePolicy();
    SampleDelay(PolicyFor(Defaults(), SAMPLE), 0);
    SampleDelay(PolicyFor(Defaults(), SAMPLE), 1);
  }

  /** Under the default settings the engine resumes one failed turn, which README's safety list promises
      to handle at most once, twice within ten seconds. */
  lemma CrashCanRepeatAResume()
    ensures Starts(EMPTY_START) && Repeats(Defaults(), SAMPLE, Seconds(10))
  {
    EmptyStarts();
    SampleIsRetried();
    CrashRepeats(Defaults(), SAMPLE);
  }
}
