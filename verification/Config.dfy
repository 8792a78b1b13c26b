/** Policies and their resolution (src/config.rs, and the policy edits of src/daemon.rs). */
module Config {
  import opened Prelude
  import opened Conditions

  // The first word stands apart so that the verifier sees that the prompt is not blank.
  const DEFAULT_PROMPT: string :=
    "Continue"
    + " the previous unfinished task. Inspect the latest checkpoint and persisted changes first."
    + " Do not repeat completed work."

  datatype PolicyOverride = PolicyOverride(
    action: Option<PolicyAction>,
    backoff: Option<BackoffKind>,
    initialDelay: Option<nat>,
    maxDelay: Option<nat>,
    maxAttempts: Option<nat>,
    prompt: Option<string>)

  const NO_OVERRIDE := PolicyOverride(None, None, None, None, None, None)

  datatype Settings = Settings(
    version: nat,
    pollInterval: nat,
    attemptWindow: int,
    logRetention: nat,
    staleAfter: int,
    codexEnabled: bool,
    codexCommand: seq<string>,
    claudeEnabled: bool,
    policies: map<string, PolicyOverride>)

  const DEFAULT_SETTINGS :=
    Settings(4, 10, 3600, 10000, 259200, true, ["codex", "app-server", "--listen", "stdio://"], true, map[])

  datatype ResolvedPolicy = ResolvedPolicy(
    condition: string,
    action: PolicyAction,
    backoff: Option<BackoffKind>,
    initialDelay: nat,
    maxDelay: nat,
    maxAttempts: nat,
    prompt: string)

  /** The characters that `str::trim` drops. */
  predicate IsSpace(c: char) {
    var n := c as int;
    || 0x09 <= n <= 0x0D || n == 0x20 || n == 0x85 || n == 0xA0 || n == 0x1680
    || 0x2000 <= n <= 0x200A || n == 0x2028 || n == 0x2029 || n == 0x202F || n == 0x205F || n == 0x3000
  }

  predicate Blank(s: string) { forall i :: 0 <= i < |s| ==> IsSpace(s[i]) }

  predicate ValidOverride(p: PolicyOverride) {
    && !(p.prompt.Some? && Blank(p.prompt.value))
    && p.initialDelay != Some(0) && p.maxDelay != Some(0) && p.maxAttempts != Some(0)
    && !(p.initialDelay.Some? && p.maxDelay.Some? && p.maxDelay.value < p.initialDelay.value)
    && !(p.action == Some(Skip)
         && (p.backoff.Some? || p.initialDelay.Some? || p.maxDelay.Some? || p.maxAttempts.Some?))
  }

  function Policy(settings: Settings, condition: string): ResolvedPolicy {
    RetryDefaultIsRegistered();
    UnknownIsSkipped();
    var known := Lookup(condition);
    var fallback := if known.Some? then known.value else Lookup("failure.unknown").value;
    var custom := if condition in settings.policies then settings.policies[condition] else NO_OVERRIDE;
    var action := custom.action.GetOr(fallback.action);
    var backoff := match action
      case Retry =>
        if custom.backoff.Some? then custom.backoff
        else if fallback.backoff.Some? then fallback.backoff
        else Some(Exponential)
      case Skip => None;
    var defaults := Lookup("network.connection_failed").value;
    var initial := if fallback.initialDelay > 0 then fallback.initialDelay else defaults.initialDelay;
    var maximum := if fallback.maxDelay > 0 then fallback.maxDelay else defaults.maxDelay;
    var attempts := if fallback.maxAttempts > 0 then fallback.maxAttempts else defaults.maxAttempts;
    ResolvedPolicy(
      condition,
      action,
      backoff,
      custom.initialDelay.GetOr(if action == Retry then initial else 0),
      custom.maxDelay.GetOr(if action == Retry then maximum else 0),
      custom.maxAttempts.GetOr(if action == Retry then attempts else 0),
      if action == Retry then custom.prompt.GetOr(DEFAULT_PROMPT) else "")
  }

  predicate Resolvable(p: ResolvedPolicy) {
    p.action == Retry ==> p.initialDelay != 0 && p.initialDelay <= p.maxDelay && p.maxAttempts != 0
  }

  predicate Validate(settings: Settings) {
    && settings.version == 4
    && settings.pollInterval != 0 && settings.attemptWindow > 0 && settings.logRetention != 0
    && settings.staleAfter > 0
    && (settings.codexEnabled ==> settings.codexCommand != [] && "" !in settings.codexCommand)
    && (forall c :: c in settings.policies ==> IsKnown(c) && ValidOverride(settings.policies[c]))
    && (forall i :: 0 <= i < |CONDITIONS| ==> Resolvable(Policy(settings, CONDITIONS[i].name)))
  }

  /** What a resolved policy promises the engine. */
  predicate Sound(p: ResolvedPolicy) {
    match p.action
    case Skip => p.backoff.None?
    case Retry =>
      && p.backoff.Some?
      && 1 <= p.initialDelay <= p.maxDelay
      && 1 <= p.maxAttempts
      && !Blank(p.prompt)
  }

  /** Under valid settings every condition string, registered or not, resolves soundly, and
      an unregistered one is skipped. */
  lemma ValidSettingsResolveSoundly(settings: Settings, condition: string)
    requires Validate(settings)
    ensures Sound(Policy(settings, condition))
    ensures !IsKnown(condition) ==> Policy(settings, condition).action == Skip
  {
    RetryDefaultIsRegistered();
    UnknownIsSkipped();
    assert DEFAULT_PROMPT[0] == 'C';
    assert !IsSpace('C');
    if IsKnown(condition) {
      DefaultsAreWellFormed(condition);
      FindIsInTable(CONDITIONS, condition);
      var i :| 0 <= i < |CONDITIONS| && CONDITIONS[i] == Lookup(condition).value;
      assert Resolvable(Policy(settings, CONDITIONS[i].name));
    } else {
      assert condition !in settings.policies;
    }
  }

  lemma DefaultSettingsAreValid()
    ensures Validate(DEFAULT_SETTINGS)
  {
    forall i | 0 <= i < |CONDITIONS| ensures Resolvable(Policy(DEFAULT_SETTINGS, CONDITIONS[i].name)) {
      FindIsInTable(CONDITIONS, CONDITIONS[i].name);
      DefaultsAreWellFormed(CONDITIONS[i].name);
    }
  }

  /** The largest attempt limit that any of these conditions resolves to. */
  function LargestLimit(settings: Settings, table: seq<Definition>): nat {
    if table == [] then 0
    else Max(Policy(settings, table[0].name).maxAttempts, LargestLimit(settings, table[1..]))
  }

  /** The largest attempt limit that any registered condition resolves to. */
  function AttemptLimit(settings: Settings): nat { LargestLimit(settings, CONDITIONS) }

  lemma {:induction false} LargestOfTable(settings: Settings, table: seq<Definition>, i: nat)
    requires i < |table|
    ensures Policy(settings, table[i].name).maxAttempts <= LargestLimit(settings, table)
  {
    if i > 0 {
      LargestOfTable(settings, table[1..], i - 1);
    }
  }

  /** No condition string, registered or not, resolves to more attempts than the registered ones. */
  lemma LargestLimitCovers(settings: Settings, condition: string)
    requires Validate(settings)
    ensures Policy(settings, condition).maxAttempts <= AttemptLimit(settings)
  {
    if IsKnown(condition) {
      FindIsInTable(CONDITIONS, condition);
      var i :| 0 <= i < |CONDITIONS| && CONDITIONS[i].name == condition;
      LargestOfTable(settings, CONDITIONS, i);
    } else {
      UnknownIsSkipped();
      assert condition !in settings.policies;
    }
  }

  // ---------------------------------------------------------------- edits

  /** `config.policies.set`: a skip replaces the entry, anything else merges into it. */
  function MergePolicy(settings: Settings, condition: string, update: PolicyOverride): Settings {
    var entry := if condition in settings.policies then settings.policies[condition] else NO_OVERRIDE;
    var merged :=
      if update.action == Some(Skip) then update
      else PolicyOverride(
        if update.action.Some? then update.action else entry.action,
        if update.backoff.Some? then update.backoff else entry.backoff,
        if update.initialDelay.Some? then update.initialDelay else entry.initialDelay,
        if update.maxDelay.Some? then update.maxDelay else entry.maxDelay,
        if update.maxAttempts.Some? then update.maxAttempts else entry.maxAttempts,
        if update.prompt.Some? then update.prompt else entry.prompt);
    settings.(policies := settings.policies[condition := merged])
  }

  /** `config.policies.reset`, for one condition or for all. */
  function ResetPolicy(settings: Settings, condition: Option<string>): Settings {
    settings.(policies := if condition.Some? then settings.policies - {condition.value} else map[])
  }

  datatype Edit =
    | SetPolicy(condition: string, update: PolicyOverride)
    | Reset(only: Option<string>)
    | SetLifecycle(staleAfter: int)
    | Reload(loaded: Settings)

  /** The settings an edit asks for, or None when its condition is not registered. */
  function Requested(settings: Settings, edit: Edit): Option<Settings> {
    match edit
    case SetPolicy(c, update) => if IsKnown(c) then Some(MergePolicy(settings, c, update)) else None
    case Reset(c) =>
      if c.Some? && !IsKnown(c.value) then None else Some(ResetPolicy(settings, c))
    case SetLifecycle(s) => Some(settings.(staleAfter := s))
    case Reload(loaded) => Some(loaded)
  }

  /** Settings after an edit whose revision bump and file write may fail. */
  function AfterEdit(settings: Settings, edit: Edit, bumps: bool, writes: bool): Settings {
    var requested := Requested(settings, edit);
    if requested.Some? && Validate(requested.value) && bumps && (edit.Reload? || writes)
    then requested.value else settings
  }

  function AfterEdits(settings: Settings, edits: seq<(Edit, bool, bool)>): Settings
    decreases |edits|
  {
    if edits == [] then settings
    else AfterEdits(AfterEdit(settings, edits[0].0, edits[0].1, edits[0].2), edits[1..])
  }

  /** Any sequence of edits and hot reloads, including rejected ones, leaves settings under
      which every condition string resolves soundly. */
  lemma {:induction false} EditsKeepPoliciesSound(settings: Settings, edits: seq<(Edit, bool, bool)>, condition: string)
    requires Validate(settings)
    ensures Validate(AfterEdits(settings, edits))
    ensures Sound(Policy(AfterEdits(settings, edits), condition))
    ensures !IsKnown(condition) ==> Policy(AfterEdits(settings, edits), condition).action == Skip
    decreases |edits|
  {
    if edits == [] {
      ValidSettingsResolveSoundly(settings, condition);
    } else {
      EditsKeepPoliciesSound(AfterEdit(settings, edits[0].0, edits[0].1, edits[0].2), edits[1..], condition);
    }
  }

  /** An edit of one condition never changes how another one resolves. */
  lemma PolicyEditsAreLocal(settings: Settings, condition: string, update: PolicyOverride, other: string)
    requires other != condition
    ensures Policy(MergePolicy(settings, condition, update), other) == Policy(settings, other)
    ensures Policy(ResetPolicy(settings, Some(condition)), other) == Policy(settings, other)
  {
  }
}
