/** The registered failure conditions and their defaults (src/conditions.rs). */
module Conditions {
  import opened Prelude

  datatype PolicyAction = Retry | Skip

  datatype BackoffKind = Fixed | Exponential

  datatype Definition = Definition(
    name: string,
    action: PolicyAction,
    backoff: Option<BackoffKind>,
    initialDelay: nat,
    maxDelay: nat,
    maxAttempts: nat)

  function RetryBy(name: string, initialDelay: nat, maxDelay: nat): Definition {
    Definition(name, Retry, Some(Exponential), initialDelay, maxDelay, 5)
  }

  function SkipBy(name: string): Definition {
    Definition(name, Skip, None, 0, 0, 0)
  }

  const RETRIED: seq<Definition> := [
    RetryBy("network.connection_failed", 5, 120),
    RetryBy("network.stream_failed", 5, 120),
    RetryBy("network.timeout", 10, 180),
    RetryBy("capacity.model_overloaded", 15, 300),
    RetryBy("capacity.service_overloaded", 15, 300),
    RetryBy("capacity.rate_limited", 30, 600),
    RetryBy("capacity.server_throttled", 15, 300),
    RetryBy("service.server_error", 10, 300),
    RetryBy("service.conflict", 5, 120),
    RetryBy("retry.provider_exhausted", 15, 300)
  ]

  const SKIPPED: seq<Definition> := [
    SkipBy("auth.invalid"),
    SkipBy("billing.required"),
    SkipBy("capability.model_unavailable"),
    SkipBy("capability.access_denied"),
    SkipBy("capability.feature_unsupported"),
    SkipBy("capability.entitlement_required"),
    SkipBy("capability.verification_required"),
    SkipBy("context.window_exceeded"),
    SkipBy("context.output_limit"),
    SkipBy("quota.usage_exhausted"),
    SkipBy("request.invalid"),
    SkipBy("request.too_large"),
    SkipBy("sandbox.failed"),
    SkipBy("failure.unknown")
  ]

  const CONDITIONS: seq<Definition> := RETRIED + SKIPPED

  function Find(table: seq<Definition>, name: string): Option<Definition> {
    if table == [] then None
    else if table[0].name == name then Some(table[0])
    else Find(table[1..], name)
  }

  function Lookup(name: string): Option<Definition> { Find(CONDITIONS, name) }

  predicate IsKnown(name: string) { Lookup(name).Some? }

  /** What every row of the table satisfies. */
  predicate WellFormed(d: Definition) {
    match d.action
    case Retry => d.backoff.Some? && 1 <= d.initialDelay <= d.maxDelay && 1 <= d.maxAttempts
    case Skip => d.backoff.None? && d.initialDelay == d.maxDelay == d.maxAttempts == 0
  }

  lemma {:induction false} FindIsInTable(table: seq<Definition>, name: string)
    ensures var d := Find(table, name);
            && (d.Some? ==> d.value in table && d.value.name == name)
            && (d.None? ==> forall x :: x in table ==> x.name != name)
  {
    if table == [] {
    } else {
      FindIsInTable(table[1..], name);
      assert forall x :: x in table <==> x == table[0] || x in table[1..];
    }
  }

  lemma {:induction false} FindInConcat(a: seq<Definition>, b: seq<Definition>, name: string)
    ensures Find(a + b, name) == if Find(a, name).Some? then Find(a, name) else Find(b, name)
  {
    if a == [] {
      assert a + b == b;
    } else {
      FindInConcat(a[1..], b, name);
      assert (a + b)[1..] == a[1..] + b;
    }
  }

  lemma RetriedRows(d: Definition)
    requires d in RETRIED
    ensures WellFormed(d) && d.action == Retry && d.name != "failure.unknown"
  {
    var i :| 0 <= i < |RETRIED| && RETRIED[i] == d;
    assert d.name[0] != 'f';
  }

  lemma SkippedRows(d: Definition)
    requires d in SKIPPED
    ensures WellFormed(d) && d == SkipBy(d.name)
  {
  }

  /** Registered conditions have well-formed defaults. */
  lemma DefaultsAreWellFormed(name: string)
    requires IsKnown(name)
    ensures WellFormed(Lookup(name).value) && Lookup(name).value.name == name
  {
    FindIsInTable(CONDITIONS, name);
    var d := Lookup(name).value;
    if d in RETRIED {
      RetriedRows(d);
    } else {
      SkippedRows(d);
    }
  }

  /** The row that policy resolution takes retry defaults from. */
  lemma RetryDefaultIsRegistered()
    ensures Lookup("network.connection_failed") == Some(RetryBy("network.connection_failed", 5, 120))
  {
    FindInConcat(RETRIED, SKIPPED, "network.connection_failed");
    assert RETRIED[0].name == "network.connection_failed";
  }

  /** The row that unregistered conditions resolve to. */
  lemma UnknownIsSkipped()
    ensures Lookup("failure.unknown") == Some(SkipBy("failure.unknown"))
  {
    FindInConcat(RETRIED, SKIPPED, "failure.unknown");
    FindIsInTable(RETRIED, "failure.unknown");
    if Find(RETRIED, "failure.unknown").Some? {
      RetriedRows(Find(RETRIED, "failure.unknown").value);
    }
    FindIsInTable(SKIPPED, "failure.unknown");
    assert SKIPPED[13] in SKIPPED && SKIPPED[13].name == "failure.unknown";
    SkippedRows(Find(SKIPPED, "failure.unknown").value);
  }
}
