/** The durable control revision (src/state.rs, ControlStateStore). */
module ControlState {
  import opened Prelude

  /** `saturating_add(1).max(1)`. */
  function Following(revision: nat): nat { Max(Min(revision + 1, U64_MAX), 1) }

  /** The revision of the running service, absent while it is down, and the file. */
  datatype Control = Control(running: Option<nat>, disk: Option<nat>)

  /** A revision bump or a start of the service, and whether the file could be written. */
  datatype Event = Bump(writes: bool) | Start(writes: bool)

  function Base(c: Control, e: Event): Option<nat> {
    match e
    case Bump(_) => c.running
    case Start(_) => Some(if c.disk.Some? then c.disk.value else 0)
  }

  /** The revision an event hands out. */
  function Issue(c: Control, e: Event): Option<nat> {
    if e.writes && Base(c, e).Some? then Some(Following(Base(c, e).value)) else None
  }

  function Apply(c: Control, e: Event): Control {
    if Issue(c, e).Some? then Control(Issue(c, e), Issue(c, e))
    else if e.Start? then c.(running := None)
    else c
  }

  function Run(c: Control, events: seq<Event>): Control
    decreases |events|
  {
    if events == [] then c else Run(Apply(c, events[0]), events[1..])
  }

  /** The revisions handed out along a run, in order. */
  function Issued(c: Control, events: seq<Event>): seq<nat>
    decreases |events|
  {
    if events == [] then []
    else
      (if Issue(c, events[0]).Some? then [Issue(c, events[0]).value] else [])
      + Issued(Apply(c, events[0]), events[1..])
  }

  /** The file is what a running service believes it to be. */
  predicate Consistent(c: Control) {
    && (c.disk.Some? ==> c.disk.value <= U64_MAX)
    && (c.running.Some? ==> c.running == c.disk)
  }

  function Floor(c: Control): nat { if c.disk.Some? then c.disk.value else 0 }

  lemma ApplyKeepsConsistent(c: Control, e: Event)
    requires Consistent(c)
    ensures Consistent(Apply(c, e)) && Floor(c) <= Floor(Apply(c, e))
    ensures Issue(c, e).Some? ==> Floor(Apply(c, e)) == Issue(c, e).value == Following(Floor(c))
    ensures Issue(c, e).None? ==> Floor(Apply(c, e)) == Floor(c)
  {
  }

  /** No revision handed out later, even after restarts, is below what the file holds now, and
      each is above it unless that is already the largest number. */
  lemma {:induction false} IssuedAreAbove(c: Control, events: seq<Event>, i: nat)
    requires Consistent(c) && i < |Issued(c, events)|
    ensures Floor(c) <= Issued(c, events)[i] <= U64_MAX
    ensures Floor(c) < Issued(c, events)[i] <==> Floor(c) < U64_MAX
    decreases |events|
  {
    var next := Apply(c, events[0]);
    ApplyKeepsConsistent(c, events[0]);
    if Issue(c, events[0]).None? {
      IssuedAreAbove(next, events[1..], i);
    } else if i > 0 {
      assert Issued(c, events)[i] == Issued(next, events[1..])[i - 1];
      IssuedAreAbove(next, events[1..], i - 1);
    }
  }

  /** Over every run of bumps, failed writes and restarts, the revisions handed out strictly
      increase, exactly as long as they stay below the largest 64-bit number. */
  lemma {:induction false} RevisionsStrictlyIncrease(c: Control, events: seq<Event>, i: nat, j: nat)
    requires Consistent(c) && i < j < |Issued(c, events)|
    ensures Issued(c, events)[i] < Issued(c, events)[j] <==> Issued(c, events)[i] < U64_MAX
    decreases |events|
  {
    var next := Apply(c, events[0]);
    ApplyKeepsConsistent(c, events[0]);
    if Issue(c, events[0]).None? {
      RevisionsStrictlyIncrease(next, events[1..], i, j);
    } else {
      assert Issued(c, events)[j] == Issued(next, events[1..])[j - 1];
      if i > 0 {
        assert Issued(c, events)[i] == Issued(next, events[1..])[i - 1];
        RevisionsStrictlyIncrease(next, events[1..], i - 1, j - 1);
      } else {
        IssuedAreAbove(next, events[1..], j - 1);
      }
    }
  }

  /** A run leaves the file at the last revision it handed out: a failed write loses none. */
  lemma {:induction false} FileHoldsTheLastIssued(c: Control, events: seq<Event>)
    requires Consistent(c)
    ensures var issued := Issued(c, events);
            Consistent(Run(c, events))
            && Floor(Run(c, events)) == if issued == [] then Floor(c) else issued[|issued| - 1]
    decreases |events|
  {
    if events != [] {
      ApplyKeepsConsistent(c, events[0]);
      FileHoldsTheLastIssued(Apply(c, events[0]), events[1..]);
    }
  }

  class ControlStateStore {
    var revision: nat
    var disk: Option<nat>

    ghost function State(): Control
      reads this
    {
      Control(Some(revision), disk)
    }

    /** The first half of loading: what the file says, before the revision is moved on. */
    constructor (file: Option<nat>)
      ensures disk == file && revision == if file.Some? then file.value else 0
    {
      revision := if file.Some? then file.value else 0;
      disk := file;
    }

    method NextRevision(writes: bool) returns (next: Option<nat>)
      modifies this
      ensures State() == Apply(old(State()), Bump(writes))
      ensures next == Issue(old(State()), Bump(writes))
    {
      var previous := revision;
      revision := Following(revision);
      if !writes {
        revision := previous;
        return None;
      }
      disk := Some(revision);
      return Some(revision);
    }
  }

  /** A start of the service over a file; None when the file cannot be rewritten. */
  method Load(file: Option<nat>, writes: bool) returns (store: ControlStateStore, issued: Option<nat>)
    ensures fresh(store)
    ensures issued == Issue(Control(None, file), Start(writes))
    ensures issued.Some? ==> store.State() == Apply(Control(None, file), Start(writes))
    ensures issued.None? ==> store.disk == file
  {
    store := new ControlStateStore(file);
    issued := store.NextRevision(writes);
  }
}
