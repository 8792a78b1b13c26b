/** The durable registry of manual retries (src/daemon.rs, RetryOperationRegistry). */
module RetryRegistry {
  import opened Prelude
  import C = Config

  datatype Status = Accepted | Running | Succeeded | Failed | Unknown

  datatype SessionRef = SessionRef(provider: string, sessionId: string)

  datatype Operation = Operation(
    id: string,
    session: SessionRef,
    requestKey: string,
    status: Status,
    result: Option<string>,
    error: Option<string>,
    updatedAt: Time)

  type Operations = map<string, Operation>

  const MAX_PENDING: nat := 32
  const MAX_OPERATIONS: nat := 256

  predicate IsPending(op: Operation) { op.status.Accepted? || op.status.Running? }

  function PendingIds(ops: Operations): set<string> { set id | id in ops && IsPending(ops[id]) }

  ghost predicate UniqueKeys(ops: Operations) {
    && (forall id :: id in ops ==> ops[id].id == id)
    && (forall a, b :: a in ops && b in ops && a != b ==> ops[a].requestKey != ops[b].requestKey)
  }

  ghost predicate OnePerSession(ops: Operations) {
    forall a, b :: a in PendingIds(ops) && b in PendingIds(ops) && a != b ==> ops[a].session != ops[b].session
  }

  ghost predicate Bounded(ops: Operations) {
    |PendingIds(ops)| <= MAX_PENDING && |ops| <= MAX_OPERATIONS
  }

  /** What every state of the registry satisfies. */
  ghost predicate Valid(ops: Operations) { UniqueKeys(ops) && OnePerSession(ops) && Bounded(ops) }

  // ---------------------------------------------------------------- what each call does

  datatype Reply = Refused | Known(operation: Operation) | Started(operation: Operation)

  ghost predicate HasKey(ops: Operations, key: string) { exists id :: id in ops && ops[id].requestKey == key }

  ghost predicate HasPending(ops: Operations, session: SessionRef) {
    exists id :: id in ops && IsPending(ops[id]) && ops[id].session == session
  }

  /** A resolved operation that no other resolved one is older than. */
  ghost predicate IsOldest(ops: Operations, id: string) {
    && id in ops && !IsPending(ops[id])
    && forall x :: x in ops && !IsPending(ops[x]) ==> ops[id].updatedAt <= ops[x].updatedAt
  }

  function NewOperation(id: string, session: SessionRef, key: string, now: Time): Operation {
    Operation(id, session, key, Accepted, None, None, now)
  }

  /** The registry with one more operation; a full one gives up its oldest resolved operation. */
  ghost predicate Inserted(before: Operations, after: Operations, op: Operation) {
    if |before| < MAX_OPERATIONS then after == before[op.id := op]
    else exists oldest :: IsOldest(before, oldest) && after == (before - {oldest})[op.id := op]
  }

  /** The outcome of a request when its save succeeds. */
  ghost predicate Accepts(before: Operations, session: SessionRef, key: string, id: string, now: Time,
                          after: Operations, reply: Reply)
  {
    if C.Blank(key) then reply == Refused && after == before
    else if HasKey(before, key) then
      && after == before
      && exists x :: x in before && before[x].requestKey == key
                     && reply == if before[x].session == session then Known(before[x]) else Refused
    else if HasPending(before, session) then
      && after == before
      && exists x :: x in before && IsPending(before[x]) && before[x].session == session && reply == Known(before[x])
    else if |PendingIds(before)| >= MAX_PENDING then reply == Refused && after == before
    else
      var op := NewOperation(id, session, key, now);
      Inserted(before, after, op) && reply == Started(op)
  }

  function Ran(ops: Operations, id: string, now: Time): Operations {
    if id in ops then ops[id := ops[id].(status := Running, updatedAt := now)] else ops
  }

  datatype Result = Value(text: string) | Error(message: string, acknowledgementUnknown: bool)

  function Resolve(op: Operation, result: Result, now: Time): Operation {
    match result
    case Value(text) => op.(status := Succeeded, result := Some(text), error := None, updatedAt := now)
    case Error(message, unknown) =>
      op.(status := if unknown then Unknown else Failed, result := None, error := Some(message), updatedAt := now)
  }

  function Finished(ops: Operations, id: string, result: Result, now: Time): Operations {
    if id in ops then ops[id := Resolve(ops[id], result, now)] else ops
  }

  /** The rollback of an acceptance whose acknowledgement could not be delivered. */
  function Withdrawn(ops: Operations, id: string): Operations { ops - {id} }

  const RESTARTED: string := "Watchcat restarted before this retry reached a confirmed result"

  function Restarted(ops: Operations, now: Time): Operations {
    map id | id in ops ::
      if IsPending(ops[id]) then ops[id].(status := Unknown, error := Some(RESTARTED), updatedAt := now) else ops[id]
  }

  // ---------------------------------------------------------------- the invariant

  lemma PendingIdsAfterUpdate(ops: Operations, id: string, op: Operation)
    ensures PendingIds(ops[id := op]) == PendingIds(ops) - {id} + (if IsPending(op) then {id} else {})
  {
  }

  lemma PendingIdsAfterRemoval(ops: Operations, id: string)
    ensures PendingIds(ops - {id}) == PendingIds(ops) - {id}
  {
  }

  lemma MapSize(ops: Operations, id: string, op: Operation)
    ensures |ops[id := op]| == |ops| + if id in ops then 0 else 1
    ensures |ops - {id}| == |ops| - if id in ops then 1 else 0
  {
    assert ops[id := op].Keys == ops.Keys + {id};
    assert (ops - {id}).Keys == ops.Keys - {id};
    assert |ops| == |ops.Keys| && |ops[id := op]| == |ops[id := op].Keys| && |ops - {id}| == |(ops - {id}).Keys|;
  }

  lemma WithdrawnKeepsValid(ops: Operations, id: string)
    requires Valid(ops)
    ensures Valid(Withdrawn(ops, id))
  {
    WithdrawnStaysBounded(ops, id);
    WithdrawnKeepsUnique(ops, id);
  }

  lemma WithdrawnStaysBounded(ops: Operations, id: string)
    requires Bounded(ops)
    ensures Bounded(Withdrawn(ops, id))
  {
    PendingIdsAfterRemoval(ops, id);
    SubsetSize(PendingIds(ops) - {id}, PendingIds(ops));
    if id in ops {
      MapSize(ops, id, ops[id]);
    } else {
      assert ops - {id} == ops;
    }
  }

  lemma WithdrawnKeepsUnique(ops: Operations, id: string)
    requires UniqueKeys(ops) && OnePerSession(ops)
    ensures UniqueKeys(Withdrawn(ops, id)) && OnePerSession(Withdrawn(ops, id))
  {
    var after := Withdrawn(ops, id);
    forall a, b | a in PendingIds(after) && b in PendingIds(after) && a != b
      ensures after[a].session != after[b].session
    {
      assert a in PendingIds(ops) && b in PendingIds(ops);
    }
  }

  lemma AddedKeepsValid(ops: Operations, op: Operation)
    requires Valid(ops) && op.id !in ops && op.status.Accepted?
    requires !HasKey(ops, op.requestKey) && !HasPending(ops, op.session)
    requires |PendingIds(ops)| < MAX_PENDING && |ops| < MAX_OPERATIONS
    ensures Valid(ops[op.id := op])
  {
    var after := ops[op.id := op];
    PendingIdsAfterUpdate(ops, op.id, op);
    MapSize(ops, op.id, op);
    assert op.id !in PendingIds(ops);
    assert Bounded(after);
    AddedKeepsUnique(ops, op);
  }

  lemma AddedKeepsUnique(ops: Operations, op: Operation)
    requires UniqueKeys(ops) && OnePerSession(ops) && op.id !in ops
    requires !HasKey(ops, op.requestKey) && !HasPending(ops, op.session)
    ensures UniqueKeys(ops[op.id := op]) && OnePerSession(ops[op.id := op])
  {
    PendingIdsAfterUpdate(ops, op.id, op);
    forall x | x in PendingIds(ops) ensures ops[x].session != op.session {
      assert x in ops && IsPending(ops[x]);
    }
  }

  /** A full registry always has a resolved operation to give up. */
  lemma FullHasOldest(ops: Operations)
    requires Valid(ops) && |ops| >= MAX_OPERATIONS
    ensures exists id :: IsOldest(ops, id)
  {
    var resolved := ops.Keys - PendingIds(ops);
    assert PendingIds(ops) <= ops.Keys;
    assert |resolved| == |ops.Keys| - |PendingIds(ops)|;
    assert |ops.Keys| == |ops|;
    assert resolved != {};
    var id := Oldest(ops, resolved);
    assert IsOldest(ops, id);
  }

  lemma {:induction false} Oldest(ops: Operations, ids: set<string>) returns (id: string)
    requires ids != {} && ids <= ops.Keys
    ensures id in ids && forall x :: x in ids ==> ops[id].updatedAt <= ops[x].updatedAt
    decreases |ids|
  {
    var some :| some in ids;
    if ids == {some} {
      id := some;
    } else {
      assert ids - {some} != {};
      var other := Oldest(ops, ids - {some});
      id := if ops[some].updatedAt <= ops[other].updatedAt then some else other;
    }
  }

  lemma InsertedKeepsValid(before: Operations, after: Operations, op: Operation)
    requires Valid(before) && op.id !in before && op.status.Accepted?
    requires !HasKey(before, op.requestKey) && !HasPending(before, op.session)
    requires |PendingIds(before)| < MAX_PENDING && Inserted(before, after, op)
    ensures Valid(after)
  {
    if |before| < MAX_OPERATIONS {
      AddedKeepsValid(before, op);
    } else {
      var oldest :| IsOldest(before, oldest) && after == (before - {oldest})[op.id := op];
      var rest := Withdrawn(before, oldest);
      WithdrawnKeepsValid(before, oldest);
      PendingIdsAfterRemoval(before, oldest);
      MapSize(before, oldest, before[oldest]);
      assert oldest !in PendingIds(before);
      AddedKeepsValid(rest, op);
    }
  }

  lemma UpdatedKeepsValid(ops: Operations, id: string, op: Operation)
    requires Valid(ops) && id in ops && SameRequest(ops[id], op)
    requires IsPending(op) ==> IsPending(ops[id])
    ensures Valid(ops[id := op])
  {
    UpdatedStaysBounded(ops, id, op);
    UpdatedKeepsUnique(ops, id, op);
  }

  lemma UpdatedStaysBounded(ops: Operations, id: string, op: Operation)
    requires Bounded(ops) && id in ops
    requires IsPending(op) ==> IsPending(ops[id])
    ensures Bounded(ops[id := op])
  {
    PendingIdsAfterUpdate(ops, id, op);
    SubsetSize(PendingIds(ops[id := op]), PendingIds(ops));
    MapSize(ops, id, op);
  }

  lemma UpdatedKeepsUnique(ops: Operations, id: string, op: Operation)
    requires UniqueKeys(ops) && OnePerSession(ops) && id in ops && SameRequest(ops[id], op)
    requires IsPending(op) ==> IsPending(ops[id])
    ensures UniqueKeys(ops[id := op]) && OnePerSession(ops[id := op])
  {
    var after := ops[id := op];
    forall x | x in PendingIds(after) ensures x in PendingIds(ops) && after[x].session == ops[x].session {
    }
  }

  lemma RestartedKeepsValid(ops: Operations, now: Time)
    requires Valid(ops)
    ensures Valid(Restarted(ops, now)) && PendingIds(Restarted(ops, now)) == {}
  {
    var after := Restarted(ops, now);
    assert after.Keys == ops.Keys;
    assert |after| == |after.Keys| && |ops| == |ops.Keys|;
    assert PendingIds(after) == {};
  }

  // ---------------------------------------------------------------- runs

  /** What the service does with the registry; a call whose save failed changes nothing and
      is no event. `set_running` is called for an accepted operation only. */
  datatype Event =
    | Request(session: SessionRef, key: string, id: string, at: Time)
    | Run(id: string, at: Time)
    | Finish(id: string, result: Result, at: Time)
    | Withdraw(id: string)
    | Restart(at: Time)

  ghost predicate Step(before: Operations, event: Event, after: Operations) {
    match event
    case Request(session, key, id, at) =>
      id !in before && exists reply :: Accepts(before, session, key, id, at, after, reply)
    case Run(id, at) => (id in before ==> before[id].status.Accepted?) && after == Ran(before, id, at)
    case Finish(id, result, at) => after == Finished(before, id, result, at)
    case Withdraw(id) => after == Withdrawn(before, id)
    case Restart(at) => after == Restarted(before, at)
  }

  /** `states[i + 1]` follows `states[i]` by `events[i]`. */
  ghost predicate IsRun(states: seq<Operations>, events: seq<Event>) {
    |states| == |events| + 1 && forall i :: 0 <= i < |events| ==> Step(states[i], events[i], states[i + 1])
  }

  lemma AcceptsKeepsValid(before: Operations, session: SessionRef, key: string, id: string, now: Time,
                          after: Operations, reply: Reply)
    requires Valid(before) && id !in before && Accepts(before, session, key, id, now, after, reply)
    ensures Valid(after)
  {
    if !C.Blank(key) && !HasKey(before, key) && !HasPending(before, session) && |PendingIds(before)| < MAX_PENDING {
      InsertedKeepsValid(before, after, NewOperation(id, session, key, now));
    }
  }

  lemma StepKeepsValid(before: Operations, event: Event, after: Operations)
    requires Valid(before) && Step(before, event, after)
    ensures Valid(after)
  {
    match event {
      case Request(session, key, id, at) =>
        var reply :| Accepts(before, session, key, id, at, after, reply);
        AcceptsKeepsValid(before, session, key, id, at, after, reply);
      case Run(id, at) =>
        if id in before {
          UpdatedKeepsValid(before, id, before[id].(status := Running, updatedAt := at));
        }
      case Finish(id, result, at) =>
        if id in before {
          UpdatedKeepsValid(before, id, Resolve(before[id], result, at));
        }
      case Withdraw(id) => WithdrawnKeepsValid(before, id);
      case Restart(at) => RestartedKeepsValid(before, at);
    }
  }

  /** Over every run: request keys stay unique, no session has two pending operations, at most
      32 are pending and at most 256 are kept. */
  lemma {:induction false} RunKeepsValid(states: seq<Operations>, events: seq<Event>, n: nat)
    requires IsRun(states, events) && Valid(states[0]) && n < |states|
    ensures Valid(states[n])
  {
    if n > 0 {
      RunKeepsValid(states, events, n - 1);
      StepKeepsValid(states[n - 1], events[n - 1], states[n]);
    }
  }

  /** The events that end the pending life of an operation. */
  predicate Ends(event: Event, id: string) {
    || (event.Finish? && event.id == id)
    || (event.Withdraw? && event.id == id)
    || event.Restart?
  }

  /** An operation keeps its identity. */
  predicate SameRequest(a: Operation, b: Operation) {
    a.id == b.id && a.requestKey == b.requestKey && a.session == b.session
  }

  lemma PendingSurvivesRequest(before: Operations, after: Operations, op: Operation, id: string)
    requires Inserted(before, after, op) && op.id !in before && id in before && IsPending(before[id])
    ensures id in after && after[id] == before[id]
  {
    if |before| >= MAX_OPERATIONS {
      var oldest :| IsOldest(before, oldest) && after == (before - {oldest})[op.id := op];
    }
  }

  lemma PendingSurvivesStep(before: Operations, event: Event, after: Operations, id: string)
    requires Valid(before) && Step(before, event, after)
    requires id in before && IsPending(before[id]) && !Ends(event, id)
    ensures id in after && IsPending(after[id]) && SameRequest(before[id], after[id])
  {
    if event.Request? {
      var reply :| Accepts(before, event.session, event.key, event.id, event.at, after, reply);
      if after != before {
        PendingSurvivesRequest(before, after, NewOperation(event.id, event.session, event.key, event.at), id);
      }
    }
  }

  /** A pending operation is never evicted: it stays pending, under its own request, until it
      finishes, is withdrawn or the service restarts. */
  lemma {:induction false} PendingIsNeverEvicted(states: seq<Operations>, events: seq<Event>, id: string, n: nat)
    requires IsRun(states, events) && Valid(states[0]) && n < |states|
    requires id in states[0] && IsPending(states[0][id])
    requires forall i :: 0 <= i < n ==> !Ends(events[i], id)
    ensures id in states[n] && IsPending(states[n][id]) && SameRequest(states[0][id], states[n][id])
  {
    if n > 0 {
      PendingIsNeverEvicted(states, events, id, n - 1);
      RunKeepsValid(states, events, n - 1);
      PendingSurvivesStep(states[n - 1], events[n - 1], states[n], id);
    }
  }

  /** Repeating a request finds the operation it started, for as long as it is kept, and
      starts nothing. */
  lemma RepeatFindsTheOperation(ops: Operations, id: string, newId: string, now: Time, after: Operations, reply: Reply)
    requires Valid(ops) && id in ops && !C.Blank(ops[id].requestKey)
    requires Accepts(ops, ops[id].session, ops[id].requestKey, newId, now, after, reply)
    ensures reply == Known(ops[id]) && after == ops
  {
  }

  /** An operation leaves the registry only when it is withdrawn, or as the oldest resolved one of a
      full registry that takes in another. */
  lemma LeavesOnlySo(before: Operations, event: Event, after: Operations, id: string)
    requires Step(before, event, after) && id in before && id !in after
    ensures event == Withdraw(id) || (event.Request? && |before| >= MAX_OPERATIONS && IsOldest(before, id))
  {
    if event.Request? {
      var reply :| Accepts(before, event.session, event.key, event.id, event.at, after, reply);
      assert Inserted(before, after, NewOperation(event.id, event.session, event.key, event.at));
    }
  }

  lemma KeepsItsRequest(before: Operations, event: Event, after: Operations, id: string)
    requires Step(before, event, after) && id in before && id in after
    ensures SameRequest(before[id], after[id])
  {
    if event.Request? {
      var reply :| Accepts(before, event.session, event.key, event.id, event.at, after, reply);
    }
  }

  /** No event but a request for it brings a request key in. */
  lemma KeysComeFromRequests(before: Operations, event: Event, after: Operations, key: string)
    requires Step(before, event, after) && !(event.Request? && event.key == key) && HasKey(after, key)
    ensures HasKey(before, key)
  {
    var x :| x in after && after[x].requestKey == key;
    if event.Request? {
      var reply :| Accepts(before, event.session, event.key, event.id, event.at, after, reply);
      assert x in before && before[x].requestKey == key;
    } else {
      assert x in before && before[x].requestKey == key;
    }
  }

  /** The operation left the registry somewhere along the run. */
  ghost predicate Left(states: seq<Operations>, id: string, n: nat)
    requires n < |states|
  {
    exists i: nat :: i < n && id in states[i] && id !in states[i + 1]
  }

  predicate Unrequested(events: seq<Event>, key: string, n: nat)
    requires n <= |events|
  {
    forall i :: 0 <= i < n ==> !(events[i].Request? && events[i].key == key)
  }

  lemma {:induction false} KeptOrGone(states: seq<Operations>, events: seq<Event>, id: string, n: nat)
    requires IsRun(states, events) && Valid(states[0]) && n < |states| && id in states[0]
    requires Unrequested(events, states[0][id].requestKey, n)
    ensures if Left(states, id, n) then !HasKey(states[n], states[0][id].requestKey)
            else id in states[n] && SameRequest(states[0][id], states[n][id])
  {
    if n > 0 {
      var key := states[0][id].requestKey;
      KeptOrGone(states, events, id, n - 1);
      RunKeepsValid(states, events, n - 1);
      assert Step(states[n - 1], events[n - 1], states[n]);
      if HasKey(states[n], key) {
        KeysComeFromRequests(states[n - 1], events[n - 1], states[n], key);
      }
      if !Left(states, id, n - 1) {
        NextKeptOrGone(states[n - 1], events[n - 1], states[n], id, key);
        assert id !in states[n] ==> Left(states, id, n);
        assert Left(states, id, n) ==> id !in states[n] by {
          if Left(states, id, n) {
            var i: nat :| i < n && id in states[i] && id !in states[i + 1];
          }
        }
      } else {
        var i: nat :| i < n - 1 && id in states[i] && id !in states[i + 1];
        assert Left(states, id, n);
      }
    }
  }

  lemma NextKeptOrGone(before: Operations, event: Event, after: Operations, id: string, key: string)
    requires Valid(before) && Step(before, event, after) && id in before && before[id].requestKey == key
    requires !(event.Request? && event.key == key)
    ensures if id in after then SameRequest(before[id], after[id]) else !HasKey(after, key)
  {
    if id in after {
      KeepsItsRequest(before, event, after, id);
    } else if HasKey(after, key) {
      var x :| x in after && after[x].requestKey == key;
      LeftKeyIsUnique(before, event, after, id, x);
    }
  }

  lemma LeftKeyIsUnique(before: Operations, event: Event, after: Operations, id: string, x: string)
    requires Valid(before) && Step(before, event, after) && id in before && id !in after && x in after
    requires !(event.Request? && event.key == before[id].requestKey)
    ensures after[x].requestKey != before[id].requestKey
  {
    if event.Request? {
      var reply :| Accepts(before, event.session, event.key, event.id, event.at, after, reply);
    }
  }

  /** Over every run, repeating a request starts a second operation if and only if the first one has
      left the registry and the session may start one now; until then the first one answers. */
  lemma RepeatStartsIffGone(states: seq<Operations>, events: seq<Event>, id: string, n: nat,
                            newId: string, now: Time, after: Operations, reply: Reply)
    requires IsRun(states, events) && Valid(states[0]) && n < |states| && id in states[0]
    requires Unrequested(events, states[0][id].requestKey, n) && !C.Blank(states[0][id].requestKey)
    requires Accepts(states[n], states[0][id].session, states[0][id].requestKey, newId, now, after, reply)
    ensures reply.Started? <==>
      Left(states, id, n) && !HasPending(states[n], states[0][id].session) && |PendingIds(states[n])| < MAX_PENDING
    ensures !Left(states, id, n) ==> id in states[n] && reply == Known(states[n][id]) && after == states[n]
  {
    KeptOrGone(states, events, id, n);
    RunKeepsValid(states, events, n);
    if !Left(states, id, n) {
      RepeatFindsTheOperation(states[n], id, newId, now, after, reply);
    }
  }

  /** While an operation is pending, no other request for its session starts one. */
  lemma OnePendingPerSession(ops: Operations, id: string, key: string, newId: string, now: Time,
                             after: Operations, reply: Reply)
    requires Valid(ops) && id in ops && IsPending(ops[id])
    requires Accepts(ops, ops[id].session, key, newId, now, after, reply)
    ensures !reply.Started? && after == ops
  {
  }

  /** A restart turns exactly the pending operations into unknown ones. */
  lemma RestartIsExact(ops: Operations, now: Time, id: string)
    requires id in ops
    ensures id in Restarted(ops, now) && SameRequest(ops[id], Restarted(ops, now)[id])
    ensures IsPending(ops[id]) ==> Restarted(ops, now)[id].status == Unknown
    ensures !IsPending(ops[id]) ==> Restarted(ops, now)[id] == ops[id]
  {
  }

  // ---------------------------------------------------------------- the object

  /** The registry in memory and its file. */
  class Registry {
    var operations: Operations
    var disk: Operations

    ghost predicate Consistent()
      reads this
    {
      Valid(operations) && operations == disk
    }

    constructor (operations: Operations, disk: Operations)
      ensures this.operations == operations && this.disk == disk
    {
      this.operations, this.disk := operations, disk;
    }

    method Save(writes: bool) returns (saved: bool)
      modifies this`disk
      ensures saved == writes && disk == if writes then operations else old(disk)
    {
      if writes {
        disk := operations;
      }
      return writes;
    }

    /** The reply to a request that starts nothing. */
    method Repeated(session: SessionRef, key: string) returns (reply: Option<Reply>)
      requires Consistent()
      ensures reply.None? <==>
        !C.Blank(key) && !HasKey(operations, key) && !HasPending(operations, session)
        && |PendingIds(operations)| < MAX_PENDING
      ensures reply.Some? ==> !reply.value.Started?
      ensures reply.Some? ==> forall id, now :: Accepts(operations, session, key, id, now, operations, reply.value)
    {
      if C.Blank(key) {
        return Some(Refused);
      }
      if x :| x in operations && operations[x].requestKey == key {
        return Some(if operations[x].session != session then Refused else Known(operations[x]));
      }
      if x :| x in operations && IsPending(operations[x]) && operations[x].session == session {
        return Some(Known(operations[x]));
      }
      if |PendingIds(operations)| >= MAX_PENDING {
        return Some(Refused);
      }
      return None;
    }

    /** A full registry gives up its oldest resolved operation for the new one. */
    method Insert(operation: Operation)
      requires Valid(operations) && operation.id !in operations
      modifies this`operations
      ensures Inserted(old(operations), operations, operation)
    {
      if |operations| >= MAX_OPERATIONS {
        FullHasOldest(operations);
        var oldest := FindOldest(operations);
        operations := operations - {oldest};
      }
      operations := operations[operation.id := operation];
    }

    /** `id` is a fresh UUID. A request that would start an operation is refused, and leaves
        nothing behind, when the registry cannot be saved. */
    method Accept(session: SessionRef, key: string, id: string, now: Time, writes: bool) returns (reply: Reply)
      requires Consistent() && id !in operations
      modifies this
      ensures Consistent()
      ensures if writes || reply != Refused then Accepts(old(operations), session, key, id, now, operations, reply)
              else operations == old(operations)
      ensures !writes ==> !reply.Started?
    {
      var repeated := Repeated(session, key);
      if repeated.Some? {
        return repeated.value;
      }
      var previous := operations;
      var operation := NewOperation(id, session, key, now);
      Insert(operation);
      InsertedKeepsValid(previous, operations, operation);
      var saved := Save(writes);
      if !saved {
        operations := previous;
        return Refused;
      }
      return Started(operation);
    }

    /** The operation of a request key, or whether the key belongs to another session. */
    method FindRequest(session: SessionRef, key: string) returns (found: Option<Operation>, conflict: bool)
      requires Consistent()
      ensures found.Some? ==> found.value.id in operations && operations[found.value.id] == found.value
                              && found.value.requestKey == key && found.value.session == session && !conflict
      ensures conflict <==>
        exists x :: x in operations && operations[x].requestKey == key && operations[x].session != session
      ensures found.None? && !conflict <==> !HasKey(operations, key)
    {
      if x :| x in operations && operations[x].requestKey == key {
        if operations[x].session != session {
          return None, true;
        }
        return Some(operations[x]), false;
      }
      return None, false;
    }

    /** Starting a pending operation keeps the registry sound; `serve` starts no other. */
    method SetRunning(id: string, now: Time, writes: bool) returns (saved: bool)
      requires Consistent()
      modifies this
      ensures saved == writes && operations == disk
      ensures (id in old(operations) ==> IsPending(old(operations)[id])) ==> Consistent()
      ensures operations == if writes then Ran(old(operations), id, now) else old(operations)
    {
      var previous := operations;
      if id in operations {
        if IsPending(operations[id]) {
          UpdatedKeepsValid(operations, id, operations[id].(status := Running, updatedAt := now));
        }
        operations := operations[id := operations[id].(status := Running, updatedAt := now)];
      }
      saved := Save(writes);
      if !saved {
        operations := previous;
      }
    }

    method Finish(id: string, result: Result, now: Time, writes: bool) returns (done: Option<Operation>)
      requires Consistent()
      modifies this
      ensures Consistent()
      ensures operations == if writes then Finished(old(operations), id, result, now) else old(operations)
      ensures done == if id in old(operations) && writes then Some(Resolve(old(operations)[id], result, now)) else None
    {
      var previous := operations;
      if id !in operations {
        return None;
      }
      var operation := operations[id];
      match result {
        case Value(text) =>
          operation := operation.(status := Succeeded, result := Some(text), error := None);
        case Error(message, unknown) =>
          operation := operation.(status := if unknown then Unknown else Failed, result := None,
                                  error := Some(message));
      }
      operation := operation.(updatedAt := now);
      UpdatedKeepsValid(operations, id, operation);
      operations := operations[id := operation];
      var saved := Save(writes);
      if !saved {
        operations := previous;
        return None;
      }
      return Some(operation);
    }

    method Withdraw(id: string, writes: bool)
      requires Consistent()
      modifies this
      ensures Consistent()
      ensures operations == if writes then Withdrawn(old(operations), id) else old(operations)
    {
      var previous := operations;
      WithdrawnKeepsValid(operations, id);
      operations := operations - {id};
      var saved := Save(writes);
      if !saved {
        operations := previous;
      }
    }
  }

  /** The map that a file's list of operations is read into: a repeated id keeps its last entry. */
  function Collected(file: seq<Operation>): Operations
    decreases |file|
  {
    if file == [] then map[]
    else
      var last := file[|file| - 1];
      Collected(file[..|file| - 1])[last.id := last]
  }

  /** A start: every pending operation of the file becomes unknown, whatever the file holds, and the
      file is rewritten; none when that fails. A file that a sound registry wrote gives a sound one. */
  method Load(file: seq<Operation>, now: Time, writes: bool) returns (registry: Registry?)
    ensures registry != null <==> writes
    ensures registry != null ==>
      && fresh(registry) && registry.operations == registry.disk == Restarted(Collected(file), now)
      && PendingIds(registry.operations) == {}
      && (Valid(Collected(file)) ==> registry.Consistent())
  {
    var operations: Operations := map[];
    assert file[..0] == [];
    for i := 0 to |file|
      invariant operations == Restarted(Collected(file[..i]), now)
    {
      assert file[..i + 1][..i] == file[..i];
      var operation := file[i];
      if IsPending(operation) {
        operation := operation.(status := Unknown, error := Some(RESTARTED), updatedAt := now);
      }
      operations := operations[file[i].id := operation];
    }
    assert file[..|file|] == file;
    if !writes {
      return null;
    }
    if Valid(Collected(file)) {
      RestartedKeepsValid(Collected(file), now);
    }
    registry := new Registry(operations, operations);
  }

  method FindOldest(ops: Operations) returns (oldest: string)
    requires exists id :: IsOldest(ops, id)
    ensures IsOldest(ops, oldest)
  {
    var left := set id | id in ops && !IsPending(ops[id]);
    ghost var some :| IsOldest(ops, some);
    assert some in left;
    oldest :| oldest in left;
    while left != {}
      invariant oldest in ops && !IsPending(ops[oldest])
      invariant forall x :: x in ops && !IsPending(ops[x]) && x !in left ==> ops[oldest].updatedAt <= ops[x].updatedAt
    {
      var x :| x in left;
      if x in ops && ops[x].updatedAt < ops[oldest].updatedAt {
        oldest := x;
      }
      left := left - {x};
    }
  }
}
