/** The authorization list and its lifecycle (src/state.rs, WatchlistStore). */
module Watchlist {
  import opened Prelude
  import opened Models

  datatype Doc = Doc(targets: seq<WatchTarget>, excluded: set<string>)

  function TargetKeys(targets: seq<WatchTarget>): set<string> {
    set i | 0 <= i < |targets| :: targets[i].Key()
  }

  function Keys(doc: Doc): set<string> { TargetKeys(doc.targets) }

  ghost predicate Unique(targets: seq<WatchTarget>) {
    forall i, j :: 0 <= i < j < |targets| ==> targets[i].Key() != targets[j].Key()
  }

  /** What add, remove and reconcile keep: one entry per key, no excluded entry. */
  ghost predicate Valid(doc: Doc) {
    && Unique(doc.targets)
    && Keys(doc) !! doc.excluded
  }

  /** The position of a key, or the length of the list when it is absent. */
  function IndexOf(targets: seq<WatchTarget>, key: string): (i: nat)
    ensures i <= |targets|
    ensures i < |targets| ==> targets[i].Key() == key
    ensures forall j :: 0 <= j < i ==> targets[j].Key() != key
    ensures i < |targets| <==> key in TargetKeys(targets)
  {
    if targets == [] then 0
    else if targets[0].Key() == key then 0
    else
      var rest := targets[1..];
      assert forall j :: 1 <= j < |targets| ==> targets[j] == rest[j - 1];
      assert key in TargetKeys(targets) ==> key in TargetKeys(rest) by {
        if key in TargetKeys(targets) {
          var j :| 0 <= j < |targets| && targets[j].Key() == key;
          assert rest[j - 1].Key() == key;
        }
      }
      1 + IndexOf(rest, key)
  }

  // ---------------------------------------------------------------- add and remove

  function AddDoc(doc: Doc, target: WatchTarget): Doc {
    var i := IndexOf(doc.targets, target.Key());
    var targets :=
      if i < |doc.targets| then
        var existing := doc.targets[i];
        doc.targets[i := existing.(addedAt := target.addedAt, source := Manual,
                                   note := if target.note.Some? then target.note else existing.note)]
      else doc.targets + [target];
    Doc(targets, doc.excluded - {target.Key()})
  }

  function Without(targets: seq<WatchTarget>, key: string): seq<WatchTarget> {
    if targets == [] then []
    else (if targets[0].Key() != key then [targets[0]] else []) + Without(targets[1..], key)
  }

  function RemoveDoc(doc: Doc, key: string): Doc {
    Doc(Without(doc.targets, key), doc.excluded + {key})
  }

  /** A manual addition makes exactly its key a member and clears its exclusion. */
  lemma AddMembership(doc: Doc, target: WatchTarget)
    requires Valid(doc)
    ensures Valid(AddDoc(doc, target))
    ensures Keys(AddDoc(doc, target)) == Keys(doc) + {target.Key()}
    ensures AddDoc(doc, target).excluded == doc.excluded - {target.Key()}
  {
    var added := AddDoc(doc, target);
    var i := IndexOf(doc.targets, target.Key());
    var n := |doc.targets|;
    assert forall j :: 0 <= j < n ==> added.targets[j].Key() == doc.targets[j].Key();
    forall k ensures k in Keys(added) <==> k in Keys(doc) + {target.Key()} {
      if k in Keys(doc) {
        var j :| 0 <= j < n && doc.targets[j].Key() == k;
        assert added.targets[j].Key() == k;
      } else if k == target.Key() {
        assert added.targets[n].Key() == k;
      }
    }
  }

  lemma {:induction false} WithoutMembership(targets: seq<WatchTarget>, key: string)
    ensures TargetKeys(Without(targets, key)) == TargetKeys(targets) - {key}
    ensures Unique(targets) ==> Unique(Without(targets, key))
  {
    if targets == [] {
    } else {
      var head, tail := targets[0], targets[1..];
      var kept := Without(tail, key);
      WithoutMembership(tail, key);
      assert targets == [head] + tail;
      KeysOfConcat([head], tail);
      KeysOfConcat(if head.Key() != key then [head] else [], kept);
      if Unique(targets) {
        assert Unique(tail) by {
          assert forall i :: 0 <= i < |tail| ==> tail[i] == targets[i + 1];
        }
        if head.Key() != key {
          assert head.Key() !in TargetKeys(tail) by {
            assert forall i :: 0 <= i < |tail| ==> tail[i] == targets[i + 1];
          }
          UniqueCons(head, kept);
        }
      }
    }
  }

  lemma KeysOfConcat(a: seq<WatchTarget>, b: seq<WatchTarget>)
    ensures TargetKeys(a + b) == TargetKeys(a) + TargetKeys(b)
  {
    var c := a + b;
    forall k ensures k in TargetKeys(c) <==> k in TargetKeys(a) + TargetKeys(b) {
      if k in TargetKeys(a) {
        var i :| 0 <= i < |a| && a[i].Key() == k;
        assert c[i].Key() == k;
      }
      if k in TargetKeys(b) {
        var i :| 0 <= i < |b| && b[i].Key() == k;
        assert c[|a| + i].Key() == k;
      }
    }
  }

  lemma UniqueCons(head: WatchTarget, tail: seq<WatchTarget>)
    requires Unique(tail) && head.Key() !in TargetKeys(tail)
    ensures Unique([head] + tail)
  {
    var all := [head] + tail;
    forall i, j | 0 <= i < j < |all| ensures all[i].Key() != all[j].Key() {
      assert all[j] == tail[j - 1];
      assert tail[j - 1].Key() in TargetKeys(tail);
    }
  }

  /** A removal drops exactly its key and excludes it from every later discovery. */
  lemma RemoveMembership(doc: Doc, key: string)
    requires Valid(doc)
    ensures Valid(RemoveDoc(doc, key))
    ensures Keys(RemoveDoc(doc, key)) == Keys(doc) - {key}
    ensures RemoveDoc(doc, key).excluded == doc.excluded + {key}
  {
    WithoutMembership(doc.targets, key);
  }

  // ---------------------------------------------------------------- reconcile

  function Cutoff(now: Time, staleAfterSeconds: int): Time { now - Seconds(staleAfterSeconds) }

  /** One discovered session: merge it into its entry, or let fresh activity join. */
  function Absorb(doc: Doc, session: Session, now: Time, cutoff: Time): Doc {
    var i := IndexOf(doc.targets, session.Key());
    if session.Key() in doc.excluded then doc
    else if i < |doc.targets| then
      doc.(targets := doc.targets[i := Touch(doc.targets[i], session)])
    else if Reaches(session.updatedAt, cutoff) then
      doc.(targets := doc.targets + [Discovered(session, now)])
    else doc
  }

  function Touch(target: WatchTarget, session: Session): WatchTarget {
    target.(title := Some(session.title),
            lastActivityAt := Later(target.lastActivityAt, session.updatedAt))
  }

  function Discovered(session: Session, now: Time): WatchTarget {
    WatchTarget(Automatic, session.provider, session.id, None, Some(session.title), now, session.updatedAt)
  }

  function AbsorbAll(doc: Doc, sessions: seq<Session>, now: Time, cutoff: Time): Doc {
    if sessions == [] then doc
    else
      var n := |sessions| - 1;
      Absorb(AbsorbAll(doc, sessions[..n], now, cutoff), sessions[n], now, cutoff)
  }

  predicate Current(target: WatchTarget, protected: set<string>, cutoff: Time) {
    target.Key() in protected || target.InactivitySince(None) >= cutoff
  }

  function Retain(targets: seq<WatchTarget>, protected: set<string>, cutoff: Time): (kept: seq<WatchTarget>)
    ensures forall t :: t in kept <==> t in targets && Current(t, protected, cutoff)
  {
    if targets == [] then []
    else
      var n := |targets| - 1;
      Retain(targets[..n], protected, cutoff)
      + (if Current(targets[n], protected, cutoff) then [targets[n]] else [])
  }

  function ReconcileDoc(doc: Doc, sessions: seq<Session>, now: Time, staleAfterSeconds: int,
                        protected: set<string>): Doc
  {
    var cutoff := Cutoff(now, staleAfterSeconds);
    var absorbed := AbsorbAll(doc, sessions, now, cutoff);
    absorbed.(targets := Retain(absorbed.targets, protected, cutoff))
  }

  // ------------------------------------------- what discovery says about one key

  /** The latest activity that any discovered session reports for a key. */
  function MaxActivity(sessions: seq<Session>, key: string): Option<Time> {
    if sessions == [] then None
    else
      var n := |sessions| - 1;
      var before := MaxActivity(sessions[..n], key);
      if sessions[n].Key() == key then Later(before, sessions[n].updatedAt) else before
  }

  /** The title of the last discovered session with a key. */
  function LastTitle(sessions: seq<Session>, key: string): Option<string> {
    if sessions == [] then None
    else
      var n := |sessions| - 1;
      if sessions[n].Key() == key then Some(sessions[n].title) else LastTitle(sessions[..n], key)
  }

  /** An entry after every session with its key was merged into it. */
  function Merged(target: WatchTarget, sessions: seq<Session>, excluded: set<string>): WatchTarget {
    if target.Key() in excluded then target
    else
      var title := LastTitle(sessions, target.Key());
      target.(title := if title.Some? then title else target.title,
              lastActivityAt := Later(target.lastActivityAt, MaxActivity(sessions, target.Key())))
  }

  /** A key that discovery may make a member on its own. */
  predicate Joins(sessions: seq<Session>, key: string, excluded: set<string>, cutoff: Time) {
    key !in excluded && Reaches(MaxActivity(sessions, key), cutoff)
  }

  /** An entry that already carries everything the sessions say about it. */
  predicate Settled(target: WatchTarget, sessions: seq<Session>, excluded: set<string>) {
    Merged(target, sessions, excluded) == target
  }

  /** The state of the list after any number of sessions, entry by entry: the old entries
      come first, each merged with what was found for it, and the new ones are exactly the
      keys that joined. */
  ghost predicate Absorbed(doc: Doc, sessions: seq<Session>, cutoff: Time, result: Doc) {
    && result.excluded == doc.excluded
    && Unique(result.targets)
    && |doc.targets| <= |result.targets|
    && OldEntries(doc, sessions, result.targets)
    && NewEntries(doc, sessions, cutoff, result.targets)
    && JoinersListed(sessions, doc.excluded, cutoff, result.targets)
  }

  ghost predicate OldEntries(doc: Doc, sessions: seq<Session>, targets: seq<WatchTarget>)
    requires |doc.targets| <= |targets|
  {
    forall i :: 0 <= i < |doc.targets| ==> targets[i] == Merged(doc.targets[i], sessions, doc.excluded)
  }

  ghost predicate NewEntries(doc: Doc, sessions: seq<Session>, cutoff: Time, targets: seq<WatchTarget>)
    requires |doc.targets| <= |targets|
  {
    forall i :: |doc.targets| <= i < |targets| ==> NewEntry(targets[i], sessions, doc.excluded, cutoff)
  }

  predicate NewEntry(t: WatchTarget, sessions: seq<Session>, excluded: set<string>, cutoff: Time) {
    && t.source == Automatic
    && t.lastActivityAt == MaxActivity(sessions, t.Key())
    && t.title == LastTitle(sessions, t.Key())
    && Joins(sessions, t.Key(), excluded, cutoff)
  }

  ghost predicate JoinersListed(sessions: seq<Session>, excluded: set<string>, cutoff: Time,
                                targets: seq<WatchTarget>)
  {
    forall k :: Joins(sessions, k, excluded, cutoff) ==> k in TargetKeys(targets)
  }

  lemma {:induction false} AbsorbAllSpec(doc: Doc, sessions: seq<Session>, now: Time, cutoff: Time)
    requires Unique(doc.targets)
    ensures Absorbed(doc, sessions, cutoff, AbsorbAll(doc, sessions, now, cutoff))
  {
    if sessions == [] {
    } else {
      var n := |sessions| - 1;
      var before := AbsorbAll(doc, sessions[..n], now, cutoff);
      AbsorbAllSpec(doc, sessions[..n], now, cutoff);
      AbsorbSpec(doc, sessions, now, cutoff, before);
    }
  }

  /** Merging one more session touches the entry with its key and no other. */
  lemma MergedStep(target: WatchTarget, sessions: seq<Session>, excluded: set<string>)
    requires sessions != []
    ensures var n := |sessions| - 1;
            Merged(target, sessions, excluded) ==
              if sessions[n].Key() == target.Key() && target.Key() !in excluded
              then Touch(Merged(target, sessions[..n], excluded), sessions[n])
              else Merged(target, sessions[..n], excluded)
  {
  }

  lemma JoinsStep(sessions: seq<Session>, key: string, excluded: set<string>, cutoff: Time)
    requires sessions != []
    ensures var n := |sessions| - 1;
            Joins(sessions, key, excluded, cutoff) <==>
              || Joins(sessions[..n], key, excluded, cutoff)
              || (sessions[n].Key() == key && key !in excluded && Reaches(sessions[n].updatedAt, cutoff))
  {
  }

  lemma KeysFromIndices(a: seq<WatchTarget>, b: seq<WatchTarget>)
    requires |a| <= |b| && forall j :: 0 <= j < |a| ==> b[j].Key() == a[j].Key()
    ensures TargetKeys(a) <= TargetKeys(b)
  {
    forall k | k in TargetKeys(a) ensures k in TargetKeys(b) {
      var j :| 0 <= j < |a| && a[j].Key() == k;
      assert b[j].Key() == k;
    }
  }

  lemma AbsorbSpec(doc: Doc, sessions: seq<Session>, now: Time, cutoff: Time, before: Doc)
    requires sessions != []
    requires Absorbed(doc, sessions[..|sessions| - 1], cutoff, before)
    ensures Absorbed(doc, sessions, cutoff, Absorb(before, sessions[|sessions| - 1], now, cutoff))
  {
    var n := |sessions| - 1;
    var s := sessions[n];
    var i := IndexOf(before.targets, s.Key());
    var after := Absorb(before, s, now, cutoff);
    AbsorbKeys(before, s, now, cutoff);
    forall j | 0 <= j < |doc.targets|
      ensures after.targets[j] == Merged(doc.targets[j], sessions, doc.excluded)
    {
      assert before.targets[j] == Merged(doc.targets[j], sessions[..n], doc.excluded);
      MergedStep(doc.targets[j], sessions, doc.excluded);
      OnlyPosition(before.targets, s.Key(), j);
    }
    forall j | |doc.targets| <= j < |after.targets|
      ensures NewEntry(after.targets[j], sessions, doc.excluded, cutoff)
    {
      JoinsStep(sessions, after.targets[j].Key(), doc.excluded, cutoff);
      if j < |before.targets| {
        assert NewEntry(before.targets[j], sessions[..n], doc.excluded, cutoff);
        OnlyPosition(before.targets, s.Key(), j);
      } else {
        assert !Joins(sessions[..n], s.Key(), doc.excluded, cutoff);
      }
    }
    forall k | Joins(sessions, k, doc.excluded, cutoff) ensures k in TargetKeys(after.targets) {
      JoinsStep(sessions, k, doc.excluded, cutoff);
    }
  }

  lemma OnlyPosition(targets: seq<WatchTarget>, key: string, j: nat)
    requires Unique(targets) && j < |targets|
    ensures targets[j].Key() == key <==> j == IndexOf(targets, key)
  {
    assert targets[j].Key() in TargetKeys(targets);
  }

  /** The keys of the list after one session. */
  lemma AbsorbKeys(doc: Doc, s: Session, now: Time, cutoff: Time)
    requires Unique(doc.targets)
    ensures var after := Absorb(doc, s, now, cutoff);
            && Unique(after.targets)
            && TargetKeys(after.targets)
               == TargetKeys(doc.targets)
                  + (if s.Key() !in doc.excluded && Reaches(s.updatedAt, cutoff) then {s.Key()} else {})
  {
    var after := Absorb(doc, s, now, cutoff);
    var i := IndexOf(doc.targets, s.Key());
    if |after.targets| == |doc.targets| {
      assert forall j :: 0 <= j < |doc.targets| ==> after.targets[j].Key() == doc.targets[j].Key();
      KeysFromIndices(doc.targets, after.targets);
      KeysFromIndices(after.targets, doc.targets);
    } else {
      KeysOfConcat(doc.targets, [Discovered(s, now)]);
      forall j | 0 <= j < |doc.targets| ensures doc.targets[j].Key() != s.Key() {
        assert doc.targets[j].Key() in TargetKeys(doc.targets);
      }
      var one := [Discovered(s, now)];
      assert one[0].Key() == s.Key();
      assert TargetKeys(one) == {s.Key()};
    }
  }

  lemma {:induction false} RetainUnique(targets: seq<WatchTarget>, protected: set<string>, cutoff: Time)
    requires Unique(targets)
    ensures Unique(Retain(targets, protected, cutoff))
  {
    if targets == [] {
    } else {
      var n := |targets| - 1;
      RetainUnique(targets[..n], protected, cutoff);
      var kept := Retain(targets[..n], protected, cutoff);
      forall i | 0 <= i < |kept| ensures kept[i].Key() != targets[n].Key() {
        assert kept[i] in kept;
        var j :| 0 <= j < n && targets[j] == kept[i];
      }
    }
  }

  lemma {:induction false} RetainAll(targets: seq<WatchTarget>, protected: set<string>, cutoff: Time)
    requires forall i :: 0 <= i < |targets| ==> Current(targets[i], protected, cutoff)
    ensures Retain(targets, protected, cutoff) == targets
  {
    if targets == [] {
    } else {
      var n := |targets| - 1;
      RetainAll(targets[..n], protected, cutoff);
      assert targets == targets[..n] + [targets[n]];
    }
  }

  /** The entry of a member. */
  function EntryOf(doc: Doc, key: string): WatchTarget
    requires key in Keys(doc)
  {
    doc.targets[IndexOf(doc.targets, key)]
  }

  lemma EntryIsUnique(doc: Doc, i: nat)
    requires Unique(doc.targets) && i < |doc.targets|
    ensures doc.targets[i].Key() in Keys(doc)
    ensures EntryOf(doc, doc.targets[i].Key()) == doc.targets[i]
  {
    assert doc.targets[i].Key() in Keys(doc);
  }

  /** A key that was listed keeps its old position, so no later entry carries it. */
  lemma OldKeyIsOld(doc: Doc, targets: seq<WatchTarget>, i: nat)
    requires |doc.targets| <= i < |targets| && Unique(targets)
    requires forall j :: 0 <= j < |doc.targets| ==> targets[j].Key() == doc.targets[j].Key()
    ensures targets[i].Key() !in Keys(doc)
  {
  }

  /** Who is a member after a reconcile, said without its loop: a member or a key with
      fresh, non-excluded activity that is protected or whose merged activity reaches the
      cutoff. */
  ghost predicate Kept(doc: Doc, sessions: seq<Session>, cutoff: Time, protected: set<string>, key: string) {
    if key in Keys(doc)
    then Current(Merged(EntryOf(doc, key), sessions, doc.excluded), protected, cutoff)
    else Joins(sessions, key, doc.excluded, cutoff)
  }

  lemma ReconcileMembership(doc: Doc, sessions: seq<Session>, now: Time, stale: int,
                            protected: set<string>, key: string)
    requires Unique(doc.targets)
    ensures var after := ReconcileDoc(doc, sessions, now, stale, protected);
            && after.excluded == doc.excluded
            && (key in Keys(after) <==> Kept(doc, sessions, Cutoff(now, stale), protected, key))
  {
    AbsorbAllSpec(doc, sessions, now, Cutoff(now, stale));
    if key in Keys(ReconcileDoc(doc, sessions, now, stale, protected)) {
      MemberWasKept(doc, sessions, now, stale, protected, key);
    }
    if Kept(doc, sessions, Cutoff(now, stale), protected, key) {
      KeptIsMember(doc, sessions, now, stale, protected, key);
    }
  }

  lemma MemberWasKept(doc: Doc, sessions: seq<Session>, now: Time, stale: int, protected: set<string>, key: string)
    requires Unique(doc.targets) && key in Keys(ReconcileDoc(doc, sessions, now, stale, protected))
    ensures Kept(doc, sessions, Cutoff(now, stale), protected, key)
  {
    var cutoff := Cutoff(now, stale);
    var absorbed := AbsorbAll(doc, sessions, now, cutoff);
    var after := ReconcileDoc(doc, sessions, now, stale, protected);
    AbsorbAllSpec(doc, sessions, now, cutoff);
    var j :| 0 <= j < |after.targets| && after.targets[j].Key() == key;
    assert after.targets[j] in after.targets;
    var i: nat :| i < |absorbed.targets| && absorbed.targets[i] == after.targets[j];
    if i < |doc.targets| {
      EntryIsUnique(doc, i);
    } else if key in Keys(doc) {
      OldKeyIsOld(doc, absorbed.targets, i);
    }
  }

  lemma KeptIsMember(doc: Doc, sessions: seq<Session>, now: Time, stale: int, protected: set<string>, key: string)
    requires Unique(doc.targets) && Kept(doc, sessions, Cutoff(now, stale), protected, key)
    ensures key in Keys(ReconcileDoc(doc, sessions, now, stale, protected))
  {
    var cutoff := Cutoff(now, stale);
    var absorbed := AbsorbAll(doc, sessions, now, cutoff);
    var after := ReconcileDoc(doc, sessions, now, stale, protected);
    AbsorbAllSpec(doc, sessions, now, cutoff);
    var m := if key in Keys(doc) then IndexOf(doc.targets, key) else IndexOf(absorbed.targets, key);
    var e := absorbed.targets[m];
    assert m >= |doc.targets| ==> NewEntry(e, sessions, doc.excluded, cutoff);
    assert e.Key() == key && e in absorbed.targets && Current(e, protected, cutoff);
    assert e in after.targets;
    var j :| 0 <= j < |after.targets| && after.targets[j] == e;
  }

  /** The recorded activity of every kept key is the maximum of what was recorded and what
      was discovered. */
  lemma ReconcileActivity(doc: Doc, sessions: seq<Session>, now: Time, stale: int,
                          protected: set<string>, key: string)
    requires Valid(doc)
    requires key in Keys(ReconcileDoc(doc, sessions, now, stale, protected))
    ensures EntryOf(ReconcileDoc(doc, sessions, now, stale, protected), key).lastActivityAt
         == Later(if key in Keys(doc) then EntryOf(doc, key).lastActivityAt else None,
                  MaxActivity(sessions, key))
  {
    var cutoff := Cutoff(now, stale);
    var absorbed := AbsorbAll(doc, sessions, now, cutoff);
    var after := ReconcileDoc(doc, sessions, now, stale, protected);
    AbsorbAllSpec(doc, sessions, now, cutoff);
    var e := EntryOf(after, key);
    assert e in after.targets;
    var i: nat :| i < |absorbed.targets| && absorbed.targets[i] == e;
    if i < |doc.targets| {
      EntryIsUnique(doc, i);
    } else if key in Keys(doc) {
      OldKeyIsOld(doc, absorbed.targets, i);
    }
  }

  /** Keys stay unique and disjoint from the exclusions. */
  lemma ReconcileKeepsValid(doc: Doc, sessions: seq<Session>, now: Time, stale: int, protected: set<string>)
    requires Valid(doc)
    ensures Valid(ReconcileDoc(doc, sessions, now, stale, protected))
  {
    var cutoff := Cutoff(now, stale);
    AbsorbAllSpec(doc, sessions, now, cutoff);
    RetainUnique(AbsorbAll(doc, sessions, now, cutoff).targets, protected, cutoff);
    forall k | k in Keys(ReconcileDoc(doc, sessions, now, stale, protected)) ensures k !in doc.excluded {
      ReconcileMembership(doc, sessions, now, stale, protected, k);
    }
  }

  // ------------------------------------------- order independence

  lemma {:induction false} MaxActivityBounds(sessions: seq<Session>, key: string)
    ensures forall s :: s in sessions && s.Key() == key && s.updatedAt.Some? ==>
              Reaches(MaxActivity(sessions, key), s.updatedAt.value)
    ensures MaxActivity(sessions, key).Some? ==>
              exists s :: s in sessions && s.Key() == key && s.updatedAt == MaxActivity(sessions, key)
  {
    if sessions == [] {
    } else {
      var n := |sessions| - 1;
      MaxActivityBounds(sessions[..n], key);
      assert forall s :: s in sessions <==> s in sessions[..n] || s == sessions[n];
    }
  }

  lemma MaxActivityOfPermutation(a: seq<Session>, b: seq<Session>, key: string)
    requires multiset(a) == multiset(b)
    ensures MaxActivity(a, key) == MaxActivity(b, key)
  {
    MaxActivityBounds(a, key);
    MaxActivityBounds(b, key);
    assert forall s :: s in a <==> s in multiset(a);
    assert forall s :: s in b <==> s in multiset(b);
  }

  /** Membership and activity do not depend on the order in which sessions were found. */
  lemma ReconcileIgnoresOrder(doc: Doc, a: seq<Session>, b: seq<Session>, now: Time, stale: int,
                              protected: set<string>, key: string)
    requires Valid(doc) && multiset(a) == multiset(b)
    ensures var x := ReconcileDoc(doc, a, now, stale, protected);
            var y := ReconcileDoc(doc, b, now, stale, protected);
            && (key in Keys(x) <==> key in Keys(y))
            && (key in Keys(x) ==> EntryOf(x, key).lastActivityAt == EntryOf(y, key).lastActivityAt)
  {
    MaxActivityOfPermutation(a, b, key);
    ReconcileMembership(doc, a, now, stale, protected, key);
    ReconcileMembership(doc, b, now, stale, protected, key);
    if key in Keys(ReconcileDoc(doc, a, now, stale, protected)) {
      ReconcileActivity(doc, a, now, stale, protected, key);
      ReconcileActivity(doc, b, now, stale, protected, key);
    }
  }

  // ------------------------------------------- idempotence

  lemma LaterIdempotent(a: Option<Time>, b: Option<Time>)
    ensures Later(Later(a, b), b) == Later(a, b)
    ensures Later(b, b) == b
  {
  }

  /** Repeating a reconcile with the same observations changes nothing at all. */
  lemma ReconcileIsIdempotent(doc: Doc, sessions: seq<Session>, now: Time, stale: int, protected: set<string>)
    requires Valid(doc)
    ensures var once := ReconcileDoc(doc, sessions, now, stale, protected);
            ReconcileDoc(once, sessions, now, stale, protected) == once
  {
    var cutoff := Cutoff(now, stale);
    var absorbed := AbsorbAll(doc, sessions, now, cutoff);
    var once := ReconcileDoc(doc, sessions, now, stale, protected);
    AbsorbAllSpec(doc, sessions, now, cutoff);
    ReconcileKeepsValid(doc, sessions, now, stale, protected);
    forall t | t in once.targets ensures Settled(t, sessions, doc.excluded) {
      var i: nat :| i < |absorbed.targets| && absorbed.targets[i] == t;
      if i < |doc.targets| {
        LaterIdempotent(doc.targets[i].lastActivityAt, MaxActivity(sessions, t.Key()));
      } else {
        LaterIdempotent(None, MaxActivity(sessions, t.Key()));
      }
    }
    forall k | Joins(sessions, k, doc.excluded, cutoff) ensures k in Keys(once) {
      ReconcileMembership(doc, sessions, now, stale, protected, k);
    }
    NothingLeftToAbsorb(once, sessions, now, cutoff);
    RetainAll(once.targets, protected, cutoff);
  }

  lemma NothingLeftToAbsorb(doc: Doc, sessions: seq<Session>, now: Time, cutoff: Time)
    requires Unique(doc.targets)
    requires forall t :: t in doc.targets ==> Settled(t, sessions, doc.excluded)
    requires forall k :: Joins(sessions, k, doc.excluded, cutoff) ==> k in Keys(doc)
    ensures AbsorbAll(doc, sessions, now, cutoff) == doc
  {
    var after := AbsorbAll(doc, sessions, now, cutoff);
    AbsorbAllSpec(doc, sessions, now, cutoff);
    var n := |doc.targets|;
    forall i | 0 <= i < n ensures after.targets[i] == doc.targets[i] {
      assert doc.targets[i] in doc.targets;
    }
    if n < |after.targets| {
      OldKeyIsOld(doc, after.targets, n);
      assert false;
    }
    assert after.targets == doc.targets;
  }

  // ------------------------------------------- the daemon's second copy of the expiry test

  /** The observation the pre-send filter consults: the last session listed for a key. */
  function LastObserved(sessions: seq<Session>, key: string): Option<Time> {
    if sessions == [] then None
    else
      var n := |sessions| - 1;
      if sessions[n].Key() == key then sessions[n].updatedAt else LastObserved(sessions[..n], key)
  }

  predicate MaySend(target: WatchTarget, sessions: seq<Session>, protected: set<string>, cutoff: Time) {
    target.Key() in protected || target.InactivitySince(LastObserved(sessions, target.Key())) >= cutoff
  }

  /** Discovery protects every active session and every session of unknown age. */
  ghost predicate ProtectsUncertain(sessions: seq<Session>, protected: set<string>) {
    forall s :: s in sessions && (s.state == Active || s.updatedAt.None?) ==> s.Key() in protected
  }

  ghost predicate UniqueSessions(sessions: seq<Session>) {
    forall i, j :: 0 <= i < j < |sessions| ==> sessions[i].Key() != sessions[j].Key()
  }

  lemma {:induction false} LastObservedIsBelowMax(sessions: seq<Session>, key: string)
    ensures LastObserved(sessions, key).Some? ==>
              Reaches(MaxActivity(sessions, key), LastObserved(sessions, key).value)
    ensures LastObserved(sessions, key).None? && MaxActivity(sessions, key).Some? ==>
              exists s :: s in sessions && s.Key() == key && s.updatedAt.None?
    ensures UniqueSessions(sessions) ==> LastObserved(sessions, key) == MaxActivity(sessions, key)
  {
    if sessions == [] {
    } else {
      var n := |sessions| - 1;
      LastObservedIsBelowMax(sessions[..n], key);
      MaxActivityBounds(sessions[..n], key);
      assert forall s :: s in sessions <==> s in sessions[..n] || s == sessions[n];
      if sessions[n].Key() == key && MaxActivity(sessions[..n], key).Some? {
        var s :| s in sessions[..n] && s.Key() == key;
        assert !UniqueSessions(sessions) by {
          var i :| 0 <= i < n && sessions[i] == s;
        }
      }
    }
  }

  /** Every planned target that the engine may send to in a scan survives the commit of the
      same scan; the two tests agree exactly when discovery listed each key once. */
  lemma FilterAgreesWithCommit(doc: Doc, sessions: seq<Session>, now: Time, stale: int,
                               protected: set<string>, key: string)
    requires Valid(doc) && key in Keys(doc)
    requires ProtectsUncertain(sessions, protected)
    ensures var cutoff := Cutoff(now, stale);
            var survives := key in Keys(ReconcileDoc(doc, sessions, now, stale, protected));
            && (MaySend(EntryOf(doc, key), sessions, protected, cutoff) ==> survives)
            && (UniqueSessions(sessions) ==>
                  (MaySend(EntryOf(doc, key), sessions, protected, cutoff) <==> survives))
  {
    ReconcileMembership(doc, sessions, now, stale, protected, key);
    LastObservedIsBelowMax(sessions, key);
  }

  /** A listing names an unprotected key twice so that the last time hides one that reaches the
      cutoff, and nothing already recorded reaches it. */
  predicate Hidden(target: WatchTarget, sessions: seq<Session>, protected: set<string>, cutoff: Time) {
    && target.Key() !in protected
    && Reaches(MaxActivity(sessions, target.Key()), cutoff)
    && !Reaches(LastObserved(sessions, target.Key()), cutoff)
    && !Reaches(target.lastActivityAt, cutoff)
    && (target.source == Manual ==> target.addedAt < cutoff)
  }

  /** The filter and the commit disagree about a member exactly when its recent activity is hidden
      behind a later listing of the same key, whatever discovery found. */
  lemma FilterDisagreesExactly(doc: Doc, sessions: seq<Session>, now: Time, stale: int,
                               protected: set<string>, key: string)
    requires Valid(doc) && key in Keys(doc)
    requires ProtectsUncertain(sessions, protected)
    ensures var cutoff := Cutoff(now, stale);
            var target := EntryOf(doc, key);
            var survives := key in Keys(ReconcileDoc(doc, sessions, now, stale, protected));
            (MaySend(target, sessions, protected, cutoff) == survives) <==> !Hidden(target, sessions, protected, cutoff)
  {
    ReconcileMembership(doc, sessions, now, stale, protected, key);
    LastObservedIsBelowMax(sessions, key);
  }

  /** Hidden activity needs a duplicate: two listings of the key with different times. */
  lemma HiddenNeedsADuplicate(target: WatchTarget, sessions: seq<Session>, protected: set<string>, cutoff: Time)
    requires ProtectsUncertain(sessions, protected) && Hidden(target, sessions, protected, cutoff)
    ensures exists a, b :: a in sessions && b in sessions && a.Key() == b.Key() == target.Key()
                        && Reaches(a.updatedAt, cutoff) && b.updatedAt.Some? && b.updatedAt.value < cutoff
  {
    var key := target.Key();
    MaxActivityBounds(sessions, key);
    var a :| a in sessions && a.Key() == key && a.updatedAt == MaxActivity(sessions, key);
    LastObservedIsListed(sessions, key);
    var b :| b in sessions && b.Key() == key && b.updatedAt == LastObserved(sessions, key);
    assert Reaches(a.updatedAt, cutoff) && b.updatedAt.Some? && b.updatedAt.value < cutoff;
  }

  lemma {:induction false} LastObservedIsListed(sessions: seq<Session>, key: string)
    requires exists s :: s in sessions && s.Key() == key
    ensures exists s :: s in sessions && s.Key() == key && s.updatedAt == LastObserved(sessions, key)
  {
    var n := |sessions| - 1;
    if sessions[n].Key() != key {
      var s :| s in sessions && s.Key() == key;
      assert s in sessions[..n];
      LastObservedIsListed(sessions[..n], key);
      var l :| l in sessions[..n] && l.Key() == key && l.updatedAt == LastObserved(sessions[..n], key);
      assert l in sessions;
    }
  }

  /** With a duplicated key the filter may be stricter: an old second listing hides the
      recent first one. */
  lemma FilterIsStricterOnDuplicates()
    ensures exists doc: Doc, sessions: seq<Session>, key: string ::
              && Valid(doc) && key in Keys(doc)
              && ProtectsUncertain(sessions, {})
              && !MaySend(EntryOf(doc, key), sessions, {}, Cutoff(0, 10))
              && key in Keys(ReconcileDoc(doc, sessions, 0, 10, {}))
  {
    var target := WatchTarget(Automatic, "codex", "a", None, None, Seconds(-100), None);
    var recent := Session("codex", "a", "t", Idle, Some(0));
    var stale := recent.(updatedAt := Some(Seconds(-50)));
    var doc := Doc([target], {});
    var sessions := [recent, stale];
    var key := target.Key();
    assert doc.targets[0].Key() == key;
    assert key in Keys(doc);
    assert sessions[..1] == [recent] && sessions[..1][..0] == [];
    assert LastObserved(sessions, key) == Some(Seconds(-50));
    assert MaxActivity([recent], key) == Some(0);
    assert MaxActivity(sessions, key) == Some(0);
    assert !MaySend(EntryOf(doc, key), sessions, {}, Cutoff(0, 10));
    ReconcileMembership(doc, sessions, 0, 10, {}, key);
  }

  // ---------------------------------------------------------------- the store

  method RetainOthers(targets: seq<WatchTarget>, key: string) returns (kept: seq<WatchTarget>)
    ensures kept == Without(targets, key)
  {
    kept := [];
    for i := 0 to |targets|
      invariant kept + Without(targets[i..], key) == Without(targets, key)
    {
      assert targets[i..][0] == targets[i] && targets[i..][1..] == targets[i + 1..];
      if targets[i].Key() != key {
        kept := kept + [targets[i]];
      }
    }
  }

  /** The store reads its document before every operation and replaces it atomically, so
      `doc` is the content of the file. `writes` says whether the replacement succeeds. */
  class Store {
    var doc: Doc

    constructor ()
      ensures doc == Doc([], {}) && Valid(doc)
    {
      doc := Doc([], {});
    }

    method Add(target: WatchTarget, writes: bool) returns (added: Option<bool>)
      requires Valid(doc)
      modifies this
      ensures Valid(doc)
      ensures doc == if writes then AddDoc(old(doc), target) else old(doc)
      ensures added == if writes then Some(target.Key() !in Keys(old(doc))) else None
    {
      AddMembership(doc, target);
      var document := doc;
      document := document.(excluded := document.excluded - {target.Key()});
      var i := Position(document.targets, target.Key());
      var isNew := i == |document.targets|;
      if !isNew {
        var existing := document.targets[i];
        existing := existing.(addedAt := target.addedAt, source := Manual);
        if target.note.Some? {
          existing := existing.(note := target.note);
        }
        document := document.(targets := document.targets[i := existing]);
      } else {
        document := document.(targets := document.targets + [target]);
      }
      if !writes {
        return None;
      }
      doc := document;
      return Some(isNew);
    }

    method Remove(key: string, writes: bool) returns (removed: Option<bool>)
      requires Valid(doc)
      modifies this
      ensures Valid(doc)
      ensures doc == if writes then RemoveDoc(old(doc), key) else old(doc)
      ensures removed == if writes then Some(key in Keys(old(doc))) else None
    {
      RemoveMembership(doc, key);
      WithoutLength(doc.targets, key);
      var kept := RetainOthers(doc.targets, key);
      var shorter := |kept| != |doc.targets|;
      if !writes {
        return None;
      }
      doc := Doc(kept, doc.excluded + {key});
      return Some(shorter);
    }

    /** The discovery pass; an unchanged document is not written. */
    method Reconcile(sessions: seq<Session>, now: Time, stale: int, protected: set<string>, writes: bool)
      returns (targets: Option<seq<WatchTarget>>)
      requires Valid(doc)
      modifies this
      ensures Valid(doc)
      ensures var after := ReconcileDoc(old(doc), sessions, now, stale, protected);
              && doc == (if writes then after else old(doc))
              && targets == (if writes || after == old(doc) then Some(after.targets) else None)
    {
      ReconcileKeepsValid(doc, sessions, now, stale, protected);
      var document := doc;
      var previous := document;
      var cutoff := now - Seconds(stale);
      document := AbsorbSessions(document, sessions, now, cutoff);
      var kept := RetainCurrent(document.targets, protected, cutoff);
      document := document.(targets := kept);
      if document != previous {
        if !writes {
          return None;
        }
        doc := document;
      }
      return Some(document.targets);
    }
  }

  /** The discovery loop, with its index from keys to positions kept beside the list. */
  method AbsorbSessions(doc: Doc, sessions: seq<Session>, now: Time, cutoff: Time) returns (document: Doc)
    requires Unique(doc.targets)
    ensures document == AbsorbAll(doc, sessions, now, cutoff)
  {
    document := doc;
    var positions: map<string, nat> := map[];
    for i := 0 to |document.targets|
      invariant document == doc && Indexes(positions, document.targets[..i])
    {
      Grow(positions, document.targets[..i], document.targets[i]);
      assert document.targets[..i] + [document.targets[i]] == document.targets[..i + 1];
      positions := positions[document.targets[i].Key() := i];
    }
    assert document.targets[..|document.targets|] == document.targets;
    for n := 0 to |sessions|
      invariant document == AbsorbAll(doc, sessions[..n], now, cutoff)
      invariant document.excluded == doc.excluded
      invariant Indexes(positions, document.targets)
    {
      assert sessions[..n + 1][..n] == sessions[..n];
      var session := sessions[n];
      PositionIsIndex(positions, document.targets, session.Key());
      if session.Key() in document.excluded {
        continue;
      }
      if session.Key() in positions {
        var index := positions[session.Key()];
        var target := document.targets[index];
        target := target.(title := Some(session.title));
        target := target.(lastActivityAt := Later(target.lastActivityAt, session.updatedAt));
        SameKeysSameIndex(positions, document.targets, index, target);
        document := document.(targets := document.targets[index := target]);
      } else if session.updatedAt.Some? && session.updatedAt.value >= cutoff {
        var target := WatchTarget(Automatic, session.provider, session.id, None,
                                  Some(session.title), now, session.updatedAt);
        Grow(positions, document.targets, target);
        positions := positions[session.Key() := |document.targets|];
        document := document.(targets := document.targets + [target]);
      }
    }
    assert sessions[..|sessions|] == sessions;
  }

  method RetainCurrent(targets: seq<WatchTarget>, protected: set<string>, cutoff: Time)
    returns (kept: seq<WatchTarget>)
    ensures kept == Retain(targets, protected, cutoff)
  {
    kept := [];
    for i := 0 to |targets|
      invariant kept == Retain(targets[..i], protected, cutoff)
    {
      assert targets[..i + 1][..i] == targets[..i];
      if targets[i].Key() in protected || targets[i].InactivitySince(None) >= cutoff {
        kept := kept + [targets[i]];
      }
    }
    assert targets[..|targets|] == targets;
  }

  lemma {:induction false} WithoutLength(targets: seq<WatchTarget>, key: string)
    ensures |Without(targets, key)| <= |targets|
    ensures |Without(targets, key)| == |targets| <==> key !in TargetKeys(targets)
  {
    if targets == [] {
    } else {
      WithoutLength(targets[1..], key);
      assert targets == [targets[0]] + targets[1..];
      KeysOfConcat([targets[0]], targets[1..]);
    }
  }

  method Position(targets: seq<WatchTarget>, key: string) returns (i: nat)
    ensures i == IndexOf(targets, key)
  {
    i := 0;
    while i < |targets| && targets[i].Key() != key
      invariant i <= |targets|
      invariant forall j :: 0 <= j < i ==> targets[j].Key() != key
    {
      i := i + 1;
    }
    var j := IndexOf(targets, key);
    assert i < |targets| ==> targets[i].Key() in TargetKeys(targets);
  }

  /** The index maps exactly the listed keys, each to its only position. */
  ghost predicate Indexes(positions: map<string, nat>, targets: seq<WatchTarget>) {
    && Unique(targets)
    && (forall i :: 0 <= i < |targets| ==> targets[i].Key() in positions && positions[targets[i].Key()] == i)
    && (forall k :: k in positions ==> positions[k] < |targets| && targets[positions[k]].Key() == k)
  }

  lemma Grow(positions: map<string, nat>, targets: seq<WatchTarget>, target: WatchTarget)
    requires Indexes(positions, targets)
    requires target.Key() !in TargetKeys(targets)
    ensures Indexes(positions[target.Key() := |targets|], targets + [target])
  {
  }

  lemma PositionIsIndex(positions: map<string, nat>, targets: seq<WatchTarget>, key: string)
    requires Indexes(positions, targets)
    ensures key in positions <==> IndexOf(targets, key) < |targets|
    ensures key in positions ==> positions[key] == IndexOf(targets, key)
  {
    var i := IndexOf(targets, key);
    if key in positions {
      assert targets[positions[key]].Key() in TargetKeys(targets);
    }
  }

  lemma SameKeysSameIndex(positions: map<string, nat>, targets: seq<WatchTarget>, i: nat, target: WatchTarget)
    requires Indexes(positions, targets)
    requires i < |targets| && target.Key() == targets[i].Key()
    ensures Indexes(positions, targets[i := target])
  {
    var updated := targets[i := target];
    assert forall j :: 0 <= j < |targets| ==> updated[j].Key() == targets[j].Key();
  }
}
