/** Session discovery through cursors: the bounded Codex search (src/providers/codex.rs) and the
    scan back to a cutoff over it (src/providers/mod.rs). */
module Paging {
  import opened Prelude
  import opened Models

  datatype Error = InvalidCursor | OtherSearch | RequestFailed | RepeatedCursor

  datatype Result<T> = Ok(value: T) | Err(error: Error)

  /** A reply of the remote catalog; `next` continues after `data`. */
  datatype Reply = Reply(data: seq<Session>, next: Option<string>)

  /** One `thread/list` request; None when it fails or its reply cannot be parsed. */
  type Server = (Option<string>, nat) -> Option<Reply>

  /** What a search cursor carries, and its text form. */
  datatype Position = Position(query: string, provider: Option<string>)

  datatype Wire = Wire(write: Position -> string, read: string -> Option<Position>)

  ghost predicate Faithful(wire: Wire) { forall p :: wire.read(wire.write(p)) == Some(p) }

  datatype Page = Page(sessions: seq<Session>, next: Option<string>)

  const MAX_PAGES: nat := 5
  const PAGE_LIMIT: nat := 100
  const DISCOVERY_LIMIT: nat := 500

  // ---------------------------------------------------------------- matching

  function LowerChar(c: char): char { if 'A' <= c <= 'Z' then c - 'A' + 'a' else c }

  function Lower(s: string): string { seq(|s|, i requires 0 <= i < |s| => LowerChar(s[i])) }

  predicate Contains(text: string, needle: string) {
    exists i: nat :: i + |needle| <= |text| && StandsIn(text, needle, i)
  }

  predicate StandsIn(text: string, needle: string, i: nat)
    requires i + |needle| <= |text|
  {
    text[i..i + |needle|] == needle
  }

  predicate Matches(s: Session, query: string) {
    query == "" || Contains(Lower(s.title), Lower(query)) || Contains(Lower(s.id), Lower(query))
  }

  function Filter(sessions: seq<Session>, query: string): seq<Session>
    decreases |sessions|
  {
    if sessions == [] then []
    else
      var last := sessions[|sessions| - 1];
      Filter(sessions[..|sessions| - 1], query) + if Matches(last, query) then [last] else []
  }

  lemma {:induction false} FilterConcat(a: seq<Session>, b: seq<Session>, query: string)
    ensures Filter(a + b, query) == Filter(a, query) + Filter(b, query)
    decreases |b|
  {
    if b == [] {
      assert a + b == a;
    } else {
      var c := b[..|b| - 1];
      FilterConcat(a, c, query);
      assert (a + b)[..|a + b| - 1] == a + c;
      assert (a + b)[|a + b| - 1] == b[|b| - 1];
    }
  }

  lemma {:induction false} FilterIsNoLonger(a: seq<Session>, query: string)
    ensures |Filter(a, query)| <= |a|
    decreases |a|
  {
    if a != [] {
      FilterIsNoLonger(a[..|a| - 1], query);
    }
  }

  lemma {:induction false} EmptyQueryMatchesAll(a: seq<Session>)
    ensures Filter(a, "") == a
    decreases |a|
  {
    if a != [] {
      EmptyQueryMatchesAll(a[..|a| - 1]);
    }
  }

  // ---------------------------------------------------------------- one search request

  datatype Scan = Scan(sessions: seq<Session>, next: Option<string>)

  /** What is left of a search that has these sessions after some provider pages. */
  function ScanOn(server: Server, query: string, limit: nat, at: Option<string>, sessions: seq<Session>,
                  pages: nat): Option<Scan>
    decreases MAX_PAGES - pages
  {
    if |sessions| >= limit || pages >= MAX_PAGES then Some(Scan(sessions, at))
    else
      var reply := server(at, Min(PAGE_LIMIT, limit - |sessions|));
      if reply.None? then None
      else if reply.value.data == [] then Some(Scan(sessions, None))
      else
        var more := sessions + Filter(reply.value.data, query);
        if reply.value.next.None? then Some(Scan(more, None))
        else ScanOn(server, query, limit, reply.value.next, more, pages + 1)
  }

  function Start(query: string, cursor: Option<string>, wire: Wire): Result<Option<string>> {
    if cursor.None? then Ok(None)
    else
      match wire.read(cursor.value)
      case None => Err(InvalidCursor)
      case Some(p) => if p.query != query then Err(OtherSearch) else Ok(p.provider)
  }

  function Search(server: Server, wire: Wire, query: string, cursor: Option<string>, limit: nat): Result<Page> {
    match Start(query, cursor, wire)
    case Err(e) => Err(e)
    case Ok(at) =>
      match ScanOn(server, query, limit, at, [], 0)
      case None => Err(RequestFailed)
      case Some(Scan(sessions, next)) =>
        Ok(Page(sessions, if next.None? then None else Some(wire.write(Position(query, next)))))
  }

  /** The source's loop, counting its provider requests. */
  method SearchSessions(server: Server, wire: Wire, query: string, cursor: Option<string>, limit: nat)
    returns (page: Result<Page>, requests: nat)
    ensures page == Search(server, wire, query, cursor, limit)
    ensures requests <= MAX_PAGES && (limit == 0 ==> requests == 0)
  {
    requests := 0;
    var position := Position(query, None);
    if cursor.Some? {
      var read := wire.read(cursor.value);
      if read.None? {
        return Err(InvalidCursor), 0;
      }
      position := read.value;
      if position.query != query {
        return Err(OtherSearch), 0;
      }
    }
    var sessions := [];
    while |sessions| < limit && requests < MAX_PAGES
      invariant requests <= MAX_PAGES && position.query == query && (limit == 0 ==> requests == 0)
      invariant ScanOn(server, query, limit, position.provider, sessions, requests)
             == ScanOn(server, query, limit, Start(query, cursor, wire).value, [], 0)
    {
      var reply := server(position.provider, Min(PAGE_LIMIT, limit - |sessions|));
      requests := requests + 1;
      if reply.None? {
        return Err(RequestFailed), requests;
      }
      if reply.value.data == [] {
        return Ok(Page(sessions, None)), requests;
      }
      var matches := Select(reply.value.data, query);
      sessions := sessions + matches;
      if reply.value.next.None? {
        return Ok(Page(sessions, None)), requests;
      }
      position := Position(query, reply.value.next);
    }
    page := Ok(Page(sessions, if position.provider.Some? then Some(wire.write(position)) else None));
  }

  method Select(data: seq<Session>, query: string) returns (matches: seq<Session>)
    ensures matches == Filter(data, query)
  {
    matches := [];
    var i := 0;
    assert data[..0] == [];
    while i < |data|
      invariant i <= |data| && matches == Filter(data[..i], query)
    {
      assert data[..i + 1][..i] == data[..i];
      if Matches(data[i], query) {
        matches := matches + [data[i]];
      }
      i := i + 1;
    }
    assert data[..i] == data;
  }

  // ---------------------------------------------------------------- a stable catalog

  /** The remote catalog does not change: a cursor stands for a place in it, a reply holds what
      follows, no more than asked for, and is empty at the end only. */
  ghost predicate Stable(server: Server, catalog: seq<Session>, place: Option<string> -> nat) {
    && place(None) == 0
    && forall at, n: nat :: place(at) <= |catalog| && n > 0 ==> Honest(server(at, n), catalog, place, place(at), n)
  }

  ghost predicate Honest(reply: Option<Reply>, catalog: seq<Session>, place: Option<string> -> nat, from: nat, n: nat) {
    && reply.Some?
    && var data := reply.value.data;
       && |data| <= n && from + |data| <= |catalog| && data == catalog[from..from + |data|]
       && (data == [] ==> from == |catalog|)
       && match reply.value.next
          case None => from + |data| == |catalog|
          case Some(c) => place(Some(c)) == from + |data|
  }

  /** The place a search has reached: the end when it hands out no cursor. */
  function Reached(next: Option<string>, catalog: seq<Session>, place: Option<string> -> nat): nat {
    if next.Some? then place(next) else |catalog|
  }

  lemma MoreOfTheCatalog(catalog: seq<Session>, query: string, a: nat, b: nat, c: nat)
    requires a <= b <= c <= |catalog|
    ensures Filter(catalog[a..b], query) + Filter(catalog[b..c], query) == Filter(catalog[a..c], query)
  {
    assert catalog[a..b] + catalog[b..c] == catalog[a..c];
    FilterConcat(catalog[a..b], catalog[b..c], query);
  }

  /** A scan returns the matches of one stretch of the catalog, and goes forward. */
  lemma {:induction false} ScanIsAStretch(server: Server, catalog: seq<Session>, place: Option<string> -> nat,
                                          query: string,
                                          limit: nat, from: nat, at: Option<string>, sessions: seq<Session>, pages: nat)
    requires Stable(server, catalog, place) && from <= place(at) <= |catalog|
    requires sessions == Filter(catalog[from..place(at)], query) && |sessions| <= limit
    requires if pages > 0 then at.Some? else sessions == [] && limit > 0
    ensures ScanOn(server, query, limit, at, sessions, pages).Some?
    ensures var scan := ScanOn(server, query, limit, at, sessions, pages).value;
            && Stretch(scan, catalog, place, query, limit, from, place(at))
            && (pages == 0 ==> scan.next.None? || place(at) < place(scan.next))
    decreases MAX_PAGES - pages
  {
    if |sessions| < limit && pages < MAX_PAGES {
      var data, next := OnePage(server, catalog, place, query, limit, from, at, sessions);
      var more := sessions + Filter(data, query);
      if data == [] {
        assert more == sessions;
      } else if next.Some? {
        ScanIsAStretch(server, catalog, place, query, limit, from, next, more, pages + 1);
      } else {
        assert Stretch(Scan(more, None), catalog, place, query, limit, from, place(at));
      }
    } else {
      assert Stretch(Scan(sessions, at), catalog, place, query, limit, from, place(at));
    }
  }

  /** The scan returned the matches from one place to another, at or after a third. */
  ghost predicate Stretch(scan: Scan, catalog: seq<Session>, place: Option<string> -> nat, query: string,
                          limit: nat, from: nat, least: nat)
  {
    var to := Reached(scan.next, catalog, place);
    && from <= least <= to <= |catalog|
    && scan.sessions == Filter(catalog[from..to], query) && |scan.sessions| <= limit
  }

  lemma OnePage(server: Server, catalog: seq<Session>, place: Option<string> -> nat, query: string,
                limit: nat, from: nat, at: Option<string>, sessions: seq<Session>)
    returns (data: seq<Session>, next: Option<string>)
    requires Stable(server, catalog, place) && from <= place(at) <= |catalog|
    requires sessions == Filter(catalog[from..place(at)], query) && |sessions| < limit
    ensures server(at, Min(PAGE_LIMIT, limit - |sessions|)) == Some(Reply(data, next))
    ensures place(at) + |data| <= |catalog| && Reached(next, catalog, place) == place(at) + |data|
    ensures data == [] ==> place(at) == |catalog| && Filter(data, query) == []
    ensures sessions + Filter(data, query) == Filter(catalog[from..place(at) + |data|], query)
    ensures |sessions + Filter(data, query)| <= limit
  {
    var n := Min(PAGE_LIMIT, limit - |sessions|);
    var reply := server(at, n);
    assert Honest(reply, catalog, place, place(at), n);
    data, next := reply.value.data, reply.value.next;
    MoreOfTheCatalog(catalog, query, from, place(at), place(at) + |data|);
    FilterIsNoLonger(data, query);
  }

  /** A cursor this search handed out, or none, stands for a place in the catalog. */
  ghost predicate Known(cursor: Option<string>, wire: Wire, query: string, catalog: seq<Session>,
                        place: Option<string> -> nat) {
    && Start(query, cursor, wire).Ok?
    && place(Start(query, cursor, wire).value) <= |catalog|
  }

  function PlaceOf(cursor: Option<string>, wire: Wire, query: string, place: Option<string> -> nat): nat
    requires Start(query, cursor, wire).Ok?
  {
    place(Start(query, cursor, wire).value)
  }

  /** One request returns the matches of the stretch from its cursor to the next; it returns no
      more than asked for, goes forward, and hands out no cursor only at the end. */
  lemma SearchIsAStretch(server: Server, catalog: seq<Session>, place: Option<string> -> nat, wire: Wire, query: string,
                         cursor: Option<string>, limit: nat)
    requires Stable(server, catalog, place) && Faithful(wire) && Known(cursor, wire, query, catalog, place) && limit > 0
    ensures var page := Search(server, wire, query, cursor, limit);
            var from := PlaceOf(cursor, wire, query, place);
            && page.Ok? && |page.value.sessions| <= limit
            && (page.value.next.Some? ==>
                  Known(page.value.next, wire, query, catalog, place)
                  && from < PlaceOf(page.value.next, wire, query, place))
            && var to := if page.value.next.Some? then PlaceOf(page.value.next, wire, query, place) else |catalog|;
               from <= to <= |catalog| && page.value.sessions == Filter(catalog[from..to], query)
  {
    var at := Start(query, cursor, wire).value;
    assert catalog[place(at)..place(at)] == [];
    ScanIsAStretch(server, catalog, place, query, limit, place(at), at, [], 0);
  }

  /** A cursor of another search is refused. */
  lemma CursorsStayWithTheirSearch(server: Server, wire: Wire, query: string, cursor: Option<string>, limit: nat,
                                   other: string, more: nat)
    requires Faithful(wire) && query != other
    ensures var page := Search(server, wire, query, cursor, limit);
            page.Ok? && page.value.next.Some? ==>
              Search(server, wire, other, page.value.next, more) == Err(OtherSearch)
  {
    var page := Search(server, wire, query, cursor, limit);
    if page.Ok? && page.value.next.Some? {
      var at := Start(query, cursor, wire).value;
      var next := ScanOn(server, query, limit, at, [], 0).value.next;
      assert wire.read(page.value.next.value) == Some(Position(query, next));
    }
  }

  // ---------------------------------------------------------------- following the cursors

  /** The pages that `|limits|` requests return when each follows the cursor before it. */
  function Follow(server: Server, wire: Wire, query: string, limits: seq<nat>): Result<Page>
    decreases |limits|
  {
    if limits == [] then Search(server, wire, query, None, 0)
    else
      var before := Follow(server, wire, query, limits[..|limits| - 1]);
      if before.Err? || (|limits| > 1 && before.value.next.None?) then before
      else
        var page := Search(server, wire, query, before.value.next, limits[|limits| - 1]);
        if page.Err? then page else Ok(Page(before.value.sessions + page.value.sessions, page.value.next))
  }

  predicate Positive(limits: seq<nat>) { forall i :: 0 <= i < |limits| ==> limits[i] > 0 }

  lemma {:induction false} FollowIsAStretch(server: Server, catalog: seq<Session>, place: Option<string> -> nat,
                                            wire: Wire,
                                            query: string, limits: seq<nat>)
    requires Stable(server, catalog, place) && Faithful(wire) && Positive(limits) && limits != []
    ensures var all := Follow(server, wire, query, limits);
            && all.Ok?
            && if all.value.next.None? then all.value.sessions == Filter(catalog, query)
               else
                 && Known(all.value.next, wire, query, catalog, place)
                 && var to := PlaceOf(all.value.next, wire, query, place);
                    |limits| <= to <= |catalog| && all.value.sessions == Filter(catalog[..to], query)
    decreases |limits|
  {
    var front := limits[..|limits| - 1];
    assert Positive(front);
    if front == [] {
      SearchIsAStretch(server, catalog, place, wire, query, None, limits[0]);
      assert Follow(server, wire, query, []) == Ok(Page([], None));
      var page := Search(server, wire, query, None, limits[0]).value;
      assert [] + page.sessions == page.sessions;
      assert catalog[0..|catalog|] == catalog;
    } else {
      FollowIsAStretch(server, catalog, place, wire, query, front);
      var before := Follow(server, wire, query, front).value;
      if before.next.Some? {
        var from := PlaceOf(before.next, wire, query, place);
        SearchIsAStretch(server, catalog, place, wire, query, before.next, limits[|limits| - 1]);
        var page := Search(server, wire, query, before.next, limits[|limits| - 1]).value;
        var to := if page.next.Some? then PlaceOf(page.next, wire, query, place) else |catalog|;
        assert catalog[0..from] == catalog[..from] && catalog[0..to] == catalog[..to];
        MoreOfTheCatalog(catalog, query, 0, from, to);
        assert catalog[..|catalog|] == catalog;
      }
    }
  }

  /** Following the cursors of a stable catalog to the end gives each match once, in order: nothing
      is lost and nothing repeated, whatever the sizes asked for; and the end is reached. */
  lemma FollowingFindsEverything(server: Server, catalog: seq<Session>, place: Option<string> -> nat, wire: Wire,
                                 query: string, limits: seq<nat>)
    requires Stable(server, catalog, place) && Faithful(wire) && Positive(limits) && |limits| > |catalog|
    ensures Follow(server, wire, query, limits) == Ok(Page(Filter(catalog, query), None))
  {
    FollowIsAStretch(server, catalog, place, wire, query, limits);
  }

  // ---------------------------------------------------------------- back to a cutoff

  type Source = Option<string> -> Result<Page>

  predicate ReachesBack(page: Page, cutoff: Time) {
    exists s :: s in page.sessions && s.updatedAt.Some? && s.updatedAt.value < cutoff
  }

  function Sessions(pages: seq<Page>): seq<Session>
    decreases |pages|
  {
    if pages == [] then [] else Sessions(pages[..|pages| - 1]) + pages[|pages| - 1].sessions
  }

  function CursorOf(pages: seq<Page>, i: nat): Option<string>
    requires i <= |pages|
  {
    if i == 0 then None else pages[i - 1].next
  }

  /** The page is the answer to the cursor before it. */
  ghost predicate Answers(source: Source, pages: seq<Page>, i: nat)
    requires i < |pages|
  {
    source(CursorOf(pages, i)) == Ok(pages[i])
  }

  /** These pages follow one another, and each but the last says to go on, with a new cursor. */
  ghost predicate Chain(source: Source, cutoff: Time, pages: seq<Page>) {
    && (forall i: nat :: i < |pages| ==> Answers(source, pages, i))
    && (forall i :: 0 <= i < |pages| - 1 ==> GoesOn(pages[i], cutoff))
    && (forall i, j :: 0 <= i < j < |pages| - 1 ==> pages[i].next != pages[j].next)
  }

  predicate GoesOn(page: Page, cutoff: Time) { page.next.Some? && !ReachesBack(page, cutoff) }

  /** How the scan ends after these pages. */
  ghost predicate Ends(source: Source, cutoff: Time, pages: seq<Page>, r: Result<seq<Session>>) {
    match r
    case Ok(sessions) => pages != [] && !GoesOn(pages[|pages| - 1], cutoff) && sessions == Sessions(pages)
    case Err(e) =>
      if pages != [] && GoesOn(pages[|pages| - 1], cutoff)
         && exists i :: 0 <= i < |pages| - 1 && pages[i].next == pages[|pages| - 1].next
      then e == RepeatedCursor
      else
        && (pages != [] ==> GoesOn(pages[|pages| - 1], cutoff))
        && source(CursorOf(pages, |pages|)) == Err(e)
  }

  /** Every page says to go on. */
  ghost predicate AllGoOn(pages: seq<Page>, cutoff: Time) {
    forall i :: 0 <= i < |pages| ==> GoesOn(pages[i], cutoff)
  }

  /** The scan read these pages, and ended with this result or is still going on. */
  ghost predicate Explains(source: Source, cutoff: Time, pages: seq<Page>, r: Option<Result<seq<Session>>>) {
    && Chain(source, cutoff, pages)
    && match r
       case Some(ended) => Ends(source, cutoff, pages, ended)
       case None => AllGoOn(pages, cutoff) && Distinct(pages)
  }

  predicate Distinct(pages: seq<Page>) {
    forall i, j :: 0 <= i < j < |pages| ==> pages[i].next != pages[j].next
  }

  /** The source's loop for a number of rounds, over any provider: how it ended by then, if it did. */
  method RecentSessions(source: Source, cutoff: Time, rounds: nat) returns (r: Option<Result<seq<Session>>>)
    ensures exists pages :: Explains(source, cutoff, pages, r) && |pages| <= rounds && (r.None? ==> |pages| == rounds)
  {
    var sessions: seq<Session> := [];
    var cursor: Option<string> := None;
    var seen: set<string> := {};
    ghost var pages: seq<Page> := [];
    for round := 0 to rounds
      invariant Chain(source, cutoff, pages) && cursor == CursorOf(pages, |pages|)
      invariant GoingOn(pages, seen, cutoff)
      invariant |pages| == round && sessions == Sessions(pages)
    {
      var reply := source(cursor);
      if reply.Err? {
        FailsHere(source, cutoff, pages, seen, reply.error);
        assert Explains(source, cutoff, pages, Some(Err(reply.error)));
        return Some(Err(reply.error));
      }
      var page := reply.value;
      ghost var before := pages;
      ChainGrows(source, cutoff, before, seen, page);
      pages := pages + [page];
      assert pages[|pages| - 1] == page;
      var reached := ReachesBack(page, cutoff);
      sessions := sessions + page.sessions;
      if reached {
        assert Explains(source, cutoff, pages, Some(Ok(sessions)));
        return Some(Ok(sessions));
      }
      if page.next.None? {
        assert Explains(source, cutoff, pages, Some(Ok(sessions)));
        return Some(Ok(sessions));
      }
      if page.next.value in seen {
        SeenBefore(source, before, seen, page, cutoff);
        assert Explains(source, cutoff, pages, Some(Err(RepeatedCursor)));
        return Some(Err(RepeatedCursor));
      }
      SeenGrows(before, seen, page, cutoff);
      seen := seen + {page.next.value};
      cursor := page.next;
    }
    assert Explains(source, cutoff, pages, None);
    return None;
  }

  function Cursors(pages: seq<Page>): set<Option<string>> { set i | 0 <= i < |pages| :: pages[i].next }

  lemma {:induction false} DistinctCursors(pages: seq<Page>)
    requires Distinct(pages)
    ensures |Cursors(pages)| == |pages|
    decreases |pages|
  {
    if pages != [] {
      var front, last := pages[..|pages| - 1], pages[|pages| - 1];
      DistinctCursors(front);
      assert Cursors(pages) == Cursors(front) + {last.next} by {
        assert forall i :: 0 <= i < |front| ==> pages[i] == front[i];
      }
      assert last.next !in Cursors(front);
    }
  }

  /** A scan that goes on uses up a new cursor in every round, so over a provider with finitely many
      it ends: each round leaves fewer unseen. */
  lemma GoingOnUsesCursors(pages: seq<Page>, cursors: set<Option<string>>)
    requires Distinct(pages) && forall i :: 0 <= i < |pages| ==> pages[i].next in cursors
    ensures |pages| <= |cursors|
  {
    DistinctCursors(pages);
    SubsetSize(Cursors(pages), cursors);
  }

  /** Every page so far says to go on, and their cursors are the ones seen. */
  ghost predicate GoingOn(pages: seq<Page>, seen: set<string>, cutoff: Time) {
    && (forall i :: 0 <= i < |pages| ==> GoesOn(pages[i], cutoff) && pages[i].next.value in seen)
    && (forall c :: c in seen ==> exists i :: 0 <= i < |pages| && pages[i].next == Some(c))
    && (forall i, j :: 0 <= i < j < |pages| ==> pages[i].next != pages[j].next)
  }

  lemma ChainGrows(source: Source, cutoff: Time, pages: seq<Page>, seen: set<string>, page: Page)
    requires Chain(source, cutoff, pages) && GoingOn(pages, seen, cutoff)
    requires source(CursorOf(pages, |pages|)) == Ok(page)
    ensures Chain(source, cutoff, pages + [page]) && Sessions(pages + [page]) == Sessions(pages) + page.sessions
  {
    var more := pages + [page];
    assert more[..|pages|] == pages;
    forall i: nat | i < |more| ensures Answers(source, more, i) {
      AnswersStill(source, pages, page, i);
    }
    forall i | 0 <= i < |more| - 1 ensures GoesOn(more[i], cutoff) {
      assert more[i] == pages[i];
    }
    forall i, j | 0 <= i < j < |more| - 1 ensures more[i].next != more[j].next {
      assert more[i] == pages[i] && more[j] == pages[j];
    }
  }

  lemma AnswersStill(source: Source, pages: seq<Page>, page: Page, i: nat)
    requires i <= |pages| && source(CursorOf(pages, |pages|)) == Ok(page)
    requires i < |pages| ==> Answers(source, pages, i)
    ensures Answers(source, pages + [page], i)
  {
    assert CursorOf(pages + [page], i) == CursorOf(pages, i);
  }

  lemma FailsHere(source: Source, cutoff: Time, pages: seq<Page>, seen: set<string>, e: Error)
    requires GoingOn(pages, seen, cutoff) && source(CursorOf(pages, |pages|)) == Err(e)
    ensures Ends(source, cutoff, pages, Err(e))
  {
  }

  lemma SeenBefore(source: Source, pages: seq<Page>, seen: set<string>, page: Page, cutoff: Time)
    requires GoingOn(pages, seen, cutoff) && GoesOn(page, cutoff) && page.next.value in seen
    ensures Ends(source, cutoff, pages + [page], Err(RepeatedCursor))
  {
    var i :| 0 <= i < |pages| && pages[i].next == page.next;
    assert (pages + [page])[i].next == page.next;
  }

  lemma SeenGrows(pages: seq<Page>, seen: set<string>, page: Page, cutoff: Time)
    requires GoingOn(pages, seen, cutoff) && GoesOn(page, cutoff) && page.next.value !in seen
    ensures GoingOn(pages + [page], seen + {page.next.value}, cutoff)
  {
    var more := pages + [page];
    forall c | c in seen + {page.next.value} ensures exists i :: 0 <= i < |more| && more[i].next == Some(c) {
      if c == page.next.value {
        assert more[|pages|].next == Some(c);
      } else {
        var i :| 0 <= i < |pages| && pages[i].next == Some(c);
        assert more[i].next == Some(c);
      }
    }
  }

  // ---------------------------------------------------------------- nothing recent is missed

  /** Every session has a time, and they come newest first. */
  ghost predicate NewestFirst(catalog: seq<Session>) {
    && (forall i :: 0 <= i < |catalog| ==> catalog[i].updatedAt.Some?)
    && (forall i, j :: 0 <= i < j < |catalog| ==> catalog[i].updatedAt.value >= catalog[j].updatedAt.value)
  }

  function Discovery(server: Server, wire: Wire): Source {
    cursor => Search(server, wire, "", cursor, DISCOVERY_LIMIT)
  }

  /** The first `n` pages are the catalog up to a place, where the next cursor stands. */
  ghost predicate UpTo(catalog: seq<Session>, place: Option<string> -> nat, wire: Wire, pages: seq<Page>, n: nat,
                       to: nat) {
    && n <= |pages| && n <= to <= |catalog|
    && Start("", CursorOf(pages, n), wire).Ok?
    && PlaceOf(CursorOf(pages, n), wire, "", place) == to
    && Sessions(pages[..n]) == catalog[..to]
  }

  lemma ChainAt(server: Server, wire: Wire, cutoff: Time, pages: seq<Page>, n: nat)
    requires n < |pages| && Chain(Discovery(server, wire), cutoff, pages)
    ensures Search(server, wire, "", CursorOf(pages, n), DISCOVERY_LIMIT) == Ok(pages[n])
    ensures forall i: nat :: i < n ==> pages[i].next.Some?
  {
    var source := Discovery(server, wire);
    assert Answers(source, pages, n);
    forall i: nat | i < n ensures pages[i].next.Some? {
      assert GoesOn(pages[i], cutoff);
    }
  }

  lemma OneMorePage(server: Server, catalog: seq<Session>, place: Option<string> -> nat, wire: Wire,
                    pages: seq<Page>, n: nat, from: nat)
    requires Stable(server, catalog, place) && Faithful(wire)
    requires n < |pages| && UpTo(catalog, place, wire, pages, n, from)
    requires Search(server, wire, "", CursorOf(pages, n), DISCOVERY_LIMIT) == Ok(pages[n])
    ensures pages[n].next.None? ==> Sessions(pages[..n + 1]) == catalog
    ensures pages[n].next.Some? ==>
      Start("", pages[n].next, wire).Ok?
      && var to := PlaceOf(pages[n].next, wire, "", place); from < to && UpTo(catalog, place, wire, pages, n + 1, to)
  {
    SearchIsAStretch(server, catalog, place, wire, "", CursorOf(pages, n), DISCOVERY_LIMIT);
    var to := if pages[n].next.Some? then PlaceOf(pages[n].next, wire, "", place) else |catalog|;
    EmptyQueryMatchesAll(catalog[from..to]);
    SessionsOf(pages, n);
    assert catalog[..from] + catalog[from..to] == catalog[..to];
    assert catalog[..|catalog|] == catalog;
  }

  lemma SessionsOf(pages: seq<Page>, n: nat)
    requires n < |pages|
    ensures Sessions(pages[..n + 1]) == Sessions(pages[..n]) + pages[n].sessions
  {
    assert pages[..n + 1][..n] == pages[..n];
  }

  lemma {:induction false} ChainIsAPrefix(server: Server, catalog: seq<Session>, place: Option<string> -> nat,
                                          wire: Wire,
                                          cutoff: Time, pages: seq<Page>, n: nat) returns (to: nat)
    requires Stable(server, catalog, place) && Faithful(wire) && Chain(Discovery(server, wire), cutoff, pages)
    requires n <= |pages| && (n == 0 || pages[n - 1].next.Some?)
    ensures UpTo(catalog, place, wire, pages, n, to)
  {
    if n == 0 {
      to := 0;
      assert pages[..0] == [] && catalog[..0] == [];
    } else {
      ChainAt(server, wire, cutoff, pages, n - 1);
      var from := ChainIsAPrefix(server, catalog, place, wire, cutoff, pages, n - 1);
      OneMorePage(server, catalog, place, wire, pages, n - 1, from);
      to := PlaceOf(pages[n - 1].next, wire, "", place);
    }
  }

  /** Cursors go forward, so none comes back. */
  lemma {:induction false} CursorsAdvance(server: Server, catalog: seq<Session>, place: Option<string> -> nat,
                                          wire: Wire,
                                          cutoff: Time, pages: seq<Page>, i: nat, n: nat) returns (a: nat, b: nat)
    requires Stable(server, catalog, place) && Faithful(wire) && Chain(Discovery(server, wire), cutoff, pages)
    requires i < n <= |pages| && pages[n - 1].next.Some?
    ensures UpTo(catalog, place, wire, pages, i, a) && UpTo(catalog, place, wire, pages, n, b) && a < b
    decreases n
  {
    ChainAt(server, wire, cutoff, pages, n - 1);
    var c: nat;
    if i < n - 1 {
      a, c := CursorsAdvance(server, catalog, place, wire, cutoff, pages, i, n - 1);
    } else {
      a := ChainIsAPrefix(server, catalog, place, wire, cutoff, pages, i);
      c := a;
    }
    OneMorePage(server, catalog, place, wire, pages, n - 1, c);
    b := PlaceOf(pages[n - 1].next, wire, "", place);
  }

  lemma DiscoveryNeverFails(server: Server, catalog: seq<Session>, place: Option<string> -> nat, wire: Wire,
                            cutoff: Time, pages: seq<Page>, r: Result<seq<Session>>)
    requires Stable(server, catalog, place) && Faithful(wire)
    requires Chain(Discovery(server, wire), cutoff, pages) && Ends(Discovery(server, wire), cutoff, pages, r)
    ensures r.Ok?
  {
    var n := |pages|;
    if r.Err? && n > 0 && GoesOn(pages[n - 1], cutoff)
       && exists i :: 0 <= i < n - 1 && pages[i].next == pages[n - 1].next {
      var i: nat :| i < n - 1 && pages[i].next == pages[n - 1].next;
      var a, b := CursorsAdvance(server, catalog, place, wire, cutoff, pages, i + 1, n);
    } else if r.Err? {
      var from := ChainIsAPrefix(server, catalog, place, wire, cutoff, pages, n);
      SearchIsAStretch(server, catalog, place, wire, "", CursorOf(pages, n), DISCOVERY_LIMIT);
    }
  }

  /** All pages of a scan together are the catalog up to a place, its end when no cursor is left. */
  lemma PagesAreAPrefix(server: Server, catalog: seq<Session>, place: Option<string> -> nat, wire: Wire,
                        cutoff: Time, pages: seq<Page>) returns (to: nat)
    requires Stable(server, catalog, place) && Faithful(wire) && Chain(Discovery(server, wire), cutoff, pages)
    requires pages != []
    ensures to <= |catalog| && Sessions(pages) == catalog[..to]
    ensures pages[|pages| - 1].next.None? ==> to == |catalog|
  {
    var n := |pages| - 1;
    ChainAt(server, wire, cutoff, pages, n);
    var from := ChainIsAPrefix(server, catalog, place, wire, cutoff, pages, n);
    OneMorePage(server, catalog, place, wire, pages, n, from);
    assert pages[..n + 1] == pages;
    assert catalog[..|catalog|] == catalog;
    to := if pages[n].next.Some? then PlaceOf(pages[n].next, wire, "", place) else |catalog|;
  }

  /** Over a stable, dated, newest-first catalog discovery never fails, and what it leaves out is
      older than the cutoff: it returns a prefix of the catalog, each session once, with every
      session at or after the cutoff. */
  lemma RecentIsComplete(server: Server, catalog: seq<Session>, place: Option<string> -> nat, wire: Wire,
                         cutoff: Time, pages: seq<Page>, r: Result<seq<Session>>)
    requires Stable(server, catalog, place) && Faithful(wire) && NewestFirst(catalog)
    requires Explains(Discovery(server, wire), cutoff, pages, Some(r))
    ensures r.Ok? && r.value <= catalog
    ensures forall s :: s in catalog && Reaches(s.updatedAt, cutoff) ==> s in r.value
  {
    DiscoveryNeverFails(server, catalog, place, wire, cutoff, pages, r);
    var to := PagesAreAPrefix(server, catalog, place, wire, cutoff, pages);
    if pages[|pages| - 1].next.Some? {
      OlderIsLeftOut(catalog, cutoff, pages, to);
    }
  }

  /** Over a stable catalog the scan ends: it goes on for at most as many rounds as there are sessions. */
  lemma DiscoveryEnds(server: Server, catalog: seq<Session>, place: Option<string> -> nat, wire: Wire,
                      cutoff: Time, pages: seq<Page>)
    requires Stable(server, catalog, place) && Faithful(wire)
    requires Explains(Discovery(server, wire), cutoff, pages, None)
    ensures |pages| <= |catalog|
  {
    assert pages != [] ==> GoesOn(pages[|pages| - 1], cutoff);
    var to := ChainIsAPrefix(server, catalog, place, wire, cutoff, pages, |pages|);
  }

  lemma OlderIsLeftOut(catalog: seq<Session>, cutoff: Time, pages: seq<Page>, to: nat)
    requires NewestFirst(catalog) && pages != [] && ReachesBack(pages[|pages| - 1], cutoff)
    requires to <= |catalog| && Sessions(pages) == catalog[..to]
    ensures forall i :: to <= i < |catalog| ==> catalog[i].updatedAt.value < cutoff
    ensures forall s :: s in catalog && Reaches(s.updatedAt, cutoff) ==> s in catalog[..to]
  {
    var s :| s in pages[|pages| - 1].sessions && s.updatedAt.Some? && s.updatedAt.value < cutoff;
    assert s in Sessions(pages);
    var k :| 0 <= k < to && catalog[k] == s;
    forall s | s in catalog && Reaches(s.updatedAt, cutoff) ensures s in catalog[..to] {
      var i :| 0 <= i < |catalog| && catalog[i] == s;
      assert i < to;
      assert catalog[..to][i] == s;
    }
  }
}
