/** Incremental reading of one Claude transcript (src/providers/claude.rs, ClaudeProvider::refresh).
    Parsing a line is a parameter: None for bytes that are not UTF-8. */
module Transcripts {
  import opened Prelude
  import opened Lines

  datatype Record =
    | Malformed
    | Sidechain
    | Entry(speaker: bool, dated: Option<Time>, title: Option<string>)

  type Decoder = Bytes -> Option<Record>

  // ---------------------------------------------------------------- what the lines say

  /** What the provider reports of a session. */
  datatype Mark = Mark(updatedAt: Option<Time>, title: string, uncertain: bool)

  function Noted(m: Mark, r: Record): Mark {
    match r
    case Malformed => m.(uncertain := true)
    case Sidechain => m
    case Entry(speaker, dated, title) =>
      m.(updatedAt := if speaker then Later(m.updatedAt, dated) else m.updatedAt,
         title := title.GetOr(m.title),
         uncertain := m.uncertain && !(speaker && dated.Some?))
  }

  function NoteLine(m: Mark, line: Bytes, decode: Decoder): Mark {
    if decode(line).Some? then Noted(m, decode(line).value) else m
  }

  function NoteAll(m: Mark, lines: seq<Bytes>, decode: Decoder): Mark
    decreases |lines|
  {
    if lines == [] then m else NoteLine(NoteAll(m, lines[..|lines| - 1], decode), lines[|lines| - 1], decode)
  }

  /** The latest dated user or assistant record. */
  function Activity(lines: seq<Bytes>, decode: Decoder): Option<Time>
    decreases |lines|
  {
    if lines == [] then None
    else
      var before := Activity(lines[..|lines| - 1], decode);
      match decode(lines[|lines| - 1])
      case Some(Entry(true, dated, _)) => Later(before, dated)
      case _ => before
  }

  /** The last record with a title. */
  function LastTitle(lines: seq<Bytes>, decode: Decoder): Option<string>
    decreases |lines|
  {
    if lines == [] then None
    else
      match decode(lines[|lines| - 1])
      case Some(Entry(_, _, Some(title))) => Some(title)
      case _ => LastTitle(lines[..|lines| - 1], decode)
  }

  /** Whether a line decides if the reading is certain, and how. */
  function Verdict(line: Bytes, decode: Decoder): Option<bool> {
    match decode(line)
    case Some(Malformed) => Some(true)
    case Some(Entry(true, Some(_), _)) => Some(false)
    case _ => None
  }

  /** The last line that decides. */
  function LastVerdict(lines: seq<Bytes>, decode: Decoder): Option<bool>
    decreases |lines|
  {
    if lines == [] then None
    else if Verdict(lines[|lines| - 1], decode).Some? then Verdict(lines[|lines| - 1], decode)
    else LastVerdict(lines[..|lines| - 1], decode)
  }

  /** One fold over the lines computes the latest activity, the last title and the last verdict. */
  lemma {:induction false} NoteAllMeaning(m: Mark, lines: seq<Bytes>, decode: Decoder)
    ensures NoteAll(m, lines, decode)
         == Mark(Later(m.updatedAt, Activity(lines, decode)),
                 LastTitle(lines, decode).GetOr(m.title),
                 LastVerdict(lines, decode).GetOr(m.uncertain))
    decreases |lines|
  {
    if lines != [] {
      NoteAllMeaning(m, lines[..|lines| - 1], decode);
    }
  }

  lemma {:induction false} Concat(a: seq<Bytes>, b: seq<Bytes>, decode: Decoder)
    ensures Activity(a + b, decode) == Later(Activity(a, decode), Activity(b, decode))
    ensures LastTitle(a + b, decode)
         == if LastTitle(b, decode).Some? then LastTitle(b, decode) else LastTitle(a, decode)
    ensures LastVerdict(a + b, decode)
         == if LastVerdict(b, decode).Some? then LastVerdict(b, decode) else LastVerdict(a, decode)
    decreases |b|
  {
    if b == [] {
      assert a + b == a;
    } else {
      var c := b[..|b| - 1];
      Concat(a, c, decode);
      assert (a + b)[..|a + b| - 1] == a + c;
      assert (a + b)[|a + b| - 1] == b[|b| - 1];
    }
  }

  // ---------------------------------------------------------------- one poll

  datatype Snapshot = Snapshot(bytes: Bytes, modified: Option<Time>, identity: nat)

  /** What the file system answers: nothing, or a file whose reads fail after `broken` lines. */
  datatype Poll = Unreadable | Readable(file: Snapshot, broken: Option<nat>)

  datatype Cursor = Cursor(offset: nat, modified: Option<Time>, identity: nat, mark: Mark)

  function Unread(id: string): Cursor { Cursor(0, None, 0, Mark(None, id, false)) }

  /** How many lines come before the first one that is not UTF-8. */
  function Usable(lines: seq<Bytes>, decode: Decoder): (n: nat)
    ensures n <= |lines|
    ensures forall i :: 0 <= i < n ==> decode(lines[i]).Some?
    ensures n < |lines| ==> decode(lines[n]).None?
  {
    if lines == [] || decode(lines[0]).None? then 0 else 1 + Usable(lines[1..], decode)
  }

  /** The complete lines a reader of the whole file gets to see. */
  function Good(b: Bytes, decode: Decoder): seq<Bytes> { Split(b)[..Usable(Split(b), decode)] }

  function Faulted(c: Cursor): Cursor { c.(modified := None, mark := c.mark.(uncertain := true)) }

  predicate Skips(c: Cursor, f: Snapshot) {
    c.identity == f.identity && c.modified == f.modified && c.offset == |f.bytes|
  }

  predicate Restarts(c: Cursor, f: Snapshot) { c.identity != f.identity || |f.bytes| <= c.offset }

  function Positioned(c: Cursor, f: Snapshot): Cursor {
    if Restarts(c, f) then c.(offset := 0, identity := f.identity, mark := c.mark.(updatedAt := None)) else c
  }

  function Took(c: Cursor, lines: seq<Bytes>, decode: Decoder): Cursor {
    c.(offset := c.offset + |Join(lines)|, mark := NoteAll(c.mark, lines, decode))
  }

  /** The complete lines one poll reads from `rest`. */
  function ReadNow(rest: Bytes, broken: Option<nat>, decode: Decoder): seq<Bytes> {
    var n := |Good(rest, decode)|;
    Good(rest, decode)[..if broken.Some? && broken.value < n then broken.value else n]
  }

  /** The poll ends with a read error: the file system fails, or a line or the half-written tail
      is not UTF-8. */
  predicate ReadFails(rest: Bytes, broken: Option<nat>, decode: Decoder) {
    var n := |Good(rest, decode)|;
    || (broken.Some? && broken.value <= n)
    || n < |Split(rest)|
    || (Tail(rest) != [] && decode(Tail(rest)).None?)
  }

  function Polled(c: Cursor, p: Poll, decode: Decoder): Cursor {
    if p.Unreadable? then Faulted(c)
    else if Skips(c, p.file) then c
    else
      var start := Positioned(c, p.file);
      var rest := p.file.bytes[start.offset..];
      var end := Took(start, ReadNow(rest, p.broken, decode), decode);
      if ReadFails(rest, p.broken, decode) then Faulted(end) else end.(modified := p.file.modified)
  }

  // ---------------------------------------------------------------- the object

  class Transcript {
    var offset: nat
    var modified: Option<Time>
    var identity: nat
    var uncertain: bool
    var updatedAt: Option<Time>
    var title: string

    ghost function State(): Cursor
      reads this
    {
      Cursor(offset, modified, identity, Mark(updatedAt, title, uncertain))
    }

    constructor (id: string)
      ensures State() == Unread(id)
    {
      offset, modified, identity, uncertain, updatedAt, title := 0, None, 0, false, None, id;
    }

    method Refresh(poll: Poll, decode: Decoder)
      modifies this
      ensures State() == Polled(old(State()), poll, decode)
    {
      var failed := true;
      if poll.Readable? {
        var file := poll.file;
        if identity == file.identity && modified == file.modified && offset == |file.bytes| {
          return;
        }
        if identity != file.identity || |file.bytes| <= offset {
          offset, identity, updatedAt := 0, file.identity, None;
        }
        failed := ReadLines(file.bytes, poll.broken, decode);
        if !failed {
          modified := file.modified;
        }
      }
      if failed {
        uncertain, modified := true, None;
      }
    }

    method ReadLines(bytes: Bytes, broken: Option<nat>, decode: Decoder) returns (failed: bool)
      requires offset <= |bytes|
      modifies this`offset, this`uncertain, this`updatedAt, this`title
      ensures State() == Took(old(State()), ReadNow(bytes[old(offset)..], broken, decode), decode)
      ensures failed == ReadFails(bytes[old(offset)..], broken, decode)
    {
      ghost var start := State();
      ghost var rest := bytes[offset..];
      ghost var lines := Good(rest, decode);
      var n := 0;
      NothingTaken(start, lines, decode);
      while true
        invariant n <= |lines| && (broken.Some? ==> n <= broken.value)
        invariant State() == Took(start, lines[..n], decode)
        invariant offset <= |bytes|
        decreases |bytes| - offset
      {
        NextRead(rest, n, broken, decode);
        SameRest(bytes, start.offset, |Join(lines[..n])|);
        assert Chunk(bytes[offset..]) == Chunk(rest[|Join(lines[..n])|..]);
        if broken == Some(n) {
          return true;
        }
        var line := ReadLine(bytes, offset);
        if line == [] {
          return false;
        }
        var record := decode(line);
        if record.None? {
          return true;
        }
        if line[|line| - 1] != NEWLINE {
          return false;
        }
        OneMore(start, lines, n, decode);
        offset := offset + |line|;
        Note(record.value);
        n := n + 1;
      }
    }

    method Note(record: Record)
      modifies this`uncertain, this`updatedAt, this`title
      ensures State().mark == Noted(old(State()).mark, record)
    {
      match record {
        case Malformed =>
          uncertain := true;
        case Sidechain =>
        case Entry(speaker, dated, name) =>
          if speaker {
            updatedAt := Later(updatedAt, dated);
            if dated.Some? {
              uncertain := false;
            }
          }
          title := name.GetOr(title);
      }
    }
  }

  lemma SameRest(bytes: Bytes, from: nat, n: nat)
    requires from + n <= |bytes|
    ensures bytes[from..][n..] == bytes[from + n..]
  {
  }

  lemma OneMore(start: Cursor, lines: seq<Bytes>, n: nat, decode: Decoder)
    requires n < |lines|
    ensures Took(start, lines[..n + 1], decode)
         == Cursor(Took(start, lines[..n], decode).offset + |lines[n]|, start.modified, start.identity,
                   NoteLine(Took(start, lines[..n], decode).mark, lines[n], decode))
  {
    assert lines[..n + 1][..n] == lines[..n];
    assert lines[..n + 1] == lines[..n] + [lines[n]];
    JoinConcat(lines[..n], [lines[n]]);
    assert Join([lines[n]]) == lines[n] + Join([lines[n]][1..]);
  }

  lemma NothingTaken(start: Cursor, lines: seq<Bytes>, decode: Decoder)
    ensures Took(start, lines[..0], decode) == start
  {
    assert lines[..0] == [];
  }

  /** What the reader finds after `n` good lines: the next good line, or the line that is not
      UTF-8, or the half-written tail. */
  lemma NextChunk(rest: Bytes, n: nat, decode: Decoder)
    requires n <= |Good(rest, decode)|
    ensures var front := Join(Good(rest, decode)[..n]);
            && front <= rest
            && Chunk(rest[|front|..]) == if n < |Split(rest)| then Split(rest)[n] else Tail(rest)
  {
    var all := Split(rest);
    var front, back := all[..n], all[n..];
    assert Good(rest, decode)[..n] == front;
    assert all == front + back;
    SplitCovers(rest);
    JoinConcat(front, back);
    Associative(Join(front), Join(back), Tail(rest));
    Drop(Join(front), Join(back) + Tail(rest));
    if n < |all| {
      assert back[0] == all[n] && all[n] in all;
      Associative(back[0], Join(back[1..]), Tail(rest));
      ChunkOfLine(back[0], Join(back[1..]) + Tail(rest));
    } else {
      assert Join(back) + Tail(rest) == Tail(rest);
    }
  }

  /** How the next read goes after `n` good lines, and what it means for the whole poll. */
  lemma NextRead(rest: Bytes, n: nat, broken: Option<nat>, decode: Decoder)
    requires n <= |Good(rest, decode)| && (broken.Some? ==> n <= broken.value)
    ensures Join(Good(rest, decode)[..n]) <= rest
    ensures var lines := Good(rest, decode);
            var chunk := Chunk(rest[|Join(lines[..n])|..]);
            if broken == Some(n) then ReadNow(rest, broken, decode) == lines[..n] && ReadFails(rest, broken, decode)
            else if chunk == [] then ReadNow(rest, broken, decode) == lines[..n] && !ReadFails(rest, broken, decode)
            else if decode(chunk).None?
            then ReadNow(rest, broken, decode) == lines[..n] && ReadFails(rest, broken, decode)
            else if chunk[|chunk| - 1] != NEWLINE
            then ReadNow(rest, broken, decode) == lines[..n] && !ReadFails(rest, broken, decode)
            else n < |lines| && chunk == lines[n] && (broken.Some? ==> n + 1 <= broken.value)
  {
    NextChunk(rest, n, decode);
    var all := Split(rest);
    if n < |all| {
      assert all[n] in all;
    }
  }

  // ---------------------------------------------------------------- good lines and positions

  lemma {:induction false} UsableConcat(a: seq<Bytes>, b: seq<Bytes>, decode: Decoder)
    requires forall l :: l in a ==> decode(l).Some?
    ensures Usable(a + b, decode) == |a| + Usable(b, decode)
  {
    if a == [] {
      assert a + b == b;
    } else {
      assert a[0] in a;
      assert (a + b)[1..] == a[1..] + b;
      UsableConcat(a[1..], b, decode);
    }
  }

  /** Good lines at the front of a file are its first good lines; what is left has the others. */
  lemma GoodAfter(front: seq<Bytes>, rest: Bytes, decode: Decoder)
    requires AllLines(front) && forall l :: l in front ==> decode(l).Some?
    ensures Good(Join(front) + rest, decode) == front + Good(rest, decode)
  {
    SplitAfter(front, rest);
    UsableConcat(front, Split(rest), decode);
  }

  lemma GoodIsGood(b: Bytes, decode: Decoder)
    ensures AllLines(Good(b, decode)) && Join(Good(b, decode)) <= b
    ensures forall l :: l in Good(b, decode) ==> decode(l).Some?
  {
    var n := Usable(Split(b), decode);
    JoinGrows(Split(b), n);
    SplitCovers(b);
  }

  /** The reader stands after `k` of these lines and knows their latest activity. */
  ghost predicate StandsAt(c: Cursor, lines: seq<Bytes>, k: nat, decode: Decoder) {
    && k <= |lines|
    && c.offset == |Join(lines[..k])|
    && c.mark.updatedAt == Activity(lines[..k], decode)
  }

  /** From such a place, a file is read on with the next good lines. */
  lemma ReadsOn(b: Bytes, k: nat, decode: Decoder)
    requires k <= |Good(b, decode)|
    ensures Join(Good(b, decode)[..k]) <= b
    ensures Good(b[|Join(Good(b, decode)[..k])|..], decode) == Good(b, decode)[k..]
  {
    var lines := Good(b, decode);
    GoodIsGood(b, decode);
    JoinGrows(lines, k);
    var rest := b[|Join(lines[..k])|..];
    assert b == Join(lines[..k]) + rest;
    GoodAfter(lines[..k], rest, decode);
  }

  /** A file that starts with the lines already read has them among its good lines. */
  lemma SamePlace(earlier: Bytes, current: Bytes, k: nat, decode: Decoder)
    requires k <= |Good(earlier, decode)| && Join(Good(earlier, decode)[..k]) <= current
    ensures k <= |Good(current, decode)| && Good(current, decode)[..k] == Good(earlier, decode)[..k]
  {
    var front := Good(earlier, decode)[..k];
    GoodIsGood(earlier, decode);
    var rest := current[|Join(front)|..];
    assert current == Join(front) + rest;
    GoodAfter(front, rest, decode);
  }

  lemma GoodGrows(earlier: Bytes, current: Bytes, decode: Decoder)
    requires earlier <= current
    ensures Good(earlier, decode) <= Good(current, decode)
  {
    var lines := Good(earlier, decode);
    GoodIsGood(earlier, decode);
    assert lines[..|lines|] == lines;
    SamePlace(earlier, current, |lines|, decode);
  }

  lemma AtTheEnd(b: Bytes, k: nat, decode: Decoder)
    requires k <= |Good(b, decode)| && |Join(Good(b, decode)[..k])| >= |b|
    ensures k == |Good(b, decode)|
  {
    GoodIsGood(b, decode);
    JoinGrows(Good(b, decode), k);
  }

  lemma TakeSome(c: Cursor, lines: seq<Bytes>, k: nat, m: nat, decode: Decoder)
    requires StandsAt(c, lines, k, decode) && k + m <= |lines|
    ensures StandsAt(Took(c, lines[k..k + m], decode), lines, k + m, decode)
  {
    assert lines[..k + m] == lines[..k] + lines[k..k + m];
    JoinConcat(lines[..k], lines[k..k + m]);
    Concat(lines[..k], lines[k..k + m], decode);
    NoteAllMeaning(c.mark, lines[k..k + m], decode);
  }

  // ---------------------------------------------------------------- any way a file changes

  /** The last file seen. */
  function Latest(polls: seq<Poll>): Bytes
    decreases |polls|
  {
    if polls == [] then []
    else if polls[|polls| - 1].Readable? then polls[|polls| - 1].file.bytes
    else Latest(polls[..|polls| - 1])
  }

  function Readings(id: string, polls: seq<Poll>, decode: Decoder): Cursor
    decreases |polls|
  {
    if polls == [] then Unread(id)
    else Polled(Readings(id, polls[..|polls| - 1], decode), polls[|polls| - 1], decode)
  }

  /** The change since the last poll is one the reader can see: the bytes it has read are still
      there, or the file has another identity, or it is no longer than what was read and its
      length or time has changed. */
  ghost predicate Noticed(c: Cursor, before: Bytes, f: Snapshot) {
    || (c.offset <= |before| && before[..c.offset] <= f.bytes)
    || (Restarts(c, f) && !Skips(c, f))
  }

  ghost predicate AllNoticed(id: string, polls: seq<Poll>, decode: Decoder)
    decreases |polls|
  {
    polls != [] ==>
      var front := polls[..|polls| - 1];
      && AllNoticed(id, front, decode)
      && (polls[|polls| - 1].Readable? ==> Noticed(Readings(id, front, decode), Latest(front), polls[|polls| - 1].file))
  }

  ghost predicate Stands(c: Cursor, b: Bytes, decode: Decoder) {
    exists k: nat :: StandsAt(c, Good(b, decode), k, decode)
  }

  lemma PositionedStands(c: Cursor, before: Bytes, f: Snapshot, decode: Decoder)
    requires Stands(c, before, decode) && Noticed(c, before, f) && !Skips(c, f)
    ensures Stands(Positioned(c, f), f.bytes, decode)
  {
    if Restarts(c, f) {
      assert Good(f.bytes, decode)[..0] == [];
      assert StandsAt(Positioned(c, f), Good(f.bytes, decode), 0, decode);
    } else {
      var k: nat :| StandsAt(c, Good(before, decode), k, decode);
      ReadsOn(before, k, decode);
      SamePlace(before, f.bytes, k, decode);
      assert StandsAt(c, Good(f.bytes, decode), k, decode);
    }
  }

  lemma SkippedStands(c: Cursor, before: Bytes, f: Snapshot, decode: Decoder)
    requires Stands(c, before, decode) && Noticed(c, before, f) && Skips(c, f)
    ensures StandsAt(c, Good(f.bytes, decode), |Good(f.bytes, decode)|, decode)
  {
    var k: nat :| StandsAt(c, Good(before, decode), k, decode);
    ReadsOn(before, k, decode);
    SamePlace(before, f.bytes, k, decode);
    AtTheEnd(f.bytes, k, decode);
  }

  /** Whatever happens to the file, as long as the changes can be noticed, the reader stands on a
      line boundary and its activity is that of the lines before it. */
  lemma {:induction false} AlwaysStands(id: string, polls: seq<Poll>, decode: Decoder)
    requires AllNoticed(id, polls, decode)
    ensures Stands(Readings(id, polls, decode), Latest(polls), decode)
    decreases |polls|
  {
    if polls == [] {
      assert StandsAt(Unread(id), Good([], decode), 0, decode);
    } else {
      var front, p := polls[..|polls| - 1], polls[|polls| - 1];
      AlwaysStands(id, front, decode);
      PollStands(Readings(id, front, decode), Latest(front), p, decode);
    }
  }

  lemma PollStands(c: Cursor, before: Bytes, p: Poll, decode: Decoder)
    requires Stands(c, before, decode) && (p.Readable? ==> Noticed(c, before, p.file))
    ensures Stands(Polled(c, p, decode), if p.Readable? then p.file.bytes else before, decode)
    ensures p.Readable? && p.broken.None? ==>
      StandsAt(Polled(c, p, decode), Good(p.file.bytes, decode), |Good(p.file.bytes, decode)|, decode)
  {
    if p.Unreadable? {
      var k: nat :| StandsAt(c, Good(before, decode), k, decode);
      assert StandsAt(Faulted(c), Good(before, decode), k, decode);
    } else if Skips(c, p.file) {
      SkippedStands(c, before, p.file, decode);
    } else {
      PositionedStands(c, before, p.file, decode);
      ReadStands(c, p.file, p.broken, decode);
    }
  }

  lemma ReadStands(c: Cursor, f: Snapshot, broken: Option<nat>, decode: Decoder)
    requires !Skips(c, f) && Stands(Positioned(c, f), f.bytes, decode)
    ensures Stands(Polled(c, Readable(f, broken), decode), f.bytes, decode)
    ensures broken.None? ==>
      StandsAt(Polled(c, Readable(f, broken), decode), Good(f.bytes, decode), |Good(f.bytes, decode)|, decode)
  {
    var k: nat :| StandsAt(Positioned(c, f), Good(f.bytes, decode), k, decode);
    var m := ReadsTo(c, f, broken, k, decode);
  }

  lemma ReadsTo(c: Cursor, f: Snapshot, broken: Option<nat>, k: nat, decode: Decoder) returns (m: nat)
    requires !Skips(c, f) && StandsAt(Positioned(c, f), Good(f.bytes, decode), k, decode)
    ensures StandsAt(Polled(c, Readable(f, broken), decode), Good(f.bytes, decode), m, decode)
    ensures broken.None? ==> m == |Good(f.bytes, decode)|
  {
    var start, lines := Positioned(c, f), Good(f.bytes, decode);
    m := Reads(start, f, broken, k, decode);
    TakeSome(start, lines, k, m, decode);
    var end := Took(start, lines[k..k + m], decode);
    var now := Polled(c, Readable(f, broken), decode);
    assert now.offset == end.offset && now.mark.updatedAt == end.mark.updatedAt;
    m := k + m;
  }

  /** From a line boundary, a poll reads the next good lines, and all of them when no read fails. */
  lemma Reads(start: Cursor, f: Snapshot, broken: Option<nat>, k: nat, decode: Decoder) returns (m: nat)
    requires StandsAt(start, Good(f.bytes, decode), k, decode)
    ensures start.offset <= |f.bytes| && k + m <= |Good(f.bytes, decode)|
    ensures ReadNow(f.bytes[start.offset..], broken, decode) == Good(f.bytes, decode)[k..k + m]
    ensures broken.None? ==> k + m == |Good(f.bytes, decode)|
  {
    ReadsOn(f.bytes, k, decode);
    m := |ReadNow(f.bytes[start.offset..], broken, decode)|;
  }

  /** After a poll that reads to the end, the activity is that of every good line of the file as it
      is now, also after the file was cut short or replaced. */
  lemma ActivityIsCurrent(id: string, polls: seq<Poll>, decode: Decoder)
    requires AllNoticed(id, polls, decode)
    requires polls != [] && polls[|polls| - 1].Readable? && polls[|polls| - 1].broken.None?
    ensures var now, lines := Readings(id, polls, decode), Good(Latest(polls), decode);
            now.offset == |Join(lines)| && now.mark.updatedAt == Activity(lines, decode)
  {
    var front, p := polls[..|polls| - 1], polls[|polls| - 1];
    AlwaysStands(id, front, decode);
    PollStands(Readings(id, front, decode), Latest(front), p, decode);
    var lines := Good(p.file.bytes, decode);
    assert lines[..|lines|] == lines;
  }

  // ---------------------------------------------------------------- a file that only grows

  /** Every readable poll sees the same file, with at least the bytes seen before. */
  ghost predicate Growing(polls: seq<Poll>, identity: nat)
    decreases |polls|
  {
    polls != [] ==>
      var front, p := polls[..|polls| - 1], polls[|polls| - 1];
      && Growing(front, identity)
      && (p.Readable? ==> p.file.identity == identity && Latest(front) <= p.file.bytes)
  }

  /** A read error has made the reading uncertain, and no line read since has decided otherwise. */
  function Doubted(id: string, polls: seq<Poll>, decode: Decoder): bool
    decreases |polls|
  {
    polls != [] &&
      var front, p := polls[..|polls| - 1], polls[|polls| - 1];
      DoubtAfter(Readings(id, front, decode), Doubted(id, front, decode), p, decode)
  }

  predicate DoubtAfter(c: Cursor, doubted: bool, p: Poll, decode: Decoder) {
    if p.Unreadable? then true
    else if Skips(c, p.file) then doubted
    else
      var rest := p.file.bytes[Positioned(c, p.file).offset..];
      ReadFails(rest, p.broken, decode) || (doubted && LastVerdict(ReadNow(rest, p.broken, decode), decode).None?)
  }

  /** Reading the remaining lines would end with the title, and without doubts with the certainty,
      of a reading from the start. */
  ghost predicate Tracks(c: Cursor, doubted: bool, lines: seq<Bytes>, k: nat, id: string, decode: Decoder) {
    && StandsAt(c, lines, k, decode)
    && LastTitle(lines[k..], decode).GetOr(c.mark.title) == LastTitle(lines, decode).GetOr(id)
    && if doubted then c.mark.uncertain
       else LastVerdict(lines[k..], decode).GetOr(c.mark.uncertain) == LastVerdict(lines, decode).GetOr(false)
  }

  lemma TracksMore(c: Cursor, doubted: bool, lines: seq<Bytes>, more: seq<Bytes>, k: nat, id: string, decode: Decoder)
    requires Tracks(c, doubted, lines, k, id, decode) && lines <= more
    ensures Tracks(c, doubted, more, k, id, decode)
  {
    var added := more[|lines|..];
    assert more == lines + added && more[k..] == lines[k..] + added && more[..k] == lines[..k];
    Concat(lines, added, decode);
    Concat(lines[k..], added, decode);
  }

  lemma TracksOn(c: Cursor, doubted: bool, lines: seq<Bytes>, k: nat, m: nat, id: string, decode: Decoder)
    requires Tracks(c, doubted, lines, k, id, decode) && k + m <= |lines|
    ensures var taken := lines[k..k + m];
            Tracks(Took(c, taken, decode), doubted && LastVerdict(taken, decode).None?, lines, k + m, id, decode)
  {
    var taken := lines[k..k + m];
    TakeSome(c, lines, k, m, decode);
    NoteAllMeaning(c.mark, taken, decode);
    assert lines[k..] == taken + lines[k + m..];
    Concat(taken, lines[k + m..], decode);
    assert lines == lines[..k] + lines[k..];
    Concat(lines[..k], lines[k..], decode);
  }

  lemma TracksFromTheStart(c: Cursor, doubted: bool, lines: seq<Bytes>, id: string, decode: Decoder)
    requires Tracks(c, doubted, lines, |lines|, id, decode)
    ensures forall start: Cursor :: start.offset == 0 && start.mark == c.mark.(updatedAt := None) ==>
              Tracks(start, doubted, lines, 0, id, decode)
  {
    assert lines[0..] == lines && lines[..0] == [];
    assert lines[|lines|..] == [];
  }

  ghost predicate InTrack(c: Cursor, doubted: bool, b: Bytes, id: string, identity: nat, decode: Decoder) {
    && (c.identity == identity || (c.offset == 0 && c.mark.updatedAt.None?))
    && exists k: nat :: Tracks(c, doubted, Good(b, decode), k, id, decode)
  }

  lemma PositionedTracks(c: Cursor, doubted: bool, before: Bytes, f: Snapshot, id: string, identity: nat,
                         decode: Decoder)
    requires InTrack(c, doubted, before, id, identity, decode) && f.identity == identity && before <= f.bytes
    ensures exists k: nat :: Tracks(Positioned(c, f), doubted, Good(f.bytes, decode), k, id, decode)
    ensures Skips(c, f) ==> Tracks(c, doubted, Good(f.bytes, decode), |Good(f.bytes, decode)|, id, decode)
  {
    var lines := Good(f.bytes, decode);
    var k: nat :| Tracks(c, doubted, Good(before, decode), k, id, decode);
    GoodGrows(before, f.bytes, decode);
    TracksMore(c, doubted, Good(before, decode), lines, k, id, decode);
    if |f.bytes| <= c.offset {
      AtTheEnd(f.bytes, k, decode);
      TracksFromTheStart(c, doubted, lines, id, decode);
      assert Tracks(Positioned(c, f), doubted, lines, 0, id, decode);
    } else {
      assert Tracks(Positioned(c, f), doubted, lines, k, id, decode);
    }
  }

  lemma PollTracks(c: Cursor, doubted: bool, before: Bytes, p: Poll, id: string, identity: nat, decode: Decoder)
    requires InTrack(c, doubted, before, id, identity, decode)
    requires p.Readable? ==> p.file.identity == identity && before <= p.file.bytes
    ensures InTrack(Polled(c, p, decode), DoubtAfter(c, doubted, p, decode),
                    if p.Readable? then p.file.bytes else before, id, identity, decode)
    ensures p.Readable? && p.broken.None? ==>
      Tracks(Polled(c, p, decode), DoubtAfter(c, doubted, p, decode), Good(p.file.bytes, decode),
             |Good(p.file.bytes, decode)|, id, decode)
  {
    if p.Unreadable? {
      var k: nat :| Tracks(c, doubted, Good(before, decode), k, id, decode);
      assert Tracks(Faulted(c), true, Good(before, decode), k, id, decode);
    } else {
      PositionedTracks(c, doubted, before, p.file, id, identity, decode);
      if !Skips(c, p.file) {
        ReadTracks(c, doubted, p.file, p.broken, id, decode);
      }
    }
  }

  lemma ReadTracks(c: Cursor, doubted: bool, f: Snapshot, broken: Option<nat>, id: string, decode: Decoder)
    requires !Skips(c, f) && exists k: nat :: Tracks(Positioned(c, f), doubted, Good(f.bytes, decode), k, id, decode)
    ensures var p := Readable(f, broken);
            var lines, now, doubt := Good(f.bytes, decode), Polled(c, p, decode), DoubtAfter(c, doubted, p, decode);
            && (exists k: nat :: Tracks(now, doubt, lines, k, id, decode))
            && (broken.None? ==> Tracks(now, doubt, lines, |lines|, id, decode))
  {
    var start, lines := Positioned(c, f), Good(f.bytes, decode);
    var k: nat :| Tracks(start, doubted, lines, k, id, decode);
    var m := Reads(start, f, broken, k, decode);
    TracksOn(start, doubted, lines, k, m, id, decode);
    var p := Readable(f, broken);
    assert Tracks(Polled(c, p, decode), DoubtAfter(c, doubted, p, decode), lines, k + m, id, decode);
  }

  lemma {:induction false} AlwaysInTrack(id: string, polls: seq<Poll>, identity: nat, decode: Decoder)
    requires Growing(polls, identity)
    ensures InTrack(Readings(id, polls, decode), Doubted(id, polls, decode), Latest(polls), id, identity, decode)
    decreases |polls|
  {
    if polls == [] {
      assert Good([], decode) == [];
      assert Tracks(Unread(id), false, [], 0, id, decode);
    } else {
      var front, p := polls[..|polls| - 1], polls[|polls| - 1];
      AlwaysInTrack(id, front, identity, decode);
      PollTracks(Readings(id, front, decode), Doubted(id, front, decode), Latest(front), p, id, identity, decode);
    }
  }

  /** However the appended bytes are cut into polls, with half-written lines, failing reads and
      changes of the time alone, a poll that reads to the end leaves the offset after the last good
      line, and the activity and title of one reading of the whole file. It is certain exactly when
      that reading is and no read error is still undecided. */
  lemma IncrementalEqualsFull(id: string, polls: seq<Poll>, identity: nat, decode: Decoder)
    requires Growing(polls, identity)
    requires polls != [] && polls[|polls| - 1].Readable? && polls[|polls| - 1].broken.None?
    ensures var now, lines := Readings(id, polls, decode), Good(Latest(polls), decode);
            var full := NoteAll(Mark(None, id, false), lines, decode);
            && now.offset == |Join(lines)|
            && now.mark == full.(uncertain := full.uncertain || Doubted(id, polls, decode))
  {
    var front, p := polls[..|polls| - 1], polls[|polls| - 1];
    AlwaysInTrack(id, front, identity, decode);
    PollTracks(Readings(id, front, decode), Doubted(id, front, decode), Latest(front), p, id, identity, decode);
    var lines := Good(p.file.bytes, decode);
    assert lines[..|lines|] == lines && lines[|lines|..] == [];
    NoteAllMeaning(Mark(None, id, false), lines, decode);
  }

  /** Every byte of every file seen can be read, half-written tails included. */
  ghost predicate NoErrors(polls: seq<Poll>, decode: Decoder) {
    forall p :: p in polls ==>
      && p.Readable? && p.broken.None?
      && (forall l :: l in Split(p.file.bytes) ==> decode(l).Some?)
      && decode(Tail(p.file.bytes)).Some?
  }

  lemma UsableIsAll(lines: seq<Bytes>, decode: Decoder)
    requires forall l :: l in lines ==> decode(l).Some?
    ensures Usable(lines, decode) == |lines|
  {
    assert lines + [] == lines;
    UsableConcat(lines, [], decode);
  }

  lemma {:induction false} NoErrorsNoDoubt(id: string, polls: seq<Poll>, identity: nat, decode: Decoder)
    requires Growing(polls, identity) && NoErrors(polls, decode)
    ensures !Doubted(id, polls, decode)
    decreases |polls|
  {
    if polls != [] {
      var front, p := polls[..|polls| - 1], polls[|polls| - 1];
      NoErrorsNoDoubt(id, front, identity, decode);
      assert p in polls;
      var c := Readings(id, front, decode);
      if !Skips(c, p.file) {
        AlwaysInTrack(id, front, identity, decode);
        PositionedTracks(c, false, Latest(front), p.file, id, identity, decode);
        NothingFails(Positioned(c, p.file), p.file, decode);
      }
    }
  }

  lemma NothingFails(start: Cursor, f: Snapshot, decode: Decoder)
    requires Stands(start, f.bytes, decode)
    requires (forall l :: l in Split(f.bytes) ==> decode(l).Some?) && decode(Tail(f.bytes)).Some?
    ensures start.offset <= |f.bytes| && !ReadFails(f.bytes[start.offset..], None, decode)
  {
    var all := Split(f.bytes);
    UsableIsAll(all, decode);
    assert Good(f.bytes, decode) == all;
    var k: nat :| StandsAt(start, all, k, decode);
    RestOfLines(f.bytes, k);
    UsableIsAll(all[k..], decode);
  }

  lemma LastHasNoErrors(polls: seq<Poll>, decode: Decoder)
    requires NoErrors(polls, decode) && polls != []
    ensures polls[|polls| - 1].Readable? && polls[|polls| - 1].broken.None?
    ensures Good(Latest(polls), decode) == Split(Latest(polls))
  {
    assert polls[|polls| - 1] in polls;
    UsableIsAll(Split(Latest(polls)), decode);
  }

  /** Without read errors, the incremental reading is the reading of the whole file. */
  lemma CleanReadingEqualsFull(id: string, polls: seq<Poll>, identity: nat, decode: Decoder)
    requires Growing(polls, identity) && NoErrors(polls, decode) && polls != []
    ensures var now, lines := Readings(id, polls, decode), Split(Latest(polls));
            now.offset == |Join(lines)| && now.mark == NoteAll(Mark(None, id, false), lines, decode)
  {
    LastHasNoErrors(polls, decode);
    IncrementalEqualsFull(id, polls, identity, decode);
    NoErrorsNoDoubt(id, polls, identity, decode);
  }

  /** A line read while half of its last character is written leaves the session uncertain, though
      a reading of the finished file is certain. */
  lemma HalfACharacterLeavesDoubt(id: string)
    ensures var decode := (b: Bytes) => if b == [0xC3] then None else Some(Sidechain);
            var polls := [Readable(Snapshot([0xC3], Some(1), 7), None),
                          Readable(Snapshot([0xC3, 0xA9, NEWLINE], Some(2), 7), None)];
            && Growing(polls, 7)
            && Readings(id, polls, decode).mark.uncertain
            && !NoteAll(Mark(None, id, false), Split(Latest(polls)), decode).uncertain
  {
    var decode := (b: Bytes) => if b == [0xC3] then None else Some(Sidechain);
    var first := Readable(Snapshot([0xC3], Some(1), 7), None);
    var second := Readable(Snapshot([0xC3, 0xA9, NEWLINE], Some(2), 7), None);
    var polls := [first, second];
    assert polls[..1] == [first] && [first][..0] == [];
    SplitOfJoin([], [0xC3]);
    assert Join([]) + [0xC3] == [0xC3];
    var line: Bytes := [0xC3, 0xA9, NEWLINE];
    assert line[..2] == [0xC3, 0xA9];
    SplitOfJoin([line], []);
    assert Join([line]) == line + Join([line][1..]) == line;
    assert Join([line]) + [] == line;
    assert Split(line) == [line];
    UsableIsAll([line], decode);
    assert Good(line, decode) == [line];
    IncrementalEqualsFull(id, polls, 7, decode);
    NoteAllMeaning(Mark(None, id, false), [line], decode);
    assert [line][..0] == [];
    assert LastVerdict([line], decode) == None;
  }
}
