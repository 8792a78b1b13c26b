/** The dialog audit log (src/os_permissions/events.rs): one JSON record a line, surviving torn
    appends, failed repairs, compactions and crashes. The text form of a record is a parameter. */
module DialogLog {
  import opened Prelude
  import opened Lines

  datatype Event = Event(
    timestamp: Time,
    kind: string,
    pid: Option<int>,
    app: string,
    rule: Option<string>,
    button: Option<string>,
    detail: string)

  predicate IsClick(e: Event) { "click." <= e.kind }

  /** Writing and parsing a record, and whether bytes are UTF-8 text. */
  datatype Codec = Codec(encode: Event -> Bytes, decode: Bytes -> Option<Event>, text: Bytes -> bool)

  function LineOf(e: Event, codec: Codec): Bytes { codec.encode(e) + [NEWLINE] }

  /** A record has no newline in its text and is read back as itself. */
  ghost predicate Faithful(codec: Codec) {
    forall e :: NEWLINE !in codec.encode(e) && codec.decode(LineOf(e, codec)) == Some(e)
  }

  // ---------------------------------------------------------------- reading

  /** The records of complete lines; None as soon as one is not a record. */
  function Decoded(lines: seq<Bytes>, codec: Codec): Option<seq<Event>>
    decreases |lines|
  {
    if lines == [] then Some([])
    else
      var before := Decoded(lines[..|lines| - 1], codec);
      var e := codec.decode(lines[|lines| - 1]);
      if before.None? || e.None? then None else Some(before.value + [e.value])
  }

  function Wanted(es: seq<Event>, clicksOnly: bool): seq<Event>
    decreases |es|
  {
    if es == [] then []
    else
      var e := es[|es| - 1];
      Wanted(es[..|es| - 1], clicksOnly) + if clicksOnly && !IsClick(e) then [] else [e]
  }

  function Last<T>(s: seq<T>, n: nat): seq<T> { if |s| <= n then s else s[|s| - n..] }

  /** The half-written tail is not parsed, but `read_line` still wants it to be text. */
  predicate TailReads(file: Bytes, codec: Codec) { Tail(file) == [] || codec.text(Tail(file)) }

  /** The newest `limit` wanted records, in the order they were written. */
  function Read(file: Bytes, clicksOnly: bool, limit: nat, codec: Codec): Option<seq<Event>> {
    var all := Decoded(Split(file), codec);
    if all.None? || !TailReads(file, codec) then None else Some(Last(Wanted(all.value, clicksOnly), limit))
  }

  /** The source's loop over the lines, with its sliding window. */
  method ReadEntries(file: Bytes, clicksOnly: bool, limit: nat, codec: Codec) returns (entries: Option<seq<Event>>)
    ensures entries == Read(file, clicksOnly, limit, codec)
  {
    var window: seq<Event> := [];
    var offset := 0;
    ghost var lines, n := Split(file), 0;
    Front(lines, 0);
    while true
      invariant n <= |lines| && offset == |Join(lines[..n])| <= |file|
      invariant Shows(window, lines[..n], clicksOnly, limit, codec)
      decreases |file| - offset
    {
      NextRead(window, file, n, clicksOnly, limit, codec);
      var line := ReadLine(file, offset);
      if line == [] {
        return Some(window);
      }
      if line[|line| - 1] != NEWLINE {
        return if codec.text(line) then Some(window) else None;
      }
      var event := codec.decode(line);
      if event.None? {
        return None;
      }
      offset, n := offset + |line|, n + 1;
      if clicksOnly && !IsClick(event.value) {
        continue;
      }
      window := window + [event.value];
      if |window| > limit {
        window := window[1..];
      }
    }
  }

  /** How the next read goes after `n` lines, and what it means for the result. */
  lemma NextRead(window: seq<Event>, file: Bytes, n: nat, clicksOnly: bool, limit: nat, codec: Codec)
    requires n <= |Split(file)| && Shows(window, Split(file)[..n], clicksOnly, limit, codec)
    ensures Join(Split(file)[..n]) <= file
    ensures var lines, result := Split(file), Read(file, clicksOnly, limit, codec);
            var chunk := Chunk(file[|Join(lines[..n])|..]);
            if chunk == [] then result == Some(window)
            else if chunk[|chunk| - 1] != NEWLINE then result == if codec.text(chunk) then Some(window) else None
            else if codec.decode(chunk).None? then result == None
            else
              && n < |lines| && |Join(lines[..n + 1])| == |Join(lines[..n])| + |chunk| <= |file|
              && Shows(WithNext(window, codec.decode(chunk).value, clicksOnly, limit), lines[..n + 1], clicksOnly,
                       limit, codec)
  {
    var lines := Split(file);
    LineAt(file, n);
    Front(lines, n);
    if n < |lines| {
      if codec.decode(lines[n]).None? {
        Undecodable(lines, n, codec);
      } else {
        LineAt(file, n + 1);
        ShowsOneMore(window, lines, n, clicksOnly, limit, codec);
      }
    }
  }

  /** The window holds the newest wanted records of these lines. */
  predicate Shows(window: seq<Event>, lines: seq<Bytes>, clicksOnly: bool, limit: nat, codec: Codec) {
    && Decoded(lines, codec).Some?
    && window == Last(Wanted(Decoded(lines, codec).value, clicksOnly), limit)
  }

  function Slid(window: seq<Event>, e: Event, limit: nat): seq<Event> {
    if |window| + 1 > limit then (window + [e])[1..] else window + [e]
  }

  function WithNext(window: seq<Event>, e: Event, clicksOnly: bool, limit: nat): seq<Event> {
    if clicksOnly && !IsClick(e) then window else Slid(window, e, limit)
  }

  lemma SlidIsLast(all: seq<Event>, e: Event, limit: nat)
    ensures Slid(Last(all, limit), e, limit) == Last(all + [e], limit)
  {
  }

  lemma ShowsOneMore(window: seq<Event>, lines: seq<Bytes>, n: nat, clicksOnly: bool, limit: nat, codec: Codec)
    requires n < |lines| && Shows(window, lines[..n], clicksOnly, limit, codec) && codec.decode(lines[n]).Some?
    ensures var e := codec.decode(lines[n]).value;
            Shows(WithNext(window, e, clicksOnly, limit), lines[..n + 1], clicksOnly, limit, codec)
  {
    var e := codec.decode(lines[n]).value;
    Front(lines, n);
    var es := Decoded(lines[..n], codec).value;
    assert Decoded(lines[..n + 1], codec) == Some(es + [e]);
    assert (es + [e])[..|es|] == es;
    SlidIsLast(Wanted(es, clicksOnly), e, limit);
    assert Wanted(es, clicksOnly) + [] == Wanted(es, clicksOnly);
  }

  lemma Front(lines: seq<Bytes>, n: nat)
    requires n <= |lines|
    ensures n == 0 ==> lines[..n] == []
    ensures n == |lines| ==> lines[..n] == lines
    ensures n < |lines| ==>
      && lines[..n + 1][..n] == lines[..n]
      && Join(lines[..n + 1]) == Join(lines[..n]) + lines[n]
  {
    if n < |lines| {
      assert lines[..n + 1] == lines[..n] + [lines[n]];
      JoinConcat(lines[..n], [lines[n]]);
    }
  }

  /** The next `read_line` after `n` complete lines. */
  lemma LineAt(file: Bytes, n: nat)
    requires n <= |Split(file)|
    ensures var front := Join(Split(file)[..n]);
            && front <= file
            && Chunk(file[|front|..]) == if n < |Split(file)| then Split(file)[n] else Tail(file)
    ensures n < |Split(file)| ==> IsLine(Split(file)[n])
  {
    RestOfLines(file, n);
    var rest := file[|Join(Split(file)[..n])|..];
    SplitCovers(rest);
    if n == |Split(file)| {
      assert Join([]) + Tail(file) == Tail(file);
    }
  }

  lemma {:induction false} Undecodable(lines: seq<Bytes>, n: nat, codec: Codec)
    requires n < |lines| && codec.decode(lines[n]).None?
    ensures Decoded(lines, codec).None?
    decreases |lines|
  {
    if n < |lines| - 1 {
      Undecodable(lines[..|lines| - 1], n, codec);
    }
  }

  // ---------------------------------------------------------------- the log

  /** What the service holds while the log is open. */
  datatype Handle = Handle(count: nat, retention: nat, repairRequired: bool)

  datatype State = State(file: Bytes, handle: Option<Handle>)

  /** How an append fares: cut off after some bytes of its line, with the repair working or not, or
      written, with the file of a compaction swapped in or not. */
  datatype Fate = Torn(kept: nat, repaired: bool) | Written(swaps: bool)

  datatype Step =
    | Open(retention: nat, trims: bool)
    | Append(event: Event, fate: Fate)
    | Crash
    | CrashInAppend(event: Event, kept: nat)

  function Cut(b: Bytes, n: nat): Bytes { if n < |b| then b[..n] else b }

  /** `saturating_mul(2)`. */
  function Doubled(retention: nat): nat { Min(retention * 2, USIZE_MAX) }

  /** A file has no more lines than bytes, so that number stands for `usize::MAX`: no limit. */
  function Opened(file: Bytes, retention: nat, trims: bool, codec: Codec): State {
    if Tail(file) != [] && !trims then State(file, None)
    else
      var whole := Join(Split(file));
      var all := Read(whole, false, |whole|, codec);
      State(whole, if all.Some? then Some(Handle(|all.value|, retention, false)) else None)
  }

  /** The state after an append, and whether it reported success. */
  function Appended(s: State, e: Event, fate: Fate, codec: Codec): (State, bool)
    requires s.handle.Some?
  {
    var h, line := s.handle.value, LineOf(e, codec);
    if h.repairRequired then (s, false)
    else
      match fate
      case Torn(kept, repaired) =>
        if repaired then (s, false)
        else (State(s.file + Cut(line, kept), Some(h.(repairRequired := true))), false)
      case Written(swaps) =>
        var file, count := s.file + line, h.count + 1;
        if count <= Doubled(h.retention) then (State(file, Some(h.(count := count))), true)
        else
          var entries := Read(file, false, h.retention, codec);
          if entries.None? || !swaps then (State(file, Some(h.(count := count))), false)
          else (State(EncodeAll(entries.value, codec), Some(h.(count := |entries.value|))), true)
  }

  function Encoded(es: seq<Event>, codec: Codec): (lines: seq<Bytes>)
    ensures |lines| == |es| && forall i :: 0 <= i < |es| ==> lines[i] == LineOf(es[i], codec)
    decreases |es|
  {
    if es == [] then [] else Encoded(es[..|es| - 1], codec) + [LineOf(es[|es| - 1], codec)]
  }

  function EncodeAll(es: seq<Event>, codec: Codec): Bytes { Join(Encoded(es, codec)) }

  function Apply(s: State, step: Step, codec: Codec): State {
    match step
    case Open(retention, trims) => if s.handle.None? then Opened(s.file, retention, trims, codec) else s
    case Append(e, fate) => if s.handle.Some? then Appended(s, e, fate, codec).0 else s
    case Crash => s.(handle := None)
    case CrashInAppend(e, kept) =>
      if s.handle.Some? && !s.handle.value.repairRequired
      then State(s.file + Cut(LineOf(e, codec), kept), None)
      else s.(handle := None)
  }

  function Run(steps: seq<Step>, codec: Codec): State
    decreases |steps|
  {
    if steps == [] then State([], None) else Apply(Run(steps[..|steps| - 1], codec), steps[|steps| - 1], codec)
  }

  /** The step puts this record's whole line into the file, and no repair takes it out again. */
  predicate Keeps(s: State, step: Step, codec: Codec) {
    && s.handle.Some? && !s.handle.value.repairRequired
    && match step
       case Append(e, Torn(kept, repaired)) => !repaired && kept >= |LineOf(e, codec)|
       case Append(_, Written(_)) => true
       case CrashInAppend(e, kept) => kept >= |LineOf(e, codec)|
       case _ => false
  }

  /** The history after a step. */
  function Longer(s: State, history: seq<Event>, step: Step, codec: Codec): seq<Event> {
    if Keeps(s, step, codec) then history + [step.event] else history
  }

  /** Every record fully written since the log began, in order. */
  function History(steps: seq<Step>, codec: Codec): seq<Event>
    decreases |steps|
  {
    if steps == [] then []
    else
      var before := steps[..|steps| - 1];
      Longer(Run(before, codec), History(before, codec), steps[|steps| - 1], codec)
  }

  // ---------------------------------------------------------------- the object

  class Log {
    var file: Bytes
    var count: nat
    var retention: nat
    var repairRequired: bool
    const codec: Codec

    ghost function Current(): State
      reads this
    {
      State(file, Some(Handle(count, retention, repairRequired)))
    }

    constructor (file: Bytes, count: nat, retention: nat, codec: Codec)
      ensures Current() == State(file, Some(Handle(count, retention, false))) && this.codec == codec
    {
      this.file, this.count, this.retention, repairRequired, this.codec := file, count, retention, false, codec;
    }

    /** The writes to the file fare as `fate` says. */
    method AppendWith(event: Event, fate: Fate) returns (ok: bool)
      modifies this
      ensures (Current(), ok) == Appended(old(Current()), event, fate, codec)
    {
      if repairRequired {
        return false;
      }
      var line := codec.encode(event) + [NEWLINE];
      var complete := |file|;
      if fate.Torn? {
        file := file + Cut(line, fate.kept);
        if !fate.repaired {
          repairRequired := true;
          return false;
        }
        file := file[..complete];
        assert file == old(file);
        return false;
      }
      file := file + line;
      count := count + 1;
      if count > Doubled(retention) {
        var entries := ReadEntries(file, false, retention, codec);
        if entries.None? || !fate.swaps {
          return false;
        }
        file := EncodeAll(entries.value, codec);
        count := |entries.value|;
      }
      return true;
    }
  }

  /** Opening removes a half-written last record; None when the file cannot be cut or read. */
  method Start(file: Bytes, retention: nat, trims: bool, codec: Codec) returns (log: Log?, disk: Bytes)
    ensures log != null ==> fresh(log) && log.codec == codec && log.Current() == Opened(file, retention, trims, codec)
    ensures log == null ==> State(disk, None) == Opened(file, retention, trims, codec)
  {
    disk := file;
    SplitCovers(file);
    if file != [] && file[|file| - 1] != NEWLINE {
      EndsInTail(file);
      if !trims {
        return null, disk;
      }
      var end := AfterLastNewline(file);
      disk := file[..end];
    } else {
      EndsInTail(file);
    }
    var all := ReadEntries(disk, false, |disk|, codec);
    if all.None? {
      return null, disk;
    }
    log := new Log(disk, |all.value|, retention, codec);
  }

  lemma {:induction false} EndsInTail(file: Bytes)
    ensures Tail(file) == [] <==> file == [] || file[|file| - 1] == NEWLINE
    ensures Tail(file) == [] ==> file == Join(Split(file))
    decreases |file|
  {
    SplitCovers(file);
    if NEWLINE in file {
      var c := Chunk(file);
      var rest := file[|c|..];
      EndsInTail(rest);
      if rest == [] {
        assert file == c;
      } else {
        assert file[|file| - 1] == rest[|rest| - 1];
      }
    }
  }

  /** The position after the last newline. */
  method AfterLastNewline(file: Bytes) returns (end: nat)
    ensures end <= |file| && file[..end] == Join(Split(file))
  {
    end := |file|;
    while end > 0 && file[end - 1] != NEWLINE
      invariant end <= |file| && NEWLINE !in file[end..]
    {
      end := end - 1;
      assert file[end..] == [file[end]] + file[end + 1..];
    }
    CutAt(file, end);
  }

  lemma CutAt(file: Bytes, end: nat)
    requires end <= |file| && NEWLINE !in file[end..] && (end > 0 ==> file[end - 1] == NEWLINE)
    ensures file[..end] == Join(Split(file))
  {
    var whole := file[..end];
    EndsInTail(whole);
    SplitOfJoin(Split(whole), file[end..]);
    assert file == whole + file[end..];
  }

  // ---------------------------------------------------------------- what is on disk

  /** The complete lines of the file are these records. */
  predicate Holds(file: Bytes, es: seq<Event>, codec: Codec) { Split(file) == Encoded(es, codec) }

  lemma {:induction false} EncodedReadsBack(es: seq<Event>, codec: Codec)
    requires Faithful(codec)
    ensures AllLines(Encoded(es, codec)) && Decoded(Encoded(es, codec), codec) == Some(es)
    decreases |es|
  {
    forall l | l in Encoded(es, codec) ensures IsLine(l) {
      var i :| 0 <= i < |es| && Encoded(es, codec)[i] == l;
      assert l[..|l| - 1] == codec.encode(es[i]);
    }
    if es != [] {
      var front := es[..|es| - 1];
      EncodedReadsBack(front, codec);
      assert Encoded(es, codec)[..|es| - 1] == Encoded(front, codec);
      assert es == front + [es[|es| - 1]];
    } else {
      assert Encoded(es, codec) == [];
    }
  }

  /** A file written whole holds its records and no half line. */
  lemma WholeFile(es: seq<Event>, tail: Bytes, codec: Codec)
    requires Faithful(codec) && NEWLINE !in tail
    ensures Holds(EncodeAll(es, codec) + tail, es, codec) && Tail(EncodeAll(es, codec) + tail) == tail
  {
    EncodedReadsBack(es, codec);
    SplitOfJoin(Encoded(es, codec), tail);
  }

  lemma FileOf(file: Bytes, es: seq<Event>, codec: Codec)
    requires Holds(file, es, codec)
    ensures file == EncodeAll(es, codec) + Tail(file)
  {
    SplitCovers(file);
  }

  lemma EncodeOneMore(es: seq<Event>, e: Event, codec: Codec)
    ensures EncodeAll(es + [e], codec) == EncodeAll(es, codec) + LineOf(e, codec)
  {
    assert Encoded(es + [e], codec) == Encoded(es, codec) + [LineOf(e, codec)];
    JoinConcat(Encoded(es, codec), [LineOf(e, codec)]);
  }

  /** Part of a line adds no record; the whole line adds its own. */
  lemma AfterWrite(file: Bytes, es: seq<Event>, e: Event, kept: nat, codec: Codec)
    requires Faithful(codec) && Holds(file, es, codec) && Tail(file) == []
    ensures var now := file + Cut(LineOf(e, codec), kept);
            if kept >= |LineOf(e, codec)| then Holds(now, es + [e], codec) && Tail(now) == []
            else Holds(now, es, codec)
  {
    var line := LineOf(e, codec);
    FileOf(file, es, codec);
    assert file == EncodeAll(es, codec);
    if kept >= |line| {
      EncodeOneMore(es, e, codec);
      WholeFile(es + [e], [], codec);
      assert EncodeAll(es + [e], codec) + [] == file + Cut(line, kept);
    } else {
      assert line[..kept] == codec.encode(e)[..kept];
      WholeFile(es, line[..kept], codec);
    }
  }

  lemma {:induction false} EverythingIsWanted(es: seq<Event>)
    ensures Wanted(es, false) == es
    decreases |es|
  {
    if es != [] {
      EverythingIsWanted(es[..|es| - 1]);
    }
  }

  /** A reader sees the newest wanted records, whatever half line follows, as long as that is text. */
  lemma ReadIsExact(file: Bytes, es: seq<Event>, clicksOnly: bool, limit: nat, codec: Codec)
    requires Faithful(codec) && Holds(file, es, codec)
    ensures Read(file, clicksOnly, limit, codec)
         == if TailReads(file, codec) then Some(Last(Wanted(es, clicksOnly), limit)) else None
  {
    EncodedReadsBack(es, codec);
  }

  lemma {:induction false} NoMoreLinesThanBytes(b: Bytes)
    ensures |Split(b)| <= |b|
    decreases |b|
  {
    if NEWLINE in b {
      NoMoreLinesThanBytes(b[|Chunk(b)|..]);
    }
  }

  // ---------------------------------------------------------------- over any run

  predicate Suffix<T(==)>(a: seq<T>, b: seq<T>) { |a| <= |b| && a == b[|b| - |a|..] }

  /** The file holds the newest part of the history, all of it or at least `least` records. */
  ghost predicate Sound(s: State, es: seq<Event>, history: seq<Event>, least: nat, codec: Codec) {
    && Holds(s.file, es, codec)
    && Suffix(es, history) && |es| >= Min(|history|, least)
    && (s.handle.Some? ==>
          && s.handle.value.retention >= least
          && (!s.handle.value.repairRequired ==> Tail(s.file) == [] && s.handle.value.count == |es|))
  }

  /** Every start of the service keeps at least this many records. */
  predicate Retains(steps: seq<Step>, least: nat) {
    forall i :: 0 <= i < |steps| && steps[i].Open? ==> steps[i].retention >= least
  }

  lemma OpenIsSound(file: Bytes, es: seq<Event>, retention: nat, trims: bool, codec: Codec)
    requires Faithful(codec) && Holds(file, es, codec)
    ensures var s := Opened(file, retention, trims, codec);
            && Holds(s.file, es, codec)
            && (s.handle.Some? <==> trims || Tail(file) == [])
            && (s.handle.Some? ==> s.handle == Some(Handle(|es|, retention, false)) && Tail(s.file) == [])
  {
    if trims || Tail(file) == [] {
      var whole := Join(Split(file));
      WholeFile(es, [], codec);
      assert whole + [] == whole;
      ReadIsExact(whole, es, false, |whole|, codec);
      EverythingIsWanted(es);
      NoMoreLinesThanBytes(whole);
    }
  }

  /** The records in the file after an append that wrote its line. */
  function Remaining(h: Handle, es: seq<Event>, e: Event, swaps: bool): seq<Event> {
    if |es| + 1 > Doubled(h.retention) && swaps then Last(es + [e], h.retention) else es + [e]
  }

  lemma WrittenIsSound(s: State, es: seq<Event>, e: Event, swaps: bool, codec: Codec)
    requires Faithful(codec) && Holds(s.file, es, codec) && Tail(s.file) == []
    requires s.handle.Some? && !s.handle.value.repairRequired && s.handle.value.count == |es|
    ensures var (now, ok) := Appended(s, e, Written(swaps), codec);
            var left := Remaining(s.handle.value, es, e, swaps);
            && Holds(now.file, left, codec) && Tail(now.file) == []
            && now.handle == Some(s.handle.value.(count := |left|))
            && ok == (swaps || |es| + 1 <= Doubled(s.handle.value.retention))
  {
    var h, line := s.handle.value, LineOf(e, codec);
    AfterWrite(s.file, es, e, |line|, codec);
    assert Cut(line, |line|) == line;
    if |es| + 1 > Doubled(h.retention) {
      Compaction(s.file + line, es + [e], h.retention, codec);
    }
  }

  /** Reading the newest records and writing them back gives a file of just these. */
  lemma Compaction(file: Bytes, es: seq<Event>, retention: nat, codec: Codec)
    requires Faithful(codec) && Holds(file, es, codec) && Tail(file) == []
    ensures Read(file, false, retention, codec) == Some(Last(es, retention))
    ensures var newest := EncodeAll(Last(es, retention), codec);
            Holds(newest, Last(es, retention), codec) && Tail(newest) == []
  {
    ReadIsExact(file, es, false, retention, codec);
    EverythingIsWanted(es);
    var newest := Last(es, retention);
    WholeFile(newest, [], codec);
    assert EncodeAll(newest, codec) + [] == EncodeAll(newest, codec);
  }

  lemma NewestOfMore(es: seq<Event>, history: seq<Event>, e: Event, n: nat, least: nat)
    requires Suffix(es, history) && |es| >= Min(|history|, least) && n >= least
    ensures Suffix(es + [e], history + [e]) && |es + [e]| >= Min(|history + [e]|, least)
    ensures Suffix(Last(es + [e], n), history + [e]) && |Last(es + [e], n)| >= Min(|history + [e]|, least)
  {
  }

  /** What the file holds after a step. */
  function After(s: State, es: seq<Event>, step: Step, codec: Codec): seq<Event> {
    if !Keeps(s, step, codec) then es
    else if step.Append? && step.fate.Written? then Remaining(s.handle.value, es, step.event, step.fate.swaps)
    else es + [step.event]
  }

  lemma StepIsSound(s: State, es: seq<Event>, history: seq<Event>, step: Step, least: nat, codec: Codec)
    requires Faithful(codec) && Sound(s, es, history, least, codec)
    requires step.Open? ==> step.retention >= least
    ensures Sound(Apply(s, step, codec), After(s, es, step, codec), Longer(s, history, step, codec), least, codec)
  {
    match step {
      case Open(retention, trims) => OpenIsSound(s.file, es, retention, trims, codec);
      case Crash =>
      case CrashInAppend(e, kept) => CrashIsSound(s, es, history, e, kept, least, codec);
      case Append(e, fate) =>
        if s.handle.Some? && !s.handle.value.repairRequired {
          AppendIsSound(s, es, history, e, fate, least, codec);
        }
    }
  }

  /** What a crash during an append leaves in the file. */
  lemma CrashFile(s: State, es: seq<Event>, e: Event, kept: nat, codec: Codec)
    requires Faithful(codec) && Holds(s.file, es, codec)
    requires s.handle.Some? && !s.handle.value.repairRequired ==> Tail(s.file) == []
    ensures var step := CrashInAppend(e, kept);
            Holds(Apply(s, step, codec).file, if Keeps(s, step, codec) then es + [e] else es, codec)
            && Apply(s, step, codec).handle == None
  {
    if s.handle.Some? && !s.handle.value.repairRequired {
      AfterWrite(s.file, es, e, kept, codec);
    }
  }

  lemma ClosedIsSound(s: State, es: seq<Event>, history: seq<Event>, least: nat, codec: Codec)
    requires s.handle.None? && Holds(s.file, es, codec) && Suffix(es, history) && |es| >= Min(|history|, least)
    ensures Sound(s, es, history, least, codec)
  {
  }

  lemma CrashIsSound(s: State, es: seq<Event>, history: seq<Event>, e: Event, kept: nat, least: nat, codec: Codec)
    requires Faithful(codec) && Sound(s, es, history, least, codec)
    ensures var step := CrashInAppend(e, kept);
            Sound(Apply(s, step, codec), After(s, es, step, codec), Longer(s, history, step, codec), least, codec)
  {
    var step := CrashInAppend(e, kept);
    CrashFile(s, es, e, kept, codec);
    NewestOfMore(es, history, e, least, least);
    ClosedIsSound(Apply(s, step, codec), After(s, es, step, codec), Longer(s, history, step, codec), least, codec);
  }

  lemma AppendIsSound(s: State, es: seq<Event>, history: seq<Event>, e: Event, fate: Fate, least: nat, codec: Codec)
    requires Faithful(codec) && Sound(s, es, history, least, codec)
    requires s.handle.Some? && !s.handle.value.repairRequired
    ensures Sound(Appended(s, e, fate, codec).0, After(s, es, Append(e, fate), codec),
                  Longer(s, history, Append(e, fate), codec), least, codec)
  {
    match fate {
      case Torn(kept, repaired) => TornIsSound(s, es, history, e, kept, repaired, least, codec);
      case Written(swaps) => WrittenKeepsNewest(s, es, history, e, swaps, least, codec);
    }
  }

  lemma WrittenKeepsNewest(s: State, es: seq<Event>, history: seq<Event>, e: Event, swaps: bool, least: nat,
                           codec: Codec)
    requires Faithful(codec) && Sound(s, es, history, least, codec)
    requires s.handle.Some? && !s.handle.value.repairRequired
    ensures Sound(Appended(s, e, Written(swaps), codec).0, Remaining(s.handle.value, es, e, swaps),
                  history + [e], least, codec)
  {
    WrittenIsSound(s, es, e, swaps, codec);
    RemainingIsNewest(s.handle.value, es, history, e, swaps, least);
  }

  lemma RemainingIsNewest(h: Handle, es: seq<Event>, history: seq<Event>, e: Event, swaps: bool, least: nat)
    requires Suffix(es, history) && |es| >= Min(|history|, least) && h.retention >= least
    ensures var left := Remaining(h, es, e, swaps);
            Suffix(left, history + [e]) && |left| >= Min(|history + [e]|, least)
  {
    NewestOfMore(es, history, e, h.retention, least);
  }

  /** What a torn write leaves: nothing when it is repaired, else part of the line or all of it. */
  lemma TornFile(s: State, es: seq<Event>, e: Event, kept: nat, repaired: bool, codec: Codec)
    requires Faithful(codec) && Holds(s.file, es, codec) && Tail(s.file) == []
    requires s.handle.Some? && !s.handle.value.repairRequired
    ensures var step := Append(e, Torn(kept, repaired));
            var now := Appended(s, e, step.fate, codec).0;
            && (repaired ==> now == s && !Keeps(s, step, codec))
            && (!repaired ==> now.handle == Some(s.handle.value.(repairRequired := true)))
            && (!repaired ==> Holds(now.file, if Keeps(s, step, codec) then es + [e] else es, codec))
  {
    if !repaired {
      AfterWrite(s.file, es, e, kept, codec);
    }
  }

  lemma TornIsSound(s: State, es: seq<Event>, history: seq<Event>, e: Event, kept: nat, repaired: bool, least: nat,
                    codec: Codec)
    requires Faithful(codec) && Sound(s, es, history, least, codec)
    requires s.handle.Some? && !s.handle.value.repairRequired
    ensures var step := Append(e, Torn(kept, repaired));
            Sound(Appended(s, e, step.fate, codec).0, After(s, es, step, codec), Longer(s, history, step, codec),
                  least, codec)
  {
    TornFile(s, es, e, kept, repaired, codec);
    if Keeps(s, Append(e, Torn(kept, repaired)), codec) {
      NewestOfMore(es, history, e, least, least);
    }
  }

  lemma {:induction false} RunIsSound(steps: seq<Step>, least: nat, codec: Codec) returns (es: seq<Event>)
    requires Faithful(codec) && Retains(steps, least)
    ensures Sound(Run(steps, codec), es, History(steps, codec), least, codec)
    decreases |steps|
  {
    if steps == [] {
      es := [];
      assert Encoded([], codec) == [];
    } else {
      var before, step := steps[..|steps| - 1], steps[|steps| - 1];
      var es0 := RunIsSound(before, least, codec);
      StepIsSound(Run(before, codec), es0, History(before, codec), step, least, codec);
      es := After(Run(before, codec), es0, step, codec);
    }
  }

  /** After any run of appends, torn writes, failed repairs, compactions, crashes and restarts, the
      file holds complete records only, apart from a half line that an open log never appends to.
      They are the newest of everything written: all of it, or at least the retention. */
  lemma LogIsTheNewestHistory(steps: seq<Step>, least: nat, codec: Codec)
    requires Faithful(codec) && Retains(steps, least)
    ensures var s, history := Run(steps, codec), History(steps, codec);
            var es := Decoded(Split(s.file), codec);
            && es.Some? && Suffix(es.value, history) && |es.value| >= Min(|history|, least)
            && (s.handle.Some? && !s.handle.value.repairRequired ==>
                  Tail(s.file) == [] && s.handle.value.count == |es.value|)
  {
    var es := RunIsSound(steps, least, codec);
    EncodedReadsBack(es, codec);
  }

  /** An append that reports success leaves at most twice the retention, with its record the newest. */
  lemma SuccessIsBounded(steps: seq<Step>, e: Event, fate: Fate, codec: Codec)
    requires Faithful(codec) && Run(steps, codec).handle.Some?
    ensures var s := Run(steps, codec);
            var (now, ok) := Appended(s, e, fate, codec);
            var es := Decoded(Split(now.file), codec);
            ok ==>
              && es.Some? && |es.value| <= 2 * s.handle.value.retention
              && (s.handle.value.retention > 0 ==> es.value != [] && es.value[|es.value| - 1] == e)
              && History(steps + [Append(e, fate)], codec) == History(steps, codec) + [e]
  {
    var s := Run(steps, codec);
    if Appended(s, e, fate, codec).1 {
      var es := RunIsSound(steps, 0, codec);
      var step := Append(e, fate);
      assert (steps + [step])[..|steps|] == steps;
      assert Keeps(s, step, codec);
      WrittenIsSound(s, es, e, fate.swaps, codec);
      var left := Remaining(s.handle.value, es, e, fate.swaps);
      EncodedReadsBack(left, codec);
      NewestIsLast(s.handle.value, es, e, fate.swaps);
    }
  }

  lemma NewestIsLast(h: Handle, es: seq<Event>, e: Event, swaps: bool)
    requires swaps || |es| + 1 <= Doubled(h.retention)
    ensures var left := Remaining(h, es, e, swaps);
            |left| <= 2 * h.retention && (h.retention > 0 ==> left != [] && left[|left| - 1] == e)
  {
  }

  /** A start that can cut the file always opens the log, and loses no complete record. */
  lemma RestartRecovers(steps: seq<Step>, retention: nat, codec: Codec)
    requires Faithful(codec) && Run(steps, codec).handle.None?
    ensures var earlier, now := Run(steps, codec), Opened(Run(steps, codec).file, retention, true, codec);
            && now.handle.Some? && !now.handle.value.repairRequired && Tail(now.file) == []
            && Split(now.file) == Split(earlier.file) && now.handle.value.count == |Split(earlier.file)|
  {
    var es := RunIsSound(steps, 0, codec);
    OpenIsSound(Run(steps, codec).file, es, retention, true, codec);
  }

  /** At any moment a reader gets exactly the newest wanted records, or an error: it fails if and
      only if a half-written record stops inside a character. */
  lemma ReaderSeesTheRecords(steps: seq<Step>, clicksOnly: bool, limit: nat, codec: Codec)
    requires Faithful(codec)
    ensures var file := Run(steps, codec).file;
            var es := Decoded(Split(file), codec);
            && es.Some?
            && Read(file, clicksOnly, limit, codec)
               == if TailReads(file, codec) then Some(Last(Wanted(es.value, clicksOnly), limit)) else None
  {
    var es := RunIsSound(steps, 0, codec);
    EncodedReadsBack(es, codec);
    ReadIsExact(Run(steps, codec).file, es, clicksOnly, limit, codec);
  }

  /** While a record is half written, readers of a sound log fail if and only if the part that is
      there stops inside a character. */
  lemma HalfARecordStopsReaders(steps: seq<Step>, e: Event, kept: nat, clicksOnly: bool, limit: nat, codec: Codec)
    requires Faithful(codec) && 0 < kept < |LineOf(e, codec)|
    requires var s := Run(steps, codec); s.handle.Some? && !s.handle.value.repairRequired
    ensures var now := Run(steps + [CrashInAppend(e, kept)], codec);
            Read(now.file, clicksOnly, limit, codec).None? <==> !codec.text(LineOf(e, codec)[..kept])
  {
    var s, step := Run(steps, codec), CrashInAppend(e, kept);
    assert (steps + [step])[..|steps|] == steps;
    var es := RunIsSound(steps, 0, codec);
    PartOfARecord(s.file, es, e, kept, clicksOnly, limit, codec);
  }

  lemma PartOfARecord(file: Bytes, es: seq<Event>, e: Event, kept: nat, clicksOnly: bool, limit: nat, codec: Codec)
    requires Faithful(codec) && Holds(file, es, codec) && Tail(file) == [] && 0 < kept < |LineOf(e, codec)|
    ensures var part := LineOf(e, codec)[..kept];
            Read(file + part, clicksOnly, limit, codec).None? <==> !codec.text(part)
  {
    FileOf(file, es, codec);
    var part := LineOf(e, codec)[..kept];
    assert part == codec.encode(e)[..kept];
    WholeFile(es, part, codec);
    assert file == EncodeAll(es, codec);
    ReadIsExact(file + part, es, clicksOnly, limit, codec);
  }

  /** Every record whose text can be cut inside a character makes a run after which readers fail. */
  lemma FirstRecordCanStopReaders(retention: nat, e: Event, kept: nat, clicksOnly: bool, limit: nat, codec: Codec)
    requires Faithful(codec) && 0 < kept < |LineOf(e, codec)| && !codec.text(LineOf(e, codec)[..kept])
    ensures Read(Run([Open(retention, true), CrashInAppend(e, kept)], codec).file, clicksOnly, limit, codec).None?
  {
    var start := [Open(retention, true)];
    assert start[..0] == [];
    RestartRecovers([], retention, codec);
    HalfARecordStopsReaders(start, e, kept, clicksOnly, limit, codec);
    assert start + [CrashInAppend(e, kept)] == [Open(retention, true), CrashInAppend(e, kept)];
  }
}
