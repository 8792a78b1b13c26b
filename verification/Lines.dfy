/** Files as bytes, read line by line (the behaviour of `BufRead::read_line`). */
module Lines {

  newtype Byte = x: int | 0 <= x < 256
  type Bytes = seq<Byte>

  const NEWLINE: Byte := 10

  /** What one `read_line` returns: up to and with the first newline, or all there is. */
  function Chunk(b: Bytes): (c: Bytes)
    ensures |c| <= |b| && c == b[..|c|]
    ensures if NEWLINE in b then IsLine(c) else c == b
  {
    if b == [] then []
    else if b[0] == NEWLINE then [NEWLINE]
    else [b[0]] + Chunk(b[1..])
  }

  /** A complete line: its one newline ends it. */
  predicate IsLine(l: Bytes) {
    |l| > 0 && l[|l| - 1] == NEWLINE && NEWLINE !in l[..|l| - 1]
  }

  predicate AllLines(lines: seq<Bytes>) { forall l :: l in lines ==> IsLine(l) }

  /** The complete lines of a file. */
  function Split(b: Bytes): (lines: seq<Bytes>)
    ensures AllLines(lines)
    decreases |b|
  {
    if NEWLINE in b then [Chunk(b)] + Split(b[|Chunk(b)|..]) else []
  }

  function Join(lines: seq<Bytes>): Bytes {
    if lines == [] then [] else lines[0] + Join(lines[1..])
  }

  /** What follows the last complete line. */
  function Tail(b: Bytes): (t: Bytes)
    ensures NEWLINE !in t
    decreases |b|
  {
    if NEWLINE in b then Tail(b[|Chunk(b)|..]) else b
  }

  lemma Associative<T>(a: seq<T>, b: seq<T>, c: seq<T>)
    ensures (a + b) + c == a + (b + c)
  {
  }

  lemma Drop<T>(a: seq<T>, b: seq<T>)
    ensures (a + b)[|a|..] == b && (a + b)[..|a|] == a
  {
  }

  /** A file is its complete lines and its half-written tail. */
  lemma {:induction false} SplitCovers(b: Bytes)
    ensures b == Join(Split(b)) + Tail(b)
    decreases |b|
  {
    if NEWLINE in b {
      var c := Chunk(b);
      var rest := b[|c|..];
      SplitCovers(rest);
      Associative(c, Join(Split(rest)), Tail(rest));
      Drop([c], Split(rest));
      assert b == c + rest;
    }
  }

  lemma {:induction false} JoinConcat(a: seq<Bytes>, b: seq<Bytes>)
    ensures Join(a + b) == Join(a) + Join(b)
  {
    if a == [] {
      assert a + b == b;
    } else {
      assert (a + b)[1..] == a[1..] + b;
      JoinConcat(a[1..], b);
    }
  }

  lemma {:induction false} ChunkOfLine(l: Bytes, rest: Bytes)
    requires IsLine(l)
    ensures Chunk(l + rest) == l && NEWLINE in l + rest
  {
    assert (l + rest)[|l| - 1] == NEWLINE;
    if |l| > 1 {
      assert l[0] == l[..|l| - 1][0];
      assert l[1..][..|l| - 2] == l[..|l| - 1][1..];
      ChunkOfLine(l[1..], rest);
      assert (l + rest)[1..] == l[1..] + rest;
    }
  }

  lemma SplitOffOne(l: Bytes, rest: Bytes)
    requires IsLine(l)
    ensures Split(l + rest) == [l] + Split(rest) && Tail(l + rest) == Tail(rest)
  {
    ChunkOfLine(l, rest);
    Drop(l, rest);
  }

  /** Lines at the front of a file are split off one by one: what is read after them is what a
      read of the whole file finds after them. */
  lemma {:induction false} SplitAfter(lines: seq<Bytes>, rest: Bytes)
    requires AllLines(lines)
    ensures Split(Join(lines) + rest) == lines + Split(rest)
    ensures Tail(Join(lines) + rest) == Tail(rest)
  {
    if lines == [] {
      assert Join(lines) + rest == rest;
      assert lines + Split(rest) == Split(rest);
    } else {
      SplitAfter(lines[1..], rest);
      SplitOffOne(lines[0], Join(lines[1..]) + rest);
      Associative(lines[0], Join(lines[1..]), rest);
      Associative([lines[0]], lines[1..], Split(rest));
      HeadAndTail(lines);
    }
  }

  lemma HeadAndTail<T>(s: seq<T>)
    requires s != []
    ensures s == [s[0]] + s[1..]
  {
  }

  /** Splitting undoes joining, whatever half-written tail follows. */
  lemma SplitOfJoin(lines: seq<Bytes>, tail: Bytes)
    requires AllLines(lines) && NEWLINE !in tail
    ensures Split(Join(lines) + tail) == lines && Tail(Join(lines) + tail) == tail
  {
    SplitAfter(lines, tail);
    assert Split(tail) == [];
    assert lines + [] == lines;
  }

  /** A read that starts after some complete lines finds the others, and the same tail. */
  lemma RestOfLines(b: Bytes, k: nat)
    requires k <= |Split(b)|
    ensures var front := Join(Split(b)[..k]);
            front <= b && Split(b[|front|..]) == Split(b)[k..] && Tail(b[|front|..]) == Tail(b)
  {
    var front, back := Split(b)[..k], Split(b)[k..];
    assert Split(b) == front + back;
    SplitCovers(b);
    JoinConcat(front, back);
    Associative(Join(front), Join(back), Tail(b));
    var rest := Join(back) + Tail(b);
    Drop(Join(front), rest);
    SplitAfter(front, rest);
    Drop(front, Split(rest));
  }

  /** More lines make a longer file. */
  lemma {:induction false} JoinGrows(lines: seq<Bytes>, k: nat)
    requires AllLines(lines) && k <= |lines|
    ensures Join(lines[..k]) <= Join(lines)
    ensures |Join(lines[..k])| == |Join(lines)| <==> k == |lines|
  {
    assert lines == lines[..k] + lines[k..];
    JoinConcat(lines[..k], lines[k..]);
    if k < |lines| {
      assert lines[k] in lines;
      assert |lines[k..][0]| > 0;
    } else {
      assert lines[k..] == [];
    }
  }

  /** One `read_line` from a position. */
  method ReadLine(file: Bytes, from: nat) returns (line: Bytes)
    requires from <= |file|
    ensures line == Chunk(file[from..])
  {
    var i := from;
    while i < |file| && file[i] != NEWLINE
      invariant from <= i <= |file|
      invariant NEWLINE !in file[from..i]
    {
      i := i + 1;
      assert file[from..i] == file[from..i - 1] + [file[i - 1]];
    }
    if i == |file| {
      assert NEWLINE !in file[from..];
      return file[from..];
    }
    ChunkAt(file, from, i);
    return file[from..i + 1];
  }

  lemma ChunkAt(file: Bytes, from: nat, i: nat)
    requires from <= i < |file| && file[i] == NEWLINE && NEWLINE !in file[from..i]
    ensures Chunk(file[from..]) == file[from..i + 1]
  {
    var line := file[from..i + 1];
    assert line[..|line| - 1] == file[from..i];
    assert line[|line| - 1] == file[i];
    ChunkOfLine(line, file[i + 1..]);
    assert file[from..] == line + file[i + 1..];
  }
}
