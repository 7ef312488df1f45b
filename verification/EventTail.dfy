/** Reading the last records of the event log backwards, block by block. */
module EventTail {
  import opened Numbers
  import opened Options
  import opened Sequences

  newtype Byte = x: int | 0 <= x < 256

  const NEWLINE: Byte := 10

  /** How many bytes one backward step reads. */
  const BLOCK := 8192

  type Bytes = seq<Byte>

  /** What the JSON parser makes of a line: an object, something to skip, or bytes that
      do not decode, for which it raises an error the loop does not catch. */
  datatype Parsed<R> = Good(record: R) | Skipped | Raised

  type Parser<!R> = Bytes -> Parsed<R>

  datatype Result<R> = Records(records: seq<R>) | Raises

  predicate IsBlankByte(b: Byte) { b == 32 || 9 <= b <= 13 }

  predicate BlankLine(line: Bytes) { forall i | 0 <= i < |line| :: IsBlankByte(line[i]) }

  /** `split` at newlines: always at least one piece. */
  function Split(data: Bytes): (pieces: seq<Bytes>)
    ensures |pieces| > 0
  {
    if |data| == 0 then [[]]
    else
      var rest := Split(data[1..]);
      if data[0] == NEWLINE then [[]] + rest else [[data[0]] + rest[0]] + rest[1..]
  }

  function Count(data: Bytes): nat {
    if |data| == 0 then 0 else (if data[0] == NEWLINE then 1 else 0) + Count(data[1..])
  }

  function LineRecords<R>(parse: Parser<R>, line: Bytes): seq<R> {
    if !BlankLine(line) && parse(line).Good? then [parse(line).record] else []
  }

  /** The records a list of lines holds, in order. */
  function RecordsOf<R>(parse: Parser<R>, lines: seq<Bytes>): seq<R> {
    if |lines| == 0 then [] else LineRecords(parse, lines[0]) + RecordsOf(parse, lines[1..])
  }

  predicate AnyRaises<R>(parse: Parser<R>, lines: seq<Bytes>) {
    exists i :: 0 <= i < |lines| && !BlankLine(lines[i]) && parse(lines[i]).Raised?
  }

  function LastN<T>(s: seq<T>, n: nat): seq<T> { if |s| <= n then s else s[|s| - n..] }

  // --- the specification: which lines a tail looks at ---

  /** Where the backward reading stops. */
  function ReadBack(file: Bytes, n: nat, block: nat, pos: nat): (stop: nat)
    requires block > 0 && pos <= |file|
    ensures stop <= pos
    decreases pos
  {
    if pos > 0 && Count(file[pos..]) <= n then ReadBack(file, n, block, pos - Min(block, pos)) else pos
  }

  /** The lines after a position, without a first one that may be cut off. */
  function LinesAfter(file: Bytes, pos: nat): seq<Bytes>
    requires pos <= |file|
  {
    if pos > 0 then Split(file[pos..])[1..] else Split(file)
  }

  /** The lines a tail looks at. */
  function Window(file: Bytes, n: nat, block: nat): seq<Bytes>
    requires block > 0
  {
    LinesAfter(file, ReadBack(file, n, block, |file|))
  }

  function TailOf<R>(parse: Parser<R>, file: Bytes, n: nat, block: nat): Result<R>
    requires block > 0
  {
    if n == 0 then Records([])
    else if AnyRaises(parse, Window(file, n, block)) then Raises
    else Records(LastN(RecordsOf(parse, Window(file, n, block)), n))
  }

  // --- the method ---

  /** The first loop: blocks are put in front until there are newlines enough. */
  method ReadBlocks(file: Bytes, n: nat, block: nat) returns (pos: nat, data: Bytes)
    requires block > 0
    ensures pos == ReadBack(file, n, block, |file|) && data == file[pos..]
  {
    pos, data := |file|, [];
    while pos > 0 && Count(data) <= n
      invariant pos <= |file| && data == file[pos..]
      invariant ReadBack(file, n, block, pos) == ReadBack(file, n, block, |file|)
      decreases pos
    {
      var read := Min(block, pos);
      assert file[pos - read..pos] + file[pos..] == file[pos - read..];
      data := file[pos - read..pos] + data;
      pos := pos - read;
    }
  }

  /** The second loop: what the lines hold, None when one of them raises. */
  method ParseLines<R>(parse: Parser<R>, lines: seq<Bytes>) returns (records: Option<seq<R>>)
    ensures records == if AnyRaises(parse, lines) then None else Some(RecordsOf(parse, lines))
  {
    var out: seq<R> := [];
    var i := 0;
    while i < |lines|
      invariant 0 <= i <= |lines|
      invariant out == RecordsOf(parse, lines[..i]) && !AnyRaises(parse, lines[..i])
    {
      var raw := lines[i];
      RecordsMore(parse, lines, i);
      i := i + 1;
      if BlankLine(raw) { continue; }
      match parse(raw)
      case Skipped =>
      case Good(record) => out := out + [record];
      case Raised => return None;
    }
    assert lines[..i] == lines;
    return Some(out);
  }

  lemma RecordsMore<R>(parse: Parser<R>, lines: seq<Bytes>, i: nat)
    requires i < |lines|
    ensures RecordsOf(parse, lines[..i + 1]) == RecordsOf(parse, lines[..i]) + LineRecords(parse, lines[i])
    ensures AnyRaises(parse, lines[..i + 1])
      <==> AnyRaises(parse, lines[..i]) || (!BlankLine(lines[i]) && parse(lines[i]).Raised?)
    ensures !BlankLine(lines[i]) && parse(lines[i]).Raised? ==> AnyRaises(parse, lines)
  {
    Snoc(lines, i);
    RecordsAppend(parse, lines[..i], [lines[i]]);
    assert [lines[i]][1..] == [];
    assert RecordsOf(parse, [lines[i]]) == LineRecords(parse, lines[i]);
    if !BlankLine(lines[i]) && parse(lines[i]).Raised? { assert lines[..i + 1][i] == lines[i]; }
    if AnyRaises(parse, lines[..i]) {
      var k :| 0 <= k < i && !BlankLine(lines[..i][k]) && parse(lines[..i][k]).Raised?;
      assert lines[..i + 1][k] == lines[..i][k];
    }
    if AnyRaises(parse, lines[..i + 1]) {
      var k :| 0 <= k < i + 1 && !BlankLine(lines[..i + 1][k]) && parse(lines[..i + 1][k]).Raised?;
      if k < i { assert lines[..i][k] == lines[..i + 1][k]; }
    }
  }

  /** `tail`; None is a file that is missing or cannot be read. */
  method Tail<R>(parse: Parser<R>, file: Option<Bytes>, n: int) returns (result: Result<R>)
    ensures result == if n <= 0 || file.None? then Records([]) else TailOf(parse, file.value, n, BLOCK)
  {
    if n <= 0 || file.None? { return Records([]); }
    var pos, data := ReadBlocks(file.value, n, BLOCK);
    if pos == 0 { assert data == file.value; }
    var lines := Split(data);
    if pos > 0 { lines := lines[1..]; }
    var records := ParseLines(parse, lines);
    if records.None? { return Raises; }
    return Records(LastN(records.value, n));
  }

  lemma {:induction false} RecordsAppend<R>(parse: Parser<R>, a: seq<Bytes>, b: seq<Bytes>)
    ensures RecordsOf(parse, a + b) == RecordsOf(parse, a) + RecordsOf(parse, b)
  {
    if |a| == 0 {
      assert a + b == b;
    } else {
      Rest(a, b);
      RecordsAppend(parse, a[1..], b);
      Assoc(LineRecords(parse, a[0]), RecordsOf(parse, a[1..]), RecordsOf(parse, b));
    }
  }

  // --- the lines of a file ---

  function Joined(pieces: seq<Bytes>): Bytes {
    if |pieces| == 0 then []
    else if |pieces| == 1 then pieces[0]
    else pieces[0] + [NEWLINE] + Joined(pieces[1..])
  }

  predicate NoNewline(line: Bytes) { forall i | 0 <= i < |line| :: line[i] != NEWLINE }

  lemma JoinedOneMore(b: Byte, pieces: seq<Bytes>)
    requires |pieces| > 0
    ensures Joined([[b] + pieces[0]] + pieces[1..]) == [b] + Joined(pieces)
  {
    var more := [[b] + pieces[0]] + pieces[1..];
    assert more[1..] == pieces[1..];
    if |pieces| > 1 {
      Assoc([b], pieces[0], [NEWLINE]);
      Assoc([b], pieces[0] + [NEWLINE], Joined(pieces[1..]));
    }
  }

  /** The pieces hold no newline, and joined by newlines they are the data again. */
  lemma {:induction false} SplitMeaning(data: Bytes)
    ensures Joined(Split(data)) == data && forall k | 0 <= k < |Split(data)| :: NoNewline(Split(data)[k])
  {
    if |data| != 0 {
      var rest := Split(data[1..]);
      SplitMeaning(data[1..]);
      if data[0] == NEWLINE {
        assert ([[]] + rest)[1..] == rest && [] + [NEWLINE] + Joined(rest) == [NEWLINE] + Joined(rest);
      } else {
        JoinedOneMore(data[0], rest);
      }
    }
  }

  /** And only these pieces are: a list of lines without newlines is what splits off the
      data they are joined to. */
  lemma {:induction false} SplitOfJoined(pieces: seq<Bytes>)
    requires |pieces| > 0 && forall k | 0 <= k < |pieces| :: NoNewline(pieces[k])
    ensures Split(Joined(pieces)) == pieces
    decreases |pieces|
  {
    var rest := if |pieces| == 1 then [] else [NEWLINE] + Joined(pieces[1..]);
    assert Joined(pieces) == pieces[0] + rest;
    if |pieces| > 1 {
      SplitOfJoined(pieces[1..]);
      assert rest[1..] == Joined(pieces[1..]);
      SplitLine(pieces[0], rest);
      assert [pieces[0]] + pieces[1..] == pieces;
    } else {
      SplitLine(pieces[0], rest);
      assert [pieces[0]] == pieces;
    }
  }

  lemma {:induction false} SplitLine(line: Bytes, rest: Bytes)
    requires NoNewline(line) && (|rest| == 0 || rest[0] == NEWLINE)
    ensures Split(line + rest) == [line] + (if |rest| == 0 then [] else Split(rest[1..]))
    decreases |line|
  {
    if |line| == 0 {
      assert line + rest == rest;
    } else {
      Rest(line, rest);
      SplitLine(line[1..], rest);
      assert [line[0]] + line[1..] == line;
    }
  }

  // --- the window is a suffix of the file's lines ---

  lemma {:induction false} SplitCounts(data: Bytes)
    ensures |Split(data)| == Count(data) + 1
  {
    if |data| != 0 { SplitCounts(data[1..]); }
  }

  /** What one more byte in front does to all lines but the first. */
  lemma SplitDrop(file: Bytes, k: nat)
    requires |file| != 0 && 0 < k <= |Split(file[1..])|
    ensures var rest, all := Split(file[1..]), Split(file);
      && |all| == |rest| + (if file[0] == NEWLINE then 1 else 0)
      && rest[k..] == all[k + |all| - |rest|..]
  {
  }

  /** Cutting a prefix off changes at most the first remaining line. */
  lemma {:induction false} SplitSuffix(file: Bytes, pos: nat)
    requires pos <= |file|
    ensures var part, all := Split(file[pos..]), Split(file);
      |part| <= |all| && part[1..] == all[|all| - |part| + 1..]
  {
    if pos == 0 {
      assert file[0..] == file;
    } else {
      SplitSuffix(file[1..], pos - 1);
      assert file[1..][pos - 1..] == file[pos..];
      SplitDrop(file, |Split(file[1..])| - |Split(file[pos..])| + 1);
    }
  }

  lemma {:induction false} BackEnough(file: Bytes, n: nat, block: nat, pos: nat)
    requires block > 0 && pos <= |file|
    ensures var stop := ReadBack(file, n, block, pos); stop == 0 || Count(file[stop..]) > n
    decreases pos
  {
    if pos > 0 && Count(file[pos..]) <= n { BackEnough(file, n, block, pos - Min(block, pos)); }
  }

  predicate Suffix<T(==)>(part: seq<T>, all: seq<T>) { |part| <= |all| && part == all[|all| - |part|..] }

  /** The last n of a suffix are the last n of all exactly when the suffix has them. */
  lemma LastOfSuffix<T>(part: seq<T>, all: seq<T>, n: nat)
    requires Suffix(part, all)
    ensures Suffix(LastN(part, n), all) && |LastN(part, n)| <= n
    ensures LastN(part, n) == LastN(all, n) <==> |part| >= Min(n, |all|)
  {
    assert |LastN(part, n)| == Min(n, |part|) && |LastN(all, n)| == Min(n, |all|);
    if |part| >= n { assert LastN(part, n) == LastN(all, n); }
    else if |part| == |all| { assert part == all; }
  }

  lemma SuffixOfSuffix<T>(one: seq<T>, two: seq<T>, all: seq<T>)
    requires Suffix(one, all) && Suffix(two, all) && |one| <= |two|
    ensures Suffix(one, two)
  {
  }

  /** A tail looks at a suffix of the file's lines: all of them, or more than n. */
  lemma WindowIsSuffix(file: Bytes, n: nat, block: nat)
    requires block > 0
    ensures Suffix(Window(file, n, block), Split(file))
    ensures |Window(file, n, block)| > n || Window(file, n, block) == Split(file)
  {
    var pos := ReadBack(file, n, block, |file|);
    BackEnough(file, n, block, |file|);
    if pos > 0 {
      SplitSuffix(file, pos);
      SplitCounts(file[pos..]);
    }
  }

  /** The records of a suffix are a suffix of the records. */
  lemma SuffixRecords<R>(parse: Parser<R>, part: seq<Bytes>, lines: seq<Bytes>)
    requires Suffix(part, lines)
    ensures Suffix(RecordsOf(parse, part), RecordsOf(parse, lines))
  {
    var k := |lines| - |part|;
    RecordsAppend(parse, lines[..k], part);
    assert lines[..k] + part == lines;
  }

  lemma SuffixRaises<R>(parse: Parser<R>, part: seq<Bytes>, lines: seq<Bytes>)
    requires Suffix(part, lines) && AnyRaises(parse, part)
    ensures AnyRaises(parse, lines)
  {
    var i :| 0 <= i < |part| && !BlankLine(part[i]) && parse(part[i]).Raised?;
    assert lines[|lines| - |part| + i] == part[i];
  }

  /** For any file and any block size: a suffix, at most n long, of the records of the
      whole file; and it raises only over a line that does not decode. */
  lemma TailIsASuffix<R>(parse: Parser<R>, file: Bytes, n: nat, block: nat)
    requires block > 0
    ensures var result := TailOf(parse, file, n, block);
      && (result.Records? ==> |result.records| <= n && Suffix(result.records, RecordsOf(parse, Split(file))))
      && (result.Raises? ==> AnyRaises(parse, Split(file)))
  {
    var window := Window(file, n, block);
    WindowIsSuffix(file, n, block);
    if n > 0 {
      if AnyRaises(parse, window) {
        SuffixRaises(parse, window, Split(file));
      } else {
        SuffixRecords(parse, window, Split(file));
        LastOfSuffix(RecordsOf(parse, window), RecordsOf(parse, Split(file)), n);
      }
    }
  }

  // --- exactness ---

  /** What the documentation promises: the last n records. */
  predicate Exact<R(==)>(parse: Parser<R>, file: Bytes, n: nat, block: nat)
    requires block > 0
  {
    TailOf(parse, file, n, block) == Records(LastN(RecordsOf(parse, Split(file)), n))
  }

  lemma ExactByCount<R>(parse: Parser<R>, file: Bytes, n: nat, block: nat)
    requires block > 0 && n > 0
    ensures Exact(parse, file, n, block) <==>
      && !AnyRaises(parse, Window(file, n, block))
      && |RecordsOf(parse, Window(file, n, block))| >= Min(n, |RecordsOf(parse, Split(file))|)
  {
    var window := Window(file, n, block);
    WindowIsSuffix(file, n, block);
    SuffixRecords(parse, window, Split(file));
    LastOfSuffix(RecordsOf(parse, window), RecordsOf(parse, Split(file)), n);
  }

  /** Every line is a valid record and ends with a newline. */
  ghost predicate WellFormed<R>(parse: Parser<R>, lines: seq<Bytes>) {
    && |lines| != 0 && lines[|lines| - 1] == []
    && forall i | 0 <= i < |lines| - 1 :: !BlankLine(lines[i]) && parse(lines[i]).Good?
  }

  lemma WellFormedSuffix<R>(parse: Parser<R>, part: seq<Bytes>, lines: seq<Bytes>)
    requires Suffix(part, lines) && |part| != 0 && WellFormed(parse, lines)
    ensures WellFormed(parse, part) && !AnyRaises(parse, lines)
  {
    var k := |lines| - |part|;
    forall i | 0 <= i < |part| - 1 ensures !BlankLine(part[i]) && parse(part[i]).Good? {
      assert part[i] == lines[k + i];
    }
  }

  /** Then the tail is exactly the last min(n, total) records, for any block size. */
  lemma WellFormedIsExact<R>(parse: Parser<R>, file: Bytes, n: nat, block: nat)
    requires block > 0 && n > 0 && WellFormed(parse, Split(file))
    ensures Exact(parse, file, n, block)
    ensures |RecordsOf(parse, Split(file))| == |Split(file)| - 1
  {
    var window := Window(file, n, block);
    WindowIsSuffix(file, n, block);
    WellFormedSuffix(parse, window, Split(file));
    WellFormedRecords(parse, Split(file));
    WellFormedRecords(parse, window);
    ExactByCount(parse, file, n, block);
  }

  lemma {:induction false} WellFormedRecords<R>(parse: Parser<R>, lines: seq<Bytes>)
    requires WellFormed(parse, lines)
    ensures |RecordsOf(parse, lines)| == |lines| - 1
  {
    if |lines| > 1 {
      WellFormedSuffix(parse, lines[1..], lines);
      WellFormedRecords(parse, lines[1..]);
    }
  }

  /** A file read byte by byte: the window is the last n + 1 lines, but for a blank. */
  lemma {:induction false} ByteWindow(file: Bytes, n: nat, pos: nat)
    requires pos <= |file| && Count(file[pos..]) <= n + 1
    ensures var stop := ReadBack(file, n, 1, pos); Count(file[stop..]) <= n + 1
    decreases pos
  {
    if pos > 0 && Count(file[pos..]) <= n {
      assert file[pos - 1..][1..] == file[pos..];
      ByteWindow(file, n, pos - 1);
    }
  }

  /** Reading byte by byte, the first byte is only read while there are too few lines. */
  lemma {:induction false} SteppedToStart(file: Bytes, n: nat, pos: nat)
    requires 0 < pos <= |file| && ReadBack(file, n, 1, pos) == 0
    ensures Count(file[1..]) <= n
    decreases pos
  {
    if pos > 1 { SteppedToStart(file, n, pos - 1); }
  }

  lemma ByteWindowLength(file: Bytes, n: nat)
    ensures var window, all := Window(file, n, 1), Split(file);
      |window| <= n + 1 || (|all| == n + 2 && window == all && all[0] == [])
  {
    var stop := ReadBack(file, n, 1, |file|);
    assert Count(file[|file|..]) == 0;
    ByteWindow(file, n, |file|);
    SplitCounts(file[stop..]);
    if stop == 0 {
      assert file[0..] == file;
      if |Split(file)| == n + 2 {
        SteppedToStart(file, n, |file|);
        assert file[0] == NEWLINE;
      }
    }
  }

  lemma SuffixIsLast<T>(part: seq<T>, all: seq<T>, n: nat)
    requires Suffix(part, all) && |part| <= n && (|part| == n || part == all)
    ensures part == LastN(all, n)
  {
  }

  lemma ByteWindowRecords<R>(parse: Parser<R>, file: Bytes, n: nat)
    ensures RecordsOf(parse, Window(file, n, 1)) == RecordsOf(parse, LastN(Split(file), n + 1))
  {
    var window, all := Window(file, n, 1), Split(file);
    ByteWindowLength(file, n);
    WindowIsSuffix(file, n, 1);
    if |window| <= n + 1 { SuffixIsLast(window, all, n + 1); }
    if window != LastN(all, n + 1) { assert LastN(all, n + 1) == all[1..]; }
  }

  lemma LastIsSuffix<T>(all: seq<T>, n: nat)
    ensures Suffix(LastN(all, n), all) && |LastN(all, n)| == Min(n, |all|)
  {
  }

  lemma FewerRecords<R>(parse: Parser<R>, part: seq<Bytes>, lines: seq<Bytes>)
    requires Suffix(part, lines)
    ensures |RecordsOf(parse, part)| <= |RecordsOf(parse, lines)|
  {
    SuffixRecords(parse, part, lines);
  }

  /** Larger blocks see the last n + 1 lines too, and maybe more. */
  lemma WindowHasLast<R>(parse: Parser<R>, file: Bytes, n: nat, block: nat)
    requires block > 0
    ensures |RecordsOf(parse, Window(file, n, block))| >= |RecordsOf(parse, LastN(Split(file), n + 1))|
  {
    var window, all := Window(file, n, block), Split(file);
    WindowIsSuffix(file, n, block);
    LastIsSuffix(all, n + 1);
    assert |LastN(all, n + 1)| <= |window|;
    SuffixOfSuffix(LastN(all, n + 1), window, all);
    FewerRecords(parse, LastN(all, n + 1), window);
  }

  /** A block as large as the file reads all of it. */
  lemma OneBlockIsAll(file: Bytes, n: nat)
    ensures Window(file, n, |file| + 1) == Split(file)
  {
    assert file[|file|..] == [] && Count([]) == 0;
    if |file| != 0 { assert ReadBack(file, n, |file| + 1, |file|) == ReadBack(file, n, |file| + 1, 0); }
  }

  /** The tail is the last n records for every block size if and only if no line of the
      file fails to decode and its last n + 1 pieces hold min(n, total) records. */
  lemma ExactForEveryBlock<R>(parse: Parser<R>, file: Bytes, n: nat)
    requires n > 0
    ensures (forall block: nat | block > 0 :: Exact(parse, file, n, block)) <==>
      && !AnyRaises(parse, Split(file))
      && |RecordsOf(parse, LastN(Split(file), n + 1))| >= Min(n, |RecordsOf(parse, Split(file))|)
  {
    var all := Split(file);
    ByteWindowRecords(parse, file, n);
    ExactByCount(parse, file, n, 1);
    OneBlockIsAll(file, n);
    ExactByCount(parse, file, n, |file| + 1);
    if !AnyRaises(parse, all) && |RecordsOf(parse, LastN(all, n + 1))| >= Min(n, |RecordsOf(parse, all)|) {
      forall block: nat | block > 0 ensures Exact(parse, file, n, block) {
        WindowHasLast(parse, file, n, block);
        WindowIsSuffix(file, n, block);
        if AnyRaises(parse, Window(file, n, block)) { SuffixRaises(parse, Window(file, n, block), all); }
        ExactByCount(parse, file, n, block);
      }
    }
  }

  // --- exactness for one block size ---

  /** Where the last k blocks of a file begin. */
  function From(file: Bytes, block: nat, k: nat): (pos: nat)
    ensures pos <= |file|
  {
    if k * block >= |file| then 0 else |file| - k * block
  }

  /** The last k blocks are the whole file, or hold more than n newlines. */
  predicate Enough(file: Bytes, n: nat, block: nat, k: nat) {
    From(file, block, k) == 0 || Count(file[From(file, block, k)..]) > n
  }

  /** The least number of blocks, from j on, that is enough. */
  function Blocks(file: Bytes, n: nat, block: nat, j: nat): (k: nat)
    requires block > 0
    ensures j <= k && Enough(file, n, block, k) && forall i | j <= i < k :: !Enough(file, n, block, i)
    decreases |file| - j
  {
    if Enough(file, n, block, j) then j
    else
      FewBlocks(file, block, j);
      Blocks(file, n, block, j + 1)
  }

  lemma FewBlocks(file: Bytes, block: nat, k: nat)
    requires block > 0 && From(file, block, k) != 0
    ensures k < |file|
    ensures From(file, block, k + 1) == From(file, block, k) - Min(block, From(file, block, k))
  {
    assert k <= k * block;
    assert (k + 1) * block == k * block + block;
  }

  /** The backward reading stops after the least number of blocks that is enough. */
  lemma {:induction false} ReadsLeastBlocks(file: Bytes, n: nat, block: nat, j: nat)
    requires block > 0
    ensures ReadBack(file, n, block, From(file, block, j)) == From(file, block, Blocks(file, n, block, j))
    decreases |file| - j
  {
    if !Enough(file, n, block, j) {
      FewBlocks(file, block, j);
      ReadsLeastBlocks(file, n, block, j + 1);
    }
  }

  /** When the documentation is right, for one block size, BLOCK for one: take the least
      number of blocks at the end of the file that hold more than n newlines, or the
      whole file. The tail is the last n records if and only if every whole line in those
      blocks decodes and they hold min(n, total) records; what lies before them does not
      matter. */
  lemma ExactForOneBlock<R>(parse: Parser<R>, file: Bytes, n: nat, block: nat)
    requires n > 0 && block > 0
    ensures var lines := LinesAfter(file, From(file, block, Blocks(file, n, block, 0)));
      Exact(parse, file, n, block) <==>
        !AnyRaises(parse, lines) && |RecordsOf(parse, lines)| >= Min(n, |RecordsOf(parse, Split(file))|)
  {
    assert From(file, block, 0) == |file|;
    ReadsLeastBlocks(file, n, block, 0);
    ExactByCount(parse, file, n, block);
  }

  // --- a log where the documentation is wrong ---

  function Newlines(m: nat): Bytes { seq(m, _ => NEWLINE) }

  /** One record, then more blank lines than one tail of n reads. */
  function HiddenLog(n: nat, block: nat): Bytes { [123, NEWLINE] + Newlines(n + block) }

  function Toy(line: Bytes): Parsed<nat> { if line == [123] then Good(7) else Skipped }

  lemma {:induction false} CountNewlines(m: nat)
    ensures Count(Newlines(m)) == m
  {
    if m > 0 {
      assert Newlines(m)[1..] == Newlines(m - 1);
      CountNewlines(m - 1);
    }
  }

  lemma {:induction false} SplitNewlines(m: nat)
    ensures forall i | 0 <= i < |Split(Newlines(m))| :: Split(Newlines(m))[i] == []
  {
    if m > 0 {
      assert Newlines(m)[1..] == Newlines(m - 1);
      SplitNewlines(m - 1);
    }
  }

  lemma {:induction false} BlanksHoldNothing<R>(parse: Parser<R>, lines: seq<Bytes>)
    requires forall i | 0 <= i < |lines| :: lines[i] == []
    ensures RecordsOf(parse, lines) == []
  {
    if |lines| != 0 { BlanksHoldNothing(parse, lines[1..]); }
  }

  /** Reading back meets newlines only, and stops before it is through them. */
  lemma {:induction false} StopsInNewlines(n: nat, block: nat, pos: nat)
    requires block > 0 && 2 <= pos <= n + block + 2
    ensures ReadBack(HiddenLog(n, block), n, block, pos) >= 2
    decreases pos
  {
    var file := HiddenLog(n, block);
    assert file[pos..] == Newlines(n + block + 2 - pos);
    CountNewlines(n + block + 2 - pos);
    if Count(file[pos..]) <= n { StopsInNewlines(n, block, pos - Min(block, pos)); }
  }

  lemma HiddenLines(n: nat, block: nat)
    ensures Split(HiddenLog(n, block)) == [[123]] + Split(Newlines(n + block))
  {
    var rest, none: Bytes := Newlines(n + block), [];
    assert HiddenLog(n, block)[1..] == [NEWLINE] + rest && ([NEWLINE] + rest)[1..] == rest;
    assert Split([NEWLINE] + rest) == [none] + Split(rest);
    assert [123] + none == [123];
    assert Split(HiddenLog(n, block)) == [[123]] + ([none] + Split(rest))[1..];
  }

  lemma HiddenRecord(n: nat, block: nat)
    ensures RecordsOf(Toy, Split(HiddenLog(n, block))) == [7]
  {
    var blanks := Split(Newlines(n + block));
    HiddenLines(n, block);
    SplitNewlines(n + block);
    BlanksHoldNothing(Toy, blanks);
    Cons([123], blanks);
    var line: Bytes := [123];
    assert !IsBlankByte(line[0]);
  }

  /** For every n and every block size, the 8192 bytes of the code included, there is a
      log whose one record a tail of n does not find. */
  lemma BlankLinesHideRecords(n: nat, block: nat)
    requires n > 0 && block > 0
    ensures var file := HiddenLog(n, block);
      && !AnyRaises(Toy, Split(file)) && RecordsOf(Toy, Split(file)) == [7]
      && TailOf(Toy, file, n, block) == Records([]) && !Exact(Toy, file, n, block)
    ensures TailOf(Toy, HiddenLog(1, BLOCK), 1, BLOCK) == Records([])
  {
    HiddenTail(n, block);
    HiddenTail(1, BLOCK);
    HiddenRecord(n, block);
  }

  lemma HiddenTail(n: nat, block: nat)
    requires n > 0 && block > 0
    ensures TailOf(Toy, HiddenLog(n, block), n, block) == Records([])
  {
    var file := HiddenLog(n, block);
    var pos := ReadBack(file, n, block, |file|);
    StopsInNewlines(n, block, |file|);
    assert file[pos..] == Newlines(|file| - pos);
    SplitNewlines(|file| - pos);
    BlanksHoldNothing(Toy, Window(file, n, block));
  }
}
