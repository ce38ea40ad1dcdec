/** The rotating files behind the performance history. File 0 is the current one and the highest index the
    oldest; a file that does not exist is empty. Lines are opaque but for their length in bytes. */
module HistoryRotation {
  import opened Sequences

  /** A line ends with a newline, so it is never empty. */
  datatype RawLine = Line(id: nat, bytes: nat)
  type Line = l: RawLine | l.bytes > 0 witness Line(0, 1)

  type Files = seq<seq<Line>>

  /** What happens to one target file: the rename succeeds, only the unlink does, or neither. */
  datatype Move = Moved | Unlinked | Untouched

  /** How one append fares: each file's move if it rotates, and whether the line itself gets written. */
  datatype Attempt = Attempt(line: Line, moves: seq<Move>, written: bool)

  function Size(file: seq<Line>): nat {
    if file == [] then 0 else file[0].bytes + Size(file[1..])
  }

  function Shift(files: Files, target: nat, move: Move): Files
    requires 0 < target < |files|
  {
    match move
    case Moved => files[target := files[target - 1]][target - 1 := []]
    case Unlinked => files[target := []]
    case Untouched => files
  }

  /** The rotation loop, from `target` down to the current file. */
  function Rotated(files: Files, target: nat, moves: seq<Move>): (r: Files)
    requires target < |files| <= |moves|
    ensures |r| == |files|
    decreases target
  {
    if target == 0 then files else Rotated(Shift(files, target, moves[target]), target - 1, moves)
  }

  /** The files once there is room for the line: rotated if the current file is not empty and would outgrow the
      limit. */
  function Room(files: Files, a: Attempt, maxBytes: nat): (r: Files)
    requires 0 < |files| <= |a.moves|
    ensures |r| == |files|
  {
    if Size(files[0]) > 0 && Size(files[0]) + a.line.bytes > maxBytes then Rotated(files, |files| - 1, a.moves)
    else files
  }

  function Append(files: Files, a: Attempt, maxBytes: nat): Files
    requires 0 < |files| <= |a.moves|
  {
    var room := Room(files, a, maxBytes);
    if a.written then room[0 := room[0] + [a.line]] else room
  }

  predicate Ready(files: Files, attempts: seq<Attempt>) {
    0 < |files| && forall a <- attempts :: |files| <= |a.moves|
  }

  function Run(files: Files, attempts: seq<Attempt>, maxBytes: nat): (r: Files)
    requires Ready(files, attempts)
    ensures |r| == |files|
    decreases |attempts|
  {
    if attempts == [] then files else Run(Append(files, attempts[0], maxBytes), attempts[1..], maxBytes)
  }

  /** What `initialize` reads: the files from the oldest to the current one. */
  function ReadBack(files: Files): seq<Line> {
    if files == [] then [] else ReadBack(files[1..]) + files[0]
  }

  function Lines(attempts: seq<Attempt>): seq<Line> {
    if attempts == [] then [] else [attempts[0].line] + Lines(attempts[1..])
  }

  lemma {:induction false} ReadBackConcat(a: Files, b: Files)
    ensures ReadBack(a + b) == ReadBack(b) + ReadBack(a)
  {
    if a == [] {
      assert a + b == b;
    } else {
      assert (a + b)[1..] == a[1..] + b;
      ReadBackConcat(a[1..], b);
      assert ReadBack(b) + (ReadBack(a[1..]) + a[0]) == (ReadBack(b) + ReadBack(a[1..])) + a[0];
    }
  }

  // ----- whatever fails, order is kept -----

  lemma ShiftReadsSubsequence(files: Files, target: nat, move: Move)
    requires 0 < target < |files|
    ensures IsSubsequence(ReadBack(Shift(files, target, move)), ReadBack(files))
  {
    var newer, older := files[..target - 1], files[target + 1..];
    var x, y := files[target], files[target - 1];
    var shifted := Shift(files, target, move);
    var x', y' := shifted[target], shifted[target - 1];
    PairReads(files, target);
    PairReads(shifted, target);
    assert shifted[..target - 1] == newer && shifted[target + 1..] == older;
    assert IsSubsequence(x' + y', x + y) by {
      SubsequenceRefl(x);
      SubsequenceRefl(y);
      assert IsSubsequence([], x);
      SubsequenceConcat([], x, y, y);
      SubsequenceConcat(x, x, y, y);
      assert [] + y == y + [] == y;
    }
    SubsequenceRefl(ReadBack(older));
    SubsequenceRefl(ReadBack(newer));
    SubsequenceConcat(ReadBack(older), ReadBack(older), x' + y', x + y);
    SubsequenceConcat(ReadBack(older) + (x' + y'), ReadBack(older) + (x + y), ReadBack(newer), ReadBack(newer));
  }

  lemma PairReads(files: Files, target: nat)
    requires 0 < target < |files|
    ensures ReadBack(files) ==
            (ReadBack(files[target + 1..]) + (files[target] + files[target - 1])) + ReadBack(files[..target - 1])
  {
    var newer, pair, older := files[..target - 1], files[target - 1..], ReadBack(files[target + 1..]);
    assert files == newer + pair;
    ReadBackConcat(newer, pair);
    assert pair[1..] == files[target..];
    assert files[target..][1..] == files[target + 1..];
    assert ReadBack(pair) == (older + files[target]) + files[target - 1];
    Assoc(older, files[target], files[target - 1]);
  }

  lemma {:induction false} RotateReadsSubsequence(files: Files, target: nat, moves: seq<Move>)
    requires target < |files| <= |moves|
    ensures IsSubsequence(ReadBack(Rotated(files, target, moves)), ReadBack(files))
    decreases target
  {
    if target == 0 {
      SubsequenceRefl(ReadBack(files));
    } else {
      var shifted := Shift(files, target, moves[target]);
      ShiftReadsSubsequence(files, target, moves[target]);
      RotateReadsSubsequence(shifted, target - 1, moves);
      SubsequenceTrans(ReadBack(Rotated(shifted, target - 1, moves)), ReadBack(shifted), ReadBack(files));
    }
  }

  lemma AppendReads(files: Files, line: Line)
    requires files != []
    ensures ReadBack(files[0 := files[0] + [line]]) == ReadBack(files) + [line]
  {
    var after := files[0 := files[0] + [line]];
    assert after[1..] == files[1..];
  }

  /** Whichever unlinks, renames and writes fail, what is read back is in order: a subsequence of what was there
      followed by what was appended. */
  lemma {:induction false} RunReadsSubsequence(files: Files, attempts: seq<Attempt>, maxBytes: nat)
    requires Ready(files, attempts)
    ensures IsSubsequence(ReadBack(Run(files, attempts, maxBytes)), ReadBack(files) + Lines(attempts))
    decreases |attempts|
  {
    if attempts == [] {
      SubsequenceRefl(ReadBack(files));
      assert ReadBack(files) + [] == ReadBack(files);
    } else {
      var a, rest := attempts[0], Lines(attempts[1..]);
      assert a in attempts;
      var after := Append(files, a, maxBytes);
      assert Ready(after, attempts[1..]) by {
        assert forall b <- attempts[1..] :: b in attempts;
      }
      AppendReadsSubsequence(files, a, maxBytes);
      RunReadsSubsequence(after, attempts[1..], maxBytes);
      SubsequenceRefl(rest);
      SubsequenceConcat(ReadBack(after), ReadBack(files) + [a.line], rest, rest);
      SubsequenceTrans(ReadBack(Run(files, attempts, maxBytes)), ReadBack(after) + rest,
          ReadBack(files) + [a.line] + rest);
      Assoc(ReadBack(files), [a.line], rest);
    }
  }

  lemma AppendReadsSubsequence(files: Files, a: Attempt, maxBytes: nat)
    requires 0 < |files| <= |a.moves|
    ensures IsSubsequence(ReadBack(Append(files, a, maxBytes)), ReadBack(files) + [a.line])
  {
    var room := Room(files, a, maxBytes);
    RotateReadsSubsequence(files, |files| - 1, a.moves);
    SubsequenceRefl(ReadBack(files));
    if a.written {
      AppendReads(room, a.line);
      SubsequenceRefl([a.line]);
      SubsequenceConcat(ReadBack(room), ReadBack(files), [a.line], [a.line]);
    } else {
      SubsequenceConcat(ReadBack(room), ReadBack(files), [], [a.line]);
      assert ReadBack(room) + [] == ReadBack(room);
    }
  }

  // ----- when the file system obliges -----

  predicate Succeeds(attempts: seq<Attempt>) {
    forall a <- attempts :: a.written && forall move <- a.moves :: move == Moved
  }

  /** A successful rotation drops the oldest file and opens an empty current one. */
  lemma {:induction false} RotatedShifts(files: Files, target: nat, moves: seq<Move>)
    requires target < |files| <= |moves| && (forall move <- moves :: move == Moved)
    ensures Rotated(files, target, moves) == (if target == 0 then files
        else [[]] + files[..target] + files[target + 1..])
    decreases target
  {
    if target > 0 {
      assert moves[target] in moves;
      var shifted := Shift(files, target, Moved);
      RotatedShifts(shifted, target - 1, moves);
    }
  }

  lemma {:induction false} SizeAppend(file: seq<Line>, line: Line)
    ensures Size(file + [line]) == Size(file) + line.bytes
  {
    if file == [] {
      assert file + [line] == [line];
    } else {
      assert (file + [line])[1..] == file[1..] + [line];
      SizeAppend(file[1..], line);
    }
  }

  /** Every file fits, unless it is a single long line. */
  ghost predicate Fits(files: Files, maxBytes: nat) {
    forall file <- files :: |file| <= 1 || Size(file) <= maxBytes
  }

  /** Files are not rotated early: the line that opened the next newer file would not have fitted. */
  ghost predicate Tight(files: Files, maxBytes: nat) {
    forall i :: 0 < i < |files| && files[i] != [] ==>
      files[i - 1] != [] && Size(files[i]) + files[i - 1][0].bytes > maxBytes
  }

  /** A successful rotation in front of an append loses the oldest file and nothing else. */
  lemma RoomReads(files: Files, a: Attempt, maxBytes: nat) returns (d: nat)
    requires 2 <= |files| <= |a.moves| && Succeeds([a])
    ensures Room(files, a, maxBytes) == files || Room(files, a, maxBytes) == [[]] + files[..|files| - 1]
    ensures d <= |ReadBack(files)| && ReadBack(Room(files, a, maxBytes)) == ReadBack(files)[d..]
  {
    assert a in [a];
    var n := |files|;
    var room := Room(files, a, maxBytes);
    d := 0;
    if room != files {
      var kept, oldest := files[..n - 1], files[n - 1];
      RotatedShifts(files, n - 1, a.moves);
      assert room == [[]] + kept;
      assert room[1..] == kept;
      assert files == kept + [oldest];
      ReadBackConcat(kept, [oldest]);
      assert ReadBack([oldest]) == oldest;
      d := |oldest|;
    }
  }

  /** The two ways an append succeeds: into a fresh current file, or onto the one there is. */
  lemma AppendShapes(files: Files, a: Attempt, maxBytes: nat)
    requires 2 <= |files| <= |a.moves| && Succeeds([a])
    ensures Append(files, a, maxBytes) ==
            if files[0] != [] && Size(files[0]) + a.line.bytes > maxBytes then [[a.line]] + files[..|files| - 1]
            else [files[0] + [a.line]] + files[1..]
  {
    assert a in [a];
    RotatedShifts(files, |files| - 1, a.moves);
    assert [] + [a.line] == [a.line];
  }

  lemma AppendFits(files: Files, a: Attempt, maxBytes: nat)
    requires Fits(files, maxBytes) && 2 <= |files| <= |a.moves| && Succeeds([a])
    ensures Fits(Append(files, a, maxBytes), maxBytes)
  {
    AppendShapes(files, a, maxBytes);
    SizeAppend(files[0], a.line);
    forall file <- Append(files, a, maxBytes) ensures |file| <= 1 || Size(file) <= maxBytes {
      assert file == [a.line] || file == files[0] + [a.line] || file in files;
    }
  }

  lemma AppendTight(files: Files, a: Attempt, maxBytes: nat)
    requires Tight(files, maxBytes) && 2 <= |files| <= |a.moves| && Succeeds([a])
    ensures Tight(Append(files, a, maxBytes), maxBytes)
  {
    AppendShapes(files, a, maxBytes);
    var after := Append(files, a, maxBytes);
    if files[0] != [] && Size(files[0]) + a.line.bytes > maxBytes {
      assert forall i :: 0 < i < |after| ==> after[i] == files[i - 1];
    } else {
      assert forall i :: 0 < i < |after| ==> after[i] == files[i];
      assert files[0] != [] ==> after[0][0] == files[0][0];
    }
  }

  /** With at least two files and a file system that obliges, no file ever outgrows the limit, or the single line it
      consists of, and no file is closed while the next line would still have fitted. */
  lemma {:induction false} FilesStayBounded(files: Files, attempts: seq<Attempt>, maxBytes: nat)
    requires Fits(files, maxBytes) && Tight(files, maxBytes)
    requires |files| >= 2 && Ready(files, attempts) && Succeeds(attempts)
    ensures Fits(Run(files, attempts, maxBytes), maxBytes) && Tight(Run(files, attempts, maxBytes), maxBytes)
    decreases |attempts|
  {
    if attempts != [] {
      var a, rest := attempts[0], attempts[1..];
      assert a in attempts && forall b <- rest :: b in attempts;
      assert Succeeds([a]);
      AppendFits(files, a, maxBytes);
      AppendTight(files, a, maxBytes);
      FilesStayBounded(Append(files, a, maxBytes), rest, maxBytes);
    }
  }

  /** With at least two files and a file system that obliges, what `initialize` reads back after any run of appends
      is a suffix, in order, of everything there was and everything appended, and holds at least the last line. */
  lemma {:induction false} RunReadsSuffix(files: Files, attempts: seq<Attempt>, maxBytes: nat) returns (k: nat)
    requires |files| >= 2 && Ready(files, attempts) && Succeeds(attempts)
    ensures k <= |ReadBack(files)| + |Lines(attempts)|
    ensures ReadBack(Run(files, attempts, maxBytes)) == (ReadBack(files) + Lines(attempts))[k..]
    ensures attempts != [] ==> k < |ReadBack(files)| + |Lines(attempts)|
    decreases |attempts|
  {
    if attempts == [] {
      k := 0;
      assert ReadBack(files) + [] == ReadBack(files);
    } else {
      var a, rest := attempts[0], attempts[1..];
      assert a in attempts && forall b <- rest :: b in attempts;
      assert Succeeds([a]);
      var d := RoomReads(files, a, maxBytes);
      AppendReads(Room(files, a, maxBytes), a.line);
      var j := RunReadsSuffix(Append(files, a, maxBytes), rest, maxBytes);
      SuffixCompose(ReadBack(files), [a.line], Lines(rest), d, j);
      k := d + j;
    }
  }

  /** A single file never rotates: everything stays in it, whatever the limit. */
  lemma {:induction false} SingleFileGrows(file: seq<Line>, attempts: seq<Attempt>, maxBytes: nat)
    requires Ready([file], attempts) && Succeeds(attempts)
    ensures Run([file], attempts, maxBytes) == [file + Lines(attempts)]
    decreases |attempts|
  {
    if attempts == [] {
      assert file + [] == file;
    } else {
      var a := attempts[0];
      assert a in attempts && forall b <- attempts[1..] :: b in attempts;
      assert Append([file], a, maxBytes) == [file + [a.line]];
      SingleFileGrows(file + [a.line], attempts[1..], maxBytes);
      Assoc(file, [a.line], Lines(attempts[1..]));
    }
  }

  class RotatingFiles {
    const files: array<seq<Line>>
    const maxBytes: nat

    constructor (fileCount: nat, maxBytes: nat)
      requires fileCount > 0
      ensures files.Length == fileCount && this.maxBytes == maxBytes && fresh(files)
      ensures forall i :: 0 <= i < fileCount ==> files[i] == []
    {
      files := new seq<Line>[fileCount](_ => []);
      this.maxBytes := maxBytes;
    }

    method Rotate(moves: seq<Move>)
      requires 0 < files.Length <= |moves|
      modifies files
      ensures files[..] == Rotated(old(files[..]), files.Length - 1, moves)
    {
      var index := files.Length - 1;
      while index >= 1
        invariant 0 <= index < files.Length
        invariant Rotated(files[..], index, moves) == Rotated(old(files[..]), files.Length - 1, moves)
      {
        ghost var before := files[..];
        match moves[index] {
          case Moved =>
            files[index] := files[index - 1];
            files[index - 1] := [];
          case Unlinked =>
            files[index] := [];
          case Untouched =>
        }
        assert files[..] == Shift(before, index, moves[index]);
        index := index - 1;
      }
    }

    method AppendLine(line: Line, moves: seq<Move>, written: bool)
      requires 0 < files.Length <= |moves|
      modifies files
      ensures files[..] == Append(old(files[..]), Attempt(line, moves, written), maxBytes)
    {
      var currentSize := Size(files[0]);
      if currentSize > 0 && currentSize + line.bytes > maxBytes {
        Rotate(moves);
      }
      ghost var room := files[..];
      if written {
        files[0] := files[0] + [line];
        assert files[..] == room[0 := room[0] + [line]];
      }
    }

    method ReadAll() returns (lines: seq<Line>)
      ensures lines == ReadBack(files[..])
    {
      lines := [];
      var index := files.Length;
      while index > 0
        invariant 0 <= index <= files.Length
        invariant lines == ReadBack(files[index..])
      {
        index := index - 1;
        assert files[index..][1..] == files[index + 1..];
        lines := lines + files[index];
      }
      assert files[0..] == files[..];
    }
  }
}
