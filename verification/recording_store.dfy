/** Pruning saved recordings: what has expired goes, and then the oldest, until the rest fits. */
module RecordingStore {
  import opened Sequences

  /** A file: its path, modification time and size. */
  datatype Record = Record(path: string, mtime: int, size: nat)

  function Unexpired(cutoff: int): Record -> bool { (r: Record) => r.mtime >= cutoff }

  function TotalSize(s: seq<Record>): nat { if s == [] then 0 else s[0].size + TotalSize(s[1..]) }

  /** What is left when the oldest are removed until the rest fits. */
  function FitNewest(s: seq<Record>, maxBytes: nat): seq<Record> {
    if TotalSize(s) <= maxBytes then s else FitNewest(s[1..], maxBytes)
  }

  function Pruned(records: seq<Record>, cutoff: int, maxBytes: nat): seq<Record> {
    FitNewest(Filter(Unexpired(cutoff), records), maxBytes)
  }

  // ----- the rest is the longest newest run that fits -----

  lemma {:induction false} SuffixIsSmaller(s: seq<Record>, i: nat, j: nat)
    requires i <= j <= |s|
    ensures TotalSize(s[j..]) <= TotalSize(s[i..])
    decreases j - i
  {
    if i < j {
      assert s[i..][1..] == s[i + 1..];
      SuffixIsSmaller(s, i + 1, j);
    }
  }

  /** The result is a newest run; it fits; and no longer newest run fits. */
  lemma {:induction false} FitNewestIsMaximal(s: seq<Record>, maxBytes: nat) returns (k: nat)
    ensures k <= |s| && FitNewest(s, maxBytes) == s[k..]
    ensures TotalSize(s[k..]) <= maxBytes
    ensures forall j :: 0 <= j < k ==> TotalSize(s[j..]) > maxBytes
  {
    if TotalSize(s) <= maxBytes {
      k := 0;
      assert s[0..] == s;
    } else {
      var rest := FitNewestIsMaximal(s[1..], maxBytes);
      k := rest + 1;
      assert s[1..][rest..] == s[k..];
      forall j | 0 <= j < k ensures TotalSize(s[j..]) > maxBytes {
        if j == 0 {
          assert s[0..] == s;
        } else {
          assert s[1..][j - 1..] == s[j..];
        }
      }
    }
  }

  /** The survivors are the longest newest-first run of unexpired records that totals at most `maxBytes`. */
  lemma PruneKeepsMaximalRun(records: seq<Record>, cutoff: int, maxBytes: nat, other: nat)
    requires other <= |Filter(Unexpired(cutoff), records)|
    ensures
      var unexpired := Filter(Unexpired(cutoff), records);
      TotalSize(unexpired[other..]) <= maxBytes <==> |unexpired| - other <= |Pruned(records, cutoff, maxBytes)|
    ensures
      var unexpired := Filter(Unexpired(cutoff), records);
      var kept := Pruned(records, cutoff, maxBytes);
      |kept| <= |unexpired| && kept == unexpired[|unexpired| - |kept|..] && TotalSize(kept) <= maxBytes
  {
    var unexpired := Filter(Unexpired(cutoff), records);
    var k := FitNewestIsMaximal(unexpired, maxBytes);
    if k <= other {
      SuffixIsSmaller(unexpired, k, other);
    }
  }

  /** Even the newest record goes if it alone is too large, and then everything does. */
  lemma NewestTooLarge(records: seq<Record>, cutoff: int, maxBytes: nat)
    requires Filter(Unexpired(cutoff), records) != []
    ensures
      var unexpired := Filter(Unexpired(cutoff), records);
      unexpired[|unexpired| - 1].size > maxBytes <==> Pruned(records, cutoff, maxBytes) == []
  {
    var unexpired := Filter(Unexpired(cutoff), records);
    var k := FitNewestIsMaximal(unexpired, maxBytes);
    var n := |unexpired|;
    if k < n {
      SuffixIsSmaller(unexpired, k, n - 1);
    }
    assert unexpired[n - 1..] == [unexpired[n - 1]];
    assert TotalSize([unexpired[n - 1]][1..]) == 0;
    assert TotalSize([unexpired[n - 1]]) == unexpired[n - 1].size;
  }

  /** The order the records are sorted in before pruning. */
  ghost predicate OldestFirst(s: seq<Record>) { forall i, j :: 0 <= i < j < |s| ==> s[i].mtime <= s[j].mtime }

  lemma {:induction false} FilterKeepsOrder(s: seq<Record>, cutoff: int)
    requires OldestFirst(s)
    ensures OldestFirst(Filter(Unexpired(cutoff), s))
  {
    if s != [] {
      FilterKeepsOrder(s[1..], cutoff);
      FilterHas(Unexpired(cutoff), s[1..]);
      assert forall r <- s[1..] :: s[0].mtime <= r.mtime;
    }
  }

  /** Nothing unexpired is removed that is newer than a survivor. */
  lemma SurvivorsAreNewest(records: seq<Record>, cutoff: int, maxBytes: nat, kept: Record, removed: Record)
    requires OldestFirst(records) && kept in Pruned(records, cutoff, maxBytes)
    requires removed in records && removed.mtime >= cutoff && removed !in Pruned(records, cutoff, maxBytes)
    ensures removed.mtime <= kept.mtime
  {
    var unexpired := Filter(Unexpired(cutoff), records);
    FilterKeepsOrder(records, cutoff);
    FilterHas(Unexpired(cutoff), records);
    var k := FitNewestIsMaximal(unexpired, maxBytes);
    var i :| 0 <= i < |unexpired| && unexpired[i] == removed;
    var j :| 0 <= j < |unexpired[k..]| && unexpired[k..][j] == kept;
    assert unexpired[k + j] == kept;
    assert forall l :: k <= l < |unexpired| ==> unexpired[l] == unexpired[k..][l - k];
  }

  lemma {:induction false} FilterAll(s: seq<Record>, cutoff: int)
    requires forall r <- s :: r.mtime >= cutoff
    ensures Filter(Unexpired(cutoff), s) == s
  {
    if s != [] {
      assert s[0] in s && forall r <- s[1..] :: r in s;
      FilterAll(s[1..], cutoff);
    }
  }

  /** Pruning again at the same time removes nothing more. */
  lemma PruneIsIdempotent(records: seq<Record>, cutoff: int, maxBytes: nat)
    ensures Pruned(Pruned(records, cutoff, maxBytes), cutoff, maxBytes) == Pruned(records, cutoff, maxBytes)
  {
    var unexpired, kept := Filter(Unexpired(cutoff), records), Pruned(records, cutoff, maxBytes);
    var k := FitNewestIsMaximal(unexpired, maxBytes);
    FilterHas(Unexpired(cutoff), records);
    assert forall r <- kept :: r in unexpired;
    FilterAll(kept, cutoff);
  }

  // ----- the loops -----

  function Paths(s: seq<Record>): set<string> { set r <- s :: r.path }

  function ExpiredPaths(s: seq<Record>, cutoff: int): set<string> { set r <- s | r.mtime < cutoff :: r.path }

  predicate DistinctPaths(s: seq<Record>) { forall i, j :: 0 <= i < j < |s| ==> s[i].path != s[j].path }

  function IndexOf(s: seq<Record>, r: Record): (i: nat)
    requires r in s
    ensures i < |s| && s[i] == r && r !in s[..i]
  {
    if s[0] == r then 0
    else
      assert s == [s[0]] + s[1..];
      var j := IndexOf(s[1..], r);
      assert s[..j + 1] == [s[0]] + s[1..][..j];
      j + 1
  }

  /** What the directory holds, and which files cannot be removed. */
  class PerformanceRecordingStore {
    var files: set<string>
    const stuck: set<string>

    constructor (present: set<string>, unremovable: set<string>)
      ensures files == present && stuck == unremovable
    {
      files, stuck := present, unremovable;
    }

    /** `unlink` with its failure swallowed. */
    method Unlink(path: string)
      modifies `files
      ensures files == if path in stuck then old(files) else old(files) - {path}
    {
      if path !in stuck {
        files := files - {path};
      }
    }

    method SpliceOut(records: seq<Record>, record: Record, ghost kept: seq<Record>, ghost rest: seq<Record>)
      returns (r: seq<Record>)
      requires records == kept + ([record] + rest) && record !in kept
      ensures r == kept + rest
    {
      Splice(kept, record, rest);
      var at := IndexOf(records, record);
      r := records[..at] + records[at + 1..];
    }

    /** The first loop walks a copy and splices the expired out of the original by their index. */
    method RemoveExpired(sorted: seq<Record>, cutoff: int) returns (records: seq<Record>)
      requires DistinctPaths(sorted)
      modifies `files
      ensures records == Filter(Unexpired(cutoff), sorted)
      ensures files == old(files) - (ExpiredPaths(sorted, cutoff) - stuck)
    {
      records := sorted;
      var i := 0;
      PassedEnds(sorted, cutoff);
      while i < |sorted|
        invariant 0 <= i <= |sorted|
        invariant records == Passed(sorted, i, cutoff)
        invariant files == old(files) - (ExpiredPaths(sorted[..i], cutoff) - stuck)
      {
        var record := sorted[i];
        PassRecord(sorted, i, cutoff);
        PassPath(sorted, i, cutoff);
        RemoveOneMore(old(files), ExpiredPaths(sorted[..i], cutoff), stuck, record.path);
        if record.mtime < cutoff {
          Unlink(record.path);
          records := SpliceOut(records, record, Filter(Unexpired(cutoff), sorted[..i]), sorted[i + 1..]);
        }
        i := i + 1;
      }
    }

    /** The second loop removes the oldest until the rest fits. */
    method FitBytes(records: seq<Record>, maxBytes: nat) returns (ghost kept: seq<Record>)
      requires DistinctPaths(records)
      modifies `files
      ensures kept == FitNewest(records, maxBytes)
      ensures files == old(files) - ((Paths(records) - Paths(kept)) - stuck)
    {
      var total := 0;
      var i := 0;
      while i < |records|
        invariant 0 <= i <= |records|
        invariant total + TotalSize(records[i..]) == TotalSize(records)
      {
        assert records[i..][1..] == records[i + 1..];
        total := total + records[i].size;
        i := i + 1;
      }
      i := 0;
      assert records[0..] == records;
      while i < |records| && total > maxBytes
        invariant 0 <= i <= |records|
        invariant total == TotalSize(records[i..])
        invariant FitNewest(records, maxBytes) == FitNewest(records[i..], maxBytes)
        invariant files == old(files) - (Paths(records[..i]) - stuck)
      {
        assert records[i..][1..] == records[i + 1..];
        Unlink(records[i].path);
        total := total - records[i].size;
        assert Paths(records[..i + 1]) == Paths(records[..i]) + {records[i].path} by {
          assert records[..i + 1] == records[..i] + [records[i]];
        }
        i := i + 1;
      }
      kept := records[i..];
      PathsSplit(records, i);
    }

    /** When every removal succeeds, the files left are the survivors and what was not a record. */
    method Prune(sorted: seq<Record>, cutoff: int, maxBytes: nat)
      requires DistinctPaths(sorted)
      modifies `files
      ensures files == old(files) - ((Paths(sorted) - Paths(Pruned(sorted, cutoff, maxBytes))) - stuck)
    {
      var records := RemoveExpired(sorted, cutoff);
      ExpiredAreGone(sorted, cutoff);
      FilterHas(Unexpired(cutoff), sorted);
      FilterDistinct(sorted, cutoff);
      ghost var kept := FitBytes(records, maxBytes);
      ghost var k := FitNewestIsMaximal(records, maxBytes);
      assert Paths(kept) <= Paths(records) <= Paths(sorted) by {
        assert forall r <- kept :: r in records;
      }
    }
  }

  lemma {:induction false} IndexOfFirst(s: seq<Record>, r: Record, i: nat)
    requires i < |s| && s[i] == r && r !in s[..i]
    ensures IndexOf(s, r) == i
  {
    if i > 0 {
      assert s[0] == s[..i][0];
      assert s[1..][..i - 1] == s[..i][1..];
      IndexOfFirst(s[1..], r, i - 1);
    }
  }

  /** Splicing the record out from behind `kept`. */
  lemma Splice(kept: seq<Record>, record: Record, rest: seq<Record>)
    requires record !in kept
    ensures var all := kept + ([record] + rest);
            IndexOf(all, record) == |kept| && all[..|kept|] + all[|kept| + 1..] == kept + rest
  {
    var all := kept + ([record] + rest);
    assert all[..|kept|] == kept && all[|kept| + 1..] == rest;
    IndexOfFirst(all, record, |kept|);
  }

  /** What the first loop has left of the records after `i` of them. */
  ghost function Passed(s: seq<Record>, i: nat, cutoff: int): seq<Record>
    requires i <= |s|
  {
    Filter(Unexpired(cutoff), s[..i]) + s[i..]
  }

  lemma PassedEnds(s: seq<Record>, cutoff: int)
    ensures Passed(s, 0, cutoff) == s && s[..0] == [] && s[..|s|] == s
    ensures Passed(s, |s|, cutoff) == Filter(Unexpired(cutoff), s)
  {
    assert s[..0] == [] && s[..|s|] == s;
  }

  lemma FilterNext(s: seq<Record>, i: nat, cutoff: int)
    requires i < |s|
    ensures Filter(Unexpired(cutoff), s[..i + 1])
         == Filter(Unexpired(cutoff), s[..i]) + if s[i].mtime >= cutoff then [s[i]] else []
  {
    var one := [s[i]];
    assert s[..i + 1] == s[..i] + one;
    FilterConcat(Unexpired(cutoff), s[..i], one);
    assert Filter(Unexpired(cutoff), one) == (if Unexpired(cutoff)(one[0]) then [one[0]] else [])
        + Filter(Unexpired(cutoff), one[1..]);
  }

  lemma NotKeptYet(s: seq<Record>, i: nat, cutoff: int)
    requires i < |s| && DistinctPaths(s)
    ensures s[i] !in Filter(Unexpired(cutoff), s[..i])
  {
    FilterHas(Unexpired(cutoff), s[..i]);
  }

  lemma PassRecord(s: seq<Record>, i: nat, cutoff: int)
    requires i < |s| && DistinctPaths(s)
    ensures var kept := Filter(Unexpired(cutoff), s[..i]);
            && s[i] !in kept
            && Passed(s, i, cutoff) == kept + ([s[i]] + s[i + 1..])
            && Passed(s, i + 1, cutoff) == if s[i].mtime < cutoff then kept + s[i + 1..] else Passed(s, i, cutoff)
  {
    var kept := Filter(Unexpired(cutoff), s[..i]);
    FilterNext(s, i, cutoff);
    NotKeptYet(s, i, cutoff);
    assert s[i..] == [s[i]] + s[i + 1..];
    Assoc(kept, [s[i]], s[i + 1..]);
    assert kept + [] == kept;
  }

  lemma RemoveOneMore(files: set<string>, gone: set<string>, stuck: set<string>, path: string)
    ensures files - ((gone + {path}) - stuck) ==
            if path in stuck then files - (gone - stuck) else (files - (gone - stuck)) - {path}
  {
  }

  lemma PassPath(s: seq<Record>, i: nat, cutoff: int)
    requires i < |s|
    ensures ExpiredPaths(s[..i + 1], cutoff) == ExpiredPaths(s[..i], cutoff) + if s[i].mtime < cutoff
        then {s[i].path} else {}
  {
    assert s[..i + 1] == s[..i] + [s[i]];
  }

  lemma ExpiredAreGone(s: seq<Record>, cutoff: int)
    requires DistinctPaths(s)
    ensures ExpiredPaths(s, cutoff) == Paths(s) - Paths(Filter(Unexpired(cutoff), s))
  {
    FilterHas(Unexpired(cutoff), s);
    forall r <- s, q <- s | r.path == q.path ensures r == q {
      var i :| 0 <= i < |s| && s[i] == r;
      var j :| 0 <= j < |s| && s[j] == q;
    }
  }

  lemma {:induction false} FilterDistinct(s: seq<Record>, cutoff: int)
    requires DistinctPaths(s)
    ensures DistinctPaths(Filter(Unexpired(cutoff), s))
  {
    if s != [] {
      FilterDistinct(s[1..], cutoff);
      FilterHas(Unexpired(cutoff), s[1..]);
      assert forall r <- s[1..] :: r.path != s[0].path;
    }
  }

  lemma PathsSplit(s: seq<Record>, i: nat)
    requires i <= |s| && DistinctPaths(s)
    ensures Paths(s[..i]) == Paths(s) - Paths(s[i..])
  {
    assert s == s[..i] + s[i..];
    forall p | p in Paths(s[..i]) ensures p !in Paths(s[i..]) {
      var a :| 0 <= a < i && s[a].path == p;
    }
  }
}
