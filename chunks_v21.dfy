/** The v2.1 chunk: one contiguous range of log lines with the timing, outcome and
    statistics gathered while it was open, plus the collection that groups closed chunks
    by the zone-change line they belong to (versions/v2.1.cs:20-107). */
module ChunksV21 {
  import opened Wrappers

  /** An encounter shorter than this is not uploaded; v2.1 parses times to the
      millisecond, so the 20-second rule is 20000 here. */
  const MinLegalDuration := 20000

  /** A chunk of the log. Times are integers, 0 standing for .NET's default `DateTime`.
      `selected` is the state of the chunk's checkbox, which the display collaborator
      sets and which is false for every chunk the segmenter creates. */
  datatype LogChunk = LogChunk(
    zoneName: Option<string>,
    line01Idx: int,
    startLineIdx: int,
    endLineIdx: int,
    startTimeOverlay: Option<int>,
    startTimeACT: int,
    endTime: int,
    win: bool,
    selected: bool,
    selfDeathCount: nat,
    totalDeathCount: nat,
    selfDmgDownCount: nat,
    totalDmgDownCount: nat)
  {
    /** The overlay's start time when it was seen, otherwise the first boss attack's. */
    function StartTime(): int {
      match startTimeOverlay
      case Some(t) => t
      case None => startTimeACT
    }

    function Duration(): int {
      endTime - StartTime()
    }

    predicate IsEncounter() {
      StartTime() != 0
    }

    predicate IsLegalEncounter() {
      IsEncounter() && Duration() >= MinLegalDuration
    }

    /** How many lines `ReadChunk` reads: its loop runs for i = 0 .. End - Start. */
    function LineCount(): nat {
      if endLineIdx - startLineIdx + 1 > 0 then endLineIdx - startLineIdx + 1 else 0
    }

    predicate Owns(j: int) {
      startLineIdx <= j <= endLineIdx
    }
  }

  /** `LogChunksDict`: closed chunks grouped by the index of their zone-change line. */
  type ChunkDict = map<int, seq<LogChunk>>

  /** The dictionary update at the end of `SaveCurrentChunk` (versions/v2.1.cs:287-289). */
  function SaveInto(d: ChunkDict, c: LogChunk): (r: ChunkDict)
    ensures forall k :: k in r <==> k in d || k == c.line01Idx
    ensures r[c.line01Idx] == (if c.line01Idx in d then d[c.line01Idx] else []) + [c]
    ensures forall k | k in d && k != c.line01Idx :: r[k] == d[k]
  {
    d[c.line01Idx := (if c.line01Idx in d then d[c.line01Idx] else []) + [c]]
  }

  /** The dictionary left by saving `saved` into `d` in this order. */
  function SaveAll(d: ChunkDict, saved: seq<LogChunk>): ChunkDict {
    if saved == [] then d else SaveInto(SaveAll(d, saved[..|saved| - 1]), saved[|saved| - 1])
  }

  /** Saving one more chunk is one more `SaveInto`. */
  lemma SaveAllSnoc(d: ChunkDict, saved: seq<LogChunk>, c: LogChunk)
    ensures SaveAll(d, saved + [c]) == SaveInto(SaveAll(d, saved), c)
  {
    assert (saved + [c])[..|saved|] == saved;
  }

  predicate StrictlyIncreasing(r: seq<int>) {
    forall i, j | 0 <= i < j < |r| :: r[i] < r[j]
  }

  lemma NonEmptyHasMember(s: set<int>)
    ensures s == {} || exists y :: y in s
  {
    if forall y :: y !in s {
      assert s == {};
    }
  }

  lemma {:induction false} MinExists(s: set<int>)
    ensures s == {} || exists m :: m in s && forall y | y in s :: m <= y
    decreases |s|
  {
    NonEmptyHasMember(s);
    if s != {} {
      var x :| x in s;
      var rest := s - {x};
      assert |rest| < |s| by {
        assert s == rest + {x};
      }
      MinExists(rest);
      if rest == {} {
        forall y | y in s ensures x <= y {
          assert y !in rest;
        }
      } else {
        var m :| m in rest && forall y | y in rest :: m <= y;
        var least := if x < m then x else m;
        forall y | y in s ensures least <= y {
          if y != x {
            assert y in rest;
          }
        }
        assert least in s;
      }
    }
  }

  function MinOf(s: set<int>): (m: int)
    requires s != {}
    ensures m in s && forall y | y in s :: m <= y
  {
    MinExists(s);
    var m :| m in s && forall y | y in s :: m <= y;
    m
  }

  /** The keys in ascending order (`Keys.OrderBy(idx => idx)`). */
  function SortedKeys(s: set<int>): (r: seq<int>)
    ensures StrictlyIncreasing(r)
    ensures forall x :: x in r <==> x in s
    decreases |s|
  {
    if s == {} then []
    else
      var m := MinOf(s);
      var rest := s - {m};
      assert |rest| < |s| by {
        assert s == rest + {m};
      }
      var tail := SortedKeys(rest);
      PrependLeast(s, m, tail);
      [m] + tail
  }

  lemma PrependLeast(s: set<int>, m: int, tail: seq<int>)
    requires m in s && forall y | y in s :: m <= y
    requires StrictlyIncreasing(tail)
    requires forall x :: x in tail <==> x in s - {m}
    ensures StrictlyIncreasing([m] + tail)
    ensures forall x :: x in [m] + tail <==> x in s
  {
    var r := [m] + tail;
    forall i, j | 0 <= i < j < |r| ensures r[i] < r[j] {
      assert r[j] == tail[j - 1];
      assert tail[j - 1] in tail;
      if i > 0 {
        assert r[i] == tail[i - 1];
      }
    }
    forall x ensures x in r <==> x in s {
      if x in s && x != m {
        assert x in s - {m};
      }
      if x in r && x != m {
        var i :| 0 <= i < |r| && r[i] == x;
        assert tail[i - 1] in tail;
      }
    }
  }

  lemma SortedFirstIsLeast(r: seq<int>, i: int)
    requires StrictlyIncreasing(r) && 0 <= i < |r|
    ensures r[0] <= r[i]
  {
    if i > 0 {
      assert r[0] < r[i];
    }
  }

  /** There is only one ascending arrangement of a set. */
  lemma {:induction false} SortedKeysUnique(s: set<int>, r: seq<int>)
    requires StrictlyIncreasing(r)
    requires forall x :: x in r <==> x in s
    ensures SortedKeys(s) == r
    decreases |r|
  {
    if r == [] {
      forall x ensures x !in s {
        assert x !in r;
      }
      assert s == {};
    } else {
      assert r[0] in r;
      assert r[0] in s;
      var m := MinOf(s);
      assert m in r;
      var i :| 0 <= i < |r| && r[i] == m;
      assert m == r[0] by {
        SortedFirstIsLeast(r, i);
      }
      var tail := r[1..];
      forall x ensures x in tail <==> x in s - {m} {
        if x in tail {
          var j :| 0 <= j < |tail| && tail[j] == x;
          assert r[j + 1] == x;
          assert r[0] < r[j + 1];
          assert x in r;
        }
        if x in s - {m} {
          assert x in r;
          var j :| 0 <= j < |r| && r[j] == x;
          assert tail[j - 1] == x;
          assert x in tail;
        }
      }
      assert StrictlyIncreasing(tail) by {
        forall a, b | 0 <= a < b < |tail| ensures tail[a] < tail[b] {
          assert tail[a] == r[a + 1] && tail[b] == r[b + 1];
        }
      }
      SortedKeysUnique(s - {m}, tail);
      assert r == [m] + tail;
    }
  }

  /** The chunks of the groups named by `keys`, in that order; a key with no group adds nothing. */
  function Flatten(keys: seq<int>, d: ChunkDict): seq<LogChunk> {
    if keys == [] then []
    else
      var k := keys[|keys| - 1];
      Flatten(keys[..|keys| - 1], d) + (if k in d then d[k] else [])
  }

  /** `LogChunks`: every chunk, ordered by zone-change index and then by insertion
      (versions/v2.1.cs:106). */
  function LogChunks(d: ChunkDict): seq<LogChunk> {
    Flatten(SortedKeys(d.Keys), d)
  }

  function LegalOnly(cs: seq<LogChunk>): (r: seq<LogChunk>)
    ensures forall c :: c in r <==> c in cs && c.IsLegalEncounter()
    ensures |r| <= |cs|
  {
    if cs == [] then []
    else LegalOnly(cs[..|cs| - 1]) + (if cs[|cs| - 1].IsLegalEncounter() then [cs[|cs| - 1]] else [])
  }

  lemma {:induction false} LegalOnlyAppend(a: seq<LogChunk>, b: seq<LogChunk>)
    ensures LegalOnly(a + b) == LegalOnly(a) + LegalOnly(b)
    decreases |b|
  {
    if b == [] {
      assert a + b == a;
    } else {
      var last := b[|b| - 1];
      var x := if last.IsLegalEncounter() then [last] else [];
      assert (a + b)[..|a + b| - 1] == a + b[..|b| - 1];
      LegalOnlyAppend(a, b[..|b| - 1]);
      calc {
        LegalOnly(a + b);
        LegalOnly(a + b[..|b| - 1]) + x;
        (LegalOnly(a) + LegalOnly(b[..|b| - 1])) + x;
        LegalOnly(a) + (LegalOnly(b[..|b| - 1]) + x);
        LegalOnly(a) + LegalOnly(b);
      }
    }
  }

  /** `Where(c => c.IsLegalEncounter)` is an order-preserving filter: it keeps a single
      chunk exactly when it is legal, and filters a concatenation piece by piece. */
  lemma LegalOnlyIsFilter(a: seq<LogChunk>, b: seq<LogChunk>, c: LogChunk)
    ensures LegalOnly(a + b) == LegalOnly(a) + LegalOnly(b)
    ensures LegalOnly([c]) == if c.IsLegalEncounter() then [c] else []
  {
    LegalOnlyAppend(a, b);
    assert [c][..0] == [];
  }

  /** `LegalEncounters`: the legal chunks of `LogChunks`, in its order (versions/v2.1.cs:107). */
  function LegalEncounters(d: ChunkDict): seq<LogChunk> {
    LegalOnly(LogChunks(d))
  }

  /** What a display row shows is exactly the legal encounters: each has a start time and
      lasts at least 20 seconds, and every such chunk is listed. */
  lemma LegalEncountersExact(d: ChunkDict, c: LogChunk)
    ensures c in LegalEncounters(d) <==>
      c in LogChunks(d) && c.StartTime() != 0 && c.endTime - c.StartTime() >= MinLegalDuration
  {
  }

  predicate ZoneKeysSorted(cs: seq<LogChunk>) {
    forall i, j | 0 <= i < j < |cs| :: cs[i].line01Idx <= cs[j].line01Idx
  }

  lemma {:induction false} SaveAllKeysBounded(saved: seq<LogChunk>, bound: int)
    requires forall i | 0 <= i < |saved| :: saved[i].line01Idx <= bound
    ensures forall k | k in SaveAll(map[], saved) :: k <= bound
  {
    if saved != [] {
      SaveAllKeysBounded(saved[..|saved| - 1], bound);
    }
  }

  /** Saving a chunk does not change the groups of the other keys. */
  lemma {:induction false} FlattenSaveOther(keys: seq<int>, d: ChunkDict, c: LogChunk)
    requires forall i | 0 <= i < |keys| :: keys[i] in d && keys[i] != c.line01Idx
    ensures Flatten(keys, SaveInto(d, c)) == Flatten(keys, d)
  {
    if keys != [] {
      FlattenSaveOther(keys[..|keys| - 1], d, c);
    }
  }

  lemma LastOfSortedIsMax(ks: seq<int>, key: int)
    requires StrictlyIncreasing(ks)
    requires key in ks && forall i | 0 <= i < |ks| :: ks[i] <= key
    ensures ks[|ks| - 1] == key
    ensures forall i | 0 <= i < |ks| - 1 :: ks[i] < key
  {
  }

  lemma SortedKeysOfLarger(s: set<int>, key: int)
    requires key !in s && forall k | k in s :: k < key
    ensures SortedKeys(s + {key}) == SortedKeys(s) + [key]
  {
    var ks := SortedKeys(s);
    var ks' := ks + [key];
    assert StrictlyIncreasing(ks') by {
      forall i, j | 0 <= i < j < |ks'| ensures ks'[i] < ks'[j] {
        assert ks'[i] == ks[i];
        assert ks[i] in ks;
        if j < |ks| {
          assert ks'[j] == ks[j];
        }
      }
    }
    forall x ensures x in ks' <==> x in s + {key} {
      if x in ks' && x != key {
        var i :| 0 <= i < |ks'| && ks'[i] == x;
        assert ks[i] in ks;
      }
      if x in s {
        assert x in ks;
        var i :| 0 <= i < |ks| && ks[i] == x;
        assert ks'[i] == x;
      }
    }
    SortedKeysUnique(s + {key}, ks');
  }

  /** When `key` is the largest key of `d`, the sorted keys are the smaller ones followed
      by `key`. */
  lemma SortedKeysLargestLast(d: ChunkDict, key: int)
    requires forall k | k in d :: k <= key
    requires key in d
    ensures var ks := SortedKeys(d.Keys);
      && |ks| > 0 && ks == ks[..|ks| - 1] + [key]
      && forall i | 0 <= i < |ks| - 1 :: ks[i] in d && ks[i] != key
  {
    var ks := SortedKeys(d.Keys);
    forall i | 0 <= i < |ks| ensures ks[i] <= key && ks[i] in d {
      assert ks[i] in ks;
    }
    LastOfSortedIsMax(ks, key);
  }

  lemma FlattenSaveLast(ks: seq<int>, d: ChunkDict, c: LogChunk)
    requires c.line01Idx in d
    requires |ks| > 0 && ks[|ks| - 1] == c.line01Idx
    requires forall i | 0 <= i < |ks| - 1 :: ks[i] in d && ks[i] != c.line01Idx
    ensures Flatten(ks, SaveInto(d, c)) == Flatten(ks, d) + [c]
  {
    var key := c.line01Idx;
    var init := ks[..|ks| - 1];
    assert ks == init + [key];
    forall i | 0 <= i < |init| ensures init[i] in d && init[i] != key {
      assert init[i] == ks[i];
    }
    FlattenSnoc(init, key, SaveInto(d, c));
    FlattenSnoc(init, key, d);
    FlattenSaveOther(init, d, c);
  }

  lemma SaveKeepsKeys(d: ChunkDict, c: LogChunk)
    requires c.line01Idx in d
    ensures SaveInto(d, c).Keys == d.Keys
  {
  }

  lemma SaveLastExistingKey(d: ChunkDict, c: LogChunk)
    requires forall k | k in d :: k <= c.line01Idx
    requires c.line01Idx in d
    ensures LogChunks(SaveInto(d, c)) == LogChunks(d) + [c]
  {
    var d' := SaveInto(d, c);
    var ks := SortedKeys(d.Keys);
    SortedKeysLargestLast(d, c.line01Idx);
    SaveKeepsKeys(d, c);
    assert SortedKeys(d'.Keys) == ks;
    FlattenSaveLast(ks, d, c);
    assert LogChunks(d') == Flatten(ks, d');
    assert LogChunks(d) == Flatten(ks, d);
  }

  lemma SortedKeysAfterNewSave(d: ChunkDict, c: LogChunk)
    requires forall k | k in d :: k <= c.line01Idx
    requires c.line01Idx !in d
    ensures SortedKeys(SaveInto(d, c).Keys) == SortedKeys(d.Keys) + [c.line01Idx]
  {
    assert SaveInto(d, c).Keys == d.Keys + {c.line01Idx};
    SortedKeysOfLarger(d.Keys, c.line01Idx);
  }

  lemma SortedKeysInMap(d: ChunkDict, key: int)
    requires key !in d
    ensures forall i | 0 <= i < |SortedKeys(d.Keys)| :: SortedKeys(d.Keys)[i] in d && SortedKeys(d.Keys)[i] != key
  {
    var ks := SortedKeys(d.Keys);
    forall i | 0 <= i < |ks| ensures ks[i] in d && ks[i] != key {
      assert ks[i] in ks;
    }
  }

  lemma FlattenSnoc(keys: seq<int>, k: int, d: ChunkDict)
    ensures Flatten(keys + [k], d) == Flatten(keys, d) + (if k in d then d[k] else [])
  {
    assert (keys + [k])[..|keys|] == keys;
  }

  lemma {:induction false} SaveLastNewKey(d: ChunkDict, c: LogChunk)
    requires forall k | k in d :: k <= c.line01Idx
    requires c.line01Idx !in d
    ensures LogChunks(SaveInto(d, c)) == LogChunks(d) + [c]
  {
    var d' := SaveInto(d, c);
    var ks := SortedKeys(d.Keys);
    var ks' := ks + [c.line01Idx];
    calc {
      LogChunks(d');
      Flatten(SortedKeys(d'.Keys), d');
      { SortedKeysAfterNewSave(d, c); }
      Flatten(ks + [c.line01Idx], d');
      { FlattenSnoc(ks, c.line01Idx, d'); }
      Flatten(ks, d') + [c];
      { SortedKeysInMap(d, c.line01Idx);
        FlattenSaveOther(ks, d, c); }
      Flatten(ks, d) + [c];
    }
  }

  /** Saving a chunk whose zone-change index is at least every key so far appends it at
      the end of the `LogChunks` view. */
  lemma LogChunksSaveLast(d: ChunkDict, c: LogChunk)
    requires forall k | k in d :: k <= c.line01Idx
    ensures LogChunks(SaveInto(d, c)) == LogChunks(d) + [c]
  {
    if c.line01Idx in d {
      SaveLastExistingKey(d, c);
    } else {
      SaveLastNewKey(d, c);
    }
  }

  /** The last of chunks saved in key order lands at the end of the `LogChunks` view. */
  lemma SaveLastOfSorted(saved: seq<LogChunk>)
    requires ZoneKeysSorted(saved) && saved != []
    ensures LogChunks(SaveAll(map[], saved)) == LogChunks(SaveAll(map[], saved[..|saved| - 1])) + [saved[|saved| - 1]]
  {
    var init := saved[..|saved| - 1];
    var c := saved[|saved| - 1];
    forall i | 0 <= i < |init| ensures init[i].line01Idx <= c.line01Idx {
      assert init[i] == saved[i];
    }
    SaveAllKeysBounded(init, c.line01Idx);
    LogChunksSaveLast(SaveAll(map[], init), c);
  }

  /** When chunks are saved in order of their zone-change index, the `LogChunks` view of
      the dictionary is exactly the order they were saved in. */
  lemma {:induction false} LogChunksOfSaveAll(saved: seq<LogChunk>)
    requires ZoneKeysSorted(saved)
    ensures LogChunks(SaveAll(map[], saved)) == saved
  {
    if saved != [] {
      var init := saved[..|saved| - 1];
      assert ZoneKeysSorted(init);
      LogChunksOfSaveAll(init);
      SaveLastOfSorted(saved);
      assert init + [saved[|saved| - 1]] == saved;
    }
  }

  /** `ValidateChunkContinuity`'s condition with `prevEnd` starting at `from - 1`: each
      chunk starts right after the previous one ends (versions/v2.1.cs:794-806). */
  predicate Contiguous(cs: seq<LogChunk>, from: int) {
    && (|cs| > 0 ==> cs[0].startLineIdx == from)
    && forall k | 0 < k < |cs| :: cs[k].startLineIdx == cs[k - 1].endLineIdx + 1
  }

  predicate NoNegativeRanges(cs: seq<LogChunk>) {
    forall k | 0 <= k < |cs| :: cs[k].endLineIdx >= cs[k].startLineIdx - 1
  }

  /** The chunks cover the line indices 0 .. n-1 back to back. */
  predicate Tiles(cs: seq<LogChunk>, n: int) {
    && Contiguous(cs, 0)
    && NoNegativeRanges(cs)
    && (if cs == [] then n == 0 else cs[|cs| - 1].endLineIdx == n - 1)
  }

  lemma {:induction false} TilesOrdered(cs: seq<LogChunk>, i: int, j: int)
    requires Contiguous(cs, 0) && NoNegativeRanges(cs)
    requires 0 <= i < j < |cs|
    ensures cs[i].endLineIdx < cs[j].startLineIdx
    decreases j - i
  {
    if j > i + 1 {
      TilesOrdered(cs, i, j - 1);
    }
  }

  /** Some chunk of `cs` holds line `j`. */
  predicate Covered(cs: seq<LogChunk>, j: int) {
    exists k | 0 <= k < |cs| :: cs[k].Owns(j)
  }

  lemma {:induction false} TilesCover(cs: seq<LogChunk>, n: int, j: int)
    requires Tiles(cs, n)
    requires 0 <= j < n
    ensures Covered(cs, j)
    decreases |cs|
  {
    var last := cs[|cs| - 1];
    if last.Owns(j) {
      assert cs[|cs| - 1].Owns(j);
    } else {
      assert cs[0].startLineIdx == 0;
      var init := cs[..|cs| - 1];
      assert |cs| > 1;
      assert init[|init| - 1].endLineIdx == last.startLineIdx - 1;
      TilesCover(init, last.startLineIdx, j);
      var k :| 0 <= k < |init| && init[k].Owns(j);
      assert cs[k].Owns(j);
    }
  }

  /** Chunks that tile 0 .. n-1 partition it: every line index belongs to exactly one chunk. */
  lemma TilesPartition(cs: seq<LogChunk>, n: int)
    requires Tiles(cs, n)
    ensures forall j | 0 <= j < n :: Covered(cs, j)
    ensures forall j, k1, k2 | 0 <= k1 < |cs| && 0 <= k2 < |cs| && cs[k1].Owns(j) && cs[k2].Owns(j) :: k1 == k2
  {
    forall j | 0 <= j < n ensures Covered(cs, j) {
      TilesCover(cs, n, j);
    }
    forall j, k1, k2 | 0 <= k1 < |cs| && 0 <= k2 < |cs| && cs[k1].Owns(j) && cs[k2].Owns(j) ensures k1 == k2 {
      if k1 < k2 {
        TilesOrdered(cs, k1, k2);
      } else if k2 < k1 {
        TilesOrdered(cs, k2, k1);
      }
    }
  }
}
