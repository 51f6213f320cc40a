/** What v2.1's separation guarantees about the chunks it saves: they tile the file, they
    come out of the dictionary in saving order, their counters count the lines they hold,
    and a chunk marked won holds the line that won it. */
module SegmentV21Facts {
  import opened Wrappers
  import opened Text
  import opened Patterns
  import opened ChunksV21
  import opened SegmentV21

  /** How many of the lines `a .. b-1` satisfy `p`. */
  function CountLines(lines: seq<string>, a: int, b: int, p: string -> bool): nat
    decreases b - a
  {
    if b <= a then 0
    else CountLines(lines, a, b - 1, p) + (if 0 <= b - 1 < |lines| && p(lines[b - 1]) then 1 else 0)
  }

  /** Some line among `a .. b-1` wins the fight. */
  predicate HasVictory(lines: seq<string>, a: int, b: int, doorBoss: bool) {
    exists j | a <= j < b && 0 <= j < |lines| :: IsVictory(lines[j], doorBoss)
  }

  /** The counters of `c`, while it is open up to line `upto`, count its lines. */
  predicate CountsMatch(lines: seq<string>, c: LogChunk, upto: int) {
    && c.totalDeathCount == CountLines(lines, c.startLineIdx, upto, IsPlayerDeath)
    && c.totalDmgDownCount == CountLines(lines, c.startLineIdx, upto, IsDamageDown)
    && c.selfDeathCount <= c.totalDeathCount
    && c.selfDmgDownCount <= c.totalDmgDownCount
  }

  /** A saved chunk's counters count exactly the lines it covers. */
  predicate ChunkCountsMatch(lines: seq<string>, c: LogChunk) {
    CountsMatch(lines, c, c.endLineIdx + 1)
  }

  /** A saved chunk marked won covers a victory line. */
  predicate WinWitnessed(lines: seq<string>, c: LogChunk, doorBoss: bool) {
    c.win ==> HasVictory(lines, c.startLineIdx, c.endLineIdx + 1, doorBoss)
  }

  function NextStart(saved: seq<LogChunk>): int {
    if saved == [] then 0 else saved[|saved| - 1].endLineIdx + 1
  }

  /** The shape of the loop state before line `k`: saved chunks back to back from line 0,
      the open chunk right after them, zone keys never decreasing. */
  predicate TilingInv(s: Scan, k: int) {
    && Contiguous(s.saved, 0)
    && NoNegativeRanges(s.saved)
    && s.chunk.startLineIdx == NextStart(s.saved)
    && 0 <= s.chunk.startLineIdx <= k
    && ZoneKeysSorted(s.saved)
    && (forall j | 0 <= j < |s.saved| :: s.saved[j].line01Idx <= s.chunk.line01Idx)
    && s.chunk.line01Idx == s.line01Idx
    && 0 <= s.line01Idx <= k
  }

  predicate CountInv(lines: seq<string>, s: Scan, k: int) {
    && (forall j | 0 <= j < |s.saved| :: ChunkCountsMatch(lines, s.saved[j]))
    && CountsMatch(lines, s.chunk, k)
  }

  predicate WinInv(lines: seq<string>, s: Scan, k: int, doorBoss: bool) {
    && (forall j | 0 <= j < |s.saved| :: WinWitnessed(lines, s.saved[j], doorBoss))
    && (s.win ==> HasVictory(lines, s.chunk.startLineIdx, k, doorBoss))
  }

  predicate Inv(lines: seq<string>, s: Scan, k: int, doorBoss: bool) {
    TilingInv(s, k) && CountInv(lines, s, k) && WinInv(lines, s, k, doorBoss)
  }

  lemma CountLinesStep(lines: seq<string>, a: int, b: int, p: string -> bool)
    requires a <= b
    ensures CountLines(lines, a, b + 1, p) == CountLines(lines, a, b, p) + (if 0 <= b < |lines| && p(lines[b]) then 1 else 0)
  {
  }

  lemma HasVictoryGrow(lines: seq<string>, a: int, b: int, b': int, doorBoss: bool)
    requires b <= b' && HasVictory(lines, a, b, doorBoss)
    ensures HasVictory(lines, a, b', doorBoss)
  {
    var j :| a <= j < b && 0 <= j < |lines| && IsVictory(lines[j], doorBoss);
    assert a <= j < b';
  }

  /** Lines of another kind neither count nor win. */
  lemma KindExcludes(line: string, doorBoss: bool)
    ensures KindOf(line) != Death ==> !IsPlayerDeath(line)
    ensures KindOf(line) != DamageDown ==> !IsDamageDown(line)
    ensures KindOf(line) != Director && KindOf(line) != LimitBreakClear ==> !IsVictory(line, doorBoss)
  {
    CountedHasPrefix(line, doorBoss);
    if IsPlayerDeath(line) {
      assert line[..3] == "25|";
    }
    if IsDamageDown(line) {
      assert line[..3] == "26|";
    }
    if IsVictory(line, doorBoss) {
      assert line[..3] == "33|" || line[..3] == "41|";
    }
  }

  /** Only a `25|` line can be a death, only a `26|` line a damage-down, and only a
      `33|` or `41|` line a victory. */
  lemma CountedHasPrefix(line: string, doorBoss: bool)
    ensures IsPlayerDeath(line) ==> StartsWith(line, "25|")
    ensures IsDamageDown(line) ==> StartsWith(line, "26|")
    ensures IsVictory(line, doorBoss) ==> StartsWith(line, "33|") || StartsWith(line, "41|")
  {
  }

  /** A step that keeps the open chunk's range and key keeps the shape. */
  lemma TilingKeep(s: Scan, s': Scan, i: nat)
    requires TilingInv(s, i)
    requires s'.saved == s.saved && s'.line01Idx == s.line01Idx
    requires s'.chunk.startLineIdx == s.chunk.startLineIdx && s'.chunk.line01Idx == s.chunk.line01Idx
    ensures TilingInv(s', i + 1)
  {
  }

  /** A step that closes the open chunk at `e` (the line before or the line itself) and
      opens the next one right after keeps the shape. */
  lemma TilingCut(s: Scan, s': Scan, i: nat, e: int)
    requires TilingInv(s, i)
    requires e == i - 1 || e == i
    requires |s'.saved| == |s.saved| + 1 && s'.saved[..|s.saved|] == s.saved
    requires s'.saved[|s.saved|].startLineIdx == s.chunk.startLineIdx
    requires s'.saved[|s.saved|].line01Idx == s.chunk.line01Idx
    requires s'.saved[|s.saved|].endLineIdx == e
    requires s'.chunk.startLineIdx == e + 1
    requires s'.chunk.line01Idx == s'.line01Idx && s.line01Idx <= s'.line01Idx <= i
    ensures TilingInv(s', i + 1)
  {
    var n := |s.saved|;
    assert Contiguous(s'.saved, 0) by {
      forall k | 0 < k < |s'.saved| ensures s'.saved[k].startLineIdx == s'.saved[k - 1].endLineIdx + 1 {
        if k < n {
          assert s'.saved[k] == s.saved[k] && s'.saved[k - 1] == s.saved[k - 1];
        }
      }
      if n == 0 {
        assert s'.saved[0].startLineIdx == 0;
      } else {
        assert s'.saved[0] == s.saved[0];
      }
    }
    assert NoNegativeRanges(s'.saved) by {
      forall k | 0 <= k < |s'.saved| ensures s'.saved[k].endLineIdx >= s'.saved[k].startLineIdx - 1 {
        if k < n {
          assert s'.saved[k] == s.saved[k];
        }
      }
    }
    assert ZoneKeysSorted(s'.saved) by {
      forall a, b | 0 <= a < b < |s'.saved| ensures s'.saved[a].line01Idx <= s'.saved[b].line01Idx {
        assert s'.saved[a] == s.saved[a];
        if b < n {
          assert s'.saved[b] == s.saved[b];
        }
      }
    }
    forall j | 0 <= j < |s'.saved| ensures s'.saved[j].line01Idx <= s'.chunk.line01Idx {
      if j < n {
        assert s'.saved[j] == s.saved[j];
      }
    }
  }

  /** A step that closes the open chunk at `e` keeps the counters right, provided line
      `i` is neither a death nor a damage-down. */
  lemma CountsCut(lines: seq<string>, s: Scan, s': Scan, i: nat, e: int)
    requires 0 <= s.chunk.startLineIdx <= i < |lines|
    requires CountInv(lines, s, i)
    requires !IsPlayerDeath(lines[i]) && !IsDamageDown(lines[i])
    requires e == i - 1 || e == i
    requires |s'.saved| == |s.saved| + 1 && s'.saved[..|s.saved|] == s.saved
    requires var c := s'.saved[|s.saved|];
      && c.startLineIdx == s.chunk.startLineIdx && c.endLineIdx == e
      && c.totalDeathCount == s.chunk.totalDeathCount && c.selfDeathCount == s.chunk.selfDeathCount
      && c.totalDmgDownCount == s.chunk.totalDmgDownCount && c.selfDmgDownCount == s.chunk.selfDmgDownCount
    requires s'.chunk.startLineIdx == e + 1
    requires s'.chunk.totalDeathCount == 0 && s'.chunk.selfDeathCount == 0
    requires s'.chunk.totalDmgDownCount == 0 && s'.chunk.selfDmgDownCount == 0
    ensures CountInv(lines, s', i + 1)
  {
    var n := |s.saved|;
    var start := s.chunk.startLineIdx;
    CountLinesStep(lines, start, i, IsPlayerDeath);
    CountLinesStep(lines, start, i, IsDamageDown);
    CountLinesStep(lines, i, i, IsPlayerDeath);
    CountLinesStep(lines, i, i, IsDamageDown);
    forall j | 0 <= j < |s'.saved| ensures ChunkCountsMatch(lines, s'.saved[j]) {
      if j < n {
        assert s'.saved[j] == s.saved[j];
      }
    }
  }

  /** A step that keeps the open chunk counts line `i` into it. */
  lemma CountsKeep(lines: seq<string>, s: Scan, s': Scan, i: nat)
    requires 0 <= s.chunk.startLineIdx <= i < |lines|
    requires CountInv(lines, s, i)
    requires s'.saved == s.saved && s'.chunk.startLineIdx == s.chunk.startLineIdx
    requires s'.chunk.totalDeathCount == s.chunk.totalDeathCount + (if IsPlayerDeath(lines[i]) then 1 else 0)
    requires s'.chunk.totalDmgDownCount == s.chunk.totalDmgDownCount + (if IsDamageDown(lines[i]) then 1 else 0)
    requires s'.chunk.selfDeathCount <= s'.chunk.totalDeathCount
    requires s'.chunk.selfDmgDownCount <= s'.chunk.totalDmgDownCount
    ensures CountInv(lines, s', i + 1)
  {
    CountLinesStep(lines, s.chunk.startLineIdx, i, IsPlayerDeath);
    CountLinesStep(lines, s.chunk.startLineIdx, i, IsDamageDown);
  }

  lemma WinCut(lines: seq<string>, s: Scan, s': Scan, i: nat, e: int, doorBoss: bool)
    requires 0 <= s.chunk.startLineIdx <= i < |lines|
    requires WinInv(lines, s, i, doorBoss)
    requires e == i - 1 || e == i
    requires |s'.saved| == |s.saved| + 1 && s'.saved[..|s.saved|] == s.saved
    requires var c := s'.saved[|s.saved|];
      && c.startLineIdx == s.chunk.startLineIdx && c.endLineIdx == e
      && (c.win ==> s.win || (e == i && IsVictory(lines[i], doorBoss)))
    requires !s'.win
    ensures WinInv(lines, s', i + 1, doorBoss)
  {
    var n := |s.saved|;
    var c := s'.saved[n];
    if c.win {
      if s.win {
        HasVictoryGrow(lines, c.startLineIdx, i, e + 1, doorBoss);
      } else {
        assert i <= e;
      }
    }
    forall j | 0 <= j < |s'.saved| ensures WinWitnessed(lines, s'.saved[j], doorBoss) {
      if j < n {
        assert s'.saved[j] == s.saved[j];
      }
    }
  }

  lemma {:induction false} CountLinesNone(lines: seq<string>, a: int, b: int, p: string -> bool)
    requires forall j | a <= j < b && 0 <= j < |lines| :: !p(lines[j])
    ensures CountLines(lines, a, b, p) == 0
    decreases b - a
  {
    if a < b {
      CountLinesNone(lines, a, b - 1, p);
    }
  }

  /** Blank lines and the version line hold no deaths and no damage-downs. */
  predicate QuietBefore(lines: seq<string>, h: nat) {
    forall j | 0 <= j < h && j < |lines| :: !StartsWith(lines[j], "25|") && !StartsWith(lines[j], "26|")
  }

  lemma InitInv(lines: seq<string>, h: nat, doorBoss: bool)
    requires h <= |lines| && QuietBefore(lines, h)
    ensures Inv(lines, InitScan(), h, doorBoss)
  {
    forall j | 0 <= j < h && 0 <= j < |lines| ensures !IsPlayerDeath(lines[j]) && !IsDamageDown(lines[j]) {
      CountedHasPrefix(lines[j], doorBoss);
    }
    CountLinesNone(lines, 0, h, IsPlayerDeath);
    CountLinesNone(lines, 0, h, IsDamageDown);
  }

  /** A step that leaves the saved chunks and the open chunk's range alone, and counts
      line `i` into the open chunk. */
  lemma KeepInv(lines: seq<string>, s: Scan, s': Scan, i: nat, doorBoss: bool)
    requires i < |lines| && Inv(lines, s, i, doorBoss)
    requires s'.saved == s.saved && s'.line01Idx == s.line01Idx
    requires s'.chunk.startLineIdx == s.chunk.startLineIdx && s'.chunk.line01Idx == s.chunk.line01Idx
    requires s'.chunk.totalDeathCount == s.chunk.totalDeathCount + (if IsPlayerDeath(lines[i]) then 1 else 0)
    requires s'.chunk.totalDmgDownCount == s.chunk.totalDmgDownCount + (if IsDamageDown(lines[i]) then 1 else 0)
    requires s'.chunk.selfDeathCount <= s'.chunk.totalDeathCount
    requires s'.chunk.selfDmgDownCount <= s'.chunk.totalDmgDownCount
    requires s'.win ==> s.win || IsVictory(lines[i], doorBoss)
    ensures Inv(lines, s', i + 1, doorBoss)
  {
    TilingKeep(s, s', i);
    CountsKeep(lines, s, s', i);
    if s'.win {
      if s.win {
        HasVictoryGrow(lines, s.chunk.startLineIdx, i, i + 1, doorBoss);
      } else {
        assert s.chunk.startLineIdx <= i < i + 1;
      }
    }
  }

  /** A step that closes the open chunk at `e` and opens the next one right after. */
  lemma CutInv(lines: seq<string>, s: Scan, s': Scan, i: nat, e: int, doorBoss: bool)
    requires i < |lines| && Inv(lines, s, i, doorBoss)
    requires !IsPlayerDeath(lines[i]) && !IsDamageDown(lines[i])
    requires e == i - 1 || e == i
    requires |s'.saved| == |s.saved| + 1 && s'.saved[..|s.saved|] == s.saved
    requires var c := s'.saved[|s.saved|];
      && c.startLineIdx == s.chunk.startLineIdx && c.endLineIdx == e
      && c.line01Idx == s.chunk.line01Idx
      && c.totalDeathCount == s.chunk.totalDeathCount && c.selfDeathCount == s.chunk.selfDeathCount
      && c.totalDmgDownCount == s.chunk.totalDmgDownCount && c.selfDmgDownCount == s.chunk.selfDmgDownCount
      && (c.win ==> s.win || (e == i && IsVictory(lines[i], doorBoss)))
    requires s'.chunk.startLineIdx == e + 1
    requires s'.chunk.line01Idx == s'.line01Idx && s.line01Idx <= s'.line01Idx <= i
    requires s'.chunk.totalDeathCount == 0 && s'.chunk.selfDeathCount == 0
    requires s'.chunk.totalDmgDownCount == 0 && s'.chunk.selfDmgDownCount == 0
    requires !s'.win
    ensures Inv(lines, s', i + 1, doorBoss)
  {
    TilingCut(s, s', i, e);
    CountsCut(lines, s, s', i, e);
    WinCut(lines, s, s', i, e, doorBoss);
  }

  lemma ZoneInv(lines: seq<string>, s: Scan, i: nat, doorBoss: bool, parse: string -> int)
    requires i < |lines| && Inv(lines, s, i, doorBoss)
    requires KindOf(lines[i]) == ZoneChange && Step(s, lines[i], i, doorBoss, parse).Ok?
    ensures Inv(lines, Step(s, lines[i], i, doorBoss, parse).value, i + 1, doorBoss)
  {
    KindExcludes(lines[i], doorBoss);
    CutInv(lines, s, OnZone(s, lines[i], i).value, i, i - 1, doorBoss);
  }

  lemma DirectorInv(lines: seq<string>, s: Scan, i: nat, doorBoss: bool, parse: string -> int)
    requires i < |lines| && Inv(lines, s, i, doorBoss)
    requires KindOf(lines[i]) == Director && Step(s, lines[i], i, doorBoss, parse).Ok?
    ensures Inv(lines, Step(s, lines[i], i, doorBoss, parse).value, i + 1, doorBoss)
  {
    KindExcludes(lines[i], doorBoss);
    var s' := OnDirector(s, lines[i], i, parse).value;
    if DirectorType8(lines[i]) == Some("40000011") {
      CutInv(lines, s, s', i, i, doorBoss);
    } else {
      KeepInv(lines, s, s', i, doorBoss);
    }
  }

  lemma ClearLBInv(lines: seq<string>, s: Scan, i: nat, doorBoss: bool, parse: string -> int)
    requires i < |lines| && Inv(lines, s, i, doorBoss)
    requires KindOf(lines[i]) == LimitBreakClear && Step(s, lines[i], i, doorBoss, parse).Ok?
    ensures Inv(lines, Step(s, lines[i], i, doorBoss, parse).value, i + 1, doorBoss)
  {
    KindExcludes(lines[i], doorBoss);
    var s' := OnClearLB(s, lines[i], i, doorBoss, parse);
    if doorBoss && ClearLB(lines[i]) {
      CutInv(lines, s, s', i, i, doorBoss);
    } else {
      KeepInv(lines, s, s', i, doorBoss);
    }
  }

  lemma DeathInv(lines: seq<string>, s: Scan, i: nat, doorBoss: bool, parse: string -> int)
    requires i < |lines| && Inv(lines, s, i, doorBoss)
    requires KindOf(lines[i]) == Death && Step(s, lines[i], i, doorBoss, parse).Ok?
    ensures Inv(lines, Step(s, lines[i], i, doorBoss, parse).value, i + 1, doorBoss)
  {
    KindExcludes(lines[i], doorBoss);
    KeepInv(lines, s, OnDeath(s, lines[i], i).value, i, doorBoss);
  }

  lemma DamageDownInv(lines: seq<string>, s: Scan, i: nat, doorBoss: bool, parse: string -> int)
    requires i < |lines| && Inv(lines, s, i, doorBoss)
    requires KindOf(lines[i]) == DamageDown && Step(s, lines[i], i, doorBoss, parse).Ok?
    ensures Inv(lines, Step(s, lines[i], i, doorBoss, parse).value, i + 1, doorBoss)
  {
    KindExcludes(lines[i], doorBoss);
    KeepInv(lines, s, OnDamageDown(s, lines[i]), i, doorBoss);
  }

  /** Every other line changes neither the saved chunks, the open chunk's range and
      counters, nor the outcome. */
  lemma QuietInv(lines: seq<string>, s: Scan, i: nat, doorBoss: bool, parse: string -> int)
    requires i < |lines| && Inv(lines, s, i, doorBoss)
    requires KindOf(lines[i]) in {Player, OverlayStart, Attack, OtherLine}
    requires Step(s, lines[i], i, doorBoss, parse).Ok?
    ensures Inv(lines, Step(s, lines[i], i, doorBoss, parse).value, i + 1, doorBoss)
  {
    QuietStepKeeps(s, lines[i], i, doorBoss, parse);
    KindExcludes(lines[i], doorBoss);
    KeepInv(lines, s, Step(s, lines[i], i, doorBoss, parse).value, i, doorBoss);
  }

  /** A player line, an overlay start, an attack or any other line changes neither the
      saved chunks, nor the outcome, nor the open chunk's range and counters. */
  lemma QuietStepKeeps(s: Scan, line: string, i: nat, doorBoss: bool, parse: string -> int)
    requires KindOf(line) in {Player, OverlayStart, Attack, OtherLine}
    requires Step(s, line, i, doorBoss, parse).Ok?
    ensures var s' := Step(s, line, i, doorBoss, parse).value;
      && s'.saved == s.saved && s'.line01Idx == s.line01Idx && s'.win == s.win
      && s'.chunk == s.chunk.(startTimeOverlay := s'.chunk.startTimeOverlay, startTimeACT := s'.chunk.startTimeACT)
  {
  }

  lemma StepKeepsInv(lines: seq<string>, s: Scan, i: nat, doorBoss: bool, parse: string -> int)
    requires i < |lines| && Inv(lines, s, i, doorBoss)
    requires Step(s, lines[i], i, doorBoss, parse).Ok?
    ensures Inv(lines, Step(s, lines[i], i, doorBoss, parse).value, i + 1, doorBoss)
  {
    var kind := KindOf(lines[i]);
    if kind == ZoneChange {
      ZoneInv(lines, s, i, doorBoss, parse);
    } else if kind == Director {
      DirectorInv(lines, s, i, doorBoss, parse);
    } else if kind == LimitBreakClear {
      ClearLBInv(lines, s, i, doorBoss, parse);
    } else if kind == Death {
      DeathInv(lines, s, i, doorBoss, parse);
    } else if kind == DamageDown {
      DamageDownInv(lines, s, i, doorBoss, parse);
    } else {
      QuietInv(lines, s, i, doorBoss, parse);
    }
  }

  lemma {:induction false} RunKeepsInv(lines: seq<string>, h: nat, k: nat, doorBoss: bool, parse: string -> int)
    requires h <= k <= |lines|
    requires QuietBefore(lines, h)
    ensures RunFrom(lines, h, k, doorBoss, parse).failure.None? ==>
      Inv(lines, RunFrom(lines, h, k, doorBoss, parse).scan, k, doorBoss)
    decreases k
  {
    if k == h {
      InitInv(lines, h, doorBoss);
    } else {
      RunKeepsInv(lines, h, k - 1, doorBoss, parse);
      var p := RunFrom(lines, h, k - 1, doorBoss, parse);
      if p.failure.None? {
        var r := Step(p.scan, lines[k - 1], k - 1, doorBoss, parse);
        if r.Ok? {
          StepKeepsInv(lines, p.scan, k - 1, doorBoss, parse);
          assert RunFrom(lines, h, k, doorBoss, parse).scan == r.value;
        }
      }
    }
  }

  lemma HeaderQuiet(lines: seq<string>)
    requires FirstNonBlank(lines, 0) < |lines| && StartsWith(lines[FirstNonBlank(lines, 0)], "253|")
    ensures QuietBefore(lines, FirstNonBlank(lines, 0) + 1)
  {
    var f := FirstNonBlank(lines, 0);
    forall j | 0 <= j < f + 1 && j < |lines| ensures !StartsWith(lines[j], "25|") && !StartsWith(lines[j], "26|") {
      var line := lines[j];
      if j < f {
        assert IsBlank(line);
        if |line| > 0 {
          assert IsWhiteSpace(line[0]);
        }
      } else {
        assert line[..4] == "253|";
        assert line[2] == '3';
      }
    }
  }

  /** Closing the last open chunk at the last line completes the tiling, and the
      closed chunk keeps its counters and its victory witness. */
  lemma CloseLast(lines: seq<string>, s: Scan, endTime: int, doorBoss: bool)
    requires Inv(lines, s, |lines|, doorBoss)
    requires s.chunk.startLineIdx < |lines|
    ensures var cs := s.saved + [Closed(s.(endTime := endTime), |lines| - 1)];
      && Tiles(cs, |lines|)
      && ZoneKeysSorted(cs)
      && (forall j | 0 <= j < |cs| :: ChunkCountsMatch(lines, cs[j]))
      && (forall j | 0 <= j < |cs| :: WinWitnessed(lines, cs[j], doorBoss))
  {
    var n := |s.saved|;
    var cs := s.saved + [Closed(s.(endTime := endTime), |lines| - 1)];
    assert Contiguous(cs, 0) by {
      forall k | 0 < k < |cs| ensures cs[k].startLineIdx == cs[k - 1].endLineIdx + 1 {
        if k < n {
          assert cs[k] == s.saved[k] && cs[k - 1] == s.saved[k - 1];
        }
      }
      if n > 0 {
        assert cs[0] == s.saved[0];
      }
    }
    forall k | 0 <= k < |cs| ensures cs[k].endLineIdx >= cs[k].startLineIdx - 1 {
      if k < n {
        assert cs[k] == s.saved[k];
      }
    }
    assert ZoneKeysSorted(cs) by {
      forall a, b | 0 <= a < b < |cs| ensures cs[a].line01Idx <= cs[b].line01Idx {
        assert cs[a] == s.saved[a];
        if b < n {
          assert cs[b] == s.saved[b];
        }
      }
    }
    forall j | 0 <= j < |cs| ensures ChunkCountsMatch(lines, cs[j]) && WinWitnessed(lines, cs[j], doorBoss) {
      if j < n {
        assert cs[j] == s.saved[j];
      }
    }
  }

  /** When the open chunk is empty at the end, the saved chunks already tile the file. */
  lemma NothingLeftOpen(lines: seq<string>, s: Scan, doorBoss: bool)
    requires Inv(lines, s, |lines|, doorBoss)
    requires s.chunk.startLineIdx >= |lines|
    ensures Tiles(s.saved, |lines|)
  {
  }

  /** The chunks saved once the loop is over: the open chunk is closed at the last line
      when it holds one, with the time of the last line when it has no outcome yet. */
  function FinalChunks(s: Scan, lines: seq<string>, parse: string -> int): seq<LogChunk> {
    if s.chunk.startLineIdx >= |lines| || |lines| == 0 then s.saved
    else s.saved + [Closed(s.(endTime := if s.endTime != 0 then s.endTime else parse(lines[|lines| - 1])), |lines| - 1)]
  }

  /** A separation that succeeds got past the header and through every line, and its
      chunks are the final ones of the loop. */
  lemma SeparationSucceeded(lines: seq<string>, doorBoss: bool, parse: string -> int)
    requires Separation(lines, doorBoss, parse).failure.None?
    ensures var f := FirstNonBlank(lines, 0);
      && f < |lines| && StartsWith(lines[f], "253|")
      && RunFrom(lines, f + 1, |lines|, doorBoss, parse).failure.None?
      && Separation(lines, doorBoss, parse).saved == FinalChunks(RunFrom(lines, f + 1, |lines|, doorBoss, parse).scan, lines, parse)
  {
    var f := FirstNonBlank(lines, 0);
    var s := RunFrom(lines, f + 1, |lines|, doorBoss, parse).scan;
    if s.chunk.startLineIdx < |lines| && s.endTime != 0 {
      assert s.(endTime := s.endTime) == s;
    }
  }

  /** The final chunks tile the file and keep the counters and witnesses of the loop. */
  lemma FinalChunksSound(lines: seq<string>, s: Scan, doorBoss: bool, parse: string -> int)
    requires Inv(lines, s, |lines|, doorBoss)
    ensures var cs := FinalChunks(s, lines, parse);
      && Tiles(cs, |lines|)
      && ZoneKeysSorted(cs)
      && (forall j | 0 <= j < |cs| :: ChunkCountsMatch(lines, cs[j]))
      && (forall j | 0 <= j < |cs| :: WinWitnessed(lines, cs[j], doorBoss))
  {
    if s.chunk.startLineIdx < |lines| {
      CloseLast(lines, s, if s.endTime != 0 then s.endTime else parse(lines[|lines| - 1]), doorBoss);
    } else {
      NothingLeftOpen(lines, s, doorBoss);
    }
  }

  /** A successful separation of v2.1 (versions/v2.1.cs:125-255): the saved chunks cover
      every line of the file, from 0 to the last, back to back and without overlap; they
      come out of `LogChunks` in the order they were saved; each chunk's death and
      damage-down counters count the matching lines it covers and its own player's share
      never exceeds them; and a chunk marked won covers the victory line that set it. */
  lemma SeparationSound(lines: seq<string>, doorBoss: bool, parse: string -> int)
    requires Separation(lines, doorBoss, parse).failure.None?
    ensures var cs := Separation(lines, doorBoss, parse).saved;
      && Tiles(cs, |lines|)
      && LogChunks(SaveAll(map[], cs)) == cs
      && (forall j | 0 <= j < |cs| :: ChunkCountsMatch(lines, cs[j]))
      && (forall j | 0 <= j < |cs| :: WinWitnessed(lines, cs[j], doorBoss))
  {
    SeparationSucceeded(lines, doorBoss, parse);
    var f := FirstNonBlank(lines, 0);
    HeaderQuiet(lines);
    RunKeepsInv(lines, f + 1, |lines|, doorBoss, parse);
    var s := RunFrom(lines, f + 1, |lines|, doorBoss, parse).scan;
    FinalChunksSound(lines, s, doorBoss, parse);
    var cs := FinalChunks(s, lines, parse);
    LogChunksOfSaveAll(cs);
  }
}
