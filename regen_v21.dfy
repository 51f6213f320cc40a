/** v2.1's second pass, `LogSeparatorForm.SaveLogFile` and `ValidateChunkContinuity`
    (versions/v2.1.cs:686-807): the original file is read again from its first line,
    chunk by chunk in `LogChunks` order, and every chunk's lines are written by the rule
    its selection state picks. The form's three "hide" check boxes are the options. */
module RegenV21 {
  import opened Wrappers
  import opened Text
  import opened Patterns
  import opened ChunksV21
  import opened SegmentV21
  import opened SegmentV21Facts
  import opened ReaderV21

  /** `EmptyLinePlaceholder`: what a hidden line becomes. */
  const Placeholder := "00|0|"

  datatype HideOptions = HideOptions(hideChatLog: bool, hideHeadMarkers: bool, hideOverlay: bool)

  /** What ends `SaveLogFile` early; its `catch` shows the message and the file keeps
      what was written before. */
  datatype SaveError =
    | Discontinuous(prevEndLineNo: int, startLineNo: int) // `ValidateChunkContinuity`'s message numbers
    | NullLine      // a line past the end of the file reached a rule that reads it
    | ShortLine     // `Substring` past the end of a line

  /** The four write actions (versions/v2.1.cs:713-766). */
  datatype WriteRule = WriteNothing | KeepZoneInit | AllPlaceholders | Filtered

  /** `FindLastIndex(c => c.IsSelected)`: the last selected chunk of a group, -1 if none. */
  function LastSelected(cs: seq<LogChunk>): (r: int)
    ensures -1 <= r < |cs|
    ensures r >= 0 ==> cs[r].selected
    ensures forall i | r < i < |cs| :: !cs[i].selected
  {
    if cs == [] then -1
    else if cs[|cs| - 1].selected then |cs| - 1
    else LastSelected(cs[..|cs| - 1])
  }

  /** The rule the `if` chain picks for the chunk at index `i` of its group. */
  function RuleFor(i: nat, lastSelectedIdx: int, selected: bool): WriteRule {
    if i > lastSelectedIdx then WriteNothing
    else if i == 0 && !selected then KeepZoneInit
    else if !selected then AllPlaceholders
    else Filtered
  }

  /** The rule of every chunk of a group, in group order. */
  function GroupRules(cs: seq<LogChunk>): (r: seq<WriteRule>)
    ensures |r| == |cs|
  {
    var last := LastSelected(cs);
    seq(|cs|, i requires 0 <= i < |cs| reads {} => RuleFor(i, last, cs[i].selected))
  }

  /** Which rule a chunk gets, said through the selection of its group: nothing is written
      for a chunk when no chunk from it on is selected; a selected chunk is filtered; an
      unselected chunk before a selected one keeps its zone-entry lines when it is the
      first of its group and is all placeholders otherwise. */
  lemma RuleMeaning(cs: seq<LogChunk>, i: int)
    requires 0 <= i < |cs|
    ensures GroupRules(cs)[i] == WriteNothing <==> forall k | i <= k < |cs| :: !cs[k].selected
    ensures GroupRules(cs)[i] == Filtered <==> cs[i].selected
    ensures GroupRules(cs)[i] == KeepZoneInit <==>
      i == 0 && !cs[i].selected && exists k | i < k < |cs| :: cs[k].selected
    ensures GroupRules(cs)[i] == AllPlaceholders <==>
      i > 0 && !cs[i].selected && exists k | i < k < |cs| :: cs[k].selected
  {
    var last := LastSelected(cs);
    if last >= i && !cs[i].selected {
      assert last > i && cs[last].selected;
    }
  }

  /** The rules of the groups named by `keys`, in the order of `Flatten`. */
  function FlattenRules(keys: seq<int>, d: ChunkDict): (r: seq<WriteRule>)
    ensures |r| == |Flatten(keys, d)|
  {
    if keys == [] then []
    else
      var k := keys[|keys| - 1];
      FlattenRules(keys[..|keys| - 1], d) + (if k in d then GroupRules(d[k]) else [])
  }

  /** The rule of every chunk of `LogChunks(d)`. */
  function ChunkRules(d: ChunkDict): (r: seq<WriteRule>)
    ensures |r| == |LogChunks(d)|
  {
    FlattenRules(SortedKeys(d.Keys), d)
  }

  function Repeat(r: WriteRule, n: nat): (s: seq<WriteRule>)
    ensures |s| == n && forall j | 0 <= j < n :: s[j] == r
  {
    seq(n, _ => r)
  }

  /** One rule per line read: chunk `m` reads `LineCount` lines with rule `rs[m]`. */
  function Expand(cs: seq<LogChunk>, rs: seq<WriteRule>): seq<WriteRule>
    requires |rs| == |cs|
  {
    if cs == [] then []
    else Expand(cs[..|cs| - 1], rs[..|rs| - 1]) + Repeat(rs[|rs| - 1], cs[|cs| - 1].LineCount())
  }

  /** The rule for every line `SaveLogFile` reads after the version line it writes. */
  function SavePlan(d: ChunkDict): seq<WriteRule> {
    Expand(LogChunks(d), ChunkRules(d))
  }

  /** The code of the 3-character `switch` labels 256-259, 261-267 and 270-278. */
  const OverlayLabels: seq<string> := [
    "256", "257", "258", "259", "261", "262", "263", "264", "265", "266", "267",
    "270", "271", "272", "273", "274", "275", "276", "277", "278"]

  /** The selected-chunk `switch` (versions/v2.1.cs:731-761): whether the line is kept;
      `Substring` past the end of the line throws. */
  function KeepLine(line: string, opts: HideOptions): Result<bool, SaveError> {
    if |line| < 3 then Err(ShortLine)
    else
      var code := line[..3];
      if code == "00|" then
        if !opts.hideChatLog then Ok(true)
        else if |line| < 41 then Err(ShortLine)
        else Ok(line[37..41] == "0044" || line[37..41] == "0039")
      else if code == "29|" then Ok(!opts.hideHeadMarkers)
      else if code == "251" then Ok(false)
      else if code in OverlayLabels then Ok(!opts.hideOverlay)
      else Ok(true)
  }

  /** The overlay line types the hide-overlay option removes: every type from 256 to 278
      except the combat-state line 260 and the countdown lines 268 and 269. */
  predicate OverlayType(code: string) {
    |code| == 3 && AllDigits(code) && 256 <= DigitsValue(code) <= 278
    && DigitsValue(code) != 260 && DigitsValue(code) != 268 && DigitsValue(code) != 269
  }

  /** The line types a selected chunk hides, stated on the type number. */
  predicate Hidden(line: string, opts: HideOptions)
    requires |line| >= 3
  {
    var code := line[..3];
    || (code == "00|" && opts.hideChatLog && |line| >= 41 && line[37..41] != "0044" && line[37..41] != "0039")
    || (code == "29|" && opts.hideHeadMarkers)
    || code == "251"
    || (OverlayType(code) && opts.hideOverlay)
  }

  lemma DigitsValue3(code: string)
    requires |code| == 3 && AllDigits(code)
    ensures DigitsValue(code) ==
      100 * (code[0] as int - '0' as int) + 10 * (code[1] as int - '0' as int) + (code[2] as int - '0' as int)
  {
    var p2 := code[..2];
    var p1 := p2[..1];
    assert p2 == code[..|code| - 1] && p1 == p2[..|p2| - 1] && p1[..0] == [];
    assert DigitsValue(p1) == code[0] as int - '0' as int;
    assert DigitsValue(p2) == DigitsValue(p1) * 10 + (code[1] as int - '0' as int);
  }

  lemma Labelled25x(code: string)
    requires |code| == 3 && code[0] == '2' && code[1] == '5' && '6' <= code[2] <= '9'
    ensures code in OverlayLabels
  {
    assert code == ['2', '5', code[2]];
    if code[2] == '6' {
      assert code == OverlayLabels[0];
    } else if code[2] == '7' {
      assert code == OverlayLabels[1];
    } else if code[2] == '8' {
      assert code == OverlayLabels[2];
    } else {
      assert code == OverlayLabels[3];
    }
  }

  lemma Labelled26x(code: string)
    requires |code| == 3 && code[0] == '2' && code[1] == '6' && '1' <= code[2] <= '7'
    ensures code in OverlayLabels
  {
    assert code == ['2', '6', code[2]];
    if code[2] == '1' {
      assert code == OverlayLabels[4];
    } else if code[2] == '2' {
      assert code == OverlayLabels[5];
    } else if code[2] == '3' {
      assert code == OverlayLabels[6];
    } else if code[2] == '4' {
      assert code == OverlayLabels[7];
    } else if code[2] == '5' {
      assert code == OverlayLabels[8];
    } else if code[2] == '6' {
      assert code == OverlayLabels[9];
    } else {
      assert code == OverlayLabels[10];
    }
  }

  lemma Labelled27x(code: string)
    requires |code| == 3 && code[0] == '2' && code[1] == '7' && '0' <= code[2] <= '8'
    ensures code in OverlayLabels
  {
    assert code == ['2', '7', code[2]];
    if code[2] == '0' {
      assert code == OverlayLabels[11];
    } else if code[2] == '1' {
      assert code == OverlayLabels[12];
    } else if code[2] == '2' {
      assert code == OverlayLabels[13];
    } else if code[2] == '3' {
      assert code == OverlayLabels[14];
    } else if code[2] == '4' {
      assert code == OverlayLabels[15];
    } else if code[2] == '5' {
      assert code == OverlayLabels[16];
    } else if code[2] == '6' {
      assert code == OverlayLabels[17];
    } else if code[2] == '7' {
      assert code == OverlayLabels[18];
    } else {
      assert code == OverlayLabels[19];
    }
  }

  /** Every overlay line type is one of the `case` labels. */
  lemma OverlayTypeLabelled(code: string)
    requires OverlayType(code)
    ensures code in OverlayLabels
  {
    DigitsValue3(code);
    if code[1] == '5' {
      Labelled25x(code);
    } else if code[1] == '6' {
      Labelled26x(code);
    } else {
      Labelled27x(code);
    }
  }

  /** Every `case` label is an overlay line type. */
  lemma LabelledOverlay(code: string)
    requires code in OverlayLabels
    ensures OverlayType(code)
  {
    var k :| 0 <= k < |OverlayLabels| && OverlayLabels[k] == code;
    assert |code| == 3 && code[0] == '2';
    if k < 4 {
      assert code[1] == '5' && '6' <= code[2] <= '9';
    } else if k < 11 {
      assert code[1] == '6' && '1' <= code[2] <= '7';
    } else {
      assert code[1] == '7' && '0' <= code[2] <= '8';
    }
    assert AllDigits(code);
    DigitsValue3(code);
  }

  /** The twenty `case` labels are exactly the overlay line types. */
  lemma OverlayLabelsExact(code: string)
    requires |code| == 3
    ensures code in OverlayLabels <==> OverlayType(code)
  {
    if code in OverlayLabels {
      LabelledOverlay(code);
    } else if OverlayType(code) {
      OverlayTypeLabelled(code);
    }
  }

  /** A selected chunk keeps exactly the lines that are not hidden, and fails only on a
      line too short for the `Substring` calls its type leads to. */
  lemma KeepLineMeaning(line: string, opts: HideOptions)
    ensures KeepLine(line, opts).Err? <==>
      |line| < 3 || (line[..3] == "00|" && opts.hideChatLog && |line| < 41)
    ensures KeepLine(line, opts).Ok? ==> KeepLine(line, opts).value == !Hidden(line, opts)
  {
    if |line| >= 3 {
      OverlayLabelsExact(line[..3]);
    }
  }

  /** One `writeAction` call on the line `ReadLine` returned (`None` for null): the lines
      it writes. */
  function WriteLine(rule: WriteRule, line: Option<string>, opts: HideOptions): (r: Result<seq<string>, SaveError>)
    ensures r.Ok? ==> |r.value| == if rule == WriteNothing then 0 else 1
    ensures r.Err? <==>
      || (line.None? && (rule == KeepZoneInit || rule == Filtered))
      || (line.Some? && rule == Filtered && KeepLine(line.value, opts).Err?)
  {
    match rule
    case WriteNothing => Ok([])
    case AllPlaceholders => Ok([Placeholder])
    case KeepZoneInit =>
      if line.None? then Err(NullLine)
      else Ok([if ZoneInitEssential(line.value) then line.value else Placeholder])
    case Filtered =>
      if line.None? then Err(NullLine)
      else match KeepLine(line.value, opts)
        case Ok(keep) => Ok([if keep then line.value else Placeholder])
        case Err(e) => Err(e)
  }

  /** `StreamReader.ReadLine` at the `j`-th call: the file's line, null past its end. */
  function LineAt(file: seq<string>, j: nat): Option<string> {
    if j < |file| then Some(file[j]) else None
  }

  /** What the writer holds after the reads governed by `rules`, and the exception that
      stopped it, if any. Read `j` gets line `j` of the file. */
  datatype Written = Written(lines: seq<string>, failure: Option<SaveError>)

  function Emit(file: seq<string>, rules: seq<WriteRule>, opts: HideOptions): Written {
    if rules == [] then Written([], None)
    else
      var w := Emit(file, rules[..|rules| - 1], opts);
      if w.failure.Some? then w
      else match WriteLine(rules[|rules| - 1], LineAt(file, |rules| - 1), opts)
        case Ok(out) => Written(w.lines + out, None)
        case Err(e) => Written(w.lines, Some(e))
  }

  /** How many reads write a line. */
  function CountWriting(rules: seq<WriteRule>): (n: nat)
    ensures n <= |rules|
  {
    if rules == [] then 0
    else CountWriting(rules[..|rules| - 1]) + (if rules[|rules| - 1] == WriteNothing then 0 else 1)
  }

  /** Line accounting: unless an exception stops it, every read under a rule other than
      "write nothing" writes exactly one line, and the others write none. */
  lemma {:induction false} EmitCount(file: seq<string>, rules: seq<WriteRule>, opts: HideOptions)
    requires Emit(file, rules, opts).failure.None?
    ensures |Emit(file, rules, opts).lines| == CountWriting(rules)
  {
    if rules != [] {
      var init := rules[..|rules| - 1];
      assert Emit(file, init, opts).failure.None?;
      EmitCount(file, init, opts);
    }
  }

  /** Once an exception stops the writer, further reads change nothing. */
  lemma {:induction false} EmitSticky(file: seq<string>, p: seq<WriteRule>, rules: seq<WriteRule>, opts: HideOptions)
    requires p <= rules
    requires Emit(file, p, opts).failure.Some?
    ensures Emit(file, rules, opts) == Emit(file, p, opts)
    decreases |rules|
  {
    if |rules| > |p| {
      assert p <= rules[..|rules| - 1];
      EmitSticky(file, p, rules[..|rules| - 1], opts);
    } else {
      assert p == rules;
    }
  }

  /** A read the writer reaches without an earlier exception writes what its rule says
      with line `j` of the file: the `j`-th read is the `j`-th line. */
  lemma {:induction false} EmitReadsLineJ(file: seq<string>, rules: seq<WriteRule>, opts: HideOptions, j: nat)
    requires j < |rules|
    requires Emit(file, rules[..j], opts).failure.None?
    ensures match WriteLine(rules[j], LineAt(file, j), opts)
      case Ok(out) => Emit(file, rules[..j + 1], opts) == Written(Emit(file, rules[..j], opts).lines + out, None)
      case Err(e) => Emit(file, rules, opts) == Written(Emit(file, rules[..j], opts).lines, Some(e))
  {
    var p := rules[..j + 1];
    assert p[..|p| - 1] == rules[..j];
    if WriteLine(rules[j], LineAt(file, j), opts).Err? {
      EmitSticky(file, p, rules, opts);
    }
  }

  lemma {:induction false} ExpandSnoc(cs: seq<LogChunk>, rs: seq<WriteRule>, c: LogChunk, r: WriteRule)
    requires |rs| == |cs|
    ensures Expand(cs + [c], rs + [r]) == Expand(cs, rs) + Repeat(r, c.LineCount())
  {
    assert (cs + [c])[..|cs|] == cs;
    assert (rs + [r])[..|rs|] == rs;
  }

  /** `Expand` keeps prefixes. */
  lemma {:induction false} ExpandPrefix(cs: seq<LogChunk>, rs: seq<WriteRule>, cs': seq<LogChunk>, rs': seq<WriteRule>)
    requires |rs| == |cs| && |rs'| == |cs'|
    requires cs <= cs' && rs <= rs'
    ensures Expand(cs, rs) <= Expand(cs', rs')
    decreases |cs'|
  {
    if |cs'| > |cs| {
      var n := |cs'| - 1;
      assert cs <= cs'[..n] && rs <= rs'[..n];
      ExpandPrefix(cs, rs, cs'[..n], rs'[..n]);
      assert Expand(cs', rs') == Expand(cs'[..n], rs'[..n]) + Repeat(rs'[n], cs'[n].LineCount());
    } else {
      assert cs == cs' && rs == rs';
    }
  }

  /** Line accounting with tiling: when the chunks tile the lines 0 .. n-1, exactly n lines
      are read, and the `j`-th read is governed by the rule of the chunk holding line `j`. */
  lemma {:induction false} ExpandTiles(cs: seq<LogChunk>, rs: seq<WriteRule>, n: int)
    requires |rs| == |cs|
    requires Tiles(cs, n)
    ensures |Expand(cs, rs)| == n
    ensures forall m | 0 <= m < |cs| :: 0 <= cs[m].startLineIdx && cs[m].endLineIdx < n
    ensures forall m, j | 0 <= m < |cs| && cs[m].Owns(j) :: Expand(cs, rs)[j] == rs[m]
    decreases |cs|
  {
    if cs != [] {
      var last := |cs| - 1;
      var c := cs[last];
      var init, rinit := cs[..last], rs[..last];
      assert Tiles(init, c.startLineIdx) by {
        if init != [] {
          assert init[|init| - 1].endLineIdx == c.startLineIdx - 1;
        } else {
          assert cs[0] == c;
        }
      }
      ExpandTiles(init, rinit, c.startLineIdx);
      var prefix := Expand(init, rinit);
      var e := Expand(cs, rs);
      assert e == prefix + Repeat(rs[last], c.LineCount());
      assert c.startLineIdx >= 0 by {
        if init != [] {
          assert init[0].startLineIdx == 0;
        } else {
          assert cs[0] == c;
        }
      }
      assert c.LineCount() == c.endLineIdx - c.startLineIdx + 1;
      forall m | 0 <= m < last ensures 0 <= cs[m].startLineIdx && cs[m].endLineIdx < n {
        assert init[m] == cs[m];
      }
      forall m, j | 0 <= m < |cs| && cs[m].Owns(j)
        ensures e[j] == rs[m]
      {
        if m == last {
          assert e[j] == Repeat(rs[last], c.LineCount())[j - c.startLineIdx];
        } else {
          assert init[m] == cs[m] && rinit[m] == rs[m];
          assert init[m].Owns(j);
          assert prefix[j] == rinit[m];
        }
      }
    }
  }

  lemma {:induction false} FlattenPrefixOf(keys: seq<int>, d: ChunkDict, i: nat)
    requires i <= |keys|
    ensures Flatten(keys[..i], d) <= Flatten(keys, d)
    ensures FlattenRules(keys[..i], d) <= FlattenRules(keys, d)
    decreases |keys|
  {
    if i < |keys| {
      assert keys[..i] == keys[..|keys| - 1][..i];
      FlattenPrefixOf(keys[..|keys| - 1], d, i);
    } else {
      assert keys[..i] == keys;
    }
  }

  /** The chunks and rules handled before chunk `i` of the group `keys[ki]`, plus that
      chunk, are a prefix of all chunks and rules. */
  lemma FlattenPrefixWithin(keys: seq<int>, d: ChunkDict, ki: nat, i: nat)
    requires ki < |keys| && keys[ki] in d && i < |d[keys[ki]]|
    ensures Flatten(keys[..ki], d) + d[keys[ki]][..i + 1] <= Flatten(keys, d)
    ensures FlattenRules(keys[..ki], d) + GroupRules(d[keys[ki]])[..i + 1] <= FlattenRules(keys, d)
  {
    FlattenPrefixOf(keys, d, ki + 1);
    var p := keys[..ki + 1];
    assert p[..|p| - 1] == keys[..ki] && p[|p| - 1] == keys[ki];
    var g := d[keys[ki]];
    PrefixOfAppend(Flatten(keys[..ki], d), g, i + 1, Flatten(keys, d));
    PrefixOfAppend(FlattenRules(keys[..ki], d), GroupRules(g), i + 1, FlattenRules(keys, d));
  }

  lemma PrefixOfAppend<T>(f: seq<T>, g: seq<T>, n: nat, all: seq<T>)
    requires n <= |g| && f + g <= all
    ensures f + g[..n] <= all
  {
    assert (f + g[..n]) == (f + g)[..|f| + n];
  }

  /** `ValidateChunkContinuity`'s verdict on `cs` with `prevEnd` as given. */
  function Continuity(cs: seq<LogChunk>, prevEnd: int): Option<SaveError> {
    if cs == [] then None
    else if prevEnd + 1 != cs[0].startLineIdx then Some(Discontinuous(prevEnd + 1, cs[0].startLineIdx + 1))
    else Continuity(cs[1..], cs[0].endLineIdx)
  }

  /** The check passes exactly when the chunks are back to back from line 0. */
  lemma {:induction false} ContinuityExact(cs: seq<LogChunk>, prevEnd: int)
    ensures Continuity(cs, prevEnd).None? <==> Contiguous(cs, prevEnd + 1)
    decreases |cs|
  {
    if cs != [] && prevEnd + 1 == cs[0].startLineIdx {
      ContinuityExact(cs[1..], cs[0].endLineIdx);
      if Contiguous(cs[1..], cs[0].endLineIdx + 1) {
        forall k | 0 < k < |cs| ensures cs[k].startLineIdx == cs[k - 1].endLineIdx + 1 {
          if k > 1 {
            assert cs[1..][k - 1] == cs[k] && cs[1..][k - 2] == cs[k - 1];
          }
        }
      }
      if Contiguous(cs, prevEnd + 1) {
        forall k | 0 < k < |cs| - 1 ensures cs[1..][k].startLineIdx == cs[1..][k - 1].endLineIdx + 1 {
          assert cs[1..][k] == cs[k + 1] && cs[1..][k - 1] == cs[k];
        }
      }
    }
  }

  /** `ValidateChunkContinuity` never throws after a successful `SeparateLogChunks` of a
      fresh reader. */
  lemma ContinuityAfterSeparation(lines: seq<string>, doorBoss: bool, parse: string -> int)
    requires Separation(lines, doorBoss, parse).failure.None?
    ensures Continuity(LogChunks(SaveAll(map[], Separation(lines, doorBoss, parse).saved)), -1).None?
  {
    SeparationSound(lines, doorBoss, parse);
    ContinuityExact(Separation(lines, doorBoss, parse).saved, -1);
  }

  /** After a successful separation of `lines`, saving the same file reads it line for
      line: one read per line of the file, the `j`-th governed by the rule of the chunk
      that holds line `j`. */
  lemma SavePlanAfterSeparation(lines: seq<string>, doorBoss: bool, parse: string -> int)
    requires Separation(lines, doorBoss, parse).failure.None?
    ensures var d := SaveAll(map[], Separation(lines, doorBoss, parse).saved);
      && |SavePlan(d)| == |lines|
      && (forall m | 0 <= m < |LogChunks(d)| ::
            0 <= LogChunks(d)[m].startLineIdx && LogChunks(d)[m].endLineIdx < |lines|)
      && forall m, j | 0 <= m < |LogChunks(d)| && LogChunks(d)[m].Owns(j) :: SavePlan(d)[j] == ChunkRules(d)[m]
  {
    var d := SaveAll(map[], Separation(lines, doorBoss, parse).saved);
    SeparationSound(lines, doorBoss, parse);
    ExpandTiles(LogChunks(d), ChunkRules(d), |lines|);
  }

  /** `WriteLine(null)` writes an empty line. */
  function VersionText(v: Option<string>): string {
    match v
    case Some(s) => s
    case None => ""
  }

  /** `ValidateChunkContinuity` (versions/v2.1.cs:792-807). */
  method ValidateChunkContinuity(reader: LogReader) returns (r: Option<SaveError>)
    ensures r == Continuity(LogChunks(reader.logChunksDict), -1)
  {
    var chunks := LogChunks(reader.logChunksDict);
    var prevEnd := -1;
    var i := 0;
    while i < |chunks|
      invariant 0 <= i <= |chunks|
      invariant Continuity(chunks, -1) == Continuity(chunks[i..], prevEnd)
    {
      if prevEnd + 1 != chunks[i].startLineIdx {
        return Some(Discontinuous(prevEnd + 1, chunks[i].startLineIdx + 1));
      }
      assert chunks[i..][1..] == chunks[i + 1..];
      prevEnd := chunks[i].endLineIdx;
      i := i + 1;
    }
    return None;
  }

  /** The `foreach` over `chunk.ReadChunk(streamReader)`: `count` reads with the rule of
      the chunk, from read number `|done|` on; `written` is what the writer holds after
      the version line. */
  method WriteChunk(file: seq<string>, opts: HideOptions, rule: WriteRule, count: nat, pos: nat,
                    written: seq<string>, ghost done: seq<WriteRule>, ghost plan: seq<WriteRule>)
    returns (written': seq<string>, failure: Option<SaveError>)
    requires pos == |done| && done + Repeat(rule, count) <= plan
    requires Emit(file, done, opts) == Written(written, None)
    ensures failure.None? ==> Emit(file, done + Repeat(rule, count), opts) == Written(written', None)
    ensures failure.Some? ==> Emit(file, plan, opts) == Written(written', failure)
  {
    written' := written;
    assert plan[..pos] == done;
    var k := 0;
    while k < count
      invariant 0 <= k <= count
      invariant plan[..pos + k] == done + Repeat(rule, k)
      invariant Emit(file, plan[..pos + k], opts) == Written(written', None)
    {
      var j := pos + k;
      var line := if j < |file| then Some(file[j]) else None;
      assert plan[j] == (done + Repeat(rule, count))[j] == rule;
      EmitReadsLineJ(file, plan, opts, j);
      var w := WriteLine(rule, line, opts);
      if w.Err? {
        return written', Some(w.error);
      }
      written' := written' + w.value;
      assert plan[..j + 1] == done + Repeat(rule, k + 1);
      k := k + 1;
    }
    assert plan[..pos + k] == done + Repeat(rule, count);
    failure := None;
  }

  /** Chunk `i` of the group `keys[ki]` continues the chunks and rules written so far,
      within `SavePlan`. */
  lemma GroupStep(keys: seq<int>, d: ChunkDict, ki: nat, i: nat, cs: seq<LogChunk>, rs: seq<WriteRule>)
    requires ki < |keys| && keys[ki] in d && i < |d[keys[ki]]|
    requires cs == Flatten(keys[..ki], d) + d[keys[ki]][..i]
    requires rs == FlattenRules(keys[..ki], d) + GroupRules(d[keys[ki]])[..i]
    ensures |cs| == |rs|
    ensures var chunks := d[keys[ki]];
      var rule := RuleFor(i, LastSelected(chunks), chunks[i].selected);
      && cs + [chunks[i]] == Flatten(keys[..ki], d) + chunks[..i + 1]
      && rs + [rule] == FlattenRules(keys[..ki], d) + GroupRules(chunks)[..i + 1]
      && Expand(cs + [chunks[i]], rs + [rule]) == Expand(cs, rs) + Repeat(rule, chunks[i].LineCount())
      && Expand(cs + [chunks[i]], rs + [rule]) <= Expand(Flatten(keys, d), FlattenRules(keys, d))
  {
    var chunks := d[keys[ki]];
    FlattenPrefixWithin(keys, d, ki, i);
    ExtendWithin(Flatten(keys[..ki], d), FlattenRules(keys[..ki], d), chunks, GroupRules(chunks), i,
      Flatten(keys, d), FlattenRules(keys, d));
  }

  lemma AppendNext<T>(f: seq<T>, g: seq<T>, i: nat)
    requires i < |g|
    ensures f + g[..i] + [g[i]] == f + g[..i + 1]
  {
    assert g[..i + 1] == g[..i] + [g[i]];
  }

  /** `GroupStep` on plain sequences: `cs`, `rs` are a prefix `f`, `fr` followed by the
      first `i` chunks and rules of a group `g`, `gr`. */
  lemma ExtendWithin(f: seq<LogChunk>, fr: seq<WriteRule>, g: seq<LogChunk>, gr: seq<WriteRule>, i: nat,
                     all: seq<LogChunk>, allRules: seq<WriteRule>)
    requires |f| == |fr| && |g| == |gr| && i < |g| && |all| == |allRules|
    requires f + g[..i + 1] <= all && fr + gr[..i + 1] <= allRules
    ensures f + g[..i] + [g[i]] == f + g[..i + 1]
    ensures fr + gr[..i] + [gr[i]] == fr + gr[..i + 1]
    ensures Expand(f + g[..i] + [g[i]], fr + gr[..i] + [gr[i]]) == Expand(f + g[..i], fr + gr[..i]) + Repeat(gr[i], g[i].LineCount())
    ensures Expand(f + g[..i] + [g[i]], fr + gr[..i] + [gr[i]]) <= Expand(all, allRules)
  {
    AppendNext(f, g, i);
    AppendNext(fr, gr, i);
    ExpandSnoc(f + g[..i], fr + gr[..i], g[i], gr[i]);
    ExpandPrefix(f + g[..i + 1], fr + gr[..i + 1], all, allRules);
  }

  /** The chunks and rules of the groups before `keys[ki]`. */
  ghost function ReadBefore(keys: seq<int>, d: ChunkDict, ki: nat): seq<WriteRule>
    requires ki <= |keys|
  {
    Expand(Flatten(keys[..ki], d), FlattenRules(keys[..ki], d))
  }

  /** One group of the `foreach (int line01Idx in line01Indices)` loop: every chunk of
      the group written by the rule `RuleFor` gives it. */
  method WriteGroup(file: seq<string>, opts: HideOptions, d: ChunkDict, keys: seq<int>, ki: nat,
                    pos: nat, written: seq<string>, ghost plan: seq<WriteRule>)
    returns (pos': nat, written': seq<string>, failure: Option<SaveError>)
    requires ki < |keys| && keys[ki] in d
    requires plan == Expand(Flatten(keys, d), FlattenRules(keys, d))
    requires pos == |ReadBefore(keys, d, ki)|
    requires Emit(file, ReadBefore(keys, d, ki), opts) == Written(written, None)
    ensures failure.None? ==>
      pos' == |ReadBefore(keys, d, ki + 1)| && Emit(file, ReadBefore(keys, d, ki + 1), opts) == Written(written', None)
    ensures failure.Some? ==> Emit(file, plan, opts) == Written(written', failure)
  {
    ghost var cs := Flatten(keys[..ki], d);
    ghost var rs := FlattenRules(keys[..ki], d);
    var chunks := d[keys[ki]];
    var lastSelectedIdx := LastSelected(chunks);
    pos', written' := pos, written;
    var i := 0;
    while i < |chunks|
      invariant 0 <= i <= |chunks|
      invariant cs == Flatten(keys[..ki], d) + chunks[..i]
      invariant rs == FlattenRules(keys[..ki], d) + GroupRules(chunks)[..i]
      invariant pos' == |Expand(cs, rs)|
      invariant Emit(file, Expand(cs, rs), opts) == Written(written', None)
    {
      var chunk := chunks[i];
      var rule := RuleFor(i, lastSelectedIdx, chunk.selected);
      GroupStep(keys, d, ki, i, cs, rs);
      written', failure := WriteChunk(file, opts, rule, chunk.LineCount(), pos', written', Expand(cs, rs), plan);
      if failure.Some? {
        return;
      }
      pos' := pos' + chunk.LineCount();
      cs, rs := cs + [chunk], rs + [rule];
      i := i + 1;
    }
    assert cs == Flatten(keys[..ki + 1], d) && rs == FlattenRules(keys[..ki + 1], d) by {
      assert keys[..ki + 1][..ki] == keys[..ki];
      assert chunks[..i] == chunks;
      assert GroupRules(chunks)[..i] == GroupRules(chunks);
    }
    failure := None;
  }

  /** The `foreach (int line01Idx in line01Indices)` loop: what it writes after the
      version line. */
  method WriteGroups(d: ChunkDict, keys: seq<int>, file: seq<string>, opts: HideOptions)
    returns (written: seq<string>, failure: Option<SaveError>)
    requires forall i | 0 <= i < |keys| :: keys[i] in d
    ensures Emit(file, Expand(Flatten(keys, d), FlattenRules(keys, d)), opts) == Written(written, failure)
  {
    ghost var plan := Expand(Flatten(keys, d), FlattenRules(keys, d));
    written := [];
    var pos := 0;
    var ki := 0;
    while ki < |keys|
      invariant 0 <= ki <= |keys|
      invariant pos == |ReadBefore(keys, d, ki)|
      invariant Emit(file, ReadBefore(keys, d, ki), opts) == Written(written, None)
    {
      pos, written, failure := WriteGroup(file, opts, d, keys, ki, pos, written, plan);
      if failure.Some? {
        return;
      }
      ki := ki + 1;
    }
    assert keys[..ki] == keys;
    failure := None;
  }

  /** The `using` block of `SaveLogFile` after the continuity check: the version line,
      then every group in key order. */
  method WriteLog(d: ChunkDict, versionLine: string, file: seq<string>, opts: HideOptions)
    returns (out: seq<string>, failure: Option<SaveError>)
    ensures var w := Emit(file, SavePlan(d), opts);
      out == [versionLine] + w.lines && failure == w.failure
  {
    var keys := SortedKeys(d.Keys);
    forall i | 0 <= i < |keys| ensures keys[i] in d {
      assert keys[i] in keys;
    }
    var written;
    written, failure := WriteGroups(d, keys, file, opts);
    out := [versionLine] + written;
  }

  /** `SaveLogFile` (versions/v2.1.cs:688-790) on the original file's lines: the lines it
      writes and the exception that ended it. After the continuity check, the version
      line is written, then every read of `SavePlan` writes what its rule makes of the
      line read. */
  method SaveLogFile(reader: LogReader, file: seq<string>, opts: HideOptions)
    returns (out: seq<string>, failure: Option<SaveError>)
    ensures var d := reader.logChunksDict;
      match Continuity(LogChunks(d), -1)
      case Some(e) => out == [] && failure == Some(e)
      case None =>
        var w := Emit(file, SavePlan(d), opts);
        out == [VersionText(reader.actVersionLine)] + w.lines && failure == w.failure
  {
    failure := ValidateChunkContinuity(reader);
    if failure.Some? {
      return [], failure;
    }
    out, failure := WriteLog(reader.logChunksDict, VersionText(reader.actVersionLine), file, opts);
  }
}
