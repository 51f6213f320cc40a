/** v2.1's `LogReader` (versions/v2.1.cs:99-292) as a class: the version line and the
    chunk dictionary are fields that `SeparateLogChunks` fills in place. The file is
    passed in as its lines; `ParseTime` is the parameter `parse`. */
module ReaderV21 {
  import opened Wrappers
  import opened Text
  import opened Patterns
  import opened ChunksV21
  import opened SegmentV21

  /** Once the fold has failed, separation reports that failure with the chunks saved
      before it. */
  lemma SeparationStopsAt(lines: seq<string>, h: nat, k: nat, doorBoss: bool, parse: string -> int)
    requires 1 <= h <= k <= |lines|
    requires h == FirstNonBlank(lines, 0) + 1 && StartsWith(lines[h - 1], "253|")
    requires RunFrom(lines, h, k, doorBoss, parse).failure.Some?
    ensures Separation(lines, doorBoss, parse) ==
      Outcome(RunFrom(lines, h, k, doorBoss, parse).scan.saved, RunFrom(lines, h, k, doorBoss, parse).failure)
  {
    RunFromSticky(lines, h, k, |lines|, doorBoss, parse);
  }

  /** When every line after the header was read, separation ends with closing the last chunk. */
  lemma SeparationCompletes(lines: seq<string>, h: nat, doorBoss: bool, parse: string -> int)
    requires 1 <= h <= |lines|
    requires h == FirstNonBlank(lines, 0) + 1 && StartsWith(lines[h - 1], "253|")
    requires RunFrom(lines, h, |lines|, doorBoss, parse).failure.None?
    ensures Separation(lines, doorBoss, parse) ==
      match Finish(RunFrom(lines, h, |lines|, doorBoss, parse).scan, lines, h, parse)
      case Ok(saved) => Outcome(saved, None)
      case Err(e) => Outcome(RunFrom(lines, h, |lines|, doorBoss, parse).scan.saved, Some(e))
  {
    var f := FirstNonBlank(lines, 0);
    assert f + 1 == h && f < |lines| && StartsWith(lines[f], "253|");
    var p := RunFrom(lines, f + 1, |lines|, doorBoss, parse);
    assert p.failure.None?;
  }

  /** A line read as `Step` says advances the fold by that line. */
  lemma ReadAdvances(lines: seq<string>, h: nat, k: nat, doorBoss: bool, parse: string -> int,
                     s: Scan, r: Result<(), SegError>, s': Scan)
    requires h <= k < |lines|
    requires RunFrom(lines, h, k, doorBoss, parse) == Progress(s, None)
    requires match Step(s, lines[k], k, doorBoss, parse)
      case Ok(n) => r.Ok? && n == s'
      case Err(e) => r == Err(e)
    ensures RunFrom(lines, h, k + 1, doorBoss, parse) ==
      if r.Ok? then Progress(s', None) else Progress(s, Some(r.error))
  {
  }

  /** What the main loop knows after reading the lines `h..k`: the fold's progress and
      the previous line, null before the first. */
  ghost function ReadState(lines: seq<string>, h: nat, k: nat, doorBoss: bool, parse: string -> int)
    : (Progress, Option<string>)
    requires h <= k <= |lines|
  {
    (RunFrom(lines, h, k, doorBoss, parse), if k == h then None else Some(lines[k - 1]))
  }

  class LogReader {
    const separateDoorBoss: bool
    /** `ActVersionLine`: null until a non-blank line is read. */
    var actVersionLine: Option<string>
    /** `LogChunksDict`. */
    var logChunksDict: ChunkDict

    constructor(separateDoorBoss: bool)
      ensures this.separateDoorBoss == separateDoorBoss
      ensures actVersionLine == None && logChunksDict == map[]
    {
      this.separateDoorBoss := separateDoorBoss;
      actVersionLine := None;
      logChunksDict := map[];
    }

    /** `SaveCurrentChunk` (versions/v2.1.cs:282-291): the chunk takes the pending outcome
        and its end line and joins the list of its zone-change index, created if missing;
        the pending outcome is reset. */
    method SaveCurrentChunk(chunk: LogChunk, endLineIndex: int, win: bool, endTime: int)
      returns (win': bool, endTime': int)
      modifies this
      ensures logChunksDict == SaveInto(old(logChunksDict), chunk.(win := win, endLineIdx := endLineIndex, endTime := endTime))
      ensures actVersionLine == old(actVersionLine)
      ensures !win' && endTime' == 0
    {
      var c := chunk.(win := win, endLineIdx := endLineIndex, endTime := endTime);
      if c.line01Idx !in logChunksDict {
        logChunksDict := logChunksDict[c.line01Idx := []];
      }
      logChunksDict := logChunksDict[c.line01Idx := logChunksDict[c.line01Idx] + [c]];
      win', endTime' := false, 0;
    }

    /** The `01|` case (versions/v2.1.cs:167-171): the zone name is read, the open chunk
        is saved ending at the previous line, and a chunk of the new zone opens here. */
    method ZoneChangeLine(line: string, lineIdx: nat, chunk: LogChunk, win: bool, endTime: int,
                          zoneName: Option<string>, line01Idx: int, ghost s: Scan, ghost d0: ChunkDict)
      returns (r: Result<(), SegError>, chunk': LogChunk, win': bool, endTime': int, zoneName': Option<string>,
               line01Idx': int, ghost saved': seq<LogChunk>)
      modifies this
      requires s.chunk == chunk && s.win == win && s.endTime == endTime && s.zoneName == zoneName && s.line01Idx == line01Idx
      requires logChunksDict == SaveAll(d0, s.saved)
      ensures actVersionLine == old(actVersionLine)
      ensures match OnZone(s, line, lineIdx)
        case Ok(n) =>
          && r.Ok? && logChunksDict == SaveAll(d0, saved')
          && n == s.(chunk := chunk', saved := saved', win := win', endTime := endTime', zoneName := zoneName', line01Idx := line01Idx')
        case Err(e) => r == Err(e) && logChunksDict == old(logChunksDict)
    {
      r, chunk', win', endTime', zoneName', line01Idx', saved' := Ok(()), chunk, win, endTime, zoneName, line01Idx, s.saved;
      var z := ZoneName(line);
      if z.None? {
        r := Err(Malformed(lineIdx + 1));
        return;
      }
      zoneName', line01Idx' := z, lineIdx;
      SaveAllSnoc(d0, s.saved, Closed(s, lineIdx - 1));
      saved' := s.saved + [Closed(s, lineIdx - 1)];
      win', endTime' := SaveCurrentChunk(chunk, lineIdx - 1, win, endTime);
      chunk' := NewChunk(zoneName', line01Idx', lineIdx);
    }

    /** The `25|` case (versions/v2.1.cs:198-203): a player's death is counted, and
        counted as the user's own when the id is the user's. */
    method DeathLine(line: string, lineIdx: nat, chunk: LogChunk, selfId: Option<string>, ghost s: Scan)
      returns (r: Result<(), SegError>, chunk': LogChunk)
      requires s.chunk == chunk && s.selfId == selfId
      ensures match OnDeath(s, line, lineIdx)
        case Ok(n) => r.Ok? && n == s.(chunk := chunk')
        case Err(e) => r == Err(e)
    {
      r, chunk' := Ok(()), chunk;
      var deathId := DeathId8(line);
      if deathId.None? {
        r := Err(Malformed(lineIdx + 1));
        return;
      }
      if StartsWith(deathId.value, "10") {
        chunk' := chunk'.(totalDeathCount := chunk'.totalDeathCount + 1);
        if selfId == deathId {
          chunk' := chunk'.(selfDeathCount := chunk'.selfDeathCount + 1);
        }
      }
    }

    /** The `26|` case (versions/v2.1.cs:205-211): a damage-down on a player is counted,
        and counted as the user's own when the target is the user. */
    method DamageDownLine(line: string, chunk: LogChunk, selfId: Option<string>, ghost s: Scan)
      returns (chunk': LogChunk)
      requires s.chunk == chunk && s.selfId == selfId
      ensures OnDamageDown(s, line) == s.(chunk := chunk')
    {
      chunk' := chunk;
      var dmgDownId := DamageDownTarget(line);
      if dmgDownId.Some? {
        chunk' := chunk'.(totalDmgDownCount := chunk'.totalDmgDownCount + 1);
        if selfId == dmgDownId {
          chunk' := chunk'.(selfDmgDownCount := chunk'.selfDmgDownCount + 1);
        }
      }
    }

    /** The `33|` case (versions/v2.1.cs:213-228): a victory or a wipe sets the pending
        outcome; a reset saves the open chunk ending here and opens the next one after it. */
    method DirectorLine(line: string, lineIdx: nat, parse: string -> int, chunk: LogChunk, win: bool, endTime: int,
                        zoneName: Option<string>, line01Idx: int, ghost s: Scan, ghost d0: ChunkDict)
      returns (r: Result<(), SegError>, chunk': LogChunk, win': bool, endTime': int, ghost saved': seq<LogChunk>)
      modifies this
      requires s.chunk == chunk && s.win == win && s.endTime == endTime && s.zoneName == zoneName && s.line01Idx == line01Idx
      requires logChunksDict == SaveAll(d0, s.saved)
      ensures actVersionLine == old(actVersionLine)
      ensures match OnDirector(s, line, lineIdx, parse)
        case Ok(n) =>
          && r.Ok? && logChunksDict == SaveAll(d0, saved')
          && n == s.(chunk := chunk', saved := saved', win := win', endTime := endTime')
        case Err(e) => r == Err(e) && logChunksDict == old(logChunksDict)
    {
      r, chunk', win', endTime', saved' := Ok(()), chunk, win, endTime, s.saved;
      var t := DirectorType8(line);
      if t.None? {
        r := Err(Malformed(lineIdx + 1));
        return;
      }
      var ty := t.value;
      if ty == "40000002" || ty == "40000003" || ty == "40000005" {
        win' := ty != "40000005";
        endTime' := parse(line);
      } else if ty == "40000011" {
        SaveAllSnoc(d0, s.saved, Closed(s, lineIdx));
        saved' := s.saved + [Closed(s, lineIdx)];
        win', endTime' := SaveCurrentChunk(chunk, lineIdx, win, endTime);
        chunk' := NewChunk(zoneName, line01Idx, lineIdx + 1);
      }
    }

    /** The `41|` case (versions/v2.1.cs:230-241): with the door-boss option, a limit-break
        clear wins the open chunk, marks its zone name as the first phase, saves it ending
        here and opens the next one after it. */
    method ClearLBLine(line: string, lineIdx: nat, parse: string -> int, chunk: LogChunk, win: bool, endTime: int,
                       zoneName: Option<string>, line01Idx: int, ghost s: Scan, ghost d0: ChunkDict)
      returns (chunk': LogChunk, win': bool, endTime': int, ghost saved': seq<LogChunk>)
      modifies this
      requires s.chunk == chunk && s.win == win && s.endTime == endTime && s.zoneName == zoneName && s.line01Idx == line01Idx
      requires logChunksDict == SaveAll(d0, s.saved)
      ensures actVersionLine == old(actVersionLine)
      ensures logChunksDict == SaveAll(d0, saved')
      ensures OnClearLB(s, line, lineIdx, separateDoorBoss, parse) == s.(chunk := chunk', saved := saved', win := win', endTime := endTime')
    {
      chunk', win', endTime', saved' := chunk, win, endTime, s.saved;
      if separateDoorBoss && ClearLB(line) {
        var won := chunk.(zoneName := Some(ConcatNullable(chunk.zoneName, " (P1)")));
        ghost var s1 := s.(chunk := won, win := true, endTime := parse(line));
        SaveAllSnoc(d0, s.saved, Closed(s1, lineIdx));
        saved' := s.saved + [Closed(s1, lineIdx)];
        win', endTime' := SaveCurrentChunk(won, lineIdx, true, parse(line));
        chunk' := NewChunk(zoneName, line01Idx, lineIdx + 1);
      }
    }

    /** One pass of the main loop's `switch` (versions/v2.1.cs:159-244) on line `lineIdx`:
        the loop variables before and after, and the exception the line raises. The new
        variables are the state `Step` gives, and the dictionary receives the chunks the
        step saves. */
    method ReadLine(line: string, lineIdx: nat, parse: string -> int,
                    chunk: LogChunk, win: bool, endTime: int, zoneName: Option<string>, selfId: Option<string>,
                    line01Idx: int, ghost d0: ChunkDict, ghost saved: seq<LogChunk>)
      returns (r: Result<(), SegError>, chunk': LogChunk, win': bool, endTime': int, zoneName': Option<string>,
               selfId': Option<string>, line01Idx': int, ghost saved': seq<LogChunk>)
      modifies this
      requires logChunksDict == SaveAll(d0, saved)
      ensures actVersionLine == old(actVersionLine)
      ensures match Step(Scan(chunk, saved, win, endTime, zoneName, selfId, line01Idx), line, lineIdx, separateDoorBoss, parse)
        case Ok(n) => r.Ok? && n == Scan(chunk', saved', win', endTime', zoneName', selfId', line01Idx') && logChunksDict == SaveAll(d0, saved')
        case Err(e) => r == Err(e) && logChunksDict == old(logChunksDict)
    {
      ghost var s := Scan(chunk, saved, win, endTime, zoneName, selfId, line01Idx);
      r, chunk', win', endTime', zoneName', selfId', line01Idx', saved' := Ok(()), chunk, win, endTime, zoneName, selfId, line01Idx, saved;
      if |line| < 3 {
        StepTooShort(s, line, lineIdx, separateDoorBoss, parse);
        r := Err(LineTooShort(lineIdx + 1));
        return;
      }
      var prefix := line[..3];
      if prefix == "01|" {
        StepZone(s, line, lineIdx, separateDoorBoss, parse);
        r, chunk', win', endTime', zoneName', line01Idx', saved' := ZoneChangeLine(line, lineIdx, chunk, win, endTime, zoneName, line01Idx, s, d0);
      } else if prefix == "02|" {
        StepPlayer(s, line, lineIdx, separateDoorBoss, parse);
        var id := PlayerIdUntilBar(line);
        if id.None? {
          r := Err(Malformed(lineIdx + 1));
          return;
        }
        if StartsWith(id.value, "10") {
          selfId' := id;
        }
      } else if prefix == "260" {
        StepOverlayStart(s, line, lineIdx, separateDoorBoss, parse);
        if chunk.startTimeOverlay.None? && StartCombat(line) {
          chunk' := chunk.(startTimeOverlay := Some(parse(line)));
        }
      } else if prefix == "20|" || prefix == "21|" {
        StepAttack(s, line, lineIdx, separateDoorBoss, parse);
        if chunk.startTimeACT == 0 && AttackBoss(line) {
          chunk' := chunk.(startTimeACT := parse(line));
        }
      } else if prefix == "25|" {
        StepDeath(s, line, lineIdx, separateDoorBoss, parse);
        r, chunk' := DeathLine(line, lineIdx, chunk, selfId, s);
      } else if prefix == "26|" {
        StepDamageDown(s, line, lineIdx, separateDoorBoss, parse);
        chunk' := DamageDownLine(line, chunk, selfId, s);
      } else if prefix == "33|" {
        StepDirector(s, line, lineIdx, separateDoorBoss, parse);
        r, chunk', win', endTime', saved' := DirectorLine(line, lineIdx, parse, chunk, win, endTime, zoneName, line01Idx, s, d0);
      } else if prefix == "41|" {
        StepClearLB(s, line, lineIdx, separateDoorBoss, parse);
        chunk', win', endTime', saved' := ClearLBLine(line, lineIdx, parse, chunk, win, endTime, zoneName, line01Idx, s, d0);
      } else {
        StepOther(s, line, lineIdx, separateDoorBoss, parse);
      }
    }

    /** One pass of the main loop (versions/v2.1.cs:157-244): `ReadLine` on the next
        line, after which it becomes the previous line. The fold advances by that line;
        when the line raises an exception, the fold ends where it stands. */
    method ReadNextLine(lines: seq<string>, ghost h: nat, lineIdx: nat, parse: string -> int,
                        chunk: LogChunk, win: bool, endTime: int, zoneName: Option<string>, selfId: Option<string>,
                        line01Idx: int, prevLine: Option<string>, ghost d0: ChunkDict, ghost saved: seq<LogChunk>)
      returns (r: Result<(), SegError>, chunk': LogChunk, win': bool, endTime': int, zoneName': Option<string>,
               selfId': Option<string>, line01Idx': int, prevLine': Option<string>, ghost saved': seq<LogChunk>)
      modifies this
      requires h <= lineIdx < |lines|
      requires ReadState(lines, h, lineIdx, separateDoorBoss, parse) ==
        (Progress(Scan(chunk, saved, win, endTime, zoneName, selfId, line01Idx), None), prevLine)
      requires logChunksDict == SaveAll(d0, saved)
      ensures actVersionLine == old(actVersionLine)
      ensures r.Ok? ==>
        && ReadState(lines, h, lineIdx + 1, separateDoorBoss, parse) ==
           (Progress(Scan(chunk', saved', win', endTime', zoneName', selfId', line01Idx'), None), prevLine')
        && logChunksDict == SaveAll(d0, saved')
      ensures r.Err? ==>
        && lineIdx + 1 <= |lines|
        && RunFrom(lines, h, lineIdx + 1, separateDoorBoss, parse) ==
           Progress(Scan(chunk, saved, win, endTime, zoneName, selfId, line01Idx), Some(r.error))
        && logChunksDict == SaveAll(d0, saved)
    {
      ghost var before := Scan(chunk, saved, win, endTime, zoneName, selfId, line01Idx);
      var line := lines[lineIdx];
      r, chunk', win', endTime', zoneName', selfId', line01Idx', saved' :=
        ReadLine(line, lineIdx, parse, chunk, win, endTime, zoneName, selfId, line01Idx, d0, saved);
      ReadAdvances(lines, h, lineIdx, separateDoorBoss, parse, before, r, Scan(chunk', saved', win', endTime', zoneName', selfId', line01Idx'));
      prevLine' := Some(line);
    }

    /** The end of `SeparateLogChunks` (versions/v2.1.cs:246-253): unless it is empty, the
        open chunk is saved ending at the last line, taking that line's time when no
        outcome set one; the time of a missing last line is an error. */
    method CloseLastChunk(lines: seq<string>, ghost h: nat, parse: string -> int, chunk: LogChunk, win: bool, endTime: int,
                          prevLine: Option<string>, ghost s: Scan, ghost d0: ChunkDict)
      returns (r: Result<(), SegError>)
      modifies this
      requires h <= |lines|
      requires s.chunk == chunk && s.win == win && s.endTime == endTime
      requires prevLine == (if |lines| == h then None else Some(lines[|lines| - 1]))
      requires logChunksDict == SaveAll(d0, s.saved)
      ensures actVersionLine == old(actVersionLine)
      ensures match Finish(s, lines, h, parse)
        case Ok(saved) => r.Ok? && logChunksDict == SaveAll(d0, saved)
        case Err(e) => r == Err(e) && logChunksDict == old(logChunksDict)
    {
      var lineIdx := |lines|;
      var endTime := endTime;
      if chunk.startLineIdx < lineIdx {
        if endTime == 0 {
          if prevLine.None? {
            return Err(MissingLastLine);
          }
          endTime := parse(prevLine.value);
        }
        ghost var last := s.(endTime := endTime);
        SaveAllSnoc(d0, s.saved, Closed(last, lineIdx - 1));
        var win', endTime' := SaveCurrentChunk(chunk, lineIdx - 1, win, endTime);
      }
      return Ok(());
    }

    /** The main loop of `SeparateLogChunks` (versions/v2.1.cs:152-245): every line after
        the header at `h - 1` is read in turn until one raises an exception. The loop
        variables end as the fold over those lines leaves them, and the dictionary
        receives the chunks the fold saves. */
    method ReadLines(lines: seq<string>, h: nat, parse: string -> int, ghost d0: ChunkDict)
      returns (r: Result<(), SegError>, chunk: LogChunk, win: bool, endTime: int, zoneName: Option<string>,
               selfId: Option<string>, line01Idx: int, prevLine: Option<string>, ghost saved: seq<LogChunk>)
      modifies this
      requires h <= |lines|
      requires logChunksDict == d0
      ensures actVersionLine == old(actVersionLine)
      ensures r.Ok? ==>
        ReadState(lines, h, |lines|, separateDoorBoss, parse) ==
        (Progress(Scan(chunk, saved, win, endTime, zoneName, selfId, line01Idx), None), prevLine)
      ensures r.Err? ==>
        RunFrom(lines, h, |lines|, separateDoorBoss, parse) ==
        Progress(Scan(chunk, saved, win, endTime, zoneName, selfId, line01Idx), Some(r.error))
      ensures logChunksDict == SaveAll(d0, saved)
    {
      var doorBoss := separateDoorBoss;
      var lineIdx := h;
      line01Idx := 0;
      chunk := NewChunk(Some("Init"), line01Idx, 0);
      prevLine, win, endTime, zoneName, selfId := None, false, 0, None, None;
      saved := [];
      while lineIdx < |lines|
        invariant h <= lineIdx <= |lines|
        invariant ReadState(lines, h, lineIdx, doorBoss, parse) ==
          (Progress(Scan(chunk, saved, win, endTime, zoneName, selfId, line01Idx), None), prevLine)
        invariant logChunksDict == SaveAll(d0, saved)
        invariant actVersionLine == old(actVersionLine)
      {
        var res, chunk', win', endTime', zoneName', selfId', line01Idx', prevLine', saved' :=
          ReadNextLine(lines, h, lineIdx, parse, chunk, win, endTime, zoneName, selfId, line01Idx, prevLine, d0, saved);
        if res.Err? {
          RunFromSticky(lines, h, lineIdx + 1, |lines|, doorBoss, parse);
          r := res;
          return;
        }
        chunk, win, endTime, zoneName, selfId, line01Idx, prevLine, saved :=
          chunk', win', endTime', zoneName', selfId', line01Idx', prevLine', saved';
        lineIdx := lineIdx + 1;
      }
      r := Ok(());
    }

    /** The head of `SeparateLogChunks` (versions/v2.1.cs:131-150): blank lines are
        skipped and the first non-blank one is kept as the version line. */
    method ReadVersionLine(lines: seq<string>) returns (found: bool, lineIdx: nat)
      modifies this
      ensures logChunksDict == old(logChunksDict)
      ensures actVersionLine == VersionLine(lines)
      ensures found <==> FirstNonBlank(lines, 0) < |lines|
      ensures found ==> lineIdx == FirstNonBlank(lines, 0) + 1
    {
      lineIdx := 0;
      found := false;
      actVersionLine := None;
      while !found && lineIdx < |lines|
        invariant 0 <= lineIdx <= |lines|
        invariant !found ==> lineIdx <= FirstNonBlank(lines, 0)
        invariant found ==> lineIdx == FirstNonBlank(lines, 0) + 1 && actVersionLine == VersionLine(lines)
        invariant logChunksDict == old(logChunksDict)
        decreases |lines| - lineIdx, !found
      {
        actVersionLine := Some(lines[lineIdx]);
        lineIdx := lineIdx + 1;
        if !IsBlank(lines[lineIdx - 1]) {
          found := true;
        }
      }
      if !found {
        actVersionLine := None;
      }
    }

    /** The body of `SeparateLogChunks` after a valid version line at `h - 1`: the line
        loop and the closing of the last chunk. */
    method SeparateFrom(lines: seq<string>, h: nat, parse: string -> int) returns (r: Result<(), SegError>)
      modifies this
      requires 1 <= h <= |lines|
      requires h == FirstNonBlank(lines, 0) + 1 && StartsWith(lines[h - 1], "253|")
      ensures actVersionLine == old(actVersionLine)
      ensures var o := Separation(lines, separateDoorBoss, parse);
        && logChunksDict == SaveAll(old(logChunksDict), o.saved)
        && (if o.failure.None? then r.Ok? else r == Err(o.failure.value))
    {
      ghost var d0 := logChunksDict;
      var chunk, win, endTime, zoneName, selfId, line01Idx, prevLine;
      ghost var saved;
      r, chunk, win, endTime, zoneName, selfId, line01Idx, prevLine, saved := ReadLines(lines, h, parse, d0);
      if r.Err? {
        SeparationStopsAt(lines, h, |lines|, separateDoorBoss, parse);
        return;
      }
      // The open chunk is closed at the last line unless it is empty.
      SeparationCompletes(lines, h, separateDoorBoss, parse);
      r := CloseLastChunk(lines, h, parse, chunk, win, endTime, prevLine,
                          Scan(chunk, saved, win, endTime, zoneName, selfId, line01Idx), d0);
    }

    /** `SeparateLogChunks` (versions/v2.1.cs:125-255). It does what `Separation`
        describes: the dictionary receives exactly the chunks `Separation` saves, in that
        order, an exception ends the method with the error `Separation` reports, and the
        version line is the first non-blank line. */
    method SeparateLogChunks(lines: seq<string>, parse: string -> int) returns (r: Result<(), SegError>)
      modifies this
      ensures var o := Separation(lines, separateDoorBoss, parse);
        && logChunksDict == SaveAll(old(logChunksDict), o.saved)
        && (if o.failure.None? then r.Ok? else r == Err(o.failure.value))
        && actVersionLine == VersionLine(lines)
    {
      var found, lineIdx := ReadVersionLine(lines);
      if !found {
        return Err(EmptyLog);
      }
      if !StartsWith(actVersionLine.value, "253|") {
        return Err(BadHeader);
      }
      r := SeparateFrom(lines, lineIdx, parse);
    }
  }
}
