/** The scan loops of the Python scripts as a class whose fields are the variables the
    loop and `initialize()` update: the locals and `nonlocal`s of `readLogFile` in
    versions/v1.0.py:22-103, the globals of versions/1.0.py:12-88, v0.1.py:16-96 and
    1.py:8-88. Each method is proved to move the fields as PyScan says. */
module PyReader {
  import opened Wrappers
  import opened Text
  import opened Patterns
  import opened PyScan
  import opened PyScanFacts

  lemma RunSnoc(script: Script, s: State, lines: seq<string>, k: nat, parse: string -> int)
    requires k < |lines| && Run(script, s, lines[..k], parse).Some?
    ensures Run(script, s, lines[..k + 1], parse) == Step(script, Run(script, s, lines[..k], parse).value, lines[k], parse)
  {
    assert lines[..k + 1][..k] == lines[..k];
  }

  lemma RunStuck(script: Script, s: State, lines: seq<string>, k: nat, parse: string -> int)
    requires k <= |lines| && Run(script, s, lines[..k], parse).None?
    ensures Run(script, s, lines, parse).None?
    decreases |lines| - k
  {
    if k < |lines| {
      assert lines[..k + 1][..k] == lines[..k];
      RunStuck(script, s, lines, k + 1, parse);
    } else {
      assert lines[..k] == lines;
    }
  }

  class LogScanner {
    const script: Script
    var lineCount: int
    var selfId: string
    var mapName: string
    var zoneName: string
    var line01: Option<int>
    var all01Lines: seq<int>
    var startTimestamp: int
    var startTimeStr: string
    var startLine: int
    var selfDeathCount: nat
    var selfDmgdownCount: nat
    var totalDeathCount: nat
    var totalDmgdownCount: nat
    var fights: seq<Fight>

    /** The fields as one value. */
    function State(): State
      reads this
    {
      PyScan.State(lineCount, selfId, mapName, zoneName, line01, all01Lines, startTimestamp, startTimeStr,
                   startLine, selfDeathCount, selfDmgdownCount, totalDeathCount, totalDmgdownCount, fights)
    }

    constructor(script: Script)
      ensures this.script == script && State() == Start(script)
    {
      this.script := script;
      lineCount, selfId, mapName, zoneName := 0, "", "", "";
      line01, all01Lines, fights := None, [], [];
      selfDeathCount, selfDmgdownCount, totalDeathCount, totalDmgdownCount := 0, 0, 0, 0;
      startTimeStr, startTimestamp, startLine := InitialStartTime(script), 0, 0;
    }

    /** `initialize()` (versions/v1.0.py:33-38, versions/1.0.py:12-14, v0.1.py:21-23,
        1.py:13-15). */
    method Initialize()
      modifies this
      ensures lineCount == old(lineCount)
      ensures State() == PyScan.Initialize(script, old(State()))
    {
      ghost var s := State();
      var t := PyScan.Initialize(script, s);
      selfDeathCount, selfDmgdownCount, totalDeathCount, totalDmgdownCount := 0, 0, 0, 0;
      startTimeStr, startTimestamp, startLine := InitialStartTime(script), 0, 0;
      assert State() == t;
    }

    /** The `01|` arm (versions/v1.0.py:59-64, versions/1.0.py:48-51, v0.1.py:50-53,
        1.py:42-47). */
    method MapLine(name: string)
      modifies this
      ensures lineCount == old(lineCount)
      ensures State() == OnMap(script, old(State()), name)
    {
      mapName := name;
      if script == CheckboxGui {
        line01 := Some(lineCount);
        all01Lines := all01Lines + [lineCount];
      } else if script == FirstConsole {
        Initialize();
        startLine := lineCount + 3;
      }
    }

    /** The `02|` arm (versions/v1.0.py:67-72, versions/1.0.py:54-59, v0.1.py:62-67,
        1.py:56-59). */
    method SelfLine(id: string)
      modifies this
      ensures lineCount == old(lineCount)
      ensures State() == OnSelf(script, old(State()), id)
    {
      selfId := id;
      if script != FirstConsole {
        Initialize();
        startLine := lineCount + 1;
      }
    }

    /** The `25|` arm (versions/v1.0.py:75-80 and the same lines of the others). */
    method DeathLine(id: string)
      modifies this
      ensures lineCount == old(lineCount)
      ensures State() == OnDeath(old(State()), id)
    {
      if selfId == id {
        selfDeathCount := selfDeathCount + 1;
      }
      totalDeathCount := totalDeathCount + 1;
    }

    /** The `26|` arm (versions/v1.0.py:83-88 and the same lines of the others). */
    method DmgDownLine(id: string)
      modifies this
      ensures lineCount == old(lineCount)
      ensures State() == OnDmgDown(old(State()), id)
    {
      if selfId == id {
        selfDmgdownCount := selfDmgdownCount + 1;
      }
      totalDmgdownCount := totalDmgdownCount + 1;
    }

    /** The `33|` arm (versions/v1.0.py:91-103, versions/1.0.py:78-88, v0.1.py:86-96,
        1.py:78-88); `ok` is false when the row cannot be built. */
    method DirectorLine(ty: string, line: string, parse: string -> int) returns (ok: bool)
      requires |ty| == 2
      modifies this
      ensures lineCount == old(lineCount)
      ensures ok <==> OnDirector(script, old(State()), ty, line, parse).Some?
      ensures ok ==> State() == OnDirector(script, old(State()), ty, line, parse).value
    {
      ok := true;
      if IsOpener(ty) {
        Initialize();
        startLine := lineCount;
      } else if IsCloser(script, ty) && startTimestamp != 0 {
        if script == CheckboxGui && line01.None? {
          return false;
        }
        var d := parse(line) - startTimestamp;
        var fight := Fight(startLine, lineCount, startTimeStr, DurationText(script, d), ty[0] == '0',
          mapName, if HasZoneInfo(script) then Some(zoneName) else None,
          selfDeathCount, selfDmgdownCount, totalDeathCount, totalDmgdownCount,
          if script == CheckboxGui then line01 else None);
        fights := fights + [fight];
      }
    }

    /** The body of the loop after `lineCount += 1`. */
    method ReadLine(line: string, parse: string -> int) returns (ok: bool)
      modifies this
      ensures lineCount == old(lineCount)
      ensures ok <==> OnLine(script, old(State()), line, parse).Some?
      ensures ok ==> State() == OnLine(script, old(State()), line, parse).value
    {
      ghost var s := State();
      ok := true;
      if PySlice(line, 0, 3) !in Examined(script) {
        ShapeQuiet(script, s, line, parse);
        return;
      }
      if startTimestamp == 0 && AttackBoss(line) {
        ShapeAttack(script, s, line, parse);
        startTimestamp := parse(line);
        startTimeStr := StartTimeOf(script, line);
        return;
      }
      var reMap := ZoneName(line);
      if reMap.Some? {
        ShapeMap(script, s, line, parse);
        MapLine(reMap.value);
        return;
      }
      if HasZoneInfo(script) {
        var zone := Zone40Name(line);
        if zone.Some? {
          ShapeZoneInfo(script, s, line, parse);
          zoneName := zone.value;
          return;
        }
      }
      var self := PlayerId8(line);
      if self.Some? {
        ShapeSelf(script, s, line, parse);
        SelfLine(self.value);
        return;
      }
      var death := DeathId1(line);
      if death.Some? {
        ShapeDeath(script, s, line, parse);
        DeathLine(death.value);
        return;
      }
      var dmgdown := DamageDownTarget(line);
      if dmgdown.Some? {
        ShapeDmgDown(script, s, line, parse);
        DmgDownLine(dmgdown.value);
        return;
      }
      var director := DirectorType2(line);
      if director.Some? {
        ShapeDirector(script, s, line, parse);
        ok := DirectorLine(director.value, line, parse);
        return;
      }
      ShapeQuiet(script, s, line, parse);
    }

    /** `lineCount += 1`. */
    method CountLine()
      modifies this
      ensures State() == Counted(old(State()))
    {
      lineCount := lineCount + 1;
    }

    /** The loop over the log's lines; `ok` is false when a line raised. */
    method ReadLines(lines: seq<string>, parse: string -> int) returns (ok: bool)
      modifies this
      ensures ok <==> Run(script, old(State()), lines, parse).Some?
      ensures ok ==> State() == Run(script, old(State()), lines, parse).value
    {
      ghost var s0 := State();
      var k := 0;
      while k < |lines|
        invariant 0 <= k <= |lines|
        invariant Run(script, s0, lines[..k], parse) == Some(State())
      {
        RunSnoc(script, s0, lines, k, parse);
        ghost var before := State();
        assert Step(script, before, lines[k], parse) == OnLine(script, Counted(before), lines[k], parse);
        CountLine();
        ok := ReadLine(lines[k], parse);
        if !ok {
          RunStuck(script, s0, lines, k + 1, parse);
          return;
        }
        k := k + 1;
      }
      assert lines[..k] == lines;
      ok := true;
    }

    /** `readLogFile` (versions/v1.0.py:22-103, versions/1.0.py:21-88) and the top-level
        scans of v0.1.py:16-96 and 1.py:8-88: every variable starts afresh, then the loop. */
    method ReadLogFile(lines: seq<string>, parse: string -> int) returns (ok: bool)
      modifies this
      ensures ok <==> Scan(script, lines, parse).Some?
      ensures ok ==> State() == Scan(script, lines, parse).value
    {
      lineCount, selfId, mapName, zoneName := 0, "", "", "";
      line01, all01Lines, fights := None, [], [];
      Initialize();
      ok := ReadLines(lines, parse);
    }
  }
}
