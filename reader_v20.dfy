/** v2.0's `LogReader` (versions/v2.0.cs:49-217) as a class whose fields `ReadLine` and
    `Read` update in place, each method proved to move the fields as SegmentV20 says. */
module ReaderV20 {
  import opened Wrappers
  import opened Text
  import opened Patterns
  import opened SegmentV20

  // Which arm of `ReadLine` a line takes, one lemma per arm.

  lemma ArmZone(s: Reader, line: string, doorBoss: bool, parse: string -> int)
    requires Ready(s) && |line| >= 3 && line[..3] == "01|"
    ensures OnLine(s, line, doorBoss, parse) == OnZone(s, line, parse)
  {
  }

  lemma ArmPlayer(s: Reader, line: string, doorBoss: bool, parse: string -> int)
    requires Ready(s) && |line| >= 3 && line[..3] == "02|"
    ensures OnLine(s, line, doorBoss, parse) == OnPlayer(s, line)
  {
  }

  lemma ArmAttack(s: Reader, line: string, doorBoss: bool, parse: string -> int)
    requires Ready(s) && |line| >= 3 && s.encounter.startTime == 0 && (line[..3] == "20|" || line[..3] == "21|")
    ensures OnLine(s, line, doorBoss, parse) == OnAttack(s, line, parse)
  {
  }

  lemma ArmDeath(s: Reader, line: string, doorBoss: bool, parse: string -> int)
    requires Ready(s) && |line| >= 3 && line[..3] == "25|"
    ensures OnLine(s, line, doorBoss, parse) == OnDeath(s, line)
  {
  }

  lemma ArmDamageDown(s: Reader, line: string, doorBoss: bool, parse: string -> int)
    requires Ready(s) && |line| >= 3 && line[..3] == "26|"
    ensures OnLine(s, line, doorBoss, parse) == OnDamageDown(s, line)
  {
  }

  lemma ArmDirector(s: Reader, line: string, doorBoss: bool, parse: string -> int)
    requires Ready(s) && |line| >= 3 && line[..3] == "33|"
    ensures OnLine(s, line, doorBoss, parse) == OnDirector(s, line, parse)
  {
  }

  lemma ArmNone(s: Reader, line: string, doorBoss: bool, parse: string -> int)
    requires Ready(s) && |line| >= 3
    requires var p := line[..3];
      && p != "01|" && p != "02|" && !(s.encounter.startTime == 0 && (p == "20|" || p == "21|"))
      && p != "25|" && p != "26|" && p != "33|" && !(doorBoss && p == "41")
    ensures OnLine(s, line, doorBoss, parse) == s
  {
  }

  lemma RunSnoc(s: Reader, lines: seq<string>, k: nat, doorBoss: bool, parse: string -> int)
    requires Ready(s) && k < |lines|
    ensures Run(s, lines[..k + 1], doorBoss, parse) == Step(Run(s, lines[..k], doorBoss, parse), lines[k], doorBoss, parse)
  {
    assert lines[..k + 1][..k] == lines[..k];
  }

  class LogReader {
    const separateDoorBoss: bool
    var encounters: seq<Encounter>
    var encounter: Encounter
    var lineIdx: int
    var line01Idx: int
    var zoneName: Option<string>
    var selfId: Option<string>
    var prevLine: Option<string>

    /** The fields as one value. */
    function State(): Reader
      reads this
    {
      Reader(lineIdx, line01Idx, zoneName, selfId, prevLine, encounter, encounters)
    }

    constructor(separateDoorBoss: bool)
      ensures this.separateDoorBoss == separateDoorBoss
      ensures State() == Fresh
    {
      this.separateDoorBoss := separateDoorBoss;
      encounters := [];
      encounter := Blank;
      lineIdx := 0;
      line01Idx := 0;
      zoneName := None;
      selfId := None;
      prevLine := None;
    }

    /** `SetNewEncounter` (versions/v2.0.cs:108-116): a fresh encounter of the current zone
        line and zone name, starting at `startLineIndex`. */
    method SetNewEncounter(startLineIndex: int)
      modifies this
      ensures lineIdx == old(lineIdx) && prevLine == old(prevLine)
      ensures State() == SetNew(old(State()), startLineIndex)
      ensures encounter.startTime == 0 && encounter.startLineIdx == startLineIndex
      ensures encounter.zoneName == zoneName && encounter.line01Idx == line01Idx
    {
      encounter := Blank.(zoneName := zoneName, line01Idx := line01Idx, startLineIdx := startLineIndex);
    }

    /** `SaveCurrentEncounter` (versions/v2.0.cs:118-129): the open encounter is completed
        and appended only when its start time is set; either way a fresh encounter with
        `StartLineIdx` 0 replaces it. */
    method SaveCurrentEncounter(endLineIndex: int, win: bool, endTime: int)
      modifies this
      ensures lineIdx == old(lineIdx) && prevLine == old(prevLine)
      ensures State() == SaveCur(old(State()), endLineIndex, win, endTime)
      ensures encounter == Blank
      ensures old(encounter).startTime != 0 ==>
        encounters == old(encounters) + [old(encounter).(win := win, endLineIdx := endLineIndex, endTime := endTime)]
      ensures old(encounter).startTime == 0 ==> encounters == old(encounters)
    {
      if encounter.startTime != 0 {
        encounters := encounters + [encounter.(win := win, endLineIdx := endLineIndex, endTime := endTime)];
      }
      encounter := Blank;
    }

    /** The `01|` arm (versions/v2.0.cs:137-146). */
    method ZoneLine(line: string, parse: string -> int)
      modifies this
      ensures lineIdx == old(lineIdx) && prevLine == old(prevLine)
      requires Ready(State())
      ensures State() == OnZone(old(State()), line, parse)
    {
      var z := ZoneName(line);
      if z.None? {
        return;
      }
      if encounter.startLineIdx != 0 {
        SaveCurrentEncounter(lineIdx - 1, false, parse(prevLine.value));
      }
      line01Idx := lineIdx;
      zoneName := z;
    }

    /** The `02|` arm (versions/v2.0.cs:147-154). */
    method PlayerLine(line: string)
      modifies this
      ensures lineIdx == old(lineIdx) && prevLine == old(prevLine)
      ensures State() == OnPlayer(old(State()), line)
    {
      var id := PlayerId8(line);
      if id.None? {
        return;
      }
      selfId := id;
      SetNewEncounter(lineIdx + 1);
    }

    /** The `25|` arm (versions/v2.0.cs:162-171). */
    method DeathLine(line: string)
      modifies this
      ensures lineIdx == old(lineIdx) && prevLine == old(prevLine)
      ensures State() == OnDeath(old(State()), line)
    {
      var id := DeathId1(line);
      if id.None? {
        return;
      }
      if selfId == id {
        encounter := encounter.(selfDeathCount := encounter.selfDeathCount + 1);
      }
      encounter := encounter.(totalDeathCount := encounter.totalDeathCount + 1);
    }

    /** The `26|` arm (versions/v2.0.cs:172-181). */
    method DamageDownLine(line: string)
      modifies this
      ensures lineIdx == old(lineIdx) && prevLine == old(prevLine)
      ensures State() == OnDamageDown(old(State()), line)
    {
      var id := DamageDownTarget(line);
      if id.None? {
        return;
      }
      if selfId == id {
        encounter := encounter.(selfDmgDownCount := encounter.selfDmgDownCount + 1);
      }
      encounter := encounter.(totalDmgDownCount := encounter.totalDmgDownCount + 1);
    }

    /** The `33|` arm (versions/v2.0.cs:182-208). */
    method DirectorLine(line: string, parse: string -> int)
      modifies this
      ensures lineIdx == old(lineIdx) && prevLine == old(prevLine)
      ensures State() == OnDirector(old(State()), line, parse)
    {
      var t := DirectorType2(line);
      if t.None? {
        return;
      }
      if IsOpener(t.value) {
        SetNewEncounter(lineIdx + 1);
      } else if IsCloser(t.value) {
        SaveCurrentEncounter(lineIdx, t.value == "03", parse(line));
      }
    }

    /** `ReadLine` (versions/v2.0.cs:131-217). */
    method ReadLine(line: string, parse: string -> int)
      modifies this
      ensures lineIdx == old(lineIdx) && prevLine == old(prevLine)
      requires Ready(State())
      ensures State() == OnLine(old(State()), line, separateDoorBoss, parse)
    {
      ghost var s := State();
      if |line| < 3 {
        return;
      }
      var prefix := line[..3];
      if prefix == "01|" {
        ArmZone(s, line, separateDoorBoss, parse);
        ZoneLine(line, parse);
      } else if prefix == "02|" {
        ArmPlayer(s, line, separateDoorBoss, parse);
        PlayerLine(line);
      } else if encounter.startTime == 0 && (prefix == "20|" || prefix == "21|") {
        ArmAttack(s, line, separateDoorBoss, parse);
        if !AttackBoss(line) {
          return;
        }
        encounter := encounter.(startTime := parse(line));
      } else if prefix == "25|" {
        ArmDeath(s, line, separateDoorBoss, parse);
        DeathLine(line);
      } else if prefix == "26|" {
        ArmDamageDown(s, line, separateDoorBoss, parse);
        DamageDownLine(line);
      } else if prefix == "33|" {
        ArmDirector(s, line, separateDoorBoss, parse);
        DirectorLine(line, parse);
      } else if separateDoorBoss && prefix == "41" {
        // The door-boss arm (versions/v2.0.cs:209-216) compares the three-character prefix
        // with "41", so its body, a limit-break clear saving the encounter as a win, never runs.
        assert false;
      } else {
        ArmNone(s, line, separateDoorBoss, parse);
      }
    }

    /** `Read`'s loop (versions/v2.0.cs:84-89). */
    method ReadLines(lines: seq<string>, parse: string -> int)
      modifies this
      requires Ready(State())
      ensures State() == Run(old(State()), lines, separateDoorBoss, parse)
    {
      ghost var s0 := State();
      var k := 0;
      while k < |lines|
        invariant 0 <= k <= |lines|
        invariant State() == Run(s0, lines[..k], separateDoorBoss, parse)
      {
        RunSnoc(s0, lines, k, separateDoorBoss, parse);
        ReadLine(lines[k], parse);
        lineIdx := lineIdx + 1;
        prevLine := Some(lines[k]);
        k := k + 1;
      }
      assert lines[..k] == lines;
    }

    /** `Read` (versions/v2.0.cs:80-100): every line through `ReadLine`, counting lines and
        remembering the previous one; an encounter still open at the end is saved as a
        loss ending at the last line with its time; then only encounters of at least 20
        seconds are kept, in order. */
    method Read(lines: seq<string>, parse: string -> int)
      modifies this
      requires Ready(State())
      ensures State() == ReadAll(old(State()), lines, separateDoorBoss, parse)
    {
      ReadLines(lines, parse);
      if encounter.startLineIdx != 0 {
        SaveCurrentEncounter(lineIdx - 1, false, parse(prevLine.value));
      }
      encounters := Legal(encounters);
    }
  }
}
