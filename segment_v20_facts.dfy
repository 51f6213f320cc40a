/** What v2.0's `ReadLine` and `Read` promise, proved about the functions of SegmentV20:
    how each kind of line moves the reader, that unmatched lines change nothing, and what
    holds of every encounter `Read` keeps. */
module SegmentV20Facts {
  import opened Wrappers
  import opened Text
  import opened Patterns
  import opened SegmentV20

  /** The door-boss option changes nothing: its arm compares a three-character prefix with
      the two-character `"41"`. */
  lemma DoorBossNeverFires(s: Reader, line: string, parse: string -> int)
    requires Ready(s)
    ensures OnLine(s, line, true, parse) == OnLine(s, line, false, parse)
  {
    if |line| >= 3 {
      assert |line[..3]| != |"41"|;
    }
  }

  /** A line that none of `ReadLine`'s patterns matches. */
  predicate Unmatched(line: string) {
    && ZoneName(line).None? && PlayerId8(line).None? && !AttackBoss(line)
    && DeathId1(line).None? && DamageDownTarget(line).None? && DirectorType2(line).None?
  }

  /** Short lines and lines no pattern matches are skipped without an error, and so are
      director lines whose type neither opens nor closes an encounter. */
  lemma SilentSkipping(s: Reader, line: string, doorBoss: bool, parse: string -> int)
    requires Ready(s)
    requires || |line| < 3
             || Unmatched(line)
             || (DirectorType2(line).Some? && !IsOpener(DirectorType2(line).value) && !IsCloser(DirectorType2(line).value))
    ensures OnLine(s, line, doorBoss, parse) == s
  {
    if |line| >= 3 {
      assert StartsWith(line, line[..3]);
      DoorBossNeverFires(s, line, parse);
    }
  }

  /** A `02|` line records the player's id and opens an encounter at the next line, in the
      current zone, with nothing counted and no start time. */
  lemma PlayerLine(s: Reader, line: string, doorBoss: bool, parse: string -> int)
    requires Ready(s) && PlayerId8(line).Some?
    ensures var r := OnLine(s, line, doorBoss, parse);
      && r.selfId == PlayerId8(line)
      && r.encounter == Blank.(zoneName := s.zoneName, line01Idx := s.line01Idx, startLineIdx := s.lineIdx + 1)
      && r.encounters == s.encounters && r.line01Idx == s.line01Idx && r.zoneName == s.zoneName
  {
    assert line[..3] == "02|";
  }

  /** Director `01` (entering) and `06` (restart after a wipe) open an encounter at the next
      line; nothing else changes. */
  lemma DirectorOpens(s: Reader, line: string, doorBoss: bool, parse: string -> int)
    requires Ready(s) && DirectorType2(line).Some? && IsOpener(DirectorType2(line).value)
    ensures var r := OnLine(s, line, doorBoss, parse);
      && r.encounter == Blank.(zoneName := s.zoneName, line01Idx := s.line01Idx, startLineIdx := s.lineIdx + 1)
      && r == s.(encounter := r.encounter)
  {
    assert line[..3] == "33|";
  }

  /** Director `02`/`03`/`11`/`12` close the encounter at this line with this line's time,
      won exactly for `03`; it is kept only if its start time is set, and the reader is
      left with a fresh encounter whose `StartLineIdx` is 0; nothing else changes. */
  lemma DirectorCloses(s: Reader, line: string, doorBoss: bool, parse: string -> int)
    requires Ready(s) && DirectorType2(line).Some? && IsCloser(DirectorType2(line).value)
    ensures var r := OnLine(s, line, doorBoss, parse);
      var t := DirectorType2(line).value;
      && r.encounter == Blank
      && r.encounters == s.encounters
           + (if s.encounter.startTime != 0
              then [s.encounter.(win := t == "03", endLineIdx := s.lineIdx, endTime := parse(line))]
              else [])
      && r == s.(encounter := Blank, encounters := r.encounters)
  {
    assert line[..3] == "33|";
  }

  /** A `01|` line makes this line the zone line and takes its zone name; an encounter open
      at that moment is saved as a loss ending at the previous line, with that line's time. */
  lemma ZoneLine(s: Reader, line: string, doorBoss: bool, parse: string -> int)
    requires Ready(s) && ZoneName(line).Some?
    ensures var r := OnLine(s, line, doorBoss, parse);
      && r.line01Idx == s.lineIdx && r.zoneName == ZoneName(line) && r.selfId == s.selfId
      && (s.encounter.startLineIdx != 0 ==>
            && r.encounter == Blank
            && r.encounters == s.encounters
                 + (if s.encounter.startTime != 0
                    then [s.encounter.(win := false, endLineIdx := s.lineIdx - 1, endTime := parse(s.prevLine.value))]
                    else []))
      && (s.encounter.startLineIdx == 0 ==> r.encounter == s.encounter && r.encounters == s.encounters)
  {
    assert line[..3] == "01|";
  }

  /** A start time, once set, is never replaced by another: it changes only from unset to
      the time of a boss-attack line, or back to unset when the encounter is replaced. */
  lemma StartTimeSetOnce(s: Reader, line: string, doorBoss: bool, parse: string -> int)
    requires Ready(s)
    ensures var r := OnLine(s, line, doorBoss, parse);
      r.encounter.startTime != s.encounter.startTime && r.encounter.startTime != 0 ==>
        s.encounter.startTime == 0 && AttackBoss(line) && r.encounter.startTime == parse(line)
  {
    if |line| >= 3 {
      DoorBossNeverFires(s, line, parse);
      assert StartsWith(line, line[..3]);
    }
  }

  /** Deaths and damage-downs only ever grow, by at most one per line and the "self" count
      only with the total, unless the line replaces the encounter by a fresh one. */
  lemma CountersGrow(s: Reader, line: string, doorBoss: bool, parse: string -> int)
    requires Ready(s)
    ensures var r := OnLine(s, line, doorBoss, parse).encounter;
      var e := s.encounter;
      || (r.startTime == 0 && r.selfDeathCount == 0 && r.totalDeathCount == 0
          && r.selfDmgDownCount == 0 && r.totalDmgDownCount == 0)
      || (&& e.totalDeathCount <= r.totalDeathCount <= e.totalDeathCount + 1
          && r.selfDeathCount - e.selfDeathCount <= r.totalDeathCount - e.totalDeathCount
          && e.selfDeathCount <= r.selfDeathCount
          && e.totalDmgDownCount <= r.totalDmgDownCount <= e.totalDmgDownCount + 1
          && r.selfDmgDownCount - e.selfDmgDownCount <= r.totalDmgDownCount - e.totalDmgDownCount
          && e.selfDmgDownCount <= r.selfDmgDownCount)
  {
    if |line| >= 3 {
      DoorBossNeverFires(s, line, parse);
    }
  }

  /** A `25|` line counts one death when the dead actor's id starts with `1` (a player),
      and one more "self" death when that id is the recorded player's; nothing else changes.
      Any other `25|` line is skipped. */
  lemma DeathLine(s: Reader, line: string, doorBoss: bool, parse: string -> int)
    requires Ready(s) && StartsWith(line, "25|")
    ensures var r := OnLine(s, line, doorBoss, parse);
      var e := s.encounter;
      match DeathId1(line)
      case None => r == s
      case Some(id) =>
        && r.encounter.totalDeathCount == e.totalDeathCount + 1
        && r.encounter.selfDeathCount == e.selfDeathCount + (if s.selfId == Some(id) then 1 else 0)
        && r.encounter == e.(selfDeathCount := r.encounter.selfDeathCount,
                             totalDeathCount := r.encounter.totalDeathCount)
        && r == s.(encounter := r.encounter)
  {
    assert line[..3] == "25|";
  }

  /** A `26|` line whose damage-down status lands on a player counts one damage-down, and
      one more "self" damage-down when the target is the recorded player; nothing else
      changes. Any other `26|` line is skipped. */
  lemma DamageDownLine(s: Reader, line: string, doorBoss: bool, parse: string -> int)
    requires Ready(s) && StartsWith(line, "26|")
    ensures var r := OnLine(s, line, doorBoss, parse);
      var e := s.encounter;
      match DamageDownTarget(line)
      case None => r == s
      case Some(id) =>
        && r.encounter.totalDmgDownCount == e.totalDmgDownCount + 1
        && r.encounter.selfDmgDownCount == e.selfDmgDownCount + (if s.selfId == Some(id) then 1 else 0)
        && r.encounter == e.(selfDmgDownCount := r.encounter.selfDmgDownCount,
                             totalDmgDownCount := r.encounter.totalDmgDownCount)
        && r == s.(encounter := r.encounter)
  {
    assert line[..3] == "26|";
  }

  // ---- What holds of every encounter ----

  predicate CountsOk(e: Encounter) {
    e.selfDeathCount <= e.totalDeathCount && e.selfDmgDownCount <= e.totalDmgDownCount
  }

  /** A saved encounter before line `k`: started, a non-empty range of lines, self <= total. */
  predicate SavedOk(e: Encounter, k: int) {
    e.startTime != 0 && 0 <= e.startLineIdx <= e.endLineIdx < k && CountsOk(e)
  }

  predicate Inv(s: Reader) {
    && 0 <= s.encounter.startLineIdx <= s.lineIdx
    && (s.encounter.startTime != 0 ==> s.encounter.startLineIdx < s.lineIdx)
    && CountsOk(s.encounter)
    && forall i | 0 <= i < |s.encounters| :: SavedOk(s.encounters[i], s.lineIdx)
  }

  lemma SaveCurInv(s: Reader, end: int, win: bool, endTime: int, k: int)
    requires Inv(s) && s.lineIdx <= k
    requires s.encounter.startTime != 0 ==> s.encounter.startLineIdx <= end < k
    ensures var r := SaveCur(s, end, win, endTime);
      r.encounter == Blank && forall i | 0 <= i < |r.encounters| :: SavedOk(r.encounters[i], k)
  {
    var r := SaveCur(s, end, win, endTime);
    forall i | 0 <= i < |r.encounters|
      ensures SavedOk(r.encounters[i], k)
    {
      if i < |s.encounters| {
        assert r.encounters[i] == s.encounters[i];
      }
    }
  }

  /** `Inv` after a line that left the saved encounters alone. */
  predicate KeptInv(s: Reader, o: Reader) {
    var k := s.lineIdx + 1;
    && o.encounters == s.encounters
    && 0 <= o.encounter.startLineIdx <= k
    && (o.encounter.startTime != 0 ==> o.encounter.startLineIdx < k)
    && CountsOk(o.encounter)
  }

  lemma KeptStepInv(s: Reader, o: Reader, line: string)
    requires Inv(s) && KeptInv(s, o)
    ensures Inv(o.(lineIdx := s.lineIdx + 1, prevLine := Some(line)))
  {
  }

  lemma ZoneArmInv(s: Reader, line: string, parse: string -> int)
    requires Ready(s) && Inv(s)
    ensures Inv(OnZone(s, line, parse).(lineIdx := s.lineIdx + 1, prevLine := Some(line)))
  {
    var o := OnZone(s, line, parse);
    if ZoneName(line).Some? && s.encounter.startLineIdx != 0 {
      SaveCurInv(s, s.lineIdx - 1, false, parse(s.prevLine.value), s.lineIdx + 1);
    } else {
      KeptStepInv(s, o, line);
    }
  }

  lemma DirectorArmInv(s: Reader, line: string, parse: string -> int)
    requires Ready(s) && Inv(s)
    ensures Inv(OnDirector(s, line, parse).(lineIdx := s.lineIdx + 1, prevLine := Some(line)))
  {
    var o := OnDirector(s, line, parse);
    if DirectorType2(line).Some? && !IsOpener(DirectorType2(line).value) && IsCloser(DirectorType2(line).value) {
      SaveCurInv(s, s.lineIdx, DirectorType2(line).value == "03", parse(line), s.lineIdx + 1);
    } else {
      KeptStepInv(s, o, line);
    }
  }

  /** The arm of `ReadLine` a line takes (versions/v2.0.cs:135-203); the door-boss arm is
      never taken (`DoorBossNeverFires`). */
  datatype Arm = Short | Zone | Player | Attack | Death | DamageDown | Director | Other

  function ArmOf(s: Reader, line: string, doorBoss: bool): Arm {
    if |line| < 3 then Short
    else
      var p := line[..3];
      if p == "01|" then Zone
      else if p == "02|" then Player
      else if s.encounter.startTime == 0 && (p == "20|" || p == "21|") then Attack
      else if p == "25|" then Death
      else if p == "26|" then DamageDown
      else if p == "33|" then Director
      else Other
  }

  lemma StepInvShort(s: Reader, line: string, doorBoss: bool, parse: string -> int)
    requires Ready(s) && Inv(s) && ArmOf(s, line, doorBoss) == Short
    ensures Inv(Step(s, line, doorBoss, parse))
  {
    KeptStepInv(s, s, line);
  }

  lemma StepInvZone(s: Reader, line: string, doorBoss: bool, parse: string -> int)
    requires Ready(s) && Inv(s) && ArmOf(s, line, doorBoss) == Zone
    ensures Inv(Step(s, line, doorBoss, parse))
  {
    ZoneArmInv(s, line, parse);
  }

  lemma StepInvPlayer(s: Reader, line: string, doorBoss: bool, parse: string -> int)
    requires Ready(s) && Inv(s) && ArmOf(s, line, doorBoss) == Player
    ensures Inv(Step(s, line, doorBoss, parse))
  {
    KeptStepInv(s, OnPlayer(s, line), line);
  }

  lemma StepInvAttack(s: Reader, line: string, doorBoss: bool, parse: string -> int)
    requires Ready(s) && Inv(s) && ArmOf(s, line, doorBoss) == Attack
    ensures Inv(Step(s, line, doorBoss, parse))
  {
    KeptStepInv(s, OnAttack(s, line, parse), line);
  }

  lemma StepInvDeath(s: Reader, line: string, doorBoss: bool, parse: string -> int)
    requires Ready(s) && Inv(s) && ArmOf(s, line, doorBoss) == Death
    ensures Inv(Step(s, line, doorBoss, parse))
  {
    KeptStepInv(s, OnDeath(s, line), line);
  }

  lemma StepInvDamageDown(s: Reader, line: string, doorBoss: bool, parse: string -> int)
    requires Ready(s) && Inv(s) && ArmOf(s, line, doorBoss) == DamageDown
    ensures Inv(Step(s, line, doorBoss, parse))
  {
    KeptStepInv(s, OnDamageDown(s, line), line);
  }

  lemma StepInvDirector(s: Reader, line: string, doorBoss: bool, parse: string -> int)
    requires Ready(s) && Inv(s) && ArmOf(s, line, doorBoss) == Director
    ensures Inv(Step(s, line, doorBoss, parse))
  {
    DirectorArmInv(s, line, parse);
  }

  lemma StepInvOther(s: Reader, line: string, doorBoss: bool, parse: string -> int)
    requires Ready(s) && Inv(s) && ArmOf(s, line, doorBoss) == Other
    ensures Inv(Step(s, line, doorBoss, parse))
  {
    DoorBossNeverFires(s, line, parse);
    KeptStepInv(s, s, line);
  }

  lemma StepInv(s: Reader, line: string, doorBoss: bool, parse: string -> int)
    requires Ready(s) && Inv(s)
    ensures Inv(Step(s, line, doorBoss, parse))
  {
    match ArmOf(s, line, doorBoss)
    case Short => StepInvShort(s, line, doorBoss, parse);
    case Zone => StepInvZone(s, line, doorBoss, parse);
    case Player => StepInvPlayer(s, line, doorBoss, parse);
    case Attack => StepInvAttack(s, line, doorBoss, parse);
    case Death => StepInvDeath(s, line, doorBoss, parse);
    case DamageDown => StepInvDamageDown(s, line, doorBoss, parse);
    case Director => StepInvDirector(s, line, doorBoss, parse);
    case Other => StepInvOther(s, line, doorBoss, parse);
  }

  lemma {:induction false} RunInv(s: Reader, lines: seq<string>, doorBoss: bool, parse: string -> int)
    requires Ready(s) && Inv(s)
    ensures Inv(Run(s, lines, doorBoss, parse))
    ensures Run(s, lines, doorBoss, parse).lineIdx == s.lineIdx + |lines|
    decreases |lines|
  {
    if lines != [] {
      RunInv(s, lines[..|lines| - 1], doorBoss, parse);
      StepInv(Run(s, lines[..|lines| - 1], doorBoss, parse), lines[|lines| - 1], doorBoss, parse);
    }
  }

  // ---- `Read`'s filter ----

  lemma {:induction false} LegalAppend(a: seq<Encounter>, b: seq<Encounter>)
    ensures Legal(a + b) == Legal(a) + Legal(b)
    decreases |a|
  {
    if a != [] {
      var x := if LongEnough(a[0]) then [a[0]] else [];
      assert (a + b)[0] == a[0];
      assert (a + b)[1..] == a[1..] + b;
      LegalAppend(a[1..], b);
      calc {
        Legal(a + b);
        x + Legal(a[1..] + b);
        x + (Legal(a[1..]) + Legal(b));
        (x + Legal(a[1..])) + Legal(b);
        Legal(a) + Legal(b);
      }
    } else {
      assert a + b == b;
    }
  }

  /** `Legal` is the order-preserving filter: it distributes over concatenation and keeps
      a single encounter exactly when it lasts at least 20 seconds. */
  lemma LegalIsFilter(a: seq<Encounter>, b: seq<Encounter>, e: Encounter)
    ensures Legal(a + b) == Legal(a) + Legal(b)
    ensures Legal([e]) == if LongEnough(e) then [e] else []
  {
    LegalAppend(a, b);
    assert [e][1..] == [];
  }

  lemma {:induction false} LegalMembers(es: seq<Encounter>, e: Encounter)
    ensures e in Legal(es) <==> e in es && LongEnough(e)
    decreases |es|
  {
    if es != [] {
      LegalMembers(es[1..], e);
      assert es == [es[0]] + es[1..];
    }
  }

  /** Every encounter that `Read` keeps from a fresh reader was started, spans a non-empty
      range of the file's lines, lasts at least 20 seconds and counts no more "self" events
      than events. */
  lemma ReadSound(lines: seq<string>, doorBoss: bool, parse: string -> int)
    ensures var r := ReadAll(Fresh, lines, doorBoss, parse);
      forall e | e in r.encounters :: SavedOk(e, |lines|) && LongEnough(e)
  {
    var s := Run(Fresh, lines, doorBoss, parse);
    RunInv(Fresh, lines, doorBoss, parse);
    var f := Abandon(s, parse);
    if s.encounter.startLineIdx != 0 {
      SaveCurInv(s, s.lineIdx - 1, false, parse(s.prevLine.value), |lines|);
    }
    assert forall i | 0 <= i < |f.encounters| :: SavedOk(f.encounters[i], |lines|);
    forall e | e in ReadAll(Fresh, lines, doorBoss, parse).encounters
      ensures SavedOk(e, |lines|) && LongEnough(e)
    {
      LegalMembers(f.encounters, e);
    }
  }
}
