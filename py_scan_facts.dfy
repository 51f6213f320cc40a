/** What the Python scan loops guarantee: the prefix filter only saves work, counters of
    the player never exceed the totals, a start time is set once per reset, fights are
    appended in line order and only by a closing director line, and only versions/v1.0.py
    can abort. */
module PyScanFacts {
  import opened Wrappers
  import opened Text
  import opened Patterns
  import opened PyScan

  // ---- Which arm a line takes ----

  datatype Arm = Filtered | Attack | Map | ZoneInfo | Self | Death | DmgDown | Director | Unmatched

  function ArmOf(script: Script, s: State, line: string): Arm {
    if PySlice(line, 0, 3) !in Examined(script) then Filtered
    else if s.startTimestamp == 0 && AttackBoss(line) then Attack
    else if ZoneName(line).Some? then Map
    else if HasZoneInfo(script) && Zone40Name(line).Some? then ZoneInfo
    else if PlayerId8(line).Some? then Self
    else if DeathId1(line).Some? then Death
    else if DamageDownTarget(line).Some? then DmgDown
    else if DirectorType2(line).Some? then Director
    else Unmatched
  }

  /** The line's first three characters, when it has them. */
  lemma PrefixOf(line: string, p: string)
    requires |p| == 3 && StartsWith(line, p)
    ensures PySlice(line, 0, 3) == p
  {
  }

  lemma AttackPrefix(line: string)
    requires AttackBoss(line)
    ensures PySlice(line, 0, 3) == "21|" || PySlice(line, 0, 3) == "22|"
  {
    var p := PySlice(line, 0, 3);
    assert p == [line[0], line[1], line[2]];
  }

  /** The dispatch without the prefix filter. */
  function OnLineAll(script: Script, s: State, line: string, parse: string -> int): Option<State> {
    if s.startTimestamp == 0 && AttackBoss(line) then Some(OnAttack(script, s, line, parse))
    else if ZoneName(line).Some? then Some(OnMap(script, s, ZoneName(line).value))
    else if HasZoneInfo(script) && Zone40Name(line).Some? then Some(OnZoneInfo(s, Zone40Name(line).value))
    else if PlayerId8(line).Some? then Some(OnSelf(script, s, PlayerId8(line).value))
    else if DeathId1(line).Some? then Some(OnDeath(s, DeathId1(line).value))
    else if DamageDownTarget(line).Some? then Some(OnDmgDown(s, DamageDownTarget(line).value))
    else if DirectorType2(line).Some? then OnDirector(script, s, DirectorType2(line).value, line, parse)
    else Some(s)
  }

  /** The prefix filter only saves work: every pattern the loop tries is anchored on one of
      the listed prefixes, so dropping the filter changes nothing. */
  lemma FilterIsShortcut(script: Script, s: State, line: string, parse: string -> int)
    ensures OnLine(script, s, line, parse) == OnLineAll(script, s, line, parse)
  {
    var p := PySlice(line, 0, 3);
    if p !in Examined(script) {
      if AttackBoss(line) {
        AttackPrefix(line);
        assert false;
      }
      if ZoneName(line).Some? {
        PrefixOf(line, "01|");
        assert false;
      }
      if HasZoneInfo(script) && Zone40Name(line).Some? {
        PrefixOf(line, "40|");
        assert false;
      }
      if PlayerId8(line).Some? {
        PrefixOf(line, "02|");
        assert false;
      }
      if DeathId1(line).Some? {
        PrefixOf(line, "25|");
        assert false;
      }
      if DamageDownTarget(line).Some? {
        PrefixOf(line, "26|");
        assert false;
      }
      if DirectorType2(line).Some? {
        PrefixOf(line, "33|");
        assert false;
      }
    }
  }

  // ---- One step ----

  /** Once set, the start time changes only back to 0 on a reset; it is set from 0 only by
      a boss attack line, to that line's time. */
  lemma StartTimeSetOnce(script: Script, s: State, line: string, parse: string -> int, t: State)
    requires Step(script, s, line, parse) == Some(t)
    requires t.startTimestamp != s.startTimestamp && t.startTimestamp != 0
    ensures s.startTimestamp == 0 && AttackBoss(line) && t.startTimestamp == parse(line)
  {
  }

  /** A fight is appended only by a closing director line after the start time was set;
      it ends on the current line and its flag says kill exactly for type `03`. */
  lemma FightAppendedOnClose(script: Script, s: State, line: string, parse: string -> int, t: State)
    requires Step(script, s, line, parse) == Some(t) && t.fights != s.fights
    ensures DirectorType2(line).Some? && IsCloser(script, DirectorType2(line).value)
    ensures s.startTimestamp != 0
    ensures |t.fights| == |s.fights| + 1 && t.fights[..|s.fights|] == s.fights
    ensures var f := t.fights[|s.fights|];
      && f.endLine == s.lineCount + 1 && f.startLine == s.startLine
      && (f.kill <==> DirectorType2(line).value == "03")
  {
    var s1 := Counted(s);
    match ArmOf(script, s1, line)
    case Filtered => ShapeQuiet(script, s1, line, parse);
    case Unmatched => ShapeQuiet(script, s1, line, parse);
    case Attack => ShapeAttack(script, s1, line, parse);
    case Map => ShapeMap(script, s1, line, parse);
    case ZoneInfo => ShapeZoneInfo(script, s1, line, parse);
    case Self => ShapeSelf(script, s1, line, parse);
    case Death => ShapeDeath(script, s1, line, parse);
    case DmgDown => ShapeDmgDown(script, s1, line, parse);
    case Director =>
      ShapeDirector(script, s1, line, parse);
      var ty := DirectorType2(line).value;
      var f := NewFight(script, s1, ty, line, parse);
      assert t.fights == s.fights + [f];
      assert (s.fights + [f])[..|s.fights|] == s.fights;
  }

  /** Only versions/v1.0.py can abort, and only on a fight closing before the first zone
      line. */
  lemma AbortIff(script: Script, s: State, line: string, parse: string -> int)
    ensures Step(script, s, line, parse).None? <==>
      && script == CheckboxGui && s.line01.None? && s.startTimestamp != 0
      && DirectorType2(line).Some? && IsCloser(script, DirectorType2(line).value)
  {
    var s1 := s.(lineCount := s.lineCount + 1);
    if DirectorType2(line).Some? {
      PrefixOf(line, "33|");
      assert PySlice(line, 0, 3) in Examined(script);
      assert !AttackBoss(line) by {
        if AttackBoss(line) {
          AttackPrefix(line);
        }
      }
      assert ZoneName(line).None? by {
        if ZoneName(line).Some? {
          PrefixOf(line, "01|");
        }
      }
      assert Zone40Name(line).None? by {
        if Zone40Name(line).Some? {
          PrefixOf(line, "40|");
        }
      }
      assert PlayerId8(line).None? by {
        if PlayerId8(line).Some? {
          PrefixOf(line, "02|");
        }
      }
      assert DeathId1(line).None? by {
        if DeathId1(line).Some? {
          PrefixOf(line, "25|");
        }
      }
      assert DamageDownTarget(line).None? by {
        if DamageDownTarget(line).Some? {
          PrefixOf(line, "26|");
        }
      }
      assert ArmOf(script, s1, line) == Director;
    }
  }

  /** The other three scripts always scan the whole log. */
  lemma {:induction false} OnlyCheckboxAborts(script: Script, s: State, lines: seq<string>, parse: string -> int)
    requires script != CheckboxGui
    ensures Run(script, s, lines, parse).Some?
    decreases |lines|
  {
    if lines != [] {
      OnlyCheckboxAborts(script, s, lines[..|lines| - 1], parse);
      var t := Run(script, s, lines[..|lines| - 1], parse).value;
      AbortIff(script, t, lines[|lines| - 1], parse);
    }
  }

  // ---- The invariant of the loop ----

  /** How far past the current line `startLine` can point: the line after a `02|` line,
      or three lines after a `01|` line in 1.py. */
  function Lead(script: Script): nat {
    if script == FirstConsole then 3 else 1
  }

  predicate CountsOk(s: State) {
    s.selfDeaths <= s.totalDeaths && s.selfDmgDowns <= s.totalDmgDowns
  }

  /** What holds of every fight appended by the time `lineCount` lines are read. */
  predicate FightOk(script: Script, f: Fight, lineCount: int) {
    && f.selfDeaths <= f.totalDeaths && f.selfDmgDowns <= f.totalDmgDowns
    && 1 <= f.endLine <= lineCount
    && 0 <= f.startLine <= f.endLine + Lead(script) - 1
    && (f.line01.Some? <==> script == CheckboxGui)
  }

  /** versions/v1.0.py's zone lines: increasing, already read, the last one is
      `startLine01`, and every fight lies after its own zone line and before the next. */
  predicate ZonesOk(script: Script, s: State) {
    if script != CheckboxGui then s.line01.None? && s.all01 == []
    else
      && (forall i, j | 0 <= i < j < |s.all01| :: s.all01[i] < s.all01[j])
      && (forall i | 0 <= i < |s.all01| :: 1 <= s.all01[i] <= s.lineCount)
      && (s.line01.None? <==> s.all01 == [])
      && (s.line01.Some? ==> s.line01.value == s.all01[|s.all01| - 1])
      && forall f | f in s.fights ::
           && f.line01.Some? && f.line01.value in s.all01 && f.line01.value <= f.endLine
           && forall a | a in s.all01 :: !(f.line01.value < a <= f.endLine)
  }

  predicate Inv(script: Script, s: State) {
    && s.lineCount >= 0
    && CountsOk(s)
    && 0 <= s.startLine <= s.lineCount + Lead(script)
    && (forall i | 0 <= i < |s.fights| :: FightOk(script, s.fights[i], s.lineCount))
    && (forall i, j | 0 <= i < j < |s.fights| :: s.fights[i].endLine < s.fights[j].endLine)
    && ZonesOk(script, s)
  }

  lemma StartInv(script: Script)
    ensures Inv(script, Start(script))
  {
  }

  // What each arm computes, one lemma per arm.

  lemma ShapeQuiet(script: Script, s: State, line: string, parse: string -> int)
    requires ArmOf(script, s, line) == Filtered || ArmOf(script, s, line) == Unmatched
    ensures OnLine(script, s, line, parse) == Some(s)
  {
  }

  lemma ShapeAttack(script: Script, s: State, line: string, parse: string -> int)
    requires ArmOf(script, s, line) == Attack
    ensures OnLine(script, s, line, parse) == Some(OnAttack(script, s, line, parse))
  {
  }

  lemma ShapeMap(script: Script, s: State, line: string, parse: string -> int)
    requires ArmOf(script, s, line) == Map
    ensures OnLine(script, s, line, parse) == Some(OnMap(script, s, ZoneName(line).value))
  {
  }

  lemma ShapeZoneInfo(script: Script, s: State, line: string, parse: string -> int)
    requires ArmOf(script, s, line) == ZoneInfo
    ensures OnLine(script, s, line, parse) == Some(OnZoneInfo(s, Zone40Name(line).value))
  {
  }

  lemma ShapeSelf(script: Script, s: State, line: string, parse: string -> int)
    requires ArmOf(script, s, line) == Self
    ensures OnLine(script, s, line, parse) == Some(OnSelf(script, s, PlayerId8(line).value))
  {
  }

  lemma ShapeDeath(script: Script, s: State, line: string, parse: string -> int)
    requires ArmOf(script, s, line) == Death
    ensures OnLine(script, s, line, parse) == Some(OnDeath(s, DeathId1(line).value))
  {
  }

  lemma ShapeDmgDown(script: Script, s: State, line: string, parse: string -> int)
    requires ArmOf(script, s, line) == DmgDown
    ensures OnLine(script, s, line, parse) == Some(OnDmgDown(s, DamageDownTarget(line).value))
  {
  }

  lemma ShapeDirector(script: Script, s: State, line: string, parse: string -> int)
    requires ArmOf(script, s, line) == Director
    ensures DirectorType2(line).Some?
    ensures OnLine(script, s, line, parse) == OnDirector(script, s, DirectorType2(line).value, line, parse)
  {
  }

  // The invariant across each arm's update; `s` is the state before `lineCount += 1`.

  function Counted(s: State): State {
    s.(lineCount := s.lineCount + 1)
  }

  lemma InvCounted(script: Script, s: State)
    requires Inv(script, s)
    ensures Inv(script, Counted(s))
  {
  }

  lemma InvAttack(script: Script, s: State, line: string, parse: string -> int)
    requires Inv(script, s)
    ensures Inv(script, OnAttack(script, Counted(s), line, parse))
  {
  }

  lemma InvMap(script: Script, s: State, name: string)
    requires Inv(script, s)
    ensures Inv(script, OnMap(script, Counted(s), name))
  {
    var t := OnMap(script, Counted(s), name);
    if script == CheckboxGui {
      var z := s.lineCount + 1;
      assert t.all01 == s.all01 + [z];
      forall f | f in t.fights
        ensures f.line01.Some? && f.line01.value in t.all01 && f.line01.value <= f.endLine
        ensures forall a | a in t.all01 :: !(f.line01.value < a <= f.endLine)
      {
        var i :| 0 <= i < |s.fights| && s.fights[i] == f;
        assert FightOk(script, s.fights[i], s.lineCount);
      }
    }
  }

  lemma InvZoneInfo(script: Script, s: State, name: string)
    requires Inv(script, s)
    ensures Inv(script, OnZoneInfo(Counted(s), name))
  {
  }

  lemma InvSelf(script: Script, s: State, id: string)
    requires Inv(script, s)
    ensures Inv(script, OnSelf(script, Counted(s), id))
  {
  }

  lemma InvDeath(script: Script, s: State, id: string)
    requires Inv(script, s)
    ensures Inv(script, OnDeath(Counted(s), id))
  {
  }

  lemma InvDmgDown(script: Script, s: State, id: string)
    requires Inv(script, s)
    ensures Inv(script, OnDmgDown(Counted(s), id))
  {
  }

  /** The last of increasing zone lines is the greatest. */
  lemma LastZoneIsGreatest(zs: seq<int>)
    requires zs != [] && forall i, j | 0 <= i < j < |zs| :: zs[i] < zs[j]
    ensures forall a | a in zs :: a <= zs[|zs| - 1]
  {
    forall a | a in zs
      ensures a <= zs[|zs| - 1]
    {
      var i :| 0 <= i < |zs| && zs[i] == a;
      if i < |zs| - 1 {
        assert zs[i] < zs[|zs| - 1];
      }
    }
  }

  lemma CloseKeepsOrder(script: Script, fs: seq<Fight>, f: Fight, n: int)
    requires forall i | 0 <= i < |fs| :: FightOk(script, fs[i], n - 1)
    requires forall i, j | 0 <= i < j < |fs| :: fs[i].endLine < fs[j].endLine
    requires FightOk(script, f, n) && f.endLine == n
    ensures forall i | 0 <= i < |fs + [f]| :: FightOk(script, (fs + [f])[i], n)
    ensures forall i, j | 0 <= i < j < |fs + [f]| :: (fs + [f])[i].endLine < (fs + [f])[j].endLine
  {
    var t := fs + [f];
    forall i, j | 0 <= i < j < |t|
      ensures t[i].endLine < t[j].endLine
    {
      if j == |fs| {
        assert FightOk(script, fs[i], n - 1);
      } else {
        assert t[i] == fs[i] && t[j] == fs[j];
      }
    }
  }

  lemma CloseKeepsZones(script: Script, s: State, f: Fight)
    requires ZonesOk(script, s) && script == CheckboxGui && s.line01.Some?
    requires f.line01 == s.line01 && f.endLine >= s.line01.value
    ensures ZonesOk(script, s.(lineCount := s.lineCount + 1, fights := s.fights + [f]))
  {
    LastZoneIsGreatest(s.all01);
    var t := s.(lineCount := s.lineCount + 1, fights := s.fights + [f]);
    forall g | g in t.fights
      ensures g.line01.Some? && g.line01.value in t.all01 && g.line01.value <= g.endLine
      ensures forall a | a in t.all01 :: !(g.line01.value < a <= g.endLine)
    {
      if g != f {
        assert g in s.fights;
      }
    }
  }

  /** The fight a closer appends fits after the ones before it. */
  lemma InvClose(script: Script, s: State, ty: string, line: string, parse: string -> int)
    requires Inv(script, s) && |ty| == 2 && (script == CheckboxGui ==> s.line01.Some?)
    ensures Inv(script, Counted(s).(fights := s.fights + [NewFight(script, Counted(s), ty, line, parse)]))
  {
    var s1 := Counted(s);
    var f := NewFight(script, s1, ty, line, parse);
    assert FightOk(script, f, s1.lineCount);
    CloseKeepsOrder(script, s.fights, f, s1.lineCount);
    if script == CheckboxGui {
      CloseKeepsZones(script, s, f);
    }
  }

  lemma InvDirector(script: Script, s: State, ty: string, line: string, parse: string -> int)
    requires Inv(script, s) && |ty| == 2
    ensures OnDirector(script, Counted(s), ty, line, parse).Some? ==>
      Inv(script, OnDirector(script, Counted(s), ty, line, parse).value)
  {
    if !IsOpener(ty) && IsCloser(script, ty) && s.startTimestamp != 0 {
      if !(script == CheckboxGui && s.line01.None?) {
        InvClose(script, s, ty, line, parse);
      }
    }
  }

  /** Every step keeps the invariant. */
  lemma StepInv(script: Script, s: State, line: string, parse: string -> int)
    requires Inv(script, s)
    ensures Step(script, s, line, parse).Some? ==> Inv(script, Step(script, s, line, parse).value)
    ensures Step(script, s, line, parse).Some? ==> Step(script, s, line, parse).value.lineCount == s.lineCount + 1
  {
    var s1 := Counted(s);
    InvCounted(script, s);
    assert Step(script, s, line, parse) == OnLine(script, s1, line, parse);
    match ArmOf(script, s1, line)
    case Filtered => ShapeQuiet(script, s1, line, parse);
    case Unmatched => ShapeQuiet(script, s1, line, parse);
    case Attack => ShapeAttack(script, s1, line, parse); InvAttack(script, s, line, parse);
    case Map => ShapeMap(script, s1, line, parse); InvMap(script, s, ZoneName(line).value);
    case ZoneInfo => ShapeZoneInfo(script, s1, line, parse); InvZoneInfo(script, s, Zone40Name(line).value);
    case Self => ShapeSelf(script, s1, line, parse); InvSelf(script, s, PlayerId8(line).value);
    case Death => ShapeDeath(script, s1, line, parse); InvDeath(script, s, DeathId1(line).value);
    case DmgDown => ShapeDmgDown(script, s1, line, parse); InvDmgDown(script, s, DamageDownTarget(line).value);
    case Director => ShapeDirector(script, s1, line, parse); InvDirector(script, s, DirectorType2(line).value, line, parse);
  }

  /** The invariant holds after every scan that does not abort, and `lineCount` counts the
      lines read. */
  lemma {:induction false} RunInv(script: Script, s: State, lines: seq<string>, parse: string -> int)
    requires Inv(script, s)
    ensures Run(script, s, lines, parse).Some? ==>
      Inv(script, Run(script, s, lines, parse).value) && Run(script, s, lines, parse).value.lineCount == s.lineCount + |lines|
    decreases |lines|
  {
    if lines != [] {
      RunInv(script, s, lines[..|lines| - 1], parse);
      if Run(script, s, lines[..|lines| - 1], parse).Some? {
        StepInv(script, Run(script, s, lines[..|lines| - 1], parse).value, lines[|lines| - 1], parse);
      }
    }
  }
}
