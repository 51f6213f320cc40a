/** What one line does to v2.1's separation (versions/v2.1.cs:159-245), case by case, and
    the errors that stop it before the first line is read. */
module SegmentV21Steps {
  import opened Wrappers
  import opened Text
  import opened Patterns
  import opened ChunksV21
  import opened SegmentV21

  /** The open chunk after a cut: nothing read yet, every counter and time at its default. */
  predicate Fresh(c: LogChunk) {
    && c.startTimeOverlay.None? && c.startTimeACT == 0 && !c.win && c.endTime == 0 && !c.selected
    && c.totalDeathCount == 0 && c.selfDeathCount == 0 && c.totalDmgDownCount == 0 && c.selfDmgDownCount == 0
  }

  /** A `01|` line at `i` closes the open chunk at `i - 1` with the pending outcome, resets
      the outcome, and opens a chunk of the new zone at `i` whose zone line is `i`; a `01|`
      line the zone pattern rejects stops separation. */
  lemma ZoneBoundary(s: Scan, line: string, i: nat, doorBoss: bool, parse: string -> int)
    requires StartsWith(line, "01|")
    ensures ZoneName(line).None? ==> Step(s, line, i, doorBoss, parse) == Err(Malformed(i + 1))
    ensures ZoneName(line).Some? ==>
      && Step(s, line, i, doorBoss, parse).Ok?
      && var s' := Step(s, line, i, doorBoss, parse).value;
      && s'.saved == s.saved + [s.chunk.(win := s.win, endLineIdx := i - 1, endTime := s.endTime)]
      && s'.chunk.startLineIdx == i && s'.chunk.line01Idx == i && s'.line01Idx == i
      && s'.chunk.zoneName == ZoneName(line) && s'.zoneName == ZoneName(line)
      && Fresh(s'.chunk) && !s'.win && s'.endTime == 0 && s'.selfId == s.selfId
  {
    assert KindOf(line) == ZoneChange;
  }

  /** A director victory (`40000002`, `40000003`) or wipe (`40000005`) only sets the pending
      outcome and its time; the open chunk stays open. */
  lemma PendingOutcome(s: Scan, line: string, i: nat, doorBoss: bool, parse: string -> int)
    requires DirectorType8(line).Some?
    requires var t := DirectorType8(line).value; t == "40000002" || t == "40000003" || t == "40000005"
    ensures Step(s, line, i, doorBoss, parse) ==
      Ok(s.(win := DirectorType8(line).value != "40000005", endTime := parse(line)))
  {
    assert KindOf(line) == Director;
  }

  /** A director reset (`40000011`) at `i` closes the open chunk at `i` itself with the
      pending outcome, resets the outcome, and opens a chunk at `i + 1` of the same zone. */
  lemma DirectorReset(s: Scan, line: string, i: nat, doorBoss: bool, parse: string -> int)
    requires DirectorType8(line) == Some("40000011")
    ensures Step(s, line, i, doorBoss, parse).Ok?
    ensures var s' := Step(s, line, i, doorBoss, parse).value;
      && s'.saved == s.saved + [s.chunk.(win := s.win, endLineIdx := i, endTime := s.endTime)]
      && s'.chunk.startLineIdx == i + 1 && s'.chunk.line01Idx == s.line01Idx && s'.chunk.zoneName == s.zoneName
      && Fresh(s'.chunk) && !s'.win && s'.endTime == 0
      && s'.zoneName == s.zoneName && s'.line01Idx == s.line01Idx && s'.selfId == s.selfId
  {
    assert KindOf(line) == Director;
  }

  /** Any other director type changes nothing; a `33|` line the pattern rejects stops
      separation. */
  lemma DirectorIgnored(s: Scan, line: string, i: nat, doorBoss: bool, parse: string -> int)
    requires StartsWith(line, "33|")
    ensures DirectorType8(line).None? ==> Step(s, line, i, doorBoss, parse) == Err(Malformed(i + 1))
    ensures (DirectorType8(line).Some? &&
             DirectorType8(line).value !in {"40000002", "40000003", "40000005", "40000011"}) ==>
      Step(s, line, i, doorBoss, parse) == Ok(s)
  {
    assert KindOf(line) == Director;
  }

  /** With the door-boss option, a limit-break clear at `i` wins the open chunk with this
      line's time, marks its zone name as the first phase, closes it at `i` and opens a
      chunk at `i + 1` of the same zone; without the option, or without a match, the line
      changes nothing. The reader's zone, zone line and own id stay. */
  lemma DoorBossBoundary(s: Scan, line: string, i: nat, doorBoss: bool, parse: string -> int)
    requires StartsWith(line, "41|")
    ensures !(doorBoss && ClearLB(line)) ==> Step(s, line, i, doorBoss, parse) == Ok(s)
    ensures doorBoss && ClearLB(line) ==>
      && Step(s, line, i, doorBoss, parse).Ok?
      && var s' := Step(s, line, i, doorBoss, parse).value;
      && s'.saved == s.saved + [s.chunk.(zoneName := Some(ConcatNullable(s.chunk.zoneName, " (P1)")),
                                         win := true, endLineIdx := i, endTime := parse(line))]
      && s'.chunk.startLineIdx == i + 1 && s'.chunk.line01Idx == s.line01Idx && s'.chunk.zoneName == s.zoneName
      && Fresh(s'.chunk) && !s'.win && s'.endTime == 0
      && s'.zoneName == s.zoneName && s'.line01Idx == s.line01Idx && s'.selfId == s.selfId
  {
    assert KindOf(line) == LimitBreakClear;
  }

  /** A `02|` line keeps its id as the user's own when it is a player id (`10…`) and
      changes nothing else; a `02|` line the pattern rejects stops separation. */
  lemma PlayerIdKept(s: Scan, line: string, i: nat, doorBoss: bool, parse: string -> int)
    requires StartsWith(line, "02|")
    ensures PlayerIdUntilBar(line).None? ==> Step(s, line, i, doorBoss, parse) == Err(Malformed(i + 1))
    ensures PlayerIdUntilBar(line).Some? ==>
      var id := PlayerIdUntilBar(line).value;
      Step(s, line, i, doorBoss, parse) == Ok(s.(selfId := if StartsWith(id, "10") then Some(id) else s.selfId))
  {
    assert KindOf(line) == Player;
  }

  /** A `25|` line counts a death only for a player id (`10…`), and as the user's own only
      when that id is the user's, and changes nothing else; the pattern rejecting the line
      stops separation. */
  lemma DeathCounted(s: Scan, line: string, i: nat, doorBoss: bool, parse: string -> int)
    requires StartsWith(line, "25|")
    ensures DeathId8(line).None? ==> Step(s, line, i, doorBoss, parse) == Err(Malformed(i + 1))
    ensures DeathId8(line).Some? ==>
      && Step(s, line, i, doorBoss, parse).Ok?
      && var s' := Step(s, line, i, doorBoss, parse).value;
      && var id := DeathId8(line).value;
      && s'.saved == s.saved && s'.win == s.win && s'.selfId == s.selfId
      && s'.chunk.startLineIdx == s.chunk.startLineIdx
      && s'.chunk.totalDeathCount == s.chunk.totalDeathCount + (if StartsWith(id, "10") then 1 else 0)
      && s'.chunk.selfDeathCount ==
         s.chunk.selfDeathCount + (if StartsWith(id, "10") && s.selfId == Some(id) then 1 else 0)
      && s'.chunk == s.chunk.(totalDeathCount := s'.chunk.totalDeathCount,
                              selfDeathCount := s'.chunk.selfDeathCount)
      && s' == s.(chunk := s'.chunk)
  {
    assert KindOf(line) == Death;
  }

  /** A damage-down on a player counts for the open chunk, and as the user's own only when
      the target is the user, and nothing else changes; an unmatched `26|` line changes
      nothing. */
  lemma DamageDownCounted(s: Scan, line: string, i: nat, doorBoss: bool, parse: string -> int)
    requires StartsWith(line, "26|")
    ensures DamageDownTarget(line).None? ==> Step(s, line, i, doorBoss, parse) == Ok(s)
    ensures DamageDownTarget(line).Some? ==>
      && Step(s, line, i, doorBoss, parse).Ok?
      && var s' := Step(s, line, i, doorBoss, parse).value;
      && var id := DamageDownTarget(line).value;
      && s'.saved == s.saved && s'.win == s.win && s'.selfId == s.selfId
      && s'.chunk.totalDmgDownCount == s.chunk.totalDmgDownCount + 1
      && s'.chunk.selfDmgDownCount == s.chunk.selfDmgDownCount + (if s.selfId == Some(id) then 1 else 0)
      && s'.chunk == s.chunk.(totalDmgDownCount := s'.chunk.totalDmgDownCount,
                              selfDmgDownCount := s'.chunk.selfDmgDownCount)
      && s' == s.(chunk := s'.chunk)
  {
    assert KindOf(line) == DamageDown;
  }

  /** The user's own id is only ever a player id: every line keeps that true. */
  lemma SelfIdIsPlayer(s: Scan, line: string, i: nat, doorBoss: bool, parse: string -> int)
    requires s.selfId.Some? ==> StartsWith(s.selfId.value, "10")
    requires Step(s, line, i, doorBoss, parse).Ok?
    ensures var s' := Step(s, line, i, doorBoss, parse).value;
      s'.selfId.Some? ==> StartsWith(s'.selfId.value, "10")
  {
  }

  /** Each start time of a chunk is set at most once: within the same chunk a line either
      keeps it, or sets an unset overlay time from a matching `260` line or an unset ACT
      time from a matching boss attack, with that line's time; a line that cuts opens a
      chunk with neither set. */
  lemma StartTimesSetOnce(s: Scan, line: string, i: nat, doorBoss: bool, parse: string -> int)
    requires Step(s, line, i, doorBoss, parse).Ok?
    ensures var s' := Step(s, line, i, doorBoss, parse).value;
      |s'.saved| == |s.saved| || (|s'.saved| == |s.saved| + 1 && Fresh(s'.chunk))
    ensures var s' := Step(s, line, i, doorBoss, parse).value;
      |s'.saved| == |s.saved| ==>
        && (s'.chunk.startTimeOverlay == s.chunk.startTimeOverlay ||
            (s.chunk.startTimeOverlay.None? && KindOf(line) == OverlayStart && StartCombat(line)
             && s'.chunk.startTimeOverlay == Some(parse(line))))
        && (s'.chunk.startTimeACT == s.chunk.startTimeACT ||
            (s.chunk.startTimeACT == 0 && KindOf(line) == Attack && AttackBoss(line)
             && s'.chunk.startTimeACT == parse(line)))
  {
  }

  /** The errors raised before any line after the header is read: every line blank, or a
      first non-blank line that is not the ACT version line `253|`. */
  lemma HeaderErrors(lines: seq<string>, doorBoss: bool, parse: string -> int)
    ensures Separation(lines, doorBoss, parse).failure == Some(EmptyLog) <==>
      forall j | 0 <= j < |lines| :: IsBlank(lines[j])
    ensures Separation(lines, doorBoss, parse).failure == Some(BadHeader) <==>
      exists f | 0 <= f < |lines| ::
        (forall j | 0 <= j < f :: IsBlank(lines[j])) && !IsBlank(lines[f]) && !StartsWith(lines[f], "253|")
  {
    var f := FirstNonBlank(lines, 0);
    if f < |lines| {
      assert !IsBlank(lines[f]);
      if StartsWith(lines[f], "253|") {
        RunFailsOnLine(lines, f + 1, |lines|, doorBoss, parse);
      }
      forall g | 0 <= g < |lines| && (forall j | 0 <= j < g :: IsBlank(lines[j])) && !IsBlank(lines[g])
        ensures g == f
      {
      }
    } else {
      assert forall j | 0 <= j < |lines| :: IsBlank(lines[j]);
    }
  }

  /** The loop stops only on a line: too short, or rejected by a pattern. */
  lemma {:induction false} RunFailsOnLine(lines: seq<string>, h: nat, k: nat, doorBoss: bool, parse: string -> int)
    requires h <= k <= |lines|
    ensures var p := RunFrom(lines, h, k, doorBoss, parse);
      p.failure.Some? ==> p.failure.value.LineTooShort? || p.failure.value.Malformed?
    decreases k
  {
    if k > h {
      var p := RunFrom(lines, h, k - 1, doorBoss, parse);
      RunFailsOnLine(lines, h, k - 1, doorBoss, parse);
      if p.failure.None? {
        StepFailsOnLine(p.scan, lines[k - 1], k - 1, doorBoss, parse);
      }
    }
  }

  /** The errors one line can raise. */
  lemma StepFailsOnLine(s: Scan, line: string, i: nat, doorBoss: bool, parse: string -> int)
    ensures var r := Step(s, line, i, doorBoss, parse);
      r.Err? ==> r.error == LineTooShort(i + 1) || r.error == Malformed(i + 1)
  {
  }

  /** When the loop gets through the lines `h .. k-1`, none of them was shorter than three
      characters. */
  lemma {:induction false} CompletedLinesLong(lines: seq<string>, h: nat, k: nat, doorBoss: bool, parse: string -> int)
    requires h <= k <= |lines|
    requires RunFrom(lines, h, k, doorBoss, parse).failure.None?
    ensures forall j | h <= j < k :: |lines[j]| >= 3
    decreases k
  {
    if k > h {
      var p := RunFrom(lines, h, k - 1, doorBoss, parse);
      assert p.failure.None?;
      CompletedLinesLong(lines, h, k - 1, doorBoss, parse);
    }
  }

  /** A separation that ends without an error read no line after the version line that was
      shorter than three characters. */
  lemma CompletedSeparationLinesLong(lines: seq<string>, doorBoss: bool, parse: string -> int)
    requires Separation(lines, doorBoss, parse).failure.None?
    ensures FirstNonBlank(lines, 0) < |lines|
    ensures forall j | FirstNonBlank(lines, 0) < j < |lines| :: |lines[j]| >= 3
  {
    CompletedLinesLong(lines, FirstNonBlank(lines, 0) + 1, |lines|, doorBoss, parse);
  }
}
