/** What v2.1's `LogReader.SeparateLogChunks` computes (versions/v2.1.cs:125-255), as a
    left fold over the lines of the log file. Line indices are 0-based positions in the
    whole file, blank lines and the version line included. Times come from a parser
    passed in as `parse` (0 is .NET's default `DateTime`). */
module SegmentV21 {
  import opened Wrappers
  import opened Text
  import opened Patterns
  import opened ChunksV21

  /** Why separation stops. Line numbers are 1-based, as in the messages of the source. */
  datatype SegError =
    | EmptyLog              // every line blank: `ActVersionLine` is null and is dereferenced
    | BadHeader             // the first non-blank line is not the ACT plugin version line `253|`
    | LineTooShort(lineNo: nat)
    | Malformed(lineNo: nat) // `MatchedGroup` found no match
    | MissingLastLine       // nothing after the version line: `ParseTime(null)`

  /** The variables of the main loop besides `lineIdx`: the open chunk, the chunks saved
      so far (in saving order), and `bWin`, `endTime`, `zoneName`, `selfId`, `line01Idx`. */
  datatype Scan = Scan(
    chunk: LogChunk,
    saved: seq<LogChunk>,
    win: bool,
    endTime: int,
    zoneName: Option<string>,
    selfId: Option<string>,
    line01Idx: int)

  /** `CreateLogChunk` (versions/v2.1.cs:275-280): everything else at its default. */
  function NewChunk(zoneName: Option<string>, line01Idx: int, start: int): LogChunk {
    LogChunk(zoneName, line01Idx, start, 0, None, 0, 0, false, false, 0, 0, 0, 0)
  }

  /** The open chunk closed at `end` with the pending outcome, as `SaveCurrentChunk` does. */
  function Closed(s: Scan, end: int): LogChunk {
    s.chunk.(win := s.win, endLineIdx := end, endTime := s.endTime)
  }

  /** `SaveCurrentChunk` followed by `CreateLogChunk`: close the open chunk at `end`,
      reset `bWin` and `endTime`, and open a chunk at `next`. */
  function Cut(s: Scan, end: int, zoneName: Option<string>, line01Idx: int, next: int): Scan {
    s.(saved := s.saved + [Closed(s, end)], win := false, endTime := 0,
       chunk := NewChunk(zoneName, line01Idx, next))
  }

  /** C#'s `string + string` where the left operand may be null. */
  function ConcatNullable(a: Option<string>, b: string): string {
    match a
    case None => b
    case Some(x) => x + b
  }

  /** The death of a player character (id `10…`) on a `25|` line. */
  predicate IsPlayerDeath(line: string) {
    DeathId8(line).Some? && StartsWith(DeathId8(line).value, "10")
  }

  /** A damage-down status on a `26|` line. */
  predicate IsDamageDown(line: string) {
    DamageDownTarget(line).Some?
  }

  /** A line that marks the open chunk as won: a director victory, or with the door-boss
      option a limit-break clear. */
  predicate IsVictory(line: string, doorBoss: bool) {
    || DirectorType8(line) == Some("40000002")
    || DirectorType8(line) == Some("40000003")
    || (doorBoss && ClearLB(line))
  }

  function OnZone(s: Scan, line: string, i: nat): Result<Scan, SegError> {
    match ZoneName(line)
    case None => Err(Malformed(i + 1))
    case Some(z) => Ok(Cut(s, i - 1, Some(z), i, i).(zoneName := Some(z), line01Idx := i))
  }

  function OnPlayer(s: Scan, line: string, i: nat): Result<Scan, SegError> {
    match PlayerIdUntilBar(line)
    case None => Err(Malformed(i + 1))
    case Some(id) => Ok(if StartsWith(id, "10") then s.(selfId := Some(id)) else s)
  }

  function OnOverlayStart(s: Scan, line: string, parse: string -> int): Scan {
    if s.chunk.startTimeOverlay.None? && StartCombat(line)
    then s.(chunk := s.chunk.(startTimeOverlay := Some(parse(line))))
    else s
  }

  function OnAttack(s: Scan, line: string, parse: string -> int): Scan {
    if s.chunk.startTimeACT == 0 && AttackBoss(line)
    then s.(chunk := s.chunk.(startTimeACT := parse(line)))
    else s
  }

  function OnDeath(s: Scan, line: string, i: nat): Result<Scan, SegError> {
    match DeathId8(line)
    case None => Err(Malformed(i + 1))
    case Some(id) =>
      if !StartsWith(id, "10") then Ok(s)
      else
        var self := if s.selfId == Some(id) then 1 else 0;
        Ok(s.(chunk := s.chunk.(totalDeathCount := s.chunk.totalDeathCount + 1,
                                selfDeathCount := s.chunk.selfDeathCount + self)))
  }

  function OnDamageDown(s: Scan, line: string): Scan {
    match DamageDownTarget(line)
    case None => s
    case Some(id) =>
      var self := if s.selfId == Some(id) then 1 else 0;
      s.(chunk := s.chunk.(totalDmgDownCount := s.chunk.totalDmgDownCount + 1,
                           selfDmgDownCount := s.chunk.selfDmgDownCount + self))
  }

  function OnDirector(s: Scan, line: string, i: nat, parse: string -> int): Result<Scan, SegError> {
    match DirectorType8(line)
    case None => Err(Malformed(i + 1))
    case Some(t) =>
      if t == "40000002" || t == "40000003" || t == "40000005" then
        Ok(s.(win := t != "40000005", endTime := parse(line)))
      else if t == "40000011" then
        Ok(Cut(s, i, s.zoneName, s.line01Idx, i + 1))
      else Ok(s)
  }

  function OnClearLB(s: Scan, line: string, i: nat, doorBoss: bool, parse: string -> int): Scan {
    if doorBoss && ClearLB(line) then
      var s1 := s.(endTime := parse(line), win := true,
                   chunk := s.chunk.(zoneName := Some(ConcatNullable(s.chunk.zoneName, " (P1)"))));
      Cut(s1, i, s.zoneName, s.line01Idx, i + 1)
    else s
  }

  /** The cases of the `switch` on a line's first three characters. */
  datatype LineKind =
    | TooShort | ZoneChange | Player | OverlayStart | Attack | Death | DamageDown
    | Director | LimitBreakClear | OtherLine

  function KindOf(line: string): LineKind {
    if |line| < 3 then TooShort
    else
      var prefix := line[..3];
      if prefix == "01|" then ZoneChange
      else if prefix == "02|" then Player
      else if prefix == "260" then OverlayStart
      else if prefix == "20|" || prefix == "21|" then Attack
      else if prefix == "25|" then Death
      else if prefix == "26|" then DamageDown
      else if prefix == "33|" then Director
      else if prefix == "41|" then LimitBreakClear
      else OtherLine
  }

  /** One pass of the main loop on line `i` (versions/v2.1.cs:161-244). */
  function Step(s: Scan, line: string, i: nat, doorBoss: bool, parse: string -> int): Result<Scan, SegError> {
    match KindOf(line)
    case TooShort => Err(LineTooShort(i + 1))
    case ZoneChange => OnZone(s, line, i)
    case Player => OnPlayer(s, line, i)
    case OverlayStart => Ok(OnOverlayStart(s, line, parse))
    case Attack => Ok(OnAttack(s, line, parse))
    case Death => OnDeath(s, line, i)
    case DamageDown => Ok(OnDamageDown(s, line))
    case Director => OnDirector(s, line, i, parse)
    case LimitBreakClear => Ok(OnClearLB(s, line, i, doorBoss, parse))
    case OtherLine => Ok(s)
  }

  /* `Step` on one kind of line: each lemma names the only handler a line of that kind
     reaches, so that a proof about one case need not consider the others. */

  lemma StepTooShort(s: Scan, line: string, i: nat, doorBoss: bool, parse: string -> int)
    requires KindOf(line) == TooShort
    ensures Step(s, line, i, doorBoss, parse) == Err(LineTooShort(i + 1))
  {
  }

  lemma StepZone(s: Scan, line: string, i: nat, doorBoss: bool, parse: string -> int)
    requires KindOf(line) == ZoneChange
    ensures Step(s, line, i, doorBoss, parse) == OnZone(s, line, i)
  {
  }

  lemma StepPlayer(s: Scan, line: string, i: nat, doorBoss: bool, parse: string -> int)
    requires KindOf(line) == Player
    ensures Step(s, line, i, doorBoss, parse) == OnPlayer(s, line, i)
  {
  }

  lemma StepOverlayStart(s: Scan, line: string, i: nat, doorBoss: bool, parse: string -> int)
    requires KindOf(line) == OverlayStart
    ensures Step(s, line, i, doorBoss, parse) == Ok(OnOverlayStart(s, line, parse))
  {
  }

  lemma StepAttack(s: Scan, line: string, i: nat, doorBoss: bool, parse: string -> int)
    requires KindOf(line) == Attack
    ensures Step(s, line, i, doorBoss, parse) == Ok(OnAttack(s, line, parse))
  {
  }

  lemma StepDeath(s: Scan, line: string, i: nat, doorBoss: bool, parse: string -> int)
    requires KindOf(line) == Death
    ensures Step(s, line, i, doorBoss, parse) == OnDeath(s, line, i)
  {
  }

  lemma StepDamageDown(s: Scan, line: string, i: nat, doorBoss: bool, parse: string -> int)
    requires KindOf(line) == DamageDown
    ensures Step(s, line, i, doorBoss, parse) == Ok(OnDamageDown(s, line))
  {
  }

  lemma StepDirector(s: Scan, line: string, i: nat, doorBoss: bool, parse: string -> int)
    requires KindOf(line) == Director
    ensures Step(s, line, i, doorBoss, parse) == OnDirector(s, line, i, parse)
  {
  }

  lemma StepClearLB(s: Scan, line: string, i: nat, doorBoss: bool, parse: string -> int)
    requires KindOf(line) == LimitBreakClear
    ensures Step(s, line, i, doorBoss, parse) == Ok(OnClearLB(s, line, i, doorBoss, parse))
  {
  }

  lemma StepOther(s: Scan, line: string, i: nat, doorBoss: bool, parse: string -> int)
    requires KindOf(line) == OtherLine
    ensures Step(s, line, i, doorBoss, parse) == Ok(s)
  {
  }

  /** The state before the main loop: the "Init" chunk opened at line 0. */
  function InitScan(): Scan {
    Scan(NewChunk(Some("Init"), 0, 0), [], false, 0, None, None, 0)
  }

  /** The main loop's state after lines `h .. k-1`, and the error that stopped it; once
      a line fails, the state stays the one before that line. */
  datatype Progress = Progress(scan: Scan, failure: Option<SegError>)

  function RunFrom(lines: seq<string>, h: nat, k: nat, doorBoss: bool, parse: string -> int): Progress
    requires h <= k <= |lines|
    decreases k
  {
    if k == h then Progress(InitScan(), None)
    else
      var p := RunFrom(lines, h, k - 1, doorBoss, parse);
      if p.failure.Some? then p
      else match Step(p.scan, lines[k - 1], k - 1, doorBoss, parse)
        case Ok(s) => Progress(s, None)
        case Err(e) => Progress(p.scan, Some(e))
  }

  /** Once a line has failed, reading further lines changes nothing: the exception ends
      the method. */
  lemma {:induction false} RunFromSticky(lines: seq<string>, h: nat, k: nat, n: nat, doorBoss: bool, parse: string -> int)
    requires h <= k <= n <= |lines|
    requires RunFrom(lines, h, k, doorBoss, parse).failure.Some?
    ensures RunFrom(lines, h, n, doorBoss, parse) == RunFrom(lines, h, k, doorBoss, parse)
    decreases n
  {
    if n > k {
      RunFromSticky(lines, h, k, n - 1, doorBoss, parse);
    }
  }

  /** The index of the first non-blank line, or `|lines|` when there is none. */
  function FirstNonBlank(lines: seq<string>, from: nat): (r: nat)
    requires from <= |lines|
    ensures from <= r <= |lines|
    ensures forall j | from <= j < r :: IsBlank(lines[j])
    ensures r < |lines| ==> !IsBlank(lines[r])
    decreases |lines| - from
  {
    if from == |lines| || !IsBlank(lines[from]) then from
    else FirstNonBlank(lines, from + 1)
  }

  /** `ActVersionLine` after the header loop: the first non-blank line, null if none. */
  function VersionLine(lines: seq<string>): Option<string> {
    var f := FirstNonBlank(lines, 0);
    if f < |lines| then Some(lines[f]) else None
  }

  /** Closing the last chunk (versions/v2.1.cs:247-253): only when it holds a line; with
      no outcome yet, the time of the last line read is its end, and with no line read
      after the version line there is none. */
  function Finish(s: Scan, lines: seq<string>, h: nat, parse: string -> int): Result<seq<LogChunk>, SegError>
    requires h <= |lines|
  {
    if s.chunk.startLineIdx < |lines| then
      if s.endTime != 0 then Ok(s.saved + [Closed(s, |lines| - 1)])
      else if h == |lines| then Err(MissingLastLine)
      else Ok(s.saved + [Closed(s.(endTime := parse(lines[|lines| - 1])), |lines| - 1)])
    else Ok(s.saved)
  }

  /** The whole of `SeparateLogChunks`: the chunks it saves, in saving order, and the
      error that ended it, if any. */
  datatype Outcome = Outcome(saved: seq<LogChunk>, failure: Option<SegError>)

  function Separation(lines: seq<string>, doorBoss: bool, parse: string -> int): Outcome {
    var f := FirstNonBlank(lines, 0);
    if f == |lines| then Outcome([], Some(EmptyLog))
    else if !StartsWith(lines[f], "253|") then Outcome([], Some(BadHeader))
    else
      var p := RunFrom(lines, f + 1, |lines|, doorBoss, parse);
      if p.failure.Some? then Outcome(p.scan.saved, p.failure)
      else match Finish(p.scan, lines, f + 1, parse)
        case Ok(saved) => Outcome(saved, None)
        case Err(e) => Outcome(p.scan.saved, Some(e))
  }
}
