/** What v2.0's `LogReader` computes (versions/v2.0.cs:49-217): `ReadLine` as a function
    on the reader's fields, `Read` as a left fold of it over the lines of the file. Times
    come from a parser passed in as `parse`, with 0 standing for `DateTime.MinValue`; v2.0
    reads whole seconds, so times and durations are in seconds. */
module SegmentV20 {
  import opened Wrappers
  import opened Text
  import opened Patterns

  /** `Encounter` (versions/v2.0.cs:20-34). No encounter is changed after it is added to
      `Encounters`, so it is a value here. */
  datatype Encounter = Encounter(
    zoneName: Option<string>,
    line01Idx: int,
    startLineIdx: int,
    endLineIdx: int,
    startTime: int,
    endTime: int,
    win: bool,
    selfDeathCount: nat,
    totalDeathCount: nat,
    selfDmgDownCount: nat,
    totalDmgDownCount: nat)

  /** `new Encounter()`: every field at its default. */
  const Blank := Encounter(None, 0, 0, 0, 0, 0, false, 0, 0, 0, 0)

  /** What `GetDuration` shows: `"Error"`, or whole minutes and the seconds left over, both
      truncated toward zero as `(int)TotalMinutes` and `TimeSpan.Seconds` are. */
  datatype Duration = DurationError | MinSec(minutes: int, seconds: int)

  function GetDuration(e: Encounter): (r: Duration)
    ensures r.DurationError? <==> e.startTime == 0 || e.endTime == 0
    ensures r.MinSec? ==> r.minutes * 60 + r.seconds == e.endTime - e.startTime
    ensures r.MinSec? && e.endTime >= e.startTime ==> r.minutes >= 0 && 0 <= r.seconds < 60
    ensures r.MinSec? && e.endTime < e.startTime ==> r.minutes <= 0 && -60 < r.seconds <= 0
  {
    if e.startTime == 0 || e.endTime == 0 then DurationError
    else
      var d := e.endTime - e.startTime;
      if d >= 0 then MinSec(d / 60, d % 60) else MinSec(-((-d) / 60), -((-d) % 60))
  }

  /** The fields of `LogReader` that `Read` and `ReadLine` use. */
  datatype Reader = Reader(
    lineIdx: int,
    line01Idx: int,
    zoneName: Option<string>,
    selfId: Option<string>,
    prevLine: Option<string>,
    encounter: Encounter,
    encounters: seq<Encounter>)

  /** A reader as the constructor leaves it. */
  const Fresh := Reader(0, 0, None, None, None, Blank, [])

  /** An open encounter (`StartLineIdx != 0`) has a previous line to take its end time from. */
  predicate Ready(s: Reader) {
    s.encounter.startLineIdx != 0 ==> s.prevLine.Some?
  }

  /** `SetNewEncounter` (versions/v2.0.cs:108-116). */
  function SetNew(s: Reader, start: int): Reader {
    s.(encounter := Blank.(zoneName := s.zoneName, line01Idx := s.line01Idx, startLineIdx := start))
  }

  /** The open encounter as `SaveCurrentEncounter` fills it in. */
  function Closed(s: Reader, end: int, win: bool, endTime: int): Encounter {
    s.encounter.(win := win, endLineIdx := end, endTime := endTime)
  }

  /** `SaveCurrentEncounter` (versions/v2.0.cs:118-129). */
  function SaveCur(s: Reader, end: int, win: bool, endTime: int): Reader {
    s.(encounters := if s.encounter.startTime != 0 then s.encounters + [Closed(s, end, win, endTime)] else s.encounters,
       encounter := Blank)
  }

  /** An open encounter abandoned at the line before the current one, with that line's time. */
  function Abandon(s: Reader, parse: string -> int): Reader
    requires Ready(s)
  {
    if s.encounter.startLineIdx != 0 then SaveCur(s, s.lineIdx - 1, false, parse(s.prevLine.value)) else s
  }

  function OnZone(s: Reader, line: string, parse: string -> int): Reader
    requires Ready(s)
  {
    match ZoneName(line)
    case None => s
    case Some(z) => Abandon(s, parse).(line01Idx := s.lineIdx, zoneName := Some(z))
  }

  function OnPlayer(s: Reader, line: string): Reader {
    match PlayerId8(line)
    case None => s
    case Some(id) => SetNew(s.(selfId := Some(id)), s.lineIdx + 1)
  }

  function OnAttack(s: Reader, line: string, parse: string -> int): Reader {
    if AttackBoss(line) then s.(encounter := s.encounter.(startTime := parse(line))) else s
  }

  function OnDeath(s: Reader, line: string): Reader {
    match DeathId1(line)
    case None => s
    case Some(id) =>
      var self := if s.selfId == Some(id) then 1 else 0;
      s.(encounter := s.encounter.(selfDeathCount := s.encounter.selfDeathCount + self,
                                   totalDeathCount := s.encounter.totalDeathCount + 1))
  }

  function OnDamageDown(s: Reader, line: string): Reader {
    match DamageDownTarget(line)
    case None => s
    case Some(id) =>
      var self := if s.selfId == Some(id) then 1 else 0;
      s.(encounter := s.encounter.(selfDmgDownCount := s.encounter.selfDmgDownCount + self,
                                   totalDmgDownCount := s.encounter.totalDmgDownCount + 1))
  }

  predicate IsOpener(t: string) { t == "01" || t == "06" }
  predicate IsCloser(t: string) { t == "02" || t == "03" || t == "11" || t == "12" }

  function OnDirector(s: Reader, line: string, parse: string -> int): Reader {
    match DirectorType2(line)
    case None => s
    case Some(t) =>
      if IsOpener(t) then SetNew(s, s.lineIdx + 1)
      else if IsCloser(t) then SaveCur(s, s.lineIdx, t == "03", parse(line))
      else s
  }

  function OnClearLB(s: Reader, line: string, parse: string -> int): Reader {
    if ClearLB(line) then SaveCur(s, s.lineIdx, true, parse(line)) else s
  }

  /** `ReadLine` (versions/v2.0.cs:131-217), dispatching on the three-character prefix in
      the source's order. The door-boss arm compares that prefix with the two-character
      `"41"`, exactly as written. */
  function OnLine(s: Reader, line: string, doorBoss: bool, parse: string -> int): Reader
    requires Ready(s)
  {
    if |line| < 3 then s
    else
      var prefix := line[..3];
      if prefix == "01|" then OnZone(s, line, parse)
      else if prefix == "02|" then OnPlayer(s, line)
      else if s.encounter.startTime == 0 && (prefix == "20|" || prefix == "21|") then OnAttack(s, line, parse)
      else if prefix == "25|" then OnDeath(s, line)
      else if prefix == "26|" then OnDamageDown(s, line)
      else if prefix == "33|" then OnDirector(s, line, parse)
      else if doorBoss && prefix == "41" then OnClearLB(s, line, parse)
      else s
  }

  /** One turn of `Read`'s loop: `ReadLine`, `_lineIdx++`, `_prevLine = _line`. */
  function Step(s: Reader, line: string, doorBoss: bool, parse: string -> int): Reader
    requires Ready(s)
  {
    OnLine(s, line, doorBoss, parse).(lineIdx := s.lineIdx + 1, prevLine := Some(line))
  }

  /** `Read`'s loop over `lines`. */
  function Run(s: Reader, lines: seq<string>, doorBoss: bool, parse: string -> int): (r: Reader)
    requires Ready(s)
    ensures Ready(r)
    decreases |lines|
  {
    if lines == [] then s
    else Step(Run(s, lines[..|lines| - 1], doorBoss, parse), lines[|lines| - 1], doorBoss, parse)
  }

  /** Kept by `Read`'s final filter: at least 20 seconds long. */
  predicate LongEnough(e: Encounter) {
    e.endTime - e.startTime >= 20
  }

  /** `Encounters.Where(LongEnough).ToList()`. */
  function Legal(es: seq<Encounter>): seq<Encounter>
    decreases |es|
  {
    if es == [] then [] else (if LongEnough(es[0]) then [es[0]] else []) + Legal(es[1..])
  }

  /** `Read` (versions/v2.0.cs:80-100): the loop, the save of an encounter still open at the
      end of the input, then the filter. */
  function ReadAll(s: Reader, lines: seq<string>, doorBoss: bool, parse: string -> int): Reader
    requires Ready(s)
  {
    var f := Abandon(Run(s, lines, doorBoss, parse), parse);
    f.(encounters := Legal(f.encounters))
  }
}
