/** What the scan loops of the four Python scripts compute: `readLogFile` of
    versions/v1.0.py:22-103 and versions/1.0.py:21-88, and the top-level loops of
    v0.1.py:30-96 and 1.py:22-88. The four loops share their shape and differ in a few
    arms, so one step function covers them, told apart by `Script`.

    A line is the string `readline` returns, line terminator included. Times come from a
    parser passed in as `parse` (what `getTimestamp` returns, a whole number of seconds);
    a start time of 0 means "not set", as in the scripts. */
module PyScan {
  import opened Wrappers
  import opened Text
  import opened Patterns

  /** Which script: versions/v1.0.py (fights chosen with check boxes), versions/1.0.py
      (fights listed in a window, chosen by typed indexes), v0.1.py (console) and 1.py
      (the first console script). */
  datatype Script = CheckboxGui | TypedGui | Console | FirstConsole

  /** The scripts that also read `40|` zone lines. */
  predicate HasZoneInfo(script: Script) {
    script == Console || script == FirstConsole
  }

  /** The three-character prefixes a line must have to be looked at
      (versions/v1.0.py:49, versions/1.0.py:38, v0.1.py:40, 1.py:32). */
  function Examined(script: Script): seq<string> {
    if HasZoneInfo(script) then ["21|", "22|", "01|", "40|", "02|", "25|", "26|", "33|"]
    else ["21|", "22|", "01|", "02|", "25|", "26|", "33|"]
  }

  /** `startTimeStr` after `initialize()`: `'00:00:00'` in versions/v1.0.py, `'00:00'`
      in the others. */
  function InitialStartTime(script: Script): string {
    if script == CheckboxGui then "00:00:00" else "00:00"
  }

  /** The start time shown for a fight: `line[14:22]` in versions/v1.0.py, `line[14:19]`
      in the others. */
  function StartTimeOf(script: Script, line: string): string {
    if script == CheckboxGui then PySlice(line, 14, 22) else PySlice(line, 14, 19)
  }

  /** Python's `str` of an integer. */
  function IntToString(i: int): string {
    if i < 0 then "-" + NatToString(-i) else NatToString(i)
  }

  /** `'{:0>2d}'.format(n)`: the decimal text padded on the left with `0` to two characters. */
  function Pad2(s: string): string {
    if |s| < 2 then seq(2 - |s|, _ => '0') + s else s
  }

  /** Whole minutes and the seconds left over as the scripts compute them,
      `(d - d % 60) / 60` and `d % 60` with Python's flooring `%`. */
  function MinSec(d: int): (r: (int, int))
    ensures r.0 * 60 + r.1 == d && 0 <= r.1 < 60
  {
    (d / 60, d % 60)
  }

  /** The duration text of a fight lasting `d` seconds (versions/v1.0.py:97-98,
      versions/1.0.py:84-85, v0.1.py:92-93, 1.py:84-85). */
  function DurationText(script: Script, d: int): string {
    var (m, s) := MinSec(d);
    match script
    case CheckboxGui => Pad2(IntToString(m)) + "'" + Pad2(IntToString(s)) + "\""
    case TypedGui => IntToString(m) + "'" + IntToString(s) + "\""
    case _ => IntToString(m) + " m " + IntToString(s) + " s"
  }

  /** A row of `fights`: start and end line (1-based), start time text, duration text, the
      flag that is true for a kill, the map name, the zone name (console scripts only), the
      four counters, and the zone line the fight belongs to (versions/v1.0.py only). */
  datatype Fight = Fight(
    startLine: int,
    endLine: int,
    startTime: string,
    duration: string,
    kill: bool,
    mapName: string,
    zoneName: Option<string>,
    selfDeaths: nat,
    selfDmgDowns: nat,
    totalDeaths: nat,
    totalDmgDowns: nat,
    line01: Option<int>)

  /** The variables the scan loop updates. `line01` is `startLine01`, unbound (`None`)
      until the first zone line; `all01` is `all01Lines`. */
  datatype State = State(
    lineCount: int,
    selfId: string,
    mapName: string,
    zoneName: string,
    line01: Option<int>,
    all01: seq<int>,
    startTimestamp: int,
    startTime: string,
    startLine: int,
    selfDeaths: nat,
    selfDmgDowns: nat,
    totalDeaths: nat,
    totalDmgDowns: nat,
    fights: seq<Fight>)

  /** `initialize()`: counters, start time and start line back to their defaults. */
  function Initialize(script: Script, s: State): State {
    s.(selfDeaths := 0, selfDmgDowns := 0, totalDeaths := 0, totalDmgDowns := 0,
       startTime := InitialStartTime(script), startTimestamp := 0, startLine := 0)
  }

  /** The variables before the first line. */
  function Start(script: Script): State {
    Initialize(script, State(0, "", "", "", None, [], 0, "", 0, 0, 0, 0, 0, []))
  }

  /** The first boss attack after a reset sets the start time. */
  function OnAttack(script: Script, s: State, line: string, parse: string -> int): State {
    s.(startTimestamp := parse(line), startTime := StartTimeOf(script, line))
  }

  /** A `01|` zone line: the map name; versions/v1.0.py also notes the line as the zone
      line of the fights that follow, and 1.py resets and starts the next fight three
      lines on, past the `01|`, `40|` and `02|` lines. */
  function OnMap(script: Script, s: State, name: string): State {
    match script
    case CheckboxGui => s.(mapName := name, line01 := Some(s.lineCount), all01 := s.all01 + [s.lineCount])
    case FirstConsole => Initialize(script, s.(mapName := name)).(startLine := s.lineCount + 3)
    case _ => s.(mapName := name)
  }

  /** A `40|` line: the zone name. */
  function OnZoneInfo(s: State, name: string): State {
    s.(zoneName := name)
  }

  /** A `02|` line: the player's own id; all but 1.py also reset and start the next fight
      on the line after. */
  function OnSelf(script: Script, s: State, id: string): State {
    if script == FirstConsole then s.(selfId := id)
    else Initialize(script, s.(selfId := id)).(startLine := s.lineCount + 1)
  }

  /** A death: counted for the player when the id is the player's own, and in the total. */
  function OnDeath(s: State, id: string): State {
    s.(selfDeaths := s.selfDeaths + (if s.selfId == id then 1 else 0), totalDeaths := s.totalDeaths + 1)
  }

  /** A damage-down status, counted the same way. */
  function OnDmgDown(s: State, id: string): State {
    s.(selfDmgDowns := s.selfDmgDowns + (if s.selfId == id then 1 else 0), totalDmgDowns := s.totalDmgDowns + 1)
  }

  /** Director types that start (`01`) or restart (`06`) a fight. */
  predicate IsOpener(t: string) {
    t == "01" || t == "06"
  }

  /** Director types that end a fight: `03` a kill, the others a wipe; 1.py has `10`
      where the later scripts have `12`. */
  predicate IsCloser(script: Script, t: string) {
    if script == FirstConsole then t == "03" || t == "10" || t == "11"
    else t == "03" || t == "11" || t == "12"
  }

  /** The row appended for a fight ending on the current line with director type `t`. */
  function NewFight(script: Script, s: State, t: string, line: string, parse: string -> int): Fight
    requires |t| == 2
  {
    Fight(s.startLine, s.lineCount, s.startTime, DurationText(script, parse(line) - s.startTimestamp),
          t[0] == '0', s.mapName, if HasZoneInfo(script) then Some(s.zoneName) else None,
          s.selfDeaths, s.selfDmgDowns, s.totalDeaths, s.totalDmgDowns,
          if script == CheckboxGui then s.line01 else None)
  }

  /** A director line. An opener resets and starts the fight on this line; a closer after
      the start time was set appends the fight, without resetting anything. In
      versions/v1.0.py the row reads `startLine01`, which is unbound before the first zone
      line: that raises, and `None` stands for the aborted scan. */
  function OnDirector(script: Script, s: State, t: string, line: string, parse: string -> int): Option<State>
    requires |t| == 2
  {
    if IsOpener(t) then Some(Initialize(script, s).(startLine := s.lineCount))
    else if IsCloser(script, t) && s.startTimestamp != 0 then
      if script == CheckboxGui && s.line01.None? then None
      else Some(s.(fights := s.fights + [NewFight(script, s, t, line, parse)]))
    else Some(s)
  }

  /** One line, `lineCount` already counted: the prefix filter, then the first arm whose
      pattern matches, in the scripts' order. */
  function OnLine(script: Script, s: State, line: string, parse: string -> int): Option<State> {
    if PySlice(line, 0, 3) !in Examined(script) then Some(s)
    else if s.startTimestamp == 0 && AttackBoss(line) then Some(OnAttack(script, s, line, parse))
    else if ZoneName(line).Some? then Some(OnMap(script, s, ZoneName(line).value))
    else if HasZoneInfo(script) && Zone40Name(line).Some? then Some(OnZoneInfo(s, Zone40Name(line).value))
    else if PlayerId8(line).Some? then Some(OnSelf(script, s, PlayerId8(line).value))
    else if DeathId1(line).Some? then Some(OnDeath(s, DeathId1(line).value))
    else if DamageDownTarget(line).Some? then Some(OnDmgDown(s, DamageDownTarget(line).value))
    else if DirectorType2(line).Some? then OnDirector(script, s, DirectorType2(line).value, line, parse)
    else Some(s)
  }

  /** One turn of the loop: `lineCount += 1`, then the line. */
  function Step(script: Script, s: State, line: string, parse: string -> int): Option<State> {
    OnLine(script, s.(lineCount := s.lineCount + 1), line, parse)
  }

  /** The loop over `lines`; an exception ends it. */
  function Run(script: Script, s: State, lines: seq<string>, parse: string -> int): Option<State>
    decreases |lines|
  {
    if lines == [] then Some(s)
    else match Run(script, s, lines[..|lines| - 1], parse)
      case None => None
      case Some(t) => Step(script, t, lines[|lines| - 1], parse)
  }

  /** The scan of a whole log. */
  function Scan(script: Script, lines: seq<string>, parse: string -> int): Option<State> {
    Run(script, Start(script), lines, parse)
  }
}
