/** The compiled regular expressions of every version, each written out as the string
    function it computes. All of them are anchored at the start of the line (`^` in
    .NET without Multiline, `re.match` in Python). In both engines `.` matches any
    character except a line feed, and `[^|]` matches anything but a bar, so every
    `[^|]*\|` reaches exactly the next bar: none of these patterns can backtrack into
    a second way of matching. */
module Patterns {
  import opened Wrappers
  import opened Text

  /** `.{n}` over positions `i..j`. */
  predicate Dots(s: string, i: nat, j: nat) {
    i <= j <= |s| && forall k | i <= k < j :: s[k] != '\n'
  }

  /** The text between the bar at `p` and the next bar, if there is one. */
  function FieldAfter(s: string, p: nat): (r: Option<(string, nat)>)
    ensures r.Some? ==> r.value.1 < |s| && s[r.value.1] == '|' && p < r.value.1
    ensures r.Some? ==> r.value.0 == s[p + 1..r.value.1] && '|' !in r.value.0
  {
    match IndexOfFrom(s, '|', p + 1)
    case None => None
    case Some(q) => Some((s[p + 1..q], q))
  }

  /** `^01\|.{34}[^|]*\|(?<zoneName>[^|]*)\|` (zone change; every version). */
  function ZoneName(s: string): (r: Option<string>)
    ensures r.Some? ==> StartsWith(s, "01|") && '|' !in r.value
  {
    if !(StartsWith(s, "01|") && Dots(s, 3, 37)) then None
    else match IndexOfFrom(s, '|', 37)
      case None => None
      case Some(p1) =>
        match FieldAfter(s, p1)
        case None => None
        case Some(f) => Some(f.0)
  }

  /** `^40\|.{34}[^|]*\|[^|]*\|(?<zoneName>[^|]*)\|` (zone info; v0.1.py, 1.py). */
  function Zone40Name(s: string): (r: Option<string>)
    ensures r.Some? ==> StartsWith(s, "40|") && '|' !in r.value
  {
    if !(StartsWith(s, "40|") && Dots(s, 3, 37)) then None
    else match IndexOfFrom(s, '|', 37)
      case None => None
      case Some(p1) =>
        match FieldAfter(s, p1)
        case None => None
        case Some(f1) =>
          match FieldAfter(s, f1.1)
          case None => None
          case Some(f2) => Some(f2.0)
  }

  /** `^02\|.{34}(?<pID>[^|]*)\|` (player id; v2.1). */
  function PlayerIdUntilBar(s: string): (r: Option<string>)
    ensures r.Some? ==> StartsWith(s, "02|") && '|' !in r.value
  {
    if !(StartsWith(s, "02|") && Dots(s, 3, 37)) then None
    else match IndexOfFrom(s, '|', 37)
      case None => None
      case Some(p) => Some(s[37..p])
  }

  /** `^PP\|.{34}(?<x>.{8})\|` for a three-character `prefix` such as `02|` or `25|`. */
  function Fixed8(s: string, prefix: string): (r: Option<string>)
    requires |prefix| == 3
    ensures r.Some? ==> StartsWith(s, prefix) && |s| > 45 && r.value == s[37..45]
  {
    if StartsWith(s, prefix) && Dots(s, 3, 45) && |s| > 45 && s[45] == '|' then Some(s[37..45])
    else None
  }

  /** `^02\|.{34}(?<pID>.{8})\|` (player id; v2.0 and the Python versions). When the eight
      characters hold no bar, v2.1's pattern reads the same id. */
  function PlayerId8(s: string): (r: Option<string>)
    ensures r.Some? ==> StartsWith(s, "02|") && |r.value| == 8
    ensures r.Some? && '|' !in r.value ==> PlayerIdUntilBar(s) == r
  {
    Fixed8(s, "02|")
  }

  /** `^25\|.{34}(?<pID>.{8})\|` (death; v2.1). */
  function DeathId8(s: string): (r: Option<string>)
    ensures r.Some? ==> StartsWith(s, "25|") && |r.value| == 8
  {
    Fixed8(s, "25|")
  }

  /** `^25\|.{34}(?<pID>1.{7})\|` (death of a player; v2.0 and the Python versions). */
  function DeathId1(s: string): (r: Option<string>)
    ensures r.Some? ==> StartsWith(s, "25|") && |r.value| == 8 && r.value[0] == '1'
  {
    match Fixed8(s, "25|")
    case Some(id) => if id[0] == '1' then Some(id) else None
    case None => None
  }

  /** `^33\|.{34}.{8}\|(?<type>.{8})\|` (director; v2.1). */
  function DirectorType8(s: string): (r: Option<string>)
    ensures r.Some? ==> StartsWith(s, "33|") && |r.value| == 8
  {
    if StartsWith(s, "33|") && Dots(s, 3, 45) && |s| > 54 && s[45] == '|' && Dots(s, 46, 54) && s[54] == '|'
    then Some(s[46..54])
    else None
  }

  /** `^33\|.{34}.{8}\|400000(?<type>..)\|` (director; v2.0 and the Python versions).
      `400000..` is `.{8}` whose first six characters are `400000`, so this is the
      eight-character director type cut down to its last two characters. */
  function DirectorType2(s: string): (r: Option<string>)
    ensures r.Some? ==> StartsWith(s, "33|") && |r.value| == 2
    ensures r.Some? <==> DirectorType8(s).Some? && DirectorType8(s).value[..6] == "400000"
  {
    match DirectorType8(s)
    case Some(t) => if t[..6] == "400000" then Some(t[6..]) else None
    case None => None
  }

  /** `^2[12]\|.{34}1.{7}\|[^|]*\|[^|]*\|[^|]*\|4` (a player's action on a boss; every version). */
  predicate AttackBoss(s: string) {
    && |s| > 45 && s[0] == '2' && (s[1] == '1' || s[1] == '2') && s[2] == '|'
    && Dots(s, 3, 45) && s[37] == '1' && s[45] == '|'
    && match FieldAfter(s, 45)
       case None => false
       case Some(f1) =>
         match FieldAfter(s, f1.1)
         case None => false
         case Some(f2) =>
           match FieldAfter(s, f2.1)
           case None => false
           case Some(f3) => f3.1 + 1 < |s| && s[f3.1 + 1] == '4'
  }

  /** `^260\|.{34}.\|1\|.\|1` (the overlay's "combat started" line; v2.1). */
  predicate StartCombat(s: string) {
    && StartsWith(s, "260|") && |s| > 44 && Dots(s, 4, 39)
    && s[39] == '|' && s[40] == '1' && s[41] == '|' && s[42] != '\n' && s[43] == '|' && s[44] == '1'
  }

  /** `^41\|.{34}.{8}\|B1C\|` (limit break cleared; v2.1 and v2.0). */
  predicate ClearLB(s: string) {
    StartsWith(s, "41|") && Dots(s, 3, 45) && |s| > 49 && s[45] == '|' && s[46..50] == "B1C|"
  }

  /** The "damage down" status names matched by the status pattern. */
  const DamageDownNames: seq<string> := [
    "\U{4F24}\U{5BB3}\U{964D}\U{4F4E}", "Damage Down",
    "\U{30C0}\U{30E1}\U{30FC}\U{30B8}\U{4F4E}\U{4E0B}", "Malus de d\U{00E9}g\U{00E2}ts", "Schaden -"]

  /** Whether the text from `p` on starts with one of the damage-down names and a bar;
      the position of that bar. No name contains a bar, so at most one name fits. */
  function DamageDownNameEnd(s: string, p: nat): (r: Option<nat>)
    ensures r.Some? ==> p < r.value < |s| && s[r.value] == '|'
  {
    if p > |s| then None
    else DamageDownNameEndFrom(s, p, 0)
  }

  function DamageDownNameEndFrom(s: string, p: nat, k: nat): (r: Option<nat>)
    requires p <= |s|
    ensures r.Some? ==> p < r.value < |s| && s[r.value] == '|'
    decreases |DamageDownNames| - k
  {
    if k >= |DamageDownNames| then None
    else
      var name := DamageDownNames[k];
      if StartsWith(s[p..], name + "|") then Some(p + |name|)
      else DamageDownNameEndFrom(s, p, k + 1)
  }

  /** `^26\|.{34}[^|]*\|(NAMES)\|[^|]*\|[4E].{7}\|[^|]*\|(?<pID>1.{7})\|` (a damage-down
      status applied by an enemy to a player; every version): the target's id. */
  function DamageDownTarget(s: string): (r: Option<string>)
    ensures r.Some? ==> StartsWith(s, "26|") && |r.value| == 8 && r.value[0] == '1'
  {
    if !(StartsWith(s, "26|") && Dots(s, 3, 37)) then None
    else match IndexOfFrom(s, '|', 37)
      case None => None
      case Some(p1) =>
        match DamageDownNameEnd(s, p1 + 1)
        case None => None
        case Some(p2) =>
          match FieldAfter(s, p2)
          case None => None
          case Some(f) =>
            var p3 := f.1;
            if !(p3 + 9 < |s| && (s[p3 + 1] == '4' || s[p3 + 1] == 'E') && Dots(s, p3 + 2, p3 + 9) && s[p3 + 9] == '|')
            then None
            else match IndexOfFrom(s, '|', p3 + 10)
              case None => None
              case Some(p4) =>
                if p4 + 9 < |s| && s[p4 + 1] == '1' && Dots(s, p4 + 2, p4 + 9) && s[p4 + 9] == '|'
                then Some(s[p4 + 1..p4 + 9])
                else None
  }

  /** `^01\||^40\||^02\||^03\|.{34}10`: the zone-entry lines v2.1 keeps from an unselected
      first chunk (zone change, zone info, player, and party members whose id starts `10`). */
  predicate ZoneInitEssential(s: string) {
    || StartsWith(s, "01|") || StartsWith(s, "40|") || StartsWith(s, "02|")
    || (StartsWith(s, "03|") && Dots(s, 3, 37) && |s| >= 39 && s[37..39] == "10")
  }
}
