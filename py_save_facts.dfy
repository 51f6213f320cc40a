/** What the save step of the Python scripts guarantees beyond the loops themselves:
    placeholders are lines a later scan passes over, and versions/v1.0.py keeps every line
    of a ticked fight. */
module PySaveFacts {
  import opened Wrappers
  import opened Text
  import opened PyScan
  import opened PyScanFacts
  import opened PySave

  /** A placeholder is a `00|` line, which a later scan of the output passes over. */
  lemma PlaceholderIsSkipped(script: Script, s: State, line: string, width: nat, parse: string -> int)
    ensures OnLine(script, s, Placeholder(line, width), parse) == Some(s)
  {
    var p := Placeholder(line, width);
    PlaceholderCode(line, width);
    CodeNotExamined(script, PySlice(p, 0, 3));
    assert ArmOf(script, s, p) == Filtered;
    ShapeQuiet(script, s, p, parse);
  }

  lemma PlaceholderCode(line: string, width: nat)
    ensures PySlice(Placeholder(line, width), 0, 3) == "00|"
  {
    var p := Placeholder(line, width);
    var rest := PySlice(LStrip(PySlice(line, 3, |line|), '|'), 0, width) + "0038||trash fight|0000000000000000\n";
    assert p == "00|" + rest;
    assert p[..3] == "00|";
  }

  lemma CodeNotExamined(script: Script, code: string)
    requires code == "00|"
    ensures code !in Examined(script)
  {
    assert forall e | e in Examined(script) :: e[0] != '0' || e[1] != '0';
  }

  /** Every line of a ticked fight, from its zone line through its end line, is kept: its
      zone line is in `on01Lines`, and no other zone line, so no `off01Lines` line, comes
      between. */
  lemma TickedFightKept(s: State, on01: seq<int>, off01: seq<int>, i: nat, n: nat)
    requires Inv(CheckboxGui, s) && i < |s.fights|
    requires s.fights[i].line01.Some? && s.fights[i].line01.value in on01
    requires off01 == Without(s.all01, on01)
    requires s.fights[i].line01.value <= n <= s.fights[i].endLine
    ensures Latched(on01, off01, n)
  {
    var f := s.fights[i];
    var z := f.line01.value;
    assert f in s.fights;
    assert z in s.all01;
    WithoutIff(s.all01, on01);
    LatchedIff(on01, off01, n);
    assert forall b | b in off01 :: !(z < b <= n);
  }
}
