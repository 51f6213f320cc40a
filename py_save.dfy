/** What the Python scripts write when they save (versions/v1.0.py:142-186,
    versions/1.0.py:134-158, v0.1.py:116-141, 1.py:107-131): the start and end lines of the
    fights not chosen, then one pass over the log driven by an on/off switch. */
module PySave {
  import opened Wrappers
  import opened Text
  import opened PyScan

  // ---- The fights that are cut ----

  /** The fight indexes `0 <= i < n` that are not in `chosen`, in increasing order. */
  function Unselected(n: nat, chosen: seq<nat>): (r: seq<nat>)
    ensures forall k | 0 <= k < |r| :: r[k] < n
  {
    if n == 0 then [] else Unselected(n - 1, chosen) + (if n - 1 in chosen then [] else [n - 1])
  }

  /** An index is unselected exactly when it is in range and not chosen; the list is
      increasing. */
  lemma {:induction false} UnselectedIff(n: nat, chosen: seq<nat>)
    ensures forall i: nat :: i in Unselected(n, chosen) <==> i < n && i !in chosen
    ensures forall j, k | 0 <= j < k < |Unselected(n, chosen)| :: Unselected(n, chosen)[j] < Unselected(n, chosen)[k]
  {
    if n > 0 {
      UnselectedIff(n - 1, chosen);
    }
  }

  /** `offLines` and `onLines` after the first `i` fights: for each fight among them that
      is not chosen, in order, its start line and its end line. */
  predicate CutSoFar(fights: seq<Fight>, chosen: seq<nat>, i: nat, off: seq<int>, on: seq<int>)
    requires i <= |fights|
  {
    var u := Unselected(i, chosen);
    && |off| == |u| && |on| == |u|
    && forall k | 0 <= k < |u| :: off[k] == fights[u[k]].startLine && on[k] == fights[u[k]].endLine
  }

  /** The loop building `offLines` and `onLines` (versions/1.0.py:134-139,
      v0.1.py:116-121, 1.py:107-112): each fight not chosen adds its start line to the one
      and its end line to the other, in the order of the fights. */
  method SelectLines(fights: seq<Fight>, fightIndexes: seq<nat>) returns (offLines: seq<int>, onLines: seq<int>)
    ensures CutSoFar(fights, fightIndexes, |fights|, offLines, onLines)
  {
    offLines, onLines := [], [];
    var i := 0;
    while i < |fights|
      invariant 0 <= i <= |fights|
      invariant CutSoFar(fights, fightIndexes, i, offLines, onLines)
    {
      if i !in fightIndexes {
        offLines := offLines + [fights[i].startLine];
        onLines := onLines + [fights[i].endLine];
      }
      i := i + 1;
    }
  }

  /** The indexes of the ticked boxes, in order. */
  function Ticked(checked: seq<bool>): (r: seq<nat>)
    ensures forall k | 0 <= k < |r| :: r[k] < |checked|
  {
    if checked == [] then []
    else Ticked(checked[..|checked| - 1]) + (if checked[|checked| - 1] then [|checked| - 1] else [])
  }

  /** An index is ticked exactly when its box is. */
  lemma {:induction false} TickedIff(checked: seq<bool>)
    ensures forall i: nat :: i in Ticked(checked) <==> i < |checked| && checked[i]
  {
    if checked != [] {
      var init := checked[..|checked| - 1];
      TickedIff(init);
      assert forall i | 0 <= i < |init| :: init[i] == checked[i];
    }
  }

  /** The items of `xs` that are not in `ys`, in order. */
  function Without(xs: seq<int>, ys: seq<int>): seq<int> {
    if xs == [] then [] else Without(xs[..|xs| - 1], ys) + (if xs[|xs| - 1] in ys then [] else [xs[|xs| - 1]])
  }

  /** An item is kept exactly when it is in `xs` and not in `ys`. */
  lemma {:induction false} WithoutIff(xs: seq<int>, ys: seq<int>)
    ensures forall x :: x in Without(xs, ys) <==> x in xs && x !in ys
  {
    if xs != [] {
      var init := xs[..|xs| - 1];
      WithoutIff(init, ys);
      assert xs == init + [xs[|xs| - 1]];
    }
  }

  /** `on01Lines` after the first `i` fights: the zone line of each ticked fight among
      them, in order. */
  predicate ZonesSoFar(fights: seq<Fight>, checked: seq<bool>, i: nat, on01: seq<int>)
    requires i <= |fights| == |checked|
    requires forall j | 0 <= j < |fights| :: fights[j].line01.Some?
  {
    var t := Ticked(checked[..i]);
    |on01| == |t| && forall k | 0 <= k < |t| :: on01[k] == fights[t[k]].line01.value
  }

  /** The selection of versions/v1.0.py:143-155: a ticked fight adds its zone line to
      `on01Lines`, an unticked one its start and end lines to `offLines` and `onLines`;
      then every zone line no ticked fight belongs to goes to `off01Lines`. */
  method SelectZones(fights: seq<Fight>, checked: seq<bool>, all01Lines: seq<int>)
    returns (on01Lines: seq<int>, offLines: seq<int>, onLines: seq<int>, off01Lines: seq<int>)
    requires |checked| == |fights|
    requires forall i | 0 <= i < |fights| :: fights[i].line01.Some?
    ensures ZonesSoFar(fights, checked, |fights|, on01Lines)
    ensures CutSoFar(fights, Ticked(checked), |fights|, offLines, onLines)
    ensures off01Lines == Without(all01Lines, on01Lines)
  {
    on01Lines, offLines, onLines := [], [], [];
    var i := 0;
    while i < |fights|
      invariant 0 <= i <= |fights|
      invariant ZonesSoFar(fights, checked, i, on01Lines)
      invariant CutSoFar(fights, Ticked(checked), i, offLines, onLines)
    {
      on01Lines, offLines, onLines := SelectFight(fights, checked, i, on01Lines, offLines, onLines);
      i := i + 1;
    }
    off01Lines := ZonesWithout(all01Lines, on01Lines);
  }

  /** One turn of that loop, for fight `i`. */
  method SelectFight(fights: seq<Fight>, checked: seq<bool>, i: nat, on01Lines: seq<int>, offLines: seq<int>, onLines: seq<int>)
    returns (on01Lines': seq<int>, offLines': seq<int>, onLines': seq<int>)
    requires i < |fights| == |checked|
    requires forall j | 0 <= j < |fights| :: fights[j].line01.Some?
    requires ZonesSoFar(fights, checked, i, on01Lines) && CutSoFar(fights, Ticked(checked), i, offLines, onLines)
    ensures ZonesSoFar(fights, checked, i + 1, on01Lines') && CutSoFar(fights, Ticked(checked), i + 1, offLines', onLines')
  {
    TickedIff(checked);
    assert checked[..i + 1][..i] == checked[..i];
    on01Lines', offLines', onLines' := on01Lines, offLines, onLines;
    if checked[i] {
      on01Lines' := on01Lines + [fights[i].line01.value];
    } else {
      offLines' := offLines + [fights[i].startLine];
      onLines' := onLines + [fights[i].endLine];
    }
  }

  /** The loop of versions/v1.0.py:153-155: the zone lines not in `on01Lines`, in order. */
  method ZonesWithout(all01Lines: seq<int>, on01Lines: seq<int>) returns (off01Lines: seq<int>)
    ensures off01Lines == Without(all01Lines, on01Lines)
  {
    off01Lines := [];
    var j := 0;
    while j < |all01Lines|
      invariant 0 <= j <= |all01Lines|
      invariant off01Lines == Without(all01Lines[..j], on01Lines)
    {
      assert all01Lines[..j + 1][..j] == all01Lines[..j];
      if all01Lines[j] !in on01Lines {
        off01Lines := off01Lines + [all01Lines[j]];
      }
      j := j + 1;
    }
    assert all01Lines[..j] == all01Lines;
  }

  // ---- The placeholder switch of versions/1.0.py and v0.1.py ----

  /** `switch` is 0 after line `n` is done: it went off at an `offLines` line and no
      `onLines` line has turned it on again since. */
  predicate SwitchOff(off: seq<int>, on: seq<int>, n: nat) {
    n > 0 && n !in on && (n in off || SwitchOff(off, on, n - 1))
  }

  /** Line `n` is written while the switch is off: it is an `offLines` line, or the
      switch was already off. */
  predicate PlaceholderAt(off: seq<int>, on: seq<int>, n: nat) {
    n in off || (n > 0 && SwitchOff(off, on, n - 1))
  }

  /** The switch is off exactly when some `offLines` line at or before `n` has no
      `onLines` line from it through `n`. */
  lemma {:induction false} SwitchOffIff(off: seq<int>, on: seq<int>, n: nat)
    ensures SwitchOff(off, on, n) <==>
      exists o | o in off && 1 <= o <= n :: forall m | m in on :: !(o <= m <= n)
  {
    if n > 0 {
      SwitchOffIff(off, on, n - 1);
      if exists o | o in off && 1 <= o <= n :: forall m | m in on :: !(o <= m <= n) {
        var o :| o in off && 1 <= o <= n && forall m | m in on :: !(o <= m <= n);
        if o < n {
          assert forall m | m in on :: !(o <= m <= n - 1);
        }
      }
    }
  }

  /** A line becomes a placeholder exactly when some `offLines` line at or before it has
      no `onLines` line from it up to the line before. */
  lemma PlaceholderIff(off: seq<int>, on: seq<int>, n: nat)
    requires n >= 1
    ensures PlaceholderAt(off, on, n) <==>
      exists o | o in off && 1 <= o <= n :: forall m | m in on :: !(o <= m < n)
  {
    SwitchOffIff(off, on, n - 1);
    if n in off {
      assert forall m | m in on :: !(n <= m < n);
    }
    if exists o | o in off && 1 <= o <= n :: forall m | m in on :: !(o <= m < n) {
      var o :| o in off && 1 <= o <= n && forall m | m in on :: !(o <= m < n);
      if o < n {
        assert forall m | m in on :: !(o <= m <= n - 1);
      }
    }
  }

  /** With the lists paired fight by fight, every placeholder line lies between the start
      and the end line of a fight that was not chosen. */
  lemma PlaceholderInside(off: seq<int>, on: seq<int>, n: nat)
    requires |off| == |on| && forall k | 0 <= k < |off| :: off[k] <= on[k]
    requires n >= 1 && PlaceholderAt(off, on, n)
    ensures exists k | 0 <= k < |off| :: off[k] <= n <= on[k]
  {
    PlaceholderIff(off, on, n);
    var o :| o in off && 1 <= o <= n && forall m | m in on :: !(o <= m < n);
    var k :| 0 <= k < |off| && off[k] == o;
    assert on[k] in on;
  }

  /** With every fight chosen, no line becomes a placeholder: the log is written
      unchanged. */
  lemma NothingCutCopiesAll(on: seq<int>, n: nat)
    ensures !PlaceholderAt([], on, n)
  {
    if n > 0 {
      SwitchOffIff([], on, n - 1);
    }
  }

  /** The line written for a line that is cut: `00|`, at most `width` characters of the
      line after its code and the `|` that follow it, and a fixed tail. */
  function Placeholder(line: string, width: nat): string {
    "00|" + (PySlice(LStrip(PySlice(line, 3, |line|), '|'), 0, width) + "0038||trash fight|0000000000000000\n")
  }

  /** What versions/1.0.py and v0.1.py write for lines `1..n`. */
  function Placeholders(lines: seq<string>, off: seq<int>, on: seq<int>, width: nat, n: nat): seq<string>
    requires n <= |lines|
  {
    if n == 0 then []
    else
      var written := if PlaceholderAt(off, on, n) then Placeholder(lines[n - 1], width) else lines[n - 1];
      Placeholders(lines, off, on, width, n - 1) + [written]
  }

  /** One line out per line in: line `k` copied, or its placeholder. */
  lemma {:induction false} PlaceholdersAt(lines: seq<string>, off: seq<int>, on: seq<int>, width: nat, n: nat)
    requires n <= |lines|
    ensures |Placeholders(lines, off, on, width, n)| == n
    ensures forall k | 0 <= k < n ::
      Placeholders(lines, off, on, width, n)[k] == if PlaceholderAt(off, on, k + 1) then Placeholder(lines[k], width) else lines[k]
  {
    if n > 0 {
      var before := Placeholders(lines, off, on, width, n - 1);
      PlaceholdersAt(lines, off, on, width, n - 1);
      PlaceholdersSnoc(lines, off, on, width, n, before);
      forall k | 0 <= k < n - 1
        ensures Placeholders(lines, off, on, width, n)[k] == before[k]
      {
      }
    }
  }

  /** The loop of versions/1.0.py:143-158 and v0.1.py:125-141 (`width` 35): one line out
      per line in, a copy while the switch is on and a placeholder while it is off; the
      switch goes off before an `offLines` line is written and on after an `onLines`
      line is. */
  method WritePlaceholders(lines: seq<string>, offLines: seq<int>, onLines: seq<int>, width: nat)
    returns (output: seq<string>)
    ensures output == Placeholders(lines, offLines, onLines, width, |lines|)
  {
    output := [];
    var lineCount := 0;
    var switch := true;
    while lineCount < |lines|
      invariant 0 <= lineCount <= |lines|
      invariant switch == !SwitchOff(offLines, onLines, lineCount)
      invariant output == Placeholders(lines, offLines, onLines, width, lineCount)
    {
      ghost var before := output;
      var line := lines[lineCount];
      lineCount := lineCount + 1;
      output, switch := WriteLine(output, line, lineCount, switch, offLines, onLines, width, offLines, onLines);
      PlaceholdersSnoc(lines, offLines, onLines, width, lineCount, before);
    }
  }

  lemma PlaceholdersSnoc(lines: seq<string>, off: seq<int>, on: seq<int>, width: nat, n: nat, before: seq<string>)
    requires 1 <= n <= |lines| && before == Placeholders(lines, off, on, width, n - 1)
    ensures Placeholders(lines, off, on, width, n) ==
      before + [if PlaceholderAt(off, on, n) then Placeholder(lines[n - 1], width) else lines[n - 1]]
  {
  }

  /** One turn of the placeholder switch for line number `lineCount`. The switch is
      specified over the lists `off` and `on`, which agree with `offLines` and `onLines`
      on this line: the lists themselves, or in versions/v1.0.py their kept lines. */
  method WriteLine(output: seq<string>, line: string, lineCount: nat, switch: bool,
                   offLines: seq<int>, onLines: seq<int>, width: nat, ghost off: seq<int>, ghost on: seq<int>)
    returns (output': seq<string>, switch': bool)
    requires lineCount >= 1 && switch == !SwitchOff(off, on, lineCount - 1)
    requires (lineCount in offLines <==> lineCount in off) && (lineCount in onLines <==> lineCount in on)
    ensures switch' == !SwitchOff(off, on, lineCount)
    ensures output' == output + [if PlaceholderAt(off, on, lineCount) then Placeholder(line, width) else line]
  {
    output', switch' := output, switch;
    if lineCount in offLines {
      switch' := false;
    }
    if switch' {
      output' := output' + [line];
    }
    if !switch' {
      output' := output' + [Placeholder(line, width)];
    }
    if lineCount in onLines {
      switch' := true;
    }
  }

  // ---- The drop switch of 1.py ----

  /** A latch over line numbers, off at first: on at a `p` line, else off at a `q`
      line, else as it was. */
  predicate Latched(p: seq<int>, q: seq<int>, n: nat) {
    n > 0 && (n in p || (n !in q && Latched(p, q, n - 1)))
  }

  /** The latch is on exactly when some `p` line at or before `n` has no `q` line after it
      through `n`. */
  lemma {:induction false} LatchedIff(p: seq<int>, q: seq<int>, n: nat)
    ensures Latched(p, q, n) <==> exists a | a in p && 1 <= a <= n :: forall b | b in q :: !(a < b <= n)
  {
    if n > 0 {
      LatchedIff(p, q, n - 1);
      if n in p {
        assert forall b | b in q :: !(n < b <= n);
      }
      if exists a | a in p && 1 <= a <= n :: forall b | b in q :: !(a < b <= n) {
        var a :| a in p && 1 <= a <= n && forall b | b in q :: !(a < b <= n);
        if a < n && n !in p {
          assert forall b | b in q :: !(a < b <= n - 1);
        }
      }
    }
  }

  /** What 1.py writes: line `n` is dropped while its switch, off at an `offLines` line
      and otherwise on at an `onLines` line, is off. */
  function Kept(lines: seq<string>, off: seq<int>, on: seq<int>, n: nat): seq<string>
    requires n <= |lines|
  {
    if n == 0 then []
    else Kept(lines, off, on, n - 1) + (if Latched(off, on, n) then [] else [lines[n - 1]])
  }

  /** The loop of 1.py:114-131. */
  method WriteKept(lines: seq<string>, offLines: seq<int>, onLines: seq<int>) returns (output: seq<string>)
    ensures output == Kept(lines, offLines, onLines, |lines|)
  {
    output := [];
    var lineCount := 0;
    var switch := true;
    while lineCount < |lines|
      invariant 0 <= lineCount <= |lines|
      invariant switch == !Latched(offLines, onLines, lineCount)
      invariant output == Kept(lines, offLines, onLines, lineCount)
    {
      var line := lines[lineCount];
      lineCount := lineCount + 1;
      if lineCount in offLines {
        switch := false;
      } else if lineCount in onLines {
        switch := true;
      }
      if switch {
        output := output + [line];
      }
    }
  }

  /** Every line 1.py drops lies between the start line and the line before the end line
      of a fight that was not chosen (fights that end after they start). */
  lemma DroppedInside(off: seq<int>, on: seq<int>, n: nat)
    requires |off| == |on| && forall k | 0 <= k < |off| :: off[k] < on[k]
    requires Latched(off, on, n)
    ensures exists k | 0 <= k < |off| :: off[k] <= n < on[k]
  {
    LatchedIff(off, on, n);
    var a :| a in off && 1 <= a <= n && forall b | b in on :: !(a < b <= n);
    var k :| 0 <= k < |off| && off[k] == a;
    assert on[k] in on;
  }

  /** The start line of a fight not chosen is dropped, and its end line kept unless it
      also starts a fight not chosen. */
  lemma StartDroppedEndKept(off: seq<int>, on: seq<int>, n: nat)
    requires n >= 1
    ensures n in off ==> Latched(off, on, n)
    ensures n in on && n !in off ==> !Latched(off, on, n)
  {
  }

  /** With every fight chosen, 1.py writes the log unchanged. */
  lemma {:induction false} NothingCutKeepsAll(lines: seq<string>, on: seq<int>, n: nat)
    requires n <= |lines|
    ensures Kept(lines, [], on, n) == lines[..n]
  {
    if n > 0 {
      NothingCutKeepsAll(lines, on, n - 1);
      LatchedIff([], on, n);
      assert lines[..n] == lines[..n - 1] + [lines[n - 1]];
    }
  }

  // ---- The two switches of versions/v1.0.py ----

  /** The lines of `xs` that the zone switch keeps. */
  function KeptOnly(xs: seq<int>, on01: seq<int>, off01: seq<int>): seq<int> {
    if xs == [] then []
    else
      var x := xs[|xs| - 1];
      KeptOnly(xs[..|xs| - 1], on01, off01) + (if x >= 1 && Latched(on01, off01, x) then [x] else [])
  }

  lemma {:induction false} KeptOnlyIff(xs: seq<int>, on01: seq<int>, off01: seq<int>)
    ensures forall x :: x in KeptOnly(xs, on01, off01) <==> x in xs && x >= 1 && Latched(on01, off01, x)
  {
    if xs != [] {
      var init := xs[..|xs| - 1];
      KeptOnlyIff(init, on01, off01);
      assert xs == init + [xs[|xs| - 1]];
    }
  }

  /** What versions/v1.0.py writes for lines `1..n`: a line is dropped while `switch01`,
      on at an `on01Lines` line and otherwise off at an `off01Lines` line, is off; a line
      kept is copied, or written as a placeholder (`width` 34) while the placeholder
      switch, which only sees kept lines, is off. */
  function CheckboxOutput(lines: seq<string>, on01: seq<int>, off01: seq<int>, off: seq<int>, on: seq<int>, n: nat): seq<string>
    requires n <= |lines|
  {
    if n == 0 then []
    else
      CheckboxOutput(lines, on01, off01, off, on, n - 1) +
        if !Latched(on01, off01, n) then []
        else if PlaceholderAt(KeptOnly(off, on01, off01), KeptOnly(on, on01, off01), n) then [Placeholder(lines[n - 1], 34)]
        else [lines[n - 1]]
  }

  /** The loop of versions/v1.0.py:159-185. */
  method WriteCheckbox(lines: seq<string>, on01Lines: seq<int>, off01Lines: seq<int>, offLines: seq<int>, onLines: seq<int>)
    returns (output: seq<string>)
    ensures output == CheckboxOutput(lines, on01Lines, off01Lines, offLines, onLines, |lines|)
  {
    ghost var offK := KeptOnly(offLines, on01Lines, off01Lines);
    ghost var onK := KeptOnly(onLines, on01Lines, off01Lines);
    KeptOnlyIff(offLines, on01Lines, off01Lines);
    KeptOnlyIff(onLines, on01Lines, off01Lines);
    output := [];
    var lineCount := 0;
    var switch := true;
    var switch01 := false;
    while lineCount < |lines|
      invariant 0 <= lineCount <= |lines|
      invariant switch01 == Latched(on01Lines, off01Lines, lineCount)
      invariant switch == !SwitchOff(offK, onK, lineCount)
      invariant output == CheckboxOutput(lines, on01Lines, off01Lines, offLines, onLines, lineCount)
    {
      var line := lines[lineCount];
      lineCount := lineCount + 1;
      if lineCount in on01Lines {
        switch01 := true;
      } else if lineCount in off01Lines {
        switch01 := false;
      }
      if !switch01 {
        assert lineCount !in offK && lineCount !in onK;
        continue;
      }
      output, switch := WriteLine(output, line, lineCount, switch, offLines, onLines, 34, offK, onK);
    }
  }

  /** Lines before the first zone line of a ticked fight are dropped. */
  lemma BeforeFirstZoneDropped(on01: seq<int>, off01: seq<int>, n: nat)
    requires forall a | a in on01 :: a > n
    ensures !Latched(on01, off01, n)
  {
    LatchedIff(on01, off01, n);
  }
}
