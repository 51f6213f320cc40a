/** v2.0's `OutputController` (versions/v2.0.cs:220-314) and `SaveLogFile`
    (versions/v2.0.cs:591-622): the selected encounters become a plan of contiguous line
    ranges, each skipped, overwritten with a placeholder or copied, and the plan is run
    over the original log line by line. The log is a sequence of lines and the reader
    a position in it; past the last line `ReadLine` gives null. */
module OutputV20 {
  import opened Wrappers
  import opened Text
  import opened SegmentV20

  /** `OutputEnum`. */
  datatype OutputKind = Unchange | Overwrite | Skip

  /** An `OutputController`: the lines `Start..End`, both included, and what to do with them. */
  datatype Controller = Controller(start: int, end: int, kind: OutputKind)

  /** `OutputController.PLACEHOLDER`. */
  const Placeholder := "00|0|"

  // ---- The plan ----

  /** The zone lines of the encounters. */
  function Line01s(es: seq<Encounter>): set<int> {
    set e | e in es :: e.line01Idx
  }

  /** `encounters.Select(e => e.Line01Idx).Distinct()`: the zone lines, each once, in the
      order they first appear. */
  function Zones(es: seq<Encounter>): seq<int>
    decreases |es|
  {
    if es == [] then []
    else
      var zs := Zones(es[..|es| - 1]);
      var z := es[|es| - 1].line01Idx;
      if z in zs then zs else zs + [z]
  }

  /** `encounters.Where(e => e.Line01Idx == line01Index)`. */
  function ZoneEncounters(es: seq<Encounter>, z: int): seq<Encounter>
    decreases |es|
  {
    if es == [] then []
    else (if es[0].line01Idx == z then [es[0]] else []) + ZoneEncounters(es[1..], z)
  }

  /** `Zones` lists every zone line of the encounters, each once, and nothing else. */
  lemma {:induction false} ZonesExact(es: seq<Encounter>)
    ensures var r := Zones(es);
      && (forall i, j | 0 <= i < j < |r| :: r[i] != r[j])
      && (forall i | 0 <= i < |es| :: es[i].line01Idx in r)
      && (forall j | 0 <= j < |r| :: r[j] in Line01s(es))
    decreases |es|
  {
    if es != [] {
      var prev := es[..|es| - 1];
      ZonesExact(prev);
      assert es == prev + [es[|es| - 1]];
      assert Line01s(es) == Line01s(prev) + {es[|es| - 1].line01Idx};
    }
  }

  /** `ZoneEncounters` keeps exactly the encounters of zone line `z`. */
  lemma {:induction false} ZoneEncountersExact(es: seq<Encounter>, z: int, e: Encounter)
    ensures e in ZoneEncounters(es, z) <==> e in es && e.line01Idx == z
    decreases |es|
  {
    if es != [] {
      ZoneEncountersExact(es[1..], z, e);
      assert es == [es[0]] + es[1..];
    }
  }

  /** Where the previous controller ended after the encounters `encs` of a zone, starting
      after `p`. */
  function EncEnd(encs: seq<Encounter>, p: int): int {
    if encs == [] then p else encs[|encs| - 1].endLineIdx
  }

  /** The inner loop of `ParseEncounters` (versions/v2.0.cs:262-279): for each encounter, an
      overwritten gap since the previous controller and the encounter copied unchanged. */
  function EncPlan(encs: seq<Encounter>, p: int): seq<Controller>
    decreases |encs|
  {
    if encs == [] then []
    else
      var prev := encs[..|encs| - 1];
      var e := encs[|encs| - 1];
      EncPlan(prev, p) + [Controller(EncEnd(prev, p) + 1, e.startLineIdx - 1, Overwrite),
                          Controller(e.startLineIdx, e.endLineIdx, Unchange)]
  }

  /** One pass of the outer loop (versions/v2.0.cs:245-280): the lines since the previous
      controller are skipped, the zone's three entry lines (`01|`, `40|`, `02|`) copied,
      then its encounters. */
  function ZonePlan(z: int, es: seq<Encounter>, p: int): seq<Controller> {
    [Controller(p + 1, z - 1, Skip), Controller(z, z + 2, Unchange)] + EncPlan(ZoneEncounters(es, z), z + 2)
  }

  function ZoneEnd(z: int, es: seq<Encounter>): int {
    EncEnd(ZoneEncounters(es, z), z + 2)
  }

  /** `prevEnd` after the zones `zs`. */
  function PlanEnd(zs: seq<int>, es: seq<Encounter>): int {
    if zs == [] then -1 else ZoneEnd(zs[|zs| - 1], es)
  }

  function PlanOf(zs: seq<int>, es: seq<Encounter>): seq<Controller>
    decreases |zs|
  {
    if zs == [] then []
    else
      var prev := zs[..|zs| - 1];
      PlanOf(prev, es) + ZonePlan(zs[|zs| - 1], es, PlanEnd(prev, es))
  }

  /** What `ParseEncounters` returns. */
  function Plan(es: seq<Encounter>): seq<Controller> {
    PlanOf(Zones(es), es)
  }

  /** Controllers that follow each other: the first starts after `p`, each other starts
      right after the previous one's end. */
  predicate ContiguousFrom(cs: seq<Controller>, p: int) {
    && (|cs| > 0 ==> cs[0].start == p + 1)
    && forall i | 0 < i < |cs| :: cs[i].start == cs[i - 1].end + 1
  }

  function LastEnd(cs: seq<Controller>, p: int): int {
    if cs == [] then p else cs[|cs| - 1].end
  }

  lemma ContiguousAppend(a: seq<Controller>, b: seq<Controller>, p: int)
    requires ContiguousFrom(a, p) && ContiguousFrom(b, LastEnd(a, p))
    ensures ContiguousFrom(a + b, p) && LastEnd(a + b, p) == LastEnd(b, LastEnd(a, p))
  {
    var ab := a + b;
    forall i | 0 < i < |ab|
      ensures ab[i].start == ab[i - 1].end + 1
    {
      if i < |a| {
        assert ab[i] == a[i] && ab[i - 1] == a[i - 1];
      } else if i == |a| {
        assert ab[i] == b[0] && ab[i - 1] == a[|a| - 1];
      } else {
        assert ab[i] == b[i - |a|] && ab[i - 1] == b[i - 1 - |a|];
      }
    }
    if b == [] {
      assert ab == a;
    }
  }

  lemma {:induction false} EncPlanContiguous(encs: seq<Encounter>, p: int)
    ensures ContiguousFrom(EncPlan(encs, p), p) && LastEnd(EncPlan(encs, p), p) == EncEnd(encs, p)
    decreases |encs|
  {
    if encs != [] {
      var prev := encs[..|encs| - 1];
      var e := encs[|encs| - 1];
      EncPlanContiguous(prev, p);
      var tail := [Controller(EncEnd(prev, p) + 1, e.startLineIdx - 1, Overwrite),
                   Controller(e.startLineIdx, e.endLineIdx, Unchange)];
      ContiguousAppend(EncPlan(prev, p), tail, p);
    }
  }

  lemma {:induction false} PlanOfContiguous(zs: seq<int>, es: seq<Encounter>)
    ensures ContiguousFrom(PlanOf(zs, es), -1) && LastEnd(PlanOf(zs, es), -1) == PlanEnd(zs, es)
    decreases |zs|
  {
    if zs != [] {
      var prev := zs[..|zs| - 1];
      var z := zs[|zs| - 1];
      var p := PlanEnd(prev, es);
      PlanOfContiguous(prev, es);
      var head := [Controller(p + 1, z - 1, Skip), Controller(z, z + 2, Unchange)];
      EncPlanContiguous(ZoneEncounters(es, z), z + 2);
      ContiguousAppend(head, EncPlan(ZoneEncounters(es, z), z + 2), p);
      ContiguousAppend(PlanOf(prev, es), ZonePlan(z, es, p), -1);
    }
  }

  /** The plan has no gaps and no overlaps: its first controller starts at line 0 and every
      other starts right after the previous one ends. */
  lemma PlanContiguous(es: seq<Encounter>)
    ensures var plan := Plan(es);
      && (|plan| > 0 ==> plan[0].start == 0)
      && forall i | 0 < i < |plan| :: plan[i].start == plan[i - 1].end + 1
  {
    PlanOfContiguous(Zones(es), es);
  }

  lemma {:induction false} EncPlanKeeps(encs: seq<Encounter>, p: int, e: Encounter)
    requires e in encs
    ensures Controller(e.startLineIdx, e.endLineIdx, Unchange) in EncPlan(encs, p)
    decreases |encs|
  {
    var prev := encs[..|encs| - 1];
    if e in prev {
      EncPlanKeeps(prev, p, e);
    } else {
      assert e == encs[|encs| - 1] by {
        assert encs == prev + [encs[|encs| - 1]];
      }
    }
  }

  lemma {:induction false} PlanOfKeepsEntry(zs: seq<int>, es: seq<Encounter>, z: int)
    requires z in zs
    ensures Controller(z, z + 2, Unchange) in PlanOf(zs, es)
    decreases |zs|
  {
    var prev := zs[..|zs| - 1];
    var last := zs[|zs| - 1];
    var before := PlanOf(prev, es);
    var here := ZonePlan(last, es, PlanEnd(prev, es));
    assert PlanOf(zs, es) == before + here;
    if z == last {
      assert here[1] == Controller(z, z + 2, Unchange);
    } else {
      assert z in prev by {
        assert zs == prev + [last];
      }
      PlanOfKeepsEntry(prev, es, z);
    }
  }

  lemma {:induction false} PlanOfKeeps(zs: seq<int>, es: seq<Encounter>, z: int)
    requires z in zs
    ensures forall c | c in EncPlan(ZoneEncounters(es, z), z + 2) :: c in PlanOf(zs, es)
    decreases |zs|
  {
    var prev := zs[..|zs| - 1];
    var last := zs[|zs| - 1];
    var before := PlanOf(prev, es);
    var here := ZonePlan(last, es, PlanEnd(prev, es));
    assert PlanOf(zs, es) == before + here;
    if z == last {
      forall c | c in EncPlan(ZoneEncounters(es, z), z + 2)
        ensures c in before + here
      {
        assert c in here;
      }
    } else {
      assert z in prev by {
        assert zs == prev + [last];
      }
      PlanOfKeeps(prev, es, z);
    }
  }

  lemma ZoneListed(es: seq<Encounter>, e: Encounter)
    requires e in es
    ensures e.line01Idx in Zones(es)
  {
    var i :| 0 <= i < |es| && es[i] == e;
    ZonesExact(es);
  }

  /** Every selected encounter's lines are copied: the plan holds an `Unchange` controller
      for exactly its range. */
  lemma PlanKeepsEncounters(es: seq<Encounter>, e: Encounter)
    requires e in es
    ensures Controller(e.startLineIdx, e.endLineIdx, Unchange) in Plan(es)
  {
    var zs, z := Zones(es), e.line01Idx;
    var encs := ZoneEncounters(es, z);
    ZoneListed(es, e);
    ZoneEncountersExact(es, z, e);
    PlanOfKeeps(zs, es, z);
    EncPlanKeeps(encs, z + 2, e);
    var c := Controller(e.startLineIdx, e.endLineIdx, Unchange);
    assert c in EncPlan(encs, z + 2);
    assert c in PlanOf(zs, es);
  }

  /** The three entry lines of every zone of the selected encounters are copied. */
  lemma PlanKeepsZoneEntry(es: seq<Encounter>, z: int)
    requires z in Zones(es)
    ensures Controller(z, z + 2, Unchange) in Plan(es)
  {
    PlanOfKeepsEntry(Zones(es), es, z);
  }

  lemma PlanOfSnoc(zs: seq<int>, k: nat, es: seq<Encounter>)
    requires k < |zs|
    ensures PlanOf(zs[..k + 1], es) == PlanOf(zs[..k], es) + ZonePlan(zs[k], es, PlanEnd(zs[..k], es))
    ensures PlanEnd(zs[..k + 1], es) == ZoneEnd(zs[k], es)
  {
    assert zs[..k + 1][..k] == zs[..k];
  }

  lemma EncPlanSnoc(encs: seq<Encounter>, k: nat, p: int)
    requires k < |encs|
    ensures EncPlan(encs[..k + 1], p) == EncPlan(encs[..k], p)
      + [Controller(EncEnd(encs[..k], p) + 1, encs[k].startLineIdx - 1, Overwrite),
         Controller(encs[k].startLineIdx, encs[k].endLineIdx, Unchange)]
    ensures EncEnd(encs[..k + 1], p) == encs[k].endLineIdx
  {
    assert encs[..k + 1][..k] == encs[..k];
  }

  lemma AppendPair<T>(h: seq<T>, x: seq<T>, a: T, b: T)
    ensures (h + x) + [a] + [b] == h + (x + [a, b])
  {
  }

  lemma PrependPair<T>(h: seq<T>, a: T, b: T, x: seq<T>)
    ensures h + [a] + [b] + x == h + ([a, b] + x)
  {
  }

  /** The inner loop of `ParseEncounters` (versions/v2.0.cs:262-279): for each encounter of
      one zone, the lines since the previous end become placeholders and the encounter's own
      lines are kept. */
  method AddZoneEncounters(controllers: seq<Controller>, prevEnd: int, encs: seq<Encounter>, ghost p: int)
    returns (controllers': seq<Controller>, prevEnd': int)
    requires prevEnd == p
    ensures controllers' == controllers + EncPlan(encs, p)
    ensures prevEnd' == EncEnd(encs, p)
  {
    controllers', prevEnd' := controllers, prevEnd;
    for ei := 0 to |encs|
      invariant controllers' == controllers + EncPlan(encs[..ei], p)
      invariant prevEnd' == EncEnd(encs[..ei], p)
    {
      var encounter := encs[ei];
      EncPlanSnoc(encs, ei, p);
      AppendPair(controllers, EncPlan(encs[..ei], p),
        Controller(prevEnd' + 1, encounter.startLineIdx - 1, Overwrite),
        Controller(encounter.startLineIdx, encounter.endLineIdx, Unchange));
      controllers' := controllers' + [Controller(prevEnd' + 1, encounter.startLineIdx - 1, Overwrite)];
      controllers' := controllers' + [Controller(encounter.startLineIdx, encounter.endLineIdx, Unchange)];
      prevEnd' := encounter.endLineIdx;
    }
    assert encs[..|encs|] == encs;
  }

  /** `ParseEncounters` (versions/v2.0.cs:235-283). */
  method ParseEncounters(encounters: seq<Encounter>) returns (controllers: seq<Controller>)
    ensures controllers == Plan(encounters)
  {
    controllers := [];
    var all01Indices := Zones(encounters);
    var prevEnd := -1;
    for zi := 0 to |all01Indices|
      invariant controllers == PlanOf(all01Indices[..zi], encounters)
      invariant prevEnd == PlanEnd(all01Indices[..zi], encounters)
    {
      var line01Index := all01Indices[zi];
      PlanOfSnoc(all01Indices, zi, encounters);
      ghost var before, p := controllers, prevEnd;
      controllers := controllers + [Controller(prevEnd + 1, line01Index - 1, Skip)];
      controllers := controllers + [Controller(line01Index, line01Index + 2, Unchange)];
      prevEnd := line01Index + 2;
      var currentZoneEncounters := ZoneEncounters(encounters, line01Index);
      controllers, prevEnd := AddZoneEncounters(controllers, prevEnd, currentZoneEncounters, line01Index + 2);
      PrependPair(before, Controller(p + 1, line01Index - 1, Skip), Controller(line01Index, line01Index + 2, Unchange),
        EncPlan(currentZoneEncounters, line01Index + 2));
    }
    assert all01Indices[..|all01Indices|] == all01Indices;
  }

  // ---- Running the plan ----

  /** How many lines `Output` reads: its `for (i = Start; i <= End; i++)` runs
      `max(0, End - Start + 1)` times. */
  function Count(c: Controller): nat {
    if c.end >= c.start then c.end - c.start + 1 else 0
  }

  function Repeat(k: OutputKind, n: nat): (r: seq<OutputKind>)
    ensures |r| == n && forall j | 0 <= j < n :: r[j] == k
  {
    if n == 0 then [] else Repeat(k, n - 1) + [k]
  }

  /** What the plan does with each line the reader gives, in order. */
  function Expand(cs: seq<Controller>): seq<OutputKind>
    decreases |cs|
  {
    if cs == [] then [] else Expand(cs[..|cs| - 1]) + Repeat(cs[|cs| - 1].kind, Count(cs[|cs| - 1]))
  }

  /** The lines written so far, and whether an exception ended the writing. */
  datatype Written = Written(lines: seq<string>, failed: bool)

  /** The `j`-th `ReadLine` of the reader: null past the end. */
  function LineAt(lines: seq<string>, j: nat): Option<string> {
    if j < |lines| then Some(lines[j]) else None
  }

  /** What one loop turn of `Output` writes for a line read, or `None` when it throws:
      `Unchange` calls `StartsWith` on the line, so a null line throws; `Overwrite` and
      `Skip` never look at it. */
  function WriteOne(k: OutputKind, line: Option<string>): Option<seq<string>> {
    match k
    case Unchange =>
      if line.None? then None
      else if StartsWith(line.value, "29|") then Some([Placeholder]) else Some([line.value])
    case Overwrite => Some([Placeholder])
    case Skip => Some([])
  }

  function Next(w: Written, k: OutputKind, line: Option<string>): Written {
    if w.failed then w
    else match WriteOne(k, line)
      case None => w.(failed := true)
      case Some(out) => Written(w.lines + out, false)
  }

  /** The whole run: line `j` of the log is handled by `ks[j]`; the first exception stops
      the writing, and what was written before it stays in the file. */
  function Emit(lines: seq<string>, ks: seq<OutputKind>): Written
    decreases |ks|
  {
    if ks == [] then Written([], false)
    else Next(Emit(lines, ks[..|ks| - 1]), ks[|ks| - 1], LineAt(lines, |ks| - 1))
  }

  lemma {:induction false} EmitSticky(lines: seq<string>, a: seq<OutputKind>, b: seq<OutputKind>)
    requires Emit(lines, a).failed
    ensures Emit(lines, a + b) == Emit(lines, a)
    decreases |b|
  {
    if b == [] {
      assert a + b == a;
    } else {
      var b' := b[..|b| - 1];
      assert (a + b)[..|a + b| - 1] == a + b';
      EmitSticky(lines, a, b');
    }
  }

  lemma RepeatSnoc(ks: seq<OutputKind>, k: OutputKind, n: nat)
    ensures ks + Repeat(k, n + 1) == (ks + Repeat(k, n)) + [k]
  {
  }

  lemma RepeatAdd(k: OutputKind, m: nat, n: nat)
    ensures Repeat(k, m + n) == Repeat(k, m) + Repeat(k, n)
  {
    assert Repeat(k, m + n) == Repeat(k, m) + Repeat(k, n);
  }

  /** One more line of a run of `k` after `ks`. */
  lemma EmitStep(lines: seq<string>, ks: seq<OutputKind>, k: OutputKind, n: nat)
    ensures Emit(lines, ks + Repeat(k, n + 1)) == Next(Emit(lines, ks + Repeat(k, n)), k, LineAt(lines, |ks| + n))
  {
    RepeatSnoc(ks, k, n);
    var a := ks + Repeat(k, n);
    assert (a + [k])[..|a + [k]| - 1] == a;
  }

  /** A run that failed after `n` of `total` lines stays failed for the rest. */
  lemma EmitFailedRun(lines: seq<string>, ks: seq<OutputKind>, k: OutputKind, n: nat, total: nat)
    requires n <= total && Emit(lines, ks + Repeat(k, n)).failed
    ensures Emit(lines, ks + Repeat(k, total)) == Emit(lines, ks + Repeat(k, n))
  {
    RepeatAdd(k, n, total - n);
    assert ks + Repeat(k, total) == (ks + Repeat(k, n)) + Repeat(k, total - n);
    EmitSticky(lines, ks + Repeat(k, n), Repeat(k, total - n));
  }

  /** `OutputController.Output` (versions/v2.0.cs:285-314) with the reader at line `pos`:
      it reads `Count(c)` lines; `Unchange` writes each, a `29|` line as the placeholder;
      `Overwrite` writes a placeholder per line; `Skip` writes nothing. `ks` is what the
      earlier controllers did with the lines before `pos`. */
  method Output(c: Controller, lines: seq<string>, pos: nat, written: seq<string>, ghost ks: seq<OutputKind>)
    returns (pos': nat, written': seq<string>, failed: bool)
    requires pos == |ks| && Emit(lines, ks) == Written(written, false)
    ensures Emit(lines, ks + Repeat(c.kind, Count(c))) == Written(written', failed)
    ensures !failed ==> pos' == pos + Count(c)
  {
    pos', written', failed := pos, written, false;
    var i := c.start;
    assert ks + Repeat(c.kind, 0) == ks;
    while i <= c.end
      invariant c.start <= i && (c.start <= c.end + 1 ==> i <= c.end + 1) && (c.end < c.start ==> i == c.start)
      invariant pos' == pos + (i - c.start)
      invariant Emit(lines, ks + Repeat(c.kind, i - c.start)) == Written(written', false)
    {
      EmitStep(lines, ks, c.kind, i - c.start);
      match c.kind {
        case Unchange =>
          if pos' >= |lines| {
            failed := true;
            EmitFailedRun(lines, ks, c.kind, i - c.start + 1, Count(c));
            return;
          }
          var line := lines[pos'];
          if StartsWith(line, "29|") {
            line := Placeholder;
          }
          written' := written' + [line];
        case Overwrite =>
          written' := written' + [Placeholder];
        case Skip =>
      }
      pos' := pos' + 1;
      i := i + 1;
    }
  }

  lemma {:induction false} ExpandAppend(a: seq<Controller>, b: seq<Controller>)
    ensures Expand(a + b) == Expand(a) + Expand(b)
    decreases |b|
  {
    if b == [] {
      assert a + b == a;
    } else {
      var b' := b[..|b| - 1];
      assert (a + b)[..|a + b| - 1] == a + b';
      ExpandAppend(a, b');
    }
  }

  /** `SaveLogFile` (versions/v2.0.cs:591-622): the plan's controllers run one after the
      other on one reader and one writer; an exception ends the run, and the lines
      written before it are what the new file holds. */
  method SaveLogFile(encounters: seq<Encounter>, lines: seq<string>) returns (out: seq<string>, failed: bool)
    ensures Emit(lines, Expand(Plan(encounters))) == Written(out, failed)
  {
    var controllers := ParseEncounters(encounters);
    out, failed := [], false;
    var pos := 0;
    for ci := 0 to |controllers|
      invariant Emit(lines, Expand(controllers[..ci])) == Written(out, false)
      invariant pos == |Expand(controllers[..ci])|
    {
      ghost var done := Expand(controllers[..ci]);
      assert controllers[..ci + 1][..ci] == controllers[..ci];
      pos, out, failed := Output(controllers[ci], lines, pos, out, done);
      if failed {
        ExpandAppend(controllers[..ci + 1], controllers[ci + 1..]);
        assert controllers[..ci + 1] + controllers[ci + 1..] == controllers;
        EmitSticky(lines, Expand(controllers[..ci + 1]), Expand(controllers[ci + 1..]));
        return;
      }
    }
    assert controllers[..|controllers|] == controllers;
  }

  // ---- What the plan writes ----

  /** A plan that covers the log from line 0 with no gaps, no overlaps and no controller
      ending more than one line before it starts. */
  predicate Tiled(cs: seq<Controller>) {
    && ContiguousFrom(cs, -1)
    && forall i | 0 <= i < |cs| :: cs[i].end >= cs[i].start - 1
  }

  lemma {:induction false} TiledPrefix(cs: seq<Controller>, n: nat)
    requires Tiled(cs) && n <= |cs|
    ensures Tiled(cs[..n])
  {
  }

  /** In a tiled plan the ends never go down. */
  lemma {:induction false} TiledEndsGrow(cs: seq<Controller>, i: nat, k: nat)
    requires Tiled(cs) && i <= k < |cs|
    ensures cs[i].end <= cs[k].end
    decreases k - i
  {
    if i < k {
      TiledEndsGrow(cs, i + 1, k);
    }
  }

  /** A tiled plan reads exactly the lines `0..LastEnd`. */
  lemma {:induction false} ExpandLength(cs: seq<Controller>)
    requires Tiled(cs)
    ensures |Expand(cs)| == LastEnd(cs, -1) + 1
    decreases |cs|
  {
    if cs != [] {
      var prev := cs[..|cs| - 1];
      TiledPrefix(cs, |cs| - 1);
      ExpandLength(prev);
    }
  }

  /** In a tiled plan, line `j` is handled by the controller whose range holds it. */
  lemma {:induction false} ExpandAt(cs: seq<Controller>, i: nat, j: int)
    requires Tiled(cs) && i < |cs| && cs[i].start <= j <= cs[i].end
    ensures 0 <= j < |Expand(cs)| && Expand(cs)[j] == cs[i].kind
    decreases |cs|
  {
    var prev := cs[..|cs| - 1];
    var last := cs[|cs| - 1];
    TiledPrefix(cs, |cs| - 1);
    ExpandLength(prev);
    ExpandLength(cs);
    if i == |cs| - 1 {
      assert LastEnd(prev, -1) + 1 == last.start;
      assert Expand(cs)[j] == Repeat(last.kind, Count(last))[j - |Expand(prev)|];
    } else {
      TiledEndsGrow(prev, i, |prev| - 1);
      ExpandAt(prev, i, j);
      assert Expand(cs)[j] == Expand(prev)[j];
    }
  }

  /** How many lines the kinds `ks` write when nothing fails. */
  function NonSkip(ks: seq<OutputKind>): nat
    decreases |ks|
  {
    if ks == [] then 0 else NonSkip(ks[..|ks| - 1]) + (if ks[|ks| - 1] == Skip then 0 else 1)
  }

  lemma {:induction false} NonSkipAppend(a: seq<OutputKind>, b: seq<OutputKind>)
    ensures NonSkip(a + b) == NonSkip(a) + NonSkip(b)
    decreases |b|
  {
    if b == [] {
      assert a + b == a;
    } else {
      var b' := b[..|b| - 1];
      assert (a + b)[..|a + b| - 1] == a + b';
      NonSkipAppend(a, b');
    }
  }

  /** The run fails exactly when some line past the end of the log is to be copied. */
  lemma {:induction false} EmitFailsIff(lines: seq<string>, ks: seq<OutputKind>)
    ensures Emit(lines, ks).failed <==> exists j | |lines| <= j < |ks| :: ks[j] == Unchange
    decreases |ks|
  {
    if ks != [] {
      var prev := ks[..|ks| - 1];
      EmitFailsIff(lines, prev);
      if exists j | |lines| <= j < |prev| :: prev[j] == Unchange {
        var j :| |lines| <= j < |prev| && prev[j] == Unchange;
        assert ks[j] == Unchange;
      }
      if exists j | |lines| <= j < |ks| :: ks[j] == Unchange {
        var j :| |lines| <= j < |ks| && ks[j] == Unchange;
        if j < |prev| {
          assert prev[j] == Unchange;
        }
      }
    }
  }

  /** A run that does not fail writes one line per line it does not skip. */
  lemma {:induction false} EmitLength(lines: seq<string>, ks: seq<OutputKind>)
    requires !Emit(lines, ks).failed
    ensures |Emit(lines, ks).lines| == NonSkip(ks)
    decreases |ks|
  {
    if ks != [] {
      EmitLength(lines, ks[..|ks| - 1]);
    }
  }

  /** What a run that does not fail writes for line `j` of the log, and where. */
  lemma {:induction false} EmitAt(lines: seq<string>, ks: seq<OutputKind>, j: nat)
    requires !Emit(lines, ks).failed && j < |ks| && ks[j] != Skip
    ensures j < |lines| || ks[j] == Overwrite
    ensures var out := Emit(lines, ks).lines;
      && NonSkip(ks[..j]) < |out|
      && out[NonSkip(ks[..j])]
         == if ks[j] == Overwrite || StartsWith(lines[j], "29|") then Placeholder else lines[j]
    decreases |ks|
  {
    var prev := ks[..|ks| - 1];
    EmitLength(lines, ks);
    if Emit(lines, prev).failed {
      assert false;
    }
    EmitLength(lines, prev);
    if j == |ks| - 1 {
      assert prev == ks[..j];
    } else {
      EmitAt(lines, prev, j);
      assert prev[..j] == ks[..j];
      assert prev == ks[..j] + prev[j..];
      NonSkipAppend(ks[..j], prev[j..]);
      assert prev[j..] == [prev[j]] + prev[j + 1..];
      NonSkipAppend([prev[j]], prev[j + 1..]);
      assert NonSkip([prev[j]]) == 1 by {
        assert [prev[j]][..0] == [];
      }
    }
  }

  /** End to end: when the plan is tiled and the run does not fail, every line of every
      selected encounter is written, a `29|` line as the placeholder, at the position that
      counts the lines written before it. */
  lemma SavedLinesKept(es: seq<Encounter>, lines: seq<string>, e: Encounter, j: int)
    requires e in es && Tiled(Plan(es)) && e.startLineIdx <= j <= e.endLineIdx
    requires !Emit(lines, Expand(Plan(es))).failed
    ensures 0 <= j < |lines| && j < |Expand(Plan(es))|
    ensures var ks := Expand(Plan(es));
      var out := Emit(lines, ks).lines;
      && NonSkip(ks[..j]) < |out|
      && out[NonSkip(ks[..j])] == if StartsWith(lines[j], "29|") then Placeholder else lines[j]
  {
    var plan := Plan(es);
    var c := Controller(e.startLineIdx, e.endLineIdx, Unchange);
    PlanKeepsEncounters(es, e);
    var i :| 0 <= i < |plan| && plan[i] == c;
    ExpandAt(plan, i, j);
    EmitAt(lines, Expand(plan), j);
  }
}
