/** The prompt for the fights to extract in versions/1.0.py:119-132, v0.1.py:101-114 and
    1.py:93-105. The answer is split on `,` and `，`; spaces are removed from each piece;
    each piece is then read as one index or as an inclusive range of indexes. */
module PyIndexes {
  import opened Wrappers
  import opened Text

  // ---- Splitting the answer ----

  /** The separators of `re.split(',|，', …)`. */
  predicate IsComma(c: char) {
    c == ',' || c == '\U{FF0C}'
  }

  /** `re.split(',|，', s)`: the pieces between separators, empty pieces included. */
  function Split(s: string): (r: seq<string>)
    ensures |r| >= 1
  {
    if s == [] then [""]
    else
      var rest := Split(s[1..]);
      if IsComma(s[0]) then [""] + rest
      else [[s[0]] + rest[0]] + rest[1..]
  }

  /** The separators of `s`, in order. */
  function Commas(s: string): seq<char> {
    if s == [] then [] else (if IsComma(s[0]) then [s[0]] else []) + Commas(s[1..])
  }

  /** Pieces put back together with a separator between each two. */
  function Join(ps: seq<string>, seps: seq<char>): string
    requires |ps| == |seps| + 1
  {
    if seps == [] then ps[0] else ps[0] + [seps[0]] + Join(ps[1..], seps[1..])
  }

  lemma JoinFirst(x: string, ps: seq<string>, seps: seq<char>)
    requires |ps| == |seps| + 1
    ensures Join([x + ps[0]] + ps[1..], seps) == x + Join(ps, seps)
  {
    var qs := [x + ps[0]] + ps[1..];
    assert qs[1..] == ps[1..];
  }

  /** Splitting cuts exactly at the separators and loses nothing: there is one piece more
      than there are separators, no piece holds a separator, and joining the pieces with
      the separators in order gives the answer back. */
  lemma {:induction false} SplitJoin(s: string)
    ensures |Split(s)| == |Commas(s)| + 1
    ensures forall k, j | 0 <= k < |Split(s)| && 0 <= j < |Split(s)[k]| :: !IsComma(Split(s)[k][j])
    ensures Join(Split(s), Commas(s)) == s
  {
    if s != [] {
      var t := s[1..];
      SplitJoin(t);
      var rest := Split(t);
      if IsComma(s[0]) {
        assert Split(s) == [""] + rest;
        assert Commas(s) == [s[0]] + Commas(t);
        assert Split(s)[1..] == rest;
        assert forall k | 1 <= k < |Split(s)| :: Split(s)[k] == rest[k - 1];
        assert s == [s[0]] + t;
      } else {
        assert Commas(s) == Commas(t);
        JoinFirst([s[0]], rest, Commas(t));
        assert Split(s)[0] == [s[0]] + rest[0];
        assert forall k | 1 <= k < |Split(s)| :: Split(s)[k] == rest[k];
        assert s == [s[0]] + t;
      }
    }
  }

  // ---- Reading one piece ----

  /** The range separators of the pattern: `-`, `–`, `−`, `—` and `~`. */
  predicate IsRangeSep(c: char) {
    c == '-' || c == '\U{2013}' || c == '\U{2212}' || c == '\U{2014}' || c == '~'
  }

  /** What `re.match` of `(\d+)(?:[-–−—~](\d+))?` (and of 1.py's `(\d)+(?:[-–−—~](\d)+)?`,
      which matches the same text) finds at the front of a piece: the leading run of
      digits and, when a range separator and more digits follow it, that second run. */
  datatype IndexMatch = IndexMatch(first: string, second: Option<string>)

  function MatchIndex(tok: string): (r: Option<IndexMatch>)
    ensures r.None? <==> tok == [] || !IsDigit(tok[0])
    ensures r.Some? ==> var f := r.value.first;
      && 0 < |f| <= |tok| && AllDigits(f) && tok[..|f|] == f
      && (|f| < |tok| ==> !IsDigit(tok[|f|]))
    ensures r.Some? && r.value.second.Some? ==> var f, g := r.value.first, r.value.second.value;
      && 0 < |g| && |f| + 1 + |g| <= |tok| && AllDigits(g)
      && IsRangeSep(tok[|f|]) && tok[|f| + 1..|f| + 1 + |g|] == g
      && (|f| + 1 + |g| < |tok| ==> !IsDigit(tok[|f| + 1 + |g|]))
    ensures r.Some? && r.value.second.None? ==> var f := r.value.first;
      !(|f| + 1 < |tok| && IsRangeSep(tok[|f|]) && IsDigit(tok[|f| + 1]))
  {
    var n := DigitRun(tok);
    if n == 0 then None
    else
      var rest := tok[n..];
      var m := if |rest| >= 1 then DigitRun(rest[1..]) else 0;
      if |rest| >= 1 && IsRangeSep(rest[0]) && m > 0 then
        assert rest[1..][..m] == tok[n + 1..n + 1 + m];
        Some(IndexMatch(tok[..n], Some(rest[1..][..m])))
      else Some(IndexMatch(tok[..n], None))
  }

  // ---- Python's `int` ----

  /** How many white-space characters `s` starts with. */
  function LeadingSpace(s: string): (n: nat)
    ensures n <= |s|
    decreases |s|
  {
    if s != [] && IsPySpace(s[0]) then 1 + LeadingSpace(s[1..]) else 0
  }

  /** Where the white space at the end of `s` begins. */
  function TrailingStart(s: string): (n: nat)
    ensures n <= |s|
    decreases |s|
  {
    if s != [] && IsPySpace(s[|s| - 1]) then TrailingStart(s[..|s| - 1]) else |s|
  }

  /** `LeadingSpace` counts the longest run of white space at the front. */
  lemma {:induction false} LeadingSpaceRun(s: string)
    ensures forall k | 0 <= k < LeadingSpace(s) :: IsPySpace(s[k])
    ensures LeadingSpace(s) < |s| ==> !IsPySpace(s[LeadingSpace(s)])
    decreases |s|
  {
    if s != [] && IsPySpace(s[0]) {
      LeadingSpaceRun(s[1..]);
      assert forall k | 1 <= k < LeadingSpace(s) :: s[k] == s[1..][k - 1];
    }
  }

  /** `TrailingStart` begins the longest run of white space at the end. */
  lemma {:induction false} TrailingStartRun(s: string)
    ensures forall k | TrailingStart(s) <= k < |s| :: IsPySpace(s[k])
    ensures TrailingStart(s) > 0 ==> !IsPySpace(s[TrailingStart(s) - 1])
    decreases |s|
  {
    if s != [] && IsPySpace(s[|s| - 1]) {
      TrailingStartRun(s[..|s| - 1]);
    }
  }

  /** `s.strip()`: `s` without the white space at either end. */
  function PyStrip(s: string): string {
    var i := LeadingSpace(s);
    s[i..][..TrailingStart(s[i..])]
  }

  predicate AllPySpace(s: string) {
    forall k | 0 <= k < |s| :: IsPySpace(s[k])
  }

  /** Decimal digits in which single underscores may stand between two digits, the form
      `int` accepts (PEP 515). */
  predicate UnderscoredDigits(b: string) {
    && b != [] && IsDigit(b[0]) && IsDigit(b[|b| - 1])
    && (forall k | 0 <= k < |b| :: IsDigit(b[k]) || b[k] == '_')
    && (forall k | 0 <= k < |b| - 1 :: b[k] == '_' ==> b[k + 1] != '_')
  }

  /** The value of digits and underscores, the underscores skipped. */
  function UnderscoredValue(b: string): nat
    requires forall k | 0 <= k < |b| :: IsDigit(b[k]) || b[k] == '_'
  {
    if b == [] then 0
    else if b[|b| - 1] == '_' then UnderscoredValue(b[..|b| - 1])
    else
      assert IsDigit(b[|b| - 1]);
      UnderscoredValue(b[..|b| - 1]) * 10 + (b[|b| - 1] as int - '0' as int)
  }

  /** Without underscores the value is the plain decimal value. */
  lemma {:induction false} UnderscoredValueOfDigits(b: string)
    ensures AllDigits(b) ==> UnderscoredValue(b) == DigitsValue(b)
  {
    if b != [] && AllDigits(b) {
      UnderscoredValueOfDigits(b[..|b| - 1]);
    }
  }

  /** Python's `int(tok)`: the white space around the text dropped, then an optional sign
      and the digits read; `None` when `int` raises. A piece of plain digits reads as its
      decimal value, and a piece that starts with a digit never reads as negative. */
  function ParseInt(tok: string): (r: Option<int>)
    ensures r.Some? && tok != [] && IsDigit(tok[0]) ==> r.value >= 0
  {
    LeadingSpaceRun(tok);
    var t := PyStrip(tok);
    var signed := t != [] && (t[0] == '+' || t[0] == '-');
    var body := if signed then t[1..] else t;
    if !UnderscoredDigits(body) then None
    else
      var v: int := UnderscoredValue(body);
      Some(if signed && t[0] == '-' then -v else v)
  }

  /** What `int` accepts of a piece that starts with a digit: digits with single
      underscores between them, then nothing but white space. */
  predicate IntText(tok: string) {
    exists m | 0 < m <= |tok| :: UnderscoredDigits(tok[..m]) && AllPySpace(tok[m..])
  }

  /** Every piece `int` is given starts with a digit (the match demands it). On such a
      piece `int` succeeds exactly on `IntText`, and gives the value of the digits
      before the white space, underscores skipped. */
  lemma ParseIntOfPiece(tok: string, m: nat)
    requires tok != [] && IsDigit(tok[0])
    ensures ParseInt(tok).Some? <==> IntText(tok)
    ensures 0 < m <= |tok| && UnderscoredDigits(tok[..m]) && AllPySpace(tok[m..]) ==>
      ParseInt(tok) == Some(UnderscoredValue(tok[..m]))
  {
    LeadingSpaceRun(tok);
    assert LeadingSpace(tok) == 0;
    assert tok[0..] == tok;
    var e := TrailingStart(tok);
    TrailingStartRun(tok);
    assert PyStrip(tok) == tok[..e];
    assert tok[..e][0] == tok[0];
    if ParseInt(tok).Some? {
      assert UnderscoredDigits(tok[..e]) && AllPySpace(tok[e..]);
    }
    forall m' | 0 < m' <= |tok| && UnderscoredDigits(tok[..m']) && AllPySpace(tok[m'..])
      ensures m' == e
    {
      assert tok[..m'][m' - 1] == tok[m' - 1];
    }
  }

  /** A piece of plain digits reads as its decimal value. */
  lemma ParseIntOfDigits(tok: string)
    requires tok != [] && AllDigits(tok)
    ensures ParseInt(tok) == Some(DigitsValue(tok))
  {
    assert tok[..|tok|] == tok;
    ParseIntOfPiece(tok, |tok|);
    UnderscoredValueOfDigits(tok);
  }

  /** `int` as the scripts meet it: white space after a digit is dropped, so pieces such
      as `7<TAB>` or `7<U+3000>` (an ideographic space) read as 7. */
  lemma ParseIntTrailingSpace(d: char, w: char)
    requires IsDigit(d) && IsPySpace(w)
    ensures ParseInt([d, w]) == Some(d as int - '0' as int)
  {
    var t := [d, w];
    ParseIntOfPiece(t, 1);
    assert t[..1] == [d] && t[1..] == [w];
    assert UnderscoredValue([d]) == UnderscoredValue([]) * 10 + (d as int - '0' as int);
  }

  /** A single underscore between two digits is skipped: `1_0` reads as 10. */
  lemma ParseIntUnderscore(a: char, b: char)
    requires IsDigit(a) && IsDigit(b)
    ensures ParseInt([a, '_', b]) == Some(10 * (a as int - '0' as int) + (b as int - '0' as int))
  {
    var t := [a, '_', b];
    assert t[..3] == t && t[3..] == [];
    assert UnderscoredDigits(t);
    assert t[..2] == [a, '_'] && [a, '_'][..1] == [a] && [a][..0] == [];
    assert UnderscoredValue([a]) == a as int - '0' as int;
    assert UnderscoredValue(t) == UnderscoredValue([a, '_']) * 10 + (b as int - '0' as int);
    ParseIntOfPiece(t, 3);
  }

  /** Doubled or final underscores raise. */
  lemma ParseIntRejectsUnderscores(a: char, b: char)
    requires IsDigit(a) && IsDigit(b)
    ensures ParseInt([a, '_', '_', b]).None?
    ensures ParseInt([a, '_']).None?
  {
    var t1, t2 := [a, '_', '_', b], [a, '_'];
    assert ParseInt(t1).None? by {
      forall m | 0 < m < 4 ensures !AllPySpace(t1[m..]) {
        assert t1[m..][0] == t1[m];
      }
      assert t1[1] == '_' && t1[2] == '_';
      assert t1[..4] == t1 && !UnderscoredDigits(t1);
      ParseIntOfPiece(t1, 0);
    }
    assert ParseInt(t2).None? by {
      forall m | 0 < m < 2 ensures !AllPySpace(t2[m..]) {
        assert t2[m..][0] == t2[m];
      }
      assert t2[..2] == t2 && !UnderscoredDigits(t2);
      ParseIntOfPiece(t2, 0);
    }
  }

  /** Any other character after a digit that is neither a digit nor white space raises. */
  lemma ParseIntRejectsText(a: char, x: char)
    requires IsDigit(a) && !IsDigit(x) && !IsPySpace(x)
    ensures ParseInt([a, x]).None?
  {
    var t := [a, x];
    forall m | 0 < m < 2 ensures !AllPySpace(t[m..]) {
      assert t[m..][0] == t[m];
    }
    assert t[..2] == t && !UnderscoredDigits(t);
    ParseIntOfPiece(t, 0);
  }

  /** `int` reads back the text of every number. */
  lemma ParseIntOfNatToString(n: nat)
    ensures ParseInt(NatToString(n)) == Some(n)
  {
    ParseIntOfDigits(NatToString(n));
    DigitsValueOfNatToString(n);
  }

  /** The digit run of a number followed by a non-digit is the number. */
  lemma {:induction false} DigitRunOf(s: string, t: string)
    requires AllDigits(s) && (t == [] || !IsDigit(t[0]))
    ensures DigitRun(s + t) == |s|
  {
    if s != [] {
      assert (s + t)[1..] == s[1..] + t;
      DigitRunOf(s[1..], t);
    } else {
      assert s + t == t;
    }
  }

  /** A piece of digits only matches as a single number. */
  lemma MatchNumber(sa: string)
    requires sa != [] && AllDigits(sa)
    ensures MatchIndex(sa) == Some(IndexMatch(sa, None))
  {
    DigitRunOf(sa, []);
    assert sa + [] == sa;
  }

  /** A piece `a<sep>b` matches as the range with bounds `a` and `b`. */
  lemma MatchRange(sa: string, sep: char, sb: string)
    requires sa != [] && AllDigits(sa) && sb != [] && AllDigits(sb) && IsRangeSep(sep)
    ensures MatchIndex(sa + [sep] + sb) == Some(IndexMatch(sa, Some(sb)))
  {
    var tok := sa + [sep] + sb;
    assert tok == sa + ([sep] + sb);
    DigitRunOf(sa, [sep] + sb);
    DigitRunOf(sb, []);
    assert sb + [] == sb;
    assert tok[..|sa|] == sa;
    assert tok[|sa|..] == [sep] + sb;
    assert ([sep] + sb)[1..] == sb;
  }

  /** `range(lo, hi + 1)` as a list. */
  function Range(lo: nat, hi: int): (r: seq<nat>)
    decreases hi + 1 - lo
  {
    if lo > hi then [] else [lo] + Range(lo + 1, hi)
  }

  /** The range holds `lo..hi` and nothing else, increasing by one; it is empty when
      `lo > hi`. */
  lemma {:induction false} RangeIff(lo: nat, hi: int)
    ensures |Range(lo, hi)| == if lo > hi then 0 else hi - lo + 1
    ensures forall k | 0 <= k < |Range(lo, hi)| :: Range(lo, hi)[k] == lo + k
    ensures forall i :: i in Range(lo, hi) <==> lo <= i <= hi
    decreases hi + 1 - lo
  {
    if lo <= hi {
      RangeIff(lo + 1, hi);
      var r := Range(lo, hi);
      assert r == [lo] + Range(lo + 1, hi);
      assert forall k | 1 <= k < |r| :: r[k] == Range(lo + 1, hi)[k - 1];
    }
  }

  /** One more number at the top of a range. */
  lemma RangeSnoc(lo: nat, hi: int)
    requires lo <= hi + 1
    ensures Range(lo, hi + 1) == Range(lo, hi) + [hi + 1]
    decreases hi + 1 - lo
  {
    if lo <= hi {
      RangeSnoc(lo + 1, hi);
    }
  }

  /** How the pieces are read: versions/1.0.py and v0.1.py (`WholeNumbers`), 1.py
      (`LastDigits`: `(\d)+` captures only the last digit of each number, and a piece
      that does not match is skipped), and the reading the three evidently intend
      (`Intended`: whole numbers, a piece that does not match skipped). */
  datatype Reading = WholeNumbers | LastDigits | Intended

  /** The number a capture group holds. */
  function Capture(reading: Reading, run: string): nat
    requires run != [] && AllDigits(run)
  {
    if reading == LastDigits then DigitsValue(run[|run| - 1..]) else DigitsValue(run)
  }

  /** What one piece, spaces removed, adds to `fightIndexes`; `None` when reading it
      raises. In versions/1.0.py:124 and v0.1.py:106 the debug `print` reads the groups
      of the match before the `if` tests it, so a piece that does not match raises there
      instead of being reported. A single number is read with `int` of the whole piece. */
  function PieceIndexes(reading: Reading, tok: string): Option<seq<nat>> {
    match MatchIndex(tok)
    case None => if reading == WholeNumbers then None else Some([])
    case Some(IndexMatch(f, None)) =>
      if ParseInt(tok).Some? then Some([ParseInt(tok).value]) else None
    case Some(IndexMatch(f, Some(g))) => Some(Range(Capture(reading, f), Capture(reading, g)))
  }

  /** How one raw piece is read: its spaces removed, then its indexes taken. */
  function ReadPiece(reading: Reading): string -> Option<seq<nat>> {
    tok => PieceIndexes(reading, RemoveChar(tok, ' '))
  }

  /** The loop over the pieces: every piece read in turn, its indexes appended. */
  function Collect(read: string -> Option<seq<nat>>, ps: seq<string>): Option<seq<nat>>
    decreases |ps|
  {
    if ps == [] then Some([])
    else match Collect(read, ps[..|ps| - 1])
      case None => None
      case Some(acc) =>
        match read(ps[|ps| - 1])
        case None => None
        case Some(v) => Some(acc + v)
  }

  /** `fightIndexes` for the answer typed at the prompt. */
  function ParseIndexes(reading: Reading, answer: string): Option<seq<nat>> {
    Collect(ReadPiece(reading), Split(answer))
  }

  // ---- What reading gives ----

  /** A piece adds exactly the one number `int` reads from it, or the numbers of its range,
      or nothing; it raises exactly when it does not match under `WholeNumbers`, or when
      it matches as a single number but `int` does not accept it (`IntText`). */
  lemma PieceIndexesIff(reading: Reading, tok: string, i: nat)
    ensures PieceIndexes(reading, tok).None? <==>
      || (MatchIndex(tok).None? && reading == WholeNumbers)
      || (MatchIndex(tok).Some? && MatchIndex(tok).value.second.None? && !IntText(tok))
    ensures PieceIndexes(reading, tok).Some? ==>
      (i in PieceIndexes(reading, tok).value <==>
        || (MatchIndex(tok).Some? && MatchIndex(tok).value.second.None? && ParseInt(tok) == Some(i))
        || (MatchIndex(tok).Some? && MatchIndex(tok).value.second.Some? &&
            Capture(reading, MatchIndex(tok).value.first) <= i <= Capture(reading, MatchIndex(tok).value.second.value)))
  {
    match MatchIndex(tok)
    case None =>
    case Some(IndexMatch(f, None)) => ParseIntOfPiece(tok, 0);
    case Some(IndexMatch(f, Some(g))) => RangeIff(Capture(reading, f), Capture(reading, g));
  }

  /** The loop raises exactly when some piece raises. */
  lemma {:induction false} CollectRaisesIff(read: string -> Option<seq<nat>>, ps: seq<string>)
    ensures Collect(read, ps).Some? <==> forall k | 0 <= k < |ps| :: read(ps[k]).Some?
    decreases |ps|
  {
    if ps != [] {
      var init := ps[..|ps| - 1];
      CollectRaisesIff(read, init);
      assert forall k | 0 <= k < |init| :: init[k] == ps[k];
      if forall k | 0 <= k < |ps| :: read(ps[k]).Some? {
        assert read(ps[|ps| - 1]).Some?;
      } else {
        var k :| 0 <= k < |ps| && read(ps[k]).None?;
        if k < |init| {
          assert read(init[k]).None?;
        }
      }
    }
  }

  /** Otherwise it yields exactly the indexes the pieces add: an index is in the list
      exactly when some piece adds it. */
  lemma {:induction false} CollectHas(read: string -> Option<seq<nat>>, ps: seq<string>, i: nat)
    requires Collect(read, ps).Some?
    ensures i in Collect(read, ps).value <==>
      exists k | 0 <= k < |ps| :: read(ps[k]).Some? && i in read(ps[k]).value
    decreases |ps|
  {
    if ps != [] {
      var init := ps[..|ps| - 1];
      CollectHas(read, init, i);
      assert forall k | 0 <= k < |init| :: init[k] == ps[k];
      var acc := Collect(read, init).value;
      var last := read(ps[|ps| - 1]).value;
      assert Collect(read, ps).value == acc + last;
      if i in acc {
        var k :| 0 <= k < |init| && read(init[k]).Some? && i in read(init[k]).value;
        assert init[k] == ps[k];
      }
    }
  }

  /** A range piece `a-b` read under `Intended` adds exactly `a..b`, the whole numbers
      written; a piece that does not match adds nothing and does not raise. */
  lemma IntendedReading(tok: string, a: nat, b: nat, i: nat)
    ensures MatchIndex(tok).None? ==> PieceIndexes(Intended, tok) == Some([])
    ensures tok == NatToString(a) + "-" + NatToString(b) ==>
      PieceIndexes(Intended, tok).Some? && (i in PieceIndexes(Intended, tok).value <==> a <= i <= b)
  {
    if tok == NatToString(a) + "-" + NatToString(b) {
      MatchRange(NatToString(a), '-', NatToString(b));
      DigitsValueOfNatToString(a);
      DigitsValueOfNatToString(b);
      RangeIff(a, b);
    }
  }

  // ---- Two discrepancies of the scripts as written ----

  /** The pieces of an answer `a,b,` such as `1,2,`. */
  lemma SplitTrailingComma(a: char, b: char)
    requires !IsComma(a) && !IsComma(b)
    ensures Split([a, ',', b, ',']) == [[a], [b], ""]
  {
    assert Split("") == [""];
    var s1 := [','];
    assert s1[1..] == "";
    assert Split(s1) == ["", ""];
    var s2 := [b, ','];
    assert s2[1..] == s1;
    assert Split(s2) == [[b] + ""] + [""];
    assert [b] + "" == [b];
    var s3 := [',', b, ','];
    assert s3[1..] == s2;
    assert Split(s3) == [""] + [[b], ""];
    var s4 := [a, ',', b, ','];
    assert s4[1..] == s3;
    assert Split(s4) == [[a] + ""] + [[b], ""];
    assert [a] + "" == [a];
  }

  /** In versions/1.0.py and v0.1.py an answer with an empty piece, such as the trailing
      comma of `1,2,`, raises instead of reporting the piece and reading the rest. */
  lemma TrailingCommaRaises(a: char, b: char)
    requires IsDigit(a) && IsDigit(b)
    ensures ParseIndexes(WholeNumbers, [a, ',', b, ',']).None?
  {
    SplitTrailingComma(a, b);
    var ps := [[a], [b], ""];
    assert RemoveChar("", ' ') == "";
    assert ReadPiece(WholeNumbers)(ps[2]).None?;
    CollectRaisesIff(ReadPiece(WholeNumbers), ps);
  }

  /** Read as intended, the same answer gives the two indexes typed: `1,2,` gives `[1, 2]`. */
  lemma TrailingCommaIntended(a: char, b: char)
    requires IsDigit(a) && IsDigit(b)
    ensures ParseIndexes(Intended, [a, ',', b, ',']) == Some([a as int - '0' as int, b as int - '0' as int])
  {
    SplitTrailingComma(a, b);
    DigitPiecesIntended(a, b);
  }

  /** The pieces `a`, `b` and an empty one, read as intended. */
  lemma DigitPiecesIntended(a: char, b: char)
    requires IsDigit(a) && IsDigit(b)
    ensures Collect(ReadPiece(Intended), [[a], [b], ""]) == Some([a as int - '0' as int, b as int - '0' as int])
  {
    var va, vb := a as int - '0' as int, b as int - '0' as int;
    assert [a][..0] == [] && DigitsValue([a]) == va;
    assert [b][..0] == [] && DigitsValue([b]) == vb;
    ReadPlainPiece(Intended, [a]);
    ReadPlainPiece(Intended, [b]);
    assert ReadPiece(Intended)("") == Some([]) by {
      assert RemoveChar("", ' ') == "";
    }
    CollectThree(ReadPiece(Intended), [[a], [b], ""]);
    assert [va] + [vb] + [] == [va, vb];
  }

  /** Three pieces that all read give their indexes in order. */
  lemma CollectThree(read: string -> Option<seq<nat>>, ps: seq<string>)
    requires |ps| == 3 && read(ps[0]).Some? && read(ps[1]).Some? && read(ps[2]).Some?
    ensures Collect(read, ps) == Some(read(ps[0]).value + read(ps[1]).value + read(ps[2]).value)
  {
    assert ps[..0] == [] && ps[..3] == ps;
    CollectSnoc(read, ps, 0);
    CollectSnoc(read, ps, 1);
    CollectSnoc(read, ps, 2);
    assert [] + read(ps[0]).value == read(ps[0]).value;
  }

  /** A piece of plain digits adds the one number it spells, however it is read. */
  lemma ReadPlainPiece(reading: Reading, tok: string)
    requires tok != [] && AllDigits(tok)
    ensures ReadPiece(reading)(tok) == Some([DigitsValue(tok)])
  {
    assert ' ' !in tok;
    MatchNumber(tok);
    ParseIntOfDigits(tok);
  }

  /** In 1.py the range `10-15`, the prompt's own example, reads as `0..5`: each bound
      keeps only its last digit. */
  lemma LastDigitRange()
    ensures PieceIndexes(LastDigits, "10-15") == Some(Range(0, 5))
  {
    MatchTenFifteen();
    assert "10"[1..] == "0" && "15"[1..] == "5";
    assert DigitsValue("0") == 0 && DigitsValue("5") == 5;
  }

  /** Read as intended, the same range gives `10..15`. */
  lemma WholeNumberRange()
    ensures PieceIndexes(Intended, "10-15") == Some(Range(10, 15))
  {
    MatchTenFifteen();
    assert DigitsValue("1") == 1 && DigitsValue("10") == 10 && DigitsValue("15") == 15;
  }

  /** The match of the piece `10-15`. */
  lemma MatchTenFifteen()
    ensures MatchIndex("10-15") == Some(IndexMatch("10", Some("15")))
    ensures AllDigits("10") && AllDigits("15")
  {
    assert AllDigits("10") && AllDigits("15");
    assert "10-15" == "10" + ['-'] + "15";
    MatchRange("10", '-', "15");
  }

  // ---- The loop of the scripts ----

  /** The numbers `lo..hi` appended one by one, as the inner `for` loop does. */
  method AppendRange(acc: seq<nat>, lo: nat, hi: nat) returns (acc': seq<nat>)
    ensures acc' == acc + Range(lo, hi)
  {
    acc' := acc;
    var j := lo;
    while j < hi + 1
      invariant lo <= j && (j <= hi + 1 || j == lo)
      invariant acc' == acc + Range(lo, j - 1)
    {
      RangeSnoc(lo, j - 1);
      acc' := acc' + [j];
      j := j + 1;
    }
  }

  /** One piece, spaces already removed: matched, then its number or its range appended;
      `ok` is false when reading it raised. */
  method AppendPiece(reading: Reading, acc: seq<nat>, tok: string) returns (ok: bool, acc': seq<nat>)
    ensures ok <==> PieceIndexes(reading, tok).Some?
    ensures ok ==> acc' == acc + PieceIndexes(reading, tok).value
  {
    var m := MatchIndex(tok);
    if m.None? {
      return reading != WholeNumbers, acc;
    }
    if m.value.second.None? {
      var n := ParseInt(tok);
      if n.None? {
        return false, acc;
      }
      return true, acc + [n.value];
    }
    ok := true;
    acc' := AppendRange(acc, Capture(reading, m.value.first), Capture(reading, m.value.second.value));
  }

  /** The prompt's loop (versions/1.0.py:119-132, v0.1.py:101-114, 1.py:93-105): each
      piece, spaces removed, is read in turn; `ok` is false when a piece raised. */
  method ParseFightIndexes(reading: Reading, answer: string) returns (ok: bool, fightIndexes: seq<nat>)
    ensures ok <==> ParseIndexes(reading, answer).Some?
    ensures ok ==> fightIndexes == ParseIndexes(reading, answer).value
  {
    var raw := Split(answer);
    fightIndexes := [];
    var i := 0;
    while i < |raw|
      invariant 0 <= i <= |raw|
      invariant Collect(ReadPiece(reading), raw[..i]) == Some(fightIndexes)
    {
      CollectSnoc(ReadPiece(reading), raw, i);
      assert ReadPiece(reading)(raw[i]) == PieceIndexes(reading, RemoveChar(raw[i], ' '));
      ok, fightIndexes := AppendPiece(reading, fightIndexes, RemoveChar(raw[i], ' '));
      if !ok {
        CollectRaises(ReadPiece(reading), raw, i + 1);
        return false, [];
      }
      i := i + 1;
    }
    assert raw[..i] == raw;
    ok := true;
  }

  /** One more piece read. */
  lemma CollectSnoc(read: string -> Option<seq<nat>>, ps: seq<string>, i: nat)
    requires i < |ps|
    ensures Collect(read, ps[..i + 1]) ==
      if Collect(read, ps[..i]).Some? && read(ps[i]).Some?
      then Some(Collect(read, ps[..i]).value + read(ps[i]).value)
      else None
  {
    assert ps[..i + 1][..i] == ps[..i];
  }

  /** A piece that raised ends the loop: nothing after it is read. */
  lemma {:induction false} CollectRaises(read: string -> Option<seq<nat>>, ps: seq<string>, k: nat)
    requires k <= |ps| && Collect(read, ps[..k]).None?
    ensures Collect(read, ps).None?
    decreases |ps| - k
  {
    if k < |ps| {
      assert ps[..k + 1][..k] == ps[..k];
      CollectRaises(read, ps, k + 1);
    } else {
      assert ps[..k] == ps;
    }
  }
}
