/** The VLAN list printer of discovery, a decoder for what it prints, and the
    laws that connect the two: round trip, minimality, and the length bound
    that decides whether the attribute is published. */
module VlanRanges {
  import opened Options

  /** A DRA attribute string holds at most this many characters. */
  const MAX_VALUE_LENGTH := 64

  // ---- Decimal numerals -------------------------------------------------

  predicate IsDigit(c: char) { '0' <= c <= '9' }

  function Numeral(n: nat): (s: string)
    ensures |s| > 0 && forall i :: 0 <= i < |s| ==> IsDigit(s[i])
  {
    if n < 10 then [(n + '0' as int) as char]
    else Numeral(n / 10) + [(n % 10 + '0' as int) as char]
  }

  /** strconv.Itoa. */
  function Itoa(n: int): string
  {
    if n < 0 then "-" + Numeral(-n) else Numeral(n)
  }

  function DigitsValue(s: string): nat
    requires forall i :: 0 <= i < |s| ==> IsDigit(s[i])
  {
    if |s| == 0 then 0
    else
      assert IsDigit(s[|s| - 1]);
      10 * DigitsValue(s[..|s| - 1]) + (s[|s| - 1] as int - '0' as int)
  }

  function ParseId(s: string): Option<nat>
  {
    if s != "" && forall i :: 0 <= i < |s| ==> IsDigit(s[i]) then Some(DigitsValue(s)) else None
  }

  lemma {:induction false} ParseNumeral(n: nat)
    ensures ParseId(Numeral(n)) == Some(n)
  {
    var s := Numeral(n);
    assert forall i :: 0 <= i < |s| ==> IsDigit(s[i]);
    if n < 10 {
      assert s[..|s| - 1] == [];
      assert DigitsValue(s[..|s| - 1]) == 0;
      assert DigitsValue(s) == n;
    } else {
      ParseNumeral(n / 10);
      assert s[..|s| - 1] == Numeral(n / 10);
    }
  }

  lemma ItoaInjective(m: nat, n: nat)
    requires m != n
    ensures Itoa(m) != Itoa(n)
  {
    ParseNumeral(m);
    ParseNumeral(n);
  }

  // ---- The printer --------------------------------------------------------

  /** A printed part: the single ID `lo` when `hi == lo`, else the range. */
  datatype Part = Part(lo: int, hi: int)

  /** The last index of the stretch of consecutive IDs that starts at `i`. */
  function RunEnd(vlans: seq<int>, i: nat): (j: nat)
    requires i < |vlans|
    ensures i <= j < |vlans|
    decreases |vlans| - i
  {
    if i + 1 < |vlans| && vlans[i + 1] == vlans[i] + 1 then RunEnd(vlans, i + 1) else i
  }

  lemma {:induction false} RunEndIsMaximal(vlans: seq<int>, i: nat)
    requires i < |vlans|
    ensures var j := RunEnd(vlans, i);
      (forall k :: i <= k <= j ==> vlans[k] == vlans[i] + (k - i)) &&
      (j + 1 < |vlans| ==> vlans[j + 1] != vlans[j] + 1)
    decreases |vlans| - i
  {
    if i + 1 < |vlans| && vlans[i + 1] == vlans[i] + 1 { RunEndIsMaximal(vlans, i + 1); }
  }

  /** The maximal stretches of consecutive IDs, from index `i` on. */
  function Runs(vlans: seq<int>, i: nat): seq<Part>
    requires i <= |vlans|
    decreases |vlans| - i
  {
    if i == |vlans| then []
    else
      var j := RunEnd(vlans, i);
      [Part(vlans[i], vlans[j])] + Runs(vlans, j + 1)
  }

  function PartText(p: Part): string
  {
    if p.hi > p.lo then Itoa(p.lo) + "-" + Itoa(p.hi) else Itoa(p.lo)
  }

  function Texts(ps: seq<Part>): seq<string>
  {
    seq(|ps|, i requires 0 <= i < |ps| => PartText(ps[i]))
  }

  /** strings.Join with a comma. */
  function Join(parts: seq<string>): string
  {
    if parts == [] then ""
    else if |parts| == 1 then parts[0]
    else parts[0] + "," + Join(parts[1..])
  }

  function Printed(vlans: seq<int>): string
  {
    Join(Texts(Runs(vlans, 0)))
  }

  lemma NextRun(vlans: seq<int>, i: nat, printed: seq<Part>, parts: seq<string>)
    requires i < |vlans| && printed + Runs(vlans, i) == Runs(vlans, 0) && parts == Texts(printed)
    ensures var p := Part(vlans[i], vlans[RunEnd(vlans, i)]);
      printed + [p] + Runs(vlans, RunEnd(vlans, i) + 1) == Runs(vlans, 0) &&
      parts + [PartText(p)] == Texts(printed + [p]) &&
      (p.hi > p.lo <==> RunEnd(vlans, i) > i)
  {
    var p := Part(vlans[i], vlans[RunEnd(vlans, i)]);
    RunEndIsMaximal(vlans, i);
    assert Runs(vlans, i) == [p] + Runs(vlans, RunEnd(vlans, i) + 1);
    assert printed + [p] + Runs(vlans, RunEnd(vlans, i) + 1) == printed + Runs(vlans, i);
  }

  lemma Digits(d: nat)
    requires d < 10
    ensures Itoa(d) == ["0123456789"[d]]
  {
  }

  /** A list of two, consecutive or not. */
  lemma PrintedExample()
    ensures Printed([7, 8]) == "7-8" && Printed([7, 9]) == "7,9"
  {
    Digits(7);
    Digits(8);
    Digits(9);
    var both, apart := [7, 8], [7, 9];
    assert RunEnd(both, 0) == 1 && Runs(both, 0) == [Part(7, 8)];
    assert PartText(Part(7, 8)) == "7" + "-" + "8" == "7-8";
    assert Texts([Part(7, 8)]) == [PartText(Part(7, 8))];
    assert Runs(apart, 1) == [Part(9, 9)] && Runs(apart, 0) == [Part(7, 7), Part(9, 9)];
    assert Texts(Runs(apart, 0)) == ["7", "9"];
  }

  method FormatVlanRanges(vlans: seq<int>) returns (s: string)
    ensures s == Printed(vlans)
  {
    var parts: seq<string> := [];
    ghost var runs: seq<Part> := [];
    var i := 0;
    while i < |vlans|
      invariant 0 <= i <= |vlans|
      invariant runs + Runs(vlans, i) == Runs(vlans, 0)
      invariant parts == Texts(runs)
      decreases |vlans| - i
    {
      var j := i;
      while j + 1 < |vlans| && vlans[j + 1] == vlans[j] + 1
        invariant i <= j < |vlans|
        invariant RunEnd(vlans, j) == RunEnd(vlans, i)
      {
        j := j + 1;
      }
      NextRun(vlans, i, runs, parts);
      if j > i {
        parts := parts + [Itoa(vlans[i]) + "-" + Itoa(vlans[j])];
      } else {
        parts := parts + [Itoa(vlans[i])];
      }
      runs := runs + [Part(vlans[i], vlans[j])];
      i := j + 1;
    }
    assert runs == Runs(vlans, 0);
    s := Join(parts);
  }

  // ---- The decoder --------------------------------------------------------

  function Split(s: string, sep: char): (fields: seq<string>)
    ensures |fields| > 0
  {
    if s == "" then [""]
    else
      var rest := Split(s[1..], sep);
      if s[0] == sep then [""] + rest else [[s[0]] + rest[0]] + rest[1..]
  }

  function ParsePart(s: string): Option<Part>
  {
    var fields := Split(s, '-');
    if |fields| == 1 then
      match ParseId(fields[0]) {
        case Some(n) => Some(Part(n, n))
        case None => None
      }
    else if |fields| == 2 && ParseId(fields[0]).Some? && ParseId(fields[1]).Some? &&
            ParseId(fields[0]).value <= ParseId(fields[1]).value then
      Some(Part(ParseId(fields[0]).value, ParseId(fields[1]).value))
    else None
  }

  function Expand(p: Part): seq<int>
  {
    if p.hi < p.lo then [] else seq(p.hi - p.lo + 1, k => p.lo + k)
  }

  function ParseParts(fields: seq<string>): Option<seq<Part>>
  {
    if fields == [] then Some([])
    else
      var first := ParsePart(fields[0]);
      var rest := ParseParts(fields[1..]);
      if first.Some? && rest.Some? then Some([first.value] + rest.value) else None
  }

  function ExpandAll(ps: seq<Part>): seq<int>
  {
    if ps == [] then [] else Expand(ps[0]) + ExpandAll(ps[1..])
  }

  /** Reads comma-separated IDs and ranges. */
  function Parse(s: string): Option<seq<int>>
  {
    if s == "" then Some([])
    else
      match ParseParts(Split(s, ','))
      case Some(ps) => Some(ExpandAll(ps))
      case None => None
  }

  // ---- Round trip ---------------------------------------------------------

  lemma {:induction false} SplitWithout(s: string, sep: char)
    requires sep !in s
    ensures Split(s, sep) == [s]
  {
    if s != "" {
      SplitWithout(s[1..], sep);
      assert s == [s[0]] + s[1..];
    }
  }

  lemma {:induction false} SplitFirst(a: string, sep: char, rest: string)
    requires sep !in a
    ensures Split(a + [sep] + rest, sep) == [a] + Split(rest, sep)
  {
    var s := a + [sep] + rest;
    if a == "" {
      assert s[1..] == rest;
    } else {
      assert s[1..] == a[1..] + [sep] + rest;
      SplitFirst(a[1..], sep, rest);
      assert a == [a[0]] + a[1..];
    }
  }

  lemma {:induction false} SplitJoin(parts: seq<string>)
    requires parts != [] && forall i :: 0 <= i < |parts| ==> ',' !in parts[i]
    ensures Split(Join(parts), ',') == parts
  {
    if |parts| == 1 {
      SplitWithout(parts[0], ',');
    } else {
      SplitJoin(parts[1..]);
      SplitFirst(parts[0], ',', Join(parts[1..]));
    }
  }

  lemma PartRoundTrip(p: Part)
    requires 0 <= p.lo <= p.hi
    ensures ParsePart(PartText(p)) == Some(p)
    ensures ',' !in PartText(p) && PartText(p) != ""
  {
    ParseNumeral(p.lo);
    ParseNumeral(p.hi);
    SplitWithout(Numeral(p.lo), '-');
    SplitWithout(Numeral(p.hi), '-');
    SplitFirst(Numeral(p.lo), '-', Numeral(p.hi));
    assert Numeral(p.lo) + ['-'] + Numeral(p.hi) == Numeral(p.lo) + "-" + Numeral(p.hi);
  }

  predicate NonNegative(vlans: seq<int>) { forall i :: 0 <= i < |vlans| ==> 0 <= vlans[i] }

  lemma {:induction false} RunBounds(vlans: seq<int>, i: nat)
    requires i <= |vlans|
    ensures forall k :: 0 <= k < |Runs(vlans, i)| ==>
      Runs(vlans, i)[k].lo in vlans && Runs(vlans, i)[k].hi in vlans && Runs(vlans, i)[k].lo <= Runs(vlans, i)[k].hi
    decreases |vlans| - i
  {
    if i < |vlans| {
      RunEndIsMaximal(vlans, i);
      RunBounds(vlans, RunEnd(vlans, i) + 1);
    }
  }

  lemma {:induction false} PartsRoundTrip(ps: seq<Part>)
    requires forall k :: 0 <= k < |ps| ==> 0 <= ps[k].lo <= ps[k].hi
    ensures ParseParts(Texts(ps)) == Some(ps)
  {
    if ps == [] {
      assert Texts(ps) == [];
    } else {
      var ts := Texts(ps);
      assert ts[0] == PartText(ps[0]) && ts[1..] == Texts(ps[1..]);
      assert ParsePart(ts[0]) == Some(ps[0]) by { PartRoundTrip(ps[0]); }
      PartsRoundTrip(ps[1..]);
      assert [ps[0]] + ps[1..] == ps;
    }
  }

  lemma ExpandFirst(p: Part, rest: seq<Part>)
    ensures ExpandAll([p] + rest) == Expand(p) + ExpandAll(rest)
  {
    assert ([p] + rest)[1..] == rest;
  }

  lemma ExpandRun(vlans: seq<int>, i: nat, p: Part, tail: seq<int>)
    requires i < |vlans| && p == Part(vlans[i], vlans[RunEnd(vlans, i)]) && tail == vlans[RunEnd(vlans, i) + 1..]
    ensures Expand(p) + tail == vlans[i..]
  {
    var j := RunEnd(vlans, i);
    RunEndIsMaximal(vlans, i);
    assert Expand(p) == vlans[i..j + 1];
  }

  lemma RunsFirst(vlans: seq<int>, i: nat, p: Part, rest: seq<Part>)
    requires i < |vlans| && p == Part(vlans[i], vlans[RunEnd(vlans, i)]) && rest == Runs(vlans, RunEnd(vlans, i) + 1)
    ensures Runs(vlans, i) == [p] + rest
  {
  }

  lemma ExpandCons(p: Part, rest: seq<Part>, runs: seq<Part>, tail: seq<int>, all: seq<int>)
    requires runs == [p] + rest && ExpandAll(rest) == tail && Expand(p) + tail == all
    ensures ExpandAll(runs) == all
  {
    ExpandFirst(p, rest);
  }

  lemma {:induction false} ExpandRuns(vlans: seq<int>, i: nat)
    requires i <= |vlans|
    ensures ExpandAll(Runs(vlans, i)) == vlans[i..]
    decreases |vlans| - i
  {
    if i < |vlans| {
      var j := RunEnd(vlans, i);
      var p, rest, tail := Part(vlans[i], vlans[j]), Runs(vlans, j + 1), vlans[j + 1..];
      ExpandRuns(vlans, j + 1);
      RunsFirst(vlans, i, p, rest);
      ExpandRun(vlans, i, p, tail);
      ExpandCons(p, rest, [p] + rest, tail, vlans[i..]);
    }
  }

  lemma {:induction false} JoinNonEmpty(parts: seq<string>)
    requires parts != [] && parts[0] != ""
    ensures Join(parts) != ""
  {
  }

  /** Decoding the printed attribute gives back the list, for every list of
      VLAN IDs: nothing is lost, merged across a gap, or reordered. */
  lemma RoundTrip(vlans: seq<int>)
    requires NonNegative(vlans)
    ensures Parse(Printed(vlans)) == Some(vlans)
    ensures Printed(vlans) == "" <==> vlans == []
  {
    var runs := Runs(vlans, 0);
    var ts := Texts(runs);
    assert vlans[0..] == vlans;
    ExpandRuns(vlans, 0);
    if vlans != [] {
      RunBounds(vlans, 0);
      forall k | 0 <= k < |ts| ensures ',' !in ts[k] && ts[k] != "" { PartRoundTrip(runs[k]); }
      PartsRoundTrip(runs);
      JoinNonEmpty(ts);
      SplitJoin(ts);
    }
  }

  /** Two different lists never print alike. */
  lemma PrintedInjective(a: seq<int>, b: seq<int>)
    requires NonNegative(a) && NonNegative(b) && Printed(a) == Printed(b)
    ensures a == b
  {
    RoundTrip(a);
    RoundTrip(b);
  }

  // ---- Minimality ---------------------------------------------------------

  predicate StrictlyAscending(vlans: seq<int>)
  {
    forall i, j :: 0 <= i < j < |vlans| ==> vlans[i] < vlans[j]
  }

  predicate Names(p: Part, x: int) { p.lo <= x <= p.hi }

  ghost predicate Named(ps: seq<Part>, x: int)
  {
    exists k :: 0 <= k < |ps| && Names(ps[k], x)
  }

  /** `ps` lists exactly the IDs in `vlans`, in any order and with any overlap. */
  ghost predicate Represents(ps: seq<Part>, vlans: seq<int>)
  {
    forall x: int :: x in vlans <==> Named(ps, x)
  }

  /** A listed ID whose predecessor is not listed. */
  ghost predicate Starts(vlans: seq<int>, x: int) { x in vlans && x - 1 !in vlans }

  lemma StartsAt(vlans: seq<int>, i: nat)
    requires StrictlyAscending(vlans) && i < |vlans|
    requires i > 0 ==> vlans[i - 1] + 1 != vlans[i]
    ensures Starts(vlans, vlans[i])
  {
    forall m | 0 <= m < |vlans| ensures vlans[m] != vlans[i] - 1 {
      assert i > 0 ==> vlans[i - 1] < vlans[i];
    }
  }

  lemma {:induction false} RunStarts(vlans: seq<int>, i: nat)
    requires StrictlyAscending(vlans) && i <= |vlans|
    requires 0 < i < |vlans| ==> vlans[i - 1] + 1 != vlans[i]
    ensures forall k :: 0 <= k < |Runs(vlans, i)| ==>
      Starts(vlans, Runs(vlans, i)[k].lo) && vlans[i] <= Runs(vlans, i)[k].lo
    ensures forall k, l :: 0 <= k < l < |Runs(vlans, i)| ==> Runs(vlans, i)[k].lo < Runs(vlans, i)[l].lo
    decreases |vlans| - i
  {
    if i < |vlans| {
      var j := RunEnd(vlans, i);
      RunEndIsMaximal(vlans, i);
      RunStarts(vlans, j + 1);
      StartsAt(vlans, i);
      assert Runs(vlans, i) == [Part(vlans[i], vlans[j])] + Runs(vlans, j + 1);
    }
  }

  function Los(ps: seq<Part>): (los: set<int>)
    ensures |los| <= |ps|
    ensures forall k :: 0 <= k < |ps| ==> ps[k].lo in los
    ensures forall x :: x in los ==> exists k :: 0 <= k < |ps| && ps[k].lo == x
  {
    if ps == [] then {}
    else
      var rest := Los(ps[1..]);
      assert |rest + {ps[0].lo}| <= |rest| + 1;
      assert forall x :: x in rest ==> exists k :: 0 <= k < |ps[1..]| && ps[1..][k].lo == x;
      assert forall k :: 0 <= k < |ps[1..]| ==> ps[1..][k] == ps[k + 1];
      assert forall k :: 0 < k < |ps| ==> ps[1..][k - 1] == ps[k];
      rest + {ps[0].lo}
  }

  lemma {:induction false} DistinctLos(ps: seq<Part>)
    requires forall k, l :: 0 <= k < l < |ps| ==> ps[k].lo < ps[l].lo
    ensures |Los(ps)| == |ps|
  {
    if ps != [] {
      DistinctLos(ps[1..]);
      assert ps[0].lo !in Los(ps[1..]);
    }
  }

  /** No list of IDs and ranges that names the same VLANs is shorter than the
      printed one. */
  lemma PrintedIsMinimal(vlans: seq<int>, ps: seq<Part>)
    requires StrictlyAscending(vlans) && Represents(ps, vlans)
    ensures |Runs(vlans, 0)| <= |ps|
  {
    var runs := Runs(vlans, 0);
    RunStarts(vlans, 0);
    DistinctLos(runs);
    forall x | x in Los(runs) ensures x in Los(ps) {
      var r :| 0 <= r < |runs| && runs[r].lo == x;
      StartIsLo(vlans, ps, x);
    }
    SubsetSize(Los(runs), Los(ps));
  }

  lemma StartIsLo(vlans: seq<int>, ps: seq<Part>, x: int)
    requires Represents(ps, vlans) && Starts(vlans, x)
    ensures x in Los(ps)
  {
    assert Named(ps, x);
    var k :| 0 <= k < |ps| && Names(ps[k], x);
    assert !Named(ps, x - 1);
    assert !Names(ps[k], x - 1);
  }

  lemma {:induction false} SubsetSize<T>(a: set<T>, b: set<T>)
    requires a <= b
    ensures |a| <= |b|
  {
    if a != {} {
      var x :| x in a;
      SubsetSize(a - {x}, b - {x});
    }
  }

  lemma NamedFirst(p: Part, rest: seq<Part>, x: int)
    ensures Named([p] + rest, x) <==> Names(p, x) || Named(rest, x)
  {
    var all := [p] + rest;
    assert all[0] == p && forall k :: 0 <= k < |rest| ==> all[k + 1] == rest[k];
    if k :| 0 <= k < |rest| && Names(rest[k], x) { assert Names(all[k + 1], x); }
    if Names(p, x) { assert Names(all[0], x); }
    if k :| 0 <= k < |all| && Names(all[k], x) && k > 0 { assert Names(rest[k - 1], x); }
  }

  lemma {:induction false} RunsCover(vlans: seq<int>, i: nat, x: int)
    requires i <= |vlans|
    ensures x in vlans[i..] <==> Named(Runs(vlans, i), x)
    decreases |vlans| - i
  {
    if i < |vlans| {
      var j := RunEnd(vlans, i);
      var p := Part(vlans[i], vlans[j]);
      RunEndIsMaximal(vlans, i);
      RunsCover(vlans, j + 1, x);
      NamedFirst(p, Runs(vlans, j + 1), x);
      assert vlans[i..] == vlans[i..j + 1] + vlans[j + 1..];
      if Names(p, x) { assert vlans[i..j + 1][x - vlans[i]] == x; }
      if x in vlans[i..j + 1] {
        var m :| 0 <= m < |vlans[i..j + 1]| && vlans[i..j + 1][m] == x;
        assert vlans[i + m] == x;
      }
    }
  }

  /** The printed parts name exactly the listed VLANs. */
  lemma RunsRepresent(vlans: seq<int>)
    ensures Represents(Runs(vlans, 0), vlans)
  {
    assert vlans[0..] == vlans;
    forall x: int ensures x in vlans <==> Named(Runs(vlans, 0), x) {
      RunsCover(vlans, 0, x);
    }
  }

  // ---- Length -------------------------------------------------------------

  /** VLAN IDs are 12 bits wide (section 9.6 of IEEE 802.1Q). */
  predicate TwelveBit(vlans: seq<int>)
  {
    forall i :: 0 <= i < |vlans| ==> 0 <= vlans[i] < 4096
  }

  lemma NumeralLength(n: nat)
    requires n < 10000
    ensures |Numeral(n)| <= 4
    ensures n >= 1000 ==> |Numeral(n)| == 4
  {
    var h, t := n / 10, n / 100;
    assert h / 10 == t;
    assert |Numeral(t / 10)| == 1;
    assert t >= 10 ==> |Numeral(t)| == 2;
    assert t < 10 ==> |Numeral(t)| == 1;
    assert h >= 10 ==> |Numeral(h)| == |Numeral(t)| + 1;
  }

  lemma {:induction false} JoinLength(parts: seq<string>, longest: nat)
    requires parts != []
    requires forall i :: 0 <= i < |parts| ==> |parts[i]| <= longest
    ensures |Join(parts)| <= |parts| * (longest + 1) - 1
    ensures (forall i :: 0 <= i < |parts| ==> |parts[i]| == longest) ==> |Join(parts)| == |parts| * (longest + 1) - 1
  {
    if |parts| > 1 {
      JoinLength(parts[1..], longest);
      calc {
        |parts| * (longest + 1);
        (longest + 1) + (|parts| - 1) * (longest + 1);
      }
    }
  }

  /** At most six stretches of 12-bit IDs always fit an attribute string. */
  lemma SixRunsFit(vlans: seq<int>)
    requires TwelveBit(vlans) && |Runs(vlans, 0)| <= 6
    ensures |Printed(vlans)| <= MAX_VALUE_LENGTH
  {
    var runs := Runs(vlans, 0);
    if runs != [] {
      RunBounds(vlans, 0);
      forall k | 0 <= k < |runs| ensures |Texts(runs)[k]| <= 9 {
        NumeralLength(runs[k].lo);
        NumeralLength(runs[k].hi);
      }
      JoinLength(Texts(runs), 9);
    }
  }

  /** Six is the most that always fit: seven or more real ranges of four-digit
      IDs never do. */
  lemma SevenRangesDoNotFit(vlans: seq<int>)
    requires TwelveBit(vlans) && |Runs(vlans, 0)| >= 7
    requires forall k :: 0 <= k < |Runs(vlans, 0)| ==> 1000 <= Runs(vlans, 0)[k].lo < Runs(vlans, 0)[k].hi
    ensures |Printed(vlans)| > MAX_VALUE_LENGTH
  {
    var runs := Runs(vlans, 0);
    RunBounds(vlans, 0);
    forall k | 0 <= k < |runs| ensures |Texts(runs)[k]| == 9 {
      NumeralLength(runs[k].lo);
      NumeralLength(runs[k].hi);
    }
    JoinLength(Texts(runs), 9);
  }
}
