/** How the interfaces of a claim are named: as their configs say, or by a prefix
    and a running number where the config names none. */
module InterfaceNames {
  import VlanRanges

  /** How many of the configured names are empty. */
  function Unnamed(configured: seq<string>): nat
  {
    if configured == [] then 0
    else Unnamed(configured[..|configured| - 1]) + if configured[|configured| - 1] == "" then 1 else 0
  }

  function Generated(prefix: string, number: nat): string { prefix + VlanRanges.Itoa(number) }

  /** The name of device `i` when the numbers start at `from`. */
  function NameAt(configured: seq<string>, prefix: string, from: nat, i: nat): string
    requires i < |configured|
  {
    if configured[i] == "" then Generated(prefix, from + Unnamed(configured[..i])) else configured[i]
  }

  /** Three devices, numbered from 3, the second named by its config. */
  lemma NamesExample()
    ensures var names := ["", "lan", ""];
      NameAt(names, "net", 3, 0) == "net3" && NameAt(names, "net", 3, 1) == "lan" &&
        NameAt(names, "net", 3, 2) == "net4"
  {
    var names := ["", "lan", ""];
    VlanRanges.Digits(3);
    VlanRanges.Digits(4);
    assert names[..0] == [] && names[..1][..0] == [] && names[..2][..1] == names[..1];
    assert Unnamed(names[..1]) == 1 && Unnamed(names[..2]) == 1;
    assert "net" + "3" == "net3" && "net" + "4" == "net4";
  }

  lemma GeneratedInjective(prefix: string, m: nat, n: nat)
    ensures Generated(prefix, m) == Generated(prefix, n) <==> m == n
    ensures Generated(prefix, m) != ""
  {
    if m != n { VlanRanges.ItoaInjective(m, n); }
    assert Generated(prefix, m)[|prefix|..] == VlanRanges.Itoa(m) &&
      Generated(prefix, n)[|prefix|..] == VlanRanges.Itoa(n);
  }

  lemma {:induction false} UnnamedGrows(configured: seq<string>, i: nat, j: nat)
    requires i < j <= |configured| && configured[i] == ""
    ensures Unnamed(configured[..i]) < Unnamed(configured[..j])
    decreases j
  {
    assert configured[..j][..j - 1] == configured[..j - 1];
    if i < j - 1 { UnnamedGrows(configured, i, j - 1); }
  }

  /** Every number below the count belongs to some device. */
  lemma {:induction false} NumberIsUsed(configured: seq<string>, k: nat) returns (i: nat)
    requires k < Unnamed(configured)
    ensures i < |configured| && configured[i] == "" && Unnamed(configured[..i]) == k
  {
    var last := |configured| - 1;
    if k < Unnamed(configured[..last]) {
      i := NumberIsUsed(configured[..last], k);
      assert configured[..last][..i] == configured[..i];
    } else {
      i := last;
    }
  }

  // ---- When two claims clash ----------------------------------------------------------

  /** Two devices, one of each claim, have the same name. */
  ghost predicate Clash(a: seq<string>, from: nat, b: seq<string>, from': nat, prefix: string)
  {
    exists i: nat, j: nat :: i < |a| && j < |b| && NameAt(a, prefix, from, i) == NameAt(b, prefix, from', j)
  }

  /** Two numbered interfaces, one of each claim, have the same name. */
  ghost predicate NumberedClash(a: seq<string>, from: nat, b: seq<string>, from': nat, prefix: string)
  {
    exists i: nat, j: nat ::
      i < |a| && j < |b| && a[i] == "" && b[j] == "" && NameAt(a, prefix, from, i) == NameAt(b, prefix, from', j)
  }

  /** A numbered interface of `a` has the name that a config of `b` gives. */
  ghost predicate MixedClash(a: seq<string>, from: nat, b: seq<string>, prefix: string)
  {
    exists i: nat, j: nat :: i < |a| && j < |b| && a[i] == "" && b[j] != "" && NameAt(a, prefix, from, i) == b[j]
  }

  /** Both have a number in common. */
  predicate NumbersMeet(a: seq<string>, from: nat, b: seq<string>, from': nat)
  {
    Unnamed(a) > 0 && Unnamed(b) > 0 && from < from' + Unnamed(b) && from' < from + Unnamed(a)
  }

  /** A config names one of the numbered interfaces of `a`. */
  ghost predicate NumberTaken(a: seq<string>, from: nat, b: seq<string>, prefix: string)
  {
    exists m: nat :: from <= m < from + Unnamed(a) && Generated(prefix, m) in b
  }

  predicate NameShared(a: seq<string>, b: seq<string>)
  {
    exists name :: name in a && name in b && name != ""
  }

  /** A config of one names a numbered interface of the other, or both configs give
      the same name. */
  ghost predicate ConfigsClash(a: seq<string>, from: nat, b: seq<string>, from': nat, prefix: string)
  {
    NumberTaken(a, from, b, prefix) || NumberTaken(b, from', a, prefix) || NameShared(a, b)
  }

  lemma NumberOf(configured: seq<string>, i: nat)
    requires i < |configured| && configured[i] == ""
    ensures Unnamed(configured[..i]) < Unnamed(configured)
  {
    UnnamedGrows(configured, i, |configured|);
    assert configured[..|configured|] == configured;
  }

  lemma SameNumber(a: seq<string>, from: nat, b: seq<string>, from': nat, prefix: string, i: nat, j: nat)
    requires i < |a| && j < |b| && a[i] == "" && b[j] == ""
    ensures NameAt(a, prefix, from, i) == NameAt(b, prefix, from', j) <==>
      from + Unnamed(a[..i]) == from' + Unnamed(b[..j])
  {
    GeneratedInjective(prefix, from + Unnamed(a[..i]), from' + Unnamed(b[..j]));
  }

  lemma ClashingNumbersMeet(a: seq<string>, from: nat, b: seq<string>, from': nat, prefix: string)
    requires NumberedClash(a, from, b, from', prefix)
    ensures NumbersMeet(a, from, b, from')
  {
    var i: nat, j: nat :|
      i < |a| && j < |b| && a[i] == "" && b[j] == "" && NameAt(a, prefix, from, i) == NameAt(b, prefix, from', j);
    SameNumber(a, from, b, from', prefix, i, j);
    NumberOf(a, i);
    NumberOf(b, j);
  }

  lemma MeetingNumbersClash(a: seq<string>, from: nat, b: seq<string>, from': nat, prefix: string)
    requires NumbersMeet(a, from, b, from')
    ensures NumberedClash(a, from, b, from', prefix)
  {
    var m := if from < from' then from' else from;
    var i := NumberIsUsed(a, m - from);
    var j := NumberIsUsed(b, m - from');
    SameNumber(a, from, b, from', prefix, i, j);
  }

  /** The numbered interfaces of two claims clash exactly when the claims have a
      number in common; both starting at the same number, exactly when each has a
      device whose config names no interface. */
  lemma NumberedClashExactly(a: seq<string>, from: nat, b: seq<string>, from': nat, prefix: string)
    ensures NumberedClash(a, from, b, from', prefix) <==> NumbersMeet(a, from, b, from')
    ensures from == from' ==> (NumbersMeet(a, from, b, from') <==> "" in a && "" in b)
  {
    UnnamedExactly(a);
    UnnamedExactly(b);
    if NumberedClash(a, from, b, from', prefix) { ClashingNumbersMeet(a, from, b, from', prefix); }
    if NumbersMeet(a, from, b, from') { MeetingNumbersClash(a, from, b, from', prefix); }
  }

  lemma {:induction false} UnnamedExactly(configured: seq<string>)
    ensures Unnamed(configured) > 0 <==> "" in configured
  {
    if configured != [] {
      UnnamedExactly(configured[..|configured| - 1]);
      assert configured == configured[..|configured| - 1] + [configured[|configured| - 1]];
    }
  }

  lemma TakenClashes(a: seq<string>, from: nat, b: seq<string>, prefix: string)
    ensures MixedClash(a, from, b, prefix) <==> NumberTaken(a, from, b, prefix)
  {
    if i: nat, j: nat :| i < |a| && j < |b| && a[i] == "" && b[j] != "" && NameAt(a, prefix, from, i) == b[j] {
      NumberOf(a, i);
      assert Generated(prefix, from + Unnamed(a[..i])) in b;
    }
    if m: nat :| from <= m < from + Unnamed(a) && Generated(prefix, m) in b {
      var i := NumberIsUsed(a, m - from);
      GeneratedInjective(prefix, m, m);
      var j: nat :| j < |b| && b[j] == Generated(prefix, m);
      assert NameAt(a, prefix, from, i) == b[j] && b[j] != "";
    }
  }

  lemma ClashCases(a: seq<string>, from: nat, b: seq<string>, from': nat, prefix: string)
    ensures Clash(a, from, b, from', prefix) ==>
      NumberedClash(a, from, b, from', prefix) || MixedClash(a, from, b, prefix) || MixedClash(b, from', a, prefix) ||
        NameShared(a, b)
  {
    if i: nat, j: nat :| i < |a| && j < |b| && NameAt(a, prefix, from, i) == NameAt(b, prefix, from', j) {
      if a[i] != "" && b[j] != "" {
        assert a[i] in a && a[i] in b;
      } else if a[i] != "" {
        assert NameAt(b, prefix, from', j) == a[i];
      }
    }
  }

  lemma CasesClash(a: seq<string>, from: nat, b: seq<string>, from': nat, prefix: string)
    requires NumberedClash(a, from, b, from', prefix) || MixedClash(a, from, b, prefix) ||
      MixedClash(b, from', a, prefix) || NameShared(a, b)
    ensures Clash(a, from, b, from', prefix)
  {
    if MixedClash(a, from, b, prefix) {
      var i: nat, j: nat :| i < |a| && j < |b| && a[i] == "" && b[j] != "" && NameAt(a, prefix, from, i) == b[j];
      assert NameAt(b, prefix, from', j) == b[j];
    } else if MixedClash(b, from', a, prefix) {
      var j: nat, i: nat :| j < |b| && i < |a| && b[j] == "" && a[i] != "" && NameAt(b, prefix, from', j) == a[i];
      assert NameAt(a, prefix, from, i) == a[i];
    } else if NameShared(a, b) {
      var name :| name in a && name in b && name != "";
      var i: nat :| i < |a| && a[i] == name;
      var j: nat :| j < |b| && b[j] == name;
      assert NameAt(a, prefix, from, i) == NameAt(b, prefix, from', j);
    }
  }

  /** Exactly when two claims clash, in terms of what their configs say: when their
      numbers meet, when a config of one names a numbered interface of the other, or
      when two configs give the same name. */
  lemma ClashExactly(a: seq<string>, from: nat, b: seq<string>, from': nat, prefix: string)
    ensures Clash(a, from, b, from', prefix) <==>
      NumbersMeet(a, from, b, from') || ConfigsClash(a, from, b, from', prefix)
  {
    NumberedClashExactly(a, from, b, from', prefix);
    TakenClashes(a, from, b, prefix);
    TakenClashes(b, from', a, prefix);
    ClashCases(a, from, b, from', prefix);
    if NumbersMeet(a, from, b, from') || NumberTaken(a, from, b, prefix) || NumberTaken(b, from', a, prefix) ||
      NameShared(a, b) {
      CasesClash(a, from, b, from', prefix);
    }
  }

  /** Numbers that run on do not meet. */
  lemma RunningNumbersMiss(a: seq<string>, from: nat, b: seq<string>, from': nat)
    requires from + Unnamed(a) <= from'
    ensures !NumbersMeet(a, from, b, from')
  {
  }

  // ---- When one claim clashes with itself ------------------------------------------------

  ghost predicate SelfClash(a: seq<string>, from: nat, prefix: string)
  {
    exists i: nat, j: nat :: i < j < |a| && NameAt(a, prefix, from, i) == NameAt(a, prefix, from, j)
  }

  predicate NameRepeated(a: seq<string>)
  {
    exists i: nat, j: nat :: i < j < |a| && a[i] == a[j] != ""
  }

  lemma SelfClashCases(a: seq<string>, from: nat, prefix: string)
    requires SelfClash(a, from, prefix)
    ensures MixedClash(a, from, a, prefix) || NameRepeated(a)
  {
    var i: nat, j: nat :| i < j < |a| && NameAt(a, prefix, from, i) == NameAt(a, prefix, from, j);
    if a[i] == "" && a[j] == "" {
      UnnamedGrows(a, i, j);
      SameNumber(a, from, a, from, prefix, i, j);
    } else if a[i] == "" {
      assert NameAt(a, prefix, from, i) == a[j];
    } else if a[j] == "" {
      assert NameAt(a, prefix, from, j) == a[i];
    }
  }

  lemma CasesSelfClash(a: seq<string>, from: nat, prefix: string)
    requires MixedClash(a, from, a, prefix) || NameRepeated(a)
    ensures SelfClash(a, from, prefix)
  {
    if MixedClash(a, from, a, prefix) {
      var i: nat, j: nat :| i < |a| && j < |a| && a[i] == "" && a[j] != "" && NameAt(a, prefix, from, i) == a[j];
      var first, second := if i < j then i else j, if i < j then j else i;
      assert NameAt(a, prefix, from, first) == NameAt(a, prefix, from, second);
    } else {
      var i: nat, j: nat :| i < j < |a| && a[i] == a[j] != "";
      assert NameAt(a, prefix, from, i) == NameAt(a, prefix, from, j);
    }
  }

  /** Within one claim the numbered interfaces differ; it clashes with itself
      exactly when a config names one of them, or one name is configured twice. */
  lemma SelfClashExactly(a: seq<string>, from: nat, prefix: string)
    ensures SelfClash(a, from, prefix) <==> NumberTaken(a, from, a, prefix) || NameRepeated(a)
  {
    TakenClashes(a, from, a, prefix);
    if SelfClash(a, from, prefix) { SelfClashCases(a, from, prefix); }
    if NumberTaken(a, from, a, prefix) || NameRepeated(a) { CasesSelfClash(a, from, prefix); }
  }

  /** Inputs that clash inside one claim: a config that gives the name the driver
      gives to another device. */
  lemma ConfiguredMeetsNumbered(prefix: string)
    ensures SelfClash(["", Generated(prefix, 0)], 0, prefix)
  {
    var a := ["", Generated(prefix, 0)];
    GeneratedInjective(prefix, 0, 0);
    assert a[..0] == [] && NameAt(a, prefix, 0, 0) == NameAt(a, prefix, 0, 1);
  }

  /** And one request with a configured name that is allocated two devices. */
  lemma OneNameTwoDevices(name: string, prefix: string)
    requires name != ""
    ensures SelfClash([name, name], 0, prefix)
  {
    assert NameAt([name, name], prefix, 0, 0) == NameAt([name, name], prefix, 0, 1);
  }
}
