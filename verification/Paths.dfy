/** Relative paths as sequences of components. `<=` on paths is the component-wise prefix test of
    the program's `starts_with`; the order is lexicographic, component by component. */
module Paths {

  /** A component of a path: the root, the parent directory, or a name. */
  datatype Name = Root | Up | Plain(text: string)

  type Path = seq<Name>

  predicate TextLess(a: string, b: string) {
    b != [] && (a == [] || a[0] < b[0] || (a[0] == b[0] && TextLess(a[1..], b[1..])))
  }

  predicate NameLess(a: Name, b: Name) {
    match (a, b)
    case (Plain(x), Plain(y)) => TextLess(x, y)
    case (Root, Up) => true
    case (_, Plain(_)) => true
    case _ => false
  }

  predicate Less(a: Path, b: Path) {
    b != [] && (a == [] || NameLess(a[0], b[0]) || (a[0] == b[0] && Less(a[1..], b[1..])))
  }

  predicate AtMost(a: Path, b: Path) {
    a == b || Less(a, b)
  }

  ghost predicate Ascending(paths: seq<Path>) {
    forall i, j :: 0 <= i < j < |paths| ==> Less(paths[i], paths[j])
  }

  /** The directory that holds a path. */
  function Parent(p: Path): Path
    requires p != []
  {
    p[..|p| - 1]
  }

  lemma {:induction false} TextIrreflexive(a: string)
    ensures !TextLess(a, a)
  {
    if a != [] {
      TextIrreflexive(a[1..]);
    }
  }

  lemma {:induction false} TextTransitive(a: string, b: string, c: string)
    requires TextLess(a, b) && TextLess(b, c)
    ensures TextLess(a, c)
  {
    if a != [] && a[0] == b[0] == c[0] {
      TextTransitive(a[1..], b[1..], c[1..]);
    }
  }

  lemma {:induction false} TextTotal(a: string, b: string)
    ensures a == b || TextLess(a, b) || TextLess(b, a)
  {
    if a != [] && b != [] && a[0] == b[0] {
      TextTotal(a[1..], b[1..]);
      assert a == [a[0]] + a[1..] && b == [b[0]] + b[1..];
    }
  }

  lemma NameIrreflexive(a: Name)
    ensures !NameLess(a, a)
  {
    if a.Plain? {
      TextIrreflexive(a.text);
    }
  }

  lemma NameTransitive(a: Name, b: Name, c: Name)
    requires NameLess(a, b) && NameLess(b, c)
    ensures NameLess(a, c)
  {
    if a.Plain? {
      TextTransitive(a.text, b.text, c.text);
    }
  }

  lemma NameTotal(a: Name, b: Name)
    ensures a == b || NameLess(a, b) || NameLess(b, a)
  {
    if a.Plain? && b.Plain? {
      TextTotal(a.text, b.text);
    }
  }

  lemma {:induction false} Irreflexive(a: Path)
    ensures !Less(a, a)
  {
    if a != [] {
      NameIrreflexive(a[0]);
      Irreflexive(a[1..]);
    }
  }

  lemma {:induction false} Transitive(a: Path, b: Path, c: Path)
    requires Less(a, b) && Less(b, c)
    ensures Less(a, c)
  {
    if a != [] {
      if NameLess(a[0], b[0]) && NameLess(b[0], c[0]) {
        NameTransitive(a[0], b[0], c[0]);
      } else if a[0] == b[0] == c[0] && !NameLess(a[0], c[0]) {
        NameIrreflexive(a[0]);
        Transitive(a[1..], b[1..], c[1..]);
      }
    }
  }

  lemma {:induction false} Total(a: Path, b: Path)
    ensures a == b || Less(a, b) || Less(b, a)
  {
    if a != [] && b != [] {
      NameTotal(a[0], b[0]);
      if a[0] == b[0] {
        Total(a[1..], b[1..]);
        assert a == [a[0]] + a[1..] && b == [b[0]] + b[1..];
      }
    }
  }

  lemma Asymmetric(a: Path, b: Path)
    requires Less(a, b)
    ensures a != b && !Less(b, a)
  {
    Irreflexive(a);
    if Less(b, a) {
      Transitive(a, b, a);
    }
  }

  /** An ancestor comes before everything below it. */
  lemma {:induction false} PrefixFirst(a: Path, b: Path)
    requires a <= b
    ensures AtMost(a, b)
  {
    if a != [] {
      assert a[1..] <= b[1..];
      PrefixFirst(a[1..], b[1..]);
      assert a == [a[0]] + a[1..] && b == [b[0]] + b[1..];
    }
  }

  /** The paths at or below `x` are contiguous in the order. */
  lemma {:induction false} SubtreeContiguous(x: Path, b: Path, c: Path)
    requires AtMost(x, b) && AtMost(b, c) && x <= c
    ensures x <= b
  {
    if x != [] && x != b && b != c {
      NameIrreflexive(x[0]);
      if NameLess(x[0], b[0]) {
        if NameLess(b[0], c[0]) {
          NameTransitive(x[0], b[0], c[0]);
        }
        assert false;
      }
      assert x[1..] <= c[1..];
      SubtreeContiguous(x[1..], b[1..], c[1..]);
      assert x == [x[0]] + x[1..] && b == [b[0]] + b[1..];
    }
  }

  /** Two prefixes of one path are prefixes of each other, the shorter of the longer. */
  lemma PrefixesChain(a: Path, b: Path, p: Path)
    requires a <= p && b <= p && |a| <= |b|
    ensures a <= b
  {
  }

  // ----- The order, without recursion -----

  /** Texts are compared at their first difference, characters by their numbers; a proper prefix comes first. */
  lemma {:induction false} TextsAtFirstDifference(a: string, b: string, k: nat)
    requires k <= |a| && k <= |b| && a[..k] == b[..k]
    requires k < |a| && k < |b| ==> a[k] != b[k]
    ensures TextLess(a, b) <==> k < |b| && (k == |a| || a[k] < b[k])
  {
    if k > 0 {
      assert a[1..][..k - 1] == a[..k][1..] && b[1..][..k - 1] == b[..k][1..];
      assert a[0] == a[..k][0] == b[..k][0];
      TextsAtFirstDifference(a[1..], b[1..], k - 1);
    }
  }

  /** Paths are compared at their first different component: the root before the parent directory before any
      name, and names by their texts; an ancestor comes first. */
  lemma {:induction false} PathsAtFirstDifference(a: Path, b: Path, k: nat)
    requires k <= |a| && k <= |b| && a[..k] == b[..k]
    requires k < |a| && k < |b| ==> a[k] != b[k]
    ensures Less(a, b) <==>
      k < |b| && (k == |a| ||
        match (a[k], b[k])
        case (Plain(x), Plain(y)) => TextLess(x, y)
        case (Plain(_), _) => false
        case (_, Plain(_)) => true
        case (x, _) => x == Root)
  {
    if k > 0 {
      assert a[1..][..k - 1] == a[..k][1..] && b[1..][..k - 1] == b[..k][1..];
      assert a[0] == a[..k][0] == b[..k][0];
      NameIrreflexive(a[0]);
      PathsAtFirstDifference(a[1..], b[1..], k - 1);
    }
  }
}
