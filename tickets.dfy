/** The decrypted ticket payload and the store path derived from it. */
module Tickets {
  import opened Wrappers

  /** The object that `JSON.parse` yields for a decrypted code. `name` is what
      the template literal prints for `data.name`; `key` is `None` when
      `data.key` has no `slice` method (missing, or not a string), in which
      case computing the path throws. */
  datatype Ticket = Ticket(name: string, key: Option<string>, number: string, email: string)

  /** The text between the holder name and the key suffix in a store path. */
  const Separator: string := "'s ticket ID "

  /** ECMAScript `s.slice(start)` with one integer argument: a negative start
      counts back from the end and is clamped at 0; a start past the end
      gives the empty string. The result is always a suffix of `s`. */
  function Slice(s: string, start: int): (r: string)
    ensures |r| <= |s| && r == s[|s| - |r|..]
    ensures start < 0 ==> |r| == (if -start <= |s| then -start else |s|)
    ensures 0 <= start ==> |r| == (if start <= |s| then |s| - start else 0)
  {
    var from :=
      if start < 0 then (if |s| + start < 0 then 0 else |s| + start)
      else (if start < |s| then start else |s|);
    s[from..]
  }

  /** `key.slice(-6)`: the last six characters, or the whole key when it is
      shorter. */
  function Last6(key: string): (r: string)
    ensures |key| >= 6 ==> r == key[|key| - 6..]
    ensures |key| < 6 ==> r == key
  {
    Slice(key, -6)
  }

  /** The store path segment that identifies a ticket in either partition. */
  function DerivedPath(name: string, key: string): (r: string)
    ensures |r| == |name| + |Separator| + (if |key| < 6 then |key| else 6)
    ensures r[..|name| + |Separator|] == name + Separator
    ensures |key| >= 6 ==> r[|r| - 6..] == key[|key| - 6..]
    ensures |key| < 6 ==> r[|r| - |key|..] == key
  {
    name + Separator + Last6(key)
  }

  /** No character after the first one of the separator is an apostrophe. */
  lemma SeparatorApostropheOnlyFirst(d: int)
    requires 0 < d < |Separator|
    ensures Separator[d] != '\''
  {
  }

  /** Two tickets share a store path exactly when they have the same holder
      name and the same key suffix: the path is a faithful identity for the
      pair (name, last six characters of the key). */
  lemma {:induction false} DerivedPathInjective(n1: string, k1: string, n2: string, k2: string)
    ensures DerivedPath(n1, k1) == DerivedPath(n2, k2) <==> n1 == n2 && Last6(k1) == Last6(k2)
  {
    var p1, p2 := DerivedPath(n1, k1), DerivedPath(n2, k2);
    var l1, l2 := Last6(k1), Last6(k2);
    if p1 == p2 {
      if |n1| < |n2| {
        ApostropheShift(n1, l1, n2, l2);
      } else if |n2| < |n1| {
        ApostropheShift(n2, l2, n1, l1);
      } else {
        assert n1 == p1[..|n1|] == p2[..|n2|] == n2;
        assert l1 == p1[|n1| + |Separator|..] == p2[|n2| + |Separator|..] == l2;
      }
    }
  }

  /** Paths whose names differ in length by at most six never coincide: the
      apostrophe that opens the separator of the longer name would have to
      match a later separator character of the shorter one. */
  lemma ApostropheShift(na: string, la: string, nb: string, lb: string)
    requires |na| < |nb| && |la| <= 6 && |lb| <= 6
    ensures na + Separator + la != nb + Separator + lb
  {
    var pa, pb := na + Separator + la, nb + Separator + lb;
    if pa == pb {
      var d := |nb| - |na|;
      assert 0 < d <= 6;
      assert pb[|nb|] == '\'';
      assert pa[|na| + d] == Separator[d];
      SeparatorApostropheOnlyFirst(d);
      assert false;
    }
  }
}
