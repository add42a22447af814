/**
 The order in which the agent sorts names: Go's byte-wise comparison of strings.

 Service names are sorted in two places, inside one level of the start order and
 over the containers found of a stack, and both times the outcome has to be the
 same whatever order a Go map was iterated in. The lemmas here are what makes a
 sorted list a function of the set of names in it.
 */
module Text {

  /** Strict lexicographic order. */
  predicate Below(a: string, b: string)
  {
    b != [] && (a == [] || a[0] < b[0] || (a[0] == b[0] && Below(a[1..], b[1..])))
  }

  lemma {:induction false} BelowTotal(a: string, b: string)
    ensures a == b || Below(a, b) || Below(b, a)
  {
    if a != [] && b != [] && a[0] == b[0] {
      BelowTotal(a[1..], b[1..]);
      assert a == [a[0]] + a[1..] && b == [b[0]] + b[1..];
    }
  }

  lemma {:induction false} BelowAsymmetric(a: string, b: string)
    requires Below(a, b)
    ensures a != b && !Below(b, a)
  {
    if a != [] && a[0] == b[0] {
      BelowAsymmetric(a[1..], b[1..]);
    }
  }

  lemma {:induction false} BelowTransitive(a: string, b: string, c: string)
    requires Below(a, b) && Below(b, c)
    ensures Below(a, c)
  {
    if a != [] && a[0] == b[0] == c[0] {
      BelowTransitive(a[1..], b[1..], c[1..]);
    }
  }

  ghost predicate Ascending(s: seq<string>)
  {
    forall i, j :: 0 <= i < j < |s| ==> Below(s[i], s[j])
  }

  /** The names in a list, as a set. */
  function Members<T>(s: seq<T>): set<T>
  {
    set x | x in s
  }

  ghost predicate Distinct<T>(s: seq<T>)
  {
    forall i, j :: 0 <= i < j < |s| ==> s[i] != s[j]
  }

  lemma AscendingDistinct(s: seq<string>)
    requires Ascending(s)
    ensures Distinct(s)
  {
    forall i, j | 0 <= i < j < |s|
      ensures s[i] != s[j]
    {
      BelowAsymmetric(s[i], s[j]);
    }
  }

  lemma DistinctConcat<T>(a: seq<T>, b: seq<T>)
    requires Distinct(a) && Distinct(b) && Members(a) !! Members(b)
    ensures Distinct(a + b) && Members(a + b) == Members(a) + Members(b)
  {
    forall i, j | 0 <= i < j < |a + b|
      ensures (a + b)[i] != (a + b)[j]
    {
      if i < |a| <= j {
        assert a[i] in Members(a) && b[j - |a|] in Members(b);
      }
    }
  }

  /** A list without repetition has as many entries as members. */
  lemma {:induction false} DistinctCount<T>(s: seq<T>)
    requires Distinct(s)
    ensures |Members(s)| == |s|
  {
    if s != [] {
      var rest := s[1..];
      DistinctCount(rest);
      assert Members(s) == {s[0]} + Members(rest);
    }
  }

  lemma EmptyMembers<T>(s: seq<T>)
    ensures s == [] <==> Members(s) == {}
  {
    if s != [] { assert s[0] in Members(s); }
  }

  /** A sorted list is determined by the names in it. */
  lemma {:induction false} AscendingUnique(a: seq<string>, b: seq<string>)
    requires Ascending(a) && Ascending(b) && Members(a) == Members(b)
    ensures a == b
  {
    if a == [] {
      EmptyMembers(b);
    } else {
      assert a[0] in Members(b);
      AscendingUniqueHead(a, b);
      assert a == [a[0]] + a[1..] && b == [b[0]] + b[1..];
      AscendingTail(a);
      AscendingTail(b);
      AscendingUnique(a[1..], b[1..]);
    }
  }

  lemma AscendingUniqueHead(a: seq<string>, b: seq<string>)
    requires Ascending(a) && Ascending(b) && Members(a) == Members(b) && a != []
    ensures b != [] && a[0] == b[0]
  {
    assert a[0] in Members(b);
    assert b[0] in Members(a);
    var i :| 0 <= i < |b| && b[i] == a[0];
    var j :| 0 <= j < |a| && a[j] == b[0];
    if i != 0 && j != 0 {
      BelowAsymmetric(b[0], b[i]);
    }
  }

  lemma AscendingTail(s: seq<string>)
    requires Ascending(s) && s != []
    ensures Ascending(s[1..]) && Members(s[1..]) == Members(s) - {s[0]}
  {
    AscendingDistinct(s);
  }

  /** `sort.Strings` on names that do not repeat. */
  method SortStrings(names: seq<string>) returns (sorted: seq<string>)
    requires Distinct(names)
    ensures Ascending(sorted) && Members(sorted) == Members(names)
  {
    sorted := [];
    for i := 0 to |names|
      invariant Ascending(sorted)
      invariant Members(sorted) == Members(names[..i])
    {
      assert names[..i + 1] == names[..i] + [names[i]];
      assert names[i] !in names[..i];
      assert names[i] !in Members(sorted);
      sorted := InsertName(sorted, names[i]);
    }
    assert names[..|names|] == names;
  }

  method InsertName(sorted: seq<string>, name: string) returns (r: seq<string>)
    requires Ascending(sorted) && name !in sorted
    ensures Ascending(r) && Members(r) == Members(sorted) + {name}
  {
    var k := 0;
    while k < |sorted| && Below(sorted[k], name)
      invariant k <= |sorted|
      invariant forall i :: 0 <= i < k ==> Below(sorted[i], name)
    {
      k := k + 1;
    }
    r := sorted[..k] + [name] + sorted[k..];
    forall j | k <= j < |sorted|
      ensures Below(name, sorted[j])
    {
      BelowTotal(name, sorted[k]);
      if j > k { BelowTransitive(name, sorted[k], sorted[j]); }
    }
  }
}
