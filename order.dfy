// Go's string ordering (byte-wise, which for UTF-8 text is code-point order)
// and `sort.Strings`, modelled as an insertion sort with its specification.

module Order {

  /** a <= b in Go's lexicographic order on strings. */
  predicate Below(a: string, b: string) {
    a == [] || (b != [] && (a[0] < b[0] || (a[0] == b[0] && Below(a[1..], b[1..]))))
  }

  lemma {:induction false} BelowTotal(a: string, b: string)
    ensures Below(a, b) || Below(b, a)
  {
    if a != [] && b != [] && a[0] == b[0] {
      BelowTotal(a[1..], b[1..]);
    }
  }

  lemma {:induction false} BelowReflexive(a: string)
    ensures Below(a, a)
  {
    if a != [] {
      BelowReflexive(a[1..]);
    }
  }

  lemma {:induction false} BelowAntisymmetric(a: string, b: string)
    requires Below(a, b) && Below(b, a)
    ensures a == b
  {
    if a != [] && b != [] {
      BelowAntisymmetric(a[1..], b[1..]);
      assert a == [a[0]] + a[1..];
      assert b == [b[0]] + b[1..];
    }
  }

  lemma {:induction false} BelowTransitive(a: string, b: string, c: string)
    requires Below(a, b) && Below(b, c)
    ensures Below(a, c)
  {
    if a != [] && b != [] && c != [] && a[0] == b[0] == c[0] {
      BelowTransitive(a[1..], b[1..], c[1..]);
    }
  }

  predicate Sorted(s: seq<string>) {
    forall i, j | 0 <= i < j < |s| :: Below(s[i], s[j])
  }

  /** Inserts `x` before the first element it is below. */
  function Insert(x: string, s: seq<string>): seq<string> {
    if s == [] || Below(x, s[0]) then [x] + s
    else [s[0]] + Insert(x, s[1..])
  }

  /** Inserting into a sorted sequence keeps it sorted and adds exactly `x`. */
  lemma {:induction false} InsertSpec(x: string, s: seq<string>)
    requires Sorted(s)
    ensures Sorted(Insert(x, s))
    ensures multiset(Insert(x, s)) == multiset(s) + multiset{x}
  {
    if s == [] {
    } else if Below(x, s[0]) {
      InsertFront(x, s);
    } else {
      BelowTotal(x, s[0]);
      var t := Insert(x, s[1..]);
      InsertSpec(x, s[1..]);
      HeadBelowRest(x, s, t);
      PrependBelow(s[0], t);
      assert Insert(x, s) == [s[0]] + t;
      assert s == [s[0]] + s[1..];
      assert multiset(s) == multiset{s[0]} + multiset(s[1..]);
    }
  }

  /** The head of a sorted sequence is below everything inserted into its tail. */
  lemma HeadBelowRest(x: string, s: seq<string>, t: seq<string>)
    requires Sorted(s) && s != [] && Below(s[0], x)
    requires multiset(t) == multiset(s[1..]) + multiset{x}
    ensures forall y | y in t :: Below(s[0], y)
  {
    forall y | y in t ensures Below(s[0], y) {
      assert y in multiset(t);
      if y != x {
        assert y in multiset(s[1..]);
        var k :| 0 <= k < |s[1..]| && s[1..][k] == y;
        assert s[k + 1] == y;
      }
    }
  }

  lemma PrependBelow(x: string, t: seq<string>)
    requires Sorted(t) && forall y | y in t :: Below(x, y)
    ensures Sorted([x] + t)
  {
    forall i, j | 0 <= i < j < |t| + 1 ensures Below(([x] + t)[i], ([x] + t)[j]) {
      if i == 0 {
        assert t[j - 1] in t;
      } else {
        assert ([x] + t)[i] == t[i - 1] && ([x] + t)[j] == t[j - 1];
      }
    }
  }

  lemma InsertFront(x: string, s: seq<string>)
    requires Sorted(s) && s != [] && Below(x, s[0])
    ensures Sorted([x] + s)
  {
    forall j | 0 < j < |s| ensures Below(x, s[j]) {
      BelowTransitive(x, s[0], s[j]);
    }
  }

  /** sort.Strings: the names in ascending order. */
  function SortStrings(s: seq<string>): (r: seq<string>)
    ensures Sorted(r)
    ensures multiset(r) == multiset(s)
  {
    if s == [] then []
    else
      assert s == [s[0]] + s[1..];
      InsertSpec(s[0], SortStrings(s[1..]));
      Insert(s[0], SortStrings(s[1..]))
  }

  /** A sorted sequence is its own sort: sort.Strings is idempotent. */
  lemma {:induction false} SortSorted(s: seq<string>)
    requires Sorted(s)
    ensures SortStrings(s) == s
  {
    if s != [] {
      SortSorted(s[1..]);
      assert SortStrings(s) == Insert(s[0], s[1..]);
    }
  }

  /** The sorted order of a collection does not depend on the order it was listed in. */
  lemma {:induction false} SortedUnique(a: seq<string>, b: seq<string>)
    requires Sorted(a) && Sorted(b) && multiset(a) == multiset(b)
    ensures a == b
  {
    if a != [] {
      SameHead(a, b);
      SortedUnique(a[1..], b[1..]);
      assert a == [a[0]] + a[1..];
      assert b == [b[0]] + b[1..];
    } else {
      assert |b| == |multiset(b)| == 0;
    }
  }

  /** Two sorted arrangements of one non-empty collection start alike. */
  lemma SameHead(a: seq<string>, b: seq<string>)
    requires Sorted(a) && Sorted(b) && multiset(a) == multiset(b) && a != []
    ensures b != [] && a[0] == b[0]
    ensures Sorted(a[1..]) && Sorted(b[1..]) && multiset(a[1..]) == multiset(b[1..])
  {
    assert a[0] in multiset(a);
    HeadBelow(b, a[0]);
    HeadBelow(a, b[0]);
    BelowAntisymmetric(a[0], b[0]);
    SortedTail(a);
    SortedTail(b);
  }

  lemma SortedTail(s: seq<string>)
    requires Sorted(s) && s != []
    ensures Sorted(s[1..]) && multiset(s[1..]) == multiset(s) - multiset{s[0]}
  {
    assert s == [s[0]] + s[1..];
  }

  lemma HeadBelow(s: seq<string>, x: string)
    requires Sorted(s) && x in multiset(s)
    ensures s != [] && Below(s[0], x)
  {
    var i :| 0 <= i < |s| && s[i] == x;
    if i == 0 {
      BelowReflexive(x);
    }
  }
}
