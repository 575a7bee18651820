/** The common-symbol computation of the reel manager: which symbol identifiers
    occur in the active symbols of every reel.

    The source builds JavaScript `Set`s, which keep insertion order, and filters
    them with `Array.prototype.filter`, which keeps order too; so the result is a
    sequence whose order is determined.  `Distinct` and `Retain` model those two
    library operations, `CommonElements` is the declarative specification the
    looping `ReelManager.FindCommonElements` is proved against. */
module Intersection {

  /** True when `x` occurs in every one of `arrays` (vacuously when there are none). */
  ghost predicate InAll(x: int, arrays: seq<seq<int>>) {
    forall i :: 0 <= i < |arrays| ==> x in arrays[i]
  }

  ghost predicate NoDuplicates(s: seq<int>) {
    forall i, j :: 0 <= i < j < |s| ==> s[i] != s[j]
  }

  /** Position of the first occurrence of `x` in `s`. */
  ghost function IndexOf(s: seq<int>, x: int): (k: nat)
    requires x in s
    ensures k < |s| && s[k] == x
    ensures x !in s[..k]
  {
    if s[0] == x then 0
    else
      var k' := IndexOf(s[1..], x);
      assert s[..k' + 1] == [s[0]] + s[1..][..k'];
      k' + 1
  }

  /** Every element of `r` occurs in `s`, and `r` lists them in the order of their
      first occurrences in `s` (which also rules out duplicates in `r`). */
  ghost predicate InFirstOccurrenceOrder(r: seq<int>, s: seq<int>) {
    && (forall i :: 0 <= i < |r| ==> r[i] in s)
    && (forall i, j :: 0 <= i < j < |r| ==> IndexOf(s, r[i]) < IndexOf(s, r[j]))
  }

  /** The values of `s` with repeats dropped, in insertion order: the contents of
      `new Set(s)` spread back into an array. */
  function Distinct(s: seq<int>): (r: seq<int>)
    ensures forall x :: x in r <==> x in s
    ensures NoDuplicates(r)
    decreases |s|
  {
    if s == [] then []
    else
      var d := Distinct(s[..|s| - 1]);
      var y := s[|s| - 1];
      assert s == s[..|s| - 1] + [y];
      if y in d then d else d + [y]
  }

  /** The elements of `s` that `keep` contains, in the order of `s`: the array
      `s.filter(item => keep.has(item))`. */
  function Retain(s: seq<int>, keep: set<int>): (r: seq<int>)
    ensures forall x :: x in r <==> x in s && x in keep
    ensures NoDuplicates(s) ==> NoDuplicates(r)
  {
    if s == [] then []
    else
      var rest := Retain(s[1..], keep);
      assert s == [s[0]] + s[1..];
      if s[0] in keep then [s[0]] + rest else rest
  }

  /** The values present in every one of `arrays`. */
  ghost function Shared(arrays: seq<seq<int>>): (c: set<int>)
    requires |arrays| > 0
    ensures forall x :: x in c <==> InAll(x, arrays)
  {
    set x | x in arrays[0] && InAll(x, arrays)
  }

  /** Specification of the common elements of `arrays`: the distinct values of the
      first array, in first-occurrence order, that occur in every array; none when
      there are no arrays. */
  ghost function CommonElements(arrays: seq<seq<int>>): (c: seq<int>) {
    if |arrays| == 0 then [] else Retain(Distinct(arrays[0]), Shared(arrays))
  }

  // ---------------------------------------------------------------------------
  // Insertion order of Distinct

  lemma {:induction false} IndexOfExtend(s: seq<int>, y: int, x: int)
    requires x in s
    ensures IndexOf(s + [y], x) == IndexOf(s, x)
  {
    var t := s + [y];
    var k0, k1 := IndexOf(s, x), IndexOf(t, x);
    assert t[k0] == x;
    assert forall m :: 0 <= m < k0 ==> s[..k0][m] == s[m];
    assert forall m :: 0 <= m < k1 ==> t[..k1][m] == t[m];
  }

  /** `Distinct(s)` lists the values of `s` in the order in which they first occur. */
  lemma {:induction false} DistinctFirstOccurrenceOrder(s: seq<int>)
    ensures InFirstOccurrenceOrder(Distinct(s), s)
  {
    if s != [] {
      var p, y := s[..|s| - 1], s[|s| - 1];
      assert s == p + [y];
      var d := Distinct(p);
      DistinctFirstOccurrenceOrder(p);
      forall x | x in p ensures IndexOf(s, x) == IndexOf(p, x) {
        IndexOfExtend(p, y, x);
      }
      if y !in d {
        assert y !in p;
        assert IndexOf(s, y) == |p| by {
          assert s[|p|] == y;
          assert s[..|p|] == p;
        }
        var r := d + [y];
        assert Distinct(s) == r;
        forall i, j | 0 <= i < j < |r| ensures IndexOf(s, r[i]) < IndexOf(s, r[j]) {
          assert r[i] in p;
          if j == |d| {
            assert IndexOf(p, r[i]) < |p|;
          } else {
            assert r[j] in p;
          }
        }
      }
    }
  }

  /** Building a set from values that are already distinct changes nothing. */
  lemma {:induction false} DistinctOfNoDuplicates(s: seq<int>)
    requires NoDuplicates(s)
    ensures Distinct(s) == s
  {
    if s != [] {
      var p, y := s[..|s| - 1], s[|s| - 1];
      assert s == p + [y];
      DistinctOfNoDuplicates(p);
      forall k | 0 <= k < |p| ensures p[k] != y {
        assert p[k] == s[k];
      }
    }
  }

  // ---------------------------------------------------------------------------
  // Filtering

  lemma {:induction false} RetainTwice(s: seq<int>, a: set<int>, b: set<int>)
    ensures Retain(Retain(s, a), b) == Retain(s, a * b)
  {
    if s != [] {
      RetainTwice(s[1..], a, b);
    }
  }

  lemma {:induction false} RetainNothing(s: seq<int>)
    ensures Retain(s, {}) == []
  {
    if s != [] {
      RetainNothing(s[1..]);
    }
  }

  lemma {:induction false} RetainEverything(s: seq<int>, a: set<int>)
    requires forall i :: 0 <= i < |s| ==> s[i] in a
    ensures Retain(s, a) == s
  {
    if s != [] {
      RetainEverything(s[1..], a);
    }
  }

  /** Filtering keeps the order of its input. */
  lemma {:induction false} RetainKeepsOrder(s: seq<int>, a: set<int>, base: seq<int>)
    requires InFirstOccurrenceOrder(s, base)
    ensures InFirstOccurrenceOrder(Retain(s, a), base)
  {
    if s != [] {
      var rest := s[1..];
      assert InFirstOccurrenceOrder(rest, base) by {
        forall i, j | 0 <= i < j < |rest|
          ensures IndexOf(base, rest[i]) < IndexOf(base, rest[j])
        {
          assert rest[i] == s[i + 1] && rest[j] == s[j + 1];
        }
      }
      RetainKeepsOrder(rest, a, base);
      if s[0] in a {
        var r := [s[0]] + Retain(rest, a);
        forall i, j | 0 <= i < j < |r| ensures IndexOf(base, r[i]) < IndexOf(base, r[j]) {
          if i == 0 {
            assert r[j] == Retain(rest, a)[j - 1];
            assert r[j] in rest;
            var k :| 0 <= k < |rest| && rest[k] == r[j];
            assert s[k + 1] == r[j];
          }
        }
      }
    }
  }

  /** One more array narrows the shared values to those also in that array. */
  lemma SharedExtend(arrays: seq<seq<int>>, t: seq<int>)
    requires |arrays| > 0
    ensures Shared(arrays + [t]) == Shared(arrays) * (set x | x in t)
  {
    var a := arrays + [t];
    forall x ensures InAll(x, a) <==> InAll(x, arrays) && x in t {
      if InAll(x, arrays) && x in t {
        forall i | 0 <= i < |a| ensures x in a[i] {
          if i < |arrays| { assert a[i] == arrays[i]; }
        }
      }
      if InAll(x, a) {
        assert a[|arrays|] == t;
        forall i | 0 <= i < |arrays| ensures x in arrays[i] {
          assert a[i] == arrays[i];
        }
      }
    }
  }

  // ---------------------------------------------------------------------------
  // Properties of the specification

  /** A value is common exactly when it occurs in every array (and there is at least one). */
  lemma CommonElementsMembers(arrays: seq<seq<int>>)
    ensures forall x :: x in CommonElements(arrays) <==> |arrays| > 0 && InAll(x, arrays)
  {
  }

  /** No input arrays: no common elements. */
  lemma CommonOfNoArrays()
    ensures CommonElements([]) == []
  {
  }

  /** One empty array among the inputs forces an empty result. */
  lemma CommonWithAnEmptyArray(arrays: seq<seq<int>>, k: nat)
    requires k < |arrays| && arrays[k] == []
    ensures CommonElements(arrays) == []
  {
    assert forall x :: InAll(x, arrays) ==> x in arrays[k];
    assert Shared(arrays) == {};
    RetainNothing(Distinct(arrays[0]));
  }

  /** The result has no repeats and follows the first-occurrence order of the first array. */
  lemma CommonElementsOrder(arrays: seq<seq<int>>)
    requires |arrays| > 0
    ensures NoDuplicates(CommonElements(arrays))
    ensures InFirstOccurrenceOrder(CommonElements(arrays), arrays[0])
  {
    DistinctFirstOccurrenceOrder(arrays[0]);
    RetainKeepsOrder(Distinct(arrays[0]), Shared(arrays), arrays[0]);
  }

  /** Reordering the arrays (for instance, feeding the reels in another order)
      does not change which values are common. */
  lemma CommonElementsOrderIndependent(a: seq<seq<int>>, b: seq<seq<int>>)
    requires multiset(a) == multiset(b)
    ensures forall x :: x in CommonElements(a) <==> x in CommonElements(b)
  {
    CommonElementsMembers(a);
    CommonElementsMembers(b);
    assert |a| == |multiset(a)| == |multiset(b)| == |b|;
    forall x ensures InAll(x, a) ==> InAll(x, b) {
      if InAll(x, a) { SameArraysSameInAll(x, a, b); }
    }
    forall x ensures InAll(x, b) ==> InAll(x, a) {
      if InAll(x, b) { SameArraysSameInAll(x, b, a); }
    }
  }

  lemma SameArraysSameInAll(x: int, a: seq<seq<int>>, b: seq<seq<int>>)
    requires multiset(a) == multiset(b)
    requires InAll(x, a)
    ensures InAll(x, b)
  {
    forall i | 0 <= i < |b| ensures x in b[i] {
      assert b[i] in multiset(b);
      assert b[i] in a;
    }
  }

  // ---------------------------------------------------------------------------
  // The loop of the source, step by step

  /** Before the loop: the set built from the first array is the running value for
      the one-array prefix. */
  lemma {:induction false} RunningStart(arrays: seq<seq<int>>)
    requires |arrays| > 0
    ensures Distinct(arrays[0]) == Retain(Distinct(arrays[0]), Shared(arrays[..1]))
  {
    RetainEverything(Distinct(arrays[0]), Shared(arrays[..1]));
  }

  /** One iteration: re-building a set from the filtered running value gives the
      running value for the prefix one array longer. */
  lemma {:induction false} RunningStep(arrays: seq<seq<int>>, i: nat)
    requires 1 <= i < |arrays|
    ensures Distinct(Retain(Retain(Distinct(arrays[0]), Shared(arrays[..i])), set x | x in arrays[i]))
         == Retain(Distinct(arrays[0]), Shared(arrays[..i + 1]))
  {
    var d := Distinct(arrays[0]);
    var current := set x | x in arrays[i];
    assert arrays[..i + 1] == arrays[..i] + [arrays[i]];
    SharedExtend(arrays[..i], arrays[i]);
    RetainTwice(d, Shared(arrays[..i]), current);
    DistinctOfNoDuplicates(Retain(d, Shared(arrays[..i]) * current));
  }

  /** The running value only shrinks: whatever survives a longer prefix survived
      every shorter one. */
  lemma RunningShrinks(arrays: seq<seq<int>>, i: nat, j: nat)
    requires 1 <= i <= j <= |arrays|
    ensures forall x :: x in Retain(Distinct(arrays[0]), Shared(arrays[..j]))
                    ==> x in Retain(Distinct(arrays[0]), Shared(arrays[..i]))
  {
    forall x | InAll(x, arrays[..j]) ensures InAll(x, arrays[..i]) {
      forall k | 0 <= k < i ensures x in arrays[..i][k] {
        assert arrays[..j][k] == arrays[..i][k];
      }
    }
  }

  /** Once the running value is empty it stays empty, so returning early gives
      the same answer as finishing the loop. */
  lemma RunningEmptyStaysEmpty(arrays: seq<seq<int>>, i: nat)
    requires 1 <= i <= |arrays|
    requires Retain(Distinct(arrays[0]), Shared(arrays[..i])) == []
    ensures CommonElements(arrays) == []
  {
    var d := Distinct(arrays[0]);
    RunningShrinks(arrays, i, |arrays|);
    assert arrays[..|arrays|] == arrays;
    assert Shared(arrays[..i]) * Shared(arrays) == Shared(arrays);
    RetainTwice(d, Shared(arrays[..i]), Shared(arrays));
  }
}
