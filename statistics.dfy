/** The statistics lesson (`StatisticsLesson`): mean, median and mode of an integer data set. */
module Statistics {
  import opened Wrappers

  /** The lesson's data set. */
  const SampleData: seq<int> := [2, 4, 4, 4, 5, 5, 7, 9]

  /** The sum of the data (exact integers, so the order of the additions is immaterial). */
  function Sum(s: seq<int>): int
  {
    if s == [] then 0 else s[0] + Sum(s[1..])
  }

  /** Sum over data bounded by `lo` and `hi` lies between `lo * |s|` and `hi * |s|`. */
  lemma {:induction false} SumBounds(s: seq<int>, lo: int, hi: int)
    requires forall i :: 0 <= i < |s| ==> lo <= s[i] <= hi
    ensures lo * |s| <= Sum(s) <= hi * |s|
  {
    if s != [] {
      var tail := s[1..];
      assert forall i :: 0 <= i < |tail| ==> lo <= tail[i] <= hi by {
        forall i | 0 <= i < |tail| ensures lo <= tail[i] <= hi {
          assert tail[i] == s[i + 1];
        }
      }
      SumBounds(tail, lo, hi);
      var n := |tail|;
      assert Sum(s) == s[0] + Sum(tail) && lo <= s[0] <= hi && |s| == n + 1;
      assert lo * (n + 1) == lo * n + lo;
      assert hi * (n + 1) == hi * n + hi;
    }
  }

  /** The mean; the empty data set gives JavaScript's NaN, here `None`. */
  function Mean(data: seq<int>): (m: Option<real>)
    ensures m.Some? <==> |data| > 0
    ensures m.Some? ==> m.value * |data| as real == Sum(data) as real
  {
    if |data| == 0 then None else Some(Sum(data) as real / |data| as real)
  }

  /** Dividing bounds `lo * n <= total <= hi * n` by a positive `n`. */
  lemma QuotientBounds(total: real, n: real, lo: real, hi: real)
    requires n > 0.0
    requires lo * n <= total <= hi * n
    ensures lo <= total / n <= hi
  {
    var q := total / n;
    assert q * n == total;
  }

  lemma CastProduct(a: int, b: int)
    ensures (a * b) as real == a as real * b as real
  {
  }

  /** The mean lies within any bounds of the data. */
  lemma MeanWithinBounds(data: seq<int>, lo: int, hi: int)
    requires |data| > 0
    requires forall i :: 0 <= i < |data| ==> lo <= data[i] <= hi
    ensures lo as real <= Mean(data).value <= hi as real
  {
    SumBounds(data, lo, hi);
    var n := |data| as real;
    CastProduct(lo, |data|);
    CastProduct(hi, |data|);
    QuotientBounds(Sum(data) as real, n, lo as real, hi as real);
  }

  predicate SortedAsc(s: seq<int>)
  {
    forall i, j :: 0 <= i < j < |s| ==> s[i] <= s[j]
  }

  /** A value no larger than the head of a sorted sequence can go in front of it. */
  lemma SortedCons(h: int, t: seq<int>)
    requires SortedAsc(t) && (t != [] ==> h <= t[0])
    ensures SortedAsc([h] + t)
  {
    var r := [h] + t;
    forall i, j | 0 <= i < j < |r| ensures r[i] <= r[j] {
      if i == 0 {
        assert r[j] == t[j - 1] && t[0] <= t[j - 1];
      } else {
        assert r[i] == t[i - 1] && r[j] == t[j - 1];
      }
    }
  }

  /** Inserts `x` into a sorted sequence at its place. */
  function Insert(x: int, s: seq<int>): (r: seq<int>)
    requires SortedAsc(s)
    ensures SortedAsc(r)
    ensures multiset(r) == multiset(s) + multiset{x}
    ensures |r| == |s| + 1
    ensures r[0] == if s == [] || x <= s[0] then x else s[0]
  {
    if s == [] || x <= s[0] then [x] + s
    else
      var head, tail := s[0], s[1..];
      var rest := Insert(x, tail);
      assert s == [head] + tail;
      assert tail != [] ==> head <= tail[0];
      SortedCons(head, rest);
      [head] + rest
  }

  /** A numerically ascending sorted copy of the data; the data themselves are left as they are. */
  function SortAscending(data: seq<int>): (r: seq<int>)
    ensures SortedAsc(r)
    ensures multiset(r) == multiset(data)
    ensures |r| == |data|
  {
    if data == [] then []
    else
      var rest := SortAscending(data[1..]);
      assert multiset(data) == multiset{data[0]} + multiset(data[1..]) by { assert data == [data[0]] + data[1..]; }
      Insert(data[0], rest)
  }

  /** The head of a sorted sequence is at most each of its elements. */
  lemma SortedHeadIsLeast(a: seq<int>, x: int)
    requires SortedAsc(a) && x in multiset(a)
    ensures a[0] <= x
  {
    var i :| 0 <= i < |a| && a[i] == x;
  }

  /** Dropping the head removes one occurrence of it. */
  lemma TailMultiset(a: seq<int>)
    requires a != []
    ensures multiset(a[1..]) == multiset(a) - multiset{a[0]}
  {
    assert a == [a[0]] + a[1..];
  }

  /** A sorted sequence is determined by its elements, so the median does not depend on how one sorts. */
  lemma {:induction false} SortedPermutationUnique(a: seq<int>, b: seq<int>)
    requires SortedAsc(a) && SortedAsc(b)
    requires multiset(a) == multiset(b)
    ensures a == b
  {
    assert |a| == |b| by { assert |multiset(a)| == |multiset(b)|; }
    if a != [] {
      assert a[0] in a && b[0] in b;
      SortedHeadIsLeast(a, b[0]);
      SortedHeadIsLeast(b, a[0]);
      assert a[0] == b[0];
      TailMultiset(a);
      TailMultiset(b);
      var ta, tb := a[1..], b[1..];
      assert multiset(ta) == multiset(tb);
      assert SortedAsc(ta) && SortedAsc(tb);
      SortedPermutationUnique(ta, tb);
      assert a == [a[0]] + ta && b == [b[0]] + tb;
    }
  }

  /** The middle of a sorted, non-empty list: its middle value, or the average of the two middle values. */
  function MiddleOf(s: seq<int>): real
    requires |s| > 0
  {
    var n := |s|;
    if n % 2 == 0 then (s[n / 2 - 1] + s[n / 2]) as real / 2.0 else s[n / 2] as real
  }

  /**
   * The median: the middle of the sorted data when its length is odd, the
   * average of the two middle values when it is even; NaN (`None`) when empty.
   */
  function Median(data: seq<int>): (m: Option<real>)
    ensures m.Some? <==> |data| > 0
  {
    if |data| == 0 then None else Some(MiddleOf(SortAscending(data)))
  }

  /** The first half of the sorted data, the middle value included when the length is odd. */
  function LowerHalf(data: seq<int>): seq<int>
  {
    SortAscending(data)[..(|data| + 1) / 2]
  }

  /** The second half of the sorted data, the middle value included when the length is odd. */
  function UpperHalf(data: seq<int>): seq<int>
  {
    SortAscending(data)[|data| / 2..]
  }

  lemma AverageBetween(lo: int, hi: int)
    requires lo <= hi
    ensures lo as real <= (lo + hi) as real / 2.0 <= hi as real
  {
  }

  /** In a sorted list, the first half lies at or below its middle and the second half at or above. */
  lemma MiddleSplits(s: seq<int>)
    requires SortedAsc(s) && |s| > 0
    ensures forall i :: 0 <= i < (|s| + 1) / 2 ==> s[i] as real <= MiddleOf(s)
    ensures forall i :: |s| / 2 <= i < |s| ==> s[i] as real >= MiddleOf(s)
  {
    var n, m := |s|, MiddleOf(s);
    if n % 2 == 0 {
      AverageBetween(s[n / 2 - 1], s[n / 2]);
      assert forall i :: 0 <= i < (n + 1) / 2 ==> s[i] <= s[n / 2 - 1];
      assert forall i :: n / 2 <= i < n ==> s[n / 2] <= s[i];
    } else {
      assert forall i :: 0 <= i < (n + 1) / 2 ==> s[i] <= s[n / 2];
      assert forall i :: n / 2 <= i < n ==> s[n / 2] <= s[i];
    }
  }

  /** The median is at least every value of the lower half and at most every value of the upper half. */
  lemma MedianSplitsSorted(data: seq<int>)
    requires |data| > 0
    ensures forall i :: 0 <= i < |LowerHalf(data)| ==> LowerHalf(data)[i] as real <= Median(data).value
    ensures forall i :: 0 <= i < |UpperHalf(data)| ==> UpperHalf(data)[i] as real >= Median(data).value
  {
    var s, n := SortAscending(data), |data|;
    MiddleSplits(s);
    var lower, upper := LowerHalf(data), UpperHalf(data);
    assert forall i :: 0 <= i < |lower| ==> lower[i] == s[i];
    assert forall i :: 0 <= i < |upper| ==> upper[i] == s[n / 2 + i];
  }

  /**
   * Stated on the data itself: at least half of the values (counted with
   * multiplicity) lie at or below the median, and at least half at or above it.
   */
  lemma MedianSplitsData(data: seq<int>)
    requires |data| > 0
    ensures multiset(LowerHalf(data)) <= multiset(data) && 2 * |LowerHalf(data)| >= |data|
    ensures multiset(UpperHalf(data)) <= multiset(data) && 2 * |UpperHalf(data)| >= |data|
    ensures forall x :: x in LowerHalf(data) ==> x as real <= Median(data).value
    ensures forall x :: x in UpperHalf(data) ==> x as real >= Median(data).value
  {
    var s, n := SortAscending(data), |data|;
    assert s == LowerHalf(data) + s[(n + 1) / 2..];
    assert s == s[..n / 2] + UpperHalf(data);
    MedianSplitsSorted(data);
  }

  /** How often `v` occurs in `data`. */
  function Freq(data: seq<int>, v: int): nat
  {
    multiset(data)[v]
  }

  /** A value is a mode when no value of the data occurs more often. */
  function Modes(data: seq<int>): (ms: set<int>)
    ensures forall v :: v in ms ==> v in data
  {
    set v | v in data && forall w | w in data :: Freq(data, w) <= Freq(data, v)
  }

  /** An index, among the first k, of a most frequent value (the `Math.max` over frequencies). */
  function MostFrequentIndex(data: seq<int>, k: nat): (i: nat)
    requires 0 < k <= |data|
    ensures i < k
    ensures forall j :: 0 <= j < k ==> Freq(data, data[j]) <= Freq(data, data[i])
  {
    if k == 1 then 0
    else
      var i := MostFrequentIndex(data, k - 1);
      if Freq(data, data[k - 1]) > Freq(data, data[i]) then k - 1 else i
  }

  /** Non-empty data has at least one mode. */
  lemma ModesNonEmpty(data: seq<int>)
    requires |data| > 0
    ensures Modes(data) != {}
  {
    var v := data[MostFrequentIndex(data, |data|)];
    forall w | w in data ensures Freq(data, w) <= Freq(data, v) {
      var j :| 0 <= j < |data| && data[j] == w;
    }
    assert v in Modes(data);
  }

  /** Builds `modeMap`, value to frequency, in one pass over the data. */
  method Frequencies(data: seq<int>) returns (freq: map<int, nat>)
    ensures forall k :: k in freq <==> k in data
    ensures forall k :: k in freq ==> freq[k] == multiset(data)[k]
  {
    freq := map[];
    var i := 0;
    while i < |data|
      invariant 0 <= i <= |data|
      invariant forall k :: k in freq <==> k in data[..i]
      invariant forall k :: k in freq ==> freq[k] == multiset(data[..i])[k]
    {
      var n := data[i];
      assert data[..i + 1] == data[..i] + [n];
      freq := freq[n := (if n in freq then freq[n] else 0) + 1];
      i := i + 1;
    }
    assert data[..i] == data;
  }

  lemma NonEmptyHasElement(s: set<int>)
    requires s != {}
    ensures exists x :: x in s
  {
    if forall x :: x !in s { assert false; }
  }

  /** The largest frequency in the map; for an empty map the mode list is empty whatever this is. */
  method MaxFrequency(freq: map<int, nat>) returns (maxFreq: nat)
    ensures forall k :: k in freq ==> freq[k] <= maxFreq
    ensures freq != map[] ==> exists k :: k in freq && freq[k] == maxFreq
  {
    maxFreq := 0;
    var pending := freq.Keys;
    ghost var seen: set<int> := {};
    while pending != {}
      invariant pending + seen == freq.Keys && pending !! seen
      invariant forall k :: k in seen ==> freq[k] <= maxFreq
      invariant seen == {} ==> maxFreq == 0
      invariant seen != {} ==> exists k :: k in seen && freq[k] == maxFreq
      decreases pending
    {
      NonEmptyHasElement(pending);
      var k :| k in pending;
      if freq[k] > maxFreq {
        maxFreq := freq[k];
      }
      pending := pending - {k};
      seen := seen + {k};
    }
    if freq != map[] {
      var k :| k in freq;
      assert k in seen;
    }
  }

  /** `mode`: the entries of `modeMap` whose frequency is the largest one. */
  method ComputeMode(data: seq<int>) returns (mode: set<int>)
    ensures mode == Modes(data)
  {
    var freq := Frequencies(data);
    var maxFreq := MaxFrequency(freq);
    mode := set k | k in freq && freq[k] == maxFreq;
    forall v | v in mode ensures v in Modes(data) {
      forall w | w in data ensures Freq(data, w) <= Freq(data, v) {
        assert w in freq;
      }
    }
    forall v | v in Modes(data) ensures v in mode {
      assert freq != map[] by { assert v in freq; }
      var k :| k in freq && freq[k] == maxFreq;
      assert Freq(data, k) <= Freq(data, v);
    }
  }

  /** The lesson's mean: 40 / 8 = 5. */
  lemma SampleMean()
    ensures Mean(SampleData) == Some(5.0)
  {
    assert SampleData[7..] == [9];
    assert SampleData[6..] == [7] + SampleData[7..];
    assert SampleData[5..] == [5] + SampleData[6..];
    assert SampleData[4..] == [5] + SampleData[5..];
    assert SampleData[3..] == [4] + SampleData[4..];
    assert SampleData[2..] == [4] + SampleData[3..];
    assert SampleData[1..] == [4] + SampleData[2..];
    assert Sum(SampleData[7..]) == 9;
    assert Sum(SampleData[5..]) == 21;
    assert Sum(SampleData[3..]) == 30;
    assert Sum(SampleData[1..]) == 38;
    assert Sum(SampleData) == 40;
  }

  /** Data already sorted are their own sorted copy. */
  lemma SortedDataSortsToItself(data: seq<int>)
    requires SortedAsc(data)
    ensures SortAscending(data) == data
  {
    SortedPermutationUnique(SortAscending(data), data);
  }

  /** For sorted data of even length, the median is the average of the two middle entries. */
  lemma MedianOfSortedEven(data: seq<int>)
    requires SortedAsc(data) && |data| > 0 && |data| % 2 == 0
    ensures Median(data) == Some((data[|data| / 2 - 1] + data[|data| / 2]) as real / 2.0)
  {
    SortedDataSortsToItself(data);
  }

  lemma SampleIsSorted(data: seq<int>)
    requires data == SampleData
    ensures SortedAsc(data)
  {
  }

  /** The lesson's median: the data are already sorted, and (4 + 5) / 2 = 4.5. */
  lemma SampleMedian(data: seq<int>)
    requires data == SampleData
    ensures Median(data) == Some(4.5)
  {
    SampleIsSorted(data);
    assert |data| == 8 && data[3] == 4 && data[4] == 5;
    MedianOfSortedEven(data);
  }

  /** The lesson's mode: 4, the only value that occurs three times. */
  lemma SampleMode()
    ensures Modes(SampleData) == {4}
  {
    var ms := multiset(SampleData);
    assert ms == multiset{2, 4, 4, 4, 5, 5, 7, 9};
    assert ms[2] == 1 && ms[4] == 3 && ms[5] == 2 && ms[7] == 1 && ms[9] == 1;
    assert forall w :: w in SampleData ==> w in {2, 4, 5, 7, 9};
    assert 4 in Modes(SampleData);
    forall v | v in Modes(SampleData) ensures v == 4 {
      assert Freq(SampleData, 4) <= Freq(SampleData, v);
    }
  }
}
