/**
 * The charted entries: the probability table sorted by value, largest first,
 * cut to its first three entries. The library does not promise an order among
 * equal values; the sort below fixes one, keeping tied entries in table
 * order. `SortDescendingOfSorted` and `TopEntriesOfShortSorted` hold for that
 * order only. `TopValuesIgnoreTies` and `StrictlySortedIsUnique` hold for any
 * order a sort may give.
 */
module TopThree {

  /** An emotion name with its probability. */
  type Entry = (string, real)

  /** How many entries the charts show. */
  const ShownEntries: nat := 3

  predicate NonIncreasing(s: seq<Entry>) {
    forall i, j :: 0 <= i < j < |s| ==> s[i].1 >= s[j].1
  }

  /** Values strictly decrease along `s`: no two entries tie. */
  predicate StrictlyDecreasing(s: seq<Entry>) {
    forall i, j :: 0 <= i < j < |s| ==> s[i].1 > s[j].1
  }

  /** No entry of `s` has a value above `v`. */
  predicate AllAtMost(s: seq<Entry>, v: real) {
    forall k :: 0 <= k < |s| ==> s[k].1 <= v
  }

  /** A bound on every value survives reordering. */
  lemma AllAtMostPermutation(a: seq<Entry>, b: seq<Entry>, v: real)
    requires multiset(a) == multiset(b)
    requires AllAtMost(b, v)
    ensures AllAtMost(a, v)
  {
    forall k | 0 <= k < |a| ensures a[k].1 <= v {
      assert a[k] in multiset(b);
      var m :| 0 <= m < |b| && b[m] == a[k];
    }
  }

  /** An entry worth at least every entry of a sorted table can go in front of it. */
  lemma PrependSorted(x: Entry, t: seq<Entry>)
    requires NonIncreasing(t) && AllAtMost(t, x.1)
    ensures NonIncreasing([x] + t)
  {
    forall i, j | 0 <= i < j < |t| + 1 ensures ([x] + t)[i].1 >= ([x] + t)[j].1 {
      assert ([x] + t)[j] == t[j - 1];
      if i > 0 {
        assert ([x] + t)[i] == t[i - 1];
      }
    }
  }

  /** Put `e` in front of the first entry with a value not above it. */
  function Insert(e: Entry, s: seq<Entry>): (r: seq<Entry>)
    requires NonIncreasing(s)
    ensures NonIncreasing(r)
    ensures multiset(r) == multiset(s) + multiset{e}
    ensures |r| == |s| + 1
  {
    if s == [] || s[0].1 <= e.1 then
      PrependSorted(e, s);
      [e] + s
    else
      var t := Insert(e, s[1..]);
      assert s == [s[0]] + s[1..];
      assert multiset(t) == multiset(s[1..] + [e]);
      assert AllAtMost(s[1..] + [e], s[0].1);
      AllAtMostPermutation(t, s[1..] + [e], s[0].1);
      PrependSorted(s[0], t);
      [s[0]] + t
  }

  /** The entries sorted by value, largest first. */
  function SortDescending(s: seq<Entry>): (r: seq<Entry>)
    ensures NonIncreasing(r)
    ensures multiset(r) == multiset(s)
    ensures |r| == |s|
  {
    if s == [] then []
    else
      var t := SortDescending(s[1..]);
      assert multiset(s) == multiset{s[0]} + multiset(s[1..]) by {
        assert s == [s[0]] + s[1..];
      }
      Insert(s[0], t)
  }

  /** The model's sort leaves an already sorted table as it is. */
  lemma {:induction false} SortDescendingOfSorted(s: seq<Entry>)
    requires NonIncreasing(s)
    ensures SortDescending(s) == s
  {
    if s != [] {
      SortDescendingOfSorted(s[1..]);
      assert s == [s[0]] + s[1..];
    }
  }

  /** Remove position `k` from `s`. */
  function Without(s: seq<Entry>, k: nat): (r: seq<Entry>)
    requires k < |s|
    ensures |r| == |s| - 1
    ensures multiset(s) == multiset(r) + multiset{s[k]}
  {
    assert s == s[..k] + [s[k]] + s[k + 1..];
    s[..k] + s[k + 1..]
  }

  /**
   * Taking out an entry whose value equals the first one leaves a sorted
   * table whose values, position by position, are those after the first.
   */
  lemma WithoutTopValue(s: seq<Entry>, k: nat)
    requires NonIncreasing(s)
    requires k < |s| && s[k].1 == s[0].1
    ensures forall i :: 0 <= i < |s| - 1 ==> Without(s, k)[i].1 == s[i + 1].1
    ensures NonIncreasing(Without(s, k))
  {
  }

  lemma MultisetCancel(x: multiset<Entry>, y: multiset<Entry>, e: Entry)
    requires x + multiset{e} == y + multiset{e}
    ensures x == y
  {
    assert forall z :: x[z] == (x + multiset{e})[z] - multiset{e}[z];
    assert forall z :: y[z] == (y + multiset{e})[z] - multiset{e}[z];
  }

  /** Two sorted arrangements of the same entries start with the same value. */
  lemma FirstValuesAgree(a: seq<Entry>, b: seq<Entry>) returns (k: nat)
    requires multiset(a) == multiset(b) && a != []
    requires NonIncreasing(a) && NonIncreasing(b)
    ensures k < |b| && b[k] == a[0] && b[k].1 == b[0].1
  {
    assert a[0] in multiset(b) && b[0] in multiset(a);
    k :| 0 <= k < |b| && b[k] == a[0];
    var m :| 0 <= m < |a| && a[m] == b[0];
    assert b[0].1 >= b[k].1 && a[0].1 >= a[m].1;
  }

  /**
   * Any two sorted arrangements of the same entries agree on the value at
   * every position, so the values charted do not depend on how the sort
   * orders ties.
   */
  lemma {:induction false} SortedArrangementsAgree(a: seq<Entry>, b: seq<Entry>)
    requires multiset(a) == multiset(b)
    requires NonIncreasing(a) && NonIncreasing(b)
    ensures |a| == |b|
    ensures forall i :: 0 <= i < |a| ==> a[i].1 == b[i].1
  {
    assert |a| == |multiset(a)| == |b|;
    if a != [] {
      var k := FirstValuesAgree(a, b);
      var rest := Without(b, k);
      WithoutTopValue(b, k);
      assert Without(a, 0) == a[1..];
      MultisetCancel(multiset(a[1..]), multiset(rest), a[0]);
      SortedArrangementsAgree(a[1..], rest);
      forall i | 0 <= i < |a| ensures a[i].1 == b[i].1 {
        if i > 0 {
          assert a[i] == a[1..][i - 1];
        }
      }
    }
  }

  function Min(a: nat, b: nat): nat {
    if a < b then a else b
  }

  /** The first `n` entries of the sorted table, or all of them when there are fewer. */
  function Top(s: seq<Entry>, n: nat): seq<Entry> {
    SortDescending(s)[..Min(n, |s|)]
  }

  /** The entries `.head(n)` leaves out. */
  function Rest(s: seq<Entry>, n: nat): seq<Entry> {
    SortDescending(s)[Min(n, |s|)..]
  }

  /** The entries the charts show. */
  function TopEntries(s: seq<Entry>): (r: seq<Entry>)
    ensures |r| == Min(ShownEntries, |s|)
    ensures NonIncreasing(r)
    ensures multiset(r) <= multiset(s)
  {
    TopRestSplit(s, ShownEntries);
    Top(s, ShownEntries)
  }

  /** The model charts a sorted table of at most three entries as it is. */
  lemma TopEntriesOfShortSorted(s: seq<Entry>)
    requires NonIncreasing(s)
    requires |s| <= ShownEntries
    ensures TopEntries(s) == s
  {
    SortDescendingOfSorted(s);
  }

  /** Kept and left-out entries together are the input, each used once. */
  lemma {:induction false} TopRestSplit(s: seq<Entry>, n: nat)
    ensures |Top(s, n)| == Min(n, |s|)
    ensures NonIncreasing(Top(s, n))
    ensures multiset(Top(s, n)) + multiset(Rest(s, n)) == multiset(s)
    ensures multiset(Top(s, n)) <= multiset(s)
  {
    var sorted := SortDescending(s);
    assert sorted == Top(s, n) + Rest(s, n);
  }

  /** No left-out entry has a larger value than any kept one. */
  lemma TopDominatesRest(s: seq<Entry>, n: nat)
    ensures forall i, j :: 0 <= i < |Top(s, n)| && 0 <= j < |Rest(s, n)|
              ==> Rest(s, n)[j].1 <= Top(s, n)[i].1
  {
  }

  /**
   * The charted entries are min(3, |probs|) entries of the table, largest
   * first, and every entry left out of them is worth no more than every
   * entry kept.
   */
  lemma TopEntriesSelectsLargest(s: seq<Entry>)
    ensures |TopEntries(s)| == Min(ShownEntries, |s|)
    ensures forall e :: e in TopEntries(s) ==> e in s
    ensures forall e, t :: e in multiset(s) - multiset(TopEntries(s)) && t in TopEntries(s)
              ==> e.1 <= t.1
  {
    var top := TopEntries(s);
    var rest := Rest(s, ShownEntries);
    TopRestSplit(s, ShownEntries);
    TopDominatesRest(s, ShownEntries);
    forall e | e in top ensures e in s {
      assert e in multiset(top);
    }
    forall e, t | e in multiset(s) - multiset(top) && t in top ensures e.1 <= t.1 {
      assert multiset(s) - multiset(top) == multiset(rest);
      assert e in rest;
      var j :| 0 <= j < |rest| && rest[j] == e;
      var i :| 0 <= i < |top| && top[i] == t;
    }
  }

  /**
   * Whatever order a sort gives tied entries, the values charted are the
   * first min(3, |probs|) values of any sorted arrangement of the table.
   */
  lemma TopValuesIgnoreTies(s: seq<Entry>, p: seq<Entry>)
    requires multiset(p) == multiset(s)
    requires NonIncreasing(p)
    ensures |p| == |s|
    ensures forall i :: 0 <= i < |TopEntries(s)| ==> TopEntries(s)[i].1 == p[i].1
  {
    assert |p| == |multiset(p)| == |s|;
    SortedArrangementsAgree(SortDescending(s), p);
  }

  /**
   * Without ties a table has only one sorted arrangement, so any sort, however
   * it treats ties, gives the same sequence of entries.
   */
  lemma StrictlySortedIsUnique(s: seq<Entry>, p: seq<Entry>)
    requires StrictlyDecreasing(s)
    requires multiset(p) == multiset(s)
    requires NonIncreasing(p)
    ensures p == s
  {
    SortedArrangementsAgree(s, p);
    forall i | 0 <= i < |p| ensures p[i] == s[i] {
      assert p[i] in multiset(s);
      var j :| 0 <= j < |s| && s[j] == p[i];
    }
  }
}
