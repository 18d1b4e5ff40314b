/** The top-20 ranking of the referrals route: the tally entries sorted by
    descending count and cut to twenty (src/app/api/cliniko/referrals/route.ts).
    JavaScript's sort is stable, so the sort here is a stable insertion sort;
    the order among equal counts is modelled but nothing is proved about it. */
module Ranking {
  import opened Tally

  /** `{ name, value }`. */
  datatype Entry = Entry(name: string, value: nat)

  /** How many doctors the ranking keeps. */
  const TopCount: nat := 20

  predicate NonIncreasing(s: seq<Entry>) {
    forall i, j :: 0 <= i < j < |s| ==> s[i].value >= s[j].value
  }

  predicate DistinctNames(s: seq<Entry>) {
    forall i, j :: 0 <= i < j < |s| ==> s[i].name != s[j].name
  }

  /** `Object.entries(counts).map(...)`, with `order` the key order. */
  function Entries(order: seq<string>, counts: map<string, nat>): (entries: seq<Entry>)
    requires forall i :: 0 <= i < |order| ==> order[i] in counts
    ensures |entries| == |order|
    ensures forall i :: 0 <= i < |order| ==> entries[i] == Entry(order[i], counts[order[i]])
  {
    if order == [] then []
    else Entries(order[..|order| - 1], counts) + [Entry(order[|order| - 1], counts[order[|order| - 1]])]
  }

  /** Inserts `e` in front of the first entry whose value is not larger, so
      that `e`, which came earlier, stays ahead of its equals. */
  function Insert(e: Entry, sorted: seq<Entry>): (r: seq<Entry>)
    ensures |r| == |sorted| + 1
    ensures multiset(r) == multiset(sorted) + multiset{e}
  {
    if sorted == [] || sorted[0].value <= e.value then [e] + sorted
    else
      assert sorted == [sorted[0]] + sorted[1..];
      [sorted[0]] + Insert(e, sorted[1..])
  }

  lemma {:induction false} InsertKeepsOrder(e: Entry, sorted: seq<Entry>)
    requires NonIncreasing(sorted)
    ensures NonIncreasing(Insert(e, sorted))
  {
    if sorted != [] && sorted[0].value > e.value {
      var rest := Insert(e, sorted[1..]);
      InsertKeepsOrder(e, sorted[1..]);
      forall x | x in rest ensures x.value <= sorted[0].value {
        assert x in multiset(rest);
      }
    }
  }

  lemma {:induction false} InsertKeepsNamesDistinct(e: Entry, sorted: seq<Entry>)
    requires DistinctNames(sorted)
    requires forall x :: x in sorted ==> x.name != e.name
    ensures DistinctNames(Insert(e, sorted))
  {
    if sorted != [] && sorted[0].value > e.value {
      var rest := Insert(e, sorted[1..]);
      InsertKeepsNamesDistinct(e, sorted[1..]);
      forall x | x in rest ensures x.name != sorted[0].name {
        assert x in multiset(rest);
      }
      var r := [sorted[0]] + rest;
      forall i, j | 0 <= i < j < |r| ensures r[i].name != r[j].name {
        if i == 0 { assert r[j] in rest; }
      }
    }
  }

  /** `.sort((a, b) => b.value - a.value)`: a stable sort by descending value. */
  function SortByValue(s: seq<Entry>): (r: seq<Entry>)
    ensures |r| == |s|
    ensures multiset(r) == multiset(s)
  {
    if s == [] then []
    else
      assert s == [s[0]] + s[1..];
      Insert(s[0], SortByValue(s[1..]))
  }

  /** The sort orders by descending value and keeps names distinct. */
  lemma {:induction false} SortByValueSorts(s: seq<Entry>)
    ensures NonIncreasing(SortByValue(s))
    ensures DistinctNames(s) ==> DistinctNames(SortByValue(s))
  {
    if s != [] {
      var rest := SortByValue(s[1..]);
      SortByValueSorts(s[1..]);
      InsertKeepsOrder(s[0], rest);
      if DistinctNames(s) {
        forall x | x in rest ensures x.name != s[0].name {
          assert x in multiset(s[1..]);
          var k :| 0 <= k < |s[1..]| && s[1..][k] == x;
          assert s[k + 1] == x;
        }
        assert DistinctNames(s[1..]) by {
          forall i, j | 0 <= i < j < |s[1..]| ensures s[1..][i].name != s[1..][j].name {
            assert s[1..][i] == s[i + 1] && s[1..][j] == s[j + 1];
          }
        }
        InsertKeepsNamesDistinct(s[0], rest);
      }
    }
  }

  /** `.slice(0, 20)` of the sorted entries. */
  function TopDoctors(entries: seq<Entry>): (top: seq<Entry>)
    ensures |top| == if |entries| <= TopCount then |entries| else TopCount
    ensures top <= SortByValue(entries)
  {
    var sorted := SortByValue(entries);
    if |sorted| <= TopCount then sorted else sorted[..TopCount]
  }

  function Sum(s: seq<Entry>): nat {
    if s == [] then 0 else s[0].value + Sum(s[1..])
  }

  lemma {:induction false} SumOfInsert(e: Entry, sorted: seq<Entry>)
    ensures Sum(Insert(e, sorted)) == e.value + Sum(sorted)
  {
    if sorted != [] && sorted[0].value > e.value {
      SumOfInsert(e, sorted[1..]);
    }
  }

  /** Sorting neither adds nor loses any count. */
  lemma {:induction false} SumOfSort(s: seq<Entry>)
    ensures Sum(SortByValue(s)) == Sum(s)
  {
    if s != [] {
      SumOfSort(s[1..]);
      SumOfInsert(s[0], SortByValue(s[1..]));
    }
  }

  lemma {:induction false} SumSplit(s: seq<Entry>, t: seq<Entry>)
    ensures Sum(s + t) == Sum(s) + Sum(t)
  {
    if s != [] {
      assert (s + t)[0] == s[0] && (s + t)[1..] == s[1..] + t;
      SumSplit(s[1..], t);
    } else {
      assert s + t == t;
    }
  }

  lemma {:induction false} SumOfEntries(order: seq<string>, counts: map<string, nat>)
    requires forall i :: 0 <= i < |order| ==> order[i] in counts
    ensures Sum(Entries(order, counts)) == SumOver(order, counts)
  {
    if order != [] {
      var init := order[..|order| - 1];
      SumOfEntries(init, counts);
      var last := Entry(order[|order| - 1], counts[order[|order| - 1]]);
      SumSplit(Entries(init, counts), [last]);
    }
  }

  /** The entries of a tally carry each key's count, and their names are
      distinct when the keys are listed once each. */
  lemma EntriesOfTally(order: seq<string>, counts: map<string, nat>)
    requires Distinct(order)
    requires forall i :: 0 <= i < |order| ==> order[i] in counts
    ensures DistinctNames(Entries(order, counts))
    ensures forall x :: x in Entries(order, counts) ==> x.name in counts && x.value == counts[x.name]
  {
    var entries := Entries(order, counts);
    forall i, j | 0 <= i < j < |entries| ensures entries[i].name != entries[j].name {
      assert entries[i].name == order[i] && entries[j].name == order[j];
    }
  }

  /** The ranking of a tally whose keys are listed once each, in `order`:
      sorted by descending count; min(20, number of names) entries with
      distinct names; each entry carries its name's count; no name left out
      has a larger count than a name kept; and the kept counts add up to no
      more than the whole tally. */
  lemma RankingOfTally(order: seq<string>, counts: map<string, nat>)
    requires Distinct(order)
    requires forall i :: 0 <= i < |order| ==> order[i] in counts
    ensures var entries := Entries(order, counts);
            var top := TopDoctors(entries);
      && NonIncreasing(top)
      && |top| == (if |order| <= TopCount then |order| else TopCount)
      && DistinctNames(top)
      && (forall i :: 0 <= i < |top| ==> top[i].name in counts && top[i].value == counts[top[i].name])
      && (forall e, i :: e in entries && e !in top && 0 <= i < |top| ==> e.value <= top[i].value)
      && Sum(top) <= SumOver(order, counts)
  {
    var entries := Entries(order, counts);
    var sorted := SortByValue(entries);
    var top := TopDoctors(entries);
    EntriesOfTally(order, counts);
    SortByValueSorts(entries);
    PrefixKeepsProperties(top, sorted);
    RankedEntriesComeFromTally(entries, counts);
    RankingKeepsLargest(entries, top);
    RankingSumBound(order, counts);
  }

  /** The ranked counts add up to no more than the whole tally. */
  lemma RankingSumBound(order: seq<string>, counts: map<string, nat>)
    requires forall i :: 0 <= i < |order| ==> order[i] in counts
    ensures Sum(TopDoctors(Entries(order, counts))) <= SumOver(order, counts)
  {
    var entries := Entries(order, counts);
    var sorted := SortByValue(entries);
    var top := TopDoctors(entries);
    SumOfSort(entries);
    SumOfEntries(order, counts);
    assert sorted == top + sorted[|top|..];
    SumSplit(top, sorted[|top|..]);
  }

  lemma RankedEntriesComeFromTally(entries: seq<Entry>, counts: map<string, nat>)
    requires forall x :: x in entries ==> x.name in counts && x.value == counts[x.name]
    ensures var top := TopDoctors(entries);
            forall i :: 0 <= i < |top| ==> top[i].name in counts && top[i].value == counts[top[i].name]
  {
    var sorted := SortByValue(entries);
    var top := TopDoctors(entries);
    forall i | 0 <= i < |top|
      ensures top[i].name in counts && top[i].value == counts[top[i].name]
    {
      assert top[i] == sorted[i];
      assert sorted[i] in multiset(entries);
    }
  }

  /** An entry left out of the ranking is no larger than any entry kept. */
  lemma RankingKeepsLargest(entries: seq<Entry>, top: seq<Entry>)
    requires top == TopDoctors(entries)
    ensures forall e, i :: e in entries && e !in top && 0 <= i < |top| ==> e.value <= top[i].value
  {
    var sorted := SortByValue(entries);
    SortByValueSorts(entries);
    forall e, i | e in entries && e !in top && 0 <= i < |top|
      ensures e.value <= top[i].value
    {
      assert e in multiset(sorted);
      var j :| 0 <= j < |sorted| && sorted[j] == e;
      assert top[i] == sorted[i];
      assert j >= |top|;
    }
  }

  lemma PrefixKeepsProperties(top: seq<Entry>, sorted: seq<Entry>)
    requires top <= sorted
    ensures NonIncreasing(sorted) ==> NonIncreasing(top)
    ensures DistinctNames(sorted) ==> DistinctNames(top)
  {
  }
}
