/**
 * `all_data.sort(key=lambda x: x['timestamp'])` (views.py:294): Python's list
 * sort is stable, so the result is the unique rearrangement that is ordered by
 * timestamp and keeps readings with equal timestamps in their original order.
 * SortByTime is that result, written as a stable insertion sort.
 */
module Sorting {
  import opened Timestamps
  import opened Models
  import opened Lists

  predicate SortedByTime(s: seq<HealthData>)
  {
    forall i, j :: 0 <= i < j < |s| ==> Le(s[i].timestamp, s[j].timestamp)
  }

  /** Puts `x` after every element whose timestamp is not later than its own. */
  function Insert(s: seq<HealthData>, x: HealthData): (r: seq<HealthData>)
    ensures multiset(r) == multiset(s) + multiset{x}
    ensures |r| == |s| + 1
  {
    if s == [] then [x]
    else if Le(s[0].timestamp, x.timestamp) then
      assert s == [s[0]] + s[1..];
      [s[0]] + Insert(s[1..], x)
    else [x] + s
  }

  function SortByTime(s: seq<HealthData>): (r: seq<HealthData>)
    ensures multiset(r) == multiset(s)
    ensures |r| == |s|
  {
    if s == [] then []
    else
      assert s == s[..|s| - 1] + [s[|s| - 1]];
      Insert(SortByTime(s[..|s| - 1]), s[|s| - 1])
  }

  /** Every element of a multiset-equal list is bounded below like the original. */
  lemma LowerBoundCarries(t: string, s: seq<HealthData>, r: seq<HealthData>)
    requires multiset(r) == multiset(s)
    requires forall i :: 0 <= i < |s| ==> Le(t, s[i].timestamp)
    ensures forall i :: 0 <= i < |r| ==> Le(t, r[i].timestamp)
  {
    forall i | 0 <= i < |r|
      ensures Le(t, r[i].timestamp)
    {
      assert r[i] in multiset(r);
      assert r[i] in s;
    }
  }

  lemma {:induction false} InsertSorted(s: seq<HealthData>, x: HealthData)
    requires SortedByTime(s)
    ensures SortedByTime(Insert(s, x))
    decreases |s|
  {
    if s == [] {
    } else if Le(s[0].timestamp, x.timestamp) {
      var rest := Insert(s[1..], x);
      InsertSorted(s[1..], x);
      var t := s[0].timestamp;
      assert forall i :: 0 <= i < |s[1..] + [x]| ==> Le(t, (s[1..] + [x])[i].timestamp) by {
        forall i | 0 <= i < |s[1..] + [x]|
          ensures Le(t, (s[1..] + [x])[i].timestamp)
        {
          if i < |s[1..]| {
            assert (s[1..] + [x])[i] == s[i + 1];
          }
        }
      }
      assert multiset(rest) == multiset(s[1..] + [x]);
      LowerBoundCarries(t, s[1..] + [x], rest);
      assert Insert(s, x) == [s[0]] + rest;
    } else {
      NotLeIsGreater(s[0].timestamp, x.timestamp);
      forall j | 0 <= j < |s|
        ensures Le(x.timestamp, s[j].timestamp)
      {
        if j > 0 {
          LeTransitive(x.timestamp, s[0].timestamp, s[j].timestamp);
        }
      }
    }
  }

  /** The history sort puts readings in ascending timestamp order. */
  lemma {:induction false} SortByTimeSorted(s: seq<HealthData>)
    ensures SortedByTime(SortByTime(s))
    decreases |s|
  {
    if s != [] {
      SortByTimeSorted(s[..|s| - 1]);
      InsertSorted(SortByTime(s[..|s| - 1]), s[|s| - 1]);
    }
  }

  /** A list already in order is left as it is. */
  lemma {:induction false} SortByTimeOfSorted(s: seq<HealthData>)
    requires SortedByTime(s)
    ensures SortByTime(s) == s
    decreases |s|
  {
    if s != [] {
      var front, x := s[..|s| - 1], s[|s| - 1];
      SortByTimeOfSorted(front);
      InsertAtEnd(front, x);
      assert front + [x] == s;
    }
  }

  /** Inserting an element no earlier than all the others appends it. */
  lemma {:induction false} InsertAtEnd(s: seq<HealthData>, x: HealthData)
    requires forall i :: 0 <= i < |s| ==> Le(s[i].timestamp, x.timestamp)
    ensures Insert(s, x) == s + [x]
    decreases |s|
  {
    if s != [] {
      InsertAtEnd(s[1..], x);
      assert s == [s[0]] + s[1..];
    }
  }

  /** A prefix of an ordered list is drawn from it, and nothing the prefix
      leaves out is earlier than anything it keeps. */
  lemma PrefixOldest(sorted: seq<HealthData>, k: nat)
    requires SortedByTime(sorted) && k <= |sorted|
    ensures multiset(sorted[..k]) <= multiset(sorted)
    ensures forall x: HealthData :: x in multiset(sorted) - multiset(sorted[..k]) ==>
              forall i :: 0 <= i < k ==> Le(sorted[i].timestamp, x.timestamp)
  {
    var front, back := sorted[..k], sorted[k..];
    assert sorted == front + back;
    assert multiset(sorted) - multiset(front) == multiset(back);
    forall x: HealthData | x in multiset(back)
      ensures forall i :: 0 <= i < k ==> Le(sorted[i].timestamp, x.timestamp)
    {
      var j :| 0 <= j < |back| && back[j] == x;
      assert x == sorted[k + j];
    }
  }

  /** `h.timestamp == t`: the readings that tie at timestamp `t`. */
  function At(t: string): HealthData -> bool
  {
    (h: HealthData) => h.timestamp == t
  }

  /** In an ordered list, from the first reading later than `x` on, no
      reading has `x`'s timestamp. */
  lemma SortedRestLater(s: seq<HealthData>, k: nat, x: HealthData)
    requires SortedByTime(s) && k < |s| && !Le(s[k].timestamp, x.timestamp)
    ensures forall j :: k <= j < |s| ==> s[j].timestamp != x.timestamp
  {
    LeReflexive(x.timestamp);
    forall j | k < j < |s|
      ensures s[j].timestamp != x.timestamp
    {
      assert Le(s[k].timestamp, s[j].timestamp);
    }
  }

  /** Inserting into an ordered list puts `x` after every reading with the
      same timestamp. */
  lemma {:induction false} InsertStable(s: seq<HealthData>, x: HealthData, t: string)
    requires SortedByTime(s)
    ensures Filter(Insert(s, x), At(t)) == if x.timestamp == t then Filter(s, At(t)) + [x] else Filter(s, At(t))
    decreases |s|
  {
    if s == [] {
      assert Insert(s, x) == [x];
    } else if Le(s[0].timestamp, x.timestamp) {
      SortedTail(s);
      InsertStable(s[1..], x, t);
      assert Insert(s, x) == [s[0]] + Insert(s[1..], x);
      assert s == [s[0]] + s[1..];
      ConsStable(s[0], s[1..], Insert(s[1..], x), x, t);
    } else {
      InsertStableInFront(s, x, t);
    }
  }

  lemma SortedTail(s: seq<HealthData>)
    requires SortedByTime(s) && s != []
    ensures SortedByTime(s[1..])
  {
    forall i, j | 0 <= i < j < |s| - 1
      ensures Le(s[1..][i].timestamp, s[1..][j].timestamp)
    {
      assert s[1..][i] == s[i + 1] && s[1..][j] == s[j + 1];
    }
  }

  /** The step of InsertStable where `x` goes past the head `h` of the list:
      putting the same head in front of both sides keeps the relation. */
  lemma ConsStable(h: HealthData, tail: seq<HealthData>, rest: seq<HealthData>, x: HealthData, t: string)
    requires Filter(rest, At(t)) == if x.timestamp == t then Filter(tail, At(t)) + [x] else Filter(tail, At(t))
    ensures Filter([h] + rest, At(t))
            == if x.timestamp == t then Filter([h] + tail, At(t)) + [x] else Filter([h] + tail, At(t))
  {
    FilterAppend([h], rest, At(t));
    FilterAppend([h], tail, At(t));
  }

  /** The step of InsertStable where `x` goes in front of an ordered list
      whose head is later than `x`. */
  lemma InsertStableInFront(s: seq<HealthData>, x: HealthData, t: string)
    requires SortedByTime(s) && s != [] && !Le(s[0].timestamp, x.timestamp)
    ensures Filter(Insert(s, x), At(t)) == if x.timestamp == t then Filter(s, At(t)) + [x] else Filter(s, At(t))
  {
    calc {
      Filter(Insert(s, x), At(t));
      { assert Insert(s, x) == [x] + s; }
      Filter([x] + s, At(t));
      { FilterAppend([x], s, At(t)); }
      Filter([x], At(t)) + Filter(s, At(t));
    }
    if x.timestamp == t {
      SortedRestLater(s, 0, x);
      FilterDropsAll(s, At(t));
    }
  }

  /** The sort is stable: the readings with any one timestamp come out in the
      order they went in. With SortByTimeSorted and the permutation in
      SortByTime's contract, this fixes the result uniquely. */
  lemma {:induction false} SortByTimeStable(s: seq<HealthData>, t: string)
    ensures Filter(SortByTime(s), At(t)) == Filter(s, At(t))
    decreases |s|
  {
    if s != [] {
      var front, x := s[..|s| - 1], s[|s| - 1];
      var sorted := SortByTime(front);
      SortByTimeSorted(front);
      calc {
        Filter(SortByTime(s), At(t));
        Filter(Insert(sorted, x), At(t));
        { InsertStable(sorted, x, t); }
        if x.timestamp == t then Filter(sorted, At(t)) + [x] else Filter(sorted, At(t));
        { SortByTimeStable(front, t); }
        if x.timestamp == t then Filter(front, At(t)) + [x] else Filter(front, At(t));
        { FilterSnoc(front, x, At(t)); }
        Filter(front + [x], At(t));
        { assert front + [x] == s; }
        Filter(s, At(t));
      }
    }
  }
}
