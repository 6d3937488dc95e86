/**
 * What the read-only handlers of views.py answer, as functions of the store's
 * rows and of the caches' contents: the history listing (views.py:271-324),
 * the alert listing (views.py:365-391) and the prediction lookups they share.
 * The handlers in module Views compute these with loops and are proved equal
 * to them; the properties of the answers are proved here.
 */
module Queries {
  import opened Timestamps
  import opened Models
  import opened Lists
  import opened Sorting
  import Store

  const HistoryCap: int := 1000   // views.py:275
  const DefaultLimit: int := 100  // views.py:275

  // ------------------------------------------------------------- predictions

  /** The first prediction in a list that is linked to reading `id`, or None:
      both `Prediction.query.filter_by(health_data_id=id).first()` and the scan
      of the predictions cache in the history handler. */
  function FirstPredictionFor(rows: seq<Prediction>, id: string): (r: Option<Prediction>)
    ensures r.None? <==> forall i :: 0 <= i < |rows| ==> rows[i].healthDataId != id
    ensures r.Some? ==> exists k :: 0 <= k < |rows| && rows[k] == r.value && rows[k].healthDataId == id
                                    && forall j :: 0 <= j < k ==> rows[j].healthDataId != id
    decreases |rows|
  {
    if rows == [] then None
    else if rows[0].healthDataId == id then Some(rows[0])
    else
      var rest := FirstPredictionFor(rows[1..], id);
      assert forall i :: 1 <= i < |rows| ==> rows[i] == rows[1..][i - 1];
      if rest.Some? then
        var k' :| 0 <= k' < |rows[1..]| && rows[1..][k'] == rest.value && rows[1..][k'].healthDataId == id
                  && forall j :: 0 <= j < k' ==> rows[1..][j].healthDataId != id;
        assert rows[k' + 1] == rest.value;
        rest
      else
        rest
  }

  /** The scan `for p in reversed(predictions)` of get_latest_data
      (views.py:231-235): the LAST prediction linked to `id`, or None. */
  function LastPredictionFor(rows: seq<Prediction>, id: string): (r: Option<Prediction>)
    ensures r.None? <==> forall i :: 0 <= i < |rows| ==> rows[i].healthDataId != id
    ensures r.Some? ==> exists k :: 0 <= k < |rows| && rows[k] == r.value && rows[k].healthDataId == id
                                    && forall j :: k < j < |rows| ==> rows[j].healthDataId != id
    decreases |rows|
  {
    if rows == [] then None
    else if rows[|rows| - 1].healthDataId == id then Some(rows[|rows| - 1])
    else LastPredictionFor(rows[..|rows| - 1], id)
  }

  /** The prediction the history handler reports for reading `id`
      (views.py:300-310): the store's first match, otherwise the cache's. */
  function LinkedPrediction(db: seq<Prediction>, cache: seq<Prediction>, id: string): (r: Option<Prediction>)
    ensures r.Some? ==> r.value.healthDataId == id && (r.value in db || r.value in cache)
    ensures r.None? <==> (forall i :: 0 <= i < |db| ==> db[i].healthDataId != id)
                         && (forall i :: 0 <= i < |cache| ==> cache[i].healthDataId != id)
    ensures (exists i :: 0 <= i < |db| && db[i].healthDataId == id) ==> r.Some? && r.value in db
  {
    var stored := FirstPredictionFor(db, id);
    if stored.Some? then stored else FirstPredictionFor(cache, id)
  }

  // ----------------------------------------------------------------- history

  /** `min(int(request.args.get('limit', 100)), 1000)` (views.py:275); an
      unparsable `limit` is not modelled. */
  function EffectiveLimit(requested: Option<int>): (limit: int)
    ensures limit <= HistoryCap
    ensures limit == HistoryCap || limit == GetOr(requested, DefaultLimit)
    ensures GetOr(requested, DefaultLimit) <= HistoryCap ==> limit == GetOr(requested, DefaultLimit)
  {
    var n := GetOr(requested, DefaultLimit);
    if n < HistoryCap then n else HistoryCap
  }

  predicate HasReadingId(rows: seq<HealthData>, id: string)
  {
    exists i :: 0 <= i < |rows| && rows[i].id == id
  }

  /** `not any(db_d['id'] == d['id'] for db_d in db_data_dicts)` */
  function NotAmong(rows: seq<HealthData>): HealthData -> bool
  {
    (h: HealthData) => !HasReadingId(rows, h.id)
  }

  /** The store's answer followed by the cached readings since the cutoff
      whose id the store's answer does not contain (views.py:281-291). The
      duplicate test is against the store's answer only, so two cached
      entries with the same id are both kept. */
  function MergedHistory(db: seq<HealthData>, cache: seq<HealthData>, cutoff: string, limit: int): seq<HealthData>
  {
    var stored := Store.ReadingsSince(db, cutoff, limit);
    stored + Filter(Filter(cache, Store.Since(cutoff)), NotAmong(stored))
  }

  /** The `data` list of get_historical_data (views.py:294-297): the merged
      list, sorted, then `all_data[-limit:]` when `limit < len(all_data)`. */
  function HistoryData(db: seq<HealthData>, cache: seq<HealthData>, cutoff: string,
                       requested: Option<int>): seq<HealthData>
  {
    var limit := EffectiveLimit(requested);
    var all := SortByTime(MergedHistory(db, cache, cutoff, limit));
    if limit < |all| then SliceFrom(all, -limit) else all
  }

  /** Every entry of the merge is at or after the cutoff and comes from the
      store or the cache. */
  lemma {:induction false} MergedHistoryMembers(db: seq<HealthData>, cache: seq<HealthData>, cutoff: string, limit: int)
    ensures var m := MergedHistory(db, cache, cutoff, limit);
            forall i :: 0 <= i < |m| ==> Le(cutoff, m[i].timestamp) && (m[i] in db || m[i] in cache)
  {
    var stored := Store.ReadingsSince(db, cutoff, limit);
    var fromCache := Filter(cache, Store.Since(cutoff));
    var added := Filter(fromCache, NotAmong(stored));
    FilterMembers(cache, Store.Since(cutoff));
    FilterMembers(fromCache, NotAmong(stored));
    forall i | 0 <= i < |added|
      ensures Le(cutoff, added[i].timestamp) && added[i] in cache
    {
      assert added[i] in fromCache;
    }
  }

  /** Nothing is lost by the merge: the store's answer is kept whole, and
      every cached reading at or after the cutoff whose id the store's answer
      lacks is added. */
  lemma {:induction false} MergedHistoryComplete(db: seq<HealthData>, cache: seq<HealthData>, cutoff: string, limit: int)
    ensures var stored := Store.ReadingsSince(db, cutoff, limit);
            var merged := MergedHistory(db, cache, cutoff, limit);
            && |stored| <= |merged| && merged[..|stored|] == stored
            && forall i :: 0 <= i < |cache| && Le(cutoff, cache[i].timestamp) && !HasReadingId(stored, cache[i].id)
                 ==> cache[i] in merged
  {
    var stored := Store.ReadingsSince(db, cutoff, limit);
    var fromCache := Filter(cache, Store.Since(cutoff));
    var added := Filter(fromCache, NotAmong(stored));
    FilterMembers(cache, Store.Since(cutoff));
    FilterMembers(fromCache, NotAmong(stored));
    forall i | 0 <= i < |cache| && Le(cutoff, cache[i].timestamp) && !HasReadingId(stored, cache[i].id)
      ensures cache[i] in stored + added
    {
      assert Store.Since(cutoff)(cache[i]);
      var j :| 0 <= j < |fromCache| && fromCache[j] == cache[i];
      assert NotAmong(stored)(fromCache[j]);
      assert cache[i] in added;
    }
  }

  /** The history listing is a suffix of the sorted merge, so it is in
      ascending timestamp order and every entry is at or after the cutoff
      and comes from the store or the cache. */
  lemma {:induction false} HistoryOrdered(db: seq<HealthData>, cache: seq<HealthData>, cutoff: string, requested: Option<int>)
    ensures var r := HistoryData(db, cache, cutoff, requested);
            && SortedByTime(r)
            && forall i :: 0 <= i < |r| ==> Le(cutoff, r[i].timestamp) && (r[i] in db || r[i] in cache)
  {
    var limit := EffectiveLimit(requested);
    var merged := MergedHistory(db, cache, cutoff, limit);
    MergedHistoryMembers(db, cache, cutoff, limit);
    var all := SortByTime(merged);
    SortByTimeSorted(merged);
    var r := HistoryData(db, cache, cutoff, requested);
    assert r == all[|all| - |r|..];
    SuffixOfPermutation(merged, all, |all| - |r|, cutoff, db, cache);
  }

  /** A suffix of a rearrangement of the merge inherits the merge's bounds. */
  lemma SuffixOfPermutation(merged: seq<HealthData>, all: seq<HealthData>, k: nat, cutoff: string,
                            db: seq<HealthData>, cache: seq<HealthData>)
    requires multiset(all) == multiset(merged) && k <= |all|
    requires forall i :: 0 <= i < |merged| ==> Le(cutoff, merged[i].timestamp) && (merged[i] in db || merged[i] in cache)
    ensures forall i :: 0 <= i < |all| - k ==> Le(cutoff, all[k..][i].timestamp) && (all[k..][i] in db || all[k..][i] in cache)
  {
    forall i | 0 <= i < |all| - k
      ensures Le(cutoff, all[k..][i].timestamp) && (all[k..][i] in db || all[k..][i] in cache)
    {
      var x := all[k + i];
      assert x in multiset(merged);
      var j :| 0 <= j < |merged| && merged[j] == x;
    }
  }

  /** With a positive limit the listing holds the `limit` newest entries of
      the sorted merge, or all of them when there are fewer. */
  lemma {:induction false} HistoryNewest(db: seq<HealthData>, cache: seq<HealthData>, cutoff: string, requested: Option<int>)
    requires EffectiveLimit(requested) > 0
    ensures var all := SortByTime(MergedHistory(db, cache, cutoff, EffectiveLimit(requested)));
            var r := HistoryData(db, cache, cutoff, requested);
            && |r| == (if EffectiveLimit(requested) < |all| then EffectiveLimit(requested) else |all|)
            && r == all[|all| - |r|..]
  {
  }

  /** A negative limit is passed on to SQL, where it places no bound, and
      then `all_data[-limit:]` drops the -limit OLDEST entries instead of
      keeping the newest. */
  lemma {:induction false} HistoryNegativeLimit(db: seq<HealthData>, cache: seq<HealthData>, cutoff: string, n: int)
    requires n < 0
    ensures var all := SortByTime(MergedHistory(db, cache, cutoff, n));
            HistoryData(db, cache, cutoff, Some(n)) == if -n <= |all| then all[-n..] else []
  {
  }

  /** `limit=0`: the store query returns nothing and `all_data[-0:]` keeps the
      whole list, so the listing is every cached reading since the cutoff,
      sorted. */
  lemma {:induction false} HistoryZeroLimit(db: seq<HealthData>, cache: seq<HealthData>, cutoff: string)
    ensures HistoryData(db, cache, cutoff, Some(0)) == SortByTime(Filter(cache, Store.Since(cutoff)))
  {
    assert EffectiveLimit(Some(0)) == 0;
    var stored := Store.ReadingsSince(db, cutoff, 0);
    assert |stored| == 0;
    var fromCache := Filter(cache, Store.Since(cutoff));
    FilterKeepsAll(fromCache, NotAmong(stored));
    assert MergedHistory(db, cache, cutoff, 0) == fromCache;
    var all := SortByTime(fromCache);
    assert SliceFrom(all, 0) == all;
  }

  /** A cached reading joins the listing only if the store's answer has no
      reading with its id. */
  lemma {:induction false} HistoryNoStoreDuplicates(db: seq<HealthData>, cache: seq<HealthData>, cutoff: string, limit: int)
    ensures var stored := Store.ReadingsSince(db, cutoff, limit);
            var merged := MergedHistory(db, cache, cutoff, limit);
            && merged[..|stored|] == stored
            && forall i :: |stored| <= i < |merged| ==> merged[i] in cache && !HasReadingId(stored, merged[i].id)
  {
    var stored := Store.ReadingsSince(db, cutoff, limit);
    var merged := MergedHistory(db, cache, cutoff, limit);
    var fromCache := Filter(cache, Store.Since(cutoff));
    var added := Filter(fromCache, NotAmong(stored));
    FilterMembers(cache, Store.Since(cutoff));
    FilterMembers(fromCache, NotAmong(stored));
    forall i | |stored| <= i < |merged|
      ensures merged[i] in cache && !HasReadingId(stored, merged[i].id)
    {
      assert merged[i] == added[i - |stored|];
      assert merged[i] in fromCache;
    }
  }

  // ------------------------------------------------------------------ alerts

  predicate HasAlertId(rows: seq<AlertRecord>, id: string)
  {
    exists i :: 0 <= i < |rows| && rows[i].id == id
  }

  /** The `alerts` list of get_alerts (views.py:373-382): the store's alerts
      with the requested flag, then each cached alert with that flag whose id
      is not yet in the list, in cache order. */
  function MergeAlerts(acc: seq<AlertRecord>, cached: seq<AlertRecord>, flag: bool): seq<AlertRecord>
    decreases |cached|
  {
    if cached == [] then acc
    else
      var merged := MergeAlerts(acc, cached[..|cached| - 1], flag);
      var a := cached[|cached| - 1];
      if a.acknowledged == flag && !HasAlertId(merged, a.id) then merged + [a] else merged
  }

  /** The merge keeps every store alert in front, adds only cached alerts with
      the requested flag, never adds an id that is already listed, and misses
      no cached alert with the requested flag. */
  lemma {:induction false} MergeAlertsSpec(acc: seq<AlertRecord>, cached: seq<AlertRecord>, flag: bool)
    ensures var r := MergeAlerts(acc, cached, flag);
            && |acc| <= |r| && r[..|acc|] == acc
            && (forall j :: |acc| <= j < |r| ==> r[j] in cached && r[j].acknowledged == flag)
            && (forall i, j :: 0 <= i < j < |r| && |acc| <= j ==> r[i].id != r[j].id)
            && (forall k :: 0 <= k < |cached| && cached[k].acknowledged == flag ==> HasAlertId(r, cached[k].id))
    decreases |cached|
  {
    if cached != [] {
      var front := cached[..|cached| - 1];
      var a := cached[|cached| - 1];
      MergeAlertsSpec(acc, front, flag);
      var merged := MergeAlerts(acc, front, flag);
      var r := MergeAlerts(acc, cached, flag);
      assert forall k :: 0 <= k < |front| ==> front[k] == cached[k];
      if a.acknowledged == flag && !HasAlertId(merged, a.id) {
        assert r == merged + [a];
        assert r[..|acc|] == merged[..|acc|];
        forall k | 0 <= k < |cached| && cached[k].acknowledged == flag
          ensures HasAlertId(r, cached[k].id)
        {
          if k < |front| {
            var i :| 0 <= i < |merged| && merged[i].id == cached[k].id;
            assert r[i] == merged[i];
          } else {
            assert r[|merged|].id == cached[k].id;
          }
        }
      } else {
        assert r == merged;
        forall k | 0 <= k < |cached| && cached[k].acknowledged == flag
          ensures HasAlertId(r, cached[k].id)
        {
          if k < |front| {
            assert front[k] == cached[k];
          }
        }
      }
    }
  }

  /** Every alert in the listing carries the requested flag when the store's
      part does. */
  lemma {:induction false} MergeAlertsFlag(rows: seq<AlertRecord>, cached: seq<AlertRecord>, flag: bool)
    ensures var r := MergeAlerts(Store.AlertsWithFlag(rows, flag), cached, flag);
            forall i :: 0 <= i < |r| ==> r[i].acknowledged == flag
  {
    var acc := Store.AlertsWithFlag(rows, flag);
    MergeAlertsSpec(acc, cached, flag);
    var r := MergeAlerts(acc, cached, flag);
    forall i | 0 <= i < |r|
      ensures r[i].acknowledged == flag
    {
      if i < |acc| {
        assert r[i] == acc[i];
      }
    }
  }
}
