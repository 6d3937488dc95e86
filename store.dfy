/**
 * The durable store that views.py reaches through `db.session` and the
 * `.query` attribute of the model classes. Its backend is not part of this
 * model: a table is a sequence of rows in insertion order, and each query the
 * handlers use is a function over it. Where SQL leaves the order of equal keys
 * open, insertion order decides.
 */
module Store {
  import opened Timestamps
  import opened Models
  import opened Lists
  import opened Sorting

  /** `HealthData.query.order_by(HealthData.timestamp.desc()).first()`:
      a row with the greatest timestamp (the earliest such row on ties). */
  function LatestReading(rows: seq<HealthData>): (r: Option<HealthData>)
    ensures r.None? <==> rows == []
    ensures r.Some? ==> r.value in rows
    ensures r.Some? ==> forall i :: 0 <= i < |rows| ==> Le(rows[i].timestamp, r.value.timestamp)
    decreases |rows|
  {
    if rows == [] then None
    else
      var rest := LatestReading(rows[1..]);
      if rest.None? then
        LeReflexive(rows[0].timestamp);
        Some(rows[0])
      else if Le(rest.value.timestamp, rows[0].timestamp) then
        LeReflexive(rows[0].timestamp);
        assert forall i :: 1 <= i < |rows| ==> Le(rows[i].timestamp, rest.value.timestamp) by {
          forall i | 1 <= i < |rows| ensures Le(rows[i].timestamp, rest.value.timestamp) {
            assert rows[i] == rows[1..][i - 1];
          }
        }
        assert forall i :: 1 <= i < |rows| ==> Le(rows[i].timestamp, rows[0].timestamp) by {
          forall i | 1 <= i < |rows| ensures Le(rows[i].timestamp, rows[0].timestamp) {
            LeTransitive(rows[i].timestamp, rest.value.timestamp, rows[0].timestamp);
          }
        }
        Some(rows[0])
      else
        NotLeIsGreater(rest.value.timestamp, rows[0].timestamp);
        assert forall i :: 1 <= i < |rows| ==> Le(rows[i].timestamp, rest.value.timestamp) by {
          forall i | 1 <= i < |rows| ensures Le(rows[i].timestamp, rest.value.timestamp) {
            assert rows[i] == rows[1..][i - 1];
          }
        }
        rest
  }

  /** `Alert.query.get(alert_id)`: the position of the row with that
      identifier, or None. */
  function FindAlert(rows: seq<AlertRecord>, id: string): (r: Option<nat>)
    ensures r.None? <==> forall i :: 0 <= i < |rows| ==> rows[i].id != id
    ensures r.Some? ==> r.value < |rows| && rows[r.value].id == id
    ensures r.Some? ==> forall j :: 0 <= j < r.value ==> rows[j].id != id
    decreases |rows|
  {
    if rows == [] then None
    else
      var front := rows[..|rows| - 1];
      var found := FindAlert(front, id);
      if found.Some? then Some(found.value)
      else if rows[|rows| - 1].id == id then Some(|rows| - 1)
      else None
  }

  /** The lookup depends on the rows' identifiers only. */
  lemma FindAlertIgnoresFlags(rows: seq<AlertRecord>, rows': seq<AlertRecord>, id: string)
    requires |rows| == |rows'|
    requires forall i :: 0 <= i < |rows| ==> rows[i].id == rows'[i].id
    ensures FindAlert(rows, id) == FindAlert(rows', id)
  {
  }

  /** The rows after `alert.acknowledged = True` on the row that
      `Alert.query.get(id)` finds (views.py:332-334); no change when there is
      none. */
  function MarkAcknowledged(rows: seq<AlertRecord>, id: string): (r: seq<AlertRecord>)
    ensures |r| == |rows|
    ensures forall i :: 0 <= i < |rows| ==> r[i].id == rows[i].id
  {
    match FindAlert(rows, id)
    case None => rows
    case Some(k) => rows[k := rows[k].(acknowledged := true)]
  }

  /** Only the found row changes, and only in its flag, which is then set. */
  lemma MarkAcknowledgedEffect(rows: seq<AlertRecord>, id: string)
    ensures FindAlert(rows, id).None? ==> MarkAcknowledged(rows, id) == rows
    ensures FindAlert(rows, id).Some? ==>
              var k := FindAlert(rows, id).value;
              && MarkAcknowledged(rows, id)[k] == rows[k].(acknowledged := true)
              && forall i :: 0 <= i < |rows| && i != k ==> MarkAcknowledged(rows, id)[i] == rows[i]
  {
  }

  /** Acknowledging an alert a second time changes nothing. */
  lemma MarkAcknowledgedIdempotent(rows: seq<AlertRecord>, id: string)
    ensures MarkAcknowledged(MarkAcknowledged(rows, id), id) == MarkAcknowledged(rows, id)
  {
    var once := MarkAcknowledged(rows, id);
    FindAlertIgnoresFlags(rows, once, id);
  }

  /** SQL LIMIT: the first `limit` rows. A negative LIMIT places no bound,
      as in SQLite. */
  function Limit(s: seq<HealthData>, limit: int): (r: seq<HealthData>)
    ensures limit < 0 ==> r == s
    ensures 0 <= limit ==> |r| <= limit
    ensures |r| <= |s| && r == s[..|r|]
  {
    if limit < 0 || |s| <= limit then s else s[..limit]
  }

  /** `timestamp >= cutoff`: the history handler's test, on the store's rows
      and on the cache alike. */
  function Since(cutoff: string): HealthData -> bool
  {
    (h: HealthData) => Le(cutoff, h.timestamp)
  }

  /** `HealthData.query.filter(HealthData.timestamp >= cutoff)
      .order_by(HealthData.timestamp).limit(limit).all()`: the OLDEST `limit`
      readings at or after the cutoff, in ascending order; all of them when
      there are fewer (ReadingsSinceOldest says which are kept). */
  function ReadingsSince(rows: seq<HealthData>, cutoff: string, limit: int): (r: seq<HealthData>)
    ensures SortedByTime(r)
    ensures forall i :: 0 <= i < |r| ==> Le(cutoff, r[i].timestamp) && r[i] in rows
    ensures |r| == if 0 <= limit < |Filter(rows, Since(cutoff))| then limit else |Filter(rows, Since(cutoff))|
  {
    var matching := Filter(rows, Since(cutoff));
    FilterMembers(rows, Since(cutoff));
    var sorted := SortByTime(matching);
    SortByTimeSorted(matching);
    forall i | 0 <= i < |sorted| ensures Le(cutoff, sorted[i].timestamp) && sorted[i] in rows {
      assert sorted[i] in multiset(sorted);
      assert sorted[i] in matching;
    }
    Limit(sorted, limit)
  }

  /** The answer is drawn from the matching rows, and every matching row it
      leaves out is no earlier than any row it returns: it is the oldest
      `limit` of them. */
  lemma {:induction false} ReadingsSinceOldest(rows: seq<HealthData>, cutoff: string, limit: int)
    ensures var r := ReadingsSince(rows, cutoff, limit);
            var m := Filter(rows, Since(cutoff));
            && multiset(r) <= multiset(m)
            && forall x: HealthData :: x in multiset(m) - multiset(r) ==>
                 forall i :: 0 <= i < |r| ==> Le(r[i].timestamp, x.timestamp)
  {
    var m := Filter(rows, Since(cutoff));
    var sorted := SortByTime(m);
    SortByTimeSorted(m);
    var r := ReadingsSince(rows, cutoff, limit);
    assert r == sorted[..|r|];
    PrefixOldest(sorted, |r|);
  }

  /** `Alert.query.filter_by(acknowledged=flag).all()`. */
  function AlertsWithFlag(rows: seq<AlertRecord>, flag: bool): (r: seq<AlertRecord>)
    ensures forall a :: a in r <==> a in rows && a.acknowledged == flag
  {
    FilterMembers(rows, (a: AlertRecord) => a.acknowledged == flag);
    Filter(rows, (a: AlertRecord) => a.acknowledged == flag)
  }

  /** `Alert.query.filter_by(health_data_id=id).all()`. */
  function AlertsOf(rows: seq<AlertRecord>, id: string): (r: seq<AlertRecord>)
    ensures forall a :: a in r <==> a in rows && a.healthDataId == id
  {
    FilterMembers(rows, (a: AlertRecord) => a.healthDataId == id);
    Filter(rows, (a: AlertRecord) => a.healthDataId == id)
  }
}
