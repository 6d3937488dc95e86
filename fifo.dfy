/**
 * The transitional caches of views.py are plain lists that are appended to and
 * trimmed with one pop(0) as soon as they exceed their cap. This module states
 * that step as a function (Push), gives an independent reference for what a
 * capped list should hold (Window: the newest `cap` entries of everything
 * appended so far), and proves the two agree.
 */
module Fifo {
  import opened Lists

  /** The last `cap` elements of `t`, or all of `t` when it is shorter. */
  function Window<T>(t: seq<T>, cap: nat): seq<T>
  {
    if |t| <= cap then t else t[|t| - cap..]
  }

  /** One cache append: append `x`, then drop the head once if the list has
      grown beyond `cap` (views.py:148-150, 174-176, 191-193). */
  function Push<T>(s: seq<T>, x: T, cap: nat): (r: seq<T>)
    ensures |s| <= cap ==> |r| <= cap
    ensures cap > 0 ==> |r| > 0 && r[|r| - 1] == x
  {
    var t := s + [x];
    if |t| > cap then t[1..] else t
  }

  /** A run of appends in order: the alert loop of one ingestion
      (views.py:180-193). Views.Server.RaiseAlerts is proved to leave the
      alert cache equal to Window(old + new, cap), which PushAllIsWindow shows
      is what this run of appends yields. */
  function PushAll<T>(s: seq<T>, xs: seq<T>, cap: nat): seq<T>
    decreases |xs|
  {
    if xs == [] then s else PushAll(Push(s, xs[0], cap), xs[1..], cap)
  }

  /** A list within its cap: one append either keeps everything (room left)
      or drops exactly the oldest entry, keeping the rest in order. */
  lemma PushWithinCap<T>(s: seq<T>, x: T, cap: nat)
    requires |s| <= cap
    ensures |s| < cap ==> Push(s, x, cap) == s + [x]
    ensures |s| == cap && cap > 0 ==> Push(s, x, cap) == s[1..] + [x]
    ensures Push(s, x, cap) == Window(s + [x], cap)
  {
  }

  /** Trimming before or after an append gives the same window. */
  lemma {:induction false} WindowAppend<T>(t: seq<T>, x: T, cap: nat)
    ensures Window(Window(t, cap) + [x], cap) == Window(t + [x], cap)
  {
    if |t| > cap {
      var w := t[|t| - cap..];
      assert Window(t, cap) == w;
      if cap == 0 {
        assert Window(w + [x], cap) == [];
      } else {
        assert (w + [x])[1..] == (t + [x])[|t| + 1 - cap..];
      }
    }
  }

  /** An append to a capped list that holds the window of a history holds
      the window of the history with the new entry. */
  lemma PushOntoWindow<T>(t: seq<T>, x: T, cap: nat)
    ensures Push(Window(t, cap), x, cap) == Window(t + [x], cap)
  {
    PushWithinCap(Window(t, cap), x, cap);
    WindowAppend(t, x, cap);
  }

  /** A capped list fed with appends holds exactly the newest `cap` entries of
      everything appended to it, oldest first. */
  lemma {:induction false} PushAllIsWindow<T>(s: seq<T>, xs: seq<T>, cap: nat)
    requires |s| <= cap
    ensures PushAll(s, xs, cap) == Window(s + xs, cap)
    decreases |xs|
  {
    if xs == [] {
      assert s + xs == s;
    } else {
      var x, rest := xs[0], xs[1..];
      var s' := Push(s, x, cap);
      PushWithinCap(s, x, cap);
      PushAllIsWindow(s', rest, cap);
      WindowOfWindow(s + [x], rest, cap);
      assert s + [x] + rest == s + xs;
    }
  }

  /** Trimming in the middle of a run of appends does not change the final window. */
  lemma {:induction false} WindowOfWindow<T>(t: seq<T>, ys: seq<T>, cap: nat)
    ensures Window(Window(t, cap) + ys, cap) == Window(t + ys, cap)
    decreases |ys|
  {
    if ys == [] {
      assert Window(t, cap) + ys == Window(t, cap);
      assert t + ys == t;
    } else {
      var n := |ys| - 1;
      var front, last := ys[..n], ys[n];
      assert ys == front + [last];
      WindowOfWindow(t, front, cap);
      WindowAppend(Window(t, cap) + front, last, cap);
      WindowAppend(t + front, last, cap);
      assert Window(t, cap) + ys == (Window(t, cap) + front) + [last];
      assert t + ys == (t + front) + [last];
    }
  }

  /** The capped list never exceeds its cap, and on overflow it is the most
      recent appends that survive. */
  lemma PushAllBounded<T>(s: seq<T>, xs: seq<T>, cap: nat)
    requires |s| <= cap
    ensures |PushAll(s, xs, cap)| == if |s| + |xs| <= cap then |s| + |xs| else cap
    ensures |xs| <= cap ==> PushAll(s, xs, cap)[|PushAll(s, xs, cap)| - |xs|..] == xs
    ensures |xs| > cap ==> PushAll(s, xs, cap) == xs[|xs| - cap..]
  {
    PushAllIsWindow(s, xs, cap);
    var t := s + xs;
    var w := PushAll(s, xs, cap);
    if |xs| <= cap {
      assert w[|w| - |xs|..] == t[|t| - |xs|..];
      assert t[|t| - |xs|..] == xs;
    } else {
      assert t[|t| - cap..] == xs[|xs| - cap..];
    }
  }

  /** If a capped window is filtered by a test that none of the earlier
      entries and all of the appended ones pass, what remains is the window of
      the appended entries alone: the newest of them that still fit. */
  lemma FilterWindow<T>(before: seq<T>, added: seq<T>, cap: nat, p: T -> bool)
    requires |before| <= cap
    requires forall i :: 0 <= i < |before| ==> !p(before[i])
    requires forall i :: 0 <= i < |added| ==> p(added[i])
    ensures Filter(Window(before + added, cap), p) == Window(added, cap)
  {
    var t := before + added;
    if |added| >= cap {
      var w := added[|added| - cap..];
      SliceOfAppend(before, added, |t| - cap);
      assert Window(t, cap) == w;
      FilterKeepsAll(w, p);
    } else {
      var older := before[|t| - |Window(t, cap)|..];
      SliceOfAppend(before, added, |t| - |Window(t, cap)|);
      assert Window(t, cap) == older + added;
      FilterAppend(older, added, p);
      FilterDropsAll(older, p);
      FilterKeepsAll(added, p);
    }
  }
}
