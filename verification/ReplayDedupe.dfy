/**
  Replay composed with duplicate suppression. The client may resume at any
  cursor, so entries are re-delivered; the endpoint filters what it reads by
  signal ID. No signal gets through twice in any run exactly when
  2 * (replayDepth - 1) <= max / 2; the queue size plays no part. The client of this
  repository resumes at its own cursor, and then nothing is read twice at all.
 */
module ReplayDedupe {
  import opened Common
  import opened PeerLog
  import opened Replay
  import opened Dedupe
  import Delivery

  /** The numbers of the entries read, in reading order. */
  function Ids(es: seq<Entry>): (ids: seq<int>)
    ensures |ids| == |es| && forall i :: 0 <= i < |es| ==> ids[i] == es[i].id
  {
    seq(|es|, i requires 0 <= i < |es| => es[i].id)
  }

  /** No element lies w or more below an earlier one. */
  predicate Within(xs: seq<int>, w: nat)
  {
    forall i, j :: 0 <= i < j < |xs| ==> xs[i] < xs[j] + w
  }

  /**
    A re-delivered entry is always less than replayDepth behind the newest entry
    ever read, whatever cursors were used to resume and however large the queue.
   */
  lemma RedeliveryWindow(c: Config, ops: seq<Op>)
    ensures Within(Ids(Run(c, ops).received), c.replayDepth)
  {
    RunKeepsBase(c, ops);
  }

  /** A taken entry is among the newest replayDepth + queueSize numbers at the time of the take. */
  lemma TakenIsRecent(c: Config, ops: seq<Op>, att: nat)
    ensures var p := Run(c, ops).peer;
      forall e <- Taken(p, att) :: p.last - (c.replayDepth + c.queueSize) < e.id <= p.last
  {
    RunKeepsBase(c, ops);
    UnsentFromLog(Run(c, ops).peer.log, Run(c, ops).peer.sent);
  }

  // --------------------------------------------- the filter on windowed input

  /** Distinct numbers strictly between lo and hi. */
  lemma {:induction false} IntervalCount(s: seq<int>, lo: int, hi: int)
    requires Distinct(s) && lo < hi && forall y <- s :: lo < y < hi
    ensures |s| <= hi - lo - 1
    decreases hi - lo
  {
    if s != [] {
      assert s[0] in s;
      if hi - 1 in s {
        var i :| 0 <= i < |s| && s[i] == hi - 1;
        var rest := s[..i] + s[i + 1..];
        assert forall y <- rest :: y in s && y != hi - 1;
        IntervalCount(rest, lo, hi - 1);
      } else {
        IntervalCount(s, lo, hi - 1);
      }
    }
  }

  /** Few numbers can be accepted after one that is within the window of all of them. */
  lemma FewLater(acc: seq<int>, w: nat, p: nat)
    requires w >= 1 && Distinct(acc) && Within(acc, w) && p < |acc|
    requires forall i :: 0 <= i < |acc| ==> acc[i] < acc[p] + w
    ensures |acc| - 1 - p <= 2 * (w - 1)
  {
    var x := acc[p];
    var later := acc[p + 1..] + [x];
    assert forall i :: 0 <= i < |later| - 1 ==> later[i] == acc[p + 1 + i];
    IntervalCount(later, x - w, x + w);
  }

  /** With the window small enough, a number accepted before is still recalled. */
  lemma StillRecalled(xs: seq<int>, w: nat, max: nat, x: int)
    requires max >= 2 && w >= 1 && 2 * (w - 1) <= max / 2
    requires Distinct(Accepted(xs, max)) && Within(Accepted(xs, max), w) && x in Accepted(xs, max)
    requires forall y <- xs :: y < x + w
    ensures x in Remembered(xs, max)
  {
    RefinesSeenSet(xs, max);
    var acc := Accepted(xs, max);
    var p :| 0 <= p < |acc| && acc[p] == x;
    assert forall i :: 0 <= i < |acc| ==> acc[i] in acc;
    FewLater(acc, w, p);
    Recalls(xs, max, p);
  }

  /** Accepted numbers keep the reading window, and are distinct when the cache is large enough. */
  lemma {:induction false} FilterOnce(xs: seq<int>, w: nat, max: nat)
    requires max >= 2 && w >= 1 && Within(xs, w) && 2 * (w - 1) <= max / 2
    ensures Distinct(Accepted(xs, max)) && Within(Accepted(xs, max), w)
  {
    if xs != [] {
      var front, x := DropLast(xs), Last(xs);
      FilterOnce(front, w, max);
      RefinesSeenSet(front, max);
      var acc := Accepted(front, max);
      assert forall y <- front :: y < x + w;
      if x in acc {
        StillRecalled(front, w, max, x);
      } else {
        SnocOnce(acc, x, w);
        assert Accepted(xs, max) == acc || Accepted(xs, max) == acc + [x];
      }
    }
  }

  lemma SnocOnce(acc: seq<int>, x: int, w: nat)
    requires Distinct(acc) && Within(acc, w) && x !in acc && forall y <- acc :: y < x + w
    ensures Distinct(acc + [x]) && Within(acc + [x], w)
  {
    assert forall i :: 0 <= i < |acc| ==> acc[i] in acc;
  }

  // --------------------------------------------------------- signal identities

  predicate InRange(es: seq<int>, n: nat)
  {
    forall i :: 0 <= i < |es| ==> 1 <= es[i] <= n
  }

  /** The IDs the endpoint sees: entry k carries the signal whose ID is names[k-1]. */
  function Named(es: seq<int>, names: seq<string>): (r: seq<string>)
    requires InRange(es, |names|)
    ensures |r| == |es| && forall i :: 0 <= i < |es| ==> r[i] == names[es[i] - 1]
  {
    seq(|es|, i requires 0 <= i < |es| => names[es[i] - 1])
  }

  lemma NameMember(w: seq<int>, x: int, names: seq<string>)
    requires Distinct(names) && 1 <= x <= |names| && InRange(w, |names|)
    ensures names[x - 1] in Named(w, names) <==> x in w
  {
    if x in w {
      var i :| 0 <= i < |w| && w[i] == x;
      assert Named(w, names)[i] == names[x - 1];
    }
    if names[x - 1] in Named(w, names) {
      var i :| 0 <= i < |w| && Named(w, names)[i] == names[x - 1];
      assert names[w[i] - 1] == names[x - 1];
    }
  }

  lemma RememberNamed(w: seq<int>, x: int, names: seq<string>, max: nat)
    requires Distinct(names) && 1 <= x <= |names| && InRange(w, |names|) && max >= 2
    ensures InRange(Remember(w, max, x), |names|)
    ensures Remember(Named(w, names), max, names[x - 1]) == Named(Remember(w, max, x), names)
  {
    NameMember(w, x, names);
    if x !in w { RememberFresh(w, x, names, max); }
  }

  lemma RememberFresh(w: seq<int>, x: int, names: seq<string>, max: nat)
    requires 1 <= x <= |names| && InRange(w, |names|) && max >= 2
    requires x !in w && names[x - 1] !in Named(w, names)
    ensures InRange(Remember(w, max, x), |names|)
    ensures Remember(Named(w, names), max, names[x - 1]) == Named(Remember(w, max, x), names)
  {
    KeptNamed(w, max, names);
    NamedAppend(if |w| >= max then w[|w| - max / 2..] else w, x, names);
  }

  lemma KeptNamed(w: seq<int>, max: nat, names: seq<string>)
    requires InRange(w, |names|) && max >= 2
    ensures var kept := if |w| >= max then w[|w| - max / 2..] else w;
            var named := Named(w, names);
      InRange(kept, |names|) && Named(kept, names) == if |named| >= max then named[|named| - max / 2..] else named
  {
    if |w| >= max { NamedDrop(w, |w| - max / 2, names); }
  }

  lemma NamedDrop(w: seq<int>, k: nat, names: seq<string>)
    requires InRange(w, |names|) && k <= |w|
    ensures InRange(w[k..], |names|) && Named(w[k..], names) == Named(w, names)[k..]
  {
  }

  lemma NamedAppend(w: seq<int>, x: int, names: seq<string>)
    requires InRange(w, |names|) && 1 <= x <= |names|
    ensures InRange(w + [x], |names|) && Named(w + [x], names) == Named(w, names) + [names[x - 1]]
  {
  }

  /** The filter remembers and accepts the names of what it remembers and accepts by number. */
  predicate Alike(xs: seq<int>, names: seq<string>, max: nat)
    requires InRange(xs, |names|)
  {
    && InRange(Remembered(xs, max), |names|) && InRange(Accepted(xs, max), |names|)
    && Remembered(Named(xs, names), max) == Named(Remembered(xs, max), names)
    && Accepted(Named(xs, names), max) == Named(Accepted(xs, max), names)
  }

  /** Filtering by distinct names is filtering by number. */
  lemma {:induction false} NamesFilterAlike(xs: seq<int>, names: seq<string>, max: nat)
    requires Distinct(names) && max >= 2 && InRange(xs, |names|)
    ensures Alike(xs, names, max)
  {
    if xs != [] {
      var front, x := DropLast(xs), Last(xs);
      NamesFilterAlike(front, names, max);
      assert xs == front + [x];
      AlikeNext(front, x, names, max);
    }
  }

  lemma AlikeNext(front: seq<int>, x: int, names: seq<string>, max: nat)
    requires Distinct(names) && max >= 2 && InRange(front, |names|) && 1 <= x <= |names|
    requires Alike(front, names, max)
    ensures InRange(front + [x], |names|) && Alike(front + [x], names, max)
  {
    var w, acc, name := Remembered(front, max), Accepted(front, max), names[x - 1];
    NamedAppend(front, x, names);
    FilterNext(Named(front, names), name, max);
    FilterNext(front, x, max);
    RememberNamed(w, x, names, max);
    assert name in Named(w, names) <==> x in w by { NameMember(w, x, names); }
    NamedAppend(acc, x, names);
  }

  lemma NamedDistinct(xs: seq<int>, names: seq<string>)
    requires Distinct(names) && InRange(xs, |names|)
    ensures Distinct(Named(xs, names)) <==> Distinct(xs)
  {
    if Distinct(Named(xs, names)) {
      forall i, j | 0 <= i < j < |xs| ensures xs[i] != xs[j] {
        assert Named(xs, names)[i] != Named(xs, names)[j];
      }
    }
  }

  /** The signal IDs read along a run, in reading order. */
  function SignalIDs(c: Config, ops: seq<Op>, names: seq<string>): seq<string>
    requires |names| == Run(c, ops).peer.last
  {
    RunKeepsBase(c, ops);
    Named(Ids(Run(c, ops).received), names)
  }

  /** In every run, over signals with distinct IDs, no signal passes the filter twice. */
  ghost predicate NeverTwice(c: Config, max: nat)
  {
    forall ops, names: seq<string> | |names| == Run(c, ops).peer.last && Distinct(names) ::
      Distinct(Accepted(SignalIDs(c, ops, names), max))
  }

  lemma FilteredByNumber(c: Config, max: nat, ops: seq<Op>, names: seq<string>)
    requires max >= 2 && |names| == Run(c, ops).peer.last && Distinct(names)
    ensures Distinct(Accepted(SignalIDs(c, ops, names), max))
       <==> Distinct(Accepted(Ids(Run(c, ops).received), max))
  {
    var xs := Ids(Run(c, ops).received);
    RunKeepsBase(c, ops);
    NamesFilterAlike(xs, names, max);
    NamedDistinct(Accepted(xs, max), names);
  }

  lemma NoSignalTwice(c: Config, max: nat, ops: seq<Op>, names: seq<string>)
    requires max >= 2 && 2 * (c.replayDepth - 1) <= max / 2
    requires |names| == Run(c, ops).peer.last && Distinct(names)
    ensures Distinct(Accepted(SignalIDs(c, ops, names), max))
  {
    RedeliveryWindow(c, ops);
    FilterOnce(Ids(Run(c, ops).received), c.replayDepth, max);
    FilteredByNumber(c, max, ops, names);
  }

  // -------------------------------------------------- the client's own cursor

  /**
    A client that resumes at its own cursor reads no entry twice, so the filter, of
    any size, lets everything through.
   */
  lemma OwnCursorReadsOnce(c: Config, ops: seq<Op>, max: nat)
    requires Delivery.OwnCursor(ops) && max >= 2
    ensures var ids := Ids(Run(c, ops).received); Distinct(ids) && Accepted(ids, max) == ids
  {
    Delivery.AtLeastOnce(c, ops);
    DistinctRun(Ids(Run(c, ops).received), max);
  }
}
