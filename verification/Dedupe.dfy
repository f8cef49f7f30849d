/**
  The sliding-window duplicate filter. The cache is specified by the list of
  remembered IDs, oldest first; a run of calls is the list of IDs presented.
 */
module Dedupe {
  import opened Common

  /** The older part is dropped when the cache is full, the newest max/2 stay. */
  function Remember<T(==)>(w: seq<T>, max: nat, id: T): seq<T>
  {
    if id in w then w
    else (if |w| >= max && max >= 2 then w[|w| - max / 2..] else w) + [id]
  }

  /** What the cache remembers after the IDs have been presented in order. */
  function Remembered<T(==)>(ids: seq<T>, max: nat): seq<T>
  {
    if ids == [] then [] else Remember(Remembered(DropLast(ids), max), max, Last(ids))
  }

  /** Every ID that was reported as new, in order: what the endpoint goes on to process. */
  function Accepted<T(==)>(ids: seq<T>, max: nat): seq<T>
  {
    if ids == [] then []
    else
      var front := DropLast(ids);
      if Last(ids) in Remembered(front, max) then Accepted(front, max) else Accepted(front, max) + [Last(ids)]
  }

  predicate Distinct<T(==)>(s: seq<T>)
  {
    forall i, j :: 0 <= i < j < |s| ==> s[i] != s[j]
  }

  /** The list s ends with the list t. */
  predicate EndsWith<T(==)>(s: seq<T>, t: seq<T>)
  {
    |t| <= |s| && s[|s| - |t|..] == t
  }

  /**
    The cache refines an unbounded set of seen IDs. It remembers a contiguous run
    of the newest accepted IDs, without repetition and never more than max; that
    run covers at least the last max/2 + 1 of them; and every ID it would report
    as seen was presented before.
   */
  lemma {:induction false} RefinesSeenSet<T>(ids: seq<T>, max: nat)
    requires max >= 2
    ensures var w, acc := Remembered(ids, max), Accepted(ids, max);
      && EndsWith(acc, w)
      && Distinct(w)
      && |w| <= max
      && (|w| == |acc| || |w| >= max / 2 + 1)
    ensures forall id <- Accepted(ids, max) :: id in ids
    ensures forall id <- Remembered(ids, max) :: id in ids
  {
    if ids != [] {
      RefinesSeenSet(DropLast(ids), max);
      var w, acc, id := Remembered(DropLast(ids), max), Accepted(DropLast(ids), max), Last(ids);
      assert Remembered(ids, max) == Remember(w, max, id);
      if id !in w {
        RememberNew(acc, w, max, id);
        assert Accepted(ids, max) == acc + [id];
      }
      assert forall x <- DropLast(ids) :: x in ids;
    }
  }

  lemma RememberNew<T>(acc: seq<T>, w: seq<T>, max: nat, id: T)
    requires max >= 2 && EndsWith(acc, w) && Distinct(w) && |w| <= max && id !in w
    ensures var w' := Remember(w, max, id);
      && EndsWith(acc + [id], w')
      && Distinct(w')
      && |w'| <= max
      && (|w'| == |w| + 1 || |w'| == max / 2 + 1)
      && (forall x <- w' :: x in w || x == id)
  {
    var kept := if |w| >= max then w[|w| - max / 2..] else w;
    assert acc[|acc| - |kept|..] == kept;
    SuffixSnoc(acc, kept, id);
  }

  lemma SuffixSnoc<T>(s: seq<T>, t: seq<T>, x: T)
    requires EndsWith(s, t)
    ensures EndsWith(s + [x], t + [x])
  {
    var k := |s| - |t|;
    assert s == s[..k] + t;
    assert s + [x] == s[..k] + (t + [x]);
  }

  /** An ID is recalled as long as at most max/2 others were accepted after it. */
  lemma Recalls<T>(ids: seq<T>, max: nat, p: nat)
    requires max >= 2 && p < |Accepted(ids, max)|
    requires |Accepted(ids, max)| - 1 - p <= max / 2
    ensures Accepted(ids, max)[p] in Remembered(ids, max)
  {
    RefinesSeenSet(ids, max);
    InSuffix(Accepted(ids, max), Remembered(ids, max), p);
  }

  lemma InSuffix<T>(acc: seq<T>, w: seq<T>, p: nat)
    requires EndsWith(acc, w) && |acc| - |w| <= p < |acc|
    ensures acc[p] in w
  {
    assert acc[|acc| - |w|..][p - (|acc| - |w|)] == acc[p];
  }

  /** Distinct IDs are all accepted; once more than max were, the oldest are forgotten. */
  lemma {:induction false} DistinctRun<T>(ids: seq<T>, max: nat)
    requires max >= 2 && Distinct(ids)
    ensures Accepted(ids, max) == ids
    ensures DistinctWindow(ids, Remembered(ids, max), max)
  {
    if ids != [] {
      var front, id := DropLast(ids), Last(ids);
      assert ids == front + [id];
      DistinctRun(front, max);
      DistinctNext(front, max, id);
    }
  }

  lemma DistinctNext<T>(front: seq<T>, max: nat, id: T)
    requires max >= 2 && Distinct(front + [id])
    requires Accepted(front, max) == front && DistinctWindow(front, Remembered(front, max), max)
    ensures Accepted(front + [id], max) == front + [id]
    ensures DistinctWindow(front + [id], Remembered(front + [id], max), max)
  {
    assert (front + [id])[|front|] == id;
    assert forall i :: 0 <= i < |front| ==> front[i] == (front + [id])[i];
    NotRemembered(front, max, id);
    FilterNext(front, id, max);
    DistinctStep(front, Remembered(front, max), max, id);
  }

  lemma NotRemembered<T>(ids: seq<T>, max: nat, id: T)
    requires max >= 2 && forall i :: 0 <= i < |ids| ==> ids[i] != id
    ensures id !in Remembered(ids, max)
  {
    RefinesSeenSet(ids, max);
  }

  /** What is remembered of distinct IDs: all of them, or not the oldest half. */
  predicate DistinctWindow<T(==)>(ids: seq<T>, w: seq<T>, max: nat)
    requires max >= 2
  {
    && (|ids| <= max ==> w == ids)
    && (|ids| > max ==> forall id <- ids[..max - max / 2] :: id !in w)
  }

  lemma DistinctStep<T>(front: seq<T>, w: seq<T>, max: nat, id: T)
    requires max >= 2 && Distinct(front + [id]) && id !in w && DistinctWindow(front, w, max)
    ensures DistinctWindow(front + [id], Remember(w, max, id), max)
  {
    if |front| >= max {
      assert Distinct(front) && id !in front by {
        assert forall i :: 0 <= i < |front| ==> (front + [id])[i] == front[i];
        assert (front + [id])[|front|] == id;
      }
      ForgetOldest(front, w, max, id);
    }
  }

  lemma ForgetOldest<T>(front: seq<T>, w: seq<T>, max: nat, id: T)
    requires max >= 2 && |front| >= max && Distinct(front) && id !in front && id !in w
    requires |front| == max ==> w == front
    requires |front| > max ==> forall x <- front[..max - max / 2] :: x !in w
    ensures forall x <- (front + [id])[..max - max / 2] :: x !in Remember(w, max, id)
  {
    assert (front + [id])[..max - max / 2] == front[..max - max / 2];
    HalvesApart(front, max - max / 2);
    var kept := if |w| >= max then w[|w| - max / 2..] else w;
    assert forall x <- kept :: x in w;
    forall x | x in front[..max - max / 2] ensures x !in kept + [id] {
      assert x in front;
    }
  }

  lemma HalvesApart<T>(s: seq<T>, n: nat)
    requires Distinct(s) && n <= |s|
    ensures forall x <- s[..n] :: x !in s[n..]
  {
    forall x | x in s[..n] ensures x !in s[n..] {
      var i :| 0 <= i < n && s[i] == x;
      assert forall j :: n <= j < |s| ==> s[j] != s[i];
    }
  }

  /** One more call of the filter. */
  lemma FilterNext<T>(ids: seq<T>, id: T, max: nat)
    ensures Remembered(ids + [id], max) == Remember(Remembered(ids, max), max, id)
    ensures Accepted(ids + [id], max)
         == if id in Remembered(ids, max) then Accepted(ids, max) else Accepted(ids, max) + [id]
  {
    assert DropLast(ids + [id]) == ids;
  }

  /** One of the oldest of more than max distinct IDs is accepted again when repeated. */
  lemma AcceptedTwice<T>(ids: seq<T>, max: nat, i: nat)
    requires max >= 2 && Distinct(ids) && |ids| > max && i < max - max / 2
    ensures Accepted(ids + [ids[i]], max) == ids + [ids[i]]
    ensures !Distinct(Accepted(ids + [ids[i]], max))
  {
    DistinctRun(ids, max);
    assert ids[..max - max / 2][i] == ids[i];
    FilterNext(ids, ids[i], max);
    assert (ids + [ids[i]])[i] == (ids + [ids[i]])[|ids|];
  }

  function UpTo(n: nat): (s: seq<nat>)
    ensures |s| == n && Distinct(s)
  {
    seq(n, i requires 0 <= i < n => i)
  }

  /** Whether an ID with m others accepted after it is recalled in every history. */
  ghost predicate AlwaysRecalled(max: nat, m: nat)
  {
    forall ids: seq<nat>, p: nat ::
      (p < |Accepted(ids, max)| && |Accepted(ids, max)| - 1 - p == m)
      ==> Accepted(ids, max)[p] in Remembered(ids, max)
  }

  /** The exact recall window of a cache of size max is max/2, not max. */
  lemma RecallWindow(max: nat, m: nat)
    requires max >= 2
    ensures AlwaysRecalled(max, m) <==> m <= max / 2
  {
    if m <= max / 2 {
      forall ids: seq<nat>, p: nat | p < |Accepted(ids, max)| && |Accepted(ids, max)| - 1 - p == m
        ensures Accepted(ids, max)[p] in Remembered(ids, max)
      {
        Recalls(ids, max, p);
      }
    } else {
      var v: nat := max - max / 2 - 1;
      var ids := UpTo(v + 1 + m);
      DistinctRun(ids, max);
      assert ids[v] in ids[..max - max / 2];
      assert Accepted(ids, max)[v] !in Remembered(ids, max);
    }
  }

  /** The protocol guide's "repeats of the last 4096 IDs are dropped" is not what the cache does. */
  lemma GuideWindowIsTooLarge()
    ensures !AlwaysRecalled(4096, 4095)
    ensures AlwaysRecalled(4096, 2048)
  {
    RecallWindow(4096, 4095);
    RecallWindow(4096, 2048);
  }

  // ------------------------------------------------------------ implementation

  /** The cache itself: IDs mapped to the value of a counter at the time they were recorded. */
  class DedupeCache {
    const max: nat
    var seen: map<string, nat>
    var next: nat
    ghost var remembered: seq<string>

    ghost predicate Valid()
      reads this
    {
      && max >= 2
      && |remembered| <= max
      && |remembered| <= next
      && Numbered(seen, remembered, next)
    }

    constructor (size: int)
      ensures Valid()
      ensures remembered == [] && max == if size < 2 then 2 else size
    {
      max := if size < 2 then 2 else size;
      seen, next, remembered := map[], 0, [];
    }

    method SeenBefore(id: string) returns (dup: bool)
      requires Valid()
      modifies this
      ensures Valid()
      ensures dup <==> id in old(remembered)
      ensures remembered == Remember(old(remembered), max, id)
    {
      SameKeys(seen, remembered, next);
      if id in seen {
        return true;
      }
      NumberedSize(seen, remembered, next);
      if |seen| >= max {
        EvictOldestHalf();
        SameKeys(seen, remembered, next);
      }
      Record(id);
      dup := false;
    }

    method Record(id: string)
      requires Valid() && id !in seen && |remembered| < max
      modifies this
      ensures Valid() && remembered == old(remembered) + [id]
    {
      seen := seen[id := next];
      next := next + 1;
      remembered := remembered + [id];
    }

    method EvictOldestHalf()
      requires Valid() && |remembered| >= max / 2
      modifies this`seen, this`remembered
      ensures Valid()
      ensures remembered == old(remembered)[|old(remembered)| - max / 2..]
    {
      ghost var all := seen;
      ghost var half := remembered[|remembered| - max / 2..];
      var cutoff: nat := next - max / 2;
      DropBelow(cutoff);
      assert Numbered(seen, half, next) by { NewerHalf(all, seen, remembered, next, max / 2); }
      remembered := half;
    }

    /** Go over the map, in any order, and delete every ID recorded before the cutoff. */
    method DropBelow(cutoff: nat)
      modifies this`seen
      ensures KeptFrom(old(seen), seen, cutoff)
    {
      ghost var all := seen;
      var todo := seen.Keys;
      while todo != {}
        invariant todo <= all.Keys
        invariant forall id <- seen :: id in all && seen[id] == all[id] && (id in todo || all[id] >= cutoff)
        invariant forall id <- all :: id in todo || all[id] >= cutoff ==> id in seen
        decreases todo
      {
        var id :| id in todo;
        if seen[id] < cutoff {
          seen := seen - {id};
        }
        todo := todo - {id};
      }
    }
  }

  /** Keeping the IDs numbered from a cutoff is keeping the newest of the list. */
  lemma NewerHalf(m: map<string, nat>, kept: map<string, nat>, w: seq<string>, next: nat, n: nat)
    requires n <= |w| <= next && Numbered(m, w, next) && KeptFrom(m, kept, next - n)
    ensures Numbered(kept, w[|w| - n..], next)
  {
    var half := w[|w| - n..];
    assert forall i :: 0 <= i < n ==> half[i] == w[|w| - n + i];
  }

  /** kept holds exactly the IDs of m recorded from the cutoff on. */
  ghost predicate KeptFrom(m: map<string, nat>, kept: map<string, nat>, cutoff: nat)
  {
    && (forall id <- kept :: id in m && kept[id] == m[id] && m[id] >= cutoff)
    && (forall id <- m :: m[id] >= cutoff ==> id in kept)
  }

  /** The map holds exactly the listed IDs, numbered consecutively up to next. */
  ghost predicate Numbered(m: map<string, nat>, w: seq<string>, next: nat)
    requires |w| <= next
  {
    && (forall i :: 0 <= i < |w| ==> w[i] in m && m[w[i]] == next - |w| + i)
    && (forall id <- m :: next - |w| <= m[id] < next && w[m[id] - (next - |w|)] == id)
  }

  lemma SameKeys(m: map<string, nat>, w: seq<string>, next: nat)
    requires |w| <= next && Numbered(m, w, next)
    ensures forall id :: id in m <==> id in w
  {
  }

  lemma {:induction false} NumberedSize(m: map<string, nat>, w: seq<string>, next: nat)
    requires |w| <= next && Numbered(m, w, next)
    ensures |m| == |w|
  {
    if w == [] {
      assert m.Keys == {};
    } else {
      var id := Last(w);
      var rest := m - {id};
      assert rest.Keys == m.Keys - {id};
      NumberedSize(rest, DropLast(w), next - 1);
    }
  }
}
