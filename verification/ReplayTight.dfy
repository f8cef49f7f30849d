/**
  The bound of ReplayDedupe is exact: when 2 * (replayDepth - 1) > max / 2 there
  is a run in which one signal passes the filter twice. The run is built here,
  one round at a time, for every replay depth, queue size and cache size.
 */
module ReplayTight {
  import opened Common
  import opened PeerLog
  import opened Replay
  import opened Dedupe
  import opened ReplayDedupe

  /** Entries lo+1 .. hi, all with empty data. */
  function Blank(lo: nat, hi: nat): (es: seq<Entry>)
    requires lo <= hi
    ensures |es| == hi - lo && forall i :: 0 <= i < hi - lo ==> es[i] == Entry(lo + 1 + i, "")
  {
    seq(hi - lo, i requires 0 <= i < hi - lo => Entry(lo + 1 + i, ""))
  }

  /** lo+1 .. hi */
  function Span(lo: int, hi: int): (ns: seq<int>)
    requires lo <= hi
    ensures |ns| == hi - lo && forall i :: 0 <= i < hi - lo ==> ns[i] == lo + 1 + i
  {
    seq(hi - lo, i requires 0 <= i < hi - lo => lo + 1 + i)
  }

  function LogFloor(c: Config, n: nat): nat { if n <= c.replayDepth then 0 else n - c.replayDepth }

  /** n signals sent and taken, cursor at `sent`, the client on stream a with nothing in flight. */
  predicate Calm(c: Config, s: Sys, n: nat, sent: nat, a: nat)
  {
    && LogFloor(c, n) <= sent <= n
    && s.peer == PeerState(n, sent, Blank(LogFloor(c, n), n), Some(a), false, false)
    && s.link == Some(a) && s.nextAtt == a + 1 && s.serving
    && s.flight == [] && s.onWire == 0
  }

  /** r holds the initial state and every state one operation away from one it holds. */
  ghost predicate Closed(c: Config, r: iset<Sys>)
  {
    Init() in r && forall s, op | s in r :: Do(c, s, op) in r
  }

  lemma Start(c: Config, r: iset<Sys>) returns (s: Sys)
    requires Closed(c, r)
    ensures s in r && Calm(c, s, 0, 0, 0) && s.received == []
  {
    s := Do(c, Init(), Reconnect);
  }

  lemma SendTake(c: Config, s: Sys, n: nat, a: nat)
    requires Calm(c, s, n, n, a)
    ensures var t := Do(c, Do(c, s, Send("")), Take(a));
      && t == s.(peer := t.peer, hist := t.hist, takes := t.takes, flight := [Entry(n + 1, "")])
      && t.peer == PeerState(n + 1, n + 1, Blank(LogFloor(c, n + 1), n + 1), Some(a), false, false)
  {
    var p := Enqueue(c, s.peer, "");
    assert p.log == Blank(LogFloor(c, n), n + 1);
    UnsentIsSuffix(p.log, n + 1, n);
    assert Newest(p.log, c.replayDepth) == Blank(LogFloor(c, n + 1), n + 1);
    assert Unsent(p.log, n) == [Entry(n + 1, "")];
  }

  /** A fresh signal is sent, taken and read. */
  lemma ReadFresh(c: Config, r: iset<Sys>, s: Sys, n: nat, a: nat) returns (t: Sys)
    requires Closed(c, r) && s in r && Calm(c, s, n, n, a)
    ensures t in r && Calm(c, t, n + 1, n + 1, a)
    ensures Ids(t.received) == Ids(s.received) + [n + 1]
  {
    SendTake(c, s, n, a);
    t := Do(c, s, Send(""));
    t := Do(c, t, Take(a));
    t := Do(c, t, Push);
    t := Do(c, t, Deliver);
  }

  /** The client reconnects, resuming at lo; the record rewinds to it. */
  lemma Rewind(c: Config, r: iset<Sys>, s: Sys, n: nat, a: nat, lo: nat) returns (t: Sys)
    requires Closed(c, r) && s in r && Calm(c, s, n, n, a) && LogFloor(c, n) <= lo <= n
    ensures t in r && Calm(c, t, n, lo, a + 1)
    ensures t.received == s.received
  {
    t := Do(c, s, Cut);
    t := Do(c, t, Resume(lo));
  }

  /** A fresh signal is sent and taken but lost on the wire; the client resumes past it. */
  lemma LoseFresh(c: Config, r: iset<Sys>, s: Sys, n: nat, a: nat) returns (t: Sys)
    requires Closed(c, r) && s in r && Calm(c, s, n, n, a)
    ensures t in r && Calm(c, t, n + 1, n + 1, a + 1)
    ensures t.received == s.received
  {
    SendTake(c, s, n, a);
    t := Do(c, s, Send(""));
    t := Do(c, t, Take(a));
    t := Do(c, t, Cut);
    t := Do(c, t, Resume(n + 1));
  }

  /** Everything is taken; lo+1 .. n are still in flight, none of them on the wire. */
  predicate Flying(c: Config, s: Sys, n: nat, lo: nat, a: nat)
  {
    && s.peer == PeerState(n, n, Blank(LogFloor(c, n), n), Some(a), false, false)
    && s.link == Some(a) && s.nextAtt == a + 1 && s.serving && s.onWire == 0
    && lo <= n && s.flight == Blank(lo, n)
  }

  /** The blank entries above lo are the tail of those above a lower floor. */
  lemma BlankUnsent(floor: nat, lo: nat, n: nat)
    requires floor <= lo <= n
    ensures Unsent(Blank(floor, n), lo) == Blank(lo, n)
  {
    UnsentIsSuffix(Blank(floor, n), n, lo);
    assert Blank(floor, n)[lo - floor..] == Blank(lo, n);
  }

  lemma TakeAgain(c: Config, r: iset<Sys>, s: Sys, n: nat, lo: nat, a: nat) returns (t: Sys)
    requires Closed(c, r) && s in r && Calm(c, s, n, lo, a)
    ensures t in r && Flying(c, t, n, lo, a) && t.received == s.received
  {
    t := Do(c, s, Take(a));
    BlankUnsent(LogFloor(c, n), lo, n);
    assert Newest(s.peer.log, c.replayDepth) == s.peer.log;
    assert t.flight == [] + Blank(lo, n) == Blank(lo, n);
    assert Blank(lo, n) != [] ==> Last(Blank(lo, n)).id == n;
  }

  lemma ReadFlying(c: Config, r: iset<Sys>, s: Sys, n: nat, lo: nat, a: nat) returns (t: Sys)
    requires Closed(c, r) && s in r && Flying(c, s, n, lo, a) && lo < n
    ensures t in r && Flying(c, t, n, lo + 1, a)
    ensures Ids(t.received) == Ids(s.received) + [lo + 1]
  {
    t := Do(c, s, Push);
    t := Do(c, t, Deliver);
    assert Blank(lo, n)[1..] == Blank(lo + 1, n);
  }

  lemma {:induction false} ReadFlyingTo(c: Config, r: iset<Sys>, s: Sys, n: nat, lo: nat, hi: nat, a: nat)
    returns (t: Sys)
    requires Closed(c, r) && s in r && Flying(c, s, n, lo, a) && lo <= hi <= n
    ensures t in r && Flying(c, t, n, hi, a)
    ensures Ids(t.received) == Ids(s.received) + Span(lo, hi)
  {
    if lo == hi {
      t := s;
    } else {
      var u := ReadFlyingTo(c, r, s, n, lo, hi - 1, a);
      t := ReadFlying(c, r, u, n, hi - 1, a);
      assert Span(lo, hi - 1) + [hi] == Span(lo, hi);
    }
  }

  /** lo+1 .. hi are read a second time and the client resumes at n. */
  lemma Reread(c: Config, r: iset<Sys>, s: Sys, n: nat, a: nat, lo: nat, hi: nat) returns (t: Sys)
    requires Closed(c, r) && s in r && Calm(c, s, n, n, a)
    requires LogFloor(c, n) <= lo <= hi <= n
    ensures t in r && Calm(c, t, n, n, a + 2)
    ensures Ids(t.received) == Ids(s.received) + Span(lo, hi)
  {
    t := Rewind(c, r, s, n, a, lo);
    t := TakeAgain(c, r, t, n, lo, a + 1);
    t := ReadFlyingTo(c, r, t, n, lo, hi, a + 1);
    t := Do(c, t, Cut);
    t := Do(c, t, Resume(n));
  }

  /** A run reaches a calm state: n signals sent, all taken, and exactly got read. */
  ghost predicate Reaches(c: Config, r: iset<Sys>, n: nat, got: seq<int>)
  {
    exists s, a: nat :: s in r && Calm(c, s, n, n, a) && Ids(s.received) == got
  }

  lemma ReachRead(c: Config, r: iset<Sys>, n: nat, got: seq<int>)
    requires Closed(c, r) && Reaches(c, r, n, got)
    ensures Reaches(c, r, n + 1, got + [n + 1])
  {
    var s, a: nat :| s in r && Calm(c, s, n, n, a) && Ids(s.received) == got;
    var t := ReadFresh(c, r, s, n, a);
  }

  lemma ReachLose(c: Config, r: iset<Sys>, n: nat, got: seq<int>)
    requires Closed(c, r) && Reaches(c, r, n, got)
    ensures Reaches(c, r, n + 1, got)
  {
    var s, a: nat :| s in r && Calm(c, s, n, n, a) && Ids(s.received) == got;
    var t := LoseFresh(c, r, s, n, a);
  }

  lemma ReachReread(c: Config, r: iset<Sys>, n: nat, got: seq<int>, lo: nat, hi: nat)
    requires Closed(c, r) && Reaches(c, r, n, got) && LogFloor(c, n) <= lo <= hi <= n
    ensures Reaches(c, r, n, got + Span(lo, hi))
  {
    var s, a: nat :| s in r && Calm(c, s, n, n, a) && Ids(s.received) == got;
    var t := Reread(c, r, s, n, a, lo, hi);
  }

  lemma {:induction false} ReadMany(c: Config, r: iset<Sys>, n: nat, m: nat, got: seq<int>)
    requires Closed(c, r) && Reaches(c, r, n, got) && n <= m
    ensures Reaches(c, r, m, got + Span(n, m))
  {
    if n == m {
      assert got + Span(n, m) == got;
    } else {
      ReadMany(c, r, n, m - 1, got);
      ReachRead(c, r, m - 1, got + Span(n, m - 1));
      assert got + Span(n, m - 1) + [m] == got + Span(n, m);
    }
  }

  lemma {:induction false} LoseMany(c: Config, r: iset<Sys>, n: nat, m: nat, got: seq<int>)
    requires Closed(c, r) && Reaches(c, r, n, got) && n <= m
    ensures Reaches(c, r, m, got)
  {
    if n < m {
      LoseMany(c, r, n, m - 1, got);
      ReachLose(c, r, m - 1, got);
    }
  }

  /** What the client reads before reading k = v + replayDepth for the second time. */
  function Before(c: Config, v: nat): (xs: seq<int>)
    ensures |xs| == v + 1 + 2 * (c.replayDepth - 1)
    ensures forall i :: 0 <= i < |xs| ==> xs[i] == BeforeAt(c, v, i)
  {
    seq(v + 1 + 2 * (c.replayDepth - 1), i => BeforeAt(c, v, i))
  }

  function BeforeAt(c: Config, v: nat, i: int): int
  {
    if i == v then v + c.replayDepth
    else if v < i < v + c.replayDepth then i
    else i + 1
  }

  lemma Phases(c: Config, v: nat)
    ensures var w, k := c.replayDepth - 1, v + c.replayDepth;
      Span(0, v) + [k] + Span(v, v + w) + Span(k, k + w) == Before(c, v)
  {
  }

  /**
    v signals are read; replayDepth - 1 are lost; the next one, k, is read; a
    rewind then re-reads the lost ones, and replayDepth - 1 fresh ones follow, so
    that 2 * (replayDepth - 1) others separate the two readings of k.
   */
  lemma TwiceApart(c: Config, r: iset<Sys>, v: nat) returns (t: Sys)
    requires Closed(c, r)
    ensures t in r && Ids(t.received) == Before(c, v) + [Before(c, v)[v]]
  {
    var w, k := c.replayDepth - 1, v + c.replayDepth;
    var s := Start(c, r);
    assert Reaches(c, r, 0, []) by { assert Ids(s.received) == []; }
    ReadMany(c, r, 0, v, []);
    assert [] + Span(0, v) == Span(0, v);
    LoseMany(c, r, v, v + w, Span(0, v));
    ReachRead(c, r, v + w, Span(0, v));
    ReachReread(c, r, k, Span(0, v) + [k], v, v + w);
    ReadMany(c, r, k, k + w, Span(0, v) + [k] + Span(v, v + w));
    Phases(c, v);
    ReachReread(c, r, k + w, Before(c, v), k - 1, k);
    assert Span(k - 1, k) == [k];
    var a: nat;
    t, a :| t in r && Calm(c, t, k + w, k + w, a) && Ids(t.received) == Before(c, v) + [k];
  }

  function Names(n: nat): (ns: seq<string>)
    ensures |ns| == n && Distinct(ns)
  {
    var ns := seq(n, i requires 0 <= i < n => seq(i, _ => 'x'));
    assert forall i :: 0 <= i < n ==> |ns[i]| == i;
    ns
  }

  lemma BeforeDistinct(c: Config, v: nat)
    ensures Distinct(Before(c, v))
  {
  }

  lemma RunsAreClosed(c: Config)
    ensures Closed(c, iset ops: seq<Op> | true :: Run(c, ops))
  {
    var r := iset ops: seq<Op> | true :: Run(c, ops);
    assert Run(c, []) in r;
    forall s, op | s in r ensures Do(c, s, op) in r {
      var ops: seq<Op> :| Run(c, ops) == s;
      assert DropLast(ops + [op]) == ops;
      assert Run(c, ops + [op]) in r;
    }
  }

  lemma SomeRunReadsTwice(c: Config, v: nat) returns (ops: seq<Op>)
    ensures Ids(Run(c, ops).received) == Before(c, v) + [Before(c, v)[v]]
  {
    RunsAreClosed(c);
    var t := TwiceApart(c, iset ops: seq<Op> | true :: Run(c, ops), v);
    ops :| Run(c, ops) == t;
  }

  lemma OnceInEveryRun(c: Config, max: nat, ops: seq<Op>)
    requires max >= 2 && NeverTwice(c, max)
    ensures Distinct(Accepted(Ids(Run(c, ops).received), max))
  {
    var names := Names(Run(c, ops).peer.last);
    assert Distinct(Accepted(SignalIDs(c, ops, names), max));
    FilteredByNumber(c, max, ops, names);
  }

  lemma SomeSignalTwice(c: Config, max: nat)
    requires max >= 2 && 2 * (c.replayDepth - 1) > max / 2
    ensures !NeverTwice(c, max)
  {
    if NeverTwice(c, max) {
      var v := max - max / 2 - 1;
      var ops := SomeRunReadsTwice(c, v);
      OnceInEveryRun(c, max, ops);
      BeforeDistinct(c, v);
      AcceptedTwice(Before(c, v), max, v);
    }
  }

  /** No signal passes the filter twice in any run, if and only if the cache is this large. */
  lemma NeverTwiceExactly(c: Config, max: nat)
    requires max >= 2
    ensures NeverTwice(c, max) <==> 2 * (c.replayDepth - 1) <= max / 2
  {
    if 2 * (c.replayDepth - 1) <= max / 2 {
      forall ops, names: seq<string> | |names| == Run(c, ops).peer.last && Distinct(names)
        ensures Distinct(Accepted(SignalIDs(c, ops, names), max))
      {
        NoSignalTwice(c, max, ops, names);
      }
    } else {
      SomeSignalTwice(c, max);
    }
  }

  /** The shipped defaults: replay depth 256, a cache of 4096. */
  lemma DefaultsNeverTwice(queueSize: nat)
    requires queueSize >= 1
    ensures NeverTwice(Config(queueSize, 256), 4096)
  {
    NeverTwiceExactly(Config(queueSize, 256), 4096);
  }

  /** A cache twice as large as the replay depth and the queue together is not enough. */
  lemma SumIsNotTheBound()
    ensures var c: Config := Config(1, 2047); c.replayDepth + c.queueSize <= 4096 / 2 && !NeverTwice(c, 4096)
  {
    NeverTwiceExactly(Config(1, 2047), 4096);
  }
}
