/**
  At-least-once delivery to a client that resumes at its own cursor, over whole
  runs of the replay protocol: what it reads ascends, is genuine, and skips a
  signal only after the record was taken with the client already replayDepth
  behind. A client that never lags that far reads every signal exactly once.
 */
module Delivery {
  import opened Common
  import opened PeerLog
  import opened Replay

  predicate OwnCursor(ops: seq<Op>) { forall op <- ops :: !op.Resume? }

  predicate Got(es: seq<Entry>, k: nat) { exists e <- es :: e.id == k }

  /** Some take found entry k replayDepth behind the newest, and unseen. */
  predicate Overrun(c: Config, takes: seq<TakeRecord>, k: nat)
  {
    exists t <- takes :: t.last >= k + c.replayDepth && t.cursor < k
  }

  /** Every number in (lo, hi] was overrun. */
  predicate AllOverrun(c: Config, takes: seq<TakeRecord>, lo: int, hi: int)
  {
    forall k: nat :: lo < k <= hi ==> Overrun(c, takes, k)
  }

  predicate Consecutive(es: seq<Entry>)
  {
    forall i :: 0 <= i < |es| ==> es[i].id == es[0].id + i
  }

  predicate Ahead(s: Sys)
  {
    && Cursor(s) <= s.peer.sent
    && Below(s.flight, s.peer.sent)
    && Consecutive(s.flight)
    && (s.flight != [] ==> Cursor(s) < s.flight[0].id)
  }

  /** The client's stream is the attached one and its loop is running. */
  predicate Live(s: Sys) { s.serving && s.peer.stream == s.link && !s.peer.down }

  predicate GapsOverrun(c: Config, s: Sys)
  {
    && (!s.peer.down ==> AllOverrun(c, s.takes, Cursor(s), Floor(s.peer)))
    && (s.flight != [] ==> AllOverrun(c, s.takes, Cursor(s), s.flight[0].id - 1))
    && (Live(s) && s.flight == [] ==> AllOverrun(c, s.takes, Cursor(s), s.peer.sent))
  }

  predicate Read(c: Config, s: Sys)
  {
    && Increasing(s.received)
    && (forall k: nat :: 1 <= k <= Cursor(s) && !Got(s.received, k) ==> Overrun(c, s.takes, k))
  }

  /** Once everything taken has been read, there is either nothing new or something to take. */
  predicate Caught(s: Sys)
  {
    Live(s) && s.flight == [] && Cursor(s) != s.peer.sent ==> s.peer.sent < s.peer.last
  }

  predicate Own(c: Config, s: Sys)
  {
    Ahead(s) && GapsOverrun(c, s) && Read(c, s) && Caught(s)
  }

  lemma TakeKeepsAhead(c: Config, s: Sys, att: nat, high: nat)
    requires Shape(s) && Held(c, s, high) && Ordered(s) && Ahead(s)
    ensures Ahead(TakeBy(c, s, att))
  {
    TakenFacts(c, s, att, high);
  }

  lemma DeliverKeepsAhead(c: Config, s: Sys)
    requires Ordered(s) && Ahead(s)
    ensures Ahead(Do(c, s, Deliver))
  {
  }

  lemma ReconnectKeepsAhead(c: Config, s: Sys)
    requires Ahead(s)
    ensures Ahead(Do(c, s, Reconnect))
  {
  }

  /** What stays of the entries in flight is a prefix of them. */
  lemma StopKeepsAhead(s: Sys)
    requires Ahead(s)
    ensures Ahead(StopServing(s))
  {
  }

  lemma KeepsAhead(c: Config, s: Sys, op: Op, high: nat)
    requires Shape(s) && Held(c, s, high) && Ordered(s) && Ahead(s) && !op.Resume?
    ensures Ahead(Do(c, s, op))
  {
    match op
    case Take(att) => TakeKeepsAhead(c, s, att, high);
    case Deliver => DeliverKeepsAhead(c, s);
    case Reconnect => ReconnectKeepsAhead(c, s);
    case PushFail => StopKeepsAhead(s);
    case Leave(att) => StopKeepsAhead(s.(peer := Detach(s.peer, att)));
    case _ =>
  }

  lemma OverrunGrows(c: Config, takes: seq<TakeRecord>, t: TakeRecord, lo: int, hi: int)
    requires AllOverrun(c, takes, lo, hi)
    ensures AllOverrun(c, takes + [t], lo, hi)
  {
    forall k: nat | lo < k <= hi ensures Overrun(c, takes + [t], k) {
      assert Overrun(c, takes, k);
      var u :| u in takes && u.last >= k + c.replayDepth && u.cursor < k;
      assert u in takes + [t];
    }
  }

  /** Trimming: what a take newly drops below the log is overrun by that very take. */
  lemma TrimIsOverrun(c: Config, s: Sys, att: nat, high: nat)
    requires Held(c, s, high) && s.peer.stream == Some(att) && !s.peer.down
    requires AllOverrun(c, s.takes, Cursor(s), Floor(s.peer))
    ensures AllOverrun(c, s.takes + [TakeRecord(s.peer.last, Cursor(s))], Cursor(s), Floor(TakeUnsent(c, s.peer, att)))
  {
    var rec := TakeRecord(s.peer.last, Cursor(s));
    TakeSpec(c, s.peer, att);
    OverrunGrows(c, s.takes, rec, Cursor(s), Floor(s.peer));
    forall k: nat | Cursor(s) < k <= Floor(TakeUnsent(c, s.peer, att)) ensures Overrun(c, s.takes + [rec], k) {
      if k > Floor(s.peer) { assert rec in s.takes + [rec]; }
    }
  }

  /** A take by a stream that has been replaced yields nothing. */
  lemma ReplacedTakesNothing(c: Config, s: Sys, att: nat)
    requires s.peer.stream != Some(att) && GapsOverrun(c, s)
    ensures GapsOverrun(c, TakeBy(c, s, att))
  {
    assert s.flight + [] == s.flight;
  }

  /** The three bounds still hold over the longer list of takes. */
  lemma TakeGrowsGaps(c: Config, s: Sys, att: nat, high: nat)
    requires Held(c, s, high) && s.peer.stream == Some(att) && GapsOverrun(c, s)
    ensures var takes := s.takes + [TakeRecord(s.peer.last, Cursor(s))];
      && (!s.peer.down ==> AllOverrun(c, takes, Cursor(s), Floor(TakeUnsent(c, s.peer, att))))
      && (s.flight != [] ==> AllOverrun(c, takes, Cursor(s), s.flight[0].id - 1))
      && (Live(s) && s.flight == [] ==> AllOverrun(c, takes, Cursor(s), s.peer.sent))
  {
    var rec := TakeRecord(s.peer.last, Cursor(s));
    if !s.peer.down { TrimIsOverrun(c, s, att, high); }
    if s.flight != [] { OverrunGrows(c, s.takes, rec, Cursor(s), s.flight[0].id - 1); }
    if Live(s) && s.flight == [] { OverrunGrows(c, s.takes, rec, Cursor(s), s.peer.sent); }
  }

  lemma TakeKeepsGaps(c: Config, s: Sys, att: nat, high: nat)
    requires Shape(s) && Held(c, s, high) && GapsOverrun(c, s)
    ensures GapsOverrun(c, TakeBy(c, s, att))
  {
    if s.peer.stream != Some(att) {
      ReplacedTakesNothing(c, s, att);
    } else if TakeBy(c, s, att) != s {
      TakeGrowsGaps(c, s, att, high);
      FirstTaken(c, s, att, high);
      TakeMovesGaps(c, s, att);
    }
  }

  /** What a take yields starts right above the cursor of the record. */
  lemma FirstTaken(c: Config, s: Sys, att: nat, high: nat)
    requires Held(c, s, high) && s.peer.stream == Some(att)
    ensures var out := Taken(s.peer, att);
      && |out| == TakeUnsent(c, s.peer, att).sent - s.peer.sent && (out != [] ==> out[0].id == s.peer.sent + 1)
      && (s.peer.down ==> out == [])
  {
    TakenFacts(c, s, att, high);
  }

  /** The first entry in flight after a take, and the cursor, lie where the bounds need them. */
  lemma TakeMovesGaps(c: Config, s: Sys, att: nat)
    requires Shape(s) && s.peer.stream == Some(att) && TakeBy(c, s, att) != s
    requires var takes := s.takes + [TakeRecord(s.peer.last, Cursor(s))];
      && (!s.peer.down ==> AllOverrun(c, takes, Cursor(s), Floor(TakeUnsent(c, s.peer, att))))
      && (s.flight != [] ==> AllOverrun(c, takes, Cursor(s), s.flight[0].id - 1))
      && (Live(s) && s.flight == [] ==> AllOverrun(c, takes, Cursor(s), s.peer.sent))
    requires var out := Taken(s.peer, att);
      |out| == TakeUnsent(c, s.peer, att).sent - s.peer.sent && (out != [] ==> out[0].id == s.peer.sent + 1)
    requires s.peer.down ==> Taken(s.peer, att) == []
    ensures GapsOverrun(c, TakeBy(c, s, att))
  {
    var t := TakeBy(c, s, att);
    assert t.takes == s.takes + [TakeRecord(s.peer.last, Cursor(s))];
    if s.flight != [] && s.link == Some(att) { assert t.flight[0] == s.flight[0]; }
  }

  lemma DeliverKeepsGaps(c: Config, s: Sys)
    requires Shape(s) && Ordered(s) && Ahead(s) && GapsOverrun(c, s)
    ensures GapsOverrun(c, Do(c, s, Deliver))
  {
  }

  lemma ReconnectKeepsGaps(c: Config, s: Sys, high: nat)
    requires Held(c, s, high) && Ahead(s) && GapsOverrun(c, s)
    ensures GapsOverrun(c, Do(c, s, Reconnect))
  {
  }

  lemma StopKeepsGaps(c: Config, s: Sys)
    requires GapsOverrun(c, s)
    ensures GapsOverrun(c, StopServing(s))
  {
  }

  lemma SendKeepsGaps(c: Config, s: Sys, data: string, high: nat)
    requires Held(c, s, high) && GapsOverrun(c, s)
    ensures GapsOverrun(c, Do(c, s, Send(data)))
  {
  }

  lemma LeaveKeepsGaps(c: Config, s: Sys, att: nat)
    requires Shape(s) && GapsOverrun(c, s)
    ensures GapsOverrun(c, Do(c, s, Leave(att)))
  {
    var t := s.(peer := Detach(s.peer, att));
    assert GapsOverrun(c, t) || s.link == Some(att);
    StopKeepsGaps(c, s);
  }

  lemma DownKeepsGaps(c: Config, s: Sys, down: PeerState<nat>)
    requires GapsOverrun(c, s) && down.down
    ensures GapsOverrun(c, s.(peer := down))
  {
  }

  lemma KeepsGaps(c: Config, s: Sys, op: Op, high: nat)
    requires Shape(s) && Held(c, s, high) && Ordered(s) && Ahead(s) && GapsOverrun(c, s) && !op.Resume?
    ensures GapsOverrun(c, Do(c, s, op))
  {
    match op
    case Send(data) => SendKeepsGaps(c, s, data, high);
    case Reconnect => ReconnectKeepsGaps(c, s, high);
    case Take(att) => TakeKeepsGaps(c, s, att, high);
    case Push => assert GapsOverrun(c, s.(onWire := s.onWire + 1));
    case PushFail => StopKeepsGaps(c, s);
    case Deliver => DeliverKeepsGaps(c, s);
    case Cut => assert !Do(c, s, Cut).serving;
    case Leave(att) => LeaveKeepsGaps(c, s, att);
    case ExpireNow => if s.peer.stream.None? && !s.peer.down { DownKeepsGaps(c, s, Expire(s.peer)); }
    case ShutdownNow => DownKeepsGaps(c, s, Shutdown(s.peer));
  }

  lemma TakeKeepsRead(c: Config, s: Sys, att: nat)
    requires Read(c, s)
    ensures Read(c, TakeBy(c, s, att))
  {
    var t := TakeBy(c, s, att);
    if t.takes != s.takes {
      forall k: nat | 1 <= k <= Cursor(s) && !Got(s.received, k) ensures Overrun(c, t.takes, k) {
        var u :| u in s.takes && u.last >= k + c.replayDepth && u.cursor < k;
        assert u in t.takes;
      }
    }
  }

  /** Reading the first entry in flight passes over only what was overrun. */
  lemma ReadNext(c: Config, takes: seq<TakeRecord>, got: seq<Entry>, e: Entry)
    requires var cursor := if got == [] then 0 else Last(got).id;
      && Increasing(got) && cursor < e.id
      && (forall k: nat :: 1 <= k <= cursor && !Got(got, k) ==> Overrun(c, takes, k))
      && AllOverrun(c, takes, cursor, e.id - 1)
    ensures Increasing(got + [e])
    ensures forall k: nat :: 1 <= k <= e.id && !Got(got + [e], k) ==> Overrun(c, takes, k)
  {
    assert (got + [e])[|got|] == e;
    forall k: nat | 1 <= k <= e.id && !Got(got + [e], k) ensures Overrun(c, takes, k) {
      assert e in got + [e];
      assert forall d <- got :: d in got + [e];
    }
  }

  lemma DeliverKeepsRead(c: Config, s: Sys)
    requires Ahead(s) && GapsOverrun(c, s) && Read(c, s)
    ensures Read(c, Do(c, s, Deliver))
  {
    if s.onWire != 0 && s.flight != [] {
      ReadNext(c, s.takes, s.received, s.flight[0]);
      assert Last(s.received + [s.flight[0]]) == s.flight[0];
    }
  }

  lemma KeepsRead(c: Config, s: Sys, op: Op)
    requires Ahead(s) && GapsOverrun(c, s) && Read(c, s)
    ensures Read(c, Do(c, s, op))
  {
    match op
    case Take(att) => TakeKeepsRead(c, s, att);
    case Deliver => DeliverKeepsRead(c, s);
    case _ => assert Do(c, s, op).received == s.received && Do(c, s, op).takes == s.takes;
  }

  lemma TakeKeepsCaught(c: Config, s: Sys, att: nat, high: nat)
    requires Shape(s) && Held(c, s, high) && Caught(s)
    ensures Caught(TakeBy(c, s, att))
  {
    TakenFacts(c, s, att, high);
  }

  lemma DeliverKeepsCaught(c: Config, s: Sys)
    requires Shape(s) && Ordered(s) && Caught(s)
    ensures Caught(Do(c, s, Deliver))
  {
    if s.onWire != 0 && s.flight != [] {
      assert Last(s.received + [s.flight[0]]) == s.flight[0];
      assert s.flight[1..] == [] ==> Last(s.flight) == s.flight[0];
    }
  }

  lemma SendKeepsCaught(c: Config, s: Sys, data: string, high: nat)
    requires Held(c, s, high) && Caught(s)
    ensures Caught(Do(c, s, Send(data)))
  {
  }

  lemma ReconnectKeepsCaught(c: Config, s: Sys, high: nat)
    requires Held(c, s, high) && Ahead(s)
    ensures Caught(Do(c, s, Reconnect)) || Do(c, s, Reconnect) == s
  {
  }

  lemma KeepsCaught(c: Config, s: Sys, op: Op, high: nat)
    requires Shape(s) && Held(c, s, high) && Ordered(s) && Ahead(s) && Caught(s) && !op.Resume?
    ensures Caught(Do(c, s, op))
  {
    match op
    case Send(data) => SendKeepsCaught(c, s, data, high);
    case Reconnect => ReconnectKeepsCaught(c, s, high);
    case Take(att) => TakeKeepsCaught(c, s, att, high);
    case Push => assert s.serving && s.onWire < |s.flight| ==> s.flight != [];
    case PushFail => assert !StopServing(s).serving;
    case Deliver => DeliverKeepsCaught(c, s);
    case Cut => assert !Do(c, s, Cut).serving;
    case Leave(att) => assert !Live(Do(c, s, Leave(att))) || Do(c, s, Leave(att)) == s;
    case ExpireNow => assert !Live(Do(c, s, ExpireNow)) || Do(c, s, ExpireNow) == s;
    case ShutdownNow => assert !Live(Do(c, s, ShutdownNow));
  }

  lemma {:induction false} RunKeepsOwn(c: Config, ops: seq<Op>)
    requires OwnCursor(ops)
    ensures Own(c, Run(c, ops))
  {
    if ops != [] {
      var s, op, high := Run(c, DropLast(ops)), Last(ops), High(c, DropLast(ops));
      RunKeepsOwn(c, DropLast(ops));
      RunKeepsBase(c, DropLast(ops));
      KeepsAhead(c, s, op, high);
      KeepsGaps(c, s, op, high);
      KeepsRead(c, s, op);
      KeepsCaught(c, s, op, high);
    }
  }

  // ----------------------------------------------------------- main theorems

  /**
    At-least-once delivery. In every run of a client resuming at its own cursor,
    what it has read ascends strictly, every entry carries the data that was
    posted under its number, and a number at or below its cursor is missing only
    if some take ran while that number was unseen and replayDepth behind.
   */
  lemma AtLeastOnce(c: Config, ops: seq<Op>)
    requires OwnCursor(ops)
    ensures var s := Run(c, ops);
      && Increasing(s.received)
      && Genuine(s.received, s.hist)
      && forall k: nat :: 1 <= k <= Cursor(s) && !Got(s.received, k) ==> Overrun(c, s.takes, k)
  {
    RunKeepsOwn(c, ops);
    RunKeepsBase(c, ops);
  }

  predicate NeverLagged(c: Config, takes: seq<TakeRecord>)
  {
    forall t <- takes :: t.last <= t.cursor + c.replayDepth
  }

  predicate Full(es: seq<Entry>)
  {
    && Increasing(es) && (forall e <- es :: e.id >= 1)
    && (es != [] ==> forall k: nat :: 1 <= k <= Last(es).id ==> Got(es, k))
  }

  /** Nothing lies between the last two entries of an ascent with no gap. */
  lemma FullLast(es: seq<Entry>)
    requires Full(es) && es != []
    ensures Last(es).id == 1 + if DropLast(es) == [] then 0 else Last(DropLast(es)).id
  {
    var prev := if DropLast(es) == [] then 0 else Last(DropLast(es)).id;
    assert Last(es) in es && Last(es).id >= prev + 1;
    assert Got(es, prev + 1);
    var i :| 0 <= i < |es| && es[i].id == prev + 1;
    if i < |es| - 1 { assert es[i].id <= es[|es| - 2].id; }
  }

  lemma FullFront(es: seq<Entry>)
    requires Full(es) && es != []
    ensures Full(DropLast(es))
  {
    var front := DropLast(es);
    if front != [] {
      forall k: nat | 1 <= k <= Last(front).id ensures Got(front, k) {
        assert Got(es, k);
        var i :| 0 <= i < |es| && es[i].id == k;
        assert front[i].id == k;
      }
    }
  }

  lemma {:induction false} FullAscent(es: seq<Entry>)
    requires Full(es)
    ensures forall i :: 0 <= i < |es| ==> es[i].id == i + 1
  {
    if es != [] {
      FullLast(es);
      FullFront(es);
      FullAscent(DropLast(es));
    }
  }

  /** A client within replayDepth at every take has read exactly 1, 2, .., lastID. */
  lemma ExactlyOnceWithinDepth(c: Config, ops: seq<Op>)
    requires OwnCursor(ops) && NeverLagged(c, Run(c, ops).takes)
    ensures var s := Run(c, ops);
      && |s.received| == Cursor(s) <= |s.hist|
      && forall i :: 0 <= i < |s.received| ==> s.received[i] == Entry(i + 1, s.hist[i])
  {
    AtLeastOnce(c, ops);
    ExactIfComplete(c, Run(c, ops));
  }

  lemma ExactIfComplete(c: Config, s: Sys)
    requires Increasing(s.received) && Genuine(s.received, s.hist) && NeverLagged(c, s.takes)
    requires forall k: nat :: 1 <= k <= Cursor(s) && !Got(s.received, k) ==> Overrun(c, s.takes, k)
    ensures |s.received| == Cursor(s) <= |s.hist|
    ensures forall i :: 0 <= i < |s.received| ==> s.received[i] == Entry(i + 1, s.hist[i])
  {
    forall k: nat | 1 <= k <= Cursor(s) ensures Got(s.received, k) {
      NotOverrun(c, s.takes, k);
    }
    FullAscent(s.received);
    forall i | 0 <= i < |s.received| ensures i < |s.hist| && s.received[i] == Entry(i + 1, s.hist[i]) {
      assert s.received[i] in s.received;
    }
    if s.received != [] { assert Last(s.received) in s.received; }
  }

  lemma NotOverrun(c: Config, takes: seq<TakeRecord>, k: nat)
    requires NeverLagged(c, takes)
    ensures !Overrun(c, takes, k)
  {
  }

  /** When its stream is live and there is nothing left to take or read, nothing is outstanding. */
  lemma NothingOutstanding(c: Config, ops: seq<Op>)
    requires OwnCursor(ops)
    requires var s := Run(c, ops); Live(s) && s.flight == [] && s.peer.sent == s.peer.last
    ensures var s := Run(c, ops);
      && Cursor(s) == |s.hist|
      && (NeverLagged(c, s.takes) ==>
            |s.received| == |s.hist| && forall i :: 0 <= i < |s.hist| ==> s.received[i] == Entry(i + 1, s.hist[i]))
  {
    RunKeepsOwn(c, ops);
    RunKeepsBase(c, ops);
    if NeverLagged(c, Run(c, ops).takes) { ExactlyOnceWithinDepth(c, ops); }
  }

  /** Entry k was assigned, is no longer held, and is not on its way to the client. */
  predicate Gone(s: Sys, k: nat)
  {
    1 <= k <= s.peer.last && k <= Floor(s.peer) && !Got(s.flight, k) && !Got(s.received, k)
  }

  lemma TakeStaysGone(c: Config, s: Sys, att: nat, high: nat, k: nat)
    requires Shape(s) && Held(c, s, high) && Gone(s, k)
    ensures Gone(TakeBy(c, s, att), k)
  {
    TakenFacts(c, s, att, high);
    TakeKeepsHeld(c, s, att, high);
  }

  lemma DeliverStaysGone(c: Config, s: Sys, k: nat)
    requires Gone(s, k)
    ensures Gone(Do(c, s, Deliver), k)
  {
  }

  lemma GoneStaysGone(c: Config, s: Sys, op: Op, high: nat, k: nat)
    requires Shape(s) && Held(c, s, high) && Gone(s, k)
    ensures Gone(Do(c, s, op), k)
  {
    match op
    case Take(att) => TakeStaysGone(c, s, att, high, k);
    case Deliver => DeliverStaysGone(c, s, k);
    case Send(_) =>
    case Reconnect =>
    case Resume(_) =>
    case _ =>
  }

  /** The other direction: what trimming dropped unread is never read, whatever cursor is used. */
  lemma {:induction false} LossIsFinal(c: Config, ops: seq<Op>, more: seq<Op>, k: nat)
    requires Gone(Run(c, ops), k)
    ensures Gone(Run(c, ops + more), k)
  {
    if more == [] {
      assert ops + more == ops;
    } else {
      var before := ops + DropLast(more);
      LossIsFinal(c, ops, DropLast(more), k);
      RunKeepsBase(c, before);
      GoneStaysGone(c, Run(c, before), Last(more), High(c, before), k);
      assert DropLast(ops + more) == before;
    }
  }
}
