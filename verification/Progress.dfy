/**
  What the replay protocol achieves, beside what it never does: a detach by a
  handler that has been replaced is harmless, and a client that comes back reads
  everything that is still held for it.
 */
module Progress {
  import opened Common
  import opened PeerLog
  import opened Replay
  import opened Delivery

  lemma RunNext(c: Config, ops: seq<Op>, op: Op)
    ensures Run(c, ops + [op]) == Do(c, Run(c, ops), op)
  {
    assert DropLast(ops + [op]) == ops;
  }

  /**
    The handler of a stream that has been replaced detaches after its successor has
    attached, on every reconnect; the live stream is not affected.
   */
  lemma LateDetachHarmless(c: Config, ops: seq<Op>, att: nat)
    requires Live(Run(c, ops)) && Run(c, ops).link != Some(att)
    ensures Run(c, ops + [Leave(att)]) == Run(c, ops)
  {
    RunNext(c, ops, Leave(att));
  }

  /** The handler of the live stream detaches: the record is kept, with its grace timer pending. */
  lemma DetachStartsGrace(c: Config, ops: seq<Op>, att: nat)
    requires Run(c, ops).peer.stream == Some(att) && !Run(c, ops).peer.down
    ensures var p, q := Run(c, ops).peer, Run(c, ops + [Leave(att)]).peer;
      q.stream.None? && q.reaper && !q.down && q.last == p.last && q.sent == p.sent && q.log == p.log
  {
    RunNext(c, ops, Leave(att));
  }

  lemma RunTwo(c: Config, ops: seq<Op>, x: Op, y: Op)
    ensures Run(c, ops + [x, y]) == Do(c, Do(c, Run(c, ops), x), y)
  {
    assert ops + [x] + [y] == ops + [x, y];
    RunNext(c, ops, x);
    RunNext(c, ops + [x], y);
  }

  lemma SentExactly(c: Config, s: Sys, data: string)
    requires Inv(c, s.peer) && |s.hist| == s.peer.last
    ensures var t := Do(c, s, Send(data));
      if !s.peer.down && |Unsent(s.peer.log, s.peer.sent)| < c.queueSize
      then t.hist == s.hist + [data] && t.peer.log == s.peer.log + [Entry(|s.hist| + 1, data)]
      else t == s
  {
    if !s.peer.down { UnsentIsSuffix(s.peer.log, s.peer.last, s.peer.sent); }
  }

  /** A signal is numbered next and queued exactly while fewer than queueSize entries wait to be taken. */
  lemma SendExactly(c: Config, ops: seq<Op>, data: string)
    ensures var s, t := Run(c, ops), Run(c, ops + [Send(data)]);
      if !s.peer.down && |Unsent(s.peer.log, s.peer.sent)| < c.queueSize
      then t.hist == s.hist + [data] && t.peer.log == s.peer.log + [Entry(|s.hist| + 1, data)]
      else t == s
  {
    assert Inv(c, Run(c, ops).peer) && |Run(c, ops).hist| == Run(c, ops).peer.last by { RunKeepsBase(c, ops); }
    SentExactly(c, Run(c, ops), data);
    RunNext(c, ops, Send(data));
  }

  /** A failed push ends the loop: what was pushed can still be read, the rest of the batch is dropped. */
  lemma PushFailsExactly(c: Config, ops: seq<Op>)
    requires var s := Run(c, ops); s.serving && s.onWire < |s.flight|
    ensures var s := Run(c, ops);
      Run(c, ops + [PushFail]) == s.(serving := false, flight := s.flight[..s.onWire])
  {
    RunNext(c, ops, PushFail);
  }

  /** A cut loses what is on its way, and nothing that has been read or is held. */
  lemma CutExactly(c: Config, ops: seq<Op>)
    ensures var s := Run(c, ops);
      Run(c, ops + [Cut]) == s.(link := None, serving := false, flight := [], onWire := 0)
  {
    RunNext(c, ops, Cut);
  }

  /** The grace timer discards exactly a detached record, a shutdown any. */
  lemma RecordEndsExactly(c: Config, ops: seq<Op>)
    ensures var s, t := Run(c, ops), Run(c, ops + [ExpireNow]);
      if s.peer.stream.None? && !s.peer.down then t.peer.down && t.peer.log == [] && t.received == s.received
      else t == s
    ensures var t := Run(c, ops + [ShutdownNow]); t.peer.down && t.peer.log == [] && t.peer.stream.None?
  {
    RunNext(c, ops, ExpireNow);
    RunNext(c, ops, ShutdownNow);
  }

  /** n times the delivery loop pushes an entry and the client reads it. */
  function Pump(n: nat): seq<Op>
  {
    if n == 0 then [] else Pump(n - 1) + [Push, Deliver]
  }

  /** s after the client has read n more entries. */
  function Pumped(s: Sys, n: nat): Sys
    requires n <= |s.flight|
  {
    s.(received := s.received + s.flight[..n], flight := s.flight[n..])
  }

  lemma PumpOne(c: Config, s: Sys, n: nat, t: Sys, u: Sys)
    requires s.serving && s.onWire == 0 && n < |s.flight|
    requires t == Pumped(s, n) && u == Do(c, Do(c, t, Push), Deliver)
    ensures u == Pumped(s, n + 1)
  {
    assert s.received + s.flight[..n + 1] == s.received + s.flight[..n] + [s.flight[n]];
  }

  lemma PumpNone(s: Sys)
    ensures Pumped(s, 0) == s
  {
    assert s.received + [] == s.received;
  }

  lemma PumpNext(c: Config, ops: seq<Op>, n: nat)
    requires n > 0
    ensures Run(c, ops + Pump(n)) == Do(c, Do(c, Run(c, ops + Pump(n - 1)), Push), Deliver)
  {
    assert ops + Pump(n) == ops + Pump(n - 1) + [Push, Deliver];
    RunTwo(c, ops + Pump(n - 1), Push, Deliver);
  }

  lemma {:induction false} PumpDelivers(c: Config, ops: seq<Op>, n: nat)
    requires var s := Run(c, ops); s.serving && s.onWire == 0 && n <= |s.flight|
    ensures Run(c, ops + Pump(n)) == Pumped(Run(c, ops), n)
  {
    if n == 0 {
      assert ops + Pump(0) == ops;
      PumpNone(Run(c, ops));
    } else {
      PumpDelivers(c, ops, n - 1);
      PumpNext(c, ops, n);
      PumpOne(c, Run(c, ops), n - 1, Run(c, ops + Pump(n - 1)), Run(c, ops + Pump(n)));
    }
  }

  /** Resuming below everything held is resuming at the floor. */
  lemma UnsentAboveFloor(c: Config, p: PeerState<nat>, att: nat, lastID: nat)
    requires Inv(c, p) && !p.down && lastID <= p.sent
    ensures Taken(Attach(p, att, lastID), att) == Unsent(p.log, lastID)
  {
    AttachKeepsInv(c, p, att, lastID);
    if lastID < Floor(p) {
      AllUnsent(p.log, lastID);
      AllUnsent(p.log, Floor(p));
    }
  }

  /** The record after a fresh stream has attached and taken. */
  lemma PeerServed(c: Config, p: PeerState<nat>, att: nat, lastID: nat)
    requires Inv(c, p) && !p.down && lastID <= p.sent
    ensures var q := Attach(p, att, lastID);
      && q.stream == Some(att) && !q.down && q.last == p.last && Taken(q, att) == Unsent(p.log, lastID)
      && TakeUnsent(c, q, att).sent == TakeUnsent(c, q, att).last == p.last
      && TakeUnsent(c, q, att).stream == Some(att) && !TakeUnsent(c, q, att).down
  {
    AttachKeepsInv(c, p, att, lastID);
    UnsentAboveFloor(c, p, att, lastID);
    TakeSpec(c, Attach(p, att, lastID), att);
  }

  /** The client loses its stream, connects again, and the new stream takes what there is for it. */
  function Rejoined(c: Config, s: Sys): Sys
  {
    Do(c, Do(c, Do(c, s, Cut), Reconnect), Take(s.nextAtt))
  }

  /** In t the stream is live, and all that was held above the cursor in s is about to be pushed. */
  predicate Served(s: Sys, t: Sys)
  {
    && Live(t) && t.onWire == 0 && t.flight == Unsent(s.peer.log, Cursor(s)) && t.received == s.received
    && t.peer.sent == t.peer.last && t.hist == s.hist
  }

  lemma RejoinedIsServed(c: Config, s: Sys)
    requires Inv(c, s.peer) && !s.peer.down && Cursor(s) <= s.peer.sent
    ensures Served(s, Rejoined(c, s))
  {
    PeerServed(c, s.peer, s.nextAtt, Cursor(s));
    assert Do(c, s, Cut).peer == s.peer && Do(c, s, Cut).received == s.received;
    assert forall es: seq<Entry> :: [] + es == es;
  }

  lemma RejoinedOfRun(c: Config, ops: seq<Op>)
    ensures Run(c, ops + [Cut, Reconnect, Take(Run(c, ops).nextAtt)]) == Rejoined(c, Run(c, ops))
  {
    var take := Take(Run(c, ops).nextAtt);
    assert ops + [Cut, Reconnect] + [take] == ops + [Cut, Reconnect, take];
    RunTwo(c, ops, Cut, Reconnect);
    RunNext(c, ops + [Cut, Reconnect], take);
  }

  /** A client that loses its stream, connects again and reads what it is given. */
  function CatchingUp(c: Config, s: Sys): seq<Op>
  {
    [Cut, Reconnect, Take(s.nextAtt)] + Pump(|Unsent(s.peer.log, Cursor(s))|)
  }

  lemma RejoinServes(c: Config, ops: seq<Op>)
    requires OwnCursor(ops) && !Run(c, ops).peer.down
    ensures Served(Run(c, ops), Rejoined(c, Run(c, ops)))
  {
    RunKeepsOwn(c, ops);
    RunKeepsBase(c, ops);
    RejoinedIsServed(c, Run(c, ops));
  }

  /** In t the client has read all that was held above its cursor in s, and nothing is left to take. */
  predicate ReadAll(s: Sys, t: Sys)
  {
    && t.received == s.received + Unsent(s.peer.log, Cursor(s)) && t.hist == s.hist
    && Live(t) && t.flight == [] && t.peer.sent == t.peer.last
  }

  lemma PumpReadsAll(c: Config, ops: seq<Op>, s: Sys, n: nat)
    requires Served(s, Run(c, ops)) && n == |Unsent(s.peer.log, Cursor(s))|
    ensures ReadAll(s, Run(c, ops + Pump(n)))
  {
    PumpDelivers(c, ops, n);
  }

  lemma RejoinOps(c: Config, ops: seq<Op>, s: Sys)
    ensures ops + CatchingUp(c, s)
            == ops + [Cut, Reconnect, Take(s.nextAtt)] + Pump(|Unsent(s.peer.log, Cursor(s))|)
  {
  }

  lemma CatchingUpReads(c: Config, ops: seq<Op>)
    requires OwnCursor(ops) && !Run(c, ops).peer.down
    ensures ReadAll(Run(c, ops), Run(c, ops + CatchingUp(c, Run(c, ops))))
  {
    var s := Run(c, ops);
    assert Served(s, Run(c, ops + [Cut, Reconnect, Take(s.nextAtt)])) by {
      RejoinServes(c, ops);
      RejoinedOfRun(c, ops);
    }
    PumpReadsAll(c, ops + [Cut, Reconnect, Take(s.nextAtt)], s, |Unsent(s.peer.log, Cursor(s))|);
    RejoinOps(c, ops, s);
  }

  /**
    Progress. From every state a run can reach with the record alive, a client that
    reconnects at its own cursor reads, in order, exactly the entries still held
    above it, and is then at the last accepted signal.
   */
  lemma CatchUp(c: Config, ops: seq<Op>)
    requires OwnCursor(ops) && !Run(c, ops).peer.down
    ensures var s := Run(c, ops); var t := Run(c, ops + CatchingUp(c, s));
      && t.received == s.received + Unsent(s.peer.log, Cursor(s))
      && Live(t) && t.hist == s.hist && Cursor(t) == |s.hist|
  {
    var all := ops + CatchingUp(c, Run(c, ops));
    assert ReadAll(Run(c, ops), Run(c, all)) by { CatchingUpReads(c, ops); }
    assert OwnCursor(all) by { PumpIsOwn(|Unsent(Run(c, ops).peer.log, Cursor(Run(c, ops)))|); }
    NothingOutstanding(c, all);
  }

  lemma {:induction false} PumpIsOwn(n: nat)
    ensures OwnCursor(Pump(n))
  {
    if n > 0 { PumpIsOwn(n - 1); }
  }
}
