/**
  The replay protocol as a whole: one peer record on the server, one sequential
  client that keeps a resume cursor, and the event stream between them, which
  can be cut at any moment with everything on it lost. A run is any sequence of
  operations; an operation that is not possible in a state leaves it unchanged.

  The delivery loop of a stream is split at its real boundaries: it takes a
  batch under the peer mutex, pushes the batch one entry at a time, and stops
  for good at the first failed push. Streams the client has already abandoned
  may still take entries; what they take is written to a dead connection.
 */
module Replay {
  import opened Common
  import opened PeerLog

  /** What a take by the attached stream saw: the newest number, the client's cursor. */
  datatype TakeRecord = TakeRecord(last: nat, cursor: nat)

  /**
    peer      the record on the server; streams are numbered as they connect
    nextAtt   the number of the next stream
    link      the stream the client is reading, if any
    serving   whether the server's delivery loop for link is still running
    flight    entries that loop has taken and the client has not read
    onWire    how many of those have been pushed; the rest is the loop's batch
    received  everything the client has read, oldest first
    hist      the data of every accepted signal: entry k carries hist[k-1]
    takes     every take by the then attached stream, oldest first
   */
  datatype Sys = Sys(
    peer: PeerState<nat>, nextAtt: nat, link: Option<nat>, serving: bool,
    flight: seq<Entry>, onWire: nat, received: seq<Entry>,
    hist: seq<string>, takes: seq<TakeRecord>)

  datatype Op =
    | Send(data: string)         // a signal is posted for the peer
    | Reconnect                  // the client connects, resuming at its own cursor
    | Resume(lastID: nat)        // the client connects with any Last-Event-ID
    | Take(att: nat)             // the delivery loop of a stream takes a batch
    | Push                       // it pushes one entry
    | PushFail                   // a push fails and the loop returns
    | Deliver                    // the client reads one event
    | Cut                        // the client loses the connection
    | Leave(att: nat)            // a stream's handler detaches
    | ExpireNow
    | ShutdownNow

  function Init(): Sys { Sys(NewPeer(), 0, None, false, [], 0, [], [], []) }

  /** The client's lastID: the number of the last signal event it read. */
  function Cursor(s: Sys): nat { if s.received == [] then 0 else Last(s.received).id }

  function Connect(s: Sys, lastID: nat): Sys
  {
    s.(peer := Attach(s.peer, s.nextAtt, lastID), nextAtt := s.nextAtt + 1,
       link := Some(s.nextAtt), serving := true, flight := [], onWire := 0)
  }

  /** The loop of the stream being read stops: what it had not pushed is dropped. */
  function StopServing(s: Sys): Sys
  {
    s.(serving := false, flight := s.flight[..Min(s.onWire, |s.flight|)])
  }

  function TakeBy(c: Config, s: Sys, att: nat): Sys
  {
    var ours := s.link == Some(att);
    if ours && (!s.serving || s.onWire < |s.flight|) then s
    else
      s.(peer := TakeUnsent(c, s.peer, att),
         takes := if s.peer.stream == Some(att) then s.takes + [TakeRecord(s.peer.last, Cursor(s))] else s.takes,
         flight := if ours then s.flight + Taken(s.peer, att) else s.flight)
  }

  function Do(c: Config, s: Sys, op: Op): Sys
  {
    match op
    case Send(data) =>
      s.(peer := Enqueue(c, s.peer, data), hist := if CanEnqueue(c, s.peer) then s.hist + [data] else s.hist)
    case Reconnect => if s.link.Some? then s else Connect(s, Cursor(s))
    case Resume(lastID) => if s.link.Some? then s else Connect(s, lastID)
    case Take(att) => TakeBy(c, s, att)
    case Push => if s.serving && s.onWire < |s.flight| then s.(onWire := s.onWire + 1) else s
    case PushFail => if s.serving && s.onWire < |s.flight| then StopServing(s) else s
    case Deliver =>
      if s.onWire == 0 || s.flight == [] then s
      else s.(received := s.received + [s.flight[0]], flight := s.flight[1..], onWire := s.onWire - 1)
    case Cut => s.(link := None, serving := false, flight := [], onWire := 0)
    case Leave(att) =>
      var t := s.(peer := Detach(s.peer, att));
      if s.link == Some(att) then StopServing(t) else t
    case ExpireNow => s.(peer := Expire(s.peer))
    case ShutdownNow => s.(peer := Shutdown(s.peer))
  }

  function Run(c: Config, ops: seq<Op>): Sys
  {
    if ops == [] then Init() else Do(c, Run(c, DropLast(ops)), Last(ops))
  }

  // ------------------------------------------------ invariants for any cursor

  predicate Increasing(es: seq<Entry>)
  {
    forall i, j :: 0 <= i < j < |es| ==> es[i].id < es[j].id
  }

  /** Every entry carries the data of the signal that was given its number. */
  predicate Genuine(es: seq<Entry>, hist: seq<string>)
  {
    forall e <- es :: 1 <= e.id <= |hist| && e.data == hist[e.id - 1]
  }

  predicate Below(es: seq<Entry>, high: nat)
  {
    forall e <- es :: e.id <= high
  }

  /** Nothing newer lies more than the replay window below anything older. */
  predicate Window(c: Config, older: seq<Entry>, newer: seq<Entry>)
  {
    forall e <- older, f <- newer :: e.id < f.id + c.replayDepth
  }

  predicate Shape(s: Sys)
  {
    && s.onWire <= |s.flight|
    && (s.link.None? ==> !s.serving && s.flight == [])
    && (!s.serving ==> s.onWire == |s.flight|)
    && (s.link.Some? ==> s.link.value < s.nextAtt)
    && (s.peer.stream.Some? ==> s.peer.stream.value < s.nextAtt)
  }

  /** high bounds every number handed out; the log reaches at most replayDepth below it. */
  predicate Held(c: Config, s: Sys, high: nat)
  {
    && Inv(c, s.peer)
    && s.peer.sent <= high <= s.peer.last
    && (!s.peer.down ==> high - c.replayDepth <= Floor(s.peer))
  }

  predicate AllBelow(s: Sys, high: nat)
  {
    Below(s.received, high) && Below(s.flight, high)
  }

  predicate AllGenuine(s: Sys)
  {
    && |s.hist| == s.peer.last
    && Genuine(s.peer.log, s.hist) && Genuine(s.flight, s.hist) && Genuine(s.received, s.hist)
  }

  /** What is in flight ascends, and ends at the cursor while its stream is attached. */
  predicate Ordered(s: Sys)
  {
    && Increasing(s.flight)
    && (s.serving && s.peer.stream == s.link && s.flight != [] ==> Last(s.flight).id == s.peer.sent)
  }

  predicate Windowed(c: Config, s: Sys)
  {
    && Window(c, s.received, s.flight)
    && forall i, j :: 0 <= i < j < |s.received| ==> s.received[i].id < s.received[j].id + c.replayDepth
  }

  predicate Base(c: Config, s: Sys, high: nat)
  {
    Shape(s) && Held(c, s, high) && AllBelow(s, high) && AllGenuine(s) && Ordered(s) && Windowed(c, s)
  }

  function HighAfter(c: Config, s: Sys, op: Op, high: nat): nat
  {
    Max(high, Do(c, s, op).peer.sent)
  }

  lemma {:induction false} UnsentFromLog(log: seq<Entry>, sent: nat)
    ensures forall e <- Unsent(log, sent) :: e in log
  {
    if log != [] { UnsentFromLog(log[1..], sent); }
  }

  /** A take that yields anything yields the attached peer's entries sent+1..last. */
  lemma TakenFacts(c: Config, s: Sys, att: nat, high: nat)
    requires Held(c, s, high)
    ensures var out, q := Taken(s.peer, att), TakeUnsent(c, s.peer, att);
      && |out| == q.sent - s.peer.sent
      && (forall i :: 0 <= i < |out| ==> out[i].id == s.peer.sent + 1 + i)
      && (forall e <- out :: e in s.peer.log && high < e.id + c.replayDepth && e.id <= q.sent)
  {
    if s.peer.stream == Some(att) {
      TakeKeepsInv(c, s.peer, att);
      if !s.peer.down { TakeSpec(c, s.peer, att); }
      UnsentFromLog(s.peer.log, s.peer.sent);
    }
  }

  lemma KeepsShape(c: Config, s: Sys, op: Op)
    requires Shape(s)
    ensures Shape(Do(c, s, op))
  {
  }

  lemma TakeKeepsHeld(c: Config, s: Sys, att: nat, high: nat)
    requires Held(c, s, high)
    ensures Held(c, s.(peer := TakeUnsent(c, s.peer, att)), Max(high, TakeUnsent(c, s.peer, att).sent))
  {
    TakeKeepsInv(c, s.peer, att);
    if s.peer.stream == Some(att) && !s.peer.down { TakeSpec(c, s.peer, att); }
  }

  lemma KeepsHeld(c: Config, s: Sys, op: Op, high: nat)
    requires Held(c, s, high)
    ensures Held(c, Do(c, s, op), HighAfter(c, s, op, high))
  {
    match op
    case Take(att) => TakeKeepsHeld(c, s, att, high);
    case Send(data) => SendKeepsHeld(c, s, data, high);
    case Reconnect => ConnectKeepsHeld(c, s, Cursor(s), high);
    case Resume(lastID) => ConnectKeepsHeld(c, s, lastID, high);
    case _ =>
  }

  lemma SendKeepsHeld(c: Config, s: Sys, data: string, high: nat)
    requires Held(c, s, high)
    ensures Held(c, s.(peer := Enqueue(c, s.peer, data)), high)
  {
    EnqueueKeepsInv(c, s.peer, data);
  }

  lemma ConnectKeepsHeld(c: Config, s: Sys, lastID: nat, high: nat)
    requires Held(c, s, high)
    ensures Held(c, Connect(s, lastID), Max(high, Connect(s, lastID).peer.sent))
  {
    AttachKeepsInv(c, s.peer, s.nextAtt, lastID);
  }

  lemma KeepsBelow(c: Config, s: Sys, op: Op, high: nat)
    requires Held(c, s, high) && AllBelow(s, high)
    ensures AllBelow(Do(c, s, op), HighAfter(c, s, op, high))
  {
    match op
    case Take(att) => TakenFacts(c, s, att, high);
    case _ =>
  }

  lemma KeepsGenuine(c: Config, s: Sys, op: Op)
    requires AllGenuine(s)
    ensures AllGenuine(Do(c, s, op))
  {
    match op
    case Take(att) => UnsentFromLog(s.peer.log, s.peer.sent);
    case _ =>
  }

  lemma DeliverKeepsOrdered(c: Config, s: Sys)
    requires Ordered(s)
    ensures Ordered(Do(c, s, Deliver))
  {
    if s.onWire != 0 && s.flight != [] {
      var rest := s.flight[1..];
      assert forall i :: 0 <= i < |rest| ==> rest[i] == s.flight[i + 1];
    }
  }

  lemma StopKeepsOrdered(s: Sys)
    requires Ordered(s)
    ensures Ordered(StopServing(s))
  {
  }

  lemma LeaveKeepsOrdered(c: Config, s: Sys, att: nat)
    requires Shape(s) && Ordered(s)
    ensures Ordered(Do(c, s, Leave(att)))
  {
    StopKeepsOrdered(s);
  }

  lemma KeepsOrdered(c: Config, s: Sys, op: Op, high: nat)
    requires Shape(s) && Held(c, s, high) && Ordered(s)
    ensures Ordered(Do(c, s, op))
  {
    match op
    case Send(_) =>
    case Reconnect =>
    case Resume(_) =>
    case Take(att) => TakeKeepsOrdered(c, s, att, high);
    case Push =>
    case PushFail => StopKeepsOrdered(s);
    case Deliver => DeliverKeepsOrdered(c, s);
    case Cut =>
    case Leave(att) => LeaveKeepsOrdered(c, s, att);
    case ExpireNow =>
    case ShutdownNow =>
  }

  lemma TakeKeepsOrdered(c: Config, s: Sys, att: nat, high: nat)
    requires Shape(s) && Held(c, s, high) && Ordered(s)
    ensures Ordered(TakeBy(c, s, att))
  {
    TakenFacts(c, s, att, high);
    var out := Taken(s.peer, att);
    if s.link == Some(att) && s.serving && s.onWire == |s.flight| {
      if s.peer.stream == s.link {
        AscendsOn(s.flight, out, s.peer.sent);
      } else {
        assert s.flight + out == s.flight;
      }
    }
  }

  lemma AscendsOn(es: seq<Entry>, out: seq<Entry>, sent: nat)
    requires Increasing(es) && (es != [] ==> Last(es).id == sent)
    requires forall i :: 0 <= i < |out| ==> out[i].id == sent + 1 + i
    ensures Increasing(es + out)
    ensures es + out != [] ==> Last(es + out).id == sent + |out|
  {
  }

  /** Other operations read nothing and put nothing in flight. */
  lemma OthersKeepWindowed(c: Config, s: Sys, op: Op)
    requires Windowed(c, s) && !op.Take? && !op.Deliver?
    ensures Windowed(c, Do(c, s, op))
  {
    var t := Do(c, s, op);
    assert t.received == s.received && t.flight <= s.flight;
    assert forall f <- t.flight :: f in s.flight;
  }

  lemma KeepsWindowed(c: Config, s: Sys, op: Op, high: nat)
    requires Base(c, s, high)
    ensures Windowed(c, Do(c, s, op))
  {
    match op
    case Take(att) => TakeKeepsWindowed(c, s, att, high);
    case Deliver => DeliverKeepsWindowed(c, s);
    case _ => OthersKeepWindowed(c, s, op);
  }

  lemma DeliverKeepsWindowed(c: Config, s: Sys)
    requires Shape(s) && Ordered(s) && Windowed(c, s)
    ensures Windowed(c, Do(c, s, Deliver))
  {
    if s.onWire > 0 && s.flight != [] {
      assert s.flight[0] in s.flight;
      assert forall e <- s.received :: e.id < s.flight[0].id + c.replayDepth;
      assert forall i :: 0 <= i < |s.received| ==> s.received[i] in s.received;
    }
  }

  lemma TakeKeepsWindowed(c: Config, s: Sys, att: nat, high: nat)
    requires Base(c, s, high)
    ensures Windowed(c, TakeBy(c, s, att))
  {
    TakenFacts(c, s, att, high);
  }

  /** How far the record has handed entries out along a run. */
  function High(c: Config, ops: seq<Op>): nat
  {
    if ops == [] then 0 else HighAfter(c, Run(c, DropLast(ops)), Last(ops), High(c, DropLast(ops)))
  }

  lemma {:induction false} RunKeepsBase(c: Config, ops: seq<Op>)
    ensures Base(c, Run(c, ops), High(c, ops))
  {
    if ops != [] {
      var s, op, high := Run(c, DropLast(ops)), Last(ops), High(c, DropLast(ops));
      RunKeepsBase(c, DropLast(ops));
      KeepsShape(c, s, op);
      KeepsHeld(c, s, op, high);
      KeepsBelow(c, s, op, high);
      KeepsGenuine(c, s, op);
      KeepsOrdered(c, s, op, high);
      KeepsWindowed(c, s, op, high);
    }
  }
}
