/**
  That the byte stream gets anywhere: a Write that is let in commits its whole
  argument, and what has been committed can reach the reader in full.
 */
module Transfer {
  import opened Common
  import opened Frame
  import opened StreamRun

  // ------------------------------------------------------------ sending side

  /** A Write that has the lock is refused exactly if the stream is closed, terminal, or past its own read loop. */
  lemma AdmittedExactly(c: Config, ops: seq<Op>, p: bytes)
    requires Run(c, ops).tx.lock.Free? && p != []
    ensures var s, t := Run(c, ops), Run(c, ops + [OnTx(Acquire(p)), OnTx(Check)]);
      && t.tx.committed == s.tx.committed && t.rx == s.rx && t.wire == s.wire && t.closeIn == s.closeIn
      && t.tx.hist.acquired == s.tx.hist.acquired + 1 && t.tx.hist.args == s.tx.hist.args[t.tx.hist.acquired := p]
      && t.tx.lock == if s.tx.closed || s.tx.over || s.tx.term then Free else Writing(p, true, t.tx.hist.acquired)
  {
    RunNext(c, ops, OnTx(Acquire(p)));
    RunNext(c, ops + [OnTx(Acquire(p))], OnTx(Check));
    assert ops + [OnTx(Acquire(p))] + [OnTx(Check)] == ops + [OnTx(Acquire(p)), OnTx(Check)];
  }

  /** t is s after the running Write has sent what it had left. */
  predicate SentRest(s: Sys, t: Sys)
    requires s.tx.lock.Writing?
  {
    && t.tx.committed == s.tx.committed + s.tx.lock.rest && t.tx.lock == s.tx.lock.(rest := [])
    && t.rx == s.rx && t.closeIn == s.closeIn
    && t.tx.hist.args == s.tx.hist.args && t.tx.hist.finished == s.tx.hist.finished
  }

  lemma OneChunk(c: Config, s: Sys)
    requires s.tx.lock.Writing? && s.tx.lock.checked && s.tx.lock.rest != []
    ensures var t := Do(c, s, OnTx(Chunk)); var rest := s.tx.lock.rest;
      && t.tx.lock.Writing? && t.tx.lock.checked && |t.tx.lock.rest| < |rest|
      && (forall u :: t.tx.lock.Writing? && SentRest(t, u) ==> SentRest(s, u))
  {
    var t, rest := Do(c, s, OnTx(Chunk)), s.tx.lock.rest;
    assert t.tx.committed + t.tx.lock.rest == s.tx.committed + rest by {
      Regroup(s.tx.committed, NextChunk(c, rest), rest[|NextChunk(c, rest)|..]);
      assert NextChunk(c, rest) + rest[|NextChunk(c, rest)|..] == rest;
    }
  }

  lemma {:induction false} RestIsSent(c: Config, ops: seq<Op>, rest: bytes) returns (n: nat)
    requires var lock := Run(c, ops).tx.lock; lock.Writing? && lock.checked && lock.rest == rest
    ensures SentRest(Run(c, ops), Run(c, ops + Chunks(n)))
    decreases |rest|
  {
    if rest == [] {
      n := 0;
      assert ops + Chunks(0) == ops;
      assert Run(c, ops).tx.committed + [] == Run(c, ops).tx.committed;
    } else {
      RunNext(c, ops, OnTx(Chunk));
      OneChunk(c, Run(c, ops));
      var m := RestIsSent(c, ops + [OnTx(Chunk)], Run(c, ops + [OnTx(Chunk)]).tx.lock.rest);
      n := m + 1;
      assert ops + Chunks(n) == ops + [OnTx(Chunk)] + Chunks(m);
    }
  }

  function Chunks(n: nat): seq<Op> { seq(n, _ => OnTx(Chunk)) }

  /** The operations of one whole Write of p. */
  function Write(p: bytes, n: nat): seq<Op>
  {
    [OnTx(Acquire(p)), OnTx(Check)] + Chunks(n) + [OnTx(Finish)]
  }

  /** A Write that is let in and whose frames are sent commits its argument, and is done. */
  lemma WriteCommits(c: Config, ops: seq<Op>, p: bytes) returns (n: nat)
    requires var tx := Run(c, ops).tx; tx.lock.Free? && !tx.closed && !tx.over && !tx.term && p != []
    ensures var s, t := Run(c, ops), Run(c, ops + Write(p, n)); var call := s.tx.hist.acquired + 1;
      && t.tx.committed == s.tx.committed + p && t.tx.lock.Free? && t.rx == s.rx && t.closeIn == s.closeIn
      && call in t.tx.hist.finished && call in t.tx.hist.args && t.tx.hist.args[call] == p
  {
    var begun := ops + [OnTx(Acquire(p)), OnTx(Check)];
    AdmittedExactly(c, ops, p);
    n := RestIsSent(c, begun, p);
    RunNext(c, begun + Chunks(n), OnTx(Finish));
    assert ops + Write(p, n) == begun + Chunks(n) + [OnTx(Finish)];
  }

  /** A ping or pong is sent whole if the lock is free, and not at all while a Write holds it; it commits nothing. */
  lemma ControlExactly(c: Config, ops: seq<Op>, ping: bool, nonce: bytes)
    requires |nonce| == 8
    ensures var s, t := Run(c, ops), Run(c, ops + [OnTx(Control(ping, nonce))]);
      && t.tx.committed == s.tx.committed && t.tx.lock == s.tx.lock && t.rx == s.rx && t.closeIn == s.closeIn
      && t.wire == if s.tx.lock.Free? then s.wire + [Parsed(if ping then 2 else 3, nonce)] else s.wire
  {
    RunNext(c, ops, OnTx(Control(ping, nonce)));
  }

  /** The one try at a close frame sends it exactly if it is the first and the lock is free. */
  lemma CloseSentExactly(c: Config, ops: seq<Op>, code: uint16, reason: bytes)
    ensures var s, t := Run(c, ops), Run(c, ops + [OnTx(SendClose(code, reason))]);
      && t.tx.closing && t.tx.committed == s.tx.committed && t.tx.lock == s.tx.lock && t.rx == s.rx
      && t.wire == if !s.tx.closing && s.tx.lock.Free?
                   then s.wire + [Parsed(4, Put16(code) + SentReason(reason))] else s.wire
  {
    RunNext(c, ops, OnTx(SendClose(code, reason)));
  }

  /** A local close, and the end of the own read loop, are remembered and change nothing else; */
  lemma ClosedExactly(c: Config, ops: seq<Op>)
    ensures Run(c, ops + [OnTx(TxClose)]) == Run(c, ops).(tx := Run(c, ops).tx.(closed := true))
  {
    RunNext(c, ops, OnTx(TxClose));
  }

  lemma LoopOverExactly(c: Config, ops: seq<Op>)
    ensures Run(c, ops + [OnTx(LoopOver)]) == Run(c, ops).(tx := Run(c, ops).tx.(over := true))
  {
    RunNext(c, ops, OnTx(LoopOver));
  }

  /** the stream is terminal only after the try at a close frame. */
  lemma TerminalExactly(c: Config, ops: seq<Op>)
    ensures var tx := Run(c, ops).tx;
      Run(c, ops + [OnTx(TxTerminate)]) == Run(c, ops).(tx := tx.(term := tx.term || tx.closing))
  {
    RunNext(c, ops, OnTx(TxTerminate));
  }

  // ---------------------------------------------------------- receiving side

  /** Nothing on the way ends the read loop. */
  predicate Movable(c: Config, s: Sys)
  {
    !s.rx.loop.Ended? && forall f <- s.wire :: f.t != TYPE_CLOSE && |f.payload| <= c.rxMax
  }

  predicate AllRead(s: Sys) { s.rx.cur == [] && s.rx.queue == [] && s.rx.loop.Reading? && s.wire == [] }

  /** What a reader who keeps asking makes happen next. */
  function NextOp(s: Sys): Op
  {
    if s.rx.cur != [] then OnRx(CopyOut(|s.rx.cur|))
    else if s.rx.queue != [] then OnRx(TakeNext)
    else if s.rx.loop.Holding? then OnRx(Deliver)
    else Receive(None)
  }

  /** How many such steps are left at most. */
  function StepsLeft(s: Sys): nat
  {
    4 * |s.wire| + (if s.rx.loop.Holding? then 3 else 0) + 2 * |s.rx.queue| + if s.rx.cur != [] then 1 else 0
  }

  lemma NextStep(c: Config, s: Sys)
    requires Movable(c, s) && !AllRead(s)
    ensures var t := Do(c, s, NextOp(s)); Movable(c, t) && t.tx == s.tx && StepsLeft(t) < StepsLeft(s)
  {
    if NextOp(s) == Receive(None) && s.wire != [] {
      HandleIsHandleFrame(c, s.rx, s.wire[0], None);
      assert s.wire[0] in s.wire;
    }
  }

  /** Steps of the read loop and of Read only. */
  predicate ReaderSteps(ops: seq<Op>)
  {
    forall op <- ops :: op == Receive(None) || (op.OnRx? && (op.rx.Deliver? || op.rx.TakeNext? || op.rx.CopyOut?))
  }

  lemma MoveOn(c: Config, ops: seq<Op>, op: Op)
    requires Movable(c, Run(c, ops)) && !AllRead(Run(c, ops)) && op == NextOp(Run(c, ops))
    ensures var s, t := Run(c, ops), Run(c, ops + [op]);
      Movable(c, t) && t.tx == s.tx && StepsLeft(t) < StepsLeft(s) && ReaderSteps([op])
  {
    NextStep(c, Run(c, ops));
    RunNext(c, ops, op);
  }

  lemma {:induction false} ReadOn(c: Config, ops: seq<Op>, left: nat) returns (more: seq<Op>)
    requires Movable(c, Run(c, ops)) && left == StepsLeft(Run(c, ops))
    ensures ReaderSteps(more) && AllRead(Run(c, ops + more)) && Run(c, ops + more).tx == Run(c, ops).tx
    decreases left
  {
    if AllRead(Run(c, ops)) {
      more := [];
      assert ops + more == ops;
    } else {
      var op := NextOp(Run(c, ops));
      MoveOn(c, ops, op);
      var rest := ReadOn(c, ops + [op], StepsLeft(Run(c, ops + [op])));
      more := [op] + rest;
      assert ops + more == ops + [op] + rest;
    }
  }

  /** Data frames respect the sender's limit. */
  predicate Sized(c: Config, wire: seq<Sent>)
  {
    forall f <- wire :: (f.t == TYPE_DATA ==> |f.payload| <= c.txMax)
  }

  lemma StepSized(c: Config, s: Sys, op: Op)
    requires Sized(c, s.wire)
    ensures Sized(c, Do(c, s, op).wire)
  {
  }

  lemma {:induction false} RunSized(c: Config, ops: seq<Op>)
    ensures Sized(c, Run(c, ops).wire)
  {
    if ops != [] {
      RunSized(c, DropLast(ops));
      StepSized(c, Run(c, DropLast(ops)), Last(ops));
    }
  }

  /** The peer admits the sender's frames and pings, and nothing has ended the stream for its reader. */
  predicate Flowing(c: Config, s: Sys)
  {
    c.txMax <= c.rxMax && c.rxMax >= PING_SIZE && !s.rx.loop.Ended? && !s.rx.closed && s.closeIn.None?
  }

  lemma FlowingMoves(c: Config, ops: seq<Op>)
    requires Flowing(c, Run(c, ops))
    ensures Movable(c, Run(c, ops))
  {
    RunSized(c, ops);
    RunKeepsGood(c, ops);
    assert WireOk(Run(c, ops));
    forall f <- Run(c, ops).wire ensures f.t != TYPE_CLOSE && |f.payload| <= c.rxMax {
      assert Shaped(f.t, f.payload) && ValidType(f.t);
    }
  }

  /**
    Progress. From every state a run can reach in which nothing has ended the stream,
    a reader who keeps asking gets every byte committed, in order.
   */
  lemma AllArrives(c: Config, ops: seq<Op>) returns (more: seq<Op>)
    requires Flowing(c, Run(c, ops))
    ensures ReaderSteps(more)
    ensures var s, t := Run(c, ops), Run(c, ops + more); t.tx == s.tx && t.rx.returned == s.tx.committed
  {
    FlowingMoves(c, ops);
    more := ReadOn(c, ops, StepsLeft(Run(c, ops)));
    RunKeepsGood(c, ops + more);
    Drained(Run(c, ops + more));
  }

  /** So a Write that is let in can be read in full, after everything committed before it. */
  lemma WriteArrives(c: Config, ops: seq<Op>, p: bytes) returns (n: nat, more: seq<Op>)
    requires var tx := Run(c, ops).tx; tx.lock.Free? && !tx.closed && !tx.over && !tx.term && p != []
    requires Flowing(c, Run(c, ops))
    ensures ReaderSteps(more)
    ensures Run(c, ops + Write(p, n) + more).rx.returned == Run(c, ops).tx.committed + p
  {
    n := WriteCommits(c, ops, p);
    more := AllArrives(c, ops + Write(p, n));
  }
}
