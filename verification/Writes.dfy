/**
  The byte stream in terms of the Writes themselves. Every frame is logged with
  the acquisition of the write lock it was sent under, so that the frames of one
  Write can be told from everything else that was sent.
 */
module Writes {
  import opened Common
  import opened Frame
  import opened StreamRun

  /** The application bytes of a log, in order. */
  function LogData(log: seq<Stamped>): bytes
  {
    if log == [] then [] else LogData(DropLast(log)) + DataOf(Last(log).frame)
  }

  /** The application bytes sent under one acquisition. */
  function SentBy(log: seq<Stamped>, call: nat): bytes
  {
    if log == [] then []
    else SentBy(DropLast(log), call) + if Last(log).call == call then DataOf(Last(log).frame) else []
  }

  /** What the acquisitions 1..n sent, one whole acquisition after another. */
  function InTurn(log: seq<Stamped>, n: nat): bytes
  {
    if n == 0 then [] else InTurn(log, n - 1) + SentBy(log, n)
  }

  lemma LogSnoc(log: seq<Stamped>, e: Stamped, call: nat)
    ensures LogData(log + [e]) == LogData(log) + DataOf(e.frame)
    ensures SentBy(log + [e], call) == SentBy(log, call) + if e.call == call then DataOf(e.frame) else []
  {
    assert DropLast(log + [e]) == log;
  }

  // ---------------------------------------------------------------- invariants

  /** The log follows the acquisitions, and one that sent two frames is a Write's. */
  predicate Ordered(h: History)
  {
    && (forall i, j :: 0 <= i < j < |h.log| ==> h.log[i].call <= h.log[j].call)
    && (forall i, j :: 0 <= i < j < |h.log| && h.log[i].call == h.log[j].call ==> h.log[i].call in h.args)
  }

  /** Acquisitions are numbered up to the last; Writes, and only they, send data. */
  predicate Numbered(h: History)
  {
    && (forall e <- h.log :: 1 <= e.call <= h.acquired)
    && (forall n <- h.args :: 1 <= n <= h.acquired)
    && (forall e <- h.log :: e.call in h.args <==> e.frame.t == TYPE_DATA)
  }

  /** The holder of the lock is the last to have acquired it. */
  predicate Holds(h: History, lock: Lock)
  {
    lock.Writing? ==> lock.call == h.acquired && lock.call in h.args
  }

  predicate Turns(h: History, lock: Lock) { Ordered(h) && Numbered(h) && Holds(h, lock) }

  /** What each Write has sent is a prefix of its argument; the running one still has the rest. */
  predicate Amounts(h: History, lock: Lock)
  {
    && (forall n <- h.args :: SentBy(h.log, n) <= h.args[n])
    && (lock.Writing? ==> lock.call in h.args && SentBy(h.log, lock.call) + lock.rest == h.args[lock.call])
    && (forall n <- h.finished :: n in h.args && SentBy(h.log, n) == h.args[n])
    && (lock.Writing? ==> lock.call !in h.finished)
  }

  /** The frames in transit are the last ones of the log. */
  predicate OnWire(wire: seq<Sent>, log: seq<Stamped>)
  {
    |wire| <= |log| && forall i :: 0 <= i < |wire| ==> wire[i] == log[|log| - |wire| + i].frame
  }

  predicate Kept(s: Sys)
  {
    var tx := s.tx;
    && Turns(tx.hist, tx.lock) && Amounts(tx.hist, tx.lock)
    && tx.committed == LogData(tx.hist.log)
    && OnWire(s.wire, tx.hist.log)
  }

  // -------------------------------------------------------------- preservation

  lemma AppendOrdered(h: History, e: Stamped)
    requires Ordered(h) && forall d <- h.log :: d.call < e.call || (d.call == e.call && e.call in h.args)
    ensures Ordered(h.(log := h.log + [e]))
  {
    var log := h.log + [e];
    forall i, j | 0 <= i < j < |log|
      ensures log[i].call <= log[j].call && (log[i].call == log[j].call ==> log[i].call in h.args)
    {
      if j == |h.log| { assert log[i] in h.log; }
    }
  }

  lemma AppendNumbered(h: History, e: Stamped)
    requires Numbered(h) && 1 <= e.call <= h.acquired && (e.call in h.args <==> e.frame.t == TYPE_DATA)
    ensures Numbered(h.(log := h.log + [e]))
  {
  }

  lemma AcquireKeepsTurns(h: History, p: bytes)
    requires Turns(h, Free)
    ensures var call := h.acquired + 1;
            Turns(h.(acquired := call, args := h.args[call := p]), Writing(p, false, call))
  {
  }

  lemma AloneKeepsTurns(h: History, f: Sent)
    requires Turns(h, Free) && f.t != TYPE_DATA
    ensures Turns(SentAlone(h, f), Free)
  {
    var g, e := h.(acquired := h.acquired + 1), Stamped(h.acquired + 1, f);
    assert Ordered(g) && Numbered(g);
    AppendOrdered(g, e);
    AppendNumbered(g, e);
  }

  lemma ChunkKeepsTurns(h: History, lock: Lock, f: Sent)
    requires Turns(h, lock) && lock.Writing? && f.t == TYPE_DATA
    ensures Turns(Logged(h, lock.call, f), lock)
  {
    AppendOrdered(h, Stamped(lock.call, f));
    AppendNumbered(h, Stamped(lock.call, f));
  }

  lemma ReleaseKeepsTurns(h: History, lock: Lock, finished: set<nat>, lock': Lock)
    requires Turns(h, lock) && (lock'.Writing? ==> lock.Writing? && lock'.call == lock.call)
    ensures Turns(h.(finished := finished), lock')
  {
  }

  lemma KeepsTurns(c: Config, tx: Tx, op: TxOp)
    requires Turns(tx.hist, tx.lock)
    ensures Turns(DoTx(c, tx, op).hist, DoTx(c, tx, op).lock)
  {
    var f, t := FrameOf(c, tx, op), DoTx(c, tx, op);
    if op.Acquire? && tx.lock.Free? {
      AcquireKeepsTurns(tx.hist, op.p);
    } else if f.None? {
      Quiet(c, tx, op);
      ReleaseKeepsTurns(tx.hist, tx.lock, t.hist.finished, t.lock);
    } else if op.Chunk? {
      ChunkKeepsTurns(tx.hist, tx.lock, f.value);
    } else {
      AloneKeepsTurns(tx.hist, f.value);
    }
  }

  lemma {:induction false} NotYet(log: seq<Stamped>, n: nat)
    requires forall e <- log :: e.call != n
    ensures SentBy(log, n) == []
  {
    if log != [] {
      assert Last(log) in log;
      NotYet(DropLast(log), n);
    }
  }

  lemma AcquireKeepsAmounts(h: History, p: bytes)
    requires Turns(h, Free) && Amounts(h, Free)
    ensures var call := h.acquired + 1;
            Amounts(h.(acquired := call, args := h.args[call := p]), Writing(p, false, call))
  {
    NotYet(h.log, h.acquired + 1);
  }

  lemma ChunkKeepsAmounts(h: History, lock: Lock, chunk: bytes, rest: bytes)
    requires Turns(h, lock) && Amounts(h, lock) && lock.Writing? && lock.rest == chunk + rest
    requires |chunk| <= PAYLOAD_LIMIT
    ensures Amounts(Logged(h, lock.call, Parsed(TYPE_DATA, chunk)), lock.(rest := rest))
  {
    var e := Stamped(lock.call, Parsed(TYPE_DATA, chunk));
    Regroup(SentBy(h.log, lock.call), chunk, rest);
    forall n <- h.args
      ensures SentBy(h.log + [e], n) == if n == lock.call then SentBy(h.log, n) + chunk else SentBy(h.log, n)
    {
      LogSnoc(h.log, e, n);
    }
  }

  lemma AloneKeepsAmounts(h: History, f: Sent)
    requires Turns(h, Free) && Amounts(h, Free) && f.t != TYPE_DATA
    ensures Amounts(SentAlone(h, f), Free)
  {
    var e := Stamped(h.acquired + 1, f);
    forall n <- h.args ensures SentBy(h.log + [e], n) == SentBy(h.log, n) {
      LogSnoc(h.log, e, n);
    }
  }

  lemma FinishKeepsAmounts(h: History, lock: Lock)
    requires Amounts(h, lock) && lock.Writing? && lock.rest == []
    ensures Amounts(h.(finished := h.finished + {lock.call}), Free)
  {
    assert SentBy(h.log, lock.call) + [] == SentBy(h.log, lock.call);
  }

  lemma QuietKeepsAmounts(h: History, lock: Lock, lock': Lock)
    requires Amounts(h, lock)
    requires lock'.Writing? ==> lock.Writing? && lock'.call == lock.call && lock'.rest == lock.rest
    ensures Amounts(h, lock')
  {
  }

  /** Without a frame nothing changes but that a Write may finish or give up. */
  lemma Quiet(c: Config, tx: Tx, op: TxOp)
    requires FrameOf(c, tx, op).None? && !(op.Acquire? && tx.lock.Free?)
    ensures var t := DoTx(c, tx, op);
      || (t.hist == tx.hist && (t.lock.Writing? ==> tx.lock.Writing? && t.lock == tx.lock.(checked := t.lock.checked)))
      || (tx.lock.Writing? && tx.lock.rest == [] && t.lock.Free?
          && t.hist == tx.hist.(finished := tx.hist.finished + {tx.lock.call}))
  {
    match op
    case Check =>
    case ChunkFail =>
    case Finish =>
    case Control(_, _) =>
    case SendClose(_, _) =>
    case _ => assert DoTx(c, tx, op).hist == tx.hist && DoTx(c, tx, op).lock == tx.lock;
  }

  lemma QuietStepKeepsAmounts(c: Config, tx: Tx, op: TxOp)
    requires Amounts(tx.hist, tx.lock) && FrameOf(c, tx, op).None? && !(op.Acquire? && tx.lock.Free?)
    ensures Amounts(DoTx(c, tx, op).hist, DoTx(c, tx, op).lock)
  {
    Quiet(c, tx, op);
    var t := DoTx(c, tx, op);
    if t.hist == tx.hist {
      QuietKeepsAmounts(tx.hist, tx.lock, t.lock);
    } else {
      FinishKeepsAmounts(tx.hist, tx.lock);
    }
  }

  lemma ChunkStepKeepsAmounts(c: Config, tx: Tx)
    requires Turns(tx.hist, tx.lock) && Amounts(tx.hist, tx.lock) && FrameOf(c, tx, Chunk).Some?
    ensures Amounts(DoTx(c, tx, Chunk).hist, DoTx(c, tx, Chunk).lock)
  {
    var chunk := NextChunk(c, tx.lock.rest);
    assert tx.lock.rest == chunk + tx.lock.rest[|chunk|..];
    ChunkKeepsAmounts(tx.hist, tx.lock, chunk, tx.lock.rest[|chunk|..]);
  }

  lemma AcquireStepKeepsAmounts(c: Config, tx: Tx, p: bytes)
    requires Turns(tx.hist, tx.lock) && Amounts(tx.hist, tx.lock) && tx.lock.Free?
    ensures Amounts(DoTx(c, tx, Acquire(p)).hist, DoTx(c, tx, Acquire(p)).lock)
  {
    AcquireKeepsAmounts(tx.hist, p);
  }

  lemma AloneStepKeepsAmounts(c: Config, tx: Tx, op: TxOp)
    requires Turns(tx.hist, tx.lock) && Amounts(tx.hist, tx.lock) && FrameOf(c, tx, op).Some? && !op.Chunk?
    ensures Amounts(DoTx(c, tx, op).hist, DoTx(c, tx, op).lock)
  {
    AloneKeepsAmounts(tx.hist, FrameOf(c, tx, op).value);
  }

  lemma KeepsAmounts(c: Config, tx: Tx, op: TxOp)
    requires Turns(tx.hist, tx.lock) && Amounts(tx.hist, tx.lock)
    ensures Amounts(DoTx(c, tx, op).hist, DoTx(c, tx, op).lock)
  {
    if op.Acquire? && tx.lock.Free? {
      AcquireStepKeepsAmounts(c, tx, op.p);
    } else if FrameOf(c, tx, op).None? {
      QuietStepKeepsAmounts(c, tx, op);
    } else if op.Chunk? {
      ChunkStepKeepsAmounts(c, tx);
    } else {
      AloneStepKeepsAmounts(c, tx, op);
    }
  }

  /** The log grows by the frame that is sent. */
  lemma LogGrows(c: Config, tx: Tx, op: TxOp)
    ensures var f, log := FrameOf(c, tx, op), DoTx(c, tx, op).hist.log;
      && (f.None? ==> log == tx.hist.log)
      && (f.Some? ==> |log| == |tx.hist.log| + 1 && DropLast(log) == tx.hist.log && Last(log).frame == f.value)
  {
  }

  lemma SentOnWire(wire: seq<Sent>, log: seq<Stamped>, e: Stamped)
    requires OnWire(wire, log)
    ensures OnWire(wire + [e.frame], log + [e])
  {
  }

  lemma PoppedOnWire(wire: seq<Sent>, log: seq<Stamped>)
    requires OnWire(wire, log) && wire != []
    ensures OnWire(wire[1..], log)
  {
    var rest := wire[1..];
    assert forall i :: 0 <= i < |rest| ==> rest[i] == wire[i + 1];
  }

  lemma KeepsLog(c: Config, s: Sys, op: TxOp)
    requires TxOk(s.tx) && OnWire(s.wire, s.tx.hist.log) && s.tx.committed == LogData(s.tx.hist.log)
    ensures var t := Sending(c, s, op); OnWire(t.wire, t.tx.hist.log) && t.tx.committed == LogData(t.tx.hist.log)
  {
    var f, log := FrameOf(c, s.tx, op), DoTx(c, s.tx, op).hist.log;
    LogGrows(c, s.tx, op);
    CommitsFrame(c, s.tx, op);
    if f.Some? {
      assert log == s.tx.hist.log + [Last(log)];
      SentOnWire(s.wire, s.tx.hist.log, Last(log));
    }
  }

  lemma {:induction false} RunKeeps(c: Config, ops: seq<Op>)
    ensures Kept(Run(c, ops))
  {
    if ops != [] {
      RunKeeps(c, DropLast(ops));
      RunKeepsGood(c, DropLast(ops));
      DoKeeps(c, Run(c, DropLast(ops)), Last(ops));
    }
  }

  lemma DoKeeps(c: Config, s: Sys, op: Op)
    requires Kept(s) && TxOk(s.tx)
    ensures Kept(Do(c, s, op))
  {
    match op
    case OnTx(t) =>
      KeepsTurns(c, s.tx, t);
      KeepsAmounts(c, s.tx, t);
      KeepsLog(c, s, t);
    case Receive(_) => if s.wire != [] { PoppedOnWire(s.wire, s.tx.hist.log); }
    case OnRx(_) =>
  }

  // ----------------------------------------------------------------- theorems

  /**
    The frames of one Write are contiguous: between two frames sent under one
    acquisition lie only frames of that acquisition, which is a Write's, and they
    all carry data. The frames in transit are the end of that log.
   */
  lemma WritesDoNotInterleave(c: Config, ops: seq<Op>, i: nat, j: nat, k: nat)
    requires var log := Run(c, ops).tx.hist.log; i < j < k < |log| && log[i].call == log[k].call
    ensures var h := Run(c, ops).tx.hist;
      h.log[j].call == h.log[i].call && h.log[i].call in h.args && h.log[j].frame.t == TYPE_DATA
    ensures OnWire(Run(c, ops).wire, Run(c, ops).tx.hist.log)
  {
    RunKeeps(c, ops);
    Between(Run(c, ops).tx.hist, i, j, k);
  }

  lemma Between(h: History, i: nat, j: nat, k: nat)
    requires Ordered(h) && Numbered(h) && i < j < k < |h.log| && h.log[i].call == h.log[k].call
    ensures h.log[j].call == h.log[i].call && h.log[i].call in h.args && h.log[j].frame.t == TYPE_DATA
  {
    assert h.log[j] in h.log;
  }

  /** The log follows the acquisitions 1..n. */
  predicate Rising(log: seq<Stamped>, n: nat)
  {
    log == [] || (1 <= Last(log).call <= n && Rising(DropLast(log), Last(log).call))
  }

  lemma {:induction false} OrderedRises(h: History, k: nat, n: nat)
    requires Ordered(h) && k <= |h.log| && (k > 0 ==> h.log[k - 1].call <= n)
    requires forall e <- h.log :: 1 <= e.call
    ensures Rising(h.log[..k], n)
  {
    if k > 0 {
      assert DropLast(h.log[..k]) == h.log[..k - 1];
      assert h.log[k - 1] in h.log;
      OrderedRises(h, k - 1, h.log[k - 1].call);
    }
  }

  lemma {:induction false} RisingBelow(log: seq<Stamped>, n: nat)
    requires Rising(log, n)
    ensures forall d <- log :: d.call <= n
  {
    if log != [] {
      RisingBelow(DropLast(log), Last(log).call);
      assert log == DropLast(log) + [Last(log)];
    }
  }

  lemma {:induction false} LogIsInTurn(log: seq<Stamped>, n: nat, top: nat)
    requires Rising(log, n) && n <= top
    ensures LogData(log) == InTurn(log, top)
  {
    if log == [] {
      NothingInTurn(top);
    } else {
      LogIsInTurn(DropLast(log), Last(log).call, top);
      RisingBelow(DropLast(log), Last(log).call);
      NextInTurn(DropLast(log), Last(log), top);
      assert DropLast(log) + [Last(log)] == log;
    }
  }

  lemma NextInTurn(log: seq<Stamped>, e: Stamped, n: nat)
    requires LogData(log) == InTurn(log, n)
    requires 1 <= e.call <= n && forall d <- log :: d.call <= e.call
    ensures LogData(log + [e]) == InTurn(log + [e], n)
  {
    forall m | e.call < m <= n ensures SentBy(log, m) == [] { NotYet(log, m); }
    LastInTurn(log, e, n);
    LogSnoc(log, e, n);
  }

  lemma {:induction false} NothingInTurn(n: nat)
    ensures InTurn([], n) == []
  {
    if n > 0 { NothingInTurn(n - 1); }
  }

  /** Acquisitions before the one that sends a frame are not touched by it. */
  lemma {:induction false} EarlierTurns(log: seq<Stamped>, e: Stamped, n: nat)
    requires n < e.call
    ensures InTurn(log + [e], n) == InTurn(log, n)
  {
    if n > 0 {
      EarlierTurns(log, e, n - 1);
      LogSnoc(log, e, n);
    }
  }

  lemma InOwnTurn(log: seq<Stamped>, e: Stamped)
    requires e.call >= 1
    ensures InTurn(log + [e], e.call) == InTurn(log, e.call) + DataOf(e.frame)
  {
    EarlierTurns(log, e, e.call - 1);
    LogSnoc(log, e, e.call);
    Regroup(InTurn(log, e.call - 1), SentBy(log, e.call), DataOf(e.frame));
  }

  /** An acquisition that has sent nothing adds nothing. */
  lemma EmptyTurn(log: seq<Stamped>, n: nat)
    requires n > 0 && SentBy(log, n) == []
    ensures InTurn(log, n) == InTurn(log, n - 1)
  {
    assert InTurn(log, n - 1) + [] == InTurn(log, n - 1);
  }

  /** One more frame, of the latest acquisition to have sent any, goes to the end. */
  lemma {:induction false} LastInTurn(log: seq<Stamped>, e: Stamped, n: nat)
    requires 1 <= e.call <= n && forall m | e.call < m <= n :: SentBy(log, m) == []
    ensures InTurn(log + [e], n) == InTurn(log, n) + DataOf(e.frame)
  {
    if n == e.call {
      InOwnTurn(log, e);
    } else {
      LastInTurn(log, e, n - 1);
      LogSnoc(log, e, n);
      EmptyTurn(log, n);
      EmptyTurn(log + [e], n);
    }
  }

  lemma {:induction false} ControlsCarryNothing(log: seq<Stamped>, n: nat)
    requires forall e <- log :: e.call == n ==> e.frame.t != TYPE_DATA
    ensures SentBy(log, n) == []
  {
    if log != [] {
      assert Last(log) in log;
      ControlsCarryNothing(DropLast(log), n);
    }
  }

  lemma WholeLogInTurn(h: History)
    requires Ordered(h) && Numbered(h)
    ensures LogData(h.log) == InTurn(h.log, h.acquired)
  {
    if h.log != [] { assert Last(h.log) in h.log; }
    OrderedRises(h, |h.log|, h.acquired);
    assert h.log[..|h.log|] == h.log;
    LogIsInTurn(h.log, h.acquired, h.acquired);
  }

  /** What acquisition n sent: a prefix of the Write's argument, all of it if it finished; a control frame, no data. */
  predicate SentRightly(h: History, n: nat)
  {
    if n in h.args then SentBy(h.log, n) <= h.args[n] && (n in h.finished ==> SentBy(h.log, n) == h.args[n])
    else SentBy(h.log, n) == []
  }

  /**
    The end-to-end byte stream of the Writes: what Read has returned and what is on
    its way is what the Writes sent, one whole Write after another in the order they
    got the lock, each a prefix of its argument and the whole of it if it finished.
    A Write that still runs has the rest.
   */
  lemma StreamOfWrites(c: Config, ops: seq<Op>)
    ensures var s, h := Run(c, ops), Run(c, ops).tx.hist;
      && Arrived(s.rx) <= InTurn(h.log, h.acquired)
      && (!s.rx.loop.Ended? ==> Arrived(s.rx) + DataIn(s.wire) == InTurn(h.log, h.acquired))
    ensures var h := Run(c, ops).tx.hist; forall n :: 1 <= n <= h.acquired ==> SentRightly(h, n)
    ensures var tx := Run(c, ops).tx; tx.lock.Writing? ==>
      tx.lock.call in tx.hist.args && SentBy(tx.hist.log, tx.lock.call) + tx.lock.rest == tx.hist.args[tx.lock.call]
  {
    ByteStream(c, ops);
    RunKeeps(c, ops);
    var h := Run(c, ops).tx.hist;
    WholeLogInTurn(h);
    forall n | 1 <= n <= h.acquired ensures SentRightly(h, n) {
      if n !in h.args { ControlsCarryNothing(h.log, n); }
    }
  }
}
