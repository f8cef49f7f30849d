/**
  The byte stream from one Write to the other side's Read, as a step relation.
  Sending side: writers, control frames and the close frame share one write lock;
  a writer checks once, after it has the lock, that the stream is neither closed nor
  terminal nor past the end of its own read loop. Receiving side:
  the read loop parses messages and hands payloads to a bounded queue, which Read
  drains in pieces of any size. The channel between them is reliable, ordered and
  message-atomic; a channel write that fails has sent nothing.
 */
module StreamRun {
  import opened Common
  import opened Utf8
  import opened Frame

  type bytes = seq<byte>

  /** A frame in transit; on the channel it is the message Bytes(t, payload). */
  type Sent = f: Parsed | ValidType(f.t) && Shaped(f.t, f.payload) && |f.payload| <= PAYLOAD_LIMIT
    witness Parsed(TYPE_DATA, [])

  /** Frame payload limits of the two sides, and the queue depth of the receiver. */
  datatype RawConfig = Config(txMax: nat, rxMax: nat, depth: nat)
  type Config = c: RawConfig | 1 <= c.txMax <= PAYLOAD_LIMIT && 1 <= c.rxMax <= PAYLOAD_LIMIT && c.depth >= 1
    witness Config(1, 1, 1)

  /** Who has the write lock; a writer keeps what it has still to send, and which acquisition is its own. */
  datatype Lock = Free | Writing(rest: bytes, checked: bool, call: nat)

  /** A frame sent, and the acquisition of the lock it was sent under. */
  datatype Stamped = Stamped(call: nat, frame: Sent)

  /**
    What the sending stream has done.
      acquired  how often the lock has been acquired
      log       every frame sent, in order
      args      the argument of every Write that got the lock, by acquisition
      finished  the acquisitions of the Writes that sent everything
   */
  datatype History = History(acquired: nat, log: seq<Stamped>, args: map<nat, bytes>, finished: set<nat>)

  /**
    The sending stream.
      closed, term  the local-close and terminal flags
      over          this side's own read loop has ended
      closing       the one attempt to send a close frame has been made
      committed     every byte whose frame was sent
      closeAt       how many bytes were committed when the close frame was sent
      sealedFirst   whether Writes were refused already when it was sent
   */
  datatype Tx = Tx(lock: Lock, closed: bool, over: bool, term: bool, closing: bool, committed: bytes,
                   closeAt: Option<nat>, sealedFirst: bool, hist: History)

  datatype Why = PeerClosed | OurTerm | Failed

  /** The read loop: between reads, holding a payload the queue has no room for, or over. */
  datatype Loop = Reading | Holding(payload: bytes) | Ended(why: Why)

  datatype ReadError = EOF | NetClosed | Broken

  /**
    The receiving stream.
      queue, cur    payloads queued, and what is left of the one being read
      returned      every byte Read has returned
      closed, term  the local-close and terminal flags
      readErr       the first terminal error recorded
   */
  datatype Rx = Rx(loop: Loop, queue: seq<bytes>, cur: bytes, returned: bytes,
                   closed: bool, term: bool, readErr: Option<ReadError>)

  /** closeIn is the place of the close frame among the frames in transit. */
  datatype Sys = Sys(tx: Tx, wire: seq<Sent>, closeIn: Option<nat>, rx: Rx)

  // ------------------------------------------------------------ sending side

  datatype TxOp =
    | Acquire(p: bytes)                       // a Write of p gets the lock
    | Check                                   // it looks at the terminal flags
    | Chunk                                   // it sends its next frame
    | ChunkFail                               // sending fails and Write returns
    | Finish                                  // it has sent everything and unlocks
    | Control(ping: bool, nonce: bytes)       // a ping or pong gets the lock and is sent
    | TxClose                                 // the stream is closed locally
    | LoopOver                                // its own read loop ends, whatever the reason
    | SendClose(code: uint16, reason: bytes)  // the one try at a close frame
    | CloseFails                              // which the channel may refuse
    | TxTerminate

  /** The piece of the payload that goes into the next frame. */
  function NextChunk(c: Config, rest: bytes): bytes { if |rest| > c.txMax then rest[..c.txMax] else rest }

  function CloseFrame(code: uint16, reason: bytes): Sent { Parsed(TYPE_CLOSE, Put16(code) + SentReason(reason)) }

  /** The frame an operation sends, if it sends one. */
  function FrameOf(c: Config, tx: Tx, op: TxOp): Option<Sent>
  {
    match op
    case Chunk =>
      if tx.lock.Writing? && tx.lock.checked && tx.lock.rest != []
        then Some(Parsed(TYPE_DATA, NextChunk(c, tx.lock.rest))) else None
    case Control(ping, nonce) =>
      if tx.lock.Free? && |nonce| == PING_SIZE then Some(Parsed(if ping then TYPE_PING else TYPE_PONG, nonce)) else None
    case SendClose(code, reason) =>
      if !tx.closing && tx.lock.Free? then Some(CloseFrame(code, reason)) else None
    case _ => None
  }

  /** A Write that now gets the lock will be refused, though the stream is not terminal yet. */
  predicate Sealed(tx: Tx) { tx.closed || tx.over }

  function Logged(h: History, call: nat, f: Sent): History { h.(log := h.log + [Stamped(call, f)]) }

  /** A frame sent by whoever acquires the lock for just that. */
  function SentAlone(h: History, f: Sent): History { Logged(h.(acquired := h.acquired + 1), h.acquired + 1, f) }

  function DoTx(c: Config, tx: Tx, op: TxOp): Tx
  {
    match op
    case Acquire(p) =>
      if !tx.lock.Free? || p == [] then tx
      else
        var call := tx.hist.acquired + 1;
        tx.(lock := Writing(p, false, call), hist := tx.hist.(acquired := call, args := tx.hist.args[call := p]))
    case Check =>
      if !tx.lock.Writing? then tx
      else tx.(lock := if Sealed(tx) || tx.term then Free else tx.lock.(checked := true))
    case Chunk =>
      if FrameOf(c, tx, op).None? then tx
      else
        var chunk := NextChunk(c, tx.lock.rest);
        tx.(committed := tx.committed + chunk, lock := tx.lock.(rest := tx.lock.rest[|chunk|..]),
            hist := Logged(tx.hist, tx.lock.call, Parsed(TYPE_DATA, chunk)))
    case ChunkFail => if tx.lock.Writing? && tx.lock.checked then tx.(lock := Free) else tx
    case Finish =>
      if tx.lock.Writing? && tx.lock.checked && tx.lock.rest == []
        then tx.(lock := Free, hist := tx.hist.(finished := tx.hist.finished + {tx.lock.call})) else tx
    case Control(_, _) =>
      var f := FrameOf(c, tx, op);
      if f.None? then tx else tx.(hist := SentAlone(tx.hist, f.value))
    case TxClose => tx.(closed := true)
    case LoopOver => tx.(over := true)
    case CloseFails => tx.(closing := true)
    case SendClose(_, _) =>
      var f := FrameOf(c, tx, op);
      if f.None? then tx.(closing := true)
      else tx.(closing := true, closeAt := Some(|tx.committed|), sealedFirst := Sealed(tx),
               hist := SentAlone(tx.hist, f.value))
    case TxTerminate => if tx.closing then tx.(term := true) else tx
  }

  // ---------------------------------------------------------- receiving side

  datatype RxOp =
    | ChannelError(eof: bool) // the channel's read fails, with or without an end-of-file
    | Deliver         // the held payload enters the queue
    | DropHeld        // or is dropped because the stream is terminating
    | RxClose         // the stream is closed locally
    | RxShutdown      // or shut down, keeping what has arrived
    | RxForceEOF      // ShutdownEOF overrides the error
    | RxTerminate
    | TakeNext        // Read starts on the next payload
    | CopyOut(n: nat) // Read copies at most n bytes out

  /** How a failed channel read is recorded: our own teardown, a closed channel, or a broken one. */
  function ChannelErr(term: bool, eof: bool): ReadError { if term then NetClosed else if eof then EOF else Broken }

  function SetErr(rx: Rx, e: ReadError): Rx { if rx.readErr.None? then rx.(readErr := Some(e)) else rx }

  /** The read loop's reaction to one message; pong is the error of answering a ping, if it is not just dropped. */
  function Handle(c: Config, rx: Rx, msg: bytes, pong: Option<ReadError>): Rx
  {
    if |msg| > HEADER_SIZE + c.rxMax then SetErr(rx, Broken).(loop := Ended(Failed))
    else match Parse(msg, c.rxMax)
      case Err(_) => SetErr(rx, Broken).(loop := Ended(Failed))
      case Ok(p) =>
        if p.t == TYPE_DATA then (if p.payload == [] then rx else rx.(loop := Holding(p.payload)))
        else if p.t == TYPE_PING then (if pong.Some? then SetErr(rx, pong.value).(loop := Ended(Failed)) else rx)
        else if p.t == TYPE_PONG then rx
        else if ParseClose(p.payload).Ok? then SetErr(rx, EOF).(loop := Ended(PeerClosed))
        else SetErr(rx, Broken).(loop := Ended(Failed))
  }

  function DoRx(c: Config, rx: Rx, op: RxOp): Rx
  {
    match op
    case ChannelError(eof) =>
      if rx.loop.Reading? then SetErr(rx, ChannelErr(rx.term, eof)).(loop := Ended(Failed)) else rx
    case Deliver =>
      if rx.loop.Holding? && |rx.queue| < c.depth
        then rx.(queue := rx.queue + [rx.loop.payload], loop := Reading) else rx
    case DropHeld => if rx.loop.Holding? && rx.term then SetErr(rx, NetClosed).(loop := Ended(OurTerm)) else rx
    case RxClose => SetErr(rx, NetClosed).(closed := true)
    case RxShutdown => SetErr(rx, EOF)
    case RxForceEOF => rx.(readErr := Some(EOF))
    case RxTerminate => rx.(term := true)
    case TakeNext => if rx.cur == [] && rx.queue != [] then rx.(cur := rx.queue[0], queue := rx.queue[1..]) else rx
    case CopyOut(n) =>
      var k := Min(n, |rx.cur|);
      rx.(returned := rx.returned + rx.cur[..k], cur := rx.cur[k..])
  }

  // ------------------------------------------------------------ the whole

  datatype Op = OnTx(tx: TxOp) | Receive(pong: Option<ReadError>) | OnRx(rx: RxOp)

  function Init(): Sys
  {
    Sys(Tx(Free, false, false, false, false, [], None, false, History(0, [], map[], {})), [], None,
        Rx(Reading, [], [], [], false, false, None))
  }

  /** The frames in transit after the first has been received. */
  function Popped(s: Sys): Sys
    requires s.wire != []
  {
    s.(wire := s.wire[1..],
       closeIn := if s.closeIn.None? || s.closeIn.value == 0 then None else Some(s.closeIn.value - 1))
  }

  function Sending(c: Config, s: Sys, op: TxOp): Sys
  {
    var f := FrameOf(c, s.tx, op);
    s.(tx := DoTx(c, s.tx, op),
       wire := if f.Some? then s.wire + [f.value] else s.wire,
       closeIn := if f.Some? && f.value.t == TYPE_CLOSE then Some(|s.wire|) else s.closeIn)
  }

  function Do(c: Config, s: Sys, op: Op): Sys
  {
    match op
    case OnTx(t) => Sending(c, s, t)
    case Receive(pong) =>
      if !s.rx.loop.Reading? || s.wire == [] then s
      else Popped(s).(rx := Handle(c, s.rx, Bytes(s.wire[0].t, s.wire[0].payload), pong))
    case OnRx(r) => s.(rx := DoRx(c, s.rx, r))
  }

  function Run(c: Config, ops: seq<Op>): Sys
  {
    if ops == [] then Init() else Do(c, Run(c, DropLast(ops)), Last(ops))
  }

  // ------------------------------------------------------------- conservation

  function Flat(q: seq<bytes>): bytes
  {
    if q == [] then [] else q[0] + Flat(q[1..])
  }

  /** The application bytes one frame carries. */
  function DataOf(f: Sent): bytes { if f.t == TYPE_DATA then f.payload else [] }

  function DataIn(wire: seq<Sent>): bytes
  {
    if wire == [] then [] else DataOf(wire[0]) + DataIn(wire[1..])
  }

  /** Everything the receiving side has taken off the channel and not dropped. */
  function Arrived(rx: Rx): bytes
  {
    rx.returned + rx.cur + Flat(rx.queue) + if rx.loop.Holding? then rx.loop.payload else []
  }

  predicate WireOk(s: Sys)
  {
    && (forall i :: 0 <= i < |s.wire| ==> (s.wire[i].t == TYPE_CLOSE <==> s.closeIn == Some(i)))
    && (s.closeIn.Some? ==> s.closeIn.value < |s.wire| && s.tx.closeAt.Some?)
  }

  /** A close frame is sent once, and on a sealed stream it is the sender's last word. */
  predicate TxOk(tx: Tx)
  {
    && (tx.term ==> tx.closing)
    && (tx.closeAt.Some? ==> tx.closing && tx.closeAt.value <= |tx.committed|)
    && (tx.closeAt.Some? && tx.sealedFirst ==>
          Sealed(tx) && tx.closeAt.value == |tx.committed| && !(tx.lock.Writing? && tx.lock.checked))
  }

  /** The bytes committed before the close frame. */
  function BeforeClose(tx: Tx): bytes
    requires TxOk(tx) && tx.closeAt.Some?
  {
    tx.committed[..tx.closeAt.value]
  }

  predicate Conserved(s: Sys)
    requires WireOk(s) && TxOk(s.tx)
  {
    && (!s.rx.loop.Ended? ==> Arrived(s.rx) + DataIn(s.wire) == s.tx.committed)
    && (!s.rx.loop.Ended? && s.closeIn.Some? ==>
          Arrived(s.rx) + DataIn(s.wire[..s.closeIn.value]) == BeforeClose(s.tx))
    && (s.rx.loop == Ended(PeerClosed) ==> s.tx.closeAt.Some? && Arrived(s.rx) == BeforeClose(s.tx))
    && Arrived(s.rx) <= s.tx.committed
  }

  /** The error a reader will see: after the peer's close frame it is EOF, unless we closed. */
  predicate RxOk(rx: Rx)
  {
    && (rx.loop.Ended? ==> rx.readErr.Some?)
    && (rx.loop == Ended(PeerClosed) && !rx.closed ==> rx.readErr == Some(EOF))
    && (rx.readErr == Some(NetClosed) ==> rx.closed || rx.loop.Ended?)
    && (rx.readErr == Some(Broken) ==> rx.loop == Ended(Failed))
  }

  predicate Good(s: Sys)
  {
    WireOk(s) && TxOk(s.tx) && Conserved(s) && RxOk(s.rx)
  }

  // ------------------------------------------------------------- preservation

  lemma {:induction false} DataInSnoc(wire: seq<Sent>, m: Sent)
    ensures DataIn(wire + [m]) == DataIn(wire) + DataOf(m)
  {
    if wire == [] {
      assert [] + [m] == [m];
    } else {
      DataInSnoc(wire[1..], m);
      assert (wire + [m])[1..] == wire[1..] + [m];
      assert DataOf(wire[0]) + (DataIn(wire[1..]) + DataOf(m)) == DataOf(wire[0]) + DataIn(wire[1..]) + DataOf(m);
    }
  }

  lemma {:induction false} FlatSnoc(q: seq<bytes>, p: bytes)
    ensures Flat(q + [p]) == Flat(q) + p
  {
    if q == [] {
      assert [] + [p] == [p];
    } else {
      FlatSnoc(q[1..], p);
      assert (q + [p])[1..] == q[1..] + [p];
      assert q[0] + (Flat(q[1..]) + p) == q[0] + Flat(q[1..]) + p;
    }
  }

  lemma KeepsTxOk(c: Config, tx: Tx, op: TxOp)
    requires TxOk(tx)
    ensures TxOk(DoTx(c, tx, op))
  {
  }

  /** What a sending operation commits is what its frame carries. */
  lemma CommitsFrame(c: Config, tx: Tx, op: TxOp)
    requires TxOk(tx)
    ensures var f, tx' := FrameOf(c, tx, op), DoTx(c, tx, op);
      && tx'.committed == tx.committed + (if f.Some? then DataOf(f.value) else [])
      && (f.Some? && f.value.t == TYPE_CLOSE ==> tx.closeAt.None? && tx'.closeAt == Some(|tx.committed|))
      && (!(f.Some? && f.value.t == TYPE_CLOSE) ==> tx'.closeAt == tx.closeAt)
  {
    assert tx.committed + [] == tx.committed;
  }

  lemma SendingKeepsWire(c: Config, s: Sys, op: TxOp)
    requires WireOk(s) && TxOk(s.tx)
    ensures WireOk(Sending(c, s, op))
  {
    CommitsFrame(c, s.tx, op);
  }

  lemma SendingKeepsConserved(c: Config, s: Sys, op: TxOp)
    requires Good(s)
    ensures WireOk(Sending(c, s, op)) && TxOk(Sending(c, s, op).tx) && Conserved(Sending(c, s, op))
  {
    SendingKeepsWire(c, s, op);
    KeepsTxOk(c, s.tx, op);
    CommitsFrame(c, s.tx, op);
    var t := Sending(c, s, op);
    var f := FrameOf(c, s.tx, op);
    assert s.tx.committed <= t.tx.committed;
    if s.tx.closeAt.Some? { assert BeforeClose(t.tx) == BeforeClose(s.tx); }
    if f.Some? { SentIsCarried(s, f.value); }
    if t.closeIn.Some? && t.closeIn == s.closeIn {
      assert t.wire[..t.closeIn.value] == s.wire[..t.closeIn.value];
    }
    if f.Some? && f.value.t == TYPE_CLOSE { assert t.wire[..|s.wire|] == s.wire; }
  }

  lemma SentIsCarried(s: Sys, f: Sent)
    ensures Arrived(s.rx) + DataIn(s.wire + [f]) == Arrived(s.rx) + DataIn(s.wire) + DataOf(f)
  {
    DataInSnoc(s.wire, f);
    Regroup(Arrived(s.rx), DataIn(s.wire), DataOf(f));
  }

  /** The read loop's reaction to a frame of this codec, without the bytes. */
  function HandleFrame(c: Config, rx: Rx, f: Sent, pong: Option<ReadError>): Rx
  {
    if |f.payload| > c.rxMax then SetErr(rx, Broken).(loop := Ended(Failed))
    else if f.t == TYPE_DATA then (if f.payload == [] then rx else rx.(loop := Holding(f.payload)))
    else if f.t == TYPE_PING && pong.Some? then SetErr(rx, pong.value).(loop := Ended(Failed))
    else if f.t == TYPE_CLOSE then
      if ParseClose(f.payload).Ok? then SetErr(rx, EOF).(loop := Ended(PeerClosed))
      else SetErr(rx, Broken).(loop := Ended(Failed))
    else rx
  }

  lemma HandleIsHandleFrame(c: Config, rx: Rx, f: Sent, pong: Option<ReadError>)
    ensures Handle(c, rx, Bytes(f.t, f.payload), pong) == HandleFrame(c, rx, f, pong)
  {
    ParseOfBytes(f.t, f.payload, c.rxMax);
  }

  lemma HandleKeepsRxOk(c: Config, rx: Rx, f: Sent, pong: Option<ReadError>)
    requires RxOk(rx) && rx.loop.Reading?
    ensures RxOk(HandleFrame(c, rx, f, pong))
  {
    match rx.readErr
    case None =>
    case Some(EOF) =>
    case Some(NetClosed) =>
    case Some(Broken) =>
  }

  lemma PoppedWire(s: Sys)
    requires WireOk(s) && s.wire != []
    ensures WireOk(Popped(s))
    ensures s.wire[0].t == TYPE_CLOSE <==> s.closeIn == Some(0)
  {
    assert forall i :: 0 <= i < |s.wire| - 1 ==> s.wire[1..][i] == s.wire[i + 1];
  }

  lemma Regroup(a: bytes, d: bytes, rest: bytes)
    ensures a + (d + rest) == a + d + rest
  {
  }

  lemma DataInFirst(wire: seq<Sent>, k: nat)
    requires k < |wire|
    ensures DataIn(wire[..k + 1]) == DataOf(wire[0]) + DataIn(wire[1..][..k])
  {
    assert wire[..k + 1][1..] == wire[1..][..k];
  }

  /** What has arrived, the first frame, and the rest of the wire make up what was committed. */
  lemma PoppedData(s: Sys)
    requires Good(s) && s.wire != [] && s.rx.loop.Reading?
    ensures var a, d, t := Arrived(s.rx), DataOf(s.wire[0]), Popped(s);
      && WireOk(t)
      && a + d + DataIn(t.wire) == s.tx.committed
      && (t.closeIn.Some? ==> a + d + DataIn(t.wire[..t.closeIn.value]) == BeforeClose(s.tx))
      && (s.wire[0].t == TYPE_CLOSE ==> s.tx.closeAt.Some? && a == BeforeClose(s.tx))
  {
    PoppedWire(s);
    var a, d, t := Arrived(s.rx), DataOf(s.wire[0]), Popped(s);
    Regroup(a, d, DataIn(t.wire));
    if t.closeIn.Some? {
      var k := t.closeIn.value;
      DataInFirst(s.wire, k);
      Regroup(a, d, DataIn(t.wire[..k]));
    }
    if s.closeIn == Some(0) { assert a + DataIn(s.wire[..0]) == a; }
  }

  /** A data frame is held, a close frame ends the loop, a control frame changes nothing. */
  lemma HandleTakesIn(c: Config, rx: Rx, f: Sent, pong: Option<ReadError>)
    requires rx.loop.Reading?
    ensures var rx' := HandleFrame(c, rx, f, pong);
      && (!rx'.loop.Ended? ==> Arrived(rx') == Arrived(rx) + DataOf(f))
      && (rx'.loop.Ended? ==> Arrived(rx') == Arrived(rx) && rx'.loop != Ended(OurTerm))
      && (rx'.loop == Ended(PeerClosed) ==> f.t == TYPE_CLOSE)
  {
    var a := rx.returned + rx.cur + Flat(rx.queue);
    assert a + [] == a;
  }

  lemma HandleKeepsConserved(c: Config, s: Sys, pong: Option<ReadError>)
    requires Good(s) && s.wire != [] && s.rx.loop.Reading?
    ensures var t := Popped(s).(rx := HandleFrame(c, s.rx, s.wire[0], pong)); WireOk(t) && Conserved(t)
  {
    PoppedData(s);
    HandleTakesIn(c, s.rx, s.wire[0], pong);
  }

  lemma CopyKeepsArrived(rx: Rx, k: nat)
    requires k <= |rx.cur|
    ensures Arrived(rx.(returned := rx.returned + rx.cur[..k], cur := rx.cur[k..])) == Arrived(rx)
  {
    assert rx.returned + rx.cur == rx.returned + rx.cur[..k] + rx.cur[k..];
  }

  lemma TakeKeepsArrived(rx: Rx)
    requires rx.cur == [] && rx.queue != []
    ensures Arrived(rx.(cur := rx.queue[0], queue := rx.queue[1..])) == Arrived(rx)
  {
    assert rx.returned + rx.cur == rx.returned;
    Regroup(rx.returned, rx.queue[0], Flat(rx.queue[1..]));
  }

  lemma DeliverKeepsArrived(rx: Rx)
    requires rx.loop.Holding?
    ensures Arrived(rx.(queue := rx.queue + [rx.loop.payload], loop := Reading)) == Arrived(rx)
  {
    FlatSnoc(rx.queue, rx.loop.payload);
    var a := rx.returned + rx.cur;
    Regroup(a, Flat(rx.queue), rx.loop.payload);
    assert a + Flat(rx.queue + [rx.loop.payload]) + [] == a + Flat(rx.queue + [rx.loop.payload]);
  }

  lemma RxKeepsArrived(c: Config, rx: Rx, op: RxOp)
    ensures var rx' := DoRx(c, rx, op);
      && Arrived(rx') <= Arrived(rx)
      && (!rx'.loop.Ended? || rx.loop.Ended? ==> Arrived(rx') == Arrived(rx))
      && (rx.loop.Ended? ==> rx'.loop == rx.loop)
      && (rx'.loop == Ended(PeerClosed) ==> rx.loop == Ended(PeerClosed))
  {
    var rx' := DoRx(c, rx, op);
    match op
    case Deliver => if rx.loop.Holding? { DeliverKeepsArrived(rx); }
    case TakeNext => if rx.cur == [] && rx.queue != [] { TakeKeepsArrived(rx); }
    case CopyOut(n) => CopyKeepsArrived(rx, Min(n, |rx.cur|));
    case _ =>
  }

  lemma KeepsRxOk(c: Config, rx: Rx, op: RxOp)
    requires RxOk(rx)
    ensures RxOk(DoRx(c, rx, op))
  {
    match rx.readErr
    case None =>
    case Some(EOF) =>
    case Some(NetClosed) =>
    case Some(Broken) =>
  }

  lemma DoKeepsGood(c: Config, s: Sys, op: Op)
    requires Good(s)
    ensures Good(Do(c, s, op))
  {
    match op
    case OnTx(t) => SendingKeepsConserved(c, s, t);
    case Receive(pong) =>
      if s.rx.loop.Reading? && s.wire != [] {
        HandleIsHandleFrame(c, s.rx, s.wire[0], pong);
        HandleKeepsRxOk(c, s.rx, s.wire[0], pong);
        HandleKeepsConserved(c, s, pong);
      }
    case OnRx(r) =>
      RxKeepsArrived(c, s.rx, r);
      KeepsRxOk(c, s.rx, r);
  }

  lemma {:induction false} RunKeepsGood(c: Config, ops: seq<Op>)
    ensures Good(Run(c, ops))
  {
    if ops != [] {
      RunKeepsGood(c, DropLast(ops));
      DoKeepsGood(c, Run(c, DropLast(ops)), Last(ops));
    }
  }

  // ----------------------------------------------------------- main theorems

  /**
    The end-to-end byte stream. In every run, what Read has returned, then what it
    has started on, then what is queued, then what the read loop holds, then what
    is in transit, is exactly what Write has committed, in order; and when the
    read loop is over, what has arrived is a prefix of it.
   */
  lemma ByteStream(c: Config, ops: seq<Op>)
    ensures var s := Run(c, ops);
      && Arrived(s.rx) <= s.tx.committed
      && (!s.rx.loop.Ended? ==> Arrived(s.rx) + DataIn(s.wire) == s.tx.committed)
  {
    RunKeepsGood(c, ops);
  }

  /**
    Once the peer's close frame has ended the read loop, a reader not closed
    locally that has drained everything gets EOF, having read exactly the bytes
    committed before that frame. If the sender was sealed by then, those are all the
    bytes it ever commits.
   */
  lemma CompleteBeforeEOF(c: Config, ops: seq<Op>)
    requires var rx := Run(c, ops).rx;
      rx.loop == Ended(PeerClosed) && rx.cur == [] && rx.queue == [] && !rx.closed
    ensures var s := Run(c, ops);
      && s.rx.readErr == Some(EOF)
      && s.tx.closeAt.Some? && s.tx.closeAt.value <= |s.tx.committed|
      && s.rx.returned == s.tx.committed[..s.tx.closeAt.value]
      && (s.tx.sealedFirst ==> s.rx.returned == s.tx.committed)
  {
    RunKeepsGood(c, ops);
    var rx := Run(c, ops).rx;
    assert Arrived(rx) == rx.returned;
  }

  // ---------------------------------------------- when a close frame is the last word

  lemma RunNext(c: Config, ops: seq<Op>, op: Op)
    ensures Run(c, ops + [op]) == Do(c, Run(c, ops), op)
  {
    assert DropLast(ops + [op]) == ops;
  }

  /** Whatever happens next, nothing more is ever committed. */
  ghost predicate NothingMore(c: Config, ops: seq<Op>)
  {
    forall more :: Run(c, ops + more).tx.committed == Run(c, ops).tx.committed
  }

  /**
    The exact condition. A close frame that is sent is the sender's last word, in
    every continuation, if and only if the stream was sealed before it: closed
    locally, or its own read loop over.
   */
  lemma CloseIsLastWordExactly(c: Config, ops: seq<Op>, code: uint16, reason: bytes)
    requires FrameOf(c, Run(c, ops).tx, SendClose(code, reason)).Some?
    ensures NothingMore(c, ops + [OnTx(SendClose(code, reason))]) <==> Sealed(Run(c, ops).tx)
  {
    var tx := Run(c, ops).tx;
    var sent := ops + [OnTx(SendClose(code, reason))];
    RunNext(c, ops, OnTx(SendClose(code, reason)));
    RunKeepsGood(c, ops);
    if Sealed(tx) {
      forall more ensures Run(c, sent + more).tx.committed == Run(c, sent).tx.committed {
        CloseStands(c, sent, more);
      }
    } else {
      OneMoreWrite(c, sent);
      assert Run(c, sent + OneWrite()).tx.committed != Run(c, sent).tx.committed;
    }
  }

  /**
    A local close is not needed: the usual shutdown, which answers the end of the
    own read loop, is a last word too.
   */
  lemma LastWordWithoutLocalClose(c: Config, code: uint16, reason: bytes)
    ensures var ops := [OnTx(LoopOver)]; var tx := Run(c, ops).tx;
      && !tx.closed && FrameOf(c, tx, SendClose(code, reason)).Some?
      && NothingMore(c, ops + [OnTx(SendClose(code, reason))])
  {
    RunNext(c, [], OnTx(LoopOver));
    assert [] + [OnTx(LoopOver)] == [OnTx(LoopOver)];
    CloseIsLastWordExactly(c, [OnTx(LoopOver)], code, reason);
  }

  /** After a close frame on a sealed stream no continuation commits anything. */
  lemma {:induction false} CloseStands(c: Config, ops: seq<Op>, more: seq<Op>)
    requires var tx := Run(c, ops).tx; tx.closeAt.Some? && tx.sealedFirst
    ensures var tx, tx' := Run(c, ops).tx, Run(c, ops + more).tx;
      tx'.closeAt == tx.closeAt && tx'.sealedFirst && tx'.committed == tx.committed
  {
    if more == [] {
      assert ops + more == ops;
    } else {
      var before := ops + DropLast(more);
      CloseStands(c, ops, DropLast(more));
      RunKeepsGood(c, before);
      assert ops + more == before + [Last(more)];
      RunNext(c, before, Last(more));
      StepStands(c, Run(c, before), Last(more));
    }
  }

  lemma StepStands(c: Config, s: Sys, op: Op)
    requires TxOk(s.tx) && s.tx.closeAt.Some? && s.tx.sealedFirst
    ensures var tx := Do(c, s, op).tx;
      tx.closeAt == s.tx.closeAt && tx.sealedFirst && tx.committed == s.tx.committed
  {
  }

  const ONE: bytes := [7]

  function OneWrite(): seq<Op> { [OnTx(Acquire(ONE)), OnTx(Check), OnTx(Chunk)] }

  /** A Write of one byte that finds the lock free and no terminal flag set commits it. */
  lemma OneMoreWrite(c: Config, ops: seq<Op>)
    requires var tx := Run(c, ops).tx; tx.lock.Free? && !Sealed(tx) && !tx.term
    ensures var s, t := Run(c, ops), Run(c, ops + OneWrite());
      && t.tx.committed == s.tx.committed + ONE && t.rx == s.rx
      && t.wire == s.wire + [Parsed(TYPE_DATA, ONE)] && t.closeIn == s.closeIn
  {
    var s := Run(c, ops);
    assert Run(c, ops + OneWrite()) == Sending(c, Sending(c, Sending(c, s, Acquire(ONE)), Check), Chunk) by {
      RunThree(c, ops, OnTx(Acquire(ONE)), OnTx(Check), OnTx(Chunk));
    }
    ThreeSteps(c, s);
  }

  lemma RunThree(c: Config, ops: seq<Op>, x: Op, y: Op, z: Op)
    ensures Run(c, ops + [x, y, z]) == Do(c, Do(c, Do(c, Run(c, ops), x), y), z)
  {
    assert Run(c, ops + [x]) == Do(c, Run(c, ops), x) by { RunNext(c, ops, x); }
    assert Run(c, ops + [x] + [y]) == Do(c, Run(c, ops + [x]), y) by { RunNext(c, ops + [x], y); }
    assert Run(c, ops + [x] + [y] + [z]) == Do(c, Run(c, ops + [x] + [y]), z) by { RunNext(c, ops + [x] + [y], z); }
    assert ops + [x] + [y] + [z] == ops + [x, y, z];
  }

  lemma ThreeSteps(c: Config, s: Sys)
    requires s.tx.lock.Free? && !Sealed(s.tx) && !s.tx.term
    ensures var t := Sending(c, Sending(c, Sending(c, s, Acquire(ONE)), Check), Chunk);
      && t.tx.committed == s.tx.committed + ONE && t.rx == s.rx
      && t.wire == s.wire + [Parsed(TYPE_DATA, ONE)] && t.closeIn == s.closeIn
  {
    var a := Sending(c, s, Acquire(ONE));
    assert a.tx.lock.Writing? && a.tx.lock.rest == ONE && !a.tx.lock.checked && a.tx.committed == s.tx.committed;
    var b := Sending(c, a, Check);
    assert b.tx.lock == a.tx.lock.(checked := true) && b.tx.committed == s.tx.committed;
    assert NextChunk(c, ONE) == ONE;
  }

  /** Everything sent has been read, and nothing keeps the rest from being. */
  predicate KeptUp(s: Sys)
  {
    && s.wire == [] && s.rx.loop.Reading? && s.rx.queue == [] && s.rx.cur == []
    && s.rx.readErr.None? && !s.rx.closed
  }

  /** A close frame the peer accepts. */
  predicate Readable(c: Config, code: uint16, reason: bytes)
  {
    |CloseFrame(code, reason).payload| <= c.rxMax && (Valid(reason) || |reason| > MAX_CLOSE_REASON)
  }

  /** The peer's close frame has been read and nothing is left: the next Read returns EOF. */
  predicate SeesEOF(s: Sys)
  {
    s.rx.loop == Ended(PeerClosed) && s.rx.queue == [] && s.rx.cur == [] && !s.rx.closed && s.rx.readErr == Some(EOF)
  }

  /**
    What that means to a reader: wherever the receiving side has kept up, a close
    frame it can read, sent by a stream that was not sealed, can be followed by a
    byte the sender commits and the reader, who gets EOF, never sees.
   */
  lemma DataAfterCloseFrame(c: Config, ops: seq<Op>, code: uint16, reason: bytes) returns (more: seq<Op>)
    requires FrameOf(c, Run(c, ops).tx, SendClose(code, reason)).Some? && !Sealed(Run(c, ops).tx)
    requires KeptUp(Run(c, ops)) && Readable(c, code, reason)
    ensures more != [] && more[0] == OnTx(SendClose(code, reason))
    ensures var s, t := Run(c, ops), Run(c, ops + more);
      SeesEOF(t) && t.rx.returned == s.tx.committed && t.tx.committed == s.tx.committed + ONE
  {
    var close := OnTx(SendClose(code, reason));
    var sent := ops + [close];
    var written := sent + OneWrite();
    more := [close] + OneWrite() + [Receive(None)];
    assert ops + more == written + [Receive(None)];
    RunNext(c, ops, close);
    assert !Run(c, ops).tx.term by { RunKeepsGood(c, ops); }
    OneMoreWrite(c, sent);
    RunNext(c, written, Receive(None));
    assert Run(c, ops).rx.returned == Run(c, ops).tx.committed by {
      RunKeepsGood(c, ops);
      Drained(Run(c, ops));
    }
    CloseRead(c, Run(c, written), code, reason);
  }

  /** A reader who is told EOF has everything ever committed. */
  ghost predicate EOFIsComplete(c: Config, ops: seq<Op>)
  {
    forall more :: SeesEOF(Run(c, ops + more)) ==> Run(c, ops + more).rx.returned == Run(c, ops + more).tx.committed
  }

  /** A close frame of a sealed stream: EOF means completeness in every continuation. */
  lemma CompleteAfter(c: Config, ops: seq<Op>, more: seq<Op>)
    requires var tx := Run(c, ops).tx; tx.closeAt.Some? && tx.sealedFirst
    requires SeesEOF(Run(c, ops + more))
    ensures Run(c, ops + more).rx.returned == Run(c, ops + more).tx.committed
  {
    CloseStands(c, ops, more);
    CompleteBeforeEOF(c, ops + more);
  }

  /** And of one that was not, it does not. */
  lemma IncompleteAfter(c: Config, ops: seq<Op>, code: uint16, reason: bytes)
    requires FrameOf(c, Run(c, ops).tx, SendClose(code, reason)).Some? && !Sealed(Run(c, ops).tx)
    requires KeptUp(Run(c, ops)) && Readable(c, code, reason)
    ensures !EOFIsComplete(c, ops + [OnTx(SendClose(code, reason))])
  {
    var sent := ops + [OnTx(SendClose(code, reason))];
    var more := DataAfterCloseFrame(c, ops, code, reason);
    assert ops + more == sent + more[1..];
    assert SeesEOF(Run(c, sent + more[1..]));
  }

  /** So for a reader who has kept up, EOF means completeness if and only if the sender was sealed first. */
  lemma EOFIsCompleteExactly(c: Config, ops: seq<Op>, code: uint16, reason: bytes)
    requires FrameOf(c, Run(c, ops).tx, SendClose(code, reason)).Some?
    requires KeptUp(Run(c, ops)) && Readable(c, code, reason)
    ensures EOFIsComplete(c, ops + [OnTx(SendClose(code, reason))]) <==> Sealed(Run(c, ops).tx)
  {
    var sent := ops + [OnTx(SendClose(code, reason))];
    if Sealed(Run(c, ops).tx) {
      RunNext(c, ops, OnTx(SendClose(code, reason)));
      assert Run(c, sent).tx.closeAt.Some? && Run(c, sent).tx.sealedFirst;
      forall more | SeesEOF(Run(c, sent + more))
        ensures Run(c, sent + more).rx.returned == Run(c, sent + more).tx.committed
      {
        CompleteAfter(c, sent, more);
      }
    } else {
      IncompleteAfter(c, ops, code, reason);
    }
  }

  lemma Drained(s: Sys)
    requires Good(s) && s.wire == [] && s.rx.loop.Reading? && s.rx.queue == [] && s.rx.cur == []
    ensures s.rx.returned == s.tx.committed
  {
    assert Arrived(s.rx) + DataIn([]) == s.rx.returned;
  }

  /** The read loop takes a readable close frame off the channel. */
  lemma CloseRead(c: Config, s: Sys, code: uint16, reason: bytes)
    requires s.wire != [] && s.wire[0] == CloseFrame(code, reason) && s.rx.loop.Reading?
    requires |CloseFrame(code, reason).payload| <= c.rxMax && (Valid(reason) || |reason| > MAX_CLOSE_REASON)
    ensures Do(c, s, Receive(None)).tx == s.tx
    ensures Do(c, s, Receive(None)).rx == SetErr(s.rx, EOF).(loop := Ended(PeerClosed))
  {
    CloseRoundTrip(code, reason);
    HandleIsHandleFrame(c, s.rx, CloseFrame(code, reason), None);
  }
}
