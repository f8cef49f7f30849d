/**
  What a reader is told: which error a drained reader meets and where it comes from,
  and what the read loop makes of each frame.
 */
module Answers {
  import opened Common
  import opened Utf8
  import opened Frame
  import opened StreamRun

  /** What a call of Read comes to: n bytes, an error, a passed deadline, or waiting for more. */
  datatype ReadResult = Got(n: nat) | Fails(error: ReadError) | TimedOut | WouldBlock

  /**
    What a Read of up to n bytes that has the reader lock is told. A local close
    discards what is queued; queued data comes before the terminal error, and that
    before a deadline.
   */
  function Answer(rx: Rx, n: nat, expired: bool): ReadResult
  {
    if rx.cur != [] then Got(Min(n, |rx.cur|))
    else if rx.closed then Fails(NetClosed)
    else if rx.queue != [] then Got(Min(n, |rx.queue[0]|))
    else if rx.loop.Ended? then Fails(if rx.readErr.Some? then rx.readErr.value else EOF)
    else if expired then TimedOut
    else WouldBlock
  }

  // ------------------------------------------------------------ the first error

  predicate Forces(op: Op) { op == OnRx(RxForceEOF) }

  /** The read loop is over and e is the error there is. */
  predicate EndedWith(rx: Rx, e: ReadError) { rx.loop.Ended? && rx.readErr == Some(e) }

  lemma EndStands(c: Config, s: Sys, op: Op, e: ReadError)
    requires EndedWith(s.rx, e) && !Forces(op)
    ensures EndedWith(Do(c, s, op).rx, e)
  {
  }

  /** The first error recorded is the one that stands, unless the owner forces an end of file. */
  lemma {:induction false} FirstErrorStands(c: Config, ops: seq<Op>, more: seq<Op>, e: ReadError)
    requires EndedWith(Run(c, ops).rx, e) && forall op <- more :: !Forces(op)
    ensures EndedWith(Run(c, ops + more).rx, e)
  {
    if more == [] {
      assert ops + more == ops;
    } else {
      var before := ops + DropLast(more);
      FirstErrorStands(c, ops, DropLast(more), e);
      EndStands(c, Run(c, before), Last(more), e);
      assert ops + more == before + [Last(more)];
      RunNext(c, before, Last(more));
    }
  }

  /**
    Once the read loop has ended with e, every later Read gets data that had arrived,
    or e, or, after a local close, the error of that.
   */
  lemma ErrorIsTold(c: Config, ops: seq<Op>, more: seq<Op>, e: ReadError, n: nat, expired: bool)
    requires EndedWith(Run(c, ops).rx, e) && forall op <- more :: !Forces(op)
    ensures var rx := Run(c, ops + more).rx; var a := Answer(rx, n, expired);
      if rx.cur != [] || (rx.queue != [] && !rx.closed) then a.Got?
      else a == Fails(if rx.closed then NetClosed else e)
  {
    FirstErrorStands(c, ops, more, e);
  }

  /** A channel that fails under a stream not being torn down breaks it, unless the failure is an end of file. */
  lemma BreakIsRecorded(c: Config, ops: seq<Op>, eof: bool)
    requires Run(c, ops).rx.loop.Reading? && Run(c, ops).rx.readErr.None?
    ensures var rx, rx' := Run(c, ops).rx, Run(c, ops + [OnRx(ChannelError(eof))]).rx;
      && EndedWith(rx', if rx.term then NetClosed else if eof then EOF else Broken)
      && rx'.cur == rx.cur && rx'.queue == rx.queue && rx'.returned == rx.returned
      && rx'.closed == rx.closed && rx'.term == rx.term
  {
    RunNext(c, ops, OnRx(ChannelError(eof)));
  }

  /** So a truncated stream never looks complete: its reader is told that it broke. */
  lemma BreakIsTold(c: Config, ops: seq<Op>, more: seq<Op>, n: nat, expired: bool)
    requires var rx := Run(c, ops).rx; rx.loop.Reading? && rx.readErr.None? && !rx.term
    requires forall op <- more :: !Forces(op)
    ensures var rx := Run(c, ops + [OnRx(ChannelError(false))] + more).rx;
      rx.cur == [] && rx.queue == [] && !rx.closed ==> Answer(rx, n, expired) == Fails(Broken)
  {
    BreakIsRecorded(c, ops, false);
    ErrorIsTold(c, ops + [OnRx(ChannelError(false))], more, Broken, n, expired);
  }

  /** After the peer's close frame a drained reader is told EOF, having read all that was committed before it. */
  lemma EndIsTold(c: Config, ops: seq<Op>, n: nat, expired: bool)
    requires var rx := Run(c, ops).rx;
      rx.loop == Ended(PeerClosed) && rx.cur == [] && rx.queue == [] && !rx.closed
    ensures var s := Run(c, ops);
      && Answer(s.rx, n, expired) == Fails(EOF)
      && s.tx.closeAt.Some? && s.tx.closeAt.value <= |s.tx.committed|
      && s.rx.returned == s.tx.committed[..s.tx.closeAt.value]
  {
    CompleteBeforeEOF(c, ops);
  }

  /** Step i is one that may end a stream with EOF: a shutdown, an end of file of the channel, or the peer's close. */
  ghost predicate EndsIt(c: Config, ops: seq<Op>, i: nat)
    requires i < |ops|
  {
    || ops[i] == OnRx(RxForceEOF) || ops[i] == OnRx(RxShutdown) || ops[i] == OnRx(ChannelError(true))
    || ops[i] == Receive(Some(EOF))
    || (ops[i].Receive? && Run(c, ops[..i + 1]).rx.loop == Ended(PeerClosed))
  }

  lemma EOFFromStep(c: Config, s: Sys, op: Op)
    requires s.rx.readErr != Some(EOF) && Do(c, s, op).rx.readErr == Some(EOF)
    ensures || op == OnRx(RxForceEOF) || op == OnRx(RxShutdown) || op == OnRx(ChannelError(true))
            || op == Receive(Some(EOF)) || (op.Receive? && Do(c, s, op).rx.loop == Ended(PeerClosed))
  {
  }

  lemma {:induction false} EOFRecordedByStep(c: Config, ops: seq<Op>) returns (i: nat)
    requires Run(c, ops).rx.readErr == Some(EOF)
    ensures i < |ops| && EndsIt(c, ops, i)
  {
    var before := DropLast(ops);
    if Run(c, before).rx.readErr == Some(EOF) {
      i := EOFRecordedByStep(c, before);
      assert before[..i + 1] == ops[..i + 1];
    } else {
      i := |before|;
      EOFFromStep(c, Run(c, before), Last(ops));
      assert ops[..i + 1] == ops;
    }
  }

  /** EOF is never invented: a reader is told it only after a step that may end the stream so. */
  lemma EOFHasACause(c: Config, ops: seq<Op>, n: nat, expired: bool) returns (i: nat)
    requires Answer(Run(c, ops).rx, n, expired) == Fails(EOF)
    ensures i < |ops| && EndsIt(c, ops, i)
  {
    RunKeepsGood(c, ops);
    i := EOFRecordedByStep(c, ops);
  }

  // -------------------------------------------------------------- frame by frame

  /** Of the receiving side only the loop and a first error changed. */
  predicate EndsLoop(rx: Rx, rx': Rx, why: Why, e: ReadError)
  {
    rx' == rx.(loop := Ended(why), readErr := if rx.readErr.Some? then rx.readErr else Some(e))
  }

  /** A message that is no frame, or too large, breaks the stream. */
  lemma MalformedBreaks(c: Config, rx: Rx, msg: bytes, pong: Option<ReadError>)
    requires |msg| > HEADER_SIZE + c.rxMax || Parse(msg, c.rxMax).Err?
    ensures EndsLoop(rx, Handle(c, rx, msg, pong), Failed, Broken)
  {
  }

  /** In t the read loop has reacted to the first frame that was in transit in s. */
  predicate Received(c: Config, s: Sys, t: Sys, pong: Option<ReadError>)
    requires s.wire != []
  {
    var f := s.wire[0];
    && t.wire == s.wire[1..] && t.tx == s.tx
    && (|f.payload| > c.rxMax ==> EndsLoop(s.rx, t.rx, Failed, Broken))
    && (|f.payload| <= c.rxMax && f.t == 1 ==>
          t.rx == if f.payload == [] then s.rx else s.rx.(loop := Holding(f.payload)))
    && (|f.payload| <= c.rxMax && f.t == 2 ==>
          if pong.Some? then EndsLoop(s.rx, t.rx, Failed, pong.value) else t.rx == s.rx)
    && (|f.payload| <= c.rxMax && f.t == 3 ==> t.rx == s.rx)
    && (|f.payload| <= c.rxMax && f.t == 4 ==>
          if |f.payload| <= 258 && Valid(f.payload[2..])
          then EndsLoop(s.rx, t.rx, PeerClosed, EOF) else EndsLoop(s.rx, t.rx, Failed, Broken))
  }

  /**
    Frame by frame: data is held, a ping that cannot be answered ends the loop with
    that error, a pong changes nothing, a readable close frame ends the stream, and
    an unreadable one or a frame over the limit breaks it.
   */
  lemma ReceivesExactly(c: Config, ops: seq<Op>, pong: Option<ReadError>)
    requires Run(c, ops).rx.loop.Reading? && Run(c, ops).wire != []
    ensures Received(c, Run(c, ops), Run(c, ops + [Receive(pong)]), pong)
  {
    RunNext(c, ops, Receive(pong));
    FrameReceived(c, Run(c, ops), pong);
  }

  lemma FrameReceived(c: Config, s: Sys, pong: Option<ReadError>)
    requires s.rx.loop.Reading? && s.wire != []
    ensures Received(c, s, Do(c, s, Receive(pong)), pong)
  {
    var f := s.wire[0];
    ParseOfBytes(f.t, f.payload, c.rxMax);
    if f.t == TYPE_CLOSE { CloseReadExactly(f.payload); }
  }
}
