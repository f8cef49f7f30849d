/**
  The receiving half of a stream as the object it is, with its pool of receive
  buffers. The read loop fills a buffer, hands it through the bounded queue to
  Read, and Read gives it back when it has been drained. Every method is one step
  of the receiving side in StreamRun.dfy, whose state the ghost field rx carries.
 */
module ReceiveSide {
  import opened Common
  import opened Utf8
  import opened Frame
  import opened StreamRun
  import opened Answers

  const DEFAULT_PAYLOAD := 16384
  const DEFAULT_READ_BUFFER := 1048576

  /** The frame limit and queue depth of a new stream. */
  function Sizing(maxPayload: int, readBuffer: int): (c: Config)
    ensures c.rxMax == c.txMax
    ensures maxPayload <= 0 ==> c.rxMax == 16384
    ensures maxPayload > 262144 ==> c.rxMax == 262144
    ensures 0 < maxPayload <= PAYLOAD_LIMIT ==> c.rxMax == maxPayload
    ensures var r := if readBuffer <= 0 then 1048576 else readBuffer;
      if r >= c.rxMax then c.depth * c.rxMax <= r < (c.depth + 1) * c.rxMax else c.depth == 1
  {
    var p := Min(if maxPayload <= 0 then DEFAULT_PAYLOAD else maxPayload, PAYLOAD_LIMIT);
    var r := if readBuffer <= 0 then DEFAULT_READ_BUFFER else readBuffer;
    WholeFrames(r, p);
    Config(p, p, Max(1, r / p))
  }

  lemma WholeFrames(r: int, p: int)
    requires r > 0 && p > 0
    ensures r / p * p <= r < (r / p + 1) * p
    ensures r >= p <==> r / p >= 1
  {
  }

  /** A whole data message: the first n bytes of a pooled buffer. */
  datatype Message = Message(buf: array<byte>, n: nat)

  /** Which of its ready cases a call takes when it asks for the reader lock. */
  datatype Entry = GetsLock | SeesClosed | SeesDeadline

  /** The receiving side when Read has a payload to copy from, if there is one. */
  function Ready(c: Config, rx: Rx): Rx { if rx.cur == [] then DoRx(c, rx, TakeNext) else rx }

  class Receiver {
    const cfg: Config
    var free: seq<array<byte>>
    var dataCh: seq<Message>
    /** The loop's buffer and, when it holds a message for the queue, its length. */
    var loopBuf: array?<byte>
    var heldLen: nat
    /** The buffer Read is draining, and the part of it not yet returned. */
    var curBuf: array?<byte>
    var curLo: nat
    var curHi: nat
    var done: bool
    var closed: bool
    var term: bool
    var readErr: Option<ReadError>
    /** How many buffers the loop has made, and how many it kept when it ended. */
    ghost var made: nat
    ghost var kept: nat
    ghost var rx: Rx

    /** The number of buffers owned by the free list, the loop, the queue and Read. */
    ghost function Owned(): nat
      reads this
    {
      |free| + |dataCh| + (if loopBuf == null then 0 else 1) + (if curBuf == null then 0 else 1)
    }

    /** No buffer has two owners. */
    ghost predicate Disjoint()
      reads this
    {
      && (forall i, j :: 0 <= i < j < |free| ==> free[i] != free[j])
      && (forall i, j :: 0 <= i < j < |dataCh| ==> dataCh[i].buf != dataCh[j].buf)
      && (forall b <- free, m <- dataCh :: b != m.buf)
      && (forall b <- free :: b != loopBuf && b != curBuf)
      && (forall m <- dataCh :: m.buf != loopBuf && m.buf != curBuf)
      && (loopBuf != null ==> loopBuf != curBuf)
    }

    /** Every buffer fits one whole message, and no message in the queue is empty. */
    ghost predicate Sized()
      reads this
    {
      && (forall b <- free :: b.Length == HEADER_SIZE + cfg.rxMax)
      && (forall m <- dataCh :: m.buf.Length == HEADER_SIZE + cfg.rxMax && HEADER_SIZE < m.n <= m.buf.Length)
      && (loopBuf != null ==> loopBuf.Length == HEADER_SIZE + cfg.rxMax && heldLen <= loopBuf.Length)
      && (curBuf != null ==> curBuf.Length == HEADER_SIZE + cfg.rxMax && curLo < curHi <= curBuf.Length)
    }

    /** The buffers hold what the represented state says. */
    ghost predicate Represents()
      requires Sized()
      reads this, loopBuf, curBuf, set m <- dataCh :: m.buf
    {
      && |rx.queue| == |dataCh| <= cfg.depth
      && (forall i :: 0 <= i < |dataCh| ==> dataCh[i].buf[HEADER_SIZE..dataCh[i].n] == rx.queue[i])
      && rx.cur == (if curBuf == null then [] else curBuf[curLo..curHi])
      && (done <==> rx.loop.Ended?) && (done ==> loopBuf == null)
      && (rx.loop.Holding? <==> loopBuf != null && heldLen > 0)
      && (rx.loop.Holding? ==> heldLen > HEADER_SIZE && loopBuf[HEADER_SIZE..heldLen] == rx.loop.payload)
      && rx.closed == closed && rx.term == term && rx.readErr == readErr
    }

    /** made counts every buffer: none is ever lost while the loop runs. */
    ghost predicate Counted()
      reads this
    {
      made == Owned() + kept && made <= cfg.depth + 2 && (kept > 0 ==> done)
    }

    ghost predicate Valid()
      reads this, loopBuf, curBuf, set m <- dataCh :: m.buf
    {
      Disjoint() && Sized() && Represents() && Counted()
    }

    constructor (maxPayload: int, readBuffer: int)
      ensures Valid() && cfg == Sizing(maxPayload, readBuffer)
      ensures rx == Init().rx && made == 0
    {
      cfg := Sizing(maxPayload, readBuffer);
      free, dataCh, loopBuf, heldLen := [], [], null, 0;
      curBuf, curLo, curHi := null, 0, 0;
      done, closed, term, readErr := false, false, false, None;
      made, kept, rx := 0, 0, Init().rx;
    }

    /** Between frames the loop takes a free buffer, or makes one if there is none. */
    method GetBuf()
      requires Valid() && loopBuf == null && !done
      modifies this`free, this`loopBuf, this`heldLen, this`made
      ensures Valid() && loopBuf != null
      ensures made == old(made) + if old(free) == [] then 1 else 0
    {
      heldLen := 0;
      if |free| > 0 {
        assert free[0] in free;
        forall b | b in free[1..] ensures b in free && b != free[0] {
          var i :| 0 <= i < |free| - 1 && free[1..][i] == b;
          assert free[i + 1] == b;
        }
        loopBuf := free[0];
        free := free[1..];
      } else {
        loopBuf := new byte[HEADER_SIZE + cfg.rxMax];
        made := made + 1;
      }
    }

    /** A buffer that is too short or one too many is left to the garbage collector. */
    method PutBuf(b: array<byte>)
      modifies this`free
      ensures free == if b.Length >= HEADER_SIZE + cfg.rxMax && |old(free)| < cfg.depth + 2
                      then old(free) + [b] else old(free)
    {
      if b.Length >= HEADER_SIZE + cfg.rxMax {
        if |free| < cfg.depth + 2 {
          free := free + [b];
        }
      }
    }

    method SetReadErr(e: ReadError)
      requires Valid()
      modifies this`readErr, this`rx
      ensures Valid() && rx == SetErr(old(rx), e)
      ensures readErr == if old(readErr).Some? then old(readErr) else Some(e)
    {
      if readErr.None? {
        readErr := Some(e);
        rx := rx.(readErr := Some(e));
      }
    }

    /** The loop ends with an error. */
    method EndLoop(e: ReadError, ghost why: Why)
      requires Valid() && !done
      modifies this`readErr, this`done, this`loopBuf, this`kept, this`rx
      ensures Valid()
      ensures rx == SetErr(old(rx), e).(loop := Ended(why))
    {
      SetReadErr(e);
      Stop(why);
    }

    /** Its buffer is left to the garbage collector. */
    method Stop(ghost why: Why)
      requires Valid() && !done
      modifies this`done, this`loopBuf, this`kept, this`rx
      ensures Valid()
      ensures rx == old(rx).(loop := Ended(why)) && done
    {
      if loopBuf != null {
        kept := kept + 1;
        loopBuf := null;
      }
      done := true;
      rx := rx.(loop := Ended(why));
    }

    /** The loop reads one message into its buffer and reacts to it. */
    method Receive(msg: seq<byte>, pong: Option<ReadError>)
      requires Valid() && loopBuf != null && rx.loop.Reading?
      modifies this`heldLen, this`loopBuf, this`done, this`readErr, this`kept, this`rx, loopBuf
      ensures Valid()
      ensures rx == Handle(cfg, old(rx), msg, pong)
      ensures forall i :: 0 <= i < |dataCh| ==> dataCh[i].buf[..] == old(dataCh[i].buf[..])
      ensures curBuf != null ==> curBuf[..] == old(curBuf[..])
    {
      if |msg| > loopBuf.Length {
        EndLoop(Broken, Failed);
      } else {
        FillLoopBuf(msg);
        React(|msg|, pong);
      }
    }

    /** The loop parses the n bytes just received. */
    method React(n: nat, pong: Option<ReadError>)
      requires Valid() && loopBuf != null && rx.loop.Reading? && n <= loopBuf.Length
      modifies this`heldLen, this`loopBuf, this`done, this`readErr, this`kept, this`rx
      ensures Valid()
      ensures rx == Handle(cfg, old(rx), old(loopBuf[..n]), pong)
    {
      var r := Parse(loopBuf[..n], cfg.rxMax);
      if r.Err? {
        EndLoop(Broken, Failed);
      } else if r.value.t == TYPE_DATA {
        if |r.value.payload| > 0 {
          BytesOfParse(loopBuf[..n], cfg.rxMax);
          assert loopBuf[..n][HEADER_SIZE..] == loopBuf[HEADER_SIZE..n];
          HoldMessage(n);
        }
      } else {
        ReactToControl(r.value, pong);
      }
    }

    /** A ping is answered, a pong delivered, a close frame ends the loop. */
    method ReactToControl(p: Parsed, pong: Option<ReadError>)
      requires Valid() && rx.loop.Reading? && p.t != TYPE_DATA
      modifies this`done, this`readErr, this`loopBuf, this`kept, this`rx
      ensures Valid()
      ensures rx == if p.t == TYPE_PING && pong.Some? then SetErr(old(rx), pong.value).(loop := Ended(Failed))
                    else if p.t == TYPE_PING then old(rx)
                    else if p.t == TYPE_PONG then old(rx)
                    else if ParseClose(p.payload).Ok? then SetErr(old(rx), EOF).(loop := Ended(PeerClosed))
                    else SetErr(old(rx), Broken).(loop := Ended(Failed))
    {
      if p.t == TYPE_PING {
        if pong.Some? { EndLoop(pong.value, Failed); }
      } else if p.t != TYPE_PONG {
        var info := ParseClose(p.payload);
        if info.Err? {
          EndLoop(Broken, Failed);
        } else {
          EndLoop(EOF, PeerClosed);
        }
      }
    }

    method FillLoopBuf(msg: seq<byte>)
      requires Valid() && loopBuf != null && rx.loop.Reading? && |msg| <= loopBuf.Length
      modifies loopBuf
      ensures Valid() && loopBuf[..|msg|] == msg
      ensures forall i :: 0 <= i < |dataCh| ==> dataCh[i].buf[..] == old(dataCh[i].buf[..])
      ensures curBuf != null ==> curBuf[..] == old(curBuf[..])
    {
      forall i | 0 <= i < |msg| {
        loopBuf[i] := msg[i];
      }
      assert forall i :: 0 <= i < |dataCh| ==> dataCh[i] in dataCh;
    }

    method HoldMessage(n: nat)
      requires Valid() && loopBuf != null && rx.loop.Reading? && HEADER_SIZE < n <= loopBuf.Length
      modifies this`heldLen, this`rx
      ensures Valid()
      ensures rx == old(rx).(loop := Holding(loopBuf[HEADER_SIZE..n]))
    {
      heldLen := n;
      rx := rx.(loop := Holding(loopBuf[HEADER_SIZE..n]));
    }

    /** The held message enters the queue with its buffer; the loop has none until it gets another. */
    method Deliver()
      requires Valid() && rx.loop.Holding? && |dataCh| < cfg.depth
      modifies this`dataCh, this`loopBuf, this`heldLen, this`rx
      ensures Valid() && loopBuf == null
      ensures rx == DoRx(cfg, old(rx), StreamRun.Deliver)
      ensures dataCh == old(dataCh) + [Message(old(loopBuf), old(heldLen))]
    {
      rx := DoRx(cfg, rx, StreamRun.Deliver);
      dataCh := dataCh + [Message(loopBuf, heldLen)];
      loopBuf := null;
    }

    /** The stream is terminating and the held message is dropped. */
    method DropHeld()
      requires Valid() && rx.loop.Holding? && term
      modifies this`readErr, this`done, this`loopBuf, this`kept, this`rx
      ensures Valid()
      ensures rx == DoRx(cfg, old(rx), StreamRun.DropHeld)
      ensures done && readErr == if old(readErr).Some? then old(readErr) else Some(NetClosed)
    {
      EndLoop(NetClosed, OurTerm);
    }

    method ChannelError(eof: bool)
      requires Valid() && rx.loop.Reading?
      modifies this`readErr, this`done, this`loopBuf, this`kept, this`rx
      ensures Valid()
      ensures rx == DoRx(cfg, old(rx), StreamRun.ChannelError(eof))
      ensures done && readErr == if old(readErr).Some? then old(readErr)
                                 else Some(if term then NetClosed else if eof then EOF else Broken)
    {
      if term {
        EndLoop(NetClosed, Failed);
      } else if eof {
        EndLoop(EOF, Failed);
      } else {
        EndLoop(Broken, Failed);
      }
    }

    /** A local close records its error before anything else can. */
    method Close()
      requires Valid()
      modifies this`closed, this`readErr, this`rx
      ensures Valid()
      ensures rx == DoRx(cfg, old(rx), RxClose)
      ensures closed && readErr == if old(readErr).Some? then old(readErr) else Some(NetClosed)
    {
      SetReadErr(NetClosed);
      closed := true;
      rx := rx.(closed := true);
    }

    method Terminate()
      requires Valid()
      modifies this`term, this`rx
      ensures Valid()
      ensures rx == DoRx(cfg, old(rx), RxTerminate)
      ensures term
    {
      term := true;
      rx := rx.(term := true);
    }

    /** ShutdownEOF first records EOF over anything recorded before. */
    method ForceEOF()
      requires Valid()
      modifies this`readErr, this`rx
      ensures Valid()
      ensures rx == DoRx(cfg, old(rx), RxForceEOF)
      ensures readErr == Some(EOF)
    {
      readErr := Some(EOF);
      rx := rx.(readErr := Some(EOF));
    }

    /** Shutdown records EOF unless there is an error already, and keeps what has arrived. */
    method Shutdown()
      requires Valid()
      modifies this`term, this`readErr, this`rx
      ensures Valid()
      ensures rx == DoRx(cfg, DoRx(cfg, old(rx), RxShutdown), RxTerminate)
      ensures term && readErr == if old(readErr).Some? then old(readErr) else Some(EOF)
    {
      SetReadErr(EOF);
      Terminate();
    }

    /** Read starts on the oldest queued message. */
    method Take()
      requires Valid() && curBuf == null && |dataCh| > 0
      modifies this`dataCh, this`curBuf, this`curLo, this`curHi, this`rx
      ensures Valid() && curBuf == old(dataCh[0].buf) && dataCh == old(dataCh[1..])
      ensures rx == DoRx(cfg, old(rx), TakeNext)
    {
      assert dataCh[0] in dataCh;
      rx := DoRx(cfg, rx, TakeNext);
      curBuf, curLo, curHi := dataCh[0].buf, HEADER_SIZE, dataCh[0].n;
      dataCh := dataCh[1..];
    }

    /** Read copies out what fits. */
    method CopyTo(p: array<byte>) returns (n: nat)
      requires Valid() && curBuf != null && p.Length > 0
      requires p !in free && p != loopBuf && p != curBuf && forall m <- dataCh :: p != m.buf
      modifies p
      ensures Valid()
      ensures n == Min(p.Length, |rx.cur|) && n > 0
      ensures p[..n] == rx.cur[..n] && p[n..] == old(p[n..])
    {
      n := Min(p.Length, curHi - curLo);
      forall i | 0 <= i < n {
        p[i] := curBuf[curLo + i];
      }
      assert forall i :: 0 <= i < |dataCh| ==> dataCh[i] in dataCh;
      assert forall i :: n <= i < p.Length ==> p[i] == old(p[i]);
    }

    /** It moves on, and gives the buffer back once it is drained. */
    method Advance(n: nat)
      requires Valid() && curBuf != null && n <= curHi - curLo
      modifies this`free, this`curBuf, this`curLo, this`rx
      ensures Valid()
      ensures rx == DoRx(cfg, old(rx), CopyOut(n))
      ensures curBuf == null ==> free == old(free) + [old(curBuf)]
      ensures curBuf != null ==> curBuf == old(curBuf) && free == old(free)
    {
      if curLo + n == curHi {
        GiveBack();
      } else {
        rx := DoRx(cfg, rx, CopyOut(n));
        curLo := curLo + n;
      }
    }

    /** The drained buffer goes back to the free list, which always has room for it. */
    method GiveBack()
      requires Valid() && curBuf != null
      modifies this`free, this`curBuf, this`rx
      ensures Valid() && curBuf == null && free == old(free) + [old(curBuf)]
      ensures rx == DoRx(cfg, old(rx), CopyOut(curHi - curLo))
    {
      var b := curBuf;
      assert |free| < cfg.depth + 2;
      PutBuf(b);
      curBuf := null;
      rx := DoRx(cfg, rx, CopyOut(curHi - curLo));
      assert Disjoint() && Sized() by {
        assert forall x <- free :: x in old(free) || x == b;
        assert forall i :: 0 <= i < |old(free)| ==> old(free)[i] in old(free);
      }
    }

    /** The error recorded when the loop ended. */
    function TerminalErr(): (e: ReadError)
      reads this`readErr
      ensures readErr == Some(e) || (readErr.None? && e == EOF)
    {
      if readErr.Some? then readErr.value else EOF
    }

    /** Before copying, Read makes sure it has a payload, or finds out why there is none. */
    method Fill(n: nat, expired: bool) returns (stop: Option<ReadResult>)
      requires Valid() && n > 0
      modifies this`dataCh, this`curBuf, this`curLo, this`curHi, this`rx
      ensures Valid()
      ensures stop.None? <==> curBuf != null
      ensures stop.None? ==> rx == Ready(cfg, old(rx)) && Answer(old(rx), n, expired) == Got(Min(n, |rx.cur|))
      ensures stop.Some? ==> rx == old(rx) && stop.value == Answer(old(rx), n, expired) && !stop.value.Got?
      ensures curBuf == old(curBuf) || (curBuf != null && exists m <- old(dataCh) :: m.buf == curBuf)
      ensures forall m <- dataCh :: m in old(dataCh)
    {
      if curBuf != null { return None; }
      if closed { return Some(Fails(NetClosed)); }
      if |dataCh| == 0 {
        if done { return Some(Fails(TerminalErr())); }
        return Some(if expired then TimedOut else WouldBlock);
      }
      assert dataCh[0] in dataCh;
      Take();
      stop := None;
    }

    /** A Read that has the lock. */
    method ReadLocked(p: array<byte>, expired: bool) returns (r: ReadResult)
      requires Valid() && p.Length > 0
      requires p !in free && p != loopBuf && p != curBuf && forall m <- dataCh :: p != m.buf
      modifies this`free, this`dataCh, this`curBuf, this`curLo, this`curHi, this`rx, p
      ensures Valid()
      ensures r == Answer(old(rx), p.Length, expired)
      ensures r.Got? ==>
        && 0 < r.n == Min(p.Length, |Ready(cfg, old(rx)).cur|)
        && p[..r.n] == Ready(cfg, old(rx)).cur[..r.n] && p[r.n..] == old(p[..])[r.n..]
        && rx == DoRx(cfg, Ready(cfg, old(rx)), CopyOut(r.n))
      ensures !r.Got? ==> rx == old(rx) && p[..] == old(p[..])
    {
      var stop := Fill(p.Length, expired);
      if stop.Some? { return stop.value; }
      var n := CopyTo(p);
      Advance(n);
      r := Got(n);
    }

    /**
      One call of Read on a caller's buffer that is not one of the pool's. With the
      lock, a local close discards what is queued; otherwise queued data comes
      before the terminal error and before a deadline; and only an empty queue
      makes Read wait. Before it has the lock, a close or a deadline that has passed
      may end the call whatever is queued.
     */
    method Read(p: array<byte>, entry: Entry, expired: bool) returns (r: ReadResult)
      requires Valid() && (entry.SeesClosed? ==> closed) && (entry.SeesDeadline? ==> expired)
      requires p !in free && p != loopBuf && p != curBuf && forall m <- dataCh :: p != m.buf
      modifies this`free, this`dataCh, this`curBuf, this`curLo, this`curHi, this`rx, p
      ensures Valid()
      ensures r == if p.Length == 0 then Got(0) else if entry.SeesClosed? then Fails(NetClosed)
                   else if entry.SeesDeadline? then TimedOut else Answer(old(rx), p.Length, expired)
      ensures r.Got? && p.Length > 0 ==>
        && 0 < r.n == Min(p.Length, |Ready(cfg, old(rx)).cur|)
        && p[..r.n] == Ready(cfg, old(rx)).cur[..r.n] && p[r.n..] == old(p[..])[r.n..]
        && rx == DoRx(cfg, Ready(cfg, old(rx)), CopyOut(r.n))
      ensures !r.Got? || p.Length == 0 ==> rx == old(rx) && p[..] == old(p[..])
      ensures r.Fails? ==>
        if closed then r.error == NetClosed
        else done && r.error == if readErr.Some? then readErr.value else EOF
      ensures r.Fails? && !closed ==> old(rx).cur == [] && old(rx).queue == []
      ensures r.TimedOut? ==> expired && (entry.SeesDeadline? || (!closed && !done))
      ensures r.WouldBlock? ==> !expired && !closed && !done && old(rx).cur == [] && old(rx).queue == []
    {
      if p.Length == 0 { return Got(0); }
      if entry.SeesClosed? { return Fails(NetClosed); }
      if entry.SeesDeadline? { return TimedOut; }
      r := ReadLocked(p, expired);
    }
  }
}
