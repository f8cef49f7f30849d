/**
  The per-peer record of the signaling server as a value: a sequence counter, a
  delivery cursor that can be rewound, a trimmed replay log and a replaceable
  stream. Every function below is one critical section of the peer mutex.
  The class in Peer.dfy is proved against these functions, and the whole-run
  theorems in Replay.dfy are stated over them.
 */
module PeerLog {
  import opened Common

  const DEFAULT_QUEUE_SIZE := 256
  const DEFAULT_REPLAY_DEPTH := 256

  /** The two limits of a running server; construction makes both positive. */
  datatype RawConfig = Config(queueSize: nat, replayDepth: nat)
  type Config = c: RawConfig | c.queueSize >= 1 && c.replayDepth >= 1 witness Config(1, 1)

  /** The limits part of server construction; None stands for its error. */
  function NewConfig(queueSize: int, replayDepth: int): (r: Option<Config>)
    ensures r.None? <==> replayDepth < 0
    ensures r.Some? ==> r.value.queueSize == if queueSize > 0 then queueSize else 256
    ensures r.Some? ==> r.value.replayDepth == if replayDepth > 0 then replayDepth else 256
  {
    if replayDepth < 0 then None else
      Some(Config(if queueSize <= 0 then DEFAULT_QUEUE_SIZE else queueSize,
                  if replayDepth == 0 then DEFAULT_REPLAY_DEPTH else replayDepth))
  }

  /** One queued signal with its per-peer sequence number. */
  datatype Entry = Entry(id: nat, data: string)

  /**
    last    the last sequence number assigned
    sent    the highest sequence number handed to a stream (can be rewound)
    log     undelivered entries plus a window of delivered ones, oldest first
    stream  the attached stream
    reaper  whether the offline-grace timer is pending
    down    shut down or forgotten
   */
  datatype PeerState<A> = PeerState(last: nat, sent: nat, log: seq<Entry>, stream: Option<A>, reaper: bool, down: bool)

  function NewPeer<A>(): PeerState<A> { PeerState(0, 0, [], None, true, false) }

  function CanEnqueue<A>(c: Config, p: PeerState<A>): bool
  {
    !p.down && p.last - p.sent < c.queueSize
  }

  function Enqueue<A>(c: Config, p: PeerState<A>, data: string): PeerState<A>
  {
    if CanEnqueue(c, p) then p.(last := p.last + 1, log := p.log + [Entry(p.last + 1, data)]) else p
  }

  /** The sequence number below the oldest entry still held. */
  function Floor<A>(p: PeerState<A>): int
  {
    if p.log == [] then p.last else p.log[0].id - 1
  }

  function Attach<A>(p: PeerState<A>, att: A, lastID: nat): PeerState<A>
  {
    var q := p.(stream := Some(att), reaper := false);
    if lastID < p.sent then q.(sent := Max(lastID, Floor(p))) else q
  }

  function Detach<A(==)>(p: PeerState<A>, att: A): PeerState<A>
  {
    if p.stream != Some(att) then p else p.(stream := None, reaper := p.reaper || !p.down)
  }

  /** The entries above the cursor, in log order. */
  function Unsent(log: seq<Entry>, sent: nat): seq<Entry>
  {
    if log == [] then []
    else if log[0].id > sent then [log[0]] + Unsent(log[1..], sent)
    else Unsent(log[1..], sent)
  }

  /** The newest n entries. */
  function Newest(log: seq<Entry>, n: nat): seq<Entry>
  {
    if |log| <= n then log else log[|log| - n..]
  }

  function Taken<A(==)>(p: PeerState<A>, att: A): seq<Entry>
  {
    if p.stream != Some(att) then [] else Unsent(p.log, p.sent)
  }

  function TakeUnsent<A(==)>(c: Config, p: PeerState<A>, att: A): PeerState<A>
  {
    if p.stream != Some(att) then p
    else
      var out := Unsent(p.log, p.sent);
      p.(sent := if out == [] then p.sent else Last(out).id, log := Newest(p.log, c.replayDepth))
  }

  function Expire<A>(p: PeerState<A>): PeerState<A>
  {
    if p.stream.Some? || p.down then p else p.(log := [], reaper := false, down := true)
  }

  function Shutdown<A>(p: PeerState<A>): PeerState<A>
  {
    p.(log := [], stream := None, reaper := false, down := true)
  }

  // ---------------------------------------------------------------- invariant

  /** The log is exactly the entries numbered last-|log|+1 .. last. */
  predicate Contiguous(log: seq<Entry>, last: nat)
  {
    |log| <= last && forall i :: 0 <= i < |log| ==> log[i].id == last - |log| + 1 + i
  }

  /**
    The representation invariant of one peer record. The cursor lies between the
    oldest entry held and the last one assigned, so neither unsigned subtraction
    in the source wraps and nothing unsent is ever trimmed; the length bound
    survives any number of rewinds; and a detached live peer always has its
    reaper pending.
   */
  predicate Inv<A>(c: Config, p: PeerState<A>)
  {
    && p.sent <= p.last
    && (!p.down && p.stream.None? ==> p.reaper)
    && (p.down ==> p.log == [])
    && (!p.down ==>
          && Contiguous(p.log, p.last)
          && p.last - |p.log| <= p.sent
          && (p.last > 0 ==> p.log != [])
          && |p.log| <= c.replayDepth + Min(p.last - p.sent, c.queueSize))
  }

  /** On a contiguous log the unsent entries are a suffix, found by position. */
  lemma {:induction false} UnsentIsSuffix(log: seq<Entry>, last: nat, sent: nat)
    requires Contiguous(log, last) && last - |log| <= sent <= last
    ensures Unsent(log, sent) == log[|log| - (last - sent)..]
  {
    if log != [] {
      assert Contiguous(log[1..], last);
      if log[0].id > sent {
        AllUnsent(log, sent);
        assert log[|log| - (last - sent)..] == log;
      } else {
        UnsentIsSuffix(log[1..], last, sent);
      }
    }
  }

  lemma {:induction false} AllUnsent(log: seq<Entry>, sent: nat)
    requires forall i :: 0 <= i < |log| ==> log[i].id > sent
    ensures Unsent(log, sent) == log
  {
    if log != [] { AllUnsent(log[1..], sent); }
  }

  /** A scan that stops at the first entry above the cursor finds all unsent entries. */
  lemma {:induction false} ScanFindsUnsent(log: seq<Entry>, sent: nat, start: nat)
    requires start <= |log| && forall e <- log[..start] :: e.id <= sent
    requires start < |log| ==> log[start].id > sent
    requires forall i, j :: 0 <= i < j < |log| ==> log[i].id < log[j].id
    ensures log[start..] == Unsent(log, sent)
  {
    if start == 0 {
      if log != [] { AllUnsent(log, sent); }
    } else {
      assert log[0] in log[..start];
      assert forall e <- log[1..][..start - 1] :: e in log[..start];
      ScanFindsUnsent(log[1..], sent, start - 1);
    }
  }

  lemma EnqueueKeepsInv<A>(c: Config, p: PeerState<A>, data: string)
    requires Inv(c, p)
    ensures Inv(c, Enqueue(c, p, data))
  {
  }

  /** Rewinding never goes below the oldest entry held and never forwards. */
  lemma AttachKeepsInv<A>(c: Config, p: PeerState<A>, att: A, lastID: nat)
    requires Inv(c, p)
    ensures Inv(c, Attach(p, att, lastID))
    ensures !p.down ==> Floor(p) <= Attach(p, att, lastID).sent <= p.sent
  {
  }

  /** The newest entries of a contiguous log are a contiguous log. */
  lemma NewestContiguous(log: seq<Entry>, last: nat, n: nat)
    requires Contiguous(log, last) && n >= 1
    ensures Contiguous(Newest(log, n), last) && |Newest(log, n)| == Min(|log|, n)
    ensures Newest(log, n) == log[Max(0, |log| - n)..]
  {
  }

  /** What a take hands out. */
  lemma TakenSpec<A>(c: Config, p: PeerState<A>, att: A)
    requires Inv(c, p) && p.stream == Some(att) && !p.down
    ensures |Taken(p, att)| == p.last - p.sent
    ensures Taken(p, att) == p.log[|p.log| - (p.last - p.sent)..]
    ensures forall i :: 0 <= i < |Taken(p, att)| ==> Taken(p, att)[i].id == p.sent + 1 + i
  {
    UnsentIsSuffix(p.log, p.last, p.sent);
  }

  /**
    A take hands out exactly the entries numbered sent+1..last, leaves nothing
    unsent, and keeps the newest replayDepth entries: trimming only ever drops
    entries that were handed out.
   */
  lemma TakeSpec<A>(c: Config, p: PeerState<A>, att: A)
    requires Inv(c, p) && p.stream == Some(att) && !p.down
    ensures |Taken(p, att)| == p.last - p.sent
    ensures Taken(p, att) == p.log[|p.log| - (p.last - p.sent)..]
    ensures forall i :: 0 <= i < |Taken(p, att)| ==> Taken(p, att)[i].id == p.sent + 1 + i
    ensures var q := TakeUnsent(c, p, att);
      && q.sent == q.last == p.last
      && Inv(c, q)
      && q.log <= p.log[Max(0, |p.log| - c.replayDepth)..]
      && |q.log| == Min(|p.log|, c.replayDepth)
      && Floor(q) == Max(Floor(p), p.last - c.replayDepth)
  {
    TakenSpec(c, p, att);
    NewestContiguous(p.log, p.last, c.replayDepth);
    TrimmedInv(c, p, Newest(p.log, c.replayDepth));
    assert TakeUnsent(c, p, att).sent == p.last;
  }

  lemma TrimmedInv<A>(c: Config, p: PeerState<A>, log: seq<Entry>)
    requires Inv(c, p) && !p.down
    requires Contiguous(log, p.last) && |log| == Min(|p.log|, c.replayDepth)
    ensures Inv(c, p.(sent := p.last, log := log))
    ensures Floor(p.(sent := p.last, log := log)) == Max(Floor(p), p.last - c.replayDepth)
  {
  }

  lemma TakeKeepsInv<A>(c: Config, p: PeerState<A>, att: A)
    requires Inv(c, p)
    ensures Inv(c, TakeUnsent(c, p, att))
  {
    if p.stream == Some(att) && !p.down { TakeSpec(c, p, att); }
  }

  // -------------------------------------------------- one peer, any operations

  /** Every operation on one peer record, with any argument. */
  datatype PeerOp<A> =
    | OpEnqueue(data: string)
    | OpAttach(att: A, lastID: nat)
    | OpDetach(att: A)
    | OpTake(att: A)
    | OpExpire
    | OpShutdown

  function Apply<A(==)>(c: Config, p: PeerState<A>, op: PeerOp<A>): PeerState<A>
  {
    match op
    case OpEnqueue(data) => Enqueue(c, p, data)
    case OpAttach(att, lastID) => Attach(p, att, lastID)
    case OpDetach(att) => Detach(p, att)
    case OpTake(att) => TakeUnsent(c, p, att)
    case OpExpire => Expire(p)
    case OpShutdown => Shutdown(p)
  }

  function ApplyAll<A(==)>(c: Config, ops: seq<PeerOp<A>>): PeerState<A>
  {
    if ops == [] then NewPeer() else Apply(c, ApplyAll(c, DropLast(ops)), Last(ops))
  }

  lemma ApplyKeepsInv<A>(c: Config, p: PeerState<A>, op: PeerOp<A>)
    requires Inv(c, p)
    ensures Inv(c, Apply(c, p, op))
  {
    if op.OpTake? { TakeKeepsInv(c, p, op.att); }
  }

  /** After any operations at all the record is consistent and its memory bounded. */
  lemma {:induction false} AnyRunKeepsInv<A>(c: Config, ops: seq<PeerOp<A>>)
    ensures Inv(c, ApplyAll(c, ops))
    ensures |ApplyAll(c, ops).log| <= c.replayDepth + c.queueSize
  {
    if ops != [] {
      AnyRunKeepsInv(c, DropLast(ops));
      ApplyKeepsInv(c, ApplyAll(c, DropLast(ops)), Last(ops));
    }
  }

  // ------------------------------------------------- what each operation achieves

  /** A signal is accepted exactly while the record lives and holds fewer than queueSize unsent entries. */
  lemma EnqueueExactly<A>(c: Config, p: PeerState<A>, data: string)
    requires Inv(c, p)
    ensures var q := Enqueue(c, p, data);
      if !p.down && |Unsent(p.log, p.sent)| < c.queueSize
      then q == p.(last := p.last + 1, log := p.log + [Entry(p.last + 1, data)])
      else q == p
  {
    if !p.down { UnsentIsSuffix(p.log, p.last, p.sent); }
  }

  /**
    A stream that attaches is the current one, and its first take yields exactly the
    entries after lastID that are still held, or, if lastID is ahead of what was
    ever handed out, those never handed out.
   */
  lemma ResumesExactly<A>(c: Config, p: PeerState<A>, att: A, lastID: nat)
    requires Inv(c, p) && !p.down
    ensures var q := Attach(p, att, lastID);
      && q.stream == Some(att) && !q.reaper && q.last == p.last && q.log == p.log && !q.down
      && (forall e <- p.log :: e in Taken(q, att) <==> e.id > Min(lastID, p.sent))
      && (forall e <- Taken(q, att) :: e in p.log)
  {
    var q := Attach(p, att, lastID);
    AttachKeepsInv(c, p, att, lastID);
    UnsentIsAbove(p.log, q.sent);
    assert forall e <- p.log :: e.id > Floor(p) by {
      forall i | 0 <= i < |p.log| ensures p.log[i].id > Floor(p) {}
    }
  }

  lemma {:induction false} UnsentIsAbove(log: seq<Entry>, sent: nat)
    ensures forall e :: e in Unsent(log, sent) <==> e in log && e.id > sent
  {
    if log != [] {
      UnsentIsAbove(log[1..], sent);
      assert log == [log[0]] + log[1..];
    }
  }

  /** A take hands out the entries above the cursor in order and leaves the newest replayDepth entries. */
  lemma TakeExactly<A>(c: Config, p: PeerState<A>, att: A)
    requires Inv(c, p) && p.stream == Some(att) && !p.down
    ensures p.last - p.sent <= |p.log| && Taken(p, att) == p.log[|p.log| - (p.last - p.sent)..]
    ensures TakeUnsent(c, p, att)
            == p.(sent := p.last, log := p.log[Max(0, |p.log| - c.replayDepth)..])
  {
    TakeSpec(c, p, att);
  }

  /**
    A handler that has been replaced changes nothing when it detaches; the current
    one clears its stream and starts the grace timer.
   */
  lemma DetachExactly<A>(c: Config, p: PeerState<A>, att: A)
    requires Inv(c, p)
    ensures p.stream != Some(att) ==> Detach(p, att) == p
    ensures p.stream == Some(att) ==>
      Detach(p, att) == PeerState(p.last, p.sent, p.log, None, p.reaper || !p.down, p.down)
  {
  }

  /** The grace timer ends exactly a detached live record; a shutdown ends any. */
  lemma EndsExactly<A>(p: PeerState<A>)
    ensures Expire(p).down <==> p.down || p.stream.None?
    ensures p.stream.Some? || p.down ==> Expire(p) == p
    ensures Expire(p) != p ==> Expire(p).log == []
    ensures Shutdown(p).down && Shutdown(p).stream.None? && Shutdown(p).log == [] && !Shutdown(p).reaper
  {
  }
}
