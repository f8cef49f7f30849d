/**
  The bounded event queue of a session: many producers that never block, one
  consumer. First the queue object, then its notify channel over whole runs.
 */
module Mailbox {
  import opened Common

  const MAX_MAILBOX := 512

  datatype Box<E> = Box(items: seq<E>, overflow: bool, closed: bool)

  function PostTo<E>(b: Box<E>, ev: E): Box<E>
  {
    if b.closed then b
    else if |b.items| >= MAX_MAILBOX then b.(overflow := true)
    else b.(items := b.items + [ev])
  }

  function Accepts<E>(b: Box<E>): bool { !b.closed && |b.items| < MAX_MAILBOX }

  class Mailbox<E> {
    var items: seq<E>
    var overflow: bool
    var closed: bool
    var notify: bool

    ghost function State(): Box<E>
      reads this
    {
      Box(items, overflow, closed)
    }

    constructor ()
      ensures State() == Box([], false, false) && !notify
    {
      items, overflow, closed, notify := [], false, false, false;
    }

    method Post(ev: E) returns (ok: bool)
      modifies this
      ensures ok == (!old(closed) && |old(items)| < 512)
      ensures State() == PostTo(old(State()), ev)
      ensures items == (if ok then old(items) + [ev] else old(items)) && closed == old(closed)
      ensures overflow == (old(overflow) || (!closed && |old(items)| >= 512))
      ensures notify == (old(notify) || !closed)
    {
      if closed { return false; }
      if |items| >= MAX_MAILBOX {
        overflow := true;
        Signal();
        return false;
      }
      items := items + [ev];
      Signal();
      ok := true;
    }

    method Signal()
      modifies this`notify
      ensures notify
    {
      notify := true;
    }

    method Drain() returns (events: seq<E>, overflowed: bool)
      modifies this`items, this`overflow
      ensures events == old(items) && overflowed == old(overflow)
      ensures State() == Box([], false, old(closed))
    {
      events, overflowed := items, overflow;
      items, overflow := [], false;
    }

    method Close()
      modifies this`closed, this`items
      ensures State() == Box([], old(overflow), true)
    {
      closed := true;
      items := [];
    }
  }

  // ------------------------------------------------------------- whole runs

  /**
    box       the queue
    token     the notify channel holds its one token
    pokes     producers between unlocking the queue and signalling
    woken     the consumer has taken the token and not drained yet
    accepted  every event accepted, in order
    handed    every event handed to the consumer, in order
    reported  whether a drain has reported an overflow
    refused   whether an open queue has ever refused an event
   */
  datatype Sys<E> = Sys(box: Box<E>, token: bool, pokes: nat, woken: bool,
                        accepted: seq<E>, handed: seq<E>, reported: bool, refused: bool)

  datatype Op<E> = Post(ev: E) | Poke | Wake | Drain | Close

  function Do<E>(s: Sys<E>, op: Op<E>): Sys<E>
  {
    match op
    case Post(ev) =>
      if s.box.closed then s
      else s.(box := PostTo(s.box, ev), pokes := s.pokes + 1,
              accepted := if Accepts(s.box) then s.accepted + [ev] else s.accepted,
              refused := s.refused || !Accepts(s.box))
    case Poke => if s.pokes == 0 then s else s.(token := true, pokes := s.pokes - 1)
    case Wake => if !s.token || s.woken then s else s.(token := false, woken := true)
    case Drain =>
      if !s.woken then s
      else s.(box := Box([], false, s.box.closed), woken := false,
              handed := s.handed + s.box.items, reported := s.reported || s.box.overflow)
    case Close => s.(box := Box([], s.box.overflow, true))
  }

  function Run<E>(ops: seq<Op<E>>): Sys<E>
  {
    if ops == [] then Sys(Box([], false, false), false, 0, false, [], [], false, false)
    else Do(Run(DropLast(ops)), Last(ops))
  }

  /** Handed out and queued events make up what was accepted, and the queue is bounded. */
  predicate InOrder<E(==)>(s: Sys<E>)
  {
    && (!s.box.closed ==> s.handed + s.box.items == s.accepted)
    && s.handed <= s.accepted
    && |s.box.items| <= MAX_MAILBOX
    && (s.box.closed ==> s.box.items == [])
  }

  /** Refusals are pending or reported, and what is pending has a wakeup. */
  predicate Signalled<E>(s: Sys<E>)
  {
    && (s.refused <==> s.box.overflow || s.reported)
    && (|s.box.items| > 0 || s.box.overflow ==> s.token || s.pokes > 0 || s.woken)
  }

  lemma StepInOrder<E>(s: Sys<E>, op: Op<E>)
    requires InOrder(s)
    ensures InOrder(Do(s, op))
  {
    match op
    case Post(ev) => if Accepts(s.box) { assert s.handed + (s.box.items + [ev]) == s.handed + s.box.items + [ev]; }
    case Drain => if s.woken { assert s.handed + s.box.items + [] == s.handed + s.box.items; }
    case _ =>
  }

  lemma StepSignalled<E>(s: Sys<E>, op: Op<E>)
    requires Signalled(s)
    ensures Signalled(Do(s, op))
  {
  }

  /**
    In every interleaving: events come out in the order they were accepted, none
    twice; while the queue is open none is missing; the queue stays bounded;
    every refusal is pending or reported; and whatever is pending has a wakeup
    that is there, on its way, or already consumed by a drain about to happen.
   */
  lemma {:induction false} QueueRuns<E>(ops: seq<Op<E>>)
    ensures InOrder(Run(ops)) && Signalled(Run(ops))
  {
    if ops != [] {
      QueueRuns(DropLast(ops));
      StepInOrder(Run(DropLast(ops)), Last(ops));
      StepSignalled(Run(DropLast(ops)), Last(ops));
    }
  }

  /** A consumer asleep with nothing on its way to wake it has received everything accepted. */
  lemma SleeperHasAll<E>(ops: seq<Op<E>>)
    requires var s := Run(ops); !s.box.closed && !s.woken && !s.token && s.pokes == 0
    ensures Run(ops).handed == Run(ops).accepted
  {
    QueueRuns(ops);
  }

  // ---------------------------------------------------------------- progress

  lemma RunSnoc<E>(ops: seq<Op<E>>, op: Op<E>)
    ensures Run(ops + [op]) == Do(Run(ops), op)
  {
    assert DropLast(ops + [op]) == ops;
  }

  /** An open queue accepts exactly while fewer than 512 events are pending, and remembers that it refused one. */
  lemma AcceptsExactly<E>(ops: seq<Op<E>>, ev: E)
    requires !Run(ops).box.closed
    ensures var s, t := Run(ops), Run(ops + [Post(ev)]);
      && t.pokes == s.pokes + 1 && t.handed == s.handed
      && (|s.box.items| < 512 ==> t.box.items == s.box.items + [ev] && t.accepted == s.accepted + [ev])
      && (|s.box.items| >= 512 ==>
            t.box.items == s.box.items && t.accepted == s.accepted && t.box.overflow && t.refused)
  {
    RunSnoc(ops, Post(ev));
  }

  /** Steps of the consumer, or of a producer that has still to signal. */
  predicate ConsumerSteps<E(==)>(ops: seq<Op<E>>) { forall op <- ops :: op == Poke || op == Wake || op == Drain }

  lemma DrainsWhenWoken<E>(ops: seq<Op<E>>)
    requires !Run(ops).box.closed && Run(ops).woken
    ensures Run(ops + [Drain]).handed == Run(ops).accepted
  {
    QueueRuns(ops);
    RunSnoc(ops, Op<E>.Drain);
  }

  lemma WakesByToken<E>(ops: seq<Op<E>>)
    requires !Run(ops).box.closed && Run(ops).token && !Run(ops).woken
    ensures var t := Run(ops + [Wake]); t.woken && !t.box.closed && t.accepted == Run(ops).accepted
  {
    RunSnoc(ops, Op<E>.Wake);
  }

  lemma PokeLeavesToken<E>(ops: seq<Op<E>>)
    requires !Run(ops).box.closed && Run(ops).pokes > 0
    ensures var t := Run(ops + [Poke]);
      t.token && t.woken == Run(ops).woken && !t.box.closed && t.accepted == Run(ops).accepted
  {
    RunSnoc(ops, Op<E>.Poke);
  }

  /**
    Whatever an open queue has accepted is handed out without any further event: the
    signals under way are enough to wake the consumer.
   */
  lemma AcceptedIsHanded<E>(ops: seq<Op<E>>) returns (more: seq<Op<E>>)
    requires !Run(ops).box.closed
    ensures ConsumerSteps(more) && Run(ops + more).handed == Run(ops).accepted
  {
    var s := Run(ops);
    QueueRuns(ops);
    if s.woken {
      more := [Drain];
      DrainsWhenWoken(ops);
    } else if s.token {
      more := [Wake, Drain];
      WakesByToken(ops);
      DrainsWhenWoken(ops + [Wake]);
      assert ops + more == ops + [Wake] + [Drain];
    } else if s.pokes > 0 {
      more := [Poke, Wake, Drain];
      PokeLeavesToken(ops);
      WakesByToken(ops + [Poke]);
      DrainsWhenWoken(ops + [Poke] + [Wake]);
      assert ops + more == ops + [Poke] + [Wake] + [Drain];
    } else {
      more := [];
      assert ops + more == ops;
    }
  }

  /** A drain that finds a refusal reports it; nothing is refused silently. */
  lemma RefusalIsReported<E>(ops: seq<Op<E>>)
    requires Run(ops).woken && Run(ops).refused
    ensures Run(ops + [Drain]).reported
  {
    QueueRuns(ops);
    RunSnoc(ops, Op<E>.Drain);
  }
}
