/**
  The accept backlog of an endpoint. One token of a semaphore stands for each
  inbound session from its offer until its release function has been called; the
  function is owned first by the session and then by the entry in the listener's
  accept queue. Sessions, accepting callers and the closing listener interleave at
  every channel operation.
 */
module Backlog {
  import opened Common

  /**
    Admitted   the token is taken; the session is not registered yet
    Running    registered and negotiating
    Pushing    established; the listener was seen open
    Pushed     in the accept queue; the session still has its release function
    Delivered  the session has let go of its release function
    Refused    the listener did not take the connection
    Ended      torn down
   */
  datatype Stage = Admitted | Running | Pushing | Pushed | Delivered | Refused | Ended

  /** A session: its stage, whether it has a release function, and how often that was called. */
  datatype Session = Session(stage: Stage, holds: bool, calls: nat)

  /**
    tokens     tokens in the semaphore
    accept     the accept queue
    hand       entries taken from it whose release is still to be called
    full       a push found the queue full
    underflow  a release found the semaphore empty
   */
  datatype Sys = Sys(tokens: nat, sessions: map<nat, Session>, accept: seq<nat>, hand: set<nat>, closed: bool,
                     full: bool, underflow: bool)

  datatype Op =
    | Offer(k: nat)                 // an offer for a new session
    | Register(k: nat, ok: bool)
    | Establish(k: nat, open: bool) // open: there is a listener and it looks open
    | Push(k: nat, late: bool)      // late: of two ready cases, the closed one is chosen
    | LetGo(k: nat)
    | Teardown(k: nat)
    | Take                          // an accept or a drain takes the oldest entry
    | ReleaseTaken(k: nat)
    | CloseListener

  function Init(): Sys { Sys(0, map[], [], {}, false, false, false) }

  function SetStage(s: Sys, k: nat, stage: Stage): Sys
    requires k in s.sessions
  {
    s.(sessions := s.sessions[k := s.sessions[k].(stage := stage)])
  }

  /** Call the release function of a session: the first call takes a token out if there is one. */
  function Release(s: Sys, k: nat): Sys
    requires k in s.sessions
  {
    var t := s.(sessions := s.sessions[k := s.sessions[k].(calls := s.sessions[k].calls + 1)]);
    if s.sessions[k].calls > 0 then t
    else if s.tokens > 0 then t.(tokens := s.tokens - 1)
    else t.(underflow := true)
  }

  /** The session ends and calls its release function if it still has it. */
  function End(s: Sys, k: nat): Sys
    requires k in s.sessions
  {
    var t := if s.sessions[k].holds then Release(s, k) else s;
    t.(sessions := t.sessions[k := t.sessions[k].(stage := Ended, holds := false)])
  }

  function PushEntry(backlog: nat, s: Sys, k: nat, late: bool): Sys
    requires k in s.sessions
  {
    if s.closed && late then SetStage(s, k, Refused)
    else if |s.accept| < backlog then SetStage(s, k, Pushed).(accept := s.accept + [k])
    else if s.closed then SetStage(s, k, Refused)
    else SetStage(s, k, Refused).(full := true)
  }

  predicate At(s: Sys, k: nat, stage: Stage) { k in s.sessions && s.sessions[k].stage == stage }

  function Do(backlog: nat, s: Sys, op: Op): Sys
  {
    match op
    case Offer(k) =>
      if k in s.sessions || s.tokens >= backlog then s
      else s.(tokens := s.tokens + 1, sessions := s.sessions[k := Session(Admitted, true, 0)])
    case Register(k, ok) =>
      if !At(s, k, Admitted) then s else if ok then SetStage(s, k, Running) else End(s, k)
    case Establish(k, open) =>
      if !At(s, k, Running) then s else SetStage(s, k, if open && !s.closed then Pushing else Refused)
    case Push(k, late) => if At(s, k, Pushing) then PushEntry(backlog, s, k, late) else s
    case LetGo(k) =>
      if !At(s, k, Pushed) then s
      else s.(sessions := s.sessions[k := s.sessions[k].(stage := Delivered, holds := false)])
    case Teardown(k) => if At(s, k, Running) || At(s, k, Refused) || At(s, k, Delivered) then End(s, k) else s
    case Take => if s.accept == [] then s else s.(hand := s.hand + {s.accept[0]}, accept := s.accept[1..])
    case ReleaseTaken(k) => if k in s.hand && k in s.sessions then Release(s, k).(hand := s.hand - {k}) else s
    case CloseListener => s.(closed := true)
  }

  function Run(backlog: nat, ops: seq<Op>): Sys
  {
    if ops == [] then Init() else Do(backlog, Run(backlog, DropLast(ops)), Last(ops))
  }

  // ---------------------------------------------------------------- invariant

  /** The sessions whose release has not been called. */
  function Live(s: Sys): set<nat> { set k | k in s.sessions && s.sessions[k].calls == 0 }

  /** The release function belongs to the session before the push and to the entry after it. */
  predicate Owned(s: Sys, k: nat)
    requires k in s.sessions
  {
    var c := s.sessions[k];
    && (c.stage.Admitted? || c.stage.Running? || c.stage.Pushing? || c.stage.Refused? ==>
          c.holds && c.calls == 0 && k !in s.accept && k !in s.hand)
    && (c.stage.Pushed? || c.stage.Delivered? || c.stage.Ended? ==>
          && (c.holds <==> c.stage.Pushed?)
          && c.calls == if k in s.accept || k in s.hand then 0 else 1)
    && !(k in s.accept && k in s.hand)
  }

  predicate Distinct(q: seq<nat>) { forall i, j :: 0 <= i < j < |q| ==> q[i] != q[j] }

  predicate Inv(backlog: nat, s: Sys)
  {
    && (forall k <- s.sessions :: Owned(s, k))
    && (forall k <- s.accept :: k in s.sessions)
    && (forall k <- s.hand :: k in s.sessions)
    && Distinct(s.accept)
    && s.tokens == |Live(s)| <= backlog
    && !s.full && !s.underflow
  }

  lemma {:induction false} RunKeepsInv(backlog: nat, ops: seq<Op>)
    ensures Inv(backlog, Run(backlog, ops))
  {
    if ops == [] {
      assert Live(Init()) == {};
    } else {
      RunKeepsInv(backlog, DropLast(ops));
      DoKeepsInv(backlog, Run(backlog, DropLast(ops)), Last(ops));
    }
  }

  lemma DoKeepsInv(backlog: nat, s: Sys, op: Op)
    requires Inv(backlog, s)
    ensures Inv(backlog, Do(backlog, s, op))
  {
    match op
    case Offer(k) => OfferKeeps(backlog, s, k);
    case Register(k, ok) =>
      if At(s, k, Admitted) {
        if ok { StageKeeps(backlog, s, k, Running); } else { EndKeeps(backlog, s, k); }
      }
    case Establish(k, open) =>
      if At(s, k, Running) { StageKeeps(backlog, s, k, if open && !s.closed then Pushing else Refused); }
    case Push(k, late) => if At(s, k, Pushing) { PushKeeps(backlog, s, k, late); }
    case LetGo(k) => if At(s, k, Pushed) { LetGoKeeps(backlog, s, k); }
    case Teardown(k) => if At(s, k, Running) || At(s, k, Refused) || At(s, k, Delivered) { EndKeeps(backlog, s, k); }
    case Take => TakeKeeps(backlog, s);
    case ReleaseTaken(k) => if k in s.hand { ReleaseTakenKeeps(backlog, s, k); }
    case CloseListener => assert Live(s.(closed := true)) == Live(s);
  }

  lemma OfferKeeps(backlog: nat, s: Sys, k: nat)
    requires Inv(backlog, s)
    ensures Inv(backlog, Do(backlog, s, Offer(k)))
  {
    var t := Do(backlog, s, Offer(k));
    if t != s { assert Live(t) == Live(s) + {k}; }
  }

  predicate Early(stage: Stage) { stage.Admitted? || stage.Running? || stage.Pushing? || stage.Refused? }

  lemma StageKeeps(backlog: nat, s: Sys, k: nat, stage: Stage)
    requires Inv(backlog, s) && k in s.sessions && Early(s.sessions[k].stage) && Early(stage)
    ensures Inv(backlog, SetStage(s, k, stage))
  {
    assert Live(SetStage(s, k, stage)) == Live(s);
  }

  lemma EndKeeps(backlog: nat, s: Sys, k: nat)
    requires Inv(backlog, s) && k in s.sessions
    requires Early(s.sessions[k].stage) || s.sessions[k].stage.Delivered?
    ensures Inv(backlog, End(s, k))
  {
    assert Live(End(s, k)) == if s.sessions[k].holds then Live(s) - {k} else Live(s);
    assert s.sessions[k].holds ==> k in Live(s);
  }

  lemma PushKeeps(backlog: nat, s: Sys, k: nat, late: bool)
    requires Inv(backlog, s) && At(s, k, Pushing)
    ensures Inv(backlog, PushEntry(backlog, s, k, late))
  {
    QueueFits(backlog, s, k);
    assert Live(PushEntry(backlog, s, k, late)) == Live(s);
  }

  /** A session about to push finds room: it is live, and so is every session in the queue. */
  lemma QueueFits(backlog: nat, s: Sys, k: nat)
    requires Inv(backlog, s) && At(s, k, Pushing)
    ensures |s.accept| < s.tokens
  {
    forall j <- s.accept ensures j in Live(s) - {k} { assert Owned(s, j); }
    DistinctFits(s.accept, Live(s) - {k});
    assert Owned(s, k);
    assert k in Live(s);
  }

  lemma {:induction false} DistinctFits(q: seq<nat>, room: set<nat>)
    requires Distinct(q) && forall k <- q :: k in room
    ensures |q| <= |room|
  {
    if q != [] { DistinctFits(DropLast(q), room - {Last(q)}); }
  }

  lemma LetGoKeeps(backlog: nat, s: Sys, k: nat)
    requires Inv(backlog, s) && At(s, k, Pushed)
    ensures Inv(backlog, Do(backlog, s, LetGo(k)))
  {
    assert Live(Do(backlog, s, LetGo(k))) == Live(s);
  }

  lemma TakeKeeps(backlog: nat, s: Sys)
    requires Inv(backlog, s)
    ensures Inv(backlog, Do(backlog, s, Take))
  {
    var t := Do(backlog, s, Take);
    assert Live(t) == Live(s);
    if s.accept != [] {
      assert s.accept[0] !in s.accept[1..];
      assert forall k :: k in s.accept <==> k == s.accept[0] || k in s.accept[1..];
    }
  }

  lemma ReleaseTakenKeeps(backlog: nat, s: Sys, k: nat)
    requires Inv(backlog, s) && k in s.hand
    ensures Inv(backlog, Do(backlog, s, ReleaseTaken(k)))
  {
    assert Owned(s, k);
    assert k in Live(s);
    assert Live(Do(backlog, s, ReleaseTaken(k))) == Live(s) - {k};
  }

  // ----------------------------------------------------------------- theorems

  /** Tokens are exactly the unreleased sessions, and bound the queue. */
  lemma SlotsConserved(backlog: nat, ops: seq<Op>)
    ensures var s := Run(backlog, ops);
            |s.accept| <= s.tokens == |Live(s)| <= backlog
  {
    RunKeepsInv(backlog, ops);
    var s := Run(backlog, ops);
    forall j <- s.accept ensures j in Live(s) { assert Owned(s, j); }
    DistinctFits(s.accept, Live(s));
  }

  /** Neither default case is ever taken, and no release function is even called twice. */
  lemma DefaultsUnreachable(backlog: nat, ops: seq<Op>)
    ensures var s := Run(backlog, ops);
            !s.full && !s.underflow && forall k <- s.sessions :: s.sessions[k].calls <= 1
  {
    RunKeepsInv(backlog, ops);
    forall k <- Run(backlog, ops).sessions ensures Run(backlog, ops).sessions[k].calls <= 1 {
      assert Owned(Run(backlog, ops), k);
    }
  }

  /** When every session has ended and every entry has been taken and released, all slots are back. */
  lemma SlotsComeBack(backlog: nat, ops: seq<Op>)
    requires var s := Run(backlog, ops);
             s.accept == [] && s.hand == {} && forall k <- s.sessions :: s.sessions[k].stage.Ended?
    ensures Run(backlog, ops).tokens == 0
  {
    RunKeepsInv(backlog, ops);
    var s := Run(backlog, ops);
    forall k <- s.sessions ensures k !in Live(s) { assert Owned(s, k); }
    assert Live(s) == {};
  }

  /** And only then: a slot is out exactly while some session, entry or caller still owns a release. */
  lemma WhoHasTheSlot(backlog: nat, ops: seq<Op>, k: nat)
    requires k in Run(backlog, ops).sessions
    ensures var s := Run(backlog, ops);
            s.sessions[k].calls == 0
            <==> (Early(s.sessions[k].stage) || k in s.accept || k in s.hand)
  {
    RunKeepsInv(backlog, ops);
    assert Owned(Run(backlog, ops), k);
  }

  // -------------------------------------------------- what each step achieves

  lemma RunSnoc(backlog: nat, ops: seq<Op>, op: Op)
    ensures Run(backlog, ops + [op]) == Do(backlog, Run(backlog, ops), op)
  {
    assert DropLast(ops + [op]) == ops;
  }

  /** An offer is admitted exactly while fewer than backlog sessions have not given their slot back. */
  lemma AdmittedExactly(backlog: nat, ops: seq<Op>, k: nat)
    requires k !in Run(backlog, ops).sessions
    ensures var s, t := Run(backlog, ops), Run(backlog, ops + [Offer(k)]);
      if |Live(s)| < backlog
      then t == s.(tokens := s.tokens + 1, sessions := s.sessions[k := Session(Admitted, true, 0)])
      else t == s
  {
    RunSnoc(backlog, ops, Offer(k));
    RunKeepsInv(backlog, ops);
  }

  /** A session that cannot be registered gives its slot back at once. */
  lemma RegisteredExactly(backlog: nat, ops: seq<Op>, k: nat, ok: bool)
    requires At(Run(backlog, ops), k, Admitted)
    ensures var s, t := Run(backlog, ops), Run(backlog, ops + [Register(k, ok)]);
      && t.accept == s.accept && t.hand == s.hand
      && (if ok then At(t, k, Running) && t.tokens == s.tokens else At(t, k, Ended) && t.tokens == s.tokens - 1)
  {
    RunSnoc(backlog, ops, Register(k, ok));
    RunKeepsInv(backlog, ops);
    assert Owned(Run(backlog, ops), k);
    assert k in Live(Run(backlog, ops));
  }

  /** An established session goes on to the queue exactly if there is a listener that is not seen closed. */
  lemma EstablishedExactly(backlog: nat, ops: seq<Op>, k: nat, open: bool)
    requires At(Run(backlog, ops), k, Running)
    ensures var s, t := Run(backlog, ops), Run(backlog, ops + [Establish(k, open)]);
      && At(t, k, if open && !s.closed then Pushing else Refused)
      && t.tokens == s.tokens && t.accept == s.accept && t.hand == s.hand
  {
    RunSnoc(backlog, ops, Establish(k, open));
  }

  /** It is queued last, unless the listener has closed and that case is taken; the queue always has room. */
  lemma PushedExactly(backlog: nat, ops: seq<Op>, k: nat, late: bool)
    requires At(Run(backlog, ops), k, Pushing)
    ensures var s, t := Run(backlog, ops), Run(backlog, ops + [Push(k, late)]);
      && t.tokens == s.tokens && t.hand == s.hand
      && (if s.closed && late then At(t, k, Refused) && t.accept == s.accept
          else At(t, k, Pushed) && t.accept == s.accept + [k])
  {
    RunSnoc(backlog, ops, Push(k, late));
    RunKeepsInv(backlog, ops);
    QueueFits(backlog, Run(backlog, ops), k);
  }

  /** Having queued its connection, a session lets go of its release function. */
  lemma LetsGoExactly(backlog: nat, ops: seq<Op>, k: nat)
    requires At(Run(backlog, ops), k, Pushed)
    ensures var s, t := Run(backlog, ops), Run(backlog, ops + [LetGo(k)]);
      At(t, k, Delivered) && !t.sessions[k].holds && t.tokens == s.tokens && t.accept == s.accept && t.hand == s.hand
  {
    RunSnoc(backlog, ops, LetGo(k));
  }

  /** A session that ends gives its slot back unless the queue entry has it by now. */
  lemma EndedExactly(backlog: nat, ops: seq<Op>, k: nat)
    requires var s := Run(backlog, ops); At(s, k, Running) || At(s, k, Refused) || At(s, k, Delivered)
    ensures var s, t := Run(backlog, ops), Run(backlog, ops + [Teardown(k)]);
      && At(t, k, Ended) && t.accept == s.accept && t.hand == s.hand
      && t.tokens == if At(s, k, Delivered) then s.tokens else s.tokens - 1
  {
    RunSnoc(backlog, ops, Teardown(k));
    RunKeepsInv(backlog, ops);
    assert Owned(Run(backlog, ops), k);
    if !At(Run(backlog, ops), k, Delivered) { assert k in Live(Run(backlog, ops)); }
  }

  /** The oldest entry is taken first, and its slot comes back when its release has been called. */
  lemma TakenExactly(backlog: nat, ops: seq<Op>)
    requires Run(backlog, ops).accept != []
    ensures var s, t := Run(backlog, ops), Run(backlog, ops + [Take] + [ReleaseTaken(Run(backlog, ops).accept[0])]);
      t.accept == s.accept[1..] && t.hand == s.hand && t.tokens == s.tokens - 1 && t.closed == s.closed
  {
    var k := Run(backlog, ops).accept[0];
    RunSnoc(backlog, ops, Take);
    RunSnoc(backlog, ops + [Take], ReleaseTaken(k));
    RunKeepsInv(backlog, ops);
    AcceptedInTwo(backlog, Run(backlog, ops));
    assert k in Run(backlog, ops).accept;
    assert Owned(Run(backlog, ops), k) && k in Live(Run(backlog, ops));
  }

  /** A close of the listener is remembered, and leaves sessions, slots and queue as they are. */
  lemma ClosedExactly(backlog: nat, ops: seq<Op>)
    ensures Run(backlog, ops + [CloseListener]) == Run(backlog, ops).(closed := true)
  {
    RunSnoc(backlog, ops, CloseListener);
  }

  /** An offer from its admission to the accept queue. */
  function Served(k: nat): seq<Op> { [Offer(k)] + [Register(k, true)] + [Establish(k, true)] + [Push(k, false)] }

  /** While the listener is open and a slot is free, a new session that gets through negotiation is queued, last. */
  lemma OfferReachesQueue(backlog: nat, ops: seq<Op>, k: nat)
    requires var s := Run(backlog, ops); k !in s.sessions && |Live(s)| < backlog && !s.closed
    ensures Run(backlog, ops + Served(k)).accept == Run(backlog, ops).accept + [k]
  {
    var a := ops + [Offer(k)];
    var b := a + [Register(k, true)];
    var c := b + [Establish(k, true)];
    assert ops + Served(k) == c + [Push(k, false)];
    AdmittedExactly(backlog, ops, k);
    assert At(Run(backlog, a), k, Admitted);
    RegisteredExactly(backlog, a, k, true);
    StaysOpen(backlog, a, Register(k, true));
    EstablishedExactly(backlog, b, k, true);
    PushedExactly(backlog, c, k, false);
  }

  lemma StaysOpen(backlog: nat, ops: seq<Op>, op: Op)
    requires !Run(backlog, ops).closed && !op.CloseListener?
    ensures !Run(backlog, ops + [op]).closed
  {
    RunSnoc(backlog, ops, op);
  }

  // ----------------------------------------------------------------- listener

  /** One accept: take the oldest entry and call its release. */
  function Accepted(s: Sys): Sys
    requires s.accept != [] && s.accept[0] in s.sessions && s.accept[0] !in s.hand
  {
    var k := s.accept[0];
    Release(s.(accept := s.accept[1..]), k)
  }

  lemma AcceptedInTwo(backlog: nat, s: Sys)
    requires Inv(backlog, s) && s.accept != []
    ensures Owned(s, s.accept[0]) && s.accept[0] !in s.hand
    ensures Accepted(s) == Do(backlog, Do(backlog, s, Take), ReleaseTaken(s.accept[0]))
    ensures Inv(backlog, Accepted(s))
  {
    var k, t := s.accept[0], Do(backlog, s, Take);
    assert k in s.accept;
    assert Owned(s, k);
    TakeKeeps(backlog, s);
    ReleaseTakenKeeps(backlog, t, k);
    assert t.hand - {k} == s.hand;
  }

  function Elements(q: seq<nat>): set<nat> { set k | k in q }

  lemma ElementsSnoc(q: seq<nat>, k: nat)
    ensures Elements(q + [k]) == Elements(q) + {k}
  {
  }

  datatype Accepting = Conn(k: nat) | Stopped(dropped: seq<nat>) | Waits

  /** The listener's channel and the semaphore, with the once-flags of the release functions. */
  class Listener {
    const backlog: nat
    var slots: nat
    var accept: seq<nat>
    var closed: bool
    var fired: set<nat>

    ghost predicate Shows(s: Sys)
      reads this
    {
      && slots == s.tokens && accept == s.accept && closed == s.closed
      && (forall k <- s.sessions :: k in fired <==> s.sessions[k].calls > 0)
      && (forall k <- fired :: k in s.sessions)
    }

    constructor (backlog: nat)
      ensures Shows(Init()) && this.backlog == backlog
    {
      this.backlog := backlog;
      slots, accept, closed, fired := 0, [], false, {};
    }

    /** Take a slot for a new session, or report that the backlog is full. */
    method Acquire(k: nat, ghost s: Sys) returns (ok: bool)
      requires Shows(s) && k !in s.sessions
      modifies this
      ensures ok <==> s.tokens < backlog
      ensures Shows(Do(backlog, s, Offer(k)))
      ensures ok == (old(slots) < backlog) && slots == old(slots) + (if ok then 1 else 0)
      ensures accept == old(accept) && closed == old(closed) && fired == old(fired)
    {
      ok := slots < backlog;
      if ok {
        slots := slots + 1;
      }
    }

    method ReleaseSlot(k: nat, ghost s: Sys)
      requires Shows(s) && k in s.sessions
      modifies this
      ensures Shows(Release(s, k))
      ensures accept == old(accept) && closed == old(closed) && fired == old(fired) + {k}
      ensures k !in old(fired) && old(slots) > 0 ==> slots == old(slots) - 1
    {
      if k !in fired {
        fired := fired + {k};
        if slots > 0 {
          slots := slots - 1;
        }
      }
    }

    /** Offer an established connection to the queue. */
    method Push(k: nat, late: bool, ghost s: Sys) returns (ok: bool)
      requires Shows(s) && Inv(backlog, s) && At(s, k, Pushing)
      modifies this
      ensures Shows(PushEntry(backlog, s, k, late))
      ensures ok <==> !(s.closed && late)
      ensures accept == if ok then old(accept) + [k] else old(accept)
    {
      QueueFits(backlog, s, k);
      ok := false;
      if closed && late {
        return;
      }
      if |accept| < backlog {
        accept := accept + [k];
        ok := true;
      }
    }

    /** The oldest established connection, whose slot goes back. */
    method Accept(ghost s: Sys) returns (k: nat, ghost t: Sys)
      requires Shows(s) && Inv(backlog, s) && accept != []
      modifies this
      ensures k == old(accept)[0] && accept == old(accept)[1..]
      ensures slots == old(slots) - 1 && fired == old(fired) + {k} && k !in old(fired) && closed == old(closed)
      ensures t == Do(backlog, Do(backlog, s, Take), ReleaseTaken(k))
      ensures Shows(t) && Inv(backlog, t)
    {
      AcceptedInTwo(backlog, s);
      k, t := accept[0], Accepted(s);
      assert k in s.accept;
      accept := accept[1..];
      ReleaseSlot(k, s.(accept := s.accept[1..]));
    }

    /** Drop the oldest connection; `before` are those dropped already. */
    method DropOne(before: seq<nat>, ghost s: Sys) returns (dropped: seq<nat>, ghost t: Sys)
      requires Shows(s) && Inv(backlog, s) && accept != []
      modifies this
      ensures dropped == before + [old(accept)[0]] && dropped + accept == before + old(accept)
      ensures |accept| == |old(accept)| - 1 && closed == old(closed) && slots == old(slots) - 1
      ensures fired == old(fired) + {old(accept)[0]} && Elements(dropped) == Elements(before) + {old(accept)[0]}
      ensures Shows(t) && Inv(backlog, t)
    {
      var k;
      k, t := Accept(s);
      dropped := before + [k];
      ElementsSnoc(before, k);
    }

    /** Empty the queue, in order, giving every slot back; the caller closes the connections. */
    method Drain(ghost s: Sys) returns (dropped: seq<nat>, ghost t: Sys)
      requires Shows(s) && Inv(backlog, s)
      modifies this
      ensures dropped == old(accept) && accept == [] && closed == old(closed)
      ensures slots == old(slots) - |dropped|
      ensures fired == old(fired) + Elements(dropped)
      ensures Shows(t) && Inv(backlog, t)
    {
      dropped, t := [], s;
      while accept != []
        invariant Shows(t) && Inv(backlog, t) && closed == old(closed)
        invariant dropped + accept == old(accept)
        invariant slots == old(slots) - |dropped|
        invariant fired == old(fired) + Elements(dropped)
        decreases |accept|
      {
        dropped, t := DropOne(dropped, t);
      }
    }

    /**
      One call of AcceptConn. `over` tells that the endpoint has shut down, `late`
      that of two ready cases the closed one is taken. It returns a connection,
      or drains the queue and fails, or has to wait.
     */
    method AcceptConn(over: bool, late: bool, ghost s: Sys) returns (r: Accepting, ghost t: Sys)
      requires Shows(s) && Inv(backlog, s)
      modifies this
      ensures Shows(t) && Inv(backlog, t) && closed == old(closed)
      ensures r.Waits? <==> old(accept) == [] && !over && !closed
      ensures r.Conn? <==> old(accept) != [] && !((over || closed) && late)
      ensures r.Conn? ==> old(accept) == [r.k] + accept && slots == old(slots) - 1
      ensures r.Stopped? ==> accept == [] && r.dropped == old(accept) && slots == old(slots) - |r.dropped|
      ensures r.Waits? ==> accept == old(accept) && slots == old(slots)
    {
      t := s;
      if accept != [] && !((over || closed) && late) {
        var k;
        k, t := Accept(s);
        r := Conn(k);
      } else if over || closed {
        var dropped;
        dropped, t := Drain(s);
        r := Stopped(dropped);
      } else {
        r := Waits;
      }
    }

    method Close(ghost s: Sys)
      requires Shows(s)
      modifies this
      ensures Shows(Do(backlog, s, CloseListener))
      ensures closed && accept == old(accept) && slots == old(slots)
    {
      closed := true;
    }
  }
}
