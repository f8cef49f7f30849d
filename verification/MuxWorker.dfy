/**
  The goroutine behind a client's multiplexed stream. It is started by the first
  open, stops when no peer is left, and is started again by a later open. Opens,
  removals, the close and the goroutine itself interleave at every critical
  section and channel operation. What the server answers is a choice of the step.
 */
module MuxWorker {
  import opened Common

  /** One opened peer: its number, and the stream it has been joined to (0 for none). */
  datatype Conn = Conn(serial: nat, stream: nat)

  /** Names one opening of one peer. */
  datatype Key = Key(id: string, serial: nat)

  /** Where a run goroutine is. */
  datatype Pos =
    | Top                                                 // about to ask whether it is still needed
    | Dialing                                             // opening a stream
    | Collecting(stream: nat)                             // about to list the peers to join
    | Joining(stream: nat, todo: set<Key>, retry: bool)   // joining them one by one
    | Checking(stream: nat, retry: bool)                  // about to look whether any peer is left
    | Sleeping(stream: nat, retry: bool)                  // in its select; the retry timer is set
    | Leaving                                             // the stream is over

  datatype Choice =
    | Next                          // the only thing the position does
    | Connected
    | Refused(key: Key)          // the credential of the picked peer is refused
    | Permanent                     // no peer can succeed
    | Transient
    | JoinDone(key: Key)
    | JoinRefused(key: Key)
    | JoinLater(key: Key)
    | StreamGone
    | Kicked
    | RetryDue
    | StreamLost
    | Cancelled

  /**
    conns      open peers
    running    the flag opens look at
    closed     set by the close, which cancels the context afterwards
    kick       the kick channel holds its token
    pokes      opens between unlocking and kicking
    workers    live run goroutines
   */
  datatype Sys = Sys(conns: map<string, Conn>, running: bool, closed: bool, cancelled: bool,
                     kick: bool, pokes: nat, next: nat, workers: seq<Pos>)

  datatype Op =
    | Open(id: string)
    | Poke
    | Remove(key: Key)
    | CloseSection
    | Cancel
    | Work(i: nat, c: Choice)

  function Init(): Sys { Sys(map[], false, false, false, false, 0, 1, []) }

  predicate Registered(s: Sys, key: Key)
  {
    key.id in s.conns && s.conns[key.id].serial == key.serial
  }

  /** Forget a connection if it is still the registered one; this kicks. */
  function Forget(s: Sys, key: Key): Sys
  {
    if Registered(s, key) then s.(conns := s.conns - {key.id}, kick := true) else s
  }

  /** The server has joined the peer; one that was closed meanwhile stays closed. */
  function Joined(s: Sys, key: Key, stream: nat): Sys
  {
    if Registered(s, key) then s.(conns := s.conns[key.id := Conn(key.serial, stream)]) else s
  }

  function At(s: Sys, i: nat, p: Pos): Sys
    requires i < |s.workers|
  {
    s.(workers := s.workers[i := p])
  }

  function Gone(s: Sys, i: nat): Sys
    requires i < |s.workers|
  {
    s.(running := false, workers := s.workers[..i] + s.workers[i + 1..])
  }

  /** The peers not yet on the stream. */
  function Unjoined(s: Sys, stream: nat): set<Key>
  {
    set id | id in s.conns && s.conns[id].stream != stream :: Key(id, s.conns[id].serial)
  }

  function AfterDialing(s: Sys, i: nat, c: Choice): Sys
    requires i < |s.workers|
  {
    match c
    case Connected => At(s, i, Collecting(s.next)).(next := s.next + 1)
    case Refused(k) => At(Forget(s, k), i, Leaving)
    case Permanent => At(s, i, Leaving).(conns := map[])
    case Transient => At(s, i, Leaving)
    case _ => s
  }

  function AfterJoin(s: Sys, i: nat, p: Pos, c: Choice): Sys
    requires i < |s.workers| && p.Joining?
  {
    match c
    case Next => if p.todo == {} then At(s, i, Checking(p.stream, p.retry)) else s
    case JoinDone(k) =>
      if k !in p.todo then s else At(Joined(s, k, p.stream), i, p.(todo := p.todo - {k}))
    case JoinRefused(k) =>
      if k !in p.todo then s else At(Forget(s, k), i, p.(todo := p.todo - {k}))
    case JoinLater(k) =>
      if k !in p.todo then s else At(s, i, p.(todo := p.todo - {k}, retry := true))
    case StreamGone => At(s, i, Leaving)
    case Cancelled => if s.cancelled then At(s, i, Checking(p.stream, false)) else s
    case _ => s
  }

  function AfterSleep(s: Sys, i: nat, p: Pos, c: Choice): Sys
    requires i < |s.workers| && p.Sleeping?
  {
    match c
    case Kicked => if s.kick then At(s, i, Collecting(p.stream)).(kick := false) else s
    case RetryDue => if p.retry then At(s, i, Collecting(p.stream)) else s
    case StreamLost => At(s, i, Leaving)
    case Cancelled => if s.cancelled then At(s, i, Leaving) else s
    case _ => s
  }

  function WorkerStep(s: Sys, i: nat, c: Choice): Sys
    requires i < |s.workers|
  {
    match s.workers[i]
    case Top => if s.closed || s.conns == map[] then Gone(s, i) else At(s, i, Dialing)
    case Dialing => AfterDialing(s, i, c)
    case Collecting(stream) => At(s, i, Joining(stream, Unjoined(s, stream), false))
    case Joining(_, _, _) => AfterJoin(s, i, s.workers[i], c)
    case Checking(stream, retry) => At(s, i, if s.conns == map[] then Leaving else Sleeping(stream, retry))
    case Sleeping(_, _) => AfterSleep(s, i, s.workers[i], c)
    case Leaving => if s.cancelled then Gone(s, i) else At(s, i, Top)
  }

  function Do(s: Sys, op: Op): Sys
  {
    match op
    case Open(id) =>
      if s.closed || id in s.conns then s
      else s.(conns := s.conns[id := Conn(s.next, 0)], next := s.next + 1, pokes := s.pokes + 1, running := true,
              workers := if s.running then s.workers else s.workers + [Top])
    case Poke => if s.pokes > 0 then s.(pokes := s.pokes - 1, kick := true) else s
    case Remove(k) => Forget(s, k)
    case CloseSection => s.(closed := true, conns := map[])
    case Cancel => if s.closed then s.(cancelled := true) else s
    case Work(i, c) => if i < |s.workers| then WorkerStep(s, i, c) else s
  }

  function Run(ops: seq<Op>): Sys
  {
    if ops == [] then Init() else Do(Run(DropLast(ops)), Last(ops))
  }

  // ---------------------------------------------------------------- invariant

  predicate OneWorker(s: Sys)
  {
    && |s.workers| == (if s.running then 1 else 0)
    && (s.cancelled ==> s.closed)
    && (s.closed ==> s.conns == map[])
    && (s.conns != map[] ==> s.running)
  }

  /** Somebody will see to the connection: a kick, a poke on its way, or the retry timer. */
  predicate Seen(s: Sys, retry: bool) { s.kick || s.pokes > 0 || retry }

  predicate Attended(s: Sys, id: string, p: Pos)
    requires id in s.conns
  {
    var c := s.conns[id];
    match p
    case Joining(stream, todo, retry) => c.stream == stream || Key(id, c.serial) in todo || Seen(s, retry)
    case Checking(stream, retry) => c.stream == stream || Seen(s, retry)
    case Sleeping(stream, retry) => c.stream == stream || Seen(s, retry)
    case _ => true
  }

  predicate NobodyWaits(s: Sys)
  {
    s.workers != [] ==> forall id <- s.conns :: Attended(s, id, s.workers[0])
  }

  predicate Inv(s: Sys) { OneWorker(s) && NobodyWaits(s) }

  lemma {:induction false} RunKeepsInv(ops: seq<Op>)
    ensures Inv(Run(ops))
  {
    if ops != [] {
      RunKeepsInv(DropLast(ops));
      DoKeepsInv(Run(DropLast(ops)), Last(ops));
    }
  }

  lemma DoKeepsInv(s: Sys, op: Op)
    requires Inv(s)
    ensures Inv(Do(s, op))
  {
    DoKeepsOneWorker(s, op);
    match op
    case Work(i, c) => if i < |s.workers| { WorkLeavesNobody(s, i, c); }
    case _ => OthersLeaveNobody(s, op);
  }

  lemma DoKeepsOneWorker(s: Sys, op: Op)
    requires OneWorker(s)
    ensures OneWorker(Do(s, op))
  {
    if op.Work? && op.i < |s.workers| { WorkKeepsOneWorker(s, op.i, op.c); }
  }

  lemma WorkKeepsOneWorker(s: Sys, i: nat, c: Choice)
    requires OneWorker(s) && i < |s.workers|
    ensures OneWorker(WorkerStep(s, i, c))
  {
    match s.workers[i]
    case Dialing => DialingKeepsOneWorker(s, i, c);
    case Joining(_, _, _) => JoiningKeepsOneWorker(s, i, c);
    case Sleeping(_, _) => SleepingKeepsOneWorker(s, i, c);
    case _ =>
  }

  lemma DialingKeepsOneWorker(s: Sys, i: nat, c: Choice)
    requires OneWorker(s) && i < |s.workers|
    ensures OneWorker(AfterDialing(s, i, c))
  {
  }

  lemma JoiningKeepsOneWorker(s: Sys, i: nat, c: Choice)
    requires OneWorker(s) && i < |s.workers| && s.workers[i].Joining?
    ensures OneWorker(AfterJoin(s, i, s.workers[i], c))
  {
  }

  lemma SleepingKeepsOneWorker(s: Sys, i: nat, c: Choice)
    requires OneWorker(s) && i < |s.workers| && s.workers[i].Sleeping?
    ensures OneWorker(AfterSleep(s, i, s.workers[i], c))
  {
  }

  lemma OthersLeaveNobody(s: Sys, op: Op)
    requires Inv(s) && !op.Work?
    ensures NobodyWaits(Do(s, op))
  {
  }

  lemma WorkLeavesNobody(s: Sys, i: nat, c: Choice)
    requires Inv(s) && i < |s.workers|
    ensures NobodyWaits(WorkerStep(s, i, c))
  {
    var t := WorkerStep(s, i, c);
    if t.workers != [] {
      forall id <- t.conns ensures Attended(t, id, t.workers[0]) {
        StepAttends(s, c, id);
      }
    }
  }

  lemma StepAttends(s: Sys, c: Choice, id: string)
    requires |s.workers| == 1 && OneWorker(s) && id in s.conns && Attended(s, id, s.workers[0])
    ensures var t := WorkerStep(s, 0, c);
            id in t.conns && t.workers != [] ==> Attended(t, id, t.workers[0])
  {
    if s.workers[0].Collecting? {
      var stream := s.workers[0].stream;
      assert s.conns[id].stream != stream ==> Key(id, s.conns[id].serial) in Unjoined(s, stream);
    }
  }

  // ----------------------------------------------------------------- theorems

  /** The flag is set exactly while one goroutine lives, and it is set while an open peer needs it. */
  lemma OneWorkerNeverStranded(ops: seq<Op>)
    ensures var s := Run(ops);
            && |s.workers| <= 1
            && (s.running <==> |s.workers| == 1)
            && (!s.closed && s.conns != map[] ==> s.running)
            && (s.closed ==> s.conns == map[])
  {
    RunKeepsInv(ops);
  }

  /** A goroutine that sleeps while a peer is not on its stream is about to be woken. */
  predicate Wakes(s: Sys)
  {
    s.workers != [] && s.workers[0].Sleeping? ==>
      forall id <- s.conns :: s.conns[id].stream == s.workers[0].stream || Seen(s, s.workers[0].retry)
  }

  lemma NoJoinForgotten(ops: seq<Op>)
    ensures Wakes(Run(ops))
  {
    RunKeepsInv(ops);
    WakesIfAttended(Run(ops));
  }

  lemma WakesIfAttended(s: Sys)
    requires NobodyWaits(s)
    ensures Wakes(s)
  {
    if s.workers != [] {
      forall id <- s.conns ensures Attended(s, id, s.workers[0]) {
      }
    }
  }

  predicate Stopped(s: Sys, n: nat) { OneWorker(s) && s.closed && |s.workers| <= n }

  lemma StepStaysStopped(s: Sys, op: Op, n: nat)
    requires Stopped(s, n)
    ensures Stopped(Do(s, op), n)
  {
    if op.Work? && op.i < |s.workers| { WorkKeepsOneWorker(s, op.i, op.c); }
  }

  /** Once closed, no goroutine is ever started again: in every continuation there are at most those there were. */
  lemma {:induction false} ClosedStaysStopped(ops: seq<Op>, more: seq<Op>)
    requires Run(ops).closed
    ensures Stopped(Run(ops + more), |Run(ops).workers|)
  {
    if more == [] {
      RunKeepsInv(ops);
      assert ops + more == ops;
    } else {
      var before := ops + DropLast(more);
      ClosedStaysStopped(ops, DropLast(more));
      StepStaysStopped(Run(before), Last(more), |Run(ops).workers|);
      assert DropLast(ops + more) == before && Last(ops + more) == Last(more);
    }
  }

  // ---------------------------------------------------------------- the client

  datatype Opened = Started | Added | Duplicate | Closed

  /** The fields under the mutex; each method is one critical section. */
  class Mux {
    var conns: map<string, Conn>
    var running: bool
    var closed: bool
    var kick: bool
    /** The attached stream, 0 while disconnected. */
    var stream: nat

    ghost predicate Shows(s: Sys)
      reads this
    {
      conns == s.conns && running == s.running && closed == s.closed && kick == s.kick
    }

    constructor ()
      ensures Shows(Init())
    {
      conns, running, closed, kick, stream := map[], false, false, false, 0;
    }

    /** Register the peer; the caller starts a goroutine when told to. */
    method Open(id: string, serial: nat, ghost s: Sys) returns (r: Opened)
      requires Shows(s) && OneWorker(s) && serial == s.next
      modifies this
      ensures Shows(Do(s, Op.Open(id)))
      ensures r.Started? <==> |Do(s, Op.Open(id)).workers| > |s.workers|
      ensures r.Closed? <==> s.closed
      ensures r.Duplicate? <==> !s.closed && id in s.conns
      ensures var ok := !old(closed) && id !in old(conns);
        && conns == (if ok then old(conns)[id := Conn(serial, 0)] else old(conns))
        && running == (old(running) || ok) && (r.Started? <==> ok && !old(running))
    {
      if closed {
        return Closed;
      }
      if id in conns {
        return Duplicate;
      }
      conns := conns[id := Conn(serial, 0)];
      if !running {
        running := true;
        return Started;
      }
      return Added;
    }

    /** Forget a connection that is still registered, and name the stream the server has to be told about, if any. */
    method Remove(id: string, serial: nat, ghost s: Sys) returns (left: nat)
      requires Shows(s)
      modifies `conns, `kick
      ensures Shows(Forget(s, Key(id, serial)))
      ensures left == if Registered(s, Key(id, serial)) && s.conns[id].stream == stream then stream else 0
      ensures var known := id in old(conns) && old(conns)[id].serial == serial;
        conns == (if known then old(conns) - {id} else old(conns)) && kick == (old(kick) || known)
    {
      if id !in conns || conns[id].serial != serial {
        return 0;
      }
      left := if conns[id].stream == stream then stream else 0;
      conns := conns - {id};
      kick := true;
    }

    /** Whether the goroutine at the top of its loop goes on; otherwise it counts as stopped from here. */
    method KeepRunning(ghost s: Sys, ghost i: nat) returns (go: bool)
      requires Shows(s) && i < |s.workers| && s.workers[i].Top?
      modifies this
      ensures Shows(WorkerStep(s, i, Next))
      ensures go <==> |WorkerStep(s, i, Next).workers| == |s.workers|
      ensures go == (!closed && conns != map[]) && running == (old(running) && go)
      ensures conns == old(conns) && closed == old(closed)
    {
      if closed || conns == map[] {
        running := false;
        return false;
      }
      return true;
    }

    /** The peers to join, collected in one section by going over the connections in any order. */
    method ListPending(stream: nat, ghost s: Sys) returns (todo: set<Key>)
      requires Shows(s)
      ensures todo == Unjoined(s, stream)
    {
      todo := {};
      var rest := conns.Keys;
      while rest != {}
        invariant rest <= conns.Keys
        invariant todo == set id | id in conns.Keys - rest && conns[id].stream != stream :: Key(id, conns[id].serial)
        decreases rest
      {
        var id :| id in rest;
        if conns[id].stream != stream {
          todo := todo + {Key(id, conns[id].serial)};
        }
        rest := rest - {id};
      }
    }

    method CloseAll(ghost s: Sys) returns (was: set<string>)
      requires Shows(s)
      modifies this
      ensures Shows(Do(s, CloseSection)) && was == s.conns.Keys
      ensures closed && conns == map[]
    {
      was := conns.Keys;
      closed, conns := true, map[];
    }
  }
}
