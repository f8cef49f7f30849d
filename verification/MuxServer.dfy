/**
  One multiplexed stream of the signaling server, its member index, and the
  peers' own stream pointers. A join takes three separate critical sections and a
  leave two; closing the stream takes one for the index and one per member. They
  interleave here at every lock boundary with take-overs by other streams, server
  shutdown of single records, and each other; requests for one peer ID on this
  stream are serialized, as the client serializes them.

  The callback of a replaced attachment takes the stream mutex inside the peer
  mutex; no step observes the peer between the two, so it is part of the attach.
 */
module MuxServer {
  import opened Common

  /** A peer record and the attachment it was given on this stream. */
  datatype Member = Member(rec: nat, att: nat)

  /** A registered peer: its ID and the attachment that is its stream. */
  datatype Record = Record(id: nat, stream: Option<nat>)

  /** Where the one request in flight for a peer ID is. */
  datatype Request =
    | Displacing(me: Member, prev: Member)  // listed; an older record of the ID is to be detached
    | Attaching(me: Member)                 // listed; about to attach
    | Checking(me: Member)                  // attached; about to look at the closed flag
    | Undoing(me: Member)                   // the stream had closed; about to detach
    | Leaving(me: Member)                   // unlisted; about to detach

  datatype Close = Open | Closing(todo: set<Member>) | Closed

  /**
    recs      peer records
    mine      every attachment made for this stream, with its record
    next      the next attachment number
    members   the index, by peer ID
    detached  peers taken over and not yet reported
    inFlight  requests in flight, by peer ID
   */
  datatype Sys = Sys(recs: map<nat, Record>, mine: map<nat, nat>, next: nat, members: map<nat, Member>,
                     detached: seq<nat>, close: Close, inFlight: map<nat, Request>)

  datatype Op =
    | Register(rec: nat, id: nat)
    | JoinStart(rec: nat)
    | LeaveStart(id: nat)
    | Advance(id: nat)       // the request in flight for the ID takes its next section
    | TakeOver(rec: nat)     // another stream attaches to the record
    | OtherLeaves(rec: nat)  // and goes away again
    | ShutdownRecord(rec: nat)
    | CloseStart
    | CloseOne(m: Member)
    | CloseEnd
    | TakeDetached           // the stream's loop reports the take-overs

  function Init(): Sys { Sys(map[], map[], 0, map[], [], Open, map[]) }

  function SetStream(s: Sys, rec: nat, stream: Option<nat>): Sys
    requires rec in s.recs
  {
    s.(recs := s.recs[rec := s.recs[rec].(stream := stream)])
  }

  function Detach(s: Sys, m: Member): Sys
  {
    if m.rec in s.recs && s.recs[m.rec].stream == Some(m.att) then SetStream(s, m.rec, None) else s
  }

  /** Whether ending the record's stream finds that attachment listed here. */
  predicate Listed(s: Sys, rec: nat)
    requires rec in s.recs
  {
    var r := s.recs[rec];
    && r.stream.Some? && r.stream.value in s.mine
    && r.id in s.members && s.members[r.id].att == r.stream.value
  }

  /** The end callback of the record's stream: unlist it, and report a take-over. */
  function EndStream(s: Sys, rec: nat, replaced: bool): Sys
    requires rec in s.recs
  {
    if !Listed(s, rec) then s
    else s.(members := s.members - {s.recs[rec].id},
            detached := if replaced then s.detached + [s.recs[rec].id] else s.detached)
  }

  function Attach(s: Sys, rec: nat, att: nat): Sys
    requires rec in s.recs
  {
    SetStream(EndStream(s, rec, true), rec, Some(att))
  }

  function StartJoin(s: Sys, rec: nat): Sys
    requires rec in s.recs
  {
    var id, me := s.recs[rec].id, Member(rec, s.next);
    s.(next := s.next + 1, mine := s.mine[s.next := rec], members := s.members[id := me],
       inFlight := s.inFlight[id := if id in s.members && s.members[id].rec != rec
                                    then Displacing(me, s.members[id]) else Attaching(me)])
  }

  function Finish(s: Sys, id: nat): Sys { s.(inFlight := s.inFlight - {id}) }

  function Proceed(s: Sys, id: nat, q: Request): Sys { s.(inFlight := s.inFlight[id := q]) }

  function NextSection(s: Sys, id: nat): Sys
    requires id in s.inFlight && s.inFlight[id].me.rec in s.recs
  {
    match s.inFlight[id]
    case Displacing(me, prev) => Proceed(Detach(s, prev), id, Attaching(me))
    case Attaching(me) => Proceed(Attach(s, me.rec, me.att), id, Checking(me))
    case Checking(me) => if s.close.Open? then Finish(s, id) else Proceed(s, id, Undoing(me))
    case Undoing(me) => Finish(Detach(s, me), id)
    case Leaving(me) => Finish(Detach(s, me), id)
  }

  function Do(s: Sys, op: Op): Sys
  {
    match op
    case Register(rec, id) => if rec in s.recs then s else s.(recs := s.recs[rec := Record(id, None)])
    case JoinStart(rec) =>
      if rec !in s.recs || s.recs[rec].id in s.inFlight || !s.close.Open? then s else StartJoin(s, rec)
    case LeaveStart(id) =>
      if id in s.inFlight || id !in s.members then s
      else s.(members := s.members - {id}, inFlight := s.inFlight[id := Leaving(s.members[id])])
    case Advance(id) =>
      if id !in s.inFlight || s.inFlight[id].me.rec !in s.recs then s else NextSection(s, id)
    case TakeOver(rec) => if rec !in s.recs then s else Attach(s, rec, s.next).(next := s.next + 1)
    case OtherLeaves(rec) =>
      if rec in s.recs && s.recs[rec].stream.Some? && s.recs[rec].stream.value !in s.mine
        then SetStream(s, rec, None) else s
    case ShutdownRecord(rec) => if rec in s.recs then SetStream(EndStream(s, rec, false), rec, None) else s
    case CloseStart => if s.close.Open? then s.(close := Closing(s.members.Values), members := map[]) else s
    case CloseOne(m) =>
      if s.close.Closing? && m in s.close.todo then Detach(s, m).(close := Closing(s.close.todo - {m})) else s
    case CloseEnd => if s.close == Closing({}) then s.(close := Closed) else s
    case TakeDetached => s.(detached := [])
  }

  function Run(ops: seq<Op>): Sys
  {
    if ops == [] then Init() else Do(Run(DropLast(ops)), Last(ops))
  }

  // ---------------------------------------------------------------- invariant

  /** The record's stream is an attachment of this multiplexed stream. */
  predicate OnUs(s: Sys, rec: nat, att: nat)
  {
    rec in s.recs && s.recs[rec].stream == Some(att) && att in s.mine
  }

  /** An attachment made for this stream, for that record of that ID. */
  predicate Made(s: Sys, id: nat, m: Member)
  {
    m.rec in s.recs && s.recs[m.rec].id == id && m.att in s.mine && s.mine[m.att] == m.rec
  }

  /** The request has listed the member but not attached it yet. */
  predicate Before(s: Sys, id: nat, m: Member)
  {
    id in s.inFlight && s.inFlight[id].me == m && (s.inFlight[id].Displacing? || s.inFlight[id].Attaching?)
  }

  predicate Numbers(s: Sys)
  {
    && (forall a <- s.mine :: a < s.next)
    && (forall r <- s.recs :: s.recs[r].stream.Some? ==> s.recs[r].stream.value < s.next)
    && (forall r <- s.recs :: s.recs[r].stream.Some? && s.recs[r].stream.value in s.mine
          ==> s.mine[s.recs[r].stream.value] == r)
  }

  predicate Index(s: Sys)
  {
    && (!s.close.Open? ==> s.members == map[])
    && (forall id <- s.members :: Made(s, id, s.members[id]))
    && (forall id <- s.members :: OnUs(s, s.members[id].rec, s.members[id].att) || Before(s, id, s.members[id]))
  }

  predicate Requests(s: Sys)
  {
    forall id <- s.inFlight :: GoodRequest(s, id)
  }

  predicate GoodRequest(s: Sys, id: nat)
    requires id in s.inFlight
  {
    var q := s.inFlight[id];
    && Made(s, id, q.me)
    && (Before(s, id, q.me) ==> !OnUs(s, q.me.rec, q.me.att))
    && (Before(s, id, q.me) && s.close.Open? ==> id in s.members && s.members[id] == q.me)
    && (q.Displacing? ==> Made(s, id, q.prev) && q.prev.rec != q.me.rec)
    && (q.Leaving? ==> id !in s.members)
    && (q.Undoing? ==> !s.close.Open?)
  }

  /** Somebody accounts for a record being on this stream. */
  predicate Accounted(s: Sys, m: Member)
    requires m.rec in s.recs
  {
    var id := s.recs[m.rec].id;
    || (id in s.members && s.members[id] == m)
    || (s.close.Closing? && m in s.close.todo)
    || (id in s.inFlight &&
          match s.inFlight[id]
          case Displacing(_, prev) => prev == m
          case Attaching(me) => me.rec == m.rec
          case Checking(me) => !s.close.Open? && me == m
          case Undoing(me) => !s.close.Open? && me == m
          case Leaving(me) => me == m)
  }

  predicate NobodyForgotten(s: Sys)
  {
    forall r <- s.recs :: s.recs[r].stream.Some? && s.recs[r].stream.value in s.mine
      ==> Accounted(s, Member(r, s.recs[r].stream.value))
  }

  predicate Inv(s: Sys)
  {
    Sound(s) && NobodyForgotten(s)
  }

  predicate Sound(s: Sys)
  {
    Numbers(s) && Index(s) && Requests(s)
  }

  lemma {:induction false} RunKeepsInv(ops: seq<Op>)
    ensures Inv(Run(ops))
  {
    if ops != [] {
      RunKeepsInv(DropLast(ops));
      DoKeepsInv(Run(DropLast(ops)), Last(ops));
    }
  }

  lemma DoKeepsInv(s: Sys, op: Op)
    requires Inv(s)
    ensures Inv(Do(s, op))
  {
    match op
    case Register(rec, id) => RegisterKeeps(s, rec, id);
    case JoinStart(rec) => JoinStartKeeps(s, rec);
    case LeaveStart(id) => LeaveStartKeeps(s, id);
    case Advance(id) => AdvanceKeeps(s, id);
    case TakeOver(rec) => TakeOverKeeps(s, rec);
    case OtherLeaves(rec) => OtherLeavesKeeps(s, rec);
    case ShutdownRecord(rec) => ShutdownKeeps(s, rec);
    case CloseStart => CloseStartKeeps(s);
    case CloseOne(m) => CloseOneKeeps(s, m);
    case CloseEnd => CloseEndKeeps(s);
    case TakeDetached => TakeDetachedKeeps(s);
  }

  lemma RegisterKeeps(s: Sys, rec: nat, id: nat)
    requires Inv(s)
    ensures Inv(Do(s, Register(rec, id)))
  {
  }

  lemma LeaveStartKeeps(s: Sys, id: nat)
    requires Inv(s)
    ensures Inv(Do(s, LeaveStart(id)))
  {
  }

  lemma OtherLeavesKeeps(s: Sys, rec: nat)
    requires Inv(s)
    ensures Inv(Do(s, OtherLeaves(rec)))
  {
  }

  lemma CloseStartKeeps(s: Sys)
    requires Inv(s)
    ensures Inv(Do(s, CloseStart))
  {
  }

  lemma CloseOneKeeps(s: Sys, m: Member)
    requires Inv(s)
    ensures Inv(Do(s, CloseOne(m)))
  {
    if s.close.Closing? && m in s.close.todo {
      DetachKeeps(s, m);
      DoneClosing(Detach(s, m), m);
    }
  }

  lemma DoneClosing(s: Sys, m: Member)
    requires Inv(s) && s.close.Closing? && !OnUs(s, m.rec, m.att)
    ensures Inv(s.(close := Closing(s.close.todo - {m})))
  {
    assert forall i <- s.inFlight :: GoodRequest(s, i);
  }

  lemma CloseEndKeeps(s: Sys)
    requires Inv(s)
    ensures Inv(Do(s, CloseEnd))
  {
  }

  lemma TakeDetachedKeeps(s: Sys)
    requires Inv(s)
    ensures Inv(Do(s, TakeDetached))
  {
    assert forall i <- s.inFlight :: GoodRequest(s, i);
  }

  lemma JoinStartKeeps(s: Sys, rec: nat)
    requires Inv(s)
    ensures Inv(Do(s, JoinStart(rec)))
  {
    if rec in s.recs && s.recs[rec].id !in s.inFlight && s.close.Open? {
      StartJoinKeepsIndex(s, rec);
      StartJoinKeepsRequests(s, rec);
      StartJoinForgetsNobody(s, rec);
    }
  }

  lemma StartJoinKeepsIndex(s: Sys, rec: nat)
    requires Inv(s) && rec in s.recs && s.recs[rec].id !in s.inFlight && s.close.Open?
    ensures Numbers(StartJoin(s, rec)) && Index(StartJoin(s, rec))
  {
  }

  lemma StartJoinKeepsRequests(s: Sys, rec: nat)
    requires Inv(s) && rec in s.recs && s.recs[rec].id !in s.inFlight && s.close.Open?
    ensures Requests(StartJoin(s, rec))
  {
    var id, t := s.recs[rec].id, StartJoin(s, rec);
    assert forall i <- t.inFlight :: i != id ==> i in s.inFlight && GoodRequest(s, i);
    assert GoodRequest(t, id);
  }

  lemma StartJoinForgetsNobody(s: Sys, rec: nat)
    requires Inv(s) && rec in s.recs && s.recs[rec].id !in s.inFlight && s.close.Open?
    ensures NobodyForgotten(StartJoin(s, rec))
  {
  }

  /** The record after its stream has been ended and cleared. */
  function Unlink(s: Sys, rec: nat, replaced: bool): Sys
    requires rec in s.recs
  {
    SetStream(EndStream(s, rec, replaced), rec, None)
  }

  lemma UnlinkKeeps(s: Sys, rec: nat, replaced: bool)
    requires Inv(s) && rec in s.recs
    ensures Inv(Unlink(s, rec, replaced))
  {
    UnlinkKeepsIndex(s, rec, replaced);
    UnlinkKeepsRequests(s, rec, replaced);
    UnlinkForgetsNobody(s, rec, replaced);
  }

  lemma UnlinkKeepsIndex(s: Sys, rec: nat, replaced: bool)
    requires Inv(s) && rec in s.recs
    ensures Numbers(Unlink(s, rec, replaced)) && Index(Unlink(s, rec, replaced))
  {
  }

  lemma UnlinkKeepsRequests(s: Sys, rec: nat, replaced: bool)
    requires Inv(s) && rec in s.recs
    ensures Requests(Unlink(s, rec, replaced))
  {
    forall i <- s.inFlight ensures GoodRequest(Unlink(s, rec, replaced), i) {
      UnlinkKeepsRequest(s, rec, replaced, i);
    }
  }

  lemma UnlinkKeepsRequest(s: Sys, rec: nat, replaced: bool, i: nat)
    requires Numbers(s) && rec in s.recs && i in s.inFlight && GoodRequest(s, i)
    ensures GoodRequest(Unlink(s, rec, replaced), i)
  {
  }

  lemma UnlinkForgetsNobody(s: Sys, rec: nat, replaced: bool)
    requires Inv(s) && rec in s.recs
    ensures NobodyForgotten(Unlink(s, rec, replaced))
  {
  }

  lemma ShutdownKeeps(s: Sys, rec: nat)
    requires Inv(s)
    ensures Inv(Do(s, ShutdownRecord(rec)))
  {
    if rec in s.recs { UnlinkKeeps(s, rec, false); }
  }

  /** Taking over is clearing the record's stream and then setting it. */
  lemma TakeOverInTwo(s: Sys, rec: nat)
    requires rec in s.recs
    ensures Do(s, TakeOver(rec)) == SetForeign(Unlink(s, rec, true), rec)
  {
    assert Do(s, TakeOver(rec)).recs == SetForeign(Unlink(s, rec, true), rec).recs;
  }

  function SetForeign(s: Sys, rec: nat): Sys
    requires rec in s.recs
  {
    SetStream(s, rec, Some(s.next)).(next := s.next + 1)
  }

  lemma TakeOverKeeps(s: Sys, rec: nat)
    requires Inv(s)
    ensures Inv(Do(s, TakeOver(rec)))
  {
    if rec in s.recs {
      var u := Unlink(s, rec, true);
      assert Inv(u) by { UnlinkKeeps(s, rec, true); }
      assert Inv(SetForeign(u, rec)) by { SetForeignKeeps(u, rec); }
      TakeOverInTwo(s, rec);
    }
  }

  lemma SetForeignKeeps(s: Sys, rec: nat)
    requires Inv(s) && rec in s.recs && s.recs[rec].stream == None
    ensures Inv(SetForeign(s, rec))
  {
    var t := SetForeign(s, rec);
    assert forall i <- t.inFlight :: GoodRequest(s, i);
  }

  lemma AdvanceKeeps(s: Sys, id: nat)
    requires Inv(s)
    ensures Inv(Do(s, Advance(id)))
  {
    if id in s.inFlight {
      assert GoodRequest(s, id);
      match s.inFlight[id]
      case Displacing(me, prev) => DisplaceKeeps(s, id);
      case Attaching(me) => AttachKeeps(s, id);
      case Checking(me) => CheckKeeps(s, id);
      case Undoing(me) => LetGoKeeps(s, id);
      case Leaving(me) => LetGoKeeps(s, id);
    }
  }

  lemma DisplaceKeeps(s: Sys, id: nat)
    requires Inv(s) && id in s.inFlight && s.inFlight[id].Displacing?
    ensures Inv(Proceed(Detach(s, s.inFlight[id].prev), id, Attaching(s.inFlight[id].me)))
  {
    var prev := s.inFlight[id].prev;
    assert GoodRequest(s, id);
    DetachKeeps(s, prev);
    DisplacedKeeps(Detach(s, prev), id);
  }

  lemma DetachKeeps(s: Sys, m: Member)
    requires Inv(s) && (forall i <- s.members :: s.members[i] != m)
    ensures Inv(Detach(s, m))
  {
    DetachSound(s, m);
    assert NobodyForgotten(Detach(s, m));
  }

  lemma DetachSound(s: Sys, m: Member)
    requires Inv(s) && (forall i <- s.members :: s.members[i] != m)
    ensures Sound(Detach(s, m))
  {
    var t := Detach(s, m);
    assert Numbers(t) && Index(t);
    forall i <- t.inFlight ensures GoodRequest(t, i) {
      assert GoodRequest(s, i);
    }
  }

  lemma DisplacedKeeps(s: Sys, id: nat)
    requires Inv(s) && id in s.inFlight && s.inFlight[id].Displacing?
    requires !OnUs(s, s.inFlight[id].prev.rec, s.inFlight[id].prev.att)
    ensures Inv(Proceed(s, id, Attaching(s.inFlight[id].me)))
  {
    var q := Attaching(s.inFlight[id].me);
    assert GoodRequest(s, id);
    ProceedSound(s, id, q);
    assert NobodyForgotten(Proceed(s, id, q));
  }

  /** A request that moves on keeps the index and the other requests, if it is good itself. */
  lemma ProceedSound(s: Sys, id: nat, q: Request)
    requires Sound(s) && id in s.inFlight && q.me == s.inFlight[id].me
    requires !q.Displacing? && !q.Leaving? && !s.inFlight[id].Leaving?
    requires q.Attaching? ==> Before(s, id, q.me)
    requires q.Undoing? ==> !s.close.Open?
    requires q.Checking? || q.Undoing? ==> !Before(s, id, q.me)
    ensures Sound(Proceed(s, id, q))
  {
    var t := Proceed(s, id, q);
    assert GoodRequest(s, id);
    ProceedIndex(s, id, q);
    forall i <- t.inFlight ensures GoodRequest(t, i) {
      assert GoodRequest(s, i);
    }
  }

  lemma ProceedIndex(s: Sys, id: nat, q: Request)
    requires Numbers(s) && Index(s) && id in s.inFlight && q.me == s.inFlight[id].me
    requires Before(s, id, q.me) ==> q.Attaching?
    ensures Numbers(Proceed(s, id, q)) && Index(Proceed(s, id, q))
  {
  }

  lemma AttachKeeps(s: Sys, id: nat)
    requires Inv(s) && id in s.inFlight && s.inFlight[id].Attaching?
    ensures Inv(Do(s, Advance(id)))
  {
    assert GoodRequest(s, id);
    AttachSound(s, id);
    AttachForgetsNobody(s, id);
  }

  lemma AttachSound(s: Sys, id: nat)
    requires Inv(s) && id in s.inFlight && s.inFlight[id].Attaching? && GoodRequest(s, id)
    ensures Sound(NextSection(s, id))
  {
    AttachIndex(s, id);
    forall i <- s.inFlight ensures GoodRequest(NextSection(s, id), i) {
      AttachRequest(s, id, i);
    }
  }

  lemma AttachIndex(s: Sys, id: nat)
    requires Inv(s) && id in s.inFlight && s.inFlight[id].Attaching? && GoodRequest(s, id)
    ensures Numbers(NextSection(s, id)) && Index(NextSection(s, id))
  {
  }

  lemma AttachRequest(s: Sys, id: nat, i: nat)
    requires Numbers(s) && id in s.inFlight && s.inFlight[id].Attaching? && GoodRequest(s, id)
    requires i in s.inFlight && GoodRequest(s, i)
    ensures GoodRequest(NextSection(s, id), i)
  {
  }

  lemma AttachForgetsNobody(s: Sys, id: nat)
    requires Inv(s) && id in s.inFlight && s.inFlight[id].Attaching? && GoodRequest(s, id)
    ensures NobodyForgotten(NextSection(s, id))
  {
  }

  lemma CheckKeeps(s: Sys, id: nat)
    requires Inv(s) && id in s.inFlight && s.inFlight[id].Checking? && s.inFlight[id].me.rec in s.recs
    ensures Inv(NextSection(s, id))
  {
    if s.close.Open? {
      JoinedKeeps(s, id);
    } else {
      ProceedSound(s, id, Undoing(s.inFlight[id].me));
      assert NobodyForgotten(NextSection(s, id));
    }
  }

  lemma JoinedKeeps(s: Sys, id: nat)
    requires Inv(s) && id in s.inFlight && s.inFlight[id].Checking? && s.close.Open?
    ensures Inv(Finish(s, id))
  {
    var t := Finish(s, id);
    assert forall i <- t.inFlight :: GoodRequest(s, i);
  }

  lemma LetGoKeeps(s: Sys, id: nat)
    requires Inv(s) && id in s.inFlight && (s.inFlight[id].Undoing? || s.inFlight[id].Leaving?)
    ensures Inv(Finish(Detach(s, s.inFlight[id].me), id))
  {
    var me := s.inFlight[id].me;
    assert GoodRequest(s, id);
    DetachKeeps(s, me);
    FinishKeeps(Detach(s, me), id);
  }

  lemma FinishKeeps(s: Sys, id: nat)
    requires Inv(s) && id in s.inFlight && (s.inFlight[id].Undoing? || s.inFlight[id].Leaving?)
    requires !OnUs(s, s.inFlight[id].me.rec, s.inFlight[id].me.att)
    ensures Inv(Finish(s, id))
  {
  }

  // ----------------------------------------------------------------- theorems

  /** The record's stream belongs to this multiplexed stream. */
  predicate Here(s: Sys, rec: nat)
  {
    rec in s.recs && s.recs[rec].stream.Some? && s.recs[rec].stream.value in s.mine
  }

  lemma RunSnoc(ops: seq<Op>, op: Op)
    ensures Run(ops + [op]) == Do(Run(ops), op)
  {
    assert DropLast(ops + [op]) == ops;
  }

  /**
    No orphan: once the close has returned, a record still points here only while
    the request for its ID is in flight.
   */
  lemma NoOrphan(ops: seq<Op>, rec: nat)
    requires Run(ops).close == Closed && Here(Run(ops), rec)
    ensures Run(ops).recs[rec].id in Run(ops).inFlight
  {
    RunKeepsInv(ops);
  }

  function Advances(id: nat, n: nat): seq<Op>
  {
    if n == 0 then [] else Advances(id, n - 1) + [Advance(id)]
  }

  /** How many sections the request for an ID has left once the close has begun. */
  function Left(s: Sys, id: nat): nat
  {
    if id !in s.inFlight then 0
    else match s.inFlight[id]
      case Displacing(_, _) => 4
      case Attaching(_) => 3
      case Checking(_) => 2
      case Undoing(_) => 1
      case Leaving(_) => 1
  }

  predicate Joining(s: Sys, id: nat) { id in s.inFlight && !s.inFlight[id].Leaving? }

  /** What the section the request is about to take reports to the caller of the join, if it is the last one. */
  function Verdict(s: Sys, id: nat): Option<bool>
  {
    if !Joining(s, id) then None
    else if s.inFlight[id].Checking? && s.close.Open? then Some(true)
    else if s.inFlight[id].Undoing? then Some(false)
    else None
  }

  /** t is s after n more sections of the request. */
  predicate Later(s: Sys, t: Sys, id: nat, n: nat)
  {
    && t.close == s.close
    && Left(t, id) == Max(Left(s, id) - n, 0)
    && (Joining(s, id) && Left(s, id) > n ==> Joining(t, id))
  }

  lemma LaterStill(s: Sys, t: Sys, u: Sys, id: nat, n: nat)
    requires Later(s, t, id, n) && Later(t, u, id, 1)
    ensures Later(s, u, id, n + 1)
  {
  }

  /** One more section of one request, once the close has begun. */
  lemma OneSection(s: Sys, id: nat)
    requires !s.close.Open? && Requests(s)
    ensures Later(s, Do(s, Advance(id)), id, 1)
  {
    if id in s.inFlight { assert GoodRequest(s, id); }
  }

  lemma {:induction false} Sections(ops: seq<Op>, id: nat, n: nat)
    requires !Run(ops).close.Open?
    ensures Later(Run(ops), Run(ops + Advances(id, n)), id, n)
  {
    if n == 0 {
      assert ops + Advances(id, 0) == ops;
    } else {
      var before := ops + Advances(id, n - 1);
      Sections(ops, id, n - 1);
      SectionOfRun(before, id);
      LaterStill(Run(ops), Run(before), Run(before + [Advance(id)]), id, n - 1);
      assert ops + Advances(id, n) == before + [Advance(id)];
    }
  }

  lemma SectionOfRun(ops: seq<Op>, id: nat)
    requires !Run(ops).close.Open?
    ensures Later(Run(ops), Run(ops + [Advance(id)]), id, 1)
  {
    RunKeepsInv(ops);
    RunSnoc(ops, Advance(id));
    OneSection(Run(ops), id);
  }

  /**
    And that request clears it: after the close, whatever section the request has
    reached, its remaining sections, four at most, leave nothing here for that ID.
   */
  lemma OverlappingJoinUndone(ops: seq<Op>, id: nat)
    requires Run(ops).close == Closed
    ensures Left(Run(ops), id) <= 4
    ensures var t := Run(ops + Advances(id, Left(Run(ops), id)));
            id !in t.inFlight && forall r <- t.recs :: t.recs[r].id == id ==> !Here(t, r)
  {
    var all := ops + Advances(id, Left(Run(ops), id));
    Sections(ops, id, Left(Run(ops), id));
    forall r <- Run(all).recs | Run(all).recs[r].id == id ensures !Here(Run(all), r) {
      if Here(Run(all), r) { NoOrphan(all, r); }
    }
  }

  /** A join that is in flight when the close begins reports false, with its last section and only then. */
  lemma OverlappingJoinReportsFalse(ops: seq<Op>, id: nat, n: nat)
    requires !Run(ops).close.Open? && Joining(Run(ops), id)
    ensures Verdict(Run(ops + Advances(id, n)), id) == if n + 1 == Left(Run(ops), id) then Some(false) else None
  {
    Sections(ops, id, n);
  }

  /**
    Index agreement: while the stream is open and no request for the ID is in
    flight, the index lists a record's attachment exactly when it is the record's
    stream.
   */
  lemma IndexAgreement(ops: seq<Op>, id: nat, m: Member)
    requires Run(ops).close == Open && id !in Run(ops).inFlight
    ensures var s := Run(ops);
            (id in s.members && s.members[id] == m)
            <==> (m.rec in s.recs && s.recs[m.rec].id == id && OnUs(s, m.rec, m.att))
  {
    RunKeepsInv(ops);
  }

  /** At most one record of an ID is here once its requests are done. */
  lemma OneRecordHere(ops: seq<Op>, r1: nat, r2: nat)
    requires Run(ops).close == Open && Here(Run(ops), r1) && Here(Run(ops), r2)
    requires Run(ops).recs[r1].id == Run(ops).recs[r2].id && Run(ops).recs[r1].id !in Run(ops).inFlight
    ensures r1 == r2
  {
    RunKeepsInv(ops);
  }

  /**
    A take-over of a listed record adds its ID to the reports, and nothing else
    adds anything: not a rejoin, not a displaced older record, not a shutdown.
   */
  lemma DetachedExactly(ops: seq<Op>, op: Op)
    requires op != TakeDetached
    ensures var s, t := Run(ops), Do(Run(ops), op);
            t.detached == if op.TakeOver? && op.rec in s.recs && Listed(s, op.rec)
                          then s.detached + [s.recs[op.rec].id] else s.detached
  {
    RunKeepsInv(ops);
    ReportsOnly(Run(ops), op);
  }

  lemma ReportsOnly(s: Sys, op: Op)
    requires Sound(s) && op != TakeDetached
    ensures Do(s, op).detached == if op.TakeOver? && op.rec in s.recs && Listed(s, op.rec)
                                  then s.detached + [s.recs[op.rec].id] else s.detached
  {
    if op.Advance? && op.id in s.inFlight { assert GoodRequest(s, op.id); }
  }

  /** The request for the ID is between two sections in which the index and the stream differ. */
  predicate Unsettled(s: Sys, id: nat) { id in s.inFlight && !s.inFlight[id].Checking? }

  /**
    Which take-overs are reported: on an open stream a record that is here is listed
    if and only if no request for its ID is in flight, or it has only its last look
    still to take.
   */
  lemma ListedExactly(ops: seq<Op>, rec: nat)
    requires Run(ops).close == Open && Here(Run(ops), rec)
    ensures Listed(Run(ops), rec) <==> !Unsettled(Run(ops), Run(ops).recs[rec].id)
  {
    RunKeepsInv(ops);
    ListedWhenSettled(Run(ops), rec);
  }

  lemma ListedWhenSettled(s: Sys, rec: nat)
    requires Inv(s) && s.close == Open && Here(s, rec)
    ensures Listed(s, rec) <==> !Unsettled(s, s.recs[rec].id)
  {
    var id := s.recs[rec].id;
    if id in s.inFlight { assert GoodRequest(s, id); }
    assert Accounted(s, Member(rec, s.recs[rec].stream.value));
  }

  /** So a take-over moves the record away, and is lost exactly in the middle of a join or a leave. */
  lemma TakeOverReportedExactly(ops: seq<Op>, rec: nat)
    requires Run(ops).close == Open && Here(Run(ops), rec)
    ensures var s, t := Run(ops), Do(Run(ops), TakeOver(rec)); var id := s.recs[rec].id;
      && !Here(t, rec)
      && t.detached == if Unsettled(s, id) then s.detached else s.detached + [id]
  {
    ListedExactly(ops, rec);
    assert Numbers(Run(ops)) by { RunKeepsInv(ops); }
  }

  /** A rejoin is such a middle: its first section hides the take-over that follows. */
  lemma RejoinHidesTakeOver(ops: seq<Op>, rec: nat)
    requires Run(ops).close == Open && Here(Run(ops), rec) && Run(ops).recs[rec].id !in Run(ops).inFlight
    ensures var s := Do(Run(ops), JoinStart(rec)); var t := Do(s, TakeOver(rec));
            Here(s, rec) && !Here(t, rec) && t.detached == Run(ops).detached
  {
    RunSnoc(ops, JoinStart(rec));
    assert Numbers(Run(ops)) by { RunKeepsInv(ops); }
    TakeOverReportedExactly(ops + [JoinStart(rec)], rec);
  }

  // ------------------------------------------------------- the stream's own state

  /** The stream's fields; each method is one of its critical sections. */
  class MuxStream {
    var members: map<nat, Member>
    var detached: seq<nat>
    var closed: bool
    /** The wake channel of the stream's loop holds its token. */
    var wake: bool

    /** The fields are those of the model state. */
    ghost predicate Shows(s: Sys)
      reads this
    {
      members == s.members && detached == s.detached && closed == !s.close.Open?
    }

    constructor ()
      ensures Shows(Init())
    {
      members, detached, closed, wake := map[], [], false, false;
    }

    /** The first section of a join: list the attachment unless the stream has closed. */
    method List(id: nat, me: Member, ghost s: Sys) returns (ok: bool, displaced: Option<Member>)
      requires Shows(s) && me.rec in s.recs && s.recs[me.rec].id == id && me.att == s.next
      modifies `members
      ensures ok <==> s.close.Open?
      ensures Shows(if ok then StartJoin(s, me.rec) else s)
      ensures ok ==> StartJoin(s, me.rec).inFlight[id]
                     == if displaced.Some? then Displacing(me, displaced.value) else Attaching(me)
      ensures ok == !closed && members == if ok then old(members)[id := me] else old(members)
      ensures displaced == if ok && id in old(members) && old(members)[id].rec != me.rec
                           then Some(old(members)[id]) else None
    {
      ok, displaced := !closed, None;
      if ok {
        if id in members && members[id].rec != me.rec {
          displaced := Some(members[id]);
        }
        members := members[id := me];
      }
    }

    /** The first section of a leave: unlist the peer. */
    method Unlist(id: nat, ghost s: Sys) returns (was: Option<Member>)
      requires Shows(s) && id !in s.inFlight
      modifies `members
      ensures Shows(Do(s, LeaveStart(id)))
      ensures was == if id in s.members then Some(s.members[id]) else None
      ensures members == old(members) - {id}
    {
      was := None;
      if id in members {
        was := Some(members[id]);
        members := members - {id};
      }
    }

    /** The callback of an attachment that a newer stream replaced or a shutdown ended. */
    method Ended(id: nat, att: nat, replaced: bool, ghost s: Sys, ghost rec: nat)
      requires Shows(s) && rec in s.recs && s.recs[rec] == Record(id, Some(att)) && att in s.mine
      modifies this
      ensures Shows(EndStream(s, rec, replaced))
      ensures wake == (old(wake) || Listed(s, rec)) && closed == old(closed)
      ensures var listed := id in old(members) && old(members)[id].att == att;
        && members == (if listed then old(members) - {id} else old(members))
        && detached == (if listed && replaced then old(detached) + [id] else old(detached))
    {
      if id !in members || members[id].att != att {
        return;
      }
      members := members - {id};
      if replaced {
        detached := detached + [id];
      }
      wake := true;
    }

    /** The first section of a close: take the whole index. */
    method StartClose(ghost s: Sys) returns (todo: set<Member>)
      requires Shows(s) && s.close.Open?
      modifies `members, `closed
      ensures Shows(Do(s, CloseStart)) && Do(s, CloseStart).close == Closing(todo)
      ensures closed && members == map[] && todo == old(members).Values
    {
      todo := members.Values;
      closed, members := true, map[];
    }

    method TakeReports(ghost s: Sys) returns (out: seq<nat>)
      requires Shows(s)
      modifies `detached
      ensures out == s.detached && Shows(Do(s, TakeDetached))
      ensures out == old(detached) && detached == []
    {
      out, detached := detached, [];
    }
  }
}
