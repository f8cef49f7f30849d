/**
  What joins, leaves and the close of a multiplexed stream achieve: a join attaches
  and lists its peer, and reports it truly; a leave and the close let go.
 */
module MuxRequests {
  import opened Common
  import opened MuxServer

  /** The request's attachment is the stream of its record. */
  predicate Attached(s: Sys, m: Member) { OnUs(s, m.rec, m.att) }

  predicate Lists(s: Sys, id: nat, m: Member) { id in s.members && s.members[id] == m }

  predicate At(s: Sys, id: nat, q: Request) { id in s.inFlight && s.inFlight[id] == q }

  /** Of the records, at most rec changed. */
  predicate OnlyRecord(s: Sys, t: Sys, rec: nat)
  {
    t.recs.Keys == s.recs.Keys && forall r <- s.recs :: r != rec ==> t.recs[r] == s.recs[r]
  }

  lemma RequestIsGood(ops: seq<Op>, id: nat)
    requires id in Run(ops).inFlight
    ensures GoodRequest(Run(ops), id) && Numbers(Run(ops))
  {
    RunKeepsInv(ops);
  }

  // ----------------------------------------------------------------- sections

  /** The first section of a join on an open stream lists a new attachment, and remembers what it displaces. */
  lemma JoinLists(ops: seq<Op>, rec: nat)
    requires var s := Run(ops); rec in s.recs && s.recs[rec].id !in s.inFlight && s.close.Open?
    ensures var s, t := Run(ops), Run(ops + [JoinStart(rec)]); var id, me := s.recs[rec].id, Member(rec, s.next);
      && t.recs == s.recs && t.close.Open? && Lists(t, id, me) && me.att in t.mine && me.att !in s.mine
      && At(t, id, if id in s.members && s.members[id].rec != rec then Displacing(me, s.members[id]) else Attaching(me))
  {
    RunSnoc(ops, JoinStart(rec));
    assert Numbers(Run(ops)) by { RunKeepsInv(ops); }
  }

  /** The second, if an older record of the ID was displaced, takes that one off the stream and no other. */
  lemma JoinDisplaces(ops: seq<Op>, id: nat, me: Member, prev: Member)
    requires At(Run(ops), id, Displacing(me, prev))
    ensures var s, t := Run(ops), Run(ops + [Advance(id)]);
      && !Attached(t, prev) && OnlyRecord(s, t, prev.rec) && At(t, id, Attaching(me))
      && t.close == s.close && t.members == s.members
  {
    RequestIsGood(ops, id);
    RunSnoc(ops, Advance(id));
  }

  /** The next attaches: the record is on the stream, and the open stream lists it. */
  lemma JoinAttaches(ops: seq<Op>, id: nat, me: Member)
    requires At(Run(ops), id, Attaching(me))
    ensures var s, t := Run(ops), Run(ops + [Advance(id)]);
      && Attached(t, me) && OnlyRecord(s, t, me.rec) && At(t, id, Checking(me)) && t.close == s.close
      && (s.close.Open? ==> Lists(t, id, me))
  {
    RequestIsGood(ops, id);
    RunSnoc(ops, Advance(id));
  }

  /** The last looks at the flag: on an open stream the join is over and nothing has changed. */
  lemma JoinLooks(ops: seq<Op>, id: nat, me: Member)
    requires At(Run(ops), id, Checking(me))
    ensures var s, t := Run(ops), Run(ops + [Advance(id)]);
      && t.recs == s.recs && t.close == s.close && t.members == s.members
      && (if s.close.Open? then id !in t.inFlight else At(t, id, Undoing(me)))
  {
    RequestIsGood(ops, id);
    RunSnoc(ops, Advance(id));
  }

  /** An undone join and a leave end with their attachment off its record, and with no other record touched. */
  lemma LetsGo(ops: seq<Op>, id: nat, me: Member)
    requires At(Run(ops), id, Undoing(me)) || At(Run(ops), id, Leaving(me))
    ensures var s, t := Run(ops), Run(ops + [Advance(id)]);
      && !Attached(t, me) && OnlyRecord(s, t, me.rec) && id !in t.inFlight
      && t.close == s.close && t.members == s.members
  {
    RequestIsGood(ops, id);
    RunSnoc(ops, Advance(id));
  }

  /** The first section of a leave unlists the peer and touches no record. */
  lemma LeaveUnlists(ops: seq<Op>, id: nat, m: Member)
    requires Lists(Run(ops), id, m) && id !in Run(ops).inFlight
    ensures var s, t := Run(ops), Run(ops + [LeaveStart(id)]);
      t.recs == s.recs && t.close == s.close && t.members == s.members - {id} && At(t, id, Leaving(m))
  {
    RunSnoc(ops, LeaveStart(id));
  }

  /** What happens to a record from outside: it is registered, without a stream, */
  lemma Registers(ops: seq<Op>, rec: nat, id: nat)
    ensures var s, t := Run(ops), Run(ops + [Register(rec, id)]);
      && rec in t.recs && t.recs[rec] == (if rec in s.recs then s.recs[rec] else Record(id, None))
      && forall r <- s.recs :: r in t.recs && t.recs[r] == s.recs[r]
  {
    RunSnoc(ops, Register(rec, id));
  }

  /** attached to another stream, */
  lemma TakenElsewhere(ops: seq<Op>, rec: nat)
    requires rec in Run(ops).recs
    ensures var s, t := Run(ops), Run(ops + [TakeOver(rec)]);
      OnlyRecord(s, t, rec) && t.recs[rec].stream.Some? && t.recs[rec].stream.value !in t.mine
  {
    RunSnoc(ops, TakeOver(rec));
    assert Numbers(Run(ops)) by { RunKeepsInv(ops); }
  }

  /** let go there, which a record on this stream is not, */
  lemma LetGoElsewhere(ops: seq<Op>, rec: nat)
    requires rec in Run(ops).recs
    ensures var s, t := Run(ops), Run(ops + [OtherLeaves(rec)]);
      if Here(s, rec) then t == s else OnlyRecord(s, t, rec) && t.recs[rec].stream.None?
  {
    RunSnoc(ops, OtherLeaves(rec));
  }

  /** or ended by a shutdown. */
  lemma ShutDown(ops: seq<Op>, rec: nat)
    requires rec in Run(ops).recs
    ensures var s, t := Run(ops), Run(ops + [ShutdownRecord(rec)]); OnlyRecord(s, t, rec) && t.recs[rec].stream.None?
  {
    RunSnoc(ops, ShutdownRecord(rec));
    EndedBy(Run(ops), rec);
  }

  lemma EndedBy(s: Sys, rec: nat)
    requires rec in s.recs
    ensures var t := Do(s, ShutdownRecord(rec)); OnlyRecord(s, t, rec) && t.recs[rec].stream.None?
  {
  }

  // ------------------------------------------------------------ whole requests

  /** The join's record is on the open stream and listed, and the join has only its last look to take. */
  predicate Joined(s: Sys, id: nat, me: Member)
  {
    s.close.Open? && At(s, id, Checking(me)) && Attached(s, me) && Lists(s, id, me)
  }

  /** Another stream or a shutdown takes the record, the stream closes, or the join itself goes on. */
  predicate Disturbs(op: Op, id: nat, rec: nat)
  {
    op == TakeOver(rec) || op == ShutdownRecord(rec) || op == CloseStart || op == Advance(id)
  }

  lemma JoinedStays(s: Sys, id: nat, me: Member, op: Op)
    requires Inv(s) && Joined(s, id, me) && !Disturbs(op, id, me.rec)
    ensures Joined(Do(s, op), id, me)
  {
    assert GoodRequest(s, id);
    match op
    case Advance(i) => JoinedStaysOver(s, id, me, i);
    case JoinStart(rec) => JoinedStaysJoin(s, id, me, rec);
    case TakeOver(rec) => JoinedStaysTakeOver(s, id, me, rec);
    case ShutdownRecord(rec) => JoinedStaysShutdown(s, id, me, rec);
    case _ =>
  }

  /** Other requests concern other records and other IDs. */
  lemma JoinedStaysOver(s: Sys, id: nat, me: Member, i: nat)
    requires Sound(s) && Joined(s, id, me) && GoodRequest(s, id) && i != id
    ensures Joined(Do(s, Advance(i)), id, me)
  {
    if i in s.inFlight { assert GoodRequest(s, i); }
  }

  lemma JoinedStaysJoin(s: Sys, id: nat, me: Member, rec: nat)
    requires Joined(s, id, me) && GoodRequest(s, id)
    ensures Joined(Do(s, JoinStart(rec)), id, me)
  {
  }

  lemma JoinedStaysTakeOver(s: Sys, id: nat, me: Member, rec: nat)
    requires Numbers(s) && Joined(s, id, me) && GoodRequest(s, id) && rec != me.rec
    ensures Joined(Do(s, TakeOver(rec)), id, me)
  {
  }

  lemma JoinedStaysShutdown(s: Sys, id: nat, me: Member, rec: nat)
    requires Numbers(s) && Joined(s, id, me) && GoodRequest(s, id) && rec != me.rec
    ensures Joined(Do(s, ShutdownRecord(rec)), id, me)
  {
  }

  lemma JoinedNext(ops: seq<Op>, id: nat, me: Member, op: Op)
    requires Joined(Run(ops), id, me) && !Disturbs(op, id, me.rec)
    ensures Joined(Run(ops + [op]), id, me)
  {
    RunKeepsInv(ops);
    JoinedStays(Run(ops), id, me, op);
    RunSnoc(ops, op);
  }

  lemma {:induction false} JoinedHolds(ops: seq<Op>, id: nat, me: Member, more: seq<Op>)
    requires Joined(Run(ops), id, me) && forall op <- more :: !Disturbs(op, id, me.rec)
    ensures Joined(Run(ops + more), id, me)
  {
    if more == [] {
      assert ops + more == ops;
    } else {
      var before := ops + DropLast(more);
      JoinedHolds(ops, id, me, DropLast(more));
      JoinedNext(before, id, me, Last(more));
      assert ops + more == before + [Last(more)];
    }
  }

  /**
    A join on an open stream is true to its report: whatever other requests, peers
    and streams do between its attaching and its last look, it reports true, and its
    record is on the stream and listed then and afterwards, unless another stream or
    a shutdown has taken that very record or the stream has been closed.
   */
  lemma JoinReportsTruly(ops: seq<Op>, id: nat, me: Member, more: seq<Op>)
    requires At(Run(ops), id, Attaching(me)) && Run(ops).close.Open?
    requires forall op <- more :: !Disturbs(op, id, me.rec)
    ensures var s := Run(ops + [Advance(id)] + more); var t := Run(ops + [Advance(id)] + more + [Advance(id)]);
      Verdict(s, id) == Some(true) && id !in t.inFlight && Attached(t, me) && Lists(t, id, me)
  {
    JoinAttaches(ops, id, me);
    JoinedHolds(ops + [Advance(id)], id, me, more);
    JoinLooks(ops + [Advance(id)] + more, id, me);
  }

  /** Whatever has happened to it, a join that is about to report true lists its record exactly if it is attached. */
  lemma TrueIsListedIfAttached(ops: seq<Op>, id: nat)
    requires Verdict(Run(ops), id) == Some(true)
    ensures var me := Run(ops).inFlight[id].me; Lists(Run(ops), id, me) <==> Attached(Run(ops), me)
  {
    RunKeepsInv(ops);
    RequestIsGood(ops, id);
  }

  /** The sections a join takes after its first when it is left alone. */
  function Sections(s: Sys, rec: nat): nat
    requires rec in s.recs
  {
    var id := s.recs[rec].id;
    if id in s.members && s.members[id].rec != rec then 3 else 2
  }

  lemma JoinBegins(ops: seq<Op>, rec: nat)
    requires var s := Run(ops); rec in s.recs && s.recs[rec].id !in s.inFlight && s.close.Open?
    ensures var s := Run(ops); var id, me := s.recs[rec].id, Member(rec, s.next);
      var t := Run(ops + [JoinStart(rec)] + Advances(id, Sections(s, rec) - 2));
      At(t, id, Attaching(me)) && t.close.Open?
  {
    var s, started := Run(ops), ops + [JoinStart(rec)];
    var id := s.recs[rec].id;
    JoinLists(ops, rec);
    if Sections(s, rec) == 3 {
      JoinDisplaces(started, id, Member(rec, s.next), s.members[id]);
      assert Advances(id, 1) == Advances(id, 0) + [Advance(id)];
      assert started + Advances(id, 1) == started + [Advance(id)];
    } else {
      assert started + Advances(id, 0) == started;
    }
  }

  /** The request is over, its record is listed, and it is the only one of the ID on the stream. */
  predicate Succeeded(t: Sys, id: nat, me: Member)
  {
    && t.close.Open? && id !in t.inFlight && Attached(t, me) && Lists(t, id, me)
    && forall r <- t.recs :: t.recs[r].id == id && Here(t, r) ==> r == me.rec
  }

  lemma JoinEnds(ops: seq<Op>, id: nat, me: Member, all: seq<Op>)
    requires At(Run(ops), id, Attaching(me)) && Run(ops).close.Open?
    requires all == ops + [Advance(id)] + [Advance(id)]
    ensures Succeeded(Run(all), id, me)
  {
    JoinAttaches(ops, id, me);
    JoinLooks(ops + [Advance(id)], id, me);
    RequestIsGood(ops + [Advance(id)], id);
    OnlyOneHere(all, id, me.rec);
  }

  lemma TwoMore(ops: seq<Op>, id: nat, n: nat)
    ensures ops + Advances(id, n + 2) == ops + Advances(id, n) + [Advance(id)] + [Advance(id)]
  {
    assert Advances(id, n + 2) == Advances(id, n + 1) + [Advance(id)];
    assert Advances(id, n + 1) == Advances(id, n) + [Advance(id)];
  }

  /** A join left alone on an open stream succeeds. */
  lemma JoinSucceeds(ops: seq<Op>, rec: nat, id: nat, me: Member)
    requires var s := Run(ops); rec in s.recs && s.recs[rec].id == id && id !in s.inFlight && s.close.Open?
    requires me == Member(rec, Run(ops).next)
    ensures Succeeded(Run(ops + [JoinStart(rec)] + Advances(id, Sections(Run(ops), rec))), id, me)
  {
    var n, started := Sections(Run(ops), rec), ops + [JoinStart(rec)];
    JoinBegins(ops, rec);
    TwoMore(started, id, n - 2);
    JoinEnds(started + Advances(id, n - 2), id, me, started + Advances(id, n));
  }

  lemma OnlyOneHere(ops: seq<Op>, id: nat, rec: nat)
    requires var s := Run(ops); s.close.Open? && id !in s.inFlight && Here(s, rec) && s.recs[rec].id == id
    ensures var s := Run(ops); forall r <- s.recs :: s.recs[r].id == id && Here(s, r) ==> r == rec
  {
    forall r <- Run(ops).recs | Run(ops).recs[r].id == id && Here(Run(ops), r) ensures r == rec {
      OneRecordHere(ops, r, rec);
    }
  }

  /** A leave left alone takes the ID off the stream altogether. */
  lemma LeaveSucceeds(ops: seq<Op>, id: nat)
    requires var s := Run(ops); id in s.members && id !in s.inFlight && s.close.Open?
    ensures var t := Run(ops + [LeaveStart(id)] + [Advance(id)]);
      && id !in t.members && id !in t.inFlight && t.close.Open?
      && forall r <- t.recs :: t.recs[r].id == id ==> !Here(t, r)
  {
    var all := ops + [LeaveStart(id)] + [Advance(id)];
    LeaveUnlists(ops, id, Run(ops).members[id]);
    LetsGo(ops + [LeaveStart(id)], id, Run(ops).members[id]);
    forall r <- Run(all).recs | Run(all).recs[r].id == id ensures !Here(Run(all), r) {
      if Here(Run(all), r) { ListedExactly(all, r); }
    }
  }

  // ------------------------------------------------------------------- close

  /** The close takes the index, */
  lemma CloseTakesAll(ops: seq<Op>)
    requires Run(ops).close.Open?
    ensures var s, t := Run(ops), Run(ops + [CloseStart]);
      t.close == Closing(s.members.Values) && t.members == map[] && t.recs == s.recs && t.inFlight == s.inFlight
  {
    RunSnoc(ops, CloseStart);
  }

  /** lets go of one member at a time, */
  lemma CloseLetsGo(ops: seq<Op>, m: Member)
    requires Run(ops).close.Closing? && m in Run(ops).close.todo
    ensures var s, t := Run(ops), Run(ops + [CloseOne(m)]);
      t.close == Closing(s.close.todo - {m}) && !Attached(t, m) && OnlyRecord(s, t, m.rec)
  {
    RunSnoc(ops, CloseOne(m));
  }

  /** and returns when, and not before, it has let go of all. */
  lemma CloseReturns(ops: seq<Op>)
    requires Run(ops).close.Closing?
    ensures Run(ops + [CloseEnd]).close == if Run(ops).close.todo == {} then Closed else Run(ops).close
  {
    RunSnoc(ops, CloseEnd);
  }

  lemma {:induction false} CloseGoesOn(ops: seq<Op>, todo: set<Member>) returns (more: seq<Op>)
    requires Run(ops).close == Closing(todo)
    ensures |more| == |todo| + 1 && Run(ops + more).close == Closed
    decreases |todo|
  {
    if todo == {} {
      more := [CloseEnd];
      CloseReturns(ops);
    } else {
      var m :| m in todo;
      CloseLetsGo(ops, m);
      var rest := CloseGoesOn(ops + [CloseOne(m)], todo - {m});
      more := [CloseOne(m)] + rest;
      assert ops + more == ops + [CloseOne(m)] + rest;
    }
  }

  /** The close of an open stream comes to its end: one section for the index, one per member, and it has returned. */
  lemma CloseCompletes(ops: seq<Op>, listed: set<Member>) returns (rest: seq<Op>)
    requires Run(ops).close.Open? && listed == Run(ops).members.Values
    ensures |rest| == |listed| + 1 && Run(ops + [CloseStart] + rest).close == Closed
  {
    CloseTakesAll(ops);
    rest := CloseGoesOn(ops + [CloseStart], listed);
  }
}
