/**
  That the goroutine behind a multiplexed stream does its work: from every state a
  run can reach, if the server lets it, it brings every open peer onto one stream.
  And what it does when the server does not.
 */
module MuxJoins {
  import opened Common
  import opened MuxWorker

  /** The one goroutine is there, at that position, and has something to do. */
  predicate Busy(s: Sys, pos: Pos) { !s.closed && !s.cancelled && s.conns != map[] && s.workers == [pos] }

  /** Every open peer is on the stream behind which the goroutine sleeps. */
  predicate AllJoined(s: Sys, stream: nat)
  {
    s.workers == [Sleeping(stream, false)] && forall id <- s.conns :: s.conns[id].stream == stream
  }

  /** Steps of the goroutine to which the server agrees, and kicks that are under way. */
  predicate Friendly(ops: seq<Op>)
  {
    forall op <- ops :: op == Poke ||
      (op.Work? && (op.c.Next? || op.c.Connected? || op.c.JoinDone? || op.c.Kicked? || op.c.RetryDue?))
  }

  /** t has the peers of s, all on one stream. */
  ghost predicate Done(s: Sys, t: Sys) { t.conns.Keys == s.conns.Keys && exists stream: nat :: AllJoined(t, stream) }

  lemma RunNext(ops: seq<Op>, op: Op)
    ensures Run(ops + [op]) == Do(Run(ops), op)
  {
    assert DropLast(ops + [op]) == ops;
  }

  lemma Then(ops: seq<Op>, op: Op, rest: seq<Op>)
    ensures ops + [op] + rest == ops + ([op] + rest)
  {
  }

  /** One step that keeps the peers, and the rest of the way. */
  lemma StepBusy(ops: seq<Op>, op: Op, pos: Pos, pos': Pos)
    requires Busy(Run(ops), pos) && Busy(Do(Run(ops), op), pos') && Do(Run(ops), op).conns.Keys == Run(ops).conns.Keys
    ensures Busy(Run(ops + [op]), pos') && Run(ops + [op]).conns.Keys == Run(ops).conns.Keys
    ensures Run(ops + [op]) == Do(Run(ops), op)
  {
    RunNext(ops, op);
  }

  /** A peer that the server joins is no longer to be joined; nothing else changes. */
  lemma JoinOne(s: Sys, stream: nat, k: Key)
    requires k in Unjoined(s, stream)
    ensures Joined(s, k, stream).conns.Keys == s.conns.Keys
    ensures Unjoined(Joined(s, k, stream), stream) == Unjoined(s, stream) - {k}
  {
  }

  lemma {:induction false} JoinEach(ops: seq<Op>, stream: nat, todo: set<Key>) returns (more: seq<Op>)
    requires Busy(Run(ops), Joining(stream, todo, false)) && todo == Unjoined(Run(ops), stream)
    ensures Friendly(more) && Done(Run(ops), Run(ops + more))
    decreases todo
  {
    if todo == {} {
      more := AllOn(ops, stream);
    } else {
      var k :| k in todo;
      JoinOne(Run(ops), stream, k);
      StepBusy(ops, Work(0, JoinDone(k)), Joining(stream, todo, false), Joining(stream, todo - {k}, false));
      var rest := JoinEach(ops + [Work(0, JoinDone(k))], stream, todo - {k});
      more := [Work(0, JoinDone(k))] + rest;
      Then(ops, Work(0, JoinDone(k)), rest);
    }
  }

  lemma AllOn(ops: seq<Op>, stream: nat) returns (more: seq<Op>)
    requires Busy(Run(ops), Joining(stream, {}, false)) && Unjoined(Run(ops), stream) == {}
    ensures Friendly(more) && Done(Run(ops), Run(ops + more))
  {
    var next := Work(0, Next);
    StepBusy(ops, next, Joining(stream, {}, false), Checking(stream, false));
    StepBusy(ops + [next], next, Checking(stream, false), Sleeping(stream, false));
    more := [next] + [next];
    Then(ops, next, [next]);
    NobodyLeft(Run(ops), stream);
    assert AllJoined(Run(ops + [next] + [next]), stream);
  }

  lemma ToJoin(s: Sys, stream: nat, id: string)
    requires id in s.conns && s.conns[id].stream != stream
    ensures Key(id, s.conns[id].serial) in Unjoined(s, stream)
  {
  }

  lemma NobodyLeft(s: Sys, stream: nat)
    requires Unjoined(s, stream) == {}
    ensures forall id <- s.conns :: s.conns[id].stream == stream
  {
    forall id <- s.conns ensures s.conns[id].stream == stream {
      if s.conns[id].stream != stream { ToJoin(s, stream, id); }
    }
  }

  lemma FromCollecting(ops: seq<Op>, stream: nat) returns (more: seq<Op>)
    requires Busy(Run(ops), Collecting(stream))
    ensures Friendly(more) && Done(Run(ops), Run(ops + more))
  {
    var todo, next := Unjoined(Run(ops), stream), Work(0, Next);
    StepBusy(ops, next, Collecting(stream), Joining(stream, todo, false));
    var rest := JoinEach(ops + [next], stream, todo);
    more := [next] + rest;
    Then(ops, next, rest);
  }

  lemma FromDialing(ops: seq<Op>) returns (more: seq<Op>)
    requires Busy(Run(ops), Dialing)
    ensures Friendly(more) && Done(Run(ops), Run(ops + more))
  {
    var stream, op := Run(ops).next, Work(0, Connected);
    StepBusy(ops, op, Dialing, Collecting(stream));
    var rest := FromCollecting(ops + [op], stream);
    more := [op] + rest;
    Then(ops, op, rest);
  }

  lemma FromTop(ops: seq<Op>) returns (more: seq<Op>)
    requires Busy(Run(ops), Top)
    ensures Friendly(more) && Done(Run(ops), Run(ops + more))
  {
    StepBusy(ops, Work(0, Next), Top, Dialing);
    var rest := FromDialing(ops + [Work(0, Next)]);
    more := [Work(0, Next)] + rest;
    Then(ops, Work(0, Next), rest);
  }

  lemma FromLeaving(ops: seq<Op>) returns (more: seq<Op>)
    requires Busy(Run(ops), Leaving)
    ensures Friendly(more) && Done(Run(ops), Run(ops + more))
  {
    StepBusy(ops, Work(0, Next), Leaving, Top);
    var rest := FromTop(ops + [Work(0, Next)]);
    more := [Work(0, Next)] + rest;
    Then(ops, Work(0, Next), rest);
  }

  lemma WakeBy(ops: seq<Op>, stream: nat, retry: bool, c: Choice) returns (more: seq<Op>)
    requires Busy(Run(ops), Sleeping(stream, retry))
    requires (c == Kicked && Run(ops).kick) || (c == RetryDue && retry)
    ensures Friendly(more) && Done(Run(ops), Run(ops + more))
  {
    StepBusy(ops, Work(0, c), Sleeping(stream, retry), Collecting(stream));
    var rest := FromCollecting(ops + [Work(0, c)], stream);
    more := [Work(0, c)] + rest;
    Then(ops, Work(0, c), rest);
  }

  lemma WakeByPoke(ops: seq<Op>, stream: nat, retry: bool) returns (more: seq<Op>)
    requires Busy(Run(ops), Sleeping(stream, retry)) && Run(ops).pokes > 0
    ensures Friendly(more) && Done(Run(ops), Run(ops + more))
  {
    StepBusy(ops, Poke, Sleeping(stream, retry), Sleeping(stream, retry));
    var rest := WakeBy(ops + [Poke], stream, retry, Kicked);
    more := [Poke] + rest;
    Then(ops, Poke, rest);
  }

  lemma FromSleeping(ops: seq<Op>, stream: nat, retry: bool) returns (more: seq<Op>)
    requires Busy(Run(ops), Sleeping(stream, retry))
    ensures Friendly(more) && Done(Run(ops), Run(ops + more))
  {
    NoJoinForgotten(ops);
    if Run(ops).kick {
      more := WakeBy(ops, stream, retry, Kicked);
    } else if retry {
      more := WakeBy(ops, stream, retry, RetryDue);
    } else if Run(ops).pokes > 0 {
      more := WakeByPoke(ops, stream, retry);
    } else {
      more := [];
      assert ops + more == ops;
      assert AllJoined(Run(ops), stream);
    }
  }

  lemma FromChecking(ops: seq<Op>, stream: nat, retry: bool) returns (more: seq<Op>)
    requires Busy(Run(ops), Checking(stream, retry))
    ensures Friendly(more) && Done(Run(ops), Run(ops + more))
  {
    StepBusy(ops, Work(0, Next), Checking(stream, retry), Sleeping(stream, retry));
    var rest := FromSleeping(ops + [Work(0, Next)], stream, retry);
    more := [Work(0, Next)] + rest;
    Then(ops, Work(0, Next), rest);
  }

  lemma {:induction false} FromJoining(ops: seq<Op>, stream: nat, todo: set<Key>, retry: bool) returns (more: seq<Op>)
    requires Busy(Run(ops), Joining(stream, todo, retry))
    ensures Friendly(more) && Done(Run(ops), Run(ops + more))
    decreases todo
  {
    if todo == {} {
      StepBusy(ops, Work(0, Next), Joining(stream, todo, retry), Checking(stream, retry));
      var rest := FromChecking(ops + [Work(0, Next)], stream, retry);
      more := [Work(0, Next)] + rest;
      Then(ops, Work(0, Next), rest);
    } else {
      var k :| k in todo;
      StepBusy(ops, Work(0, JoinDone(k)), Joining(stream, todo, retry), Joining(stream, todo - {k}, retry));
      var rest := FromJoining(ops + [Work(0, JoinDone(k))], stream, todo - {k}, retry);
      more := [Work(0, JoinDone(k))] + rest;
      Then(ops, Work(0, JoinDone(k)), rest);
    }
  }

  /**
    Progress. While a client that is not closed has an open peer, its goroutine can go
    on by itself, with no further open or removal, until every open peer is on one
    stream, as long as the server agrees.
   */
  lemma OpenPeersJoin(ops: seq<Op>) returns (more: seq<Op>)
    requires !Run(ops).closed && Run(ops).conns != map[]
    ensures Friendly(more) && Done(Run(ops), Run(ops + more))
  {
    RunKeepsInv(ops);
    var pos := Run(ops).workers[0];
    assert Busy(Run(ops), pos);
    match pos
    case Top => more := FromTop(ops);
    case Dialing => more := FromDialing(ops);
    case Collecting(stream) => more := FromCollecting(ops, stream);
    case Joining(stream, todo, retry) => more := FromJoining(ops, stream, todo, retry);
    case Checking(stream, retry) => more := FromChecking(ops, stream, retry);
    case Sleeping(stream, retry) => more := FromSleeping(ops, stream, retry);
    case Leaving => more := FromLeaving(ops);
  }

  // -------------------------------------------------------------------- refusals

  /** The peers without the one the key names, if it is still open. */
  function Without(s: Sys, k: Key): map<string, Conn>
  {
    if k.id in s.conns && s.conns[k.id].serial == k.serial then s.conns - {k.id} else s.conns
  }

  /** A refused credential costs its own peer only; a permanent failure costs all; any other is tried again. */
  lemma DialingFails(ops: seq<Op>, k: Key)
    requires Run(ops).workers == [Dialing]
    ensures var s, t := Run(ops), Run(ops + [Work(0, Refused(k))]); t.workers == [Leaving] && t.conns == Without(s, k)
    ensures var s, t := Run(ops), Run(ops + [Work(0, Permanent)]); t.workers == [Leaving] && t.conns == map[]
    ensures var s, t := Run(ops), Run(ops + [Work(0, Transient)]); t.workers == [Leaving] && t.conns == s.conns
  {
    RunNext(ops, Work(0, Refused(k)));
    RunNext(ops, Work(0, Permanent));
    RunNext(ops, Work(0, Transient));
  }

  /** A peer that may not join is forgotten; one that cannot join now is kept, and the retry timer will be set. */
  lemma JoiningFails(ops: seq<Op>, stream: nat, todo: set<Key>, retry: bool, k: Key)
    requires Run(ops).workers == [Joining(stream, todo, retry)] && k in todo
    ensures var s, t := Run(ops), Run(ops + [Work(0, JoinRefused(k))]);
      t.workers == [Joining(stream, todo - {k}, retry)] && t.conns == Without(s, k)
    ensures var s, t := Run(ops), Run(ops + [Work(0, JoinLater(k))]);
      t.workers == [Joining(stream, todo - {k}, true)] && t.conns == s.conns
    ensures var s, t := Run(ops), Run(ops + [Work(0, StreamGone)]); t.workers == [Leaving] && t.conns == s.conns
  {
    RunNext(ops, Work(0, JoinRefused(k)));
    RunNext(ops, Work(0, JoinLater(k)));
    RunNext(ops, Work(0, StreamGone));
  }

  /** The goroutine ends exactly when it is not needed any more, or when the client has been closed. */
  lemma StopsExactly(ops: seq<Op>)
    requires Run(ops).workers == [Top] || Run(ops).workers == [Leaving]
    ensures var s, t := Run(ops), Run(ops + [Work(0, Next)]);
      if s.workers == [Top]
      then t.workers == if s.closed || s.conns == map[] then [] else [Dialing]
      else t.workers == if s.cancelled then [] else [Top]
  {
    RunNext(ops, Work(0, Next));
  }

  /** Opening a peer registers it, unjoined, with a goroutine and a kick on the way; a duplicate changes nothing. */
  lemma OpenExactly(ops: seq<Op>, id: string)
    ensures var s, t := Run(ops), Run(ops + [Open(id)]);
      if s.closed || id in s.conns then t == s
      else
        && t.conns == s.conns[id := Conn(s.next, 0)] && t.pokes == s.pokes + 1 && t.running && |t.workers| == 1
        && s.workers <= t.workers
  {
    RunNext(ops, Open(id));
    RunKeepsInv(ops);
  }

  /** The close forgets every peer; the context is cancelled only after it. */
  lemma CloseExactly(ops: seq<Op>)
    ensures var s, t := Run(ops), Run(ops + [CloseSection]); t == s.(closed := true, conns := map[])
    ensures Run(ops + [Cancel]).cancelled == (Run(ops).cancelled || Run(ops).closed)
  {
    RunNext(ops, CloseSection);
    RunNext(ops, Cancel);
  }

  /** Removing a peer forgets that opening of it, kicks the goroutine, and leaves a later opening alone. */
  lemma RemoveExactly(ops: seq<Op>, k: Key)
    ensures var s, t := Run(ops), Run(ops + [Remove(k)]);
      t.conns == Without(s, k) && t.workers == s.workers && (t.conns != s.conns ==> t.kick)
  {
    RunNext(ops, Remove(k));
  }
}
