/**
  What the wakeups are for: from every state a run can reach, the delivery loop of a
  peer's stream can go on by itself until everything queued for the peer is taken.
 */
module Deliveries {
  import opened Common
  import opened PeerLog
  import opened Wakeup

  /** The peer is attached, and no request of it is in between. */
  predicate Resting(s: Sys, p: nat, att: Att)
  {
    On(s, p, att) && p !in s.chans[att.chan].requests
  }

  /** A step of the loop behind a wake channel, or of a producer that pokes it. */
  predicate LoopOp(op: Op, ch: nat)
  {
    || op == Poke(ch) || op == Wake(ch) || op == Snapshot(ch) || op == EndScan(ch)
    || (op.TakeOne? && op.ch == ch)
  }

  predicate LoopOps(ops: seq<Op>, ch: nat) { forall op <- ops :: LoopOp(op, ch) }

  /** In t everything queued for the peer has been taken, and it is still attached. */
  predicate Taken(t: Sys, p: nat, att: Att) { Resting(t, p, att) && !HasUnsent(t, p) }

  lemma RunNext(cfg: Config, ops: seq<Op>, op: Op)
    ensures Run(cfg, ops + [op]) == Do(cfg, Run(cfg, ops), op)
  {
    assert DropLast(ops + [op]) == ops;
  }

  lemma Then(ops: seq<Op>, op: Op, rest: seq<Op>)
    ensures ops + [op] + rest == ops + ([op] + rest)
  {
  }

  lemma LoopKeepsResting(cfg: Config, s: Sys, op: Op, p: nat, att: Att)
    requires Resting(s, p, att) && LoopOp(op, att.chan)
    ensures Resting(Do(cfg, s, op), p, att)
  {
  }

  /** The loop has come to the peer, and takes. */
  lemma TakesAll(cfg: Config, s: Sys, p: nat, att: Att)
    requires Resting(s, p, att) && Inv(cfg, s.peers[p])
    requires var c := s.chans[att.chan]; c.phase.Scanning? && p in c.phase.todo && c.phase.todo[p] == att
    ensures Taken(Do(cfg, s, TakeOne(att.chan, p)), p, att)
  {
    if !s.peers[p].down { TakeSpec(cfg, s.peers[p], att); }
  }

  lemma FromScan(cfg: Config, ops: seq<Op>, p: nat, att: Att) returns (more: seq<Op>)
    requires Resting(Run(cfg, ops), p, att)
    requires var c := Run(cfg, ops).chans[att.chan]; c.phase.Scanning? && p in c.phase.todo && c.phase.todo[p] == att
    ensures LoopOps(more, att.chan) && Taken(Run(cfg, ops + more), p, att)
  {
    more := [TakeOne(att.chan, p)];
    RunKeepsCovered(cfg, ops);
    TakesAll(cfg, Run(cfg, ops), p, att);
    RunNext(cfg, ops, TakeOne(att.chan, p));
  }

  /** One step of the loop, and where it then is. */
  lemma OneStep(cfg: Config, ops: seq<Op>, op: Op, p: nat, att: Att)
    requires Resting(Run(cfg, ops), p, att) && LoopOp(op, att.chan)
    ensures Resting(Run(cfg, ops + [op]), p, att)
    ensures Run(cfg, ops + [op]).chans[att.chan] == Do(cfg, Run(cfg, ops), op).chans[att.chan]
  {
    LoopKeepsResting(cfg, Run(cfg, ops), op, p, att);
    RunNext(cfg, ops, op);
  }

  lemma FromWoken(cfg: Config, ops: seq<Op>, p: nat, att: Att) returns (more: seq<Op>)
    requires Resting(Run(cfg, ops), p, att) && Run(cfg, ops).chans[att.chan].phase.Woken?
    ensures LoopOps(more, att.chan) && Taken(Run(cfg, ops + more), p, att)
  {
    assert Lists(Run(cfg, ops).chans[att.chan], p, att) by { RunKeepsCovered(cfg, ops); }
    OneStep(cfg, ops, Snapshot(att.chan), p, att);
    var rest := FromScan(cfg, ops + [Snapshot(att.chan)], p, att);
    more := [Snapshot(att.chan)] + rest;
    Then(ops, Snapshot(att.chan), rest);
  }

  lemma FromToken(cfg: Config, ops: seq<Op>, p: nat, att: Att) returns (more: seq<Op>)
    requires Resting(Run(cfg, ops), p, att)
    requires Run(cfg, ops).chans[att.chan].phase.Waiting? && Run(cfg, ops).chans[att.chan].token
    ensures LoopOps(more, att.chan) && Taken(Run(cfg, ops + more), p, att)
  {
    OneStep(cfg, ops, Wake(att.chan), p, att);
    var rest := FromWoken(cfg, ops + [Wake(att.chan)], p, att);
    more := [Wake(att.chan)] + rest;
    Then(ops, Wake(att.chan), rest);
  }

  /** The channel holds its token, or a producer is about to poke it. */
  predicate Due(c: Chan) { c.token || c.pokes > 0 }

  lemma FromWaiting(cfg: Config, ops: seq<Op>, p: nat, att: Att) returns (more: seq<Op>)
    requires Resting(Run(cfg, ops), p, att)
    requires Run(cfg, ops).chans[att.chan].phase.Waiting? && Due(Run(cfg, ops).chans[att.chan])
    ensures LoopOps(more, att.chan) && Taken(Run(cfg, ops + more), p, att)
  {
    if Run(cfg, ops).chans[att.chan].token {
      more := FromToken(cfg, ops, p, att);
    } else {
      OneStep(cfg, ops, Poke(att.chan), p, att);
      var rest := FromToken(cfg, ops + [Poke(att.chan)], p, att);
      more := [Poke(att.chan)] + rest;
      Then(ops, Poke(att.chan), rest);
    }
  }

  lemma ScanStep(cfg: Config, ops: seq<Op>, p: nat, att: Att, todo: map<nat, Att>, q: nat)
    requires Resting(Run(cfg, ops), p, att) && q in todo
    requires Run(cfg, ops).chans[att.chan].phase == Scanning(todo) && Due(Run(cfg, ops).chans[att.chan])
    ensures var t := Run(cfg, ops + [TakeOne(att.chan, q)]);
      Resting(t, p, att) && t.chans[att.chan].phase == Scanning(todo - {q}) && Due(t.chans[att.chan])
  {
    OneStep(cfg, ops, TakeOne(att.chan, q), p, att);
  }

  lemma ScanEnd(cfg: Config, ops: seq<Op>, p: nat, att: Att)
    requires Resting(Run(cfg, ops), p, att)
    requires Run(cfg, ops).chans[att.chan].phase == Scanning(map[]) && Due(Run(cfg, ops).chans[att.chan])
    ensures var t := Run(cfg, ops + [EndScan(att.chan)]);
      Resting(t, p, att) && t.chans[att.chan].phase.Waiting? && Due(t.chans[att.chan])
  {
    OneStep(cfg, ops, EndScan(att.chan), p, att);
  }

  lemma {:induction false} FromBusy(cfg: Config, ops: seq<Op>, p: nat, att: Att, todo: map<nat, Att>)
    returns (more: seq<Op>)
    requires Resting(Run(cfg, ops), p, att)
    requires Run(cfg, ops).chans[att.chan].phase == Scanning(todo) && Due(Run(cfg, ops).chans[att.chan])
    ensures LoopOps(more, att.chan) && Taken(Run(cfg, ops + more), p, att)
    decreases |todo|
  {
    if todo == map[] {
      ScanEnd(cfg, ops, p, att);
      var rest := FromWaiting(cfg, ops + [EndScan(att.chan)], p, att);
      more := [EndScan(att.chan)] + rest;
      Then(ops, EndScan(att.chan), rest);
    } else {
      var q :| q in todo;
      ScanStep(cfg, ops, p, att, todo, q);
      Smaller(todo, q);
      var rest := FromBusy(cfg, ops + [TakeOne(att.chan, q)], p, att, todo - {q});
      more := [TakeOne(att.chan, q)] + rest;
      Then(ops, TakeOne(att.chan, q), rest);
    }
  }

  lemma Smaller(todo: map<nat, Att>, q: nat)
    requires q in todo
    ensures |todo - {q}| < |todo|
  {
    assert (todo - {q}).Keys == todo.Keys - {q};
    assert |todo.Keys| == |todo| && |(todo - {q}).Keys| == |todo - {q}|;
  }

  /**
    Nothing is left lying. Whenever a peer is attached to a stream whose handler has
    not returned, and no join or leave of it is in between, the producers that have
    still to poke and the loop behind the stream are enough for everything queued for
    the peer to be taken: no further signal, tick or reconnect is needed.
   */
  lemma UnsentIsReached(cfg: Config, ops: seq<Op>, p: nat, att: Att) returns (more: seq<Op>)
    requires Resting(Run(cfg, ops), p, att)
    ensures LoopOps(more, att.chan) && Taken(Run(cfg, ops + more), p, att)
  {
    RunKeepsCovered(cfg, ops);
    var c := Run(cfg, ops).chans[att.chan];
    if !HasUnsent(Run(cfg, ops), p) {
      more := [];
      assert ops + more == ops;
    } else {
      assert Covered(c, p, att);
      match c.phase
      case Woken => more := FromWoken(cfg, ops, p, att);
      case Waiting => more := FromWaiting(cfg, ops, p, att);
      case Scanning(todo) =>
        if p in todo && todo[p] == att {
          more := FromScan(cfg, ops, p, att);
        } else {
          more := FromBusy(cfg, ops, p, att, todo);
        }
    }
  }

  // ------------------------------------------------------------------ requests

  /** A join lists its attachment before it attaches. */
  lemma JoinLists(cfg: Config, ops: seq<Op>, p: nat, att: Att)
    requires var s := Run(cfg, ops); att.chan in s.chans && p !in s.chans[att.chan].requests
    requires var s := Run(cfg, ops); p in s.peers ==> s.peers[p].stream != Some(att)
    ensures var s, t := Run(cfg, ops), Run(cfg, ops + [Record(p, att)]);
      t.peers == s.peers && Asks(t, p, Joining(att)) && Lists(t.chans[att.chan], p, att)
  {
    RunNext(cfg, ops, Record(p, att));
  }

  /** A leave unlists the peer and then detaches it, if it is still attached there. */
  lemma LeaveDetaches(cfg: Config, ops: seq<Op>, p: nat, att: Att)
    requires var s := Run(cfg, ops);
      On(s, p, att) && Lists(s.chans[att.chan], p, att) && p !in s.chans[att.chan].requests
    ensures var t := Run(cfg, ops + [Forget(att.chan, p)] + [Leave(p, att)]);
      && att.chan in t.chans && p in t.peers && p !in t.chans[att.chan].members && p !in t.chans[att.chan].requests
      && t.peers[p].stream.None? && (t.peers[p].reaper || t.peers[p].down)
  {
    RunKeepsCovered(cfg, ops);
    RunNext(cfg, ops, Forget(att.chan, p));
    RunNext(cfg, ops + [Forget(att.chan, p)], Leave(p, att));
  }

  /** The keepalive ticker wakes a waiting loop as the token does. */
  lemma TickWakes(cfg: Config, ops: seq<Op>, ch: nat)
    requires ch in Run(cfg, ops).chans && Run(cfg, ops).chans[ch].phase.Waiting?
    ensures Run(cfg, ops + [Tick(ch)]).chans[ch] == Run(cfg, ops).chans[ch].(phase := Woken)
  {
    RunNext(cfg, ops, Tick(ch));
  }

  /** A join that has listed its attachment attaches it, ending the one there was, and is about to poke. */
  lemma JoinAttaches(cfg: Config, ops: seq<Op>, p: nat, att: Att, lastID: nat)
    requires p in Run(cfg, ops).peers && Asks(Run(cfg, ops), p, Joining(att))
    ensures var s, t := Run(cfg, ops), Run(cfg, ops + [Join(p, att, lastID)]);
      && t.peers[p].stream == Some(att) && !t.peers[p].reaper && t.peers[p].log == s.peers[p].log
      && p !in t.chans[att.chan].requests && t.chans[att.chan].pokes == s.chans[att.chan].pokes + 1
      && Lists(t.chans[att.chan], p, att)
  {
    RunKeepsCovered(cfg, ops);
    assert Between(Run(cfg, ops), att.chan, p);
    RunNext(cfg, ops, Join(p, att, lastID));
  }

  /** A signal for an attached peer is queued, and its sender is about to poke the stream. */
  lemma SendPokes(cfg: Config, ops: seq<Op>, p: nat, data: string)
    requires p in Run(cfg, ops).peers && CanEnqueue(cfg, Run(cfg, ops).peers[p])
    ensures var s, t := Run(cfg, ops), Run(cfg, ops + [Send(p, data)]);
      && t.peers[p].last == s.peers[p].last + 1 && HasUnsent(t, p)
      && (s.peers[p].stream.Some? ==>
            var ch := s.peers[p].stream.value.chan;
            ch in s.chans && t.chans == s.chans[ch := s.chans[ch].(pokes := s.chans[ch].pokes + 1)])
  {
    RunKeepsCovered(cfg, ops);
    RunNext(cfg, ops, Send(p, data));
  }
}
