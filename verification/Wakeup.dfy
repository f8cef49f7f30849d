/**
  Wakeups of a delivery loop. A producer appends under the peer mutex, remembers
  which stream was attached, and pokes that stream's wake channel only after
  unlocking; by then the stream may have been replaced. A wake channel has room
  for one token and may be shared by many peers (a multiplexed stream).
  A join lists the peer before it attaches, and a leave unlists it before it
  detaches; requests of one peer on one stream are serialized. Whatever the
  interleaving, no entry waits on a loop that nobody will wake.
 */
module Wakeup {
  import opened Common
  import opened PeerLog

  /** An attachment and the stream whose wake channel it shares. */
  datatype Att = Att(serial: nat, chan: nat)

  /** Where the delivery loop of a stream is. */
  datatype Phase =
    | Waiting                          // in its select
    | Woken                            // woken, the member list not read yet
    | Scanning(todo: map<nat, Att>)    // peers it has still to take from in this pass
    | Done                             // the handler has returned

  /** A join that has listed its attachment but not attached it, or a leave that has only unlisted its own. */
  datatype Request = Joining(att: Att) | Leaving(att: Att)

  /**
    token     the wake channel holds its one token
    pokes     producers between unlocking the peer and poking this channel
    members   the peers the stream lists, by peer
    requests  the requests in between, by peer
   */
  datatype Chan = Chan(token: bool, pokes: nat, phase: Phase, members: map<nat, Att>, requests: map<nat, Request>)

  datatype Sys = Sys(peers: map<nat, PeerState<Att>>, chans: map<nat, Chan>)

  datatype Op =
    | NewPeerRecord(p: nat)
    | NewStream(ch: nat)
    | Send(p: nat, data: string)               // append under the mutex
    | Poke(ch: nat)                            // a producer reaches its poke
    | Record(p: nat, att: Att)                 // a join lists the peer, before attaching
    | Join(p: nat, att: Att, lastID: nat)      // it attaches under the mutex, ending any other
    | Forget(ch: nat, p: nat)                  // a leave unlists the peer
    | Leave(p: nat, att: Att)                  // it, or a handler that returns, detaches
    | Wake(ch: nat)                            // the loop consumes the token
    | Tick(ch: nat)                            // the keepalive ticker fires
    | Snapshot(ch: nat)
    | TakeOne(ch: nat, p: nat)
    | EndScan(ch: nat)
    | Stop(ch: nat)
    | ExpireNow(p: nat)
    | ShutdownNow(p: nat)

  function WithChan(s: Sys, ch: nat, c: Chan): Sys { s.(chans := s.chans[ch := c]) }

  function WithPeer(s: Sys, p: nat, q: PeerState<Att>): Sys { s.(peers := s.peers[p := q]) }

  function AddPoke(s: Sys, ch: nat): Sys
  {
    if ch in s.chans then WithChan(s, ch, s.chans[ch].(pokes := s.chans[ch].pokes + 1)) else s
  }

  /** The callback of a replaced attachment: its stream stops listing the peer and is woken. */
  function EndOf(s: Sys, p: nat, prev: Option<Att>): Sys
  {
    if prev.Some? && prev.value.chan in s.chans then
      var c := s.chans[prev.value.chan];
      if p in c.members && c.members[p] == prev.value
        then WithChan(s, prev.value.chan, c.(members := c.members - {p}, token := true)) else s
    else s
  }

  /** The request is the one in between for its peer on its stream. */
  predicate Asks(s: Sys, p: nat, q: Request)
  {
    q.att.chan in s.chans && p in s.chans[q.att.chan].requests && s.chans[q.att.chan].requests[p] == q
  }

  function Answered(s: Sys, p: nat, ch: nat): Sys
    requires ch in s.chans
  {
    WithChan(s, ch, s.chans[ch].(requests := s.chans[ch].requests - {p}))
  }

  /** The second section of a join: end the stream there is, attach, and be about to poke. */
  function Attached(s: Sys, p: nat, att: Att, lastID: nat): Sys
    requires p in s.peers && att.chan in s.chans
  {
    var t := WithPeer(EndOf(s, p, s.peers[p].stream), p, Attach(s.peers[p], att, lastID));
    AddPoke(Answered(t, p, att.chan), att.chan)
  }

  function Do(cfg: Config, s: Sys, op: Op): Sys
  {
    match op
    case NewPeerRecord(p) => if p in s.peers && !s.peers[p].down then s else WithPeer(s, p, NewPeer())
    case NewStream(ch) => if ch in s.chans then s else WithChan(s, ch, Chan(false, 0, Woken, map[], map[]))
    case Send(p, data) =>
      if p !in s.peers || !CanEnqueue(cfg, s.peers[p]) then s
      else
        var t := WithPeer(s, p, Enqueue(cfg, s.peers[p], data));
        if s.peers[p].stream.Some? then AddPoke(t, s.peers[p].stream.value.chan) else t
    case Poke(ch) =>
      if ch in s.chans && s.chans[ch].pokes > 0
        then WithChan(s, ch, s.chans[ch].(token := true, pokes := s.chans[ch].pokes - 1)) else s
    case Record(p, att) =>
      if att.chan !in s.chans || p in s.chans[att.chan].requests then s
      else if p in s.peers && s.peers[p].stream == Some(att) then s
      else
        var c := s.chans[att.chan];
        WithChan(s, att.chan, c.(members := c.members[p := att], requests := c.requests[p := Joining(att)]))
    case Join(p, att, lastID) => if p in s.peers && Asks(s, p, Joining(att)) then Attached(s, p, att, lastID) else s
    case Forget(ch, p) =>
      if ch !in s.chans || p !in s.chans[ch].members || p in s.chans[ch].requests then s
      else
        var c := s.chans[ch];
        WithChan(s, ch, c.(members := c.members - {p}, requests := c.requests[p := Leaving(c.members[p])]))
    case Leave(p, att) =>
      var t := if p in s.peers then WithPeer(s, p, Detach(s.peers[p], att)) else s;
      if Asks(s, p, Leaving(att)) then Answered(t, p, att.chan) else t
    case Wake(ch) =>
      if ch in s.chans && s.chans[ch].phase == Waiting && s.chans[ch].token
        then WithChan(s, ch, s.chans[ch].(token := false, phase := Woken)) else s
    case Tick(ch) =>
      if ch in s.chans && s.chans[ch].phase == Waiting then WithChan(s, ch, s.chans[ch].(phase := Woken)) else s
    case Snapshot(ch) =>
      if ch in s.chans && s.chans[ch].phase == Woken
        then WithChan(s, ch, s.chans[ch].(phase := Scanning(s.chans[ch].members))) else s
    case TakeOne(ch, p) =>
      if ch in s.chans && s.chans[ch].phase.Scanning? && p in s.chans[ch].phase.todo then
        var todo := s.chans[ch].phase.todo;
        var t := if p in s.peers then WithPeer(s, p, TakeUnsent(cfg, s.peers[p], todo[p])) else s;
        WithChan(t, ch, s.chans[ch].(phase := Scanning(todo - {p})))
      else s
    case EndScan(ch) =>
      if ch in s.chans && s.chans[ch].phase.Scanning? && s.chans[ch].phase.todo == map[]
        then WithChan(s, ch, s.chans[ch].(phase := Waiting)) else s
    case Stop(ch) => if ch in s.chans then WithChan(s, ch, s.chans[ch].(phase := Done)) else s
    case ExpireNow(p) => if p in s.peers then WithPeer(s, p, Expire(s.peers[p])) else s
    case ShutdownNow(p) =>
      if p in s.peers then WithPeer(EndOf(s, p, s.peers[p].stream), p, Shutdown(s.peers[p])) else s
  }

  function Run(cfg: Config, ops: seq<Op>): Sys
  {
    if ops == [] then Sys(map[], map[]) else Do(cfg, Run(cfg, DropLast(ops)), Last(ops))
  }

  /** Att is the stream of peer p, on a channel whose handler has not returned. */
  predicate On(s: Sys, p: nat, att: Att)
  {
    p in s.peers && s.peers[p].stream == Some(att) && att.chan in s.chans && !s.chans[att.chan].phase.Done?
  }

  predicate HasUnsent(s: Sys, p: nat)
    requires p in s.peers
  {
    !s.peers[p].down && s.peers[p].sent < s.peers[p].last
  }

  predicate Lists(c: Chan, p: nat, att: Att) { p in c.members && c.members[p] == att }

  /**
    Somebody is about to wake the loop, or it is already on its way to this peer, or
    a join of the peer has still to attach, which pokes, or a leave to detach it.
   */
  predicate Covered(c: Chan, p: nat, att: Att)
  {
    || c.token || c.pokes > 0 || c.phase.Woken?
    || (c.phase.Scanning? && p in c.phase.todo && c.phase.todo[p] == att)
    || p in c.requests
  }

  ghost predicate NoLostWakeup(s: Sys)
  {
    forall p, att | On(s, p, att) && HasUnsent(s, p) :: Covered(s.chans[att.chan], p, att)
  }

  /** The stream of a peer is listed by its channel, unless a request of the peer is in between. */
  ghost predicate Placed(s: Sys)
  {
    forall p, att | On(s, p, att) :: Lists(s.chans[att.chan], p, att) || p in s.chans[att.chan].requests
  }

  predicate AttachedTo(s: Sys, p: nat, ch: nat)
  {
    p in s.peers && s.peers[p].stream.Some? && s.peers[p].stream.value.chan == ch
  }

  /**
    A join in between has listed an attachment that is not yet the stream; a leave
    has unlisted the only one that can be.
   */
  predicate Between(s: Sys, ch: nat, p: nat)
    requires ch in s.chans && p in s.chans[ch].requests
  {
    var c := s.chans[ch];
    c.requests[p].att.chan == ch &&
    match c.requests[p]
    case Joining(a) => Lists(c, p, a) && !(p in s.peers && s.peers[p].stream == Some(a))
    case Leaving(a) =>
      p !in c.members && (AttachedTo(s, p, ch) && !c.phase.Done? ==> s.peers[p].stream == Some(a))
  }

  /** Streams are on channels there are, and a channel lists its own. */
  predicate Homes(s: Sys)
  {
    && (forall p <- s.peers :: s.peers[p].stream.Some? ==> s.peers[p].stream.value.chan in s.chans)
    && (forall ch <- s.chans :: forall p <- s.chans[ch].members :: s.chans[ch].members[p].chan == ch)
  }

  predicate Requests(s: Sys)
  {
    forall ch <- s.chans :: forall p <- s.chans[ch].requests :: Between(s, ch, p)
  }

  predicate Sound(cfg: Config, s: Sys)
  {
    forall p <- s.peers :: Inv(cfg, s.peers[p])
  }

  ghost predicate Kept(cfg: Config, s: Sys)
  {
    Sound(cfg, s) && Homes(s) && Requests(s) && Placed(s) && NoLostWakeup(s)
  }

  lemma TakeKeepsSound(cfg: Config, s: Sys, ch: nat, p: nat)
    requires Sound(cfg, s)
    ensures Sound(cfg, Do(cfg, s, TakeOne(ch, p)))
  {
    if p in s.peers && Do(cfg, s, TakeOne(ch, p)).peers != s.peers {
      TakeKeepsInv(cfg, s.peers[p], s.chans[ch].phase.todo[p]);
    }
  }

  lemma JoinKeepsSound(cfg: Config, s: Sys, p: nat, att: Att, lastID: nat)
    requires Sound(cfg, s) && p in s.peers && Asks(s, p, Joining(att))
    ensures Sound(cfg, Attached(s, p, att, lastID))
  {
    AttachKeepsInv(cfg, s.peers[p], att, lastID);
  }

  lemma SendKeepsSound(cfg: Config, s: Sys, p: nat, data: string)
    requires Sound(cfg, s)
    ensures Sound(cfg, Do(cfg, s, Send(p, data)))
  {
    if p in s.peers { EnqueueKeepsInv(cfg, s.peers[p], data); }
  }

  lemma DropKeepsSound(cfg: Config, s: Sys, op: Op)
    requires Sound(cfg, s) && (op.Leave? || op.ExpireNow? || op.ShutdownNow?)
    ensures Sound(cfg, Do(cfg, s, op))
  {
  }

  lemma KeepsSound(cfg: Config, s: Sys, op: Op)
    requires Sound(cfg, s)
    ensures Sound(cfg, Do(cfg, s, op))
  {
    match op
    case Send(p, data) => SendKeepsSound(cfg, s, p, data);
    case TakeOne(ch, p) => TakeKeepsSound(cfg, s, ch, p);
    case Join(p, att, lastID) =>
      if p in s.peers && Asks(s, p, Joining(att)) { JoinKeepsSound(cfg, s, p, att, lastID); }
    case Leave(_, _) => DropKeepsSound(cfg, s, op);
    case ExpireNow(_) => DropKeepsSound(cfg, s, op);
    case ShutdownNow(_) => DropKeepsSound(cfg, s, op);
    case NewPeerRecord(_) =>
    case _ => assert Do(cfg, s, op).peers == s.peers;
  }

  lemma EndKeepsHomes(s: Sys, p: nat, prev: Option<Att>)
    requires Homes(s)
    ensures Homes(EndOf(s, p, prev)) && EndOf(s, p, prev).chans.Keys == s.chans.Keys
  {
  }

  lemma JoinKeepsHomes(s: Sys, p: nat, att: Att, lastID: nat)
    requires Homes(s) && p in s.peers && Asks(s, p, Joining(att))
    ensures Homes(Attached(s, p, att, lastID))
  {
    EndKeepsHomes(s, p, s.peers[p].stream);
  }

  lemma ShutdownKeepsHomes(cfg: Config, s: Sys, p: nat)
    requires Homes(s)
    ensures Homes(Do(cfg, s, ShutdownNow(p)))
  {
    if p in s.peers { EndKeepsHomes(s, p, s.peers[p].stream); }
  }

  lemma OthersKeepHomes(cfg: Config, s: Sys, op: Op)
    requires Homes(s) && !op.Join? && !op.ShutdownNow?
    ensures Homes(Do(cfg, s, op))
  {
  }

  lemma KeepsHomes(cfg: Config, s: Sys, op: Op)
    requires Homes(s)
    ensures Homes(Do(cfg, s, op))
  {
    match op
    case Join(p, att, lastID) =>
      if p in s.peers && Asks(s, p, Joining(att)) { JoinKeepsHomes(s, p, att, lastID); }
    case ShutdownNow(p) => ShutdownKeepsHomes(cfg, s, p);
    case _ => OthersKeepHomes(cfg, s, op);
  }

  /** What a request in between rests on: its channel's lists, and where the peer's stream is. */
  lemma BetweenStays(s: Sys, t: Sys, ch: nat, p: nat)
    requires ch in s.chans && p in s.chans[ch].requests && Between(s, ch, p)
    requires ch in t.chans && p in t.chans[ch].requests && t.chans[ch].requests[p] == s.chans[ch].requests[p]
    requires s.chans[ch].phase.Done? ==> t.chans[ch].phase.Done?
    requires p in t.chans[ch].members <==> p in s.chans[ch].members
    requires p in s.chans[ch].members ==> t.chans[ch].members[p] == s.chans[ch].members[p]
    requires p in t.peers && t.peers[p].stream.Some? ==> p in s.peers && t.peers[p].stream == s.peers[p].stream
    ensures Between(t, ch, p)
  {
  }

  /** Ending a stream unlists only that stream, which is not what a join has just listed. */
  lemma EndKeepsRequests(s: Sys, p: nat)
    requires Requests(s) && p in s.peers
    ensures var t := WithPeer(EndOf(s, p, s.peers[p].stream), p, s.peers[p].(stream := None)); Requests(t)
  {
    var t := WithPeer(EndOf(s, p, s.peers[p].stream), p, s.peers[p].(stream := None));
    forall ch <- t.chans, q <- t.chans[ch].requests ensures Between(t, ch, q) {
      assert Between(s, ch, q);
    }
  }

  lemma JoinKeepsRequests(s: Sys, p: nat, att: Att, lastID: nat)
    requires Requests(s) && p in s.peers && Asks(s, p, Joining(att))
    ensures Requests(Attached(s, p, att, lastID))
  {
    var t := Attached(s, p, att, lastID);
    forall ch <- t.chans, q <- t.chans[ch].requests ensures Between(t, ch, q) {
      assert Between(s, ch, q);
    }
  }

  lemma ShutdownKeepsRequests(cfg: Config, s: Sys, p: nat)
    requires Requests(s)
    ensures Requests(Do(cfg, s, ShutdownNow(p)))
  {
    if p in s.peers {
      EndKeepsRequests(s, p);
      var u, t := WithPeer(EndOf(s, p, s.peers[p].stream), p, s.peers[p].(stream := None)), Do(cfg, s, ShutdownNow(p));
      forall ch <- t.chans, q <- t.chans[ch].requests ensures Between(t, ch, q) {
        BetweenStays(u, t, ch, q);
      }
    }
  }

  lemma ListingKeepsRequests(cfg: Config, s: Sys, op: Op)
    requires Homes(s) && Requests(s) && Placed(s) && (op.Record? || op.Forget?)
    ensures Requests(Do(cfg, s, op))
  {
    var t := Do(cfg, s, op);
    forall ch <- t.chans, p <- t.chans[ch].requests ensures Between(t, ch, p) {
      if p in s.chans[ch].requests { BetweenStays(s, t, ch, p); }
    }
  }

  lemma OthersKeepRequests(cfg: Config, s: Sys, op: Op)
    requires Requests(s) && !op.Record? && !op.Forget? && !op.Join? && !op.ShutdownNow?
    ensures Requests(Do(cfg, s, op))
  {
    var t := Do(cfg, s, op);
    forall ch <- t.chans, p <- t.chans[ch].requests ensures Between(t, ch, p) {
      assert ch in s.chans && p in s.chans[ch].requests;
      BetweenStays(s, t, ch, p);
    }
  }

  lemma KeepsRequests(cfg: Config, s: Sys, op: Op)
    requires Homes(s) && Requests(s) && Placed(s)
    ensures Requests(Do(cfg, s, op))
  {
    match op
    case Record(_, _) => ListingKeepsRequests(cfg, s, op);
    case Forget(_, _) => ListingKeepsRequests(cfg, s, op);
    case Join(p, att, lastID) =>
      if p in s.peers && Asks(s, p, Joining(att)) { JoinKeepsRequests(s, p, att, lastID); }
    case ShutdownNow(p) => ShutdownKeepsRequests(cfg, s, p);
    case _ => OthersKeepRequests(cfg, s, op);
  }

  lemma JoinKeepsPlaced(s: Sys, p: nat, att: Att, lastID: nat)
    requires Homes(s) && Requests(s) && Placed(s) && p in s.peers && Asks(s, p, Joining(att))
    ensures Placed(Attached(s, p, att, lastID))
  {
    var t := Attached(s, p, att, lastID);
    assert Between(s, att.chan, p);
    forall q, a | On(t, q, a) ensures Lists(t.chans[a.chan], q, a) || q in t.chans[a.chan].requests {
      if q != p { assert On(s, q, a); }
    }
  }

  lemma LeaveKeepsPlaced(cfg: Config, s: Sys, p: nat, att: Att)
    requires Homes(s) && Requests(s) && Placed(s)
    ensures Placed(Do(cfg, s, Leave(p, att)))
  {
    var t := Do(cfg, s, Leave(p, att));
    forall q, a | On(t, q, a) ensures Lists(t.chans[a.chan], q, a) || q in t.chans[a.chan].requests {
      assert On(s, q, a);
      if q == p && Asks(s, p, Leaving(att)) { assert Between(s, att.chan, p); }
    }
  }

  lemma ShutdownKeepsPlaced(cfg: Config, s: Sys, p: nat)
    requires Placed(s)
    ensures Placed(Do(cfg, s, ShutdownNow(p)))
  {
    var t := Do(cfg, s, ShutdownNow(p));
    forall q, a | On(t, q, a) ensures Lists(t.chans[a.chan], q, a) || q in t.chans[a.chan].requests {
      assert q != p || p !in s.peers;
      assert On(s, q, a);
    }
  }

  lemma ListingKeepsPlaced(cfg: Config, s: Sys, op: Op)
    requires Placed(s) && (op.Record? || op.Forget?)
    ensures Placed(Do(cfg, s, op))
  {
    var t := Do(cfg, s, op);
    forall p, att | On(t, p, att) ensures Lists(t.chans[att.chan], p, att) || p in t.chans[att.chan].requests {
      assert On(s, p, att);
    }
  }

  predicate Places(op: Op) { op.Join? || op.Leave? || op.Record? || op.Forget? || op.ShutdownNow? }

  lemma OthersKeepPlaced(cfg: Config, s: Sys, op: Op)
    requires Homes(s) && Placed(s) && !Places(op)
    ensures Placed(Do(cfg, s, op))
  {
    var t := Do(cfg, s, op);
    forall p, att | On(t, p, att) ensures Lists(t.chans[att.chan], p, att) || p in t.chans[att.chan].requests {
      assert On(s, p, att);
    }
  }

  lemma KeepsPlaced(cfg: Config, s: Sys, op: Op)
    requires Homes(s) && Requests(s) && Placed(s)
    ensures Placed(Do(cfg, s, op))
  {
    match op
    case Record(_, _) => ListingKeepsPlaced(cfg, s, op);
    case Forget(_, _) => ListingKeepsPlaced(cfg, s, op);
    case Join(p, att, lastID) =>
      if p in s.peers && Asks(s, p, Joining(att)) { JoinKeepsPlaced(s, p, att, lastID); }
    case Leave(p, att) => LeaveKeepsPlaced(cfg, s, p, att);
    case ShutdownNow(p) => ShutdownKeepsPlaced(cfg, s, p);
    case _ => OthersKeepPlaced(cfg, s, op);
  }

  lemma TakeKeepsCovered(cfg: Config, s: Sys, ch: nat, p: nat)
    requires Sound(cfg, s) && NoLostWakeup(s)
    ensures NoLostWakeup(Do(cfg, s, TakeOne(ch, p)))
  {
    var t := Do(cfg, s, TakeOne(ch, p));
    if t != s {
      var b := s.chans[ch].phase.todo[p];
      if p in s.peers && s.peers[p].stream == Some(b) && !s.peers[p].down { TakeSpec(cfg, s.peers[p], b); }
      forall q, att | On(t, q, att) && HasUnsent(t, q) ensures Covered(t.chans[att.chan], q, att) {
        assert On(s, q, att) && HasUnsent(s, q);
      }
    }
  }

  lemma JoinKeepsCovered(s: Sys, p: nat, att: Att, lastID: nat)
    requires NoLostWakeup(s) && p in s.peers && Asks(s, p, Joining(att))
    ensures NoLostWakeup(Attached(s, p, att, lastID))
  {
    var t := Attached(s, p, att, lastID);
    forall q, a | On(t, q, a) && HasUnsent(t, q) ensures Covered(t.chans[a.chan], q, a) {
      if q != p { assert On(s, q, a) && HasUnsent(s, q); }
    }
  }

  lemma LeaveKeepsCovered(cfg: Config, s: Sys, p: nat, att: Att)
    requires Homes(s) && Requests(s) && NoLostWakeup(s)
    ensures NoLostWakeup(Do(cfg, s, Leave(p, att)))
  {
    var t := Do(cfg, s, Leave(p, att));
    forall q, a | On(t, q, a) && HasUnsent(t, q) ensures Covered(t.chans[a.chan], q, a) {
      assert On(s, q, a) && HasUnsent(s, q);
      if q == p && Asks(s, p, Leaving(att)) { assert Between(s, att.chan, p); }
    }
  }

  lemma SnapshotKeepsCovered(cfg: Config, s: Sys, ch: nat)
    requires Placed(s) && NoLostWakeup(s)
    ensures NoLostWakeup(Do(cfg, s, Snapshot(ch)))
  {
    var t := Do(cfg, s, Snapshot(ch));
    forall q, a | On(t, q, a) && HasUnsent(t, q) ensures Covered(t.chans[a.chan], q, a) {
      assert On(s, q, a) && HasUnsent(s, q);
    }
  }

  lemma SendKeepsCovered(cfg: Config, s: Sys, p: nat, data: string)
    requires Homes(s) && Requests(s) && NoLostWakeup(s)
    ensures NoLostWakeup(Do(cfg, s, Send(p, data)))
  {
    var t := Do(cfg, s, Send(p, data));
    forall q, a | On(t, q, a) && HasUnsent(t, q) ensures Covered(t.chans[a.chan], q, a) {
      if q != p { assert On(s, q, a) && HasUnsent(s, q); }
    }
  }

  predicate Special(op: Op) { op.TakeOne? || op.Join? || op.Leave? || op.Snapshot? || op.Send? }

  lemma OthersKeepCovered(cfg: Config, s: Sys, op: Op)
    requires Homes(s) && Requests(s) && NoLostWakeup(s) && !Special(op)
    ensures NoLostWakeup(Do(cfg, s, op))
  {
    var t := Do(cfg, s, op);
    forall p, att | On(t, p, att) && HasUnsent(t, p) ensures Covered(t.chans[att.chan], p, att) {
      assert On(s, p, att) && HasUnsent(s, p);
    }
  }

  lemma KeepsCovered(cfg: Config, s: Sys, op: Op)
    requires Kept(cfg, s)
    ensures NoLostWakeup(Do(cfg, s, op))
  {
    match op
    case TakeOne(ch, p) => TakeKeepsCovered(cfg, s, ch, p);
    case Join(p, att, lastID) =>
      if p in s.peers && Asks(s, p, Joining(att)) { JoinKeepsCovered(s, p, att, lastID); }
    case Leave(p, att) => LeaveKeepsCovered(cfg, s, p, att);
    case Snapshot(ch) => SnapshotKeepsCovered(cfg, s, ch);
    case Send(p, data) => SendKeepsCovered(cfg, s, p, data);
    case _ => OthersKeepCovered(cfg, s, op);
  }

  /**
    No lost wakeup. In every interleaving, a peer with unsent entries on a stream whose
    handler has not returned has a token, a poke on its way, a loop that is on its way
    to it, or a request of its own in between.
   */
  lemma {:induction false} RunKeepsCovered(cfg: Config, ops: seq<Op>)
    ensures Kept(cfg, Run(cfg, ops))
  {
    if ops != [] {
      var s, op := Run(cfg, DropLast(ops)), Last(ops);
      RunKeepsCovered(cfg, DropLast(ops));
      KeepsSound(cfg, s, op);
      KeepsHomes(cfg, s, op);
      KeepsRequests(cfg, s, op);
      KeepsPlaced(cfg, s, op);
      KeepsCovered(cfg, s, op);
    }
  }

  /** A loop asleep with no token and no poke under way has handed out everything of every peer at rest. */
  lemma SleepersAreIdle(cfg: Config, ops: seq<Op>, p: nat, att: Att)
    requires var s := Run(cfg, ops);
      && On(s, p, att) && p !in s.chans[att.chan].requests
      && s.chans[att.chan].phase == Waiting && !s.chans[att.chan].token && s.chans[att.chan].pokes == 0
    ensures !HasUnsent(Run(cfg, ops), p)
  {
    RunKeepsCovered(cfg, ops);
  }
}
