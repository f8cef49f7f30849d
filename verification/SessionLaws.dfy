/**
  What each event makes of a session, in every state a run can reach: how it
  connects, what it does about a lost connection, and how it ends.
 */
module SessionLaws {
  import opened Common
  import opened Recovery

  /** The session has ended and waits for nothing. */
  predicate Over(t: State) { t.phase.Closed? && t.timers == NO_TIMERS }

  /** Established: connected, or trying to be so again. */
  predicate Established(s: State) { s.phase.Connected? || s.phase.Recovering? }

  predicate Open(s: State) { !s.phase.Closed? }

  /** A restart offer went out: the budget shrank by one, and a deadline bounds the wait. */
  predicate Restarted(s: State, t: State)
  {
    && t.phase.Recovering? && t.timers.recovery
    && t.attempt == s.attempt + 1 && t.generation == s.generation + 1 && t.tally.restarts == s.tally.restarts + 1
  }

  /** The offerer has a restart left, and it can be made and sent. */
  predicate CanRestart(p: Policy, s: State, ok: bool)
  {
    p.enabled && p.offerer && s.attempt < p.maxAttempts && ok
  }

  // --------------------------------------------------------------- one event

  /** A close signal: an established stream is drained first, under the linger timer; anything else ends. */
  predicate PeerCloseLaw(s: State, t: State)
  {
    if s.phase.Connected? then t == s.(timers := s.timers.(linger := true)) else Over(t)
  }

  /** An answer that is awaited is applied, and ends the session if it is bad; any other is dropped. */
  predicate AnswerLaw(p: Policy, s: State, t: State, ok: bool)
  {
    if !p.offerer || (s.hasRemote && s.attempt == 0) then t == s
    else if !ok then Over(t)
    else
      && t.hasRemote && t.attempt == 0 && t.timers == s.timers && t.stream == s.stream
      && t.phase == (if s.phase.Signaling? then Connecting else s.phase)
      && t.tally.answers == s.tally.answers + 1 && t.tally.restarts == s.tally.restarts
  }

  /** A restart offer of a newer generation is answered, and ends the session if it is bad; any other is dropped. */
  predicate RestartOfferLaw(s: State, t: State, g: int, ok: bool)
  {
    if g <= s.generation then t == s
    else if !ok then Over(t)
    else
      && t.generation == g && t.hasRemote && t.tally.answered == s.tally.answered + [g]
      && t.phase == s.phase && t.timers == s.timers && t.attempt == s.attempt
  }

  /** The first usable channel connects the session and stops the negotiation timer. */
  predicate ChannelOpenLaw(p: Policy, s: State, t: State, ok: bool)
  {
    if s.stream then t == s
    else if !ok then Over(t)
    else t.phase.Connected? && t.stream && !t.timers.negotiate && (p.probing ==> t.timers.keepalive || t.pinging)
  }

  /** Connectivity that is back ends the outage and gives the whole budget back. */
  predicate UpLaw(p: Policy, s: State, t: State)
  {
    if !s.phase.Recovering? then t == s
    else
      && t.phase.Connected? && t.attempt == 0 && !t.timers.recovery && t.tally.restored == s.tally.restored + 1
      && (p.probing ==> t.timers.keepalive || t.pinging)
  }

  /** Lost connectivity starts a bounded recovery of a connected session, and of no other. */
  predicate DisconnectedLaw(s: State, t: State)
  {
    if s.phase.Connected? then t == s.(phase := Recovering, timers := s.timers.(recovery := true)) else t == s
  }

  /** A failed connection is restarted if it was established and there is budget; otherwise the session ends. */
  predicate FailedLaw(p: Policy, s: State, t: State, ok: bool)
  {
    if Established(s) && CanRestart(p, s, ok) then Restarted(s, t) else Over(t)
  }

  predicate RecoveryFiresLaw(p: Policy, s: State, t: State, ok: bool)
  {
    if !s.phase.Recovering? then t == s else if CanRestart(p, s, ok) then Restarted(s, t) else Over(t)
  }

  /** The negotiation deadline ends exactly a session that is not established. */
  predicate NegotiationFiresLaw(s: State, t: State) { if Established(s) then t == s else Over(t) }

  /** The keepalive timer of a connected session starts its one probe. */
  predicate KeepaliveFiresLaw(s: State, t: State)
  {
    if !s.timers.keepalive then t == s
    else
      && t.phase == s.phase && !t.timers.keepalive
      && (s.phase.Connected? ==> t.pinging && t.tally.probes == 1)
  }

  /** A pong keeps the session as it is and sets the timer again; without one a connected session is restarted. */
  predicate ProbeDoneLaw(p: Policy, s: State, t: State, pong: bool, ok: bool)
  {
    if s.tally.probes == 0 then t == s
    else if !pong && s.phase.Connected? then (if CanRestart(p, s, ok) then Restarted(s, t) && !t.pinging else Over(t))
    else
      && t.phase == s.phase && !t.pinging && t.tally.probes == 0 && t.attempt == s.attempt
      && (pong && s.phase.Connected? && p.probing ==> t.timers.keepalive)
  }

  predicate Law(p: Policy, s: State, e: Event, t: State)
  {
    if !Open(s) then t == s else
    match e
    case Answer(ok) => AnswerLaw(p, s, t, ok)
    case RestartOffer(g, ok) => RestartOfferLaw(s, t, g, ok)
    case ChannelOpen(ok) => ChannelOpenLaw(p, s, t, ok)
    case Up => UpLaw(p, s, t)
    case Disconnected => DisconnectedLaw(s, t)
    case Failed(ok) => FailedLaw(p, s, t, ok)
    case PeerClose => PeerCloseLaw(s, t)
    case NegotiationFires => NegotiationFiresLaw(s, t)
    case RecoveryFires(ok) => RecoveryFiresLaw(p, s, t, ok)
    case KeepaliveFires => KeepaliveFiresLaw(s, t)
    case LingerFires => if s.timers.linger then Over(t) else t == s
    case ProbeDone(pong, ok) => ProbeDoneLaw(p, s, t, pong, ok)
    case Quit => Over(t)
  }

  lemma StepLawful(p: Policy, s: State, e: Event)
    requires NeverStuck(s) && Probing(p, s) && Outstanding(p, s)
    ensures Law(p, s, e, Step(p, s, e))
  {
    if Open(s) {
      match e
      case ProbeDone(pong, ok) => ProbeDoneLawful(p, s, pong, ok);
      case Failed(ok) => FailedLawful(p, s, ok);
      case RecoveryFires(ok) => RecoveryFiresLawful(p, s, ok);
      case Up => UpLawful(p, s);
      case ChannelOpen(ok) => ChannelOpenLawful(p, s, ok);
      case Answer(ok) => AnswerLawful(p, s, ok);
      case RestartOffer(g, ok) => RestartOfferLawful(p, s, g, ok);
      case NegotiationFires => NegotiationFiresLawful(p, s);
      case KeepaliveFires => KeepaliveFiresLawful(p, s);
      case Disconnected => DisconnectedLawful(p, s);
      case PeerClose => PeerCloseLawful(p, s);
      case LingerFires => EndsLawful(p, s);
      case Quit => EndsLawful(p, s);
    }
  }

  lemma EndsLawful(p: Policy, s: State)
    requires Open(s)
    ensures Law(p, s, LingerFires, Step(p, s, LingerFires)) && Law(p, s, Quit, Step(p, s, Quit))
  {
  }

  lemma AnswerLawful(p: Policy, s: State, ok: bool)
    requires Open(s)
    ensures Law(p, s, Answer(ok), Step(p, s, Answer(ok)))
  {
  }

  lemma RestartOfferLawful(p: Policy, s: State, g: int, ok: bool)
    requires Open(s)
    ensures Law(p, s, RestartOffer(g, ok), Step(p, s, RestartOffer(g, ok)))
  {
  }

  lemma DisconnectedLawful(p: Policy, s: State)
    requires Open(s)
    ensures Law(p, s, Disconnected, Step(p, s, Disconnected))
  {
  }

  lemma PeerCloseLawful(p: Policy, s: State)
    requires Outstanding(p, s) && Open(s)
    ensures Law(p, s, PeerClose, Step(p, s, PeerClose))
  {
  }

  lemma NegotiationFiresLawful(p: Policy, s: State)
    requires NeverStuck(s) && Open(s)
    ensures Law(p, s, NegotiationFires, Step(p, s, NegotiationFires))
  {
  }

  lemma KeepaliveFiresLawful(p: Policy, s: State)
    requires Probing(p, s) && Outstanding(p, s) && Open(s)
    ensures Law(p, s, KeepaliveFires, Step(p, s, KeepaliveFires))
  {
  }

  lemma UpLawful(p: Policy, s: State)
    requires NeverStuck(s) && Probing(p, s) && Outstanding(p, s) && Open(s)
    ensures Law(p, s, Up, Step(p, s, Up))
  {
  }

  lemma ChannelOpenLawful(p: Policy, s: State, ok: bool)
    requires Open(s)
    ensures Law(p, s, ChannelOpen(ok), Step(p, s, ChannelOpen(ok)))
  {
  }

  lemma FailedLawful(p: Policy, s: State, ok: bool)
    requires NeverStuck(s) && Open(s)
    ensures Law(p, s, Failed(ok), Step(p, s, Failed(ok)))
  {
  }

  lemma RecoveryFiresLawful(p: Policy, s: State, ok: bool)
    requires NeverStuck(s) && Open(s)
    ensures Law(p, s, RecoveryFires(ok), Step(p, s, RecoveryFires(ok)))
  {
  }

  lemma ProbeDoneLawful(p: Policy, s: State, pong: bool, ok: bool)
    requires NeverStuck(s) && Probing(p, s) && Outstanding(p, s) && Open(s)
    ensures Law(p, s, ProbeDone(pong, ok), Step(p, s, ProbeDone(pong, ok)))
  {
  }

  /** In every run, every event does to the session what its law says. */
  lemma EveryEvent(p: Policy, es: seq<Event>, e: Event)
    ensures Law(p, Run(p, es), e, Run(p, es + [e]))
  {
    RunKeepsInv(p, es);
    StepLawful(p, Run(p, es), e);
    RunSnoc(p, es, e);
  }

  // ------------------------------------------------------------- whole stories

  lemma FirstAnswer(p: Policy)
    requires p.offerer
    ensures Run(p, [Answer(true)]).phase.Connecting? && !Run(p, [Answer(true)]).stream
  {
    RunSnoc(p, [], Answer(true));
    assert [] + [Answer(true)] == [Answer(true)];
  }

  lemma ChannelConnects(p: Policy, es: seq<Event>)
    requires Open(Run(p, es)) && !Run(p, es).stream
    ensures Run(p, es + [ChannelOpen(true)]).phase.Connected?
  {
    RunSnoc(p, es, ChannelOpen(true));
  }

  /** A session connects: the offerer once it has the answer and the channel, */
  lemma OffererConnects(p: Policy)
    requires p.offerer
    ensures Run(p, [Answer(true)] + [ChannelOpen(true)]).phase.Connected?
  {
    FirstAnswer(p);
    ChannelConnects(p, [Answer(true)]);
  }

  /** the answerer once it has the channel. */
  lemma AnswererConnects(p: Policy)
    requires !p.offerer
    ensures Run(p, [] + [ChannelOpen(true)]).phase.Connected?
  {
    RunSnoc(p, [], ChannelOpen(true));
  }

  /**
    The peer closes a connected session: the stream is left to drain, whatever
    happens, until the session ends for some other reason or the linger timer ends it.
   */
  lemma Lingers(p: Policy, es: seq<Event>, more: seq<Event>)
    requires Run(p, es).phase.Connected?
    ensures Run(p, es + [PeerClose]).phase.Connected?
    ensures var t := Run(p, es + [PeerClose] + more); Open(t) ==> t.timers.linger
    ensures Over(Run(p, es + [PeerClose] + more + [LingerFires]))
  {
    EveryEvent(p, es, PeerClose);
    LingerStays(p, es + [PeerClose], more);
    ClosedIsOver(p, es + [PeerClose] + more);
    EveryEvent(p, es + [PeerClose] + more, LingerFires);
  }

  /** The session has ended, or still lingers. */
  predicate Lingering(t: State) { Open(t) ==> t.timers.linger }

  lemma RestartLingers(p: Policy, s: State, ok: bool)
    requires s.timers.linger
    ensures Lingering(Restart(p, Lose(s), ok)) && Lingering(Restart(p, s, ok)) && Lingering(ArmKeepalive(p, s))
  {
  }

  lemma StepLingers(p: Policy, s: State, e: Event)
    requires s.timers.linger
    ensures Lingering(Step(p, s, e))
  {
    match e
    case Failed(ok) => RestartLingers(p, s, ok);
    case RecoveryFires(ok) => RestartLingers(p, s.(timers := s.timers.(recovery := false)), ok);
    case ProbeDone(pong, ok) => if s.tally.probes > 0 { ProbeLingers(p, s, pong, ok); }
    case Up => RestoreLingers(p, s);
    case ChannelOpen(ok) => OpenLingers(p, s, ok);
    case _ => OthersLinger(p, s, e);
  }

  lemma RestoreLingers(p: Policy, s: State)
    requires s.timers.linger
    ensures Lingering(Restore(p, s))
  {
  }

  lemma OpenLingers(p: Policy, s: State, ok: bool)
    requires s.timers.linger
    ensures Lingering(OpenChannel(p, s, ok))
  {
  }

  lemma OthersLinger(p: Policy, s: State, e: Event)
    requires s.timers.linger && !e.Failed? && !e.RecoveryFires? && !e.ProbeDone? && !e.Up? && !e.ChannelOpen?
    ensures Lingering(Step(p, s, e))
  {
  }

  lemma ProbeLingers(p: Policy, s: State, pong: bool, ok: bool)
    requires s.timers.linger && s.tally.probes > 0
    ensures Lingering(Probed(p, s, pong, ok))
  {
    RestartLingers(p, Reported(s), ok);
  }

  lemma {:induction false} LingerStays(p: Policy, es: seq<Event>, more: seq<Event>)
    requires Run(p, es).timers.linger
    ensures Open(Run(p, es + more)) ==> Run(p, es + more).timers.linger
  {
    if more == [] {
      assert es + more == es;
    } else {
      var before := es + DropLast(more);
      LingerStays(p, es, DropLast(more));
      assert es + more == before + [Last(more)];
      RunSnoc(p, before, Last(more));
      if Open(Run(p, before)) { StepLingers(p, Run(p, before), Last(more)); }
    }
  }

  lemma StepOver(p: Policy, s: State, e: Event)
    requires !Open(s) ==> Over(s)
    ensures !Open(Step(p, s, e)) ==> Over(Step(p, s, e))
  {
  }

  /** A session that has ended has no timer set. */
  lemma {:induction false} ClosedIsOver(p: Policy, es: seq<Event>)
    ensures !Open(Run(p, es)) ==> Over(Run(p, es))
  {
    if es != [] {
      ClosedIsOver(p, DropLast(es));
      StepOver(p, Run(p, DropLast(es)), Last(es));
    }
  }

  /** And nothing wakes it again. */
  lemma {:induction false} ClosedStays(p: Policy, es: seq<Event>, more: seq<Event>)
    requires !Open(Run(p, es))
    ensures Run(p, es + more) == Run(p, es)
  {
    if more == [] {
      assert es + more == es;
    } else {
      ClosedStays(p, es, DropLast(more));
      assert es + more == es + DropLast(more) + [Last(more)];
      RunSnoc(p, es + DropLast(more), Last(more));
    }
  }
}
