/**
  The event loop of a session, from the moment negotiation has started: the
  connection state, the ICE-restart budget, and the timers that keep the loop
  from waiting for ever. Times are events ("the timer fires"); what the WebRTC
  library and the signaling channel answer is a flag of the event.
 */
module Recovery {
  import opened Common

  datatype Phase = Signaling | Connecting | Connected | Recovering | Closed

  /** What the configuration and the session's role fix. */
  datatype Policy = Policy(offerer: bool, enabled: bool, maxAttempts: nat, probing: bool)

  /** Which timers are set. */
  datatype Timers = Timers(negotiate: bool, recovery: bool, keepalive: bool, linger: bool)

  /**
    What has happened so far.
    restarts  restart offers sent
    answers   answers applied
    refills   those of them that came while a restart was outstanding
    restored  outages that ended
    probes    probes under way
    answered  generations of the peer's restart offers that were answered
   */
  datatype Tally = Tally(restarts: nat, answers: nat, refills: nat, restored: nat, probes: nat, answered: seq<int>)

  datatype State = State(phase: Phase, hasRemote: bool, stream: bool, attempt: nat, generation: int,
                         pinging: bool, timers: Timers, tally: Tally)

  datatype Event =
    | Answer(ok: bool)                        // ok: well formed and accepted by the library
    | RestartOffer(generation: int, ok: bool) // ok: accepted, and the answer was sent
    | ChannelOpen(ok: bool)                   // ok: usable, and somebody takes the connection
    | Up
    | Disconnected
    | Failed(ok: bool)                        // ok: a restart offer can be made and sent
    | PeerClose                               // a close signal
    | NegotiationFires
    | RecoveryFires(ok: bool)
    | KeepaliveFires
    | LingerFires
    | ProbeDone(pong: bool, ok: bool)
    | Quit                                    // any other reason to end the session

  const NO_TIMERS := Timers(false, false, false, false)

  /** After the first signaling step: an offerer awaits the answer, an answerer has the offer. */
  function Begin(p: Policy): State
  {
    State(if p.offerer then Signaling else Connecting, !p.offerer, false, 0, 0, false,
          NO_TIMERS.(negotiate := true), Tally(0, 0, 0, 0, 0, []))
  }

  function Close(s: State): State { s.(phase := Closed, timers := NO_TIMERS) }

  function ArmKeepalive(p: Policy, s: State): State
  {
    if p.probing && s.stream && !s.pinging then s.(timers := s.timers.(keepalive := true)) else s
  }

  function Lose(s: State): State
  {
    if s.phase.Connected? then s.(phase := Recovering, timers := s.timers.(recovery := true)) else s
  }

  /** Send a restart offer within the budget, or give the session up. */
  function Restart(p: Policy, s: State, ok: bool): State
  {
    if !p.enabled || !p.offerer || s.attempt >= p.maxAttempts then Close(s)
    else
      var t := s.(attempt := s.attempt + 1, generation := s.generation + 1);
      if ok then t.(timers := t.timers.(recovery := true), tally := t.tally.(restarts := t.tally.restarts + 1))
      else Close(t)
  }

  function ApplyAnswer(p: Policy, s: State, ok: bool): State
  {
    if !p.offerer || (s.hasRemote && s.attempt == 0) then s
    else if !ok then Close(s)
    else s.(hasRemote := true, attempt := 0, phase := if s.phase.Signaling? then Connecting else s.phase,
            tally := s.tally.(answers := s.tally.answers + 1,
                              refills := s.tally.refills + if s.attempt > 0 then 1 else 0))
  }

  function ApplyRestart(s: State, generation: int, ok: bool): State
  {
    if generation <= s.generation then s
    else
      var t := s.(generation := generation);
      if ok then t.(hasRemote := true, tally := t.tally.(answered := t.tally.answered + [generation])) else Close(t)
  }

  function OpenChannel(p: Policy, s: State, ok: bool): State
  {
    if s.stream then s
    else if !ok then Close(s)
    else ArmKeepalive(p, s.(stream := true, phase := Connected, timers := s.timers.(negotiate := false)))
  }

  function Restore(p: Policy, s: State): State
  {
    var t := s.(timers := s.timers.(recovery := false));
    if !s.phase.Recovering? then t
    else ArmKeepalive(p, t.(phase := Connected, attempt := 0, tally := t.tally.(restored := t.tally.restored + 1)))
  }

  function Fail(p: Policy, s: State, ok: bool): State
  {
    if s.phase.Connected? || s.phase.Recovering? then Restart(p, Lose(s), ok) else Close(s)
  }

  function Probe(s: State): State
  {
    if !s.phase.Connected? || !s.stream || s.pinging then s
    else s.(pinging := true, tally := s.tally.(probes := s.tally.probes + 1))
  }

  function Probed(p: Policy, s: State, pong: bool, ok: bool): State
    requires s.tally.probes > 0
  {
    var t := s.(pinging := false, tally := s.tally.(probes := s.tally.probes - 1));
    if pong then ArmKeepalive(p, t)
    else if t.phase.Connected? then Restart(p, Lose(t), ok)
    else t
  }

  /** One turn of the loop; a timer that is not set does not fire, and a closed session takes no turn. */
  function Step(p: Policy, s: State, e: Event): State
  {
    if s.phase.Closed? then s else
    match e
    case Answer(ok) => ApplyAnswer(p, s, ok)
    case RestartOffer(g, ok) => ApplyRestart(s, g, ok)
    case ChannelOpen(ok) => OpenChannel(p, s, ok)
    case Up => Restore(p, s)
    case Disconnected => Lose(s)
    case Failed(ok) => Fail(p, s, ok)
    case PeerClose => if s.phase.Connected? && s.stream then s.(timers := s.timers.(linger := true)) else Close(s)
    case NegotiationFires =>
      if !s.timers.negotiate then s
      else if s.phase.Connected? || s.phase.Recovering? then s.(timers := s.timers.(negotiate := false))
      else Close(s)
    case RecoveryFires(ok) =>
      if !s.timers.recovery then s
      else
        var t := s.(timers := s.timers.(recovery := false));
        if s.phase.Recovering? then Restart(p, t, ok) else t
    case KeepaliveFires => if s.timers.keepalive then Probe(s.(timers := s.timers.(keepalive := false))) else s
    case LingerFires => if s.timers.linger then Close(s) else s
    case ProbeDone(pong, ok) => if s.tally.probes > 0 then Probed(p, s, pong, ok) else s
    case Quit => Close(s)
  }

  function Run(p: Policy, es: seq<Event>): State
  {
    if es == [] then Begin(p) else Step(p, Run(p, DropLast(es)), Last(es))
  }

  // ------------------------------------------------------------- invariants

  /** Whatever the session is waiting for, a timer bounds the wait. */
  predicate NeverStuck(s: State)
  {
    && ((s.phase.Signaling? || s.phase.Connecting?) <==> s.timers.negotiate)
    && (s.phase.Recovering? <==> s.timers.recovery)
  }

  /** A connected session is probing or about to, and has at most one probe under way. */
  predicate Probing(p: Policy, s: State)
  {
    && (s.phase.Connected? && p.probing ==> s.timers.keepalive || s.pinging)
    && s.tally.probes == (if s.pinging then 1 else 0)
  }

  /** A restart is outstanding only while recovering, and never beyond the budget. */
  predicate Outstanding(p: Policy, s: State)
  {
    && (s.phase.Connected? || s.phase.Recovering? ==> s.stream)
    && (s.attempt > 0 ==> s.phase.Recovering? || s.phase.Closed?)
    && s.attempt <= p.maxAttempts
    && (s.attempt > 0 ==> p.offerer && p.enabled)
  }

  predicate Counted(p: Policy, s: State)
  {
    && s.tally.restarts <= Times(p.maxAttempts, s.tally.refills + s.tally.restored) + s.attempt
    && (!p.offerer || !p.enabled ==> s.tally.restarts == 0)
  }

  predicate Answered(p: Policy, s: State)
  {
    && s.tally.answers + (if s.attempt > 0 && !s.phase.Closed? then 1 else 0)
       <= (if s.hasRemote then 1 else 0) + s.tally.restarts
    && s.tally.refills <= s.tally.answers
    && (!p.offerer ==> s.tally.answers == 0)
  }

  /** n times m, by addition. */
  function Times(m: nat, n: nat): nat { if n == 0 then 0 else Times(m, n - 1) + m }

  lemma {:induction false} TimesIsProduct(m: nat, n: nat)
    ensures Times(m, n) == m * n
  {
    if n > 0 { TimesIsProduct(m, n - 1); }
  }

  /** Restart offers of the peer are answered in increasing order of generation. */
  predicate Increasing(s: State)
  {
    0 <= s.generation && Ascending(s.tally.answered, s.generation)
  }

  predicate Ascending(gs: seq<int>, bound: int)
  {
    gs == [] || (0 < Last(gs) <= bound && Ascending(DropLast(gs), Last(gs) - 1))
  }

  predicate Steady(p: Policy, s: State)
  {
    NeverStuck(s) && Probing(p, s) && Outstanding(p, s) && Counted(p, s) && Answered(p, s)
  }

  predicate Inv(p: Policy, s: State) { Steady(p, s) && Increasing(s) }

  lemma {:induction false} RunKeepsInv(p: Policy, es: seq<Event>)
    ensures Inv(p, Run(p, es))
  {
    if es != [] {
      RunKeepsInv(p, DropLast(es));
      StepKeeps(p, Run(p, DropLast(es)), Last(es));
      StepIncreasing(p, Run(p, DropLast(es)), Last(es));
    }
  }

  lemma RunTimed(p: Policy, es: seq<Event>)
    ensures NeverStuck(Run(p, es)) && Outstanding(p, Run(p, es))
  {
    RunKeepsInv(p, es);
  }

  lemma RunSnoc(p: Policy, es: seq<Event>, e: Event)
    ensures Run(p, es + [e]) == Step(p, Run(p, es), e)
  {
    assert DropLast(es + [e]) == es;
  }

  lemma StepKeeps(p: Policy, s: State, e: Event)
    requires Steady(p, s)
    ensures Steady(p, Step(p, s, e))
  {
    if !s.phase.Closed? {
      match e
      case Answer(ok) => AnswerKeeps(p, s, ok);
      case RestartOffer(g, ok) => OfferKeeps(p, s, g, ok);
      case ChannelOpen(ok) => OpenKeeps(p, s, ok);
      case Up => RestoreKeeps(p, s);
      case Disconnected => LoseKeeps(p, s);
      case Failed(ok) => FailKeeps(p, s, ok);
      case PeerClose => PeerCloseKeeps(p, s);
      case NegotiationFires => NegotiationKeeps(p, s);
      case RecoveryFires(ok) => DeadlineKeeps(p, s, ok);
      case KeepaliveFires => if s.timers.keepalive { ProbeKeeps(p, s); }
      case LingerFires => CloseKeeps(p, s);
      case ProbeDone(pong, ok) => if s.tally.probes > 0 { ProbedKeeps(p, s, pong, ok); }
      case Quit => CloseKeeps(p, s);
    }
  }

  lemma CloseKeeps(p: Policy, s: State)
    requires Steady(p, s)
    ensures Steady(p, Close(s))
  {
  }

  lemma AnswerKeeps(p: Policy, s: State, ok: bool)
    requires Steady(p, s) && !s.phase.Closed?
    ensures Steady(p, ApplyAnswer(p, s, ok))
  {
  }

  lemma OfferKeeps(p: Policy, s: State, g: int, ok: bool)
    requires Steady(p, s)
    ensures Steady(p, ApplyRestart(s, g, ok))
  {
  }

  lemma OpenKeeps(p: Policy, s: State, ok: bool)
    requires Steady(p, s) && !s.phase.Closed?
    ensures Steady(p, OpenChannel(p, s, ok))
  {
  }

  lemma RestoreKeeps(p: Policy, s: State)
    requires Steady(p, s)
    ensures Steady(p, Restore(p, s))
  {
  }

  lemma LoseKeeps(p: Policy, s: State)
    requires Steady(p, s)
    ensures Steady(p, Lose(s))
  {
  }

  lemma RestartKeeps(p: Policy, s: State, ok: bool)
    requires Steady(p, s) && s.phase.Recovering?
    ensures Steady(p, Restart(p, s, ok))
  {
  }

  lemma FailKeeps(p: Policy, s: State, ok: bool)
    requires Steady(p, s)
    ensures Steady(p, Fail(p, s, ok))
  {
    if s.phase.Connected? || s.phase.Recovering? {
      LoseKeeps(p, s);
      RestartKeeps(p, Lose(s), ok);
    } else {
      CloseKeeps(p, s);
    }
  }

  lemma PeerCloseKeeps(p: Policy, s: State)
    requires Steady(p, s) && !s.phase.Closed?
    ensures Steady(p, Step(p, s, PeerClose))
  {
    CloseKeeps(p, s);
  }

  lemma NegotiationKeeps(p: Policy, s: State)
    requires Steady(p, s) && !s.phase.Closed?
    ensures Steady(p, Step(p, s, NegotiationFires))
  {
    CloseKeeps(p, s);
  }

  /** A restart sets the recovery timer anew, whether or not it has just fired. */
  lemma DeadlineKeeps(p: Policy, s: State, ok: bool)
    requires Steady(p, s) && !s.phase.Closed?
    ensures Steady(p, Step(p, s, RecoveryFires(ok)))
  {
    if s.timers.recovery {
      RestartKeeps(p, s, ok);
      assert Restart(p, s.(timers := s.timers.(recovery := false)), ok) == Restart(p, s, ok);
    }
  }

  lemma ProbeKeeps(p: Policy, s: State)
    requires Steady(p, s) && s.timers.keepalive
    ensures Steady(p, Probe(s.(timers := s.timers.(keepalive := false))))
  {
  }

  /** The state in which the result of a probe has just been taken note of. */
  function Reported(s: State): State
    requires s.tally.probes > 0
  {
    s.(pinging := false, tally := s.tally.(probes := s.tally.probes - 1))
  }

  lemma ReportedKeeps(p: Policy, s: State)
    requires Steady(p, s) && s.tally.probes > 0
    ensures Steady(p, ArmKeepalive(p, Reported(s))) && Steady(p, Lose(Reported(s)))
  {
  }

  lemma ProbedKeeps(p: Policy, s: State, pong: bool, ok: bool)
    requires Steady(p, s) && s.tally.probes > 0
    ensures Steady(p, Probed(p, s, pong, ok))
  {
    ReportedKeeps(p, s);
    if !pong && s.phase.Connected? { RestartKeeps(p, Lose(Reported(s)), ok); }
  }

  lemma StepIncreasing(p: Policy, s: State, e: Event)
    requires Increasing(s)
    ensures Increasing(Step(p, s, e))
  {
    match e
    case RestartOffer(g, ok) => OfferIncreasing(s, g, ok);
    case _ =>
      OwnGenerations(p, s, e);
      Raise(s.tally.answered, s.generation, Step(p, s, e).generation);
  }

  /** Only a restart offer of the peer is answered; other events raise the generation by at most one. */
  lemma OwnGenerations(p: Policy, s: State, e: Event)
    requires !e.RestartOffer?
    ensures var t := Step(p, s, e);
            t.tally.answered == s.tally.answered && s.generation <= t.generation <= s.generation + 1
  {
  }

  lemma OfferIncreasing(s: State, g: int, ok: bool)
    requires Increasing(s)
    ensures Increasing(ApplyRestart(s, g, ok))
  {
    assert DropLast(s.tally.answered + [g]) == s.tally.answered;
    if s.generation < g {
      Raise(s.tally.answered, s.generation, g - 1);
      Raise(s.tally.answered, s.generation, g);
    }
  }

  lemma Raise(gs: seq<int>, low: int, high: int)
    requires low <= high && Ascending(gs, low)
    ensures Ascending(gs, high)
  {
  }

  // --------------------------------------------------------------- theorems

  /** At every loop boundary a waiting session has the timer that ends the wait. */
  lemma AlwaysATimer(p: Policy, es: seq<Event>)
    ensures var s := Run(p, es);
            && (s.timers.recovery <==> s.phase.Recovering?)
            && (s.timers.negotiate <==> s.phase.Signaling? || s.phase.Connecting?)
            && (s.phase.Connected? && p.probing ==> s.timers.keepalive || s.tally.probes == 1)
            && s.tally.probes <= 1
            && (s.attempt > 0 && !s.phase.Closed? ==> s.phase.Recovering?)
  {
    RunKeepsInv(p, es);
  }

  /** Each answer to a restart and each restored outage refills the budget once. */
  predicate Budget(p: Policy, t: Tally)
  {
    && t.restarts <= p.maxAttempts * (1 + t.refills + t.restored)
    && t.answers <= 1 + t.restarts
    && (!p.enabled || !p.offerer ==> t.restarts == 0)
  }

  /** Restart offers sent over a run, and answers applied, whatever the peer and the library do. */
  lemma RestartBudget(p: Policy, es: seq<Event>)
    ensures Budget(p, Run(p, es).tally)
  {
    RunKeepsInv(p, es);
    WithinBudget(p, Run(p, es));
  }

  lemma WithinBudget(p: Policy, s: State)
    requires Inv(p, s)
    ensures Budget(p, s.tally)
  {
    TimesIsProduct(p.maxAttempts, 1 + s.tally.refills + s.tally.restored);
  }

  lemma {:induction false} TimesGrows(m: nat, few: nat, many: nat)
    requires few <= many
    ensures Times(m, few) <= Times(m, many)
  {
    if few < many { TimesGrows(m, few, many - 1); }
  }

  /**
    The order of events the WebRTC library keeps: a channel opens only after the
    remote description, and a peer's offer is not accepted while an own offer is
    outstanding.
   */
  predicate LibraryAllows(s: State, e: Event)
  {
    && (e.ChannelOpen? ==> s.hasRemote)
    && (e.RestartOffer? && e.ok ==> s.hasRemote && s.attempt == 0)
  }

  predicate Lawful(p: Policy, es: seq<Event>)
  {
    es == [] || (Lawful(p, DropLast(es)) && LibraryAllows(Run(p, DropLast(es)), Last(es)))
  }

  /** With such a library the first answer refills nothing. */
  predicate FirstApart(s: State)
  {
    && (s.stream ==> s.hasRemote)
    && (s.attempt > 0 ==> s.stream)
    && (!s.hasRemote ==> s.tally.answers == 0)
    && s.tally.answers == s.tally.refills + if s.hasRemote then 1 else 0
  }

  lemma StepFirstApart(p: Policy, s: State, e: Event)
    requires FirstApart(s) && Outstanding(p, s) && LibraryAllows(s, e)
    ensures FirstApart(Step(p, s, e))
  {
  }

  lemma {:induction false} RunFirstApart(p: Policy, es: seq<Event>)
    requires Lawful(p, es) && p.offerer
    ensures FirstApart(Run(p, es))
  {
    if es != [] {
      RunFirstApart(p, DropLast(es));
      RunKeepsInv(p, DropLast(es));
      StepFirstApart(p, Run(p, DropLast(es)), Last(es));
    }
  }

  /** So the budget is spent once at the start, and again per further answer and per restored outage. */
  predicate LawfulBudget(p: Policy, s: State)
  {
    s.tally.restarts <= p.maxAttempts * (1 + Max(s.tally.answers - 1, 0) + s.tally.restored)
  }

  lemma RunLawfulBudget(p: Policy, es: seq<Event>)
    requires Lawful(p, es)
    ensures LawfulBudget(p, Run(p, es))
  {
    RunKeepsInv(p, es);
    if p.offerer {
      RunFirstApart(p, es);
    }
    WithinLawfulBudget(p, Run(p, es));
  }

  lemma WithinLawfulBudget(p: Policy, s: State)
    requires Inv(p, s) && (p.offerer ==> FirstApart(s))
    ensures LawfulBudget(p, s)
  {
    var refills := Max(s.tally.answers - 1, 0) + s.tally.restored;
    TimesGrows(p.maxAttempts, s.tally.refills + s.tally.restored, refills);
    TimesIsProduct(p.maxAttempts, 1 + refills);
  }

  /** How many of the events are recovery deadlines. */
  function Deadlines(es: seq<Event>): nat
  {
    if es == [] then 0 else Deadlines(DropLast(es)) + if Last(es).RecoveryFires? then 1 else 0
  }

  predicate Timer(e: Event)
  {
    e.RecoveryFires? || e.KeepaliveFires? || e.LingerFires? || e.NegotiationFires?
  }

  predicate OnlyTimers(es: seq<Event>) { forall e <- es :: Timer(e) }

  lemma TimerStep(p: Policy, s: State, e: Event)
    requires NeverStuck(s) && Outstanding(p, s) && s.phase.Recovering? && Timer(e)
    ensures var t := Step(p, s, e);
            && t.tally.restarts <= s.tally.restarts + (t.attempt - s.attempt)
            && s.attempt <= t.attempt <= p.maxAttempts
            && (t.phase.Closed? || (t.phase.Recovering? && t.attempt == s.attempt + if e.RecoveryFires? then 1 else 0))
  {
  }

  /** From s to t only timers fired, n of them recovery deadlines: the budget shrank with them, or is gone. */
  predicate Spending(p: Policy, s: State, t: State, n: nat)
  {
    && t.tally.restarts <= s.tally.restarts + (t.attempt - s.attempt)
    && s.attempt <= t.attempt <= p.maxAttempts
    && (t.phase.Closed? || (t.phase.Recovering? && t.attempt == s.attempt + n))
  }

  lemma SpendingOn(p: Policy, s: State, t: State, e: Event, n: nat)
    requires Spending(p, s, t, n) && NeverStuck(t) && Outstanding(p, t) && Timer(e)
    ensures Spending(p, s, Step(p, t, e), n + if e.RecoveryFires? then 1 else 0)
  {
    if t.phase.Recovering? { TimerStep(p, t, e); }
  }

  lemma {:induction false} TimersSpend(p: Policy, es: seq<Event>, timers: seq<Event>)
    requires Run(p, es).phase.Recovering? && OnlyTimers(timers)
    ensures Spending(p, Run(p, es), Run(p, es + timers), Deadlines(timers))
  {
    if timers == [] {
      RunTimed(p, es);
      assert es + timers == es;
    } else {
      var before := es + DropLast(timers);
      assert Timer(Last(timers)) && OnlyTimers(DropLast(timers));
      TimersSpend(p, es, DropLast(timers));
      RunTimed(p, before);
      SpendingOn(p, Run(p, es), Run(p, before), Last(timers), Deadlines(DropLast(timers)));
      assert Run(p, es + timers) == Step(p, Run(p, before), Last(timers)) by {
        assert es + timers == before + [Last(timers)];
        RunSnoc(p, before, Last(timers));
      }
    }
  }

  /** A recovery that only timers interrupt ends the session once its attempts are used up. */
  lemma RecoveryEnds(p: Policy, es: seq<Event>, timers: seq<Event>)
    requires Run(p, es).phase.Recovering? && OnlyTimers(timers)
    ensures Spending(p, Run(p, es), Run(p, es + timers), Deadlines(timers))
    ensures Deadlines(timers) > p.maxAttempts - Run(p, es).attempt ==> Run(p, es + timers).phase.Closed?
  {
    TimersSpend(p, es, timers);
  }

  // ---------------------------------------------------------------- tightness

  /** The events after `es` plus n deadlines at which a restart offer goes out. */
  function Burn(es: seq<Event>, n: nat): seq<Event>
  {
    if n == 0 then es else Burn(es, n - 1) + [RecoveryFires(true)]
  }

  /** The state after n more restart offers. */
  function Spent(s: State, n: nat): State
  {
    s.(attempt := s.attempt + n, generation := s.generation + n, tally := s.tally.(restarts := s.tally.restarts + n))
  }

  /** n deadlines in a row. */
  function Deadline(p: Policy, s: State, n: nat): State
  {
    if n == 0 then s else Step(p, Deadline(p, s, n - 1), RecoveryFires(true))
  }

  lemma {:induction false} BurnIsDeadlines(p: Policy, es: seq<Event>, n: nat)
    ensures Run(p, Burn(es, n)) == Deadline(p, Run(p, es), n)
  {
    if n > 0 {
      var before := Run(p, Burn(es, n - 1));
      assert before == Deadline(p, Run(p, es), n - 1) by { BurnIsDeadlines(p, es, n - 1); }
      assert Run(p, Burn(es, n)) == Step(p, before, RecoveryFires(true)) by {
        RunSnoc(p, Burn(es, n - 1), RecoveryFires(true));
      }
    }
  }

  lemma {:induction false} DeadlinesSpend(p: Policy, s: State, n: nat)
    requires p.offerer && p.enabled && s.phase.Recovering? && s.timers.recovery && s.attempt + n <= p.maxAttempts
    ensures Deadline(p, s, n) == Spent(s, n)
  {
    if n > 0 {
      DeadlinesSpend(p, s, n - 1);
      BurnOne(p, s, n - 1);
    }
  }

  lemma BurnSpends(p: Policy, es: seq<Event>, n: nat)
    requires p.offerer && p.enabled
    requires Run(p, es).phase.Recovering? && Run(p, es).attempt + n <= p.maxAttempts
    ensures Run(p, Burn(es, n)) == Spent(Run(p, es), n)
  {
    RunTimed(p, es);
    BurnIsDeadlines(p, es, n);
    DeadlinesSpend(p, Run(p, es), n);
  }

  lemma BurnOne(p: Policy, s: State, n: nat)
    requires p.offerer && p.enabled && s.phase.Recovering? && s.timers.recovery && s.attempt + n < p.maxAttempts
    ensures Step(p, Spent(s, n), RecoveryFires(true)) == Spent(s, n + 1)
  {
    assert s.timers.(recovery := true) == s.timers;
  }

  /** One outage in which the peer answers every last attempt, k times. */
  function OneOutage(p: Policy, k: nat): seq<Event>
  {
    if k == 0 then Burn([Answer(true), ChannelOpen(true), Disconnected], p.maxAttempts)
    else Burn(OneOutage(p, k - 1) + [Answer(true)], p.maxAttempts)
  }

  /** Every attempt is used up, k answers have refilled the budget, and the outage goes on. */
  predicate Exhausted(p: Policy, s: State, k: nat)
  {
    && s.phase.Recovering? && s.hasRemote && s.attempt == p.maxAttempts
    && s.tally.restored == 0 && s.tally.refills == k && s.tally.answers == k + 1
    && s.tally.restarts == Times(p.maxAttempts, 1 + k)
  }

  /** A further answer and the attempts it allows. */
  lemma RefilledAndSpent(p: Policy, s: State, k: nat)
    requires p.offerer && p.maxAttempts > 0 && Exhausted(p, s, k)
    ensures var t := Step(p, s, Answer(true));
      t.phase.Recovering? && t.attempt == 0 && Exhausted(p, Spent(t, p.maxAttempts), k + 1)
  {
    assert Step(p, s, Answer(true)) == ApplyAnswer(p, s, true);
    assert Times(p.maxAttempts, 1 + (k + 1)) == Times(p.maxAttempts, 1 + k) + p.maxAttempts;
  }

  lemma {:induction false} OutageExhausts(p: Policy, k: nat)
    requires p.offerer && p.enabled && p.maxAttempts > 0
    ensures Exhausted(p, Run(p, OneOutage(p, k)), k)
  {
    if k == 0 {
      FirstSpent(p);
    } else {
      var before := OneOutage(p, k - 1);
      var answered := before + [Answer(true)];
      OutageExhausts(p, k - 1);
      RefilledAndSpent(p, Run(p, before), k - 1);
      assert Run(p, answered) == Step(p, Run(p, before), Answer(true)) by { RunSnoc(p, before, Answer(true)); }
      BurnSpends(p, answered, p.maxAttempts);
    }
  }

  /** The bound is reached within a single outage: an answer refills the budget without restoring anything. */
  lemma BudgetIsTight(p: Policy, k: nat)
    requires p.offerer && p.enabled && p.maxAttempts > 0
    ensures var s := Run(p, OneOutage(p, k)); Exhausted(p, s, k) && s.tally.restarts == p.maxAttempts * (1 + k)
  {
    OutageExhausts(p, k);
    TimesIsProduct(p.maxAttempts, 1 + k);
  }

  lemma FirstSpent(p: Policy)
    requires p.offerer && p.enabled
    ensures Exhausted(p, Run(p, OneOutage(p, 0)), 0)
  {
    var begun := [Answer(true), ChannelOpen(true), Disconnected];
    OutageBegins(p);
    BurnSpends(p, begun, p.maxAttempts);
    assert Times(p.maxAttempts, 1) == Times(p.maxAttempts, 0) + p.maxAttempts;
  }

  lemma OutageBegins(p: Policy)
    requires p.offerer
    ensures var s := Run(p, [Answer(true), ChannelOpen(true), Disconnected]);
            s.phase.Recovering? && s.hasRemote && s.attempt == 0 && s.tally == Tally(0, 1, 0, 0, 0, [])
  {
    RunSnoc(p, [], Answer(true));
    RunSnoc(p, [Answer(true)], ChannelOpen(true));
    RunSnoc(p, [Answer(true), ChannelOpen(true)], Disconnected);
    assert [] + [Answer(true)] == [Answer(true)];
    assert [Answer(true)] + [ChannelOpen(true)] == [Answer(true), ChannelOpen(true)];
    assert [Answer(true), ChannelOpen(true)] + [Disconnected] == [Answer(true), ChannelOpen(true), Disconnected];
  }

  // ------------------------------------------------------------- generations

  /** No restart offer of the peer is answered twice, and none after a later one. */
  lemma GenerationsIncrease(p: Policy, es: seq<Event>, i: nat, j: nat)
    requires i < j < |Run(p, es).tally.answered|
    ensures Run(p, es).tally.answered[i] < Run(p, es).tally.answered[j]
  {
    RunKeepsInv(p, es);
    AscendingAt(Run(p, es).tally.answered, Run(p, es).generation, i, j);
  }

  lemma {:induction false} AscendingAt(gs: seq<int>, bound: int, i: nat, j: nat)
    requires Ascending(gs, bound) && i < j < |gs|
    ensures gs[i] < gs[j] <= bound
  {
    if j < |gs| - 1 {
      AscendingAt(DropLast(gs), Last(gs) - 1, i, j);
    } else {
      AscendingBelow(DropLast(gs), Last(gs) - 1, i);
    }
  }

  lemma {:induction false} AscendingBelow(gs: seq<int>, bound: int, i: nat)
    requires Ascending(gs, bound) && i < |gs|
    ensures gs[i] <= bound
  {
    if i < |gs| - 1 { AscendingBelow(DropLast(gs), Last(gs) - 1, i); }
  }

  // ------------------------------------------------------------- the session

  /** The fields the loop owns. Every handler says whether the session is to end. */
  class Session {
    const policy: Policy
    var phase: Phase
    var hasRemote: bool
    var stream: bool
    var attempt: nat
    var generation: int
    var pinging: bool
    var negotiateTimer: bool
    var recoveryTimer: bool
    var keepaliveTimer: bool
    var lingerTimer: bool
    ghost var tally: Tally

    ghost function View(): State
      reads this
    {
      State(phase, hasRemote, stream, attempt, generation, pinging,
            Timers(negotiateTimer, recoveryTimer, keepaliveTimer, lingerTimer), tally)
    }

    /** The state after a handler that asked, or did not ask, to end the session. */
    ghost function After(end: bool): State
      reads this
    {
      if end then Close(View()) else View()
    }

    constructor (p: Policy)
      ensures View() == Begin(p) && policy == p
    {
      policy := p;
      phase, hasRemote, stream := if p.offerer then Signaling else Connecting, !p.offerer, false;
      attempt, generation, pinging := 0, 0, false;
      negotiateTimer, recoveryTimer, keepaliveTimer, lingerTimer := true, false, false, false;
      tally := Tally(0, 0, 0, 0, 0, []);
    }

    method OnAnswer(ok: bool) returns (end: bool)
      requires !phase.Closed?
      modifies this
      ensures After(end) == Step(policy, old(View()), Answer(ok))
      ensures var wanted := policy.offerer && (!old(hasRemote) || old(attempt) > 0);
        && end == (wanted && !ok)
        && hasRemote == (old(hasRemote) || (wanted && ok)) && attempt == (if wanted && ok then 0 else old(attempt))
        && phase == if wanted && ok && old(phase).Signaling? then Connecting else old(phase)
    {
      end := false;
      if !policy.offerer || (hasRemote && attempt == 0) {
        return;
      }
      if !ok {
        return true;
      }
      tally := tally.(answers := tally.answers + 1, refills := tally.refills + if attempt > 0 then 1 else 0);
      hasRemote, attempt := true, 0;
      if phase.Signaling? {
        phase := Connecting;
      }
    }

    method OnRestartSignal(g: int, ok: bool) returns (end: bool)
      requires !phase.Closed?
      modifies this
      ensures After(end) == Step(policy, old(View()), RestartOffer(g, ok))
      ensures end == (g > old(generation) && !ok) && generation == (if g > old(generation) then g else old(generation))
      ensures hasRemote == (old(hasRemote) || (g > old(generation) && ok)) && phase == old(phase)
    {
      end := false;
      if g <= generation {
        return;
      }
      generation := g;
      if !ok {
        return true;
      }
      hasRemote := true;
      tally := tally.(answered := tally.answered + [g]);
    }

    method OnChannelOpen(ok: bool) returns (end: bool)
      requires !phase.Closed?
      modifies this
      ensures After(end) == Step(policy, old(View()), ChannelOpen(ok))
      ensures end == (!old(stream) && !ok) && stream == (old(stream) || ok)
      ensures if old(stream) || !ok then phase == old(phase) else phase == Connected && !negotiateTimer
      ensures !old(stream) && ok && policy.probing && !pinging ==> keepaliveTimer
    {
      if stream {
        return false;
      }
      if !ok {
        return true;
      }
      stream, phase, negotiateTimer := true, Connected, false;
      Rearm();
      return false;
    }

    method Rearm()
      modifies `keepaliveTimer
      ensures View() == ArmKeepalive(policy, old(View()))
      ensures keepaliveTimer == (old(keepaliveTimer) || (policy.probing && stream && !pinging))
    {
      if !policy.probing || !stream || pinging {
        return;
      }
      keepaliveTimer := true;
    }

    method OnConnectivityUp()
      requires !phase.Closed?
      modifies this
      ensures View() == Step(policy, old(View()), Up)
      ensures !recoveryTimer
      ensures if old(phase).Recovering? then phase == Connected && attempt == 0
              else phase == old(phase) && attempt == old(attempt)
    {
      recoveryTimer := false;
      if !phase.Recovering? {
        return;
      }
      phase, attempt := Connected, 0;
      tally := tally.(restored := tally.restored + 1);
      Rearm();
    }

    method OnConnectivityLost()
      modifies `phase, `recoveryTimer
      ensures View() == Lose(old(View()))
      ensures if old(phase).Connected? then phase == Recovering && recoveryTimer
              else phase == old(phase) && recoveryTimer == old(recoveryTimer)
    {
      if !phase.Connected? {
        return;
      }
      phase, recoveryTimer := Recovering, true;
    }

    method AttemptRestart(ok: bool) returns (end: bool)
      modifies this
      ensures After(end) == Restart(policy, old(View()), ok)
      ensures end == !(policy.enabled && policy.offerer && old(attempt) < policy.maxAttempts && ok)
      ensures phase == old(phase)
      ensures !end ==> attempt == old(attempt) + 1 && generation == old(generation) + 1 && recoveryTimer
    {
      if !policy.enabled || !policy.offerer || attempt >= policy.maxAttempts {
        return true;
      }
      attempt, generation := attempt + 1, generation + 1;
      if !ok {
        return true;
      }
      tally := tally.(restarts := tally.restarts + 1);
      recoveryTimer := true;
      return false;
    }

    method OnConnectivityFailed(ok: bool) returns (end: bool)
      requires !phase.Closed?
      modifies this
      ensures After(end) == Step(policy, old(View()), Failed(ok))
      ensures end == !((old(phase).Connected? || old(phase).Recovering?) &&
                       policy.enabled && policy.offerer && old(attempt) < policy.maxAttempts && ok)
      ensures !end ==> phase == Recovering && recoveryTimer && attempt == old(attempt) + 1
    {
      if phase.Connected? || phase.Recovering? {
        if phase.Connected? {
          OnConnectivityLost();
        }
        end := AttemptRestart(ok);
        return;
      }
      return true;
    }

    method OnRecoveryDeadline(ok: bool) returns (end: bool)
      requires !phase.Closed? && recoveryTimer
      modifies this
      ensures After(end) == Step(policy, old(View()), RecoveryFires(ok))
      ensures phase == old(phase)
      ensures end == (phase.Recovering? &&
                      !(policy.enabled && policy.offerer && old(attempt) < policy.maxAttempts && ok))
      ensures if !phase.Recovering? then !recoveryTimer && attempt == old(attempt)
              else !end ==> recoveryTimer && attempt == old(attempt) + 1
    {
      recoveryTimer := false;
      if !phase.Recovering? {
        return false;
      }
      end := AttemptRestart(ok);
    }

    method OnCloseSignal() returns (end: bool)
      requires !phase.Closed?
      modifies this
      ensures After(end) == Step(policy, old(View()), PeerClose)
      ensures end == !(phase.Connected? && stream)
      ensures phase == old(phase) && lingerTimer == (old(lingerTimer) || !end)
    {
      if !phase.Connected? || !stream {
        return true;
      }
      lingerTimer := true;
      return false;
    }

    method StartProbe() returns (started: bool)
      requires !phase.Closed? && keepaliveTimer
      modifies this
      ensures View() == Step(policy, old(View()), KeepaliveFires)
      ensures started == (phase.Connected? && stream && !old(pinging))
      ensures phase == old(phase) && !keepaliveTimer && pinging == (old(pinging) || started)
    {
      keepaliveTimer := false;
      if !phase.Connected? || !stream || pinging {
        return false;
      }
      pinging := true;
      tally := tally.(probes := tally.probes + 1);
      return true;
    }

    method OnKeepAlive(pong: bool, ok: bool) returns (end: bool)
      requires !phase.Closed? && tally.probes > 0
      modifies this
      ensures After(end) == Step(policy, old(View()), ProbeDone(pong, ok))
      ensures !pinging
      ensures end == (!pong && old(phase).Connected? &&
                      !(policy.enabled && policy.offerer && old(attempt) < policy.maxAttempts && ok))
      ensures phase == if !pong && old(phase).Connected? then Recovering else old(phase)
      ensures pong && policy.probing && stream ==> keepaliveTimer
    {
      pinging := false;
      tally := tally.(probes := tally.probes - 1);
      if !pong {
        if phase.Connected? {
          OnConnectivityLost();
          end := AttemptRestart(ok);
          return;
        }
        return false;
      }
      Rearm();
      return false;
    }

    method OnNegotiationDeadline() returns (end: bool)
      requires !phase.Closed? && negotiateTimer
      modifies this
      ensures After(end) == Step(policy, old(View()), NegotiationFires)
      ensures end == !(phase.Connected? || phase.Recovering?) && phase == old(phase) && !negotiateTimer
    {
      negotiateTimer := false;
      end := !phase.Connected? && !phase.Recovering?;
    }

    method Teardown()
      modifies this
      ensures View() == Close(old(View()))
      ensures phase == Closed && !negotiateTimer && !recoveryTimer && !keepaliveTimer && !lingerTimer
    {
      phase := Closed;
      negotiateTimer, recoveryTimer, keepaliveTimer, lingerTimer := false, false, false, false;
    }
  }
}
