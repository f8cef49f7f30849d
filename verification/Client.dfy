/**
  The client of the signaling stream: what one event does, one stream, and the
  loop that reconnects. The resume cursor outlives the streams; the theorem is
  that each attempt resumes after exactly the last numbered signal read before it.
 */
module Client {
  import opened Common
  import PeerLog
  import Replay

  /**
    A complete event; None is an ID that is no number, or a payload that does not
    decode. The client can be closed while a signal waits for room in the inbox; the
    signal is then given up.
   */
  datatype Event =
    | Comment
    | Hello(peer: Option<string>)
    | Signal(id: Option<nat>, body: Option<string>)
    | GivenUp(id: Option<nat>)
    | Replaced
    | Stopping
    | Other

  /** Read on, reconnect, give up for good, or stop because the client was closed. */
  datatype Verdict = Going | Lost | Permanent | Closed

  /**
    What one attempt meets: a refusal by status, no answer, a wrong content type, a
    stream of events, or the close of the client, after some events or while waiting
    to reconnect.
   */
  datatype Attempt =
    | Refused(status: int)
    | NoAnswer
    | WrongType
    | Stream(events: seq<Event>)
    | CutByClose(events: seq<Event>)
    | ClosedWaiting

  datatype State = State(lastID: nat, ready: bool, inbox: seq<string>)

  /** Statuses that reconnecting cannot fix. */
  function Classify(status: int): Verdict
  {
    if status == 401 || status == 403 || status == 404 || status == 405 then Permanent else Lost
  }

  function VerdictOf(local: string, e: Event): Verdict
  {
    match e
    case Hello(peer) => if peer == Some(local) then Going else Permanent
    case Replaced => Permanent
    case Stopping => Lost
    case GivenUp(_) => Closed
    case _ => Going
  }

  function Apply(local: string, c: State, e: Event): State
  {
    match e
    case Hello(peer) => if peer == Some(local) then c.(ready := true) else c
    case Signal(id, body) =>
      if body.None? then c
      else State(if id.Some? then id.value else c.lastID, c.ready, c.inbox + [body.value])
    case GivenUp(id) => if id.Some? then c.(lastID := id.value) else c
    case _ => c
  }

  /** The events of a stream up to and including the first that ends it. */
  function Handled(local: string, events: seq<Event>): (h: seq<Event>)
    ensures h <= events
  {
    if events == [] then []
    else if VerdictOf(local, events[0]).Going? then [events[0]] + Handled(local, events[1..])
    else [events[0]]
  }

  function Ending(local: string, events: seq<Event>): Verdict
  {
    var h := Handled(local, events);
    if h == [] || VerdictOf(local, Last(h)).Going? then Lost else VerdictOf(local, Last(h))
  }

  predicate AllGoing(local: string, events: seq<Event>)
  {
    forall e <- events :: VerdictOf(local, e).Going?
  }

  lemma {:induction false} HandledAll(local: string, events: seq<Event>)
    requires AllGoing(local, events)
    ensures Handled(local, events) == events && Ending(local, events) == Lost
  {
    if events != [] {
      HandledAll(local, events[1..]);
      assert [events[0]] + events[1..] == events;
    }
  }

  /** The first event that does not let the client read on is the last one handled. */
  lemma {:induction false} HandledUpTo(local: string, events: seq<Event>, i: nat)
    requires i < |events| && AllGoing(local, events[..i]) && !VerdictOf(local, events[i]).Going?
    ensures Handled(local, events) == events[..i + 1] && Ending(local, events) == VerdictOf(local, events[i])
  {
    if i > 0 {
      assert events[0] in events[..i];
      assert forall e <- events[1..][..i - 1] :: e in events[..i];
      HandledUpTo(local, events[1..], i - 1);
      assert [events[0]] + events[1..][..i] == events[..i + 1];
    }
  }

  function ApplyAll(local: string, c: State, events: seq<Event>): State
  {
    if events == [] then c else Apply(local, ApplyAll(local, c, DropLast(events)), Last(events))
  }

  // ---------------------------------------------------------------- reference

  predicate Numbered(e: Event)
  {
    (e.Signal? && e.id.Some? && e.body.Some?) || (e.GivenUp? && e.id.Some?)
  }

  /** The number of the last signal that was read, or `start` if none was. */
  function LastNumber(events: seq<Event>, start: nat): nat
  {
    if events == [] then start
    else if Numbered(Last(events)) then Last(events).id.value
    else LastNumber(DropLast(events), start)
  }

  function Bodies(events: seq<Event>): seq<string>
  {
    if events == [] then []
    else Bodies(DropLast(events))
         + if Last(events).Signal? && Last(events).body.Some? then [Last(events).body.value] else []
  }

  /** Reading events sets the cursor to the last number read and queues every signal once, in order. */
  lemma {:induction false} ReadingAccounted(local: string, c: State, events: seq<Event>)
    ensures var t := ApplyAll(local, c, events);
      && t.lastID == LastNumber(events, c.lastID)
      && t.inbox == c.inbox + Bodies(events)
      && (t.ready <==> c.ready || Hello(Some(local)) in events)
  {
    if events != [] {
      ReadingAccounted(local, c, DropLast(events));
      assert events == DropLast(events) + [Last(events)];
    }
  }

  lemma {:induction false} LastNumberConcat(a: seq<Event>, b: seq<Event>, start: nat)
    ensures LastNumber(a + b, start) == LastNumber(b, LastNumber(a, start))
    ensures Bodies(a + b) == Bodies(a) + Bodies(b)
  {
    if b == [] {
      assert a + b == a;
    } else {
      LastNumberConcat(a, DropLast(b), start);
      assert DropLast(a + b) == a + DropLast(b);
    }
  }

  // ---------------------------------------------------------------- the loop

  /** Everything read over a sequence of attempts; `over` is the verdict that ended the loop. */
  datatype Trace = Trace(state: State, over: Option<Verdict>, resumes: seq<nat>, read: seq<Event>)

  function EventsOf(local: string, a: Attempt): seq<Event>
  {
    if a.Stream? || a.CutByClose? then Handled(local, a.events) else []
  }

  /** A close of the client outweighs whatever else ended the attempt. */
  function EndOf(local: string, a: Attempt): Verdict
  {
    match a
    case Refused(status) => Classify(status)
    case NoAnswer => Lost
    case WrongType => Permanent
    case Stream(events) => Ending(local, events)
    case CutByClose(_) => Closed
    case ClosedWaiting => Closed
  }

  function Try(local: string, t: Trace, a: Attempt): Trace
  {
    if t.over.Some? then t
    else if a.ClosedWaiting? then t.(over := Some(Closed))
    else
      var events, end := EventsOf(local, a), EndOf(local, a);
      Trace(ApplyAll(local, t.state, events), if end.Lost? then None else Some(end),
            t.resumes + [t.state.lastID], t.read + events)
  }

  function RunAll(local: string, attempts: seq<Attempt>): Trace
  {
    if attempts == [] then Trace(State(0, false, []), None, [], [])
    else Try(local, RunAll(local, DropLast(attempts)), Last(attempts))
  }

  lemma {:induction false} RunAccounted(local: string, attempts: seq<Attempt>)
    ensures var t := RunAll(local, attempts);
      && t.state.lastID == LastNumber(t.read, 0)
      && t.state.inbox == Bodies(t.read)
      && |t.resumes| <= |attempts|
      && (t.over.None? ==> |t.resumes| == |attempts|)
  {
    if attempts != [] {
      var t, a := RunAll(local, DropLast(attempts)), Last(attempts);
      RunAccounted(local, DropLast(attempts));
      ReadingAccounted(local, t.state, EventsOf(local, a));
      LastNumberConcat(t.read, EventsOf(local, a), 0);
    }
  }

  /** Attempt i asks for what follows the last numbered signal of all attempts before it. */
  lemma {:induction false} ResumesWhereItStopped(local: string, attempts: seq<Attempt>, i: nat)
    requires i < |RunAll(local, attempts).resumes|
    ensures i < |attempts| && RunAll(local, attempts).resumes[i] == LastNumber(RunAll(local, attempts[..i]).read, 0)
  {
    RunAccounted(local, attempts);
    var before := DropLast(attempts);
    RunAccounted(local, before);
    if i < |RunAll(local, before).resumes| {
      ResumesWhereItStopped(local, before, i);
      assert attempts[..i] == before[..i];
    } else {
      assert attempts[..i] == before;
    }
  }

  /** Reading the entries of the replay protocol leaves the cursor that protocol model uses. */
  lemma {:induction false} CursorIsReplayCursor(s: Replay.Sys, es: seq<PeerLog.Entry>)
    ensures LastNumber(SignalsOf(es), Replay.Cursor(s)) == Replay.Cursor(s.(received := s.received + es))
  {
    if es == [] {
      assert s.received + es == s.received;
    } else {
      assert Last(s.received + es) == Last(es);
      assert Last(SignalsOf(es)) == Signal(Some(Last(es).id), Some(Last(es).data));
    }
  }

  function SignalsOf(es: seq<PeerLog.Entry>): seq<Event>
  {
    seq(|es|, i requires 0 <= i < |es| => Signal(Some(es[i].id), Some(es[i].data)))
  }

  // ------------------------------------------------------------ how attempts end

  /** Events after which the client goes on reading. */
  predicate ReadsOn(local: string, e: Event)
  {
    e.Comment? || e.Other? || e.Signal? || e == Hello(Some(local))
  }

  /** The event tells the client that it is not wanted: another process has its ID, or it has another's credential. */
  predicate Rejects(local: string, e: Event)
  {
    e.Replaced? || (e.Hello? && e.peer != Some(local))
  }

  /** Event i is the first after which the client does not go on reading. */
  predicate StopsAt(local: string, events: seq<Event>, i: nat)
  {
    i < |events| && !ReadsOn(local, events[i]) && forall e <- events[..i] :: ReadsOn(local, e)
  }

  /** The attempt shows that another one would fail as well. */
  ghost predicate Hopeless(local: string, a: Attempt)
  {
    || a.WrongType?
    || (a.Refused? && a.status in {401, 403, 404, 405})
    || (a.Stream? && exists i: nat :: StopsAt(local, a.events, i) && Rejects(local, a.events[i]))
  }

  /** The client was closed during the attempt, or while waiting for the next one. */
  ghost predicate CutShort(local: string, a: Attempt)
  {
    || a.CutByClose? || a.ClosedWaiting?
    || (a.Stream? && exists i: nat :: StopsAt(local, a.events, i) && a.events[i].GivenUp?)
  }

  /** The first event that stops the client decides how its stream ends; without one the stream is lost. */
  lemma StreamEnds(local: string, events: seq<Event>, i: nat)
    requires StopsAt(local, events, i)
    ensures Handled(local, events) == events[..i + 1]
    ensures Ending(local, events)
            == if events[i].Stopping? then Lost else if events[i].GivenUp? then Closed else Permanent
  {
    assert forall e <- events[..i] :: VerdictOf(local, e).Going?;
    HandledUpTo(local, events, i);
  }

  /** A client that is told it has been replaced gives up, whatever else its stream still holds. */
  lemma ReplacedIsFinal(local: string, events: seq<Event>, i: nat)
    requires i < |events| && events[i] == Replaced && forall e <- events[..i] :: ReadsOn(local, e)
    ensures Ending(local, events) == Permanent
  {
    StreamEnds(local, events, i);
  }

  lemma {:induction false} StopsSomewhere(local: string, events: seq<Event>) returns (i: nat)
    ensures i <= |events| && forall e <- events[..i] :: ReadsOn(local, e)
    ensures i < |events| ==> StopsAt(local, events, i)
  {
    if events == [] || !ReadsOn(local, events[0]) {
      i := 0;
    } else {
      var j := StopsSomewhere(local, events[1..]);
      i := j + 1;
      assert events[..i] == [events[0]] + events[1..][..j];
    }
  }

  lemma StopsOnce(local: string, events: seq<Event>, i: nat, j: nat)
    requires StopsAt(local, events, i) && StopsAt(local, events, j)
    ensures i == j
  {
    if i < j { ReadsOnBefore(local, events, j, i); }
    if j < i { ReadsOnBefore(local, events, i, j); }
  }

  lemma ReadsOnBefore(local: string, events: seq<Event>, i: nat, j: nat)
    requires StopsAt(local, events, i) && j < i
    ensures ReadsOn(local, events[j])
  {
    assert events[j] in events[..i];
  }

  /** Which attempts end the client for good, which end it because it was closed, and which are repeated. */
  lemma EndsExactly(local: string, a: Attempt)
    ensures EndOf(local, a) == if Hopeless(local, a) then Permanent else if CutShort(local, a) then Closed else Lost
    ensures !(Hopeless(local, a) && CutShort(local, a))
  {
    if a.Stream? {
      var i := StopsSomewhere(local, a.events);
      forall j | StopsAt(local, a.events, j) ensures i == j { StopsOnce(local, a.events, i, j); }
      if i < |a.events| {
        StreamEnds(local, a.events, i);
      } else {
        assert a.events[..i] == a.events;
        assert AllGoing(local, a.events);
        HandledAll(local, a.events);
      }
    }
  }

  ghost predicate Repeatable(local: string, a: Attempt) { !Hopeless(local, a) && !CutShort(local, a) }

  /** The client keeps trying as long as no attempt is hopeless or cut short by its own close. */
  lemma {:induction false} KeepsTrying(local: string, attempts: seq<Attempt>)
    requires forall a <- attempts :: Repeatable(local, a)
    ensures RunAll(local, attempts).over.None? && |RunAll(local, attempts).resumes| == |attempts|
  {
    if attempts != [] {
      KeepsTrying(local, DropLast(attempts));
      assert Repeatable(local, Last(attempts));
      EndsExactly(local, Last(attempts));
    }
  }

  /** After the first attempt that is not to be repeated it never connects again, whatever comes. */
  lemma GivesUpExactly(local: string, attempts: seq<Attempt>, i: nat)
    requires i < |attempts| && !Repeatable(local, attempts[i])
    requires forall a <- attempts[..i] :: Repeatable(local, a)
    ensures var t := RunAll(local, attempts);
      && t.over == Some(if Hopeless(local, attempts[i]) then Permanent else Closed)
      && |t.resumes| == if attempts[i].ClosedWaiting? then i else i + 1
  {
    KeepsTrying(local, attempts[..i]);
    EndsExactly(local, attempts[i]);
    assert DropLast(attempts[..i + 1]) == attempts[..i];
    OverStays(local, attempts, i + 1);
  }

  // ------------------------------------------------------------ the connection

  class Conn {
    const local: string
    var lastID: nat
    var ready: bool
    var inbox: seq<string>
    var terminal: bool

    ghost function View(): State
      reads this
    {
      State(lastID, ready, inbox)
    }

    constructor (local: string)
      ensures this.local == local && View() == State(0, false, []) && !terminal
    {
      this.local := local;
      lastID, ready, inbox, terminal := 0, false, [], false;
    }

    method HandleEvent(e: Event) returns (v: Verdict)
      modifies `lastID, `ready, `inbox
      ensures View() == Apply(local, old(View()), e) && v == VerdictOf(local, e)
      ensures v == if ReadsOn(local, e) then Going else if Rejects(local, e) then Permanent
                   else if e.GivenUp? then Closed else Lost
      ensures lastID == if Numbered(e) then e.id.value else old(lastID)
      ensures inbox == old(inbox) + if e.Signal? && e.body.Some? then [e.body.value] else []
      ensures ready == (old(ready) || e == Hello(Some(local)))
    {
      match e
      case Hello(peer) =>
        if peer != Some(local) {
          return Permanent;
        }
        ready := true;
        return Going;
      case Signal(id, body) =>
        if body.None? {
          return Going;
        }
        if id.Some? {
          lastID := id.value;
        }
        inbox := inbox + [body.value];
        return Going;
      case GivenUp(id) =>
        if id.Some? {
          lastID := id.value;
        }
        return Closed;
      case Replaced => return Permanent;
      case Stopping => return Lost;
      case Comment => return Going;
      case Other => return Going;
    }

    /** One attempt: connect, and read the stream if there is one. */
    method StreamOnce(a: Attempt) returns (v: Verdict)
      modifies `lastID, `ready, `inbox
      ensures View() == ApplyAll(local, old(View()), EventsOf(local, a)) && v == EndOf(local, a)
      ensures v == if Hopeless(local, a) then Permanent else if CutShort(local, a) then Closed else Lost
    {
      EndsExactly(local, a);
      match a
      case Refused(status) => v := Classify(status);
      case NoAnswer => v := Lost;
      case WrongType => v := Permanent;
      case Stream(events) => v := Read(events);
      case CutByClose(events) => v := Read(events); v := Closed;
      case ClosedWaiting => v := Closed;
    }

    /** Read events until one ends the stream or the connection is lost. */
    method Read(events: seq<Event>) returns (v: Verdict)
      modifies `lastID, `ready, `inbox
      ensures View() == ApplyAll(local, old(View()), Handled(local, events)) && v == Ending(local, events)
    {
      var i := 0;
      while i < |events|
        invariant i <= |events| && AllGoing(local, events[..i])
        invariant View() == ApplyAll(local, old(View()), events[..i])
      {
        assert DropLast(events[..i + 1]) == events[..i];
        v := HandleEvent(events[i]);
        i := i + 1;
        if !v.Going? {
          HandledUpTo(local, events, i - 1);
          return;
        }
      }
      v := Lost;
      assert events[..i] == events;
      HandledAll(local, events);
    }

    /**
      Keep the stream attached over the given attempts, until one fails for good,
      which is recorded, or the client is closed, which is not.
     */
    method Run(attempts: seq<Attempt>) returns (resumes: seq<nat>, over: Option<Verdict>)
      requires View() == State(0, false, []) && !terminal
      modifies this
      ensures var t := RunAll(local, attempts);
              View() == t.state && over == t.over && resumes == t.resumes
      ensures terminal <==> over == Some(Permanent)
    {
      resumes, over := [], None;
      var i := 0;
      while i < |attempts| && over.None?
        invariant i <= |attempts|
        invariant var t := RunAll(local, attempts[..i]);
                  View() == t.state && over == t.over && resumes == t.resumes
        invariant terminal <==> over == Some(Permanent)
      {
        assert DropLast(attempts[..i + 1]) == attempts[..i];
        if attempts[i].ClosedWaiting? {
          over := Some(Closed);
        } else {
          resumes := resumes + [lastID];
          var v := StreamOnce(attempts[i]);
          EndsSomehow(local, attempts[i]);
          if !v.Lost? { over := Some(v); }
          terminal := v.Permanent?;
        }
        i := i + 1;
      }
      if over.Some? { OverStays(local, attempts, i); }
      assert attempts[..|attempts|] == attempts;
    }
  }

  lemma EndsSomehow(local: string, a: Attempt)
    ensures !EndOf(local, a).Going?
  {
  }

  lemma {:induction false} OverStays(local: string, attempts: seq<Attempt>, i: nat)
    requires i <= |attempts| && RunAll(local, attempts[..i]).over.Some?
    ensures RunAll(local, attempts) == RunAll(local, attempts[..i])
    decreases |attempts|
  {
    if i == |attempts| {
      assert attempts[..i] == attempts;
    } else {
      assert DropLast(attempts)[..i] == attempts[..i];
      OverStays(local, DropLast(attempts), i);
    }
  }
}
