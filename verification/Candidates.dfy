/**
  ICE candidates that arrive before the remote description. The session buffers
  them, up to a limit, and hands them to the WebRTC library when the description
  is applied; an end-of-candidates that came early is remembered as a flag.
 */
module Candidates {
  import opened Common

  /** What the peer's signals bring: a description that is applied, a candidate, or the end of candidates. */
  datatype Arrival = Description | Candidate(c: string) | Complete

  /** What the library is asked to do. */
  datatype Call = Add(c: string) | EndOfCandidates

  const MAX_PENDING := 256

  datatype State = State(described: bool, pending: seq<string>, complete: bool, failed: bool, calls: seq<Call>)

  function Init(): State { State(false, [], false, false, []) }

  function Adds(cs: seq<string>): seq<Call> { seq(|cs|, i requires 0 <= i < |cs| => Add(cs[i])) }

  /** A session that has failed takes nothing more. */
  function Arrive(s: State, a: Arrival): State
  {
    if s.failed then s else
    match a
    case Candidate(c) =>
      if s.described then s.(calls := s.calls + [Add(c)])
      else if |s.pending| >= MAX_PENDING then s.(failed := true)
      else s.(pending := s.pending + [c])
    case Complete => if s.described then s.(calls := s.calls + [EndOfCandidates]) else s.(complete := true)
    case Description =>
      State(true, [], false, false, s.calls + Adds(s.pending) + if s.complete then [EndOfCandidates] else [])
  }

  function Run(arrivals: seq<Arrival>): State
  {
    if arrivals == [] then Init() else Arrive(Run(DropLast(arrivals)), Last(arrivals))
  }

  // ---------------------------------------------------------------- reference

  /** The arrivals before the first description. */
  function Early(arrivals: seq<Arrival>): (e: seq<Arrival>)
    ensures e <= arrivals && Description !in e
    ensures e == arrivals || arrivals[|e|] == Description
  {
    if arrivals == [] || arrivals[0] == Description then [] else [arrivals[0]] + Early(arrivals[1..])
  }

  function CandidatesOf(arrivals: seq<Arrival>): seq<string>
  {
    if arrivals == [] then []
    else CandidatesOf(DropLast(arrivals)) + if Last(arrivals).Candidate? then [Last(arrivals).c] else []
  }

  /** Every arrival handed on at once. */
  function Direct(arrivals: seq<Arrival>): seq<Call>
  {
    if arrivals == [] then []
    else Direct(DropLast(arrivals)) + match Last(arrivals)
                                      case Candidate(c) => [Add(c)]
                                      case Complete => [EndOfCandidates]
                                      case Description => []
  }

  /** What the arrivals before the first description come to. */
  function Head(early: seq<Arrival>): seq<Call>
  {
    Adds(CandidatesOf(early)) + if Complete in early then [EndOfCandidates] else []
  }

  /** What the library should see: early candidates in order, one end if any came early, then each arrival. */
  function Expected(arrivals: seq<Arrival>): seq<Call>
  {
    var early := Early(arrivals);
    if early == arrivals then []
    else Head(early) + Direct(arrivals[|early|..])
  }

  predicate Faithful(arrivals: seq<Arrival>, s: State)
  {
    var early := Early(arrivals);
    && (s.failed <==> |CandidatesOf(early)| > MAX_PENDING)
    && (s.failed ==> s.calls == [])
    && (!s.failed ==> s.calls == Expected(arrivals))
    && (!s.failed ==> (s.described <==> Description in arrivals))
    && (!s.failed ==> s.pending == if s.described then [] else CandidatesOf(arrivals))
    && (!s.failed ==> s.complete == (!s.described && Complete in arrivals))
    && |s.pending| <= MAX_PENDING
  }

  lemma {:induction false} EarlySnoc(arrivals: seq<Arrival>, a: Arrival)
    ensures Early(arrivals + [a])
            == if Description in arrivals || a == Description then Early(arrivals) else arrivals + [a]
    ensures Description !in arrivals ==> Early(arrivals) == arrivals
  {
    if arrivals == [] {
      assert arrivals + [a] == [a];
    } else {
      EarlySnoc(arrivals[1..], a);
      assert (arrivals + [a])[1..] == arrivals[1..] + [a];
      assert [arrivals[0]] + (arrivals[1..] + [a]) == arrivals + [a];
    }
  }

  /** The buffering session and the reference agree on every arrival order, and the buffer is bounded. */
  lemma {:induction false} BufferingIsInvisible(arrivals: seq<Arrival>)
    ensures Faithful(arrivals, Run(arrivals))
  {
    if arrivals != [] {
      var before, a := DropLast(arrivals), Last(arrivals);
      BufferingIsInvisible(before);
      assert arrivals == before + [a];
      EarlySnoc(before, a);
      if Description in before { LateArrival(before, Run(before), a); } else { EarlyArrival(before, Run(before), a); }
    }
  }

  lemma LateArrival(before: seq<Arrival>, s: State, a: Arrival)
    requires Description in before && Faithful(before, s) && Early(before + [a]) == Early(before)
    ensures Faithful(before + [a], Arrive(s, a))
  {
    ExpectedSnoc(before, a);
    if !s.failed {
      assert s.pending == [] && !s.complete;
      assert Arrive(s, a).calls == s.calls + Direct([a]) by {
        assert DropLast([a]) == [];
        assert Adds([]) == [];
      }
    }
  }

  lemma ExpectedSnoc(before: seq<Arrival>, a: Arrival)
    requires Description in before && Early(before + [a]) == Early(before)
    ensures Expected(before + [a]) == Expected(before) + Direct([a])
  {
    var early := Early(before);
    var rest := before[|early|..];
    ExpectedAt(before, early);
    ExpectedAt(before + [a], early);
    assert (before + [a])[|early|..] == rest + [a];
    DirectAfter(Head(early), rest, a);
  }

  lemma ExpectedAt(arrivals: seq<Arrival>, early: seq<Arrival>)
    requires early == Early(arrivals) && |early| < |arrivals|
    ensures Expected(arrivals) == Head(early) + Direct(arrivals[|early|..])
  {
  }

  lemma DirectAfter(head: seq<Call>, rest: seq<Arrival>, a: Arrival)
    ensures head + Direct(rest + [a]) == head + Direct(rest) + Direct([a])
  {
    DirectSnoc(rest, a);
    Regroup(head, Direct(rest), Direct([a]));
  }

  lemma Regroup(a: seq<Call>, b: seq<Call>, c: seq<Call>)
    ensures a + (b + c) == a + b + c
  {
  }

  lemma DirectSnoc(arrivals: seq<Arrival>, a: Arrival)
    ensures Direct(arrivals + [a]) == Direct(arrivals) + Direct([a])
    ensures CandidatesOf(arrivals + [a]) == CandidatesOf(arrivals) + CandidatesOf([a])
  {
    assert DropLast(arrivals + [a]) == arrivals;
    assert DropLast([a]) == [];
  }

  lemma EarlyArrival(before: seq<Arrival>, s: State, a: Arrival)
    requires Description !in before && Faithful(before, s) && Early(before) == before
    requires Early(before + [a]) == if a == Description then before else before + [a]
    ensures Faithful(before + [a], Arrive(s, a))
  {
    if a == Description { FirstDescription(before, s); } else { StillEarly(before, s, a); }
  }

  /** The first description hands on what is buffered. */
  lemma FirstDescription(before: seq<Arrival>, s: State)
    requires Description !in before && Faithful(before, s) && Early(before) == before
    requires Early(before + [Description]) == before
    ensures Faithful(before + [Description], Arrive(s, Description))
  {
    DirectSnoc(before, Description);
    ExpectedAt(before + [Description], before);
    assert (before + [Description])[|before|..] == [Description];
    assert Direct([Description]) == [];
  }

  lemma StillEarly(before: seq<Arrival>, s: State, a: Arrival)
    requires Description !in before && Faithful(before, s) && Early(before) == before
    requires a != Description && Early(before + [a]) == before + [a]
    ensures Faithful(before + [a], Arrive(s, a))
  {
    DirectSnoc(before, a);
    assert (Complete in before + [a]) == (Complete in before || a == Complete);
  }

  // ------------------------------------------------------------- consequences

  function AddsOf(calls: seq<Call>): seq<string>
  {
    if calls == [] then []
    else AddsOf(DropLast(calls)) + if Last(calls).Add? then [Last(calls).c] else []
  }

  /** Every candidate is handed on exactly once, in arrival order; what is not yet handed on is buffered. */
  lemma {:induction false} EachCandidateOnce(arrivals: seq<Arrival>)
    requires !Run(arrivals).failed
    ensures AddsOf(Run(arrivals).calls) + Run(arrivals).pending == CandidatesOf(arrivals)
  {
    if arrivals != [] {
      EachCandidateOnce(DropLast(arrivals));
      DescribedHoldsNothing(DropLast(arrivals));
      OneArrival(Run(DropLast(arrivals)), Last(arrivals));
    }
  }

  lemma {:induction false} DescribedHoldsNothing(arrivals: seq<Arrival>)
    ensures Run(arrivals).described ==> Run(arrivals).pending == []
  {
    if arrivals != [] { DescribedHoldsNothing(DropLast(arrivals)); }
  }

  lemma OneArrival(s: State, a: Arrival)
    requires !Arrive(s, a).failed && (s.described ==> s.pending == [])
    ensures AddsOf(Arrive(s, a).calls) + Arrive(s, a).pending
            == AddsOf(s.calls) + s.pending + if a.Candidate? then [a.c] else []
  {
    match a
    case Candidate(c) => AddsOfConcat(s.calls, [Add(c)]);
    case Complete => AddsOfConcat(s.calls, [EndOfCandidates]);
    case Description =>
      AddsOfConcat(s.calls, Adds(s.pending));
      AddsOfAdds(s.pending);
      AddsOfConcat(s.calls + Adds(s.pending), [EndOfCandidates]);
      assert s.calls + Adds(s.pending) + [] == s.calls + Adds(s.pending);
  }

  lemma {:induction false} AddsOfConcat(a: seq<Call>, b: seq<Call>)
    ensures AddsOf(a + b) == AddsOf(a) + AddsOf(b)
  {
    if b == [] {
      assert a + b == a;
    } else {
      AddsOfConcat(a, DropLast(b));
      assert DropLast(a + b) == a + DropLast(b);
    }
  }

  lemma {:induction false} AddsOfAdds(cs: seq<string>)
    ensures AddsOf(Adds(cs)) == cs
  {
    if cs != [] {
      AddsOfAdds(DropLast(cs));
      assert DropLast(Adds(cs)) == Adds(DropLast(cs));
    }
  }

  /** Nothing reaches the library before a description. */
  lemma NothingBeforeDescription(arrivals: seq<Arrival>)
    requires Description !in arrivals
    ensures Run(arrivals).calls == []
  {
    BufferingIsInvisible(arrivals);
    EarlySnoc(arrivals, Complete);
  }

  // ----------------------------------------------------------------- session

  /** The session's buffer; `calls` is what the library was asked to do. */
  class Buffer {
    var described: bool
    var pending: seq<string>
    var complete: bool
    var failed: bool
    var calls: seq<Call>

    ghost function View(): State
      reads this
    {
      State(described, pending, complete, failed, calls)
    }

    constructor ()
      ensures View() == Init()
    {
      described, pending, complete, failed, calls := false, [], false, false, [];
    }

    method OnCandidate(c: string)
      requires !failed
      modifies this
      ensures View() == Arrive(old(View()), Candidate(c))
      ensures failed == (!described && |old(pending)| >= 256) && described == old(described)
      ensures pending == (if described || failed then old(pending) else old(pending) + [c])
      ensures calls == (if described then old(calls) + [Add(c)] else old(calls)) && complete == old(complete)
    {
      if !described {
        if |pending| >= MAX_PENDING {
          failed := true;
          return;
        }
        pending := pending + [c];
        return;
      }
      calls := calls + [Add(c)];
    }

    method OnComplete()
      requires !failed
      modifies this
      ensures View() == Arrive(old(View()), Complete)
      ensures complete == (old(complete) || !described) && described == old(described)
      ensures calls == (if described then old(calls) + [EndOfCandidates] else old(calls)) && pending == old(pending)
    {
      if !described {
        complete := true;
        return;
      }
      calls := calls + [EndOfCandidates];
    }

    method OnDescription()
      requires !failed
      modifies this
      ensures View() == Arrive(old(View()), Description)
      ensures described && pending == [] && !complete
      ensures calls == old(calls) + Adds(old(pending)) + if old(complete) then [EndOfCandidates] else []
    {
      described := true;
      Flush();
    }

    /** Hand the buffered candidates on, one after another, then the remembered end. */
    method Flush()
      requires described
      modifies `pending, `complete, `calls
      ensures pending == [] && !complete
      ensures calls == old(calls) + Adds(old(pending)) + if old(complete) then [EndOfCandidates] else []
    {
      var i := 0;
      while i < |pending|
        invariant i <= |pending| && pending == old(pending) && complete == old(complete)
        invariant calls == old(calls) + Adds(pending[..i])
      {
        calls := calls + [Add(pending[i])];
        i := i + 1;
        assert Adds(pending[..i]) == Adds(pending[..i - 1]) + [Add(pending[i - 1])];
      }
      assert pending[..i] == pending;
      pending := [];
      if complete {
        complete := false;
        calls := calls + [EndOfCandidates];
      }
    }
  }
}
