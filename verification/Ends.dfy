/**
  The end callback of an attachment over whole runs of one peer record. Every
  stream attaches with an attachment of its own; then no attachment is ever ended
  twice, and an ended one never obtains an entry again.
 */
module Ends {
  import opened Common
  import opened PeerLog

  /** Every attach uses an attachment that no other attach of the run uses. */
  predicate FreshAttachments(ops: seq<PeerOp<nat>>)
  {
    forall i, j :: 0 <= i < j < |ops| && ops[i].OpAttach? && ops[j].OpAttach? ==> ops[i].att != ops[j].att
  }

  /** The attachment whose end callback the operation runs, if any. */
  function EndedBy(p: PeerState<nat>, op: PeerOp<nat>): Option<nat>
  {
    if op.OpAttach? || op.OpShutdown? then p.stream else None
  }

  /** Every end callback along the run, in order. */
  function Ended(c: Config, ops: seq<PeerOp<nat>>): seq<nat>
  {
    if ops == [] then []
    else
      var e := EndedBy(ApplyAll(c, DropLast(ops)), Last(ops));
      Ended(c, DropLast(ops)) + if e.Some? then [e.value] else []
  }

  predicate Attached(ops: seq<PeerOp<nat>>, a: nat)
  {
    exists i :: 0 <= i < |ops| && ops[i].OpAttach? && ops[i].att == a
  }

  lemma {:induction false} EndsOnce(c: Config, ops: seq<PeerOp<nat>>)
    requires FreshAttachments(ops)
    ensures var ended, p := Ended(c, ops), ApplyAll(c, ops);
      && (forall i, j :: 0 <= i < j < |ended| ==> ended[i] != ended[j])
      && (forall a <- ended :: Attached(ops, a) && p.stream != Some(a))
      && (p.stream.Some? ==> Attached(ops, p.stream.value))
  {
    if ops != [] {
      var front, op := DropLast(ops), Last(ops);
      EndsOnce(c, front);
      assert forall a: nat | Attached(front, a) :: Attached(ops, a) by {
        forall a: nat | Attached(front, a) ensures Attached(ops, a) {
          var i :| 0 <= i < |front| && front[i].OpAttach? && front[i].att == a;
          assert ops[i] == front[i];
        }
      }
      if op.OpAttach? {
        assert ops[|ops| - 1] == op;
        assert !Attached(front, op.att);
      }
    }
  }

  /**
    No attachment is abandoned: each is the current one, or has been ended, or its own
    handler has detached it.
   */
  lemma {:induction false} NeverAbandoned(c: Config, ops: seq<PeerOp<nat>>, a: nat)
    requires Attached(ops, a)
    ensures ApplyAll(c, ops).stream == Some(a) || a in Ended(c, ops) || OpDetach(a) in ops
  {
    var front, op := DropLast(ops), Last(ops);
    assert ops == front + [op];
    if !op.OpAttach? || op.att != a {
      var i :| 0 <= i < |ops| && ops[i].OpAttach? && ops[i].att == a;
      assert i < |front| && front[i] == ops[i];
      NeverAbandoned(c, front, a);
    }
  }

  /** However the run goes on, an ended attachment takes nothing. */
  lemma EndedTakesNothing(c: Config, ops: seq<PeerOp<nat>>, more: seq<PeerOp<nat>>, a: nat)
    requires FreshAttachments(ops + more) && a in Ended(c, ops)
    ensures a in Ended(c, ops + more)
    ensures Taken(ApplyAll(c, ops + more), a) == []
  {
    EndedGrows(c, ops, more, a);
    EndsOnce(c, ops + more);
  }

  lemma {:induction false} EndedGrows(c: Config, ops: seq<PeerOp<nat>>, more: seq<PeerOp<nat>>, a: nat)
    requires a in Ended(c, ops)
    ensures a in Ended(c, ops + more)
  {
    if more == [] {
      assert ops + more == ops;
    } else {
      EndedGrows(c, ops, DropLast(more), a);
      assert DropLast(ops + more) == ops + DropLast(more);
    }
  }
}
