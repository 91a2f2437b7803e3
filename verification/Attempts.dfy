/**
  What one attempt may have logged and taken at each program point, and why every way an attempt can
  end lies in the language the completeness check accepts
  (crates/aeon_agent_runtime/src/supervisor.rs:225-398, crates/aeon_agent_runtime/src/store.rs:432-473).
 */
module Attempts {
  import opened MissionStore
  import opened Protocol
  import opened ControlFlow

  // ---------------------------------------------------------------- the shape of a task

  predicate Flags(k: Task, m: nat) {
    && (k.stepTaken <==> m >= 1)
    && (k.attempt.Some? <==> m >= 2)
    && (k.actionTaken <==> m >= 3)
    && (k.record.Some? <==> m >= 4)
    && (k.spent <==> m >= 5)
  }

  /** Milestones are passed in order. */
  predicate Ordered(k: Task) {
    && (k.ran ==> k.spent && |k.log| >= 6)
    && (k.spent ==> k.record.Some? && |k.log| >= 4)
    && (k.record.Some? ==> k.actionTaken)
    && (k.actionTaken ==> k.attempt.Some?)
    && (k.attempt.Some? ==> k.stepTaken)
    && (k.log != [] ==> k.attempt.Some?)
    && (AuthorizationConsumed in k.log ==> k.spent)
  }

  predicate OnSpine(log: seq<Kind>) {
    log <= SPINE
  }

  predicate Shape(k: Task) {
    && Ordered(k)
    && match k.pc
       case Closing(kind) => OnSpine(k.log) && Closes(|k.log|, kind) && k.attempt.Some?
       case Done => Accepted(k.log) || OnSpine(k.log)
       case _ => Flags(k, Milestone(k.pc)) && !k.ran && k.log == SPINE[..Lines(k.pc)]
  }

  lemma ClosedIsAccepted(log: seq<Kind>, kind: Kind)
    requires OnSpine(log) && Closes(|log|, kind)
    ensures Accepted(log + [kind]) && !kind.AuthorizationConsumed?
  {
    assert forall i :: 0 <= i < |log| ==> log[i] == SPINE[i];
  }

  /** Nothing on the spine, and so no unfinished attempt, is accepted. */
  lemma SpineIsUnfinished(log: seq<Kind>)
    requires OnSpine(log)
    ensures !Accepted(log)
  {
    assert forall i :: 0 <= i < |log| ==> log[i] == SPINE[i];
  }

  /** The events an attempt may end with after `n` spine events, final results included. */
  predicate MayEnd(n: nat, kind: Kind) {
    Closes(n, kind) || (n == 1 && kind == FinalProduced)
  }

  /** The checker accepts exactly the ways an attempt can end, and one more that no attempt takes: a failed
      execution straight after an authorization was issued. */
  lemma AcceptedExact(h: seq<Kind>)
    ensures Accepted(h) <==>
            && h != [] && OnSpine(h[..|h| - 1])
            && (MayEnd(|h| - 1, h[|h| - 1]) || (|h| == 5 && h[4].ExecutionFailed?))
  {
    var n := |h| - 1;
    if h != [] && OnSpine(h[..n]) {
      assert forall i :: 0 <= i < n ==> h[i] == h[..n][i] == SPINE[i];
    }
    if Accepted(h) {
      assert forall i :: 0 <= i < n ==> h[i] == SPINE[i];
      assert h[..n] == SPINE[..n];
    }
  }

  // ---------------------------------------------------------------- every move keeps the shape

  lemma SpineGrows(n: nat)
    requires n < |SPINE|
    ensures SPINE[..n] + [SPINE[n]] == SPINE[..n + 1]
    ensures AuthorizationConsumed in SPINE[..n + 1] <==> n >= 4
  {
    assert SPINE[4] == AuthorizationConsumed;
    if n >= 4 { assert SPINE[..n + 1][4] == AuthorizationConsumed; }
  }

  lemma ShapeStays(k: Task, o: Outcome, draw: AttemptId, slot: nat)
    requires Shape(k) && Edge(k.pc, o) && !Ended(k.pc) && !Ended(o.pc)
    ensures Shape(After(k, o, draw, slot))
  {
    if Writes(o.act) { SpineGrows(Lines(k.pc)); }
  }

  lemma ShapeEnds(k: Task, o: Outcome, draw: AttemptId, slot: nat)
    requires Shape(k) && Edge(k.pc, o) && !Ended(k.pc) && Ended(o.pc)
    ensures Shape(After(k, o, draw, slot))
  {
    assert OnSpine(k.log) && |k.log| == Lines(k.pc);
  }

  lemma ShapeCloses(k: Task, o: Outcome, draw: AttemptId, slot: nat)
    requires Shape(k) && Edge(k.pc, o) && Ended(k.pc)
    ensures Shape(After(k, o, draw, slot))
  {
    if k.pc.Closing? { ClosedIsAccepted(k.log, k.pc.kind); }
  }

  lemma ShapeKept(k: Task, o: Outcome, draw: AttemptId, slot: nat)
    requires Shape(k) && Edge(k.pc, o)
    ensures Shape(After(k, o, draw, slot))
  {
    if Ended(k.pc) { ShapeCloses(k, o, draw, slot); }
    else if Ended(o.pc) { ShapeEnds(k, o, draw, slot); }
    else { ShapeStays(k, o, draw, slot); }
  }
}
