/** A stop is applied only after the server denied knowing it and the journal was read again, unchanged. */
module RideGroupStops {
  import opened Wrappers
  import opened RideGroupTypes
  import opened RideGroupMachine
  import opened RideGroupInvariants
  import opened RideGroupSafety

  /** The query became pending at step k. */
  predicate Asked(states: seq<State>, events: seq<Event>, k: nat, q: Query) {
    k < |events| < |states| && QueryStarts(states[k], events[k], states[k + 1])
    && states[k + 1].journal.query == Some(q)
  }

  /** At step n the server answered "not found" to the pending query, and the confirmation probe c was issued. */
  predicate Denied(states: seq<State>, events: seq<Event>, n: nat, q: Query, c: Uuid) {
    && n < |events| < |states| && ConfirmationStarts(states[n], events[n])
    && states[n].journal.query == Some(q) && c in Mints(events[n])
  }

  ghost predicate Askable(states: seq<State>, events: seq<Event>, j: nat, q: Query) {
    exists k :: 0 <= k < j && Asked(states, events, k, q)
  }

  ghost predicate Deniable(states: seq<State>, events: seq<Event>, j: nat, q: Query, c: Uuid) {
    exists k, n :: 0 <= k < n < j && Asked(states, events, k, q) && Denied(states, events, n, q, c)
  }

  lemma {:induction false} QueryHasOrigin(states: seq<State>, events: seq<Event>, j: nat)
    requires ValidRun(states, events) && j < |states| && states[j].journal.query.Some?
    ensures Askable(states, events, j, states[j].journal.query.value)
  {
    hide Step, QueryStarts;
    if j > 0 {
      RunKeeps(states, events, j - 1);
      StepKeeps(states[j - 1], events[j - 1]);
      var q := states[j].journal.query.value;
      if states[j - 1].journal.query == states[j].journal.query {
        QueryHasOrigin(states, events, j - 1);
      } else {
        assert Asked(states, events, j - 1, q);
      }
    }
  }

  /** An outstanding confirmation probe was issued for the query that is still pending. */
  lemma {:induction false} ConfirmationHasOrigin(states: seq<State>, events: seq<Event>, j: nat, c: Uuid)
    requires ValidRun(states, events) && j < |states| && states[j].journal.query.Some?
    requires c in states[j].journal.probes && states[j].journal.probes[c].purpose.ApplyConfirmation?
    ensures Deniable(states, events, j, states[j].journal.query.value, c)
  {
    hide Step, ConfirmationStarts, Asked;
    if j > 0 {
      var s, e, t := states[j - 1], events[j - 1], states[j];
      RunKeeps(states, events, j - 1);
      StepKeeps(s, e);
      var q := t.journal.query.value;
      assert s.journal.query == t.journal.query;
      if c in s.journal.probes && s.journal.probes[c] == t.journal.probes[c] {
        ConfirmationHasOrigin(states, events, j - 1, c);
        var k, n :| 0 <= k < n < j - 1 && Asked(states, events, k, q) && Denied(states, events, n, q, c);
        assert k < n < j;
      } else {
        QueryHasOrigin(states, events, j - 1);
        var k :| 0 <= k < j - 1 && Asked(states, events, k, q);
        assert Denied(states, events, j - 1, q, c);
      }
    }
  }

  lemma Origin(states: seq<State>, events: seq<Event>, j: nat, q: Query, c: Uuid) returns (k: nat, n: nat)
    requires Deniable(states, events, j, q, c)
    ensures k < n < j && Asked(states, events, k, q) && Denied(states, events, n, q, c)
  {
    k, n :| 0 <= k < n < j && Asked(states, events, k, q) && Denied(states, events, n, q, c);
  }

  /** Step j puts an apply-mode stop in the egress map. */
  predicate QueuesApplyStop(states: seq<State>, events: seq<Event>, j: nat) {
    && j < |events| < |states| && HasStop(states[j + 1])
    && states[j + 1].egress.pending[StopKind].content.mode.ApplyMode? && !NoApplyQueued(states[j], states[j + 1])
  }

  /** The snapshot of step k records `operation` as prepared at `revision` under `fence`. */
  predicate ReadsPrepared(states: seq<State>, events: seq<Event>, k: nat, operation: Uuid, revision: int, fence: int) {
    && k < |events| < |states| && Answers(states[k], events[k])
    && var v := events[k].stop;
       v.phase.Prepared? && v.operation == Some(operation) && v.revision == revision
       && v.expected == Some(fence) && v.committed.None?
  }

  /** Step n consumes the server's "not found" for the attempt with this challenge and operation. */
  predicate ServerDenies(states: seq<State>, events: seq<Event>, n: nat, challenge: Uuid, operation: Uuid) {
    && n < |events| < |states| && events[n].EControl? && events[n].control.stopResult == Some(NotFound)
    && AnswersAttempt(states[n], events[n].control, events[n].now)
    && events[n].control.challenge == challenge && events[n].control.stopOperation == Some(operation)
  }

  /**
   * Step j queues an apply-mode stop only if, on the same connection and IPC epoch, an earlier snapshot (step k)
   * showed the operation prepared, the server then denied knowing exactly that query (step n), and the snapshot of
   * step j itself re-reads the identical record through the probe issued by that denial, before the query deadline.
   */
  lemma AppliesOnlyConfirmedStop(states: seq<State>, events: seq<Event>, j: nat)
    returns (k: nat, n: nat, q: Query)
    requires ValidRun(states, events) && QueuesApplyStop(states, events, j)
    ensures k < n < j
    ensures ReadsPrepared(states, events, k, q.operation, q.revision, q.fence)
    ensures ServerDenies(states, events, n, events[k].stop.challenge, q.operation)
    ensures ReadsPrepared(states, events, j, q.operation, q.revision, q.fence)
    ensures events[j].stop.challenge in Mints(events[n]) && events[j].now < q.deadline
    ensures events[k].stop.challenge in states[k].journal.probes
    ensures q.deadline == states[k].journal.probes[events[k].stop.challenge].deadline
    ensures states[j + 1].egress.pending[StopKind].content
            == StopRequest(events[j].stop.challenge, q.operation, Some(q.fence), ApplyMode)
    ensures states[k].journal.epoch == states[j].journal.epoch && states[k].link.nonce == states[j].link.nonce
  {
    hide Step, Receive;
    RunKeeps(states, events, j);
    StepKeeps(states[j], events[j]);
    q := states[j].journal.query.value;
    var c := events[j].stop.challenge;
    ConfirmationHasOrigin(states, events, j, c);
    k, n := Origin(states, events, j, q, c);
    RunKeeps(states, events, k);
    RunKeeps(states, events, n);
    AttemptKeyed(states[n], events[n].control.challenge);
    QueryBound(states[j]);
    ProbeBound(states[k], events[k].stop.challenge);
  }
}
