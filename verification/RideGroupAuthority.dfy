/** Authority only moves forward on a connection, and a lease cannot outlive its challenge. */
module RideGroupAuthority {
  import opened Wrappers
  import opened RideGroupTypes
  import opened RideGroupMachine
  import opened RideGroupInvariants
  import opened RideGroupSafety

  /** No event in [i, j) replaces or drops the connection. */
  ghost predicate OneConnection(states: seq<State>, events: seq<Event>, i: nat, j: nat) {
    && i <= j <= |events| < |states|
    && forall m | i <= m < j :: !Resets(states[m], events[m])
  }

  /** Every grant accepted in (i, j) is for this session. */
  ghost predicate OneSession(states: seq<State>, events: seq<Event>, i: nat, j: nat, session: Option<Uuid>) {
    && i <= j <= |events| < |states|
    && forall m | i < m < j && Grants(states[m], events[m]) :: events[m].control.session == session
  }

  lemma GrantChecks(s: State, e: Event)
    requires Grants(s, e)
    ensures e.EControl? && e.control.challenge in s.authority.challenges && RemainingLease(s, e.control, e.now) > 0
    ensures s.authority.last.Some? && s.authority.last.value.session == e.control.session ==>
              NotOlder(s.authority.last.value, e.control)
    ensures s.authority.cleared.Some? && s.authority.cleared.value.session == e.control.session ==>
              e.control.transportEpoch > s.authority.cleared.value.transportEpoch
    ensures 1 <= e.control.leaseTtlMs <= 10_000
  {
  }

  /** The remembered authority is kept, forgotten with the connection, or replaced by the grant just accepted. */
  lemma HistoryStep(s: State, e: Event)
    requires Inv(s)
    ensures var t := Step(s, e);
      || (t.authority.last == s.authority.last && !Grants(s, e))
      || (Resets(s, e) && t.authority.last.None?)
      || (Grants(s, e) && t.authority.last == Some(e.control))
      || (Revokes(s, e) && t.authority.last == s.authority.last)
  {
    hide Step, Grants, Revokes, Resets, Inv, Advances, StopMoves, PeerMoves, OpensJournal;
    StepKeeps(s, e);
  }

  /** The latest accepted grant of the session is remembered and is no older than the one accepted at step i. */
  lemma {:induction false} LastFollows(states: seq<State>, events: seq<Event>, i: nat, j: nat)
    requires ValidRun(states, events) && i < j && GrantedAt(states, events, i)
    requires OneConnection(states, events, i + 1, j) && OneSession(states, events, i, j, events[i].control.session)
    ensures states[j].authority.last.Some?
    ensures states[j].authority.last.value.session == events[i].control.session
    ensures NotOlder(events[i].control, states[j].authority.last.value)
  {
    hide Step, Grants, Revokes, Resets, Inv;
    RunKeeps(states, events, j - 1);
    HistoryStep(states[j - 1], events[j - 1]);
    if j == i + 1 {
      assert !Resets(states[i], events[i]) by { GrantIsNoReset(states[i], events[i]); }
      GrantIsNoRevocation(states[i], events[i]);
    } else {
      LastFollows(states, events, i, j - 1);
      if Grants(states[j - 1], events[j - 1]) {
        GrantChecks(states[j - 1], events[j - 1]);
        GrantIsNoRevocation(states[j - 1], events[j - 1]);
      }
    }
  }

  lemma GrantIsNoReset(s: State, e: Event)
    requires Grants(s, e)
    ensures !Resets(s, e)
  {
  }

  lemma GrantIsNoRevocation(s: State, e: Event)
    requires Grants(s, e)
    ensures !Revokes(s, e)
  {
  }

  /**
   * On one connection, two accepted grants of a session with no other session granted between them never go back in
   * transport epoch, revision or consent generation, and an equal epoch keeps the stream; lease expiry, clears and
   * fail-closed restarts in between make no difference.
   */
  lemma GrantsNeverGoBack(states: seq<State>, events: seq<Event>, i: nat, j: nat)
    requires ValidRun(states, events) && i < j && GrantedAt(states, events, i) && GrantedAt(states, events, j)
    requires OneConnection(states, events, i + 1, j) && OneSession(states, events, i, j, events[i].control.session)
    requires events[j].control.session == events[i].control.session
    ensures NotOlder(events[i].control, events[j].control)
  {
    LastFollows(states, events, i, j);
    GrantChecks(states[j], events[j]);
  }

  lemma {:induction false} ClearRemembered(states: seq<State>, events: seq<Event>, i: nat, j: nat)
    requires ValidRun(states, events) && i < j <= |events| && Revokes(states[i], events[i])
    requires OneConnection(states, events, i + 1, j)
    requires forall m | i < m < j :: !Grants(states[m], events[m])
    ensures states[j].authority.cleared == Some(events[i].control) && states[j].authority.grant.None?
  {
    hide Step, Grants, Resets;
    RunKeeps(states, events, j - 1);
    StepKeeps(states[j - 1], events[j - 1]);
    if j == i + 1 {
      RevocationIsPlain(states[i], events[i]);
    } else {
      ClearRemembered(states, events, i, j - 1);
    }
  }

  lemma RevocationIsPlain(s: State, e: Event)
    requires Revokes(s, e)
    ensures !Resets(s, e) && !Grants(s, e) && Step(s, e).authority.grant.None?
  {
  }

  /** After a clear revokes a live grant, the next accepted grant of that session has a strictly larger epoch. */
  lemma ClearForcesNewEpoch(states: seq<State>, events: seq<Event>, i: nat, j: nat)
    requires ValidRun(states, events) && i < j && GrantedAt(states, events, j) && Revokes(states[i], events[i])
    requires OneConnection(states, events, i + 1, j) && forall m | i < m < j :: !Grants(states[m], events[m])
    requires events[j].control.session == events[i].control.session
    ensures events[j].control.transportEpoch > events[i].control.transportEpoch
  {
    ClearRemembered(states, events, i, j);
    GrantChecks(states[j], events[j]);
  }

  // ---- Leases ----

  /** Step m accepted the rider activity carrying challenge c. */
  predicate ChallengedAt(states: seq<State>, events: seq<Event>, m: nat, c: Uuid) {
    && m < |events| < |states| && events[m].EActivity? && events[m].activity.challenge == c
    && AcceptsActivity(states[m], events[m].activity, events[m].now)
  }

  lemma {:induction false} ChallengeOrigin(states: seq<State>, events: seq<Event>, j: nat, c: Uuid) returns (m: nat)
    requires ValidRun(states, events) && j < |states| && c in states[j].authority.challenges
    ensures m < j && ChallengedAt(states, events, m, c) && events[m].now == states[j].authority.challenges[c]
    decreases j
  {
    hide Step, Grants, Revokes, Resets, AcceptsActivity;
    assert j > 0;
    RunKeeps(states, events, j - 1);
    StepKeeps(states[j - 1], events[j - 1]);
    var before := states[j - 1].authority.challenges;
    if c in before && before[c] == states[j].authority.challenges[c] {
      m := ChallengeOrigin(states, events, j - 1, c);
    } else {
      m := j - 1;
    }
  }

  /** The lease of state j was started by the grant of step k, answering the challenge accepted at step m. */
  predicate LeaseFrom(states: seq<State>, events: seq<Event>, j: nat, m: nat, k: nat) {
    && m < k < j < |states| && GrantedAt(states, events, k)
    && ChallengedAt(states, events, m, events[k].control.challenge)
    && states[j].authority.grant == Some(events[k].control) && states[j].authority.grantAt == Some(events[k].later)
    && states[j].authority.grantTtl
       == events[k].control.leaseTtlMs * MILLISECOND - (events[k].now - events[m].now)
  }

  lemma {:induction false} LeaseOrigin(states: seq<State>, events: seq<Event>, j: nat) returns (m: nat, k: nat)
    requires ValidRun(states, events) && j < |states| && states[j].authority.grant.Some?
    ensures LeaseFrom(states, events, j, m, k)
    decreases j
  {
    hide Step, Grants, Revokes, Resets;
    assert j > 0;
    var s, e := states[j - 1], events[j - 1];
    RunKeeps(states, events, j - 1);
    StepKeeps(s, e);
    if LeaseKept(s, states[j]) {
      m, k := LeaseOrigin(states, events, j - 1);
    } else {
      k := j - 1;
      GrantChecks(s, e);
      m := ChallengeOrigin(states, events, k, e.control.challenge);
    }
  }

  /** When the adapter's own lease ends. */
  function LeaseEnd(s: State): Nanos
    requires s.authority.grantAt.Some?
  {
    s.authority.grantAt.value + s.authority.grantTtl
  }

  /**
   * However often grants are replayed, the lease in force ends at challenge acceptance plus the server's TTL plus
   * the time that passed between the two clock readings of the accepting handler.
   */
  lemma LeaseEndsWithChallenge(states: seq<State>, events: seq<Event>, j: nat) returns (m: nat, k: nat)
    requires ValidRun(states, events) && j < |states| && states[j].authority.grant.Some?
    ensures LeaseFrom(states, events, j, m, k)
    ensures var promised := events[m].now + events[k].control.leaseTtlMs * MILLISECOND;
      && LeaseEnd(states[j]) == promised + (events[k].later - events[k].now)
      && promised <= events[m].now + 10 * SECOND
      && (LeaseEnd(states[j]) <= promised <==> events[k].later <= events[k].now)
  {
    m, k := LeaseOrigin(states, events, j);
    GrantChecks(states[k], events[k]);
  }

  /** The Redis worker sends grant v at step j. */
  predicate ForwardsGrant(states: seq<State>, events: seq<Event>, j: nat, v: Control) {
    && j < |events| < |states| && events[j].ERedisSend? && (v.action.Grant? || v.action.Renew?)
    && Forwarded(states[j], events[j].now) == Some(ControlMessage(v))
  }

  /**
   * A grant forwarded over Redis, after any queue delay, is the grant the adapter itself holds, and its TTL (in whole
   * milliseconds) ends no later than the adapter's own lease.
   */
  lemma ForwardedGrantWithinLease(states: seq<State>, events: seq<Event>, j: nat, v: Control)
    requires ForwardsGrant(states, events, j, v)
    ensures states[j].authority.grant.Some? && states[j].authority.grantAt.Some?
    ensures 1 <= v.leaseTtlMs && events[j].now + v.leaseTtlMs * MILLISECOND <= LeaseEnd(states[j])
    ensures var g := states[j].authority.grant.value;
      && v.session == g.session && v.member == g.member && v.stream == g.stream && v.revision == g.revision
      && v.transportEpoch == g.transportEpoch && v.consent == g.consent
  {
    var s, now := states[j], events[j].now;
    var entry := s.outbox.inHand.value;
    var c := entry.message.control;
    var queued := c.leaseTtlMs * MILLISECOND - (now - entry.queuedAt);
    var ttl := if queued < LeaseLeft(s, now) then queued else LeaseLeft(s, now);
    assert TruncateToMillis(ttl) * MILLISECOND <= ttl;
  }
}
