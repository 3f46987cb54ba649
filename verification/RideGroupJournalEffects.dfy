/** What the journal handlers leave behind: probes, stop requests and their answers, field by field. */
module RideGroupJournalEffects {
  import opened Wrappers
  import opened RideGroupTypes
  import opened RideGroupMachine
  import opened RideGroupEffects

  // ---- The Redis queue ----

  /** The queue, without its oldest entry if it was full, gains one entry. */
  function Push(o: Outbox, entry: RedisPublication): Outbox {
    o.(queue := (if |o.queue| < 8 then o.queue else o.queue[1..]) + [entry])
  }

  predicate Gains(s: State, t: State, entry: RedisPublication) { t.outbox == Push(s.outbox, entry) }

  function Until(span: Nanos, now: Nanos): Option<Nanos> { if span > 0 then Some(now + span) else None }

  // ---- Probes ----

  predicate Dead(s: State, p: Probe, now: Nanos) {
    now > p.deadline || Some(p.connection) != s.link.nonce || p.epoch != s.journal.epoch
  }

  function CountSince(times: seq<Nanos>, cutoff: Nanos): nat {
    if times == [] then 0
    else CountSince(times[..|times| - 1], cutoff) + if times[|times| - 1] >= cutoff then 1 else 0
  }

  /** A probe may go out: ready, connected, none alive, and fewer than ten in the last ten seconds. */
  predicate MayProbe(s: State, now: Nanos) {
    && s.journal.settingsReady && s.link.client.Some? && s.link.up && s.link.nonce.Some?
    && (forall c | c in s.journal.probes :: Dead(s, s.journal.probes[c], now))
    && CountSince(s.journal.probeTimes, now - 10 * SECOND) < 10
  }

  /** The one outstanding probe was issued now for this connection and epoch, and for the query it confirms. */
  predicate OnlyProbe(s: State, purpose: Purpose, query: Option<Query>, challenge: Uuid, now: Nanos) {
    && s.journal.probes.Keys == {challenge}
    && var probe := s.journal.probes[challenge];
       && probe.challenge == challenge && probe.purpose == purpose
       && Some(probe.connection) == s.link.nonce && probe.epoch == s.journal.epoch && probe.issuedAt == now
       && match query
          case None => probe.operation.None? && probe.deadline == now + 10 * SECOND
          case Some(q) =>
            && probe.deadline == (if q.deadline < now + 10 * SECOND then q.deadline else now + 10 * SECOND)
            && probe.operation == Some(q.operation) && probe.revision == q.revision && probe.fence == Some(q.fence)
  }

  /** Apart from probes, their times and the Redis queue, nothing changes. */
  predicate OnlyProbing(s: State, t: State) {
    t == s.(journal := s.journal.(probes := t.journal.probes, probeTimes := t.journal.probeTimes), outbox := t.outbox)
  }

  predicate ProbeEffect(s: State, t: State, purpose: Purpose, query: Option<Query>, mint: Option<Uuid>, now: Nanos,
                        issued: bool) {
    && OnlyProbing(s, t) && (issued <==> MayProbe(s, now) && mint.Some?)
    && if issued then
         && OnlyProbe(t, purpose, query, mint.value, now)
         && Gains(s, t, RedisPublication(ProbeMessage(mint.value), Some(now + 10 * SECOND), now))
       else
         && t.outbox == s.outbox && t.journal.probes.Keys <= s.journal.probes.Keys
         && forall c | c in s.journal.probes && !Dead(s, s.journal.probes[c], now) ::
              c in t.journal.probes && t.journal.probes[c] == s.journal.probes[c]
  }

  lemma {:induction false} RecentCounts(times: seq<Nanos>, cutoff: Nanos)
    ensures |Recent(times, cutoff)| == CountSince(times, cutoff)
  {
    if times != [] {
      RecentCounts(times[..|times| - 1], cutoff);
      RecentLast(times[..|times| - 1], times[|times| - 1], cutoff);
      assert times == times[..|times| - 1] + [times[|times| - 1]];
    }
  }

  lemma {:induction false} RecentLast(times: seq<Nanos>, last: Nanos, cutoff: Nanos)
    ensures Recent(times + [last], cutoff) == Recent(times, cutoff) + if last >= cutoff then [last] else []
  {
    if times == [] {
      assert times + [last] == [last] && [last][1..] == [];
    } else {
      var all := times + [last];
      var head := if times[0] >= cutoff then [times[0]] else [];
      assert all[0] == times[0] && all[1..] == times[1..] + [last];
      RecentLast(times[1..], last, cutoff);
      assert Recent(all, cutoff) == head + Recent(all[1..], cutoff);
    }
  }

  lemma NoneAlive(s: State, now: Nanos)
    ensures |LiveProbes(s, now)| == 0 <==> forall c | c in s.journal.probes :: Dead(s, s.journal.probes[c], now)
    ensures forall c | c in s.journal.probes :: c in LiveProbes(s, now) <==> !Dead(s, s.journal.probes[c], now)
  {
    var live := LiveProbes(s, now);
    assert forall c | c in s.journal.probes :: c in live <==> !Dead(s, s.journal.probes[c], now);
    if |live| == 0 { assert live.Keys == {}; }
    if c :| c in live { assert c in live.Keys; } else { assert live == map[]; }
  }

  lemma AdmitDoes(s: State, now: Nanos)
    ensures var (t, admitted) := AdmitProbe(s, now);
      && OnlyProbing(s, t) && t.outbox == s.outbox && (CanProbe(s) && admitted <==> MayProbe(s, now))
      && t.journal.probes.Keys <= s.journal.probes.Keys && (admitted ==> |t.journal.probes| == 0)
      && (forall c | c in s.journal.probes && !Dead(s, s.journal.probes[c], now) ::
            c in t.journal.probes && t.journal.probes[c] == s.journal.probes[c])
  {
    hide Recent, CountSince, LiveProbes;
    RecentCounts(s.journal.probeTimes, now - ATTEMPT_LIFETIME);
    NoneAlive(s, now);
    PurgedProbes(s, now);
  }

  lemma ProbeDoes(s: State, purpose: Purpose, query: Option<Query>, mint: Option<Uuid>, now: Nanos)
    ensures var (t, issued) := IssueProbe(s, purpose, query, mint, now);
      ProbeEffect(s, t, purpose, query, mint, now, issued)
  {
    hide AdmitProbe, MayProbe, Dead, RecordProbe, NewProbe, OnlyProbe, Gains;
    AdmitDoes(s, now);
    if CanProbe(s) && AdmitProbe(s, now).1 && mint.Some? {
      RecordDoes(s, AdmitProbe(s, now).0, purpose, query, mint.value, now);
    }
  }

  lemma PurgedProbes(s: State, now: Nanos)
    ensures LiveProbes(s, now).Keys <= s.journal.probes.Keys
    ensures forall c | c in LiveProbes(s, now) :: LiveProbes(s, now)[c] == s.journal.probes[c]
  {
  }

  lemma RecordDoes(s: State, admitted: State, purpose: Purpose, query: Option<Query>, challenge: Uuid, now: Nanos)
    requires OnlyProbing(s, admitted) && admitted.outbox == s.outbox && s.link.nonce.Some?
    requires |admitted.journal.probes| == 0
    ensures var t := RecordProbe(admitted, challenge, NewProbe(admitted, purpose, query, challenge, now), now);
      && OnlyProbing(s, t) && OnlyProbe(t, purpose, query, challenge, now)
      && Gains(s, t, RedisPublication(ProbeMessage(challenge), Some(now + 10 * SECOND), now))
  {
    assert admitted.journal.probes == map[];
  }

  // ---- Stop requests ----

  /** The record still names the operation at this revision. */
  predicate Names(s: State, operation: Uuid, revision: int) {
    && s.journal.stop.Some? && s.journal.stop.value.operation == Some(operation)
    && s.journal.stop.value.revision == revision
  }

  predicate MayAsk(s: State, operation: Uuid, revision: int, expected: Option<int>, mode: StopMode, now: Nanos) {
    && s.link.client.Some? && s.link.up && s.link.nonce.Some? && Names(s, operation, revision) && s.journal.epoch != 0
    && (mode == ApplyMode ==>
          && s.journal.stop.value.phase == Prepared && s.journal.stop.value.committed.None?
          && expected.Some? && s.journal.stop.value.expected == expected)
    && (forall c | c in s.journal.attempts :: s.journal.attempts[c].consumed || s.journal.attempts[c].deadline <= now)
    && |s.journal.attempts| < 10
  }

  function Sooner(a: Nanos, b: Nanos): Nanos { if a < b then a else b }

  /** The request is queued until its deadline, at most ten seconds away, and recorded as the live attempt. */
  predicate AskQueued(s: State, t: State, operation: Uuid, revision: int, expected: Option<int>, challenge: Uuid,
                      mode: StopMode, deadline: Nanos, now: Nanos)
    requires s.link.nonce.Some?
  {
    var limit := Sooner(deadline, now + 10 * SECOND);
    && t.journal.attempts == s.journal.attempts[challenge := Attempt(
         operation, revision, challenge, s.link.nonce.value, now, mode, expected, limit, s.journal.epoch, false)]
    && t.egress.order == s.egress.order + 1
    && t.egress.pending == s.egress.pending[StopKind := Publication(
         s.link.client, s.link.nonce, t.egress.order, limit, StopRequest(challenge, operation, expected, mode))]
  }

  predicate AskEffect(s: State, t: State, operation: Uuid, revision: int, expected: Option<int>, challenge: Uuid,
                      mode: StopMode, deadline: Nanos, now: Nanos, sent: bool)
  {
    && (sent <==> MayAsk(s, operation, revision, expected, mode, now))
    && t == s.(journal := s.journal.(attempts := t.journal.attempts),
               egress := s.egress.(order := t.egress.order, pending := t.egress.pending))
    && if sent then AskQueued(s, t, operation, revision, expected, challenge, mode, deadline, now) else t == s
  }

  lemma AskDoes(s: State, operation: Uuid, revision: int, expected: Option<int>, challenge: Uuid, mode: StopMode,
                deadline: Nanos, now: Nanos)
    ensures var (t, sent) := SendStop(s, operation, revision, expected, challenge, mode, deadline, now);
      AskEffect(s, t, operation, revision, expected, challenge, mode, deadline, now, sent)
  {
  }

  // ---- Answers to stop requests ----

  /** The control answers a live attempt of this connection and epoch. */
  predicate AnswersLive(s: State, c: Control, now: Nanos) {
    && c.challenge in s.journal.attempts && c.stopResult.Some?
    && var a := s.journal.attempts[c.challenge];
       && !a.consumed && now <= a.deadline && a.epoch == s.journal.epoch && Some(a.connection) == s.link.nonce
       && c.connection == a.connection && c.stopOperation == Some(a.operation)
  }

  /** The record has moved on since the attempt, or the server committed another generation than the fence. */
  predicate MovedOn(s: State, c: Control, a: Attempt) {
    || !Names(s, a.operation, a.revision)
    || (a.mode == ApplyMode
        && (s.journal.stop.value.phase != Prepared || s.journal.stop.value.expected != a.fence))
    || (c.stopResult == Some(Committed) && a.fence.Some? && c.stopExpected != a.fence)
  }

  /** The verdict as the journal hears it. */
  function Heard(c: Control, a: Attempt): StopOutcome
    requires c.stopResult.Some?
  {
    StopOutcome(a.operation, a.revision, a.challenge, Some(a.connection), Outcome(c.stopResult.value), c.stopExpected,
                match c.stopResult.value
                case Committed => Some(c.consent)
                case Superseded => Some(c.consent)
                case Unconfirmed => Some(c.consent)
                case NotFound => None
                case Expired => None
                case Failed => None)
  }

  /** The query this attempt asked is still pending, unchanged, and in time. */
  predicate QueryPending(s: State, a: Attempt, now: Nanos) {
    && s.journal.query.Some?
    && var q := s.journal.query.value;
       && q.operation == a.operation && q.revision == a.revision && Some(q.fence) == a.fence
       && Some(q.connection) == s.link.nonce && q.epoch == s.journal.epoch && q.challenge == a.challenge
       && q.deadline == a.deadline && now < q.deadline
       && Names(s, q.operation, q.revision) && s.journal.stop.value.phase == Prepared
       && s.journal.stop.value.expected == Some(q.fence)
  }

  /** Inhibited: nothing learned so far can open sharing again. */
  predicate Shut(s: State, t: State) {
    && !t.journal.ready && t.journal.stopBlocked && t.journal.epoch == s.journal.epoch + 1
    && t.journal.probes == map[] && t.journal.attempts == map[] && t.journal.used == map[]
    && t.journal.query.None? && t.journal.permit.None?
    && t.authority.grant.None? && !t.authority.grantActive && t.authority.activity.None?
    && t.authority.challenges == map[] && t.source.generation == s.source.generation + 1
    && t.egress.pending == s.egress.pending - {PositionKind, SourceKind}
    && t.outbox == s.outbox && t.link == s.link && t.peers == s.peers
    && t.journal.stop == s.journal.stop && t.journal.settingsReady == s.journal.settingsReady
    && t.journal.blocked == s.journal.blocked && t.journal.probeTimes == s.journal.probeTimes
  }

  lemma InhibitDoes(s: State)
    ensures Shut(s, Inhibit(s))
  {
  }

  /** The answer to a query that nobody knows the stop: the record has to be read again before applying it. */
  predicate MustConfirm(s: State, c: Control, a: Attempt, now: Nanos) {
    a.mode == QueryMode && c.stopResult == Some(NotFound) && QueryPending(s, a, now)
  }

  /** A live answer uses up its attempt, and the journal hears its verdict until the attempt's deadline. */
  predicate Told(s: State, t: State, c: Control, mint: Option<Uuid>, now: Nanos)
    requires c.challenge in s.journal.attempts && c.stopResult.Some?
  {
    var a := s.journal.attempts[c.challenge];
    var told := Push(s.outbox, RedisPublication(OutcomeMessage(Heard(c, a)), Until(a.deadline - now, now), now));
    var asks := MustConfirm(s, c, a, now);
    var probes := asks && MayProbe(s, now) && mint.Some?;
    && t.journal.attempts == s.journal.attempts[c.challenge := a.(consumed := true)]
    && t.outbox == (if probes then Push(told, RedisPublication(ProbeMessage(mint.value), Some(now + 10 * SECOND), now))
                    else told)
    && (probes ==> OnlyProbe(t, ApplyConfirmation, s.journal.query, mint.value, now))
    && (!asks ==> t.journal.probes == s.journal.probes)
    && t.journal.query == (if (asks && !probes) || a.mode == ApplyMode then None else s.journal.query)
    && t == s.(journal := s.journal.(attempts := t.journal.attempts, query := t.journal.query,
                                     probes := t.journal.probes, probeTimes := t.journal.probeTimes),
               outbox := t.outbox)
  }

  /**
   * Everything a stop answer does.  not_found to a pending query asks for a re-read of the record and keeps the query
   * only if that goes out; an answer to an apply ends the query; a record that has moved on inhibits the journal.
   */
  predicate AnswerEffect(s: State, t: State, c: Control, mint: Option<Uuid>, now: Nanos) {
    if !AnswersLive(s, c, now) then t == s
    else if MovedOn(s, c, s.journal.attempts[c.challenge]) then Shut(s, t)
    else Told(s, t, c, mint, now)
  }

  lemma SameTests(s: State, c: Control, now: Nanos)
    requires c.stopResult.Some?
    ensures AnswersAttempt(s, c, now) == AnswersLive(s, c, now)
    ensures c.challenge in s.journal.attempts ==>
              Contradicts(s, c, s.journal.attempts[c.challenge]) == MovedOn(s, c, s.journal.attempts[c.challenge])
  {
  }

  lemma ReportDoes(s: State, c: Control, a: Attempt, now: Nanos)
    requires c.challenge in s.journal.attempts && c.stopResult.Some?
    ensures var t := ReportStop(s, c, a, now);
      && Gains(s, t, RedisPublication(OutcomeMessage(Heard(c, a)), Until(a.deadline - now, now), now))
      && t == s.(journal := s.journal.(attempts := s.journal.attempts[c.challenge := a.(consumed := true)]),
                 outbox := t.outbox)
      && QueryMatches(t, a, now) == QueryPending(s, a, now) && MayProbe(t, now) == MayProbe(s, now)
  {
    hide CountSince;
  }

  lemma AnswerDoes(s: State, c: Control, mint: Option<Uuid>, now: Nanos)
    requires c.stopResult.Some?
    ensures AnswerEffect(s, HandleStopStatus(s, c, mint, now), c, mint, now)
  {
    hide IssueProbe, Shut, Inhibit, OnlyProbe, AnswersAttempt, AnswersLive, Contradicts, MovedOn, ReportStop, Push,
         QueryMatches, QueryPending, MayProbe, Heard;
    SameTests(s, c, now);
    if c.challenge in s.journal.attempts {
      var a := s.journal.attempts[c.challenge];
      InhibitDoes(s);
      ReportDoes(s, c, a, now);
      var told := ReportStop(s, c, a, now);
      ProbeDoes(told, ApplyConfirmation, told.journal.query, mint, now);
    } else {
      NoAttempt(s, c, now);
    }
  }

  lemma NoAttempt(s: State, c: Control, now: Nanos)
    requires c.challenge !in s.journal.attempts
    ensures !AnswersAttempt(s, c, now) && !AnswersLive(s, c, now)
  {
  }

  // ---- Snapshots of the journal ----

  /** The snapshot answers an outstanding probe of this connection and epoch in time. */
  predicate Solicited(s: State, v: LocalStop, now: Nanos) {
    && v.challenge in s.journal.probes && s.link.client.Some? && s.link.up
    && var p := s.journal.probes[v.challenge];
       p.issuedAt <= now <= p.deadline && Some(p.connection) == s.link.nonce && p.epoch == s.journal.epoch
  }

  /** The snapshot does not go back: a later revision, or the same record. */
  predicate Follows(s: State, v: LocalStop) {
    match s.journal.stop
    case None => true
    case Some(p) =>
      || v.revision > p.revision
      || (v.revision == p.revision && v.operation == p.operation && v.phase == p.phase && v.blocked == p.blocked
          && v.expected == p.expected && v.committed == p.committed)
  }

  predicate StopsSharing(v: LocalStop) { v.blocked || v.phase != Idle }

  /** The snapshot is the record now; anything but an idle, unblocked one also ends the grant. */
  predicate Adopted(s: State, t: State, v: LocalStop, victim: Uuid) {
    && t.journal.stop == Some(v) && t.journal.stopBlocked == v.blocked && t.journal.ready == !StopsSharing(v)
    && t.journal.probes == s.journal.probes - {v.challenge}
    && t.journal.used == (if |s.journal.used[v.challenge := v]| > 10 then s.journal.used[v.challenge := v] - {victim}
                          else s.journal.used[v.challenge := v])
    && t.journal == s.journal.(stop := t.journal.stop, stopBlocked := t.journal.stopBlocked, ready := t.journal.ready,
                               probes := t.journal.probes, used := t.journal.used)
    && t.link == s.link && t.peers == s.peers && t.outbox == s.outbox
    && if StopsSharing(v) then
         && t.authority == s.authority.(grant := None, grantActive := false, grantAt := None, grantTtl := 0)
         && t.source == s.source.(generation := s.source.generation + 1, lastPositionAt := None)
         && t.egress == s.egress.(pending := s.egress.pending - {PositionKind, SourceKind})
       else t.authority == s.authority && t.source == s.source && t.egress == s.egress
  }

  lemma AdoptDoes(s: State, v: LocalStop, victim: Uuid)
    ensures Adopted(s, Adopt(s, v, victim), v, victim)
  {
  }

  /** The prepared record and its pending query are unchanged and in time, so the stop may be applied. */
  predicate MayApply(s: State, v: LocalStop, probe: Probe, now: Nanos) {
    && s.journal.query.Some? && v.operation.Some? && v.phase == Prepared && v.committed.None?
    && Some(probe.connection) == s.link.nonce && probe.epoch == s.journal.epoch && now < probe.deadline
    && var q := s.journal.query.value;
       && v.operation == Some(q.operation) && v.revision == q.revision && v.expected == Some(q.fence)
       && now < q.deadline && Some(q.connection) == s.link.nonce && q.epoch == s.journal.epoch
  }

  predicate ApplyEffect(s: State, t: State, v: LocalStop, probe: Probe, now: Nanos) {
    if !MayApply(s, v, probe, now) then t == s.(journal := s.journal.(query := None))
    else
      var q := s.journal.query.value;
      var sent := MayAsk(s, q.operation, q.revision, Some(q.fence), ApplyMode, now);
      && t.journal.query == (if sent then None else s.journal.query)
      && AskEffect(s, t.(journal := t.journal.(query := s.journal.query)), q.operation, q.revision, Some(q.fence),
                   probe.challenge, ApplyMode, q.deadline, now, sent)
  }

  lemma ApplyDoes(s: State, v: LocalStop, probe: Probe, now: Nanos)
    ensures ApplyEffect(s, FinalizeApply(s, v, probe, now), v, probe, now)
  {
    hide SendStop, MayAsk, AskEffect;
    if MayApply(s, v, probe, now) {
      var q := s.journal.query.value;
      AskDoes(s, q.operation, q.revision, Some(q.fence), probe.challenge, ApplyMode, q.deadline, now);
      AskSays(s, q.operation, q.revision, Some(q.fence), probe.challenge, ApplyMode, q.deadline, now);
    }
  }

  /** Sending leaves the query alone. */
  lemma AskSays(s: State, operation: Uuid, revision: int, expected: Option<int>, challenge: Uuid, mode: StopMode,
                deadline: Nanos, now: Nanos)
    ensures var (t, sent) := SendStop(s, operation, revision, expected, challenge, mode, deadline, now);
      && sent == MayAsk(s, operation, revision, expected, mode, now)
      && t.(journal := t.journal.(query := s.journal.query)) == t && t.journal.query == s.journal.query
  {
  }

  /** What an accepted record calls for, once it is adopted. */
  predicate FollowEffect(s: State, t: State, v: LocalStop, probe: Probe, now: Nanos) {
    if probe.purpose == ApplyConfirmation then ApplyEffect(s, t, v, probe, now)
    else match v.phase
      case Idle =>
        if !v.blocked && s.authority.activity.Some? && s.journal.ready && !s.journal.blocked && !s.journal.stopBlocked
        then ActivityEffect(s, t, s.authority.activity.value, now) else t == s
      case Preparing =>
        if v.operation.Some? && v.expected.None? && v.committed.None? then
          var permit := Probe(v.challenge, probe.connection, probe.issuedAt, probe.deadline, OfferPermit, v.operation,
                              v.revision, None, probe.epoch);
          HelloEffect(s.(journal := s.journal.(permit := Some(permit))), t, Some(v.challenge), now)
        else t == s
      case Prepared =>
        if v.operation.Some? && v.expected.Some? && v.committed.None? then
          var query := Query(v.operation.value, v.revision, v.expected.value, probe.connection, s.journal.epoch,
                             probe.deadline, v.challenge);
          QueryEffect(s.(journal := s.journal.(query := Some(query))), t, v, probe, now)
        else t == s
      case Confirmed => t == s
      case Uncertain => if v.operation.Some? then QueryEffect(s, t, v, probe, now) else t == s
  }

  /** The server is asked about the stop, for as long as the probe that brought the record lives. */
  predicate QueryEffect(s: State, t: State, v: LocalStop, probe: Probe, now: Nanos)
    requires v.operation.Some?
  {
    AskEffect(s, t, v.operation.value, v.revision, v.expected, v.challenge, QueryMode, probe.deadline, now,
              MayAsk(s, v.operation.value, v.revision, v.expected, QueryMode, now))
  }

  lemma QueryDoes(s: State, v: LocalStop, probe: Probe, now: Nanos)
    requires v.operation.Some?
    ensures var (t, _) := SendStop(s, v.operation.value, v.revision, v.expected, v.challenge, QueryMode, probe.deadline,
                                   now);
      QueryEffect(s, t, v, probe, now)
  {
    hide SendStop, MayAsk, AskEffect;
    AskDoes(s, v.operation.value, v.revision, v.expected, v.challenge, QueryMode, probe.deadline, now);
    AskSays(s, v.operation.value, v.revision, v.expected, v.challenge, QueryMode, probe.deadline, now);
  }

  lemma FollowDoes(s: State, v: LocalStop, probe: Probe, now: Nanos)
    ensures FollowEffect(s, FollowUp(s, v, probe, now), v, probe, now)
  {
    hide SendStop, QueryEffect, ApplyEffect, FinalizeApply, HelloEffect, ActivityEffect, PublishHello, PublishActivity;
    ApplyDoes(s, v, probe, now);
    if s.authority.activity.Some? { GreetingsDo(s, None, s.authority.activity.value, now); }
    if v.operation.Some? {
      QueryDoes(s, v, probe, now);
      if v.phase == Prepared && v.expected.Some? {
        var query := Query(v.operation.value, v.revision, v.expected.value, probe.connection, s.journal.epoch,
                           probe.deadline, v.challenge);
        QueryDoes(s.(journal := s.journal.(query := Some(query))), v, probe, now);
      }
      if v.phase == Preparing {
        var permit := Probe(v.challenge, probe.connection, probe.issuedAt, probe.deadline, OfferPermit, v.operation,
                            v.revision, None, probe.epoch);
        HelloDoes(s.(journal := s.journal.(permit := Some(permit))), Some(v.challenge), now);
      }
    }
  }

  lemma HelloDoes(s: State, challenge: Option<Uuid>, now: Nanos)
    ensures HelloEffect(s, PublishHello(s, challenge, now), challenge, now)
  {
  }

  /** A re-read of the record is asked for if it may be. */
  predicate AskedAgain(s: State, t: State, mint: Option<Uuid>, now: Nanos) {
    ProbeEffect(s, t, Reconcile, None, mint, now, MayProbe(s, now) && mint.Some?)
  }

  lemma AskedAgainDoes(s: State, mint: Option<Uuid>, now: Nanos)
    ensures AskedAgain(s, Reprobe(s, mint, now), mint, now)
  {
    hide IssueProbe, MayProbe, OnlyProbe, Gains;
    ProbeDoes(s, Reconcile, None, mint, now);
  }

  /** Everything a snapshot does. */
  ghost predicate SnapshotEffect(s: State, t: State, v: LocalStop, mint: Option<Uuid>, victim: Uuid, now: Nanos) {
    if !ValidLocalStop(v) || (v.challenge in s.journal.used && s.journal.used[v.challenge] == v) then t == s
    else if v.challenge in s.journal.used || (!Solicited(s, v, now) && StopsSharing(v)) then
      exists shut :: Shut(s, shut) && AskedAgain(shut, t, mint, now)
    else if !Solicited(s, v, now) then AskedAgain(s, t, mint, now)
    else if !Follows(s, v) then
      exists shut :: Shut(s, shut)
        && AskedAgain(shut.(journal := shut.journal.(used := map[v.challenge := v])), t, mint, now)
    else
      exists adopted ::
        Adopted(s, adopted, v, victim) && FollowEffect(adopted, t, v, s.journal.probes[v.challenge], now)
  }

  lemma SameReception(s: State, v: LocalStop, now: Nanos)
    ensures ProbeAnswered(s, v, now) == Solicited(s, v, now) && RevisionAccepted(s, v) == Follows(s, v)
    ensures Stopping(v) == StopsSharing(v)
  {
  }

  lemma RejectedUses(s: State, v: LocalStop, victim: Uuid)
    ensures var inhibited := Inhibit(s);
      Consume(inhibited, v, victim) == inhibited.(journal := inhibited.journal.(used := map[v.challenge := v]))
  {
    var inhibited := Inhibit(s);
    assert inhibited.journal.probes - {v.challenge} == map[];
    assert |inhibited.journal.used[v.challenge := v]| == 1 by {
      assert inhibited.journal.used[v.challenge := v] == map[v.challenge := v];
      assert (map[v.challenge := v]).Keys == {v.challenge};
    }
  }

  lemma SnapshotDoes(s: State, v: LocalStop, mint: Option<Uuid>, victim: Uuid, now: Nanos)
    ensures SnapshotEffect(s, HandleSnapshot(s, v, mint, victim, now), v, mint, victim, now)
  {
    hide ValidLocalStop, ProbeAnswered, Solicited, RevisionAccepted, Follows, Stopping, StopsSharing, Inhibit, Shut,
         Reprobe, AskedAgain, Consume, Adopt, Adopted, FollowUp, FollowEffect;
    SameReception(s, v, now);
    InhibitDoes(s);
    AskedAgainDoes(s, mint, now);
    AskedAgainDoes(Inhibit(s), mint, now);
    RejectedUses(s, v, victim);
    AskedAgainDoes(Consume(Inhibit(s), v, victim), mint, now);
    AdoptDoes(s, v, victim);
    if Solicited(s, v, now) {
      SolicitedProbe(s, v, now);
      FollowDoes(Adopt(s, v, victim), v, s.journal.probes[v.challenge], now);
    }
  }

  lemma SolicitedProbe(s: State, v: LocalStop, now: Nanos)
    requires Solicited(s, v, now)
    ensures v.challenge in s.journal.probes
  {
  }
}
