/** What the handlers of the machine leave behind, field by field and with their conditions written out. */
module RideGroupEffects {
  import opened Wrappers
  import opened RideGroupTypes
  import opened RideGroupMachine

  const STATUS_RETRY: Nanos := 3 * SECOND

  /** A number a message can carry. */
  predicate Wire(n: int) { 0 < n <= 0x1F_FFFF_FFFF_FFFF }

  /** Settings, journal, connection, rider and lease all allow sharing at `now`. */
  predicate MayShare(s: State, now: Nanos) {
    && s.journal.settingsReady && s.journal.ready && !s.journal.blocked && !s.journal.stopBlocked
    && s.journal.stop.Some? && s.journal.stop.value.phase == Idle && s.link.client.Some? && s.link.up
    && s.authority.activity.Some? && s.authority.activity.value.active
    && s.authority.activityAt.Some? && 0 <= now - s.authority.activityAt.value < 10 * SECOND
    && s.authority.grant.Some? && s.authority.grantActive
    && s.authority.grantAt.Some? && 0 <= now - s.authority.grantAt.value < s.authority.grantTtl
  }

  /** The grant names session, member and stream, and its rider is the active one. */
  predicate RiderHoldsGrant(s: State) {
    && s.authority.activity.Some? && s.authority.grant.Some?
    && var a, g := s.authority.activity.value, s.authority.grant.value;
       g.session.Some? && g.member.Some? && g.stream.Some? && a.session == g.session && a.member == g.member
  }

  /** Only the position source and the publications for the server are touched. */
  predicate OnlySource(s: State, t: State) {
    && t.link == s.link && t.journal == s.journal && t.authority == s.authority && t.peers == s.peers
    && t.outbox == s.outbox
  }

  // ---- Greetings ----

  /** Publications of this kind wait under the next order number for the current client and connection. */
  predicate Queued(s: State, t: State, content: Content, kind: Kind, expiresAt: Nanos) {
    && t.egress.order == s.egress.order + 1 && t.egress.inHand == s.egress.inHand
    && t.egress.pending == s.egress.pending[
         kind := Publication(s.link.client, s.link.nonce, s.egress.order + 1, expiresAt, content)]
  }

  predicate OnLine(s: State) { s.link.client.Some? && s.link.up && s.link.nonce.Some? }

  predicate HelloEffect(s: State, t: State, challenge: Option<Uuid>, now: Nanos) {
    if OnLine(s) && challenge.Some? then
      && Queued(s, t, HelloNotice(challenge.value), HelloKind, now + 10 * SECOND)
      && t == s.(egress := t.egress, link := s.link.(lastHelloAt := Some(now)))
    else t == s
  }

  predicate ActivityEffect(s: State, t: State, activity: Activity, now: Nanos) {
    if OnLine(s) then
      Queued(s, t, ActivityNotice(activity), ActivityKind, now + 5 * SECOND) && t == s.(egress := t.egress)
    else t == s
  }

  lemma GreetingsDo(s: State, challenge: Option<Uuid>, activity: Activity, now: Nanos)
    ensures HelloEffect(s, PublishHello(s, challenge, now), challenge, now)
    ensures ActivityEffect(s, PublishActivity(s, activity, now), activity, now)
  {
  }

  // ---- Source status ----

  predicate StatusKept(s: State, t: State) {
    && t.source.lastStatus == s.source.lastStatus && t.source.statusGeneration == s.source.statusGeneration
    && t.source.sequence == s.source.sequence && t.source.retryAt == s.source.retryAt
    && t.egress.order == s.egress.order && Pending(t, SourceKind) == Pending(s, SourceKind)
  }

  function Pending(s: State, kind: Kind): Option<Publication> {
    if kind in s.egress.pending then Some(s.egress.pending[kind]) else None
  }

  predicate NoticeQueued(s: State, t: State, status: SourceStatus, generation: nat, now: Nanos) {
    && t.egress.order == s.egress.order + 1
    && Pending(t, SourceKind) == Some(Publication(s.link.client, s.link.nonce, t.egress.order, now + 5 * SECOND,
                                                  SourceNotice(status, generation)))
  }

  /** The status is the new last one, to be repeated in three seconds, and it took its sequence number. */
  predicate StatusQueued(s: State, t: State, status: SourceStatus, now: Nanos) {
    && NoticeQueued(s, t, status, s.source.statusGeneration + 1, now)
    && t.source.lastStatus == Some(status) && t.source.statusGeneration == s.source.statusGeneration + 1
    && t.source.sequence == status.sequence && t.source.retryAt == Some(now + STATUS_RETRY)
  }

  predicate CanReport(s: State, now: Nanos) {
    && MayShare(s, now) && RiderHoldsGrant(s) && s.link.nonce.Some? && Wire(s.source.sequence + 1)
    && Wire(s.authority.grant.value.revision) && Wire(s.authority.grant.value.transportEpoch)
  }

  function StatusOf(s: State, state: SourceState, capturedMs: Option<int>): SourceStatus
    requires RiderHoldsGrant(s)
  {
    var g := s.authority.grant.value;
    SourceStatus(s.link.nonce, g.session.value, g.member.value, g.revision, g.transportEpoch, g.stream.value,
                 s.source.sequence + 1, state, capturedMs)
  }

  /** The last status may be repeated: it is due, and a fix it announced is at most five seconds old. */
  predicate CanRepeat(s: State, now: Nanos) {
    && MayShare(s, now) && s.source.lastStatus.Some?
    && s.authority.activity.value.session.Some? && s.authority.activity.value.member.Some?
    && s.authority.activity.value.session == s.authority.grant.value.session
    && s.authority.activity.value.member == s.authority.grant.value.member
    && (s.source.retryAt.Some? ==> s.source.retryAt.value <= now)
    && var status := s.source.lastStatus.value;
       && status.connection.Some? && Wire(status.revision) && Wire(status.transportEpoch) && Wire(status.sequence)
       && match status.state
          case SourceNoFix => status.capturedMs.None?
          case SourceFixAvailable =>
            && status.capturedMs.Some? && Wire(status.capturedMs.value)
            && 0 <= now - status.capturedMs.value * MILLISECOND <= 5 * SECOND
  }

  predicate StatusRepeated(s: State, t: State, now: Nanos) {
    && t.source == s.source.(observedAt := t.source.observedAt, generation := t.source.generation,
                             retryAt := if CanRepeat(s, now) then Some(now + STATUS_RETRY) else s.source.retryAt)
    && if CanRepeat(s, now) then NoticeQueued(s, t, s.source.lastStatus.value, s.source.statusGeneration, now)
       else StatusKept(s, t)
  }

  lemma RetryEffect(s: State, now: Nanos)
    ensures StatusRepeated(s, RetrySource(s, now), now) && OnlySource(s, RetrySource(s, now))
    ensures RetrySource(s, now).source == s.source.(retryAt := RetrySource(s, now).source.retryAt)
    ensures Pending(RetrySource(s, now), PositionKind) == Pending(s, PositionKind)
  {
  }

  // ---- Losing, recovering and publishing a fix ----

  /** Waiting positions are outdated and dropped. */
  predicate PositionsDropped(s: State, t: State) {
    t.source.generation > s.source.generation && PositionKind !in t.egress.pending
  }

  /** The source is closed: a no_fix status goes out unless one was the last word, which is then repeated when due. */
  predicate FixClosed(s: State, t: State, now: Nanos) {
    && t.source.closed && t.source.lastPositionAt == s.source.lastPositionAt
    && if s.source.closed && !(s.source.lastStatus.Some? && s.source.lastStatus.value.state.SourceFixAvailable?)
       then StatusRepeated(s, t, now)
       else
         && !t.source.fixPending && t.source.recoveryAfter.None? && PositionsDropped(s, t)
         && if CanReport(s, now) then StatusQueued(s, t, StatusOf(s, SourceNoFix, None), now) else StatusKept(s, t)
  }

  lemma CloseEffect(s: State, now: Nanos)
    ensures FixClosed(s, CloseSource(s, now), now) && OnlySource(s, CloseSource(s, now))
    ensures CloseSource(s, now).source.observedAt == s.source.observedAt
    ensures CloseSource(s, now).source.generation >= s.source.generation
    ensures PositionKind in CloseSource(s, now).egress.pending ==>
              Pending(CloseSource(s, now), PositionKind) == Pending(s, PositionKind)
  {
  }

  /** A fix on a closed source is announced once, and the announcement repeated while it is fresh. */
  predicate FixAnnounced(s: State, t: State, captured: Nanos, now: Nanos) {
    && t.source.closed == s.source.closed && t.source.lastPositionAt == s.source.lastPositionAt
    && t.source.generation == s.source.generation && Pending(t, PositionKind) == Pending(s, PositionKind)
    && var waiting := s.source.fixPending && s.source.lastStatus.Some? && s.source.lastStatus.value.capturedMs.Some?
                      && now - s.source.lastStatus.value.capturedMs.value * MILLISECOND <= 5 * SECOND;
       if waiting then StatusRepeated(s, t, now)
       else if CanReport(s, now) && captured <= now <= captured + 5 * SECOND && Wire(TruncateToMillis(captured)) then
         && StatusQueued(s, t, StatusOf(s, SourceFixAvailable, Some(TruncateToMillis(captured))), now)
         && t.source.fixPending && t.source.recoveryAfter == Some(captured)
       else
         && StatusKept(s, t) && t.source.fixPending == s.source.fixPending
         && t.source.recoveryAfter == s.source.recoveryAfter
  }

  lemma RecoverEffect(s: State, captured: Nanos, now: Nanos)
    ensures FixAnnounced(s, RecoverSource(s, captured, now), captured, now)
    ensures OnlySource(s, RecoverSource(s, captured, now))
    ensures RecoverSource(s, captured, now).source.observedAt == s.source.observedAt
  {
  }

  /** A sample goes out: it is fresh, sharing is allowed, and the cadence has elapsed. */
  predicate CanPublish(s: State, sample: Nanos, now: Nanos) {
    && MayShare(s, now) && RiderHoldsGrant(s) && sample <= now <= sample + 5 * SECOND
    && (s.source.lastPositionAt.Some? ==> now - s.source.lastPositionAt.value >= s.authority.cadence)
    && Wire(s.source.sequence + 1) && Wire(TruncateToMillis(sample))
    && Wire(s.authority.grant.value.revision) && Wire(s.authority.grant.value.transportEpoch)
  }

  /** The position is queued under the grant and the next sequence number. */
  predicate PositionQueued(s: State, t: State, sample: Nanos, now: Nanos)
    requires RiderHoldsGrant(s)
  {
    var g := s.authority.grant.value;
    && t.egress.order == s.egress.order + 1
    && Pending(t, PositionKind) == Some(Publication(
         s.link.client, s.link.nonce, t.egress.order, now + 5 * SECOND,
         PositionFix(g.session.value, g.member.value, g.stream.value, g.revision, g.transportEpoch,
                     s.source.generation, sample, s.source.sequence + 1)))
    && Pending(t, SourceKind) == Pending(s, SourceKind)
    && t.source == s.source.(observedAt := t.source.observedAt, sequence := s.source.sequence + 1,
                             lastPositionAt := Some(now))
  }

  predicate Newer(s: State, captured: Option<Nanos>, now: Nanos) {
    && captured.Some? && captured.value <= now
    && (s.source.observedAt.Some? ==> captured.value > s.source.observedAt.value)
  }

  /** The fix is missing, from the future, bad, or new but more than five seconds old. */
  predicate LosesFix(s: State, captured: Option<Nanos>, fixOk: bool, now: Nanos) {
    captured.None? || captured.value > now || !fixOk || (Newer(s, captured, now) && now > captured.value + 5 * SECOND)
  }

  /** Everything a GPS message does. */
  predicate GpsEffect(s: State, t: State, captured: Option<Nanos>, fixOk: bool, sample: Option<Nanos>, now: Nanos) {
    && OnlySource(s, t) && t.source.observedAt == (if Newer(s, captured, now) then captured else s.source.observedAt)
    && if LosesFix(s, captured, fixOk, now) then FixClosed(s, t, now) && PositionsDropped(s, t)
       else if !Newer(s, captured, now) then t == s
       else if s.source.closed then FixAnnounced(s, t, captured.value, now)
       else if sample.None? then
         && PositionsDropped(s, t) && StatusKept(s, t)
         && t.source == s.source.(observedAt := captured, generation := t.source.generation)
       else if CanPublish(s, sample.value, now) then PositionQueued(s, t, sample.value, now)
       else t == s.(source := s.source.(observedAt := captured))
  }

  /** Seeing a fix and outdating positions leave what can be reported as it is. */
  lemma LostFixCloses(s: State, seen: State, now: Nanos)
    requires OnlySource(s, seen) && seen.egress == s.egress
    requires seen.source == s.source.(observedAt := seen.source.observedAt)
    ensures var t := LoseFix(seen, now);
      && OnlySource(s, t) && t.source.observedAt == seen.source.observedAt && FixClosed(s, t, now)
      && PositionsDropped(s, t)
  {
    hide CloseSource, MayShare;
    var fenced := InvalidatePositions(seen);
    CloseEffect(fenced, now);
    assert StatusKept(s, fenced) && MayShare(fenced, now) == MayShare(s, now) by { SharesAlike(s, fenced, now); }
  }

  lemma SharesAlike(s: State, t: State, now: Nanos)
    requires OnlySource(s, t)
    ensures MayShare(t, now) == MayShare(s, now)
  {
  }

  lemma GpsDoes(s: State, captured: Option<Nanos>, fixOk: bool, sample: Option<Nanos>, now: Nanos)
    ensures GpsEffect(s, HandleGps(s, captured, fixOk, sample, now), captured, fixOk, sample, now)
  {
    hide LoseFix, FixClosed, RecoverSource, FixAnnounced, CanPublish;
    var seen := s.(source := s.source.(observedAt := captured));
    if captured.Some? && captured.value <= now && Newer(s, captured, now) {
      LostFixCloses(s, seen, now);
      RecoverEffect(seen, captured.value, now);
      AnnouncedSame(s, seen, RecoverSource(seen, captured.value, now), captured.value, now);
      if sample.Some? { PublishEffect(s, seen, sample.value, now); }
    } else {
      LostFixCloses(s, s, now);
    }
  }

  lemma AnnouncedSame(s: State, seen: State, t: State, captured: Nanos, now: Nanos)
    requires OnlySource(s, seen) && seen.egress == s.egress && FixAnnounced(seen, t, captured, now)
    requires seen.source == s.source.(observedAt := seen.source.observedAt)
    ensures FixAnnounced(s, t, captured, now)
  {
    hide MayShare;
    SharesAlike(s, seen, now);
  }

  lemma PublishEffect(s: State, seen: State, sample: Nanos, now: Nanos)
    requires OnlySource(s, seen) && seen.egress == s.egress
    requires seen.source == s.source.(observedAt := seen.source.observedAt)
    ensures var t := PublishPosition(seen, sample, now);
      if CanPublish(s, sample, now) then OnlySource(s, t) && PositionQueued(s, t, sample, now) else t == seen
  {
  }
}
