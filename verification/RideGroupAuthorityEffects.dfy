/** What rider activity, controls and peer messages leave behind, field by field. */
module RideGroupAuthorityEffects {
  import opened Wrappers
  import opened RideGroupTypes
  import opened RideGroupMachine
  import opened RideGroupEffects
  import opened RideGroupJournalEffects

  /** Settings and journal allow sharing. */
  predicate Unblocked(s: State) {
    && s.journal.settingsReady && s.journal.ready && !s.journal.blocked && !s.journal.stopBlocked
    && s.journal.stop.Some? && s.journal.stop.value.phase == Idle
  }

  // ---- Rider activity ----

  /** The activity is well formed, new, of the running session, and not an active one within a second of the last. */
  predicate TakesActivity(s: State, a: Activity, now: Nanos) {
    && Wire(a.sequence) && (a.session.Some? <==> a.member.Some?) && Unblocked(s) && s.link.client.Some? && s.link.up
    && (s.authority.boot == Some(a.boot) ==> a.sequence > s.authority.activitySequence)
    && a.challenge !in s.authority.challenges
    && (a.active && s.authority.activity.Some? && s.authority.activity.value.session.Some? ==>
          a.session == s.authority.activity.value.session && a.member == s.authority.activity.value.member)
    && (a.active && s.authority.activityAt.Some? ==> now >= s.authority.activityAt.value + SECOND)
  }

  /** The grant is dropped with everything queued under it. */
  predicate GrantDropped(s: State, t: State) {
    && t.authority.grant.None? && !t.authority.grantActive && t.authority.grantAt.None? && t.authority.grantTtl == 0
    && t.source == s.source.(generation := s.source.generation + 1, lastPositionAt := None)
    && t.egress == s.egress.(pending := s.egress.pending - {PositionKind, SourceKind})
  }

  /** The rider state is recorded and its challenge remembered; an inactive rider ends the grant. */
  predicate ActivityRecorded(s: State, t: State, a: Activity, dropped: set<Uuid>, now: Nanos) {
    && t.authority.activity == Some(a) && t.authority.activityAt == Some(now) && t.authority.boot == Some(a.boot)
    && t.authority.activitySequence == a.sequence
    && t.authority.challenges == s.authority.challenges[a.challenge := now] - dropped
    && (if a.active then
          && t.source == s.source && t.egress == s.egress && t.authority.grant == s.authority.grant
          && t.authority.grantAt == s.authority.grantAt && t.authority.grantTtl == s.authority.grantTtl
          && (t.authority.grantActive <==>
                (s.authority.grantActive
                 || (s.authority.grant.Some? && a.session.Some? && s.authority.grant.value.session == a.session
                     && s.authority.grant.value.member == a.member)))
        else GrantDropped(s, t))
    && t.authority == s.authority.(
         activity := t.authority.activity, activityAt := t.authority.activityAt, boot := t.authority.boot,
         activitySequence := t.authority.activitySequence, challenges := t.authority.challenges,
         grant := t.authority.grant, grantAt := t.authority.grantAt, grantTtl := t.authority.grantTtl,
         grantActive := t.authority.grantActive)
    && t.link == s.link && t.journal == s.journal && t.peers == s.peers && t.outbox == s.outbox
  }

  /** An accepted activity is recorded, greeted with its challenge, and passed on. */
  ghost predicate RiderEffect(s: State, t: State, a: Activity, dropped: set<Uuid>, now: Nanos) {
    if !TakesActivity(s, a, now) then t == s
    else exists recorded, greeted ::
      && ActivityRecorded(s, recorded, a, dropped, now) && HelloEffect(recorded, greeted, Some(a.challenge), now)
      && ActivityEffect(greeted, t, a, now)
  }

  lemma RiderDoes(s: State, a: Activity, dropped: set<Uuid>, now: Nanos)
    ensures RiderEffect(s, HandleActivity(s, a, dropped, now), a, dropped, now)
  {
    hide PublishHello, PublishActivity, HelloEffect, ActivityEffect, RecordActivity, ActivityRecorded;
    RecordDoes(s, a, dropped, now);
    var recorded := RecordActivity(s, a, dropped, now);
    HelloDoes(recorded, Some(a.challenge), now);
    GreetingsDo(PublishHello(recorded, Some(a.challenge), now), None, a, now);
  }

  lemma RecordDoes(s: State, a: Activity, dropped: set<Uuid>, now: Nanos)
    ensures ActivityRecorded(s, RecordActivity(s, a, dropped, now), a, dropped, now)
  {
  }

  // ---- Grants ----

  /** The control goes on from an earlier one: nothing decreases, and an epoch has one stream. */
  predicate GoesOn(earlier: Control, c: Control) {
    && c.transportEpoch >= earlier.transportEpoch && c.revision >= earlier.revision && c.consent >= earlier.consent
    && (c.transportEpoch == earlier.transportEpoch ==> c.stream == earlier.stream)
  }

  function LeaseLeftOf(s: State, c: Control, now: Nanos): Nanos
    requires c.challenge in s.authority.challenges
  {
    s.authority.challenges[c.challenge] + c.leaseTtlMs * MILLISECOND - now
  }

  /**
   * A grant or renewal is taken: for an unexpired challenge of an active, current rider while sharing is allowed, for
   * the rider's session, going on from the last grant, the held one and any clear of that session, with lease left.
   */
  predicate TakesGrant(s: State, c: Control, now: Nanos) {
    && ValidControl(c) && (c.action == Grant || c.action == Renew) && s.link.client.Some? && s.link.up
    && s.link.nonce == Some(c.connection) && Unblocked(s)
    && s.authority.activity.Some? && s.authority.activity.value.active
    && s.authority.activityAt.Some? && 0 <= now - s.authority.activityAt.value < 10 * SECOND
    && c.challenge in s.authority.challenges && 0 <= now - s.authority.challenges[c.challenge] < 10 * SECOND
    && (s.authority.activity.value.session.Some? ==>
          s.authority.activity.value.session == c.session && s.authority.activity.value.member == c.member)
    && (s.authority.cleared.Some? && s.authority.cleared.value.session == c.session ==>
          && c.transportEpoch > s.authority.cleared.value.transportEpoch
          && c.revision >= s.authority.cleared.value.revision)
    && (s.authority.last.Some? && s.authority.last.value.session == c.session ==> GoesOn(s.authority.last.value, c))
    && (s.authority.grant.Some? ==>
          && s.authority.grant.value.session == c.session && s.authority.grant.value.member == c.member
          && GoesOn(s.authority.grant.value, c))
    && LeaseLeftOf(s, c, now) > 0
  }

  /** The held grant is this control, from `later` on, for what was left of the challenge's lease at `now`. */
  predicate GrantHeld(s: State, t: State, c: Control, now: Nanos, later: Nanos)
    requires c.challenge in s.authority.challenges && s.authority.activity.Some? && c.cadenceMs.Some?
  {
    var rider := s.authority.activity.value;
    t.authority == s.authority.(
      grant := Some(c), last := Some(c), cleared := None, grantAt := Some(later), grantTtl := LeaseLeftOf(s, c, now),
      grantActive := rider.session.Some? && rider.session == c.session && rider.member == c.member,
      cadence := if c.cadenceMs.value * MILLISECOND < SECOND then SECOND else c.cadenceMs.value * MILLISECOND)
  }

  /** Another stream or epoch starts its own numbering and drops what was queued for the old one. */
  predicate StreamOpened(s: State, t: State, c: Control) {
    if s.authority.grant.Some? && s.authority.grant.value.stream == c.stream
       && s.authority.grant.value.transportEpoch == c.transportEpoch
    then t.source == s.source && t.egress == s.egress
    else
      && t.egress == s.egress.(pending := s.egress.pending - {PositionKind, SourceKind})
      && t.source == s.source.(
           sequence := 0, generation := s.source.generation + 1,
           closed := s.source.closed && !s.source.fixPending, fixPending := false)
  }

  /** Entries of the listed peers stay for the same session; nothing stays for another. */
  predicate Rostered(s: State, t: State, c: Control) {
    && t.peers.scope == c.session
    && (s.peers.scope != c.session ==> t.peers.streams == map[])
    && (s.peers.scope == c.session ==>
          && (forall p | p in s.peers.streams && p in c.peers :: p in t.peers.streams)
          && forall p | p in t.peers.streams ::
               p in c.peers && p in s.peers.streams && t.peers.streams[p] == s.peers.streams[p])
  }

  /** A closed source tells the new grant so. */
  predicate ClosedTold(s: State, t: State, later: Nanos) {
    if s.source.closed && s.authority.grant.Some? && s.link.nonce.Some? && Wire(s.source.sequence + 1)
       && s.authority.grant.value.session.Some? && s.authority.grant.value.member.Some?
       && s.authority.grant.value.stream.Some? && Wire(s.authority.grant.value.revision)
       && Wire(s.authority.grant.value.transportEpoch)
    then
      var g := s.authority.grant.value;
      && StatusQueued(s, t, SourceStatus(s.link.nonce, g.session.value, g.member.value, g.revision, g.transportEpoch,
                                         g.stream.value, s.source.sequence + 1, SourceNoFix, None), later)
      && t == s.(source := t.source, egress := t.egress)
    else t == s
  }

  predicate GrantTaken(s: State, t: State, c: Control, now: Nanos, later: Nanos)
    requires c.challenge in s.authority.challenges && s.authority.activity.Some? && c.cadenceMs.Some?
  {
    && GrantHeld(s, t, c, now, later) && StreamOpened(s, t, c) && Rostered(s, t, c)
    && t.link == s.link && t.journal == s.journal && t.outbox == s.outbox
  }

  /** Everything a grant or renewal does; it is passed on over Redis for the rest of its challenge's ten seconds. */
  ghost predicate GrantEffect(s: State, t: State, c: Control, now: Nanos, later: Nanos) {
    if !TakesGrant(s, c, now) then t == s
    else exists taken, told ::
      && GrantTaken(s, taken, c, now, later) && ClosedTold(taken, told, later)
      && t == told.(outbox := t.outbox)
      && Gains(told, t, RedisPublication(
           ControlMessage(c), Until(s.authority.challenges[c.challenge] + 10 * SECOND - later, later), later))
  }

  lemma SameGrantTest(s: State, c: Control, now: Nanos)
    ensures AcceptsGrant(s, c, now) == TakesGrant(s, c, now)
  {
  }

  lemma GrantedDoes(s: State, c: Control, now: Nanos, later: Nanos)
    requires AcceptsGrant(s, c, now) && TakesGrant(s, c, now)
    ensures GrantTaken(s, Granted(s, c, now, later), c, now, later)
  {
    hide ValidLocalStop, AcceptsGrant, TakesGrant;
    TakenFields(s, c, now);
  }

  lemma TakenFields(s: State, c: Control, now: Nanos)
    requires TakesGrant(s, c, now)
    ensures c.challenge in s.authority.challenges && s.authority.activity.Some? && c.cadenceMs.Some?
  {
  }

  lemma ClosedDoes(s: State, later: Nanos)
    ensures ClosedTold(s, if s.source.closed then PublishNoFix(s, later) else s, later)
  {
  }

  lemma GrantDoes(s: State, c: Control, now: Nanos, later: Nanos)
    ensures GrantEffect(s, HandleGrant(s, c, now, later), c, now, later)
  {
    hide AcceptsGrant, TakesGrant, Granted, GrantTaken, ClosedTold, PublishNoFix;
    SameGrantTest(s, c, now);
    if AcceptsGrant(s, c, now) {
      TakenFields(s, c, now);
      GrantedDoes(s, c, now, later);
      ClosedDoes(Granted(s, c, now, later), later);
    }
  }

  // ---- Clears and offers ----

  /** Everything a clear does; it reaches Redis unless it continues nothing held or the journal is blocked. */
  predicate ClearEffect(s: State, t: State, c: Control, now: Nanos) {
    var held := s.authority.grant.Some?;
    var continues := held && s.authority.grant.value.session == c.session && s.authority.grant.value.member == c.member
                     && GoesOn(s.authority.grant.value, c);
    if (held && !continues) || (!held && s.journal.stopBlocked) then t == s
    else
      && Gains(s, t, RedisPublication(ControlMessage(c), None, now))
      && t.link == s.link && t.journal == s.journal && t.peers == s.peers && t.authority.challenges == map[]
      && if held then
           && GrantDropped(s, t)
           && t.authority == s.authority.(grant := None, grantActive := false, grantAt := None, grantTtl := 0,
                                          cleared := Some(c), activity := None, activityAt := None, challenges := map[])
         else t.authority == s.authority.(challenges := map[]) && t.source == s.source && t.egress == s.egress
  }

  lemma ClearDoes(s: State, c: Control, now: Nanos)
    ensures ClearEffect(s, HandleClear(s, c, now), c, now)
  {
  }

  /** The stop being prepared was offered under this permit, and the control answers its challenge. */
  predicate Offers(s: State, c: Control, now: Nanos) {
    && s.journal.permit.Some? && c.stopResult.None?
    && var p := s.journal.permit.value;
       && Some(p.connection) == s.link.nonce && p.epoch == s.journal.epoch && now <= p.deadline
       && c.challenge == p.challenge && p.operation.Some? && Names(s, p.operation.value, p.revision)
       && s.journal.stop.value.phase == Preparing
  }

  /** A status without a stop result uses up the permit with an offer of its consent, and is passed on itself. */
  predicate StatusEffect(s: State, t: State, c: Control, now: Nanos) {
    var passed := RedisPublication(ControlMessage(c), Some(now + 10 * SECOND), now);
    if Offers(s, c, now) then
      var p := s.journal.permit.value;
      var offer := StopOutcome(p.operation.value, p.revision, p.challenge, s.link.nonce, Offer, Some(c.consent), None);
      t == s.(journal := s.journal.(permit := None),
              outbox := Push(Push(s.outbox, RedisPublication(OutcomeMessage(offer), Until(p.deadline - now, now), now)),
                             passed))
    else t == s.(outbox := Push(s.outbox, passed))
  }

  lemma StatusDoes(s: State, c: Control, now: Nanos)
    ensures StatusEffect(s, QueueRedis(SendOffer(s, c, now), ControlMessage(c), ATTEMPT_LIFETIME, now), c, now)
  {
  }

  /** Everything a control does, by its action; one for another connection, or malformed, does nothing. */
  ghost predicate ControlEffect(s: State, t: State, c: Control, mint: Option<Uuid>, now: Nanos, later: Nanos) {
    if !ValidControl(c) || s.link.client.None? || !s.link.up || s.link.nonce != Some(c.connection) then t == s
    else match c.action
      case Status => if c.stopResult.Some? then AnswerEffect(s, t, c, mint, now) else StatusEffect(s, t, c, now)
      case Clear => ClearEffect(s, t, c, now)
      case Grant => GrantEffect(s, t, c, now, later)
      case Renew => GrantEffect(s, t, c, now, later)
  }

  lemma ControlDoes(s: State, c: Control, mint: Option<Uuid>, now: Nanos, later: Nanos)
    ensures ControlEffect(s, HandleControl(s, c, mint, now, later), c, mint, now, later)
  {
    hide ValidControl, AnswerEffect, StatusEffect, ClearEffect, GrantEffect, HandleGrant, HandleClear, HandleStopStatus,
         SendOffer, QueueRedis;
    if c.stopResult.Some? { AnswerDoes(s, c, mint, now); }
    StatusDoes(s, c, now);
    ClearDoes(s, c, now);
    GrantDoes(s, c, now, later);
  }

  // ---- Peers ----

  /** The message is addressed to the current grant and about one of its peers. */
  predicate ForGrant(s: State, session: Uuid, revision: int, epoch: int, stream: Uuid, peer: Uuid, now: Nanos) {
    && MayShare(s, now)
    && var g := s.authority.grant.value;
       && g.session == Some(session) && g.revision == revision && g.transportEpoch == epoch && g.stream == Some(stream)
       && peer in g.peers
  }

  /** A position newer than everything seen from the peer becomes the replay entry and waits one second for Redis. */
  predicate PeerEffect(s: State, t: State, v: PeerPosition, now: Nanos) {
    if ValidPeerPosition(v) && ForGrant(s, v.session, v.revision, v.transportEpoch, v.stream, v.peer, now)
       && (v.peer in s.peers.streams ==>
             var e := s.peers.streams[v.peer];
             || v.peerEpoch > e.epoch
             || (v.peerEpoch == e.epoch && v.peerStream == e.stream && !e.closed && v.sequence > e.sequence
                 && v.capturedMs > e.captured))
    then
      && t == s.(peers := t.peers, outbox := t.outbox) && t.peers.scope == s.peers.scope
      && t.peers.streams == s.peers.streams[
           v.peer := PeerReplay(v.peerStream, v.peerEpoch, v.sequence, v.capturedMs, None, false)]
      && Gains(s, t, RedisPublication(PeerMessage(v), Some(now + SECOND), now))
    else t == s
  }

  lemma PeerDoes(s: State, v: PeerPosition, now: Nanos)
    ensures PeerEffect(s, HandlePeer(s, v, now), v, now)
  {
    hide ValidPeerPosition;
  }

  /** A status closes the peer's epoch: the running one keeps its last position, a later one starts closed. */
  predicate PeerStatusEffect(s: State, t: State, v: PeerStatus, now: Nanos) {
    if ValidPeerStatus(v) && ForGrant(s, v.session, v.revision, v.transportEpoch, v.stream, v.peer, now)
       && (v.peer in s.peers.streams ==>
             var e := s.peers.streams[v.peer];
             v.peerEpoch > e.epoch || (v.peerEpoch == e.epoch && v.peerStream == e.stream))
    then
      && t == s.(peers := t.peers, outbox := t.outbox) && t.peers.scope == s.peers.scope
      && t.peers.streams == s.peers.streams[
           v.peer := if v.peer in s.peers.streams && s.peers.streams[v.peer].epoch == v.peerEpoch
                     then s.peers.streams[v.peer].(status := Some(v.status), closed := true)
                     else PeerReplay(v.peerStream, v.peerEpoch, 0, 0, Some(v.status), true)]
      && Gains(s, t, RedisPublication(PeerStatusMessage(v), Some(now + SECOND), now))
    else t == s
  }

  lemma PeerStatusDoes(s: State, v: PeerStatus, now: Nanos)
    ensures PeerStatusEffect(s, HandlePeerStatus(s, v, now), v, now)
  {
    hide ValidPeerStatus;
  }
}
