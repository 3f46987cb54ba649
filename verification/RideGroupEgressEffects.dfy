/** What may go out, to the server and over Redis, with every condition written out. */
module RideGroupEgressEffects {
  import opened Wrappers
  import opened RideGroupTypes
  import opened RideGroupMachine
  import opened RideGroupEffects
  import opened RideGroupJournalEffects
  import opened RideGroupAuthorityEffects

  // ---- To the server ----

  /** The waiting content still says what holds at `now`. */
  predicate StillTrue(s: State, content: Content, now: Nanos) {
    match content
    case HelloNotice(_) => s.journal.settingsReady && s.link.client.Some? && s.link.up
    case ActivityNotice(a) =>
      && Unblocked(s) && s.link.client.Some? && s.link.up && s.authority.activity.Some?
      && s.authority.activity.value.boot == a.boot && s.authority.activity.value.sequence == a.sequence
      && s.authority.activity.value.active == a.active
      && s.authority.activityAt.Some? && 0 <= now - s.authority.activityAt.value < 10 * SECOND
    case PositionFix(session, member, stream, revision, epoch, generation, capturedAt, _) =>
      && MayShare(s, now) && RiderHoldsGrant(s) && !s.source.closed && generation == s.source.generation
      && 0 <= now - capturedAt <= 5 * SECOND
      && var g := s.authority.grant.value;
         && g.session == Some(session) && g.member == Some(member) && g.stream == Some(stream)
         && g.revision == revision && g.transportEpoch == epoch
    case SourceNotice(status, generation) =>
      && MayShare(s, now) && RiderHoldsGrant(s) && s.source.lastStatus.Some? && generation == s.source.statusGeneration
      && var g, last := s.authority.grant.value, s.source.lastStatus.value;
         && status.sequence == last.sequence && status.state == last.state && last.connection == s.link.nonce
         && g.session == Some(last.session) && g.member == Some(last.member) && g.stream == Some(last.stream)
         && g.revision == last.revision && g.transportEpoch == last.transportEpoch
         && (match last.state
             case SourceNoFix => s.source.closed
             case SourceFixAvailable =>
               && last.capturedMs.Some? && status.capturedMs.Some?
               && 0 <= now - status.capturedMs.value * MILLISECOND <= 5 * SECOND)
    case StopRequest(challenge, _, _, _) =>
      && challenge in s.journal.attempts
      && var a := s.journal.attempts[challenge];
         && !a.consumed && a.startedAt <= now <= a.deadline && Some(a.connection) == s.link.nonce
         && a.epoch == s.journal.epoch && Names(s, a.operation, a.revision)
         && s.journal.stop.value.expected == a.fence
         && (match a.mode
             case ApplyMode => s.journal.stop.value.phase == Prepared && s.journal.stop.value.committed.None?
             case QueryMode => s.journal.stop.value.phase == Prepared || s.journal.stop.value.phase == Uncertain)
  }

  /** The publication belongs to the current client and connection, is in time, and is still true. */
  predicate GoesToServer(s: State, p: Publication, now: Nanos) {
    && p.client.Some? && p.client == s.link.client && s.link.up && p.connection == s.link.nonce && now < p.expiresAt
    && StillTrue(s, p.content, now)
  }

  lemma PublishedExactly(s: State, now: Nanos)
    ensures Published(s, now)
            == if s.egress.inHand.Some? && GoesToServer(s, s.egress.inHand.value, now) then s.egress.inHand else None
  {
    if s.egress.inHand.Some? { AuthorizedExactly(s, s.egress.inHand.value.content, now); }
    hide Authorized, StillTrue;
  }

  lemma AuthorizedExactly(s: State, content: Content, now: Nanos)
    ensures Authorized(s, content, now) == StillTrue(s, content, now)
  {
  }

  // ---- Over Redis ----

  /** Nobody acts on a stale message: exactly what may go out at `now` for the queued entry. */
  predicate Entitled(s: State, entry: RedisPublication, m: RedisMessage, now: Nanos) {
    && s.link.client.Some? && s.link.up && s.journal.settingsReady
    && match entry.message
       case ProbeMessage(challenge) =>
         && m == entry.message && challenge in s.journal.probes
         && var p := s.journal.probes[challenge];
            Some(p.connection) == s.link.nonce && p.epoch == s.journal.epoch && p.issuedAt <= now < p.deadline
       case OutcomeMessage(outcome) =>
         && m == entry.message && outcome.connection == s.link.nonce && Names(s, outcome.operation, outcome.revision)
         && (match outcome.verdict
             case Offer => s.journal.stop.value.phase == Preparing
             case Outcome(_) => s.journal.stop.value.phase == Prepared || s.journal.stop.value.phase == Uncertain)
       case ControlMessage(c) =>
         && s.link.nonce == Some(c.connection)
         && (match c.action
             case Grant => GrantInLease(s, c, entry.queuedAt, m, now)
             case Renew => GrantInLease(s, c, entry.queuedAt, m, now)
             case Clear => m == entry.message && s.authority.grant.None?
             case Status => m == entry.message)
       case PeerMessage(v) => PositionFresh(s, v, entry.queuedAt, m, now)
       case PeerStatusMessage(v) =>
         && m == entry.message && TupleHeld(s, v.session, v.revision, v.transportEpoch, v.stream, now)
         && v.peer in s.peers.streams && s.peers.streams[v.peer].closed
         && s.peers.streams[v.peer].epoch == v.peerEpoch && s.peers.streams[v.peer].stream == v.peerStream
  }

  predicate TupleHeld(s: State, session: Uuid, revision: int, epoch: int, stream: Uuid, now: Nanos) {
    && MayShare(s, now)
    && var g := s.authority.grant.value;
       g.session == Some(session) && g.revision == revision && g.transportEpoch == epoch && g.stream == Some(stream)
  }

  /** What is left at `now` both of the adapter's lease and of the grant as it was queued. */
  function LeftOf(s: State, c: Control, queuedAt: Nanos, now: Nanos): Nanos
    requires s.authority.grantAt.Some?
  {
    Sooner(queuedAt + c.leaseTtlMs * MILLISECOND, s.authority.grantAt.value + s.authority.grantTtl) - now
  }

  /** The grant still held goes out with the whole milliseconds left of it, if there is at least one. */
  predicate GrantInLease(s: State, c: Control, queuedAt: Nanos, m: RedisMessage, now: Nanos)
    requires c.action == Grant || c.action == Renew
  {
    && Unblocked(s) && s.authority.activity.Some? && s.authority.activity.value.active
    && s.authority.activityAt.Some? && 0 <= now - s.authority.activityAt.value < 10 * SECOND
    && s.authority.grantAt.Some? && 0 <= now - s.authority.grantAt.value < s.authority.grantTtl
    && s.authority.grant.Some?
    && var g := s.authority.grant.value;
       && c.session == g.session && c.member == g.member && c.stream == g.stream && c.revision == g.revision
       && c.transportEpoch == g.transportEpoch && c.consent == g.consent
       && LeftOf(s, c, queuedAt, now) > 0
       && var left := LeftOf(s, c, queuedAt, now) / MILLISECOND;
          && 1 <= left <= 10_000 && m == ControlMessage(c.(leaseTtlMs := left))
          && ValidControl(c.(leaseTtlMs := 1))
  }

  /** The position the open replay entry names goes out under the current grant with its waiting time deducted. */
  predicate PositionFresh(s: State, v: PeerPosition, queuedAt: Nanos, m: RedisMessage, now: Nanos) {
    && TupleHeld(s, v.session, v.revision, v.transportEpoch, v.stream, now) && v.peer in s.peers.streams
    && (var e := s.peers.streams[v.peer];
        && !e.closed && e.epoch == v.peerEpoch && e.stream == v.peerStream && e.sequence == v.sequence
        && e.captured == v.capturedMs)
    && 0 <= TruncateToMillis(now - queuedAt) < v.validForMs
    && m == PeerMessage(v.(validForMs := v.validForMs - TruncateToMillis(now - queuedAt)))
  }

  lemma GrantExactly(s: State, c: Control, queuedAt: Nanos, m: RedisMessage, now: Nanos)
    requires c.action == Grant || c.action == Renew
    ensures ForwardGrant(s, c, queuedAt, now) == Some(m) <==> GrantInLease(s, c, queuedAt, m, now)
  {
    if GrantForwardable(s, c, now) {
      var left := LeftOf(s, c, queuedAt, now);
      if left > 0 { ShapeOf(c, left / MILLISECOND); }
    }
  }

  /** The length of the lease is one more thing a valid grant needs. */
  lemma ShapeOf(c: Control, ms: int)
    requires c.action == Grant || c.action == Renew
    ensures ValidControl(c.(leaseTtlMs := ms)) <==> 1 <= ms <= 10_000 && ValidControl(c.(leaseTtlMs := 1))
  {
  }

  lemma FinalExactly(s: State, entry: RedisPublication, m: RedisMessage, now: Nanos)
    ensures FinalRedis(s, entry, now) == Some(m) <==> Entitled(s, entry, m, now)
  {
    hide ForwardGrant, GrantInLease;
    match entry.message
    case ControlMessage(c) => if c.action.Grant? || c.action.Renew? { GrantExactly(s, c, entry.queuedAt, m, now); }
    case _ =>
  }

  /** A forwarded grant never outlives the adapter's lease, or what was granted when it was queued. */
  lemma GrantEndsInLease(s: State, c: Control, queuedAt: Nanos, m: RedisMessage, now: Nanos)
    requires (c.action == Grant || c.action == Renew) && GrantInLease(s, c, queuedAt, m, now)
    ensures m.ControlMessage? && s.authority.grantAt.Some?
    ensures now + m.control.leaseTtlMs * MILLISECOND <= s.authority.grantAt.value + s.authority.grantTtl
    ensures now + m.control.leaseTtlMs * MILLISECOND <= queuedAt + c.leaseTtlMs * MILLISECOND
    ensures LeftOf(s, c, queuedAt, now) < (m.control.leaseTtlMs + 1) * MILLISECOND
  {
    var left := LeftOf(s, c, queuedAt, now);
    assert left == left / MILLISECOND * MILLISECOND + left % MILLISECOND;
  }
}
