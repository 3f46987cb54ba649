/**
 * The ride-group v2 adapter as a state machine: one function per locked handler and one step per event.
 * A `mint` argument is the result of a UUID generation (None when it fails); `now` is the handler's clock reading.
 */
module RideGroupMachine {
  import opened Wrappers
  import opened RideGroupTypes

  // ---- Shared guards ----

  predicate Connected(s: State) { s.link.client.Some? && s.link.up }

  predicate JournalIdle(s: State) { s.journal.stop.Some? && s.journal.stop.value.phase.Idle? }

  /** Settings, journal and block flags all allow sharing. */
  predicate Open(s: State) {
    && s.journal.settingsReady && s.journal.ready && !s.journal.blocked && !s.journal.stopBlocked && JournalIdle(s)
  }

  predicate RiderActive(s: State, now: Nanos) {
    && s.authority.activity.Some? && s.authority.activity.value.active
    && Within(now, s.authority.activityAt, LEASE_DURATION)
  }

  predicate GrantCurrent(s: State, now: Nanos) {
    && Open(s) && Connected(s) && s.authority.grant.Some? && s.authority.grantActive
    && Within(now, s.authority.grantAt, s.authority.grantTtl) && RiderActive(s, now)
  }

  predicate Grantable(s: State, now: Nanos) { Open(s) && RiderActive(s, now) }

  /** The rider's session and member are the grant's. */
  predicate ActivityMatchesGrant(s: State) {
    && s.authority.activity.Some? && s.authority.grant.Some?
    && var a, g := s.authority.activity.value, s.authority.grant.value;
       && a.session.Some? && a.member.Some? && g.session.Some? && g.member.Some?
       && a.session == g.session && a.member == g.member
  }

  // ---- Egress ----

  function Queue(s: State, content: Content, expiresAt: Nanos): State {
    var order := s.egress.order + 1;
    var publication := Publication(s.link.client, s.link.nonce, order, expiresAt, content);
    s.(egress := s.egress.(order := order, pending := s.egress.pending[KindOf(content) := publication]))
  }

  function Drop(s: State, kinds: set<Kind>): State {
    s.(egress := s.egress.(pending := s.egress.pending - kinds))
  }

  /** The bounded Redis queue: a full queue loses its oldest entry. */
  function QueueRedis(s: State, message: RedisMessage, maxAge: Nanos, now: Nanos): State {
    var entry := RedisPublication(message, if maxAge > 0 then Some(now + maxAge) else None, now);
    var kept := if |s.outbox.queue| < REDIS_QUEUE_SIZE then s.outbox.queue else s.outbox.queue[1..];
    s.(outbox := s.outbox.(queue := kept + [entry]))
  }

  function PublishHello(s: State, challenge: Option<Uuid>, now: Nanos): State {
    if !Connected(s) || s.link.nonce.None? || challenge.None? then s
    else
      var queued := Queue(s, HelloNotice(challenge.value), now + ATTEMPT_LIFETIME);
      queued.(link := queued.link.(lastHelloAt := Some(now)))
  }

  function PublishActivity(s: State, activity: Activity, now: Nanos): State {
    if !Connected(s) || s.link.nonce.None? then s
    else Queue(s, ActivityNotice(activity), now + 5 * SECOND)
  }

  // ---- Clearing authority ----

  function InvalidatePositions(s: State): State {
    Drop(s.(source := s.source.(generation := s.source.generation + 1)), {PositionKind})
  }

  function ClearGrant(s: State): State {
    var fenced := Drop(s.(source := s.source.(generation := s.source.generation + 1, lastPositionAt := None)),
                       {PositionKind, SourceKind});
    fenced.(authority := fenced.authority.(grant := None, grantActive := false, grantAt := None, grantTtl := 0))
  }

  function ForgetAttempts(s: State): State {
    s.(journal := s.journal.(probes := map[], attempts := map[], used := map[], query := None))
  }

  function ForgetActivity(s: State): State {
    s.(authority := s.authority.(activity := None, activityAt := None, challenges := map[]))
  }

  /** inhibitJournalV2Locked: nothing learned before this point can open sharing again. */
  function Inhibit(s: State): State {
    var closed := ForgetAttempts(ForgetActivity(s));
    ClearGrant(closed.(journal := closed.journal.(
      ready := false, stopBlocked := true, permit := None, epoch := closed.journal.epoch + 1)))
  }

  function ResetConnection(s: State, client: Option<nat>, nonce: Option<Uuid>): State {
    var linked := s.(link := s.link.(client := client, up := client.Some?, nonce := nonce, lastHelloAt := None));
    var forgotten := ForgetAttempts(ForgetActivity(linked));
    var reset := forgotten.(
      journal := forgotten.journal.(
        permit := None, ready := false, epoch := forgotten.journal.epoch + 1, stop := None, stopBlocked := false),
      authority := forgotten.authority.(cleared := None, last := None));
    ClearGrant(InvalidatePositions(reset))
  }

  function FailClosed(s: State): State {
    var forgotten := ForgetAttempts(ForgetActivity(s));
    ClearGrant(InvalidatePositions(forgotten.(journal := forgotten.journal.(
      settingsReady := false, permit := None, ready := false, stopBlocked := true, stop := None,
      epoch := forgotten.journal.epoch + 1))))
  }

  // ---- Journal probes ----

  predicate ProbeCurrent(s: State, p: Probe, now: Nanos) {
    now <= p.deadline && Some(p.connection) == s.link.nonce && p.epoch == s.journal.epoch
  }

  function LiveProbes(s: State, now: Nanos): map<Uuid, Probe> {
    map c | c in s.journal.probes && ProbeCurrent(s, s.journal.probes[c], now) :: s.journal.probes[c]
  }

  function Recent(times: seq<Nanos>, cutoff: Nanos): seq<Nanos> {
    if times == [] then []
    else (if times[0] >= cutoff then [times[0]] else []) + Recent(times[1..], cutoff)
  }

  predicate CanProbe(s: State) { s.journal.settingsReady && Connected(s) && s.link.nonce.Some? }

  function NewProbe(s: State, purpose: Purpose, query: Option<Query>, challenge: Uuid, now: Nanos): Probe
    requires s.link.nonce.Some?
  {
    var deadline := now + ATTEMPT_LIFETIME;
    match query
    case None => Probe(challenge, s.link.nonce.value, now, deadline, purpose, None, 0, None, s.journal.epoch)
    case Some(q) =>
      Probe(challenge, s.link.nonce.value, now, if deadline > q.deadline then q.deadline else deadline, purpose,
            Some(q.operation), q.revision, Some(q.fence), s.journal.epoch)
  }

  /** Forget dead probes, then allow a new one if none is outstanding and fewer than ten went out in ten seconds. */
  function AdmitProbe(s: State, now: Nanos): (State, bool) {
    var purged := s.(journal := s.journal.(probes := LiveProbes(s, now)));
    if |purged.journal.probes| >= 1 then (purged, false)
    else
      var limited := purged.(journal := purged.journal.(
        probeTimes := Recent(purged.journal.probeTimes, now - ATTEMPT_LIFETIME)));
      (limited, |limited.journal.probeTimes| < 10)
  }

  function RecordProbe(s: State, challenge: Uuid, probe: Probe, now: Nanos): State {
    QueueRedis(s.(journal := s.journal.(
      probes := s.journal.probes[challenge := probe], probeTimes := s.journal.probeTimes + [now])),
      ProbeMessage(challenge), ATTEMPT_LIFETIME, now)
  }

  /** issueLocalProbeV2Locked. */
  function IssueProbe(s: State, purpose: Purpose, query: Option<Query>, mint: Option<Uuid>, now: Nanos)
    : (r: (State, bool))
  {
    if !CanProbe(s) then (s, false)
    else
      var admitted := AdmitProbe(s, now);
      if !admitted.1 || mint.None? then (admitted.0, false)
      else (RecordProbe(admitted.0, mint.value, NewProbe(admitted.0, purpose, query, mint.value, now), now), true)
  }

  function Reprobe(s: State, mint: Option<Uuid>, now: Nanos): State {
    IssueProbe(s, Reconcile, None, mint, now).0
  }

  // ---- Local-stop snapshots ----

  predicate ProbeAnswered(s: State, v: LocalStop, now: Nanos) {
    && v.challenge in s.journal.probes && Connected(s)
    && var p := s.journal.probes[v.challenge];
       p.issuedAt <= now && ProbeCurrent(s, p, now)
  }

  predicate RevisionAccepted(s: State, v: LocalStop) {
    s.journal.stop.Some? ==>
      var p := s.journal.stop.value;
      && v.revision >= p.revision
      && (v.revision == p.revision ==> v.(challenge := p.challenge) == p)
  }

  /** The consumed challenges left after the map drops an arbitrary entry once it exceeds ten. */
  function Capped(used: map<Uuid, LocalStop>, victim: Uuid): map<Uuid, LocalStop> {
    if |used| <= 10 then used else used - {victim}
  }

  function Consume(s: State, v: LocalStop, victim: Uuid): State {
    s.(journal := s.journal.(
      probes := s.journal.probes - {v.challenge},
      used := Capped(s.journal.used[v.challenge := v], victim)))
  }

  /** Journal state after an accepted snapshot; a stopping snapshot also clears the grant. */
  function Adopt(s: State, v: LocalStop, victim: Uuid): State {
    var consumed := Consume(s, v, victim);
    var adopted := consumed.(journal := consumed.journal.(
      stop := Some(v), stopBlocked := v.blocked, ready := !Stopping(v)));
    if Stopping(v) then ClearGrant(adopted) else adopted
  }

  /** The four outcomes of handleLocalStopSnapshotV2 before any follow-up message. */
  datatype Reception = Ignored | Repeated | Conflicting | Unsolicited | Rejected | Accepted

  function Receive(s: State, v: LocalStop, now: Nanos): Reception {
    if !ValidLocalStop(v) then Ignored
    else if v.challenge in s.journal.used then
      (if s.journal.used[v.challenge] == v then Repeated else Conflicting)
    else if !ProbeAnswered(s, v, now) then Unsolicited
    else if !RevisionAccepted(s, v) then Rejected
    else Accepted
  }

  function HandleSnapshot(s: State, v: LocalStop, mint: Option<Uuid>, victim: Uuid, now: Nanos): State {
    match Receive(s, v, now)
    case Ignored => s
    case Repeated => s
    case Conflicting => Reprobe(Inhibit(s), mint, now)
    case Unsolicited => Reprobe(if Stopping(v) then Inhibit(s) else s, mint, now)
    case Rejected => Reprobe(Consume(Inhibit(s), v, victim), mint, now)
    case Accepted => FollowUp(Adopt(s, v, victim), v, s.journal.probes[v.challenge], now)
  }

  function FollowUp(s: State, v: LocalStop, probe: Probe, now: Nanos): State {
    if probe.purpose.ApplyConfirmation? then FinalizeApply(s, v, probe, now)
    else match v.phase
      case Idle => if v.blocked then s else RepublishActivity(s, now)
      case Preparing =>
        if v.operation.Some? && v.expected.None? && v.committed.None? then
          var permit := Probe(v.challenge, probe.connection, probe.issuedAt, probe.deadline, OfferPermit,
                              v.operation, v.revision, None, probe.epoch);
          PublishHello(s.(journal := s.journal.(permit := Some(permit))), Some(v.challenge), now)
        else s
      case Prepared =>
        if v.operation.Some? && v.expected.Some? && v.committed.None? then
          var query := Query(v.operation.value, v.revision, v.expected.value, probe.connection, s.journal.epoch,
                             probe.deadline, v.challenge);
          SendStop(s.(journal := s.journal.(query := Some(query))), v.operation.value, v.revision, v.expected,
                   v.challenge, QueryMode, query.deadline, now).0
        else s
      case Confirmed => s
      case Uncertain =>
        if v.operation.Some? then
          SendStop(s, v.operation.value, v.revision, v.expected, v.challenge, QueryMode, probe.deadline, now).0
        else s
  }

  function RepublishActivity(s: State, now: Nanos): State {
    if s.authority.activity.Some? && s.journal.ready && !s.journal.blocked && !s.journal.stopBlocked then
      PublishActivity(s, s.authority.activity.value, now)
    else s
  }

  /** The local journal currently records `operation` at `revision`. */
  predicate JournalNames(s: State, operation: Uuid, revision: int) {
    && s.journal.stop.Some? && s.journal.stop.value.operation == Some(operation)
    && s.journal.stop.value.revision == revision
  }

  predicate StopInFlight(s: State, now: Nanos) {
    exists c | c in s.journal.attempts :: !s.journal.attempts[c].consumed && now < s.journal.attempts[c].deadline
  }

  predicate CanSendStop(s: State, operation: Uuid, revision: int, expected: Option<int>, mode: StopMode, now: Nanos) {
    && Connected(s) && s.link.nonce.Some? && JournalNames(s, operation, revision) && s.journal.epoch != 0
    && (mode.ApplyMode? ==>
          && s.journal.stop.value.phase.Prepared? && s.journal.stop.value.expected == expected
          && s.journal.stop.value.committed.None?)
    && (mode.ApplyMode? ==> expected.Some?)
    && !StopInFlight(s, now) && |s.journal.attempts| < 10
  }

  function SendStop(s: State, operation: Uuid, revision: int, expected: Option<int>, challenge: Uuid,
                    mode: StopMode, deadline: Nanos, now: Nanos): (State, bool)
  {
    if !CanSendStop(s, operation, revision, expected, mode, now) then (s, false)
    else
      var capped := if deadline > now + ATTEMPT_LIFETIME then now + ATTEMPT_LIFETIME else deadline;
      var attempt := Attempt(operation, revision, challenge, s.link.nonce.value, now, mode, expected, capped,
                             s.journal.epoch, false);
      var recorded := s.(journal := s.journal.(attempts := s.journal.attempts[challenge := attempt]));
      (Queue(recorded, StopRequest(challenge, operation, expected, mode), capped), true)
  }

  predicate Confirms(s: State, v: LocalStop, probe: Probe, now: Nanos) {
    && v.operation.Some? && s.journal.query.Some? && ProbeCurrent(s, probe, now) && now < probe.deadline
    && var q := s.journal.query.value;
       && now < q.deadline && v.operation == Some(q.operation) && v.revision == q.revision
       && v.phase.Prepared? && v.expected == Some(q.fence) && v.committed.None?
       && Some(q.connection) == s.link.nonce && q.epoch == s.journal.epoch
  }

  function FinalizeApply(s: State, v: LocalStop, probe: Probe, now: Nanos): State {
    if !Confirms(s, v, probe, now) then DropQuery(s)
    else
      var q := s.journal.query.value;
      var sent := SendStop(s, q.operation, q.revision, Some(q.fence), probe.challenge, ApplyMode, q.deadline, now);
      if sent.1 then DropQuery(sent.0) else sent.0
  }

  // ---- Rider activity ----

  predicate AcceptsActivity(s: State, a: Activity, now: Nanos) {
    && ValidActivity(a) && Open(s) && Connected(s)
    && !(Some(a.boot) == s.authority.boot && a.sequence <= s.authority.activitySequence)
    && a.challenge !in s.authority.challenges
    && (a.active && s.authority.activity.Some? && s.authority.activity.value.session.Some? ==>
          && a.session == s.authority.activity.value.session && a.member == s.authority.activity.value.member)
    && !(a.active && s.authority.activityAt.Some? && now - s.authority.activityAt.value < SECOND)
  }

  /** What pruneChallengesLocked may drop: everything expired, then oldest entries until fewer than ten remain. */
  ghost predicate LegalPrune(challenges: map<Uuid, Nanos>, dropped: set<Uuid>, now: Nanos) {
    && dropped <= challenges.Keys
    && (forall c | c in challenges && now - challenges[c] >= LEASE_DURATION :: c in dropped)
    && (forall c, d | c in challenges && d in challenges && c !in dropped && d in dropped ::
          now - challenges[d] >= LEASE_DURATION || challenges[d] <= challenges[c])
    && |challenges - dropped| < 10
    && ((exists d | d in dropped :: now - challenges[d] < LEASE_DURATION) ==> |challenges - dropped| == 9)
  }

  function HandleActivity(s: State, a: Activity, dropped: set<Uuid>, now: Nanos): State {
    if !AcceptsActivity(s, a, now) then s
    else
      PublishActivity(PublishHello(RecordActivity(s, a, dropped, now), Some(a.challenge), now), a, now)
  }

  function RecordActivity(s: State, a: Activity, dropped: set<Uuid>, now: Nanos): State {
    var noted := s.(authority := s.authority.(
      activity := Some(a), boot := Some(a.boot), activitySequence := a.sequence, activityAt := Some(now)));
    var cleared := if a.active then noted else ClearGrant(noted);
    cleared.(authority := cleared.authority.(
      grantActive := cleared.authority.grantActive || RiderOfGrant(cleared.authority.grant, a),
      challenges := cleared.authority.challenges[a.challenge := now] - dropped))
  }

  predicate RiderOfGrant(grant: Option<Control>, a: Activity) {
    grant.Some? && a.session.Some? && grant.value.session == a.session && grant.value.member == a.member
  }

  // ---- Server controls ----

  function HandleControl(s: State, c: Control, mint: Option<Uuid>, now: Nanos, later: Nanos): State {
    if !ValidControl(c) || !Connected(s) || Some(c.connection) != s.link.nonce then s
    else match c.action
      case Status =>
        if c.stopResult.Some? then HandleStopStatus(s, c, mint, now)
        else QueueRedis(SendOffer(s, c, now), ControlMessage(c), ATTEMPT_LIFETIME, now)
      case Clear => HandleClear(s, c, now)
      case Grant => HandleGrant(s, c, now, later)
      case Renew => HandleGrant(s, c, now, later)
  }

  /** The control continues `prior`: same rider, no older epoch, revision or consent, and one stream per epoch. */
  predicate Continues(prior: Control, c: Control) {
    && prior.session == c.session && prior.member == c.member && NotOlder(prior, c)
  }

  predicate NotOlder(prior: Control, c: Control) {
    && c.transportEpoch >= prior.transportEpoch && c.revision >= prior.revision && c.consent >= prior.consent
    && (c.transportEpoch == prior.transportEpoch ==> c.stream == prior.stream)
  }

  predicate RevokesGrant(s: State, c: Control) {
    s.authority.grant.Some? && Continues(s.authority.grant.value, c)
  }

  function HandleClear(s: State, c: Control, now: Nanos): State {
    if s.authority.grant.Some? && !RevokesGrant(s, c) then s
    else if s.authority.grant.None? && s.journal.stopBlocked then s
    else
      var revoked :=
        if s.authority.grant.None? then s
        else
          var noted := ClearGrant(s.(authority := s.authority.(cleared := Some(c))));
          noted.(authority := noted.authority.(activity := None, activityAt := None));
      var forgotten := revoked.(authority := revoked.authority.(challenges := map[]));
      QueueRedis(forgotten, ControlMessage(c), 0, now)
  }

  predicate ChallengeCurrent(s: State, challenge: Uuid, now: Nanos) {
    && challenge in s.authority.challenges && 0 <= now - s.authority.challenges[challenge] < LEASE_DURATION
    && s.authority.activity.Some? && s.authority.activity.value.active
  }

  function RemainingLease(s: State, c: Control, now: Nanos): Nanos
    requires c.challenge in s.authority.challenges
  {
    c.leaseTtlMs * MILLISECOND - (now - s.authority.challenges[c.challenge])
  }

  predicate AcceptsGrant(s: State, c: Control, now: Nanos) {
    && ValidControl(c) && (c.action.Grant? || c.action.Renew?)
    && Connected(s) && Some(c.connection) == s.link.nonce
    && ChallengeCurrent(s, c.challenge, now) && Grantable(s, now)
    && (s.authority.activity.value.session.Some? ==>
          && s.authority.activity.value.session == c.session && s.authority.activity.value.member == c.member)
    && (s.authority.cleared.Some? && s.authority.cleared.value.session == c.session ==>
          && c.transportEpoch > s.authority.cleared.value.transportEpoch
          && c.revision >= s.authority.cleared.value.revision)
    && (s.authority.last.Some? && s.authority.last.value.session == c.session ==> NotOlder(s.authority.last.value, c))
    && (s.authority.grant.Some? ==> Continues(s.authority.grant.value, c))
    && RemainingLease(s, c, now) > 0
  }

  predicate StartsStream(s: State, c: Control) {
    || s.authority.grant.None?
    || s.authority.grant.value.stream != c.stream
    || s.authority.grant.value.transportEpoch != c.transportEpoch
  }

  function OpenStream(s: State): State {
    var fenced := Drop(s.(source := s.source.(sequence := 0, generation := s.source.generation + 1)),
                       {PositionKind, SourceKind});
    if fenced.source.fixPending then
      fenced.(source := fenced.source.(closed := false, fixPending := false))
    else fenced
  }

  /** setPeerReplayScopeLocked: a new session starts a new replay table; peers off the roster are forgotten. */
  function Rescope(s: State, c: Control): State {
    var base := if s.peers.scope == c.session then s.peers.streams else map[];
    s.(peers := Peers(c.session, map p | p in base && p in c.peers :: base[p]))
  }

  /** The authority taken from an accepted grant: `now` is read for the lease arithmetic, `later` starts the lease. */
  function Granted(s: State, c: Control, now: Nanos, later: Nanos): State
    requires AcceptsGrant(s, c, now)
  {
    var streamed := if StartsStream(s, c) then OpenStream(s) else s;
    var rider := s.authority.activity.value;
    var cadence := c.cadenceMs.value * MILLISECOND;
    Rescope(streamed.(authority := streamed.authority.(
      grant := Some(c), last := Some(c), cleared := None,
      grantAt := Some(later), grantTtl := RemainingLease(s, c, now),
      grantActive := rider.session.Some? && rider.session == c.session && rider.member == c.member,
      cadence := if cadence < SECOND then SECOND else cadence)), c)
  }

  function HandleGrant(s: State, c: Control, now: Nanos, later: Nanos): State {
    if !AcceptsGrant(s, c, now) then s
    else
      var granted := Granted(s, c, now, later);
      var announced := if granted.source.closed then PublishNoFix(granted, later) else granted;
      QueueRedis(announced, ControlMessage(c), LEASE_DURATION - (later - s.authority.challenges[c.challenge]), later)
  }

  predicate MayOffer(s: State, c: Control, now: Nanos) {
    && s.journal.permit.Some? && c.stopResult.None?
    && var p := s.journal.permit.value;
       && Some(p.connection) == s.link.nonce && p.epoch == s.journal.epoch && now <= p.deadline
       && c.challenge == p.challenge && p.operation.Some?
       && JournalNames(s, p.operation.value, p.revision) && s.journal.stop.value.phase.Preparing?
  }

  function SendOffer(s: State, c: Control, now: Nanos): State {
    if !MayOffer(s, c, now) then s
    else
      var p := s.journal.permit.value;
      var offer := StopOutcome(p.operation.value, p.revision, p.challenge, s.link.nonce, Offer, Some(c.consent), None);
      QueueRedis(s.(journal := s.journal.(permit := None)), OutcomeMessage(offer), p.deadline - now, now)
  }

  predicate AnswersAttempt(s: State, c: Control, now: Nanos) {
    && c.challenge in s.journal.attempts && c.stopResult.Some?
    && var a := s.journal.attempts[c.challenge];
       && !a.consumed && Some(a.connection) == s.link.nonce && a.epoch == s.journal.epoch && now <= a.deadline
       && c.stopOperation == Some(a.operation) && c.connection == a.connection
  }

  /** The answer contradicts what the journal now says, or commits another generation than the fence. */
  predicate Contradicts(s: State, c: Control, a: Attempt)
    requires c.stopResult.Some?
  {
    || !JournalNames(s, a.operation, a.revision)
    || (a.mode.ApplyMode? && !(s.journal.stop.value.phase.Prepared? && s.journal.stop.value.expected == a.fence))
    || (c.stopResult.value.Committed? && a.fence.Some? && c.stopExpected != a.fence)
  }

  predicate QueryMatches(s: State, a: Attempt, now: Nanos) {
    && s.journal.query.Some?
    && var q := s.journal.query.value;
       && q.operation == a.operation && q.revision == a.revision && a.fence == Some(q.fence)
       && Some(q.connection) == s.link.nonce && q.epoch == s.journal.epoch && q.challenge == a.challenge
       && q.deadline == a.deadline && now < q.deadline
       && JournalNames(s, q.operation, q.revision)
       && s.journal.stop.value.phase.Prepared? && s.journal.stop.value.expected == Some(q.fence)
  }

  function HandleStopStatus(s: State, c: Control, mint: Option<Uuid>, now: Nanos): State
    requires c.stopResult.Some?
  {
    if !AnswersAttempt(s, c, now) then s
    else
      var a := s.journal.attempts[c.challenge];
      if Contradicts(s, c, a) then Inhibit(s)
      else
        var reported := ReportStop(s, c, a, now);
        if a.mode.QueryMode? && c.stopResult.value.NotFound? && QueryMatches(reported, a, now) then
          Confirm(reported, mint, now)
        else if a.mode.ApplyMode? then DropQuery(reported)
        else reported
  }

  function DropQuery(s: State): State { s.(journal := s.journal.(query := None)) }

  /** The attempt is used up and its outcome goes to the local journal over Redis. */
  function ReportStop(s: State, c: Control, a: Attempt, now: Nanos): State
    requires c.stopResult.Some?
  {
    var result := c.stopResult.value;
    var outcome := StopOutcome(
      a.operation, a.revision, a.challenge, Some(a.connection), Outcome(result), c.stopExpected,
      if result.Committed? || result.Superseded? || result.Unconfirmed? then Some(c.consent) else None);
    QueueRedis(s.(journal := s.journal.(attempts := s.journal.attempts[c.challenge := a.(consumed := true)])),
               OutcomeMessage(outcome), a.deadline - now, now)
  }

  /** Re-read the journal before asking the server to apply a stop it does not know. */
  function Confirm(s: State, mint: Option<Uuid>, now: Nanos): State {
    var issued := IssueProbe(s, ApplyConfirmation, s.journal.query, mint, now);
    if issued.1 then issued.0 else DropQuery(issued.0)
  }

  // ---- Peers ----

  predicate ReceiverTupleCurrent(s: State, session: Uuid, revision: int, epoch: int, stream: Uuid, now: Nanos) {
    && GrantCurrent(s, now)
    && var g := s.authority.grant.value;
       g.session == Some(session) && g.revision == revision && g.transportEpoch == epoch && g.stream == Some(stream)
  }

  predicate AcceptsPeer(s: State, p: PeerPosition, now: Nanos) {
    && ValidPeerPosition(p) && ReceiverTupleCurrent(s, p.session, p.revision, p.transportEpoch, p.stream, now)
    && p.peer in s.authority.grant.value.peers
    && (p.peer in s.peers.streams ==>
          var previous := s.peers.streams[p.peer];
          && p.peerEpoch >= previous.epoch
          && (p.peerEpoch == previous.epoch ==>
                && p.peerStream == previous.stream && !previous.closed
                && p.sequence > previous.sequence && p.capturedMs > previous.captured))
  }

  function HandlePeer(s: State, p: PeerPosition, now: Nanos): State {
    if !AcceptsPeer(s, p, now) then s
    else
      var entry := PeerReplay(p.peerStream, p.peerEpoch, p.sequence, p.capturedMs, None, false);
      QueueRedis(s.(peers := s.peers.(streams := s.peers.streams[p.peer := entry])), PeerMessage(p), SECOND, now)
  }

  predicate AcceptsPeerStatus(s: State, p: PeerStatus, now: Nanos) {
    && ValidPeerStatus(p) && ReceiverTupleCurrent(s, p.session, p.revision, p.transportEpoch, p.stream, now)
    && p.peer in s.authority.grant.value.peers
    && (p.peer in s.peers.streams ==>
          var previous := s.peers.streams[p.peer];
          p.peerEpoch >= previous.epoch && (p.peerEpoch == previous.epoch ==> p.peerStream == previous.stream))
  }

  function HandlePeerStatus(s: State, p: PeerStatus, now: Nanos): State {
    if !AcceptsPeerStatus(s, p, now) then s
    else
      var previous :=
        if p.peer in s.peers.streams && p.peerEpoch <= s.peers.streams[p.peer].epoch then s.peers.streams[p.peer]
        else PeerReplay(p.peerStream, p.peerEpoch, 0, 0, None, false);
      var entry := previous.(status := Some(p.status), closed := true);
      QueueRedis(s.(peers := s.peers.(streams := s.peers.streams[p.peer := entry])), PeerStatusMessage(p), SECOND, now)
  }

  // ---- The position source ----

  function PublishSource(s: State, status: SourceStatus, now: Nanos): (State, bool) {
    if !ValidSourceStatus(status) then (s, false)
    else
      var noted := Drop(s.(source := s.source.(
        lastStatus := Some(status), statusGeneration := s.source.statusGeneration + 1,
        retryAt := Some(now + SOURCE_RETRY))), {SourceKind});
      var queued := Queue(noted, SourceNotice(status, noted.source.statusGeneration), now + 5 * SECOND);
      (queued.(source := queued.source.(sequence := status.sequence)), true)
  }

  function SourceReport(s: State, state: SourceState, captured: Option<Nanos>): SourceStatus
    requires s.authority.grant.Some? && s.authority.grant.value.session.Some?
    requires s.authority.grant.value.member.Some? && s.authority.grant.value.stream.Some?
  {
    var g := s.authority.grant.value;
    SourceStatus(s.link.nonce, g.session.value, g.member.value, g.revision, g.transportEpoch, g.stream.value,
                 s.source.sequence + 1, state,
                 if captured.Some? then Some(TruncateToMillis(captured.value)) else None)
  }

  predicate GrantComplete(s: State) {
    && s.authority.grant.Some? && s.authority.grant.value.session.Some?
    && s.authority.grant.value.member.Some? && s.authority.grant.value.stream.Some?
  }

  function PublishNoFix(s: State, now: Nanos): State {
    if !s.source.closed || !GrantComplete(s) then s
    else PublishSource(s, SourceReport(s, SourceNoFix, None), now).0
  }

  /** publishSourceStatusV2Locked; `captured` is present exactly for a fix_available report. */
  function ReportSource(s: State, captured: Option<Nanos>, now: Nanos): (State, bool) {
    if !GrantCurrent(s, now) || !ActivityMatchesGrant(s) || !GrantComplete(s) then (s, false)
    else if captured.None? then PublishSource(s, SourceReport(s, SourceNoFix, None), now)
    else if captured.value > now || now - captured.value > MAX_FIX_AGE then (s, false)
    else PublishSource(s, SourceReport(s, SourceFixAvailable, captured), now)
  }

  function StatusAge(status: SourceStatus, now: Nanos): Nanos
    requires status.capturedMs.Some?
  {
    now - status.capturedMs.value * MILLISECOND
  }

  predicate MayRetrySource(s: State, now: Nanos) {
    && s.source.lastStatus.Some? && GrantCurrent(s, now) && ActivityMatchesGrant(s)
    && (s.source.retryAt.Some? ==> now >= s.source.retryAt.value)
    && (s.source.lastStatus.value.state.SourceFixAvailable? ==>
          && s.source.lastStatus.value.capturedMs.Some?
          && 0 <= StatusAge(s.source.lastStatus.value, now) <= MAX_FIX_AGE)
    && ValidSourceStatus(s.source.lastStatus.value)
  }

  function RetrySource(s: State, now: Nanos): State {
    if !MayRetrySource(s, now) then s
    else
      var waited := s.(source := s.source.(retryAt := Some(now + SOURCE_RETRY)));
      Queue(waited, SourceNotice(s.source.lastStatus.value, s.source.statusGeneration), now + 5 * SECOND)
  }

  function CloseSource(s: State, now: Nanos): State {
    if s.source.closed && !(s.source.lastStatus.Some? && s.source.lastStatus.value.state.SourceFixAvailable?) then
      RetrySource(s, now)
    else
      var closed := s.(source := s.source.(closed := true, fixPending := false, recoveryAfter := None));
      ReportSource(InvalidatePositions(closed), None, now).0
  }

  /** `sample` is the motion estimator's capture time, None when it rejects the fix. */
  function HandleGps(s: State, captured: Option<Nanos>, fixOk: bool, sample: Option<Nanos>, now: Nanos): State {
    if captured.None? || captured.value > now then LoseFix(s, now)
    else if s.source.observedAt.Some? && captured.value <= s.source.observedAt.value then
      (if fixOk then s else LoseFix(s, now))
    else
      var seen := s.(source := s.source.(observedAt := captured));
      if !fixOk || now - captured.value > MAX_FIX_AGE then LoseFix(seen, now)
      else if seen.source.closed then RecoverSource(seen, captured.value, now)
      else if sample.None? then InvalidatePositions(seen)
      else PublishPosition(seen, sample.value, now)
  }

  function LoseFix(s: State, now: Nanos): State { CloseSource(InvalidatePositions(s), now) }

  function RecoverSource(s: State, captured: Nanos, now: Nanos): State {
    if s.source.fixPending && s.source.lastStatus.Some? && s.source.lastStatus.value.capturedMs.Some?
       && StatusAge(s.source.lastStatus.value, now) <= MAX_FIX_AGE then RetrySource(s, now)
    else
      var reported := ReportSource(s, Some(captured), now);
      if !reported.1 then s
      else reported.0.(source := reported.0.source.(fixPending := true, recoveryAfter := Some(captured)))
  }

  predicate MayPublishPosition(s: State, sample: Nanos, now: Nanos) {
    && GrantCurrent(s, now) && ActivityMatchesGrant(s) && GrantComplete(s)
    && 0 <= now - sample <= MAX_FIX_AGE
    && (s.source.lastPositionAt.Some? ==> now - s.source.lastPositionAt.value >= s.authority.cadence)
    && SafePositive(s.source.sequence + 1) && SafePositive(TruncateToMillis(sample))
    && SafePositive(s.authority.grant.value.revision) && SafePositive(s.authority.grant.value.transportEpoch)
  }

  function PublishPosition(s: State, sample: Nanos, now: Nanos): State {
    if !MayPublishPosition(s, sample, now) then s
    else
      var g := s.authority.grant.value;
      var fix := PositionFix(g.session.value, g.member.value, g.stream.value, g.revision, g.transportEpoch,
                             s.source.generation, sample, s.source.sequence + 1);
      var queued := Queue(s, fix, now + 5 * SECOND);
      queued.(source := queued.source.(sequence := s.source.sequence + 1, lastPositionAt := Some(now)))
  }

  // ---- Connection, settings and timer ----

  function ConnectBegin(s: State, client: nat): State {
    if (s.link.client == Some(client) && s.link.nonce.Some?) || s.link.connecting then s
    else s.(link := s.link.(connecting := true, attempt := s.link.attempt + 1))
  }

  /** The second half of OnConnected, after the subscribe call returned for connect attempt `attempt`. */
  function ConnectFinish(s: State, client: nat, attempt: nat, nonce: Uuid, subscribed: bool,
                         hello: Option<Uuid>, mint: Option<Uuid>, now: Nanos): State {
    if s.link.attempt != attempt then s
    else
      var idle := s.(link := s.link.(connecting := false));
      if !subscribed then idle
      else
        Greet(ResetConnection(idle, Some(client), Some(nonce)), hello, mint, now)
  }

  /** Say hello, and once settings are known ask for the journal; IssueProbe itself checks settingsReady. */
  function Greet(s: State, hello: Option<Uuid>, mint: Option<Uuid>, now: Nanos): State {
    Reprobe(PublishHello(s, hello, now), mint, now)
  }

  /** refreshBlocked raises the IPC epoch once more after inhibiting. */
  function Reinhibit(s: State): State {
    var inhibited := ForgetAttempts(Inhibit(s));
    inhibited.(journal := inhibited.journal.(epoch := inhibited.journal.epoch + 1))
  }

  function Disconnect(s: State, client: nat): State {
    if s.link.client != Some(client) && !s.link.connecting then s
    else
      var idle := s.(link := s.link.(attempt := s.link.attempt + 1, connecting := false));
      if s.link.client == Some(client) then ResetConnection(idle, None, None) else idle
  }

  /** refreshBlocked after a successful read of the settings flag. */
  function RefreshBlocked(s: State, blocked: bool, hello: Option<Uuid>, mint: Option<Uuid>, again: Option<Uuid>,
                          now: Nanos): State {
    var was := s.journal;
    var noted := s.(journal := s.journal.(blocked := blocked, settingsReady := true));
    var greeted := if !was.settingsReady && Connected(noted) then Greet(noted, hello, mint, now) else noted;
    if blocked || was.blocked then Reprobe(Reinhibit(greeted), again, now) else greeted
  }

  function Expire(s: State, now: Nanos): State {
    var lease := ExpireLease(ExpireActivity(s, now), now);
    lease.(journal := lease.journal.(probes := LiveProbes(lease, now), attempts := LiveAttempts(lease, now)))
  }

  function ExpireActivity(s: State, now: Nanos): State {
    if s.authority.activity.Some? && !Within(now, s.authority.activityAt, LEASE_DURATION) then
      ClearGrant(ForgetActivity(s))
    else s
  }

  function ExpireLease(s: State, now: Nanos): State {
    if s.authority.grant.Some? && !Within(now, s.authority.grantAt, s.authority.grantTtl) then ClearGrant(s) else s
  }

  function LiveAttempts(s: State, now: Nanos): map<Uuid, Attempt> {
    map c | c in s.journal.attempts && AttemptCurrent(s, s.journal.attempts[c], now) :: s.journal.attempts[c]
  }

  predicate AttemptCurrent(s: State, a: Attempt, now: Nanos) {
    now <= a.deadline && Some(a.connection) == s.link.nonce && a.epoch == s.journal.epoch
  }

  function Tick(s: State, now: Nanos): State { RetrySource(Expire(s, now), now) }

  // ---- The egress workers ----

  predicate Oldest(pending: map<Kind, Publication>, kind: Kind) {
    kind in pending && forall other | other in pending :: pending[kind].order <= pending[other].order
  }

  /** The worker takes the oldest pending publication; `kind` names it. */
  function MqttTake(s: State, kind: Kind): State {
    if !Oldest(s.egress.pending, kind) || s.egress.inHand.Some? then s
    else s.(egress := s.egress.(pending := s.egress.pending - {kind}, inHand := Some(s.egress.pending[kind])))
  }

  predicate PositionAuthorized(s: State, p: Content, now: Nanos)
    requires p.PositionFix?
  {
    && GrantCurrent(s, now) && GrantComplete(s) && ActivityMatchesGrant(s) && !s.source.closed
    && var g := s.authority.grant.value;
       && p.generation == s.source.generation && g.session == Some(p.session) && g.member == Some(p.member)
       && g.stream == Some(p.stream) && g.revision == p.revision && g.transportEpoch == p.epoch
       && 0 <= now - p.capturedAt <= MAX_FIX_AGE
  }

  predicate SourceAuthorized(s: State, p: Content, now: Nanos)
    requires p.SourceNotice?
  {
    && GrantCurrent(s, now) && GrantComplete(s) && ActivityMatchesGrant(s) && s.source.lastStatus.Some?
    && var g, status := s.authority.grant.value, s.source.lastStatus.value;
       && p.statusGeneration == s.source.statusGeneration
       && p.status.sequence == status.sequence && p.status.state == status.state
       && g.session == Some(status.session) && g.member == Some(status.member) && g.stream == Some(status.stream)
       && g.revision == status.revision && g.transportEpoch == status.transportEpoch
       && status.connection == s.link.nonce
       && (if status.state.SourceNoFix? then s.source.closed
           else status.capturedMs.Some? && p.status.capturedMs.Some? && 0 <= StatusAge(p.status, now) <= MAX_FIX_AGE)
  }

  predicate StopAuthorized(s: State, challenge: Uuid, now: Nanos) {
    && challenge in s.journal.attempts
    && var a := s.journal.attempts[challenge];
       && !a.consumed && a.startedAt <= now && AttemptCurrent(s, a, now) && JournalNames(s, a.operation, a.revision)
       && s.journal.stop.value.expected == a.fence
       && (if a.mode.ApplyMode? then s.journal.stop.value.phase.Prepared? && s.journal.stop.value.committed.None?
           else s.journal.stop.value.phase.Prepared? || s.journal.stop.value.phase.Uncertain?)
  }

  /** mqttPublicationAuthorizedLocked for the v2 kinds. */
  predicate Authorized(s: State, p: Content, now: Nanos) {
    match p
    case HelloNotice(_) => s.journal.settingsReady && Connected(s)
    case ActivityNotice(a) =>
      && Open(s) && Connected(s) && s.authority.activity.Some?
      && s.authority.activity.value.boot == a.boot && s.authority.activity.value.sequence == a.sequence
      && s.authority.activity.value.active == a.active && Within(now, s.authority.activityAt, LEASE_DURATION)
    case PositionFix(_, _, _, _, _, _, _, _) => PositionAuthorized(s, p, now)
    case SourceNotice(_, _) => SourceAuthorized(s, p, now)
    case StopRequest(challenge, _, _, _) => StopAuthorized(s, challenge, now)
  }

  /** The publication the MQTT worker hands to the broker at `now`, if any. */
  function Published(s: State, now: Nanos): Option<Publication> {
    if s.egress.inHand.None? then None
    else
      var p := s.egress.inHand.value;
      if p.client.Some? && now < p.expiresAt && p.client == s.link.client && s.link.up
         && p.connection == s.link.nonce && Authorized(s, p.content, now)
      then Some(p) else None
  }

  function MqttSend(s: State): State { s.(egress := s.egress.(inHand := None)) }

  function RedisTake(s: State): State {
    if s.outbox.queue == [] || s.outbox.inHand.Some? then s
    else s.(outbox := Outbox(s.outbox.queue[1..], Some(s.outbox.queue[0])))
  }

  /** The lease time the adapter itself has left. */
  function LeaseLeft(s: State, now: Nanos): Nanos
    requires s.authority.grantAt.Some?
  {
    s.authority.grantTtl - (now - s.authority.grantAt.value)
  }

  predicate GrantForwardable(s: State, c: Control, now: Nanos) {
    && Grantable(s, now) && Within(now, s.authority.grantAt, s.authority.grantTtl) && s.authority.grant.Some?
    && var g := s.authority.grant.value;
       && g.session == c.session && g.member == c.member && g.stream == c.stream && g.revision == c.revision
       && c.transportEpoch == g.transportEpoch && c.consent == g.consent
  }

  function ForwardGrant(s: State, c: Control, queuedAt: Nanos, now: Nanos): Option<RedisMessage> {
    if !GrantForwardable(s, c, now) then None
    else
      var queued := c.leaseTtlMs * MILLISECOND - (now - queuedAt);
      var ttl := if queued < LeaseLeft(s, now) then queued else LeaseLeft(s, now);
      if ttl <= 0 then None
      else
        var shortened := c.(leaseTtlMs := TruncateToMillis(ttl));
        if ValidControl(shortened) then Some(ControlMessage(shortened)) else None
  }

  /** finalRedisPayloadV2Locked: the message that may still go out for a queued entry. */
  function FinalRedis(s: State, p: RedisPublication, now: Nanos): Option<RedisMessage> {
    if !s.journal.settingsReady || !Connected(s) then None
    else match p.message
      case ProbeMessage(challenge) =>
        if challenge in s.journal.probes
           && var probe := s.journal.probes[challenge];
              Some(probe.connection) == s.link.nonce && probe.epoch == s.journal.epoch
              && probe.issuedAt <= now < probe.deadline
        then Some(p.message) else None
      case OutcomeMessage(outcome) =>
        if outcome.connection == s.link.nonce && JournalNames(s, outcome.operation, outcome.revision)
           && var phase := s.journal.stop.value.phase;
              (if outcome.verdict.Offer? then phase.Preparing? else phase.Prepared? || phase.Uncertain?)
        then Some(p.message) else None
      case ControlMessage(c) =>
        if Some(c.connection) != s.link.nonce then None
        else if c.action.Grant? || c.action.Renew? then ForwardGrant(s, c, p.queuedAt, now)
        else if c.action.Clear? && s.authority.grant.Some? then None
        else Some(p.message)
      case PeerMessage(v) => ForwardPeer(s, v, p.queuedAt, now)
      case PeerStatusMessage(v) =>
        if ReceiverTupleCurrent(s, v.session, v.revision, v.transportEpoch, v.stream, now)
           && v.peer in s.peers.streams
           && var peer := s.peers.streams[v.peer];
              peer.closed && peer.epoch == v.peerEpoch && peer.stream == v.peerStream
        then Some(p.message) else None
  }

  function ForwardPeer(s: State, v: PeerPosition, queuedAt: Nanos, now: Nanos): Option<RedisMessage> {
    if ReceiverTupleCurrent(s, v.session, v.revision, v.transportEpoch, v.stream, now)
       && v.peer in s.peers.streams
       && var peer := s.peers.streams[v.peer];
          !peer.closed && peer.epoch == v.peerEpoch && peer.stream == v.peerStream
          && peer.sequence == v.sequence && peer.captured == v.capturedMs
    then
      var age := TruncateToMillis(now - queuedAt);
      if age < 0 || v.validForMs - age <= 0 then None
      else Some(PeerMessage(v.(validForMs := v.validForMs - age)))
    else None
  }

  /** The message the Redis worker publishes at `now`, if any. */
  function Forwarded(s: State, now: Nanos): Option<RedisMessage> {
    if s.outbox.inHand.None? then None
    else
      var p := s.outbox.inHand.value;
      if p.expiresAt.Some? && now >= p.expiresAt.value then None else FinalRedis(s, p, now)
  }

  function RedisSend(s: State): State { s.(outbox := s.outbox.(inHand := None)) }

  // ---- Events ----

  datatype Event =
    | EConnectBegin(client: nat)
    | EConnectFinish(client: nat, attempt: nat, nonce: Uuid, subscribed: bool, hello: Option<Uuid>,
                     mint: Option<Uuid>, now: Nanos)
    | EDisconnect(client: nat)
    | ELink(up: bool)
    | ERecoveryBegin
    | ERefreshBlocked(blocked: bool, hello: Option<Uuid>, mint: Option<Uuid>, again: Option<Uuid>, now: Nanos)
    | ERecoveryDone(mint: Option<Uuid>, now: Nanos)
    | EFailClosed
    | ESnapshot(stop: LocalStop, mint: Option<Uuid>, victim: Uuid, now: Nanos)
    | EActivity(activity: Activity, dropped: set<Uuid>, now: Nanos)
    | EControl(control: Control, mint: Option<Uuid>, now: Nanos, later: Nanos)
    | EPeer(position: PeerPosition, now: Nanos)
    | EPeerStatus(status: PeerStatus, now: Nanos)
    | EGps(captured: Option<Nanos>, fixOk: bool, sample: Option<Nanos>, now: Nanos)
    | ETick(now: Nanos)
    | EMqttTake(kind: Kind)
    | EMqttSend(now: Nanos)
    | ERedisTake
    | ERedisSend(now: Nanos)

  function Step(s: State, e: Event): State {
    match e
    case EConnectBegin(client) => ConnectBegin(s, client)
    case EConnectFinish(client, attempt, nonce, subscribed, hello, mint, now) =>
      ConnectFinish(s, client, attempt, nonce, subscribed, hello, mint, now)
    case EDisconnect(client) => Disconnect(s, client)
    case ELink(up) => s.(link := s.link.(up := up))
    case ERecoveryBegin => s.(journal := s.journal.(settingsReady := false))
    case ERefreshBlocked(blocked, hello, mint, again, now) => RefreshBlocked(s, blocked, hello, mint, again, now)
    case ERecoveryDone(mint, now) => Reprobe(s, mint, now)
    case EFailClosed => FailClosed(s)
    case ESnapshot(stop, mint, victim, now) => HandleSnapshot(s, stop, mint, victim, now)
    case EActivity(activity, dropped, now) => HandleActivity(s, activity, dropped, now)
    case EControl(control, mint, now, later) => HandleControl(s, control, mint, now, later)
    case EPeer(position, now) => HandlePeer(s, position, now)
    case EPeerStatus(status, now) => HandlePeerStatus(s, status, now)
    case EGps(captured, fixOk, sample, now) => HandleGps(s, captured, fixOk, sample, now)
    case ETick(now) => Tick(s, now)
    case EMqttTake(kind) => MqttTake(s, kind)
    case EMqttSend(_) => MqttSend(s)
    case ERedisTake => RedisTake(s)
    case ERedisSend(_) => RedisSend(s)
  }

  /** A run: the states an event sequence passes through, starting from a new adapter. */
  ghost predicate ValidRun(states: seq<State>, events: seq<Event>) {
    && |states| == |events| + 1 && states[0] == INITIAL
    && forall k | 0 <= k < |events| :: states[k + 1] == Step(states[k], events[k])
  }
}
