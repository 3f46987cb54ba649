/**
 * The values the ride-group v2 adapter holds and exchanges.  UUIDs are opaque tokens, instants and
 * durations are integer nanoseconds, and the zero time.Time is None.
 */
module RideGroupTypes {
  import opened Wrappers

  type Uuid = nat
  type Nanos = int

  const MILLISECOND: Nanos := 1_000_000
  const SECOND: Nanos := 1_000_000_000
  const ATTEMPT_LIFETIME: Nanos := 10 * SECOND
  const LEASE_DURATION: Nanos := 10 * SECOND
  const MAX_FIX_AGE: Nanos := 5 * SECOND
  const SOURCE_RETRY: Nanos := 3 * SECOND
  const MAX_SAFE_INTEGER: int := 0x1F_FFFF_FFFF_FFFF
  const REDIS_QUEUE_SIZE: nat := 8

  predicate SafePositive(n: int) { 0 < n <= MAX_SAFE_INTEGER }

  predicate SafeNonnegative(n: int) { 0 <= n <= MAX_SAFE_INTEGER }

  predicate SafeOptional(n: Option<int>) { n.Some? ==> SafeNonnegative(n.value) }

  /** Whole milliseconds of a duration, truncated toward zero as Go's Duration.Milliseconds does. */
  function TruncateToMillis(d: Nanos): int {
    if d >= 0 then d / MILLISECOND else -((-d) / MILLISECOND)
  }

  /** 0 <= now - at < span; false for the zero time. */
  predicate Within(now: Nanos, at: Option<Nanos>, span: Nanos) {
    at.Some? && 0 <= now - at.value < span
  }

  // ---- The local-stop journal ----

  datatype Phase = Idle | Preparing | Prepared | Confirmed | Uncertain

  datatype LocalStop = LocalStop(
    operation: Option<Uuid>, revision: int, phase: Phase, blocked: bool,
    expected: Option<int>, committed: Option<int>, challenge: Uuid)

  predicate Advancing(expected: Option<int>, committed: Option<int>) {
    && expected.Some? && committed.Some?
    && SafeNonnegative(expected.value) && SafeNonnegative(committed.value)
    && committed.value > expected.value
  }

  /** The shape checks of ParseLocalStopV2. */
  predicate ValidLocalStop(v: LocalStop) {
    && SafeNonnegative(v.revision) && SafeOptional(v.expected) && SafeOptional(v.committed)
    && match v.phase
       case Idle => !v.blocked && v.operation.None? && v.expected.None? && v.committed.None? && v.revision != 0
       case Preparing => v.blocked && v.operation.Some? && v.expected.None? && v.committed.None? && v.revision != 0
       case Prepared => v.blocked && v.operation.Some? && v.expected.Some? && v.committed.None? && v.revision != 0
       case Confirmed => v.blocked && v.operation.Some? && Advancing(v.expected, v.committed) && v.revision != 0
       case Uncertain =>
         && v.blocked
         && (v.revision == 0 ==> v.operation.None? && v.expected.None? && v.committed.None?)
         && (v.revision > 0 && v.committed.Some? ==> Advancing(v.expected, v.committed))
  }

  /** Evidence that sharing is stopped or a stop is under way. */
  predicate Stopping(v: LocalStop) { v.blocked || !v.phase.Idle? }

  datatype Purpose = Reconcile | ApplyConfirmation | OfferPermit

  /** An outstanding journal probe; a consumed probe is no longer in the table. */
  datatype Probe = Probe(
    challenge: Uuid, connection: Uuid, issuedAt: Nanos, deadline: Nanos, purpose: Purpose,
    operation: Option<Uuid>, revision: int, fence: Option<int>, epoch: nat)

  datatype StopMode = QueryMode | ApplyMode

  datatype Attempt = Attempt(
    operation: Uuid, revision: int, challenge: Uuid, connection: Uuid, startedAt: Nanos,
    mode: StopMode, fence: Option<int>, deadline: Nanos, epoch: nat, consumed: bool)

  datatype Query = Query(
    operation: Uuid, revision: int, fence: int, connection: Uuid, epoch: nat, deadline: Nanos, challenge: Uuid)

  // ---- Rider activity and server controls ----

  datatype Activity = Activity(
    boot: Uuid, sequence: int, active: bool, session: Option<Uuid>, member: Option<Uuid>, challenge: Uuid)

  predicate ValidActivity(a: Activity) {
    SafePositive(a.sequence) && (a.session.Some? <==> a.member.Some?)
  }

  datatype Action = Grant | Renew | Clear | Status

  datatype StopResult = Committed | NotFound | Superseded | Expired | Unconfirmed | Failed

  datatype Control = Control(
    connection: Uuid, action: Action, session: Option<Uuid>, member: Option<Uuid>, revision: int,
    transportEpoch: int, stream: Option<Uuid>, challenge: Uuid, leaseTtlMs: int, cadenceMs: Option<int>,
    peers: seq<Uuid>, consent: int,
    stopOperation: Option<Uuid>, stopResult: Option<StopResult>, stopExpected: Option<int>)

  /** The shape checks of validateControlV2; labels and palette entries are not part of this value. */
  predicate ValidControl(c: Control) {
    && SafeNonnegative(c.consent) && SafeNonnegative(c.revision) && SafeNonnegative(c.transportEpoch)
    && SafeNonnegative(c.leaseTtlMs) && |c.peers| <= 5 && SafeOptional(c.stopExpected)
    && var noStop := c.stopOperation.None? && c.stopResult.None? && c.stopExpected.None?;
       match c.action
       case Grant => ValidGrant(c) && noStop
       case Renew => ValidGrant(c) && noStop
       case Clear =>
         && noStop && c.session.Some? && c.member.Some? && c.stream.Some?
         && SafePositive(c.revision) && SafePositive(c.transportEpoch)
         && c.leaseTtlMs == 0 && c.cadenceMs.None? && c.peers == []
       case Status =>
         && c.session.None? && c.member.None? && c.stream.None? && c.revision == 0 && c.transportEpoch == 0
         && c.leaseTtlMs == 0 && c.cadenceMs.None? && c.peers == []
         && match c.stopResult
            case None => noStop
            case Some(result) =>
              && c.stopOperation.Some?
              && match result
                 case Committed => c.stopExpected.Some? && c.consent > c.stopExpected.value
                 case Superseded => c.stopExpected.Some? && c.consent > c.stopExpected.value
                 case Unconfirmed => c.stopExpected.Some? && c.consent > c.stopExpected.value
                 case NotFound => c.stopExpected.None?
                 case Expired => c.stopExpected.None?
                 case Failed => true
  }

  predicate ValidGrant(c: Control) {
    && c.session.Some? && c.member.Some? && c.stream.Some?
    && SafePositive(c.revision) && SafePositive(c.transportEpoch)
    && 1 <= c.leaseTtlMs <= 10_000 && c.cadenceMs.Some? && 1 <= c.cadenceMs.value <= 5_000
  }

  // ---- Peers ----

  datatype PeerPosition = PeerPosition(
    session: Uuid, revision: int, transportEpoch: int, stream: Uuid, peer: Uuid,
    peerStream: Uuid, peerEpoch: int, sequence: int, capturedMs: int, validForMs: int)

  predicate ValidPeerPosition(p: PeerPosition) {
    && SafePositive(p.revision) && SafePositive(p.transportEpoch) && SafePositive(p.peerEpoch)
    && SafePositive(p.sequence) && SafePositive(p.capturedMs) && 0 <= p.validForMs <= 10_000
  }

  /** Every status a peer can report (no_fix, inactive, cleared) closes its stream. */
  datatype PeerCondition = NoFix | Inactive | Cleared

  datatype PeerStatus = PeerStatus(
    session: Uuid, revision: int, transportEpoch: int, stream: Uuid, peer: Uuid,
    peerStream: Uuid, peerEpoch: int, status: PeerCondition)

  predicate ValidPeerStatus(p: PeerStatus) {
    SafePositive(p.revision) && SafePositive(p.transportEpoch) && SafePositive(p.peerEpoch)
  }

  datatype PeerReplay = PeerReplay(
    stream: Uuid, epoch: int, sequence: int, captured: int, status: Option<PeerCondition>, closed: bool)

  // ---- The scooter's own position source ----

  datatype SourceState = SourceNoFix | SourceFixAvailable

  datatype SourceStatus = SourceStatus(
    connection: Option<Uuid>, session: Uuid, member: Uuid, revision: int, transportEpoch: int, stream: Uuid,
    sequence: int, state: SourceState, capturedMs: Option<int>)

  predicate ValidSourceStatus(v: SourceStatus) {
    && v.connection.Some? && SafePositive(v.revision) && SafePositive(v.transportEpoch) && SafePositive(v.sequence)
    && match v.state
       case SourceNoFix => v.capturedMs.None?
       case SourceFixAvailable => v.capturedMs.Some? && SafePositive(v.capturedMs.value)
  }

  // ---- Egress ----

  datatype Content =
    | HelloNotice(helloChallenge: Uuid)
    | ActivityNotice(activity: Activity)
    | PositionFix(session: Uuid, member: Uuid, stream: Uuid, revision: int, epoch: int,
                  generation: nat, capturedAt: Nanos, sequence: int)
    | SourceNotice(status: SourceStatus, statusGeneration: nat)
    | StopRequest(challenge: Uuid, operation: Uuid, fence: Option<int>, mode: StopMode)

  datatype Kind = HelloKind | ActivityKind | PositionKind | SourceKind | StopKind

  function KindOf(c: Content): Kind {
    match c
    case HelloNotice(_) => HelloKind
    case ActivityNotice(_) => ActivityKind
    case PositionFix(_, _, _, _, _, _, _, _) => PositionKind
    case SourceNotice(_, _) => SourceKind
    case StopRequest(_, _, _, _) => StopKind
  }

  datatype Publication = Publication(
    client: Option<nat>, connection: Option<Uuid>, order: nat, expiresAt: Nanos, content: Content)

  datatype Verdict = Offer | Outcome(result: StopResult)

  datatype StopOutcome = StopOutcome(
    operation: Uuid, revision: int, challenge: Uuid, connection: Option<Uuid>, verdict: Verdict,
    expected: Option<int>, committed: Option<int>)

  datatype RedisMessage =
    | ProbeMessage(challenge: Uuid)
    | OutcomeMessage(outcome: StopOutcome)
    | ControlMessage(control: Control)
    | PeerMessage(position: PeerPosition)
    | PeerStatusMessage(status: PeerStatus)

  datatype RedisPublication = RedisPublication(message: RedisMessage, expiresAt: Option<Nanos>, queuedAt: Nanos)

  // ---- The adapter state, grouped by concern ----

  datatype Link = Link(
    client: Option<nat>, up: bool, nonce: Option<Uuid>, connecting: bool, attempt: nat, lastHelloAt: Option<Nanos>)

  datatype Journal = Journal(
    settingsReady: bool, blocked: bool, ready: bool, stop: Option<LocalStop>, stopBlocked: bool, epoch: nat,
    probes: map<Uuid, Probe>, attempts: map<Uuid, Attempt>, used: map<Uuid, LocalStop>,
    query: Option<Query>, probeTimes: seq<Nanos>, permit: Option<Probe>)

  datatype Authority = Authority(
    activity: Option<Activity>, activityAt: Option<Nanos>, boot: Option<Uuid>, activitySequence: int,
    challenges: map<Uuid, Nanos>, grant: Option<Control>, grantAt: Option<Nanos>, grantTtl: Nanos,
    grantActive: bool, cleared: Option<Control>, last: Option<Control>, cadence: Nanos)

  datatype Source = Source(
    generation: nat, sequence: int, lastPositionAt: Option<Nanos>, observedAt: Option<Nanos>,
    closed: bool, fixPending: bool, recoveryAfter: Option<Nanos>, lastStatus: Option<SourceStatus>,
    retryAt: Option<Nanos>, statusGeneration: nat)

  datatype Peers = Peers(scope: Option<Uuid>, streams: map<Uuid, PeerReplay>)

  /** Pending publications by kind, and the publication the MQTT worker has taken but not yet decided on. */
  datatype Egress = Egress(order: nat, pending: map<Kind, Publication>, inHand: Option<Publication>)

  datatype Outbox = Outbox(queue: seq<RedisPublication>, inHand: Option<RedisPublication>)

  datatype State = State(
    link: Link, journal: Journal, authority: Authority, source: Source, peers: Peers, egress: Egress, outbox: Outbox)

  /** The state NewAdapter builds. */
  const INITIAL: State := State(
    Link(None, false, None, false, 0, None),
    Journal(false, false, false, None, false, 0, map[], map[], map[], None, [], None),
    Authority(None, None, None, 0, map[], None, None, 0, false, None, None, 2 * SECOND),
    Source(0, 0, None, None, false, false, None, None, None, 0),
    Peers(None, map[]),
    Egress(0, map[], None),
    Outbox([], None))
}
