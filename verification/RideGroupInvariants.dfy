/** What every step of the adapter keeps, and how far one step can move each fence. */
module RideGroupInvariants {
  import opened Wrappers
  import opened RideGroupTypes
  import opened RideGroupMachine

  predicate HasPending(s: State) {
    PositionKind in s.egress.pending && s.egress.pending[PositionKind].content.PositionFix?
  }

  /** The MQTT worker holds a position it has not decided on. */
  predicate HasTaken(s: State) { s.egress.inHand.Some? && s.egress.inHand.value.content.PositionFix? }

  predicate Stamped(p: Publication, order: nat, generation: nat) {
    p.content.PositionFix? && p.content.generation <= generation && p.order <= order
  }

  /** At most one probe is outstanding; it and the pending query belong to the current connection and IPC epoch, and a
      confirmation probe belongs to the pending query. */
  ghost predicate JournalInv(j: Journal, nonce: Option<Uuid>) {
    && |j.probes| <= 1
    && (forall c | c in j.probes :: ProbeInv(j, nonce, c, j.probes[c]))
    && (forall c | c in j.attempts :: j.attempts[c].challenge == c)
    && (j.query.Some? ==> Some(j.query.value.connection) == nonce && j.query.value.epoch == j.epoch)
  }

  predicate ProbeInv(j: Journal, nonce: Option<Uuid>, c: Uuid, p: Probe) {
    && p.challenge == c && Some(p.connection) == nonce && p.epoch == j.epoch
    && (p.purpose.ApplyConfirmation? && j.query.Some? ==> ProbeOf(j.query.value, p))
  }

  predicate ProbeOf(q: Query, p: Probe) {
    p.operation == Some(q.operation) && p.revision == q.revision && p.fence == Some(q.fence) && p.deadline <= q.deadline
  }

  /** Pending publications sit under their own kind, and no position carries a future order or generation. */
  ghost predicate EgressInv(e: Egress, generation: nat) {
    && (forall k | k in e.pending :: KindOf(e.pending[k].content) == k)
    && (PositionKind in e.pending ==> Stamped(e.pending[PositionKind], e.order, generation))
    && (e.inHand.Some? && e.inHand.value.content.PositionFix? ==> Stamped(e.inHand.value, e.order, generation))
  }

  ghost predicate Inv(s: State) {
    JournalInv(s.journal, s.link.nonce) && EgressInv(s.egress, s.source.generation)
  }

  /** The event makes the journal ready: an idle, unblocked snapshot answering a live probe. */
  predicate OpensJournal(s: State, e: Event) {
    e.ESnapshot? && Receive(s, e.stop, e.now).Accepted? && !Stopping(e.stop)
  }

  predicate Grants(s: State, e: Event) { e.EControl? && AcceptsGrant(s, e.control, e.now) }

  /** The challenges the event may mint for a journal probe. */
  function Mints(e: Event): set<Uuid> {
    match e
    case EConnectFinish(_, _, _, _, _, mint, _) => Minted(mint)
    case ERefreshBlocked(_, _, mint, again, _) => Minted(mint) + Minted(again)
    case ERecoveryDone(mint, _) => Minted(mint)
    case ESnapshot(_, mint, _, _) => Minted(mint)
    case EControl(_, mint, _, _) => Minted(mint)
    case _ => {}
  }

  function Minted(mint: Option<Uuid>): set<Uuid> { if mint.Some? then {mint.value} else {} }

  /** Fences only move forward, nothing is opened, and no stop is confirmed or applied; new probes come from `mints`. */
  ghost predicate Guarded(s: State, t: State, mints: set<Uuid>) {
    && Advances(s, t, mints)
    && t.egress.inHand == s.egress.inHand
    && (t.authority.grant.Some? ==> s.authority.grant.Some?)
    && (t.journal.ready ==> s.journal.ready)
    && StopsQuiet(s, t)
  }

  /** Guarded, with authority only dropped and the peers untouched. */
  ghost predicate Sealed(s: State, t: State, mints: set<Uuid>) {
    Guarded(s, t, mints) && DropsOnly(s, t) && PeersQuiet(s, t)
  }

  /** Sealed, and the authority history survives: what most handlers keep to. */
  ghost predicate Fenced(s: State, t: State, mints: set<Uuid>) {
    Sealed(s, t, mints) && HistoryKept(s, t)
  }

  predicate HasStop(s: State) {
    StopKind in s.egress.pending && s.egress.pending[StopKind].content.StopRequest?
  }

  /** No confirmation is started, no query appears and no apply-mode stop is queued. */
  ghost predicate StopsQuiet(s: State, t: State) {
    && (forall c | c in t.journal.probes && t.journal.probes[c].purpose.ApplyConfirmation? ::
          c in s.journal.probes && s.journal.probes[c] == t.journal.probes[c])
    && (t.journal.query == s.journal.query || t.journal.query.None?)
    && NoApplyQueued(s, t)
  }

  predicate NoApplyQueued(s: State, t: State) {
    HasStop(t) && t.egress.pending[StopKind].content.mode.ApplyMode? ==>
      HasStop(s) && s.egress.pending[StopKind] == t.egress.pending[StopKind]
  }

  /** The grant and its lease are kept or dropped, and no challenge appears. */
  ghost predicate DropsOnly(s: State, t: State) {
    && LeaseKept(s, t)
    && (forall c | c in t.authority.challenges ::
          c in s.authority.challenges && s.authority.challenges[c] == t.authority.challenges[c])
  }

  ghost predicate AuthorityQuiet(s: State, t: State) { DropsOnly(s, t) && HistoryKept(s, t) }

  predicate HistoryKept(s: State, t: State) {
    t.authority.last == s.authority.last && t.authority.cleared == s.authority.cleared
  }

  predicate LeaseKept(s: State, t: State) {
    t.authority.grant.Some? ==>
      && t.authority.grant == s.authority.grant && t.authority.grantAt == s.authority.grantAt
      && t.authority.grantTtl == s.authority.grantTtl
  }

  /** The replay table is untouched and no peer position is queued. */
  ghost predicate PeersQuiet(s: State, t: State) {
    && t.peers == s.peers && t.outbox.inHand == s.outbox.inHand
    && (forall p: Uuid :: Suffix(Positions(t.outbox.queue, p), Positions(s.outbox.queue, p)))
  }

  /** The positions of peer p in a Redis queue, in order. */
  function Positions(queue: seq<RedisPublication>, p: Uuid): seq<PeerPosition> {
    if queue == [] then []
    else
      (if queue[0].message.PeerMessage? && queue[0].message.position.peer == p then [queue[0].message.position] else [])
      + Positions(queue[1..], p)
  }

  predicate Suffix<T(==)>(x: seq<T>, y: seq<T>) { |x| <= |y| && x == y[|y| - |x|..] }

  lemma {:induction false} PositionsAppend(a: seq<RedisPublication>, b: seq<RedisPublication>, p: Uuid)
    ensures Positions(a + b, p) == Positions(a, p) + Positions(b, p)
  {
    if a == [] {
      assert a + b == b;
    } else {
      assert (a + b)[1..] == a[1..] + b;
      PositionsAppend(a[1..], b, p);
    }
  }

  /** A full queue may lose its oldest entry; the rest stays in order and the message goes last. */
  lemma QueueRedisAppends(s: State, message: RedisMessage, maxAge: Nanos, now: Nanos, p: Uuid)
    ensures exists kept ::
      && Suffix(kept, Positions(s.outbox.queue, p))
      && Positions(QueueRedis(s, message, maxAge, now).outbox.queue, p)
         == kept + (if message.PeerMessage? && message.position.peer == p then [message.position] else [])
  {
    var entry := RedisPublication(message, if maxAge > 0 then Some(now + maxAge) else None, now);
    var queue := s.outbox.queue;
    var kept := if |queue| < REDIS_QUEUE_SIZE then queue else queue[1..];
    PositionsAppend(kept, [entry], p);
    assert Suffix(Positions(kept, p), Positions(queue, p));
  }

  lemma QuietRedis(s: State, message: RedisMessage, maxAge: Nanos, now: Nanos)
    requires !message.PeerMessage?
    ensures PeersQuiet(s, QueueRedis(s, message, maxAge, now))
  {
    forall p: Uuid
      ensures Suffix(Positions(QueueRedis(s, message, maxAge, now).outbox.queue, p), Positions(s.outbox.queue, p))
    {
      QueueRedisAppends(s, message, maxAge, now, p);
    }
  }

  ghost predicate Advances(s: State, t: State, mints: set<Uuid>) {
    && t.source.generation >= s.source.generation && t.egress.order >= s.egress.order
    && t.journal.epoch >= s.journal.epoch
    && (t.link.nonce != s.link.nonce ==> t.journal.epoch > s.journal.epoch)
    && (forall c | c in t.journal.probes :: c in s.journal.probes || c in mints)
    && NewPosition(s, t)
  }

  /** A position queued by the step carries a new order number and was queued under a grant. */
  ghost predicate NewPosition(s: State, t: State) {
    HasPending(t) ==>
      || (HasPending(s) && t.egress.pending[PositionKind] == s.egress.pending[PositionKind])
      || (s.authority.grant.Some? && t.egress.pending[PositionKind].order > s.egress.order)
  }

  lemma ComposePeers(s: State, t: State, u: State)
    requires PeersQuiet(s, t) && PeersQuiet(t, u)
    ensures PeersQuiet(s, u)
  {
    hide Positions;
    forall p: Uuid ensures Suffix(Positions(u.outbox.queue, p), Positions(s.outbox.queue, p)) {
      assert Suffix(Positions(t.outbox.queue, p), Positions(s.outbox.queue, p));
      assert Suffix(Positions(u.outbox.queue, p), Positions(t.outbox.queue, p));
    }
  }

  lemma SamePeers(s: State, t: State)
    requires t.peers == s.peers && t.outbox == s.outbox
    ensures PeersQuiet(s, t)
  {
    hide Positions;
  }

  lemma Compose(s: State, t: State, u: State, m: set<Uuid>, n: set<Uuid>, mints: set<Uuid>)
    requires Fenced(s, t, m) && Fenced(t, u, n) && m <= mints && n <= mints
    ensures Fenced(s, u, mints)
  {
    hide PeersQuiet;
    ComposePeers(s, t, u);
  }

  lemma Widen(s: State, t: State, mints: set<Uuid>)
    requires Fenced(s, t, {})
    ensures Fenced(s, t, mints)
  {
    hide PeersQuiet;
  }

  lemma Unmoved(s: State, mints: set<Uuid>)
    ensures Fenced(s, s, mints)
  {
    hide Positions;
  }

  lemma QueueKeeps(s: State, content: Content, expiresAt: Nanos)
    requires Inv(s) && !content.PositionFix? && !(content.StopRequest? && content.mode.ApplyMode?)
    ensures Inv(Queue(s, content, expiresAt)) && Fenced(s, Queue(s, content, expiresAt), {})
  {
    hide PeersQuiet;
    SamePeers(s, Queue(s, content, expiresAt));
  }

  lemma HelloKeeps(s: State, challenge: Option<Uuid>, now: Nanos)
    requires Inv(s)
    ensures Inv(PublishHello(s, challenge, now)) && Fenced(s, PublishHello(s, challenge, now), {})
    ensures PublishHello(s, challenge, now).journal == s.journal
  {
    hide PeersQuiet;
    SamePeers(s, PublishHello(s, challenge, now));
  }

  lemma ClearGrantKeeps(s: State)
    requires Inv(s)
    ensures Inv(ClearGrant(s)) && Fenced(s, ClearGrant(s), {})
    ensures ClearGrant(s).journal == s.journal
    ensures ClearGrant(s).authority == s.authority.(grant := None, grantActive := false, grantAt := None, grantTtl := 0)
  {
    hide PeersQuiet, JournalInv;
    SamePeers(s, ClearGrant(s));
  }

  lemma InhibitKeeps(s: State)
    requires Inv(s)
    ensures Inv(Inhibit(s)) && Fenced(s, Inhibit(s), {})
  {
    hide ClearGrant, Inv, Sealed;
    var closed := ForgetAttempts(ForgetActivity(s));
    var forgotten := closed.(journal := closed.journal.(
      ready := false, stopBlocked := true, permit := None, epoch := closed.journal.epoch + 1));
    ForgetKeeps(s, forgotten);
    ClearGrantKeeps(forgotten);
    SealedThenFenced(s, forgotten, ClearGrant(forgotten), {});
  }

  lemma ReinhibitKeeps(s: State)
    requires Inv(s)
    ensures Inv(Reinhibit(s)) && Fenced(s, Reinhibit(s), {})
  {
    hide Inhibit, Inv, Sealed;
    var inhibited := Inhibit(s);
    InhibitKeeps(s);
    InhibitEmpties(s);
    var raised := inhibited.journal.(epoch := inhibited.journal.epoch + 1, used := map[]);
    ForgetKeeps(inhibited, inhibited.(journal := raised));
    Compose(s, inhibited, inhibited.(journal := raised), {}, {}, {});
  }

  /** A journal with nothing outstanding and a later epoch, and an authority that only forgets, open nothing. */
  lemma ForgetKeeps(s: State, t: State)
    requires Inv(s)
    requires t.source == s.source && t.peers == s.peers && t.egress == s.egress && t.outbox == s.outbox
    requires t.journal.probes == map[] && t.journal.attempts == map[] && t.journal.query.None?
    requires t.journal.epoch > s.journal.epoch && !t.journal.ready
    requires LeaseKept(s, t) && t.authority.challenges == map[]
    ensures Inv(t) && Sealed(s, t, {})
  {
    hide PeersQuiet, EgressInv;
    SamePeers(s, t);
  }

  lemma FenceKeeps(s: State, source: Source)
    requires Inv(s) && source.generation >= s.source.generation
    ensures Inv(InvalidatePositions(s.(source := source))) && Fenced(s, InvalidatePositions(s.(source := source)), {})
    ensures Inv(s.(source := source)) && Fenced(s, s.(source := source), {})
  {
    hide PeersQuiet, JournalInv;
    SamePeers(s, s.(source := source));
    SamePeers(s, InvalidatePositions(s.(source := source)));
  }

  lemma SealedThenFenced(s: State, t: State, u: State, mints: set<Uuid>)
    requires Sealed(s, t, {}) && Fenced(t, u, mints)
    ensures Sealed(s, u, mints) && HistoryKept(t, u)
  {
    hide PeersQuiet;
    ComposePeers(s, t, u);
  }

  lemma RevokeKeeps(s: State, t: State)
    requires Inv(t) && Sealed(s, t, {})
    ensures var u := ClearGrant(InvalidatePositions(t)); Inv(u) && Sealed(s, u, {}) && HistoryKept(t, u)
  {
    hide ClearGrant, InvalidatePositions, Inv, Sealed;
    var fenced := InvalidatePositions(t.(source := t.source));
    FenceKeeps(t, t.source);
    ClearGrantKeeps(fenced);
    SealedThenFenced(s, t, fenced, {});
    SealedThenFenced(s, fenced, ClearGrant(fenced), {});
  }

  /** A connection reset also forgets the authority history. */
  ghost predicate Anew(s: State, t: State, mints: set<Uuid>) {
    Sealed(s, t, mints) && t.authority.last.None? && t.authority.cleared.None?
  }

  lemma ResetKeeps(s: State, client: Option<nat>, nonce: Option<Uuid>)
    requires Inv(s)
    ensures Inv(ResetConnection(s, client, nonce)) && Anew(s, ResetConnection(s, client, nonce), {})
  {
    hide ClearGrant, InvalidatePositions, Inv, Sealed;
    var linked := s.(link := s.link.(client := client, up := client.Some?, nonce := nonce, lastHelloAt := None));
    var forgotten := ForgetAttempts(ForgetActivity(linked));
    var reset := forgotten.(
      journal := forgotten.journal.(
        permit := None, ready := false, epoch := forgotten.journal.epoch + 1, stop := None, stopBlocked := false),
      authority := forgotten.authority.(cleared := None, last := None));
    ForgetKeeps(s, reset);
    RevokeKeeps(s, reset);
  }

  lemma LinkThenAnew(s: State, link: Link, u: State, mints: set<Uuid>)
    requires link.nonce == s.link.nonce && Anew(s.(link := link), u, mints)
    ensures Anew(s, u, mints)
  {
    hide PeersQuiet;
    SamePeers(s, s.(link := link));
    ComposePeers(s, s.(link := link), u);
  }

  lemma FailClosedKeeps(s: State)
    requires Inv(s)
    ensures Inv(FailClosed(s)) && Fenced(s, FailClosed(s), {})
  {
    hide ClearGrant, InvalidatePositions, Inv, Sealed;
    var forgotten := ForgetAttempts(ForgetActivity(s));
    var failed := forgotten.(journal := forgotten.journal.(
      settingsReady := false, permit := None, ready := false, stopBlocked := true, stop := None,
      epoch := forgotten.journal.epoch + 1));
    ForgetKeeps(s, failed);
    RevokeKeeps(s, failed);
  }

  lemma LinkKeeps(s: State, link: Link)
    requires Inv(s) && link.nonce == s.link.nonce
    ensures Inv(s.(link := link)) && Fenced(s, s.(link := link), {})
  {
    hide PeersQuiet;
    SamePeers(s, s.(link := link));
  }

  /** The event replaces or drops the connection. */
  predicate Resets(s: State, e: Event) {
    match e
    case EConnectFinish(_, attempt, _, subscribed, _, _, _) => s.link.attempt == attempt && subscribed
    case EDisconnect(client) => s.link.client == Some(client)
    case _ => false
  }

  ghost predicate FencedOrAnew(s: State, e: Event, t: State, mints: set<Uuid>) {
    if Resets(s, e) then Anew(s, t, mints) else Fenced(s, t, mints)
  }

  lemma DisconnectKeeps(s: State, client: nat)
    requires Inv(s)
    ensures Inv(Disconnect(s, client)) && FencedOrAnew(s, EDisconnect(client), Disconnect(s, client), {})
  {
    hide ResetConnection, Fenced, Anew, Inv;
    Unmoved(s, {});
    if s.link.client == Some(client) || s.link.connecting {
      var idle := s.(link := s.link.(attempt := s.link.attempt + 1, connecting := false));
      LinkKeeps(s, idle.link);
      if s.link.client == Some(client) {
        ResetKeeps(idle, None, None);
        LinkThenAnew(s, idle.link, ResetConnection(idle, None, None), {});
      }
    }
  }

  lemma LiveProbesFew(s: State, now: Nanos)
    requires Inv(s)
    ensures |LiveProbes(s, now)| <= 1
  {
    assert LiveProbes(s, now).Keys <= s.journal.probes.Keys;
    SubsetCard(LiveProbes(s, now).Keys, s.journal.probes.Keys);
  }

  lemma {:induction false} SubsetCard<T>(a: set<T>, b: set<T>)
    requires a <= b
    ensures |a| <= |b|
  {
    if a != {} {
      var x :| x in a;
      SubsetCard(a - {x}, b - {x});
    }
  }

  lemma PurgeKeeps(s: State, now: Nanos, times: seq<Nanos>)
    requires Inv(s)
    ensures var t := s.(journal := s.journal.(probes := LiveProbes(s, now), probeTimes := times));
            Inv(t) && Fenced(s, t, {})
  {
    hide PeersQuiet;
    LiveProbesFew(s, now);
    SamePeers(s, s.(journal := s.journal.(probes := LiveProbes(s, now), probeTimes := times)));
  }

  lemma QueueRedisKeeps(s: State, message: RedisMessage, maxAge: Nanos, now: Nanos)
    requires Inv(s) && !message.PeerMessage?
    ensures Inv(QueueRedis(s, message, maxAge, now)) && Fenced(s, QueueRedis(s, message, maxAge, now), {})
  {
    hide Positions;
    QuietRedis(s, message, maxAge, now);
  }

  /** A probe for confirmation must carry the pending query. */
  predicate FitsQuery(s: State, purpose: Purpose, query: Option<Query>) {
    purpose.ApplyConfirmation? ==> query.Some? && query == s.journal.query
  }

  /** Only the probe table and its rate limit changed. */
  predicate OnlyProbes(s: State, t: State) {
    t == s.(journal := s.journal.(probes := t.journal.probes, probeTimes := t.journal.probeTimes), outbox := t.outbox)
  }

  lemma AdmitKeeps(s: State, now: Nanos)
    requires Inv(s)
    ensures var t := AdmitProbe(s, now).0;
      && Inv(t) && OnlyProbes(s, t) && t.outbox == s.outbox && (AdmitProbe(s, now).1 ==> t.journal.probes == map[])
      && forall c | c in t.journal.probes :: c in s.journal.probes && s.journal.probes[c] == t.journal.probes[c]
  {
    hide EgressInv, Recent;
    LiveProbesFew(s, now);
  }

  lemma RecordKeeps(s: State, c: Uuid, probe: Probe, now: Nanos)
    requires Inv(s) && s.journal.probes == map[] && ProbeInv(s.journal, s.link.nonce, c, probe)
    ensures var t := RecordProbe(s, c, probe, now);
      Inv(t) && OnlyProbes(s, t) && PeersQuiet(s, t) && t.journal.probes == map[c := probe]
  {
    hide EgressInv, PeersQuiet, Positions;
    var recorded := s.(journal := s.journal.(probes := s.journal.probes[c := probe],
                                  probeTimes := s.journal.probeTimes + [now]));
    SamePeers(s, recorded);
    QuietRedis(recorded, ProbeMessage(c), ATTEMPT_LIFETIME, now);
    ComposePeers(s, recorded, RecordProbe(s, c, probe, now));
    QueuesOnly(recorded, ProbeMessage(c), ATTEMPT_LIFETIME, now);
  }

  lemma NewProbeFits(s: State, purpose: Purpose, query: Option<Query>, c: Uuid, now: Nanos)
    requires Inv(s) && FitsQuery(s, purpose, query) && s.link.nonce.Some?
    ensures ProbeInv(s.journal, s.link.nonce, c, NewProbe(s, purpose, query, c, now))
    ensures query.Some? ==> ProbeOf(query.value, NewProbe(s, purpose, query, c, now))
    ensures NewProbe(s, purpose, query, c, now).purpose == purpose
  {
    hide JournalInv, EgressInv;
  }

  /** A probe for the query was minted now. */
  predicate MintedNow(s: State, purpose: Purpose, query: Option<Query>, mint: Option<Uuid>, c: Uuid, probe: Probe) {
    mint == Some(c) && probe.purpose == purpose && (query.Some? ==> ProbeOf(query.value, probe))
  }

  /** Issuing a probe leaves everything but the probe table, its rate limit and the Redis queue. */
  lemma IssueKeeps(s: State, purpose: Purpose, query: Option<Query>, mint: Option<Uuid>, now: Nanos)
    requires Inv(s) && FitsQuery(s, purpose, query)
    ensures var t := IssueProbe(s, purpose, query, mint, now).0;
      && Inv(t) && PeersQuiet(s, t) && OnlyProbes(s, t)
      && forall c | c in t.journal.probes ::
            || (c in s.journal.probes && s.journal.probes[c] == t.journal.probes[c])
            || (MintedNow(s, purpose, query, mint, c, t.journal.probes[c])
                && IssueProbe(s, purpose, query, mint, now).1)
  {
    hide Inv, PeersQuiet, AdmitProbe, RecordProbe, NewProbe, ProbeInv, ProbeOf;
    SamePeers(s, s);
    if CanProbe(s) {
      AdmitKeeps(s, now);
      var admitted := AdmitProbe(s, now).0;
      SamePeers(s, admitted);
      if AdmitProbe(s, now).1 && mint.Some? {
        var probe := NewProbe(admitted, purpose, query, mint.value, now);
        NewProbeFits(admitted, purpose, query, mint.value, now);
        RecordKeeps(admitted, mint.value, probe, now);
        ComposePeers(s, admitted, RecordProbe(admitted, mint.value, probe, now));
      }
    }
  }

  lemma ProbeKeeps(s: State, mint: Option<Uuid>, now: Nanos)
    requires Inv(s)
    ensures Inv(Reprobe(s, mint, now)) && Fenced(s, Reprobe(s, mint, now), Minted(mint))
  {
    hide Inv, PeersQuiet, IssueProbe;
    IssueKeeps(s, Reconcile, None, mint, now);
  }

  lemma GreetKeeps(s: State, hello: Option<Uuid>, mint: Option<Uuid>, now: Nanos)
    requires Inv(s)
    ensures Inv(Greet(s, hello, mint, now)) && Fenced(s, Greet(s, hello, mint, now), Minted(mint))
  {
    hide PublishHello, Reprobe, Fenced, Inv;
    var greeted := PublishHello(s, hello, now);
    HelloKeeps(s, hello, now);
    ProbeKeeps(greeted, mint, now);
    Compose(s, greeted, Greet(s, hello, mint, now), {}, Minted(mint), Minted(mint));
  }

  lemma AnewThenFenced(s: State, t: State, u: State, mints: set<Uuid>)
    requires Anew(s, t, {}) && Fenced(t, u, mints)
    ensures Anew(s, u, mints)
  {
    hide Sealed;
    SealedThenFenced(s, t, u, mints);
  }

  lemma ConnectKeeps(s: State, e: Event)
    requires Inv(s) && e.EConnectFinish?
    ensures Inv(Step(s, e)) && FencedOrAnew(s, e, Step(s, e), Minted(e.mint))
  {
    hide ResetConnection, Greet, Fenced, Anew, Inv;
    Unmoved(s, Minted(e.mint));
    if s.link.attempt == e.attempt {
      var idle := s.(link := s.link.(connecting := false));
      LinkKeeps(s, idle.link);
      Widen(s, idle, Minted(e.mint));
      if e.subscribed {
        var reset := ResetConnection(idle, Some(e.client), Some(e.nonce));
        ResetKeeps(idle, Some(e.client), Some(e.nonce));
        GreetKeeps(reset, e.hello, e.mint, e.now);
        AnewThenFenced(idle, reset, Greet(reset, e.hello, e.mint, e.now), Minted(e.mint));
        LinkThenAnew(s, idle.link, Greet(reset, e.hello, e.mint, e.now), Minted(e.mint));
      }
    }
  }

  lemma SettingsKeep(s: State, blocked: bool)
    requires Inv(s)
    ensures var t := s.(journal := s.journal.(blocked := blocked, settingsReady := true)); Inv(t) && Fenced(s, t, {})
  {
    hide PeersQuiet;
    SamePeers(s, s.(journal := s.journal.(blocked := blocked, settingsReady := true)));
  }

  lemma RefreshKeeps(s: State, blocked: bool, hello: Option<Uuid>, mint: Option<Uuid>, again: Option<Uuid>, now: Nanos)
    requires Inv(s)
    ensures Inv(RefreshBlocked(s, blocked, hello, mint, again, now))
    ensures Fenced(s, RefreshBlocked(s, blocked, hello, mint, again, now), Minted(mint) + Minted(again))
  {
    hide Greet, Reinhibit, Reprobe, Fenced, Inv;
    var noted := s.(journal := s.journal.(blocked := blocked, settingsReady := true));
    SettingsKeep(s, blocked);
    Unmoved(noted, Minted(mint));
    GreetKeeps(noted, hello, mint, now);
    var greeted := if !s.journal.settingsReady && Connected(noted) then Greet(noted, hello, mint, now) else noted;
    Compose(s, noted, greeted, {}, Minted(mint), Minted(mint));
    Unmoved(greeted, Minted(again));
    Compose(s, greeted, greeted, Minted(mint), Minted(again), Minted(mint) + Minted(again));
    if blocked || s.journal.blocked {
      var inhibited := Reinhibit(greeted);
      ReinhibitKeeps(greeted);
      ProbeKeeps(inhibited, again, now);
      Compose(s, greeted, inhibited, Minted(mint), {}, Minted(mint));
      Compose(s, inhibited, Reprobe(inhibited, again, now), Minted(mint), Minted(again), Minted(mint) + Minted(again));
    }
  }

  lemma AnnounceKeeps(s: State, a: Activity, now: Nanos)
    requires Inv(s)
    ensures Inv(PublishActivity(s, a, now)) && Fenced(s, PublishActivity(s, a, now), {})
  {
    hide Queue, Fenced, Inv;
    Unmoved(s, {});
    QueueKeeps(s, ActivityNotice(a), now + 5 * SECOND);
  }

  // ---- Rider activity ----

  /** Recording an activity adds its challenge, stamped with the current time. */
  ghost predicate ActivityMoves(s: State, t: State, challenge: Uuid, now: Nanos) {
    && Guarded(s, t, {}) && PeersQuiet(s, t) && t.journal == s.journal && LeaseKept(s, t) && HistoryKept(s, t)
    && (forall c | c in t.authority.challenges ::
          || (c in s.authority.challenges && s.authority.challenges[c] == t.authority.challenges[c])
          || (c == challenge && t.authority.challenges[c] == now))
  }

  lemma AuthorityKeeps(s: State, authority: Authority)
    requires Inv(s) && (authority.grant.Some? ==> s.authority.grant.Some?)
    ensures Inv(s.(authority := authority)) && Guarded(s, s.(authority := authority), {})
    ensures PeersQuiet(s, s.(authority := authority))
  {
    hide PeersQuiet, EgressInv, JournalInv;
    SamePeers(s, s.(authority := authority));
  }

  lemma ComposeGuarded(s: State, t: State, u: State)
    requires Guarded(s, t, {}) && Guarded(t, u, {}) && PeersQuiet(s, t) && PeersQuiet(t, u)
    ensures Guarded(s, u, {}) && PeersQuiet(s, u)
  {
    hide PeersQuiet;
    ComposePeers(s, t, u);
  }

  lemma ActivityKeeps(s: State, a: Activity, dropped: set<Uuid>, now: Nanos)
    requires Inv(s) && AcceptsActivity(s, a, now)
    ensures Inv(HandleActivity(s, a, dropped, now))
    ensures ActivityMoves(s, HandleActivity(s, a, dropped, now), a.challenge, now)
  {
    hide PeersQuiet, Guarded, ClearGrant, Inv, AcceptsActivity, PublishActivity, PublishHello;
    var noted := s.(authority := s.authority.(
      activity := Some(a), boot := Some(a.boot), activitySequence := a.sequence, activityAt := Some(now)));
    AuthorityKeeps(s, noted.authority);
    ClearGrantKeeps(noted);
    Unmoved(noted, {});
    var cleared := if a.active then noted else ClearGrant(noted);
    FencedIsGuarded(noted, cleared, {});
    ComposeGuarded(s, noted, cleared);
    var recorded := RecordActivity(s, a, dropped, now);
    AuthorityKeeps(cleared, recorded.authority);
    ComposeGuarded(s, cleared, recorded);
    assert ActivityMoves(s, recorded, a.challenge, now);
    var greeted := PublishHello(recorded, Some(a.challenge), now);
    HelloKeeps(recorded, Some(a.challenge), now);
    FencedIsGuarded(recorded, greeted, {});
    ComposeGuarded(s, recorded, greeted);
    AnnounceKeeps(greeted, a, now);
    FencedIsGuarded(greeted, PublishActivity(greeted, a, now), {});
    ComposeGuarded(s, greeted, PublishActivity(greeted, a, now));
    AnnounceSame(recorded, a, now);
  }

  lemma AnnounceSame(s: State, a: Activity, now: Nanos)
    ensures var greeted := PublishHello(s, Some(a.challenge), now);
      && greeted.authority == s.authority && greeted.journal == s.journal
      && PublishActivity(greeted, a, now).authority == s.authority
      && PublishActivity(greeted, a, now).journal == s.journal
  {
  }

  // ---- Server controls ----

  /** A clear ends the grant and remembers itself. */
  ghost predicate ClearMoves(s: State, c: Control, t: State) {
    && Guarded(s, t, {}) && PeersQuiet(s, t) && t.journal == s.journal && t.authority.grant.None?
    && t.authority.challenges == map[] && t.authority.last == s.authority.last
    && t.authority.cleared == (if s.authority.grant.Some? then Some(c) else s.authority.cleared)
  }

  predicate ActsOnClear(s: State, c: Control) {
    if s.authority.grant.Some? then RevokesGrant(s, c) else !s.journal.stopBlocked
  }

  lemma ClearKeeps(s: State, c: Control, now: Nanos)
    requires Inv(s) && ActsOnClear(s, c)
    ensures Inv(HandleClear(s, c, now)) && ClearMoves(s, c, HandleClear(s, c, now))
  {
    hide PeersQuiet, Guarded, ClearGrant, Inv, QueueRedis;
    var noted := s.(authority := s.authority.(cleared := Some(c)));
    AuthorityKeeps(s, noted.authority);
    var revoked := if s.authority.grant.None? then s else ClearGrant(noted);
    ClearGrantKeeps(noted);
    FencedIsGuarded(noted, ClearGrant(noted), {});
    ComposeGuarded(s, noted, ClearGrant(noted));
    Unmoved(s, {});
    FencedIsGuarded(s, s, {});
    var forgotten := revoked.(authority :=
      if s.authority.grant.None? then revoked.authority.(challenges := map[])
      else revoked.authority.(activity := None, activityAt := None, challenges := map[]));
    AuthorityKeeps(revoked, forgotten.authority);
    ComposeGuarded(s, revoked, forgotten);
    QueueRedisKeeps(forgotten, ControlMessage(c), 0, now);
    FencedIsGuarded(forgotten, QueueRedis(forgotten, ControlMessage(c), 0, now), {});
    ComposeGuarded(s, forgotten, QueueRedis(forgotten, ControlMessage(c), 0, now));
    QueuesOnly(forgotten, ControlMessage(c), 0, now);
  }

  lemma QueuesOnly(s: State, message: RedisMessage, maxAge: Nanos, now: Nanos)
    ensures QueueRedis(s, message, maxAge, now) == s.(outbox := QueueRedis(s, message, maxAge, now).outbox)
  {
  }

  lemma OfferKeeps(s: State, c: Control, now: Nanos)
    requires Inv(s)
    ensures Inv(SendOffer(s, c, now)) && Fenced(s, SendOffer(s, c, now), {})
  {
    hide Positions, QueueRedis, Inv, Fenced;
    Unmoved(s, {});
    if MayOffer(s, c, now) {
      var used := s.(journal := s.journal.(permit := None));
      PermitKeeps(s, used);
      var p := s.journal.permit.value;
      var offer := StopOutcome(p.operation.value, p.revision, p.challenge, s.link.nonce, Offer, Some(c.consent), None);
      QueueRedisKeeps(used, OutcomeMessage(offer), p.deadline - now, now);
      Compose(s, used, SendOffer(s, c, now), {}, {}, {});
    }
  }

  lemma ReportStopKeeps(s: State, c: Control, a: Attempt, now: Nanos)
    requires Inv(s) && c.stopResult.Some? && a.challenge == c.challenge
    ensures Inv(ReportStop(s, c, a, now)) && Fenced(s, ReportStop(s, c, a, now), {})
    ensures ReportStop(s, c, a, now).journal
            == s.journal.(attempts := s.journal.attempts[c.challenge := a.(consumed := true)])
    ensures ReportStop(s, c, a, now).link == s.link
  {
    hide Inv, Fenced, QueueRedis;
    var result := c.stopResult.value;
    var outcome := StopOutcome(
      a.operation, a.revision, a.challenge, Some(a.connection), Outcome(result), c.stopExpected,
      if result.Committed? || result.Superseded? || result.Unconfirmed? then Some(c.consent) else None);
    var attempts := s.journal.attempts[c.challenge := a.(consumed := true)];
    var consumed := s.(journal := s.journal.(attempts := attempts));
    forall k | k in attempts ensures attempts[k].challenge == k {
      if k != c.challenge { AttemptKeyed(s, k); }
    }
    AttemptsKeep(s, attempts);
    QueueRedisKeeps(consumed, OutcomeMessage(outcome), a.deadline - now, now);
    QueuesOnly(consumed, OutcomeMessage(outcome), a.deadline - now, now);
    Compose(s, consumed, ReportStop(s, c, a, now), {}, {}, {});
  }

  /** The server answered "not found" to the pending query, so the journal may be re-read for confirmation. */
  predicate StartsConfirmation(s: State, c: Control, now: Nanos) {
    && c.stopResult == Some(NotFound) && AnswersAttempt(s, c, now)
    && var a := s.journal.attempts[c.challenge];
       a.mode.QueryMode? && !Contradicts(s, c, a) && QueryMatches(s, a, now)
  }

  ghost predicate Loosely(s: State, t: State, mints: set<Uuid>) {
    && Advances(s, t, mints) && t.egress.inHand == s.egress.inHand
    && (t.authority.grant.Some? ==> s.authority.grant.Some?) && (t.journal.ready ==> s.journal.ready)
    && AuthorityQuiet(s, t) && PeersQuiet(s, t) && NoApplyQueued(s, t)
    && (t.journal.query == s.journal.query || t.journal.query.None?)
  }

  /** Every confirmation probe after the step was there before, or was minted now for the pending query. */
  ghost predicate ConfirmsOnly(s: State, t: State, mints: set<Uuid>) {
    forall c | c in t.journal.probes && t.journal.probes[c].purpose.ApplyConfirmation? ::
      || (c in s.journal.probes && s.journal.probes[c] == t.journal.probes[c])
      || (c in mints && s.journal.query.Some? && t.journal.query == s.journal.query
          && ProbeOf(s.journal.query.value, t.journal.probes[c]))
  }

  lemma FencedIsLoose(s: State, t: State, mints: set<Uuid>)
    requires Fenced(s, t, mints)
    ensures Loosely(s, t, mints) && ConfirmsOnly(s, t, mints)
  {
    hide PeersQuiet;
  }

  lemma ConfirmKeeps(s: State, mint: Option<Uuid>, now: Nanos)
    requires Inv(s) && s.journal.query.Some?
    ensures Inv(Confirm(s, mint, now))
    ensures Loosely(s, Confirm(s, mint, now), Minted(mint)) && ConfirmsOnly(s, Confirm(s, mint, now), Minted(mint))
  {
    hide Inv, PeersQuiet, IssueProbe, Loosely, ConfirmsOnly, DropQuery, ProbeOf;
    var issued := IssueProbe(s, ApplyConfirmation, s.journal.query, mint, now);
    IssueKeeps(s, ApplyConfirmation, s.journal.query, mint, now);
    ProbesOnlyLoosely(s, issued.0, mint);
    if issued.1 {
      MintedConfirms(s, issued.0, mint);
    } else {
      DropQueryKeeps(issued.0);
      DroppedConfirms(s, issued.0, mint);
    }
  }

  lemma ProbesOnlyLoosely(s: State, t: State, mint: Option<Uuid>)
    requires OnlyProbes(s, t) && PeersQuiet(s, t)
    requires forall c | c in t.journal.probes :: c in s.journal.probes || mint == Some(c)
    ensures Loosely(s, t, Minted(mint))
  {
    hide PeersQuiet;
  }

  lemma MintedConfirms(s: State, t: State, mint: Option<Uuid>)
    requires OnlyProbes(s, t) && s.journal.query.Some?
    requires forall c | c in t.journal.probes ::
      || (c in s.journal.probes && s.journal.probes[c] == t.journal.probes[c])
      || MintedNow(s, ApplyConfirmation, s.journal.query, mint, c, t.journal.probes[c])
    ensures ConfirmsOnly(s, t, Minted(mint))
  {
    hide ProbeOf;
  }

  /** Without a new probe the pending query may go as well. */
  lemma DroppedConfirms(s: State, t: State, mint: Option<Uuid>)
    requires Loosely(s, t, Minted(mint))
    requires forall c | c in t.journal.probes :: c in s.journal.probes && s.journal.probes[c] == t.journal.probes[c]
    ensures Loosely(s, DropQuery(t), Minted(mint)) && ConfirmsOnly(s, DropQuery(t), Minted(mint))
  {
    hide PeersQuiet;
    SamePeers(t, DropQuery(t));
    ComposePeers(s, t, DropQuery(t));
  }

  lemma LoosenAfter(s: State, t: State, u: State, mints: set<Uuid>)
    requires Fenced(s, t, {}) && Loosely(t, u, mints) && ConfirmsOnly(t, u, mints)
    requires t.journal.query == s.journal.query && t.journal.probes == s.journal.probes
    ensures Loosely(s, u, mints) && ConfirmsOnly(s, u, mints)
  {
    hide PeersQuiet;
    ComposePeers(s, t, u);
  }

  lemma DropQueryKeeps(s: State)
    requires Inv(s)
    ensures Inv(DropQuery(s)) && Fenced(s, DropQuery(s), {})
  {
    hide PeersQuiet;
    SamePeers(s, DropQuery(s));
  }

  lemma AttemptKeyed(s: State, c: Uuid)
    requires Inv(s) && c in s.journal.attempts
    ensures s.journal.attempts[c].challenge == c
  {
  }

  lemma StopStatusKeeps(s: State, c: Control, mint: Option<Uuid>, now: Nanos)
    requires Inv(s) && c.stopResult.Some?
    ensures var t := HandleStopStatus(s, c, mint, now);
      && Inv(t) && Loosely(s, t, Minted(mint)) && ConfirmsOnly(s, t, Minted(mint))
      && (StopsQuiet(s, t) || StartsConfirmation(s, c, now))
  {
    hide Inhibit, ReportStop, Confirm, DropQuery, Inv, Fenced, Loosely, ConfirmsOnly, StopsQuiet;
    Unmoved(s, Minted(mint));
    FencedIsLoose(s, s, Minted(mint));
    FencedIsGuarded(s, s, Minted(mint));
    if AnswersAttempt(s, c, now) {
      var a := s.journal.attempts[c.challenge];
      AttemptKeyed(s, c.challenge);
      if Contradicts(s, c, a) {
        InhibitKeeps(s);
        Widen(s, Inhibit(s), Minted(mint));
        FencedIsLoose(s, Inhibit(s), Minted(mint));
        FencedIsGuarded(s, Inhibit(s), Minted(mint));
      } else {
        var reported := ReportStop(s, c, a, now);
        ReportStopKeeps(s, c, a, now);
        Widen(s, reported, Minted(mint));
        FencedIsLoose(s, reported, Minted(mint));
        FencedIsGuarded(s, reported, Minted(mint));
        if a.mode.QueryMode? && c.stopResult.value.NotFound? && QueryMatches(reported, a, now) {
          ConfirmKeeps(reported, mint, now);
          LoosenAfter(s, reported, Confirm(reported, mint, now), Minted(mint));
        } else if a.mode.ApplyMode? {
          DropQueryKeeps(reported);
          Compose(s, reported, DropQuery(reported), {}, {}, {});
          Widen(s, DropQuery(reported), Minted(mint));
          FencedIsLoose(s, DropQuery(reported), Minted(mint));
          FencedIsGuarded(s, DropQuery(reported), Minted(mint));
        }
      }
    }
  }

  lemma FencedIsGuarded(s: State, t: State, mints: set<Uuid>)
    requires Fenced(s, t, mints)
    ensures Guarded(s, t, mints) && StopsQuiet(s, t) && PeersQuiet(s, t) && AuthorityQuiet(s, t)
  {
  }

  // ---- Peers ----

  /** Peer handlers touch only the replay table and the Redis queue. */
  predicate OnlyPeers(s: State, t: State) {
    && t.link == s.link && t.journal == s.journal && t.authority == s.authority && t.source == s.source
    && t.egress == s.egress && t.outbox.inHand == s.outbox.inHand
  }

  lemma OnlyPeersKeeps(s: State, t: State)
    requires Inv(s) && OnlyPeers(s, t)
    ensures Inv(t) && Guarded(s, t, {}) && AuthorityQuiet(s, t)
  {
    hide Positions;
  }

  // ---- The position source ----

  lemma PublishSourceKeeps(s: State, status: SourceStatus, now: Nanos)
    requires Inv(s)
    ensures Inv(PublishSource(s, status, now).0) && Fenced(s, PublishSource(s, status, now).0, {})
  {
    hide PeersQuiet;
    SamePeers(s, PublishSource(s, status, now).0);
  }

  lemma RetryKeeps(s: State, now: Nanos)
    requires Inv(s)
    ensures Inv(RetrySource(s, now)) && Fenced(s, RetrySource(s, now), {})
  {
    hide PeersQuiet;
    SamePeers(s, RetrySource(s, now));
  }

  lemma ReportKeeps(s: State, captured: Option<Nanos>, now: Nanos)
    requires Inv(s)
    ensures Inv(ReportSource(s, captured, now).0) && Fenced(s, ReportSource(s, captured, now).0, {})
  {
    hide PublishSource, Fenced, Inv, GrantCurrent;
    Unmoved(s, {});
    if GrantComplete(s) {
      PublishSourceKeeps(s, SourceReport(s, if captured.None? then SourceNoFix else SourceFixAvailable, captured), now);
    }
  }

  lemma CloseKeeps(s: State, now: Nanos)
    requires Inv(s)
    ensures Inv(CloseSource(s, now)) && Fenced(s, CloseSource(s, now), {})
  {
    hide InvalidatePositions, ReportSource, RetrySource, Fenced, Inv;
    RetryKeeps(s, now);
    var closed := s.source.(closed := true, fixPending := false, recoveryAfter := None);
    FenceKeeps(s, closed);
    var fenced := InvalidatePositions(s.(source := closed));
    ReportKeeps(fenced, None, now);
    Compose(s, fenced, ReportSource(fenced, None, now).0, {}, {}, {});
  }

  lemma LoseFixKeeps(s: State, now: Nanos)
    requires Inv(s)
    ensures Inv(LoseFix(s, now)) && Fenced(s, LoseFix(s, now), {})
  {
    hide InvalidatePositions, CloseSource, Fenced, Inv;
    FenceKeeps(s, s.source);
    CloseKeeps(InvalidatePositions(s), now);
    Compose(s, InvalidatePositions(s), LoseFix(s, now), {}, {}, {});
  }

  lemma RecoverKeeps(s: State, captured: Nanos, now: Nanos)
    requires Inv(s)
    ensures Inv(RecoverSource(s, captured, now)) && Fenced(s, RecoverSource(s, captured, now), {})
  {
    hide ReportSource, RetrySource, Fenced, Inv;
    Unmoved(s, {});
    RetryKeeps(s, now);
    var reported := ReportSource(s, Some(captured), now).0;
    ReportKeeps(s, Some(captured), now);
    var noted := reported.source.(fixPending := true, recoveryAfter := Some(captured));
    FenceKeeps(reported, noted);
    Compose(s, reported, reported.(source := noted), {}, {}, {});
  }

  lemma PublishPositionKeeps(s: State, sample: Nanos, now: Nanos)
    requires Inv(s)
    ensures Inv(PublishPosition(s, sample, now)) && Fenced(s, PublishPosition(s, sample, now), {})
  {
    hide PeersQuiet;
    SamePeers(s, PublishPosition(s, sample, now));
  }

  lemma GpsKeeps(s: State, captured: Option<Nanos>, fixOk: bool, sample: Option<Nanos>, now: Nanos)
    requires Inv(s)
    ensures Inv(HandleGps(s, captured, fixOk, sample, now)) && Fenced(s, HandleGps(s, captured, fixOk, sample, now), {})
  {
    hide LoseFix, RecoverSource, PublishPosition, InvalidatePositions, Fenced, Inv;
    Unmoved(s, {});
    var seen := s.(source := s.source.(observedAt := captured));
    FenceKeeps(s, seen.source);
    if captured.None? || captured.value > now {
      LoseFixKeeps(s, now);
    } else if s.source.observedAt.Some? && captured.value <= s.source.observedAt.value {
      LoseFixKeeps(s, now);
    } else if !fixOk || now - captured.value > MAX_FIX_AGE {
      LoseFixKeeps(seen, now);
      Compose(s, seen, LoseFix(seen, now), {}, {}, {});
    } else if seen.source.closed {
      RecoverKeeps(seen, captured.value, now);
      Compose(s, seen, RecoverSource(seen, captured.value, now), {}, {}, {});
    } else if sample.None? {
      FenceKeeps(seen, seen.source);
      Compose(s, seen, InvalidatePositions(seen), {}, {}, {});
    } else {
      PublishPositionKeeps(seen, sample.value, now);
      Compose(s, seen, PublishPosition(seen, sample.value, now), {}, {}, {});
    }
  }

  // ---- Timer ----

  lemma ExpireKeeps(s: State, now: Nanos)
    requires Inv(s)
    ensures Inv(Expire(s, now)) && Fenced(s, Expire(s, now), {})
  {
    hide ExpireActivity, ExpireLease, LiveProbes, LiveAttempts, Fenced, Inv;
    var lease := ExpireLease(ExpireActivity(s, now), now);
    LeaseExpiryKeeps(s, now);
    PurgeKeeps(lease, now, lease.journal.probeTimes);
    var purged := lease.(journal := lease.journal.(probes := LiveProbes(lease, now)));
    Compose(s, lease, purged, {}, {}, {});
    LiveAttemptsKeyed(lease, now);
    AttemptsKeep(purged, LiveAttempts(lease, now));
    Compose(s, purged, Expire(s, now), {}, {}, {});
  }

  lemma LeaseExpiryKeeps(s: State, now: Nanos)
    requires Inv(s)
    ensures Inv(ExpireLease(ExpireActivity(s, now), now)) && Fenced(s, ExpireLease(ExpireActivity(s, now), now), {})
  {
    hide PeersQuiet;
    SamePeers(s, ExpireLease(ExpireActivity(s, now), now));
  }

  lemma LiveAttemptsKeyed(s: State, now: Nanos)
    requires Inv(s)
    ensures forall c | c in LiveAttempts(s, now) :: LiveAttempts(s, now)[c].challenge == c
  {
  }

  lemma AttemptsKeep(s: State, attempts: map<Uuid, Attempt>)
    requires Inv(s) && (forall c | c in attempts :: attempts[c].challenge == c)
    ensures Inv(s.(journal := s.journal.(attempts := attempts)))
    ensures Fenced(s, s.(journal := s.journal.(attempts := attempts)), {})
  {
    hide PeersQuiet;
    SamePeers(s, s.(journal := s.journal.(attempts := attempts)));
  }

  lemma TickKeeps(s: State, now: Nanos)
    requires Inv(s)
    ensures Inv(Tick(s, now)) && Fenced(s, Tick(s, now), {})
  {
    hide Expire, RetrySource, Fenced, Inv;
    ExpireKeeps(s, now);
    RetryKeeps(Expire(s, now), now);
    Compose(s, Expire(s, now), Tick(s, now), {}, {}, {});
  }

  // ---- Accepted snapshots ----

  /** Everything Fenced asks but readiness and the probe table. */
  ghost predicate Reads(s: State, t: State) {
    && Advances(s, t, {}) && t.egress.inHand == s.egress.inHand
    && (t.authority.grant.Some? ==> s.authority.grant.Some?)
    && AuthorityQuiet(s, t) && PeersQuiet(s, t) && NoApplyQueued(s, t)
  }

  lemma ReadsThenFenced(s: State, t: State, u: State)
    requires Reads(s, t) && Fenced(t, u, {})
    ensures Reads(s, u)
  {
    hide PeersQuiet;
    ComposePeers(s, t, u);
  }

  lemma JournalReads(s: State, journal: Journal)
    requires Inv(s) && journal.probes == map[] && journal.attempts == s.journal.attempts
    requires journal.epoch == s.journal.epoch && journal.query == s.journal.query
    ensures Inv(s.(journal := journal)) && Reads(s, s.(journal := journal))
  {
    hide PeersQuiet, EgressInv;
    SamePeers(s, s.(journal := journal));
  }

  /** An accepted snapshot answers the one outstanding probe, so none is left. */
  lemma AdoptKeeps(s: State, v: LocalStop, victim: Uuid, now: Nanos)
    requires Inv(s) && Receive(s, v, now).Accepted?
    ensures var t := Adopt(s, v, victim);
      && Inv(t) && Reads(s, t) && t.journal.probes == map[] && t.journal.ready == !Stopping(v)
      && t.journal.query == s.journal.query && t.journal.epoch == s.journal.epoch && t.link == s.link
  {
    hide Reads, Inv, ClearGrant, Fenced;
    AnsweredProbe(s, v, now);
    NoneLeft(s, v.challenge);
    var consumed := Consume(s, v, victim);
    var adopted := consumed.(journal := consumed.journal.(
      stop := Some(v), stopBlocked := v.blocked, ready := !Stopping(v)));
    JournalReads(s, adopted.journal);
    ClearGrantKeeps(adopted);
    ReadsThenFenced(s, adopted, ClearGrant(adopted));
    ClearGrantLink(adopted);
  }

  lemma AnsweredProbe(s: State, v: LocalStop, now: Nanos)
    requires Receive(s, v, now).Accepted?
    ensures v.challenge in s.journal.probes
  {
  }

  lemma ClearGrantLink(s: State)
    ensures ClearGrant(s).link == s.link && ClearGrant(s).journal == s.journal
  {
  }

  lemma NoneLeft(s: State, c: Uuid)
    requires Inv(s) && c in s.journal.probes
    ensures s.journal.probes - {c} == map[]
  {
    var left := s.journal.probes - {c};
    assert left.Keys == s.journal.probes.Keys - {c};
    SubsetCard({c}, s.journal.probes.Keys);
    assert |left.Keys| == |s.journal.probes.Keys| - 1;
  }

  function QueryOf(v: LocalStop, probe: Probe): Query
    requires v.operation.Some? && v.expected.Some?
  {
    Query(v.operation.value, v.revision, v.expected.value, probe.connection, probe.epoch, probe.deadline, v.challenge)
  }

  /** The follow-up queues the apply-mode stop of the pending query. */
  predicate QueuesApply(s: State, v: LocalStop, probe: Probe, now: Nanos, t: State) {
    && probe.purpose.ApplyConfirmation? && Confirms(s, v, probe, now) && HasStop(t)
    && var q := s.journal.query.value;
       t.egress.pending[StopKind].content == StopRequest(probe.challenge, q.operation, Some(q.fence), ApplyMode)
  }

  /** The follow-up makes a prepared record the pending query. */
  predicate StartsQuery(v: LocalStop, probe: Probe, t: State) {
    && !probe.purpose.ApplyConfirmation? && v.phase.Prepared? && v.operation.Some? && v.expected.Some?
    && v.committed.None? && t.journal.query == Some(QueryOf(v, probe))
  }

  ghost predicate FollowMoves(s: State, v: LocalStop, probe: Probe, now: Nanos, t: State) {
    && Advances(s, t, {}) && t.egress.inHand == s.egress.inHand && t.journal.probes == s.journal.probes
    && t.journal.epoch == s.journal.epoch
    && (t.authority.grant.Some? ==> s.authority.grant.Some?) && (t.journal.ready ==> s.journal.ready)
    && AuthorityQuiet(s, t) && PeersQuiet(s, t)
    && (t.journal.query == s.journal.query || t.journal.query.None? || StartsQuery(v, probe, t))
    && (NoApplyQueued(s, t) || QueuesApply(s, v, probe, now, t))
  }

  lemma FencedFollows(s: State, v: LocalStop, probe: Probe, now: Nanos, t: State)
    requires Fenced(s, t, {}) && t.journal.probes == s.journal.probes && t.journal.epoch == s.journal.epoch
    ensures FollowMoves(s, v, probe, now, t)
  {
    hide PeersQuiet;
  }

  lemma SendStopKeeps(s: State, operation: Uuid, revision: int, expected: Option<int>, challenge: Uuid,
                      mode: StopMode, deadline: Nanos, now: Nanos)
    requires Inv(s)
    ensures var t := SendStop(s, operation, revision, expected, challenge, mode, deadline, now);
      && Inv(t.0) && Advances(s, t.0, {}) && t.0.egress.inHand == s.egress.inHand && PeersQuiet(s, t.0)
      && t.0.link == s.link && t.0.authority == s.authority && t.0.source == s.source
      && t.0.journal == s.journal.(attempts := t.0.journal.attempts)
      && (mode.QueryMode? || !t.1 ==> NoApplyQueued(s, t.0))
      && (t.1 ==> HasStop(t.0)
                  && t.0.egress.pending[StopKind].content == StopRequest(challenge, operation, expected, mode))
  {
    hide PeersQuiet, CanSendStop;
    SamePeers(s, SendStop(s, operation, revision, expected, challenge, mode, deadline, now).0);
  }

  lemma FinalizeKeeps(s: State, v: LocalStop, probe: Probe, now: Nanos)
    requires Inv(s) && s.journal.probes == map[] && probe.purpose.ApplyConfirmation?
    ensures Inv(FinalizeApply(s, v, probe, now)) && FollowMoves(s, v, probe, now, FinalizeApply(s, v, probe, now))
  {
    hide PeersQuiet, SendStop, EgressInv;
    SamePeers(s, DropQuery(s));
    if Confirms(s, v, probe, now) {
      var q := s.journal.query.value;
      var sent := SendStop(s, q.operation, q.revision, Some(q.fence), probe.challenge, ApplyMode, q.deadline, now).0;
      SendStopKeeps(s, q.operation, q.revision, Some(q.fence), probe.challenge, ApplyMode, q.deadline, now);
      SamePeers(sent, DropQuery(sent));
      ComposePeers(s, sent, DropQuery(sent));
    }
  }

  /** Asking the server about a recorded operation, with or without making it the pending query. */
  lemma AskKeeps(s: State, query: Option<Query>, v: LocalStop, deadline: Nanos, now: Nanos)
    requires Inv(s) && s.journal.probes == map[] && v.operation.Some?
    requires query.Some? ==> Some(query.value.connection) == s.link.nonce && query.value.epoch == s.journal.epoch
    ensures var asked := s.(journal := s.journal.(query := query));
            var t := SendStop(asked, v.operation.value, v.revision, v.expected, v.challenge, QueryMode,
                              deadline, now).0;
      && Inv(t) && Advances(s, t, {}) && t.egress.inHand == s.egress.inHand && PeersQuiet(s, t)
      && t.authority == s.authority && t.journal == s.journal.(query := query, attempts := t.journal.attempts)
      && NoApplyQueued(s, t)
  {
    hide PeersQuiet, SendStop, EgressInv;
    var asked := s.(journal := s.journal.(query := query));
    SamePeers(s, asked);
    SendStopKeeps(asked, v.operation.value, v.revision, v.expected, v.challenge, QueryMode, deadline, now);
    ComposePeers(s, asked,
      SendStop(asked, v.operation.value, v.revision, v.expected, v.challenge, QueryMode, deadline, now).0);
  }

  lemma FollowUpKeeps(s: State, v: LocalStop, probe: Probe, now: Nanos)
    requires Inv(s) && s.journal.probes == map[] && Some(probe.connection) == s.link.nonce
    requires probe.epoch == s.journal.epoch
    ensures Inv(FollowUp(s, v, probe, now)) && FollowMoves(s, v, probe, now, FollowUp(s, v, probe, now))
  {
    hide SendStop, PublishHello, PublishActivity, FinalizeApply, Inv, Fenced, PeersQuiet;
    Unmoved(s, {});
    FencedFollows(s, v, probe, now, s);
    if probe.purpose.ApplyConfirmation? {
      FinalizeKeeps(s, v, probe, now);
    } else {
      match v.phase
      case Idle =>
        if s.authority.activity.Some? {
          AnnounceKeeps(s, s.authority.activity.value, now);
          AnnouncementSame(s, s.authority.activity.value, now);
          FencedFollows(s, v, probe, now, PublishActivity(s, s.authority.activity.value, now));
        }
      case Preparing => if v.operation.Some? { OfferHelloKeeps(s, v, probe, now); }
      case Prepared =>
        if v.operation.Some? && v.expected.Some? {
          AskKeeps(s, Some(QueryOf(v, probe)), v, probe.deadline, now);
        }
      case Confirmed =>
      case Uncertain =>
        if v.operation.Some? { AskKeeps(s, s.journal.query, v, probe.deadline, now) by { QueryBound(s); } }
    }
  }

  lemma QueryBound(s: State)
    requires Inv(s)
    ensures s.journal.query.Some? ==>
              Some(s.journal.query.value.connection) == s.link.nonce && s.journal.query.value.epoch == s.journal.epoch
  {
  }

  lemma AnnouncementSame(s: State, a: Activity, now: Nanos)
    ensures PublishActivity(s, a, now).journal == s.journal
  {
  }

  lemma OfferHelloKeeps(s: State, v: LocalStop, probe: Probe, now: Nanos)
    requires Inv(s) && s.journal.probes == map[]
    ensures var permit := Probe(v.challenge, probe.connection, probe.issuedAt, probe.deadline, OfferPermit,
                                v.operation, v.revision, None, probe.epoch);
            var t := PublishHello(s.(journal := s.journal.(permit := Some(permit))), Some(v.challenge), now);
            Inv(t) && FollowMoves(s, v, probe, now, t)
  {
    hide PublishHello, Fenced, PeersQuiet, EgressInv;
    var permit := Probe(v.challenge, probe.connection, probe.issuedAt, probe.deadline, OfferPermit,
                        v.operation, v.revision, None, probe.epoch);
    var permitted := s.(journal := s.journal.(permit := Some(permit)));
    SamePeers(s, permitted);
    assert Inv(permitted) && Fenced(s, permitted, {}) by { PermitKeeps(s, permitted); }
    HelloKeeps(permitted, Some(v.challenge), now);
    Compose(s, permitted, PublishHello(permitted, Some(v.challenge), now), {}, {}, {});
    FencedFollows(s, v, probe, now, PublishHello(permitted, Some(v.challenge), now));
  }

  lemma PermitKeeps(s: State, t: State)
    requires Inv(s) && t == s.(journal := s.journal.(permit := t.journal.permit))
    ensures Inv(t) && Fenced(s, t, {})
  {
    hide PeersQuiet;
    SamePeers(s, t);
  }

  lemma RejectKeeps(s: State, v: LocalStop, victim: Uuid)
    requires Inv(s)
    ensures Inv(Consume(Inhibit(s), v, victim)) && Fenced(s, Consume(Inhibit(s), v, victim), {})
  {
    hide Inhibit, Inv, Fenced;
    var inhibited := Inhibit(s);
    InhibitKeeps(s);
    InhibitEmpties(s);
    assert inhibited.journal.probes - {v.challenge} == map[];
    UsedKeeps(inhibited, Capped(inhibited.journal.used[v.challenge := v], victim));
    Compose(s, inhibited, Consume(inhibited, v, victim), {}, {}, {});
  }

  lemma UsedKeeps(s: State, used: map<Uuid, LocalStop>)
    requires Inv(s)
    ensures Inv(s.(journal := s.journal.(used := used))) && Fenced(s, s.(journal := s.journal.(used := used)), {})
  {
    hide PeersQuiet, EgressInv;
    SamePeers(s, s.(journal := s.journal.(used := used)));
  }

  lemma InhibitEmpties(s: State)
    ensures var t := Inhibit(s);
      && t.journal.probes == map[] && t.journal.attempts == map[] && t.journal.query.None? && !t.journal.ready
      && t.authority.challenges == map[] && t.authority.grant.None?
  {
  }

  // ---- Grants ----

  lemma GrantedKeeps(s: State, c: Control, now: Nanos, later: Nanos)
    requires Inv(s) && AcceptsGrant(s, c, now)
    ensures var t := Granted(s, c, now, later);
      && Inv(t) && Advances(s, t, {}) && t.egress.inHand == s.egress.inHand && NoApplyQueued(s, t)
      && t.journal == s.journal && t.outbox == s.outbox && t.link == s.link
      && (StartsStream(s, c) ==> !HasPending(t) && t.source.generation == s.source.generation + 1)
  {
    hide AcceptsGrant, JournalInv;
  }

  /** What an accepted grant changes: the authority, the peer scope, the position stream and the two queues. */
  ghost predicate GrantMoves(s: State, c: Control, now: Nanos, later: Nanos, t: State)
    requires c.challenge in s.authority.challenges
  {
    && Advances(s, t, {}) && t.egress.inHand == s.egress.inHand && NoApplyQueued(s, t) && t.journal == s.journal
    && t.authority.grant == Some(c) && t.authority.last == Some(c) && t.authority.cleared.None?
    && t.authority.grantAt == Some(later) && t.authority.grantTtl == RemainingLease(s, c, now)
    && t.authority.challenges == s.authority.challenges
    && t.peers == Rescope(s, c).peers && t.outbox.inHand == s.outbox.inHand
    && (forall p: Uuid :: Suffix(Positions(t.outbox.queue, p), Positions(s.outbox.queue, p)))
  }

  lemma GrantKeeps(s: State, c: Control, now: Nanos, later: Nanos)
    requires Inv(s) && AcceptsGrant(s, c, now)
    ensures Inv(HandleGrant(s, c, now, later)) && GrantMoves(s, c, now, later, HandleGrant(s, c, now, later))
  {
    hide AcceptsGrant, PublishSource, Inv, Granted, StopsQuiet, Positions, Advances, Queue;
    var granted := Granted(s, c, now, later);
    GrantedKeeps(s, c, now, later);
    GrantedAuthority(s, c, now, later);
    var announced := if granted.source.closed then PublishNoFix(granted, later) else granted;
    assert Inv(announced) && Advances(s, announced, {}) && announced.egress.inHand == s.egress.inHand
        && NoApplyQueued(s, announced) && announced.journal == s.journal && announced.outbox == s.outbox
        && announced.authority == granted.authority && announced.peers == granted.peers by {
      AnnounceNoFix(s, granted, later);
    }
    QuietRedis(announced, ControlMessage(c), LEASE_DURATION - (later - s.authority.challenges[c.challenge]), later);
    QueueRedisSame(s, announced, HandleGrant(s, c, now, later));
  }

  lemma QueueRedisSame(s: State, t: State, u: State)
    requires Inv(t) && Advances(s, t, {}) && u == t.(outbox := u.outbox)
    ensures Inv(u) && Advances(s, u, {})
  {
  }

  lemma GrantedAuthority(s: State, c: Control, now: Nanos, later: Nanos)
    requires AcceptsGrant(s, c, now)
    ensures c.challenge in s.authority.challenges
    ensures var t := Granted(s, c, now, later);
      && t.authority.grant == Some(c) && t.authority.last == Some(c) && t.authority.cleared.None?
      && t.authority.grantAt == Some(later) && t.authority.grantTtl == RemainingLease(s, c, now)
      && t.authority.challenges == s.authority.challenges && t.peers == Rescope(s, c).peers
  {
  }

  lemma AnnounceNoFix(s: State, granted: State, later: Nanos)
    requires Inv(granted) && Advances(s, granted, {}) && NoApplyQueued(s, granted)
    ensures var t := if granted.source.closed then PublishNoFix(granted, later) else granted;
      && Inv(t) && Advances(s, t, {}) && t.egress.inHand == granted.egress.inHand && NoApplyQueued(s, t)
      && t.journal == granted.journal && t.outbox == granted.outbox && t.authority == granted.authority
      && t.peers == granted.peers && t.link == granted.link
  {
    hide JournalInv;
  }

  // ---- One event ----

  /** The event and the probe of an accepted snapshot. */
  predicate Answers(s: State, e: Event) { e.ESnapshot? && Receive(s, e.stop, e.now).Accepted? }

  predicate ConfirmationStarts(s: State, e: Event) {
    e.EControl? && e.control.action.Status? && StartsConfirmation(s, e.control, e.now)
  }

  /** The apply-mode stop queued by the event is for the pending query, which the snapshot re-reads unchanged. */
  predicate Applies(s: State, e: Event, t: State) {
    && Answers(s, e) && e.stop.challenge in s.journal.probes && s.journal.query.Some? && HasStop(t)
    && var q, probe := s.journal.query.value, s.journal.probes[e.stop.challenge];
       && probe.purpose.ApplyConfirmation? && e.now < probe.deadline && e.now < q.deadline
       && e.stop.phase.Prepared? && e.stop.operation == Some(q.operation) && e.stop.revision == q.revision
       && e.stop.expected == Some(q.fence) && e.stop.committed.None?
       && t.egress.pending[StopKind].content == StopRequest(e.stop.challenge, q.operation, Some(q.fence), ApplyMode)
  }

  predicate QueryStarts(s: State, e: Event, t: State) {
    && Answers(s, e) && e.stop.challenge in s.journal.probes
    && StartsQuery(e.stop, s.journal.probes[e.stop.challenge], t)
    && t.journal.epoch == s.journal.epoch && t.journal.probes == map[]
  }

  ghost predicate StopMoves(s: State, e: Event, t: State) {
    && (forall c | c in t.journal.probes && t.journal.probes[c].purpose.ApplyConfirmation? ::
          || (c in s.journal.probes && s.journal.probes[c] == t.journal.probes[c])
          || (c in Mints(e) && ConfirmationStarts(s, e) && s.journal.query.Some? && t.journal.query == s.journal.query
              && ProbeOf(s.journal.query.value, t.journal.probes[c])))
    && (t.journal.query == s.journal.query || t.journal.query.None? || QueryStarts(s, e, t))
    && (NoApplyQueued(s, t) || Applies(s, e, t))
  }

  predicate Revokes(s: State, e: Event) {
    && e.EControl? && e.control.action.Clear? && ValidControl(e.control) && Connected(s)
    && Some(e.control.connection) == s.link.nonce && RevokesGrant(s, e.control)
  }

  /** How the event may change the grant, its lease, the authority history and the challenge clock. */
  ghost predicate AuthorityMoves(s: State, e: Event, t: State) {
    && (LeaseKept(s, t) || (Grants(s, e) && LeaseStarts(s, e, t)))
    && (|| (HistoryKept(s, t) && !Grants(s, e) && !Revokes(s, e))
        || (Resets(s, e) && t.authority.last.None? && t.authority.cleared.None?)
        || (Grants(s, e) && t.authority.last == Some(e.control) && t.authority.cleared.None?)
        || (Revokes(s, e) && t.authority.last == s.authority.last && t.authority.cleared == Some(e.control)))
    && (forall c | c in t.authority.challenges ::
          || (c in s.authority.challenges && s.authority.challenges[c] == t.authority.challenges[c])
          || (e.EActivity? && e.activity.challenge == c && t.authority.challenges[c] == e.now
              && AcceptsActivity(s, e.activity, e.now)))
  }

  predicate LeaseStarts(s: State, e: Event, t: State)
    requires Grants(s, e)
  {
    && e.control.challenge in s.authority.challenges
    && t.authority.grant == Some(e.control) && t.authority.grantAt == Some(e.later)
    && t.authority.grantTtl == RemainingLease(s, e.control, e.now)
  }

  /** How far one event may move the fences, and the only events that open them. */
  ghost predicate Moves(s: State, e: Event, t: State) {
    && Advances(s, t, Mints(e))
    && (t.authority.grant.Some? && s.authority.grant.None? ==> Grants(s, e))
    && (t.journal.ready && !s.journal.ready ==> OpensJournal(s, e))
    && (t.egress.inHand.None? || t.egress.inHand == s.egress.inHand || TakesPending(s, e, t))
    && StopMoves(s, e, t) && AuthorityMoves(s, e, t) && PeerMoves(s, e, t)
  }

  /** Only grants, peer messages and the Redis worker touch the replay table or what is queued about peers. */
  ghost predicate PeerMoves(s: State, e: Event, t: State) {
    || PeersQuiet(s, t)
    || e.EPeer? || e.EPeerStatus? || e.ERedisTake? || e.ERedisSend?
    || (Grants(s, e) && t.peers == Rescope(s, e.control).peers && t.outbox.inHand == s.outbox.inHand
        && forall p: Uuid :: Suffix(Positions(t.outbox.queue, p), Positions(s.outbox.queue, p)))
  }

  predicate TakesPending(s: State, e: Event, t: State) {
    && e.EMqttTake? && s.egress.inHand.None? && e.kind in s.egress.pending
    && t.egress.inHand == Some(s.egress.pending[e.kind]) && t.egress.order == s.egress.order
  }

  /** Guarded moves with kept or dropped authority are moves of any event that neither grants nor revokes. */
  lemma FencedMoves(s: State, e: Event, t: State)
    requires Fenced(s, t, Mints(e)) && !Grants(s, e) && !Revokes(s, e)
    ensures Moves(s, e, t)
  {
    hide PeersQuiet, Mints, Grants, Revokes;
  }

  lemma ConnectionMoves(s: State, e: Event, t: State)
    requires FencedOrAnew(s, e, t, Mints(e)) && !Grants(s, e) && !Revokes(s, e)
    ensures Moves(s, e, t)
  {
    hide PeersQuiet, Mints, Grants, Revokes, Resets;
  }

  lemma SnapshotKeeps(s: State, v: LocalStop, mint: Option<Uuid>, victim: Uuid, now: Nanos)
    requires Inv(s)
    ensures var t := HandleSnapshot(s, v, mint, victim, now);
            Inv(t) && Moves(s, ESnapshot(v, mint, victim, now), t)
  {
    hide Inhibit, Reprobe, Consume, Adopt, FollowUp, Inv, Fenced, Moves;
    var e := ESnapshot(v, mint, victim, now);
    Unmoved(s, {});
    match Receive(s, v, now)
    case Ignored => Unmoved(s, Mints(e)); FencedMoves(s, e, s);
    case Repeated => Unmoved(s, Mints(e)); FencedMoves(s, e, s);
    case Conflicting =>
      InhibitKeeps(s);
      ReprobeMoves(s, Inhibit(s), e, mint, now);
    case Unsolicited =>
      InhibitKeeps(s);
      ReprobeMoves(s, if Stopping(v) then Inhibit(s) else s, e, mint, now);
    case Rejected =>
      RejectKeeps(s, v, victim);
      ReprobeMoves(s, Consume(Inhibit(s), v, victim), e, mint, now);
    case Accepted =>
      var adopted, probe := Adopt(s, v, victim), s.journal.probes[v.challenge];
      AdoptKeeps(s, v, victim, now);
      AnsweredProbe(s, v, now);
      ProbeBound(s, v.challenge);
      FollowUpKeeps(adopted, v, probe, now);
      AcceptedMoves(s, adopted, e, FollowUp(adopted, v, probe, now));
  }

  lemma ProbeBound(s: State, c: Uuid)
    requires Inv(s) && c in s.journal.probes
    ensures s.journal.probes[c].challenge == c
    ensures Some(s.journal.probes[c].connection) == s.link.nonce && s.journal.probes[c].epoch == s.journal.epoch
  {
  }

  lemma ReprobeMoves(s: State, t: State, e: Event, mint: Option<Uuid>, now: Nanos)
    requires Inv(t) && Fenced(s, t, {}) && e.ESnapshot? && e.mint == mint
    ensures Inv(Reprobe(t, mint, now)) && Moves(s, e, Reprobe(t, mint, now))
  {
    hide Fenced, Inv, Reprobe, Moves;
    ProbeKeeps(t, mint, now);
    Compose(s, t, Reprobe(t, mint, now), {}, Minted(mint), Mints(e));
    FencedMoves(s, e, Reprobe(t, mint, now));
  }

  lemma AcceptedMoves(s: State, adopted: State, e: Event, t: State)
    requires e.ESnapshot? && Answers(s, e) && e.stop.challenge in s.journal.probes
    requires var probe := s.journal.probes[e.stop.challenge];
      && probe.challenge == e.stop.challenge && FollowMoves(adopted, e.stop, probe, e.now, t)
    requires Reads(s, adopted) && adopted.journal.probes == map[] && adopted.journal.ready == !Stopping(e.stop)
    requires adopted.journal.query == s.journal.query && adopted.journal.epoch == s.journal.epoch
    requires adopted.link == s.link
    ensures Moves(s, e, t)
  {
    hide PeersQuiet, Receive, Mints, Rescope;
    ComposePeers(s, adopted, t);
  }

  lemma ControlKeeps(s: State, c: Control, mint: Option<Uuid>, now: Nanos, later: Nanos)
    requires Inv(s)
    ensures var t := HandleControl(s, c, mint, now, later);
            Inv(t) && Moves(s, EControl(c, mint, now, later), t)
  {
    hide HandleStopStatus, HandleClear, SendOffer, HandleGrant, QueueRedis, Inv, Fenced, Moves, Grants, Revokes,
         ValidControl,
         StartsConfirmation, AcceptsGrant, RevokesGrant;
    var e := EControl(c, mint, now, later);
    var t := HandleControl(s, c, mint, now, later);
    Unmoved(s, Mints(e));
    GrantsAre(s, e);
    if t == s && !Grants(s, e) && !Revokes(s, e) {
      FencedMoves(s, e, s);
    } else if ValidControl(c) && Connected(s) && Some(c.connection) == s.link.nonce {
      match c.action
      case Status =>
        if c.stopResult.Some? {
          StopStatusKeeps(s, c, mint, now);
          StatusMoves(s, e, t);
        } else {
          OfferKeeps(s, c, now);
          QueueRedisKeeps(SendOffer(s, c, now), ControlMessage(c), ATTEMPT_LIFETIME, now);
          Compose(s, SendOffer(s, c, now), t, {}, {}, Mints(e));
          FencedMoves(s, e, t);
        }
      case Clear => ClearControlMoves(s, e);
      case Grant => GrantControlMoves(s, e);
      case Renew => GrantControlMoves(s, e);
    }
  }

  lemma GrantsAre(s: State, e: Event)
    requires e.EControl?
    ensures Grants(s, e) || Revokes(s, e) ==>
              ValidControl(e.control) && Connected(s) && Some(e.control.connection) == s.link.nonce
    ensures Grants(s, e) ==> e.control.action.Grant? || e.control.action.Renew?
    ensures Revokes(s, e) ==> e.control.action.Clear?
  {
  }

  lemma StatusMoves(s: State, e: Event, t: State)
    requires e.EControl? && e.control.action.Status? && !Grants(s, e) && !Revokes(s, e)
    requires Loosely(s, t, Minted(e.mint)) && ConfirmsOnly(s, t, Minted(e.mint))
    requires StopsQuiet(s, t) || StartsConfirmation(s, e.control, e.now)
    ensures Moves(s, e, t)
  {
    hide PeersQuiet, Grants, Revokes, StartsConfirmation;
  }

  lemma ClearControlMoves(s: State, e: Event)
    requires Inv(s) && e.EControl? && e.control.action.Clear? && ValidControl(e.control)
    requires Connected(s) && Some(e.control.connection) == s.link.nonce
    ensures Inv(HandleClear(s, e.control, e.now)) && Moves(s, e, HandleClear(s, e.control, e.now))
  {
    hide Inv, Guarded, PeersQuiet, Advances;
    var t := HandleClear(s, e.control, e.now);
    if ActsOnClear(s, e.control) {
      ClearKeeps(s, e.control, e.now);
      GuardedParts(s, t, {});
      AdvancesWiden(s, t, e);
    } else {
      Unmoved(s, Mints(e));
      GuardedParts(s, s, Mints(e));
    }
  }

  lemma GuardedParts(s: State, t: State, mints: set<Uuid>)
    requires Guarded(s, t, mints)
    ensures Advances(s, t, mints) && t.egress.inHand == s.egress.inHand && StopsQuiet(s, t)
    ensures (t.authority.grant.Some? ==> s.authority.grant.Some?) && (t.journal.ready ==> s.journal.ready)
  {
  }

  lemma AdvancesWiden(s: State, t: State, e: Event)
    requires Advances(s, t, {})
    ensures Advances(s, t, Mints(e))
  {
  }

  lemma GrantControlMoves(s: State, e: Event)
    requires Inv(s) && e.EControl? && (e.control.action.Grant? || e.control.action.Renew?)
    ensures Inv(HandleGrant(s, e.control, e.now, e.later)) && Moves(s, e, HandleGrant(s, e.control, e.now, e.later))
  {
    hide Inv, PeersQuiet, Advances, Positions, Suffix, AcceptsGrant, HandleGrant, QueueRedis, Rescope;
    NotGranted(s, e);
    var t := HandleGrant(s, e.control, e.now, e.later);
    Unmoved(s, Mints(e));
    FencedIsGuarded(s, s, Mints(e));
    if AcceptsGrant(s, e.control, e.now) {
      GrantedAuthority(s, e.control, e.now, e.later);
      GrantKeeps(s, e.control, e.now, e.later);
      AdvancesWiden(s, t, e);
    }
  }

  lemma NotGranted(s: State, e: Event)
    requires e.EControl?
    ensures !AcceptsGrant(s, e.control, e.now) ==> HandleGrant(s, e.control, e.now, e.later) == s
  {
  }

  lemma ActivityEventMoves(s: State, e: Event)
    requires Inv(s) && e.EActivity?
    ensures Inv(Step(s, e)) && Moves(s, e, Step(s, e))
  {
    hide Inv, PeersQuiet, Advances, AcceptsActivity, RecordActivity, PublishHello, PublishActivity;
    var t := HandleActivity(s, e.activity, e.dropped, e.now);
    Unmoved(s, Mints(e));
    FencedIsGuarded(s, s, Mints(e));
    if AcceptsActivity(s, e.activity, e.now) {
      ActivityKeeps(s, e.activity, e.dropped, e.now);
      AdvancesWiden(s, t, e);
    }
  }

  lemma PeerEventMoves(s: State, e: Event)
    requires Inv(s) && (e.EPeer? || e.EPeerStatus?)
    ensures Inv(Step(s, e)) && OnlyPeers(s, Step(s, e)) && Moves(s, e, Step(s, e))
  {
    hide Inv, PeersQuiet, Advances, AcceptsPeer, AcceptsPeerStatus;
    OnlyPeersKeeps(s, Step(s, e));
  }

  /** Events that touch only the link, the settings flag or the Redis queue. */
  lemma PlainStepMoves(s: State, e: Event)
    requires Inv(s)
    requires e.EConnectBegin? || e.ELink? || e.ERecoveryBegin? || e.ERedisTake? || e.ERedisSend?
    ensures Inv(Step(s, e)) && Moves(s, e, Step(s, e))
  {
    hide Inv, AuthorityMoves, StopMoves, Advances, PeersQuiet;
    if !e.ERedisTake? && !e.ERedisSend? { SamePeers(s, Step(s, e)); }
    PlainMoves(s, e, Step(s, e));
  }

  lemma SettingsOnly(j: Journal, k: Journal, nonce: Option<Uuid>)
    requires JournalInv(j, nonce) && k == j.(settingsReady := k.settingsReady)
    ensures JournalInv(k, nonce)
  {
  }

  predicate SameCore(s: State, t: State) {
    && t.authority == s.authority && t.source == s.source && t.egress == s.egress && t.link.nonce == s.link.nonce
    && t.journal == s.journal.(settingsReady := t.journal.settingsReady)
  }

  lemma SameCoreStops(s: State, e: Event, t: State)
    requires SameCore(s, t)
    ensures Advances(s, t, Mints(e)) && StopMoves(s, e, t)
  {
    hide Mints, Applies, QueryStarts, ConfirmationStarts;
  }

  lemma SameCoreAuthority(s: State, e: Event, t: State)
    requires SameCore(s, t) && !Grants(s, e) && !Revokes(s, e)
    ensures AuthorityMoves(s, e, t)
  {
    hide Grants, Revokes, LeaseStarts, AcceptsActivity;
  }

  lemma PlainMoves(s: State, e: Event, t: State)
    requires Inv(s) && SameCore(s, t) && !Grants(s, e) && !Revokes(s, e) && PeerMoves(s, e, t)
    ensures Inv(t) && Moves(s, e, t)
  {
    hide EgressInv, JournalInv, Advances, StopMoves, AuthorityMoves, PeerMoves, Grants, Revokes, OpensJournal;
    SettingsOnly(s.journal, t.journal, s.link.nonce);
    SameCoreStops(s, e, t);
    SameCoreAuthority(s, e, t);
  }

  lemma WorkerStepMoves(s: State, e: Event)
    requires Inv(s) && (e.EMqttTake? || e.EMqttSend?)
    ensures Inv(Step(s, e)) && Moves(s, e, Step(s, e))
  {
    hide JournalInv, PeersQuiet;
    SamePeers(s, Step(s, e));
  }

  /** Every step keeps the invariant and respects the fences. */
  lemma StepKeeps(s: State, e: Event)
    requires Inv(s)
    ensures Inv(Step(s, e)) && Moves(s, e, Step(s, e))
  {
    hide ConnectBegin, ConnectFinish, Disconnect, RefreshBlocked, IssueProbe, FailClosed, HandleSnapshot,
         HandleActivity, HandleControl, HandlePeer, HandlePeerStatus, HandleGps, Tick, MqttTake, MqttSend, RedisTake,
         RedisSend, Inv, Fenced, Anew, Moves, Resets;
    match e
    case EConnectBegin(client) => PlainStepMoves(s, e);
    case EConnectFinish(client, attempt, nonce, subscribed, hello, mint, now) =>
      ConnectKeeps(s, e); ConnectionMoves(s, e, Step(s, e));
    case EDisconnect(client) => DisconnectKeeps(s, client); ConnectionMoves(s, e, Step(s, e));
    case ELink(up) => PlainStepMoves(s, e);
    case ERecoveryBegin => PlainStepMoves(s, e);
    case ERefreshBlocked(blocked, hello, mint, again, now) =>
      RefreshKeeps(s, blocked, hello, mint, again, now); FencedMoves(s, e, Step(s, e));
    case ERecoveryDone(mint, now) => ProbeKeeps(s, mint, now); FencedMoves(s, e, Step(s, e));
    case EFailClosed => FailClosedKeeps(s); FencedMoves(s, e, Step(s, e));
    case ESnapshot(stop, mint, victim, now) => SnapshotKeeps(s, stop, mint, victim, now);
    case EActivity(activity, dropped, now) => ActivityEventMoves(s, e);
    case EControl(control, mint, now, later) => ControlKeeps(s, control, mint, now, later);
    case EPeer(position, now) => PeerEventMoves(s, e);
    case EPeerStatus(status, now) => PeerEventMoves(s, e);
    case EGps(captured, fixOk, sample, now) => GpsKeeps(s, captured, fixOk, sample, now); FencedMoves(s, e, Step(s, e));
    case ETick(now) => TickKeeps(s, now); FencedMoves(s, e, Step(s, e));
    case EMqttTake(kind) => WorkerStepMoves(s, e);
    case EMqttSend(_) => WorkerStepMoves(s, e);
    case ERedisTake => PlainStepMoves(s, e);
    case ERedisSend(_) => PlainStepMoves(s, e);
  }
}
