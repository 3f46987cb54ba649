/** Peer positions reach Redis in order, one stream per epoch, and never after the peer closed that epoch. */
module RideGroupPeers {
  import opened Wrappers
  import opened RideGroupTypes
  import opened RideGroupMachine
  import opened RideGroupInvariants
  import opened RideGroupSafety

  /** b is newer than a: a later peer epoch, or a later sequence and capture time on the same stream. */
  predicate Before(a: PeerPosition, b: PeerPosition) {
    || a.peerEpoch < b.peerEpoch
    || (a.peerEpoch == b.peerEpoch && a.peerStream == b.peerStream
        && a.sequence < b.sequence && a.capturedMs < b.capturedMs)
  }

  /** The two are one position of the peer. */
  predicate SamePlace(a: PeerPosition, b: PeerPosition) {
    && a.peerEpoch == b.peerEpoch && a.peerStream == b.peerStream
    && a.sequence == b.sequence && a.capturedMs == b.capturedMs
  }

  /** The entry stands still or moves forward, and a closed epoch stays closed. */
  predicate EntryAdvances(a: PeerReplay, b: PeerReplay) {
    || a.epoch < b.epoch
    || (a.epoch == b.epoch && a.stream == b.stream && (a.closed ==> b.closed)
        && ((a.sequence == b.sequence && a.captured == b.captured)
            || (!a.closed && a.sequence < b.sequence && a.captured < b.captured)))
  }

  /** The replay table would let this position in. */
  predicate Acceptable(v: PeerPosition, entry: PeerReplay) {
    || v.peerEpoch > entry.epoch
    || (v.peerEpoch == entry.epoch && v.peerStream == entry.stream && !entry.closed
        && v.sequence > entry.sequence && v.capturedMs > entry.captured)
  }

  /** The position is the one an open entry names, so it may go out. */
  predicate Matches(v: PeerPosition, entry: PeerReplay) {
    && !entry.closed && v.peerEpoch == entry.epoch && v.peerStream == entry.stream
    && v.sequence == entry.sequence && v.capturedMs == entry.captured
  }

  predicate InHand(s: State, p: Uuid) {
    && s.outbox.inHand.Some? && s.outbox.inHand.value.message.PeerMessage?
    && s.outbox.inHand.value.message.position.peer == p
  }

  function Hand(s: State, p: Uuid): PeerPosition
    requires InHand(s, p)
  {
    s.outbox.inHand.value.message.position
  }

  ghost predicate NoneAcceptable(q: seq<PeerPosition>, entry: PeerReplay) {
    forall x :: 0 <= x < |q| ==> !Acceptable(q[x], entry)
  }

  ghost predicate NoneMatches(q: seq<PeerPosition>, entry: PeerReplay) {
    forall x :: 0 <= x < |q| ==> !Matches(q[x], entry)
  }

  ghost predicate OneMatches(q: seq<PeerPosition>, entry: PeerReplay) {
    forall x, y :: 0 <= x < y < |q| ==> !(Matches(q[x], entry) && Matches(q[y], entry))
  }

  /** No copy of a position of p on its way to Redis could be accepted again, and at most one may go out as it is. */
  ghost predicate Clean(s: State, p: Uuid) {
    && p in s.peers.streams
    && var q, entry := Positions(s.outbox.queue, p), s.peers.streams[p];
       && NoneAcceptable(q, entry) && OneMatches(q, entry)
       && (InHand(s, p) ==>
             !Acceptable(Hand(s, p), entry) && (Matches(Hand(s, p), entry) ==> NoneMatches(q, entry)))
  }

  /** Position v of p does not go out again while p stays on the roster. */
  ghost predicate Spent(s: State, p: Uuid, v: PeerPosition) {
    && p in s.peers.streams && !Acceptable(v, s.peers.streams[p])
    && (forall x :: 0 <= x < |Positions(s.outbox.queue, p)| ==> !SamePlace(Positions(s.outbox.queue, p)[x], v))
    && (InHand(s, p) ==> !SamePlace(Hand(s, p), v))
  }

  // ---- What every step keeps ----

  lemma AdvancesTrans(a: PeerReplay, b: PeerReplay, c: PeerReplay)
    requires EntryAdvances(a, b) && EntryAdvances(b, c)
    ensures EntryAdvances(a, c)
  {
  }

  /** A step that keeps the Redis queue of p to a suffix, and may advance its entry, keeps p clean. */
  lemma SuffixKeepsClean(s: State, t: State, p: Uuid)
    requires p in s.peers.streams && p in t.peers.streams && EntryAdvances(s.peers.streams[p], t.peers.streams[p])
    requires t.outbox.inHand == s.outbox.inHand || t.outbox.inHand.None?
    requires Suffix(Positions(t.outbox.queue, p), Positions(s.outbox.queue, p))
    ensures Clean(s, p) ==> Clean(t, p)
    ensures forall v | Spent(s, p, v) :: Spent(t, p, v)
  {
    hide Positions;
    var q, r := Positions(s.outbox.queue, p), Positions(t.outbox.queue, p);
    assert forall x :: 0 <= x < |r| ==> r[x] == q[|q| - |r| + x];
  }

  lemma TakeKeepsClean(s: State, p: Uuid)
    ensures Clean(s, p) ==> Clean(RedisTake(s), p)
    ensures forall v | Spent(s, p, v) :: Spent(RedisTake(s), p, v)
  {
    hide Acceptable, Matches, SamePlace;
    if s.outbox.queue != [] && s.outbox.inHand.None? {
      var head := s.outbox.queue[0];
      var q, r := Positions(s.outbox.queue, p), Positions(s.outbox.queue[1..], p);
      if head.message.PeerMessage? && head.message.position.peer == p {
        assert q == [head.message.position] + r;
        assert forall x :: 0 <= x < |r| ==> r[x] == q[x + 1];
        assert q[0] == head.message.position;
      } else {
        assert q == r;
      }
    }
  }

  function EntryOf(w: PeerPosition): PeerReplay {
    PeerReplay(w.peerStream, w.peerEpoch, w.sequence, w.capturedMs, None, false)
  }

  /** What the table would not accept, it accepts no more, and does not name, after accepting w. */
  lemma StaysOut(v: PeerPosition, w: PeerPosition, entry: PeerReplay)
    requires Acceptable(w, entry) && !Acceptable(v, entry)
    ensures !Acceptable(v, EntryOf(w)) && !Matches(v, EntryOf(w)) && !SamePlace(w, v)
  {
  }

  lemma AcceptedLast(q: seq<PeerPosition>, kept: seq<PeerPosition>, w: PeerPosition, entry: PeerReplay)
    requires Suffix(kept, q) && Acceptable(w, entry)
    ensures NoneAcceptable(q, entry) ==>
              NoneAcceptable(kept + [w], EntryOf(w)) && OneMatches(kept + [w], EntryOf(w))
    ensures forall x :: 0 <= x < |kept + [w]| ==> (kept + [w])[x] == w || (kept + [w])[x] in q
  {
    var r := kept + [w];
    forall x | 0 <= x < |kept| ensures r[x] in q { assert r[x] == q[|q| - |kept| + x]; }
    if NoneAcceptable(q, entry) {
      forall x | 0 <= x < |kept| ensures !Acceptable(r[x], EntryOf(w)) && !Matches(r[x], EntryOf(w)) {
        assert r[x] == q[|q| - |kept| + x];
        StaysOut(r[x], w, entry);
      }
    }
  }

  lemma PeerKeepsClean(s: State, w: PeerPosition, now: Nanos, p: Uuid)
    requires p in s.peers.streams
    ensures Clean(s, p) ==> Clean(HandlePeer(s, w, now), p)
    ensures forall v | Spent(s, p, v) :: Spent(HandlePeer(s, w, now), p, v)
  {
    hide Positions, ReceiverTupleCurrent, Suffix;
    if AcceptsPeer(s, w, now) {
      var t := HandlePeer(s, w, now);
      QueueRedisAppends(s.(peers := t.peers), PeerMessage(w), SECOND, now, p);
      QueueRedisFrame(s.(peers := t.peers), PeerMessage(w), SECOND, now);
      var kept :| Suffix(kept, Positions(s.outbox.queue, p))
        && Positions(t.outbox.queue, p) == kept + (if w.peer == p then [w] else []);
      if w.peer == p {
        AcceptedKeepsClean(s, t, p, w, kept);
      } else {
        assert Positions(t.outbox.queue, p) == kept;
        SuffixKeepsClean(s, t, p);
      }
    }
  }

  lemma AcceptedKeepsClean(s: State, t: State, p: Uuid, w: PeerPosition, kept: seq<PeerPosition>)
    requires p in s.peers.streams && Acceptable(w, s.peers.streams[p])
    requires t.peers.streams == s.peers.streams[p := EntryOf(w)] && t.outbox.inHand == s.outbox.inHand
    requires Suffix(kept, Positions(s.outbox.queue, p)) && Positions(t.outbox.queue, p) == kept + [w]
    ensures Clean(s, p) ==> Clean(t, p)
    ensures forall v | Spent(s, p, v) :: Spent(t, p, v)
  {
    hide Positions, Suffix, Acceptable, Matches, NoneAcceptable, OneMatches, SamePlace;
    var q, entry := Positions(s.outbox.queue, p), s.peers.streams[p];
    AcceptedLast(q, kept, w, entry);
    if Clean(s, p) && InHand(s, p) { StaysOut(Hand(s, p), w, entry); }
    forall v | Spent(s, p, v) ensures Spent(t, p, v) {
      StaysOut(v, w, entry);
    }
  }

  lemma QueueRedisFrame(s: State, message: RedisMessage, maxAge: Nanos, now: Nanos)
    ensures var t := QueueRedis(s, message, maxAge, now); t.peers == s.peers && t.outbox.inHand == s.outbox.inHand
  {
  }

  lemma StatusKeepsClean(s: State, w: PeerStatus, now: Nanos, p: Uuid)
    requires p in s.peers.streams
    ensures Clean(s, p) ==> Clean(HandlePeerStatus(s, w, now), p)
    ensures forall v | Spent(s, p, v) :: Spent(HandlePeerStatus(s, w, now), p, v)
  {
    hide Positions, ReceiverTupleCurrent;
    if AcceptsPeerStatus(s, w, now) {
      var t := HandlePeerStatus(s, w, now);
      var noted := s.(peers := t.peers);
      QuietRedis(noted, PeerStatusMessage(w), SECOND, now);
      StatusAdvances(s, w, now, p);
      SuffixKeepsClean(s, t, p);
    }
  }

  lemma StatusAdvances(s: State, w: PeerStatus, now: Nanos, p: Uuid)
    requires p in s.peers.streams
    ensures p in HandlePeerStatus(s, w, now).peers.streams
    ensures EntryAdvances(s.peers.streams[p], HandlePeerStatus(s, w, now).peers.streams[p])
  {
  }

  lemma PeerAdvances(s: State, w: PeerPosition, now: Nanos, p: Uuid)
    requires p in s.peers.streams
    ensures p in HandlePeer(s, w, now).peers.streams
    ensures EntryAdvances(s.peers.streams[p], HandlePeer(s, w, now).peers.streams[p])
  {
  }

  /** While p stays in the replay table, every step advances its entry. */
  lemma StepAdvances(s: State, e: Event, p: Uuid)
    requires Inv(s) && p in s.peers.streams && p in Step(s, e).peers.streams
    ensures EntryAdvances(s.peers.streams[p], Step(s, e).peers.streams[p])
  {
    hide ConnectBegin, ConnectFinish, Disconnect, RefreshBlocked, IssueProbe, FailClosed, HandleSnapshot,
         HandleActivity,
         HandleControl, HandlePeer, HandlePeerStatus, HandleGps, Tick, MqttTake, Grants, Inv, Positions, Suffix;
    StepKeeps(s, e);
    match e
    case EPeer(w, now) => PeerAdvances(s, w, now, p);
    case EPeerStatus(w, now) => StatusAdvances(s, w, now, p);
    case _ =>
  }

  /** While p stays in the replay table, every step keeps it clean, and what is spent stays spent. */
  lemma StepKeepsClean(s: State, e: Event, p: Uuid)
    requires Inv(s) && p in s.peers.streams && p in Step(s, e).peers.streams
    ensures Clean(s, p) ==> Clean(Step(s, e), p)
    ensures forall v | Spent(s, p, v) :: Spent(Step(s, e), p, v)
  {
    hide Clean, Spent, Positions, ConnectBegin, ConnectFinish, Disconnect, RefreshBlocked, IssueProbe, FailClosed,
         HandleSnapshot, HandleActivity, HandleControl, HandlePeer, HandlePeerStatus, HandleGps, Tick, MqttTake, Grants,
         Inv, Moves, EntryAdvances;
    StepKeeps(s, e);
    MovesPeers(s, e, Step(s, e));
    StepAdvances(s, e, p);
    match e
    case EPeer(w, now) => PeerKeepsClean(s, w, now, p);
    case EPeerStatus(w, now) => StatusKeepsClean(s, w, now, p);
    case ERedisTake => TakeKeepsClean(s, p);
    case ERedisSend(_) => SuffixKeepsClean(s, Step(s, e), p);
    case _ => SuffixKeepsClean(s, Step(s, e), p);
  }

  lemma MovesPeers(s: State, e: Event, t: State)
    requires Moves(s, e, t)
    ensures PeerMoves(s, e, t)
  {
  }

  // ---- Continuations of a state ----

  /** The states events pass through, from any state. */
  ghost predicate Run(states: seq<State>, events: seq<Event>) {
    |states| == |events| + 1 && forall k | 0 <= k < |events| :: states[k + 1] == Step(states[k], events[k])
  }

  /** Peer p is in the replay table in every state of [a, b]: it stays on the roster of one session. */
  ghost predicate Rostered(states: seq<State>, a: nat, b: nat, p: Uuid) {
    a <= b < |states| && forall k | a <= k <= b :: p in states[k].peers.streams
  }

  lemma {:induction false} InvAlong(states: seq<State>, events: seq<Event>, k: nat)
    requires Run(states, events) && k < |states| && Inv(states[0])
    ensures Inv(states[k])
  {
    hide Step, Inv;
    if k > 0 {
      InvAlong(states, events, k - 1);
      StepKeeps(states[k - 1], events[k - 1]);
    }
  }

  lemma {:induction false} AdvancesAlong(states: seq<State>, events: seq<Event>, a: nat, b: nat, p: Uuid)
    requires Run(states, events) && Inv(states[0]) && Rostered(states, a, b, p)
    ensures EntryAdvances(states[a].peers.streams[p], states[b].peers.streams[p])
  {
    hide Step, Inv;
    if a < b {
      AdvancesAlong(states, events, a, b - 1, p);
      InvAlong(states, events, b - 1);
      assert states[b] == Step(states[b - 1], events[b - 1]);
      StepAdvances(states[b - 1], events[b - 1], p);
      AdvancesTrans(states[a].peers.streams[p], states[b - 1].peers.streams[p], states[b].peers.streams[p]);
    }
  }

  lemma {:induction false} CleanAlong(states: seq<State>, events: seq<Event>, a: nat, b: nat, p: Uuid)
    requires Run(states, events) && Inv(states[0]) && Rostered(states, a, b, p)
    ensures Clean(states[a], p) ==> Clean(states[b], p)
    ensures forall v | Spent(states[a], p, v) :: Spent(states[b], p, v)
  {
    hide Step, Inv, Clean, Spent;
    if a < b {
      CleanAlong(states, events, a, b - 1, p);
      InvAlong(states, events, b - 1);
      assert states[b] == Step(states[b - 1], events[b - 1]);
      StepKeepsClean(states[b - 1], events[b - 1], p);
    }
  }

  /** The Redis worker publishes position v at step k; its validity has been shortened by the queueing delay. */
  predicate ForwardsPeer(states: seq<State>, events: seq<Event>, k: nat, v: PeerPosition) {
    && k < |events| < |states| && events[k].ERedisSend?
    && Forwarded(states[k], events[k].now) == Some(PeerMessage(v))
  }

  lemma ForwardingReadsHand(s: State, now: Nanos, v: PeerPosition)
    requires Forwarded(s, now) == Some(PeerMessage(v))
    ensures InHand(s, v.peer) && Hand(s, v.peer).(validForMs := v.validForMs) == v
    ensures v.peer in s.peers.streams && Matches(v, s.peers.streams[v.peer])
    ensures v.validForMs > 0
  {
  }

  /**
   * While a peer stays on one session's roster, the positions published to Redis never go back: a later one has a
   * later peer epoch, or a later sequence and capture time on the one stream of that epoch, or is the same position.
   */
  lemma ForwardedNeverGoBack(states: seq<State>, events: seq<Event>, i: nat, j: nat, v: PeerPosition, w: PeerPosition)
    requires ValidRun(states, events) && i < j && ForwardsPeer(states, events, i, v)
    requires ForwardsPeer(states, events, j, w) && v.peer == w.peer && Rostered(states, i, j, v.peer)
    ensures Before(v, w) || SamePlace(v, w)
  {
    hide Step, Forwarded;
    RunKeeps(states, events, 0);
    NeverBack(states, events, i, j, v, w);
  }

  lemma NeverBack(states: seq<State>, events: seq<Event>, i: nat, j: nat, v: PeerPosition, w: PeerPosition)
    requires Run(states, events) && Inv(states[0]) && i < j && ForwardsPeer(states, events, i, v)
    requires ForwardsPeer(states, events, j, w) && v.peer == w.peer && Rostered(states, i, j, v.peer)
    ensures Before(v, w) || SamePlace(v, w)
  {
    hide Step, Forwarded, Inv;
    ForwardingReadsHand(states[i], events[i].now, v);
    ForwardingReadsHand(states[j], events[j].now, w);
    AdvancesAlong(states, events, i, j, v.peer);
  }

  /** In every continuation that keeps p on the roster, no position of p goes out twice or after a newer one. */
  ghost predicate StrictFrom(s: State, p: Uuid) {
    forall states: seq<State>, events: seq<Event>, i: nat, j: nat, v: PeerPosition, w: PeerPosition ::
      (&& Run(states, events) && states[0] == s && i < j && Rostered(states, 0, j, p) && v.peer == w.peer == p
       && ForwardsPeer(states, events, i, v) && ForwardsPeer(states, events, j, w)) ==> Before(v, w)
  }

  lemma SentIsSpent(s: State, now: Nanos, v: PeerPosition)
    requires Clean(s, v.peer) && Forwarded(s, now) == Some(PeerMessage(v))
    ensures Spent(RedisSend(s), v.peer, v)
  {
    hide Forwarded, Positions;
    ForwardingReadsHand(s, now, v);
  }

  /** From a clean state on, the published positions of the peer strictly increase. */
  lemma CleanIsStrict(s: State, p: Uuid)
    requires Inv(s) && Clean(s, p)
    ensures StrictFrom(s, p)
  {
    hide Step, Forwarded, Inv, Clean, Spent;
    forall states: seq<State>, events: seq<Event>, i: nat, j: nat, v: PeerPosition, w: PeerPosition |
      && Run(states, events) && states[0] == s && i < j && Rostered(states, 0, j, p) && v.peer == w.peer == p
      && ForwardsPeer(states, events, i, v) && ForwardsPeer(states, events, j, w)
      ensures Before(v, w)
    {
      NeverBack(states, events, i, j, v, w);
      NoRepeat(states, events, i, j, v, w);
    }
  }

  lemma NoRepeat(states: seq<State>, events: seq<Event>, i: nat, j: nat, v: PeerPosition, w: PeerPosition)
    requires Run(states, events) && Inv(states[0]) && Clean(states[0], v.peer) && i < j
    requires Rostered(states, 0, j, v.peer)
    requires ForwardsPeer(states, events, i, v) && ForwardsPeer(states, events, j, w) && v.peer == w.peer
    ensures !SamePlace(v, w)
  {
    hide Step, Forwarded, Inv, Clean;
    CleanAlong(states, events, 0, i, v.peer);
    SentIsSpent(states[i], events[i].now, v);
    SendIsStep(states[i], events[i]);
    assert states[i + 1] == Step(states[i], events[i]);
    CleanAlong(states, events, i + 1, j, v.peer);
    ForwardingReadsHand(states[j], events[j].now, w);
  }

  /** In a run from the start, the same holds from any state of it that is clean. */
  lemma ForwardedPositionsIncrease(states: seq<State>, events: seq<Event>, a: nat, i: nat, j: nat,
                                   v: PeerPosition, w: PeerPosition)
    requires ValidRun(states, events) && a <= i < j && Rostered(states, a, j, v.peer) && v.peer == w.peer
    requires ForwardsPeer(states, events, i, v) && ForwardsPeer(states, events, j, w) && Clean(states[a], v.peer)
    ensures Before(v, w)
  {
    hide Step, Inv, Forwarded, Clean, StrictFrom;
    RunKeeps(states, events, a);
    CleanIsStrict(states[a], v.peer);
    var rest, since := states[a..], events[a..];
    assert Run(rest, since) && rest[0] == states[a];
    assert ForwardsPeer(rest, since, i - a, v) && ForwardsPeer(rest, since, j - a, w);
    assert Rostered(rest, 0, j - a, v.peer);
    Strictly(states[a], v.peer, rest, since, i - a, j - a, v, w);
  }

  lemma Strictly(s: State, p: Uuid, states: seq<State>, events: seq<Event>, i: nat, j: nat,
                 v: PeerPosition, w: PeerPosition)
    requires StrictFrom(s, p) && Run(states, events) && states[0] == s && i < j && Rostered(states, 0, j, p)
    requires ForwardsPeer(states, events, i, v) && ForwardsPeer(states, events, j, w) && v.peer == w.peer == p
    ensures Before(v, w)
  {
    hide Step, Forwarded;
  }

  /** A window may start with the first position accepted from a peer of which nothing is under way. */
  lemma FirstPositionClean(s: State, v: PeerPosition, now: Nanos)
    requires AcceptsPeer(s, v, now) && v.peer !in s.peers.streams
    requires Positions(s.outbox.queue, v.peer) == [] && !InHand(s, v.peer)
    ensures Clean(HandlePeer(s, v, now), v.peer)
  {
    hide AcceptsPeer, Positions, QueueRedis;
    var entry := PeerReplay(v.peerStream, v.peerEpoch, v.sequence, v.capturedMs, None, false);
    var t := s.(peers := s.peers.(streams := s.peers.streams[v.peer := entry]));
    OnlyAppended(t, v, now);
    QueueRedisFrame(t, PeerMessage(v), SECOND, now);
  }

  lemma OnlyAppended(s: State, v: PeerPosition, now: Nanos)
    requires Positions(s.outbox.queue, v.peer) == []
    ensures Positions(QueueRedis(s, PeerMessage(v), SECOND, now).outbox.queue, v.peer) == [v]
  {
    hide Positions, QueueRedis;
    QueueRedisAppends(s, PeerMessage(v), SECOND, now, v.peer);
  }

  // ---- A state that is not clean repeats a position ----

  predicate IsCopy(entry: RedisPublication, p: Uuid) {
    entry.message.PeerMessage? && entry.message.position.peer == p
  }

  /** Only the replay entry may keep this copy from going out, or from being accepted once more, at `now`. */
  predicate Deliverable(s: State, entry: RedisPublication, now: Nanos)
    requires entry.message.PeerMessage?
  {
    var v := entry.message.position;
    && s.journal.settingsReady && ReceiverTupleCurrent(s, v.session, v.revision, v.transportEpoch, v.stream, now)
    && v.peer in s.authority.grant.value.peers && ValidPeerPosition(v)
    && (entry.expiresAt.Some? ==> now < entry.expiresAt.value)
    && 0 <= TruncateToMillis(now - entry.queuedAt) < v.validForMs
  }

  /** Every copy of p under way is deliverable. */
  ghost predicate AllDeliverable(s: State, p: Uuid, now: Nanos) {
    && p in s.peers.streams
    && (s.outbox.inHand.Some? && IsCopy(s.outbox.inHand.value, p) ==> Deliverable(s, s.outbox.inHand.value, now))
    && forall x :: 0 <= x < |s.outbox.queue| && IsCopy(s.outbox.queue[x], p) ==> Deliverable(s, s.outbox.queue[x], now)
  }

  /** The two differ in what is under way only. */
  predicate SameButOutbox(s: State, t: State) { t == s.(outbox := t.outbox) }

  lemma PumpKeeps(s: State, p: Uuid, now: Nanos)
    requires AllDeliverable(s, p, now)
    ensures AllDeliverable(RedisTake(s), p, now) && AllDeliverable(RedisSend(s), p, now)
  {
    hide Deliverable;
    DeliverableSame(s, RedisTake(s), now);
    DeliverableSame(s, RedisSend(s), now);
  }

  lemma DeliverableSame(s: State, t: State, now: Nanos)
    requires SameButOutbox(s, t)
    ensures forall entry: RedisPublication | entry.message.PeerMessage? ::
              Deliverable(t, entry, now) == Deliverable(s, entry, now)
  {
  }

  /** The worker publishes a deliverable copy in its hand if the entry names it. */
  lemma HandGoesOut(s: State, p: Uuid, now: Nanos)
    requires InHand(s, p) && p in s.peers.streams && Matches(Hand(s, p), s.peers.streams[p])
    requires Deliverable(s, s.outbox.inHand.value, now)
    ensures Forwarded(s, now).Some? && Forwarded(s, now).value.PeerMessage?
    ensures SamePlace(Forwarded(s, now).value.position, Hand(s, p)) && Forwarded(s, now).value.position.peer == p
  {
  }

  lemma Prepend(s: State, e: Event, states: seq<State>, events: seq<Event>)
    requires Run(states, events) && states[0] == Step(s, e)
    ensures Run([s] + states, [e] + events)
  {
    hide Step;
    var all, both := [s] + states, [e] + events;
    forall k | 0 <= k < |both| ensures all[k + 1] == Step(all[k], both[k]) {
      if k > 0 { assert states[k] == Step(states[k - 1], events[k - 1]); }
    }
  }

  /** Taking and sending gets every matching copy out; x is its place in the queue. */
  lemma {:induction false} Pump(s: State, p: Uuid, x: nat, now: Nanos)
    returns (states: seq<State>, events: seq<Event>, v: PeerPosition)
    requires AllDeliverable(s, p, now) && x < |Positions(s.outbox.queue, p)|
    requires Matches(Positions(s.outbox.queue, p)[x], s.peers.streams[p])
    ensures Run(states, events) && states[0] == s && events != [] && Rostered(states, 0, |events| - 1, p)
    ensures ForwardsPeer(states, events, |events| - 1, v) && v.peer == p
    ensures SamePlace(v, Positions(s.outbox.queue, p)[x])
    decreases |s.outbox.queue|, s.outbox.inHand.Some?
  {
    hide Forwarded, Deliverable, Rostered, Step;
    PumpKeeps(s, p, now);
    var e, t, rest, since;
    if s.outbox.inHand.Some? {
      e, t := ERedisSend(now), RedisSend(s);
      rest, since, v := Pump(t, p, x, now);
    } else {
      e, t := ERedisTake, RedisTake(s);
      var head := s.outbox.queue[0];
      if !IsCopy(head, p) {
        rest, since, v := Pump(t, p, x, now);
      } else if x > 0 {
        rest, since, v := Pump(t, p, x - 1, now);
      } else {
        HandGoesOut(t, p, now);
        v := Forwarded(t, now).value.position;
        rest, since := [t, RedisSend(t)], [ERedisSend(now)];
        OneSend(t, now, p, v);
      }
    }
    WorkerSteps(s, now);
    states, events := [s] + rest, [e] + since;
    Prepend(s, e, rest, since);
    Lengthen(s, e, rest, since, p, v);
  }

  lemma WorkerSteps(s: State, now: Nanos)
    ensures Step(s, ERedisTake) == RedisTake(s) && Step(s, ERedisSend(now)) == RedisSend(s)
  {
  }

  lemma OneSend(t: State, now: Nanos, p: Uuid, v: PeerPosition)
    requires Forwarded(t, now) == Some(PeerMessage(v)) && p in t.peers.streams
    ensures Run([t, RedisSend(t)], [ERedisSend(now)]) && Rostered([t, RedisSend(t)], 0, 0, p)
    ensures ForwardsPeer([t, RedisSend(t)], [ERedisSend(now)], 0, v)
  {
    hide Forwarded;
  }

  lemma Lengthen(s: State, e: Event, states: seq<State>, events: seq<Event>, p: Uuid, v: PeerPosition)
    requires p in s.peers.streams && Run(states, events) && events != [] && Rostered(states, 0, |events| - 1, p)
    requires ForwardsPeer(states, events, |events| - 1, v)
    ensures Rostered([s] + states, 0, |events|, p) && ForwardsPeer([s] + states, [e] + events, |events|, v)
  {
    hide Forwarded, Step;
  }

  /** Strictness holds of every state on the way as well. */
  lemma StrictNext(s: State, e: Event, p: Uuid)
    requires StrictFrom(s, p) && p in s.peers.streams
    ensures StrictFrom(Step(s, e), p)
  {
    hide Step, Forwarded;
    var t := Step(s, e);
    forall states: seq<State>, events: seq<Event>, i: nat, j: nat, v: PeerPosition, w: PeerPosition |
      && Run(states, events) && states[0] == t && i < j && Rostered(states, 0, j, p) && v.peer == w.peer == p
      && ForwardsPeer(states, events, i, v) && ForwardsPeer(states, events, j, w)
      ensures Before(v, w)
    {
      Prepend(s, e, states, events);
      var all, both := [s] + states, [e] + events;
      assert Rostered(all, 0, j + 1, p);
      assert ForwardsPeer(all, both, i + 1, v) && ForwardsPeer(all, both, j + 1, w);
      Strictly(s, p, all, both, i + 1, j + 1, v, w);
    }
  }

  /** A matching copy in the worker's hand and another one in the queue both go out. */
  lemma HandAndQueueRepeat(s: State, p: Uuid, x: nat, now: Nanos)
    requires AllDeliverable(s, p, now) && InHand(s, p) && x < |Positions(s.outbox.queue, p)|
    requires Matches(Hand(s, p), s.peers.streams[p])
    requires Matches(Positions(s.outbox.queue, p)[x], s.peers.streams[p])
    ensures !StrictFrom(s, p)
  {
    hide Forwarded, Deliverable, Step, StrictFrom;
    HandGoesOut(s, p, now);
    var v := Forwarded(s, now).value.position;
    PumpKeeps(s, p, now);
    var states, events, w := Pump(RedisSend(s), p, x, now);
    WorkerSteps(s, now);
    Prepend(s, ERedisSend(now), states, events);
    Lengthen(s, ERedisSend(now), states, events, p, w);
    var all, both := [s] + states, [ERedisSend(now)] + events;
    assert ForwardsPeer(all, both, 0, v);
    if StrictFrom(s, p) {
      Strictly(s, p, all, both, 0, |events|, v, w);
    }
  }

  /** Two matching copies in the queue both go out. */
  lemma {:induction false} QueueRepeats(s: State, p: Uuid, x: nat, y: nat, now: Nanos)
    requires AllDeliverable(s, p, now) && x < y < |Positions(s.outbox.queue, p)|
    requires Matches(Positions(s.outbox.queue, p)[x], s.peers.streams[p])
    requires Matches(Positions(s.outbox.queue, p)[y], s.peers.streams[p])
    ensures !StrictFrom(s, p)
    decreases |s.outbox.queue|, s.outbox.inHand.Some?
  {
    hide Forwarded, Deliverable, Step, StrictFrom;
    PumpKeeps(s, p, now);
    WorkerSteps(s, now);
    if s.outbox.inHand.Some? {
      QueueRepeats(RedisSend(s), p, x, y, now);
      if StrictFrom(s, p) { StrictNext(s, ERedisSend(now), p); }
    } else {
      var t := RedisTake(s);
      if !IsCopy(s.outbox.queue[0], p) {
        QueueRepeats(t, p, x, y, now);
      } else if x > 0 {
        QueueRepeats(t, p, x - 1, y - 1, now);
      } else {
        HandAndQueueRepeat(t, p, y - 1, now);
      }
      if StrictFrom(s, p) { StrictNext(s, ERedisTake, p); }
    }
  }

  /** A copy in the worker's hand that is accepted once more goes out beside the new copy. */
  lemma HandReaccepted(s: State, p: Uuid, now: Nanos)
    requires AllDeliverable(s, p, now) && InHand(s, p) && Acceptable(Hand(s, p), s.peers.streams[p])
    ensures !StrictFrom(s, p)
  {
    hide Forwarded, Step, StrictFrom, ReceiverTupleCurrent;
    var v := Hand(s, p);
    assert AcceptsPeer(s, v, now);
    var t := HandlePeer(s, v, now);
    PeerIsStep(s, v, now);
    Reaccepted(s, p, now);
    HandAndQueueRepeat(t, p, |Positions(t.outbox.queue, p)| - 1, now);
    if StrictFrom(s, p) { StrictNext(s, EPeer(v, now), p); }
  }

  lemma PeerIsStep(s: State, v: PeerPosition, now: Nanos)
    ensures Step(s, EPeer(v, now)) == HandlePeer(s, v, now)
  {
  }

  lemma Reaccepted(s: State, p: Uuid, now: Nanos)
    requires AllDeliverable(s, p, now) && InHand(s, p) && AcceptsPeer(s, Hand(s, p), now)
    ensures var t := HandlePeer(s, Hand(s, p), now);
      && AllDeliverable(t, p, now) && InHand(t, p) && Hand(t, p) == Hand(s, p)
      && Matches(Hand(t, p), t.peers.streams[p]) && Positions(t.outbox.queue, p) != []
      && Positions(t.outbox.queue, p)[|Positions(t.outbox.queue, p)| - 1] == Hand(s, p)
  {
    hide AcceptsPeer, Positions;
    var v := Hand(s, p);
    var t := HandlePeer(s, v, now);
    DeliverableAfter(s, v, now);
    var noted := s.(peers := t.peers);
    QueueRedisAppends(noted, PeerMessage(v), SECOND, now, p);
  }

  lemma DeliverableAfter(s: State, v: PeerPosition, now: Nanos)
    ensures forall entry: RedisPublication | entry.message.PeerMessage? && Deliverable(s, entry, now) ::
              Deliverable(HandlePeer(s, v, now), entry, now)
  {
    hide AcceptsPeer;
  }

  /** A copy in the queue that the table would accept comes to the worker's hand and is accepted once more. */
  lemma {:induction false} QueuedReaccepted(s: State, p: Uuid, x: nat, now: Nanos)
    requires AllDeliverable(s, p, now) && x < |Positions(s.outbox.queue, p)|
    requires Acceptable(Positions(s.outbox.queue, p)[x], s.peers.streams[p])
    ensures !StrictFrom(s, p)
    decreases |s.outbox.queue|, s.outbox.inHand.Some?
  {
    hide Forwarded, Deliverable, Step, StrictFrom;
    PumpKeeps(s, p, now);
    WorkerSteps(s, now);
    if s.outbox.inHand.Some? {
      QueuedReaccepted(RedisSend(s), p, x, now);
      if StrictFrom(s, p) { StrictNext(s, ERedisSend(now), p); }
    } else {
      var t := RedisTake(s);
      if !IsCopy(s.outbox.queue[0], p) {
        QueuedReaccepted(t, p, x, now);
      } else if x > 0 {
        QueuedReaccepted(t, p, x - 1, now);
      } else {
        HandReaccepted(t, p, now);
      }
      if StrictFrom(s, p) { StrictNext(s, ERedisTake, p); }
    }
  }

  /**
   * Exactly when the positions published for a peer strictly increase however a state goes on: when none of the
   * copies under way could be accepted once more and at most one of them is the position the replay entry names.
   * Copies the worker would drop whatever the entry says are outside the equivalence, not outside CleanIsStrict.
   */
  lemma StrictExactlyWhenClean(s: State, p: Uuid, now: Nanos)
    requires Inv(s) && AllDeliverable(s, p, now)
    ensures StrictFrom(s, p) <==> Clean(s, p)
  {
    hide Inv, StrictFrom, Acceptable, Matches;
    var q, entry := Positions(s.outbox.queue, p), s.peers.streams[p];
    if Clean(s, p) {
      CleanIsStrict(s, p);
    } else if !NoneAcceptable(q, entry) {
      var x :| 0 <= x < |q| && Acceptable(q[x], entry);
      QueuedReaccepted(s, p, x, now);
    } else if !OneMatches(q, entry) {
      var x, y :| 0 <= x < y < |q| && Matches(q[x], entry) && Matches(q[y], entry);
      QueueRepeats(s, p, x, y, now);
    } else if Acceptable(Hand(s, p), entry) {
      HandReaccepted(s, p, now);
    } else {
      var x :| 0 <= x < |q| && Matches(q[x], entry);
      HandAndQueueRepeat(s, p, x, now);
    }
  }

  lemma SendIsStep(s: State, e: Event)
    requires e.ERedisSend?
    ensures Step(s, e) == RedisSend(s)
  {
  }

  /** Step k accepts a status of peer p in this epoch. */
  predicate ClosesPeer(states: seq<State>, events: seq<Event>, k: nat, p: Uuid, epoch: int) {
    && k < |events| < |states| && events[k].EPeerStatus? && events[k].status.peer == p
    && events[k].status.peerEpoch == epoch && AcceptsPeerStatus(states[k], events[k].status, events[k].now)
  }

  predicate ClosedThrough(s: State, p: Uuid, epoch: int) {
    p in s.peers.streams && s.peers.streams[p].epoch >= epoch
    && (s.peers.streams[p].epoch == epoch ==> s.peers.streams[p].closed)
  }

  lemma {:induction false} ClosureKept(states: seq<State>, events: seq<Event>, k: nat, j: nat, p: Uuid, epoch: int)
    requires ValidRun(states, events) && k < j && ClosesPeer(states, events, k, p, epoch)
    requires Rostered(states, k + 1, j, p)
    ensures ClosedThrough(states[j], p, epoch)
  {
    hide Step;
    if k + 1 == j {
      StatusIsStep(states[k], events[k]);
    } else {
      ClosureKept(states, events, k, j - 1, p, epoch);
      RunKeeps(states, events, j - 1);
      assert states[j] == Step(states[j - 1], events[j - 1]);
      StepAdvances(states[j - 1], events[j - 1], p);
    }
  }

  lemma StatusIsStep(s: State, e: Event)
    requires e.EPeerStatus?
    ensures Step(s, e) == HandlePeerStatus(s, e.status, e.now)
  {
  }

  /** After a closing status of an epoch is accepted, no position of that epoch or an earlier one is published. */
  lemma NoPositionAfterClosing(states: seq<State>, events: seq<Event>, k: nat, j: nat, epoch: int, v: PeerPosition)
    requires ValidRun(states, events) && k < j && ClosesPeer(states, events, k, v.peer, epoch)
    requires ForwardsPeer(states, events, j, v) && Rostered(states, k + 1, j, v.peer)
    ensures v.peerEpoch > epoch
  {
    hide Step, Forwarded;
    ClosureKept(states, events, k, j, v.peer, epoch);
    ForwardingReadsHand(states[j], events[j].now, v);
  }
}
