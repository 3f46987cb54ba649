/** A run in which a position is published twice: its peer leaves the roster and comes back while a copy is queued. */
module RideGroupRepeat {
  import opened Wrappers
  import opened RideGroupTypes
  import opened RideGroupMachine
  import opened RideGroupInvariants
  import opened RideGroupSafety
  import opened RideGroupPeers

  const NOW: Nanos := 100 * SECOND
  const IDLE := LocalStop(None, 1, Idle, false, None, None, 10)
  const RIDER := Activity(3, 1, true, Some(4), Some(5), 20)
  const GRANT := Control(1, Grant, Some(4), Some(5), 1, 1, Some(6), 20, 10_000, Some(2_000), [7], 1, None, None, None)
  const WITHOUT := GRANT.(action := Renew, peers := [])
  const POSITION := PeerPosition(4, 1, 1, 6, 7, 8, 1, 1, 1, 5_000)
  const COPY := RedisPublication(PeerMessage(POSITION), Some(NOW + SECOND), NOW)

  /** Connect, read the settings, answer the journal probe and start a ride. */
  const START: seq<Event> := [
    EConnectBegin(1), EConnectFinish(1, 1, 1, true, None, None, NOW), ERefreshBlocked(false, None, Some(10), None, NOW),
    ESnapshot(IDLE, None, 0, NOW), EActivity(RIDER, {}, NOW)]

  /** A grant, a position, a renewal without its peer, a grant with it again, and the same position. */
  const RIDE: seq<Event> := [
    EControl(GRANT, None, NOW, NOW), EPeer(POSITION, NOW), EControl(WITHOUT, None, NOW, NOW),
    EControl(GRANT, None, NOW, NOW), EPeer(POSITION, NOW)]

  function Trace(s: State, events: seq<Event>): (states: seq<State>)
    ensures |states| == |events| + 1 && states[0] == s
    decreases |events|
  {
    if events == [] then [s] else [s] + Trace(Step(s, events[0]), events[1..])
  }

  lemma {:induction false} TraceIsRun(s: State, events: seq<Event>)
    ensures Run(Trace(s, events), events)
    decreases |events|
  {
    hide Step;
    if events != [] {
      TraceIsRun(Step(s, events[0]), events[1..]);
      Prepend(s, events[0], Trace(Step(s, events[0]), events[1..]), events[1..]);
      assert events == [events[0]] + events[1..];
    }
  }

  lemma Connecting()
    ensures var s := Step(Step(INITIAL, START[0]), START[1]);
      && s.link == Link(Some(1), true, Some(1), false, 1, None) && s.journal == INITIAL.journal.(epoch := 1)
      && s.authority == INITIAL.authority && s.outbox == INITIAL.outbox
      && s.peers == INITIAL.peers && !s.source.closed
  {
  }

  /** Connected and allowed to share, with only the rider and the grant still to come. */
  predicate Ready(s: State) {
    && Open(s) && s.link.client == Some(1) && s.link.up && s.link.nonce == Some(1)
    && s.peers == INITIAL.peers && !s.source.closed && s.outbox.inHand.None? && |s.outbox.queue| == 1
    && s.outbox.queue[0].message.ProbeMessage? && s.authority == INITIAL.authority
  }

  lemma Opening(s: State)
    requires s.link == Link(Some(1), true, Some(1), false, 1, None) && s.journal == INITIAL.journal.(epoch := 1)
    requires s.authority == INITIAL.authority && s.outbox == INITIAL.outbox && s.peers == INITIAL.peers
    requires !s.source.closed
    ensures Ready(Step(Step(s, START[2]), START[3]))
  {
    var t := Step(s, START[2]);
    assert LiveProbes(s.(journal := s.journal.(settingsReady := true)), NOW) == map[];
    var probe := Probe(10, 1, NOW, NOW + ATTEMPT_LIFETIME, Reconcile, None, 0, None, 1);
    assert t.journal.probes == map[10 := probe];
    assert Receive(t, IDLE, NOW) == Accepted;
  }

  /** The ride is on: the rider is active and the challenge answered, whatever the grant is. */
  predicate Riding(s: State) {
    && Open(s) && s.link.client == Some(1) && s.link.up && s.link.nonce == Some(1) && !s.source.closed
    && s.authority.activity == Some(RIDER) && s.authority.activityAt == Some(NOW)
    && s.authority.challenges == map[20 := NOW] && s.authority.cleared.None?
  }

  lemma Starting(s: State)
    requires Ready(s)
    ensures var t := Step(s, START[4]);
      && Riding(t) && t.authority.grant.None? && t.authority.last.None? && t.peers == s.peers && t.outbox == s.outbox
  {
    assert map[20 := NOW] - {} == map[20 := NOW];
    assert s.authority.challenges[20 := NOW] - {} == map[20 := NOW];
  }

  predicate HeldGrant(s: State, c: Control) {
    && s.authority.grant == Some(c) && s.authority.last == Some(c) && s.authority.grantActive
    && s.authority.grantAt == Some(NOW) && s.authority.grantTtl == LEASE_DURATION
  }

  /** Either control is accepted, over none or either of them, and only the listed peers stay. */
  lemma Granting(s: State, c: Control)
    requires Riding(s) && (c == GRANT || c == WITHOUT) && |s.outbox.queue| < REDIS_QUEUE_SIZE
    requires (s.authority.grant.None? && s.authority.last.None?) || HeldGrant(s, GRANT) || HeldGrant(s, WITHOUT)
    ensures var t := Step(s, EControl(c, None, NOW, NOW));
      && Riding(t) && HeldGrant(t, c)
      && t.peers.streams == (if s.peers.scope == Some(4) && c == GRANT then Only(s.peers.streams, 7) else map[])
      && t.peers.scope == Some(4) && t.outbox.inHand == s.outbox.inHand && |t.outbox.queue| == |s.outbox.queue| + 1
      && t.outbox.queue[..|s.outbox.queue|] == s.outbox.queue && !t.outbox.queue[|s.outbox.queue|].message.PeerMessage?
  {
    assert AcceptsGrant(s, c, NOW);
    GrantStep(s, c);
  }

  function Only(streams: map<Uuid, PeerReplay>, p: Uuid): map<Uuid, PeerReplay> {
    map q | q in streams && q == p :: streams[q]
  }

  lemma GrantStep(s: State, c: Control)
    requires Riding(s) && (c == GRANT || c == WITHOUT) && AcceptsGrant(s, c, NOW)
    ensures var t := Step(s, EControl(c, None, NOW, NOW));
      && Riding(t) && HeldGrant(t, c)
      && t.peers.streams == (if s.peers.scope == Some(4) && c == GRANT then Only(s.peers.streams, 7) else map[])
      && t.peers.scope == Some(4)
      && t.outbox == QueueRedis(s, ControlMessage(c), LEASE_DURATION, NOW).outbox
  {
    assert ValidControl(c);
    hide AcceptsGrant, ValidControl, Drop;
    var granted := Granted(s, c, NOW, NOW);
    assert granted.authority.grant == Some(c) && !granted.source.closed;
  }

  /** The position is accepted whenever its peer is listed and not yet known. */
  lemma Positioning(s: State)
    requires Riding(s) && HeldGrant(s, GRANT) && 7 !in s.peers.streams && |s.outbox.queue| < REDIS_QUEUE_SIZE
    ensures var t := Step(s, EPeer(POSITION, NOW));
      && t == s.(peers := t.peers, outbox := t.outbox) && t.peers.scope == s.peers.scope
      && t.peers.streams == s.peers.streams[7 := PeerReplay(8, 1, 1, 1, None, false)]
      && t.outbox.inHand == s.outbox.inHand && t.outbox.queue == s.outbox.queue + [COPY]
  {
    assert AcceptsPeer(s, POSITION, NOW);
  }

  /** Two copies of the position are queued, and the replay entry names it. */
  predicate TwoCopies(s: State) {
    && Riding(s) && HeldGrant(s, GRANT) && s.outbox.inHand.None? && |s.outbox.queue| == 6
    && !s.outbox.queue[0].message.PeerMessage? && !s.outbox.queue[1].message.PeerMessage? && s.outbox.queue[2] == COPY
    && !s.outbox.queue[3].message.PeerMessage? && !s.outbox.queue[4].message.PeerMessage? && s.outbox.queue[5] == COPY
    && 7 in s.peers.streams && s.peers.streams[7] == PeerReplay(8, 1, 1, 1, None, false)
  }

  lemma Taking(s: State)
    requires Riding(s) && s.authority.grant.None? && s.authority.last.None? && s.peers == INITIAL.peers
    requires s.outbox.inHand.None? && |s.outbox.queue| == 1 && s.outbox.queue[0].message.ProbeMessage?
    ensures TwoCopies(Step(Step(Step(Step(Step(s, RIDE[0]), RIDE[1]), RIDE[2]), RIDE[3]), RIDE[4]))
  {
    hide Step, Riding;
    Granting(s, GRANT);
    var granted := Step(s, RIDE[0]);
    Positioning(granted);
    var placed := Step(granted, RIDE[1]);
    RidingOn(granted, placed);
    Granting(placed, WITHOUT);
    var without := Step(placed, RIDE[2]);
    Granting(without, GRANT);
    var again := Step(without, RIDE[3]);
    Positioning(again);
    RidingOn(again, Step(again, RIDE[4]));
  }

  lemma RidingOn(s: State, t: State)
    requires Riding(s) && t == s.(peers := t.peers, outbox := t.outbox)
    ensures Riding(t)
  {
  }

  lemma CopiesRepeat(s: State)
    requires TwoCopies(s)
    ensures !StrictFrom(s, 7)
  {
    hide StrictFrom;
    var q := s.outbox.queue;
    assert Positions(q, 7) == [POSITION, POSITION] by {
      assert forall k | 0 <= k < 6 :: q[k..][0] == q[k] && q[k..][1..] == q[k + 1..];
      assert q[6..] == [] && q[0..] == q;
      assert Positions(q[5..], 7) == [POSITION];
      assert Positions(q[4..], 7) == [POSITION];
      assert Positions(q[3..], 7) == [POSITION];
      assert Positions(q[2..], 7) == [POSITION, POSITION];
      assert Positions(q[1..], 7) == [POSITION, POSITION];
    }
    assert Deliverable(s, COPY, NOW);
    QueueRepeats(s, 7, 0, 1, NOW);
  }

  lemma Join(a: seq<State>, b: seq<State>, before: seq<Event>, after: seq<Event>)
    requires Run(a, before) && Run(b, after) && a[|before|] == b[0]
    ensures Run(a[..|before|] + b, before + after)
  {
    hide Step;
    var all, both := a[..|before|] + b, before + after;
    forall k | 0 <= k < |both| ensures all[k + 1] == Step(all[k], both[k]) {
      if k < |before| {
        assert a[k + 1] == Step(a[k], before[k]);
      } else {
        assert b[k - |before| + 1] == Step(b[k - |before|], after[k - |before|]);
      }
    }
  }

  lemma Started(states: seq<State>)
    requires Run(states, START) && states[0] == INITIAL
    ensures var s := states[5];
      && Riding(s) && s.authority.grant.None? && s.authority.last.None? && s.peers == INITIAL.peers
      && s.outbox.inHand.None? && |s.outbox.queue| == 1 && s.outbox.queue[0].message.ProbeMessage?
  {
    hide Step, Riding;
    assert states[1] == Step(states[0], START[0]) && states[2] == Step(states[1], START[1]);
    Connecting();
    assert states[3] == Step(states[2], START[2]) && states[4] == Step(states[3], START[3]);
    Opening(states[2]);
    assert states[5] == Step(states[4], START[4]);
    Starting(states[4]);
  }

  lemma Ridden(states: seq<State>)
    requires Run(states, RIDE)
    ensures states[5] == Step(Step(Step(Step(Step(states[0], RIDE[0]), RIDE[1]), RIDE[2]), RIDE[3]), RIDE[4])
  {
    hide Step;
    assert states[1] == Step(states[0], RIDE[0]) && states[2] == Step(states[1], RIDE[1]);
    assert states[3] == Step(states[2], RIDE[2]) && states[4] == Step(states[3], RIDE[3]);
    assert states[5] == Step(states[4], RIDE[4]);
  }

  lemma Arriving(states: seq<State>)
    requires Run(states, START + RIDE) && states[0] == INITIAL
    ensures TwoCopies(states[10])
  {
    hide Step, TwoCopies, Riding;
    Halves(states, START, RIDE);
    Started(states[..6]);
    Ridden(states[5..]);
    Taking(states[5]);
  }

  lemma Halves(states: seq<State>, before: seq<Event>, after: seq<Event>)
    requires Run(states, before + after)
    ensures Run(states[..|before| + 1], before) && Run(states[|before|..], after)
  {
    hide Step;
    var events := before + after;
    forall k | 0 <= k < |before| ensures states[k + 1] == Step(states[k], before[k]) {
      assert events[k] == before[k];
    }
    forall k | 0 <= k < |after|
      ensures states[|before|..][k + 1] == Step(states[|before|..][k], after[k])
    {
      assert events[|before| + k] == after[k];
    }
  }

  /**
   * A run that starts with these events, and in which, with the peer on the roster from then on, one position is
   * published twice.
   */
  lemma PositionRepeats()
    ensures exists states, events, i: nat, j: nat, v: PeerPosition, w: PeerPosition ::
      && ValidRun(states, events) && START + RIDE <= events && i < j
      && ForwardsPeer(states, events, i, v) && ForwardsPeer(states, events, j, w) && v.peer == w.peer
      && Rostered(states, |START + RIDE|, j, v.peer) && |START + RIDE| <= i && SamePlace(v, w)
  {
    hide Step, TwoCopies, Forwarded, Before, SamePlace;
    var before := START + RIDE;
    var a := Trace(INITIAL, before);
    TraceIsRun(INITIAL, before);
    Arriving(a);
    CopiesRepeat(a[10]);
    var b, after, i: nat, j: nat, v: PeerPosition, w: PeerPosition :|
      && Run(b, after) && b[0] == a[10] && i < j && Rostered(b, 0, j, 7) && v.peer == w.peer == 7
      && ForwardsPeer(b, after, i, v) && ForwardsPeer(b, after, j, w) && !Before(v, w);
    Join(a, b, before, after);
    var states, events := a[..10] + b, before + after;
    assert ForwardsPeer(states, events, i + 10, v) && ForwardsPeer(states, events, j + 10, w);
    assert forall k | 10 <= k < |states| :: states[k] == b[k - 10];
    assert Rostered(states, 10, j + 10, 7);
    ForwardedNeverGoBack(states, events, i + 10, j + 10, v, w);
  }
}
