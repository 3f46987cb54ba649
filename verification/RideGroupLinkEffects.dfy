/** What connections, settings and the timer leave behind, and what may go out to the server and over Redis. */
module RideGroupLinkEffects {
  import opened Wrappers
  import opened RideGroupTypes
  import opened RideGroupMachine
  import opened RideGroupEffects
  import opened RideGroupJournalEffects
  import opened RideGroupAuthorityEffects

  // ---- Connections and settings ----

  /** A connection starts, or ends, with nothing known: no authority or its history, no journal state, no positions. */
  predicate Restarted(s: State, t: State, client: Option<nat>, nonce: Option<Uuid>) {
    && t.link == s.link.(client := client, up := client.Some?, nonce := nonce, lastHelloAt := None)
    && t.authority == s.authority.(activity := None, activityAt := None, challenges := map[], grant := None,
                                   grantActive := false, grantAt := None, grantTtl := 0, cleared := None, last := None)
    && t.journal == s.journal.(ready := false, stop := None, stopBlocked := false, epoch := s.journal.epoch + 1,
                               probes := map[], attempts := map[], used := map[], query := None, permit := None)
    && t.source == s.source.(generation := t.source.generation, lastPositionAt := None)
    && t.source.generation > s.source.generation
    && t.egress == s.egress.(pending := s.egress.pending - {PositionKind, SourceKind})
    && t.peers == s.peers && t.outbox == s.outbox
  }

  lemma RestartDoes(s: State, client: Option<nat>, nonce: Option<Uuid>)
    ensures Restarted(s, ResetConnection(s, client, nonce), client, nonce)
  {
    var both := {PositionKind, SourceKind};
    assert s.egress.pending - {PositionKind} - both == s.egress.pending - both;
  }

  /** Hello to the server, and a re-read of the journal if it may be asked for. */
  ghost predicate Greeted(s: State, t: State, hello: Option<Uuid>, mint: Option<Uuid>, now: Nanos) {
    exists said :: HelloEffect(s, said, hello, now) && AskedAgain(said, t, mint, now)
  }

  lemma GreetDoes(s: State, hello: Option<Uuid>, mint: Option<Uuid>, now: Nanos)
    ensures Greeted(s, Greet(s, hello, mint, now), hello, mint, now)
  {
    hide HelloEffect, PublishHello, AskedAgain, Reprobe;
    HelloDoes(s, hello, now);
    AskedAgainDoes(PublishHello(s, hello, now), mint, now);
  }

  /** The end of connect attempt `attempt`: a superseded one changes nothing, a subscribed one starts the connection. */
  ghost predicate ConnectEffect(s: State, t: State, e: Event)
    requires e.EConnectFinish?
  {
    if s.link.attempt != e.attempt then t == s
    else if !e.subscribed then t == s.(link := s.link.(connecting := false))
    else exists begun ::
      && Restarted(s.(link := s.link.(connecting := false)), begun, Some(e.client), Some(e.nonce))
      && Greeted(begun, t, e.hello, e.mint, e.now)
  }

  lemma ConnectDoes(s: State, e: Event)
    requires e.EConnectFinish?
    ensures ConnectEffect(s, Step(s, e), e)
  {
    hide Restarted, ResetConnection, Greeted, Greet;
    var idle := s.(link := s.link.(connecting := false));
    RestartDoes(idle, Some(e.client), Some(e.nonce));
    GreetDoes(ResetConnection(idle, Some(e.client), Some(e.nonce)), e.hello, e.mint, e.now);
  }

  /** A drop of the current client, or during an attempt, supersedes the attempt; a current connection ends with it. */
  predicate DisconnectEffect(s: State, t: State, client: nat) {
    var current := s.link.client == Some(client);
    if !current && !s.link.connecting then t == s
    else
      var idle := s.(link := s.link.(attempt := s.link.attempt + 1, connecting := false));
      if current then Restarted(idle, t, None, None) else t == idle
  }

  lemma DisconnectDoes(s: State, client: nat)
    ensures DisconnectEffect(s, Disconnect(s, client), client)
  {
    hide Restarted, ResetConnection;
    RestartDoes(s.(link := s.link.(attempt := s.link.attempt + 1, connecting := false)), None, None);
  }

  /** Inhibited, one IPC epoch further. */
  predicate ShutTwice(s: State, t: State) {
    t.journal.epoch == s.journal.epoch + 2 && Shut(s, t.(journal := t.journal.(epoch := s.journal.epoch + 1)))
  }

  /** The first settings greet the server; settings that are or were blocked inhibit the journal and ask again. */
  ghost predicate SettingsEffect(s: State, t: State, e: Event)
    requires e.ERefreshBlocked?
  {
    exists greeted ::
      && Introduced(s, greeted, e)
      && (if e.blocked || s.journal.blocked then Blocked(greeted, t, e) else t == greeted)
  }

  ghost predicate Introduced(s: State, t: State, e: Event)
    requires e.ERefreshBlocked?
  {
    var noted := s.(journal := s.journal.(blocked := e.blocked, settingsReady := true));
    if !s.journal.settingsReady && s.link.client.Some? && s.link.up then Greeted(noted, t, e.hello, e.mint, e.now)
    else t == noted
  }

  ghost predicate Blocked(s: State, t: State, e: Event)
    requires e.ERefreshBlocked?
  {
    exists shut :: ShutTwice(s, shut) && AskedAgain(shut, t, e.again, e.now)
  }

  lemma ReinhibitDoes(s: State)
    ensures ShutTwice(s, Reinhibit(s))
  {
  }

  lemma SettingsDo(s: State, e: Event)
    requires e.ERefreshBlocked?
    ensures SettingsEffect(s, Step(s, e), e)
  {
    hide Greeted, Greet, ShutTwice, Reinhibit, AskedAgain, Reprobe;
    var noted := s.(journal := s.journal.(blocked := e.blocked, settingsReady := true));
    GreetDoes(noted, e.hello, e.mint, e.now);
    var greeted :=
      if !s.journal.settingsReady && Connected(noted) then Greet(noted, e.hello, e.mint, e.now) else noted;
    assert Introduced(s, greeted, e);
    ReinhibitDoes(greeted);
    AskedAgainDoes(Reinhibit(greeted), e.again, e.now);
    assert Blocked(greeted, Reprobe(Reinhibit(greeted), e.again, e.now), e);
  }

  // ---- The timer ----

  predicate RiderGone(s: State, now: Nanos) {
    s.authority.activity.Some?
    && !(s.authority.activityAt.Some? && 0 <= now - s.authority.activityAt.value < 10 * SECOND)
  }

  predicate LeaseOver(s: State, now: Nanos) {
    s.authority.grant.Some?
    && !(s.authority.grantAt.Some? && 0 <= now - s.authority.grantAt.value < s.authority.grantTtl)
  }

  /** Exactly what has run out is forgotten. */
  ghost predicate Expired(s: State, t: State, now: Nanos) {
    && t.authority.activity == (if RiderGone(s, now) then None else s.authority.activity)
    && t.authority.challenges == (if RiderGone(s, now) then map[] else s.authority.challenges)
    && (if RiderGone(s, now) || LeaseOver(s, now) then
          && t.authority.grant.None? && !t.authority.grantActive && PositionsDropped(s, t)
          && SourceKind !in t.egress.pending && t.source.lastStatus == s.source.lastStatus
        else t.authority == s.authority && t.source == s.source && t.egress == s.egress)
    && t.journal == s.journal.(probes := t.journal.probes, attempts := t.journal.attempts)
    && (forall c :: c in t.journal.probes <==> c in s.journal.probes && !Dead(s, s.journal.probes[c], now))
    && (forall c | c in t.journal.probes :: t.journal.probes[c] == s.journal.probes[c])
    && (forall c :: c in t.journal.attempts <==> c in s.journal.attempts && StillOpen(s, s.journal.attempts[c], now))
    && (forall c | c in t.journal.attempts :: t.journal.attempts[c] == s.journal.attempts[c])
    && t.link == s.link && t.peers == s.peers && t.outbox == s.outbox
  }

  predicate StillOpen(s: State, a: Attempt, now: Nanos) {
    now <= a.deadline && Some(a.connection) == s.link.nonce && a.epoch == s.journal.epoch
  }

  /** What has run out is forgotten, and then a source status that is due is repeated. */
  ghost predicate TickEffect(s: State, t: State, now: Nanos) {
    exists expired :: Expired(s, expired, now) && StatusRepeated(expired, t, now) && OnlySource(expired, t)
      && t.source.generation == expired.source.generation
      && Pending(t, PositionKind) == Pending(expired, PositionKind)
  }

  lemma ExpiryDoes(s: State, now: Nanos)
    ensures Expired(s, Expire(s, now), now)
  {
    var lease := ExpireLease(ExpireActivity(s, now), now);
    assert lease.journal == s.journal && lease.link == s.link && lease.peers == s.peers && lease.outbox == s.outbox;
  }

  lemma TickDoes(s: State, now: Nanos)
    ensures TickEffect(s, Tick(s, now), now)
  {
    hide Expire, RetrySource, StatusRepeated, Expired;
    ExpiryDoes(s, now);
    RetryEffect(Expire(s, now), now);
  }
}
