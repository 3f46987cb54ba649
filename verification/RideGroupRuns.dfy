/** The adapter object driven by any sequence of events passes through a run of the state machine. */
module RideGroupRuns {
  import opened Wrappers
  import opened RideGroupTypes
  import opened RideGroupMachine
  import opened RideGroupEffects
  import opened RideGroupJournalEffects
  import opened RideGroupAuthorityEffects
  import opened RideGroupLinkEffects
  import opened RideGroupEgressEffects
  import opened RideGroupAdapter

  predicate FewUsed(s: State) { |s.journal.used| <= 10 }

  /** The event that happened: the given one, with the choices left to map iteration order filled in. */
  predicate Resolves(e: Event, actual: Event) {
    match e
    case ESnapshot(stop, mint, _, now) => actual.ESnapshot? && actual == e.(victim := actual.victim)
    case EActivity(activity, _, now) => actual.EActivity? && actual == e.(dropped := actual.dropped)
    case EMqttTake(_) => actual.EMqttTake?
    case _ => actual == e
  }

  lemma GrantKeepsUsed(s: State, c: Control, now: Nanos, later: Nanos)
    ensures HandleGrant(s, c, now, later).journal == s.journal
  {
    hide AcceptsGrant, ValidSourceStatus;
  }

  lemma IssueKeepsUsed(s: State, purpose: Purpose, query: Option<Query>, mint: Option<Uuid>, now: Nanos)
    ensures IssueProbe(s, purpose, query, mint, now).0.journal.used == s.journal.used
  {
    hide NewProbe, LiveProbes, Recent, CanProbe;
  }

  lemma ReprobeKeepsUsed(s: State, mint: Option<Uuid>, now: Nanos)
    ensures Reprobe(s, mint, now).journal.used == s.journal.used
  {
    hide IssueProbe;
    IssueKeepsUsed(s, Reconcile, None, mint, now);
  }

  lemma ControlKeepsUsed(s: State, c: Control, mint: Option<Uuid>, now: Nanos, later: Nanos)
    requires FewUsed(s)
    ensures FewUsed(HandleControl(s, c, mint, now, later))
  {
    hide HandleGrant, IssueProbe, ValidControl, Contradicts, QueryMatches, AnswersAttempt, MayOffer, RevokesGrant;
    GrantKeepsUsed(s, c, now, later);
    if c.stopResult.Some? && AnswersAttempt(s, c, now) {
      StatusKeepsUsed(s, c, mint, now);
    }
  }

  lemma StatusKeepsUsed(s: State, c: Control, mint: Option<Uuid>, now: Nanos)
    requires FewUsed(s) && c.stopResult.Some?
    ensures FewUsed(HandleStopStatus(s, c, mint, now))
  {
    hide IssueProbe, Contradicts, QueryMatches;
    if AnswersAttempt(s, c, now) {
      var reported := ReportStop(s, c, s.journal.attempts[c.challenge], now);
      IssueKeepsUsed(reported, ApplyConfirmation, reported.journal.query, mint, now);
    }
  }

  lemma GpsKeepsUsed(s: State, e: Event)
    requires e.EGps? || e.ETick?
    ensures Step(s, e).journal.used == s.journal.used
  {
    hide GrantCurrent, ActivityMatchesGrant, MayPublishPosition, MayRetrySource, ValidSourceStatus, SourceReport,
         StatusAge;
  }

  lemma ConnectionKeepsUsed(s: State, e: Event)
    requires FewUsed(s)
    requires (e.EConnectBegin? || e.EConnectFinish? || e.EDisconnect? || e.EFailClosed? || e.ERefreshBlocked?)
    ensures FewUsed(Step(s, e))
  {
    hide Reprobe;
    if e.EConnectFinish? {
      var reset := ResetConnection(s.(link := s.link.(connecting := false)), Some(e.client), Some(e.nonce));
      ReprobeKeepsUsed(PublishHello(reset, e.hello, e.now), e.mint, e.now);
    } else if e.ERefreshBlocked? {
      var noted := s.(journal := s.journal.(blocked := e.blocked, settingsReady := true));
      ReprobeKeepsUsed(PublishHello(noted, e.hello, e.now), e.mint, e.now);
      var greeted := if !s.journal.settingsReady && Connected(noted) then Greet(noted, e.hello, e.mint, e.now)
            else noted;
      ReprobeKeepsUsed(Reinhibit(greeted), e.again, e.now);
    }
  }

  lemma ActivityKeepsUsed(s: State, a: Activity, dropped: set<Uuid>, now: Nanos)
    ensures HandleActivity(s, a, dropped, now).journal == s.journal
  {
    hide AcceptsActivity;
  }

  lemma PeersKeepUsed(s: State, e: Event)
    requires e.EPeer? || e.EPeerStatus?
    ensures Step(s, e).journal == s.journal
  {
    hide AcceptsPeer, AcceptsPeerStatus;
  }

  /** No event but a snapshot remembers another consumed probe. */
  lemma FewStayFew(s: State, e: Event)
    requires FewUsed(s) && !e.ESnapshot?
    ensures FewUsed(Step(s, e))
  {
    hide ConnectBegin, ConnectFinish, Disconnect, RefreshBlocked, IssueProbe, FailClosed, HandleActivity, HandleControl,
         HandlePeer, HandlePeerStatus, HandleGps, Tick;
    match e
    case EConnectBegin(_) => ConnectionKeepsUsed(s, e);
    case EConnectFinish(_, _, _, _, _, _, _) => ConnectionKeepsUsed(s, e);
    case EDisconnect(_) => ConnectionKeepsUsed(s, e);
    case ERefreshBlocked(_, _, _, _, _) => ConnectionKeepsUsed(s, e);
    case ERecoveryDone(mint, now) => ReprobeKeepsUsed(s, mint, now);
    case EFailClosed => ConnectionKeepsUsed(s, e);
    case EActivity(activity, dropped, now) => ActivityKeepsUsed(s, activity, dropped, now);
    case EControl(control, mint, now, later) => ControlKeepsUsed(s, control, mint, now, later);
    case EPeer(_, _) => PeersKeepUsed(s, e);
    case EPeerStatus(_, _) => PeersKeepUsed(s, e);
    case EGps(_, _, _, _) => GpsKeepsUsed(s, e);
    case ETick(_) => GpsKeepsUsed(s, e);
    case _ =>
  }

  /** What arrives: journal snapshots, rider activity, controls, peer messages and fixes. */
  predicate Arrives(e: Event) {
    e.ESnapshot? || e.EActivity? || e.EControl? || e.EPeer? || e.EPeerStatus? || e.EGps?
  }

  method PerformMessage(adapter: Adapter, e: Event) returns (ghost actual: Event)
    requires Arrives(e) && FewUsed(adapter.View())
    modifies adapter
    ensures Resolves(e, actual) && adapter.View() == Step(old(adapter.View()), actual)
    ensures e.ESnapshot? ==> FewUsed(adapter.View())
  {
    hide ConnectBegin, ConnectFinish, Disconnect, RefreshBlocked, Reprobe, FailClosed, HandleSnapshot, HandleActivity,
         HandleControl, HandlePeer, HandlePeerStatus, HandleGps, Tick, Published, Forwarded, LegalPrune,
         AcceptsActivity, AcceptsPeer, AcceptsPeerStatus, Authorized, Entitled, RedisTake, GpsEffect, SnapshotEffect,
         RiderEffect, ControlEffect, PeerEffect, PeerStatusEffect, ConnectEffect, DisconnectEffect, SettingsEffect,
         TickEffect, GoesToServer, ProbeEffect, Restarted;
    actual := e;
    match e {
      case ESnapshot(stop, mint, _, now) =>
        ghost var victim := adapter.HandleLocalStopSnapshot(stop, mint, now);
        actual := e.(victim := victim);
      case EActivity(activity, _, now) =>
        ghost var dropped := adapter.AcceptActivity(activity, now);
        actual := e.(dropped := dropped);
      case EControl(control, mint, now, later) => adapter.HandleControlMessage(control, mint, now, later);
      case EPeer(position, now) => adapter.HandlePeerMessage(position, now);
      case EPeerStatus(status, now) => adapter.HandlePeerStatusMessage(status, now);
      case EGps(captured, fixOk, sample, now) => adapter.HandleGpsMessage(captured, fixOk, sample, now);
    }
  }

  /** Performs one event on the object; the handlers that iterate over a map fill in what they chose. */
  method Perform(adapter: Adapter, e: Event) returns (ghost actual: Event)
    requires FewUsed(adapter.View())
    modifies adapter
    ensures Resolves(e, actual) && adapter.View() == Step(old(adapter.View()), actual) && FewUsed(adapter.View())
  {
    hide ConnectBegin, ConnectFinish, Disconnect, RefreshBlocked, Reprobe, FailClosed, HandleSnapshot, HandleActivity,
         HandleControl, HandlePeer, HandlePeerStatus, HandleGps, Tick, Published, Forwarded, LegalPrune,
         AcceptsActivity, AcceptsPeer, AcceptsPeerStatus, Authorized, Entitled, RedisTake, GpsEffect, SnapshotEffect,
         RiderEffect, ControlEffect, PeerEffect, PeerStatusEffect, ConnectEffect, DisconnectEffect, SettingsEffect,
         TickEffect, GoesToServer, ProbeEffect, Restarted;
    actual := e;
    ghost var before := adapter.View();
    match e {
      case EConnectBegin(client) => adapter.BeginConnect(client);
      case EConnectFinish(client, attempt, nonce, subscribed, hello, mint, now) =>
        adapter.FinishConnect(client, attempt, nonce, subscribed, hello, mint, now);
      case EDisconnect(client) => adapter.OnDisconnected(client);
      case ELink(up) => adapter.SetLink(up);
      case ERecoveryBegin => adapter.BeginRecovery();
      case ERefreshBlocked(blocked, hello, mint, again, now) =>
        adapter.RefreshSettings(blocked, hello, mint, again, now);
      case ERecoveryDone(mint, now) => adapter.MaybeReconcile(mint, now);
      case EFailClosed => adapter.CloseOnFailure();
      case ETick(now) => adapter.ExpireAll(now);
      case EMqttTake(_) =>
        if adapter.egress.inHand.None? {
          ghost var kind := adapter.TakePublication();
          actual := EMqttTake(kind);
        }
      case EMqttSend(now) => var _ := adapter.SendPublication(now);
      case ERedisTake => adapter.TakeRedis();
      case ERedisSend(now) => var _ := adapter.SendRedis(now);
      case _ => actual := PerformMessage(adapter, e);
    }
    if !e.ESnapshot? { FewStayFew(before, actual); }
  }

  /** Drives a new adapter through any events: the states it passes through are a run of the machine. */
  method Drive(events: seq<Event>) returns (adapter: Adapter, ghost states: seq<State>, ghost actual: seq<Event>)
    ensures fresh(adapter) && ValidRun(states, actual) && |actual| == |events|
    ensures adapter.View() == states[|events|]
    ensures forall k | 0 <= k < |events| :: Resolves(events[k], actual[k])
  {
    hide Step, Resolves;
    adapter := new Adapter();
    states, actual := [adapter.View()], [];
    var i := 0;
    while i < |events|
      invariant 0 <= i <= |events| && |actual| == i && |states| == i + 1 && fresh(adapter)
      invariant states[i] == adapter.View() && FewUsed(adapter.View()) && ValidRun(states, actual)
      invariant forall k | 0 <= k < i :: Resolves(events[k], actual[k])
    {
      ghost var performed := Perform(adapter, events[i]);
      states, actual := states + [adapter.View()], actual + [performed];
      i := i + 1;
    }
  }
}
