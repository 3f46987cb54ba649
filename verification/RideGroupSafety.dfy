/** No position leaves after evidence of a stop until the journal has been re-read and consent granted again. */
module RideGroupSafety {
  import opened Wrappers
  import opened RideGroupTypes
  import opened RideGroupMachine
  import opened RideGroupInvariants

  /** The event tells the adapter that sharing is, or may be, stopped. */
  predicate StopEvidence(s: State, e: Event) {
    match e
    case ERefreshBlocked(blocked, _, _, _, _) => blocked || s.journal.blocked
    case EFailClosed => true
    case EConnectFinish(_, attempt, _, subscribed, _, _, _) => s.link.attempt == attempt && subscribed
    case EDisconnect(client) => s.link.client == Some(client)
    case ESnapshot(stop, _, _, now) =>
      (match Receive(s, stop, now)
       case Ignored => false
       case Repeated => false
       case Conflicting => true
       case Rejected => true
       case Unsolicited => Stopping(stop)
       case Accepted => Stopping(stop))
    case _ => false
  }

  /** Every waiting position carries an outdated generation. */
  predicate PositionsStale(s: State) {
    && (HasPending(s) ==> s.egress.pending[PositionKind].content.generation < s.source.generation)
    && (HasTaken(s) ==> s.egress.inHand.value.content.generation < s.source.generation)
  }

  ghost predicate Shut(s: State, mints: set<Uuid>) {
    s.authority.grant.None? && !s.journal.ready && PositionsStale(s) && s.journal.probes.Keys <= mints
  }

  lemma InhibitShuts(s: State)
    requires Inv(s)
    ensures Shut(Inhibit(s), {})
  {
  }

  lemma ReprobeStaysShut(s: State, mint: Option<Uuid>, now: Nanos)
    requires Inv(s) && Shut(s, {})
    ensures Shut(Reprobe(s, mint, now), Minted(mint))
  {
    ProbeKeeps(s, mint, now);
  }

  lemma RejectShuts(s: State, v: LocalStop, victim: Uuid)
    requires Inv(s)
    ensures Shut(Consume(Inhibit(s), v, victim), {})
  {
    InhibitShuts(s);
    RejectKeeps(s, v, victim);
  }

  lemma AdoptShuts(s: State, v: LocalStop, victim: Uuid, now: Nanos)
    requires Inv(s) && Receive(s, v, now).Accepted? && Stopping(v)
    ensures Shut(Adopt(s, v, victim), {})
  {
    AdoptKeeps(s, v, victim, now);
  }

  lemma AdvancesStaysShut(s: State, t: State, mints: set<Uuid>)
    requires Shut(s, {}) && Advances(s, t, mints) && t.egress.inHand == s.egress.inHand
    requires (t.authority.grant.Some? ==> s.authority.grant.Some?) && (t.journal.ready ==> s.journal.ready)
    ensures Shut(t, mints)
  {
  }

  lemma SnapshotShuts(s: State, v: LocalStop, mint: Option<Uuid>, victim: Uuid, now: Nanos)
    requires Inv(s) && StopEvidence(s, ESnapshot(v, mint, victim, now))
    ensures Shut(HandleSnapshot(s, v, mint, victim, now), Minted(mint))
  {
    hide Inhibit, Reprobe, Consume, Adopt, FollowUp, Inv, Fenced, Advances;
    match Receive(s, v, now)
    case Conflicting =>
      InhibitKeeps(s);
      InhibitShuts(s);
      ReprobeStaysShut(Inhibit(s), mint, now);
    case Unsolicited =>
      InhibitKeeps(s);
      InhibitShuts(s);
      ReprobeStaysShut(Inhibit(s), mint, now);
    case Rejected =>
      RejectKeeps(s, v, victim);
      RejectShuts(s, v, victim);
      ReprobeStaysShut(Consume(Inhibit(s), v, victim), mint, now);
    case Accepted =>
      var adopted := Adopt(s, v, victim);
      AdoptKeeps(s, v, victim, now);
      AdoptShuts(s, v, victim, now);
      AnsweredProbe(s, v, now);
      ProbeBound(s, v.challenge);
      FollowUpKeeps(adopted, v, s.journal.probes[v.challenge], now);
      AdvancesStaysShut(adopted, FollowUp(adopted, v, s.journal.probes[v.challenge], now), {});
  }

  lemma ResetShuts(s: State, client: Option<nat>, nonce: Option<Uuid>)
    requires Inv(s)
    ensures Inv(ResetConnection(s, client, nonce)) && Shut(ResetConnection(s, client, nonce), {})
  {
    ResetKeeps(s, client, nonce);
  }

  lemma FailClosedShuts(s: State)
    requires Inv(s)
    ensures Shut(FailClosed(s), {})
  {
  }

  lemma ReinhibitShuts(s: State)
    requires Inv(s)
    ensures Shut(Reinhibit(s), {})
  {
  }

  lemma RefreshShuts(s: State, blocked: bool, hello: Option<Uuid>, mint: Option<Uuid>, again: Option<Uuid>, now: Nanos)
    requires Inv(s) && (blocked || s.journal.blocked)
    ensures Shut(RefreshBlocked(s, blocked, hello, mint, again, now), Minted(mint) + Minted(again))
  {
    hide Greet, Reinhibit, Reprobe, Inv, Fenced;
    var noted := s.(journal := s.journal.(blocked := blocked, settingsReady := true));
    SettingsKeep(s, blocked);
    GreetKeeps(noted, hello, mint, now);
    var greeted := if !s.journal.settingsReady && Connected(noted) then Greet(noted, hello, mint, now) else noted;
    ReinhibitKeeps(greeted);
    ReinhibitShuts(greeted);
    ReprobeStaysShut(Reinhibit(greeted), again, now);
  }

  /** Evidence of a stop leaves nothing that could authorise a position. */
  lemma EvidenceShuts(s: State, e: Event)
    requires Inv(s) && StopEvidence(s, e)
    ensures Shut(Step(s, e), Mints(e))
  {
    hide RefreshBlocked, FailClosed, HandleSnapshot, ResetConnection, Greet, HandleActivity, HandleControl, HandlePeer,
         HandlePeerStatus, HandleGps, Tick, IssueProbe, Inv, Fenced, Guarded;
    match e
    case ERefreshBlocked(blocked, hello, mint, again, now) => RefreshShuts(s, blocked, hello, mint, again, now);
    case EFailClosed => FailClosedShuts(s);
    case ESnapshot(stop, mint, victim, now) => SnapshotShuts(s, stop, mint, victim, now);
    case EDisconnect(client) =>
      var idle := s.(link := s.link.(attempt := s.link.attempt + 1, connecting := false));
      LinkKeeps(s, idle.link);
      ResetShuts(idle, None, None);
    case EConnectFinish(client, attempt, nonce, subscribed, hello, mint, now) =>
      var idle := s.(link := s.link.(connecting := false));
      LinkKeeps(s, idle.link);
      var reset := ResetConnection(idle, Some(client), Some(nonce));
      ResetShuts(idle, Some(client), Some(nonce));
      GreetKeeps(reset, hello, mint, now);
      FencedIsGuarded(reset, Greet(reset, hello, mint, now), Minted(mint));
      GuardedParts(reset, Greet(reset, hello, mint, now), Minted(mint));
      AdvancesStaysShut(reset, Greet(reset, hello, mint, now), Minted(mint));
  }

  // ---- Runs ----

  lemma {:induction false} RunKeeps(states: seq<State>, events: seq<Event>, k: nat)
    requires ValidRun(states, events) && k < |states|
    ensures Inv(states[k])
  {
    if k > 0 {
      RunKeeps(states, events, k - 1);
      StepKeeps(states[k - 1], events[k - 1]);
    }
  }

  /** Step m minted challenge c and left it outstanding as a journal probe. */
  predicate IssuedAt(states: seq<State>, events: seq<Event>, m: nat, c: Uuid) {
    m < |events| < |states| && c in Mints(events[m]) && c in states[m + 1].journal.probes
  }

  ghost predicate IssuedSince(states: seq<State>, events: seq<Event>, i: nat, j: nat, c: Uuid) {
    exists m :: i <= m < j && IssuedAt(states, events, m, c)
  }

  /** Step k accepts an idle, unblocked snapshot answering a probe issued at step m. */
  predicate ReopenedAt(states: seq<State>, events: seq<Event>, m: nat, k: nat) {
    && m < k < |events| < |states| && OpensJournal(states[k], events[k])
    && IssuedAt(states, events, m, events[k].stop.challenge)
  }

  predicate GrantedAt(states: seq<State>, events: seq<Event>, g: nat) {
    g < |events| < |states| && Grants(states[g], events[g])
  }

  /** How far the adapter has come back since the evidence. */
  datatype Watch = Barred | Reopened(probed: nat, answered: nat) | Regranted(probed: nat, answered: nat, granted: nat)

  /** Waiting positions are outdated or were queued after the egress counter stood at `order`. */
  predicate PositionsNewer(s: State, order: nat) {
    && (HasPending(s) ==>
          || s.egress.pending[PositionKind].content.generation < s.source.generation
          || s.egress.pending[PositionKind].order > order)
    && (HasTaken(s) ==>
          || s.egress.inHand.value.content.generation < s.source.generation
          || s.egress.inHand.value.order > order)
  }

  ghost predicate Watching(states: seq<State>, events: seq<Event>, i: nat, j: nat, w: Watch)
    requires j < |states|
  {
    match w
    case Barred =>
      && states[j].authority.grant.None? && !states[j].journal.ready && PositionsStale(states[j])
      && forall c | c in states[j].journal.probes :: IssuedSince(states, events, i, j, c)
    case Reopened(m, k) =>
      && i <= m < k < j && ReopenedAt(states, events, m, k)
      && states[j].authority.grant.None? && PositionsStale(states[j])
    case Regranted(m, k, g) =>
      && i <= m < k < g < j && ReopenedAt(states, events, m, k) && GrantedAt(states, events, g)
      && states[g + 1].egress.order <= states[j].egress.order
      && PositionsNewer(states[j], states[g + 1].egress.order)
  }

  lemma BarredStep(states: seq<State>, events: seq<Event>, i: nat, j: nat) returns (w: Watch)
    requires ValidRun(states, events) && i < j < |events| && Watching(states, events, i, j, Barred)
    ensures Watching(states, events, i, j + 1, w)
  {
    hide Step, Grants, OpensJournal, IssuedSince, IssuedAt;
    RunKeeps(states, events, j);
    var s, e, t := states[j], events[j], states[j + 1];
    StepKeeps(s, e);
    assert !Grants(s, e) by { GrantsNeedReady(s, e); }
    if t.journal.ready {
      OpeningAnswersProbe(s, e);
      var m := FindIssue(states, events, i, j, e.stop.challenge);
      w := Reopened(m, j);
    } else {
      w := Barred;
      forall c | c in t.journal.probes ensures IssuedSince(states, events, i, j + 1, c) {
        ProbeSince(states, events, i, j, c);
      }
    }
  }

  lemma FindIssue(states: seq<State>, events: seq<Event>, i: nat, j: nat, c: Uuid) returns (m: nat)
    requires IssuedSince(states, events, i, j, c)
    ensures i <= m < j && IssuedAt(states, events, m, c)
  {
    m :| i <= m < j && IssuedAt(states, events, m, c);
  }

  lemma ProbeSince(states: seq<State>, events: seq<Event>, i: nat, j: nat, c: Uuid)
    requires i < j < |events| < |states| && c in states[j + 1].journal.probes
    requires c in states[j].journal.probes ==> IssuedSince(states, events, i, j, c)
    requires c in states[j].journal.probes || c in Mints(events[j])
    ensures IssuedSince(states, events, i, j + 1, c)
  {
    if c in states[j].journal.probes {
      var m :| i <= m < j && IssuedAt(states, events, m, c);
    } else {
      assert IssuedAt(states, events, j, c);
    }
  }

  lemma GrantsNeedReady(s: State, e: Event)
    ensures Grants(s, e) ==> s.journal.ready
  {
  }

  lemma OpeningAnswersProbe(s: State, e: Event)
    requires OpensJournal(s, e)
    ensures e.ESnapshot? && e.stop.challenge in s.journal.probes
  {
  }

  /** Without a grant nothing new is queued, so outdated positions stay outdated. */
  lemma StaleStays(s: State, e: Event, t: State)
    requires Inv(s) && Moves(s, e, t) && PositionsStale(s) && s.authority.grant.None?
    ensures PositionsStale(t) && (t.authority.grant.Some? ==> Grants(s, e))
  {
    hide StopMoves, AuthorityMoves, PeerMoves, Grants, OpensJournal, JournalInv;
  }

  lemma NewerStays(s: State, e: Event, t: State, order: nat)
    requires Inv(s) && Moves(s, e, t) && PositionsNewer(s, order) && order <= s.egress.order
    ensures PositionsNewer(t, order) && order <= t.egress.order
  {
    hide StopMoves, AuthorityMoves, PeerMoves, Grants, OpensJournal, JournalInv;
  }

  /** A grant starts with whatever waits being outdated. */
  lemma StaleIsNewer(s: State, order: nat)
    requires PositionsStale(s)
    ensures PositionsNewer(s, order)
  {
  }

  lemma ReopenedStep(states: seq<State>, events: seq<Event>, i: nat, j: nat, w: Watch) returns (next: Watch)
    requires ValidRun(states, events) && i < j < |events| && !w.Barred? && Watching(states, events, i, j, w)
    ensures Watching(states, events, i, j + 1, next)
  {
    hide Step, Grants, OpensJournal, Inv, Moves, PositionsStale, PositionsNewer, IssuedAt;
    RunKeeps(states, events, j);
    var s, e, t := states[j], events[j], states[j + 1];
    StepKeeps(s, e);
    next := w;
    if w.Reopened? {
      StaleStays(s, e, t);
      StaleIsNewer(t, t.egress.order);
      if t.authority.grant.Some? { next := Regranted(w.probed, w.answered, j); }
    } else {
      NewerStays(s, e, t, states[w.granted + 1].egress.order);
    }
  }

  lemma WatchStarts(states: seq<State>, events: seq<Event>, i: nat)
    requires ValidRun(states, events) && i < |events| && StopEvidence(states[i], events[i])
    ensures Watching(states, events, i, i + 1, Barred)
  {
    hide Step, Inv, Mints, StopEvidence, PositionsStale;
    RunKeeps(states, events, i);
    EvidenceShuts(states[i], events[i]);
    var j := i + 1;
    forall c | c in states[j].journal.probes ensures IssuedSince(states, events, i, j, c) {
      assert IssuedAt(states, events, i, c);
    }
  }

  lemma {:induction false} Watched(states: seq<State>, events: seq<Event>, i: nat, j: nat) returns (w: Watch)
    requires ValidRun(states, events) && i < j < |states| && StopEvidence(states[i], events[i])
    ensures Watching(states, events, i, j, w)
    decreases j
  {
    hide Step, Watching, StopEvidence, ValidRun;
    RunShape(states, events);
    if j == i + 1 {
      WatchStarts(states, events, i);
      w := Barred;
    } else {
      var before := Watched(states, events, i, j - 1);
      if before.Barred? {
        w := BarredStep(states, events, i, j - 1);
      } else {
        w := ReopenedStep(states, events, i, j - 1, before);
      }
    }
  }

  lemma RunShape(states: seq<State>, events: seq<Event>)
    requires ValidRun(states, events)
    ensures |states| == |events| + 1
  {
  }

  /** The MQTT worker hands position p to the broker at step j. */
  predicate PublishesPosition(states: seq<State>, events: seq<Event>, j: nat, p: Publication) {
    && j < |events| < |states| && events[j].EMqttSend? && p.content.PositionFix?
    && Published(states[j], events[j].now) == Some(p)
  }

  lemma PublishingNeedsGrant(s: State, now: Nanos, p: Publication)
    requires Published(s, now) == Some(p) && p.content.PositionFix?
    ensures s.authority.grant.Some? && HasTaken(s) && s.egress.inHand == Some(p)
    ensures p.content.generation == s.source.generation
  {
  }

  /**
   * The main safety property: once evidence of a stop arrives at step i, a position published at a later step j was
   * queued after a grant accepted (step g) after the journal was re-read as idle and unblocked (step k) in answer to
   * a probe issued no earlier than the evidence (step m).
   */
  lemma NoPositionWithoutFreshConsent(states: seq<State>, events: seq<Event>, i: nat, j: nat, p: Publication)
    returns (m: nat, k: nat, g: nat)
    requires ValidRun(states, events) && i < j
    requires PublishesPosition(states, events, j, p) && StopEvidence(states[i], events[i])
    ensures i <= m < k < g < j
    ensures ReopenedAt(states, events, m, k) && GrantedAt(states, events, g)
    ensures p.order > states[g + 1].egress.order
  {
    hide Step, StopEvidence, Authorized;
    var w := Watched(states, events, i, j);
    PublishingNeedsGrant(states[j], events[j].now, p);
    assert w.Regranted?;
    m, k, g := w.probed, w.answered, w.granted;
  }
}
