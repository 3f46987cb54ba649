/**
 * The adapter object: fields updated in place by one method per locked handler.  Every method is proved to take
 * View() to what the state machine's function for that handler says, so the results about runs apply to it.
 * Each handler also says what it leaves behind by the predicates of the effect modules, which do not use the machine.
 * Choices the source leaves to map iteration order are ghost out-parameters.
 */
module RideGroupAdapter {
  import opened Wrappers
  import opened RideGroupTypes
  import opened RideGroupMachine
  import opened RideGroupEffects
  import opened RideGroupJournalEffects
  import opened RideGroupAuthorityEffects
  import opened RideGroupLinkEffects
  import opened RideGroupEgressEffects

  class Adapter {
    var link: Link
    var journal: Journal
    var authority: Authority
    var source: Source
    var peers: Peers
    var egress: Egress
    var outbox: Outbox

    function View(): State
      reads this
    {
      State(link, journal, authority, source, peers, egress, outbox)
    }

    constructor ()
      ensures View() == INITIAL
    {
      link := INITIAL.link;
      journal := INITIAL.journal;
      authority := INITIAL.authority;
      source := INITIAL.source;
      peers := INITIAL.peers;
      egress := INITIAL.egress;
      outbox := INITIAL.outbox;
    }

    // ---- Egress ----

    method QueuePublication(content: Content, expiresAt: Nanos)
      modifies this
      ensures View() == Queue(old(View()), content, expiresAt)
      ensures egress.order == old(egress).order + 1 && egress.inHand == old(egress).inHand
      ensures egress.pending == old(egress).pending[
                KindOf(content) := Publication(link.client, link.nonce, egress.order, expiresAt, content)]
    {
      egress := egress.(order := egress.order + 1);
      var publication := Publication(link.client, link.nonce, egress.order, expiresAt, content);
      egress := egress.(pending := egress.pending[KindOf(content) := publication]);
    }

    method DropPending(kinds: set<Kind>)
      modifies this
      ensures View() == Drop(old(View()), kinds)
    {
      egress := egress.(pending := egress.pending - kinds);
    }

    method QueueRedisPublication(message: RedisMessage, maxAge: Nanos, now: Nanos)
      modifies this
      ensures View() == QueueRedis(old(View()), message, maxAge, now)
      ensures |outbox.queue| > 0 && outbox.queue[|outbox.queue| - 1].message == message
      ensures old(|outbox.queue|) < REDIS_QUEUE_SIZE ==> outbox.queue[..|outbox.queue| - 1] == old(outbox).queue
      ensures old(|outbox.queue|) >= REDIS_QUEUE_SIZE ==> outbox.queue[..|outbox.queue| - 1] == old(outbox).queue[1..]
    {
      var entry := RedisPublication(message, None, now);
      if maxAge > 0 {
        entry := entry.(expiresAt := Some(now + maxAge));
      }
      if |outbox.queue| >= REDIS_QUEUE_SIZE {
        outbox := outbox.(queue := outbox.queue[1..]);
      }
      outbox := outbox.(queue := outbox.queue + [entry]);
    }

    method SayHello(challenge: Option<Uuid>, now: Nanos)
      modifies this
      ensures View() == PublishHello(old(View()), challenge, now)
      ensures HelloEffect(old(View()), View(), challenge, now)
    {
      HelloDoes(View(), challenge, now);
      if link.client.None? || !link.up || link.nonce.None? || challenge.None? {
        return;
      }
      QueuePublication(HelloNotice(challenge.value), now + ATTEMPT_LIFETIME);
      link := link.(lastHelloAt := Some(now));
    }

    method AnnounceActivity(activity: Activity, now: Nanos)
      modifies this
      ensures View() == PublishActivity(old(View()), activity, now)
      ensures ActivityEffect(old(View()), View(), activity, now)
    {
      GreetingsDo(View(), None, activity, now);
      if link.client.None? || !link.up || link.nonce.None? {
        return;
      }
      QueuePublication(ActivityNotice(activity), now + 5 * SECOND);
    }

    // ---- Clearing ----

    method InvalidatePositionPublications()
      modifies this
      ensures View() == InvalidatePositions(old(View()))
    {
      source := source.(generation := source.generation + 1);
      DropPending({PositionKind});
    }

    method DropGrant()
      modifies this
      ensures View() == ClearGrant(old(View())) && journal == old(journal)
    {
      source := source.(generation := source.generation + 1);
      DropPending({PositionKind});
      DropPending({SourceKind});
      authority := authority.(grant := None);
      authority := authority.(grantActive := false, grantAt := None, grantTtl := 0);
      source := source.(lastPositionAt := None);
    }

    method InvalidateLocalAttempts()
      modifies this
      ensures View() == ForgetAttempts(old(View()))
    {
      journal := journal.(probes := map[]);
      journal := journal.(attempts := map[]);
      journal := journal.(used := map[]);
      journal := journal.(query := None);
    }

    method InhibitJournal()
      modifies this
      ensures View() == Inhibit(old(View())) && journal.used == map[]
      ensures !journal.ready && journal.stopBlocked && journal.epoch > old(journal).epoch
      ensures journal.permit.None? && journal.query.None? && journal.probes == map[] && journal.attempts == map[]
      ensures authority.grant.None? && authority.activity.None? && authority.challenges == map[]
      ensures PositionKind !in egress.pending && source.generation > old(source).generation
      ensures Shut(old(View()), View())
    {
      hide Shut;
      InhibitDoes(View());
      journal := journal.(ready := false, stopBlocked := true);
      authority := authority.(activity := None, activityAt := None, challenges := map[]);
      journal := journal.(permit := None, query := None);
      InvalidateLocalAttempts();
      journal := journal.(epoch := journal.epoch + 1);
      DropGrant();
    }

    method Reset(client: Option<nat>, nonce: Option<Uuid>)
      modifies this
      ensures View() == ResetConnection(old(View()), client, nonce)
      ensures authority.grant.None? && authority.activity.None? && authority.last.None? && authority.cleared.None?
      ensures !journal.ready && journal.stop.None? && journal.epoch > old(journal).epoch
      ensures link.client == client && link.nonce == nonce && PositionKind !in egress.pending
      ensures Restarted(old(View()), View(), client, nonce)
    {
      hide Restarted;
      RestartDoes(View(), client, nonce);
      link := link.(client := client, up := client.Some?, nonce := nonce, lastHelloAt := None);
      authority := authority.(activityAt := None, challenges := map[]);
      InvalidateLocalAttempts();
      journal := journal.(permit := None, ready := false, epoch := journal.epoch + 1);
      authority := authority.(activity := None, grant := None, cleared := None, last := None);
      journal := journal.(stop := None, stopBlocked := false, query := None);
      InvalidatePositionPublications();
      DropGrant();
    }

    method CloseOnFailure()
      modifies this
      ensures View() == FailClosed(old(View()))
      ensures !journal.settingsReady && !journal.ready && journal.stop.None? && journal.epoch > old(journal).epoch
      ensures authority.grant.None? && authority.activity.None? && PositionKind !in egress.pending
    {
      journal := journal.(settingsReady := false);
      authority := authority.(activity := None, activityAt := None, challenges := map[]);
      InvalidateLocalAttempts();
      journal := journal.(permit := None, ready := false, stopBlocked := true, stop := None,
                         epoch := journal.epoch + 1);
      InvalidatePositionPublications();
      DropGrant();
    }

    // ---- Journal probes ----

    /** Deletes every probe that is expired or belongs to another connection or epoch. */
    method PurgeProbes(now: Nanos)
      modifies this
      ensures View() == old(View()).(journal := old(journal).(probes := LiveProbes(old(View()), now)))
    {
      var kept := CurrentProbes(journal.probes, link.nonce, journal.epoch, now);
      assert kept == LiveProbes(View(), now);
      journal := journal.(probes := kept);
    }

    static method CurrentProbes(probes: map<Uuid, Probe>, nonce: Option<Uuid>, epoch: nat, now: Nanos)
      returns (kept: map<Uuid, Probe>)
      ensures kept == map c | c in probes && now <= probes[c].deadline && Some(probes[c].connection) == nonce
                                && probes[c].epoch == epoch :: probes[c]
    {
      kept := probes;
      var todo := probes.Keys;
      while todo != {}
        invariant todo <= kept.Keys <= probes.Keys
        invariant forall c | c in kept :: kept[c] == probes[c]
        invariant forall c | c in probes && c !in todo ::
                    c in kept <==>
                      now <= probes[c].deadline && Some(probes[c].connection) == nonce && probes[c].epoch == epoch
        decreases todo
      {
        var c :| c in todo;
        todo := todo - {c};
        if now > kept[c].deadline || Some(kept[c].connection) != nonce || kept[c].epoch != epoch {
          kept := kept - {c};
        }
      }
    }

    method IssueLocalProbe(purpose: Purpose, query: Option<Query>, mint: Option<Uuid>, now: Nanos)
      returns (issued: bool)
      modifies this
      ensures (View(), issued) == IssueProbe(old(View()), purpose, query, mint, now)
      ensures journal.used == old(journal).used
      ensures ProbeEffect(old(View()), View(), purpose, query, mint, now, issued)
    {
      hide AdmitProbe, RecordProbe, NewProbe, ProbeEffect;
      ProbeDoes(View(), purpose, query, mint, now);
      if !journal.settingsReady || link.client.None? || !link.up || link.nonce.None? {
        return false;
      }
      var admitted := Admit(now);
      if !admitted || mint.None? {
        return false;
      }
      Record(mint.value, NewProbe(View(), purpose, query, mint.value, now), now);
      return true;
    }

    method Admit(now: Nanos) returns (admitted: bool)
      modifies this
      ensures (View(), admitted) == AdmitProbe(old(View()), now)
      ensures link == old(link) && journal.used == old(journal).used
    {
      PurgeProbes(now);
      if |journal.probes| >= 1 {
        return false;
      }
      var recent := RecentTimes(journal.probeTimes, now - ATTEMPT_LIFETIME);
      journal := journal.(probeTimes := recent);
      return |journal.probeTimes| < 10;
    }

    method Record(challenge: Uuid, probe: Probe, now: Nanos)
      modifies this
      ensures View() == RecordProbe(old(View()), challenge, probe, now) && journal.used == old(journal).used
    {
      journal := journal.(probes := journal.probes[challenge := probe]);
      journal := journal.(probeTimes := journal.probeTimes + [now]);
      QueueRedisPublication(ProbeMessage(challenge), ATTEMPT_LIFETIME, now);
    }

    /** Keeps the issue times that are not before the cutoff, in order. */
    static method RecentTimes(times: seq<Nanos>, cutoff: Nanos) returns (kept: seq<Nanos>)
      ensures kept == Recent(times, cutoff)
    {
      kept := [];
      var i := 0;
      while i < |times|
        invariant 0 <= i <= |times|
        invariant kept + Recent(times[i..], cutoff) == Recent(times, cutoff)
      {
        assert times[i..][1..] == times[i + 1..];
        if times[i] >= cutoff {
          kept := kept + [times[i]];
        }
        i := i + 1;
      }
    }

    method MaybeReconcile(mint: Option<Uuid>, now: Nanos)
      modifies this
      ensures View() == Reprobe(old(View()), mint, now) && journal.used == old(journal).used
    {
      if journal.settingsReady && link.client.Some? && link.up {
        var _ := IssueLocalProbe(Reconcile, None, mint, now);
      }
    }

    // ---- Local-stop snapshots ----

    method ConsumeProbe(v: LocalStop) returns (ghost victim: Uuid)
      requires |journal.used| <= 10
      modifies this
      ensures View() == Consume(old(View()), v, victim) && |journal.used| <= 10
    {
      journal := journal.(probes := journal.probes - {v.challenge});
      assert |journal.used[v.challenge := v]| <= 11 by {
        assert journal.used[v.challenge := v].Keys == journal.used.Keys + {v.challenge};
      }
      var kept;
      kept, victim := CapUsed(journal.used[v.challenge := v]);
      journal := journal.(used := kept);
    }

    /** Drops arbitrary entries while more than ten remain. */
    static method CapUsed(used: map<Uuid, LocalStop>) returns (kept: map<Uuid, LocalStop>, ghost victim: Uuid)
      requires |used| <= 11
      ensures kept == Capped(used, victim) && |kept| <= 10
    {
      kept := used;
      victim := 0;
      while |kept| > 10
        invariant kept == used || (|used| > 10 && kept == used - {victim})
        invariant |kept| <= |used| && (kept != used ==> |kept| <= 10)
        decreases |kept|
      {
        assert kept.Keys != {};
        var c :| c in kept;
        victim := c;
        assert (kept - {c}).Keys == kept.Keys - {c};
        kept := kept - {c};
      }
    }

    method TakeSnapshot(v: LocalStop, mint: Option<Uuid>, now: Nanos) returns (ghost victim: Uuid)
      requires |journal.used| <= 10
      modifies this
      ensures View() == HandleSnapshot(old(View()), v, mint, victim, now)
      ensures |journal.used| <= 10
    {
      hide ValidLocalStop, RevisionAccepted, Inhibit, IssueProbe, Reprobe, Consume, FollowUp, ClearGrant, FollowEffect,
           Shut;
      victim := v.challenge;
      if !ValidLocalStop(v) {
        return;
      }
      if v.challenge in journal.used {
        if journal.used[v.challenge] != v {
          InhibitJournal();
          MaybeReconcile(mint, now);
        }
        return;
      }
      if !ProbeAnswered(View(), v, now) {
        if v.blocked || !v.phase.Idle? {
          InhibitJournal();
        }
        MaybeReconcile(mint, now);
        return;
      }
      var probe := journal.probes[v.challenge];
      if !RevisionAccepted(View(), v) {
        InhibitJournal();
        victim := ConsumeProbe(v);
        MaybeReconcile(mint, now);
        return;
      }
      victim := ConsumeProbe(v);
      journal := journal.(stop := Some(v));
      journal := journal.(stopBlocked := v.blocked);
      journal := journal.(ready := v.phase.Idle? && !v.blocked);
      if v.blocked || !v.phase.Idle? {
        DropGrant();
      }
      assert View() == Adopt(old(View()), v, victim);
      FollowSnapshot(v, probe, now);
    }

    method HandleLocalStopSnapshot(v: LocalStop, mint: Option<Uuid>, now: Nanos) returns (ghost victim: Uuid)
      requires |journal.used| <= 10
      modifies this
      ensures View() == HandleSnapshot(old(View()), v, mint, victim, now) && |journal.used| <= 10
      ensures SnapshotEffect(old(View()), View(), v, mint, victim, now)
    {
      hide HandleSnapshot, SnapshotEffect;
      victim := TakeSnapshot(v, mint, now);
      SnapshotDoes(old(View()), v, mint, victim, now);
    }

    method FollowSnapshot(v: LocalStop, probe: Probe, now: Nanos)
      modifies this
      ensures View() == FollowUp(old(View()), v, probe, now) && journal.used == old(journal).used
      ensures FollowEffect(old(View()), View(), v, probe, now)
    {
      hide FollowEffect;
      FollowDoes(View(), v, probe, now);
      if probe.purpose.ApplyConfirmation? {
        FinalizeApplyConfirmation(v, probe, now);
        return;
      }
      match v.phase {
        case Idle =>
          if !v.blocked {
            PublishQueuedActivity(now);
          }
        case Preparing =>
          if v.operation.Some? && v.expected.None? && v.committed.None? {
            var permit := Probe(v.challenge, probe.connection, probe.issuedAt, probe.deadline, OfferPermit,
                                v.operation, v.revision, None, probe.epoch);
            journal := journal.(permit := Some(permit));
            SayHello(Some(v.challenge), now);
          }
        case Prepared =>
          if v.operation.Some? && v.expected.Some? && v.committed.None? {
            var query := Query(v.operation.value, v.revision, v.expected.value, probe.connection, journal.epoch,
                               probe.deadline, v.challenge);
            journal := journal.(query := Some(query));
            var _ := SendStopRequest(v.operation.value, v.revision, v.expected, v.challenge,
                                                 QueryMode, query.deadline, now);
          }
        case Confirmed =>
        case Uncertain =>
          if v.operation.Some? {
            var _ := SendStopRequest(v.operation.value, v.revision, v.expected, v.challenge,
                                                 QueryMode, probe.deadline, now);
          }
      }
    }

    method PublishQueuedActivity(now: Nanos)
      modifies this
      ensures View() == RepublishActivity(old(View()), now)
    {
      if authority.activity.Some? && journal.ready && !journal.blocked && !journal.stopBlocked {
        AnnounceActivity(authority.activity.value, now);
      }
    }

    method SendStopRequest(operation: Uuid, revision: int, expected: Option<int>, challenge: Uuid, mode: StopMode,
                           deadline: Nanos, now: Nanos) returns (sent: bool)
      modifies this
      ensures (View(), sent) == SendStop(old(View()), operation, revision, expected, challenge, mode, deadline, now)
      ensures sent ==>
                && JournalNames(old(View()), operation, revision) && !StopInFlight(old(View()), now)
                && (mode.ApplyMode? ==>
                      && journal.stop.value.phase.Prepared? && expected.Some?
                      && journal.stop.value.expected == expected)
                && challenge in journal.attempts && journal.attempts[challenge].deadline <= deadline
      ensures !sent ==> View() == old(View())
      ensures AskEffect(old(View()), View(), operation, revision, expected, challenge, mode, deadline, now, sent)
    {
      hide AskEffect, MayAsk;
      AskDoes(View(), operation, revision, expected, challenge, mode, deadline, now);
      if link.client.None? || !link.up || link.nonce.None?
         || !JournalNames(View(), operation, revision) || journal.epoch == 0
      {
        return false;
      }
      if mode.ApplyMode? {
        if !journal.stop.value.phase.Prepared? || journal.stop.value.expected != expected
           || journal.stop.value.committed.Some?
        {
          return false;
        }
        if expected.None? {
          return false;
        }
      }
      var capped := deadline;
      if deadline > now + ATTEMPT_LIFETIME {
        capped := now + ATTEMPT_LIFETIME;
      }
      var attempt := Attempt(operation, revision, challenge, link.nonce.value, now, mode, expected, capped,
                             journal.epoch, false);
      var busy := HasLiveAttempt(now);
      if busy || |journal.attempts| >= 10 {
        return false;
      }
      journal := journal.(attempts := journal.attempts[challenge := attempt]);
      QueuePublication(StopRequest(challenge, operation, expected, mode), capped);
      return true;
    }

    method HasLiveAttempt(now: Nanos) returns (busy: bool)
      ensures busy <==> StopInFlight(View(), now)
    {
      var todo := journal.attempts.Keys;
      while todo != {}
        invariant todo <= journal.attempts.Keys
        invariant forall c | c in journal.attempts && c !in todo ::
                    journal.attempts[c].consumed || now >= journal.attempts[c].deadline
        decreases todo
      {
        var c :| c in todo;
        if !journal.attempts[c].consumed && now < journal.attempts[c].deadline {
          return true;
        }
        todo := todo - {c};
      }
      return false;
    }

    method FinalizeApplyConfirmation(v: LocalStop, probe: Probe, now: Nanos)
      modifies this
      ensures View() == FinalizeApply(old(View()), v, probe, now) && journal.used == old(journal).used
      ensures !Confirms(old(View()), v, probe, now) ==> egress == old(egress) && journal.query.None?
      ensures Confirms(old(View()), v, probe, now) ==>
                || (egress == old(egress) && journal.query == old(journal).query)
                || (journal.query.None? && StopKind in egress.pending
                    && egress.pending[StopKind].content
                       == StopRequest(probe.challenge, v.operation.value, v.expected, ApplyMode))
      ensures ApplyEffect(old(View()), View(), v, probe, now)
    {
      hide ApplyEffect;
      ApplyDoes(View(), v, probe, now);
      if !Confirms(View(), v, probe, now) {
        journal := journal.(query := None);
        return;
      }
      var query := journal.query.value;
      var sent := SendStopRequest(query.operation, query.revision, Some(query.fence), probe.challenge, ApplyMode,
                                  query.deadline, now);
      if sent {
        journal := journal.(query := None);
      }
    }

    // ---- Rider activity ----

    method AcceptActivity(a: Activity, now: Nanos) returns (ghost dropped: set<Uuid>)
      modifies this
      ensures View() == HandleActivity(old(View()), a, dropped, now)
      ensures AcceptsActivity(old(View()), a, now) ==>
                && authority.activity == Some(a) && authority.activityAt == Some(now)
                && (!a.active ==> authority.grant.None?)
                && authority.challenges == old(authority).challenges[a.challenge := now] - dropped
      ensures !AcceptsActivity(old(View()), a, now) ==> View() == old(View())
      ensures AcceptsActivity(old(View()), a, now) ==>
                LegalPrune(old(authority).challenges[a.challenge := now], dropped, now)
      ensures RiderEffect(old(View()), View(), a, dropped, now)
    {
      hide LegalPrune, RiderEffect;
      ghost var before := View();
      forall d: set<Uuid> ensures RiderEffect(before, HandleActivity(before, a, d, now), a, d, now) {
        RiderDoes(before, a, d, now);
      }
      dropped := {};
      if !AcceptsActivity(View(), a, now) {
        return;
      }
      authority := authority.(activity := Some(a), boot := Some(a.boot), activitySequence := a.sequence,
                              activityAt := Some(now));
      if !a.active {
        DropGrant();
      }
      if authority.grant.Some? && a.session.Some? && authority.grant.value.session == a.session
         && authority.grant.value.member == a.member
      {
        authority := authority.(grantActive := true);
      }
      var kept;
      kept, dropped := PruneChallenges(authority.challenges[a.challenge := now], now);
      authority := authority.(challenges := kept);
      assert View() == RecordActivity(old(View()), a, dropped, now);
      SayHello(Some(a.challenge), now);
      AnnounceActivity(a, now);
    }

    /** Drops expired challenges, then the oldest ones until fewer than ten remain. */
    static method PruneChallenges(challenges: map<Uuid, Nanos>, now: Nanos)
      returns (kept: map<Uuid, Nanos>, ghost dropped: set<Uuid>)
      ensures kept == challenges - dropped && LegalPrune(challenges, dropped, now)
    {
      var recent := DropExpired(challenges, now);
      kept := DropOldest(recent);
      hide LegalPrune;
      dropped := challenges.Keys - kept.Keys;
      assert kept == challenges - dropped;
      PrunedLegally(challenges, recent, kept, now);
    }

    static lemma PrunedLegally(challenges: map<Uuid, Nanos>, recent: map<Uuid, Nanos>,
                                   kept: map<Uuid, Nanos>, now: Nanos)
      requires recent == map c | c in challenges && now - challenges[c] < LEASE_DURATION :: challenges[c]
      requires kept.Keys <= recent.Keys && forall c | c in kept :: kept[c] == recent[c]
      requires forall c, d | c in kept && d in recent && d !in kept :: recent[d] <= kept[c]
      requires |kept| < 10 && (kept == recent || |kept| == 9)
      requires kept == challenges - (challenges.Keys - kept.Keys)
      ensures LegalPrune(challenges, challenges.Keys - kept.Keys, now)
    {
      var dropped := challenges.Keys - kept.Keys;
      assert forall c | c in challenges :: c in dropped <==> c !in kept;
      assert forall d | d in dropped && now - challenges[d] < LEASE_DURATION :: d in recent && d !in kept;
      if d :| d in dropped && now - challenges[d] < LEASE_DURATION {
        assert kept != recent;
      }
    }

    static method DropOldest(recent: map<Uuid, Nanos>) returns (kept: map<Uuid, Nanos>)
      ensures kept.Keys <= recent.Keys && forall c | c in kept :: kept[c] == recent[c]
      ensures forall c, d | c in kept && d in recent && d !in kept :: recent[d] <= kept[c]
      ensures |kept| < 10 && (kept == recent || |kept| == 9)
    {
      kept := recent;
      while |kept| >= 10
        invariant kept.Keys <= recent.Keys && forall c | c in kept :: kept[c] == recent[c]
        invariant forall c, d | c in kept && d in recent && d !in kept :: recent[d] <= kept[c]
        invariant kept == recent || |kept| >= 9
        decreases |kept|
      {
        var oldest := OldestChallenge(kept);
        assert (kept - {oldest}).Keys == kept.Keys - {oldest};
        kept := kept - {oldest};
      }
    }

    static method DropExpired(challenges: map<Uuid, Nanos>, now: Nanos) returns (kept: map<Uuid, Nanos>)
      ensures kept == map c | c in challenges && now - challenges[c] < LEASE_DURATION :: challenges[c]
    {
      kept := challenges;
      var todo := challenges.Keys;
      while todo != {}
        invariant todo <= kept.Keys <= challenges.Keys
        invariant forall c | c in kept :: kept[c] == challenges[c]
        invariant forall c | c in challenges && c !in todo :: c in kept <==> now - challenges[c] < LEASE_DURATION
        decreases todo
      {
        var c :| c in todo;
        todo := todo - {c};
        if now - kept[c] >= LEASE_DURATION {
          kept := kept - {c};
        }
      }
    }

    static method OldestChallenge(challenges: map<Uuid, Nanos>) returns (oldest: Uuid)
      requires |challenges| > 0
      ensures oldest in challenges && forall c | c in challenges :: challenges[oldest] <= challenges[c]
    {
      assert challenges.Keys != {};
      oldest :| oldest in challenges;
      var todo := challenges.Keys - {oldest};
      while todo != {}
        invariant todo <= challenges.Keys && oldest in challenges
        invariant forall c | c in challenges && c !in todo :: challenges[oldest] <= challenges[c]
        decreases todo
      {
        var c :| c in todo;
        todo := todo - {c};
        if challenges[c] < challenges[oldest] {
          oldest := c;
        }
      }
    }

    // ---- Server controls ----

    method HandleControlMessage(c: Control, mint: Option<Uuid>, now: Nanos, later: Nanos)
      modifies this
      ensures View() == HandleControl(old(View()), c, mint, now, later)
      ensures ControlEffect(old(View()), View(), c, mint, now, later)
    {
      hide ControlEffect;
      ControlDoes(View(), c, mint, now, later);
      if !ValidControl(c) {
        return;
      }
      if link.client.None? || !link.up || Some(c.connection) != link.nonce {
        return;
      }
      if c.action.Status? && c.stopResult.Some? {
        HandleStopStatusMessage(c, mint, now);
        return;
      }
      if c.action.Status? {
        MaybeSendOffer(c, now);
        QueueRedisPublication(ControlMessage(c), ATTEMPT_LIFETIME, now);
        return;
      }
      if c.action.Clear? {
        HandleClearMessage(c, now);
        return;
      }
      HandleGrantMessage(c, now, later);
    }

    method HandleClearMessage(c: Control, now: Nanos)
      modifies this
      ensures View() == HandleClear(old(View()), c, now)
      ensures RevokesGrant(old(View()), c) ==>
                authority.grant.None? && authority.cleared == Some(c) && authority.activity.None?
      ensures old(authority).grant.Some? && !RevokesGrant(old(View()), c) ==> View() == old(View())
      ensures ClearEffect(old(View()), View(), c, now)
    {
      hide ClearEffect;
      ClearDoes(View(), c, now);
      if authority.grant.Some? {
        if !Continues(authority.grant.value, c) {
          return;
        }
        authority := authority.(cleared := Some(c));
        DropGrant();
        authority := authority.(activity := None, activityAt := None);
      } else if journal.stopBlocked {
        return;
      }
      authority := authority.(challenges := map[]);
      QueueRedisPublication(ControlMessage(c), 0, now);
    }

    method HandleGrantMessage(c: Control, now: Nanos, later: Nanos)
      modifies this
      ensures View() == HandleGrant(old(View()), c, now, later)
      ensures authority.grant == (if AcceptsGrant(old(View()), c, now) then Some(c) else old(authority).grant)
      ensures GrantEffect(old(View()), View(), c, now, later)
    {
      hide GrantEffect;
      GrantDoes(View(), c, now, later);
      if !AcceptsGrant(View(), c, now) {
        return;
      }
      hide AcceptsGrant, Granted, PublishNoFix, QueueRedis, ValidControl;
      var sentAt := authority.challenges[c.challenge];
      TakeGrant(c, now, later);
      if source.closed {
        PublishNoFixStatus(later);
      }
      authority := authority.(challenges := authority.challenges[c.challenge := sentAt]);
      QueueRedisPublication(ControlMessage(c), LEASE_DURATION - (later - sentAt), later);
    }

    method TakeGrant(c: Control, now: Nanos, later: Nanos)
      requires AcceptsGrant(View(), c, now)
      modifies this
      ensures View() == Granted(old(View()), c, now, later) && authority.challenges == old(authority).challenges
    {
      hide Rescope, OpenStream;
      var sentAt := authority.challenges[c.challenge];
      var remaining := c.leaseTtlMs * MILLISECOND - (now - sentAt);
      var newStream := authority.grant.None? || authority.grant.value.stream != c.stream
                       || authority.grant.value.transportEpoch != c.transportEpoch;
      assert newStream == StartsStream(View(), c);
      if newStream {
        BeginStream();
      }
      authority := authority.(grant := Some(c), last := Some(c), cleared := None);
      authority := authority.(grantAt := Some(later), grantTtl := remaining);
      var rider := authority.activity.value;
      authority := authority.(
        grantActive := rider.session.Some? && rider.session == c.session && rider.member == c.member);
      authority := authority.(cadence := c.cadenceMs.value * MILLISECOND);
      if authority.cadence < SECOND {
        authority := authority.(cadence := SECOND);
      }
      SetPeerReplayScope(c);
    }

    method BeginStream()
      modifies this
      ensures View() == OpenStream(old(View())) && authority == old(authority)
    {
      source := source.(sequence := 0);
      source := source.(generation := source.generation + 1);
      DropPending({PositionKind});
      DropPending({SourceKind});
      if source.fixPending {
        source := source.(closed := false, fixPending := false);
      }
    }

    method SetPeerReplayScope(c: Control)
      modifies this
      ensures View() == Rescope(old(View()), c) && authority == old(authority)
      ensures peers.scope == c.session && peers.streams.Keys <= set p | p in c.peers
      ensures old(peers).scope != c.session ==> peers.streams == map[]
      ensures old(peers).scope == c.session ==>
                forall p | p in c.peers && p in old(peers).streams ::
                  p in peers.streams && peers.streams[p] == old(peers).streams[p]
    {
      if peers.scope != c.session {
        peers := Peers(c.session, map[]);
      }
      var base := peers;
      var todo := peers.streams.Keys;
      while todo != {}
        invariant link == old(link) && journal == old(journal) && authority == old(authority) && source == old(source)
        invariant egress == old(egress) && outbox == old(outbox)
        invariant todo <= base.streams.Keys && peers.scope == base.scope
        invariant peers.streams.Keys <= base.streams.Keys
        invariant forall p | p in peers.streams :: peers.streams[p] == base.streams[p]
        invariant forall p | p in base.streams :: p in peers.streams <==> p in todo || p in c.peers
        decreases todo
      {
        var p :| p in todo;
        todo := todo - {p};
        if p !in c.peers {
          peers := peers.(streams := peers.streams - {p});
        }
      }
      assert peers.streams == map p | p in base.streams && p in c.peers :: base.streams[p];
    }

    method MaybeSendOffer(c: Control, now: Nanos)
      modifies this
      ensures View() == SendOffer(old(View()), c, now)
      ensures MayOffer(old(View()), c, now) ==>
                && journal.permit.None? && outbox.queue != []
                && outbox.queue[|outbox.queue| - 1].message.OutcomeMessage?
                && outbox.queue[|outbox.queue| - 1].message.outcome.challenge == c.challenge
      ensures !MayOffer(old(View()), c, now) ==> View() == old(View())
    {
      if !MayOffer(View(), c, now) {
        return;
      }
      var permit := journal.permit.value;
      var offer := StopOutcome(permit.operation.value, permit.revision, permit.challenge, link.nonce, Offer,
                               Some(c.consent), None);
      journal := journal.(permit := None);
      QueueRedisPublication(OutcomeMessage(offer), permit.deadline - now, now);
    }

    method HandleStopStatusMessage(c: Control, mint: Option<Uuid>, now: Nanos)
      requires c.stopResult.Some?
      modifies this
      ensures View() == HandleStopStatus(old(View()), c, mint, now)
      ensures AnswerEffect(old(View()), View(), c, mint, now)
    {
      hide AnswerEffect;
      AnswerDoes(View(), c, mint, now);
      if !AnswersAttempt(View(), c, now) {
        return;
      }
      var attempt := journal.attempts[c.challenge];
      if Contradicts(View(), c, attempt) {
        InhibitJournal();
        return;
      }
      journal := journal.(attempts := journal.attempts[c.challenge := attempt.(consumed := true)]);
      var result := c.stopResult.value;
      var outcome := StopOutcome(attempt.operation, attempt.revision, attempt.challenge, Some(attempt.connection),
                                 Outcome(result), c.stopExpected, None);
      if result.Committed? || result.Superseded? || result.Unconfirmed? {
        outcome := outcome.(committed := Some(c.consent));
      }
      QueueRedisPublication(OutcomeMessage(outcome), attempt.deadline - now, now);
      assert View() == ReportStop(old(View()), c, attempt, now);
      if attempt.mode.QueryMode? && result.NotFound? && QueryMatches(View(), attempt, now) {
        var issued := IssueLocalProbe(ApplyConfirmation, journal.query, mint, now);
        if issued {
          return;
        }
        journal := journal.(query := None);
      }
      if attempt.mode.ApplyMode? {
        journal := journal.(query := None);
      }
    }

    // ---- Peers ----

    method HandlePeerMessage(p: PeerPosition, now: Nanos)
      modifies this
      ensures View() == HandlePeer(old(View()), p, now)
      ensures AcceptsPeer(old(View()), p, now) ==>
                && outbox.queue != [] && outbox.queue[|outbox.queue| - 1].message == PeerMessage(p)
                && p.peer in peers.streams && !peers.streams[p.peer].closed
                && peers.streams[p.peer].epoch == p.peerEpoch && peers.streams[p.peer].sequence == p.sequence
      ensures !AcceptsPeer(old(View()), p, now) ==> View() == old(View())
      ensures PeerEffect(old(View()), View(), p, now)
    {
      hide PeerEffect;
      PeerDoes(View(), p, now);
      if !ValidPeerPosition(p) || !ReceiverTupleCurrent(View(), p.session, p.revision, p.transportEpoch, p.stream, now)
         || p.peer !in authority.grant.value.peers
      {
        return;
      }
      if p.peer in peers.streams {
        var previous := peers.streams[p.peer];
        if p.peerEpoch < previous.epoch {
          return;
        }
        if p.peerEpoch == previous.epoch
           && (p.peerStream != previous.stream || previous.closed || p.sequence <= previous.sequence
               || p.capturedMs <= previous.captured) {
          return;
        }
      }
      peers := peers.(streams := peers.streams[p.peer := PeerReplay(p.peerStream, p.peerEpoch,
                                                               p.sequence, p.capturedMs, None, false)]);
      QueueRedisPublication(PeerMessage(p), SECOND, now);
    }

    method HandlePeerStatusMessage(p: PeerStatus, now: Nanos)
      modifies this
      ensures View() == HandlePeerStatus(old(View()), p, now)
      ensures AcceptsPeerStatus(old(View()), p, now) ==>
                p.peer in peers.streams && peers.streams[p.peer].closed && peers.streams[p.peer].epoch >= p.peerEpoch
      ensures !AcceptsPeerStatus(old(View()), p, now) ==> View() == old(View())
      ensures PeerStatusEffect(old(View()), View(), p, now)
    {
      hide PeerStatusEffect;
      PeerStatusDoes(View(), p, now);
      if !ValidPeerStatus(p) || !ReceiverTupleCurrent(View(), p.session, p.revision, p.transportEpoch, p.stream, now)
         || p.peer !in authority.grant.value.peers
      {
        return;
      }
      var entry := PeerReplay(p.peerStream, p.peerEpoch, 0, 0, None, false);
      if p.peer in peers.streams {
        var previous := peers.streams[p.peer];
        if p.peerEpoch < previous.epoch || (p.peerEpoch == previous.epoch && p.peerStream != previous.stream) {
          return;
        }
        if p.peerEpoch <= previous.epoch {
          entry := previous;
        }
      }
      entry := entry.(status := Some(p.status));
      entry := entry.(closed := true);
      peers := peers.(streams := peers.streams[p.peer := entry]);
      QueueRedisPublication(PeerStatusMessage(p), SECOND, now);
    }

    // ---- The position source ----

    method PublishSourceStatus(status: SourceStatus, now: Nanos) returns (sent: bool)
      modifies this
      ensures (View(), sent) == PublishSource(old(View()), status, now) && authority == old(authority)
      ensures sent ==> StatusQueued(old(View()), View(), status, now) && OnlySource(old(View()), View())
      ensures !sent ==> View() == old(View())
    {
      if !ValidSourceStatus(status) {
        return false;
      }
      source := source.(lastStatus := Some(status));
      source := source.(statusGeneration := source.statusGeneration + 1);
      source := source.(retryAt := Some(now + SOURCE_RETRY));
      DropPending({SourceKind});
      QueuePublication(SourceNotice(status, source.statusGeneration), now + 5 * SECOND);
      source := source.(sequence := status.sequence);
      return true;
    }

    method PublishNoFixStatus(now: Nanos)
      modifies this
      ensures View() == PublishNoFix(old(View()), now) && authority == old(authority)
    {
      if !source.closed || !GrantComplete(View()) {
        return;
      }
      var _ := PublishSourceStatus(SourceReport(View(), SourceNoFix, None), now);
    }

    method ReportSourceStatus(captured: Option<Nanos>, now: Nanos) returns (sent: bool)
      modifies this
      ensures (View(), sent) == ReportSource(old(View()), captured, now)
      ensures sent ==>
                && GrantCurrent(old(View()), now) && ActivityMatchesGrant(old(View())) && GrantComplete(old(View()))
                && (captured.Some? ==> 0 <= now - captured.value <= MAX_FIX_AGE)
      ensures !sent ==> View() == old(View())
    {
      if !GrantCurrent(View(), now) || !ActivityMatchesGrant(View()) || !GrantComplete(View()) {
        return false;
      }
      if captured.None? {
        sent := PublishSourceStatus(SourceReport(View(), SourceNoFix, None), now);
        return;
      }
      if captured.value > now || now - captured.value > MAX_FIX_AGE {
        return false;
      }
      sent := PublishSourceStatus(SourceReport(View(), SourceFixAvailable, captured), now);
    }

    method RetrySourceStatus(now: Nanos)
      modifies this
      ensures View() == RetrySource(old(View()), now)
      ensures StatusRepeated(old(View()), View(), now) && OnlySource(old(View()), View())
    {
      hide StatusRepeated;
      RetryEffect(View(), now);
      if !MayRetrySource(View(), now) {
        return;
      }
      source := source.(retryAt := Some(now + SOURCE_RETRY));
      QueuePublication(SourceNotice(source.lastStatus.value, source.statusGeneration), now + 5 * SECOND);
    }

    method CloseSourceFix(now: Nanos)
      modifies this
      ensures View() == CloseSource(old(View()), now)
      ensures FixClosed(old(View()), View(), now) && OnlySource(old(View()), View())
    {
      hide FixClosed, StatusRepeated;
      CloseEffect(View(), now);
      if source.closed && !(source.lastStatus.Some? && source.lastStatus.value.state.SourceFixAvailable?) {
        RetrySourceStatus(now);
        return;
      }
      source := source.(closed := true);
      source := source.(fixPending := false, recoveryAfter := None);
      InvalidatePositionPublications();
      var _ := ReportSourceStatus(None, now);
    }

    method HandleGpsMessage(captured: Option<Nanos>, fixOk: bool, sample: Option<Nanos>, now: Nanos)
      modifies this
      ensures View() == HandleGps(old(View()), captured, fixOk, sample, now)
      ensures GpsEffect(old(View()), View(), captured, fixOk, sample, now)
    {
      hide GpsEffect, FixClosed, FixAnnounced, CanPublish;
      GpsDoes(View(), captured, fixOk, sample, now);
      if captured.None? || captured.value > now {
        InvalidatePositionPublications();
        CloseSourceFix(now);
        return;
      }
      if source.observedAt.Some? && captured.value <= source.observedAt.value {
        if !fixOk {
          InvalidatePositionPublications();
          CloseSourceFix(now);
        }
        return;
      }
      source := source.(observedAt := captured);
      if !fixOk || now - captured.value > MAX_FIX_AGE {
        InvalidatePositionPublications();
        CloseSourceFix(now);
        return;
      }
      if source.closed {
        RecoverFix(captured.value, now);
        return;
      }
      if sample.None? {
        InvalidatePositionPublications();
        return;
      }
      PublishFix(sample.value, now);
    }

    method RecoverFix(captured: Nanos, now: Nanos)
      modifies this
      ensures View() == RecoverSource(old(View()), captured, now)
      ensures FixAnnounced(old(View()), View(), captured, now) && OnlySource(old(View()), View())
    {
      hide FixAnnounced, StatusRepeated;
      RecoverEffect(View(), captured, now);
      if source.fixPending && source.lastStatus.Some? && source.lastStatus.value.capturedMs.Some?
         && StatusAge(source.lastStatus.value, now) <= MAX_FIX_AGE
      {
        RetrySourceStatus(now);
        return;
      }
      var sent := ReportSourceStatus(Some(captured), now);
      if sent {
        source := source.(fixPending := true);
        source := source.(recoveryAfter := Some(captured));
      }
    }

    method PublishFix(sample: Nanos, now: Nanos)
      modifies this
      ensures View() == PublishPosition(old(View()), sample, now)
      ensures if CanPublish(old(View()), sample, now) then PositionQueued(old(View()), View(), sample, now)
              else View() == old(View())
    {
      hide CanPublish;
      PublishEffect(View(), View(), sample, now);
      if !MayPublishPosition(View(), sample, now) {
        return;
      }
      var grant := authority.grant.value;
      var sequence := source.sequence + 1;
      QueuePublication(PositionFix(grant.session.value, grant.member.value, grant.stream.value, grant.revision,
                                   grant.transportEpoch, source.generation, sample, sequence), now + 5 * SECOND);
      source := source.(sequence := sequence);
      source := source.(lastPositionAt := Some(now));
    }

    // ---- Connection, settings and timer ----

    method BeginConnect(client: nat)
      modifies this
      ensures View() == ConnectBegin(old(View()), client)
      ensures link.attempt == old(link).attempt
                + if old(link).connecting || (old(link).client == Some(client) && old(link).nonce.Some?) then 0 else 1
    {
      if (link.client == Some(client) && link.nonce.Some?) || link.connecting {
        return;
      }
      link := link.(connecting := true);
      link := link.(attempt := link.attempt + 1);
    }

    method FinishConnect(client: nat, attempt: nat, nonce: Uuid, subscribed: bool, hello: Option<Uuid>,
                         mint: Option<Uuid>, now: Nanos)
      modifies this
      ensures View() == ConnectFinish(old(View()), client, attempt, nonce, subscribed, hello, mint, now)
      ensures ConnectEffect(old(View()), View(), EConnectFinish(client, attempt, nonce, subscribed, hello, mint, now))
    {
      hide ConnectEffect;
      ConnectDoes(View(), EConnectFinish(client, attempt, nonce, subscribed, hello, mint, now));
      if link.attempt != attempt {
        return;
      }
      link := link.(connecting := false);
      if !subscribed {
        return;
      }
      Reset(Some(client), Some(nonce));
      GreetServer(hello, mint, now);
    }

    static lemma NothingToAsk(s: State, mint: Option<Uuid>, now: Nanos)
      requires !s.journal.settingsReady
      ensures Reprobe(s, mint, now) == s
    {
    }

    /** Hello first, then a journal probe when settings are known. */
    method GreetServer(hello: Option<Uuid>, mint: Option<Uuid>, now: Nanos)
      modifies this
      ensures View() == Greet(old(View()), hello, mint, now)
      ensures Greeted(old(View()), View(), hello, mint, now)
    {
      hide PublishHello, IssueProbe, Greeted;
      GreetDoes(View(), hello, mint, now);
      SayHello(hello, now);
      if journal.settingsReady {
        var _ := IssueLocalProbe(Reconcile, None, mint, now);
      } else {
        NothingToAsk(View(), mint, now);
      }
    }

    /** The MQTT client's own connection flag changes. */
    method SetLink(up: bool)
      modifies this`link
      ensures link == old(link).(up := up)
    {
      link := link.(up := up);
    }

    /** The start of completeRedisRecovery. */
    method BeginRecovery()
      modifies this`journal
      ensures journal == old(journal).(settingsReady := false)
    {
      journal := journal.(settingsReady := false);
    }

    method OnDisconnected(client: nat)
      modifies this
      ensures View() == Disconnect(old(View()), client)
      ensures DisconnectEffect(old(View()), View(), client)
    {
      hide DisconnectEffect;
      DisconnectDoes(View(), client);
      if link.client == Some(client) || link.connecting {
        link := link.(attempt := link.attempt + 1);
        link := link.(connecting := false);
        if link.client == Some(client) {
          Reset(None, None);
        }
      }
    }

    method InhibitAgain()
      modifies this
      ensures View() == Reinhibit(old(View()))
    {
      InhibitJournal();
      InvalidateLocalAttempts();
      journal := journal.(epoch := journal.epoch + 1);
    }

    method RefreshSettings(blocked: bool, hello: Option<Uuid>, mint: Option<Uuid>, again: Option<Uuid>, now: Nanos)
      modifies this
      ensures View() == RefreshBlocked(old(View()), blocked, hello, mint, again, now)
      ensures SettingsEffect(old(View()), View(), ERefreshBlocked(blocked, hello, mint, again, now))
    {
      hide Greet, Reinhibit, Reprobe, SettingsEffect;
      SettingsDo(View(), ERefreshBlocked(blocked, hello, mint, again, now));
      var wasBlocked := journal.blocked;
      NoteSettings(blocked, hello, mint, now);
      if blocked || wasBlocked {
        InhibitAgain();
        MaybeReconcile(again, now);
      }
    }

    /** The first settings after a recovery also say hello and ask for the journal. */
    method NoteSettings(blocked: bool, hello: Option<Uuid>, mint: Option<Uuid>, now: Nanos)
      modifies this
      ensures var noted := old(View()).(journal := old(journal).(blocked := blocked, settingsReady := true));
              View() == if !old(journal).settingsReady && Connected(noted) then Greet(noted, hello, mint, now)
                         else noted
    {
      hide Greet;
      var wasReady := journal.settingsReady;
      journal := journal.(blocked := blocked, settingsReady := true);
      if !wasReady && link.client.Some? && link.up {
        GreetServer(hello, mint, now);
      }
    }

    /** Deletes every stop attempt that is expired or belongs to another connection or epoch. */
    method PurgeAttempts(now: Nanos)
      modifies this
      ensures View() == old(View()).(journal := old(journal).(attempts := LiveAttempts(old(View()), now)))
    {
      var kept := CurrentAttempts(journal.attempts, link.nonce, journal.epoch, now);
      assert kept == LiveAttempts(View(), now);
      journal := journal.(attempts := kept);
    }

    static method CurrentAttempts(attempts: map<Uuid, Attempt>, nonce: Option<Uuid>, epoch: nat, now: Nanos)
      returns (kept: map<Uuid, Attempt>)
      ensures kept == map c | c in attempts && now <= attempts[c].deadline && Some(attempts[c].connection) == nonce
                                && attempts[c].epoch == epoch :: attempts[c]
    {
      kept := attempts;
      var todo := attempts.Keys;
      while todo != {}
        invariant todo <= kept.Keys <= attempts.Keys
        invariant forall c | c in kept :: kept[c] == attempts[c]
        invariant forall c | c in attempts && c !in todo ::
                    c in kept <==>
                      now <= attempts[c].deadline && Some(attempts[c].connection) == nonce && attempts[c].epoch == epoch
        decreases todo
      {
        var c :| c in todo;
        todo := todo - {c};
        if now > kept[c].deadline || Some(kept[c].connection) != nonce || kept[c].epoch != epoch {
          kept := kept - {c};
        }
      }
    }

    method ExpireAll(now: Nanos)
      modifies this
      ensures View() == Tick(old(View()), now)
      ensures TickEffect(old(View()), View(), now)
    {
      hide TickEffect, StatusRepeated;
      TickDoes(View(), now);
      if authority.activity.Some? && !Within(now, authority.activityAt, LEASE_DURATION) {
        authority := authority.(activity := None, activityAt := None, challenges := map[]);
        DropGrant();
      }
      if authority.grant.Some? && !Within(now, authority.grantAt, authority.grantTtl) {
        DropGrant();
      }
      ghost var lease := View();
      assert lease == ExpireLease(ExpireActivity(old(View()), now), now);
      PurgeProbes(now);
      PurgeAttempts(now);
      assert View() == Expire(old(View()), now);
      RetrySourceStatus(now);
    }

    // ---- The egress workers ----

    /** Takes the pending publication with the smallest order number. */
    method TakePublication() returns (ghost kind: Kind)
      requires egress.inHand.None?
      modifies this
      ensures View() == MqttTake(old(View()), kind)
      ensures egress.inHand.None? <==> old(egress).pending == map[]
    {
      kind := HelloKind;
      if egress.pending == map[] {
        return;
      }
      assert egress.pending.Keys != {};
      var next :| next in egress.pending;
      var todo := egress.pending.Keys - {next};
      while todo != {}
        invariant todo <= egress.pending.Keys && next in egress.pending
        invariant forall k | k in egress.pending && k !in todo :: egress.pending[next].order <= egress.pending[k].order
        decreases todo
      {
        var k :| k in todo;
        todo := todo - {k};
        if egress.pending[k].order < egress.pending[next].order {
          next := k;
        }
      }
      kind := next;
      var taken := egress.pending[next];
      egress := egress.(pending := egress.pending - {next}, inHand := Some(taken));
    }

    /** Decides on the publication in hand: the authorisation check and the publish are one step. */
    method SendPublication(now: Nanos) returns (sent: Option<Publication>)
      modifies this
      ensures sent == Published(old(View()), now) && View() == MqttSend(old(View()))
      ensures sent == if old(egress).inHand.Some? && GoesToServer(old(View()), old(egress).inHand.value, now)
                      then old(egress).inHand else None
    {
      hide GoesToServer;
      PublishedExactly(View(), now);
      var taken := egress.inHand;
      egress := egress.(inHand := None);
      sent := None;
      if taken.None? {
        return;
      }
      var p := taken.value;
      if p.client.None? || now >= p.expiresAt || p.client != link.client || !link.up {
        return;
      }
      if p.connection == link.nonce && Authorized(View(), p.content, now) {
        sent := Some(p);
      }
    }

    method TakeRedis()
      modifies this
      ensures View() == RedisTake(old(View()))
    {
      if outbox.queue == [] || outbox.inHand.Some? {
        return;
      }
      outbox := Outbox(outbox.queue[1..], Some(outbox.queue[0]));
    }

    /** A queued grant, shortened to what is left of it and of the adapter's own lease. */
    method FinalGrant(c: Control, queuedAt: Nanos, now: Nanos) returns (sent: Option<RedisMessage>)
      ensures sent == ForwardGrant(View(), c, queuedAt, now)
    {
      if !GrantForwardable(View(), c, now) {
        return None;
      }
      var ttl := authority.grantTtl - (now - authority.grantAt.value);
      var queuedTtl := c.leaseTtlMs * MILLISECOND - (now - queuedAt);
      if queuedTtl < ttl {
        ttl := queuedTtl;
      }
      if ttl <= 0 {
        return None;
      }
      var shortened := c.(leaseTtlMs := TruncateToMillis(ttl));
      return if ValidControl(shortened) then Some(ControlMessage(shortened)) else None;
    }

    /** A queued position, if the replay table still names it, with the queueing delay deducted. */
    method FinalPeer(v: PeerPosition, queuedAt: Nanos, now: Nanos) returns (sent: Option<RedisMessage>)
      ensures sent == ForwardPeer(View(), v, queuedAt, now)
    {
      if !ReceiverTupleCurrent(View(), v.session, v.revision, v.transportEpoch, v.stream, now) {
        return None;
      }
      if v.peer !in peers.streams {
        return None;
      }
      var peer := peers.streams[v.peer];
      if peer.closed || peer.epoch != v.peerEpoch || peer.stream != v.peerStream || peer.sequence != v.sequence
         || peer.captured != v.capturedMs
      {
        return None;
      }
      var age := TruncateToMillis(now - queuedAt);
      if age < 0 || v.validForMs - age <= 0 {
        return None;
      }
      return Some(PeerMessage(v.(validForMs := v.validForMs - age)));
    }

    /** finalRedisPayloadV2Locked. */
    method FinalPayload(p: RedisPublication, now: Nanos) returns (sent: Option<RedisMessage>)
      ensures sent == FinalRedis(View(), p, now)
    {
      sent := None;
      if !journal.settingsReady || link.client.None? || !link.up {
        return;
      }
      match p.message {
        case ProbeMessage(challenge) =>
          if challenge in journal.probes {
            var probe := journal.probes[challenge];
            if Some(probe.connection) == link.nonce && probe.epoch == journal.epoch
               && probe.issuedAt <= now < probe.deadline
            {
              sent := Some(p.message);
            }
          }
        case OutcomeMessage(outcome) =>
          if outcome.connection == link.nonce && JournalNames(View(), outcome.operation, outcome.revision) {
            var phase := journal.stop.value.phase;
            if (if outcome.verdict.Offer? then phase.Preparing? else phase.Prepared? || phase.Uncertain?) {
              sent := Some(p.message);
            }
          }
        case ControlMessage(c) =>
          if Some(c.connection) != link.nonce {
            return;
          }
          if c.action.Grant? || c.action.Renew? {
            sent := FinalGrant(c, p.queuedAt, now);
          } else if !(c.action.Clear? && authority.grant.Some?) {
            sent := Some(p.message);
          }
        case PeerMessage(v) => sent := FinalPeer(v, p.queuedAt, now);
        case PeerStatusMessage(v) =>
          if ReceiverTupleCurrent(View(), v.session, v.revision, v.transportEpoch, v.stream, now)
             && v.peer in peers.streams
          {
            var peer := peers.streams[v.peer];
            if peer.closed && peer.epoch == v.peerEpoch && peer.stream == v.peerStream {
              sent := Some(p.message);
            }
          }
      }
    }

    /** Decides on the Redis message in hand; only an entitled one goes out. */
    method SendRedis(now: Nanos) returns (sent: Option<RedisMessage>)
      modifies this
      ensures sent == Forwarded(old(View()), now) && View() == RedisSend(old(View()))
      ensures sent.Some? ==>
                old(outbox).inHand.Some? && Entitled(old(View()), old(outbox).inHand.value, sent.value, now)
      ensures sent.None? && old(outbox).inHand.Some?
              && (old(outbox).inHand.value.expiresAt.Some? ==> now < old(outbox).inHand.value.expiresAt.value) ==>
                forall m :: !Entitled(old(View()), old(outbox).inHand.value, m, now)
    {
      hide FinalRedis, Entitled;
      var taken := outbox.inHand;
      sent := None;
      if taken.Some? && (taken.value.expiresAt.None? || now < taken.value.expiresAt.value) {
        sent := FinalPayload(taken.value, now);
        forall m ensures FinalRedis(View(), taken.value, now) == Some(m) <==> Entitled(View(), taken.value, m, now) {
          FinalExactly(View(), taken.value, m, now);
        }
      }
      outbox := outbox.(inHand := None);
    }
  }
}
