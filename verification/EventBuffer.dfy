/**
 * The event retry buffer: Add and Flush called from any number of goroutines.  Each step is one section under the lock,
 * or one call of the sender between two sections.
 */
module EventBuffer {
  import opened Wrappers

  /** An event is named by its place in the order of insertion. */
  datatype Entry = Entry(id: nat, retries: nat)

  /** Where a flushing goroutine stands: before a batch, within one, or after it and before it looks again. */
  datatype Phase = Starting | Sending(snapshot: seq<Entry>, next: nat, failed: seq<Entry>) | Looking

  /** The last four fields are history: events added, sent and discarded, and the attempts made for each event. */
  datatype State = State(
    events: seq<Entry>, flushing: bool, flushRequested: bool, flushers: map<nat, Phase>,
    added: nat, sent: set<nat>, discarded: set<nat>, attempts: map<nat, nat>)

  const INITIAL: State := State([], false, false, map[], 0, {}, {}, map[])

  // ---- The steps ----

  function Add(s: State): State {
    s.(events := s.events + [Entry(s.added, 0)], added := s.added + 1, attempts := s.attempts[s.added := 0])
  }

  /** Flush takes the lock: it becomes the flusher, or leaves a request and returns. */
  function Enter(s: State, t: nat): State {
    if s.flushing then s.(flushRequested := true)
    else s.(flushing := true, flushRequested := false, flushers := s.flushers[t := Starting])
  }

  /** flushBatch copies the buffer, or returns at once when there is nothing to send. */
  function StartBatch(s: State, t: nat): State {
    s.(flushers := s.flushers[t := if s.events == [] then Looking else Sending(s.events, 0, [])])
  }

  /** One iteration over the copy; `ok` is what the sender returns. */
  function SendNext(s: State, t: nat, maxRetries: nat, ok: bool): State
    requires t in s.flushers && s.flushers[t].Sending? && s.flushers[t].next < |s.flushers[t].snapshot|
  {
    var p := s.flushers[t];
    var e := p.snapshot[p.next];
    var moved := p.(next := p.next + 1);
    if e.retries >= maxRetries then
      s.(flushers := s.flushers[t := moved], discarded := s.discarded + {e.id})
    else
      var tried := s.(attempts := s.attempts[e.id := (if e.id in s.attempts then s.attempts[e.id] else 0) + 1]);
      if ok then tried.(flushers := s.flushers[t := moved], sent := s.sent + {e.id})
      else tried.(flushers := s.flushers[t := moved.(failed := p.failed + [e.(retries := e.retries + 1)])])
  }

  /** What follows the first n events; the source's slice would panic if there were fewer (see CopyStaysInBuffer). */
  function After(events: seq<Entry>, n: nat): seq<Entry> { if n <= |events| then events[n..] else [] }

  /** The end of flushBatch: failed events go back before what was added meanwhile. */
  function FinishBatch(s: State, t: nat): State
    requires t in s.flushers && s.flushers[t].Sending?
  {
    var p := s.flushers[t];
    s.(events := p.failed + After(s.events, |p.snapshot|), flushers := s.flushers[t := Looking])
  }

  /** Flush looks again: another batch if one was requested and there is something to send. */
  function LookAgain(s: State, t: nat): State {
    if !s.flushRequested || s.events == [] then s.(flushing := false, flushers := s.flushers - {t})
    else s.(flushRequested := false, flushers := s.flushers[t := Starting])
  }

  datatype Step = SAdd | SEnter(t: nat) | SStart(t: nat) | SSend(t: nat, ok: bool) | SFinish(t: nat) | SLook(t: nat)

  /** The goroutine named by the step is at the point where the step happens. */
  predicate Enabled(s: State, step: Step) {
    match step
    case SAdd => true
    case SEnter(t) => t !in s.flushers
    case SStart(t) => t in s.flushers && s.flushers[t].Starting?
    case SSend(t, _) => t in s.flushers && s.flushers[t].Sending? && s.flushers[t].next < |s.flushers[t].snapshot|
    case SFinish(t) => t in s.flushers && s.flushers[t].Sending? && s.flushers[t].next == |s.flushers[t].snapshot|
    case SLook(t) => t in s.flushers && s.flushers[t].Looking?
  }

  function Apply(s: State, step: Step, maxRetries: nat): State
    requires Enabled(s, step)
  {
    match step
    case SAdd => Add(s)
    case SEnter(t) => Enter(s, t)
    case SStart(t) => StartBatch(s, t)
    case SSend(t, ok) => SendNext(s, t, maxRetries, ok)
    case SFinish(t) => FinishBatch(s, t)
    case SLook(t) => LookAgain(s, t)
  }

  // ---- What every step keeps ----

  /** One flusher at a time, and its copy stays a prefix of the buffer. */
  ghost predicate OneFlusher(s: State) {
    && (s.flushing <==> s.flushers != map[])
    && (forall t, u | t in s.flushers && u in s.flushers :: t == u)
    && forall t | t in s.flushers && s.flushers[t].Sending? ::
         s.flushers[t].next <= |s.flushers[t].snapshot| && s.flushers[t].snapshot <= s.events
  }

  /**
   * The events not yet sent or discarded, seen from the flusher t: its failures, the rest of its copy, what came
   * since.
   */
  function PendingOf(s: State, t: nat): seq<Entry>
    requires t in s.flushers && (s.flushers[t].Sending? ==> s.flushers[t].next <= |s.events|)
  {
    if s.flushers[t].Sending? then s.flushers[t].failed + s.events[s.flushers[t].next..] else s.events
  }

  /** The events not yet sent or discarded. */
  ghost function Pending(s: State): seq<Entry>
    requires OneFlusher(s)
  {
    if s.flushers == map[] then s.events
    else
      var t :| t in s.flushers;
      PendingOf(s, t)
  }

  ghost predicate Has(pending: seq<Entry>, id: nat) { exists k :: 0 <= k < |pending| && pending[k].id == id }

  ghost predicate Ordered(pending: seq<Entry>) {
    forall i, j | 0 <= i < j < |pending| :: pending[i].id < pending[j].id
  }

  /** An entry counts its own attempts, and nothing is tried more often than allowed. */
  ghost predicate Counted(pending: seq<Entry>, s: State, maxRetries: nat) {
    && (forall k | 0 <= k < |pending| ::
          pending[k].id in s.attempts && s.attempts[pending[k].id] == pending[k].retries)
    && (forall id | id in s.attempts :: id < s.added && s.attempts[id] <= maxRetries)
    && (forall id | id in s.discarded :: id in s.attempts && s.attempts[id] == maxRetries)
  }

  /** Every added event is exactly one of pending, sent or discarded. */
  ghost predicate Accounted(pending: seq<Entry>, s: State) {
    && (forall id: nat | id < s.added ::
          && (Has(pending, id) ==> id !in s.sent && id !in s.discarded)
          && (id in s.sent ==> id !in s.discarded)
          && (Has(pending, id) || id in s.sent || id in s.discarded))
    && (forall id: nat | Has(pending, id) || id in s.sent || id in s.discarded :: id < s.added)
  }

  /** The accounts of the buffer, with pending events in insertion order. */
  ghost predicate Ledger(pending: seq<Entry>, s: State, maxRetries: nat) {
    Ordered(pending) && Counted(pending, s, maxRetries) && Accounted(pending, s)
  }

  ghost predicate Inv(s: State, maxRetries: nat) { OneFlusher(s) && Ledger(Pending(s), s, maxRetries) }

  lemma PendingIs(s: State, t: nat)
    requires OneFlusher(s) && t in s.flushers
    ensures Pending(s) == PendingOf(s, t)
  {
  }

  lemma LedgerAdds(pending: seq<Entry>, s: State, maxRetries: nat)
    requires Ledger(pending, s, maxRetries)
    ensures Ledger(pending + [Entry(s.added, 0)], Add(s), maxRetries)
  {
    var more := pending + [Entry(s.added, 0)];
    forall id: nat ensures Has(more, id) <==> Has(pending, id) || id == s.added {
      if Has(pending, id) {
        var k :| 0 <= k < |pending| && pending[k].id == id;
        assert more[k].id == id;
      }
      assert more[|pending|].id == s.added;
    }
    assert !Has(pending, s.added);
    forall k | 0 <= k < |pending| ensures pending[k].id < s.added {
      assert Has(pending, pending[k].id);
    }
  }

  /** Entry k leaves the pending events for good: discarded when its attempts are used up, sent otherwise. */
  lemma LedgerLeaves(before: seq<Entry>, s: State, k: nat, t: State, maxRetries: nat)
    requires Ledger(before, s, maxRetries) && k < |before| && t.added == s.added
    requires var e := before[k];
      if e.retries >= maxRetries
      then t.sent == s.sent && t.discarded == s.discarded + {e.id} && t.attempts == s.attempts
      else t.sent == s.sent + {e.id} && t.discarded == s.discarded && t.attempts == s.attempts[e.id := e.retries + 1]
    ensures Ledger(before[..k] + before[k + 1..], t, maxRetries)
  {
    hide Accounted;
    var after := before[..k] + before[k + 1..];
    assert forall i | 0 <= i < |after| :: after[i] == before[if i < k then i else i + 1];
    assert forall i | 0 <= i < |after| :: after[i].id != before[k].id;
    AttemptsKnown(before, s, k, t);
    AccountedLeaves(before, s, k, t);
  }

  lemma AttemptsKnown(before: seq<Entry>, s: State, k: nat, t: State)
    requires Accounted(before, s) && k < |before| && t.added == s.added
    ensures before[k].id < s.added && before[k].id !in s.sent && before[k].id !in s.discarded
  {
    assert Has(before, before[k].id);
  }

  lemma AccountedLeaves(before: seq<Entry>, s: State, k: nat, t: State)
    requires Ordered(before) && Accounted(before, s) && k < |before| && t.added == s.added
    requires (t.sent == s.sent && t.discarded == s.discarded + {before[k].id})
             || (t.sent == s.sent + {before[k].id} && t.discarded == s.discarded)
    ensures Accounted(before[..k] + before[k + 1..], t)
  {
    hide Has;
    assert Has(before, before[k].id) by { AttemptsKnown(before, s, k, t); HasAt(before, k); }
    var after := before[..k] + before[k + 1..];
    forall id: nat ensures Has(after, id) <==> Has(before, id) && id != before[k].id {
      HasWithout(before, k, id);
    }
    assert before[k].id < s.added;
  }

  lemma HasAt(pending: seq<Entry>, k: nat)
    requires k < |pending|
    ensures Has(pending, pending[k].id)
  {
  }

  lemma HasWithout(before: seq<Entry>, k: nat, id: nat)
    requires k < |before| && Ordered(before)
    ensures Has(before[..k] + before[k + 1..], id) <==> Has(before, id) && id != before[k].id
  {
    var after := before[..k] + before[k + 1..];
    if Has(before, id) && id != before[k].id {
      var i :| 0 <= i < |before| && before[i].id == id;
      assert after[if i > k then i - 1 else i].id == id;
    }
    if Has(after, id) {
      var i :| 0 <= i < |after| && after[i].id == id;
      assert before[if i >= k then i + 1 else i].id == id;
    }
  }

  /** Entry k stays pending with one more attempt. */
  lemma LedgerRetries(before: seq<Entry>, s: State, k: nat, t: State, maxRetries: nat)
    requires Ledger(before, s, maxRetries) && k < |before| && before[k].retries < maxRetries
    requires t.added == s.added && t.sent == s.sent && t.discarded == s.discarded
    requires t.attempts == s.attempts[before[k].id := before[k].retries + 1]
    ensures Ledger(before[k := before[k].(retries := before[k].retries + 1)], t, maxRetries)
  {
    var after := before[k := before[k].(retries := before[k].retries + 1)];
    assert forall i | 0 <= i < |after| :: after[i].id == before[i].id;
    forall id: nat ensures Has(after, id) <==> Has(before, id) {
    }
    HasAt(before, k);
  }

  /** The ledger reads only the accounts. */
  lemma LedgerSame(pending: seq<Entry>, s: State, t: State, maxRetries: nat)
    requires Ledger(pending, s, maxRetries)
    requires t.added == s.added && t.sent == s.sent && t.discarded == s.discarded && t.attempts == s.attempts
    ensures Ledger(pending, t, maxRetries)
  {
  }

  lemma InvInitially(maxRetries: nat)
    ensures Inv(INITIAL, maxRetries)
  {
  }

  lemma Spliced(failed: seq<Entry>, events: seq<Entry>, next: nat, e: Entry)
    requires next < |events|
    ensures var before, k := failed + events[next..], |failed|;
      && before[k] == events[next] && before[..k] + before[k + 1..] == failed + events[next + 1..]
      && before[k := e] == failed + [e] + events[next + 1..]
  {
  }

  /** Sending or discarding takes one entry out of the pending events; a failure changes one in place. */
  lemma SendPending(s: State, t: nat, ok: bool, maxRetries: nat)
    requires Enabled(s, SSend(t, ok)) && s.flushers[t].snapshot <= s.events
    ensures var before, k, next := PendingOf(s, t), |s.flushers[t].failed|, SendNext(s, t, maxRetries, ok);
      && k < |before| && before[k] == s.flushers[t].snapshot[s.flushers[t].next] && t in next.flushers
      && PendingOf(next, t) == if before[k].retries < maxRetries && !ok
                               then before[k := before[k].(retries := before[k].retries + 1)]
                               else before[..k] + before[k + 1..]
  {
    var p := s.flushers[t];
    var e := s.events[p.next];
    assert e == p.snapshot[p.next];
    Spliced(p.failed, s.events, p.next, e.(retries := e.retries + 1));
  }

  lemma SendOneFlusher(s: State, t: nat, ok: bool, maxRetries: nat)
    requires OneFlusher(s) && Enabled(s, SSend(t, ok))
    ensures OneFlusher(SendNext(s, t, maxRetries, ok))
  {
  }

  lemma SendKeeps(s: State, t: nat, ok: bool, maxRetries: nat)
    requires Inv(s, maxRetries) && Enabled(s, SSend(t, ok))
    ensures Inv(SendNext(s, t, maxRetries, ok), maxRetries)
  {
    hide Ledger, OneFlusher, PendingOf;
    var next := SendNext(s, t, maxRetries, ok);
    CopyIsPrefix(s, t);
    SendPending(s, t, ok, maxRetries);
    SendOneFlusher(s, t, ok, maxRetries);
    PendingIs(s, t);
    PendingIs(next, t);
    var before, k := PendingOf(s, t), |s.flushers[t].failed|;
    PendingAccounted(before, s, k, maxRetries);
    if before[k].retries < maxRetries && !ok {
      LedgerRetries(before, s, k, next, maxRetries);
    } else {
      LedgerLeaves(before, s, k, next, maxRetries);
    }
  }

  lemma CopyIsPrefix(s: State, t: nat)
    requires OneFlusher(s) && t in s.flushers && s.flushers[t].Sending?
    ensures s.flushers[t].next <= |s.flushers[t].snapshot| && s.flushers[t].snapshot <= s.events
  {
  }

  lemma PendingAccounted(pending: seq<Entry>, s: State, k: nat, maxRetries: nat)
    requires Ledger(pending, s, maxRetries) && k < |pending|
    ensures pending[k].id in s.attempts && s.attempts[pending[k].id] == pending[k].retries
  {
  }

  lemma StepKeeps(s: State, step: Step, maxRetries: nat)
    requires Inv(s, maxRetries) && Enabled(s, step)
    ensures Inv(Apply(s, step, maxRetries), maxRetries)
  {
    hide Ledger;
    var next := Apply(s, step, maxRetries);
    match step
    case SAdd =>
      AddKeeps(s, maxRetries);
    case SSend(t, ok) => SendKeeps(s, t, ok, maxRetries);
    case SEnter(t) =>
      assert OneFlusher(next);
      if !s.flushing { PendingIs(next, t); }
      LedgerSame(Pending(s), s, next, maxRetries);
      assert Pending(next) == Pending(s) by {
        if u :| u in s.flushers { PendingIs(s, u); PendingIs(next, u); }
      }
    case SStart(t) =>
      PendingIs(s, t);
      PendingIs(next, t);
      assert [] + s.events[0..] == s.events;
      LedgerSame(Pending(s), s, next, maxRetries);
    case SFinish(t) =>
      PendingIs(s, t);
      PendingIs(next, t);
      LedgerSame(Pending(s), s, next, maxRetries);
    case SLook(t) =>
      PendingIs(s, t);
      LedgerSame(Pending(s), s, next, maxRetries);
      LookPending(s, t);
  }

  lemma AddKeeps(s: State, maxRetries: nat)
    requires Inv(s, maxRetries)
    ensures Inv(Add(s), maxRetries)
  {
    hide Ledger;
    LedgerAdds(Pending(s), s, maxRetries);
    assert OneFlusher(Add(s));
    if t :| t in s.flushers {
      PendingIs(s, t);
      PendingIs(Add(s), t);
      assert PendingOf(Add(s), t) == PendingOf(s, t) + [Entry(s.added, 0)];
    }
  }

  lemma LookPending(s: State, t: nat)
    requires OneFlusher(s) && t in s.flushers && s.flushers[t].Looking?
    ensures OneFlusher(LookAgain(s, t)) && Pending(LookAgain(s, t)) == s.events
  {
    var next := LookAgain(s, t);
    assert forall u | u in s.flushers :: u == t;
    if next.flushers == map[] {
    } else {
      PendingIs(next, t);
    }
  }

  // ---- Runs ----

  ghost predicate ValidRun(states: seq<State>, steps: seq<Step>, maxRetries: nat) {
    && |states| == |steps| + 1 && states[0] == INITIAL
    && forall k | 0 <= k < |steps| ::
         Enabled(states[k], steps[k]) && states[k + 1] == Apply(states[k], steps[k], maxRetries)
  }

  lemma {:induction false} RunKeeps(states: seq<State>, steps: seq<Step>, maxRetries: nat, k: nat)
    requires ValidRun(states, steps, maxRetries) && k < |states|
    ensures Inv(states[k], maxRetries)
  {
    hide Inv, Apply;
    if k == 0 {
      InvInitially(maxRetries);
    } else {
      RunKeeps(states, steps, maxRetries, k - 1);
      StepKeeps(states[k - 1], steps[k - 1], maxRetries);
    }
  }

  /** The end of a batch never slices out of range: the copy is still the beginning of the buffer. */
  lemma CopyStaysInBuffer(states: seq<State>, steps: seq<Step>, maxRetries: nat, k: nat)
    requires ValidRun(states, steps, maxRetries) && k < |steps| && steps[k].SFinish?
    ensures states[k].flushers[steps[k].t].snapshot <= states[k].events
  {
    RunKeeps(states, steps, maxRetries, k);
    CopyIsPrefix(states[k], steps[k].t);
  }

  /** In every run each event is in exactly one place, in insertion order, and tried at most maxRetries times. */
  lemma NothingLostOrRepeated(states: seq<State>, steps: seq<Step>, maxRetries: nat, k: nat)
    requires ValidRun(states, steps, maxRetries) && k < |states|
    ensures var s := states[k];
      && OneFlusher(s) && Ordered(Pending(s))
      && (forall id: nat | id < s.added ::
            && id in s.attempts && s.attempts[id] <= maxRetries
            && (Has(Pending(s), id) || id in s.sent || id in s.discarded)
            && !(Has(Pending(s), id) && id in s.sent) && !(Has(Pending(s), id) && id in s.discarded)
            && !(id in s.sent && id in s.discarded))
      && (forall id | id in s.discarded :: id in s.attempts && s.attempts[id] == maxRetries)
  {
    RunKeeps(states, steps, maxRetries, k);
    var s := states[k];
    forall id: nat | id < s.added ensures id in s.attempts {
      AttemptsTotal(states, steps, maxRetries, k, id);
    }
  }

  lemma {:induction false} AttemptsTotal(states: seq<State>, steps: seq<Step>, maxRetries: nat, k: nat, id: nat)
    requires ValidRun(states, steps, maxRetries) && k < |states| && id < states[k].added
    ensures id in states[k].attempts
  {
    if k > 0 && id < states[k - 1].added { AttemptsTotal(states, steps, maxRetries, k - 1, id); }
  }

  /** Step k asks the sender about event `id`: it is the next of the copy and has attempts left. */
  predicate Tries(states: seq<State>, steps: seq<Step>, maxRetries: nat, k: nat, id: nat) {
    && k < |steps| < |states| && steps[k].SSend? && Enabled(states[k], steps[k])
    && var p := states[k].flushers[steps[k].t];
       p.snapshot[p.next].id == id && p.snapshot[p.next].retries < maxRetries
  }

  /** How often the sender has been asked about the event before state k. */
  ghost function CountTries(states: seq<State>, steps: seq<Step>, maxRetries: nat, k: nat, id: nat): nat {
    if k == 0 then 0
    else CountTries(states, steps, maxRetries, k - 1, id) + if Tries(states, steps, maxRetries, k - 1, id) then 1 else 0
  }

  /** An event is sent exactly when the sender has accepted it, and its attempts are the times it was asked. */
  lemma {:induction false} SentExactly(states: seq<State>, steps: seq<Step>, maxRetries: nat, k: nat, id: nat)
    requires ValidRun(states, steps, maxRetries) && k < |states|
    ensures id in states[k].sent <==> exists j :: 0 <= j < k && Tries(states, steps, maxRetries, j, id) && steps[j].ok
    ensures id in states[k].attempts ==> states[k].attempts[id] == CountTries(states, steps, maxRetries, k, id)
    ensures id !in states[k].attempts ==> CountTries(states, steps, maxRetries, k, id) == 0
  {
    hide Inv, Apply, Tries;
    if k > 0 {
      SentExactly(states, steps, maxRetries, k - 1, id);
      RunKeeps(states, steps, maxRetries, k - 1);
      OneTry(states, steps, maxRetries, k - 1, id);
      assert states[k] == Apply(states[k - 1], steps[k - 1], maxRetries);
    }
  }

  lemma OneTry(states: seq<State>, steps: seq<Step>, maxRetries: nat, k: nat, id: nat)
    requires ValidRun(states, steps, maxRetries) && k < |steps| && Inv(states[k], maxRetries)
    ensures var s, t, tried := states[k], states[k + 1], Tries(states, steps, maxRetries, k, id);
      && (id in t.sent <==> id in s.sent || (tried && steps[k].ok))
      && (tried ==> id in s.attempts) && (id in s.attempts ==> id in t.attempts)
      && (id in t.attempts && id in s.attempts ==> t.attempts[id] == s.attempts[id] + if tried then 1 else 0)
      && (id in t.attempts && id !in s.attempts ==> t.attempts[id] == 0)
  {
    hide Ledger;
    var s := states[k];
    if steps[k].SSend? {
      var t := steps[k].t;
      CopyIsPrefix(s, t);
      PendingIs(s, t);
      SendPending(s, t, steps[k].ok, maxRetries);
      PendingAccounted(Pending(s), s, |s.flushers[t].failed|, maxRetries);
    } else if steps[k].SAdd? {
      NextIsNew(s, maxRetries);
    }
  }

  lemma NextIsNew(s: State, maxRetries: nat)
    requires Inv(s, maxRetries)
    ensures s.added !in s.attempts
  {
  }

  /** The flusher is about to take a copy. */
  ghost predicate AboutToStart(s: State) { exists t :: t in s.flushers && s.flushers[t].Starting? }

  /** After a request, the flush goes on until another batch starts or the buffer is found empty. */
  lemma StillOwed(s: State, step: Step, maxRetries: nat)
    requires Inv(s, maxRetries) && Enabled(s, step) && s.flushing && (s.flushRequested || AboutToStart(s))
    requires !step.SStart?
    ensures var next := Apply(s, step, maxRetries);
      (next.flushing && (next.flushRequested || AboutToStart(next))) || (step.SLook? && s.events == [])
  {
    var next := Apply(s, step, maxRetries);
    if AboutToStart(s) {
      var t :| t in s.flushers && s.flushers[t].Starting?;
      assert forall u | u in s.flushers :: u == t;
      assert step.SAdd? || step.SEnter?;
      assert next.flushers[t].Starting?;
    } else if step.SLook? && s.events != [] {
      assert next.flushers[step.t].Starting?;
    }
  }

  /** A flush asked for while another is under way is followed by another batch, or by an empty buffer. */
  lemma RequestHonoured(states: seq<State>, steps: seq<Step>, maxRetries: nat, k: nat, m: nat)
    requires ValidRun(states, steps, maxRetries) && k < m < |states|
    requires steps[k].SEnter? && states[k].flushing && !states[m].flushing
    ensures exists j :: k < j < m && (steps[j].SStart? || (steps[j].SLook? && states[j].events == []))
  {
    hide Inv;
    RunKeeps(states, steps, maxRetries, k);
    var j := k + 1;
    while j < m
      invariant k < j <= m
      invariant states[j].flushing && (states[j].flushRequested || AboutToStart(states[j]))
    {
      if steps[j].SStart? || (steps[j].SLook? && states[j].events == []) {
        return;
      }
      RunKeeps(states, steps, maxRetries, j);
      StillOwed(states[j], steps[j], maxRetries);
      j := j + 1;
    }
  }

  // ---- The object ----

  /** The buffer's fields and the goroutines inside Flush; every method is one step. */
  class Buffer {
    const maxRetries: nat
    var events: seq<Entry>
    var flushing: bool
    var flushRequested: bool
    var flushers: map<nat, Phase>
    ghost var added: nat
    ghost var sent: set<nat>
    ghost var discarded: set<nat>
    ghost var attempts: map<nat, nat>
    /** Stands for the identity of the next event. */
    var nextId: nat

    ghost function View(): State
      reads this
    {
      State(events, flushing, flushRequested, flushers, added, sent, discarded, attempts)
    }

    ghost predicate Valid()
      reads this
    {
      Inv(View(), maxRetries) && nextId == added
    }

    constructor (maxRetries: nat)
      ensures Valid() && View() == INITIAL && this.maxRetries == maxRetries
    {
      this.maxRetries := maxRetries;
      events, flushing, flushRequested, flushers, nextId := [], false, false, map[], 0;
      added, sent, discarded, attempts := 0, {}, {}, map[];
      new;
      InvInitially(maxRetries);
    }

    method AddEvent()
      requires Valid()
      modifies this
      ensures Valid() && View() == Add(old(View())) && events == old(events) + [Entry(old(nextId), 0)]
    {
      StepKeeps(View(), SAdd, maxRetries);
      events := events + [Entry(nextId, 0)];
      attempts := attempts[added := 0];
      nextId := nextId + 1;
      added := added + 1;
    }

    /** The first section of Flush; false when a flush is under way and only a request is left. */
    method EnterFlush(t: nat) returns (entered: bool)
      requires Valid() && t !in flushers
      modifies this
      ensures Valid() && View() == Enter(old(View()), t) && entered == !old(flushing)
    {
      StepKeeps(View(), SEnter(t), maxRetries);
      if flushing {
        flushRequested := true;
        return false;
      }
      flushing := true;
      flushRequested := false;
      flushers := flushers[t := Starting];
      return true;
    }

    method BeginBatch(t: nat)
      requires Valid() && Enabled(View(), SStart(t))
      modifies this
      ensures Valid() && View() == StartBatch(old(View()), t) && events == old(events)
      ensures flushers[t] == if events == [] then Looking else Sending(events, 0, [])
    {
      StepKeeps(View(), SStart(t), maxRetries);
      if events == [] {
        flushers := flushers[t := Looking];
        return;
      }
      var copy := events;
      flushers := flushers[t := Sending(copy, 0, [])];
    }

    /** One iteration of flushBatch; `ok` is what the sender answers if it is asked. */
    method SendOne(t: nat, ok: bool)
      requires Valid() && Enabled(View(), SSend(t, ok))
      modifies this
      ensures Valid() && View() == SendNext(old(View()), t, maxRetries, ok) && events == old(events)
      ensures var p := old(flushers)[t];
        var e := p.snapshot[p.next];
        && flushers == old(flushers)[t := p.(
             next := p.next + 1,
             failed := if e.retries < maxRetries && !ok then p.failed + [Entry(e.id, e.retries + 1)] else p.failed)]
        && sent == old(sent) + (if e.retries < maxRetries && ok then {e.id} else {})
        && discarded == old(discarded) + (if e.retries < maxRetries then {} else {e.id})
    {
      hide Inv;
      StepKeeps(View(), SSend(t, ok), maxRetries);
      var batch := flushers[t];
      var buffered := batch.snapshot[batch.next];
      if buffered.retries >= maxRetries {
        discarded := discarded + {buffered.id};
        flushers := flushers[t := batch.(next := batch.next + 1)];
        return;
      }
      attempts := attempts[buffered.id := (if buffered.id in attempts then attempts[buffered.id] else 0) + 1];
      if !ok {
        buffered := buffered.(retries := buffered.retries + 1);
        flushers := flushers[t := batch.(next := batch.next + 1, failed := batch.failed + [buffered])];
        return;
      }
      sent := sent + {buffered.id};
      flushers := flushers[t := batch.(next := batch.next + 1)];
    }

    method EndBatch(t: nat)
      requires Valid() && Enabled(View(), SFinish(t))
      modifies this
      ensures Valid() && View() == FinishBatch(old(View()), t)
      ensures var p := old(flushers)[t];
        p.snapshot <= old(events) && events == p.failed + old(events)[|p.snapshot|..] && flushers[t] == Looking
    {
      StepKeeps(View(), SFinish(t), maxRetries);
      CopyIsPrefix(View(), t);
      var batch := flushers[t];
      events := batch.failed + events[|batch.snapshot|..];
      flushers := flushers[t := Looking];
    }

    method CheckAgain(t: nat) returns (again: bool)
      requires Valid() && Enabled(View(), SLook(t))
      modifies this
      ensures Valid() && View() == LookAgain(old(View()), t) && again == (old(flushRequested) && old(events) != [])
    {
      StepKeeps(View(), SLook(t), maxRetries);
      if !flushRequested || events == [] {
        flushing := false;
        flushers := flushers - {t};
        return false;
      }
      flushRequested := false;
      flushers := flushers[t := Starting];
      return true;
    }
  }
}
