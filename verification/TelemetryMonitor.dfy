/**
 * The debouncing Redis bus feeding the priority monitor.  Timers fire on time: the clock never passes the due time of a
 * timer whose callback has not run.  A callback that has fired waits for the lock, and stopping its timer then has no
 * effect, so callbacks of timers nobody refers to any more still run.
 */
module TelemetryMonitor {
  import opened Wrappers

  /** Immediate, Quick, Medium and Slow. */
  const PRIORITIES: nat := 4

  type Priority = p: nat | p < PRIORITIES

  datatype Key = Key(hash: string, field: string)

  /** A pending change with the time the monitor first saw it. */
  datatype Change = Change(value: string, arrived: nat)

  datatype Timer = Timer(priority: Priority, due: nat)

  const NO_CHANGES: seq<map<Key, Change>> := [map[], map[], map[], map[]]

  const NO_TIMERS: seq<Option<nat>> := [None, None, None, None]

  type Changes = s: seq<map<Key, Change>> | |s| == PRIORITIES witness NO_CHANGES

  type Timers = s: seq<Option<nat>> | |s| == PRIORITIES witness NO_TIMERS

  /** The monitor's timers and pending changes; `armed` holds every timer whose callback has not run. */
  datatype Board = Board(pending: Changes, timers: Timers, armed: map<nat, Timer>, nextTimer: nat)

  /** A call of FlushTelemetry with the changes that led to it. */
  datatype Flush = Flush(at: nat, keys: set<Key>)

  /** A debounce window of the bus. */
  datatype Window = Window(due: nat, payloads: seq<string>)

  /** `priorityOf` is GetFieldPriority, None for a filtered field; `quantize` is QuantizeForChangeDetection. */
  datatype Setup = Setup(
    debounce: nat, deadline: Priority -> nat, priorityOf: Key -> Option<Priority>, quantize: (Key, string) -> string)

  datatype State = State(
    now: nat, windows: map<string, Window>, lastValues: map<Key, string>, board: Board, flushes: seq<Flush>)

  // ---- The monitor ----

  /** A timer is referenced exactly while changes are pending, and it is due when the first of them has to go. */
  predicate SlotTimed(b: Board, p: Priority, deadline: Priority -> nat) {
    match b.timers[p]
    case None => b.pending[p] == map[]
    case Some(id) =>
      && b.pending[p] != map[] && id in b.armed && b.armed[id].priority == p
      && (forall k | k in b.pending[p] :: b.armed[id].due <= b.pending[p][k].arrived + deadline(p))
      && exists k :: k in b.pending[p] && b.armed[id].due == b.pending[p][k].arrived + deadline(p)
  }

  predicate Armed(b: Board, now: nat) {
    forall id | id in b.armed :: id < b.nextTimer && now <= b.armed[id].due
  }

  predicate Arrived(b: Board, p: Priority, now: nat) { forall k | k in b.pending[p] :: b.pending[p][k].arrived <= now }

  predicate OnTime(b: Board, now: nat, deadline: Priority -> nat) {
    Armed(b, now) && forall p: Priority :: SlotTimed(b, p, deadline) && Arrived(b, p, now)
  }

  /** A detected change: it becomes pending, and starts its priority's timer if none is running. */
  function Note(b: Board, p: Priority, key: Key, value: string, now: nat, due: nat): Board {
    var change := if key in b.pending[p] then b.pending[p][key].(value := value) else Change(value, now);
    var noted := b.(pending := b.pending[p := b.pending[p][key := change]]);
    if b.timers[p].Some? then noted
    else noted.(timers := b.timers[p := Some(b.nextTimer)], armed := b.armed[b.nextTimer := Timer(p, due)],
                nextTimer := b.nextTimer + 1)
  }

  lemma NoteKeeps(b: Board, p: Priority, key: Key, value: string, now: nat, deadline: Priority -> nat)
    requires OnTime(b, now, deadline)
    ensures OnTime(Note(b, p, key, value, now, now + deadline(p)), now, deadline)
  {
    var t := Note(b, p, key, value, now, now + deadline(p));
    forall q: Priority ensures SlotTimed(t, q, deadline) && Arrived(t, q, now) {
      assert SlotTimed(b, q, deadline) && Arrived(b, q, now);
      if q == p {
        assert key in t.pending[p];
        if b.timers[p].Some? {
          var first :| first in b.pending[p]
            && b.armed[b.timers[p].value].due == b.pending[p][first].arrived + deadline(p);
          assert first in t.pending[p] && t.pending[p][first].arrived == b.pending[p][first].arrived;
        }
      } else if b.timers[q].Some? {
        var first :| first in b.pending[q]
          && b.armed[b.timers[q].value].due == b.pending[q][first].arrived + deadline(q);
        assert first in t.pending[q];
      }
    }
  }

  function AllKeys(b: Board): set<Key> {
    b.pending[0].Keys + b.pending[1].Keys + b.pending[2].Keys + b.pending[3].Keys
  }

  /** The timers left after stopping the referenced ones: those that have fired already are past stopping. */
  function Stopped(armed: map<nat, Timer>, timers: seq<Option<nat>>, now: nat): map<nat, Timer> {
    map id | id in armed && (armed[id].due <= now || Some(id) !in timers) :: armed[id]
  }

  /** Both flushes: everything pending goes out at once. */
  function TakeAll(b: Board, now: nat): Board {
    if AllKeys(b) == {} then b else Board(NO_CHANGES, NO_TIMERS, Stopped(b.armed, b.timers, now), b.nextTimer)
  }

  lemma TakeAllKeeps(b: Board, now: nat, deadline: Priority -> nat)
    requires Armed(b, now) && (AllKeys(b) == {} ==> b.timers == NO_TIMERS)
    ensures OnTime(TakeAll(b, now), now, deadline) && AllKeys(TakeAll(b, now)) == {}
  {
  }

  /** flushPriority as a timer's callback: the reference of its priority is dropped, whichever timer it is. */
  function Fire(b: Board, id: nat, now: nat): Board
    requires id in b.armed
  {
    TakeAll(b.(armed := b.armed - {id}, timers := b.timers[b.armed[id].priority := None]), now)
  }

  /** Even the callback of a timer that is no longer referred to leaves no change without a timer. */
  lemma FireKeeps(b: Board, id: nat, now: nat, deadline: Priority -> nat)
    requires OnTime(b, now, deadline) && id in b.armed
    ensures OnTime(Fire(b, id, now), now, deadline) && AllKeys(Fire(b, id, now)) == {}
  {
    var dropped := b.(armed := b.armed - {id}, timers := b.timers[b.armed[id].priority := None]);
    if AllKeys(dropped) == {} { IdleHasNoTimers(b, now, deadline); }
    TakeAllKeeps(dropped, now, deadline);
  }

  lemma IdleHasNoTimers(b: Board, now: nat, deadline: Priority -> nat)
    requires OnTime(b, now, deadline) && AllKeys(b) == {}
    ensures b.timers == NO_TIMERS
  {
    forall p: Priority ensures b.timers[p].None? {
      assert SlotTimed(b, p, deadline);
      assert b.pending[p].Keys <= AllKeys(b);
    }
  }

  lemma FlushKeeps(b: Board, now: nat, deadline: Priority -> nat)
    requires OnTime(b, now, deadline)
    ensures OnTime(TakeAll(b, now), now, deadline) && AllKeys(TakeAll(b, now)) == {}
  {
    if AllKeys(b) == {} { IdleHasNoTimers(b, now, deadline); }
    TakeAllKeeps(b, now, deadline);
  }

  // ---- Steps of the pipeline ----

  /** The value a field had when it was last looked at. */
  function Known(s: State, key: Key): string {
    if key in s.lastValues then s.lastValues[key] else ""
  }

  predicate Changed(c: Setup, s: State, key: Key, raw: string) {
    c.priorityOf(key).Some? && Known(s, key) != c.quantize(key, raw)
  }

  /** handleFieldChange. */
  function HandleChange(c: Setup, s: State, key: Key, raw: string): State {
    if !Changed(c, s, key, raw) then s
    else
      var p, value := c.priorityOf(key).value, c.quantize(key, raw);
      s.(lastValues := s.lastValues[key := value],
         board := Note(s.board, p, key, value, s.now, s.now + c.deadline(p)))
  }

  /** The fields of a hash in the order the map iteration visits them. */
  type Reading = seq<(string, string)>

  predicate Distinct(fields: Reading) { forall i, j | 0 <= i < j < |fields| :: fields[i].0 != fields[j].0 }

  /** The part of fanOut that reaches the monitor. */
  function Spread(c: Setup, s: State, hash: string, fields: Reading): State
    decreases |fields|
  {
    if fields == [] then s
    else Spread(c, HandleChange(c, s, Key(hash, fields[0].0), fields[0].1), hash, fields[1..])
  }

  /** `fields` is None when the hash cannot be read. */
  datatype Event =
    | EDispatch(hash: string, payload: string, fields: Option<Reading>)
    | EFireWindow(hash: string, fields: Option<Reading>)
    | EFireTimer(id: nat)
    | EFlushAll
    | EAdvance(to: nat)

  function Hand(c: Setup, s: State, hash: string, fields: Option<Reading>): State {
    if fields.Some? then Spread(c, s, hash, fields.value) else s
  }

  function Recorded(s: State): seq<Flush> {
    if AllKeys(s.board) == {} then s.flushes else s.flushes + [Flush(s.now, AllKeys(s.board))]
  }

  function OpenWindow(c: Setup, s: State, hash: string, payload: string): State {
    var window := if hash in s.windows then s.windows[hash] else Window(s.now + c.debounce, []);
    s.(windows := s.windows[hash := window.(payloads := window.payloads + [payload])])
  }

  predicate Enabled(s: State, e: Event) {
    match e
    case EDispatch(_, _, fields) => fields.Some? ==> Distinct(fields.value)
    case EFireWindow(hash, fields) =>
      hash in s.windows && s.windows[hash].due <= s.now && (fields.Some? ==> Distinct(fields.value))
    case EFireTimer(id) => id in s.board.armed && s.board.armed[id].due <= s.now
    case EFlushAll => true
    case EAdvance(to) =>
      && s.now <= to && (forall id | id in s.board.armed :: to <= s.board.armed[id].due)
      && forall h | h in s.windows :: to <= s.windows[h].due
  }

  function Step(c: Setup, s: State, e: Event): State
    requires Enabled(s, e)
  {
    match e
    case EDispatch(hash, payload, fields) =>
      if c.debounce == 0 then Hand(c, s, hash, fields) else OpenWindow(c, s, hash, payload)
    case EFireWindow(hash, fields) => Hand(c, s.(windows := s.windows - {hash}), hash, fields)
    case EFireTimer(id) => s.(board := Fire(s.board, id, s.now), flushes := Recorded(s))
    case EFlushAll => s.(board := TakeAll(s.board, s.now), flushes := Recorded(s))
    case EAdvance(to) => s.(now := to)
  }

  function Start(now: nat): State { State(now, map[], map[], Board(NO_CHANGES, NO_TIMERS, map[], 0), []) }

  ghost predicate ValidRun(c: Setup, states: seq<State>, events: seq<Event>) {
    && |states| == |events| + 1 && states[0] == Start(states[0].now)
    && forall k | 0 <= k < |events| :: Enabled(states[k], events[k]) && states[k + 1] == Step(c, states[k], events[k])
  }

  // ---- What every step keeps ----

  predicate WindowsOnTime(c: Setup, s: State) {
    forall h | h in s.windows :: s.now <= s.windows[h].due <= s.now + c.debounce
  }

  predicate Inv(c: Setup, s: State) { OnTime(s.board, s.now, c.deadline) && WindowsOnTime(c, s) }

  /** Apart from the time and the windows, what one change leaves behind. */
  lemma {:induction false} SpreadKeeps(c: Setup, s: State, hash: string, fields: Reading)
    requires OnTime(s.board, s.now, c.deadline)
    ensures var t := Spread(c, s, hash, fields);
      && OnTime(t.board, t.now, c.deadline) && t.now == s.now && t.windows == s.windows && t.flushes == s.flushes
      && forall p: Priority, k | k in s.board.pending[p] ::
           k in t.board.pending[p] && t.board.pending[p][k].arrived == s.board.pending[p][k].arrived
    decreases |fields|
  {
    hide OnTime;
    if fields != [] {
      var key, raw := Key(hash, fields[0].0), fields[0].1;
      var t := HandleChange(c, s, key, raw);
      if Changed(c, s, key, raw) {
        NoteKeeps(s.board, c.priorityOf(key).value, key, c.quantize(key, raw), s.now, c.deadline);
      }
      SpreadKeeps(c, t, hash, fields[1..]);
    }
  }

  lemma AdvanceKeeps(b: Board, now: nat, to: nat, deadline: Priority -> nat)
    requires OnTime(b, now, deadline) && now <= to && forall id | id in b.armed :: to <= b.armed[id].due
    ensures OnTime(b, to, deadline)
  {
    forall p: Priority ensures SlotTimed(b, p, deadline) && Arrived(b, p, to) {
      assert SlotTimed(b, p, deadline) && Arrived(b, p, now);
    }
  }

  lemma StepKeeps(c: Setup, s: State, e: Event)
    requires Inv(c, s) && Enabled(s, e)
    ensures Inv(c, Step(c, s, e))
  {
    hide TakeAll, Fire, SlotTimed;
    match e
    case EDispatch(hash, _, fields) => if fields.Some? { SpreadKeeps(c, s, hash, fields.value); }
    case EFireWindow(hash, fields) =>
      if fields.Some? { SpreadKeeps(c, s.(windows := s.windows - {hash}), hash, fields.value); }
    case EFireTimer(id) => FireKeeps(s.board, id, s.now, c.deadline);
    case EFlushAll => FlushKeeps(s.board, s.now, c.deadline);
    case EAdvance(to) => AdvanceKeeps(s.board, s.now, to, c.deadline);
  }

  /** In every reachable state a timer is referenced exactly where changes are pending, and no change is overdue. */
  lemma {:induction false} TimersMatchPending(c: Setup, states: seq<State>, events: seq<Event>, k: nat)
    requires ValidRun(c, states, events) && k < |states|
    ensures Inv(c, states[k])
    ensures forall p: Priority :: states[k].board.timers[p].Some? <==> states[k].board.pending[p] != map[]
    ensures forall p: Priority, key | key in states[k].board.pending[p] ::
              states[k].now <= states[k].board.pending[p][key].arrived + c.deadline(p)
  {
    hide Step;
    if k > 0 {
      TimersMatchPending(c, states, events, k - 1);
      StepKeeps(c, states[k - 1], events[k - 1]);
    }
    forall p: Priority
      ensures states[k].board.timers[p].Some? <==> states[k].board.pending[p] != map[]
      ensures forall key | key in states[k].board.pending[p] ::
                states[k].now <= states[k].board.pending[p][key].arrived + c.deadline(p)
    {
      assert SlotTimed(states[k].board, p, c.deadline);
    }
  }

  /** A timer that is referred to fires exactly when the first of its changes has waited for its deadline. */
  lemma FlushedOnTheDot(c: Setup, states: seq<State>, events: seq<Event>, k: nat, p: Priority)
    requires ValidRun(c, states, events) && k < |events| && events[k].EFireTimer?
    requires states[k].board.timers[p] == Some(events[k].id)
    ensures exists key :: key in states[k].board.pending[p]
              && states[k].now == states[k].board.pending[p][key].arrived + c.deadline(p)
    ensures forall key | key in states[k].board.pending[p] ::
              states[k].now <= states[k].board.pending[p][key].arrived + c.deadline(p)
  {
    hide Step;
    TimersMatchPending(c, states, events, k);
    assert SlotTimed(states[k].board, p, c.deadline);
    assert Enabled(states[k], events[k]);
  }

  // ---- Every change is flushed in time ----

  /** The step found the field changed. */
  predicate Detects(s: State, t: State, key: Key) { Known(t, key) != Known(s, key) }

  /** Some flush recorded from index `from` on holds the key and took place in [low, high]. */
  predicate Flushed(s: State, from: nat, key: Key, low: nat, high: nat) {
    exists f :: from <= f < |s.flushes| && key in s.flushes[f].keys && low <= s.flushes[f].at <= high
  }

  /** The change is pending with its deadline in reach, or flushed. */
  predicate Owed(c: Setup, s: State, from: nat, key: Key, p: Priority, low: nat, high: nat) {
    || Flushed(s, from, key, low, high)
    || (key in s.board.pending[p] && s.board.pending[p][key].arrived + c.deadline(p) <= high && low <= s.now)
  }

  lemma PendingIsKey(b: Board, p: Priority, key: Key)
    requires key in b.pending[p]
    ensures key in AllKeys(b)
  {
  }

  lemma OwedKept(c: Setup, s: State, e: Event, from: nat, key: Key, p: Priority, low: nat, high: nat)
    requires Inv(c, s) && Enabled(s, e) && Owed(c, s, from, key, p, low, high) && from <= |s.flushes|
    ensures Owed(c, Step(c, s, e), from, key, p, low, high) && from <= |Step(c, s, e).flushes|
  {
    hide AllKeys, TakeAll, Fire;
    var t := Step(c, s, e);
    match e {
      case EDispatch(hash, _, fields) => if fields.Some? { SpreadKeeps(c, s, hash, fields.value); }
      case EFireWindow(hash, fields) =>
        if fields.Some? { SpreadKeeps(c, s.(windows := s.windows - {hash}), hash, fields.value); }
      case _ =>
    }
    if Flushed(s, from, key, low, high) {
      var f :| from <= f < |s.flushes| && key in s.flushes[f].keys && low <= s.flushes[f].at <= high;
      assert t.flushes[f] == s.flushes[f];
    } else if e.EFireTimer? || e.EFlushAll? {
      PendingIsKey(s.board, p, key);
      assert SlotTimed(s.board, p, c.deadline);
      assert t.flushes[|s.flushes|] == Flush(s.now, AllKeys(s.board));
    }
  }

  lemma {:induction false} OwedAlong(c: Setup, states: seq<State>, events: seq<Event>, a: nat, b: nat, from: nat,
                                     key: Key, p: Priority, low: nat, high: nat)
    requires ValidRun(c, states, events) && a <= b < |states|
    requires Owed(c, states[a], from, key, p, low, high) && from <= |states[a].flushes|
    ensures Owed(c, states[b], from, key, p, low, high) && from <= |states[b].flushes|
  {
    hide Step, Owed, Enabled;
    if a < b {
      OwedAlong(c, states, events, a, b - 1, from, key, p, low, high);
      TimersMatchPending(c, states, events, b - 1);
      OwedKept(c, states[b - 1], events[b - 1], from, key, p, low, high);
    }
  }

  /** A field found changed is pending right after, and its value is the quantised one of the reading. */
  lemma {:induction false} SpreadNotes(c: Setup, s: State, hash: string, fields: Reading, key: Key)
    requires OnTime(s.board, s.now, c.deadline) && Detects(s, Spread(c, s, hash, fields), key)
    ensures c.priorityOf(key).Some?
    ensures var t, p := Spread(c, s, hash, fields), c.priorityOf(key).value;
      key in t.board.pending[p] && t.board.pending[p][key].arrived <= s.now
    decreases |fields|
  {
    hide OnTime;
    if fields != [] {
      var first, raw := Key(hash, fields[0].0), fields[0].1;
      var t := HandleChange(c, s, first, raw);
      if Changed(c, s, first, raw) {
        NoteKeeps(s.board, c.priorityOf(first).value, first, c.quantize(first, raw), s.now, c.deadline);
      }
      SpreadKeeps(c, t, hash, fields[1..]);
      if Detects(t, Spread(c, t, hash, fields[1..]), key) {
        SpreadNotes(c, t, hash, fields[1..], key);
      } else {
        ArrivedBy(s.board, c.priorityOf(first).value, s.now, c.deadline);
      }
    }
  }

  lemma ArrivedBy(b: Board, p: Priority, now: nat, deadline: Priority -> nat)
    requires OnTime(b, now, deadline)
    ensures Arrived(b, p, now)
  {
  }

  lemma DetectionIsOwed(c: Setup, s: State, e: Event, key: Key)
    requires Inv(c, s) && Enabled(s, e) && Detects(s, Step(c, s, e), key)
    ensures c.priorityOf(key).Some? && (e.EDispatch? || e.EFireWindow?)
    ensures var t, p := Step(c, s, e), c.priorityOf(key).value;
      t.now == s.now && t.flushes == s.flushes && Owed(c, t, |s.flushes|, key, p, s.now, s.now + c.deadline(p))
  {
    hide OnTime;
    match e {
      case EDispatch(hash, _, fields) =>
        SpreadKeeps(c, s, hash, fields.value);
        SpreadNotes(c, s, hash, fields.value, key);
      case EFireWindow(hash, fields) =>
        var closed := s.(windows := s.windows - {hash});
        SpreadKeeps(c, closed, hash, fields.value);
        SpreadNotes(c, closed, hash, fields.value, key);
      case _ =>
    }
  }

  /**
   * A change found at step k is flushed within the deadline of its priority: once the clock is past it, a flush
   * recorded after the step holds the field.
   */
  lemma ChangeIsFlushed(c: Setup, states: seq<State>, events: seq<Event>, k: nat, m: nat, key: Key)
    requires ValidRun(c, states, events) && k < m < |states| && Detects(states[k], states[k + 1], key)
    ensures c.priorityOf(key).Some?
    ensures var due := states[k].now + c.deadline(c.priorityOf(key).value);
      states[m].now > due ==> Flushed(states[m], |states[k].flushes|, key, states[k].now, due)
  {
    hide Step, Enabled;
    TimersMatchPending(c, states, events, k);
    TimersMatchPending(c, states, events, m);
    DetectionIsOwed(c, states[k], events[k], key);
    var p := c.priorityOf(key).value;
    OwedAlong(c, states, events, k + 1, m, |states[k].flushes|, key, p, states[k].now, states[k].now + c.deadline(p));
  }

  /** Step k reads the hash for the monitor. */
  predicate Reads(c: Setup, e: Event, hash: string) {
    (e.EFireWindow? || (e.EDispatch? && c.debounce == 0)) && e.hash == hash
  }

  lemma {:induction false} WindowWaits(c: Setup, states: seq<State>, events: seq<Event>, d: nat, m: nat)
    requires ValidRun(c, states, events) && d < m < |states| && events[d].EDispatch? && c.debounce > 0
    ensures states[d].now <= states[m].now
    ensures || (exists k :: d < k < m && events[k].EFireWindow? && events[k].hash == events[d].hash
                  && states[d].now <= states[k].now <= states[d].now + c.debounce)
            || (events[d].hash in states[m].windows
                && states[m].windows[events[d].hash].due <= states[d].now + c.debounce)
  {
    TimersMatchPending(c, states, events, m - 1);
    if d + 1 == m {
    } else {
      WindowWaits(c, states, events, d, m - 1);
      var s, e := states[m - 1], events[m - 1];
      match e
      case EFireWindow(hash, fields) =>
        if fields.Some? { SpreadKeeps(c, s.(windows := s.windows - {hash}), hash, fields.value); }
      case _ =>
    }
  }

  /** A publish is followed, within the debounce time, by a reading of its hash. */
  lemma PublishIsRead(c: Setup, states: seq<State>, events: seq<Event>, d: nat, m: nat)
    requires ValidRun(c, states, events) && d < m < |states| && events[d].EDispatch?
    requires states[m].now > states[d].now + c.debounce
    ensures exists k :: d <= k < m && Reads(c, events[k], events[d].hash)
              && states[d].now <= states[k].now <= states[d].now + c.debounce
  {
    hide Step, Enabled;
    TimersMatchPending(c, states, events, m);
    if c.debounce == 0 {
      assert Reads(c, events[d], events[d].hash);
    } else {
      WindowWaits(c, states, events, d, m);
      var k :| d < k < m && events[k].EFireWindow? && events[k].hash == events[d].hash
        && states[d].now <= states[k].now <= states[d].now + c.debounce;
      assert Reads(c, events[k], events[d].hash);
    }
  }

  /** A reading changes what is known of exactly the fields whose quantised value is not the known one. */
  lemma {:induction false} ReadingDetects(c: Setup, s: State, hash: string, fields: Reading, key: Key)
    requires Distinct(fields)
    ensures Detects(s, Spread(c, s, hash, fields), key) <==>
              exists i :: 0 <= i < |fields| && key == Key(hash, fields[i].0) && Changed(c, s, key, fields[i].1)
    decreases |fields|
  {
    if fields != [] {
      var first, raw, rest := Key(hash, fields[0].0), fields[0].1, fields[1..];
      var t := HandleChange(c, s, first, raw);
      ReadingDetects(c, t, hash, rest, key);
      assert forall i :: 0 <= i < |rest| ==> rest[i] == fields[i + 1];
      if key == first {
        assert forall i :: 0 <= i < |rest| ==> rest[i].0 != fields[0].0;
        assert !Detects(t, Spread(c, t, hash, rest), key);
      } else {
        assert Known(t, key) == Known(s, key);
        assert forall i :: 0 <= i < |rest| ==> (Changed(c, t, key, rest[i].1) <==> Changed(c, s, key, fields[i + 1].1));
      }
    }
  }

  /** Every changed field of this priority in what was read is flushed in [low, high], at index `from` or later. */
  predicate AllFlushed(c: Setup, s: State, t: State, hash: string, fields: Option<Reading>, p: Priority, from: nat,
                       low: nat, high: nat)
  {
    fields.Some? ==> forall i | 0 <= i < |fields.value| ::
      var key := Key(hash, fields.value[i].0);
      c.priorityOf(key) == Some(p) && Changed(c, s, key, fields.value[i].1) ==> Flushed(t, from, key, low, high)
  }

  lemma LaterFlushed(s: State, from: nat, key: Key, low: nat, high: nat, later: nat)
    requires Flushed(s, from, key, low, high) && high <= later
    ensures Flushed(s, from, key, low, later)
  {
  }

  lemma ReadIsDetected(c: Setup, s: State, e: Event, hash: string, i: nat)
    requires Enabled(s, e) && Reads(c, e, hash) && e.fields.Some? && i < |e.fields.value|
    requires Changed(c, s, Key(hash, e.fields.value[i].0), e.fields.value[i].1)
    ensures Detects(s, Step(c, s, e), Key(hash, e.fields.value[i].0))
  {
    var key := Key(hash, e.fields.value[i].0);
    var read := if e.EFireWindow? then s.(windows := s.windows - {hash}) else s;
    ReadingDetects(c, read, hash, e.fields.value, key);
    assert Changed(c, read, key, e.fields.value[i].1);
  }

  /**
   * From publish to flush: once the clock is past the debounce time and the deadline of a priority after a publish, the
   * hash has been read within the debounce time, and every field of that priority that the reading showed to differ
   * has been flushed after the reading and within debounce time plus deadline of the publish.
   */
  lemma PublishedChangesAreFlushed(c: Setup, states: seq<State>, events: seq<Event>, d: nat, m: nat, p: Priority)
    requires ValidRun(c, states, events) && d < m < |states| && events[d].EDispatch?
    requires states[m].now > states[d].now + c.debounce + c.deadline(p)
    ensures exists k :: d <= k < m && Reads(c, events[k], events[d].hash)
              && states[d].now <= states[k].now <= states[d].now + c.debounce
              && AllFlushed(c, states[k], states[m], events[d].hash, events[k].fields, p, |states[k].flushes|,
                            states[k].now, states[d].now + c.debounce + c.deadline(p))
  {
    hide Step, Enabled, Changed, Flushed;
    var hash, high := events[d].hash, states[d].now + c.debounce + c.deadline(p);
    PublishIsRead(c, states, events, d, m);
    var k :| d <= k < m && Reads(c, events[k], hash) && states[d].now <= states[k].now <= states[d].now + c.debounce;
    var fields := events[k].fields;
    if fields.Some? {
      forall i | 0 <= i < |fields.value| && c.priorityOf(Key(hash, fields.value[i].0)) == Some(p)
          && Changed(c, states[k], Key(hash, fields.value[i].0), fields.value[i].1)
        ensures Flushed(states[m], |states[k].flushes|, Key(hash, fields.value[i].0), states[k].now, high)
      {
        var key := Key(hash, fields.value[i].0);
        ReadIsDetected(c, states[k], events[k], hash, i);
        ChangeIsFlushed(c, states, events, k, m, key);
        LaterFlushed(states[m], |states[k].flushes|, key, states[k].now, states[k].now + c.deadline(p), high);
      }
    }
  }

  // ---- The objects ----

  /** A map's entries in some order. */
  ghost predicate Lists(order: Reading, fields: map<string, string>) {
    && Distinct(order) && (forall i | 0 <= i < |order| :: order[i].0 in fields && fields[order[i].0] == order[i].1)
    && forall f | f in fields :: exists i :: 0 <= i < |order| && order[i].0 == f
  }

  ghost predicate ListsRead(order: Option<Reading>, fields: Option<map<string, string>>) {
    if fields.None? then order.None? else order.Some? && Lists(order.value, fields.value)
  }

  lemma {:induction false} SpreadAppend(c: Setup, s: State, hash: string, fields: Reading, last: (string, string))
    ensures Spread(c, s, hash, fields + [last])
            == HandleChange(c, Spread(c, s, hash, fields), Key(hash, last.0), last.1)
    decreases |fields|
  {
    if fields == [] {
      assert fields + [last] == [last];
    } else {
      assert (fields + [last])[1..] == fields[1..] + [last];
      SpreadAppend(c, HandleChange(c, s, Key(hash, fields[0].0), fields[0].1), hash, fields[1..], last);
    }
  }

  class Pipeline {
    const setup: Setup
    var now: nat
    var windows: map<string, Window>
    var lastValues: map<Key, string>
    var pending: Changes
    var timers: Timers
    var armed: map<nat, Timer>
    var nextTimer: nat
    var flushes: seq<Flush>

    function Table(): Board
      reads this
    {
      Board(pending, timers, armed, nextTimer)
    }

    function View(): State
      reads this
    {
      State(now, windows, lastValues, Table(), flushes)
    }

    constructor (setup: Setup, now: nat)
      ensures this.setup == setup && View() == Start(now)
    {
      this.setup, this.now := setup, now;
      windows, lastValues, flushes := map[], map[], [];
      pending, timers, armed, nextTimer := NO_CHANGES, NO_TIMERS, map[], 0;
    }

    /** handleFieldChange. */
    method HandleFieldChange(key: Key, raw: string)
      modifies this`lastValues, this`pending, this`timers, this`armed, this`nextTimer
      ensures View() == HandleChange(setup, old(View()), key, raw)
      ensures old(Changed(setup, View(), key, raw)) ==>
                var p := setup.priorityOf(key).value;
                && key in pending[p] && pending[p][key].value == setup.quantize(key, raw) && timers[p].Some?
                && (old(timers)[p].None? ==>
                      timers[p].value in armed && armed[timers[p].value] == Timer(p, now + setup.deadline(p)))
                && (old(timers)[p].Some? ==> timers == old(timers) && armed == old(armed))
      ensures !Changed(setup, View(), key, raw)
    {
      var found := setup.priorityOf(key);
      if found.None? {
        return;
      }
      var priority := found.value;
      var value := setup.quantize(key, raw);
      if (if key in lastValues then lastValues[key] else "") == value {
        return;
      }
      lastValues := lastValues[key := value];
      var change := if key in pending[priority] then pending[priority][key].(value := value) else Change(value, now);
      pending := pending[priority := pending[priority][key := change]];
      if timers[priority].None? {
        var id: nat := nextTimer;
        timers := timers[priority := Some(id)];
        armed := armed[id := Timer(priority, now + setup.deadline(priority))];
        nextTimer := id + 1;
      }
    }

    /** Stops the referenced timers one by one; a timer that has fired already is past stopping. */
    static method StopTimers(armed: map<nat, Timer>, timers: Timers, now: nat) returns (left: map<nat, Timer>)
      ensures left == Stopped(armed, timers, now)
    {
      left := armed;
      var p := 0;
      while p < |timers|
        invariant 0 <= p <= |timers| && left == Stopped(armed, timers[..p], now)
      {
        if timers[p].Some? && timers[p].value in left && left[timers[p].value].due > now {
          left := left - {timers[p].value};
        }
        assert timers[..p + 1] == timers[..p] + [timers[p]];
        p := p + 1;
      }
      assert timers[..p] == timers;
    }

    /** The part flushPriority and FlushAllPending share. */
    method FlushPending()
      modifies this`pending, this`timers, this`armed, this`flushes
      ensures Table() == TakeAll(old(Table()), now) && flushes == Recorded(old(View()))
    {
      if pending[0] == map[] && pending[1] == map[] && pending[2] == map[] && pending[3] == map[] {
        return;
      }
      flushes := flushes + [Flush(now, AllKeys(Table()))];
      armed := StopTimers(armed, timers, now);
      pending, timers := NO_CHANGES, NO_TIMERS;
    }

    /** The callback of a timer: flushPriority for its priority, whether or not the timer is still referred to. */
    method FireTimer(id: nat)
      requires id in armed && armed[id].due <= now
      modifies this`pending, this`timers, this`armed, this`flushes
      ensures View() == Step(setup, old(View()), EFireTimer(id)) && AllKeys(Table()) == {}
      ensures AllKeys(old(Table())) != {} ==> flushes == old(flushes) + [Flush(now, AllKeys(old(Table())))]
    {
      timers := timers[armed[id].priority := None];
      armed := armed - {id};
      FlushPending();
    }

    method FlushAllPending()
      modifies this`pending, this`timers, this`armed, this`flushes
      ensures View() == Step(setup, old(View()), EFlushAll) && AllKeys(Table()) == {}
      ensures AllKeys(old(Table())) != {} ==> flushes == old(flushes) + [Flush(now, AllKeys(old(Table())))]
    {
      FlushPending();
    }

    // ---- The bus ----

    /** dispatch: opens a window, or adds to the one that is open. */
    method Dispatch(hash: string, payload: string, fields: Option<map<string, string>>)
      returns (ghost order: Option<Reading>)
      modifies this
      ensures setup.debounce == 0 ==> ListsRead(order, fields)
      ensures Enabled(old(View()), EDispatch(hash, payload, order))
      ensures View() == Step(setup, old(View()), EDispatch(hash, payload, order))
      ensures setup.debounce > 0 ==>
                && Table() == old(Table()) && hash in windows && payload in windows[hash].payloads
                && (hash !in old(windows) ==> windows[hash].due == now + setup.debounce)
                && (hash in old(windows) ==> windows[hash].due == old(windows)[hash].due)
                && windows - {hash} == old(windows) - {hash}
    {
      if setup.debounce == 0 {
        order := FanOut(hash, fields);
        return;
      }
      order := None;
      if hash !in windows {
        windows := windows[hash := Window(now + setup.debounce, [])];
      }
      windows := windows[hash := windows[hash].(payloads := windows[hash].payloads + [payload])];
    }

    /** The callback of a window: the hash is read and handed on; `fields` is None when reading it fails. */
    method FireWindow(hash: string, fields: Option<map<string, string>>) returns (ghost order: Option<Reading>)
      requires hash in windows && windows[hash].due <= now
      modifies this
      ensures ListsRead(order, fields) && View() == Step(setup, old(View()), EFireWindow(hash, order))
      ensures fields.Some? ==> Seen(hash, fields.value)
    {
      windows := windows - {hash};
      order := FanOut(hash, fields);
    }

    /** The monitor knows these values: none of them would count as a change now. */
    predicate Seen(hash: string, fields: map<string, string>)
      reads this
    {
      forall f | f in fields :: !Changed(setup, View(), Key(hash, f), fields[f])
    }

    /** Hands the fields on in any order. */
    method FanOut(hash: string, fields: Option<map<string, string>>) returns (ghost order: Option<Reading>)
      modifies this`lastValues, this`pending, this`timers, this`armed, this`nextTimer
      ensures ListsRead(order, fields) && View() == Hand(setup, old(View()), hash, order)
      ensures fields.Some? ==> Seen(hash, fields.value)
    {
      order := None;
      if fields.None? {
        return;
      }
      ghost var listed: Reading := [];
      var todo := fields.value.Keys;
      while todo != {}
        invariant todo <= fields.value.Keys && Distinct(listed)
        invariant forall i | 0 <= i < |listed| ::
                    listed[i].0 in fields.value && listed[i].0 !in todo && fields.value[listed[i].0] == listed[i].1
        invariant forall f | f in fields.value && f !in todo :: exists i :: 0 <= i < |listed| && listed[i].0 == f
        invariant forall f | f in fields.value && f !in todo :: !Changed(setup, View(), Key(hash, f), fields.value[f])
        invariant View() == Spread(setup, old(View()), hash, listed)
        decreases todo
      {
        var f :| f in todo;
        todo := todo - {f};
        ghost var before := listed;
        SpreadAppend(setup, old(View()), hash, listed, (f, fields.value[f]));
        listed := listed + [(f, fields.value[f])];
        HandleFieldChange(Key(hash, f), fields.value[f]);
        assert listed[|before|].0 == f;
        assert forall i | 0 <= i < |before| :: listed[i] == before[i];
      }
      order := Some(listed);
    }

    /** Time passes, but not past a callback that is due. */
    method Advance(to: nat)
      requires Enabled(View(), EAdvance(to))
      modifies this`now
      ensures View() == Step(setup, old(View()), EAdvance(to))
    {
      now := to;
    }
  }
}
