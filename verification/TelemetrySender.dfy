/** publishTelemetrySmart and the remote mirror it keeps up to date. */
module TelemetrySender {
  import opened Text
  import opened Wrappers
  import opened TelemetryJson
  import opened TelemetryDelta

  type Tree = map<string, Json>

  // ---- The wire ----

  const TYPE: string := "type"
  const VERSION: string := "version"
  const CLEARED: string := "cleared"
  const VERSION_TWO: Json := Leaf("2")

  /** A delta message: its body without the type tag, and the cleared paths. */
  datatype Wire = Wire(body: Tree, cleared: seq<string>)

  /** publishTelemetryDelta: the envelope's own keys overwrite the delta's. */
  function Envelope(delta: Tree, cleared: seq<string>): Wire {
    Wire((delta - {TYPE, CLEARED})[VERSION := VERSION_TWO], cleared)
  }

  function SplitAll(cleared: seq<string>): seq<Path> {
    seq(|cleared|, i requires 0 <= i < |cleared| => Split(cleared[i], '.'))
  }

  /** The receiver: deep-merge the body, then remove the cleared paths. */
  function Receive(mirror: Tree, wire: Wire): Tree {
    RemoveAll(Obj(Merge(mirror, Obj(wire.body))), SplitAll(wire.cleared)).fields
  }

  predicate Unreserved(t: Tree) { TYPE !in t && CLEARED !in t }

  /** What the cleared entries of a delta read back as. */
  lemma ClearedReadBack(prev: Tree, curr: Tree, listed: seq<string>, tails: seq<Path>)
    requires PlainKeys(Obj(prev)) && Listed(listed, [], [], tails, TelemetryDelta.Cleared(prev, Obj(curr)))
    ensures SplitAll(listed) == tails && NoneEmpty(tails)
  {
    hide PlainKeys, TelemetryDelta.Cleared, JoinPath, Split;
    forall i | 0 <= i < |tails| ensures tails[i] != [] && Split(listed[i], '.') == tails[i] {
      assert tails[i] in (set t | t in tails);
      ClearedPlain(prev, Obj(curr), tails[i]);
      assert [] + tails[i] == tails[i];
      SplitOfJoin(tails[i]);
    }
  }

  /**
   * A mirror equal to prev becomes curr exactly when the version the envelope insists on is curr's own, or the key was
   * dropped and so listed as cleared.
   */
  lemma EnvelopeExact(prev: Tree, curr: Tree, listed: seq<string>, tails: seq<Path>)
    requires PlainKeys(Obj(prev)) && Unreserved(curr)
    requires Listed(listed, [], [], tails, TelemetryDelta.Cleared(prev, Obj(curr)))
    ensures Receive(prev, Envelope(Delta(prev, Obj(curr)), listed)) == curr
            <==> (if VERSION in curr then curr[VERSION] == VERSION_TWO else VERSION in prev)
  {
    hide Listed, TelemetryDelta.Cleared, Delta, PlainKeys;
    var delta, cleared := Delta(prev, Obj(curr)), TelemetryDelta.Cleared(prev, Obj(curr));
    ClearedReadBack(prev, curr, listed, tails);
    ListedPaths(listed, tails, cleared);
    UnreservedDelta(prev, curr);
    var body := delta[VERSION := VERSION_TWO];
    assert (delta - {TYPE, CLEARED}) == delta;
    RemoveAllIsPrune(Obj(Merge(prev, Obj(body))), tails);
    VersionMerged(prev, delta);
    VersionPruned(Merge(prev, Obj(delta)), cleared);
    PatchYieldsCurrent(prev, Obj(curr));
    ClearedTop(prev, Obj(curr), VERSION);
  }

  predicate Versioned(t: Tree) { VERSION in t && t[VERSION] == VERSION_TWO }

  /**
   * Whatever tree the other side holds, the delta from prev to curr brings it to curr exactly when every key at which
   * it differs is carried by the delta, down to nothing left behind, or listed as cleared.
   */
  lemma DeltaRepairs(prev: Tree, held: Tree, curr: Tree, listed: seq<string>, tails: seq<Path>)
    requires PlainKeys(Obj(prev)) && Unreserved(curr) && Versioned(curr) && Versioned(held)
    requires Listed(listed, [], [], tails, TelemetryDelta.Cleared(prev, Obj(curr)))
    ensures var t := Receive(held, Envelope(Delta(prev, Obj(curr)), listed));
      Versioned(t) && Obj(t) == Patched(prev, held, Obj(curr)) && (t == curr <==> Repaired(prev, held, Obj(curr)))
  {
    hide Listed, TelemetryDelta.Cleared, Delta, PlainKeys, Repaired;
    var delta, cleared := Delta(prev, Obj(curr)), TelemetryDelta.Cleared(prev, Obj(curr));
    ClearedReadBack(prev, curr, listed, tails);
    ListedPaths(listed, tails, cleared);
    UnreservedDelta(prev, curr);
    assert (delta - {TYPE, CLEARED}) == delta;
    RemoveAllIsPrune(Obj(Merge(held, Obj(delta[VERSION := VERSION_TWO]))), tails);
    VersionMerged(held, delta);
    VersionStays(prev, held, curr);
    assert Merge(held, Obj(delta))[VERSION := VERSION_TWO] == Merge(held, Obj(delta));
    ClearedTop(prev, Obj(curr), VERSION);
    PatchedExactly(prev, held, Obj(curr));
    PatchedAt(prev, held, Obj(curr), VERSION);
    VersionPruned(Merge(held, Obj(delta)), cleared);
  }

  lemma VersionStays(prev: Tree, held: Tree, curr: Tree)
    requires Versioned(curr) && Versioned(held)
    ensures Versioned(Merge(held, Obj(Delta(prev, Obj(curr)))))
  {
    MergedOver(prev, held, Obj(curr), VERSION);
  }

  lemma ListedPaths(listed: seq<string>, tails: seq<Path>, paths: set<Path>)
    requires Listed(listed, [], [], tails, paths)
    ensures (set t | t in tails) == paths
  {
  }

  lemma UnreservedDelta(prev: Tree, curr: Tree)
    requires Unreserved(curr)
    ensures Unreserved(Delta(prev, Obj(curr)))
  {
  }

  lemma VersionMerged(prev: Tree, delta: Tree)
    ensures Merge(prev, Obj(delta[VERSION := VERSION_TWO])) == Merge(prev, Obj(delta))[VERSION := VERSION_TWO]
  {
  }

  lemma VersionPruned(merged: Tree, paths: set<Path>)
    ensures var t := Prune(Obj(merged[VERSION := VERSION_TWO]), paths).fields;
      t == if [VERSION] in paths then Prune(Obj(merged), paths).fields
           else Prune(Obj(merged), paths).fields[VERSION := VERSION_TWO]
  {
  }

  // ---- The sender ----

  /** How a publish ends: acknowledged, or reported as failed with the message lost or delivered all the same. */
  datatype Delivery = Acknowledged | Lost | DeliveredUnacknowledged

  /** A telemetry tree as the collector builds it. */
  predicate WellFormed(t: Tree) { PlainKeys(Obj(t)) && Unreserved(t) && Versioned(t) }

  class Sender {
    var lastSentMap: Option<Tree>
    var lastSentState: string
    var flushesSinceFull: nat
    /** The tree the other side holds. */
    ghost var mirror: Tree
    /** A message reported as failed may have been applied since the last full snapshot that was acknowledged. */
    ghost var suspect: bool

    ghost predicate Valid()
      reads this
    {
      && flushesSinceFull <= FULL_RESYNC_EVERY
      && (lastSentMap.Some? ==>
            WellFormed(lastSentMap.value) && Versioned(mirror) && (!suspect ==> mirror == lastSentMap.value))
    }

    constructor (ghost remote: Tree)
      ensures Valid() && lastSentMap.None? && mirror == remote && !suspect && flushesSinceFull == 0
    {
      lastSentMap := None;
      lastSentState := "";
      flushesSinceFull := 0;
      mirror := remote;
      suspect := false;
    }

    /** The snapshot is full when asked for, first, due, or on a change of vehicle state. */
    predicate Full(state: string, forceFull: bool)
      reads this
    {
      forceFull || lastSentMap.None? || flushesSinceFull >= FULL_RESYNC_EVERY || state != lastSentState
    }

    /** publishTelemetrySmart, given how the publish ends; `curr` is None when the telemetry cannot be mapped. */
    method PublishSmart(curr: Option<Tree>, state: string, forceFull: bool, delivery: Delivery) returns (ok: bool)
      requires Valid() && (curr.Some? ==> WellFormed(curr.value))
      modifies this
      ensures Valid()
      ensures ok <==> curr.Some? && delivery.Acknowledged?
      ensures ok ==> lastSentMap == curr && lastSentState == state
      ensures !ok ==> lastSentMap == old(lastSentMap) && lastSentState == old(lastSentState)
      ensures !ok ==> flushesSinceFull == old(flushesSinceFull)
      ensures ok ==>
                if forceFull || old(lastSentMap).None? || old(flushesSinceFull) >= 20 || state != old(lastSentState)
                then
                  flushesSinceFull == 0 && !suspect && mirror == curr.value
                else
                  && flushesSinceFull == old(flushesSinceFull) + 1 && suspect == old(suspect)
                  && Patched(old(lastSentMap).value, old(mirror), Obj(curr.value)) == Obj(mirror)
                  && (mirror == curr.value <==> Repaired(old(lastSentMap).value, old(mirror), Obj(curr.value)))
      ensures !old(suspect) && !delivery.DeliveredUnacknowledged? ==> !suspect
      ensures delivery.Lost? ==> mirror == old(mirror)
      ensures delivery.DeliveredUnacknowledged? && curr.Some?
              && (forceFull || old(lastSentMap).None? || old(flushesSinceFull) >= 20 || state != old(lastSentState)) ==>
                mirror == curr.value && suspect
      ensures curr.None? ==> mirror == old(mirror) && suspect == old(suspect)
    {
      if curr.None? {
        return false;
      }
      if Full(state, forceFull) {
        ok := Transmit(curr.value, delivery);
        if !ok {
          return;
        }
        lastSentMap := curr;
        lastSentState := state;
        flushesSinceFull := 0;
        suspect := false;
        return;
      }
      var delta, cleared;
      ghost var tails;
      delta, cleared, tails := DiffMap("", lastSentMap.value, Obj(curr.value), [], []);
      EnvelopeExact(lastSentMap.value, curr.value, cleared, tails);
      DeltaRepairs(lastSentMap.value, mirror, curr.value, cleared, tails);
      ok := TransmitDelta(delta, cleared, delivery);
      if !ok {
        return;
      }
      lastSentMap := curr;
      lastSentState := state;
      flushesSinceFull := flushesSinceFull + 1;
    }

    /** Publishing a full snapshot replaces the mirror. */
    method Transmit(curr: Tree, delivery: Delivery) returns (ok: bool)
      modifies this`mirror, this`suspect
      ensures ok == delivery.Acknowledged?
      ensures mirror == (if delivery.Lost? then old(mirror) else curr)
      ensures suspect == (old(suspect) || delivery.DeliveredUnacknowledged?)
    {
      if !delivery.Lost? {
        mirror := curr;
      }
      suspect := suspect || delivery.DeliveredUnacknowledged?;
      return delivery.Acknowledged?;
    }

    /** Publishing a delta patches the mirror. */
    method TransmitDelta(delta: Tree, cleared: seq<string>, delivery: Delivery) returns (ok: bool)
      modifies this`mirror, this`suspect
      ensures ok == delivery.Acknowledged?
      ensures mirror == (if delivery.Lost? then old(mirror) else Receive(old(mirror), Envelope(delta, cleared)))
      ensures suspect == (old(suspect) || delivery.DeliveredUnacknowledged?)
    {
      if !delivery.Lost? {
        mirror := Receive(mirror, Envelope(delta, cleared));
      }
      suspect := suspect || delivery.DeliveredUnacknowledged?;
      return delivery.Acknowledged?;
    }
  }

  /** A run: what is published and how each publish ends. */
  datatype Send = Send(curr: Option<Tree>, state: string, forceFull: bool, delivery: Delivery)

  /** The mirror is what was sent last after every send of a run in which failures are never delivered. */
  method Session(sends: seq<Send>, ghost remote: Tree) returns (sender: Sender)
    requires forall k | 0 <= k < |sends| :: sends[k].curr.Some? ==> WellFormed(sends[k].curr.value)
    ensures fresh(sender) && sender.Valid() && sender.flushesSinceFull <= FULL_RESYNC_EVERY
    ensures (forall k | 0 <= k < |sends| :: !sends[k].delivery.DeliveredUnacknowledged?) && sender.lastSentMap.Some? ==>
              sender.mirror == sender.lastSentMap.value
  {
    sender := new Sender(remote);
    var i := 0;
    while i < |sends|
      invariant 0 <= i <= |sends| && sender.Valid() && fresh(sender)
      invariant (forall k | 0 <= k < i :: !sends[k].delivery.DeliveredUnacknowledged?) ==> !sender.suspect
    {
      var send := sends[i];
      var _ := sender.PublishSmart(send.curr, send.state, send.forceFull, send.delivery);
      i := i + 1;
    }
  }

  /**
   * A delta applied although its publish failed: while the telemetry stays what the sender believes the other side
   * holds, further deltas are empty and leave the other side as it is.
   */
  lemma DeliveredFailureLingers(prev: Tree, curr: Tree, listed: seq<string>, tails: seq<Path>)
    requires WellFormed(prev) && WellFormed(curr) && prev != curr
    requires Listed(listed, [], [], tails, TelemetryDelta.Cleared(prev, Obj(curr)))
    ensures var mirror := Receive(prev, Envelope(Delta(prev, Obj(curr)), listed));
      && mirror == curr
      && Receive(mirror, Envelope(Delta(prev, Obj(prev)), [])) == curr != prev
      && !Repaired(prev, mirror, Obj(prev))
  {
    hide Listed, Delta, TelemetryDelta.Cleared, PlainKeys, Receive, Envelope, Repaired;
    EnvelopeExact(prev, curr, listed, tails);
    NoChangeNoDelta(Obj(prev));
    IdleDeltaKeeps(curr);
    NothingListedAtAll();
    DeltaRepairs(prev, curr, prev, [], []);
  }

  lemma NothingListedAtAll()
    ensures Listed([], [], [], [], {})
  {
  }

  const ALTITUDE: string := "altitude"

  /** One leaf beside the version. */
  function OneLeaf(text: string): Tree { map[VERSION := VERSION_TWO, ALTITUDE := Leaf(text)] }

  lemma LeafRepaired(a: string, b: string, c: string)
    requires c != a
    ensures Repaired(OneLeaf(a), OneLeaf(b), Obj(OneLeaf(c))) && PlainKeys(Obj(OneLeaf(a)))
  {
  }

  /** A change of the very leaf the stray delta changed sets the other side right without a full snapshot. */
  lemma ChangedLeafRepairs(a: string, b: string, c: string)
    requires c != a
    ensures Repaired(OneLeaf(a), OneLeaf(b), Obj(OneLeaf(c)))
    ensures Receive(OneLeaf(b), Envelope(Delta(OneLeaf(a), Obj(OneLeaf(c))), [])) == OneLeaf(c)
  {
    hide Repaired, PlainKeys, Receive, Envelope, Delta, Patched, TelemetryDelta.Cleared, Listed;
    LeafRepaired(a, b, c);
    ClearedNone(a, c);
    NothingListedAtAll();
    DeltaRepairs(OneLeaf(a), OneLeaf(b), OneLeaf(c), [], []);
  }

  lemma ClearedNone(a: string, c: string)
    ensures TelemetryDelta.Cleared(OneLeaf(a), Obj(OneLeaf(c))) == {}
  {
  }

  lemma IdleDeltaKeeps(t: Tree)
    requires VERSION in t && t[VERSION] == VERSION_TWO
    ensures Receive(t, Envelope(map[], [])) == t
  {
    assert Merge(t, Obj(Envelope(map[], []).body)) == t;
  }
}
