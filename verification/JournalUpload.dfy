/** The journal upload loop: entries are appended to a batch, batches are uploaded, and a cursor records progress. */
module JournalUpload {
  import opened Octets
  import opened Wrappers
  import opened JournalFormat
  import opened JournalStream

  type Cursor = string

  datatype UploadResult = Accepted | SessionInvalid | Rejected

  /** One call of the server with the batch it was given. */
  datatype Upload = Upload(batch: Bytes, result: UploadResult)

  /** What one turn of the loop meets; `due` says the flush interval has passed. */
  datatype Turn =
    | Cancelled
    | ReaderFailed
    | Nothing(due: bool)
    | EntryFailed
    | Entry(fields: Fields, cursor: Cursor, due: bool)

  /** An entry that was read, with the order its fields were written in. */
  datatype Taken = Taken(order: seq<Field>, fields: Fields, cursor: Cursor)

  function EncodeTaken(taken: seq<Taken>): Bytes {
    if taken == [] then [] else EncodeTaken(taken[..|taken| - 1]) + EncodeRecord(taken[|taken| - 1].order)
  }

  /** The entries as they came from the reader. */
  function Seen(taken: seq<Taken>): seq<(Fields, Cursor)> {
    seq(|taken|, i requires 0 <= i < |taken| => (taken[i].fields, taken[i].cursor))
  }

  function EntriesOf(turns: seq<Turn>): seq<(Fields, Cursor)> {
    if turns == [] then []
    else
      var last := turns[|turns| - 1];
      EntriesOf(turns[..|turns| - 1]) + if last.Entry? then [(last.fields, last.cursor)] else []
  }

  /**
   * Entry k is the one with this cursor, and its encoding ends within the first n bytes after a lead of `lead`
   * bytes.
   */
  predicate EndsWithin(taken: seq<Taken>, k: nat, lead: nat, n: nat) {
    k < |taken| && lead + |EncodeTaken(taken[..k + 1])| <= n
  }

  /** A cursor that names an entry whose encoding ends within the first n bytes. */
  ghost predicate NamesWithin(taken: seq<Taken>, cursor: Cursor, lead: nat, n: nat) {
    exists k: nat :: EndsWithin(taken, k, lead, n) && taken[k].cursor == cursor
  }

  lemma NamesKept(taken: seq<Taken>, more: Taken, cursor: Cursor, lead: nat, n: nat, m: nat)
    requires n <= m
    ensures NamesWithin(taken, cursor, lead, n) ==>
              NamesWithin(taken + [more], cursor, lead, m) && NamesWithin(taken, cursor, lead, m)
  {
    if NamesWithin(taken, cursor, lead, n) {
      var k: nat :| EndsWithin(taken, k, lead, n) && taken[k].cursor == cursor;
      assert (taken + [more])[..k + 1] == taken[..k + 1];
      assert EndsWithin(taken + [more], k, lead, m) && EndsWithin(taken, k, lead, m);
    }
  }

  lemma TakenLast(taken: seq<Taken>, more: Taken, lead: nat)
    ensures EncodeTaken(taken + [more]) == EncodeTaken(taken) + EncodeRecord(more.order)
    ensures NamesWithin(taken + [more], more.cursor, lead, lead + |EncodeTaken(taken + [more])|)
  {
    var all := taken + [more];
    assert all[..|taken|] == taken && all[..|taken| + 1] == all;
    assert EndsWithin(all, |taken|, lead, lead + |EncodeTaken(all)|);
  }

  class Uploader {
    const batchSize: nat

    var buf: Bytes
    /** The last non-empty cursor read, "" when there is none. */
    var lastCursor: Cursor
    /** The cursor this run has written to its state file. */
    var written: Option<Cursor>
    /** Every batch the server accepted, in order. */
    ghost var acked: Bytes
    /** The record announcing a lost cursor, if this run started with one. */
    ghost var synthetic: Bytes
    ghost var taken: seq<Taken>
    ghost var uploads: seq<Upload>

    /** Nothing is lost or reordered, and the written cursor names an acknowledged entry. */
    ghost predicate Valid()
      reads this
    {
      && acked + buf == synthetic + EncodeTaken(taken)
      && (forall k | 0 <= k < |taken| :: Enumerates(taken[k].order, taken[k].fields))
      && (lastCursor != "" ==> NamesWithin(taken, lastCursor, |synthetic|, |synthetic| + |EncodeTaken(taken)|))
      && (written.Some? ==> NamesWithin(taken, written.value, |synthetic|, |acked|))
    }

    /** The start of Run: a synthetic record when the stored cursor cannot be resolved. */
    constructor (batchSize: nat, warning: Option<Fields>)
      ensures Valid() && taken == [] && acked == [] && written.None? && uploads == [] && this.batchSize == batchSize
      ensures warning.None? ==> synthetic == []
      ensures warning.Some? ==> exists order :: Enumerates(order, warning.value) && synthetic == EncodeRecord(order)
    {
      this.batchSize := batchSize;
      buf, lastCursor, written, acked, synthetic, taken, uploads := [], "", None, [], [], [], [];
      new;
      if warning.Some? {
        var buffer := new Buffer();
        ghost var order := buffer.WriteRecord(warning.value);
        buf := buffer.bytes;
        synthetic := buf;
      }
    }

    /**
     * The flush closure; false when the session has become invalid.  A batch is uploaded whole; one that is accepted
     * is acknowledged before its cursor may be written, and a dead session also forgets the stored cursor.
     */
    method Flush() returns (goOn: bool)
      requires Valid()
      modifies this
      ensures Valid() && taken == old(taken) && synthetic == old(synthetic) && lastCursor == old(lastCursor)
      ensures old(buf) == [] ==>
                goOn && uploads == old(uploads) && buf == [] && acked == old(acked) && written == old(written)
      ensures old(buf) != [] ==>
                && |uploads| == |old(uploads)| + 1 && uploads[..|old(uploads)|] == old(uploads)
                && var upload := uploads[|old(uploads)|];
                   && upload.batch == old(buf) && goOn == (upload.result != SessionInvalid)
                   && match upload.result
                      case Accepted =>
                        && buf == [] && acked == old(acked) + old(buf)
                        && (written == old(written) || (written == Some(lastCursor) && lastCursor != ""))
                      case SessionInvalid =>
                        buf == old(buf) && acked == old(acked) && (written == old(written) || written.None?)
                      case Rejected => buf == old(buf) && acked == old(acked) && written == old(written)
    {
      hide NamesWithin, EncodeTaken, Enumerates;
      if buf == [] {
        return true;
      }
      var result: UploadResult := *;
      uploads := uploads + [Upload(buf, result)];
      match result {
        case SessionInvalid =>
          var cleared: bool := *;
          if cleared {
            written := None;
          }
          return false;
        case Rejected => return true;
        case Accepted =>
          acked := acked + buf;
          if lastCursor != "" {
            var wrote: bool := *;
            if wrote {
              written := Some(lastCursor);
            }
          }
          buf := [];
          assert acked + buf == old(acked) + old(buf);
          if written.Some? && written == old(written) {
            NamesKept(taken, Taken([], map[], ""), written.value, |synthetic|, |old(acked)|, |acked|);
          }
          return true;
      }
    }

    method Take(fields: Fields, cursor: Cursor)
      requires Valid()
      modifies this
      ensures Valid() && acked == old(acked) && synthetic == old(synthetic) && written == old(written)
      ensures Seen(taken) == Seen(old(taken)) + [(fields, cursor)] && uploads == old(uploads)
      ensures lastCursor == if cursor != "" then cursor else old(lastCursor)
      ensures old(buf) <= buf && buf != []
    {
      hide Enumerates, NamesWithin, EncodeTaken, EncodeRecord;
      var buffer := new Buffer();
      ghost var order := buffer.WriteRecord(fields);
      ghost var entry := Taken(order, fields, cursor);
      ghost var lead := |synthetic|;
      TakenLast(taken, entry, lead);
      if lastCursor != "" {
        NamesKept(taken, entry, lastCursor, lead, lead + |EncodeTaken(taken)|, lead + |EncodeTaken(taken + [entry])|);
      }
      if written.Some? { NamesKept(taken, entry, written.value, lead, |acked|, |acked|); }
      if cursor != "" {
        lastCursor := cursor;
      }
      Regroup(acked, buf, synthetic, EncodeTaken(taken), EncodeRecord(order));
      assert buffer.bytes == EncodeRecord(order);
      NeverEmpty(order);
      buf := buf + buffer.bytes;
      taken := taken + [entry];
    }

    static lemma NeverEmpty(order: seq<Field>)
      ensures EncodeRecord(order) != []
    {
    }

    static lemma Regroup(acked: Bytes, buf: Bytes, synthetic: Bytes, encoded: Bytes, more: Bytes)
      requires acked + buf == synthetic + encoded
      ensures acked + (buf + more) == synthetic + (encoded + more)
    {
      assert acked + (buf + more) == (acked + buf) + more;
      assert synthetic + (encoded + more) == (synthetic + encoded) + more;
    }

    /** The calls of the server go on until one says the session is invalid. */
    static predicate Uploads(before: seq<Upload>, after: seq<Upload>, goOn: bool) {
      && before <= after
      && (forall k | |before| <= k < |after| :: after[k].result == SessionInvalid ==> k == |after| - 1 && !goOn)
      && (!goOn ==> |before| < |after| && after[|after| - 1].result == SessionInvalid)
    }

    /** One entry: it joins the batch, which is uploaded when it is large enough or due. */
    method TakeEntry(fields: Fields, cursor: Cursor, due: bool) returns (goOn: bool, ghost grown: Bytes)
      requires Valid()
      modifies this
      ensures Valid() && synthetic == old(synthetic) && old(acked) <= acked
      ensures Seen(taken) == Seen(old(taken)) + [(fields, cursor)]
      ensures Uploads(old(uploads), uploads, goOn)
      ensures |uploads| == |old(uploads)| + (if |grown| >= batchSize || due then 1 else 0)
      ensures (|grown| >= batchSize || due) ==> uploads[|old(uploads)|].batch == grown
      ensures old(buf) <= grown && grown != [] && (uploads == old(uploads) ==> buf == grown)
    {
      hide Valid;
      goOn := true;
      Take(fields, cursor);
      grown := buf;
      if |buf| >= batchSize || due {
        goOn := Flush();
      }
    }

    static lemma NoEntries()
      ensures EntriesOf([]) == []
    {
    }

    static lemma NextEntries(turns: seq<Turn>, i: nat)
      requires i < |turns|
      ensures EntriesOf(turns[..i + 1])
              == EntriesOf(turns[..i]) + if turns[i].Entry? then [(turns[i].fields, turns[i].cursor)] else []
    {
      assert turns[..i + 1][..i] == turns[..i];
    }

    static lemma UploadsTrans(a: seq<Upload>, b: seq<Upload>, c: seq<Upload>, goOn: bool)
      requires Uploads(a, b, true) && Uploads(b, c, goOn)
      ensures Uploads(a, c, goOn)
    {
    }

    /** One turn of the loop; it ends when cancelled, on a reader error or a dead session. */
    method Handle(turn: Turn) returns (goOn: bool)
      requires Valid()
      modifies this
      ensures Valid() && synthetic == old(synthetic) && old(acked) <= acked
      ensures Seen(taken) == Seen(old(taken)) + if turn.Entry? then [(turn.fields, turn.cursor)] else []
      ensures turn.ReaderFailed? || turn.EntryFailed? || (turn.Nothing? && !turn.due) ==>
                uploads == old(uploads) && buf == old(buf)
      ensures turn.Cancelled? || (turn.Nothing? && turn.due) ==>
                if old(buf) == [] then uploads == old(uploads)
                else |uploads| == |old(uploads)| + 1 && uploads[|old(uploads)|].batch == old(buf)
      ensures turn.Cancelled? || turn.ReaderFailed? ==> !goOn && old(uploads) <= uploads
      ensures !turn.Cancelled? && !turn.ReaderFailed? ==> Uploads(old(uploads), uploads, goOn)
      ensures turn.Entry? && uploads == old(uploads) ==> |buf| < batchSize && !turn.due
      ensures turn.Entry? ==> old(buf) <= if uploads == old(uploads) then buf else uploads[|old(uploads)|].batch
    {
      hide Valid, EntriesOf;
      goOn := true;
      match turn {
        case Cancelled =>
          var _ := Flush();
          goOn := false;
        case ReaderFailed => goOn := false;
        case Nothing(due) =>
          if due {
            goOn := Flush();
          }
        case EntryFailed =>
        case Entry(fields, cursor, due) =>
          ghost var grown;
          goOn, grown := TakeEntry(fields, cursor, due);
      }
    }

    /** The loop of Run over any sequence of turns; `processed` counts the turns whose entries were taken. */
    method Run(turns: seq<Turn>) returns (ghost processed: nat)
      requires Valid()
      modifies this
      ensures Valid() && synthetic == old(synthetic) && old(acked) <= acked
      ensures processed <= |turns| && Seen(taken) == Seen(old(taken)) + EntriesOf(turns[..processed])
      ensures processed < |turns| ==>
                processed > 0
                && (turns[processed - 1].Cancelled? || turns[processed - 1].ReaderFailed?
                    || (uploads != [] && uploads[|uploads| - 1].result == SessionInvalid))
    {
      hide Valid, EntriesOf, Seen;
      processed := 0;
      var i := 0;
      assert turns[..0] == [];
      NoEntries();
      while i < |turns|
        invariant 0 <= i == processed <= |turns| && Valid() && synthetic == old(synthetic) && old(acked) <= acked
        invariant Seen(taken) == Seen(old(taken)) + EntriesOf(turns[..i])
        invariant Uploads(old(uploads), uploads, true)
      {
        NextEntries(turns, i);
        ghost var before := uploads;
        var goOn := Handle(turns[i]);
        i := i + 1;
        processed := i;
        if !goOn {
          return;
        }
        UploadsTrans(old(uploads), before, uploads, true);
      }
    }
  }
}
