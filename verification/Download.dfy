/**
 * The resumable self-update download: a payload file of partial bytes beside a download.json record, kept across
 * attempts, restarts and changed representations.  Every file operation may fail; `trace` holds every durable state,
 * so a crash leaves the cache in one of its elements.
 */
module Download {
  import opened Wrappers
  import opened DownloadHeaders

  type Bytes = seq<bv8>

  const CACHE_TTL: int := 7 * 24 * 3600 * SECOND
  const MAX_URL: nat := 8192
  const MAX_ETAG: nat := 1024

  /** What a download is for; the source stores a hash of it. */
  datatype Identity = Identity(url: string, algorithm: string, checksum: string)

  datatype Record = Record(
    identity: Option<Identity>, etag: string, url: string, zstd: bool, total: int, complete: bool, updated: int)

  const ZERO: Record := Record(None, "", "", false, 0, false, 0)

  datatype Stored = Stored(record: Option<Record>, payload: Option<Bytes>)

  /** How the body ends: at its end, or with a transport error. */
  datatype Ending = Clean | Broken

  /** A response; `url` is the final URL and `zstd` says whether its media type is application/zstd. */
  datatype Response = Response(
    status: int, etag: string, url: string, contentRange: string, contentLength: int, zstd: bool, encoding: string,
    retryAfter: string, untilDate: Option<int>, body: Bytes, ending: Ending)

  datatype Exchange = Answer(response: Response) | TransportError(retryable: bool)

  datatype Transfer = Transfer(binary: Option<Bytes>, state: Record, retry: bool, retryAfter: int)

  /** Why a download ends; the numbers are nanoseconds. */
  datatype End =
    | CacheTrouble | FromCache | Cancelled | Delivered | NotRetried | LastAttempt
    | BudgetSpent(left: int) | WaitTooLong(delay: int, left: int)

  predicate Transient(status: int) {
    status == 408 || status == 429 || status == 425 || (status >= 500 && status != 501 && status != 505)
  }

  function Max(a: int, b: int): int { if a < b then b else a }

  function Min(a: int, b: int): int { if a < b then a else b }

  function LowerChar(ch: char): char { if 'A' <= ch <= 'Z' then (ch as int + 32) as char else ch }

  function Lower(s: string): string { seq(|s|, i requires 0 <= i < |s| => LowerChar(s[i])) }

  function IdentityOf(url: string, algorithm: string, checksum: string): Identity {
    Identity(url, algorithm, Lower(checksum))
  }

  class Cache {
    /** The one representation a strong validator names, by final URL, entity tag and media type. */
    const rep: (string, string, bool) -> Bytes
    /** The executable a payload decodes to, if it does. */
    const decode: (Bytes, bool) -> Option<Bytes>
    /** The lower-case hexadecimal digest under an algorithm. */
    const digest: (string, Bytes) -> string

    var stored: Stored
    var trace: seq<Stored>
    /** No file operation has failed so far. */
    ghost var calm: bool

    constructor (rep: (string, string, bool) -> Bytes, decode: (Bytes, bool) -> Option<Bytes>,
                 digest: (string, Bytes) -> string)
      ensures Safe() && calm && stored == Stored(None, None) && this.rep == rep && this.decode == decode
      ensures this.digest == digest
    {
      this.rep := rep;
      this.decode := decode;
      this.digest := digest;
      stored := Stored(None, None);
      trace := [Stored(None, None)];
      calm := true;
    }

    /** The binary in a payload, when it decodes within the limit and has the expected digest. */
    function Verified(payload: Bytes, zstd: bool, algorithm: string, checksum: string): Option<Bytes> {
      match decode(payload, zstd)
      case None => None
      case Some(binary) =>
        if |binary| > MAX_BYTES || digest(algorithm, binary) != Lower(checksum) then None else Some(binary)
    }

    /**
     * A record under a strong validator sits beside a prefix of the representation it names, and a complete record
     * beside a payload of the recorded size that passes the checksum of the record's own identity.
     */
    predicate Sound(s: Stored) {
      s.record.Some? ==>
        var r := s.record.value;
        && s.payload.Some? && r.identity.Some?
        && (Strong(r.etag) ==> s.payload.value <= rep(r.url, r.etag, r.zstd))
        && (r.complete ==>
              && |s.payload.value| == r.total
              && Verified(s.payload.value, r.zstd, r.identity.value.algorithm, r.identity.value.checksum).Some?)
    }

    predicate Safe()
      reads this
    {
      trace != [] && stored == trace[|trace| - 1] && forall k | 0 <= k < |trace| :: Sound(trace[k])
    }

    /** The server keeps RFC 9110 for strong validators: one tag, one representation, and true ranges of it. */
    predicate Conforming(r: Response) {
      Strong(r.etag) ==>
        var whole := rep(r.url, r.etag, r.zstd);
        && (r.status == 200 ==> r.body <= whole)
        && (r.status == 206 && ParseContentRange(r.contentRange).Some? ==>
              var range := ParseContentRange(r.contentRange).value;
              range.end < |whole| && r.body <= whole[range.start..range.end + 1])
    }

    /** The state in memory may be resumed from: its strong tag names what the payload is a prefix of. */
    predicate Resumable(state: Record, identity: Identity)
      reads this
    {
      && !state.complete
      && (state.identity == Some(identity) && Strong(state.etag) && stored.payload.Some? ==>
            stored.payload.value <= rep(state.url, state.etag, state.zstd))
    }

    // ---- Durable operations ----

    method Become(next: Stored)
      requires Safe() && Sound(next)
      modifies this
      ensures Safe() && stored == next && calm == old(calm)
    {
      stored := next;
      trace := trace + [stored];
    }

    /** A file operation that may fail. */
    method Falter() returns (ok: bool)
      modifies this`calm
      ensures calm ==> old(calm) && ok
    {
      ok := *;
      if !ok {
        calm := false;
      }
    }

    /** A crash and a restart: the cache is left in one of the states it went through. */
    method Crash()
      requires Safe()
      modifies this
      ensures Safe() && stored in old(trace)
    {
      var k: nat :| k < |trace|;
      stored := trace[k];
      trace := [stored];
    }

    /** clear and reset: the record goes first, so no record is ever without its payload. */
    method Reset() returns (ok: bool)
      requires Safe()
      modifies this
      ensures Safe() && (ok ==> stored == Stored(None, None)) && (calm ==> old(calm) && ok)
    {
      ok := Falter();
      if !ok {
        return;
      }
      Become(stored.(record := None));
      ok := Falter();
      if ok {
        Become(stored.(payload := None));
      }
    }

    /** writeUpdateJSON: replaces the record whole; an error may come before or after that. */
    method WriteRecord(record: Record) returns (ok: bool)
      requires Safe() && Sound(stored.(record := Some(record)))
      modifies this
      ensures Safe() && stored.payload == old(stored).payload
      ensures stored.record == Some(record) || (!ok && stored.record == old(stored).record)
      ensures calm ==> old(calm) && ok
    {
      ok := Falter();
      if !ok {
        return;
      }
      Become(stored.(record := Some(record)));
      ok := Falter();
    }

    /** verifyUpdatePayload; reading may fail as well. */
    method VerifyPayload(zstd: bool, algorithm: string, checksum: string) returns (binary: Option<Bytes>)
      modifies this`calm
      ensures binary.Some? ==>
                stored.payload.Some? && binary == Verified(stored.payload.value, zstd, algorithm, checksum)
      ensures calm ==>
                && old(calm)
                && (stored.payload.Some? ==> binary == Verified(stored.payload.value, zstd, algorithm, checksum))
    {
      var readable := Falter();
      if !readable || stored.payload.None? {
        return None;
      }
      binary := Verified(stored.payload.value, zstd, algorithm, checksum);
    }

    /** Appends what arrives of the body, up to the limit, in chunks; false when the copy ends with an error. */
    method CopyBody(body: Bytes, ending: Ending, limit: int) returns (n: nat, clean: bool, diskError: bool)
      requires Safe() && stored.payload.Some? && stored.record.Some? && !stored.record.value.complete && limit >= 0
      requires Strong(stored.record.value.etag) ==>
                 stored.payload.value + body
                 <= rep(stored.record.value.url, stored.record.value.etag, stored.record.value.zstd)
      modifies this
      ensures Safe() && n <= |body| && n <= limit
      ensures stored == old(stored).(payload := Some(old(stored).payload.value + body[..n]))
      ensures calm ==> old(calm) && n == Min(|body|, limit) && clean == (|body| >= limit || ending.Clean?)
      ensures diskError ==> !calm
    {
      ghost var start := stored.payload.value;
      var take := if |body| < limit then |body| else limit;
      n := 0;
      diskError := false;
      assert start + body[..0] == start;
      while n < take
        invariant 0 <= n <= take && Safe()
        invariant stored == old(stored).(payload := Some(start + body[..n])) && (calm ==> old(calm))
      {
        var more: nat :| 0 < more <= take - n;
        assert body[..n + more] == body[..n] + body[n..n + more];
        assert start + body[..n + more] == start + body[..n] + body[n..n + more];
        assert start + body[..n + more] <= start + body;
        var written := Falter();
        if !written {
          return n, false, true;
        }
        Become(stored.(payload := Some(stored.payload.value + body[n..n + more])));
        n := n + more;
      }
      clean := |body| >= limit || ending.Clean?;
    }

    // ---- One attempt ----

    /** The bytes a request may resume after. */
    function KnownSize(state: Record, identity: Identity): nat
      reads this`stored
    {
      if stored.payload.Some? && state.identity == Some(identity) && Strong(state.etag) then |stored.payload.value|
      else 0
    }

    /** The request's Range: only under a strong validator of the same identity. */
    method Offset(state: Record, identity: Identity) returns (offset: nat)
      modifies this`calm
      ensures calm ==> old(calm) && offset == KnownSize(state, identity)
      ensures offset > 0 ==>
                && stored.payload.Some? && offset == |stored.payload.value|
                && state.identity == Some(identity) && Strong(state.etag)
    {
      offset := 0;
      var readable := Falter();
      var strong := StrongUpdateETag(state.etag);
      if readable && stored.payload.Some? && state.identity == Some(identity) && strong {
        offset := |stored.payload.value|;
      }
    }

    /** What a server answers to a request; nothing is assumed of it but RFC 9110 under strong validators. */
    method Fetch() returns (exchange: Exchange)
      ensures exchange.Answer? ==> Conforming(exchange.response)
    {
      exchange := *;
      if exchange.Answer? && !Conforming(exchange.response) {
        exchange := TransportError(false);
      }
    }

    method ProtocolFailure() returns (t: Transfer)
      requires Safe()
      modifies this
      ensures Safe() && t == Transfer(None, ZERO, t.retry, 0) && (t.retry ==> stored == Stored(None, None))
      ensures calm ==> old(calm) && t.retry
    {
      var ok := Reset();
      t := Transfer(None, ZERO, ok, 0);
    }

    /** A range past the end: the payload is all there is if the server says so and it passes the checksum. */
    predicate EndReached(before: Stored, after: Stored, state: Record, identity: Identity, r: Response, t: Transfer)
      requires before.payload.Some?
    {
      var size := |before.payload.value|;
      if "bytes */" <= r.contentRange && ParseInt(r.contentRange[8..]) == Some(size) && r.etag == state.etag
         && r.url == state.url
         && Verified(before.payload.value, state.zstd, identity.algorithm, identity.checksum).Some?
      then
        && !t.retry && t.binary == Verified(before.payload.value, state.zstd, identity.algorithm, identity.checksum)
        && after.payload == before.payload && after.record == Some(t.state) && t.state.complete
      else t == Transfer(None, ZERO, true, 0) && after == Stored(None, None)
    }

    /** A 416 answer to a resumption: the payload may already be the whole representation. */
    method Unsatisfiable(state: Record, identity: Identity, offset: nat, r: Response, now: int) returns (t: Transfer)
      requires Safe() && Resumable(state, identity) && offset > 0 && stored.payload.Some?
      requires offset == |stored.payload.value|
      requires state.identity == Some(identity) && Strong(state.etag)
      modifies this
      ensures Safe() && (t.retry ==> Resumable(t.state, identity))
      ensures t.binary.Some? ==> Good(t.binary.value, identity)
      ensures calm ==> old(calm) && EndReached(old(stored), stored, state, identity, r, t)
    {
      var total := if "bytes */" <= r.contentRange then ParseInt(r.contentRange[8..]) else None;
      if total == Some(offset) && r.etag == state.etag && r.url == state.url {
        var binary := VerifyPayload(state.zstd, identity.algorithm, identity.checksum);
        if binary.Some? {
          var complete := state.(total := offset, complete := true, updated := now);
          var ok := WriteRecord(complete);
          return Transfer(if ok then binary else None, complete, false, 0);
        }
      }
      t := ProtocolFailure();
    }

    /** The binary has the digest and the size the request asks for. */
    predicate Good(binary: Bytes, identity: Identity) {
      |binary| <= MAX_BYTES && digest(identity.algorithm, binary) == Lower(identity.checksum)
    }

    /** The answer continues the stored bytes: the very range asked for, of the same representation. */
    predicate Continues(state: Record, offset: nat, r: Response) {
      && offset > 0 && ParseContentRange(r.contentRange).Some?
      && var range := ParseContentRange(r.contentRange).value;
         && range.start == offset && (state.total >= 0 ==> range.total == state.total)
         && (r.contentLength >= 0 ==> r.contentLength == range.end - range.start + 1)
         && r.zstd == state.zstd && r.etag == state.etag && r.url == state.url
    }

    /** The record a whole representation starts with. */
    function Started(identity: Identity, r: Response, now: int): Record {
      Record(Some(identity), if |r.etag| > 1024 then "" else r.etag, r.url, r.zstd, r.contentLength, false, now)
    }

    /** What an answer without a usable body does; the cache stays as it was. */
    predicate Refused(state: Record, offset: nat, r: Response, t: Transfer) {
      if r.status == 408 || r.status == 425 || r.status == 429
         || (r.status >= 500 && r.status != 501 && r.status != 505)
      then
        && t.binary.None? && t.state == state && t.retryAfter == RetryAfter(r.retryAfter, r.untilDate)
        && (t.retry <==> Wanted(r.retryAfter, r.untilDate) <= 300 * SECOND)
      else t == Transfer(None, state, false, 0)
    }

    /** The answer has a body for us, or is a 416 to a resumption. */
    predicate Usable(offset: nat, r: Response) {
      || (r.status == 416 && offset > 0)
      || ((r.status == 200 || r.status == 206) && (r.encoding == "" || r.encoding == "identity") && |r.url| <= 8192)
    }

    /** What a usable answer does when no file operation fails. */
    predicate Used(before: Stored, after: Stored, state: Record, identity: Identity, offset: nat, r: Response, now: int,
                   t: Transfer)
      requires offset > 0 ==> before.payload.Some?
    {
      if r.status == 416 && offset > 0 then EndReached(before, after, state, identity, r, t)
      else if r.status == 200 then
        BodyStored(after, Started(identity, r, now), identity, [], r.contentLength, r.contentLength, r, t)
      else if Continues(state, offset, r) then
        var range := ParseContentRange(r.contentRange).value;
        BodyStored(after, state.(updated := now), identity, before.payload.value, range.total,
                   range.end - range.start + 1, r, t)
      else t == Transfer(None, ZERO, true, 0) && after == Stored(None, None)
    }

    /** downloadUpdateAttempt. */
    method Attempt(state: Record, identity: Identity, now: int)
      returns (t: Transfer, ghost exchange: Exchange, ghost offset: nat)
      requires Safe() && Resumable(state, identity)
      modifies this
      ensures Safe() && (t.retry ==> Resumable(t.state, identity))
      ensures t.binary.Some? ==> Good(t.binary.value, identity)
      ensures offset > 0 ==> old(stored).payload.Some? && offset == old(KnownSize(state, identity))
      ensures exchange.TransportError? ==> stored == old(stored) && t == Transfer(None, state, exchange.retryable, 0)
      ensures exchange.Answer? && !Usable(offset, exchange.response) ==>
                stored == old(stored) && Refused(state, offset, exchange.response, t)
      ensures calm ==> old(calm) && offset == old(KnownSize(state, identity))
      ensures calm && exchange.Answer? && Usable(offset, exchange.response) ==>
                Used(old(stored), stored, state, identity, offset, exchange.response, now, t)
    {
      hide BodyStored, EndReached, Continues;
      var size := Offset(state, identity);
      var answer := Fetch();
      offset, exchange := size, answer;
      if answer.TransportError? {
        t := Transfer(None, state, answer.retryable, 0);
        return;
      }
      var r := answer.response;
      DelayExact(r.retryAfter, r.untilDate);
      var retryAfter := RetryAfter(r.retryAfter, r.untilDate);
      if Transient(r.status) {
        t := Transfer(None, state, retryAfter <= PATIENCE, retryAfter);
        return;
      }
      if r.status == 416 && size > 0 {
        t := Unsatisfiable(state, identity, size, r, now);
        return;
      }
      if r.status != 200 && r.status != 206 {
        t := Transfer(None, state, false, 0);
        return;
      }
      if r.encoding != "" && r.encoding != "identity" {
        t := Transfer(None, state, false, 0);
        return;
      }
      if |r.url| > MAX_URL {
        t := Transfer(None, state, false, 0);
        return;
      }
      if r.status == 206 {
        t := Extend(state, identity, size, r, now);
      } else {
        t := Restart(identity, r, now);
      }
    }

    /** A 206 answer is appended if it continues what is stored; otherwise everything starts over. */
    method Extend(state: Record, identity: Identity, offset: nat, r: Response, now: int) returns (t: Transfer)
      requires Safe() && Resumable(state, identity) && Conforming(r) && r.status == 206
      requires offset > 0 ==> stored.payload.Some? && offset == |stored.payload.value|
      requires offset > 0 ==> state.identity == Some(identity) && Strong(state.etag)
      modifies this
      ensures Safe() && (t.retry ==> Resumable(t.state, identity))
      ensures t.binary.Some? ==> Good(t.binary.value, identity)
      ensures calm ==> old(calm) && Used(old(stored), stored, state, identity, offset, r, now, t)
    {
      hide BodyStored, Strong, Sound, Good, EndReached;
      var range := ParseContentRange(r.contentRange);
      if offset == 0 || range.None? || range.value.start != offset
         || (state.total >= 0 && range.value.total != state.total)
         || (r.contentLength >= 0 && r.contentLength != range.value.end - range.value.start + 1)
         || r.zstd != state.zstd || r.etag != state.etag || r.url != state.url
      {
        t := ProtocolFailure();
        return;
      }
      RangeExtends(stored.payload.value, rep(r.url, r.etag, r.zstd), range.value, r.body);
      t := Receive(state, identity, offset, range.value.total, range.value.end - range.value.start + 1, r, now);
    }

    /** A 200 answer replaces whatever is stored. */
    method Restart(identity: Identity, r: Response, now: int) returns (t: Transfer)
      requires Safe() && Conforming(r) && r.status == 200
      modifies this
      ensures Safe() && (t.retry ==> Resumable(t.state, identity))
      ensures t.binary.Some? ==> Good(t.binary.value, identity)
      ensures calm ==>
                && old(calm)
                && BodyStored(stored, Started(identity, r, now), identity, [], r.contentLength, r.contentLength, r, t)
    {
      hide BodyStored;
      var ok := Reset();
      if !ok {
        return Transfer(None, ZERO, false, 0);
      }
      var etag := if |r.etag| > MAX_ETAG then "" else r.etag;
      var begun := Record(Some(identity), etag, r.url, r.zstd, r.contentLength, false, now);
      t := Receive(begun, identity, 0, r.contentLength, r.contentLength, r, now);
    }

    /** A true range starting where the payload ends extends it within the representation. */
    static lemma RangeExtends(payload: Bytes, whole: Bytes, range: Range, body: Bytes)
      requires payload <= whole && 0 <= range.start == |payload| <= range.end < |whole|
      requires body <= whole[range.start..range.end + 1]
      ensures payload + body <= whole
    {
      assert whole[..|payload| + |body|] == payload + body;
    }

    /**
     * What becomes of a body after `base`: one that is too long is dropped; one that broke off or is shorter than
     * declared is kept with its record, to be resumed; a complete one is the answer if it passes the checksum.
     */
    predicate BodyStored(after: Stored, state: Record, identity: Identity, base: Bytes, total: int, segment: int,
                         r: Response, t: Transfer)
    {
      var whole := base + r.body;
      if total > MAX_WIRE_BYTES then !t.retry && t.binary.None?
      else if |whole| > MAX_WIRE_BYTES || (segment >= 0 && |r.body| > segment) then
        !t.retry && t.binary.None? && after == Stored(None, None)
      else if r.ending.Broken? || (total >= 0 && |whole| != total) then
        t == Transfer(None, state, true, 0) && after == Stored(Some(state), Some(whole))
      else
        && !t.retry && t.binary == Verified(whole, state.zstd, identity.algorithm, identity.checksum)
        && after == (if t.binary.None? then Stored(None, None)
                     else Stored(Some(state.(total := |whole|, complete := true)), Some(whole)))
    }

    /** The part of an attempt that stores the body: at the start of an empty file, or after the bytes already there. */
    method Receive(state: Record, identity: Identity, offset: nat, total: int, segment: int, r: Response, now: int)
      returns (t: Transfer)
      requires Safe() && state.identity == Some(identity) && !state.complete
      requires if offset > 0 then stored.payload.Some? && offset == |stored.payload.value|
               else stored == Stored(None, None)
      requires Strong(state.etag) ==>
                 (if offset > 0 then stored.payload.value else []) + r.body <= rep(state.url, state.etag, state.zstd)
      modifies this
      ensures Safe() && (t.retry ==> Resumable(t.state, identity))
      ensures t.binary.Some? ==> Good(t.binary.value, identity)
      ensures calm ==>
                && old(calm)
                && BodyStored(stored, state.(updated := now), identity,
                              if offset > 0 then old(stored).payload.value else [], total, segment, r, t)
    {
      var stop := Transfer(None, state, false, 0);
      if total > MAX_WIRE_BYTES {
        return stop;
      }
      var ok := Falter();
      if !ok {
        return stop;
      }
      if offset == 0 {
        Become(stored.(payload := Some([])));
      }
      ghost var base := stored.payload.value;
      assert Strong(state.etag) ==> base + r.body <= rep(state.url, state.etag, state.zstd);
      var current := state.(updated := now);
      PrefixOfSum(base, r.body);
      ok := WriteRecord(current);
      if !ok {
        return stop;
      }
      var limit := MAX_WIRE_BYTES - offset + 1;
      if segment >= 0 {
        limit := Min(limit, segment + 1);
      }
      var n, clean, diskError;
      n, clean, diskError := CopyBody(r.body, r.ending, Max(limit, 0));
      PrefixOfSum(base, r.body);
      assert base + r.body[..n] <= base + r.body;
      assert n == |r.body| ==> base + r.body[..n] == base + r.body;
      t := Conclude(current, identity, offset, total, segment, n, clean, diskError);
      if calm { JudgedStored(stored, current, identity, base, total, segment, r, n, clean, offset, t); }
    }

    /** What becomes of the stored bytes after a copy of n of them. */
    predicate Judged(whole: Bytes, after: Stored, state: Record, identity: Identity, total: int, segment: int, n: nat,
                     clean: bool, t: Transfer)
    {
      if |whole| > MAX_WIRE_BYTES || (segment >= 0 && n > segment) then
        !t.retry && t.binary.None? && after == Stored(None, None)
      else if !clean || (total >= 0 && |whole| != total) then
        t == Transfer(None, state, true, 0) && after == Stored(Some(state), Some(whole))
      else
        && !t.retry && t.binary == Verified(whole, state.zstd, identity.algorithm, identity.checksum)
        && after == (if t.binary.None? then Stored(None, None)
                     else Stored(Some(state.(total := |whole|, complete := true)), Some(whole)))
    }

    /** The copy stops one byte beyond what is allowed, so it tells a body that is too long from one that fits. */
    lemma JudgedStored(after: Stored, state: Record, identity: Identity, base: Bytes, total: int, segment: int,
                       r: Response, n: nat, clean: bool, offset: nat, t: Transfer)
      requires |base| == offset && total <= MAX_WIRE_BYTES
      requires var limit := Max(if segment >= 0 then Min(MAX_WIRE_BYTES - offset + 1, segment + 1)
                                else MAX_WIRE_BYTES - offset + 1, 0);
        n == Min(|r.body|, limit) && clean == (|r.body| >= limit || r.ending.Clean?)
      requires Judged(base + r.body[..n], after, state, identity, total, segment, n, clean, t)
      ensures BodyStored(after, state, identity, base, total, segment, r, t)
    {
      if n == |r.body| { assert base + r.body[..n] == base + r.body; }
    }

    /** After the copy: what arrived is synced and judged. */
    method Conclude(state: Record, identity: Identity, offset: nat, total: int, segment: int, n: nat, clean: bool,
                    diskError: bool) returns (t: Transfer)
      requires Safe() && state.identity == Some(identity) && !state.complete && stored.record == Some(state)
      requires stored.payload.Some? && |stored.payload.value| == offset + n && (diskError ==> !calm)
      requires Strong(state.etag) ==> stored.payload.value <= rep(state.url, state.etag, state.zstd)
      modifies this
      ensures Safe() && (t.retry ==> Resumable(t.state, identity))
      ensures t.binary.Some? ==> Good(t.binary.value, identity)
      ensures calm ==>
                && old(calm)
                && Judged(old(stored).payload.value, stored, state, identity, total, segment, n, clean, t)
    {
      var stop := Transfer(None, state, false, 0);
      var ok := Falter();
      if !ok {
        return stop;
      }
      if n + offset > MAX_WIRE_BYTES || (segment >= 0 && n > segment) {
        ok := Reset();
        return stop;
      }
      if !clean {
        return Transfer(None, state, !diskError, 0);
      }
      if total >= 0 && n + offset != total {
        return Transfer(None, state, true, 0);
      }
      var complete := state.(total := n + offset, complete := true);
      var binary := VerifyPayload(complete.zstd, identity.algorithm, identity.checksum);
      if binary.None? {
        ok := Reset();
        return stop;
      }
      ok := WriteRecord(complete);
      t := Transfer(if ok then binary else None, complete, false, 0);
    }

    static lemma PrefixOfSum(a: Bytes, b: Bytes)
      ensures a <= a + b
    {
    }

    // ---- A whole download ----

    /** The cache is for this request, at most a week old, and its payload fits the limit and the recorded sizes. */
    static predicate Fits(s: Stored, identity: Identity, now: int) {
      && s.record.Some? && s.payload.Some?
      && var r, size := s.record.value, |s.payload.value|;
         && r.identity == Some(identity) && now <= r.updated + 7 * 24 * 3600 * SECOND && size <= MAX_WIRE_BYTES
         && (0 <= r.total ==> size <= r.total) && (r.complete ==> size == r.total)
    }

    /** readUpdateJSON and the checks that decide whether the cache may be used at all. */
    method LoadState(identity: Identity, now: int) returns (state: Record, ok: bool)
      requires Safe()
      modifies this
      ensures Safe()
      ensures ok && state.complete ==>
                && state.identity == Some(identity) && stored.payload.Some?
                && Verified(stored.payload.value, state.zstd, identity.algorithm, identity.checksum).Some?
      ensures ok && !state.complete ==> Resumable(state, identity)
      ensures ok && state.identity.Some? ==>
                stored == old(stored) && stored.record == Some(state) && Fits(stored, identity, now)
      ensures calm ==>
                && old(calm) && ok
                && (if Fits(old(stored), identity, now) then stored == old(stored) && Some(state) == stored.record
                    else stored == Stored(None, None) && state == ZERO)
    {
      ok := true;
      var readable := Falter();
      var regular := Falter();
      if !readable || stored.record.None? || stored.payload.None? || !regular || Stale(stored, identity, now) {
        ok := Reset();
        return ZERO, ok;
      }
      state := stored.record.value;
    }

    /** The cached record is for something else, too old, or does not fit the payload's size. */
    static predicate Stale(s: Stored, identity: Identity, now: int)
      requires s.record.Some? && s.payload.Some?
    {
      var r, size := s.record.value, |s.payload.value|;
      || r.identity != Some(identity) || now - r.updated > CACHE_TTL || size > MAX_WIRE_BYTES
      || (r.total >= 0 && size > r.total) || (r.complete && size != r.total)
    }

    /**
     * How a download may end after these attempts: every one but the last was to be retried, and after one that was,
     * it goes on unless it was cancelled, was the last allowed, or the budget or the wait before the next ran out.
     */
    predicate EndsRightly(end: End, made: seq<Transfer>, attempts: nat, binary: Option<Bytes>) {
      && |made| <= attempts && (forall k | 0 <= k < |made| - 1 :: made[k].retry && made[k].binary.None?)
      && match end
         case CacheTrouble => made == [] && binary.None?
         case FromCache => made == []
         case Cancelled => binary.None?
         case Delivered => made != [] && made[|made| - 1].binary == binary && binary.Some?
         case NotRetried => made != [] && !made[|made| - 1].retry && binary.None? && made[|made| - 1].binary.None?
         case LastAttempt => |made| == attempts && binary.None?
         case BudgetSpent(left) => left <= 0 && |made| < attempts && binary.None?
         case WaitTooLong(delay, left) =>
           && made != [] && made[|made| - 1].retry && binary.None?
           && left <= delay && made[|made| - 1].retryAfter <= delay
    }

    /**
     * downloadSelfUpdateBinary after its arguments were checked.  Whatever the servers answer, the cache stays sound at
     * every durable step, and a binary is returned only with the digest the request asked for.
     */
    method Fulfil(url: string, algorithm: string, checksum: string, attempts: nat, budget: int)
      returns (binary: Option<Bytes>, ghost made: seq<Transfer>, ghost end: End)
      requires Safe()
      modifies this
      ensures Safe() && EndsRightly(end, made, attempts, binary)
      ensures binary.Some? ==> |binary.value| <= MAX_BYTES && digest(algorithm, binary.value) == Lower(checksum)
      ensures calm ==> old(calm) && !end.CacheTrouble?
    {
      LowerTwice(checksum);
      var identity := IdentityOf(url, algorithm, checksum);
      made := [];
      var start: int := *;
      var deadline := start + budget;
      var state, ok := LoadState(identity, start);
      if !ok {
        return None, made, CacheTrouble;
      }
      if state.complete {
        binary := VerifyPayload(state.zstd, identity.algorithm, identity.checksum);
        if binary.None? {
          ok := Reset();
        }
        var cancelled: bool := *;
        return if cancelled then None else binary, made, FromCache;
      }
      var attempt := 0;
      while attempt < attempts
        invariant Safe() && Resumable(state, identity) && attempt == |made| <= attempts && (calm ==> old(calm))
        invariant forall k | 0 <= k < |made| :: made[k].retry && made[k].binary.None?
      {
        var cancelled: bool := *;
        var now: int := *;
        if cancelled {
          return None, made, Cancelled;
        }
        if deadline - now <= 0 {
          return None, made, BudgetSpent(deadline - now);
        }
        var t, _, _ := Attempt(state, identity, now);
        made := made + [t];
        attempt := attempt + 1;
        cancelled := *;
        if t.binary.Some? {
          return if cancelled then None else t.binary, made, if cancelled then Cancelled else Delivered;
        }
        if !t.retry {
          return None, made, NotRetried;
        }
        if attempt == attempts {
          return None, made, LastAttempt;
        }
        state := t.state;
        var jitter: int := *;
        now := *;
        if Max(jitter, t.retryAfter) >= deadline - now {
          return None, made, WaitTooLong(Max(jitter, t.retryAfter), deadline - now);
        }
        if cancelled {
          return None, made, Cancelled;
        }
      }
      return None, made, LastAttempt;
    }

    static lemma LowerTwice(s: string)
      ensures Lower(Lower(s)) == Lower(s)
    {
      assert forall i | 0 <= i < |s| :: Lower(Lower(s))[i] == Lower(s)[i];
    }

    /**
     * Any number of downloads for any identities, each possibly cut short by a crash: the cache is sound at the end,
     * and so at every durable step on the way.
     */
    method Lifetime(requests: seq<(string, string, string)>)
      requires Safe()
      modifies this
      ensures Safe()
    {
      var i := 0;
      while i < |requests|
        invariant Safe()
      {
        var (url, algorithm, checksum) := requests[i];
        var _, _, _ := Fulfil(url, algorithm, checksum, 6, 2 * 3600 * SECOND);
        var crashed: bool := *;
        if crashed {
          Crash();
        }
        i := i + 1;
      }
    }
  }
}
