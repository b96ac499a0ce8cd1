/**
 The hash-chained event stream of one case: appending, verification, what the chain exposes and what it does not,
 and appenders that race each other with stale stream heads. The digest is any function, injective where it matters.
 */
module EventChain {
  import opened Prelude

  type Hash = string

  function Zeros(n: nat): Hash {
    if n == 0 then "" else Zeros(n - 1) + "0"
  }

  const GENESIS: Hash := Zeros(64)

  /** The caller's part of an event; `body` is its type with the serialized payload. */
  datatype Content<+P> = Content(eventId: string, stepName: string, actor: string, createdAt: string, body: P)

  /** Everything the digest covers. */
  datatype Envelope<+P> = Envelope(content: Content<P>, caseId: string, sequence: int, previous: Hash)

  datatype Event<+P> = Event(envelope: Envelope<P>, hash: Hash)

  datatype Head = Head(sequence: int, hash: Hash)

  ghost predicate Injective<P(!new)>(digest: Envelope<P> -> Hash) {
    forall a, b :: digest(a) == digest(b) ==> a == b
  }

  function HashBefore<P>(events: seq<Event<P>>, i: nat): Hash
    requires i <= |events|
  {
    if i == 0 then GENESIS else events[i - 1].hash
  }

  function HeadOf<P>(events: seq<Event<P>>): Head {
    Head(|events|, HashBefore(events, |events|))
  }

  /** Event i continues the stream: its sequence and previous hash are next in line and its digest matches. */
  predicate LinkedAt<P>(events: seq<Event<P>>, digest: Envelope<P> -> Hash, i: nat)
    requires i < |events|
  {
    && events[i].envelope.sequence == i + 1
    && events[i].envelope.previous == HashBefore(events, i)
    && events[i].hash == digest(events[i].envelope)
  }

  predicate Chained<P>(events: seq<Event<P>>, digest: Envelope<P> -> Hash) {
    forall i :: 0 <= i < |events| ==> LinkedAt(events, digest, i)
  }

  predicate AllZeros(h: Hash) {
    |h| == 64 && forall i :: 0 <= i < 64 ==> h[i] == '0'
  }

  lemma {:induction false} ZerosAreZeros(n: nat)
    ensures |Zeros(n)| == n && forall i :: 0 <= i < n ==> Zeros(n)[i] == '0'
  {
    if n > 0 { ZerosAreZeros(n - 1); }
  }

  lemma GenesisIsZeros(h: Hash)
    ensures AllZeros(h) <==> h == GENESIS
  {
    hide Zeros;
    ZerosAreZeros(64);
  }

  /** Event i is number i + 1, starts from 64 zeros or from the digest of the event before it, and carries its own. */
  predicate ContinuesAt<P>(events: seq<Event<P>>, digest: Envelope<P> -> Hash, i: nat)
    requires i < |events|
  {
    var e := events[i].envelope;
    && e.sequence == i + 1 && events[i].hash == digest(e)
    && (if i == 0 then AllZeros(e.previous) else e.previous == digest(events[i - 1].envelope))
  }

  /** Linking to the recorded hash before is linking to the digest before, because that was checked, too. */
  lemma ChainedExactly<P>(events: seq<Event<P>>, digest: Envelope<P> -> Hash)
    ensures Chained(events, digest) <==> forall i :: 0 <= i < |events| ==> ContinuesAt(events, digest, i)
  {
    hide AllZeros;
    if events != [] { GenesisIsZeros(events[0].envelope.previous); }
    if Chained(events, digest) {
      forall i | 0 <= i < |events| ensures ContinuesAt(events, digest, i) {
        assert LinkedAt(events, digest, i) && (i > 0 ==> LinkedAt(events, digest, i - 1));
      }
    } else {
      var i :| 0 <= i < |events| && !LinkedAt(events, digest, i);
      if i > 0 {
        assert ContinuesAt(events, digest, i - 1) ==> !ContinuesAt(events, digest, i);
      } else {
        assert !ContinuesAt(events, digest, i);
      }
    }
  }

  datatype Verification = Intact | Broken(sequence: int)

  /** Walks the stream in sequence order and stops at the first event that does not continue it. */
  method VerifyEventChain<P>(events: seq<Event<P>>, digest: Envelope<P> -> Hash) returns (v: Verification)
    ensures v == Intact <==> Chained(events, digest)
    ensures v.Broken? ==> 1 <= v.sequence <= |events|
    ensures v.Broken? ==> !LinkedAt(events, digest, v.sequence - 1) && Chained(events[..v.sequence - 1], digest)
    ensures v == Verify(events, digest)
  {
    var previousHash, expectedSequence := GENESIS, 1;
    for i := 0 to |events|
      invariant previousHash == HashBefore(events, i) && expectedSequence == i + 1
      invariant forall j :: 0 <= j < i ==> LinkedAt(events, digest, j)
      invariant Verify(events, digest) == VerifyFrom(events, digest, i)
    {
      var event := events[i];
      if event.envelope.sequence != expectedSequence || event.envelope.previous != previousHash {
        PrefixChained(events, digest, i);
        return Broken(expectedSequence);
      }
      if digest(event.envelope) != event.hash {
        PrefixChained(events, digest, i);
        return Broken(event.envelope.sequence);
      }
      previousHash := event.hash;
      expectedSequence := expectedSequence + 1;
    }
    v := Intact;
  }

  function VerifyFrom<P>(events: seq<Event<P>>, digest: Envelope<P> -> Hash, i: nat): Verification
    requires i <= |events|
    decreases |events| - i
  {
    if i == |events| then Intact
    else if LinkedAt(events, digest, i) then VerifyFrom(events, digest, i + 1)
    else Broken(i + 1)
  }

  function Verify<P>(events: seq<Event<P>>, digest: Envelope<P> -> Hash): Verification {
    VerifyFrom(events, digest, 0)
  }

  lemma PrefixChained<P>(events: seq<Event<P>>, digest: Envelope<P> -> Hash, k: nat)
    requires k <= |events| && forall j :: 0 <= j < k ==> LinkedAt(events, digest, j)
    ensures Chained(events[..k], digest)
  {
    forall j | 0 <= j < k ensures LinkedAt(events[..k], digest, j) {
      assert LinkedAt(events, digest, j);
    }
  }

  lemma {:induction false} VerifyFindsBreak<P>(events: seq<Event<P>>, digest: Envelope<P> -> Hash, i: nat, at: nat)
    requires i <= at < |events|
    requires forall j :: i <= j < at ==> LinkedAt(events, digest, j)
    requires !LinkedAt(events, digest, at)
    ensures VerifyFrom(events, digest, i) == Broken(at + 1)
    decreases at - i
  {
    if i < at { VerifyFindsBreak(events, digest, i + 1, at); }
  }

  /** Two verified streams that end in the same hash are the same stream, in every hashed field. */
  lemma {:induction false} SameTipSameStream<P(!new)>(a: seq<Event<P>>, b: seq<Event<P>>, digest: Envelope<P> -> Hash)
    requires Injective(digest) && Chained(a, digest) && Chained(b, digest)
    requires a != [] && b != [] && a[|a| - 1].hash == b[|b| - 1].hash
    ensures a == b
    decreases |a|
  {
    hide Zeros;
    var n := |a| - 1;
    assert LinkedAt(a, digest, n) && LinkedAt(b, digest, |b| - 1);
    assert a[n] == b[n];
    if n > 0 {
      PrefixChained(a, digest, n);
      PrefixChained(b, digest, n);
      SameTipSameStream(a[..n], b[..n], digest);
      assert a == a[..n] + [a[n]] && b == b[..n] + [b[n]];
    }
  }

  /** Rewriting the content of one event without its hash is reported at exactly that event. */
  lemma TamperedContentIsReported<P(!new)>(events: seq<Event<P>>, digest: Envelope<P> -> Hash, i: nat,
                                           forged: Envelope<P>)
    requires Injective(digest) && Chained(events, digest) && i < |events| && forged != events[i].envelope
    ensures Verify(events[i := events[i].(envelope := forged)], digest) == Broken(i + 1)
  {
    var tampered := events[i := events[i].(envelope := forged)];
    assert LinkedAt(events, digest, i);
    forall j | 0 <= j < i ensures LinkedAt(tampered, digest, j) { assert LinkedAt(events, digest, j); }
    VerifyFindsBreak(tampered, digest, 0, i);
  }

  /** Dropping one event is exposed exactly when a later one remains: verification never looks at the stream head. */
  lemma DeletionIsSeenUnlessLast<P>(events: seq<Event<P>>, digest: Envelope<P> -> Hash, i: nat)
    requires Chained(events, digest) && i < |events|
    ensures Verify(events[..i] + events[i + 1..], digest) == if i == |events| - 1 then Intact else Broken(i + 1)
  {
    var rest := events[..i] + events[i + 1..];
    forall j | 0 <= j < i ensures LinkedAt(rest, digest, j) { assert LinkedAt(events, digest, j); }
    if i < |events| - 1 {
      assert LinkedAt(events, digest, i + 1) && rest[i] == events[i + 1];
      VerifyFindsBreak(rest, digest, 0, i);
    } else {
      VerifyAccepts(rest, digest, 0);
    }
  }

  lemma {:induction false} VerifyAccepts<P>(events: seq<Event<P>>, digest: Envelope<P> -> Hash, i: nat)
    requires i <= |events| && Chained(events, digest)
    ensures VerifyFrom(events, digest, i) == Intact
    decreases |events| - i
  {
    if i < |events| {
      assert LinkedAt(events, digest, i);
      VerifyAccepts(events, digest, i + 1);
    }
  }

  /** Compared with the recorded head, a verified stream can only be the whole one. */
  lemma HeadPinsTheStream<P(!new)>(events: seq<Event<P>>, found: seq<Event<P>>, digest: Envelope<P> -> Hash)
    requires Injective(digest) && Chained(events, digest) && Chained(found, digest)
    ensures HeadOf(found) == HeadOf(events) <==> found == events
  {
    if HeadOf(found) == HeadOf(events) && found != [] {
      SameTipSameStream(found, events, digest);
    }
  }

  // ---------------------------------------------------------------------------------------------------------------
  // Racing appenders
  // ---------------------------------------------------------------------------------------------------------------

  /** The rows one transaction writes from the head it was handed, each linked to the one before. */
  function Extend<P>(head: Head, caseId: string, contents: seq<Content<P>>, digest: Envelope<P> -> Hash)
    : (rows: seq<Event<P>>)
    ensures |rows| == |contents|
    decreases |contents|
  {
    if contents == [] then []
    else
      var envelope := Envelope(contents[0], caseId, head.sequence + 1, head.hash);
      var event := Event(envelope, digest(envelope));
      [event] + Extend(Head(head.sequence + 1, event.hash), caseId, contents[1..], digest)
  }

  /** `seen`: the head each open session holds, which may be older than the durable one. */
  datatype Stream<P> = Stream(events: seq<Event<P>>, head: Head, seen: map<string, Head>)

  datatype Act<P> = ReadHead(session: string) | Commit(session: string, contents: seq<Content<P>>)

  /** UNIQUE(case_id, sequence): some row's sequence is already taken. */
  predicate Collides<P>(events: seq<Event<P>>, rows: seq<Event<P>>) {
    exists i, j :: 0 <= i < |events| && 0 <= j < |rows| && events[i].envelope.sequence == rows[j].envelope.sequence
  }

  function Last(head: Head, n: nat, rows: seq<Event>): Head {
    if rows == [] then head else Head(head.sequence + n, rows[|rows| - 1].hash)
  }

  /** A commit either writes all its rows and its head, or hits the unique key and leaves nothing. */
  function Do<P>(s: Stream<P>, caseId: string, digest: Envelope<P> -> Hash, act: Act<P>): Stream<P> {
    match act
    case ReadHead(w) => s.(seen := s.seen[w := s.head])
    case Commit(w, contents) =>
      if w !in s.seen then s
      else
        var rows := Extend(s.seen[w], caseId, contents, digest);
        if Collides(s.events, rows) then s
        else
          var head := if rows == [] then s.head else Last(s.seen[w], |rows|, rows);
          s.(events := s.events + rows, head := head, seen := if rows == [] then s.seen else s.seen[w := head])
  }

  function DoAll<P>(s: Stream<P>, caseId: string, digest: Envelope<P> -> Hash, acts: seq<Act<P>>): Stream<P>
    decreases |acts|
  {
    if acts == [] then s else DoAll(Do(s, caseId, digest, acts[0]), caseId, digest, acts[1..])
  }

  ghost predicate StreamInv<P>(s: Stream<P>, caseId: string, digest: Envelope<P> -> Hash) {
    && Chained(s.events, digest)
    && s.head == HeadOf(s.events)
    && (forall i :: 0 <= i < |s.events| ==> s.events[i].envelope.caseId == caseId)
    && (forall w :: w in s.seen ==>
         0 <= s.seen[w].sequence <= |s.events| && s.seen[w].hash == HashBefore(s.events, s.seen[w].sequence))
  }

  lemma OneMoreLinks<P>(events: seq<Event<P>>, event: Event<P>, digest: Envelope<P> -> Hash)
    requires Chained(events, digest) && LinkedAt(events + [event], digest, |events|)
    ensures Chained(events + [event], digest)
  {
    forall i | 0 <= i < |events| ensures LinkedAt(events + [event], digest, i) { assert LinkedAt(events, digest, i); }
  }

  lemma {:induction false} ExtendLinks<P>(events: seq<Event<P>>, head: Head, caseId: string,
                                          contents: seq<Content<P>>, digest: Envelope<P> -> Hash)
    requires Chained(events, digest) && head == HeadOf(events)
    ensures var rows := Extend(head, caseId, contents, digest);
      && Chained(events + rows, digest) && Last(head, |rows|, rows) == HeadOf(events + rows)
    decreases |contents|
  {
    hide Chained;
    if contents == [] {
      assert events + [] == events;
    } else {
      var rows := Extend(head, caseId, contents, digest);
      var next := events + [rows[0]];
      OneMoreLinks(events, rows[0], digest);
      ExtendLinks(next, HeadOf(next), caseId, contents[1..], digest);
      assert next + rows[1..] == events + rows;
    }
  }

  lemma {:induction false} ExtendCarries<P>(head: Head, caseId: string, contents: seq<Content<P>>,
                                            digest: Envelope<P> -> Hash)
    ensures var rows := Extend(head, caseId, contents, digest);
      forall i :: 0 <= i < |rows| ==> rows[i].envelope.caseId == caseId && rows[i].envelope.content == contents[i]
    decreases |contents|
  {
    if contents != [] {
      var rows := Extend(head, caseId, contents, digest);
      ExtendCarries(Head(head.sequence + 1, rows[0].hash), caseId, contents[1..], digest);
    }
  }

  lemma {:induction false} ExtendSequences<P>(head: Head, caseId: string, contents: seq<Content<P>>,
                                              digest: Envelope<P> -> Hash, j: nat)
    requires j < |contents|
    ensures Extend(head, caseId, contents, digest)[j].envelope.sequence == head.sequence + 1 + j
    decreases |contents|
  {
    if j > 0 {
      var rows := Extend(head, caseId, contents, digest);
      ExtendSequences(Head(head.sequence + 1, rows[0].hash), caseId, contents[1..], digest, j - 1);
    }
  }

  /** The unique key turns away exactly the appends that start from a head which is no longer current. */
  lemma CollidesIffStale<P>(s: Stream<P>, caseId: string, digest: Envelope<P> -> Hash, w: string,
                            contents: seq<Content<P>>)
    requires StreamInv(s, caseId, digest) && w in s.seen && contents != []
    ensures Collides(s.events, Extend(s.seen[w], caseId, contents, digest)) <==> s.seen[w] != s.head
  {
    var rows := Extend(s.seen[w], caseId, contents, digest);
    var k := s.seen[w].sequence;
    if k < |s.events| {
      ExtendSequences(s.seen[w], caseId, contents, digest, 0);
      assert LinkedAt(s.events, digest, k);
      assert s.events[k].envelope.sequence == rows[0].envelope.sequence;
    } else {
      forall i, j | 0 <= i < |s.events| && 0 <= j < |rows|
        ensures s.events[i].envelope.sequence != rows[j].envelope.sequence
      {
        assert LinkedAt(s.events, digest, i);
        ExtendSequences(s.seen[w], caseId, contents, digest, j);
      }
    }
  }

  lemma AppendKeepsHashes<P>(events: seq<Event<P>>, rows: seq<Event<P>>)
    ensures forall k: nat :: k <= |events| ==> HashBefore(events + rows, k) == HashBefore(events, k)
  {
  }

  /** A commit lands, with its events in order, exactly when its session still holds the current head. */
  lemma CommitLandsExactly<P>(s: Stream<P>, caseId: string, digest: Envelope<P> -> Hash, w: string,
                              contents: seq<Content<P>>)
    requires StreamInv(s, caseId, digest) && w in s.seen
    ensures var next := Do(s, caseId, digest, Commit(w, contents));
      if s.seen[w] != s.head || contents == [] then next.events == s.events && next.head == s.head
      else
        && |next.events| == |s.events| + |contents| && s.events <= next.events
        && (forall i :: 0 <= i < |contents| ==> next.events[|s.events| + i].envelope.content == contents[i])
        && next.head.sequence == |next.events| && next.seen[w] == next.head
  {
    var rows := Extend(s.seen[w], caseId, contents, digest);
    if contents == [] {
      assert s.events + rows == s.events;
    } else {
      CollidesIffStale(s, caseId, digest, w, contents);
      ExtendCarries(s.seen[w], caseId, contents, digest);
    }
  }

  lemma StreamStep<P>(s: Stream<P>, caseId: string, digest: Envelope<P> -> Hash, act: Act<P>)
    requires StreamInv(s, caseId, digest)
    ensures StreamInv(Do(s, caseId, digest, act), caseId, digest)
    ensures s.events <= Do(s, caseId, digest, act).events
  {
    if act.Commit? && act.session in s.seen {
      var rows := Extend(s.seen[act.session], caseId, act.contents, digest);
      if act.contents == [] {
        assert s.events + rows == s.events;
      } else {
        CollidesIffStale(s, caseId, digest, act.session, act.contents);
        if !Collides(s.events, rows) {
          ExtendLinks(s.events, s.head, caseId, act.contents, digest);
          ExtendCarries(s.head, caseId, act.contents, digest);
          AppendKeepsHashes(s.events, rows);
        }
      }
    }
  }

  /** Whatever the sessions hold and however they interleave, the stream stays contiguous, linked and append-only. */
  lemma {:induction false} StreamAlwaysChained<P>(s: Stream<P>, caseId: string, digest: Envelope<P> -> Hash,
                                                  acts: seq<Act<P>>)
    requires StreamInv(s, caseId, digest)
    ensures StreamInv(DoAll(s, caseId, digest, acts), caseId, digest)
    ensures s.events <= DoAll(s, caseId, digest, acts).events
    decreases |acts|
  {
    if acts != [] {
      StreamStep(s, caseId, digest, acts[0]);
      StreamAlwaysChained(Do(s, caseId, digest, acts[0]), caseId, digest, acts[1..]);
    }
  }

  /** The same from the empty stream. */
  lemma RacingAppendersKeepTheChain<P>(caseId: string, digest: Envelope<P> -> Hash, acts: seq<Act<P>>)
    ensures var s := DoAll(Stream([], Head(0, GENESIS), map[]), caseId, digest, acts);
      Verify(s.events, digest) == Intact && s.head == HeadOf(s.events)
  {
    var start: Stream<P> := Stream([], Head(0, GENESIS), map[]);
    StreamAlwaysChained(start, caseId, digest, acts);
    VerifyAccepts(DoAll(start, caseId, digest, acts).events, digest, 0);
  }
}
