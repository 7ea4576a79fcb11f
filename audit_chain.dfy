/** The hash-chained audit log of services/mockBackend.ts (`logEvent`).
    The log is kept newest first. Each entry stores the hash of a JSON payload
    that names the hash of the entry before it; the entry does not store that
    previous hash, nor the timestamp text the payload contains, so the chain is
    stated here over the log together with the sequence of those timestamps. */
module AuditChain {
  import opened Types
  import opened Js

  const GENESIS_HASH := "GENESIS_HASH"

  /** The hash the next entry is chained to: the head's, or the genesis constant. */
  function PrevHash(log: seq<AuditLogEntry>): (h: string) {
    if |log| > 0 then log[0].payloadHash else GENESIS_HASH
  }

  /** `JSON.stringify({ eventType, entityId, description, prevHash, ts })`, that is
      {"eventType":"…","entityId":"…","description":"…","prevHash":"…","ts":"…"}. */
  function Payload(eventType: string, entityId: string, description: string, prevHash: string, ts: string): (text: string) {
    Member("{\"eventType\":\"", eventType,
      Member(",\"entityId\":\"", entityId,
        Member(",\"description\":\"", description,
          Member(",\"prevHash\":\"", prevHash,
            Member(",\"ts\":\"", ts, "}")))))
  }

  /** The payload text determines every field it was built from. */
  lemma PayloadInjective(e1: string, i1: string, d1: string, p1: string, t1: string,
                         e2: string, i2: string, d2: string, p2: string, t2: string)
    requires Payload(e1, i1, d1, p1, t1) == Payload(e2, i2, d2, p2, t2)
    ensures e1 == e2 && i1 == i2 && d1 == d2 && p1 == p2 && t1 == t2
  {
    var r1 := Member(",\"ts\":\"", t1, "}");
    var r2 := Member(",\"ts\":\"", t2, "}");
    var q1 := Member(",\"prevHash\":\"", p1, r1);
    var q2 := Member(",\"prevHash\":\"", p2, r2);
    var s1 := Member(",\"description\":\"", d1, q1);
    var s2 := Member(",\"description\":\"", d2, q2);
    var u1 := Member(",\"entityId\":\"", i1, s1);
    var u2 := Member(",\"entityId\":\"", i2, s2);
    MemberInjective("{\"eventType\":\"", e1, e2, u1, u2);
    MemberInjective(",\"entityId\":\"", i1, i2, s1, s2);
    MemberInjective(",\"description\":\"", d1, d2, q1, q2);
    MemberInjective(",\"prevHash\":\"", p1, p2, r1, r2);
    MemberInjective(",\"ts\":\"", t1, t2, "}", "}");
  }

  /** The hash an entry stores, as a function of the five payload fields
      (eventType, entityId, description, prevHash, ts). */
  type EventDigest = (string, string, string, string, string) -> string

  /** `D` applied to the five fields; a name for `D`'s results that lets lemmas
      about the digest be used only where they are asked for. */
  function Digest(D: EventDigest, e: string, i: string, d: string, p: string, t: string): string {
    D(e, i, d, p, t)
  }

  /** `D` is `sha256(JSON.stringify(payload))` for the string hash `H`. */
  ghost predicate HashesPayload(D: EventDigest, H: string -> string) {
    forall e, i, d, p, t {:trigger Digest(D, e, i, d, p, t)} ::
      Digest(D, e, i, d, p, t) == H(Payload(e, i, d, p, t))
  }

  /** The digest of a collision-free string hash is collision-free. */
  lemma PayloadDigestInjective(D: EventDigest, H: string -> string)
    requires HashesPayload(D, H)
    requires forall x, y :: H(x) == H(y) ==> x == y
    ensures forall e1, i1, d1, p1, t1, e2, i2, d2, p2, t2 ::
      D(e1, i1, d1, p1, t1) == D(e2, i2, d2, p2, t2) ==> e1 == e2 && i1 == i2 && d1 == d2 && p1 == p2 && t1 == t2
  {
    forall e1, i1, d1, p1, t1, e2, i2, d2, p2, t2 | D(e1, i1, d1, p1, t1) == D(e2, i2, d2, p2, t2)
      ensures e1 == e2 && i1 == i2 && d1 == d2 && p1 == p2 && t1 == t2
    {
      assert H(Payload(e1, i1, d1, p1, t1)) == Digest(D, e1, i1, d1, p1, t1);
      assert H(Payload(e2, i2, d2, p2, t2)) == Digest(D, e2, i2, d2, p2, t2);
      PayloadInjective(e1, i1, d1, p1, t1, e2, i2, d2, p2, t2);
    }
  }

  /** The chain invariant: every entry's hash is the digest of its own payload,
      which names the hash of the (older) entry after it, or the genesis
      constant for the oldest one. `stamps[i]` is the timestamp text entry i hashed. */
  predicate Linked(D: EventDigest, log: seq<AuditLogEntry>, stamps: seq<string>)
    decreases |log|
  {
    |log| == |stamps| &&
    (log != [] ==>
      log[0].payloadHash == D(log[0].eventType, log[0].entityId, log[0].description, PrevHash(log[1..]), stamps[0]) &&
      Linked(D, log[1..], stamps[1..]))
  }

  /** The entry `logEvent` creates on top of `log`. */
  function NewEntry(D: EventDigest, log: seq<AuditLogEntry>, eventType: string, entityId: string,
                    description: string, clock: Clock): (entry: AuditLogEntry)
  {
    AuditLogEntry("log-" + NatToString(clock.millis), clock.millis, eventType, entityId,
                  D(eventType, entityId, description, PrevHash(log), clock.iso), description)
  }

  /** `logEvent`'s effect on the log: the new entry is put in front. */
  function Append(D: EventDigest, log: seq<AuditLogEntry>, eventType: string, entityId: string,
                  description: string, clock: Clock): (r: seq<AuditLogEntry>)
    ensures |r| == |log| + 1 && r[1..] == log
    ensures r[0].eventType == eventType && r[0].entityId == entityId && r[0].description == description
    ensures r[0].payloadHash == D(eventType, entityId, description, PrevHash(log), clock.iso)
  {
    [NewEntry(D, log, eventType, entityId, description, clock)] + log
  }

  /** Appending keeps the chain: the new head is hashed over its predecessor's hash. */
  lemma AppendLinked(D: EventDigest, log: seq<AuditLogEntry>, stamps: seq<string>, eventType: string,
                     entityId: string, description: string, clock: Clock)
    requires Linked(D, log, stamps)
    ensures Linked(D, Append(D, log, eventType, entityId, description, clock), [clock.iso] + stamps)
  {
    assert ([clock.iso] + stamps)[1..] == stamps;
  }

  /** The log as it stood before any number of later appends is still a chain. */
  lemma {:induction false} LinkedSuffix(D: EventDigest, log: seq<AuditLogEntry>, stamps: seq<string>, k: nat)
    requires Linked(D, log, stamps) && k <= |log|
    ensures Linked(D, log[k..], stamps[k..])
    decreases k
  {
    if k > 0 {
      LinkedSuffix(D, log[1..], stamps[1..], k - 1);
      assert log[1..][k - 1..] == log[k..];
      assert stamps[1..][k - 1..] == stamps[k..];
    }
  }

  /** Two digests that both hash the payload with `H` accept the same chains. */
  lemma {:induction false} LinkedSameHash(D1: EventDigest, D2: EventDigest, H: string -> string,
                                          log: seq<AuditLogEntry>, stamps: seq<string>)
    requires HashesPayload(D1, H) && HashesPayload(D2, H) && Linked(D1, log, stamps)
    ensures Linked(D2, log, stamps)
    decreases |log|
  {
    if log != [] {
      var e := log[0];
      assert Digest(D1, e.eventType, e.entityId, e.description, PrevHash(log[1..]), stamps[0]) ==
             Digest(D2, e.eventType, e.entityId, e.description, PrevHash(log[1..]), stamps[0]);
      LinkedSameHash(D1, D2, H, log[1..], stamps[1..]);
    }
  }

  /** Two entries record the same event with the same hash (ids and `timestamp`
      fields are outside the hashed payload). */
  predicate SameEvent(a: AuditLogEntry, b: AuditLogEntry) {
    a.eventType == b.eventType && a.entityId == b.entityId &&
    a.description == b.description && a.payloadHash == b.payloadHash
  }

  /** Tamper evidence: for a collision-free digest whose values are never the
      genesis constant, the head hash of a chain determines the whole chain —
      its length and every event and timestamp in it. */
  lemma {:induction false} ChainDetermined(D: EventDigest,
                                           log1: seq<AuditLogEntry>, stamps1: seq<string>,
                                           log2: seq<AuditLogEntry>, stamps2: seq<string>)
    requires forall e1, i1, d1, p1, t1, e2, i2, d2, p2, t2 ::
      D(e1, i1, d1, p1, t1) == D(e2, i2, d2, p2, t2) ==> e1 == e2 && i1 == i2 && d1 == d2 && p1 == p2 && t1 == t2
    requires forall e, i, d, p, t :: D(e, i, d, p, t) != GENESIS_HASH
    requires Linked(D, log1, stamps1) && Linked(D, log2, stamps2)
    requires PrevHash(log1) == PrevHash(log2)
    ensures |log1| == |log2| && stamps1 == stamps2
    ensures forall i :: 0 <= i < |log1| ==> SameEvent(log1[i], log2[i])
    decreases |log1|
  {
    assert (PrevHash(log1) == GENESIS_HASH) == (log1 == []);
    assert (PrevHash(log2) == GENESIS_HASH) == (log2 == []);
    if log1 != [] {
      ChainDetermined(D, log1[1..], stamps1[1..], log2[1..], stamps2[1..]);
      assert stamps1 == [stamps1[0]] + stamps1[1..] && stamps2 == [stamps2[0]] + stamps2[1..];
      forall i | 0 <= i < |log1|
        ensures SameEvent(log1[i], log2[i])
      {
        if i > 0 {
          assert log1[i] == log1[1..][i - 1] && log2[i] == log2[1..][i - 1];
        }
      }
    }
  }

  /** The same for the digest the log uses: `sha256` of the JSON payload, for
      a collision-free `sha256` that never yields the genesis constant. */
  lemma HashChainDetermined(D: EventDigest, H: string -> string,
                            log1: seq<AuditLogEntry>, stamps1: seq<string>,
                            log2: seq<AuditLogEntry>, stamps2: seq<string>)
    requires HashesPayload(D, H)
    requires forall x, y :: H(x) == H(y) ==> x == y
    requires forall x :: H(x) != GENESIS_HASH
    requires Linked(D, log1, stamps1) && Linked(D, log2, stamps2)
    requires PrevHash(log1) == PrevHash(log2)
    ensures |log1| == |log2| && stamps1 == stamps2
    ensures forall i :: 0 <= i < |log1| ==> SameEvent(log1[i], log2[i])
  {
    PayloadDigestInjective(D, H);
    forall e, i, d, p, t
      ensures D(e, i, d, p, t) != GENESIS_HASH
    {
      assert D(e, i, d, p, t) == Digest(D, e, i, d, p, t) == H(Payload(e, i, d, p, t));
    }
    ChainDetermined(D, log1, stamps1, log2, stamps2);
  }

  /** Tamper evidence without assuming `sha256` collision-free: two chains
      with the same head hash either agree (length, events, timestamps), or
      the lemma names two different payloads with the same hash, or a payload
      hashed to the genesis constant. */
  lemma {:induction false} ChainAgreesOrCollides(D: EventDigest, H: string -> string,
                                                 log1: seq<AuditLogEntry>, stamps1: seq<string>,
                                                 log2: seq<AuditLogEntry>, stamps2: seq<string>)
    returns (x: string, y: string)
    requires HashesPayload(D, H)
    requires Linked(D, log1, stamps1) && Linked(D, log2, stamps2)
    requires PrevHash(log1) == PrevHash(log2)
    ensures (|log1| == |log2| && stamps1 == stamps2 && forall i :: 0 <= i < |log1| ==> SameEvent(log1[i], log2[i]))
      || (x != y && H(x) == H(y)) || H(x) == GENESIS_HASH
    decreases |log1|
  {
    x, y := "", "";
    if log1 == [] && log2 == [] {
      return;
    }
    if log1 == [] || log2 == [] {
      var log := if log1 == [] then log2 else log1;
      var st := if log1 == [] then stamps2 else stamps1;
      var e := log[0];
      x := Payload(e.eventType, e.entityId, e.description, PrevHash(log[1..]), st[0]);
      assert Digest(D, e.eventType, e.entityId, e.description, PrevHash(log[1..]), st[0]) == H(x);
      return;
    }
    var a, b := log1[0], log2[0];
    var p1 := Payload(a.eventType, a.entityId, a.description, PrevHash(log1[1..]), stamps1[0]);
    var p2 := Payload(b.eventType, b.entityId, b.description, PrevHash(log2[1..]), stamps2[0]);
    assert Digest(D, a.eventType, a.entityId, a.description, PrevHash(log1[1..]), stamps1[0]) == H(p1);
    assert Digest(D, b.eventType, b.entityId, b.description, PrevHash(log2[1..]), stamps2[0]) == H(p2);
    if p1 != p2 {
      x, y := p1, p2;
      return;
    }
    PayloadInjective(a.eventType, a.entityId, a.description, PrevHash(log1[1..]), stamps1[0],
                     b.eventType, b.entityId, b.description, PrevHash(log2[1..]), stamps2[0]);
    x, y := ChainAgreesOrCollides(D, H, log1[1..], stamps1[1..], log2[1..], stamps2[1..]);
    if |log1[1..]| == |log2[1..]| && stamps1[1..] == stamps2[1..] &&
       forall i :: 0 <= i < |log1[1..]| ==> SameEvent(log1[1..][i], log2[1..][i])
    {
      assert stamps1 == [stamps1[0]] + stamps1[1..] && stamps2 == [stamps2[0]] + stamps2[1..];
      forall i | 0 <= i < |log1|
        ensures SameEvent(log1[i], log2[i])
      {
        if i > 0 {
          assert log1[i] == log1[1..][i - 1] && log2[i] == log2[1..][i - 1];
        }
      }
    }
  }
}
