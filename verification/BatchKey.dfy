/** The batch key: internal/canon/batch.go. */
module BatchKey {
  // SHA-256 is modelled as a wrapper around its input, so two digests are equal
  // exactly when their inputs are; every statement below is about those inputs.

  import opened Bytes
  import opened Record
  import opened Descriptor

  datatype Digest = Sha256(preimage: seq<byte>)

  // "icelake/batch/v1\n" and "icelake/schema-fp/v1\n".
  const BATCH_DOMAIN: seq<byte> :=
    [105, 99, 101, 108, 97, 107, 101, 47, 98, 97, 116, 99, 104, 47, 118, 49, 10]
  const FINGERPRINT_DOMAIN: seq<byte> :=
    [105, 99, 101, 108, 97, 107, 101, 47, 115, 99, 104, 101, 109, 97, 45, 102, 112, 47, 118, 49, 10]

  // A slice's length fits the program's signed 64-bit int.
  type Payloads = p: seq<seq<byte>> | |p| < TWO_63

  function Fingerprint(d: Shape): Digest
    requires ValidShape(d)
  {
    Sha256(FINGERPRINT_DOMAIN + Serialized(d))
  }

  predicate Addressable(b: seq<byte>) { |b| <= MAX_VALUE_BYTES }

  function Chunk(b: seq<byte>): (r: seq<byte>)
    requires Addressable(b)
    ensures |r| == 4 + |b|
  {
    PutUint32(|b|) + b
  }

  function Chunks(ps: seq<seq<byte>>, i: nat): seq<byte>
    requires i <= |ps| && forall k | i <= k < |ps| :: Addressable(ps[k])
    decreases |ps| - i
  {
    if i == |ps| then [] else Chunk(ps[i]) + Chunks(ps, i + 1)
  }

  function Preimage(namespace: seq<byte>, table: seq<byte>, d: Shape, ps: Payloads): seq<byte>
    requires ValidShape(d) && Addressable(namespace) && Addressable(table) && Addressable(Serialized(d))
    requires forall k | 0 <= k < |ps| :: Addressable(ps[k])
  {
    BATCH_DOMAIN
    + (Chunk(namespace) + (Chunk(table) + (Chunk(Serialized(d)) + (PutUint64(|ps|) + Chunks(ps, 0)))))
  }

  // When a batch has a key at all: it has records, and every length fits its prefix.
  predicate Hashable(namespace: seq<byte>, table: seq<byte>, d: Shape, ps: Payloads)
    requires ValidShape(d)
  {
    && ps != []
    && Addressable(namespace) && Addressable(table) && Addressable(Serialized(d))
    && forall k | 0 <= k < |ps| :: Addressable(ps[k])
  }

  function BatchHashSpec(namespace: seq<byte>, table: seq<byte>, d: Shape, ps: Payloads): Result<Digest>
    requires ValidShape(d)
  {
    if ps == [] then Err(Error(EmptyBatch, 0))
    else if Hashable(namespace, table, d, ps) then Ok(Sha256(Preimage(namespace, table, d, ps)))
    else Err(Error(BadValue, 0))
  }

  /** A running hash: what has been fed so far. */
  class Hasher {
    var fed: seq<byte>

    constructor ()
      ensures fed == []
    {
      fed := [];
    }

    method Write(b: seq<byte>)
      modifies this
      ensures fed == old(fed) + b
    {
      fed := fed + b;
    }

    method WriteChunk(b: seq<byte>)
      requires Addressable(b)
      modifies this
      ensures fed == old(fed) + Chunk(b)
    {
      Write(PutUint32(|b|));
      Write(b);
      assert fed == old(fed) + (PutUint32(|b|) + b);
    }

    function Sum(): Digest
      reads this
    {
      Sha256(fed)
    }
  }

  lemma Grouping(a: seq<byte>, b: seq<byte>, c: seq<byte>, d: seq<byte>, e: seq<byte>)
    ensures forall x: seq<byte> :: [] + a + b + c + d + e + x == a + (b + (c + (d + (e + x))))
  {
  }

  /** Feeds the hash chunk by chunk, refusing the first length its prefix cannot hold. */
  method BatchHash(namespace: seq<byte>, table: seq<byte>, d: Shape, ps: Payloads) returns (r: Result<Digest>)
    requires ValidShape(d)
    ensures r == BatchHashSpec(namespace, table, d, ps)
  {
    hide Chunk, PutUint64, Serialized;
    if |ps| == 0 {
      return Err(Error(EmptyBatch, 0));
    }
    var h := new Hasher();
    h.Write(BATCH_DOMAIN);
    if |namespace| > MAX_VALUE_BYTES {
      return Err(Error(BadValue, 0));
    }
    h.WriteChunk(namespace);
    if |table| > MAX_VALUE_BYTES {
      return Err(Error(BadValue, 0));
    }
    h.WriteChunk(table);
    var encoded := EncodeDescriptor(d.fields);
    if |encoded| > MAX_VALUE_BYTES {
      return Err(Error(BadValue, 0));
    }
    h.WriteChunk(encoded);
    h.Write(PutUint64(|ps|));
    ghost var head := h.fed;
    Grouping(BATCH_DOMAIN, Chunk(namespace), Chunk(table), Chunk(encoded), PutUint64(|ps|));
    for i := 0 to |ps|
      invariant fresh(h) && forall k | 0 <= k < i :: Addressable(ps[k])
      invariant (forall k | i <= k < |ps| :: Addressable(ps[k])) ==> h.fed + Chunks(ps, i) == head + Chunks(ps, 0)
    {
      if |ps[i]| > MAX_VALUE_BYTES {
        return Err(Error(BadValue, 0));
      }
      ghost var before := h.fed;
      h.WriteChunk(ps[i]);
      if forall k | i + 1 <= k < |ps| :: Addressable(ps[k]) {
        assert before + (Chunk(ps[i]) + Chunks(ps, i + 1)) == h.fed + Chunks(ps, i + 1);
      }
    }
    assert h.fed + [] == h.fed;
    assert h.fed ==
           [] + BATCH_DOMAIN + Chunk(namespace) + Chunk(table) + Chunk(encoded) + PutUint64(|ps|) + Chunks(ps, 0);
    return Ok(h.Sum());
  }

  // ------------------------------------------------------------- the theorems

  // A length prefix makes a chunk self-delimiting.
  lemma ChunkSplits(a: seq<byte>, x: seq<byte>, b: seq<byte>, y: seq<byte>)
    requires Addressable(a) && Addressable(b) && Chunk(a) + x == Chunk(b) + y
    ensures a == b && x == y
  {
    hide PutUint32, GetUint32;
    var s := Chunk(a) + x;
    assert s[..4] == PutUint32(|a|) && s[..4] == PutUint32(|b|);
    Uint32ReadsBack(|a|);
    Uint32ReadsBack(|b|);
    assert s[4..4 + |a|] == a && s[4..4 + |b|] == b;
    assert s[4 + |a|..] == x && s[4 + |b|..] == y;
  }

  lemma {:induction false} ChunksSplit(ps: seq<seq<byte>>, qs: seq<seq<byte>>, i: nat)
    requires |ps| == |qs| && i <= |ps|
    requires forall k | i <= k < |ps| :: Addressable(ps[k]) && Addressable(qs[k])
    requires Chunks(ps, i) == Chunks(qs, i)
    ensures ps[i..] == qs[i..]
    decreases |ps| - i
  {
    if i < |ps| {
      ChunkSplits(ps[i], Chunks(ps, i + 1), qs[i], Chunks(qs, i + 1));
      ChunksSplit(ps, qs, i + 1);
      assert ps[i..] == [ps[i]] + ps[i + 1..] && qs[i..] == [qs[i]] + qs[i + 1..];
    }
  }

  lemma PrefixCancels(p: seq<byte>, x: seq<byte>, q: seq<byte>, y: seq<byte>)
    requires |p| == |q| && p + x == q + y
    ensures p == q && x == y
  {
    assert (p + x)[..|p|] == p && (q + y)[..|q|] == q;
    assert (p + x)[|p|..] == x && (q + y)[|q|..] == y;
  }

  /** Equal keys mean the same table, the same shape and the same records in the
      same order: nothing in the input can slide across a boundary. */
  lemma KeyDeterminesBatch(n1: seq<byte>, t1: seq<byte>, d1: Shape, ps1: Payloads,
                           n2: seq<byte>, t2: seq<byte>, d2: Shape, ps2: Payloads)
    requires ValidShape(d1) && ValidShape(d2)
    requires BatchHashSpec(n1, t1, d1, ps1).Ok? && BatchHashSpec(n1, t1, d1, ps1) == BatchHashSpec(n2, t2, d2, ps2)
    ensures n1 == n2 && t1 == t2 && d1 == d2 && ps1 == ps2
  {
    hide Chunk, Chunks, Serialized, PutUint64;
    var tail1, tail2 := PutUint64(|ps1|) + Chunks(ps1, 0), PutUint64(|ps2|) + Chunks(ps2, 0);
    var s1, s2 := Chunk(Serialized(d1)) + tail1, Chunk(Serialized(d2)) + tail2;
    PrefixCancels(BATCH_DOMAIN, Chunk(n1) + (Chunk(t1) + s1), BATCH_DOMAIN, Chunk(n2) + (Chunk(t2) + s2));
    ChunkSplits(n1, Chunk(t1) + s1, n2, Chunk(t2) + s2);
    ChunkSplits(t1, s1, t2, s2);
    ChunkSplits(Serialized(d1), tail1, Serialized(d2), tail2);
    SerializedDeterminesShape(d1, d2);
    PrefixCancels(PutUint64(|ps1|), Chunks(ps1, 0), PutUint64(|ps2|), Chunks(ps2, 0));
    Uint64ReadsBack(|ps1|);
    Uint64ReadsBack(|ps2|);
    ChunksSplit(ps1, ps2, 0);
    assert ps1[0..] == ps1 && ps2[0..] == ps2;
  }

  /** A batch key is never a schema fingerprint, whatever either is taken over. */
  lemma DomainsAreSeparate(namespace: seq<byte>, table: seq<byte>, d: Shape, ps: Payloads, e: Shape)
    requires ValidShape(d) && ValidShape(e) && BatchHashSpec(namespace, table, d, ps).Ok?
    ensures BatchHashSpec(namespace, table, d, ps).value != Fingerprint(e)
  {
    var batch := Preimage(namespace, table, d, ps);
    var shape := FINGERPRINT_DOMAIN + Serialized(e);
    assert batch[8] == BATCH_DOMAIN[8] && shape[8] == FINGERPRINT_DOMAIN[8];
  }

  /** Equal fingerprints mean equal shapes. */
  lemma FingerprintDeterminesShape(d: Shape, e: Shape)
    requires ValidShape(d) && ValidShape(e) && Fingerprint(d) == Fingerprint(e)
    ensures d == e
  {
    hide Serialized;
    PrefixCancels(FINGERPRINT_DOMAIN, Serialized(d), FINGERPRINT_DOMAIN, Serialized(e));
    SerializedDeterminesShape(d, e);
  }
}
