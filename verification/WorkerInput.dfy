/** The worker's download of its input: chunk by chunk, into one buffer. */
module WorkerInput {
  import opened NativeJobs
  import opened Numbers
  import opened WorkerStaging
  import opened Wrappers

  datatype Reply = Reply(offset: nat, bytes: Bytes, digest: Digest, total: nat)

  /** What the authority answers, once the claim is open: a chunk of the claimed artifact. */
  function ReadInput(artifact: Bytes, claimed: Digest, offset: nat): Option<Reply> {
    if offset % CHUNK != 0 || Sha256(artifact) != claimed || |artifact| > MAX_OUTPUT_BYTES || offset >= |artifact| then None
    else
      var part := artifact[offset..Min(offset + CHUNK, |artifact|)];
      Some(Reply(offset, part, Sha256(part), |artifact|))
  }

  /** A reply the worker goes on with. */
  predicate Usable(r: Reply, offset: nat, size: nat)
    requires offset < size
  {
    r.offset == offset && r.total == size && |r.bytes| == Min(CHUNK, size - offset) && Sha256(r.bytes) == r.digest
  }

  /** `answers` is what comes back for each offset asked for; no offset is asked for twice.
      From an authority that serves the claimed artifact the download ends with its bytes.
      Whatever else answers, it ends with bytes of the claimed digest or not at all. */
  method Download(size: nat, claimed: Digest, answers: nat -> Option<Reply>) returns (r: Option<Bytes>)
    ensures r.Some? ==> Sha256(r.value) == claimed && |r.value| == size
    ensures forall artifact: Bytes ::
      |artifact| == size <= MAX_OUTPUT_BYTES && Sha256(artifact) == claimed && (forall i :: answers(i) == ReadInput(artifact, claimed, i)) ==>
        r == Some(artifact)
  {
    var input := new byte[size](_ => 0);
    var offset := 0;
    while offset < size
      invariant offset <= size && input.Length == size
      invariant Genuine(size, claimed, answers) ==> (offset == size || offset % CHUNK == 0) && input[..offset] == claimed.of[..offset]
    {
      var answer := answers(offset);
      if answer.None? || !Usable(answer.value, offset, size) {
        if Genuine(size, claimed, answers) { GenuineIsUsable(size, claimed, answers, offset); }
        return None;
      }
      var bytes := answer.value.bytes;
      ghost var before := input[..offset];
      Copy(input, offset, bytes);
      if Genuine(size, claimed, answers) {
        GenuineIsUsable(size, claimed, answers, offset);
        assert input[..offset + |bytes|] == before + bytes;
        assert claimed.of[..offset] + claimed.of[offset..offset + |bytes|] == claimed.of[..offset + |bytes|];
      }
      offset := offset + |bytes|;
    }
    assert input[..] == input[..size];
    if Sha256(input[..]) != claimed { return None; }
    r := Some(input[..]);
  }

  /** The answers are those of the artifact the claim was signed for. */
  ghost predicate Genuine(size: nat, claimed: Digest, answers: nat -> Option<Reply>) {
    |claimed.of| == size <= MAX_OUTPUT_BYTES && forall i :: answers(i) == ReadInput(claimed.of, claimed, i)
  }

  lemma GenuineIsUsable(size: nat, claimed: Digest, answers: nat -> Option<Reply>, offset: nat)
    requires Genuine(size, claimed, answers) && offset < size && offset % CHUNK == 0
    ensures answers(offset).Some? && Usable(answers(offset).value, offset, size)
    ensures var end := offset + |answers(offset).value.bytes|;
      end == Min(offset + CHUNK, size) && answers(offset).value.bytes == claimed.of[offset..end] && (end == size || end % CHUNK == 0)
  {
  }

  method Copy(input: array<byte>, offset: nat, bytes: Bytes)
    requires offset + |bytes| <= input.Length
    modifies input
    ensures input[..offset] == old(input[..offset]) && input[offset..offset + |bytes|] == bytes
  {
    for i := 0 to |bytes|
      invariant input[..offset] == old(input[..offset]) && input[offset..offset + i] == bytes[..i]
    {
      input[offset + i] := bytes[i];
    }
  }
}
