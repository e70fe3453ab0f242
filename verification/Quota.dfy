/** The storage quota (app/controllers/files.py): the chunk loop of `store_upload`, and its
    optimistic check-commit-recheck protocol under concurrent uploads and deletes of one user. */
module Quota {
  import opened Wrappers

  type Bytes = seq<char>

  // -- streaming the body ------------------------------------------------------------------

  datatype Limits = Limits(maxFile: nat, quota: nat, used: nat)

  /** A quota of 0 is no quota. */
  predicate Fits(l: Limits, size: nat) {
    size <= l.maxFile && (l.quota > 0 ==> l.used + size <= l.quota)
  }

  /** `Broken`: the reader raised, and the exception passed through the loop. */
  datatype Streamed = Kept(content: Bytes) | WrongType | TooLarge | OverQuota | Broken

  /** The body as the reader delivers it: an empty chunk ends it. */
  function Body(chunks: seq<Bytes>): Bytes {
    if chunks == [] || chunks[0] == [] then [] else chunks[0] + Body(chunks[1..])
  }

  /** Chunk n is the first one the upload does not fit with. */
  predicate Overruns(l: Limits, chunks: seq<Bytes>, n: nat) {
    n < |chunks| && (forall k :: 0 <= k <= n ==> chunks[k] != [])
    && (n == 0 || Fits(l, |Body(chunks[..n])|)) && !Fits(l, |Body(chunks[..n + 1])|)
  }

  lemma {:induction false} BodySnoc(chunks: seq<Bytes>, n: nat)
    requires n < |chunks| && forall k :: 0 <= k < n ==> chunks[k] != []
    ensures Body(chunks[..n + 1]) == Body(chunks[..n]) + chunks[n]
  {
    if n == 0 {
      assert chunks[..1][1..] == [] && chunks[..0] == [];
    } else {
      BodySnoc(chunks[1..], n - 1);
      assert chunks[..n + 1][1..] == chunks[1..][..n] && chunks[..n][1..] == chunks[1..][..n - 1];
    }
  }

  lemma {:induction false} BodyPrefix(chunks: seq<Bytes>, n: nat)
    requires n <= |chunks| && forall k :: 0 <= k < n ==> chunks[k] != []
    ensures |Body(chunks[..n])| <= |Body(chunks)|
    ensures n == |chunks| || chunks[n] == [] ==> Body(chunks[..n]) == Body(chunks)
  {
    if n > 0 {
      BodyPrefix(chunks[1..], n - 1);
      assert chunks[..n][1..] == chunks[1..][..n - 1];
    }
  }

  /** The content gate and the limits, on the whole body. */
  predicate Admissible(chunks: seq<Bytes>, sniff: Bytes -> bool, l: Limits) {
    Body(chunks) == [] || (sniff(chunks[0]) && Fits(l, |Body(chunks)|))
  }

  /** The reader comes to an end; otherwise it raises after the given chunks. */
  predicate EndsWell(chunks: seq<Bytes>, raises: bool) {
    !raises || [] in chunks
  }

  /** The chunk loop.  The upload is kept, byte for byte, exactly when the reader comes to its end,
      the first chunk passes the content gate and the whole body fits, however it was cut into
      chunks.  A refused upload leaves no file, and the complaint is that of the first chunk that
      overran; a reader that raises leaves what was written so far. */
  method StreamUpload(chunks: seq<Bytes>, raises: bool, sniff: Bytes -> bool, l: Limits)
    returns (r: Streamed, file: Option<Bytes>)
    ensures r.Kept? <==> EndsWell(chunks, raises) && Admissible(chunks, sniff, l)
    ensures r.Broken? <==> !EndsWell(chunks, raises) && Admissible(chunks, sniff, l)
    ensures r.Kept? ==> r.content == Body(chunks)
    ensures file == if r.Kept? || r.Broken? then Some(Body(chunks)) else None
    ensures r.WrongType? <==> Body(chunks) != [] && !sniff(chunks[0])
    ensures r.TooLarge? ==> exists n :: Overruns(l, chunks, n) && |Body(chunks[..n + 1])| > l.maxFile
    ensures r.OverQuota? ==> exists n :: Overruns(l, chunks, n) && |Body(chunks[..n + 1])| <= l.maxFile
  {
    var out: Bytes := [];
    var n := 0;
    while n < |chunks| && chunks[n] != []
      invariant n <= |chunks| && out == Body(chunks[..n])
      invariant forall k :: 0 <= k < n ==> chunks[k] != []
      invariant n > 0 ==> sniff(chunks[0]) && Fits(l, |out|)
    {
      if n == 0 && !sniff(chunks[n]) { return WrongType, None; }
      var size := |out| + |chunks[n]|;
      BodySnoc(chunks, n);
      BodyPrefix(chunks, n + 1);
      assert !Fits(l, size) ==> Overruns(l, chunks, n);
      if size > l.maxFile { return TooLarge, None; }
      if l.quota > 0 && l.used + size > l.quota { return OverQuota, None; }
      out := out + chunks[n];
      n := n + 1;
    }
    BodyPrefix(chunks, n);
    assert n == 0 ==> Body(chunks) == [];
    if n == |chunks| && raises { return Broken, Some(out); }
    return Kept(out), Some(out);
  }
}
