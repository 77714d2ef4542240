/** The chunked download of crates/codex-start-client/src/files.rs against an arbitrary server. */
module Download {
  import opened Options

  type Bytes = seq<bv8>

  const CHUNK: nat := 256 * 1024
  const MAX_FILE: nat := 1024 * 1024 * 1024

  datatype Started = Started(transfer: Option<string>, size: Option<nat>, sha256: Option<string>)

  datatype ChunkReply = ChunkReply(data: Option<string>, offset: Option<nat>)

  datatype Request = Start | Chunk(offset: nat) | Close

  /** The other side: what it answers to the k-th chunk request, if anything, how text is
      decoded and bytes are digested, and whether the local file cooperates. */
  datatype World = World(reply: nat -> Option<ChunkReply>, decode: string -> Option<Bytes>, digest: Bytes -> string,
                         creates: bool, writes: nat -> bool, syncs: bool)

  /** The bytes of the k-th chunk, if it is acceptable at this offset. */
  function Piece(w: World, k: nat, offset: nat, size: nat): Option<Bytes> {
    var reply := w.reply(k);
    if reply.None? || reply.value.data.None? || |reply.value.data.value| > CHUNK * 4 / 3 + 4 then
      None
    else
      var bytes := w.decode(reply.value.data.value);
      if bytes.None? || bytes.value == [] || |bytes.value| > CHUNK || reply.value.offset != Some(offset)
         || offset + |bytes.value| > size
      then None else bytes
  }

  /** The first n chunks in order, if each of them is acceptable and can be written. */
  function Assembled(w: World, n: nat, size: nat): Option<Bytes> {
    if n == 0 then
      Some([])
    else
      var have := Assembled(w, n - 1, size);
      if have.None? then None
      else
        var piece := Piece(w, n - 1, |have.value|, size);
        if piece.None? || !w.writes(n - 1) then None else Some(have.value + piece.value)
  }

  /** n chunks make up the whole file, and its digest is the announced one. */
  predicate Complete(w: World, started: Started, n: nat, size: nat) {
    && Assembled(w, n, size).Some? && |Assembled(w, n, size).value| == size
    && started.sha256 == Some(w.digest(Assembled(w, n, size).value))
  }

  /** The announced size is allowed and the file is new; otherwise no chunk is asked for. */
  predicate Fitting(w: World, started: Started, maximum: nat) {
    started.size.Some? && started.size.value <= maximum && started.size.value <= MAX_FILE && w.creates
  }

  /** When the download may succeed: it is granted, fits, and can be kept. */
  predicate Possible(w: World, started: Started, maximum: nat) {
    started.transfer.Some? && Fitting(w, started, maximum) && w.syncs
  }

  lemma {:induction false} Growing(w: World, n: nat, size: nat)
    requires Assembled(w, n, size).Some?
    ensures n <= |Assembled(w, n, size).value| <= size
    ensures n > 0 ==> Assembled(w, n - 1, size).Some?
                      && |Assembled(w, n - 1, size).value| < |Assembled(w, n, size).value|
  {
    if n > 0 {
      Growing(w, n - 1, size);
    }
  }

  /** Longer assemblies exist only if shorter ones do, so at most one count of chunks is complete. */
  lemma {:induction false} Prefixes(w: World, m: nat, n: nat, size: nat)
    requires m <= n && Assembled(w, n, size).Some?
    ensures Assembled(w, m, size).Some? && Assembled(w, m, size).value <= Assembled(w, n, size).value
    ensures m < n ==> |Assembled(w, m, size).value| < |Assembled(w, n, size).value|
    decreases n
  {
    Growing(w, n, size);
    if m < n {
      Prefixes(w, m, n - 1, size);
    }
  }

  /** Which requests are made: one start, chunks at the running offset, and one close. */
  predicate Orderly(w: World, requests: seq<Request>, size: nat) {
    && |requests| >= 2 && requests[0] == Start && requests[|requests| - 1] == Close && |requests| <= size + 2
    && forall k: nat :: k < |requests| - 2 ==> AsksFor(w, requests, k, size)
  }

  /** The request for chunk k is made at the length of the chunks before it. */
  predicate AsksFor(w: World, requests: seq<Request>, k: nat, size: nat)
    requires k + 1 < |requests|
  {
    Assembled(w, k, size).Some? && requests[k + 1] == Chunk(|Assembled(w, k, size).value|)
  }

  lemma OneMoreRequest(w: World, requests: seq<Request>, last: Request, size: nat)
    requires |requests| >= 1
    requires forall k: nat :: k < |requests| - 1 ==> AsksFor(w, requests, k, size)
    ensures forall k: nat :: k < |requests| - 1 ==> AsksFor(w, requests + [last], k, size)
  {
    forall k: nat | k < |requests| - 1
      ensures AsksFor(w, requests + [last], k, size)
    {
      assert AsksFor(w, requests, k, size);
    }
  }

  method DownloadFile(w: World, started: Started, maximum: nat)
    returns (ok: bool, file: Bytes, requests: seq<Request>)
    ensures ok <==> Possible(w, started, maximum) && exists n :: Complete(w, started, n, started.size.value)
    ensures ok ==> |file| == started.size.value && started.sha256 == Some(w.digest(file))
    ensures ok ==> exists n :: Assembled(w, n, |file|) == Some(file)
    ensures started.transfer.None? ==> requests == [Start]
    ensures started.transfer.Some? && started.size.Some? ==> Orderly(w, requests, started.size.value)
    ensures started.transfer.Some? && !Fitting(w, started, maximum) ==> requests == [Start, Close]
  {
    ok, file, requests := false, [], [Start];
    if started.transfer.None? {
      return;
    }
    var limit := if maximum <= MAX_FILE then maximum else MAX_FILE;
    if started.size.Some? && started.size.value <= limit && w.creates {
      ok, file, requests := Chunks(w, started, started.size.value);
      if ok && !w.syncs {
        ok := false;
      }
    }
    requests := requests + [Close];
  }

  /** The loop: `file` and the running digest grow by exactly the accepted chunks. */
  method Chunks(w: World, started: Started, size: nat) returns (ok: bool, file: Bytes, requests: seq<Request>)
    ensures ok <==> exists n :: Complete(w, started, n, size)
    ensures ok ==> |file| == size && started.sha256 == Some(w.digest(file))
    ensures ok ==> exists n :: Assembled(w, n, |file|) == Some(file)
    ensures Orderly(w, requests + [Close], size)
  {
    file, requests := [], [Start];
    var offset, k, hashed := 0, 0, [];
    while offset < size
      invariant Assembled(w, k, size) == Some(file) && hashed == file && offset == |file| <= size && k <= offset
      invariant |requests| == k + 1 && requests[0] == Start
      invariant forall i: nat :: i < k ==> AsksFor(w, requests, i, size)
      decreases size - offset
    {
      OneMoreRequest(w, requests, Chunk(offset), size);
      requests := requests + [Chunk(offset)];
      assert AsksFor(w, requests, k, size);
      var piece := Piece(w, k, offset, size);
      if piece.None? || !w.writes(k) {
        NeverComplete(w, started, k, size);
        OneMoreRequest(w, requests, Close, size);
        return false, file, requests;
      }
      offset := offset + |piece.value|;
      hashed := hashed + piece.value;
      file := file + piece.value;
      k := k + 1;
    }
    OneMoreRequest(w, requests, Close, size);
    ok := started.sha256 == Some(w.digest(hashed));
    if ok {
      assert Complete(w, started, k, size);
    } else {
      forall n: nat | Complete(w, started, n, size)
        ensures false
      {
        if n < k { Prefixes(w, n, k, size); } else { Prefixes(w, k, n, size); }
      }
    }
  }

  /** A refused chunk before the end leaves no way to complete. */
  lemma NeverComplete(w: World, started: Started, k: nat, size: nat)
    requires Assembled(w, k, size).Some? && |Assembled(w, k, size).value| < size
    requires Assembled(w, k + 1, size).None?
    ensures forall n :: !Complete(w, started, n, size)
  {
    forall n: nat | Complete(w, started, n, size)
      ensures false
    {
      if n <= k {
        Prefixes(w, n, k, size);
      } else {
        Prefixes(w, k + 1, n, size);
      }
    }
  }
}
