/**
 * What the requests of an upload do to the storage account, and why uploading in blocks
 * amounts to a single PUT of the source.
 */
module BlobStorage {
  import opened Lists
  import opened BlockIds
  import opened Blob

  /** The blocks staged for a blob, and its committed content. */
  datatype Store = Store(staged: map<string, seq<Byte>>, blob: Option<seq<Byte>>)

  predicate AllStaged(staged: map<string, seq<Byte>>, ids: seq<string>)
  {
    forall i :: 0 <= i < |ids| ==> ids[i] in staged
  }

  function Assemble(staged: map<string, seq<Byte>>, ids: seq<string>): (content: seq<Byte>)
    requires AllStaged(staged, ids)
  {
    if ids == [] then [] else staged[ids[0]] + Assemble(staged, ids[1..])
  }

  function Commit(st: Store, xml: string): (st': Store)
  {
    match ParseList(xml)
    case None => st
    case Some(ids) => if AllStaged(st.staged, ids) then Store(map[], Some(Assemble(st.staged, ids))) else st
  }

  /** The storage service for the blob at path `base`. */
  function Serve(st: Store, base: string, r: Request): (st': Store)
  {
    if r.path == base && r.body.Data? then Store(map[], Some(r.body.bytes))
    else if r.path == base + ListQuery() && r.body.Text? then Commit(st, r.body.text)
    else if base + BlockQuery() <= r.path && r.body.Data?
    then st.(staged := st.staged[r.path[|base + BlockQuery()|..] := r.body.bytes])
    else st
  }

  /** The service receives the requests that `received` selects, in order. */
  function ServeAll(st: Store, base: string, rs: seq<Request>, received: nat -> bool): (st': Store)
  {
    if rs == [] then st
    else
      var before := ServeAll(st, base, rs[..|rs| - 1], received);
      if received(|rs| - 1) then Serve(before, base, rs[|rs| - 1]) else before
  }

  lemma ServeBlock(st: Store, at: Location, source: seq<Byte>, k: nat)
    requires k < 1000000 && k * BLOCK_SIZE <= |source|
    ensures |Printed(k)| == 6
    ensures Serve(st, at.path, BlockRequest(at, source, k)) == st.(staged := st.staged[BlockId(k) := Block(source, k)])
  {
    PrintedLength(k);
    hide BlockId, Printed, Block;
    var p := BlockRequest(at, source, k).path;
    var prefix := at.path + BlockQuery();
    assert p[|at.path| + 11] == BlockQuery()[11] == '&';
    assert |p| > |at.path + ListQuery()| && (at.path + ListQuery())[|at.path| + 11] == 'l';
    assert p[..|prefix|] == prefix && p[|prefix|..] == BlockId(k);
  }

  /** The id of block `i` holds that block of the source. */
  ghost predicate Holds(staged: map<string, seq<Byte>>, source: seq<Byte>, i: nat)
  {
    && i * BLOCK_SIZE <= |source| && |Printed(i)| == 6
    && BlockId(i) in staged && staged[BlockId(i)] == Block(source, i)
  }

  /** The ids of all blocks from `from` on hold their blocks. */
  ghost predicate HoldsFrom(staged: map<string, seq<Byte>>, source: seq<Byte>, from: nat)
  {
    forall i :: from <= i < BlockCount(|source|) ==> Holds(staged, source, i)
  }

  /** After the first `k` block requests, each of the `k` ids holds its block, whatever was staged before. */
  lemma {:induction false} BlocksStaged(st: Store, at: Location, source: seq<Byte>, k: nat, received: nat -> bool,
                                        i: nat)
    requires k <= BlockCount(|source|) <= 50000 && i < k && forall j :: 0 <= j < k ==> received(j)
    ensures Holds(ServeAll(st, at.path, BlockRequests(at, source, k), received).staged, source, i)
    decreases k
  {
    hide BlockId, Printed, Block, Serve, BlockRequest;
    BlockInside(|source|, i);
    BlockInside(|source|, k - 1);
    PrintedLength(i);
    var rs := BlockRequests(at, source, k);
    assert rs[..k - 1] == BlockRequests(at, source, k - 1);
    var before := ServeAll(st, at.path, rs[..k - 1], received);
    ServeBlock(before, at, source, k - 1);
    if i < k - 1 {
      BlocksStaged(st, at, source, k - 1, received, i);
      BlockIdInjective(i, k - 1);
    }
  }

  /** Block requests never touch the committed content. */
  lemma {:induction false} BlocksCommitNothing(st: Store, at: Location, source: seq<Byte>, k: nat,
                                               received: nat -> bool)
    requires k <= BlockCount(|source|) <= 50000
    ensures ServeAll(st, at.path, BlockRequests(at, source, k), received).blob == st.blob
    decreases k
  {
    hide BlockId, Printed, Block, Serve, BlockRequest;
    if k > 0 {
      BlockInside(|source|, k - 1);
      var rs := BlockRequests(at, source, k);
      assert rs[..k - 1] == BlockRequests(at, source, k - 1);
      BlocksCommitNothing(st, at, source, k - 1, received);
      ServeBlock(ServeAll(st, at.path, rs[..k - 1], received), at, source, k - 1);
    }
  }

  function Start(size: nat, k: nat): (i: nat)
    ensures i <= size
  {
    if k * BLOCK_SIZE < size then k * BLOCK_SIZE else size
  }

  /** Block `k` reaches from where it starts to where the next one does. */
  lemma BlockSpan(source: seq<Byte>, k: nat)
    requires k <= BlockCount(|source|)
    ensures k < BlockCount(|source|) ==>
              && k * BLOCK_SIZE <= |source| && Start(|source|, k) <= Start(|source|, k + 1)
              && Block(source, k) == source[Start(|source|, k)..Start(|source|, k + 1)]
    ensures k == BlockCount(|source|) ==> Start(|source|, k) == |source|
  {
  }

  /** The staged blocks that the list names from `from` on are there and make up the rest of the source. */
  ghost predicate Assembles(staged: map<string, seq<Byte>>, source: seq<Byte>, from: nat)
    requires from <= BlockCount(|source|) <= 50000
  {
    var ids := Ids(from, BlockCount(|source|));
    AllStaged(staged, ids) && Assemble(staged, ids) == source[Start(|source|, from)..]
  }

  lemma NextId(from: nat, n: nat)
    requires from < n <= 50000
    ensures |Printed(from)| == 6
    ensures Ids(from, n)[0] == BlockId(from) && Ids(from, n)[1..] == Ids(from + 1, n)
  {
    hide BlockId, Printed;
    PrintedLength(from);
  }

  /** One more block in front. */
  lemma AssembleOne(staged: map<string, seq<Byte>>, source: seq<Byte>, from: nat)
    requires from < BlockCount(|source|) <= 50000
    requires Holds(staged, source, from) && Assembles(staged, source, from + 1)
    ensures Assembles(staged, source, from)
  {
    hide BlockId, Printed;
    var n := BlockCount(|source|);
    BlockSpan(source, from);
    NextId(from, n);
    hide BlockCount, Start, Block, Ids;
    var ids, a, b := Ids(from, n), Start(|source|, from), Start(|source|, from + 1);
    assert forall i :: 0 < i < |ids| ==> ids[i] == ids[1..][i - 1];
    assert source[a..b] + source[b..] == source[a..];
  }

  lemma NothingLeft(staged: map<string, seq<Byte>>, source: seq<Byte>)
    requires BlockCount(|source|) <= 50000
    ensures Assembles(staged, source, BlockCount(|source|))
  {
    BlockSpan(source, BlockCount(|source|));
    hide Start, BlockCount;
  }

  /** The named blocks, in the order of the list, make up the source from block `from` on. */
  lemma {:induction false} BlocksAssemble(staged: map<string, seq<Byte>>, source: seq<Byte>, from: nat)
    requires from <= BlockCount(|source|) <= 50000 && HoldsFrom(staged, source, from)
    ensures Assembles(staged, source, from)
    decreases BlockCount(|source|) - from
  {
    hide Assembles, Holds;
    if from == BlockCount(|source|) {
      NothingLeft(staged, source);
    } else {
      BlocksAssemble(staged, source, from + 1);
      AssembleOne(staged, source, from);
    }
  }

  lemma ServeCommit(st: Store, at: Location, n: nat)
    requires n <= 50000 && ParseEntries(Entries(0, n) + XmlTail()) == Some(Ids(0, n)) && AllStaged(st.staged, Ids(0, n))
    ensures Serve(st, at.path, CommitRequest(at, n)).blob == Some(Assemble(st.staged, Ids(0, n)))
  {
    hide ParseEntries, Entries, Assemble, Ids, XmlHead, XmlTail, ParseList, AllStaged;
    ListParses(n);
    assert |at.path + ListQuery()| != |at.path|;
  }

  /** The commit turns the staged blocks into exactly the source. */
  lemma CommitAssembles(st: Store, at: Location, source: seq<Byte>)
    requires BlockCount(|source|) <= 50000 && HoldsFrom(st.staged, source, 0)
    ensures Serve(st, at.path, CommitRequest(at, BlockCount(|source|))).blob == Some(source)
  {
    hide HoldsFrom, Entries, ParseEntries, Assemble, Serve, CommitRequest, Ids, AllStaged;
    EntriesParse(0, BlockCount(|source|));
    BlocksAssemble(st.staged, source, 0);
    ServeCommit(st, at, BlockCount(|source|));
    assert source[Start(|source|, 0)..] == source;
  }

  lemma ListParses(n: nat)
    requires n <= 50000 && ParseEntries(Entries(0, n) + XmlTail()) == Some(Ids(0, n))
    ensures ParseList(XmlHead() + Entries(0, n) + XmlTail()) == Some(Ids(0, n))
  {
    hide ParseEntries, Entries;
    var h, rest := XmlHead(), Entries(0, n) + XmlTail();
    Associative(h, Entries(0, n), XmlTail());
    assert (h + rest)[..|h|] == h && (h + rest)[|h|..] == rest;
  }

  // ---------------------------------------------------------------------------
  // Main results
  // ---------------------------------------------------------------------------

  /** Blocks are non-empty and at most 4 MiB, all but the last are full, and there are ceil(size / 4 MiB) <= 50000. */
  lemma BlocksProper(source: seq<Byte>, k: nat)
    requires |source| <= SIZE_LIMIT && k < BlockCount(|source|)
    ensures k * BLOCK_SIZE < |source|
    ensures 0 < |Block(source, k)| <= BLOCK_SIZE
    ensures |Block(source, k)| == BLOCK_SIZE || k == BlockCount(|source|) - 1
    ensures
      var n := BlockCount(|source|);
      n <= 50000 && (n - 1) * BLOCK_SIZE < |source| <= n * BLOCK_SIZE
  {
    CountBounded(|source|);
  }

  /** An upload reports success exactly when every block and the commit were answered below 300. */
  lemma SuccessMeansAll(at: Location, source: seq<Byte>, request: nat -> Outcome)
    requires BlockCount(|source|) <= 50000
    ensures
      var u, n := Chunked(at, source, request), BlockCount(|source|);
      u.result == BlobOk && u.status.Some? && u.status.value < 300 <==>
      FirstFailure(request, 0, n) == n && Succeeds(request(n))
  {
    hide BlockRequests, CommitRequest;
  }

  /** The URI, the arguments and the local resources let the upload reach the storage service. */
  predicate Attempted(uri: Option<string>, source: Option<seq<Byte>>, size: nat, env: Env)
  {
    && uri.Some? && Split(uri.value).Some? && (source.Some? || size == 0) && size <= SIZE_LIMIT
    && env.hostCopied && env.connected && (size >= SMALL_LIMIT ==> env.list)
  }

  /** The number of the request that ends a successful upload: the single PUT, or the commit after the blocks. */
  function LastRequest(size: nat): (n: nat)
  {
    if size < SMALL_LIMIT then 0 else BlockCount(size)
  }

  /** An upload reports success exactly when it could be attempted and all its requests were answered below 300. */
  lemma UploadSucceedsExactly(uri: Option<string>, source: Option<seq<Byte>>, size: nat, env: Env)
    requires source.Some? ==> |source.value| == size
    ensures
      var u := UploadFromSasUri(uri, source, size, env);
      u.result == BlobOk && u.status.Some? && u.status.value < 300 <==>
      && Attempted(uri, source, size, env)
      && forall i :: 0 <= i <= LastRequest(size) ==> Succeeds(env.request(i))
  {
    hide Split, Chunked;
    if Attempted(uri, source, size, env) && size >= SMALL_LIMIT {
      CountBounded(size);
      SuccessMeansAll(Split(uri.value).value, source.value, env.request);
      AllBelow(env.request, BlockCount(size));
    }
  }

  lemma AllBelow(request: nat -> Outcome, n: nat)
    ensures FirstFailure(request, 0, n) == n <==> forall i :: 0 <= i < n ==> Succeeds(request(i))
  {
    var j := FirstFailure(request, 0, n);
    assert j < n ==> !Succeeds(request(j));
  }

  /** Bad arguments are refused as such, and what cannot be set up locally is an error; neither sends anything. */
  lemma NotAttempted(uri: Option<string>, source: Option<seq<Byte>>, size: nat, env: Env)
    requires (source.Some? ==> |source.value| == size) && !Attempted(uri, source, size, env)
    ensures
      var u := UploadFromSasUri(uri, source, size, env);
      && u.requests == [] && u.status == None && u.result != BlobOk
      && (u.result == BlobInvalidArg <==>
            uri.None? || (source.None? && size > 0) || size > SIZE_LIMIT || Split(uri.value).None?)
  {
    hide Split, Chunked;
  }

  /**
   * The first request that does not succeed decides the answer: BLOB_ERROR when it could not be
   * built, BLOB_HTTP_ERROR when it failed, and BLOB_OK with its status when the service refused it.
   */
  lemma FailureReported(uri: Option<string>, source: Option<seq<Byte>>, size: nat, env: Env, j: nat)
    requires (source.Some? ==> |source.value| == size) && Attempted(uri, source, size, env)
    requires j <= LastRequest(size) && !Succeeds(env.request(j))
    requires forall i :: 0 <= i < j ==> Succeeds(env.request(i))
    ensures
      var u := UploadFromSasUri(uri, source, size, env);
      && (env.request(j).NoMemory? ==> u.result == BlobError && |u.requests| == j)
      && (env.request(j).HttpFailed? ==> u.result == BlobHttpError && |u.requests| == j + 1)
      && (env.request(j).Status? ==>
            u.result == BlobOk && u.status == Some(env.request(j).code) && |u.requests| == j + 1)
  {
    hide Split, BlockRequests, CommitRequest;
    if size >= SMALL_LIMIT {
      CountBounded(size);
      AllBelow(env.request, j);
      FirstFailureIs(env.request, j, BlockCount(size));
    }
  }

  lemma FirstFailureIs(request: nat -> Outcome, j: nat, n: nat)
    requires j <= n && !Succeeds(request(j)) && forall i :: 0 <= i < j ==> Succeeds(request(i))
    ensures FirstFailure(request, 0, n) == j
  {
    var f := FirstFailure(request, 0, n);
    assert f < n ==> !Succeeds(request(f));
  }

  /** A failed block is followed by no commit: whatever the service received, the blob is as before. */
  lemma NoCommitAfterFailure(at: Location, source: seq<Byte>, request: nat -> Outcome, st: Store, received: nat -> bool)
    requires BlockCount(|source|) <= 50000 && FirstFailure(request, 0, BlockCount(|source|)) < BlockCount(|source|)
    ensures ServeAll(st, at.path, Chunked(at, source, request).requests, received).blob == st.blob
  {
    hide ServeAll, BlockRequests;
    var n := BlockCount(|source|);
    var j := FirstFailure(request, 0, n);
    BlocksCommitNothing(st, at, source, if request(j).NoMemory? then j else j + 1, received);
  }

  lemma ServeLast(st: Store, base: string, rs: seq<Request>, r: Request, received: nat -> bool)
    requires received(|rs|)
    ensures ServeAll(st, base, rs + [r], received) == Serve(ServeAll(st, base, rs, received), base, r)
  {
    assert (rs + [r])[..|rs|] == rs;
  }

  /** A successful upload in blocks leaves exactly the source in the blob, like the single PUT it stands for. */
  lemma ChunkedRefinesPut(at: Location, source: seq<Byte>, request: nat -> Outcome, st: Store, received: nat -> bool)
    requires BlockCount(|source|) <= 50000
    requires FirstFailure(request, 0, BlockCount(|source|)) == BlockCount(|source|) &&
        Succeeds(request(BlockCount(|source|)))
    requires forall i: nat :: received(i)
    ensures ServeAll(st, at.path, Chunked(at, source, request).requests, received).blob == Some(source)
    ensures Serve(st, at.path, Request(at.host, at.path, Data(source))).blob == Some(source)
  {
    var n := BlockCount(|source|);
    AllSent(at, source, request);
    hide BlockRequests, Serve, CommitRequest, Chunked, Holds, ServeAll;
    var blocks := BlockRequests(at, source, n);
    var staged := ServeAll(st, at.path, blocks, received);
    forall i | 0 <= i < n ensures Holds(staged.staged, source, i) {
      BlocksStaged(st, at, source, n, received, i);
    }
    CommitAssembles(staged, at, source);
    ServeLast(st, at.path, blocks, CommitRequest(at, n), received);
    PutServes(st, at, source);
  }

  lemma AllSent(at: Location, source: seq<Byte>, request: nat -> Outcome)
    requires BlockCount(|source|) <= 50000
    requires FirstFailure(request, 0, BlockCount(|source|)) == BlockCount(|source|) &&
        Succeeds(request(BlockCount(|source|)))
    ensures
      var n := BlockCount(|source|);
      Chunked(at, source, request).requests == BlockRequests(at, source, n) + [CommitRequest(at, n)]
  {
    hide BlockRequests, CommitRequest;
  }

  lemma PutServes(st: Store, at: Location, source: seq<Byte>)
    ensures Serve(st, at.path, Request(at.host, at.path, Data(source))).blob == Some(source)
  {
  }

  /**
   * For every SAS URI and every source: if the upload reports BLOB_OK with a status below
   * 300 then its requests all went to the URI's host and leave exactly the source in the blob.
   */
  lemma UploadStoresSource(uri: Option<string>, source: seq<Byte>, env: Env, st: Store, received: nat -> bool)
    requires forall i: nat :: received(i)
    requires
      var u := UploadFromSasUri(uri, Some(source), |source|, env);
      u.result == BlobOk && u.status.Some? && u.status.value < 300
    ensures uri.Some? && Split(uri.value).Some? && |source| <= SIZE_LIMIT
    ensures
      var u, at := UploadFromSasUri(uri, Some(source), |source|, env), Split(uri.value).value;
      ServeAll(st, at.path, u.requests, received).blob == Some(source)
  {
    hide Split, Chunked, ServeAll;
    var at := Split(uri.value).value;
    if |source| < SMALL_LIMIT {
      var put := Request(at.host, at.path, Data(source));
      ServeLast(st, at.path, [], put, received);
      assert [] + [put] == [put];
      assert ServeAll(st, at.path, [], received) == st by { ServeNone(st, at.path, received); }
      PutServes(st, at, source);
    } else {
      CountBounded(|source|);
      SuccessMeansAll(at, source, env.request);
      ChunkedRefinesPut(at, source, env.request, st, received);
    }
  }

  lemma ServeNone(st: Store, base: string, received: nat -> bool)
    ensures ServeAll(st, base, [], received) == st
  {
  }

  lemma {:induction false} SameHost(at: Location, source: seq<Byte>, k: nat)
    requires k <= BlockCount(|source|) <= 50000
    ensures forall i :: 0 <= i < k ==> BlockRequests(at, source, k)[i].host == at.host
  {
    if k > 0 { SameHost(at, source, k - 1); }
  }

  /** Every request of an upload goes to the host named in the URI. */
  lemma RequestsGoToHost(uri: string, source: seq<Byte>, env: Env, i: nat)
    requires i < |UploadFromSasUri(Some(uri), Some(source), |source|, env).requests|
    ensures Split(uri).Some?
    ensures
      UploadFromSasUri(Some(uri), Some(source), |source|, env).requests[i].host == Split(uri).value.host
  {
    hide Split, FirstFailure, BlockRequests;
    if |source| >= SMALL_LIMIT {
      CountBounded(|source|);
      var n := BlockCount(|source|);
      var at := Split(uri).value;
      var j := FirstFailure(env.request, 0, n);
      SameHost(at, source, if j < n && !env.request(j).NoMemory? then j + 1 else j);
    }
  }
}
