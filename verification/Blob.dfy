/**
 * Blob_UploadFromSasUri: the host and path of the SAS URI, the single PUT of a small
 * source, and the block-by-block upload of a large one with its final commit.
 */
module Blob {
  import opened Lists
  import opened BlockIds

  const BLOCK_SIZE: nat := 4194304
  const SMALL_LIMIT: nat := 67108864
  const SIZE_LIMIT: nat := 50000 * 4194304

  // ---------------------------------------------------------------------------
  // Host and path
  // ---------------------------------------------------------------------------

  predicate SchemeAt(s: string, i: nat)
  {
    i + 3 <= |s| && s[i..i + 3] == "://"
  }

  /** strstr for "://", from position `i` on; the length of the text when there is none. */
  function SchemeEnd(s: string, i: nat): (k: nat)
    requires i <= |s|
    ensures i <= k <= |s|
    ensures k < |s| ==> SchemeAt(s, k)
    ensures forall j :: i <= j < k ==> !SchemeAt(s, j)
    decreases |s| - i
  {
    if i == |s| then i
    else if SchemeAt(s, i) then i
    else SchemeEnd(s, i + 1)
  }

  datatype Location = Location(host: string, path: string)

  function Split(uri: string): (r: Option<Location>)
  {
    var k := SchemeEnd(uri, 0);
    if k == |uri| then None
    else
      var e := IndexOf(uri, '/', k + 3);
      if e == |uri| then None else Some(Location(uri[k + 3..e], uri[e..]))
  }

  /** For an https URI the host is what stands before the first slash; it is exact iff the host has none. */
  lemma SplitExact(host: string, rest: string)
    ensures Split("https://" + host + "/" + rest).Some?
    ensures Split("https://" + host + "/" + rest) == Some(Location(host, "/" + rest)) <==> '/' !in host
  {
    var uri := "https://" + host + "/" + rest;
    assert uri[5..8] == "://";
    assert uri[0] == 'h' && uri[1] == 't' && uri[2] == 't' && uri[3] == 'p' && uri[4] == 's';
    forall j | 0 <= j < 5 ensures !SchemeAt(uri, j) {
      assert uri[j..j + 3][0] == uri[j];
    }
    assert SchemeAt(uri, 5);
    assert SchemeEnd(uri, 0) == 5;
    var e := IndexOf(uri, '/', 8);
    assert forall i :: 0 <= i < |host| ==> uri[8 + i] == host[i];
    assert uri[8 + |host|] == '/';
    if '/' !in host {
      assert e == 8 + |host|;
      assert uri[8..e] == host && uri[e..] == "/" + rest;
    } else {
      var i :| 0 <= i < |host| && host[i] == '/';
      assert uri[8 + i] == '/';
      assert e <= 8 + i && |uri[8..e]| < |host|;
    }
  }

  // ---------------------------------------------------------------------------
  // Requests and the block list
  // ---------------------------------------------------------------------------

  datatype Body = Data(bytes: seq<Byte>) | Text(text: string)

  /** An HTTP PUT to the storage host. */
  datatype Request = Request(host: string, path: string, body: Body)

  function XmlHead(): (s: string)
  {
    "<?xml version=\"1.0\" encoding=\"utf-8\"?>\r\n<BlockList>"
  }

  function XmlTail(): (s: string)
  {
    "</BlockList>"
  }

  function Open(): (s: string)
  {
    "<Latest>"
  }

  function Close(): (s: string)
  {
    "</Latest>"
  }

  function BlockQuery(): (s: string)
  {
    "&comp=block&blockid="
  }

  function ListQuery(): (s: string)
  {
    "&comp=blocklist"
  }


  /** The list entries of blocks `from` up to `upto`. */
  function Entries(from: nat, upto: nat): (s: string)
    requires from <= upto <= 1000000
    decreases upto - from
  {
    if from == upto then ""
    else
      PrintedLength(from);
      Open() + BlockId(from) + Close() + Entries(from + 1, upto)
  }

  function Ids(from: nat, upto: nat): (ids: seq<string>)
    requires from <= upto <= 1000000
    ensures |ids| == upto - from
    decreases upto - from
  {
    if from == upto then []
    else
      PrintedLength(from);
      [BlockId(from)] + Ids(from + 1, upto)
  }

  lemma {:induction false} EntriesAppend(from: nat, upto: nat)
    requires from <= upto < 1000000
    ensures |Printed(upto)| == 6 && Entries(from, upto + 1) == Entries(from, upto) + Open() + BlockId(upto) + Close()
    decreases upto - from
  {
    PrintedLength(upto);
    hide BlockId, Printed, Open, Close;
    if from < upto {
      PrintedLength(from);
      EntriesAppend(from + 1, upto);
      var a, e, o, i, c := Open() + BlockId(from) + Close(), Entries(from + 1, upto), Open(), BlockId(upto), Close();
      Associative(a, e + o + i, c);
      Associative(a, e + o, i);
      Associative(a, e, o);
    } else {
      assert Entries(upto + 1, upto + 1) == "";
    }
  }

  /** Reads a block list back, the way the storage service must. */
  function ParseEntries(s: string): (r: Option<seq<string>>)
    decreases |s|
  {
    if s == XmlTail() then Some([])
    else if !(Open() <= s) then None
    else
      var e := IndexOf(s, '<', |Open()|);
      if !(Close() <= s[e..]) then None
      else match ParseEntries(s[e + |Close()|..])
        case None => None
        case Some(ids) => Some([s[|Open()|..e]] + ids)
  }

  function ParseList(s: string): (r: Option<seq<string>>)
  {
    if XmlHead() <= s then ParseEntries(s[|XmlHead()|..]) else None
  }

  lemma ParseOne(id: string, rest: string)
    requires '<' !in id
    ensures ParseEntries(Open() + id + Close() + rest) ==
            match ParseEntries(rest) case None => None case Some(ids) => Some([id] + ids)
  {
    var s := Open() + id + Close() + rest;
    assert s[..|Open()|] == Open();
    assert s[1] == 'L' && XmlTail()[1] == '/';
    assert forall i :: 0 <= i < |id| ==> s[|Open()| + i] == id[i];
    assert s[|Open()| + |id|] == '<';
    var e := IndexOf(s, '<', |Open()|);
    assert e == |Open()| + |id|;
    assert s[e..] == Close() + rest;
    assert s[e..][..|Close()|] == Close();
    assert s[|Open()|..e] == id && s[e + |Close()|..] == rest;
  }

  /** The XML names exactly the ids, in order. */
  lemma {:induction false} EntriesParse(from: nat, upto: nat)
    requires from <= upto <= 1000000
    ensures ParseEntries(Entries(from, upto) + XmlTail()) == Some(Ids(from, upto))
    decreases upto - from
  {
    if from == upto {
      assert Entries(from, upto) + XmlTail() == XmlTail();
    } else {
      hide ParseEntries, IndexOf;
      PrintedLength(from);
      BlockIdAlphanumeric(from);
      hide BlockId, Printed, Open, Close, XmlTail;
      var id, rest := BlockId(from), Entries(from + 1, upto) + XmlTail();
      Associative(Open() + id + Close(), Entries(from + 1, upto), XmlTail());
      EntriesParse(from + 1, upto);
      ParseOne(id, rest);
    }
  }

  // ---------------------------------------------------------------------------
  // The upload
  // ---------------------------------------------------------------------------

  datatype BlobResult = BlobOk | BlobError | BlobHttpError | BlobInvalidArg

  /** How one request goes: something it needs cannot be allocated, it fails, or the service answers. */
  datatype Outcome = NoMemory | HttpFailed | Status(code: nat)

  datatype Upload = Upload(result: BlobResult, status: Option<nat>, requests: seq<Request>)

  /** What the environment answers: the host copy and the HTTP handle, then request by request. */
  datatype Env = Env(hostCopied: bool, connected: bool, list: bool, request: nat -> Outcome)

  function BlockCount(size: nat): (n: nat)
    ensures (n - 1) * BLOCK_SIZE < size <= n * BLOCK_SIZE || (size == 0 && n == 0)
  {
    (size + BLOCK_SIZE - 1) / BLOCK_SIZE
  }

  function BlockEnd(size: nat, k: nat): (e: nat)
    ensures e <= size
  {
    if (k + 1) * BLOCK_SIZE < size then (k + 1) * BLOCK_SIZE else size
  }

  /** The bytes of block `k`. */
  function Block(source: seq<Byte>, k: nat): (b: seq<Byte>)
    requires k * BLOCK_SIZE <= |source|
    ensures |b| <= BLOCK_SIZE
  {
    source[k * BLOCK_SIZE..BlockEnd(|source|, k)]
  }

  function BlockRequest(at: Location, source: seq<Byte>, k: nat): (r: Request)
    requires k < 1000000 && k * BLOCK_SIZE <= |source|
  {
    PrintedLength(k);
    Request(at.host, at.path + BlockQuery() + BlockId(k), Data(Block(source, k)))
  }

  lemma BlockInside(size: nat, k: nat)
    requires k < BlockCount(size)
    ensures k * BLOCK_SIZE < size
  {
  }

  /** The requests for the first `n` blocks. */
  function BlockRequests(at: Location, source: seq<Byte>, n: nat): (rs: seq<Request>)
    requires n <= BlockCount(|source|) && n <= 1000000
    ensures |rs| == n
  {
    if n == 0 then []
    else
      BlockInside(|source|, n - 1);
      BlockRequests(at, source, n - 1) + [BlockRequest(at, source, n - 1)]
  }

  function CommitRequest(at: Location, n: nat): (r: Request)
    requires n <= 1000000
  {
    Request(at.host, at.path + ListQuery(), Text(XmlHead() + Entries(0, n) + XmlTail()))
  }

  predicate Succeeds(o: Outcome)
  {
    o.Status? && o.code < 300
  }

  function Outcomes(o: Outcome): (r: BlobResult)
  {
    match o case NoMemory => BlobError case HttpFailed => BlobHttpError case Status(_) => BlobOk
  }

  /** The status left behind by a request, given the one before it. */
  function After(before: Option<nat>, o: Outcome): (s: Option<nat>)
  {
    if o.Status? then Some(o.code) else before
  }

  /** The first request from `k` on that does not succeed, or `n`. */
  function FirstFailure(request: nat -> Outcome, k: nat, n: nat): (j: nat)
    requires k <= n
    ensures k <= j <= n
    ensures forall i :: k <= i < j ==> Succeeds(request(i))
    ensures j < n ==> !Succeeds(request(j))
    decreases n - k
  {
    if k == n || !Succeeds(request(k)) then k else FirstFailure(request, k + 1, n)
  }

  /** The status after the first `k` requests have all succeeded. */
  function LastStatus(request: nat -> Outcome, k: nat): (s: Option<nat>)
  {
    if k == 0 then None else After(None, request(k - 1))
  }

  /** The block upload, told by its first failing request. */
  function Chunked(at: Location, source: seq<Byte>, request: nat -> Outcome): (u: Upload)
    requires BlockCount(|source|) <= 50000
  {
    var n := BlockCount(|source|);
    var j := FirstFailure(request, 0, n);
    var o := request(j);
    var sent := BlockRequests(at, source, if j < n && !o.NoMemory? then j + 1 else j);
    if j < n then Upload(Outcomes(o), After(LastStatus(request, j), o), sent)
    else Upload(Outcomes(o), After(LastStatus(request, j), o),
                sent + (if o.NoMemory? then [] else [CommitRequest(at, n)]))
  }

  lemma CountBounded(size: nat)
    requires size <= SIZE_LIMIT
    ensures BlockCount(size) <= 50000
  {
  }

  function UploadAt(at: Location, source: seq<Byte>, env: Env): (u: Upload)
    requires |source| <= SIZE_LIMIT
  {
    if |source| < SMALL_LIMIT then
      var o := env.request(0);
      Upload(Outcomes(o), After(None, o), if o.NoMemory? then [] else [Request(at.host, at.path, Data(source))])
    else if !env.list then Upload(BlobHttpError, None, [])
    else
      CountBounded(|source|);
      Chunked(at, source, env.request)
  }

  /** Blob_UploadFromSasUri, with `None` for a NULL pointer. */
  function UploadFromSasUri(uri: Option<string>, source: Option<seq<Byte>>, size: nat, env: Env): (u: Upload)
    requires source.Some? ==> |source.value| == size
  {
    if uri.None? || (size > 0 && source.None?) || size > SIZE_LIMIT then Upload(BlobInvalidArg, None, [])
    else
      var at := Split(uri.value);
      if at.None? then Upload(BlobInvalidArg, None, [])
      else if !env.hostCopied || !env.connected then Upload(BlobError, None, [])
      else UploadAt(at.value, if source.Some? then source.value else [], env)
  }

  // ---------------------------------------------------------------------------
  // The program's loop
  // ---------------------------------------------------------------------------

  /** One more block request, cut out of the source where the loop stands. */
  lemma NextBlock(at: Location, source: seq<Byte>, k: nat, left: nat)
    requires |source| <= SIZE_LIMIT && k < BlockCount(|source|) && left == |source| - k * BLOCK_SIZE
    ensures k < 50000 && |Printed(k)| == 6 && left > 0
    ensures
      var size := if left > BLOCK_SIZE then BLOCK_SIZE else left;
      var start := |source| - left;
      && BlockRequests(at, source, k + 1) == BlockRequests(at, source, k) +
           [Request(at.host, at.path + BlockQuery() + BlockId(k), Data(source[start..start + size]))]
      && (left - size > 0 <==> k + 1 < BlockCount(|source|))
  {
    hide BlockId, Printed;
    CountBounded(|source|);
    BlockInside(|source|, k);
    PrintedLength(k);
    var size := if left > BLOCK_SIZE then BLOCK_SIZE else left;
    assert BlockEnd(|source|, k) == |source| - left + size;
  }

  /** The loop stopped at block `j`, the first to fail. */
  lemma StoppedAt(at: Location, source: seq<Byte>, request: nat -> Outcome, j: nat)
    requires j < BlockCount(|source|) <= 50000 && FirstFailure(request, 0, BlockCount(|source|)) == j
    ensures Chunked(at, source, request) ==
            Upload(Outcomes(request(j)), After(LastStatus(request, j), request(j)),
                   BlockRequests(at, source, if request(j).NoMemory? then j else j + 1))
  {
    hide BlockRequests, FirstFailure;
  }

  lemma AllStaged(at: Location, source: seq<Byte>, request: nat -> Outcome)
    requires BlockCount(|source|) <= 50000 && FirstFailure(request, 0, BlockCount(|source|)) == BlockCount(|source|)
    ensures
      var n := BlockCount(|source|);
      Chunked(at, source, request) ==
      Upload(Outcomes(request(n)), After(LastStatus(request, n), request(n)),
             BlockRequests(at, source, n) + (if request(n).NoMemory? then [] else [CommitRequest(at, n)]))
  {
    hide BlockRequests, FirstFailure, CommitRequest;
  }

  lemma XmlGrows(k: nat)
    requires k < 1000000
    ensures |Printed(k)| == 6
    ensures XmlHead() + Entries(0, k + 1) == XmlHead() + Entries(0, k) + Open() + BlockId(k) + Close()
  {
    hide XmlHead, Open, Close, BlockId, Printed, Entries;
    EntriesAppend(0, k);
    var h, e, o, i, c := XmlHead(), Entries(0, k), Open(), BlockId(k), Close();
    Associative(h, e + o + i, c);
    Associative(h, e + o, i);
    Associative(h, e, o);
  }

  /** One round of the loop: the request for the block, and what its outcome means. */
  method SendBlock(at: Location, id: string, content: seq<Byte>, o: Outcome, before: Option<nat>)
    returns (sent: seq<Request>, result: BlobResult, status: Option<nat>, isError: bool)
    ensures sent == if o.NoMemory? then [] else [Request(at.host, at.path + BlockQuery() + id, Data(content))]
    ensures status == After(before, o) && isError == !Succeeds(o) && (isError ==> result == Outcomes(o))
  {
    sent, result, status, isError := [], BlobError, before, false;
    if o.NoMemory? {
      isError := true;
    } else {
      sent := [Request(at.host, at.path + BlockQuery() + id, Data(content))];
      match o {
        case HttpFailed => result, isError := BlobHttpError, true;
        case Status(code) =>
          status := Some(code);
          if code >= 300 { result, isError := BlobOk, true; }
      }
    }
  }

  /** What the loop has done when it comes to block `k`. */
  ghost predicate Ahead(at: Location, source: seq<Byte>, request: nat -> Outcome, k: nat, toUpload: nat,
                        xml: string, sent: seq<Request>, status: Option<nat>)
  {
    var n := BlockCount(|source|);
    && k < n <= 50000 && toUpload == |source| - k * BLOCK_SIZE
    && FirstFailure(request, k, n) == FirstFailure(request, 0, n)
    && Gathered(at, source, request, k, xml, sent, status)
  }

  ghost predicate Gathered(at: Location, source: seq<Byte>, request: nat -> Outcome, k: nat,
                           xml: string, sent: seq<Request>, status: Option<nat>)
    requires k <= BlockCount(|source|) <= 50000
  {
    xml == XmlHead() + Entries(0, k) && sent == BlockRequests(at, source, k) && status == LastStatus(request, k)
  }

  /** A failed block leaves the loop with the final answer. */
  lemma RoundFails(at: Location, source: seq<Byte>, request: nat -> Outcome, k: nat, toUpload: nat,
                   xml: string, sent: seq<Request>, status: Option<nat>, more: seq<Request>)
    requires |source| <= SIZE_LIMIT && Ahead(at, source, request, k, toUpload, xml, sent, status) &&
        !Succeeds(request(k))
    requires sent + more == BlockRequests(at, source, if request(k).NoMemory? then k else k + 1)
    ensures FirstFailure(request, 0, BlockCount(|source|)) == k
    ensures Chunked(at, source, request) == Upload(Outcomes(request(k)), After(status, request(k)), sent + more)
  {
    hide Entries, BlockRequests, Chunked, BlockCount, XmlHead;
    StoppedAt(at, source, request, k);
  }

  /** A staged block brings the loop to the next one, or to its end. */
  lemma RoundSucceeds(at: Location, source: seq<Byte>, request: nat -> Outcome, k: nat, toUpload: nat,
                      xml: string, sent: seq<Request>, status: Option<nat>, xml': string, sent': seq<Request>)
    requires |source| <= SIZE_LIMIT && Ahead(at, source, request, k, toUpload, xml, sent, status) &&
        Succeeds(request(k))
    requires xml' == XmlHead() + Entries(0, k + 1) && sent' == BlockRequests(at, source, k + 1)
    ensures
      var n, size := BlockCount(|source|), if toUpload > BLOCK_SIZE then BLOCK_SIZE else toUpload;
      && Gathered(at, source, request, k + 1, xml', sent', After(status, request(k)))
      && (if toUpload - size > 0
          then Ahead(at, source, request, k + 1, toUpload - size, xml', sent', After(status, request(k)))
          else k + 1 == n && FirstFailure(request, 0, n) == n)
  {
    hide Entries, BlockRequests, XmlHead, BlockCount;
    NextBlock(at, source, k, toUpload);
  }

  /** One round of the loop, at block `k` with `toUpload` bytes still to go. */
  method StageBlock(at: Location, source: seq<Byte>, request: nat -> Outcome, k: nat, toUpload: nat,
                    xml: string, sent: seq<Request>, status: Option<nat>)
    returns (result: BlobResult, status': Option<nat>, sent': seq<Request>, xml': string, isError: bool, left: nat)
    requires |source| <= SIZE_LIMIT && Ahead(at, source, request, k, toUpload, xml, sent, status)
    ensures k < BlockCount(|source|) <= 50000 && left < toUpload
    ensures isError ==> FirstFailure(request, 0, BlockCount(|source|)) == k
    ensures isError ==> Upload(result, status', sent') == Chunked(at, source, request)
    ensures !isError ==>
              && Gathered(at, source, request, k + 1, xml', sent', status')
              && (if left > 0 then Ahead(at, source, request, k + 1, left, xml', sent', status')
                  else k + 1 == BlockCount(|source|) == FirstFailure(request, 0, k + 1))
  {
    hide Ahead, Gathered, Entries, BlockId, Printed, BlockRequests, Chunked, BlockCount, XmlHead, Open, Close,
        BlockQuery,
         FirstFailure, After;
    AheadUnfolds(at, source, request, k, toUpload, xml, sent, status);
    NextBlock(at, source, k, toUpload);
    XmlGrows(k);
    var thisBlockSize := if toUpload > BLOCK_SIZE then BLOCK_SIZE else toUpload;
    var id := BlockId(k);
    xml' := xml + Open() + id + Close();
    var start, more := |source| - toUpload, [];
    more, result, status', isError := SendBlock(at, id, source[start..start + thisBlockSize], request(k), status);
    sent' := sent + more;
    left := toUpload - thisBlockSize;
    if isError {
      RoundFails(at, source, request, k, toUpload, xml, sent, status, more);
    } else {
      RoundSucceeds(at, source, request, k, toUpload, xml, sent, status, xml', sent');
    }
  }

  /** The do/while loop over `toUpload`, `blockID`, `isError` and the growing XML. */
  method StageBlocks(at: Location, source: seq<Byte>, request: nat -> Outcome)
    returns (result: BlobResult, status: Option<nat>, sent: seq<Request>, xml: string, isError: bool)
    requires 0 < |source| <= SIZE_LIMIT
    ensures BlockCount(|source|) <= 50000
    ensures isError <==> FirstFailure(request, 0, BlockCount(|source|)) < BlockCount(|source|)
    ensures isError ==> Upload(result, status, sent) == Chunked(at, source, request)
    ensures !isError ==> Gathered(at, source, request, BlockCount(|source|), xml, sent, status)
  {
    CountBounded(|source|);
    FirstBlock(at, source, request);
    hide Ahead, Gathered, Entries, BlockRequests, Chunked, BlockCount, XmlHead, FirstFailure;
    var toUpload: nat, blockId: nat := |source|, 0;
    result, status, sent, xml, isError := BlobError, None, [], XmlHead(), false;
    while true
      invariant Ahead(at, source, request, blockId, toUpload, xml, sent, status) && !isError
      decreases toUpload
    {
      result, status, sent, xml, isError, toUpload := StageBlock(at, source, request, blockId, toUpload, xml, sent,
          status);
      blockId := blockId + 1;
      if !(toUpload > 0 && !isError) { break; }
    }
  }

  lemma AheadUnfolds(at: Location, source: seq<Byte>, request: nat -> Outcome, k: nat, toUpload: nat,
                     xml: string, sent: seq<Request>, status: Option<nat>)
    requires Ahead(at, source, request, k, toUpload, xml, sent, status)
    ensures k < BlockCount(|source|) <= 50000 && toUpload == |source| - k * BLOCK_SIZE
    ensures xml == XmlHead() + Entries(0, k) && sent == BlockRequests(at, source, k)
  {
  }

  /** The upload of a large source: stage every block, then commit the list. */
  method UploadBlocks(at: Location, source: seq<Byte>, request: nat -> Outcome) returns (u: Upload)
    requires 0 < |source| <= SIZE_LIMIT
    ensures BlockCount(|source|) <= 50000
    ensures u == Chunked(at, source, request)
  {
    hide Entries, BlockRequests, Chunked, BlockCount, XmlHead, XmlTail, ListQuery, FirstFailure;
    var result, status, sent, xml, isError := StageBlocks(at, source, request);
    if !isError {
      AllStaged(at, source, request);
      xml := xml + XmlTail();
      var o := request(BlockCount(|source|));
      result, status := Outcomes(o), After(status, o);
      if !o.NoMemory? { sent := sent + [Request(at.host, at.path + ListQuery(), Text(xml))]; }
    }
    u := Upload(result, status, sent);
  }

  lemma FirstBlock(at: Location, source: seq<Byte>, request: nat -> Outcome)
    requires 0 < |source| <= SIZE_LIMIT
    ensures Ahead(at, source, request, 0, |source|, XmlHead(), [], None)
  {
    CountBounded(|source|);
    assert BlockRequests(at, source, 0) == [];
    assert XmlHead() + Entries(0, 0) == XmlHead();
  }

  /** Blob_UploadFromSasUri */
  method UploadTo(uri: Option<string>, source: Option<seq<Byte>>, size: nat, env: Env) returns (u: Upload)
    requires source.Some? ==> |source.value| == size
    ensures u == UploadFromSasUri(uri, source, size, env)
  {
    hide Chunked, Split;
    if uri.None? || (size > 0 && source.None?) || size > SIZE_LIMIT { return Upload(BlobInvalidArg, None, []); }
    var at := Split(uri.value);
    if at.None? { return Upload(BlobInvalidArg, None, []); }
    if !env.hostCopied || !env.connected { return Upload(BlobError, None, []); }
    var bytes := if source.Some? then source.value else [];
    if size < SMALL_LIMIT {
      var o := env.request(0);
      u := Upload(Outcomes(o), After(None, o), if o.NoMemory? then
          [] else [Request(at.value.host, at.value.path, Data(bytes))]);
    } else if !env.list {
      u := Upload(BlobHttpError, None, []);
    } else {
      u := UploadBlocks(at.value, bytes, env.request);
    }
  }
}
