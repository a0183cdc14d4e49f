/**
 * IoTHubClient_LL_UploadToBlob: ask the hub where to upload, upload there, and tell the
 * hub how it went.
 */
module UploadNotification {
  import opened Lists
  import opened BlockIds
  import Blob
  import Storage = BlobStorage

  /** What the hub's answer to the first request holds; a missing JSON string is None. */
  datatype Grant = Grant(correlationId: Option<string>, hostName: Option<string>, containerName: Option<string>,
                         blobName: Option<string>, sasToken: Option<string>)

  /** The hub's answer to a request. */
  datatype Answer = NoAnswer | Answer(code: nat)

  datatype NoteBody = UploadFailed | Report(isSuccess: bool, statusCode: nat, description: string)

  /** A notification POST; what the hub answered is part of the record. */
  datatype Note = Note(path: string, body: NoteBody, answer: Answer)

  datatype Env = Env(
    prepared: bool,          // HTTP handle, options, strings and headers of the first step
    grantAnswer: Answer,
    grant: Option<Grant>,    // the JSON object in that answer, if it parses
    memory: bool,            // strings and buffers of the later steps
    blob: Blob.Env,
    response: string,        // the body of the last storage response
    noteReady: bool,
    noteAnswer: Answer)

  datatype Result = Ok | InvalidArg | Error

  function ApiVersion(): (s: string)
  {
    "?api-version=2016-02-03"
  }

  function NotePath(deviceId: string, correlationId: string): (s: string)
  {
    "/devices/" + deviceId + "/files/notifications/" + correlationId + ApiVersion()
  }

  /** The body says "isSuccess":true. */
  predicate ClaimsSuccess(n: Note)
  {
    n.body.Report? && n.body.isSuccess
  }

  predicate Accepted(a: Answer)
  {
    a.Answer? && a.code < 300
  }

  predicate Complete(g: Grant)
  {
    g.correlationId.Some? && g.hostName.Some? && g.containerName.Some? && g.blobName.Some? && g.sasToken.Some?
  }

  /** What follows the host in the SAS URI. */
  function Resource(g: Grant): (s: string)
    requires Complete(g)
  {
    g.containerName.value + "/" + g.blobName.value + g.sasToken.value
  }

  function SasUri(g: Grant): (s: string)
    requires Complete(g)
  {
    "https://" + g.hostName.value + "/" + Resource(g)
  }

  /** The first step yields a grant. */
  predicate Granted(env: Env)
  {
    env.prepared && Accepted(env.grantAnswer) && env.grant.Some? && Complete(env.grant.value) && env.memory
  }

  function StorageUpload(source: Option<seq<Byte>>, size: nat, env: Env): (u: Blob.Upload)
    requires Granted(env) && (source.Some? ==> |source.value| == size)
  {
    Blob.UploadFromSasUri(Some(SasUri(env.grant.value)), source, size, env.blob)
  }

  /** BLOB_OK, and the last storage request was answered below 300. */
  predicate Stored(u: Blob.Upload)
  {
    u.result == Blob.BlobOk && u.status.Some? && u.status.value < 300
  }

  /** A storage upload that reports BLOB_OK has set the HTTP status. */
  lemma OkHasStatus(uri: Option<string>, source: Option<seq<Byte>>, size: nat, env: Blob.Env)
    requires source.Some? ==> |source.value| == size
    ensures Blob.UploadFromSasUri(uri, source, size, env).result == Blob.BlobOk ==>
            Blob.UploadFromSasUri(uri, source, size, env).status.Some?
  {
    hide Blob.Split, Blob.BlockRequests, Blob.FirstFailure, Blob.CommitRequest;
  }

  /** The arguments that the call accepts. */
  predicate ValidCall(file: Option<string>, source: Option<seq<Byte>>, size: nat)
  {
    file.Some? && (source.Some? || size == 0)
  }

  /**
   * IoTHubClient_LL_UploadToBlob_Impl.  Storage is only addressed under a grant, and then
   * exactly one notification is made if one can be built: it carries the correlation id of
   * the grant, and it tells of the storage upload as it went.  The call returns OK exactly
   * when the upload was stored and the hub accepted the notification.
   */
  method UploadToBlob(deviceId: string, file: Option<string>, source: Option<seq<Byte>>, size: nat, env: Env)
    returns (result: Result, requests: seq<Blob.Request>, notes: seq<Note>)
    requires source.Some? ==> |source.value| == size
    ensures result == InvalidArg <==> !ValidCall(file, source, size)
    ensures !ValidCall(file, source, size) || !Granted(env) ==> requests == [] && notes == []
    ensures ValidCall(file, source, size) && Granted(env) ==>
              var u := StorageUpload(source, size, env);
              && requests == u.requests
              && |notes| == (if env.noteReady then 1 else 0)
              && forall n :: n in notes ==>
                   && n.path == NotePath(deviceId, env.grant.value.correlationId.value) && n.answer == env.noteAnswer
                   && (n.body == UploadFailed <==> u.result != Blob.BlobOk)
                   && (n.body != UploadFailed ==>
                         u.status == Some(n.body.statusCode) && n.body.description == env.response)
                   && (ClaimsSuccess(n) <==> Stored(u))
    ensures result == Ok <==>
              && ValidCall(file, source, size) && Granted(env)
              && Stored(StorageUpload(source, size, env)) && env.noteReady && Accepted(env.noteAnswer)
  {
    hide Blob.UploadFromSasUri, SasUri, NotePath;
    result, requests, notes := Error, [], [];
    if file.None? || (source.None? && size > 0) { return InvalidArg, [], []; }
    if !env.prepared { return; }
    if !Accepted(env.grantAnswer) || env.grant.None? || !Complete(env.grant.value) || !env.memory { return; }
    var g := env.grant.value;
    var u := Blob.UploadTo(Some(SasUri(g)), source, size, env.blob);
    requests := u.requests;
    var path := NotePath(deviceId, g.correlationId.value);
    if u.result != Blob.BlobOk {
      if env.noteReady { notes := [Note(path, UploadFailed, env.noteAnswer)]; }
      return;
    }
    OkHasStatus(Some(SasUri(g)), source, size, env.blob);
    var code := u.status.value;
    if !env.noteReady { return; }
    notes := [Note(path, Report(code < 300, code, env.response), env.noteAnswer)];
    if !Accepted(env.noteAnswer) { return; }
    result := if code < 300 then Ok else Error;
  }

  /** For a host name without a slash, storage is addressed by exactly the host and path the hub returned. */
  lemma UriIsExact(g: Grant)
    requires Complete(g)
    ensures
      var at := Blob.Location(g.hostName.value, "/" + Resource(g));
      Blob.Split(SasUri(g)) == Some(at) <==> '/' !in g.hostName.value
  {
    Blob.SplitExact(g.hostName.value, Resource(g));
  }

  /** When the upload was stored, the blob at the granted place holds exactly the source. */
  lemma StoredIsSource(source: seq<Byte>, env: Env, st: Storage.Store, received: nat -> bool)
    requires Granted(env) && Stored(StorageUpload(Some(source), |source|, env))
    requires '/' !in env.grant.value.hostName.value && forall i: nat :: received(i)
    ensures
      var g := env.grant.value;
      var u := StorageUpload(Some(source), |source|, env);
      Storage.ServeAll(st, "/" + Resource(g), u.requests, received).blob == Some(source)
    ensures
      var u := StorageUpload(Some(source), |source|, env);
      forall i :: 0 <= i < |u.requests| ==> u.requests[i].host == env.grant.value.hostName.value
  {
    hide Blob.UploadFromSasUri, Storage.ServeAll, SasUri, Blob.Split, Resource;
    var uri := SasUri(env.grant.value);
    UriIsExact(env.grant.value);
    Storage.UploadStoresSource(Some(uri), source, env.blob, st, received);
    var u := StorageUpload(Some(source), |source|, env);
    forall i | 0 <= i < |u.requests| ensures u.requests[i].host == env.grant.value.hostName.value {
      Storage.RequestsGoToHost(uri, source, env.blob, i);
    }
  }
}
