/** The fetch dispatcher of getter/getter.go: try remote storage when it is
    configured and the location is complete, otherwise (or when that fails)
    open the local file; report the stream, where it came from, and the
    error, and write a diagnostic line when remote storage is enabled but
    not used (the location is incomplete or the remote fetch failed). */
module Getter {
  import opened Fetch

  /** Where a returned file came from. */
  datatype Source = Local | Remote
  {
    /** The string value of the Go constant. */
    function Name(): string
    {
      match this
      case Local => "local"
      case Remote => "remote"
    }
  }

  /** The remote-fetch capability: FetchRemoteFile(accessKey, accessSecret, host, bucket, key). */
  type RemoteFetcher = RemoteRequest -> Reply

  /** The local-open capability: Open(localPath). */
  type LocalFetcher = string -> Reply

  /** A configured dispatcher. Its fields are set once and only read afterwards. */
  datatype Getter = Getter(
    useRemoteFS: bool,
    accessKey: string,
    accessSecret: string,
    remoteFetcher: RemoteFetcher,
    localFetcher: LocalFetcher)
  {
    /** The remote request a fetch of host/bucket/key makes with this configuration. */
    function Request(host: string, bucket: string, key: string): RemoteRequest
    {
      RemoteRequest(accessKey, accessSecret, host, bucket, key)
    }

    /** Remote storage is enabled and the remote location is complete. */
    predicate RemoteReady(host: string, bucket: string, key: string)
    {
      useRemoteFS && host != "" && key != "" && bucket != ""
    }
  }

  /** A diagnostic written to the logger. */
  datatype LogEvent =
    | RemoteFailed(err: Error)
    | MissingFields(host: string, bucket: string, key: string)

  const FallbackNotice := "falling back to local source"
  const FallbackPrefix := FallbackNotice + " - "
  const MissingFieldsNotice := FallbackPrefix + "missing fields"

  /** One `"name":value` pair of the missing-fields line. */
  function Field(name: string, value: string): string
  {
    Quote(name) + ":" + Quote(value)
  }

  /** The text of a diagnostic, without the logger's own prefix and timestamp. */
  function Line(e: LogEvent): string
  {
    match e
    case RemoteFailed(err) => FallbackPrefix + err.Text()
    case MissingFields(h, b, k) =>
      MissingFieldsNotice + ". " + Field("host", h) + ", " + Field("bucket", b) + ", " + Field("key", k)
  }

  /** What a fetch hands back (stream, source, error), what it logged, and
      which capabilities it invoked, in order. */
  datatype Fetched = Fetched(
    stream: Option<Stream>,
    source: Source,
    err: Option<Error>,
    log: seq<LogEvent>,
    calls: seq<Call>)

  /** What a remote fetch hands back and which library calls it made, in order. */
  datatype RemoteFetched = RemoteFetched(reply: Reply, calls: seq<Call>)

  /** The production dispatcher: the remote-storage adapter and the file-system adapter. */
  function New(useRemoteFS: bool, accessKey: string, accessSecret: string, lib: Minio, os: OsOpen): (g: Getter)
    ensures g.useRemoteFS == useRemoteFS && g.accessKey == accessKey && g.accessSecret == accessSecret
    ensures forall req :: g.remoteFetcher(req) == FetchRemoteFile(lib, req).reply
    ensures forall path :: g.localFetcher(path) == Open(os, path)
  {
    Getter(useRemoteFS, accessKey, accessSecret, req => FetchRemoteFile(lib, req).reply, path => Open(os, path))
  }

  /** Fetch a file from remote storage when possible, from local disk otherwise. */
  function FetchFile(g: Getter, localPath: string, host: string, bucket: string, key: string): (r: Fetched)
    // remote storage is asked iff it is enabled and host, bucket and key are all set
    ensures FetchRemote(g.Request(host, bucket, key)) in r.calls <==> g.RemoteReady(host, bucket, key)
    // the tag is Remote exactly when that attempt was made and succeeded
    ensures r.source == Remote <==>
      g.RemoteReady(host, bucket, key) && g.remoteFetcher(g.Request(host, bucket, key)).err.None?
    // a remote success is returned as is, with nothing logged and no local open
    ensures r.source == Remote ==>
      r.stream == g.remoteFetcher(g.Request(host, bucket, key)).handle && r.err == None &&
      r.log == [] && r.calls == [FetchRemote(g.Request(host, bucket, key))]
    // every other outcome comes from opening localPath, which is the last call made
    ensures r.source == Local ==> |r.calls| > 0 && r.calls[|r.calls| - 1] == OpenFile(localPath)
    ensures r.source == Local ==> r.err == g.localFetcher(localPath).err
    ensures r.source == Local && r.err == None ==> r.stream == g.localFetcher(localPath).handle
    // the only error a caller ever sees is the local one, with no stream
    ensures r.err != None ==> r.source == Local && r.stream == None && r.err == g.localFetcher(localPath).err
    // at most one diagnostic, and one exactly when remote storage was enabled but not used
    ensures |r.log| <= 1 && (|r.log| == 1 <==> g.useRemoteFS && r.source == Local)
  {
    var req := g.Request(host, bucket, key);
    if g.RemoteReady(host, bucket, key) then
      var remote := g.remoteFetcher(req);
      if remote.err == None then
        Fetched(remote.handle, Remote, None, [], [FetchRemote(req)])
      else
        OpenLocal(g, localPath, [RemoteFailed(remote.err.value)], [FetchRemote(req)])
    else if g.useRemoteFS then
      OpenLocal(g, localPath, [MissingFields(host, bucket, key)], [])
    else
      OpenLocal(g, localPath, [], [])
  }

  /** The shared tail of FetchFile: open the local file and tag the outcome Local. */
  function OpenLocal(g: Getter, localPath: string, log: seq<LogEvent>, calls: seq<Call>): Fetched
  {
    var local := g.localFetcher(localPath);
    if local.err != None then
      Fetched(None, Local, local.err, log, calls + [OpenFile(localPath)])
    else
      Fetched(local.handle, Local, None, log, calls + [OpenFile(localPath)])
  }

  /** The remote-storage adapter: client, then object, then a metadata probe. */
  function FetchRemoteFile(lib: Minio, req: RemoteRequest): (r: RemoteFetched)
    // the stages run in order: a client for the host and credentials (insecure),
    // then the bucket/key object from that client, then a probe of that object
    ensures 1 <= |r.calls| <= 3
    ensures r.calls[0] == NewClient(req.host, req.accessKey, req.accessSecret, false)
    ensures |r.calls| > 1 ==>
      (lib.newV2(req.host, req.accessKey, req.accessSecret, false).Ok? &&
       r.calls[1] == GetObject(lib.newV2(req.host, req.accessKey, req.accessSecret, false).value, req.bucket, req.key))
    ensures |r.calls| > 2 ==>
      (r.calls[1].GetObject? && lib.getObject(r.calls[1].client, req.bucket, req.key).Ok? &&
       r.calls[2] == StatObject(lib.getObject(r.calls[1].client, req.bucket, req.key).value))
    // a stage runs only when every earlier one succeeded
    ensures forall i :: 0 <= i < |r.calls| - 1 ==> lib.FailureOf(r.calls[i]) == None
    // the last stage run decides: its error, wrapped with that stage's message,
    // or, when all three passed, the object with no error
    ensures match lib.FailureOf(r.calls[|r.calls| - 1])
      case Some(e) => r.reply == Reply(None, Some(Wrapped(Stages[|r.calls| - 1].Message(), e)))
      case None => |r.calls| == 3 && r.reply == Reply(Some(r.calls[2].obj), None)
  {
    var newClient := NewClient(req.host, req.accessKey, req.accessSecret, false);
    var client := lib.newV2(req.host, req.accessKey, req.accessSecret, false);
    if client.Err? then
      RemoteFetched(Reply(None, Some(Wrapped(ClientStage.Message(), client.error))), [newClient])
    else
      var getObject := GetObject(client.value, req.bucket, req.key);
      var obj := lib.getObject(client.value, req.bucket, req.key);
      if obj.Err? then
        RemoteFetched(Reply(None, Some(Wrapped(ObjectStage.Message(), obj.error))), [newClient, getObject])
      else
        var calls := [newClient, getObject, StatObject(obj.value)];
        match lib.stat(obj.value)
        case Some(e) => RemoteFetched(Reply(None, Some(Wrapped(StatStage.Message(), e))), calls)
        case None => RemoteFetched(Reply(Some(obj.value), None), calls)
  }

  /** The file-system adapter: a plain pass-through to the open primitive. */
  function Open(os: OsOpen, localPath: string): (r: Reply)
    ensures r == os(localPath)
  {
    os(localPath)
  }

  // ---- the branches of FetchFile, one lemma each ----

  /** A successful remote fetch is the answer: tagged Remote, no error, nothing logged, local never opened. */
  lemma RemoteSuccessSkipsLocal(g: Getter, localPath: string, host: string, bucket: string, key: string)
    requires g.RemoteReady(host, bucket, key)
    requires g.remoteFetcher(g.Request(host, bucket, key)).err == None
    ensures FetchFile(g, localPath, host, bucket, key) ==
      Fetched(g.remoteFetcher(g.Request(host, bucket, key)).handle, Remote, None, [], [FetchRemote(g.Request(host, bucket, key))])
  {
  }

  /** With remote storage disabled only localPath is opened, nothing is logged, and the outcome is Local. */
  lemma DisabledOpensLocalOnly(g: Getter, localPath: string, host: string, bucket: string, key: string)
    requires !g.useRemoteFS
    ensures var r := FetchFile(g, localPath, host, bucket, key);
      r.calls == [OpenFile(localPath)] && r.log == [] && r.source == Local &&
      r.err == g.localFetcher(localPath).err
  {
  }

  /** A failed remote fetch logs its error once, then localPath is opened and decides the outcome. */
  lemma RemoteFailureFallsBack(g: Getter, localPath: string, host: string, bucket: string, key: string)
    requires g.RemoteReady(host, bucket, key)
    requires g.remoteFetcher(g.Request(host, bucket, key)).err != None
    ensures var r := FetchFile(g, localPath, host, bucket, key);
      r.log == [RemoteFailed(g.remoteFetcher(g.Request(host, bucket, key)).err.value)] &&
      r.calls == [FetchRemote(g.Request(host, bucket, key)), OpenFile(localPath)] &&
      r.source == Local && r.err == g.localFetcher(localPath).err &&
      r.stream == (if r.err == None then g.localFetcher(localPath).handle else None)
  {
  }

  /** Remote enabled with host, bucket or key empty: remote is not asked, one
      missing-fields event carrying all three values is logged, local is used. */
  lemma MissingFieldsFallsBack(g: Getter, localPath: string, host: string, bucket: string, key: string)
    requires g.useRemoteFS && (host == "" || bucket == "" || key == "")
    ensures var r := FetchFile(g, localPath, host, bucket, key);
      r.log == [MissingFields(host, bucket, key)] && r.calls == [OpenFile(localPath)] &&
      r.source == Local && r.err == g.localFetcher(localPath).err
  {
  }

  /** A failed local open is the answer, whatever happened remotely: no stream, Local, the local error unchanged. */
  lemma LocalFailureSurfaces(g: Getter, localPath: string, host: string, bucket: string, key: string)
    requires g.localFetcher(localPath).err != None
    requires !g.RemoteReady(host, bucket, key) || g.remoteFetcher(g.Request(host, bucket, key)).err != None
    ensures var r := FetchFile(g, localPath, host, bucket, key);
      r.stream == None && r.source == Local && r.err == g.localFetcher(localPath).err
  {
  }

  // ---- the diagnostic lines ----

  /** The remote-failure line announces the fallback and carries the error's text. */
  lemma RemoteFailedLineCarriesCause(err: Error)
    ensures Contains(Line(RemoteFailed(err)), FallbackNotice)
    ensures Contains(Line(RemoteFailed(err)), err.Text())
  {
    ContainsSuffix("", FallbackNotice);
    assert "" + FallbackNotice == FallbackNotice;
    ContainsAppend(FallbackNotice, FallbackNotice, " - ");
    ContainsAppend(FallbackPrefix, FallbackNotice, err.Text());
    ContainsSuffix(FallbackPrefix, err.Text());
  }

  /** The missing-fields line names the reason and echoes host, bucket and key, empty ones included. */
  lemma MissingFieldsLineEchoesValues(host: string, bucket: string, key: string)
    ensures Contains(Line(MissingFields(host, bucket, key)), MissingFieldsNotice)
    ensures Contains(Line(MissingFields(host, bucket, key)), Field("host", host))
    ensures Contains(Line(MissingFields(host, bucket, key)), Field("bucket", bucket))
    ensures Contains(Line(MissingFields(host, bucket, key)), Field("key", key))
  {
    var h, b, k := Field("host", host), Field("bucket", bucket), Field("key", key);
    var s0 := MissingFieldsNotice + ". ";
    var s1 := s0 + h;
    var s2 := s1 + ", ";
    var s3 := s2 + b;
    var s4 := s3 + ", ";
    var s5 := s4 + k;
    assert Line(MissingFields(host, bucket, key)) == s5;
    ContainsSuffix("", MissingFieldsNotice);
    assert "" + MissingFieldsNotice == MissingFieldsNotice;
    ContainsAppend(MissingFieldsNotice, MissingFieldsNotice, ". ");
    ContainsAppend(s0, MissingFieldsNotice, h);
    ContainsAppend(s1, MissingFieldsNotice, ", ");
    ContainsAppend(s2, MissingFieldsNotice, b);
    ContainsAppend(s3, MissingFieldsNotice, ", ");
    ContainsAppend(s4, MissingFieldsNotice, k);
    ContainsSuffix(s0, h);
    ContainsAppend(s1, h, ", ");
    ContainsAppend(s2, h, b);
    ContainsAppend(s3, h, ", ");
    ContainsAppend(s4, h, k);
    ContainsSuffix(s2, b);
    ContainsAppend(s3, b, ", ");
    ContainsAppend(s4, b, k);
    ContainsSuffix(s4, k);
  }

  // ---- the production dispatcher ----

  /** With the real adapters, a stage that fails makes FetchFile log one line
      naming that stage and carrying the library's error, then open localPath. */
  lemma StageFailureLogged(useRemoteFS: bool, accessKey: string, accessSecret: string, lib: Minio, os: OsOpen,
                           localPath: string, host: string, bucket: string, key: string)
    requires useRemoteFS && host != "" && bucket != "" && key != ""
    requires FetchRemoteFile(lib, RemoteRequest(accessKey, accessSecret, host, bucket, key)).reply.err != None
    ensures var remote := FetchRemoteFile(lib, RemoteRequest(accessKey, accessSecret, host, bucket, key));
      var stage := Stages[|remote.calls| - 1];
      var r := FetchFile(New(useRemoteFS, accessKey, accessSecret, lib, os), localPath, host, bucket, key);
      var cause := lib.FailureOf(remote.calls[|remote.calls| - 1]);
      cause != None && r.log == [RemoteFailed(Wrapped(stage.Message(), cause.value))] &&
      Contains(Line(r.log[0]), stage.Message()) && Contains(Line(r.log[0]), cause.value.Text()) &&
      r.calls == [FetchRemote(RemoteRequest(accessKey, accessSecret, host, bucket, key)), OpenFile(localPath)] &&
      r.source == Local && r.err == os(localPath).err
  {
    var req := RemoteRequest(accessKey, accessSecret, host, bucket, key);
    var remote := FetchRemoteFile(lib, req);
    var m := Stages[|remote.calls| - 1].Message();
    var cause := lib.FailureOf(remote.calls[|remote.calls| - 1]);
    WrappedTextShowsBoth(m, cause.value);
    ContainsPrepend(FallbackPrefix, Wrapped(m, cause.value).Text(), m);
    ContainsPrepend(FallbackPrefix, Wrapped(m, cause.value).Text(), cause.value.Text());
  }
}
