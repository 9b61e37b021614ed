/** The remote and local adapters of samples/more_interfaces.go, written
    there as standalone capabilities. They are the same code as the adapters
    of getter/getter.go, and their contracts say so; the lemmas below pin
    the outcome of each stage of the remote chain. */
module MoreInterfaces {
  import opened Fetch
  import Getter

  /** The remote-storage adapter: client, then object, then a metadata probe. */
  function FetchRemoteFile(lib: Minio, req: RemoteRequest): (r: Getter.RemoteFetched)
    ensures r == Getter.FetchRemoteFile(lib, req)
  {
    var newClient := NewClient(req.host, req.accessKey, req.accessSecret, false);
    var client := lib.newV2(req.host, req.accessKey, req.accessSecret, false);
    if client.Err? then
      Getter.RemoteFetched(Reply(None, Some(Wrapped(ClientStage.Message(), client.error))), [newClient])
    else
      var getObject := GetObject(client.value, req.bucket, req.key);
      var obj := lib.getObject(client.value, req.bucket, req.key);
      if obj.Err? then
        Getter.RemoteFetched(Reply(None, Some(Wrapped(ObjectStage.Message(), obj.error))), [newClient, getObject])
      else
        var calls := [newClient, getObject, StatObject(obj.value)];
        match lib.stat(obj.value)
        case Some(e) => Getter.RemoteFetched(Reply(None, Some(Wrapped(StatStage.Message(), e))), calls)
        case None => Getter.RemoteFetched(Reply(Some(obj.value), None), calls)
  }

  /** The file-system adapter: the path goes through unchanged and the answer comes back as is. */
  function Open(os: OsOpen, localPath: string): (r: Reply)
    ensures r == os(localPath)
  {
    os(localPath)
  }

  /** No client: nothing else is asked, and the error comes back wrapped as a client failure. */
  lemma ClientFailureStops(lib: Minio, req: RemoteRequest)
    requires lib.newV2(req.host, req.accessKey, req.accessSecret, false).Err?
    ensures FetchRemoteFile(lib, req) == Getter.RemoteFetched(
      Reply(None, Some(Wrapped("unable to get remote fs client", lib.newV2(req.host, req.accessKey, req.accessSecret, false).error))),
      [NewClient(req.host, req.accessKey, req.accessSecret, false)])
  {
  }

  /** No object: the probe is not run, and the error comes back wrapped as an object failure. */
  lemma ObjectFailureStops(lib: Minio, req: RemoteRequest)
    requires lib.newV2(req.host, req.accessKey, req.accessSecret, false).Ok?
    requires lib.getObject(lib.newV2(req.host, req.accessKey, req.accessSecret, false).value, req.bucket, req.key).Err?
    ensures var client := lib.newV2(req.host, req.accessKey, req.accessSecret, false).value;
      FetchRemoteFile(lib, req) == Getter.RemoteFetched(
        Reply(None, Some(Wrapped("unable to get remote object", lib.getObject(client, req.bucket, req.key).error))),
        [NewClient(req.host, req.accessKey, req.accessSecret, false), GetObject(client, req.bucket, req.key)])
  {
  }

  /** The probe fails: the object is dropped, and the error comes back wrapped as a file-info failure. */
  lemma StatFailureDropsObject(lib: Minio, req: RemoteRequest)
    requires lib.newV2(req.host, req.accessKey, req.accessSecret, false).Ok?
    requires lib.getObject(lib.newV2(req.host, req.accessKey, req.accessSecret, false).value, req.bucket, req.key).Ok?
    requires lib.stat(lib.getObject(lib.newV2(req.host, req.accessKey, req.accessSecret, false).value, req.bucket, req.key).value).Some?
    ensures var obj := lib.getObject(lib.newV2(req.host, req.accessKey, req.accessSecret, false).value, req.bucket, req.key).value;
      FetchRemoteFile(lib, req).reply == Reply(None, Some(Wrapped("unable to get remote file info", lib.stat(obj).value)))
  {
  }

  /** The object comes back, with no error, exactly when all three stages succeed. */
  lemma ObjectOnlyWhenAllStagesSucceed(lib: Minio, req: RemoteRequest)
    ensures FetchRemoteFile(lib, req).reply.err == None <==>
      lib.newV2(req.host, req.accessKey, req.accessSecret, false).Ok? &&
      lib.getObject(lib.newV2(req.host, req.accessKey, req.accessSecret, false).value, req.bucket, req.key).Ok? &&
      lib.stat(lib.getObject(lib.newV2(req.host, req.accessKey, req.accessSecret, false).value, req.bucket, req.key).value) == None
    ensures FetchRemoteFile(lib, req).reply.err == None ==>
      FetchRemoteFile(lib, req).reply.handle ==
        Some(lib.getObject(lib.newV2(req.host, req.accessKey, req.accessSecret, false).value, req.bucket, req.key).value)
  {
  }
}
