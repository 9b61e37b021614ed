/** The earlier, inline version of the fetch policy in samples/naive.go:
    the three remote stages are written out in GetFile itself, a remote
    failure is dropped without a log line, the missing-fields line carries
    no values, and a failed local open comes back with an empty source tag. */
module Naive {
  import opened Fetch
  import G = Getter

  const SourceLocal := "local"
  const SourceRemote := "remote"

  /** The only line this version ever logs. */
  const MissingFieldsLine := "falling back to local source - missing fields"

  /** A configured fetcher; it calls the storage library and the file system directly. */
  datatype Getter = Getter(useRemoteFS: bool, accessKey: string, accessSecret: string)
  {
    /** Remote storage is enabled and the remote location is complete. */
    predicate RemoteReady(host: string, bucket: string, key: string)
    {
      useRemoteFS && host != "" && key != "" && bucket != ""
    }
  }

  function New(useRemoteFS: bool, accessKey: string, accessSecret: string): (g: Getter)
    ensures g.useRemoteFS == useRemoteFS && g.accessKey == accessKey && g.accessSecret == accessSecret
  {
    Getter(useRemoteFS, accessKey, accessSecret)
  }

  /** Fetch a file from remote storage when possible, from local disk otherwise.
      `lib` is the storage library and `os` the file system; `log` is what
      was written to the logger and `calls` what was asked of them, in order. */
  method GetFile(g: Getter, lib: Minio, os: OsOpen, localPath: string, host: string, bucket: string, key: string)
    returns (fh: Option<Stream>, source: string, err: Option<Error>, log: seq<string>, calls: seq<Call>)
    // remote storage is asked (a client is created) iff it is enabled and host, bucket and key are all set
    ensures (|calls| > 0 && calls[0].NewClient?) <==> g.RemoteReady(host, bucket, key)
    // the stages are those of the remote adapter, in its order, followed by the local open unless all passed
    ensures var remote := G.FetchRemoteFile(lib, RemoteRequest(g.accessKey, g.accessSecret, host, bucket, key));
      calls == (if g.RemoteReady(host, bucket, key) then remote.calls else []) +
               (if source == SourceRemote then [] else [OpenFile(localPath)])
    // the object is returned, tagged "remote", exactly when all three stages succeed
    ensures source == SourceRemote <==>
      g.RemoteReady(host, bucket, key) &&
      G.FetchRemoteFile(lib, RemoteRequest(g.accessKey, g.accessSecret, host, bucket, key)).reply.err == None
    ensures source == SourceRemote ==> err == None && fh != None
    // a remote failure is never logged; only missing fields are, and without their values
    ensures log == (if g.useRemoteFS && !g.RemoteReady(host, bucket, key) then [MissingFieldsLine] else [])
    // a failed local open gives no stream, an EMPTY source tag and the error unchanged
    ensures err != None ==> fh == None && source == "" && err == os(localPath).err
    // a successful local open gives its stream, tagged "local"
    ensures source != SourceRemote && os(localPath).err == None ==>
      fh == os(localPath).handle && source == SourceLocal && err == None
    // against the dispatcher of getter/getter.go with the same library and file system:
    // the same stream and error; the tag differs only on a local failure; only the missing-fields event is kept
    ensures var r := G.FetchFile(G.New(g.useRemoteFS, g.accessKey, g.accessSecret, lib, os), localPath, host, bucket, key);
      fh == r.stream && err == r.err &&
      source == (if r.err != None then "" else r.source.Name()) &&
      log == (if r.log != [] && r.log[0].MissingFields? then [MissingFieldsLine] else [])
  {
    log, calls := [], [];
    if g.useRemoteFS && host != "" && key != "" && bucket != "" {
      // the remote stages; `remoteErr` is wrapped at the stage that fails and then dropped
      var remoteErr: Option<Error> := None;
      var client := lib.newV2(host, g.accessKey, g.accessSecret, false);
      calls := calls + [NewClient(host, g.accessKey, g.accessSecret, false)];
      if client.Err? {
        remoteErr := Some(Wrapped(ClientStage.Message(), client.error));
      } else {
        var obj := lib.getObject(client.value, bucket, key);
        calls := calls + [GetObject(client.value, bucket, key)];
        if obj.Err? {
          remoteErr := Some(Wrapped(ObjectStage.Message(), obj.error));
        } else {
          var statErr := lib.stat(obj.value);
          calls := calls + [StatObject(obj.value)];
          if statErr.Some? {
            remoteErr := Some(Wrapped(StatStage.Message(), statErr.value));
          } else {
            return Some(obj.value), SourceRemote, None, log, calls;
          }
        }
      }
      // falling back to local disk
    } else if g.useRemoteFS {
      log := log + [MissingFieldsLine];
    }

    var local := os(localPath);
    calls := calls + [OpenFile(localPath)];
    if local.err.Some? {
      return None, "", local.err, log, calls;
    }
    return local.handle, SourceLocal, None, log, calls;
  }
}
