/** Vocabulary shared by the fetch dispatcher, its remote and local adapters
    and the earlier inline variant: stream handles, Go error values, the
    `(stream, error)` pairs the collaborators hand back, the remote-storage
    library seen as three abstract calls, and the trace of calls a fetch makes. */
module Fetch {

  datatype Option<+T> = None | Some(value: T)

  /** An open, readable stream (Go's io.ReadCloser), known only by an id. */
  datatype Stream = Stream(id: nat)

  /** A remote-storage client session, as minio.NewV2 returns it. */
  datatype Client = Client(id: nat)

  /** A Go error value: a plain error (errors.New, fmt.Errorf) or one
      annotated by errors.Wrap with a message. */
  datatype Error = Leaf(text: string) | Wrapped(message: string, cause: Error)
  {
    /** What `err.Error()` prints; errors.Wrap renders as "message: cause". */
    function Text(): string
    {
      match this
      case Leaf(t) => t
      case Wrapped(m, c) => m + ": " + c.Text()
    }
  }

  /** A library call that yields a value or fails with an error. */
  datatype Result<+T> = Ok(value: T) | Err(error: Error)

  /** The `(io.ReadCloser, error)` pair a remote fetch or a local open
      returns. Go does not forbid both halves being set at once. */
  datatype Reply = Reply(handle: Option<Stream>, err: Option<Error>)

  /** The five arguments of a remote fetch. */
  datatype RemoteRequest = RemoteRequest(accessKey: string, accessSecret: string, host: string, bucket: string, key: string)

  /** One call to a collaborator, in the order it is made. */
  datatype Call =
    | FetchRemote(request: RemoteRequest)                                         // remoteFetcher.FetchRemoteFile
    | OpenFile(path: string)                                                      // localFetcher.Open or os.Open
    | NewClient(endpoint: string, accessKey: string, accessSecret: string, secure: bool)  // minio.NewV2
    | GetObject(client: Client, bucket: string, key: string)                      // client.GetObject
    | StatObject(obj: Stream)                                                  // obj.Stat

  /** The remote-storage library, as the three calls the adapters make. */
  datatype Minio = Minio(
    newV2: (string, string, string, bool) -> Result<Client>,
    getObject: (Client, string, string) -> Result<Stream>,
    stat: Stream -> Option<Error>)
  {
    /** The error, if any, with which the library answers one of its calls. */
    function FailureOf(c: Call): Option<Error>
    {
      match c
      case NewClient(h, a, s, secure) =>
        if newV2(h, a, s, secure).Err? then Some(newV2(h, a, s, secure).error) else None
      case GetObject(client, b, k) =>
        if getObject(client, b, k).Err? then Some(getObject(client, b, k).error) else None
      case StatObject(obj) => stat(obj)
      case _ => None
    }
  }

  /** The file system's open primitive (os.Open). */
  type OsOpen = string -> Reply

  /** The three stages of a remote fetch, and the message each wraps its failure with. */
  datatype Stage = ClientStage | ObjectStage | StatStage
  {
    function Message(): string
    {
      match this
      case ClientStage => "unable to get remote fs client"
      case ObjectStage => "unable to get remote object"
      case StatStage => "unable to get remote file info"
    }
  }

  const Stages: seq<Stage> := [ClientStage, ObjectStage, StatStage]

  /** Go's strings.Contains: `part` occurs somewhere in `s`. */
  predicate Contains(s: string, part: string)
  {
    exists i :: 0 <= i <= |s| && part <= s[i..]
  }

  lemma ContainsSuffix(s: string, part: string)
    ensures Contains(s + part, part)
  {
    assert (s + part)[|s|..] == part;
  }

  lemma ContainsAppend(s: string, part: string, t: string)
    requires Contains(s, part)
    ensures Contains(s + t, part)
  {
    var i :| 0 <= i <= |s| && part <= s[i..];
    assert (s + t)[i..] == s[i..] + t;
  }

  lemma ContainsPrepend(t: string, s: string, part: string)
    requires Contains(s, part)
    ensures Contains(t + s, part)
  {
    var i :| 0 <= i <= |s| && part <= s[i..];
    assert (t + s)[|t| + i..] == s[i..];
  }

  /** A wrapped error's text shows both its message and its cause's text. */
  lemma WrappedTextShowsBoth(message: string, cause: Error)
    ensures Contains(Wrapped(message, cause).Text(), message)
    ensures Contains(Wrapped(message, cause).Text(), cause.Text())
  {
    ContainsSuffix("", message);
    assert "" + message == message;
    ContainsAppend(message, message, ": ");
    ContainsAppend(message + ": ", message, cause.Text());
    ContainsSuffix(message + ": ", cause.Text());
  }

  /** Go's %q verb (strconv.Quote), exact only for a string made of printable
      characters other than `"` and `\`; every other rune Go would escape. */
  function Quote(s: string): string
  {
    "\"" + s + "\""
  }
}
