# filegetter — a Dafny model of the remote-or-local fetch dispatcher

The `getter` package hands a caller one readable stream for a file. The file may sit in a
remote object-storage bucket or on local disk. The dispatcher, `Getter.FetchFile`, tries
remote storage only when it is enabled and the host, bucket and key are all given. If that
is not possible, or the remote fetch fails, it opens the local path. It returns the stream,
a `Source` tag (`local` or `remote`) and an error. It writes one diagnostic line when remote
storage is enabled but not used, because the location is incomplete or the remote fetch
failed. The remote adapter runs three stages in order: create a client, get the object,
probe its metadata. The first stage that fails stops the chain, and its
error is wrapped with a message naming that stage. `samples/naive.go` is an earlier version
of the same policy with the stages written inline. `samples/more_interfaces.go` holds a
second copy of the two adapters.

The model:

- `fetch.dfy` (module `Fetch`) holds the shared vocabulary.
  - Streams and clients are opaque ids.
  - Go errors are `Leaf(text)` or `Wrapped(message, cause)`; `Text()` renders them the way `errors.Wrap` does.
  - A collaborator's `(io.ReadCloser, error)` answer is a `Reply` pair. Go lets both halves be set, and the test fakes set both.
  - The storage library is a record of three functions: `newV2`, `getObject` and `stat`. The file system is `OsOpen = string -> Reply`.
  - `Call` records each call made to a collaborator, in order. This is how the contracts say "local is never opened" or "the probe is not run".
  - `Contains` is `strings.Contains`, which the test uses on the log buffer.
- `getter.dfy` (module `Getter`) models getter/getter.go.
  - The `Getter` configuration is an immutable value. Its capabilities are function-valued fields, and `New` installs the real adapters.
  - `FetchFile` returns a `Fetched` record: the stream, the tag, the error, the log as a sequence of structured events (`RemoteFailed(err)`, `MissingFields(host, bucket, key)`), and the calls it made.
  - `Line` renders an event as the text the logger receives.
  - The module also holds the remote adapter `FetchRemoteFile` and the local adapter `Open`.
- `getter_cases.dfy` (module `GetterCases`) restates each case of the table-driven test as a lemma. It uses fake capabilities that hand back "file data" together with their configured error.
- `more_interfaces.dfy` (module `MoreInterfaces`) models the standalone adapters. They are proved equal to the package's adapters, and there is one lemma per stage outcome.
- `naive.dfy` (module `Naive`) models `GetFile` as a method. It reassigns a local error step by step through the nested stage branches, as the Go code does. Its contract relates it to `Getter.FetchFile` built with the same library and file system:
  - the stream and error are the same;
  - the tag is `""` instead of `"local"` when the local open fails;
  - a remote failure is not logged;
  - the missing-fields line carries no values.

Every function is deterministic, so two fetches with the same configuration, arguments and
collaborator answers give the same result.

Two notes on the code itself:
- getter/getter.go never checks that localPath is non-empty, so no member requires it.
- getter/getter_test.go refers to `GetFile`, `remoteGetter`, `localGetter`, `SourceRemote` and `SourceLocal`, which getter/getter.go does not define. Its cases are modelled against `FetchFile` and the `Source` constants.

## Model

| member | source | states |
|---|---|---|
| `Getter.New` | getter/getter.go:42-50 | the configuration is kept as given; the remote capability answers as the storage adapter does and the local one as the file-system adapter does |
| `Getter.FetchFile` | getter/getter.go:54-74 | remote is asked iff enabled with host, bucket and key all non-empty; the tag is Remote exactly when that attempt succeeded, and then the remote stream comes back with no error, no log and no local open; every other outcome ends with opening localPath and carries the local error; any error a caller sees is the local one, with no stream; at most one diagnostic, exactly when remote was enabled but not used |
| `Getter.FetchRemoteFile` | getter/getter.go:84-100 | the stages run in the order client (host, credentials, insecure), object (bucket/key from that client), probe (that object); a stage runs only if all earlier ones succeeded; a failure returns no stream and the failing stage's error wrapped with that stage's message; success means all three ran and returns the object with no error |
| `Getter.Open` | getter/getter.go:110-112 | the path is passed through unchanged and the answer returned as is |
| `Getter.RemoteSuccessSkipsLocal` | getter/getter.go:57-60 | a successful remote fetch yields (its stream, Remote, no error), logs nothing and never opens the local file |
| `Getter.DisabledOpensLocalOnly` | getter/getter.go:63-73 | with remote disabled only localPath is opened, nothing is logged, the tag is Local and the error is the local one |
| `Getter.RemoteFailureFallsBack` | getter/getter.go:62-73 | a failed remote fetch logs exactly one RemoteFailed event with its error, then opens localPath; the outcome is the local one tagged Local |
| `Getter.MissingFieldsFallsBack` | getter/getter.go:63-73 | remote enabled with host, bucket or key empty: remote is not asked, one MissingFields event carries all three values, and localPath is opened |
| `Getter.LocalFailureSurfaces` | getter/getter.go:68-71 | a failed local open yields (no stream, Local, the local error unchanged), whatever happened on the remote side |
| `Getter.RemoteFailedLineCarriesCause` | getter/getter.go:62 | the remote-failure line contains "falling back to local source" and the error's text |
| `Getter.MissingFieldsLineEchoesValues` | getter/getter.go:65 | the missing-fields line contains "falling back to local source - missing fields" and the quoted host, bucket and key, empty ones included |
| `Getter.StageFailureLogged` | getter/getter.go:55-62 | with the real adapters, a failing stage makes FetchFile log one line naming that stage and carrying the library's error, then open localPath and return its outcome tagged Local |
| `GetterCases.ShouldUseRemote` | getter/getter_test.go:38-50 | remote enabled and succeeding: file data, Remote, no error, no log, no local open |
| `GetterCases.ConfigDisablesRemote` | getter/getter_test.go:51-63 | remote disabled: file data, Local, no error, no log, only the local open |
| `GetterCases.RemoteErrorFallsBack` | getter/getter_test.go:64-76 | remote fails, local succeeds: file data, Local, no error, one line containing "falling back to local source" |
| `GetterCases.RemoteAndLocalFail` | getter/getter_test.go:77-89 | both fail: no stream, Local, the error "unable to read from disk", one line containing "falling back to local source" |
| `GetterCases.EmptyBucketUsesLocal` | getter/getter_test.go:90-102 | empty bucket: file data, Local, one missing-fields line echoing `"bucket":""`, `"key":"key"` and `"host":"host"` |
| `GetterCases.EmptyKeyUsesLocal` | getter/getter_test.go:103-115 | empty key: file data, Local, one missing-fields line echoing `"key":""` beside the other two values |
| `GetterCases.EmptyHostUsesLocal` | getter/getter_test.go:116-128 | empty host: file data, Local, one missing-fields line echoing `"host":""` beside the other two values |
| `GetterCases.ExpectedLogStrings` | getter/getter_test.go:101-127 | the strings the test searches the log for are exactly the pieces the lines are built from |
| `MoreInterfaces.FetchRemoteFile` | samples/more_interfaces.go:19-35 | behaves exactly as the package's remote adapter (same calls, same reply) |
| `MoreInterfaces.Open` | samples/more_interfaces.go:45-47 | the path is passed through unchanged and the answer returned as is |
| `MoreInterfaces.ClientFailureStops` | samples/more_interfaces.go:20-23 | no client: only the client call is made, and the reply is no stream plus the error wrapped "unable to get remote fs client" |
| `MoreInterfaces.ObjectFailureStops` | samples/more_interfaces.go:25-28 | no object: the probe is not run, and the reply is no stream plus the error wrapped "unable to get remote object" |
| `MoreInterfaces.StatFailureDropsObject` | samples/more_interfaces.go:29-32 | failed probe: no stream, and the error wrapped "unable to get remote file info" |
| `MoreInterfaces.ObjectOnlyWhenAllStagesSucceed` | samples/more_interfaces.go:19-34 | the error is nil iff all three stages succeed, and then the object from the second stage is returned |
| `Naive.New` | samples/naive.go:28-35 | the configuration is kept as given |
| `Naive.GetFile` | samples/naive.go:38-74 | a client is created iff remote is enabled with host, bucket and key all non-empty; the calls are the adapter's stages in order, then the local open unless all stages passed; "remote" exactly when all stages pass, with the object and no error; only the bare missing-fields line is ever logged, never a remote failure; a local failure gives no stream, an empty tag and the local error; a local success gives its stream tagged "local"; stream and error agree with `Getter.FetchFile` over the same collaborators, and the tag and log differ from it only as just stated |

## Left out

- The storage client and `os.Open` are foreign calls. They are abstract functions from their arguments to an outcome, and their internals are not modelled.
- The logger's prefix and timestamp are not modelled. A diagnostic is a structured event, and `Line` gives only the message text.
- Getter.MissingFieldsLineEchoesValues: values are quoted with plain double quotes, not with Go's `%q` escaping (strconv.Quote). So the line is exact only for values made of printable characters other than `"` and `\`; any other rune, such as U+00A0 or U+200B, Go would escape.
- Reading and closing streams is not modelled: a stream is an opaque id, and ownership and release are the caller's business.
- main.go is not part of this model. It is a demo loop over a channel of jobs and makes no decisions.
- samples/full_implementation_simplified.go, samples/embedded_01.go and samples/embedded_03.go are not part of this model. They are sketches with elided validation and stubbed error returns, so they promise no behaviour.
- samples/naive_simple.go is not part of this model. After a failed client creation it still calls the client, and the outcome then depends on library internals.
- samples/embedded_02.go, samples/interface_abuse.go and samples/test_intro.go declare interfaces only or do not compile. They are not part of this model.
- Concurrent fetches are not modelled. They share only the immutable configuration, which is an immutable value here.
