/** The cases of the table-driven test of getter/getter_test.go, each as a
    lemma about FetchFile with fake capabilities. Both fakes hand back the
    same stream ("file data") together with their configured error. */
module GetterCases {
  import opened Fetch
  import opened Getter

  /** The stream holding "file data". */
  const FileData := Stream(1)

  /** A dispatcher whose remote and local capabilities are fakes failing with the given errors. */
  function TestGetter(useRemoteFS: bool, remoteErr: Option<Error>, localErr: Option<Error>): Getter
  {
    Getter(useRemoteFS, "accesskey", "accesssecret",
      _ => Reply(Some(FileData), remoteErr), _ => Reply(Some(FileData), localErr))
  }

  lemma ShouldUseRemote()
    ensures var r := FetchFile(TestGetter(true, None, None), "localpath", "host", "bucket", "key");
      r.stream == Some(FileData) && r.source == Remote && r.err == None && r.log == [] &&
      OpenFile("localpath") !in r.calls
  {
  }

  lemma ConfigDisablesRemote()
    ensures var r := FetchFile(TestGetter(false, None, None), "localpath", "host", "bucket", "key");
      r.stream == Some(FileData) && r.source == Local && r.err == None && r.log == [] &&
      r.calls == [OpenFile("localpath")]
  {
  }

  lemma RemoteErrorFallsBack()
    ensures var r := FetchFile(TestGetter(true, Some(Leaf("unable to remote")), None), "localpath", "host", "bucket", "key");
      r.stream == Some(FileData) && r.source == Local && r.err == None &&
      |r.log| == 1 && Contains(Line(r.log[0]), FallbackNotice)
  {
    RemoteFailedLineCarriesCause(Leaf("unable to remote"));
  }

  lemma RemoteAndLocalFail()
    ensures var r := FetchFile(TestGetter(true, Some(Leaf("falling back to local source")), Some(Leaf("unable to read from disk"))),
                               "localpath", "host", "bucket", "key");
      r.stream == None && r.source == Local && r.err == Some(Leaf("unable to read from disk")) &&
      |r.log| == 1 && Contains(Line(r.log[0]), FallbackNotice)
  {
    RemoteFailedLineCarriesCause(Leaf("falling back to local source"));
  }

  lemma EmptyBucketUsesLocal()
    ensures var r := FetchFile(TestGetter(true, None, None), "localpath", "host", "", "key");
      r.stream == Some(FileData) && r.source == Local && r.err == None && |r.log| == 1 &&
      Contains(Line(r.log[0]), MissingFieldsNotice) &&
      Contains(Line(r.log[0]), Field("bucket", "")) && Contains(Line(r.log[0]), Field("key", "key")) &&
      Contains(Line(r.log[0]), Field("host", "host"))
  {
    var r := FetchFile(TestGetter(true, None, None), "localpath", "host", "", "key");
    MissingFieldsFallsBack(TestGetter(true, None, None), "localpath", "host", "", "key");
    assert r.log == [MissingFields("host", "", "key")];
    MissingFieldsLineEchoesValues("host", "", "key");
  }

  lemma EmptyKeyUsesLocal()
    ensures var r := FetchFile(TestGetter(true, None, None), "localpath", "host", "bucket", "");
      r.stream == Some(FileData) && r.source == Local && r.err == None && |r.log| == 1 &&
      Contains(Line(r.log[0]), MissingFieldsNotice) &&
      Contains(Line(r.log[0]), Field("bucket", "bucket")) && Contains(Line(r.log[0]), Field("key", "")) &&
      Contains(Line(r.log[0]), Field("host", "host"))
  {
    var r := FetchFile(TestGetter(true, None, None), "localpath", "host", "bucket", "");
    MissingFieldsFallsBack(TestGetter(true, None, None), "localpath", "host", "bucket", "");
    assert r.log == [MissingFields("host", "bucket", "")];
    MissingFieldsLineEchoesValues("host", "bucket", "");
  }

  lemma EmptyHostUsesLocal()
    ensures var r := FetchFile(TestGetter(true, None, None), "localpath", "", "bucket", "key");
      r.stream == Some(FileData) && r.source == Local && r.err == None && |r.log| == 1 &&
      Contains(Line(r.log[0]), MissingFieldsNotice) &&
      Contains(Line(r.log[0]), Field("bucket", "bucket")) && Contains(Line(r.log[0]), Field("key", "key")) &&
      Contains(Line(r.log[0]), Field("host", ""))
  {
    var r := FetchFile(TestGetter(true, None, None), "localpath", "", "bucket", "key");
    MissingFieldsFallsBack(TestGetter(true, None, None), "localpath", "", "bucket", "key");
    assert r.log == [MissingFields("", "bucket", "key")];
    MissingFieldsLineEchoesValues("", "bucket", "key");
  }

  /** The strings the test looks for in the log are the pieces the lines are built from. */
  lemma ExpectedLogStrings()
    ensures FallbackNotice == "falling back to local source"
    ensures MissingFieldsNotice == "falling back to local source - missing fields"
    ensures Field("bucket", "") == "\"bucket\":\"\"" && Field("bucket", "bucket") == "\"bucket\":\"bucket\""
    ensures Field("key", "") == "\"key\":\"\"" && Field("key", "key") == "\"key\":\"key\""
    ensures Field("host", "") == "\"host\":\"\"" && Field("host", "host") == "\"host\":\"host\""
  {
  }
}
