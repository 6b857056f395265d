/** Fetching the source PDF into the temporary directory: the response's
    Content-Type decides the local file name, then the streamed body is
    written chunk by chunk to that file.

    The HTTP exchange is given as its outcome (status, Content-Type header,
    body chunks); `uuid.uuid4()` is passed in. The written file is returned
    as its path and contents. */
module FileFinder {
  import opened Common
  import opened Uuids
  import opened FanIn

  const PdfContentType: string := "application/pdf"

  /** `_determine_file_name(content_type)`: the name is chosen exactly
      when the header is "application/pdf", compared exactly, so case,
      parameters and a missing header (None) are all rejected with
      ValueError; it is the UUID string followed by ".pdf". */
  function DetermineFileName(contentType: Option<string>, fileUuid: Uuid): (r: Result<string, Exception>)
    ensures r.Success? <==> contentType == Some("application/pdf")
    ensures r.Failure? ==> r.error.ValueError?
    ensures r.Success? ==> |r.value| == 40 && r.value[..36] == UuidString(fileUuid) && r.value[36..] == ".pdf"
  {
    if contentType != Some(PdfContentType) then Failure(ValueError("Content-Type must be application/pdf"))
    else Success(UuidString(fileUuid) + ".pdf")
  }

  /** Distinct UUIDs give distinct names. */
  lemma DetermineFileNameInjective(u: Uuid, v: Uuid)
    requires DetermineFileName(Some(PdfContentType), u) == DetermineFileName(Some(PdfContentType), v)
    ensures u == v
  {
    UuidStringInjective(u, v);
  }

  /** The outcome of `client.stream("GET", url)`. */
  datatype StreamResponse = StreamResponse(ok: bool, contentType: Option<string>, chunks: seq<seq<byte>>)

  /** `add_file_to_temp_directory(pdf_source_url, temp_directory)`. On
      success the file at `temp_directory + "/" + name` holds the body, and
      the name is returned; an error status or a rejected Content-Type
      raises before any file is opened. */
  method AddFileToTempDirectory(response: StreamResponse, tempDirectory: string, fileUuid: Uuid)
    returns (r: Result<string, Exception>, file: Option<(string, seq<byte>)>)
    ensures !response.ok ==> r == Failure(HttpStatusError) && file == None
    ensures response.ok ==>
      match DetermineFileName(response.contentType, fileUuid)
      case Failure(e) => r == Failure(e) && file == None
      case Success(name) =>
        r == Success(name) && file == Some((tempDirectory + "/" + name, Flatten(response.chunks)))
  {
    if !response.ok {
      return Failure(HttpStatusError), None;
    }
    var fileName := DetermineFileName(response.contentType, fileUuid);
    if fileName.Failure? {
      return Failure(fileName.error), None;
    }
    var path := tempDirectory + "/" + fileName.value;
    var contents: seq<byte> := [];
    for i := 0 to |response.chunks|
      invariant contents == Flatten(response.chunks[..i])
    {
      FlattenAppend(response.chunks[..i], [response.chunks[i]]);
      assert response.chunks[..i + 1] == response.chunks[..i] + [response.chunks[i]];
      contents := contents + response.chunks[i];
    }
    assert response.chunks[..|response.chunks|] == response.chunks;
    file := Some((path, contents));
    r := Success(fileName.value);
  }
}
