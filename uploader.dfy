/** The uploader: names the batch input file of one page after its trace id
    and page number, writes the page's request as one JSON line and turns
    the provider's upload response into a `BatchFile`.

    Reading the image, base64 encoding, `json.dumps`, the temporary-file
    path helper and the upload call are parameters; the deployment name read
    from the environment is passed in. */
module Uploader {
  import opened Common
  import opened Uuids
  import opened Strings
  import opened Json
  import opened Records

  /** `f"{trace_id}--page--{page_number}.jsonl"`. */
  function UploadFileName(traceId: Uuid, pageNumber: int): string {
    UuidString(traceId) + "--page--" + DecimalString(pageNumber) + ".jsonl"
  }

  /** The position of the first "--" at or after `i`. */
  function FirstDoubleDashFrom(s: string, i: nat): (r: Option<nat>)
    ensures r.Some? ==> i <= r.value && r.value + 1 < |s|
    decreases |s| - i
  {
    if i + 1 >= |s| then None
    else if s[i] == '-' && s[i + 1] == '-' then Some(i)
    else FirstDoubleDashFrom(s, i + 1)
  }

  /** Reads the trace id text and the page number back out of an upload
      file name (which is also the request's `custom_id`): the text before
      the first "--", and the number between "--page--" and ".jsonl". */
  function DecodeUploadFileName(s: string): Option<(string, int)> {
    match FirstDoubleDashFrom(s, 0)
    case None => None
    case Some(i) =>
      var rest := s[i..];
      if |rest| >= 14 && rest[..8] == "--page--" && rest[|rest| - 6..] == ".jsonl" then
        match ParseDecimal(rest[8..|rest| - 6])
        case None => None
        case Some(n) => Some((s[..i], n))
      else None
  }

  lemma {:induction false} FirstDoubleDashAfter(p: string, t: string, i: nat)
    requires i <= |p| && !HasDoubleDash(p) && (|p| > 0 ==> p[|p| - 1] != '-')
    ensures FirstDoubleDashFrom(p + "--" + t, i) == Some(|p|)
    decreases |p| - i
  {
    var s := p + "--" + t;
    if i < |p| {
      if i + 1 < |p| {
        assert !(p[i] == '-' && p[i + 1] == '-');
      }
      assert !(s[i] == '-' && s[i + 1] == '-');
      FirstDoubleDashAfter(p, t, i + 1);
    }
  }

  /** The page number can be read back from the file name, and so can the
      trace id: a UUID string never contains "--". */
  lemma DecodeUploadFileNameRoundTrip(traceId: Uuid, pageNumber: int)
    ensures DecodeUploadFileName(UploadFileName(traceId, pageNumber)) == Some((UuidString(traceId), pageNumber))
  {
    var u := UuidString(traceId);
    var d := DecimalString(pageNumber);
    var s := UploadFileName(traceId, pageNumber);
    var tail := "page--" + d + ".jsonl";
    UuidStringHasNoDoubleDash(traceId);
    assert s == u + "--" + tail;
    FirstDoubleDashAfter(u, tail, 0);
    var rest := s[36..];
    assert s[..36] == u;
    assert rest == "--page--" + d + ".jsonl";
    assert |rest| >= 14;
    assert rest[..8] == "--page--";
    assert rest[|rest| - 6..] == ".jsonl";
    assert rest[8..|rest| - 6] == d;
    ParseDecimalString(pageNumber);
  }

  /** Different pages, or pages of different runs, never share a file name
      or a `custom_id`. */
  lemma UploadFileNameInjective(u: Uuid, p: int, v: Uuid, q: int)
    requires UploadFileName(u, p) == UploadFileName(v, q)
    ensures u == v && p == q
  {
    DecodeUploadFileNameRoundTrip(u, p);
    DecodeUploadFileNameRoundTrip(v, q);
    UuidStringInjective(u, v);
  }

  /** `_prompt_text()`. */
  const PromptText: string :=
    "\n    Convert the following PDF page to markdown.\n"
    + "    Return only the markdown with no explanation text.\n"
    + "    Leave out any page numbers and redundant headers or footers.\n"
    + "    Do not include any code blocks (e.g. \"```markdown\" or \"```\") in the response.\n"
    + "    If unable to parse, return an empty string.\n    "

  const ImageUrlPrefix: string := "data:image/png;base64,"

  /** `_jsonl_format(upload_file_name, encoded_image)`, with `deployment`
      the value of AZURE_OPENAI_API_DEPLOYMENT (None when unset). */
  function JsonlFormat(uploadFileName: string, encodedImage: string, deployment: Option<string>): Json {
    JObject([
      ("custom_id", JString(uploadFileName)),
      ("method", JString("POST")),
      ("url", JString("/chat/completions")),
      ("body", JObject([
        ("model", if deployment.Some? then JString(deployment.value) else JNull),
        ("messages", JArray([
          JObject([
            ("role", JString("user")),
            ("content", MessageContent(encodedImage))])])),
        ("max_tokens", JNumber(2000))]))])
  }

  /** The `content` of the user message. */
  function MessageContent(encodedImage: string): Json {
    JArray([
      JObject([("type", JString("text")), ("text", JString(PromptText))]),
      JObject([
        ("type", JString("image_url")),
        ("image_url", JObject([("url", JString(ImageUrlPrefix + encodedImage))]))])])
  }

  /** The request line: its `custom_id` is the file name and it posts to
      "/chat/completions". */
  lemma JsonlFormatRequest(uploadFileName: string, encodedImage: string, deployment: Option<string>)
    ensures var j := JsonlFormat(uploadFileName, encodedImage, deployment);
      && SubscriptPath(j, [Name("custom_id")]) == Success(JString(uploadFileName))
      && SubscriptPath(j, [Name("method")]) == Success(JString("POST"))
      && SubscriptPath(j, [Name("url")]) == Success(JString("/chat/completions"))
  {
    var j := JsonlFormat(uploadFileName, encodedImage, deployment);
    LookupMemberAt(j.members, 0);
    assert Subscript(j, Name("custom_id")) == Success(JString(uploadFileName));
    LookupMemberAt(j.members, 1);
    assert Subscript(j, Name("method")) == Success(JString("POST"));
    LookupMemberAt(j.members, 2);
    assert Subscript(j, Name("url")) == Success(JString("/chat/completions"));
  }

  /** The request body names the configured deployment (null when unset)
      and allows at most 2000 tokens. */
  lemma JsonlFormatBody(uploadFileName: string, encodedImage: string, deployment: Option<string>)
    ensures var j := JsonlFormat(uploadFileName, encodedImage, deployment);
      && SubscriptPath(j, [Name("body"), Name("model")])
         == Success(if deployment.Some? then JString(deployment.value) else JNull)
      && SubscriptPath(j, [Name("body"), Name("max_tokens")]) == Success(JNumber(2000))
  {
    var j := JsonlFormat(uploadFileName, encodedImage, deployment);
    var body := j.members[3].1;
    LookupMemberAt(j.members, 3);
    assert Subscript(j, Name("body")) == Success(body);
    LookupMemberAt(body.members, 0);
    assert Subscript(body, Name("model")) == Success(body.members[0].1);
    LookupMemberAt(body.members, 2);
    assert Subscript(body, Name("max_tokens")) == Success(JNumber(2000));
  }

  /** The body carries exactly one message, from the user, whose content is
      `MessageContent`. */
  lemma JsonlFormatMessage(uploadFileName: string, encodedImage: string, deployment: Option<string>)
    ensures var j := JsonlFormat(uploadFileName, encodedImage, deployment);
      && SubscriptPath(j, [Name("body"), Name("messages"), Index(0), Name("role")]) == Success(JString("user"))
      && SubscriptPath(j, [Name("body"), Name("messages"), Index(1)]).Failure?
      && SubscriptPath(j, [Name("body"), Name("messages"), Index(0), Name("content")]) == Success(MessageContent(encodedImage))
  {
    var j := JsonlFormat(uploadFileName, encodedImage, deployment);
    var body := j.members[3].1;
    var messages := body.members[1].1;
    var message := messages.items[0];
    LookupMemberAt(j.members, 3);
    assert Subscript(j, Name("body")) == Success(body);
    LookupMemberAt(body.members, 1);
    assert Subscript(body, Name("messages")) == Success(messages);
    SubscriptPathAppend(j, [Name("body"), Name("messages")], [Index(0), Name("role")]);
    SubscriptPathAppend(j, [Name("body"), Name("messages")], [Index(1)]);
    SubscriptPathAppend(j, [Name("body"), Name("messages")], [Index(0), Name("content")]);
    assert Subscript(messages, Index(0)) == Success(message);
    assert Subscript(messages, Index(1)).Failure?;
    LookupMemberAt(message.members, 0);
    assert Subscript(message, Name("role")) == Success(JString("user"));
    LookupMemberAt(message.members, 1);
    assert Subscript(message, Name("content")) == Success(MessageContent(encodedImage));
  }

  /** The message's two parts: the prompt text, then the image. */
  lemma MessageContentParts(encodedImage: string)
    ensures var c := MessageContent(encodedImage);
      && SubscriptPath(c, [Index(0), Name("type")]) == Success(JString("text"))
      && SubscriptPath(c, [Index(0), Name("text")]) == Success(JString(PromptText))
      && SubscriptPath(c, [Index(1), Name("type")]) == Success(JString("image_url"))
      && SubscriptPath(c, [Index(1), Name("image_url"), Name("url")]) == Success(JString(ImageUrlPrefix + encodedImage))
      && SubscriptPath(c, [Index(2)]).Failure?
  {
    var content := MessageContent(encodedImage);
    var text := content.items[0];
    var image := content.items[1];
    var imageUrl := image.members[1].1;
    assert Subscript(content, Index(0)) == Success(text);
    assert Subscript(content, Index(1)) == Success(image);
    assert Subscript(content, Index(2)).Failure?;
    LookupMemberAt(text.members, 0);
    assert Subscript(text, Name("type")) == Success(JString("text"));
    LookupMemberAt(text.members, 1);
    assert Subscript(text, Name("text")) == Success(JString(PromptText));
    LookupMemberAt(image.members, 0);
    assert Subscript(image, Name("type")) == Success(JString("image_url"));
    LookupMemberAt(image.members, 1);
    assert Subscript(image, Name("image_url")) == Success(imageUrl);
    LookupMemberAt(imageUrl.members, 0);
    assert Subscript(imageUrl, Name("url")) == Success(JString(ImageUrlPrefix + encodedImage));
  }

  /** The text written to the upload file: the serialised record and a
      newline. */
  function JsonlText(serialized: string): string {
    serialized + "\n"
  }

  /** The file holds exactly one line, provided the serialiser emits no
      newline (`json.dumps` escapes newlines inside strings). */
  lemma JsonlTextOneLine(serialized: string)
    requires '\n' !in serialized
    ensures Split(JsonlText(serialized), '\n') == [serialized, ""]
    ensures Split(Strip(JsonlText(serialized)), '\n') == [Strip(serialized)]
  {
    SplitPrefix(serialized, "", '\n');
    assert JsonlText(serialized) == serialized + "\n" + "";
    StripAppendSpace(serialized, '\n');
    SplitNoSeparator(Strip(serialized), '\n');
    StripIsSlice(serialized);
  }

  /** `upload_image_for_processing(client, image_file, temp_directory)`:
      reads and encodes the image, writes the request line to the upload
      file in the temporary directory, uploads it and describes the upload.
      `written` is the file written (path and text), `uploaded` the path
      handed to the upload call. */
  method UploadImageForProcessing(
    imageFile: ImageFile, tempDirectory: string,
    readImage: string -> Result<seq<byte>, Exception>, b64encode: seq<byte> -> string,
    fileInTempDir: (string, string) -> string, dumps: Json -> string,
    upload: string -> Result<FileObject, Exception>, deployment: Option<string>)
    returns (r: Result<BatchFile, Exception>, written: Option<(string, string)>, uploaded: Option<string>)
    ensures readImage(imageFile.path).Failure? ==>
      r == Failure(readImage(imageFile.path).error) && written == None && uploaded == None
    ensures readImage(imageFile.path).Success? ==>
      var name := UploadFileName(imageFile.traceId, imageFile.pageNumber);
      var path := fileInTempDir(tempDirectory, name);
      var record := JsonlFormat(name, b64encode(readImage(imageFile.path).value), deployment);
      && written == Some((path, JsonlText(dumps(record))))
      && uploaded == Some(path)
      && r == match upload(path)
         case Failure(e) => Failure(e)
         case Success(response) =>
           Success(BatchFile(response.id, response.filename, response.purpose, response.status, imageFile.traceId))
  {
    var image := readImage(imageFile.path);
    if image.Failure? {
      return Failure(image.error), None, None;
    }
    var encoded := b64encode(image.value);
    var uploadFileName := UploadFileName(imageFile.traceId, imageFile.pageNumber);
    var jsonl := JsonlFormat(uploadFileName, encoded, deployment);
    var location := fileInTempDir(tempDirectory, uploadFileName);
    written := Some((location, JsonlText(dumps(jsonl))));
    uploaded := Some(location);
    var fileResponse := upload(location);
    if fileResponse.Failure? {
      return Failure(fileResponse.error), written, uploaded;
    }
    var response := fileResponse.value;
    r := Success(BatchFile(response.id, response.filename, response.purpose, response.status, imageFile.traceId));
  }
}
