/** `process_output`: reads a batch output file, one JSON document per line,
    takes the message content out of each and joins the contents with
    carriage returns into the text of one page.

    Fetching the file and `json.loads` are parameters: `retrieveFile(id)` is
    the text of the file or the exception the fetch raised, `parse(line)` the
    decoded document or None where `json.loads` raises. */
module OutputProcessor {
  import opened Common
  import opened Strings
  import opened Json
  import opened Records
  import opened FanIn

  /** `['response']['body']['choices'][0]['message']['content']`. */
  const ContentPath: seq<Key> :=
    [Name("response"), Name("body"), Name("choices"), Index(0), Name("message"), Name("content")]

  /** The content of one output line, or what decoding or subscripting it
      raises. */
  function LineContent(parse: string -> Option<Json>, line: string): Result<Json, Exception> {
    match parse(line)
    case None => Failure(JsonDecodeError(line))
    case Some(document) => SubscriptPath(document, ContentPath)
  }

  function LineOutcomes(parse: string -> Option<Json>, lines: seq<string>): (r: seq<Result<Json, Exception>>)
    ensures |r| == |lines| && forall i | 0 <= i < |lines| :: r[i] == LineContent(parse, lines[i])
  {
    seq(|lines|, i requires 0 <= i < |lines| => LineContent(parse, lines[i]))
  }

  /** The lines of the file: stripped, then split on newlines. */
  function Lines(text: string): (r: seq<string>)
    ensures |r| >= 1
  {
    Split(Strip(text), '\n')
  }

  predicate AllStrings(contents: seq<Json>) {
    forall i | 0 <= i < |contents| :: contents[i].JString?
  }

  function Texts(contents: seq<Json>): (r: seq<string>)
    requires AllStrings(contents)
    ensures |r| == |contents| && forall i | 0 <= i < |r| :: contents[i] == JString(r[i])
  {
    seq(|contents|, i requires 0 <= i < |contents| => contents[i].s)
  }

  /** `"\r".join(contents)`: a content that is not a string raises
      TypeError. */
  function JoinContents(contents: seq<Json>): Result<string, Exception> {
    if AllStrings(contents) then Success(Join(Texts(contents), '\r'))
    else Failure(TypeError("sequence item: expected str instance"))
  }

  /** What `process_output(client, output_file_id, page_number)` returns or
      raises. */
  function ProcessOutputResult(retrieveFile: FileId -> Result<string, Exception>, outputFileId: FileId,
                               parse: string -> Option<Json>, pageNumber: int): Result<PageResponse, Exception>
  {
    match retrieveFile(outputFileId)
    case Failure(e) => Failure(e)
    case Success(text) =>
      match Gather(LineOutcomes(parse, Lines(text)))
      case Failure(e) => Failure(e)
      case Success(contents) =>
        match JoinContents(contents)
        case Failure(e) => Failure(e)
        case Success(joined) => Success(PageResponse(joined, pageNumber))
  }

  /** `process_output`, with its loop over the lines. */
  method ProcessOutput(retrieveFile: FileId -> Result<string, Exception>, outputFileId: FileId,
                       parse: string -> Option<Json>, pageNumber: int)
    returns (r: Result<PageResponse, Exception>)
    ensures r == ProcessOutputResult(retrieveFile, outputFileId, parse, pageNumber)
  {
    var fileResponse := retrieveFile(outputFileId);
    if fileResponse.Failure? {
      return Failure(fileResponse.error);
    }
    var rawResponses := Lines(fileResponse.value);
    ghost var outcomes := LineOutcomes(parse, rawResponses);
    GatherSuccess(outcomes);
    var contents: seq<Json> := [];
    for i := 0 to |rawResponses|
      invariant |contents| == i
      invariant forall k | 0 <= k < i :: outcomes[k] == Success(contents[k])
    {
      var content := LineContent(parse, rawResponses[i]);
      if content.Failure? {
        GatherFailsAtFirstFailure(outcomes, i);
        return Failure(content.error);
      }
      contents := contents + [content.value];
    }
    assert forall k | 0 <= k < |outcomes| :: outcomes[k].Success?;
    assert Gather(outcomes).value == contents;
    var joined := JoinContents(contents);
    if joined.Failure? {
      return Failure(joined.error);
    }
    r := Success(PageResponse(joined.value, pageNumber));
  }

  /** A page comes out exactly when the file is fetched and every line
      decodes to a document whose content is a string; then there is one
      content per line, in line order, joined with carriage returns, and
      the page number is the argument. */
  lemma ProcessOutputSucceeds(retrieveFile: FileId -> Result<string, Exception>, outputFileId: FileId,
                              parse: string -> Option<Json>, pageNumber: int)
    ensures var r := ProcessOutputResult(retrieveFile, outputFileId, parse, pageNumber);
      r.Success? <==>
        && retrieveFile(outputFileId).Success?
        && var lines := Lines(retrieveFile(outputFileId).value);
           forall i | 0 <= i < |lines| ::
             LineContent(parse, lines[i]).Success? && LineContent(parse, lines[i]).value.JString?
    ensures var r := ProcessOutputResult(retrieveFile, outputFileId, parse, pageNumber);
      r.Success? ==>
        && r.value.pageNumber == pageNumber
        && var lines := Lines(retrieveFile(outputFileId).value);
           exists texts: seq<string> ::
             && |texts| == |lines|
             && (forall i | 0 <= i < |lines| :: LineContent(parse, lines[i]) == Success(JString(texts[i])))
             && r.value.outputContent == Join(texts, '\r')
  {
    if retrieveFile(outputFileId).Success? {
      var lines := Lines(retrieveFile(outputFileId).value);
      var outcomes := LineOutcomes(parse, lines);
      GatherSuccess(outcomes);
      if Gather(outcomes).Success? {
        var contents := Gather(outcomes).value;
        if AllStrings(contents) {
          var texts := Texts(contents);
          assert forall i | 0 <= i < |lines| :: LineContent(parse, lines[i]) == Success(JString(texts[i]));
        } else {
          var i :| 0 <= i < |contents| && !contents[i].JString?;
          assert LineContent(parse, lines[i]).value == contents[i];
        }
      } else {
        var i :| 0 <= i < |outcomes| && !outcomes[i].Success?;
        assert !LineContent(parse, lines[i]).Success?;
      }
    }
  }

  /** A line that does not decode or lacks the content path raises, once
      the lines before it were read: nothing is skipped. */
  lemma ProcessOutputRaisesAtFirstBadLine(retrieveFile: FileId -> Result<string, Exception>, outputFileId: FileId,
                                          parse: string -> Option<Json>, pageNumber: int, i: nat)
    requires retrieveFile(outputFileId).Success?
    requires var lines := Lines(retrieveFile(outputFileId).value);
      && i < |lines|
      && (forall k | 0 <= k < i :: LineContent(parse, lines[k]).Success?)
      && LineContent(parse, lines[i]).Failure?
    ensures var lines := Lines(retrieveFile(outputFileId).value);
      ProcessOutputResult(retrieveFile, outputFileId, parse, pageNumber)
      == Failure(LineContent(parse, lines[i]).error)
  {
    var lines := Lines(retrieveFile(outputFileId).value);
    GatherFailsAtFirstFailure(LineOutcomes(parse, lines), i);
  }

  /** A file that is empty or only whitespace still yields one (empty)
      line, which `json.loads` rejects: the call raises. */
  lemma ProcessOutputEmptyRaises(retrieveFile: FileId -> Result<string, Exception>, outputFileId: FileId,
                                 parse: string -> Option<Json>, pageNumber: int)
    requires retrieveFile(outputFileId).Success? && Strip(retrieveFile(outputFileId).value) == ""
    requires parse("") == None
    ensures ProcessOutputResult(retrieveFile, outputFileId, parse, pageNumber) == Failure(JsonDecodeError(""))
  {
    var lines := Lines(retrieveFile(outputFileId).value);
    assert lines == [""];
    GatherFailsAtFirstFailure(LineOutcomes(parse, lines), 0);
  }

  /** The contents can be taken apart again by splitting the page text on
      carriage returns, provided no content contains one. */
  lemma ProcessOutputSplitRecoversContents(retrieveFile: FileId -> Result<string, Exception>, outputFileId: FileId,
                                           parse: string -> Option<Json>, pageNumber: int, texts: seq<string>)
    requires ProcessOutputResult(retrieveFile, outputFileId, parse, pageNumber).Success?
    requires var lines := Lines(retrieveFile(outputFileId).value);
      && |texts| == |lines|
      && forall i | 0 <= i < |lines| :: LineContent(parse, lines[i]) == Success(JString(texts[i]))
    requires forall i | 0 <= i < |texts| :: '\r' !in texts[i]
    ensures Split(ProcessOutputResult(retrieveFile, outputFileId, parse, pageNumber).value.outputContent, '\r') == texts
  {
    ProcessOutputSucceeds(retrieveFile, outputFileId, parse, pageNumber);
    var lines := Lines(retrieveFile(outputFileId).value);
    var r := ProcessOutputResult(retrieveFile, outputFileId, parse, pageNumber);
    var joined: seq<string> :| |joined| == |lines|
      && (forall i | 0 <= i < |lines| :: LineContent(parse, lines[i]) == Success(JString(joined[i])))
      && r.value.outputContent == Join(joined, '\r');
    assert joined == texts;
    SplitJoin(texts, '\r');
  }
}
