/** The conversion client: from a source format, a target format, a file, an
    access token, the browser's reading of the file and the conversion
    service's answer, what is posted where and what the caller observes. */
module Convert {
  import opened Js

  /** The browser file handed to the client; only its name is read directly,
      its contents reach the client through the file reader. */
  datatype File = File(name: string)

  datatype FileValue = FileValue(name: string, data: Option<string>)

  /** One entry of the request's `Parameters` list. */
  datatype Parameter = Parameter(name: string, fileValue: Option<FileValue>, value: Option<bool>)

  datatype ConversionRequest = ConversionRequest(parameters: seq<Parameter>)

  datatype Headers = Headers(authorization: string, contentType: string)

  /** The POST the client issues. */
  datatype Post = Post(url: string, body: ConversionRequest, headers: Headers)

  /** One output file of the service's answer. */
  datatype OutputFile = OutputFile(
    fileName: string,
    fileExt: string,
    fileSize: int,
    fileData: Option<string>,
    url: Option<string>)

  /** The service's answer; `files` is None when the field is missing. */
  datatype ConversionResponse = ConversionResponse(conversionCost: int, files: Option<seq<OutputFile>>)

  /** An error delivered to the caller; `message` is None when it has none. */
  datatype ErrorValue = ErrorValue(message: Option<string>)

  /** How the browser's file reader finished: with the file as a `data:` URL, or with a failure. */
  datatype ReadResult = Loaded(dataUrl: string) | ReadFailed

  /** What the caller's subscription receives: one response, or one error. */
  datatype Outcome = Next(response: ConversionResponse) | Failed(error: ErrorValue)

  /** The arguments of one call of the client. */
  datatype Call = Call(fromFormat: string, toFormat: string, file: File, token: string)

  /** What one call does: the POST it issues, if any, and what its caller receives. */
  datatype Exchange = Exchange(posted: Option<Post>, outcome: Outcome)

  const ApiBase := "https://v2.convertapi.com/convert/"
  const ReadFailure := ErrorValue(Some("Error al leer el archivo"))

  /** The endpoint for one pair of formats. */
  function ConversionUrl(fromFormat: string, toFormat: string): string
  {
    ApiBase + fromFormat + "/to/" + toFormat
  }

  /** Where the joining character and the left part sit in a joined string. */
  lemma JoinedAt(a: string, sep: char, b: string)
    ensures (a + [sep] + b)[|a|] == sep
    ensures forall i :: 0 <= i < |a| ==> (a + [sep] + b)[i] == a[i]
  {
  }

  /** Two strings joined by a character that neither left part contains
      can be taken apart again. */
  lemma JoinedAtUnique(a: string, b: string, c: string, d: string, sep: char)
    requires sep !in a && sep !in c
    requires a + [sep] + b == c + [sep] + d
    ensures a == c && b == d
  {
    var s := a + [sep] + b;
    JoinedAt(a, sep, b);
    JoinedAt(c, sep, d);
    if |a| != |c| {
      assert false;
    }
    assert a == s[..|a|] == c;
    assert b == s[|a| + 1..] == d;
  }

  /** Formats without a slash (file extensions) give distinct endpoints for
      distinct pairs: the endpoint names the pair it was built from. */
  lemma ConversionUrlInjective(f1: string, t1: string, f2: string, t2: string)
    requires '/' !in f1 && '/' !in f2
    requires ConversionUrl(f1, t1) == ConversionUrl(f2, t2)
    ensures f1 == f2 && t1 == t2
  {
    var u1, u2 := ConversionUrl(f1, t1), ConversionUrl(f2, t2);
    var n := |ApiBase|;
    assert u1[n..] == f1 + ['/'] + ("to/" + t1);
    assert u2[n..] == f2 + ['/'] + ("to/" + t2);
    JoinedAtUnique(f1, "to/" + t1, f2, "to/" + t2, '/');
    assert t1 == ("to/" + t1)[3..] && t2 == ("to/" + t2)[3..];
  }

  /** `dataUrl.split(',')[1]`: the second comma-separated field of what the
      file reader produced, absent when there is no comma. */
  function DataPart(dataUrl: string): (data: Option<string>)
    ensures data.None? <==> ',' !in dataUrl
    ensures data.Some? ==> ',' !in data.value
  {
    SplitSingle(dataUrl, ',');
    var fields := Split(dataUrl, ',');
    if |fields| > 1 then Some(fields[1]) else None
  }

  /** After the first comma, the data reaches up to the next comma or the end. */
  lemma DataPartAfterFirstComma(head: string, tail: string)
    requires ',' !in head
    ensures DataPart(head + "," + tail) == Some(Split(tail, ',')[0])
  {
    SplitAtFirst(head, ',', tail);
  }

  /** For a base64 `data:` URL (section 3 of RFC 2397) whose media type and
      payload hold no comma, the data is exactly the payload. */
  lemma DataPartOfDataUrl(mediaType: string, payload: string)
    requires ',' !in mediaType && ',' !in payload
    ensures DataPart("data:" + mediaType + ";base64," + payload) == Some(payload)
  {
    var head := "data:" + mediaType + ";base64";
    assert "data:" + mediaType + ";base64," + payload == head + "," + payload;
    DataPartAfterFirstComma(head, payload);
    SplitSingle(payload, ',');
  }

  /** The request body: the file under `File`, then the `StoreFile` flag. */
  function RequestBody(file: File, data: Option<string>): ConversionRequest
  {
    ConversionRequest([
      Parameter("File", Some(FileValue(file.name, data)), None),
      Parameter("StoreFile", None, Some(true))
    ])
  }

  function RequestHeaders(token: string): Headers
  {
    Headers("Bearer " + token, "application/json")
  }

  /** One call of the client. A read failure yields the fixed read error and
      posts nothing; otherwise the POST carries the endpoint for the formats,
      the two parameters with the file name and the data portion of the data
      URL, and the bearer token, and whatever the service answers is relayed
      unchanged. */
  function ConvertFile(call: Call, read: ReadResult, service: Post -> Outcome): (x: Exchange)
    ensures x.posted.None? <==> read.ReadFailed?
    ensures read.ReadFailed? ==> x.outcome == Failed(ReadFailure)
    ensures read.Loaded? ==>
              && x.posted.Some?
              && x.posted.value.url == ConversionUrl(call.fromFormat, call.toFormat)
              && x.posted.value.body.parameters == [
                   Parameter("File", Some(FileValue(call.file.name, DataPart(read.dataUrl))), None),
                   Parameter("StoreFile", None, Some(true))]
              && x.posted.value.headers.authorization == "Bearer " + call.token
              && x.posted.value.headers.contentType == "application/json"
              && x.outcome == service(x.posted.value)
  {
    match read
    case ReadFailed => Exchange(None, Failed(ReadFailure))
    case Loaded(dataUrl) =>
      var post := Post(
        ConversionUrl(call.fromFormat, call.toFormat),
        RequestBody(call.file, DataPart(dataUrl)),
        RequestHeaders(call.token));
      Exchange(Some(post), service(post))
  }

  /** For a file the browser read as a base64 `data:` URL, the posted file
      value is the file's name and exactly the encoded payload, and the token
      can be read back from the authorization header. */
  lemma PostCarriesPayload(call: Call, mediaType: string, payload: string, service: Post -> Outcome)
    requires ',' !in mediaType && ',' !in payload
    ensures var x := ConvertFile(call, Loaded("data:" + mediaType + ";base64," + payload), service);
            && x.posted.Some?
            && x.posted.value.body.parameters[0].fileValue == Some(FileValue(call.file.name, Some(payload)))
            && x.posted.value.headers.authorization[|"Bearer "|..] == call.token
  {
    DataPartOfDataUrl(mediaType, payload);
  }
}
