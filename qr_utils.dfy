/** The upload fallback chain and the export geometry of the QR utilities:
    `uploadToCloud` tries three anonymous file hosts in a fixed order and
    returns the first link one of them hands back; `downloadQRWithLogo`
    pads the rendered code before saving it. */
module QrUtils {
  import opened Wrappers
  import opened JsString

  // ---------------------------------------------------------------------
  // Export geometry
  // ---------------------------------------------------------------------

  /** The colour the export canvas is filled with before the code is drawn. */
  const ExportFill := "#ffffff"

  /** Where the export draws: a square canvas of side `canvasSide` filled
      with `fill`, and the QR bitmap drawn at (`drawX`, `drawY`) with side
      `drawSide`. */
  datatype ExportLayout = ExportLayout(
    padding: nat, canvasSide: nat, drawX: nat, drawY: nat, drawSide: nat, fill: string)

  /** The layout `downloadQRWithLogo` computes for a code of side `qrSize`.
      The caller's background colour is accepted and not used. */
  function ExportGeometry(qrSize: nat, bgColor: string): (g: ExportLayout)
    // the padding is the integer part of a fifth of the size
    ensures 5 * g.padding <= qrSize < 5 * g.padding + 5
    ensures g.canvasSide == qrSize + 2 * g.padding
    // the code keeps its size and sits inside the canvas with equal margins
    ensures g.drawSide == qrSize && g.drawX == g.drawY
    ensures g.drawX + g.drawSide + g.drawX == g.canvasSide
    ensures g.fill == ExportFill
  {
    var padding := qrSize / 5;
    ExportLayout(padding, qrSize + padding * 2, padding, padding, qrSize, ExportFill)
  }

  /** The background colour never reaches the exported image. */
  lemma ExportIgnoresBackground(qrSize: nat, bg1: string, bg2: string)
    ensures ExportGeometry(qrSize, bg1) == ExportGeometry(qrSize, bg2)
  {
  }

  /** At the default size of 256 pixels the padding is 51 and the image 358. */
  lemma ExportAtDefaultSize(bgColor: string)
    ensures ExportGeometry(256, bgColor).padding == 51
    ensures ExportGeometry(256, bgColor).canvasSide == 358
  {
  }

  // ---------------------------------------------------------------------
  // What the network hands back
  // ---------------------------------------------------------------------

  /** A JavaScript value as read from a parsed JSON reply; a member that
      the reply does not have reads as `Undefined`. */
  datatype JsValue = Undefined | Null | Bool(b: bool) | Number(n: real) | Str(s: string) | Composite

  /** JavaScript truthiness: `false`, `0`, `""`, `null` and `undefined`
      are falsy, every object or array is truthy. */
  predicate Truthy(v: JsValue) {
    match v
    case Undefined => false
    case Null => false
    case Bool(b) => b
    case Number(n) => n != 0.0
    case Str(s) => s != ""
    case Composite => true
  }

  /** What `res.json()` makes of a reply body: not JSON at all, the JSON
      literal `null`, or a document whose `success`, `link` and `message`
      members the parser reads (an array or a primitive is a document
      whose three members are all `Undefined`). */
  datatype JsonBody = Malformed | NullDocument | Document(success: JsValue, link: JsValue, message: JsValue)

  /** The outcome of one `fetch`: the request never got an answer, or a
      response with its `ok` flag, its body as text, and that same body
      as `res.json()` reads it. */
  datatype Transport = NetworkError | Response(ok: bool, text: string, json: JsonBody)

  /** Why one service failed; the chain swallows every one of these. */
  datatype ServiceError = TransportFailed | StatusNotOk | UnreadableBody | Rejected(message: JsValue)

  // ---------------------------------------------------------------------
  // The services and their response parsers
  // ---------------------------------------------------------------------

  datatype ReplyFormat = JsonReply | TextReply

  /** One upload target: its name, endpoint, the multipart field the file
      goes in, and how its reply is read. */
  datatype Service = Service(name: string, url: string, field: string, format: ReplyFormat)

  /** The services in the order they are tried. */
  const Services: seq<Service> := [
    Service("file.io", "https://file.io", "file", JsonReply),
    Service("0x0.st", "https://0x0.st", "file", TextReply),
    Service("uguu.se", "https://uguu.se/api.php?d=upload-tool", "files[]", TextReply)
  ]

  const UploadFileName := "content.txt"
  const UploadContentType := "text/plain"
  const AllUnreachable := "All cloud storage services are currently unreachable from your browser. Please try a smaller text or check your internet connection."

  /** A POST carrying `contents` as one multipart file part. */
  datatype Request = Request(
    url: string, verb: string, field: string, fileName: string, contentType: string, contents: string)

  /** The request sent to `s`. */
  function RequestFor(s: Service, data: string): Request {
    Request(s.url, "POST", s.field, UploadFileName, UploadContentType, data)
  }

  /** The file.io parser as the program has it: whenever `success` is
      truthy it hands back `link`, whatever `link` is. */
  function ParseFileIoAsWritten(body: JsonBody): Result<JsValue, ServiceError> {
    match body
    case Malformed => Err(UnreadableBody)
    case NullDocument => Err(UnreadableBody)
    case Document(success, link, message) =>
      if Truthy(success) then Ok(link)
      else Err(Rejected(if Truthy(message) then message else Str("Upload failed")))
  }

  /** A success reply without a usable link is accepted as it stands:
      the chain then ends with `undefined` as its link. */
  lemma FileIoMissingLinkAccepted()
    ensures ParseFileIoAsWritten(Document(Bool(true), Undefined, Undefined)) == Ok(Undefined)
    ensures !Truthy(Undefined)
    ensures ParseFileIoReply(Document(Bool(true), Undefined, Undefined)).Err?
  {
  }

  /** The file.io parser the rest of the model uses: a reply counts only if
      its `success` member is truthy and its `link` member is a non-empty
      string; otherwise the service has failed and the chain moves on. */
  function ParseFileIoReply(body: JsonBody): (r: Result<string, ServiceError>)
    ensures r.Ok? <==> body.Document? && Truthy(body.success) && body.link.Str? && body.link.s != ""
    ensures r.Ok? ==> |r.value| > 0
  {
    match body
    case Malformed => Err(UnreadableBody)
    case NullDocument => Err(UnreadableBody)
    case Document(success, link, message) =>
      if !Truthy(success) then Err(Rejected(if Truthy(message) then message else Str("Upload failed")))
      else if link.Str? && link.s != "" then Ok(link.s)
      else Err(Rejected(Str("No link in response")))
  }

  /** The corrected parser agrees with the program on every reply whose
      link is a non-empty string, and fails with the same error wherever
      the program fails. */
  lemma FileIoParsersAgree(body: JsonBody)
    ensures ParseFileIoReply(body).Ok? <==>
              ParseFileIoAsWritten(body).Ok? && ParseFileIoAsWritten(body).value.Str? && Truthy(ParseFileIoAsWritten(body).value)
    ensures ParseFileIoReply(body).Ok? ==> ParseFileIoAsWritten(body) == Ok(Str(ParseFileIoReply(body).value))
    ensures ParseFileIoAsWritten(body).Err? ==> ParseFileIoReply(body) == Err(ParseFileIoAsWritten(body).error)
  {
  }

  /** The parser of 0x0.st and uguu.se: a non-empty body that starts with
      `http` is trimmed and returned; anything else is rejected. */
  function ParseTextReply(text: string): (r: Result<string, ServiceError>)
    ensures r.Ok? ==> StartsWith(r.value, "http")
  {
    if |text| > 0 && StartsWith(text, "http") then
      TrimKeepsSolidPrefix(text, "http");
      Ok(Trim(text))
    else
      Err(Rejected(Str("Invalid response")))
  }

  /** The text parser accepts exactly the bodies that start with `http`,
      and the link it returns is the body without its whitespace tail. */
  lemma {:induction false} TextReplyAccepted(text: string)
    ensures ParseTextReply(text).Ok? <==> StartsWith(text, "http")
    ensures ParseTextReply(text).Ok? ==>
              var link := ParseTextReply(text).value;
              && link == text[..|link|]
              && (forall k :: |link| <= k < |text| ==> IsWhitespace(text[k]))
              && !IsWhitespace(link[|link| - 1])
  {
    if StartsWith(text, "http") {
      TrimKeepsSolidPrefix(text, "http");
    }
  }

  /** The prefix check comes before the trim, so a body with leading
      whitespace is rejected even if a link follows it. */
  lemma LeadingWhitespaceRejected(text: string)
    requires |text| > 0 && IsWhitespace(text[0])
    ensures ParseTextReply(text) == Err(Rejected(Str("Invalid response")))
  {
  }

  /** What one attempt on `s` yields once `response` has arrived: a
      transport error, a status that is not ok and a parser rejection all
      count as a failure of that service. */
  function Attempt(s: Service, response: Transport): (r: Result<string, ServiceError>)
    ensures r.Ok? ==> |r.value| > 0
    ensures r.Ok? && s.format == TextReply ==> StartsWith(r.value, "http")
    ensures response.NetworkError? ==> r == Err(TransportFailed)
    ensures response.Response? && !response.ok ==> r == Err(StatusNotOk)
  {
    match response
    case NetworkError => Err(TransportFailed)
    case Response(ok, text, json) =>
      if !ok then Err(StatusNotOk)
      else match s.format
        case JsonReply => ParseFileIoReply(json)
        case TextReply => ParseTextReply(text)
  }

  // ---------------------------------------------------------------------
  // The fallback chain
  // ---------------------------------------------------------------------

  /** The requests the chain would send for `data`, one per service, in order. */
  function Requests(data: string): (qs: seq<Request>)
    ensures |qs| == |Services|
  {
    seq(|Services|, j requires 0 <= j < |Services| => RequestFor(Services[j], data))
  }

  /** What each service would answer if it were asked, in service order. */
  function Outcomes(data: string, network: Request -> Transport): (os: seq<Result<string, ServiceError>>)
    ensures |os| == |Services|
  {
    seq(|Services|, j requires 0 <= j < |Services| => Attempt(Services[j], network(RequestFor(Services[j], data))))
  }

  /** The index of the first success in `outcomes`, if there is one. */
  function FirstOk<T>(outcomes: seq<Result<T, ServiceError>>): (r: Option<nat>)
    ensures r.Some? ==> r.value < |outcomes| && outcomes[r.value].Ok?
    ensures r.Some? ==> forall j :: 0 <= j < r.value ==> outcomes[j].Err?
    ensures r.None? <==> forall j :: 0 <= j < |outcomes| ==> outcomes[j].Err?
  {
    if outcomes == [] then None
    else if outcomes[0].Ok? then Some(0)
    else match FirstOk(outcomes[1..])
      case None => None
      case Some(i) => Some(i + 1)
  }

  /** `uploadToCloud(data)`, with the network as a parameter. Services are
      tried in the declared order, each at most once; the first one whose
      attempt succeeds supplies the link and nothing after it is contacted;
      the chain fails with the single guidance message only when every
      service has failed. `contacted` lists the requests actually sent. */
  method UploadToCloud(data: string, network: Request -> Transport)
    returns (result: Result<string, string>, contacted: seq<Request>)
    ensures var outcomes := Outcomes(data, network);
            match FirstOk(outcomes)
            case Some(i) => result == Ok(outcomes[i].value) && contacted == Requests(data)[..i + 1]
            case None => result == Err(AllUnreachable) && contacted == Requests(data)
    ensures result.Ok? ==> |result.value| > 0
    ensures forall q | q in contacted ::
              q.verb == "POST" && q.fileName == UploadFileName && q.contentType == UploadContentType && q.contents == data
    ensures forall j | 0 <= j < |contacted| :: contacted[j].url == Services[j].url && contacted[j].field == Services[j].field
  {
    ghost var outcomes := Outcomes(data, network);
    ghost var requests := Requests(data);
    contacted := [];
    var k := 0;
    while k < |Services|
      invariant 0 <= k <= |Services|
      invariant contacted == requests[..k]
      invariant forall j :: 0 <= j < k ==> outcomes[j].Err?
    {
      var service := Services[k];
      var request := RequestFor(service, data);
      var response := network(request);
      contacted := contacted + [request];
      assert contacted == requests[..k + 1] by {
        assert requests[k] == request;
        assert requests[..k + 1] == requests[..k] + [requests[k]];
      }
      var attempt := Attempt(service, response);
      assert outcomes[k] == attempt;
      if attempt.Ok? {
        FirstOkIsUnique(outcomes, k);
        result := Ok(attempt.value);
        return;
      }
      k := k + 1;
    }
    assert FirstOk(outcomes).None?;
    assert contacted == requests;
    result := Err(AllUnreachable);
  }

  /** An index whose outcome succeeds after only failures is the one
      `FirstOk` finds. */
  lemma FirstOkIsUnique<T>(outcomes: seq<Result<T, ServiceError>>, k: nat)
    requires k < |outcomes| && outcomes[k].Ok?
    requires forall j :: 0 <= j < k ==> outcomes[j].Err?
    ensures FirstOk(outcomes) == Some(k)
  {
    var r := FirstOk(outcomes);
  }

  /** If file.io fails and 0x0.st answers with a link, that link is the
      result, whatever uguu.se would have said. */
  lemma SecondServiceRescues(data: string, network: Request -> Transport)
    requires Outcomes(data, network)[0].Err? && Outcomes(data, network)[1].Ok?
    ensures FirstOk(Outcomes(data, network)) == Some(1)
  {
    FirstOkIsUnique(Outcomes(data, network), 1);
  }

  /** The chain's result depends only on the answers of the services up to
      and including the first one that succeeds. */
  lemma {:induction false} ResultIgnoresLaterServices<T>(
    outcomes1: seq<Result<T, ServiceError>>, outcomes2: seq<Result<T, ServiceError>>, k: nat)
    requires k < |outcomes1| && k < |outcomes2|
    requires outcomes1[..k + 1] == outcomes2[..k + 1] && outcomes1[k].Ok?
    ensures FirstOk(outcomes1) == FirstOk(outcomes2)
  {
    if outcomes1[0].Ok? {
    } else {
      assert outcomes1[1..][..k] == outcomes1[..k + 1][1..];
      assert outcomes2[1..][..k] == outcomes2[..k + 1][1..];
      ResultIgnoresLaterServices(outcomes1[1..], outcomes2[1..], k - 1);
    }
  }

  // ---------------------------------------------------------------------
  // The chain with the file.io parser as written
  // ---------------------------------------------------------------------

  /** One attempt as the program has it: the text services as in
      `Attempt`, but file.io hands back whatever `link` holds. */
  function AttemptAsWritten(s: Service, response: Transport): Result<JsValue, ServiceError> {
    match response
    case NetworkError => Err(TransportFailed)
    case Response(ok, text, json) =>
      if !ok then Err(StatusNotOk)
      else match s.format
        case JsonReply => ParseFileIoAsWritten(json)
        case TextReply =>
          match ParseTextReply(text)
          case Ok(link) => Ok(Str(link))
          case Err(e) => Err(e)
  }

  /** What each service would answer, with the file.io parser as written. */
  function OutcomesAsWritten(data: string, network: Request -> Transport): (os: seq<Result<JsValue, ServiceError>>)
    ensures |os| == |Services|
  {
    seq(|Services|, j requires 0 <= j < |Services| => AttemptAsWritten(Services[j], network(RequestFor(Services[j], data))))
  }

  /** As written, a file.io reply `{"success": true}` ends the chain at
      file.io with `undefined` as the link, so 0x0.st is never asked; the
      corrected chain counts it as a failure of file.io and moves on. */
  lemma MissingLinkStopsChainAsWritten(data: string, network: Request -> Transport)
    requires network(RequestFor(Services[0], data)).Response?
    requires network(RequestFor(Services[0], data)).ok
    requires network(RequestFor(Services[0], data)).json == Document(Bool(true), Undefined, Undefined)
    ensures FirstOk(OutcomesAsWritten(data, network)) == Some(0)
    ensures OutcomesAsWritten(data, network)[0] == Ok(Undefined)
    ensures Outcomes(data, network)[0].Err? && FirstOk(Outcomes(data, network)) != Some(0)
  {
    assert OutcomesAsWritten(data, network)[0] == Ok(Undefined);
    FirstOkIsUnique(OutcomesAsWritten(data, network), 0);
  }
}
