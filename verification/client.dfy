/**
 The Ollama client: its endpoint URLs, how `analyze_image` acquires image bytes
 from one of three kinds of source and turns them into one generate request, and
 how `elaborate_text` degrades to its input. Network, file system, JSON parsing
 and base64 are the outcomes and functions of a `World` and a `Lib`.
 */
module Client {
  import opened Python
  import Ndjson

  /** The placeholder `elaborate_text` replaces in its prompt template. */
  const Placeholder: string := "{description}"

  /** The constructor's default for both keep-alive values (DEFAULT_KEEPALIVE). */
  const DefaultKeepalive: Val := VInt(-1)

  /** The fields of an `OllamaClient` that its two calls read. */
  datatype OllamaClient = OllamaClient(
    host: Val, port: Val, model: Val, visionKeepalive: Val, apiBaseUrl: string,
    textHost: Val, textPort: Val, textModel: Val, textKeepalive: Val,
    textApiBaseUrl: Option<string>)
  {
    /** `self.text_enabled`. */
    predicate TextEnabled() {
      textApiBaseUrl.Some?
    }
  }

  /** `f"http://{host}:{port}/api"`. */
  function BaseUrl(host: Val, port: Val, lib: Lib): string {
    "http://" + lib.toStr(host) + ":" + lib.toStr(port) + "/api"
  }

  /** `OllamaClient.__init__`. */
  function NewClient(host: Val, port: Val, model: Val, textHost: Val, textPort: Val, textModel: Val,
                     visionKeepalive: Val, textKeepalive: Val, lib: Lib): (c: OllamaClient)
    ensures c.TextEnabled() <==> textHost != VNone
    ensures c.apiBaseUrl == BaseUrl(host, port, lib)
    ensures c.TextEnabled() ==> c.textApiBaseUrl == Some(BaseUrl(textHost, textPort, lib))
    ensures c.model == model && c.visionKeepalive == visionKeepalive
    ensures c.textModel == textModel && c.textKeepalive == textKeepalive
  {
    OllamaClient(host, port, model, visionKeepalive, BaseUrl(host, port, lib),
                 textHost, textPort, textModel, textKeepalive,
                 if textHost != VNone then Some(BaseUrl(textHost, textPort, lib)) else None)
  }

  /** The base URL takes the host verbatim: a host that already carries a scheme gets a
      second one, and a path in it stays in front of the port. */
  lemma NoSchemeDetection(host: string, port: Val, lib: Lib)
    requires lib.toStr(VStr(host)) == host
    ensures StartsWith(BaseUrl(VStr(host), port, lib), "http://" + host + ":")
  {
    var u := BaseUrl(VStr(host), port, lib);
    assert u == ("http://" + host + ":") + (lib.toStr(port) + "/api");
  }

  /** Only a text host of None disables the text side; an empty host string enables it. */
  lemma EmptyTextHostEnablesText(host: Val, port: Val, model: Val, textPort: Val, textModel: Val,
                                 vk: Val, tk: Val, lib: Lib)
    ensures NewClient(host, port, model, VStr(""), textPort, textModel, vk, tk, lib).TextEnabled()
  {
  }

  // ---------------------------------------------------------------------------
  // The outside world as outcomes.

  /** A GET through an aiohttp session: a status with a body whose read may raise, or a
      raise from the request itself. */
  datatype HttpOutcome = HttpReply(status: int, body: Result<seq<byte>>) | HttpRaised

  /** `os.path.isfile` then `open(path, "rb").read()` in the executor. */
  datatype FileOutcome = Missing | Bytes(data: seq<byte>) | FileRaised

  /** The reply of a generate POST: a status and the raw lines of its body, or a raise. */
  datatype PostOutcome = PostReply(status: int, lines: seq<string>) | PostRaised

  /** The JSON body of a generate request; `images` is None when the key is absent. */
  datatype Payload = Payload(model: Val, prompt: string, images: Option<seq<string>>,
                             stream: bool, keepAlive: Val)

  datatype Request = Request(url: string, payload: Payload)

  datatype World = World(
    internalUrl: Option<string>,          // hass.config.internal_url, None when unset
    configPath: string -> string,         // hass.config.path
    get: string -> HttpOutcome,
    file: string -> FileOutcome,
    post: Request -> PostOutcome,
    parse: string -> Ndjson.Parsed)       // json.loads

  // ---------------------------------------------------------------------------
  // analyze_image

  datatype Source = Internal | External | Local

  /** The image reference's kind, decided by prefix in this order. */
  function SourceOf(imageUrl: string): (s: Source)
    ensures s == Internal <==> StartsWith(imageUrl, "/api")
    ensures s == External <==> !StartsWith(imageUrl, "/api")
                               && (StartsWith(imageUrl, "http://") || StartsWith(imageUrl, "https://"))
  {
    if StartsWith(imageUrl, "/api") then Internal
    else if StartsWith(imageUrl, "http://") || StartsWith(imageUrl, "https://") then External
    else Local
  }

  /** The one access `analyze_image` makes to get image bytes. `NoAccess` is the internal
      case without an internal URL, where `None.rstrip` raises. */
  datatype Access = GetUrl(url: string) | ReadPath(path: string) | NoAccess

  function AccessFor(imageUrl: string, w: World): (a: Access)
    ensures SourceOf(imageUrl) == Internal && w.internalUrl.Some? ==>
              a == GetUrl(RStrip(w.internalUrl.value, '/') + imageUrl)
    ensures SourceOf(imageUrl) == External ==> a == GetUrl(imageUrl)
    ensures SourceOf(imageUrl) == Local ==> a == ReadPath(w.configPath(imageUrl))
    ensures a == NoAccess <==> SourceOf(imageUrl) == Internal && w.internalUrl.None?
  {
    match SourceOf(imageUrl)
    case Internal =>
      (match w.internalUrl
       case None => NoAccess
       case Some(base) => GetUrl(RStrip(base, '/') + imageUrl))
    case External => GetUrl(imageUrl)
    case Local => ReadPath(w.configPath(imageUrl))
  }

  /** The image bytes, or None on any of the fetch failures that make `analyze_image`
      return None. */
  function FetchImage(imageUrl: string, w: World): (r: Option<seq<byte>>)
    ensures r.Some? ==> match AccessFor(imageUrl, w)
                        case GetUrl(u) => w.get(u) == HttpReply(200, Ok(r.value))
                        case ReadPath(p) => w.file(p) == Bytes(r.value)
                        case NoAccess => false
    ensures r.None? ==> match AccessFor(imageUrl, w)
                        case GetUrl(u) => w.get(u).HttpRaised? || w.get(u).status != 200
                                          || w.get(u).body.Raised?
                        case ReadPath(p) => !w.file(p).Bytes?
                        case NoAccess => true
  {
    match AccessFor(imageUrl, w)
    case NoAccess => None
    case GetUrl(u) =>
      (match w.get(u)
       case HttpRaised => None
       case HttpReply(status, body) =>
         if status != 200 then None
         else match body
           case Raised => None
           case Ok(data) => Some(data))
    case ReadPath(p) =>
      (match w.file(p)
       case Missing => None
       case FileRaised => None
       case Bytes(data) => Some(data))
  }

  /** The classified lines of a reply body. */
  function ClassifyAll(lines: seq<string>, parse: string -> Ndjson.Parsed): (r: seq<Ndjson.Line>)
    ensures |r| == |lines|
    ensures forall i | 0 <= i < |lines| :: r[i] == Ndjson.Classify(lines[i], parse)
  {
    seq(|lines|, i requires 0 <= i < |lines| => Ndjson.Classify(lines[i], parse))
  }

  /** The text a generate reply decodes to, or None for a non-200 status, a raise while
      posting or a raise while decoding. */
  function ReplyText(o: PostOutcome, parse: string -> Ndjson.Parsed): (r: Option<string>)
    ensures r.Some? <==> o.PostReply? && o.status == 200
                         && Ndjson.Decode(ClassifyAll(o.lines, parse)).Ok?
    ensures r.Some? ==> Ndjson.Decode(ClassifyAll(o.lines, parse)) == Ok(r.value)
  {
    match o
    case PostRaised => None
    case PostReply(status, lines) =>
      if status != 200 then None
      else match Ndjson.Decode(ClassifyAll(lines, parse))
        case Raised => None
        case Ok(s) => Some(s)
  }

  /** The outcome of `analyze_image`: the generate request it sent, if any, and its result. */
  datatype Analysis = Analysis(request: Option<Request>, description: Option<string>)

  function AnalyzeImage(c: OllamaClient, imageUrl: string, prompt: string, w: World, lib: Lib): (a: Analysis)
    // No generate request without non-empty image bytes.
    ensures a.request.Some? <==> FetchImage(imageUrl, w).Some? && FetchImage(imageUrl, w).value != []
    ensures a.request.None? ==> a.description.None?
    // The one request: this client's model, the prompt, exactly one image, streaming.
    ensures a.request.Some? ==>
              a.request.value == Request(c.apiBaseUrl + "/generate",
                                         Payload(c.model, prompt,
                                                 Some([lib.b64encode(FetchImage(imageUrl, w).value)]),
                                                 true, c.visionKeepalive))
    // The result is the decoded reply, even when it is empty.
    ensures a.request.Some? ==> a.description == ReplyText(w.post(a.request.value), w.parse)
  {
    match FetchImage(imageUrl, w)
    case None => Analysis(None, None)
    case Some(data) =>
      if data == [] then Analysis(None, None)
      else
        var req := Request(c.apiBaseUrl + "/generate",
                           Payload(c.model, prompt, Some([lib.b64encode(data)]), true, c.visionKeepalive));
        Analysis(Some(req), ReplyText(w.post(req), w.parse))
  }

  /** A reply whose status is not 200 yields no description, whatever its body. */
  lemma AnalyzeNon200IsNone(c: OllamaClient, imageUrl: string, prompt: string, w: World, lib: Lib)
    requires var a := AnalyzeImage(c, imageUrl, prompt, w, lib);
             a.request.Some? && w.post(a.request.value).PostReply? && w.post(a.request.value).status != 200
    ensures AnalyzeImage(c, imageUrl, prompt, w, lib).description.None?
  {
  }

  /** An empty decoded reply is returned as the empty description, not as a failure. */
  lemma AnalyzeKeepsEmptyText(c: OllamaClient, imageUrl: string, prompt: string, w: World, lib: Lib)
    requires var a := AnalyzeImage(c, imageUrl, prompt, w, lib);
             a.request.Some? && w.post(a.request.value).PostReply? && w.post(a.request.value).status == 200
             && Ndjson.Decode(ClassifyAll(w.post(a.request.value).lines, w.parse)) == Ok("")
    ensures AnalyzeImage(c, imageUrl, prompt, w, lib).description == Some("")
  {
  }

  // ---------------------------------------------------------------------------
  // elaborate_text

  /** The outcome of `elaborate_text`: the generate request it sent, if any, and the text. */
  datatype Elaboration = Elaboration(request: Option<Request>, text: string)

  function ElaborateText(c: OllamaClient, text: string, template: string, w: World): (e: Elaboration)
    // Without a text side the input passes through and nothing is sent.
    ensures !c.TextEnabled() ==> e == Elaboration(None, text)
    // With one, exactly one request: no images key, every placeholder replaced by the input.
    ensures c.TextEnabled() ==>
              e.request == Some(Request(c.textApiBaseUrl.value + "/generate",
                                        Payload(c.textModel, Replace(template, Placeholder, text),
                                                None, true, c.textKeepalive)))
    // The result is a non-empty decoded reply, or else the input.
    ensures e.request.Some? ==>
              match ReplyText(w.post(e.request.value), w.parse)
              case Some(s) => e.text == (if s == "" then text else s)
              case None => e.text == text
  {
    match c.textApiBaseUrl
    case None => Elaboration(None, text)
    case Some(base) =>
      var req := Request(base + "/generate",
                         Payload(c.textModel, Replace(template, Placeholder, text), None, true, c.textKeepalive));
      var out := match ReplyText(w.post(req), w.parse)
                 case None => text
                 case Some(s) => if s == "" then text else s;
      Elaboration(Some(req), out)
  }

  /** `elaborate_text` never returns the empty string unless its input was empty. */
  lemma ElaborationNeverEmpties(c: OllamaClient, text: string, template: string, w: World)
    requires text != ""
    ensures ElaborateText(c, text, template, w).text != ""
  {
  }
}
