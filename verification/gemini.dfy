/** The client of the remote text-generation service (src/app/lib/gemini.ts):
    the API-key guard, the conversion of the chat transcript into request
    contents, the trimmed reply, and the paginated listing of the service's
    models. The remote calls themselves are parameters: `service` answers a
    generation request, and `pages` is the sequence of responses the listing
    endpoint gives to successive page requests. */
module Gemini {
  import opened Wrappers
  import opened Text

  /** Who wrote a transcript message: `'user' | 'bot'`. */
  datatype Role = User | Bot

  /** A transcript message as the service client receives it. */
  datatype ChatMessage = ChatMessage(role: Role, content: string)

  /** The roles the service understands: `'user' | 'model'`. */
  datatype ContentRole = UserRole | ModelRole

  datatype Part = Part(text: string)

  /** One entry of the request's `contents`. */
  datatype Content = Content(role: ContentRole, parts: seq<Part>)

  const ModelName: string := "models/gemini-2.5-flash"

  const SystemInstruction: string :=
    "You are PeaceNet AI, an empathetic and supportive companion. Respond with warmth, validate feelings, and offer practical, safety-minded guidance. Keep responses concise and avoid judgment, but if the user taped a message in tunisian language, respond in tunisian language."

  /** The configured generative model: the key it was created with, its name
      and the persona instruction. */
  datatype GenerativeModel = GenerativeModel(apiKey: string, model: string, systemInstruction: string)

  /** A generation request as handed to the service. */
  datatype GenerateRequest = GenerateRequest(model: GenerativeModel, contents: seq<Content>)

  /** What the service does with a request: answers with a text, or throws. */
  datatype ServiceResponse = Responded(text: string) | Threw

  datatype Error =
    | MissingApiKey                          // 'Missing VITE_GEMINI_API_KEY'
    | GenerationFailed                       // generateContent threw
    | ListFailed(status: int, body: string)  // a listing page answered with a non-ok status

  /** The key is read from the environment; JavaScript treats an unset key and
      the empty string alike (`!apiKey`). */
  predicate HasKey(apiKey: Option<string>)
  {
    apiKey.Some? && apiKey.value != ""
  }

  /** `getModel`: refuses to build a model without a key. */
  function GetModel(apiKey: Option<string>): (r: Result<GenerativeModel, Error>)
    ensures r.Failure? <==> !HasKey(apiKey)
    ensures r.Failure? ==> r.error == MissingApiKey
    ensures r.Success? ==> r.value.apiKey == apiKey.value && r.value.model == ModelName
                           && r.value.systemInstruction == SystemInstruction
  {
    if !HasKey(apiKey) then Failure(MissingApiKey)
    else Success(GenerativeModel(apiKey.value, ModelName, SystemInstruction))
  }

  /** The role mapping: `'user'` stays `'user'`, anything else becomes `'model'`. */
  function ToContentRole(role: Role): ContentRole
  {
    if role == User then UserRole else ModelRole
  }

  /** The `messages.map(...)` of `getGeminiReply`: one entry per message, in
      transcript order, with the mapped role and exactly one text part holding
      the message's content. */
  function ToContents(messages: seq<ChatMessage>): (r: seq<Content>)
    ensures |r| == |messages|
    ensures forall i :: 0 <= i < |r| ==>
      && (r[i].role == UserRole <==> messages[i].role == User)
      && (r[i].role == ModelRole <==> messages[i].role == Bot)
      && r[i].parts == [Part(messages[i].content)]
  {
    if messages == [] then []
    else [Content(ToContentRole(messages[0].role), [Part(messages[0].content)])] + ToContents(messages[1..])
  }

  /** Reads one request entry back as a transcript message; entries that the
      conversion never produces (not exactly one part) have no reading. */
  function FromContent(c: Content): Option<ChatMessage>
  {
    if |c.parts| != 1 then None
    else Some(ChatMessage(if c.role == UserRole then User else Bot, c.parts[0].text))
  }

  function FromContents(cs: seq<Content>): Option<seq<ChatMessage>>
  {
    if cs == [] then Some([])
    else match (FromContent(cs[0]), FromContents(cs[1..]))
      case (Some(m), Some(ms)) => Some([m] + ms)
      case _ => None
  }

  /** The conversion loses nothing: the transcript can be read back from the
      request contents, roles, texts and order included. */
  lemma {:induction false} ContentsRoundTrip(messages: seq<ChatMessage>)
    ensures FromContents(ToContents(messages)) == Some(messages)
  {
    if messages != [] {
      ContentsRoundTrip(messages[1..]);
      assert ToContents(messages)[1..] == ToContents(messages[1..]);
      assert [messages[0]] + messages[1..] == messages;
    }
  }

  /** Converting a transcript piece by piece gives the same request contents,
      so the conversion keeps the order of the transcript. */
  lemma {:induction false} ContentsOfAppend(a: seq<ChatMessage>, b: seq<ChatMessage>)
    ensures ToContents(a + b) == ToContents(a) + ToContents(b)
  {
    if a != [] {
      assert (a + b)[1..] == a[1..] + b;
      ContentsOfAppend(a[1..], b);
    } else {
      assert a + b == b;
    }
  }

  /** The request `getGeminiReply` sends, or the configuration error raised
      before any request is built. */
  function BuildRequest(apiKey: Option<string>, messages: seq<ChatMessage>): (r: Result<GenerateRequest, Error>)
    ensures r.Failure? <==> !HasKey(apiKey)
    ensures r.Failure? ==> r.error == MissingApiKey
    ensures r.Success? ==> r.value.contents == ToContents(messages) && r.value.model.apiKey == apiKey.value
  {
    match GetModel(apiKey)
    case Failure(e) => Failure(e)
    case Success(model) => Success(GenerateRequest(model, ToContents(messages)))
  }

  /** `getGeminiReply`: without a key it fails before the service is asked;
      otherwise it fails exactly when the service throws, and on success
      returns the service's text trimmed. */
  function GeminiReply(apiKey: Option<string>, messages: seq<ChatMessage>,
                       service: GenerateRequest -> ServiceResponse): (r: Result<string, Error>)
    ensures !HasKey(apiKey) ==> r == Failure(MissingApiKey)
    ensures HasKey(apiKey) ==>
      var response := service(BuildRequest(apiKey, messages).value);
      && (r.Failure? <==> response.Threw?)
      && (r.Failure? ==> r.error == GenerationFailed)
      && (r.Success? ==> r.value == Trim(response.text))
      && (r.Success? ==> IsTrimmed(r.value) && |r.value| <= |response.text|)
      && (r.Success? && IsTrimmed(response.text) ==> r.value == response.text)
  {
    match BuildRequest(apiKey, messages)
    case Failure(e) => Failure(e)
    case Success(request) =>
      match service(request)
      case Threw => Failure(GenerationFailed)
      case Responded(text) =>
        var reply := Trim(text);
        assert IsTrimmed(text) ==> reply == text by {
          if IsTrimmed(text) { TrimOfTrimmed(text); }
        }
        Success(reply)
  }

  // ---- Model listing -------------------------------------------------------

  datatype ModelInfo = ModelInfo(
    name: string,
    displayName: Option<string>,
    description: Option<string>,
    supportedGenerationMethods: Option<seq<string>>,
    inputTokenLimit: Option<int>,
    outputTokenLimit: Option<int>)

  /** One response of the listing endpoint: a non-ok status with its body text,
      or a page with optional `models` and an optional `nextPageToken`. */
  datatype PageResponse =
    | NotOk(status: int, body: string)
    | Page(models: Option<seq<ModelInfo>>, nextPageToken: Option<string>)

  /** A token counts only when it is a non-empty string (`while (nextPageToken)`). */
  predicate Truthy(token: Option<string>)
  {
    token.Some? && token.value != ""
  }

  /** After this response the loop asks for another page. */
  predicate Continues(p: PageResponse)
  {
    p.Page? && Truthy(p.nextPageToken)
  }

  /** The models a response contributes (`models.push(...data.models)`). */
  function PageModels(p: PageResponse): seq<ModelInfo>
  {
    if p.Page? && p.models.Some? then p.models.value else []
  }

  /** The models of the given responses, concatenated in page order: every
      listed model comes from one of the pages, and no page's model is lost. */
  function AllModels(pages: seq<PageResponse>): (r: seq<ModelInfo>)
    ensures forall m :: m in r ==> exists i :: 0 <= i < |pages| && m in PageModels(pages[i])
    ensures forall i, m :: 0 <= i < |pages| && m in PageModels(pages[i]) ==> m in r
  {
    if pages == [] then [] else AllModels(pages[..|pages| - 1]) + PageModels(pages[|pages| - 1])
  }

  /** Page order is kept: the listing of two runs of pages is the listing of
      the first followed by the listing of the second. */
  lemma {:induction false} AllModelsOfAppend(a: seq<PageResponse>, b: seq<PageResponse>)
    ensures AllModels(a + b) == AllModels(a) + AllModels(b)
  {
    if b != [] {
      assert (a + b)[..|a + b| - 1] == a + b[..|b| - 1];
      AllModelsOfAppend(a, b[..|b| - 1]);
    } else {
      assert a + b == a;
    }
  }

  /** The endpoint eventually answers with a page that stops the loop. */
  predicate Stops(pages: seq<PageResponse>)
  {
    exists k :: 0 <= k < |pages| && !Continues(pages[k])
  }

  /** The index of the first response that stops the loop. */
  function StopIndex(pages: seq<PageResponse>): (k: nat)
    requires Stops(pages)
    ensures k < |pages| && !Continues(pages[k])
    ensures forall j :: 0 <= j < k ==> Continues(pages[j])
  {
    if !Continues(pages[0]) then 0
    else
      StopsAfterContinue(pages);
      1 + StopIndex(pages[1..])
  }

  /** Past a response that continues, the rest of the stream still stops. */
  lemma StopsAfterContinue(pages: seq<PageResponse>)
    requires Stops(pages) && Continues(pages[0])
    ensures Stops(pages[1..])
  {
    var k :| 0 <= k < |pages| && !Continues(pages[k]);
    assert !Continues(pages[1..][k - 1]);
  }

  /** `listGeminiModels`. The i-th fetch receives the response `pages[i]`;
      `requested` records the `pageToken` parameter of every fetch made (None
      when the parameter is not set). Without a key nothing is fetched;
      otherwise the pages are fetched as FetchPages says. */
  method ListGeminiModels(apiKey: Option<string>, pages: seq<PageResponse>)
      returns (r: Result<seq<ModelInfo>, Error>, requested: seq<Option<string>>)
    requires HasKey(apiKey) ==> Stops(pages)
    ensures !HasKey(apiKey) ==> r == Failure(MissingApiKey) && requested == []
    ensures HasKey(apiKey) ==> |requested| == StopIndex(pages) + 1 && requested[0] == None
    ensures HasKey(apiKey) ==> forall i :: 0 < i < |requested| ==> requested[i] == pages[i - 1].nextPageToken
    ensures HasKey(apiKey) ==> (r.Success? <==> pages[StopIndex(pages)].Page?)
    ensures HasKey(apiKey) && r.Success? ==> r.value == AllModels(pages[..StopIndex(pages) + 1])
    ensures HasKey(apiKey) && r.Failure? ==>
      r.error == ListFailed(pages[StopIndex(pages)].status, pages[StopIndex(pages)].body)
  {
    if !HasKey(apiKey) {
      return Failure(MissingApiKey), [];
    }
    r, requested := FetchPages(pages);
  }

  /** The paging loop of `listGeminiModels`: it fetches up to and including
      the first page that has no token; a non-ok response among them throws
      with its status and text and no partial list is returned; otherwise the
      result is every fetched page's models, in page order. */
  method FetchPages(pages: seq<PageResponse>)
      returns (r: Result<seq<ModelInfo>, Error>, requested: seq<Option<string>>)
    requires Stops(pages)
    ensures |requested| == StopIndex(pages) + 1 && requested[0] == None
    ensures forall i :: 0 < i < |requested| ==> requested[i] == pages[i - 1].nextPageToken
    ensures r.Success? <==> pages[StopIndex(pages)].Page?
    ensures r.Success? ==> r.value == AllModels(pages[..StopIndex(pages) + 1])
    ensures r.Failure? ==> r.error == ListFailed(pages[StopIndex(pages)].status, pages[StopIndex(pages)].body)
  {
    requested := [];
    ghost var stop := StopIndex(pages);
    var models: seq<ModelInfo> := [];
    var nextPageToken: Option<string> := None;
    var i := 0;
    var more := true;
    while more
      invariant 0 <= i <= stop + 1
      invariant more <==> i <= stop
      invariant |requested| == i
      invariant i > 0 ==> requested[0] == None
      invariant forall j :: 0 < j < i ==> requested[j] == pages[j - 1].nextPageToken
      invariant forall j :: 0 <= j < i ==> pages[j].Page?
      invariant nextPageToken == if i == 0 then None else pages[i - 1].nextPageToken
      invariant models == AllModels(pages[..i])
      decreases stop + 1 - i
    {
      var pageToken := if Truthy(nextPageToken) then nextPageToken else None;
      assert pageToken == nextPageToken;
      requested := requested + [pageToken];
      var response := pages[i];
      if response.NotOk? {
        return Failure(ListFailed(response.status, response.body)), requested;
      }
      if response.models.Some? && |response.models.value| > 0 {
        models := models + response.models.value;
      }
      assert pages[..i + 1][..i] == pages[..i];
      nextPageToken := response.nextPageToken;
      assert Truthy(nextPageToken) <==> i < stop;
      i := i + 1;
      more := Truthy(nextPageToken);
    }
    r := Success(models);
  }
}
