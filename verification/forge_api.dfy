/** The serverless forge endpoint (api/forge.ts): guards on the HTTP method,
    the prompt and the provider credential, then asks the model provider for
    a voxel model, cleans its reply and relays the parsed JSON.

    The provider call and `JSON.parse` are foreign: the provider's answer for
    this request is an input value, and the parser is a function parameter. */
module ForgeApi {
  import opened Js
  import Cleanup
  import Seqs

  /** What the handler reads of the request: its HTTP method (`verb`) and the body the
      platform parsed. */
  datatype Request = Request(verb: string, body: Json)

  /** What the handler writes: `res.status(status).json(body)`. */
  datatype Response = Response(status: int, body: Json)

  /** What the model provider did for this request: it either produced reply
      text, or something in the call chain threw an error whose `message`
      is given ("" when the error had none). */
  datatype ProviderOutcome = Replied(text: string) | Failed(message: string)

  const DefaultFailure: string := "Intelligence failure"

  function ErrorBody(message: string): (j: Json)
    ensures Get(j, "error") == Some(JString(message))
    ensures ErrorText(j) == Some(message)
  {
    JObject([("error", JString(message))])
  }

  /** The `error` text of a response body, when it has one. */
  function ErrorText(body: Json): Option<string> {
    match Get(body, "error")
    case Some(JString(m)) => Some(m)
    case _ => None
  }

  const MethodNotAllowed: Response := Response(405, ErrorBody("Method not allowed"))
  const PromptRequired: Response := Response(400, ErrorBody("Prompt is required"))
  const MissingKey: Response :=
    Response(500, JObject([("error", JString("Server configuration error: Missing API Key")),
                           ("debug", JString("Check Vercel Dashboard > Environment Variables"))]))
  const InvalidReply: Response := Response(500, ErrorBody("Invalid response from AI"))
  const UnconvertiblePrompt: Response := Response(500, ErrorBody(ConversionFailure))

  lemma MissingKeyText()
    ensures ErrorText(MissingKey.body) == Some("Server configuration error: Missing API Key")
  {
    var members := MissingKey.body.members;
    assert members[1].0 != "error" by { assert members[1].0[0] == 'd'; }
    assert members[..1][0].0 == "error";
  }

  /** `const { prompt } = req.body`: the one field the handler reads. It is
      `undefined` unless the body is an object naming `prompt`, and a
      repeated name yields its last value. */
  function PromptOf(body: Json): (p: Option<Json>)
    ensures p.None? <==> !body.JObject? || forall i :: 0 <= i < |body.members| ==> body.members[i].0 != "prompt"
    ensures p.Some? ==> body.JObject? && LastWith(body.members, "prompt", p.value)
  {
    Get(body, "prompt")
  }

  /** `process.env.GOOGLE_API_KEY` is truthy: set, and not the empty
      string. */
  predicate KeyPresent(apiKey: Option<string>)
    ensures KeyPresent(apiKey) <==> Truthy(if apiKey.Some? then Some(JString(apiKey.value)) else None)
  {
    apiKey.Some? && apiKey.value != ""
  }

  /** The message V8 gives the TypeError of a failed string conversion. */
  const ConversionFailure: string := "Cannot convert object to primitive value"

  /** The prompt cannot be written into the provider request: the template
      literal `Generate a voxel model for: ${prompt}` throws. */
  predicate PromptThrows(body: Json)
    ensures PromptThrows(body) ==>
              body.JObject? && Truthy(PromptOf(body))
              && (PromptOf(body).value.JObject? || PromptOf(body).value.JArray?)
  {
    PromptOf(body).Some? && ToStringThrows(PromptOf(body).value)
  }

  /** The handler passes its three guards: method, prompt, credential. */
  predicate PassesGuards(req: Request, apiKey: Option<string>) {
    req.verb == "POST" && Truthy(PromptOf(req.body)) && KeyPresent(apiKey)
  }

  /** The handler reaches the provider call: past the guards, and the
      prompt converts to text. */
  predicate CallsProvider(req: Request, apiKey: Option<string>) {
    PassesGuards(req, apiKey) && !PromptThrows(req.body)
  }

  /** The handler. Destructuring a null body throws before any response is
      written, so a POST must carry a non-null body. */
  function Handle(req: Request, apiKey: Option<string>, provider: ProviderOutcome,
                  parse: string -> Option<Json>): (r: Response)
    requires req.verb == "POST" ==> !req.body.JNull?
    ensures r.status == 200 || r.status == 400 || r.status == 405 || r.status == 500
    ensures r.status == 200 <==>
              CallsProvider(req, apiKey) && provider.Replied?
              && parse(Cleanup.Clean(provider.text)).Some?
    ensures r.status == 200 ==> Some(r.body) == parse(Cleanup.Clean(provider.text))
    ensures r.status != 200 ==> ErrorText(r.body).Some? && ErrorText(r.body).value != ""
  {
    if req.verb != "POST" then MethodNotAllowed
    else if !Truthy(PromptOf(req.body)) then PromptRequired
    else if !KeyPresent(apiKey) then MissingKeyText(); MissingKey
    else if PromptThrows(req.body) then UnconvertiblePrompt
    else Relay(provider, parse)
  }

  /** The `try` block past the guards: the provider's reply is cleaned and
      parsed; a parse failure and a provider failure are told apart. */
  function Relay(provider: ProviderOutcome, parse: string -> Option<Json>): (r: Response)
    ensures r.status == 200 || r.status == 500
    ensures r.status == 200 <==> provider.Replied? && parse(Cleanup.Clean(provider.text)).Some?
    ensures r.status == 200 ==> Some(r.body) == parse(Cleanup.Clean(provider.text))
    ensures r.status == 500 ==> ErrorText(r.body).Some? && ErrorText(r.body).value != ""
  {
    match provider
    case Failed(message) =>
      Response(500, ErrorBody(if message != "" then message else DefaultFailure))
    case Replied(text) =>
      match parse(Cleanup.Clean(text))
      case Some(value) => Response(200, value)
      case None => InvalidReply
  }

  /** The method guard comes first: any other method is refused whatever the
      body, the credential or the provider would have done. */
  lemma MethodGuardFirst(req: Request, apiKey: Option<string>, provider: ProviderOutcome,
                         parse: string -> Option<Json>)
    requires req.verb != "POST"
    ensures Handle(req, apiKey, provider, parse) == MethodNotAllowed
  {
  }

  /** A POST without a truthy prompt is a client error, before the
      credential is looked at. */
  lemma PromptGuardSecond(req: Request, apiKey: Option<string>, provider: ProviderOutcome,
                          parse: string -> Option<Json>)
    requires req.verb == "POST" && !req.body.JNull?
    requires !Truthy(PromptOf(req.body))
    ensures Handle(req, apiKey, provider, parse) == PromptRequired
  {
  }

  /** With a prompt but no credential the answer is the configuration error. */
  lemma KeyGuardThird(req: Request, apiKey: Option<string>, provider: ProviderOutcome,
                      parse: string -> Option<Json>)
    requires req.verb == "POST" && Truthy(PromptOf(req.body))
    requires !KeyPresent(apiKey)
    ensures Handle(req, apiKey, provider, parse) == MissingKey
  {
  }

  /** A prompt that cannot be converted to text passes the prompt guard,
      and the `try` block catches the conversion's TypeError: the client
      gets a 500 carrying its message, and the provider is never asked. */
  lemma UnconvertiblePromptCaught(req: Request, apiKey: Option<string>, provider: ProviderOutcome,
                                  parse: string -> Option<Json>)
    requires req.verb == "POST" && KeyPresent(apiKey) && PromptThrows(req.body)
    ensures Truthy(PromptOf(req.body))
    ensures Handle(req, apiKey, provider, parse) == UnconvertiblePrompt
    ensures ErrorText(Handle(req, apiKey, provider, parse).body) == Some(ConversionFailure)
  {
    ThrowingValuesAreTruthy(PromptOf(req.body).value);
  }

  /** Short of the provider call, neither the provider nor the parser can
      influence the response: they are not consulted. */
  lemma GuardsSkipProvider(req: Request, apiKey: Option<string>,
                           p1: ProviderOutcome, parse1: string -> Option<Json>,
                           p2: ProviderOutcome, parse2: string -> Option<Json>)
    requires req.verb == "POST" ==> !req.body.JNull?
    requires !CallsProvider(req, apiKey)
    ensures Handle(req, apiKey, p1, parse1) == Handle(req, apiKey, p2, parse2)
    ensures Handle(req, apiKey, p1, parse1).status != 200
  {
  }

  /** Only `prompt` is read from the body: `currentModel`, `mode` and any
      other member leave the response unchanged. */
  lemma ReadsOnlyPrompt(verb: string, b1: Json, b2: Json, apiKey: Option<string>,
                        provider: ProviderOutcome, parse: string -> Option<Json>)
    requires !b1.JNull? && !b2.JNull?
    requires PromptOf(b1) == PromptOf(b2)
    ensures Handle(Request(verb, b1), apiKey, provider, parse)
         == Handle(Request(verb, b2), apiKey, provider, parse)
  {
  }

  /** Past the guards, a reply that parses is relayed as is, with no check
      that it is an array or that its elements look like voxels. */
  lemma RelaysParsedReply(req: Request, apiKey: Option<string>, text: string,
                          parse: string -> Option<Json>, value: Json)
    requires CallsProvider(req, apiKey)
    requires parse(Cleanup.Clean(text)) == Some(value)
    ensures Handle(req, apiKey, Replied(text), parse) == Response(200, value)
  {
  }

  /** Past the guards, the two failures are told apart: an unparseable reply
      is a format error, a failed call surfaces the provider's own message
      (or the default when it has none). */
  lemma FailureMapping(req: Request, apiKey: Option<string>, provider: ProviderOutcome,
                       parse: string -> Option<Json>)
    requires CallsProvider(req, apiKey)
    ensures provider.Replied? && parse(Cleanup.Clean(provider.text)).None? ==>
              Handle(req, apiKey, provider, parse) == InvalidReply
    ensures provider.Failed? && provider.message != "" ==>
              Handle(req, apiKey, provider, parse) == Response(500, ErrorBody(provider.message))
    ensures provider.Failed? && provider.message == "" ==>
              Handle(req, apiKey, provider, parse) == Response(500, ErrorBody(DefaultFailure))
  {
  }

  /** An end-to-end example: prompt "red cube", the provider answers with
      a one-voxel array, and the response is exactly that array. The same
      holds when the array arrives inside a fence. Any colour without a
      backtick, "#ff0000" included, behaves the same. */
  lemma RedCubeExample(apiKey: Option<string>, parse: string -> Option<Json>, color: string)
    requires KeyPresent(apiKey) && Cleanup.NoTicks(color)
    requires parse(OneVoxelText(color)) == Some(OneVoxel(color))
    ensures Handle(Request("POST", JObject([("prompt", JString("red cube"))])), apiKey,
                   Replied(OneVoxelText(color)), parse)
         == Response(200, OneVoxel(color))
    ensures Handle(Request("POST", JObject([("prompt", JString("red cube"))])), apiKey,
                   Replied("```json\n" + OneVoxelText(color) + "\n```"), parse)
         == Response(200, OneVoxel(color))
  {
    var req := Request("POST", JObject([("prompt", JString("red cube"))]));
    var fenced := "```json\n" + OneVoxelText(color) + "\n```";
    assert CallsProvider(req, apiKey) by {
      assert PromptOf(req.body) == Some(JString("red cube"));
    }
    CleanBareVoxel(color);
    RelaysParsedReply(req, apiKey, OneVoxelText(color), parse, OneVoxel(color));
    CleanOneVoxel(color);
    assert parse(Cleanup.Clean(fenced)) == Some(OneVoxel(color));
    RelaysParsedReply(req, apiKey, fenced, parse, OneVoxel(color));
  }

  /** The bare one-voxel reply passes the cleanup unchanged. */
  lemma CleanBareVoxel(color: string)
    requires Cleanup.NoTicks(color)
    ensures Cleanup.Clean(OneVoxelText(color)) == OneVoxelText(color)
  {
    CleanOneVoxel(color);
    Cleanup.CleanIdempotent("```json\n" + OneVoxelText(color) + "\n```");
  }

  /** The cleanup strips the fence and the newlines around the array. */
  lemma CleanOneVoxel(color: string)
    requires Cleanup.NoTicks(color)
    ensures Cleanup.Clean("```json\n" + OneVoxelText(color) + "\n```") == OneVoxelText(color)
  {
    var text := OneVoxelText(color);
    OneVoxelTextShape(color);
    FenceSplit(text);
    Cleanup.FencedPayload("\n", text, "\n");
  }

  /** The provider's text for a single voxel at the origin. */
  function OneVoxelText(color: string): string {
    OneVoxelHead + color + "\"}]"
  }

  const OneVoxelHead: string := "[{\"x\":0,\"y\":0,\"z\":0,\"color\":\""

  /** The value `JSON.parse` makes of that text. */
  function OneVoxel(color: string): Json {
    JArray([JObject([("x", JNumber(0.0)), ("y", JNumber(0.0)), ("z", JNumber(0.0)),
                     ("color", JString(color))])])
  }

  lemma OneVoxelTextShape(color: string)
    requires Cleanup.NoTicks(color)
    ensures Cleanup.NoTicks(OneVoxelText(color)) && Cleanup.Trimmed(OneVoxelText(color))
    ensures |OneVoxelText(color)| > 0
  {
    var head, tail := OneVoxelHead, "\"}]";
    var t := OneVoxelText(color);
    assert t == head + color + tail;
    forall i | 0 <= i < |head|
      ensures head[i] != '`'
    {
      assert head[i] in "[]{}:,\"xyzcolr0";
    }
    forall i | 0 <= i < |t|
      ensures t[i] != '`'
    {
      if i < |head| {
        assert t[i] == head[i];
      } else if i < |head| + |color| {
        assert t[i] == color[i - |head|];
      } else {
        assert t[i] == tail[i - |head| - |color|];
      }
    }
    assert t[0] == '[' && t[|t| - 1] == ']';
    assert !Cleanup.IsSpace('[') && !Cleanup.IsSpace(']');
  }

  /** The fenced reply is the two fences around the payload, each padded
      with a newline. */
  lemma FenceSplit(text: string)
    ensures "```json\n" + text + "\n```" == Cleanup.JsonFence + "\n" + text + "\n" + Cleanup.Fence
    ensures Cleanup.AllSpace("\n")
  {
    assert "```json\n" == Cleanup.JsonFence + "\n" && "\n```" == "\n" + Cleanup.Fence;
    Seqs.AppendAssoc(Cleanup.JsonFence + "\n", text, "\n" + Cleanup.Fence);
    Seqs.AppendAssoc(Cleanup.JsonFence + "\n" + text, "\n", Cleanup.Fence);
    assert Cleanup.IsSpace('\n');
  }

  /** An empty prompt is refused with 400 "Prompt is required". */
  lemma EmptyPromptExample(apiKey: Option<string>, provider: ProviderOutcome,
                           parse: string -> Option<Json>)
    ensures Handle(Request("POST", JObject([("prompt", JString(""))])), apiKey, provider, parse)
         == Response(400, ErrorBody("Prompt is required"))
  {
  }
}
