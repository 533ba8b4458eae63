/** The local development server's `/api/forge` route (server.js). It applies
    the same reply cleanup as the serverless handler, but it has no method,
    prompt or credential guards, and it folds every failure into one message.

    Express only routes POST here. In its default strict mode
    `express.json()` answers 400 itself, before the route runs, to a JSON
    body whose top level is not an object or an array; with the Express 4
    body parser `req.body` is `{}` when no JSON was parsed. So the body is
    never null and destructuring it cannot throw.

    The route logs twice, and both logs convert a value to text, which can
    throw (`Js.ToStringThrows`). The success log reads `voxelData.length`
    inside the `try`, so a failure there is caught like any other. The
    prompt log runs before the `try`: a prompt that cannot be converted
    makes the async handler reject before the route writes anything. What
    follows is Express's and Node's, not this route's: Express 4 leaves the
    rejection unhandled, and Node 15 and later end the dev-server process on
    it, so later requests fail too; Express 5 hands it to its default error
    handler, which answers 500 with a page that is not JSON. Past the prompt
    log, the response is a function of the provider's outcome and the
    parser alone. */
module DevServer {
  import opened Js
  import Cleanup
  import opened ForgeApi

  const CatchAll: Response := Response(500, ErrorBody(DefaultFailure))

  /** The success log `${voxelData.length}` throws: reading a property of
      null throws, and so does converting a `length` that cannot become
      text. An array's or a string's `length` is a number, and numbers,
      booleans and strings have no other `length`, so for them `Get`'s
      `None` stands in for a value whose conversion cannot throw. */
  predicate LogThrows(value: Json)
    ensures LogThrows(value) ==> value.JNull? || value.JObject?
  {
    value.JNull? || (Get(value, "length").Some? && ToStringThrows(Get(value, "length").value))
  }

  /** The `try` block. After a successful parse it logs `voxelData.length`;
      when that throws, the catch turns it into the same 500 as every other
      failure. */
  function Route(provider: ProviderOutcome, parse: string -> Option<Json>): (r: Response)
    ensures r.status == 200 || r == CatchAll
    ensures r.status == 200 <==>
              provider.Replied? && parse(Cleanup.Clean(provider.text)).Some?
              && !LogThrows(parse(Cleanup.Clean(provider.text)).value)
    ensures r.status == 200 ==> Some(r.body) == parse(Cleanup.Clean(provider.text))
  {
    match provider
    case Failed(_) => CatchAll
    case Replied(text) =>
      match parse(Cleanup.Clean(text))
      case None => CatchAll
      case Some(value) => if LogThrows(value) then CatchAll else Response(200, value)
  }

  /** The whole route: `None` when the prompt log, which runs before the
      `try`, throws and no response is ever written. */
  function Serve(body: Json, provider: ProviderOutcome, parse: string -> Option<Json>)
    : (r: Option<Response>)
    requires !body.JNull?
    ensures r.None? <==> PromptThrows(body)
    ensures r.Some? ==> r.value.status == 200 || r.value == CatchAll
    ensures r.Some? && r.value.status == 200 ==>
              provider.Replied? && Some(r.value.body) == parse(Cleanup.Clean(provider.text))
  {
    if PromptThrows(body) then None else Some(Route(provider, parse))
  }

  /** The provider's message never reaches the client: every failure reads
      "Intelligence failure". */
  lemma HidesProviderMessage(message: string, parse: string -> Option<Json>)
    ensures Route(Failed(message), parse) == CatchAll
    ensures ErrorText(Route(Failed(message), parse).body) == Some(DefaultFailure)
  {
  }

  /** On every request the two servers would both send to the provider, the
      dev route answers, they agree whenever it succeeds, and the serverless
      handler succeeds with the same body except on a reply whose success
      log throws. */
  lemma AgreeOnSuccess(req: Request, apiKey: Option<string>, provider: ProviderOutcome,
                       parse: string -> Option<Json>)
    requires req.verb == "POST" ==> !req.body.JNull?
    requires CallsProvider(req, apiKey)
    ensures Serve(req.body, provider, parse) == Some(Route(provider, parse))
    ensures Route(provider, parse).status == 200 ==>
              Handle(req, apiKey, provider, parse) == Route(provider, parse)
    ensures Handle(req, apiKey, provider, parse).status == 200
            && !LogThrows(Handle(req, apiKey, provider, parse).body) ==>
              Handle(req, apiKey, provider, parse) == Route(provider, parse)
  {
  }

  /** Where they part: the dev route calls the provider even for a missing
      prompt, which the serverless handler refuses with a 400. */
  lemma DivergeOnMissingPrompt(body: Json, apiKey: Option<string>, text: string,
                               parse: string -> Option<Json>, value: Json)
    requires !body.JNull? && !Truthy(PromptOf(body))
    requires parse(Cleanup.Clean(text)) == Some(value) && !LogThrows(value)
    ensures Handle(Request("POST", body), apiKey, Replied(text), parse) == PromptRequired
    ensures Serve(body, Replied(text), parse) == Some(Response(200, value))
  {
  }

  /** Where they part: a prompt that cannot be converted to text gets the
      serverless handler's caught 500, and no answer at all from the dev
      route, whose prompt log throws outside the `try`. */
  lemma DivergeOnUnconvertiblePrompt(body: Json, apiKey: Option<string>, provider: ProviderOutcome,
                                     parse: string -> Option<Json>)
    requires !body.JNull? && KeyPresent(apiKey) && PromptThrows(body)
    ensures Handle(Request("POST", body), apiKey, provider, parse) == UnconvertiblePrompt
    ensures Serve(body, provider, parse).None?
  {
    UnconvertiblePromptCaught(Request("POST", body), apiKey, provider, parse);
  }

  /** Where they part: a reply whose `length` cannot be converted to text is
      relayed by the serverless handler, and the dev route's success log
      throws on it. */
  lemma DivergeOnLengthLog(req: Request, apiKey: Option<string>, text: string,
                           parse: string -> Option<Json>, value: Json)
    requires CallsProvider(req, apiKey)
    requires parse(Cleanup.Clean(text)) == Some(value) && LogThrows(value)
    ensures Handle(req, apiKey, Replied(text), parse) == Response(200, value)
    ensures Route(Replied(text), parse) == CatchAll
  {
  }

  /** On an object, the success log throws exactly when the value of its
      last `length` member cannot be converted to text; without a `length`
      member it logs "undefined". */
  lemma LengthLogExactly(value: Json)
    ensures value.JObject? && (forall i :: 0 <= i < |value.members| ==> value.members[i].0 != "length")
            ==> !LogThrows(value)
    ensures forall v :: value.JObject? && LastWith(value.members, "length", v) ==>
              (LogThrows(value) <==> ToStringThrows(v))
  {
    forall v | value.JObject? && LastWith(value.members, "length", v)
      ensures LogThrows(value) <==> ToStringThrows(v)
    {
      LastWithUnique(value.members, "length", v, Get(value, "length").value);
    }
  }

  /** Replies on which the success log throws: an object whose `length` has
      its own `toString`, or holds an array with such an element. An array
      or string reply never does, whatever it holds, since its `length` is a
      number. */
  lemma LengthLogExamples(v: Json, items: seq<Json>, text: string)
    ensures LogThrows(JObject([("length", JObject([("toString", v)]))]))
    ensures LogThrows(JObject([("length", JArray([JObject([("toString", v)])]))]))
    ensures !LogThrows(JArray(items))
    ensures !LogThrows(JString(text))
  {
    ConversionExamples(v);
    var inner := JArray([JObject([("toString", v)])]);
    assert ToStringThrows(inner.items[0]);
  }

  /** Where they part: a reply that parses to null is relayed by the
      serverless handler and turned into a failure by the dev route. */
  lemma DivergeOnNull(req: Request, apiKey: Option<string>, text: string,
                      parse: string -> Option<Json>)
    requires CallsProvider(req, apiKey)
    requires parse(Cleanup.Clean(text)) == Some(JNull)
    ensures Handle(req, apiKey, Replied(text), parse) == Response(200, JNull)
    ensures Route(Replied(text), parse) == CatchAll
  {
  }

  /** Where they part: the two failure kinds the serverless handler tells
      apart collapse into one. */
  lemma DivergeOnFailures(req: Request, apiKey: Option<string>, provider: ProviderOutcome,
                          parse: string -> Option<Json>)
    requires CallsProvider(req, apiKey)
    requires Handle(req, apiKey, provider, parse).status == 500
    ensures Route(provider, parse) == CatchAll
    ensures provider.Replied? ==> Handle(req, apiKey, provider, parse) == InvalidReply
    ensures provider.Failed? && provider.message != "" ==>
              ErrorText(Handle(req, apiKey, provider, parse).body) == Some(provider.message)
  {
  }
}
