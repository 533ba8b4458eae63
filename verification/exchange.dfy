/** The forge exchange end to end: the panel's request handled by the
    serverless endpoint, and the endpoint's response read back by the panel.

    The platform writes `res.status(s).json(body)`; the browser's `ok` is a
    2xx status and `response.json()` reads the same JSON back. */
module Exchange {
  import opened Js
  import Cleanup
  import opened ForgeApi
  import opened ForgeClient
  import DevServer

  /** The HTTP response as the panel receives it. */
  function Deliver(r: Response): (reply: Reply)
    ensures reply.Received? && reply.body == Some(r.body)
    ensures reply.ok <==> 200 <= r.status < 300
  {
    Received(200 <= r.status < 300, Some(r.body))
  }

  /** The panel reports a failure exactly when the status is outside 2xx,
      and an ok response can only change the mascot to an array it carried. */
  lemma OkExactlyOn2xx(s: State, r: Response)
    requires s.prompt != ""
    ensures Generate(s, Deliver(r)).failure.None? <==> 200 <= r.status < 300
    ensures Generate(s, Deliver(r)).after.mascot != s.mascot ==>
              200 <= r.status < 300 && r.body == JArray(Generate(s, Deliver(r)).after.mascot)
  {
  }

  /** What the panel sends, as the endpoint sees it. */
  function Outgoing(s: State): Request {
    Request("POST", RequestBody(s))
  }

  /** The panel only sends a non-empty prompt with POST, so its requests
      never meet the method or prompt guards: the answer is a success or a
      server-side failure. */
  lemma PanelPassesGuards(s: State, apiKey: Option<string>, provider: ProviderOutcome,
                          parse: string -> Option<Json>)
    requires s.prompt != ""
    ensures Truthy(PromptOf(RequestBody(s))) && !PromptThrows(RequestBody(s))
    ensures Handle(Outgoing(s), apiKey, provider, parse).status in {200, 500}
  {
    assert PromptOf(RequestBody(s)) == Some(JString(s.prompt));
  }

  /** With the credential set, every panel request reaches the provider. */
  lemma PanelCallsProvider(s: State, apiKey: Option<string>)
    requires s.prompt != "" && KeyPresent(apiKey)
    ensures CallsProvider(Outgoing(s), apiKey)
  {
    assert PromptOf(RequestBody(s)) == Some(JString(s.prompt));
  }

  /** The endpoint ignores the mode and the model the panel sends: morphing
      and creating with the same prompt get the same answer. */
  lemma ModeIgnored(s: State, apiKey: Option<string>, provider: ProviderOutcome,
                    parse: string -> Option<Json>)
    ensures Handle(Outgoing(s.(mode := Morph)), apiKey, provider, parse)
         == Handle(Outgoing(s.(mode := Create)), apiKey, provider, parse)
  {
    ReadsOnlyPrompt("POST", RequestBody(s.(mode := Morph)), RequestBody(s.(mode := Create)),
                    apiKey, provider, parse);
  }

  /** A provider reply that cleans to an array replaces the panel's mascot
      with that array. */
  lemma ArrayReplyReplacesMascot(s: State, apiKey: Option<string>, text: string,
                                 parse: string -> Option<Json>, items: seq<Json>)
    requires s.prompt != "" && KeyPresent(apiKey)
    requires parse(Cleanup.Clean(text)) == Some(JArray(items))
    ensures Generate(s, Deliver(Handle(Outgoing(s), apiKey, Replied(text), parse))).after.mascot
         == items
  {
    var r := Handle(Outgoing(s), apiKey, Replied(text), parse);
    PanelCallsProvider(s, apiKey);
    RelaysParsedReply(Outgoing(s), apiKey, text, parse, JArray(items));
    assert Deliver(r) == Received(true, Some(JArray(items)));
    ReplacesOnArray(s, items);
  }

  /** A refusal whose body carries a non-empty `error` text reaches the
      panel's `catch` as that text. */
  lemma ErrorTextReported(s: State, r: Response, message: string)
    requires s.prompt != "" && !(200 <= r.status < 300)
    requires ErrorText(r.body) == Some(message) && message != ""
    ensures Generate(s, Deliver(r)).failure == Some(Rejected(message))
  {
    assert Deliver(r) == Received(false, Some(r.body));
    assert Get(r.body, "error") == Some(JString(message));
    NotOkReport(s, r.body);
  }

  /** A failed provider call reaches the panel as its own message (or the
      default one), and the mascot stays as it was. */
  lemma ProviderFailureReported(s: State, apiKey: Option<string>, message: string,
                                parse: string -> Option<Json>)
    requires s.prompt != "" && KeyPresent(apiKey)
    ensures var step := Generate(s, Deliver(Handle(Outgoing(s), apiKey, Failed(message), parse)));
            && step.failure == Some(Rejected(if message != "" then message else DefaultFailure))
            && step.after.mascot == s.mascot
  {
    var shown := if message != "" then message else DefaultFailure;
    PanelCallsProvider(s, apiKey);
    FailureMapping(Outgoing(s), apiKey, Failed(message), parse);
    var r := Handle(Outgoing(s), apiKey, Failed(message), parse);
    assert r == Response(500, ErrorBody(shown));
    ErrorTextReported(s, r, shown);
    FailureKeepsMascot(s, Deliver(r));
  }

  /** An unparseable reply reaches the panel as the format error. */
  lemma InvalidReplyReported(s: State, apiKey: Option<string>, text: string,
                             parse: string -> Option<Json>)
    requires s.prompt != "" && KeyPresent(apiKey)
    requires parse(Cleanup.Clean(text)).None?
    ensures Generate(s, Deliver(Handle(Outgoing(s), apiKey, Replied(text), parse))).failure
         == Some(Rejected("Invalid response from AI"))
  {
    PanelCallsProvider(s, apiKey);
    FailureMapping(Outgoing(s), apiKey, Replied(text), parse);
    var r := Handle(Outgoing(s), apiKey, Replied(text), parse);
    assert r == InvalidReply;
    ErrorTextReported(s, r, "Invalid response from AI");
  }

  /** Without the credential the panel reports the configuration error. */
  lemma MissingKeyReported(s: State, apiKey: Option<string>, provider: ProviderOutcome,
                           parse: string -> Option<Json>)
    requires s.prompt != "" && !KeyPresent(apiKey)
    ensures Generate(s, Deliver(Handle(Outgoing(s), apiKey, provider, parse))).failure
         == Some(Rejected("Server configuration error: Missing API Key"))
  {
    MissingKeyText();
  }

  /** Against the development server every failure reads the same. */
  lemma DevFailuresLookAlike(s: State, provider: ProviderOutcome, parse: string -> Option<Json>)
    requires s.prompt != ""
    requires DevServer.Route(provider, parse).status != 200
    ensures Generate(s, Deliver(DevServer.Route(provider, parse))).failure
         == Some(Rejected(DefaultFailure))
  {
    assert DevServer.Route(provider, parse) == DevServer.CatchAll;
    ErrorTextReported(s, DevServer.CatchAll, DefaultFailure);
  }
}
