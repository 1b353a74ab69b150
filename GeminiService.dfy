/**
  The reply fetcher: chooses the API key once from the environment, and turns
  a visitor message plus the prior history into a display string. The text
  generation provider is a parameter that maps a request to an outcome; the
  fetcher never fails, every path ends in a string.
*/
module GeminiService {
  import opened Wrappers
  import PortfolioData

  /** One text part of a provider turn. */
  datatype Part = Part(text: string)

  /** One turn in the provider's format: a role name and its parts. */
  datatype Content = Content(role: string, parts: seq<Part>)

  /** What is sent to the provider (the sampling temperature is not modelled). */
  datatype Request = Request(model: string, contents: seq<Content>, systemInstruction: string)

  /** What the provider call yields: a response whose text may be absent, or a thrown error. */
  datatype Outcome = Ok(text: Option<string>) | Failed

  /** The provider client, built from a key. */
  datatype Client = Client(apiKey: string)

  /** The module-level state fixed at load time: the key and the client, if any. */
  datatype ServiceState = ServiceState(apiKey: string, ai: Option<Client>)

  /** The string handed back to the caller, and the request issued to obtain it, if one was. */
  datatype Reply = Reply(text: string, sent: Option<Request>)

  const ModelName: string := "gemini-2.5-flash"
  const DemoModeReply: string := "I am currently in 'Demo Mode'. To enable live AI responses, please configure the API Key in your deployment settings."
  const EmptyReply: string := "I apologize, I couldn't generate a response at this moment."
  const ConnectionErrorReply: string := "I'm having trouble connecting to the server right now. Please try again later or email Muhamed directly."

  /** JavaScript truthiness of an optional string: present and non-empty. */
  predicate Truthy(v: Option<string>)
  {
    v.Some? && v.value != ""
  }

  /** `API_KEY || VITE_API_KEY || ''`: the first truthy of the two variables, else the empty string. */
  function ResolveApiKey(apiKeyEnv: Option<string>, viteApiKeyEnv: Option<string>): (key: string)
    ensures key == "" <==> !Truthy(apiKeyEnv) && !Truthy(viteApiKeyEnv)
    ensures Truthy(apiKeyEnv) ==> key == apiKeyEnv.value
    ensures !Truthy(apiKeyEnv) && Truthy(viteApiKeyEnv) ==> key == viteApiKeyEnv.value
  {
    if Truthy(apiKeyEnv) then apiKeyEnv.value
    else if Truthy(viteApiKeyEnv) then viteApiKeyEnv.value
    else ""
  }

  /** Module initialisation: a client exists exactly when the key is non-empty, and it holds that key. */
  function InitService(apiKeyEnv: Option<string>, viteApiKeyEnv: Option<string>): (svc: ServiceState)
    ensures svc.apiKey == ResolveApiKey(apiKeyEnv, viteApiKeyEnv)
    ensures svc.ai.Some? <==> svc.apiKey != ""
    ensures svc.ai.Some? ==> svc.ai.value == Client(svc.apiKey)
  {
    var key := ResolveApiKey(apiKeyEnv, viteApiKeyEnv);
    ServiceState(key, if key != "" then Some(Client(key)) else None)
  }

  /** The visitor's new turn as the provider expects it. */
  function UserTurn(userMessage: string): Content
  {
    Content("user", [Part(userMessage)])
  }

  /** The request for a live reply: the history unchanged, then exactly one user turn. */
  function BuildRequest(userMessage: string, history: seq<Content>): (req: Request)
    ensures req.model == ModelName
    ensures req.systemInstruction == PortfolioData.SystemInstruction
    ensures |req.contents| == |history| + 1
    ensures req.contents[..|history|] == history
    ensures req.contents[|history|] == Content("user", [Part(userMessage)])
  {
    Request(ModelName, history + [UserTurn(userMessage)], PortfolioData.SystemInstruction)
  }

  /** `response.text || apology`, and the connection apology for a thrown error. */
  function ReplyFor(outcome: Outcome): (text: string)
    ensures outcome.Failed? ==> text == ConnectionErrorReply
    ensures outcome.Ok? && outcome.text.Some? && outcome.text.value != "" ==> text == outcome.text.value
    ensures outcome.Ok? && (outcome.text.None? || outcome.text.value == "") ==> text == EmptyReply
  {
    match outcome
    case Failed => ConnectionErrorReply
    case Ok(t) => if t.Some? && t.value != "" then t.value else EmptyReply
  }

  /**
    `chatWithPortfolio`: without a key or a client, the demo-mode string and no
    request; otherwise one request to the provider and the string chosen from
    its outcome.
  */
  function ChatWithPortfolio(svc: ServiceState, userMessage: string, history: seq<Content>,
                             provider: Request -> Outcome): (r: Reply)
    ensures r.sent.None? <==> svc.ai.None? || svc.apiKey == ""
    ensures r.sent.None? ==> r.text == DemoModeReply
    ensures r.sent.Some? ==> r.sent.value == BuildRequest(userMessage, history)
    ensures r.sent.Some? ==> r.text == ReplyFor(provider(r.sent.value))
  {
    if svc.ai.None? || svc.apiKey == "" then
      Reply(DemoModeReply, None)
    else
      var req := BuildRequest(userMessage, history);
      Reply(ReplyFor(provider(req)), Some(req))
  }

  /** With the service as initialised, live mode is on exactly when one of the variables is truthy. */
  lemma LiveModeIffKeyConfigured(apiKeyEnv: Option<string>, viteApiKeyEnv: Option<string>,
                                 userMessage: string, history: seq<Content>, provider: Request -> Outcome)
    ensures ChatWithPortfolio(InitService(apiKeyEnv, viteApiKeyEnv), userMessage, history, provider).sent.Some?
        <==> Truthy(apiKeyEnv) || Truthy(viteApiKeyEnv)
  {
  }

  /** In demo mode the reply depends on nothing: not the message, the history or the provider. */
  lemma DemoModeIsConstant(svc: ServiceState, m1: string, h1: seq<Content>, p1: Request -> Outcome,
                           m2: string, h2: seq<Content>, p2: Request -> Outcome)
    requires svc.apiKey == ""
    ensures ChatWithPortfolio(svc, m1, h1, p1) == ChatWithPortfolio(svc, m2, h2, p2) == Reply(DemoModeReply, None)
  {
  }

  /**
    The reply is one of the three fixed strings or the provider's own
    non-empty text; it is never empty, so the caller always has something to show.
  */
  lemma ReplyIsFixedOrProviderText(svc: ServiceState, userMessage: string, history: seq<Content>,
                                   provider: Request -> Outcome)
    ensures var r := ChatWithPortfolio(svc, userMessage, history, provider);
      && r.text != ""
      && (|| r.text in {DemoModeReply, EmptyReply, ConnectionErrorReply}
          || (r.sent.Some? && provider(r.sent.value) == Ok(Some(r.text))))
  {
  }
}
