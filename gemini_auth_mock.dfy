/**
 * The smaller mock server used only by the Gemini authentication tests
 * (tests/mock-server/gemini_auth_mock.py). Its four endpoints read the
 * scenario from the `key` query argument alone.
 */
module GeminiAuthMock {
  import opened Wrappers
  import opened Json
  import MockServer

  type Request = MockServer.Request
  type Response = MockServer.Response

  function KeyArg(req: Request): Option<string> {
    if "key" in req.args then Some(req.args["key"]) else None
  }

  /** The answer every endpoint of this server gives, naming the endpoint in its 400 body. */
  function Answer(req: Request, endpoint: string): (r: Response)
    ensures r.Fixed? && r.mimetype == MockServer.JsonType
    ensures r.status == 401 <==> KeyArg(req) == Some(MockServer.AuthFailureGemini)
    ensures r.status == 401 ==> r.body == MockServer.Dumped(MockServer.GeminiAuthError)
    ensures r.status != 401 ==> r == MockServer.Fixed(400, MockServer.JsonType, MockServer.Dumped(MockServer.NoScenario(endpoint)))
  {
    if KeyArg(req) == Some(MockServer.AuthFailureGemini) then
      MockServer.Fixed(401, MockServer.JsonType, MockServer.Dumped(MockServer.GeminiAuthError))
    else MockServer.Fixed(400, MockServer.JsonType, MockServer.Dumped(MockServer.NoScenario(endpoint)))
  }

  function CompletionsGemini(req: Request): (r: Response)
    ensures r.Status() == 401 <==> KeyArg(req) == Some(MockServer.AuthFailureGemini)
    ensures r.Status() == 401 ==> r == MockServer.Fixed(401, MockServer.JsonType, MockServer.Dumped(MockServer.GeminiAuthError))
    ensures r.Status() != 401 ==> r == MockServer.Fixed(400, MockServer.JsonType, MockServer.Dumped(MockServer.NoScenario("Gemini completions")))
  {
    Answer(req, "Gemini completions")
  }

  function ListModels(req: Request): (r: Response)
    ensures r.Status() == 401 <==> KeyArg(req) == Some(MockServer.AuthFailureGemini)
    ensures r.Status() == 401 ==> r == MockServer.Fixed(401, MockServer.JsonType, MockServer.Dumped(MockServer.GeminiAuthError))
    ensures r.Status() != 401 ==> r == MockServer.Fixed(400, MockServer.JsonType, MockServer.Dumped(MockServer.NoScenario("models")))
  {
    Answer(req, "models")
  }

  function UploadFile(req: Request): (r: Response)
    ensures r.Status() == 401 <==> KeyArg(req) == Some(MockServer.AuthFailureGemini)
    ensures r.Status() == 401 ==> r == MockServer.Fixed(401, MockServer.JsonType, MockServer.Dumped(MockServer.GeminiAuthError))
    ensures r.Status() != 401 ==> r == MockServer.Fixed(400, MockServer.JsonType, MockServer.Dumped(MockServer.NoScenario("files:upload")))
  {
    Answer(req, "files:upload")
  }

  function CountTokens(req: Request): (r: Response)
    ensures r.Status() == 401 <==> KeyArg(req) == Some(MockServer.AuthFailureGemini)
    ensures r.Status() == 401 ==> r == MockServer.Fixed(401, MockServer.JsonType, MockServer.Dumped(MockServer.GeminiAuthError))
    ensures r.Status() != 401 ==> r == MockServer.Fixed(400, MockServer.JsonType, MockServer.Dumped(MockServer.NoScenario("countTokens")))
  {
    Answer(req, "countTokens")
  }

  /**
   * For a request that authenticates only through `key` (no Authorization and
   * no x-api-key header), this server and the main one answer the Gemini
   * completion and countTokens endpoints identically, and agree on the status
   * of the model listing.
   */
  lemma AgreesWithMainServer(req: Request)
    requires "Authorization" !in req.headers && "x-api-key" !in req.headers
    ensures CompletionsGemini(req) == MockServer.CompletionsGemini(req)
    ensures CountTokens(req) == MockServer.CountTokensGemini(req)
    ensures KeyArg(req) == Some(MockServer.AuthFailureGemini) ==> ListModels(req).Status() == MockServer.ListModels(req).Status()
  {
    assert MockServer.Selector(req) == KeyArg(req);
  }
}
