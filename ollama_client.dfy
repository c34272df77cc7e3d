/** The Ollama client: a base URL and one conversation-context cell that `ask`
    sends with each request and replaces with the context the reply carries. The
    HTTP exchange is the parameter `exchange`. */
module OllamaClient {
  import opened Wrappers
  import opened Env

  /** The fields of `OllamaResponse` this model reads. */
  datatype OllamaResponse = OllamaResponse(response: string, context: Option<seq<int>>, done: bool,
                                           thinking: Option<string>)

  /** `OllamaRequest`. */
  datatype OllamaRequest = OllamaRequest(model: string, prompt: string, stream: bool, context: Option<seq<int>>)

  /** How one POST to Ollama ends: no answer, or a status code with a body that
      decodes to a response or does not. */
  datatype Exchange = Unreachable(error: string) | Replied(status: int, body: Result<OllamaResponse, string>)

  datatype ClientError = Transport(message: string) | HttpError(status: int) | Decode(message: string)

  /** `StatusCode::is_success`. */
  predicate IsSuccess(status: int) {
    200 <= status <= 299
  }

  /** `send_request`: a transport failure, a status outside 2xx and an undecodable
      body are errors; otherwise the decoded response. */
  function SendRequest(exchange: Exchange): (r: Result<OllamaResponse, ClientError>)
    ensures r.Ok? <==> exchange.Replied? && IsSuccess(exchange.status) && exchange.body.Ok?
    ensures r.Ok? ==> r.value == exchange.body.value
    ensures exchange.Replied? && !IsSuccess(exchange.status) ==> r == Err(HttpError(exchange.status))
  {
    match exchange
    case Unreachable(e) => Err(Transport(e))
    case Replied(status, body) =>
      if !IsSuccess(status) then Err(HttpError(status))
      else match body
        case Ok(resp) => Ok(resp)
        case Err(e) => Err(Decode(e))
  }

  /** `from_env`: `http://host:port` from `OLLAMA_HOST` and `OLLAMA_PORT`, with the
      defaults 127.0.0.1 and 11434. */
  function BaseUrlFromEnv(env: map<string, string>): (url: string)
    ensures url == "http://" + EnvOr(env, "OLLAMA_HOST", "127.0.0.1") + ":" + EnvOr(env, "OLLAMA_PORT", "11434")
    ensures "OLLAMA_HOST" in env && "OLLAMA_PORT" in env ==>
      url == "http://" + env["OLLAMA_HOST"] + ":" + env["OLLAMA_PORT"]
    ensures "OLLAMA_HOST" !in env && "OLLAMA_PORT" !in env ==> url == "http://" + "127.0.0.1" + ":" + "11434"
  {
    var host := if "OLLAMA_HOST" in env then env["OLLAMA_HOST"] else "127.0.0.1";
    var port := if "OLLAMA_PORT" in env then env["OLLAMA_PORT"] else "11434";
    "http://" + host + ":" + port
  }

  class Client {
    const baseUrl: string
    var context: Option<seq<int>>

    /** `OllamaClient::new`: no context yet. */
    constructor (baseUrl: string)
      ensures this.baseUrl == baseUrl && context == None
    {
      this.baseUrl := baseUrl;
      context := None;
    }

    /** The endpoint `send_request` posts to. */
    function GenerateUrl(): (url: string)
      reads this
      ensures |url| == |baseUrl| + 13 && url[..|baseUrl|] == baseUrl && url[|baseUrl|..] == "/api/generate"
    {
      baseUrl + "/api/generate"
    }

    /** `get_context`. */
    function GetContext(): (c: Option<seq<int>>)
      reads this
      ensures c == context
    {
      context
    }

    /** `clear_context`. */
    method ClearContext()
      modifies this`context
      ensures context == None
    {
      context := None;
    }

    /** `set_context`. */
    method SetContext(c: seq<int>)
      modifies this`context
      ensures context == Some(c)
    {
      context := Some(c);
    }

    /** `ask`: a new session first clears the context; the request carries the
        context as it then is; a successful reply with a context replaces it, and
        any other outcome leaves it as it was when the request was built. */
    method Ask(prompt: string, model: string, newSession: bool, exchange: Exchange)
      returns (r: Result<string, ClientError>, request: OllamaRequest)
      modifies this`context
      ensures request == OllamaRequest(model, prompt, false, if newSession then None else old(context))
      ensures r.Ok? <==> SendRequest(exchange).Ok?
      ensures r.Ok? ==> r.value == SendRequest(exchange).value.response
      ensures r.Err? ==> r.error == SendRequest(exchange).error
      ensures context == if SendRequest(exchange).Ok? && SendRequest(exchange).value.context.Some?
                         then SendRequest(exchange).value.context
                         else request.context
    {
      if newSession {
        context := None;
      }
      request := OllamaRequest(model, prompt, false, context);
      match SendRequest(exchange) {
        case Err(e) =>
          r := Err(e);
        case Ok(response) =>
          if response.context.Some? {
            context := response.context;
          }
          r := Ok(response.response);
      }
    }
  }
}
