/** The `/api/system-prompt` handler of the AI-Core service and the per-session
    Ollama context store it keeps. The fresh UUID, the environment and the exchange
    with Ollama are parameters. */
module SystemPrompt {
  import opened Wrappers
  import opened Env
  import OllamaClient

  /** `SetSystemPromptRequest`. */
  datatype PromptRequest = PromptRequest(sessionId: Option<string>, systemPrompt: string)

  /** `OllamaSystemRequest`. */
  datatype SystemRequest = SystemRequest(
    model: string, prompt: string, system: string, stream: bool, context: Option<seq<int>>)

  /** How the POST to Ollama ends: the request fails, the body cannot be read
      (the handler unwraps it), or a body that parses into a response or not. */
  datatype Exchange =
    | RequestFailed(error: string)
    | BodyUnreadable
    | Body(parsed: Result<OllamaClient.OllamaResponse, string>)

  /** The handler's HTTP answer; `Panicked` is a panic of the handler task. */
  datatype Reply =
    | Success(status: string, message: OllamaClient.OllamaResponse, sessionId: Option<string>)
    | ServerError(error: string)
    | Panicked

  const DefaultModel := "gpt-oss:20b"
  const PreviewBytes: nat := 20

  /** The number of bytes a character takes in UTF-8. */
  function Utf8Width(c: char): (w: nat)
    ensures 1 <= w <= 4
    ensures w == 1 <==> (c as int) < 0x80
  {
    if (c as int) < 0x80 then 1 else if (c as int) < 0x800 then 2 else if (c as int) < 0x1_0000 then 3 else 4
  }

  /** `str::len`: the length of a string in UTF-8 bytes. */
  function Utf8Len(s: string): (n: nat)
    ensures n >= |s|
  {
    if s == [] then 0 else Utf8Width(s[0]) + Utf8Len(s[1..])
  }

  /** The number of characters making up exactly the first `n` bytes, when byte
      `n` is a character boundary. */
  function CharsInBytes(s: string, n: nat): (r: Option<nat>)
    ensures r.Some? ==> r.value <= |s| && Utf8Len(s[..r.value]) == n
  {
    if n == 0 then (assert s[..0] == []; Some(0))
    else if s == [] || Utf8Width(s[0]) > n then None
    else match CharsInBytes(s[1..], n - Utf8Width(s[0]))
      case None => None
      case Some(k) =>
        assert s[..k + 1][1..] == s[1..][..k];
        Some(k + 1)
  }

  predicate IsAscii(s: string) {
    forall k :: 0 <= k < |s| ==> (s[k] as int) < 0x80
  }

  lemma {:induction false} AsciiLen(s: string)
    requires IsAscii(s)
    ensures Utf8Len(s) == |s|
  {
    if s != [] {
      AsciiLen(s[1..]);
    }
  }

  lemma {:induction false} AsciiBoundary(s: string, n: nat)
    requires IsAscii(s) && n <= |s|
    ensures CharsInBytes(s, n) == Some(n)
  {
    if n > 0 {
      AsciiBoundary(s[1..], n - 1);
    }
  }

  /** The preview as written: `&prompt[..20]` when the prompt is longer than 20
      bytes, which panics (`None`) when byte 20 falls inside a character. */
  function PreviewAsWritten(prompt: string): (r: Option<string>)
    ensures Utf8Len(prompt) <= PreviewBytes ==> r == Some(prompt)
    ensures Utf8Len(prompt) > PreviewBytes ==> (r.None? <==> CharsInBytes(prompt, PreviewBytes).None?)
    ensures Utf8Len(prompt) > PreviewBytes && r.Some? ==> Utf8Len(r.value) == PreviewBytes
    ensures r.Some? ==> |r.value| <= |prompt| && prompt[..|r.value|] == r.value
  {
    if Utf8Len(prompt) > PreviewBytes then
      match CharsInBytes(prompt, PreviewBytes)
      case None => None
      case Some(k) => Some(prompt[..k])
    else Some(prompt)
  }

  /** Every character boundary is found: the byte length of the first `k`
      characters leads back to `k`. */
  lemma {:induction false} BoundaryFound(s: string, k: nat)
    requires k <= |s|
    ensures CharsInBytes(s, Utf8Len(s[..k])) == Some(k)
  {
    if k > 0 {
      assert s[..k][0] == s[0] && s[..k][1..] == s[1..][..k - 1];
      BoundaryFound(s[1..], k - 1);
    } else {
      assert s[..k] == [];
    }
  }

  /** The byte slice panics exactly when the prompt is longer than 20 bytes and no
      run of leading characters takes exactly 20 bytes. */
  lemma PreviewPanicsIff(prompt: string)
    requires Utf8Len(prompt) > PreviewBytes
    ensures PreviewAsWritten(prompt).None? <==>
            forall k :: 0 <= k <= |prompt| ==> Utf8Len(prompt[..k]) != PreviewBytes
  {
    if PreviewAsWritten(prompt).None? {
      forall k | 0 <= k <= |prompt|
        ensures Utf8Len(prompt[..k]) != PreviewBytes
      {
        if Utf8Len(prompt[..k]) == PreviewBytes {
          BoundaryFound(prompt, k);
        }
      }
    }
  }

  /** The UTF-8 length of a concatenation is the sum of the lengths. */
  lemma {:induction false} Utf8LenAppend(a: string, b: string)
    ensures Utf8Len(a + b) == Utf8Len(a) + Utf8Len(b)
  {
    if a == [] {
      assert a + b == b;
    } else {
      assert (a + b)[0] == a[0] && (a + b)[1..] == a[1..] + b;
      Utf8LenAppend(a[1..], b);
    }
  }

  /** A byte offset strictly inside the encoding of character `j` is not a
      character boundary. */
  lemma {:induction false} StraddledHasNoBoundary(s: string, j: nat, n: nat)
    requires j < |s|
    requires Utf8Len(s[..j]) < n < Utf8Len(s[..j]) + Utf8Width(s[j])
    ensures CharsInBytes(s, n) == None
  {
    if j == 0 {
      assert s[..0] == [];
    } else {
      assert s[..j] == [s[0]] + s[1..][..j - 1];
      assert Utf8Len(s[..j]) == Utf8Width(s[0]) + Utf8Len(s[1..][..j - 1]);
      assert s[1..][j - 1] == s[j];
      StraddledHasNoBoundary(s[1..], j - 1, n - Utf8Width(s[0]));
    }
  }

  /** The handler's own doc-comment example panics: 你是一个 and "helpful" take 19
      bytes and the next character, 的, takes bytes 20 to 22. */
  lemma DocExamplePanics()
    ensures PreviewAsWritten("你是一个helpful的AI助手") == None
  {
    var s := "你是一个helpful的AI助手";
    DocExampleIsLong(s);
    DocExampleHasNoBoundary(s);
  }

  /** The first eleven characters, 你是一个helpful, take 19 bytes. */
  lemma DocExampleHead(s: string)
    requires s == "你是一个helpful的AI助手"
    ensures |s| == 16 && Utf8Len(s[..11]) == 19
  {
    var han, ascii := "你是一个", "helpful";
    assert s[..11] == han + ascii;
    HanHeadLen(han);
    assert IsAscii(ascii);
    MixedLen(han, ascii);
  }

  lemma MixedLen(wide: string, ascii: string)
    requires IsAscii(ascii)
    ensures Utf8Len(wide + ascii) == Utf8Len(wide) + |ascii|
  {
    Utf8LenAppend(wide, ascii);
    AsciiLen(ascii);
  }

  /** Four characters of the Basic Multilingual Plane beyond U+07FF take 12 bytes. */
  lemma HanHeadLen(han: string)
    requires han == "你是一个"
    ensures Utf8Len(han) == 12
  {
    assert Utf8Len(han[3..]) == 3 by { assert han[3..][1..] == []; }
    assert Utf8Len(han[2..]) == 6 by { assert han[2..][1..] == han[3..]; }
    assert Utf8Len(han[1..]) == 9 by { assert han[1..][1..] == han[2..]; }
  }

  lemma DocExampleIsLong(s: string)
    requires s == "你是一个helpful的AI助手"
    ensures Utf8Len(s) > PreviewBytes
  {
    DocExampleHead(s);
    assert s == s[..11] + s[11..];
    Utf8LenAppend(s[..11], s[11..]);
    assert s[11..][0] == s[11] == '的';
  }

  lemma DocExampleHasNoBoundary(s: string)
    requires s == "你是一个helpful的AI助手"
    ensures CharsInBytes(s, PreviewBytes) == None
  {
    DocExampleHead(s);
    assert Utf8Width(s[11]) == 3;
    StraddledHasNoBoundary(s, 11, PreviewBytes);
  }

  /** When byte 20 does fall on a boundary the byte slice still differs from the
      character preview: 你是一个helpful! is 20 bytes but only 12 characters, while
      the whole 17-character prompt fits in 20 characters. */
  lemma ByteSliceIsNotCharPreview(s: string)
    requires s == "你是一个helpful!的AI助手"
    ensures PreviewAsWritten(s) == Some(s[..12]) && Preview(s) == s && |s[..12]| == 12 < |s|
  {
    var han, ascii := "你是一个", "helpful!";
    assert s[..12] == han + ascii;
    HanHeadLen(han);
    assert IsAscii(ascii);
    MixedLen(han, ascii);
    BoundaryFound(s, 12);
    assert s == s[..12] + s[12..];
    Utf8LenAppend(s[..12], s[12..]);
    assert s[12..] != [];
  }

  /** On ASCII prompts the byte slice is the first 20 characters and never panics. */
  lemma AsciiPreviewAgrees(prompt: string)
    requires IsAscii(prompt)
    ensures PreviewAsWritten(prompt) == Some(Preview(prompt))
  {
    AsciiLen(prompt);
    if |prompt| > PreviewBytes {
      AsciiBoundary(prompt, PreviewBytes);
    }
  }

  /** The preview the comment asks for: the first 20 characters, or the whole
      prompt when it is shorter. */
  function Preview(prompt: string): (r: string)
    ensures |r| <= PreviewBytes && |r| <= |prompt| && r == prompt[..|r|]
    ensures |prompt| <= PreviewBytes ==> r == prompt
    ensures |prompt| > PreviewBytes ==> |r| == PreviewBytes
  {
    if |prompt| > PreviewBytes then prompt[..PreviewBytes] else prompt
  }

  /** The generate endpoint from `OLLAMA_HOST` and `OLLAMA_PORT`: the same one an
      `OllamaClient` built by `from_env` posts to. */
  function GenerateUrl(env: map<string, string>): (url: string)
    ensures url == OllamaClient.BaseUrlFromEnv(env) + "/api/generate"
  {
    "http://" + EnvOr(env, "OLLAMA_HOST", "127.0.0.1") + ":" + EnvOr(env, "OLLAMA_PORT", "11434") + "/api/generate"
  }

  lemma DefaultGenerateUrl(env: map<string, string>)
    requires "OLLAMA_HOST" !in env && "OLLAMA_PORT" !in env
    ensures GenerateUrl(env) == "http://" + "127.0.0.1" + ":" + "11434" + "/api/generate"
  {
  }

  /** `SessionStore`: the last Ollama context per session id. */
  class SessionStore {
    var sessions: map<string, seq<int>>

    constructor ()
      ensures sessions == map[]
    {
      sessions := map[];
    }

    /** `get_context`. */
    function GetContext(sessionId: string): (c: Option<seq<int>>)
      reads this
      ensures c.Some? <==> sessionId in sessions
      ensures c.Some? ==> c.value == sessions[sessionId]
    {
      if sessionId in sessions then Some(sessions[sessionId]) else None
    }

    /** `save_context`: overwrites the session's context. */
    method SaveContext(sessionId: string, context: seq<int>)
      modifies this
      ensures sessions == old(sessions)[sessionId := context]
      ensures GetContext(sessionId) == Some(context)
    {
      sessions := sessions[sessionId := context];
    }
  }

  /** The POST the handler makes to Ollama. */
  datatype Post = Post(url: string, body: SystemRequest)

  /** `set_system_prompt`. The session id is the request's, or `freshId`. The
      prompt preview is the byte slice, so the handler panics before anything else
      when byte 20 splits a character. Otherwise it posts the preview as prompt,
      the full prompt as system text and the session's stored context; a parsed
      reply with a context is saved under the session id, and nothing else changes
      the store. `sent` is the POST, if one was made. */
  method SetSystemPrompt(store: SessionStore, request: PromptRequest, freshId: string, env: map<string, string>,
                         exchange: Exchange)
    returns (reply: Reply, sent: Option<Post>)
    modifies store
    ensures PreviewAsWritten(request.systemPrompt).None? ==>
      reply == Panicked && sent == None && store.sessions == old(store.sessions)
    ensures PreviewAsWritten(request.systemPrompt).Some? ==>
      var sid := request.sessionId.GetOr(freshId);
      sent == Some(Post(GenerateUrl(env),
                        SystemRequest(EnvOr(env, "OLLAMA_MODEL", DefaultModel), PreviewAsWritten(request.systemPrompt).value,
                                      request.systemPrompt, false, old(store.GetContext(sid)))))
    ensures PreviewAsWritten(request.systemPrompt).Some? ==>
      var sid := request.sessionId.GetOr(freshId);
      if exchange.Body? && exchange.parsed.Ok? && exchange.parsed.value.context.Some?
      then store.sessions == old(store.sessions)[sid := exchange.parsed.value.context.value]
      else store.sessions == old(store.sessions)
    ensures PreviewAsWritten(request.systemPrompt).Some? && exchange.Body? && exchange.parsed.Ok? ==>
      reply == Success("success", exchange.parsed.value, Some(request.sessionId.GetOr(freshId)))
    ensures PreviewAsWritten(request.systemPrompt).Some? && exchange.Body? && exchange.parsed.Err? ==>
      reply == ServerError("解析 Ollama 响应失败: " + exchange.parsed.error)
    ensures PreviewAsWritten(request.systemPrompt).Some? && exchange.RequestFailed? ==>
      reply == ServerError("请求 Ollama 失败: " + exchange.error)
    ensures PreviewAsWritten(request.systemPrompt).Some? && exchange.BodyUnreadable? ==> reply == Panicked
  {
    var sessionId := request.sessionId.GetOr(freshId);
    var preview := PreviewAsWritten(request.systemPrompt);
    if preview.None? {
      return Panicked, None;
    }
    var context := store.GetContext(sessionId);
    var body := SystemRequest(EnvOr(env, "OLLAMA_MODEL", DefaultModel), preview.value, request.systemPrompt, false,
                              context);
    sent := Some(Post(GenerateUrl(env), body));
    match exchange {
      case RequestFailed(e) =>
        reply := ServerError("请求 Ollama 失败: " + e);
      case BodyUnreadable =>
        reply := Panicked;
      case Body(parsed) =>
        match parsed {
          case Err(e) =>
            reply := ServerError("解析 Ollama 响应失败: " + e);
          case Ok(response) =>
            if response.context.Some? {
              store.SaveContext(sessionId, response.context.value);
            }
            reply := Success("success", response, Some(sessionId));
        }
    }
  }

  /** The handler's own doc example makes it panic without contacting Ollama or
      touching the store. */
  method DocExampleRequestPanics(store: SessionStore, sessionId: Option<string>, freshId: string,
                                 env: map<string, string>, exchange: Exchange)
    returns (reply: Reply, sent: Option<Post>)
    modifies store
    ensures reply == Panicked && sent == None && store.sessions == old(store.sessions)
  {
    DocExamplePanics();
    reply, sent := SetSystemPrompt(store, PromptRequest(sessionId, "你是一个helpful的AI助手"), freshId, env, exchange);
  }
}
