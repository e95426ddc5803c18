/**
 The image handler: a method gate, the prompt and size defaults, the validation
 order (method, prompt, key) and the translation of the upstream answer.
 */
module Media {
  import opened Wrappers
  import opened Js
  import opened Text
  import opened Http

  /** The size requested when the body names none. */
  const DefaultSize: string := "1024x1024"

  const MediaFallback: string := "OpenAI error"

  const NoUrl: string := "No image URL returned"

  /** The `prompt` and `size` properties of `req.body || {}`; Undefined when absent. */
  datatype MediaBody = MediaBody(prompt: Value, size: Value)

  datatype MediaRequest = MediaRequest(verb: string, body: MediaBody)

  /** The upstream call: the bearer key, the prompt as received and the size. */
  datatype ImageCall = ImageCall(apiKey: string, prompt: string, size: Value)

  /** The prompt after its default (`prompt = ""` applies only to an absent
      prompt); a prompt that is not a string has no `trim` and throws. */
  function PromptText(prompt: Value): (r: Outcome<string>)
    ensures r.Done? <==> prompt.Undefined? || prompt.Str?
    ensures prompt.Str? ==> r == Done(prompt.s)
    ensures prompt.Undefined? ==> r == Done("")
    ensures r.Throws? ==> r.error == EngineTypeError
  {
    match prompt
    case Undefined => Done("")
    case Str(s) => Done(s)
    case _ => Throws(EngineTypeError)
  }

  /** `size = "1024x1024"`: the default replaces only an absent size; any other
      value, `null` included, is forwarded as given. */
  function SizeOf(size: Value): (r: Value)
    ensures size.Undefined? ==> r == Str(DefaultSize)
    ensures !size.Undefined? ==> r == size
    ensures r != Undefined
  {
    if size.Undefined? then Str(DefaultSize) else size
  }

  /** `data?.data?.[0]?.url`. */
  function ImageUrl(data: Value): (r: Value)
    ensures Nullish(Get(data, "data")) ==> r == Undefined
    ensures Get(data, "data").Arr? && |Get(data, "data").items| > 0 ==>
      r == Get(Get(data, "data").items[0], "url")
    ensures Get(data, "data").Arr? && |Get(data, "data").items| == 0 ==> r == Undefined
    ensures Get(data, "data").Bool? || Get(data, "data").Num? || Get(data, "data").Str? ==> r == Undefined
    ensures Get(data, "data").Obj? && "0" in Get(data, "data").fields ==>
      r == Get(Get(data, "data").fields["0"], "url")
    ensures Get(data, "data").Obj? && "0" !in Get(data, "data").fields ==> r == Undefined
  {
    Get(First(Get(data, "data")), "url")
  }

  /** The response built from the upstream result: failures pass through with
      their status, a truthy URL gives 200, a missing URL 500 with `raw`, and
      anything thrown 500. */
  function Translate(upstream: Upstream): (r: Response)
    ensures upstream.FetchFailed? ==> r == ServerError(upstream.error)
    ensures upstream.Received? && upstream.payload.Throws? ==> r == ServerError(upstream.payload.error)
    ensures upstream.Received? && upstream.payload.Done? && !IsOk(upstream.status) ==>
      r == UpstreamError(upstream.status, upstream.payload.value, MediaFallback)
    ensures r.body.UrlBody? <==>
      && upstream.Received? && IsOk(upstream.status) && upstream.payload.Done?
      && Truthy(ImageUrl(upstream.payload.value))
    ensures r.body.UrlBody? ==> r.status == 200 && r.body.url == ImageUrl(upstream.payload.value)
    ensures (upstream.Received? && IsOk(upstream.status) && upstream.payload.Done?
             && !Truthy(ImageUrl(upstream.payload.value))) ==>
      r == Response(500, ErrorWithRaw(Str(NoUrl), upstream.payload.value))
    ensures r.status == 200 ==> r.body.UrlBody?
  {
    match upstream
    case FetchFailed(e) => ServerError(e)
    case Received(status, Throws(e)) => ServerError(e)
    case Received(status, Done(data)) =>
      if !IsOk(status) then UpstreamError(status, data, MediaFallback)
      else
        var url := ImageUrl(data);
        if !Truthy(url) then Response(500, ErrorWithRaw(Str(NoUrl), data))
        else Response(200, UrlBody(url))
  }

  /** The image handler. Checks run in the order method, prompt, key; the
      upstream result is consulted only when the call is made. */
  function Handle(req: MediaRequest, apiKey: Option<string>, upstream: Upstream): (x: Exchange<ImageCall>)
    ensures x.call.Some? <==>
      && req.verb == "POST" && PromptText(req.body.prompt).Done?
      && Trim(PromptText(req.body.prompt).value) != "" && KeyPresent(apiKey)
    ensures x.call.Some? ==>
      && x.call.value == ImageCall(apiKey.value, req.body.prompt.s, SizeOf(req.body.size))
      && x.response == Translate(upstream)
    ensures x.call.None? ==> x.response.status in {400, 405, 500}
  {
    if req.verb != "POST" then NoCall(UsePost)
    else match PromptText(req.body.prompt)
      case Throws(e) => NoCall(ServerError(e))
      case Done(prompt) =>
        if Trim(prompt) == "" then NoCall(Response(400, ErrorBody(Str("Missing prompt"))))
        else if !KeyPresent(apiKey) then NoCall(MissingKey)
        else Exchange(Some(ImageCall(apiKey.value, prompt, SizeOf(req.body.size))), Translate(upstream))
  }

  /** Any method other than POST gives 405 before anything else is looked at. */
  lemma MethodGate(req: MediaRequest, apiKey: Option<string>, upstream: Upstream)
    requires req.verb != "POST"
    ensures Handle(req, apiKey, upstream) == Exchange(None, Response(405, ErrorBody(Str("Use POST"))))
  {
  }

  /** An absent prompt, or one made only of whitespace, gives 400 "Missing prompt",
      whether or not the key is configured. */
  lemma {:induction false} EmptyPromptBeforeKey(req: MediaRequest, apiKey: Option<string>, upstream: Upstream)
    requires req.verb == "POST"
    requires req.body.prompt.Undefined? || (req.body.prompt.Str? && AllWhitespace(req.body.prompt.s))
    ensures Handle(req, apiKey, upstream) == Exchange(None, Response(400, ErrorBody(Str("Missing prompt"))))
  {
    TrimEmptyIff(PromptText(req.body.prompt).value);
  }

  /** A prompt that is not a string (and not absent) makes `trim` throw: 500 with
      the TypeError's message, before the key is looked at. */
  lemma NonStringPromptThrows(req: MediaRequest, apiKey: Option<string>, upstream: Upstream)
    requires req.verb == "POST" && !req.body.prompt.Undefined? && !req.body.prompt.Str?
    ensures Handle(req, apiKey, upstream) == Exchange(None, ServerError(EngineTypeError))
    ensures Handle(req, apiKey, upstream).response.status == 500
  {
  }

  /** With a usable prompt and no key: 500 "Missing OPENAI_API_KEY" and no call. */
  lemma {:induction false} MissingKeyBlocksCall(req: MediaRequest, apiKey: Option<string>, upstream: Upstream)
    requires req.verb == "POST" && req.body.prompt.Str? && !AllWhitespace(req.body.prompt.s)
    requires !KeyPresent(apiKey)
    ensures Handle(req, apiKey, upstream) == Exchange(None, Response(500, ErrorBody(Str("Missing OPENAI_API_KEY"))))
  {
    TrimEmptyIff(req.body.prompt.s);
  }

  /** The call carries the prompt exactly as received (untrimmed) and the size,
      defaulted to "1024x1024" only when absent. */
  lemma {:induction false} ForwardsUntrimmedPrompt(req: MediaRequest, key: string, upstream: Upstream)
    requires req.verb == "POST" && req.body.prompt.Str? && !AllWhitespace(req.body.prompt.s)
    requires key != ""
    ensures Handle(req, Some(key), upstream).call
      == Some(ImageCall(key, req.body.prompt.s,
                        if req.body.size.Undefined? then Str(DefaultSize) else req.body.size))
  {
    TrimEmptyIff(req.body.prompt.s);
  }

  /** When no call is made the response does not depend on the upstream result. */
  lemma NoCallIgnoresUpstream(req: MediaRequest, apiKey: Option<string>, u1: Upstream, u2: Upstream)
    requires Handle(req, apiKey, u1).call.None?
    ensures Handle(req, apiKey, u2) == Handle(req, apiKey, u1)
  {
  }

  /** An upstream answer `{data: [{url: u}]}` with non-empty `u` gives 200 `{url: u}`. */
  lemma FirstUrlIsReturned(status: int, u: string)
    requires IsOk(status) && u != ""
    ensures var data := Obj(map["data" := Arr([Obj(map["url" := Str(u)])])]);
      Translate(Received(status, Done(data))) == Response(200, UrlBody(Str(u)))
  {
  }

  /** An upstream failure with an error message passes status, message and payload through. */
  lemma UpstreamFailurePassesThrough(status: int, msg: string)
    requires !IsOk(status) && msg != ""
    ensures var data := Obj(map["error" := Obj(map["message" := Str(msg)])]);
      Translate(Received(status, Done(data))) == Response(status, ErrorWithRaw(Str(msg), data))
  {
  }
}
