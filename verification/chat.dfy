/**
 The chat handler: a method gate, a typed request body, the uploaded-file text,
 the prompt sent upstream (system turn, file turn, recent history, current
 message) and the translation of the upstream answer into one response.
 */
module Chat {
  import opened Wrappers
  import opened Js
  import opened Text
  import opened Http

  /** The longest file text forwarded, in characters. */
  const MaxFileChars: nat := 120000

  /** How many of the most recent conversation entries are forwarded. */
  const HistoryWindow: nat := 12

  /** What separates the texts of two uploaded files. */
  const FileSeparator: string := "\n\n---\n\n"

  /** What precedes the file text in the file-context turn. */
  const FilePreamble: string := "Uploaded file text:\n\n"

  /** One entry of `files`: its `text` when that is a string; None for a falsy
      entry or one whose `text` is not a string. */
  datatype Attachment = Attachment(text: Option<string>)

  /** One entry of `conversation`: null (reading its `role` throws), or an entry
      whose `role` and `content` are read as optional strings. */
  datatype HistoryEntry =
    | NullEntry
    | Entry(role: Option<string>, content: Option<string>)

  /** The request body after coercion; `conversation` and `files` are empty when
      the body does not hold an array there. */
  datatype ChatBody = ChatBody(
    message: Option<string>,
    system: Option<string>,
    personalization: Option<string>,
    conversation: seq<HistoryEntry>,
    files: seq<Attachment>)

  /**
   The body as the handler obtains it: a usable object (an absent or
   non-string falsy body reads as `{}`), a string body that parses to `null`
   (reading a field of it throws), or a string body that `JSON.parse` rejects
   (the empty string among them).
   */
  datatype Payload =
    | Fields(body: ChatBody)
    | NullBody
    | Unparsable(error: Exception)

  datatype ChatRequest = ChatRequest(verb: string, payload: Payload)

  /** One element of the `input` list sent upstream. */
  datatype Turn = Turn(role: string, content: string)

  /** The upstream call: the bearer key and the `input` list. */
  datatype ChatCall = ChatCall(apiKey: string, input: seq<Turn>)

  // ---------------------------------------------------------------------------
  // Request fields

  /** `String(body.message || "")`: the message, or "" when it is absent. */
  function MessageText(body: ChatBody): (r: string)
    ensures body.message.Some? ==> r == body.message.value
    ensures r == "" <==> body.message.None? || body.message.value == ""
  {
    body.message.GetOr("")
  }

  /** `String(body.system || body.personalization || "")`: the system text,
      falling back to the personalization text when the former is empty. */
  function SystemText(body: ChatBody): (r: string)
    ensures r != "" <==> body.system.GetOr("") != "" || body.personalization.GetOr("") != ""
    ensures body.system.GetOr("") != "" ==> r == body.system.value
    ensures body.system.GetOr("") == "" ==> r == body.personalization.GetOr("")
  {
    if body.system.GetOr("") != "" then body.system.value else body.personalization.GetOr("")
  }

  // ---------------------------------------------------------------------------
  // File text

  /** The text an attachment contributes before filtering ("" when it has none). */
  function TextOf(f: Attachment): string {
    f.text.GetOr("")
  }

  /** The non-empty string texts of `files`, in order (`map` then `filter(Boolean)`). */
  function KeptTexts(files: seq<Attachment>): (r: seq<string>)
    ensures |r| <= |files|
    ensures forall i :: 0 <= i < |r| ==> r[i] != ""
  {
    if files == [] then []
    else (if TextOf(files[0]) != "" then [TextOf(files[0])] else []) + KeptTexts(files[1..])
  }

  /** Filtering distributes over concatenation, so relative order is kept. */
  lemma {:induction false} KeptTextsAppend(a: seq<Attachment>, b: seq<Attachment>)
    ensures KeptTexts(a + b) == KeptTexts(a) + KeptTexts(b)
  {
    if a == [] {
      assert a + b == b;
    } else {
      assert (a + b)[1..] == a[1..] + b;
      KeptTextsAppend(a[1..], b);
    }
  }

  /** Exactly the attachments with a non-empty string text are kept. */
  lemma {:induction false} KeptTextsSingle(f: Attachment)
    ensures KeptTexts([f]) == (if f.text.Some? && f.text.value != "" then [f.text.value] else [])
  {
    assert [f][1..] == [];
  }

  /** Nothing is kept exactly when no attachment has a non-empty string text. */
  lemma {:induction false} KeptTextsEmptyIff(files: seq<Attachment>)
    ensures KeptTexts(files) == [] <==> forall i :: 0 <= i < |files| ==> TextOf(files[i]) == ""
  {
    if files != [] {
      KeptTextsEmptyIff(files[1..]);
      if TextOf(files[0]) == "" {
        forall i | 1 <= i < |files|
          ensures TextOf(files[i]) == TextOf(files[1..][i - 1])
        {
        }
      }
    }
  }

  /** The kept texts joined by the separator, before truncation. */
  function FullFilesText(files: seq<Attachment>): string {
    Join(KeptTexts(files), FileSeparator)
  }

  /** `filesText`: the joined texts truncated to at most `MaxFileChars` characters,
      i.e. the first `min(MaxFileChars, |full join|)` characters of the full join. */
  function FilesText(files: seq<Attachment>): (r: string)
    ensures |r| <= MaxFileChars
    ensures |r| == Min(MaxFileChars, |FullFilesText(files)|)
    ensures r == FullFilesText(files)[..|r|]
  {
    Prefix(FullFilesText(files), MaxFileChars)
  }

  /** The file-context turn is present exactly when some attachment has a
      non-empty string text. */
  lemma FilesTextNonEmptyIff(files: seq<Attachment>)
    ensures FilesText(files) != "" <==> exists i :: 0 <= i < |files| && TextOf(files[i]) != ""
  {
    KeptTextsEmptyIff(files);
    JoinEmptyIff(KeptTexts(files), FileSeparator);
  }

  // ---------------------------------------------------------------------------
  // History

  /** `conversation.slice(-12)`: the last `min(12, |conv|)` entries, in order. */
  function RecentHistory<T>(conv: seq<T>): (r: seq<T>)
    ensures |r| == Min(HistoryWindow, |conv|)
    ensures forall i :: 0 <= i < |r| ==> r[i] == conv[|conv| - |r| + i]
  {
    if |conv| <= HistoryWindow then conv else conv[|conv| - HistoryWindow..]
  }

  /** One history turn: role "assistant" only for a source role of exactly
      "assistant", "user" for every other role; falsy content becomes "". */
  function NormalizeTurn(e: HistoryEntry): (r: Outcome<Turn>)
    ensures r.Throws? <==> e.NullEntry?
    ensures r.Throws? ==> r.error == EngineTypeError
    ensures r.Done? ==> (r.value.role == "assistant" <==> e.role == Some("assistant"))
    ensures r.Done? ==> (r.value.role == "user" <==> e.role != Some("assistant"))
    ensures r.Done? && e.content.Some? ==> r.value.content == e.content.value
    ensures r.Done? && e.content.None? ==> r.value.content == ""
  {
    match e
    case NullEntry => Throws(EngineTypeError)
    case Entry(role, content) =>
      Done(Turn(if role == Some("assistant") then "assistant" else "user", content.GetOr("")))
  }

  /** `.map(...)` over the entries: every entry normalised, in order, unless some
      entry is null, which throws. */
  function NormalizeAll(entries: seq<HistoryEntry>): (r: Outcome<seq<Turn>>)
    ensures r.Done? <==> forall i :: 0 <= i < |entries| ==> entries[i].Entry?
    ensures r.Throws? ==> r.error == EngineTypeError
    ensures r.Done? ==> |r.value| == |entries|
    ensures r.Done? ==> forall i :: 0 <= i < |entries| ==> NormalizeTurn(entries[i]) == Done(r.value[i])
  {
    if entries == [] then Done([])
    else match NormalizeTurn(entries[0])
      case Throws(e) => Throws(e)
      case Done(t) =>
        match NormalizeAll(entries[1..])
        case Throws(e) => Throws(e)
        case Done(ts) => Done([t] + ts)
  }

  // ---------------------------------------------------------------------------
  // Prompt assembly

  /** The `input` list: system turn, file-context turn, history, current message,
      with the system and file turns omitted when their text is empty. */
  function Assemble(system: string, filesText: string, history: seq<Turn>, message: string): (r: seq<Turn>)
    ensures |history| + 1 <= |r| <= |history| + 3
    ensures r[|r| - 1] == Turn("user", message)
  {
    (if system != "" then [Turn("system", system)] else [])
    + (if filesText != "" then [Turn("user", FilePreamble + filesText)] else [])
    + history
    + [Turn("user", message)]
  }

  function Count(b: bool): nat {
    if b then 1 else 0
  }

  /** The assembled `input` is the optional head turns, then the history in
      order, then the current message; its length counts each present part. */
  lemma AssembleLayout(system: string, filesText: string, history: seq<Turn>, message: string)
    ensures |Assemble(system, filesText, history, message)|
      == Count(system != "") + Count(filesText != "") + |history| + 1
    ensures forall i :: 0 <= i < |history| ==>
      Assemble(system, filesText, history, message)[Count(system != "") + Count(filesText != "") + i] == history[i]
    ensures Last(Assemble(system, filesText, history, message)) == Turn("user", message)
  {
  }

  /** The system turn comes first exactly when there is system text, and the
      file-context turn follows it when there is file text. */
  lemma AssembleHead(system: string, filesText: string, history: seq<Turn>, message: string)
    requires forall i :: 0 <= i < |history| ==> history[i].role != "system"
    ensures Assemble(system, filesText, history, message)[0].role == "system" <==> system != ""
    ensures system != "" ==> Assemble(system, filesText, history, message)[0] == Turn("system", system)
    ensures filesText != "" ==>
      Assemble(system, filesText, history, message)[Count(system != "")] == Turn("user", FilePreamble + filesText)
  {
    var r := Assemble(system, filesText, history, message);
    if system == "" && filesText == "" && history != [] {
      assert r[0] == history[0];
    }
  }

  function Last<T>(s: seq<T>): T
    requires |s| > 0
  {
    s[|s| - 1]
  }

  /** The `input` list built from a request body; throws when one of the
      forwarded history entries is null. */
  function BuildInput(body: ChatBody): (r: Outcome<seq<Turn>>)
    ensures r.Throws? ==> r.error == EngineTypeError
    ensures r.Done? ==> |r.value| >= Min(HistoryWindow, |body.conversation|) + 1
    ensures r.Done? ==> r.value[|r.value| - 1] == Turn("user", MessageText(body))
  {
    match NormalizeAll(RecentHistory(body.conversation))
    case Throws(e) => Throws(e)
    case Done(history) =>
      Done(Assemble(SystemText(body), FilesText(body.files), history, MessageText(body)))
  }

  /** Building the input throws exactly when one of the forwarded (most recent
      `min(12, n)`) history entries is null; older null entries are ignored. */
  lemma BuildInputThrowsIff(body: ChatBody)
    ensures var recent := RecentHistory(body.conversation);
      BuildInput(body).Throws? <==> exists i :: 0 <= i < |recent| && recent[i].NullEntry?
    ensures BuildInput(body).Throws? ==> BuildInput(body).error == EngineTypeError
  {
  }

  /** What the upstream sees: the system turn iff there is system text, the file
      turn next iff some file has text, then exactly the last `min(12, n)`
      conversation entries normalised and in order, then the current message. */
  lemma BuildInputShape(body: ChatBody, input: seq<Turn>)
    requires BuildInput(body) == Done(input)
    ensures var recent := RecentHistory(body.conversation);
      var s := Count(SystemText(body) != "");
      var f := Count(FilesText(body.files) != "");
      && |input| == s + f + Min(HistoryWindow, |body.conversation|) + 1
      && (input[0].role == "system" <==> SystemText(body) != "")
      && (s == 1 ==> input[0] == Turn("system", SystemText(body)))
      && (f == 1 <==> exists i :: 0 <= i < |body.files| && TextOf(body.files[i]) != "")
      && (f == 1 ==> input[s] == Turn("user", FilePreamble + FilesText(body.files)))
      && (forall i :: 0 <= i < |recent| ==> Done(input[s + f + i]) == NormalizeTurn(recent[i]))
      && Last(input) == Turn("user", MessageText(body))
  {
    FilesTextNonEmptyIff(body.files);
    var recent := RecentHistory(body.conversation);
    var history := NormalizeAll(recent).value;
    forall i | 0 <= i < |history|
      ensures history[i].role != "system"
    {
      assert NormalizeTurn(recent[i]) == Done(history[i]);
    }
    AssembleLayout(SystemText(body), FilesText(body.files), history, MessageText(body));
    AssembleHead(SystemText(body), FilesText(body.files), history, MessageText(body));
  }

  // ---------------------------------------------------------------------------
  // Reply extraction

  /** `c.type === "output_text"` for an item that can be read. */
  predicate IsOutputText(c: Value) {
    Get(c, "type") == Str("output_text")
  }

  /** `find` returns the item at `i`: it matches and every earlier item is
      readable and does not match. */
  predicate FoundAt(items: seq<Value>, i: int) {
    && 0 <= i < |items|
    && IsOutputText(items[i])
    && forall j :: 0 <= j < i ==> !Nullish(items[j]) && !IsOutputText(items[j])
  }

  /** `find` throws at `i`: the item is null or undefined and no earlier item matches. */
  predicate ThrowsAt(items: seq<Value>, i: int) {
    && 0 <= i < |items|
    && Nullish(items[i])
    && forall j :: 0 <= j < i ==> !IsOutputText(items[j])
  }

  /** `find` visits every item and none matches. */
  predicate NoneMatch(items: seq<Value>) {
    forall i :: 0 <= i < |items| ==> !Nullish(items[i]) && !IsOutputText(items[i])
  }

  /** `items.find(c => c.type === "output_text")`. */
  function FindOutputText(items: seq<Value>): (r: Outcome<Value>)
    ensures forall i :: FoundAt(items, i) ==> r == Done(items[i])
    ensures (exists i :: ThrowsAt(items, i)) ==> r == Throws(EngineTypeError)
    ensures NoneMatch(items) ==> r == Done(Undefined)
    ensures r.Throws? ==> r.error == EngineTypeError
  {
    if items == [] then Done(Undefined)
    else if Nullish(items[0]) then Throws(EngineTypeError)
    else if IsOutputText(items[0]) then Done(items[0])
    else
      var rest := FindOutputText(items[1..]);
      assert forall i :: FoundAt(items, i) ==> FoundAt(items[1..], i - 1);
      assert forall i :: ThrowsAt(items, i) ==> ThrowsAt(items[1..], i - 1);
      rest
  }

  /** Every item list falls in one of the three cases `find` distinguishes. */
  lemma {:induction false} FindCasesExhaustive(items: seq<Value>)
    ensures (exists i :: FoundAt(items, i)) || (exists i :: ThrowsAt(items, i)) || NoneMatch(items)
  {
    if items != [] {
      if !Nullish(items[0]) && !IsOutputText(items[0]) {
        FindCasesExhaustive(items[1..]);
        if i :| FoundAt(items[1..], i) {
          assert FoundAt(items, i + 1);
        } else if i :| ThrowsAt(items[1..], i) {
          assert ThrowsAt(items, i + 1);
        } else {
          assert NoneMatch(items);
        }
      } else if Nullish(items[0]) {
        assert ThrowsAt(items, 0);
      } else {
        assert FoundAt(items, 0);
      }
    }
  }

  /** `data?.output?.[0]?.content`. */
  function Content(data: Value): (r: Value)
    ensures !Get(data, "output").Arr? && !Get(data, "output").Obj? ==> r == Undefined
    ensures Get(data, "output").Obj? && "0" in Get(data, "output").fields ==>
      r == Get(Get(data, "output").fields["0"], "content")
    ensures Get(data, "output").Arr? && |Get(data, "output").items| == 0 ==> r == Undefined
    ensures Get(data, "output").Obj? && "0" !in Get(data, "output").fields ==> r == Undefined
    ensures Get(data, "output").Arr? && |Get(data, "output").items| > 0 ==>
      r == Get(Get(data, "output").items[0], "content")
  {
    Get(First(Get(data, "output")), "content")
  }

  /** The `reply` expression: the text of the first "output_text" item of
      `output[0].content` when truthy, otherwise `output_text`; reading
      `content.find` throws when `content` is neither nullish nor an array. */
  function ExtractReply(data: Value): (r: Outcome<Value>)
    ensures Nullish(Content(data)) ==> r == Done(Get(data, "output_text"))
    ensures r.Throws? ==> r.error == EngineTypeError
    ensures !Nullish(Content(data)) && !Content(data).Arr? ==> r == Throws(EngineTypeError)
    ensures Content(data).Arr? ==> var items := Content(data).items;
      && (forall i :: FoundAt(items, i) ==>
            r == Done(Or(Get(items[i], "text"), Get(data, "output_text"))))
      && ((exists i :: ThrowsAt(items, i)) ==> r == Throws(EngineTypeError))
      && (NoneMatch(items) ==> r == Done(Get(data, "output_text")))
  {
    var content := Content(data);
    var found :=
      if Nullish(content) then Done(Undefined)
      else if content.Arr? then FindOutputText(content.items)
      else Throws(EngineTypeError);
    match found
    case Throws(e) => Throws(e)
    case Done(item) => Done(Or(Get(item, "text"), Get(data, "output_text")))
  }

  // ---------------------------------------------------------------------------
  // Response translation and the handler

  const ChatFallback: string := "OpenAI request failed"

  const NoReply: string := "No reply returned by model"

  /** The response built from the upstream result: failures pass through with
      their status, a truthy reply gives 200, a missing reply 500 with `raw`, and
      anything thrown 500. */
  function Translate(upstream: Upstream): (r: Response)
    ensures upstream.FetchFailed? ==> r == ServerError(upstream.error)
    ensures upstream.Received? && upstream.payload.Throws? ==> r == ServerError(upstream.payload.error)
    ensures upstream.Received? && upstream.payload.Done? && !IsOk(upstream.status) ==>
      r == UpstreamError(upstream.status, upstream.payload.value, ChatFallback)
    ensures r.body.ReplyBody? <==>
      && upstream.Received? && IsOk(upstream.status) && upstream.payload.Done?
      && ExtractReply(upstream.payload.value).Done?
      && Truthy(ExtractReply(upstream.payload.value).value)
    ensures r.body.ReplyBody? ==> r.status == 200 && r.body.reply == ExtractReply(upstream.payload.value).value
    ensures (upstream.Received? && IsOk(upstream.status) && upstream.payload.Done?
             && ExtractReply(upstream.payload.value).Done?
             && !Truthy(ExtractReply(upstream.payload.value).value)) ==>
      r == Response(500, ErrorWithRaw(Str(NoReply), upstream.payload.value))
    ensures (upstream.Received? && IsOk(upstream.status) && upstream.payload.Done?
             && ExtractReply(upstream.payload.value).Throws?) ==>
      r == ServerError(EngineTypeError)
    ensures r.status == 200 ==> r.body.ReplyBody?
    ensures r.status != 500 ==> r.body.ReplyBody? || (upstream.Received? && r.status == upstream.status)
  {
    match upstream
    case FetchFailed(e) => ServerError(e)
    case Received(status, Throws(e)) => ServerError(e)
    case Received(status, Done(data)) =>
      if !IsOk(status) then UpstreamError(status, data, ChatFallback)
      else match ExtractReply(data)
        case Throws(e) => ServerError(e)
        case Done(reply) =>
          if Truthy(reply) then Response(200, ReplyBody(reply))
          else Response(500, ErrorWithRaw(Str(NoReply), data))
  }

  /** The chat handler. The upstream result is consulted only when the call is made. */
  function Handle(req: ChatRequest, apiKey: Option<string>, upstream: Upstream): (x: Exchange<ChatCall>)
    ensures x.call.Some? <==>
      && req.verb == "POST" && req.payload.Fields? && KeyPresent(apiKey)
      && BuildInput(req.payload.body).Done?
    ensures x.call.Some? ==>
      && x.call.value == ChatCall(apiKey.value, BuildInput(req.payload.body).value)
      && x.response == Translate(upstream)
    ensures x.call.None? ==> x.response.status in {200, 405, 500}
    ensures req.verb == "POST" && x.call.None? ==> x.response.status == 500
    ensures req.verb == "POST" && (req.payload.NullBody? ||
              (req.payload.Fields? && KeyPresent(apiKey) && BuildInput(req.payload.body).Throws?)) ==>
      x.response == ServerError(EngineTypeError)
  {
    if req.verb == "OPTIONS" then NoCall(Response(200, Empty))
    else if req.verb != "POST" then NoCall(UsePost)
    else match req.payload
      case Unparsable(e) => NoCall(ServerError(e))
      case NullBody => NoCall(ServerError(EngineTypeError))
      case Fields(body) =>
        if !KeyPresent(apiKey) then NoCall(MissingKey)
        else match BuildInput(body)
          case Throws(e) => NoCall(ServerError(e))
          case Done(input) => Exchange(Some(ChatCall(apiKey.value, input)), Translate(upstream))
  }

  /** OPTIONS gives 200 with an empty body, any other non-POST method 405; neither calls upstream. */
  lemma MethodGate(req: ChatRequest, apiKey: Option<string>, upstream: Upstream)
    requires req.verb != "POST"
    ensures var x := Handle(req, apiKey, upstream);
      && x.call.None?
      && (req.verb == "OPTIONS" ==> x.response == Response(200, Empty))
      && (req.verb != "OPTIONS" ==> x.response == Response(405, ErrorBody(Str("Use POST"))))
  {
  }

  /** With a parsed body and no key, the answer is 500 "Missing OPENAI_API_KEY"
      and no call is made, whatever the history holds. */
  lemma MissingKeyBlocksCall(body: ChatBody, apiKey: Option<string>, upstream: Upstream)
    requires !KeyPresent(apiKey)
    ensures Handle(ChatRequest("POST", Fields(body)), apiKey, upstream)
      == Exchange(None, Response(500, ErrorBody(Str("Missing OPENAI_API_KEY"))))
  {
  }

  /** When no call is made the response does not depend on the upstream result. */
  lemma NoCallIgnoresUpstream(req: ChatRequest, apiKey: Option<string>, u1: Upstream, u2: Upstream)
    requires Handle(req, apiKey, u1).call.None?
    ensures Handle(req, apiKey, u2) == Handle(req, apiKey, u1)
  {
  }

  /** An ok upstream answer whose first content item is an "output_text" item
      with non-empty text `t` gives 200 `{reply: t}`. */
  lemma FirstOutputTextIsReply(status: int, t: string)
    requires IsOk(status) && t != ""
    ensures var item := Obj(map["type" := Str("output_text"), "text" := Str(t)]);
      var data := Obj(map["output" := Arr([Obj(map["content" := Arr([item])])])]);
      Translate(Received(status, Done(data))) == Response(200, ReplyBody(Str(t)))
  {
    var item := Obj(map["type" := Str("output_text"), "text" := Str(t)]);
    var data := Obj(map["output" := Arr([Obj(map["content" := Arr([item])])])]);
    assert Content(data) == Arr([item]);
    assert FoundAt([item], 0);
  }

  /** A body that cannot be parsed gives 500 with the parse error's message,
      before the key is looked at, and no call. */
  lemma UnparsableBodyIsServerError(e: Exception, apiKey: Option<string>, upstream: Upstream)
    ensures Handle(ChatRequest("POST", Unparsable(e)), apiKey, upstream) == Exchange(None, ServerError(e))
  {
  }

  /** A string body that parses to `null` makes `body.message` throw: 500 from
      the `catch`, before the key is looked at, and no call. */
  lemma NullBodyIsServerError(apiKey: Option<string>, upstream: Upstream)
    ensures Handle(ChatRequest("POST", NullBody), apiKey, upstream) == Exchange(None, ServerError(EngineTypeError))
  {
  }

  /** With the key set, a null entry among the 12 most recent history entries
      makes `m.role` throw: 500 from the `catch` and no call. */
  lemma NullRecentEntryIsServerError(body: ChatBody, key: string, upstream: Upstream, i: nat)
    requires key != ""
    requires i < |RecentHistory(body.conversation)| && RecentHistory(body.conversation)[i].NullEntry?
    ensures Handle(ChatRequest("POST", Fields(body)), Some(key), upstream) == Exchange(None, ServerError(EngineTypeError))
  {
    BuildInputThrowsIff(body);
  }

  /** A non-ok upstream answer with an error message passes status, message
      and payload through. */
  lemma UpstreamFailurePassesThrough(status: int, msg: string)
    requires !IsOk(status) && msg != ""
    ensures var data := Obj(map["error" := Obj(map["message" := Str(msg)])]);
      Translate(Received(status, Done(data))) == Response(status, ErrorWithRaw(Str(msg), data))
  {
  }
}
