/** The service layer over the hosted model (services/geminiService.js): the
    credential check, the prompt templates, fence stripping, the two-tier
    categorisation, the never-failing action-item extraction and the four
    free-text operations. The model is an oracle (`Gateway.respond`) and
    `JSON.parse` an abstract partial function (`parse`). */
module Gemini {
  import opened Types
  import opened Strings

  const FlashModel: string := "gemini-2.5-flash"
  const PlaceholderKey: string := "PLACEHOLDER_API_KEY"
  const NotConfiguredMessage: string := "Gemini API key is not configured."
  const ContentSeparator: string := "\n\nEmail Content:\n"
  const JsonFenceOpen: string := "```json"
  const FenceClose: string := "```"

  /** The shape of structured output a request asks for. */
  datatype Schema = NoSchema | CategoryObject | ActionItemArray

  /** One call to the hosted model: a one-shot generation, or one message sent on a fresh chat. */
  datatype Request =
    | Generate(model: string, prompt: string, schema: Schema)
    | ChatSend(model: string, message: string)

  /** What the model returns: text, no text at all, or a failure with its message. */
  datatype Resp = Replied(text: string) | NoText | Failed(message: string)

  /** The configured credential and the model's behaviour on each request. */
  datatype Gateway = Gateway(apiKey: Option<string>, respond: Request -> Resp)

  /** What `JSON.parse` produced, as far as the code inspects it: a falsy value
      (null, false, 0, ""), another scalar, an object with its `category` member
      (None when that member is undefined), or an array of action items. */
  datatype Json =
    | Falsy
    | Scalar
    | Object(category: Option<string>)
    | Array(items: seq<ActionItem>)

  predicate Truthy(v: Json) {
    !v.Falsy?
  }

  /** `v.category` on any parsed value: undefined unless `v` is an object. */
  function CategoryMember(v: Json): Option<string> {
    if v.Object? then v.category else None
  }

  /** `getGeminiClient`: a client holding the key, or the configuration error
      when the key is missing, empty or the placeholder. */
  function GetClient(apiKey: Option<string>): (r: Result<string>)
    ensures r.Ok? ==> apiKey == Some(r.value) && r.value != "" && r.value != PlaceholderKey
    ensures r.Err? ==> r.message == NotConfiguredMessage
    ensures apiKey.None? || apiKey == Some("") || apiKey == Some(PlaceholderKey) ==> r.Err?
    ensures apiKey.Some? && apiKey.value != "" && apiKey.value != PlaceholderKey ==> r == Ok(apiKey.value)
  {
    if apiKey.None? || apiKey.value == "" || apiKey.value == PlaceholderKey then Err(NotConfiguredMessage)
    else Ok(apiKey.value)
  }

  predicate Configured(g: Gateway) {
    GetClient(g.apiKey).Ok?
  }

  /** One call: the client check, then the model; a missing text reads as "". */
  function Call(g: Gateway, req: Request): Result<string> {
    match GetClient(g.apiKey)
    case Err(m) => Err(m)
    case Ok(_) =>
      match g.respond(req)
      case Replied(t) => Ok(t)
      case NoText => Ok("")
      case Failed(m) => Err(m)
  }

  // ----- Prompt templates -----

  /** The categorise, extract and summarise prompt: instruction, separator, body. */
  function ContentPrompt(instruction: string, body: string): string {
    instruction + ContentSeparator + body
  }

  /** The prompt is the instruction followed by the separator and exactly the body,
      so two different bodies never give the same prompt. */
  lemma ContentPromptParts(instruction: string, body: string, body': string)
    ensures ContentPrompt(instruction, body)[..|instruction|] == instruction
    ensures ContentPrompt(instruction, body)[|instruction| + |ContentSeparator|..] == body
    ensures ContentPrompt(instruction, body) == ContentPrompt(instruction, body') ==> body == body'
  {
    var p, p' := ContentPrompt(instruction, body), ContentPrompt(instruction, body');
    var k := |instruction| + |ContentSeparator|;
    assert p[k..] == body;
    assert p'[k..] == body';
  }

  /** The free-text retry prompt, listing the category names. */
  function FallbackPrompt(body: string): string {
    ContentPrompt(
      "Given the email below, what is its primary category from this list: "
      + Join(CategoryNames, ", ") + ". Just respond with the category name.",
      body)
  }

  const DraftHeader: string := "\n\nOriginal Email Details:\nSender: "
  const DraftSubjectLabel: string := "\nSubject: "
  const DraftBodyLabel: string := "\nBody:\n"
  const DraftTrailer: string := "\n\nDraft a concise and polite reply."

  /** The reply prompt: instruction, then sender, subject and body. */
  function DraftPrompt(instruction: string, e: Email): string {
    instruction + DraftHeader + e.sender + DraftSubjectLabel + e.subject
    + DraftBodyLabel + e.body + DraftTrailer
  }

  /** The reply prompt holds the sender, then the subject, then the body, each
      right after its label and in that order. */
  lemma DraftPromptOrder(instruction: string, e: Email)
    ensures var p := DraftPrompt(instruction, e);
            var a := |instruction| + |DraftHeader|;
            var b := a + |e.sender| + |DraftSubjectLabel|;
            var c := b + |e.subject| + |DraftBodyLabel|;
            a <= b <= c && c + |e.body| <= |p|
            && OccursAt(p, e.sender, a) && OccursAt(p, e.subject, b) && OccursAt(p, e.body, c)
  {
    var p := DraftPrompt(instruction, e);
    var a := |instruction| + |DraftHeader|;
    var b := a + |e.sender| + |DraftSubjectLabel|;
    var c := b + |e.subject| + |DraftBodyLabel|;
    assert p[a..a + |e.sender|] == e.sender;
    assert p[b..b + |e.subject|] == e.subject;
    assert p[c..c + |e.body|] == e.body;
  }

  /** The chat message: the email body and the user's question. */
  function ChatPrompt(body: string, query: string): string {
    "Given the following email content:\n\n" + body + "\n\nUser's question: " + query
  }

  // ----- Response shaping -----

  /** Removes a ```json ... ``` fence around a (trimmed) response. */
  function StripFence(s: string): (r: string)
    ensures StartsWith(s, JsonFenceOpen) && EndsWith(s, FenceClose) ==>
              |s| >= 10 && r == s[7..|s| - 3]
    ensures !(StartsWith(s, JsonFenceOpen) && EndsWith(s, FenceClose)) ==> r == s
  {
    if StartsWith(s, JsonFenceOpen) && EndsWith(s, FenceClose) then
      // The closing fence cannot overlap "json", whose letters are not backquotes.
      assert s[4] == 's' && s[5] == 'o' && s[6] == 'n' by { assert s[..7] == JsonFenceOpen; }
      assert s[|s| - 3] == '`' by { assert s[|s| - 3..] == FenceClose; }
      s[7..|s| - 3]
    else s
  }

  /** Wrapping a text in a json fence and stripping it gives the text back. */
  lemma StripFenceRoundTrip(x: string)
    ensures StripFence(JsonFenceOpen + x + FenceClose) == x
  {
    var s := JsonFenceOpen + x + FenceClose;
    assert s[..7] == JsonFenceOpen;
    assert s[|s| - 3..] == FenceClose;
    assert s[7..|s| - 3] == x;
  }

  /** The text without a fence prefix is passed through untouched. */
  lemma StripFenceUnfenced(s: string)
    requires !StartsWith(s, JsonFenceOpen)
    ensures StripFence(s) == s
  {
  }

  // ----- Categorisation -----

  /** The structured request for a categorisation. */
  function CategorizeRequest(body: string, prompt: string): Request {
    Generate(FlashModel, ContentPrompt(prompt, body), CategoryObject)
  }

  /** The free-text retry request. */
  function FallbackRequest(body: string): Request {
    Generate(FlashModel, FallbackPrompt(body), NoSchema)
  }

  /** The first tier: call, trim, strip the fence, parse. None when any step throws. */
  function FirstTier(g: Gateway, parse: string -> Option<Json>, body: string, prompt: string): Option<Json> {
    match Call(g, CategorizeRequest(body, prompt))
    case Err(_) => None
    case Ok(text) =>
      var jsonStr := Trim(text);
      if jsonStr == "" then None else parse(StripFence(jsonStr))
  }

  /** The second tier: the trimmed free text if it names a category exactly, else Unknown. */
  function FallbackCategory(g: Gateway, body: string): Category {
    match Call(g, FallbackRequest(body))
    case Err(_) => Unknown
    case Ok(text) => ParseCategory(Trim(text)).GetOr(Unknown)
  }

  /** The value `categorizeEmail` resolves to. */
  function Categorized(g: Gateway, parse: string -> Option<Json>, body: string, prompt: string): Json {
    match FirstTier(g, parse, body, prompt)
    case Some(v) => v
    case None => Object(Some(CategoryName(FallbackCategory(g, body))))
  }

  /** `categorizeEmail`: structured call first; on any failure one free-text retry
      accepted only on an exact category name; otherwise Unknown. Never fails. */
  method CategorizeEmail(g: Gateway, parse: string -> Option<Json>, body: string, prompt: string)
    returns (r: Result<Json>)
    ensures r.Ok?
    ensures r == Ok(Categorized(g, parse, body, prompt))
  {
    var response := Call(g, CategorizeRequest(body, prompt));
    if response.Ok? {
      var jsonStr := Trim(response.value);
      if jsonStr != "" {
        var cleaned := StripFence(jsonStr);
        var result := parse(cleaned);
        if result.Some? {
          return Ok(result.value);
        }
      }
    }
    // The first tier threw: ask once more for a bare category name.
    var fallbackResponse := Call(g, FallbackRequest(body));
    if fallbackResponse.Ok? {
      var fallbackText := Trim(fallbackResponse.value);
      if fallbackText != "" && fallbackText in CategoryNames {
        return Ok(Object(Some(fallbackText)));
      }
    }
    return Ok(Object(Some(CategoryName(Unknown))));
  }

  /** On the fallback path the result is an object whose category is one of the
      seven names; it is not Unknown only when the retry's trimmed text is exactly
      that name. */
  lemma FallbackYieldsCategory(g: Gateway, parse: string -> Option<Json>, body: string, prompt: string)
    requires FirstTier(g, parse, body, prompt).None?
    ensures var v := Categorized(g, parse, body, prompt);
            v.Object? && v.category.Some? && v.category.value in CategoryNames
    ensures var v := Categorized(g, parse, body, prompt);
            v.category != Some("Unknown") ==>
              Call(g, FallbackRequest(body)).Ok? && Trim(Call(g, FallbackRequest(body)).value) == v.category.value
  {
    CategoryNameRoundTrip(FallbackCategory(g, body));
  }

  /** When the first tier parses, its value is returned as it is: no membership
      check is applied to it. */
  lemma FirstTierReturnedUnchecked(g: Gateway, parse: string -> Option<Json>, body: string, prompt: string)
    requires FirstTier(g, parse, body, prompt).Some?
    ensures Categorized(g, parse, body, prompt) == FirstTier(g, parse, body, prompt).value
  {
  }

  /** A first-tier reply that parses to an object naming a category outside the
      enumeration is passed on as it is: categorisation can yield a string that is
      none of the seven names. */
  lemma FirstTierCanLeaveEnumeration(g: Gateway, parse: string -> Option<Json>, body: string, prompt: string,
                                     t: string, c: string)
    requires Configured(g)
    requires g.respond(CategorizeRequest(body, prompt)) == Replied(t)
    requires t != "" && Trim(t) == t && !StartsWith(t, JsonFenceOpen)
    requires parse(t) == Some(Object(Some(c))) && c !in CategoryNames
    ensures Categorized(g, parse, body, prompt) == Object(Some(c))
    ensures ParseCategory(c).None?
  {
    assert Call(g, CategorizeRequest(body, prompt)) == Ok(t);
    StripFenceUnfenced(t);
  }

  /** A fenced structured reply is unwrapped before it is parsed. */
  lemma FencedReplyIsUnwrapped(g: Gateway, parse: string -> Option<Json>, body: string, prompt: string, inner: string)
    requires Configured(g)
    requires g.respond(CategorizeRequest(body, prompt)) == Replied(JsonFenceOpen + inner + FenceClose)
    requires parse(inner).Some?
    ensures Categorized(g, parse, body, prompt) == parse(inner).value
  {
    var s := JsonFenceOpen + inner + FenceClose;
    assert !IsSpace(s[0]) && !IsSpace(s[|s| - 1]);
    assert Trim(s) == s by {
      assert TrimEnd(s) == s;
      assert TrimStart(s) == s;
    }
    StripFenceRoundTrip(inner);
  }

  // ----- Action-item extraction -----

  function ExtractRequest(body: string, prompt: string): Request {
    Generate(FlashModel, ContentPrompt(prompt, body), ActionItemArray)
  }

  /** The items `extractActionItems` resolves to: the parsed array, or [] on a
      failed call, a blank reply, a parse failure or a non-array. */
  function Extracted(g: Gateway, parse: string -> Option<Json>, body: string, prompt: string): seq<ActionItem> {
    match Call(g, ExtractRequest(body, prompt))
    case Err(_) => []
    case Ok(text) =>
      var jsonStr := Trim(text);
      if jsonStr == "" then []
      else match parse(StripFence(jsonStr))
        case Some(Array(items)) => items
        case _ => []
  }

  /** `extractActionItems`: never fails; returns the parsed array or []. */
  method ExtractActionItems(g: Gateway, parse: string -> Option<Json>, body: string, prompt: string)
    returns (r: Result<seq<ActionItem>>)
    ensures r.Ok?
    ensures r == Ok(Extracted(g, parse, body, prompt))
  {
    var response := Call(g, ExtractRequest(body, prompt));
    if response.Err? {
      return Ok([]);
    }
    var jsonStr := Trim(response.value);
    if jsonStr == "" {
      return Ok([]); // No action items found or no valid JSON
    }
    var cleaned := StripFence(jsonStr);
    var result := parse(cleaned);
    if result.None? || !result.value.Array? {
      return Ok([]);
    }
    return Ok(result.value.items);
  }

  /** Extraction returns exactly the parsed array when the reply parses to one,
      and [] in every other case. */
  lemma ExtractedCases(g: Gateway, parse: string -> Option<Json>, body: string, prompt: string)
    ensures var call := Call(g, ExtractRequest(body, prompt));
            var parsed := if call.Ok? && Trim(call.value) != "" then parse(StripFence(Trim(call.value))) else None;
            (parsed.Some? && parsed.value.Array? ==> Extracted(g, parse, body, prompt) == parsed.value.items)
            && (!(parsed.Some? && parsed.value.Array?) ==> Extracted(g, parse, body, prompt) == [])
  {
  }

  // ----- Free-text operations -----

  /** A free-text answer: the call's error, the operation's own error on an empty
      text, otherwise the text unchanged. */
  function RequireText(r: Result<string>, noTextMessage: string): Result<string> {
    match r
    case Err(m) => Err(m)
    case Ok(t) => if t == "" then Err(noTextMessage) else Ok(t)
  }

  /** `generateText`: fails on a missing key, a failed call or an empty text;
      otherwise returns the text unchanged (not trimmed). */
  function GenerateText(g: Gateway, model: string, prompt: string): (r: Result<string>)
    ensures !Configured(g) ==> r == Err(NotConfiguredMessage)
    ensures Configured(g) ==>
              match g.respond(Generate(model, prompt, NoSchema))
              case Replied(t) => r == if t == "" then Err("No text content received from Gemini API.") else Ok(t)
              case NoText => r == Err("No text content received from Gemini API.")
              case Failed(m) => r == Err(m)
  {
    RequireText(Call(g, Generate(model, prompt, NoSchema)), "No text content received from Gemini API.")
  }

  function SummarizeRequest(body: string, prompt: string): Request {
    Generate(FlashModel, ContentPrompt(prompt, body), NoSchema)
  }

  /** `summarizeEmail`: the summary text, or a propagated failure. */
  function SummarizeEmail(g: Gateway, body: string, prompt: string): (r: Result<string>)
    ensures !Configured(g) ==> r == Err(NotConfiguredMessage)
    ensures Configured(g) ==>
              match g.respond(SummarizeRequest(body, prompt))
              case Replied(t) => r == if t == "" then Err("No text content received for summarization.") else Ok(t)
              case NoText => r == Err("No text content received for summarization.")
              case Failed(m) => r == Err(m)
  {
    RequireText(Call(g, SummarizeRequest(body, prompt)), "No text content received for summarization.")
  }

  function DraftRequest(e: Email, prompt: string): Request {
    Generate(FlashModel, DraftPrompt(prompt, e), NoSchema)
  }

  /** `draftReply`: the reply body, or a propagated failure. */
  function DraftReply(g: Gateway, e: Email, prompt: string): (r: Result<string>)
    ensures !Configured(g) ==> r == Err(NotConfiguredMessage)
    ensures Configured(g) ==>
              match g.respond(DraftRequest(e, prompt))
              case Replied(t) => r == if t == "" then Err("No text content received for drafting reply.") else Ok(t)
              case NoText => r == Err("No text content received for drafting reply.")
              case Failed(m) => r == Err(m)
  {
    RequireText(Call(g, DraftRequest(e, prompt)), "No text content received for drafting reply.")
  }

  function ChatRequest(body: string, query: string): Request {
    ChatSend(FlashModel, ChatPrompt(body, query))
  }

  /** `chatWithEmail`: the chat answer, or a propagated failure. */
  function ChatWithEmail(g: Gateway, body: string, query: string): (r: Result<string>)
    ensures !Configured(g) ==> r == Err(NotConfiguredMessage)
    ensures Configured(g) ==>
              match g.respond(ChatRequest(body, query))
              case Replied(t) => r == if t == "" then Err("No text content received from chat.") else Ok(t)
              case NoText => r == Err("No text content received from chat.")
              case Failed(m) => r == Err(m)
  {
    RequireText(Call(g, ChatRequest(body, query)), "No text content received from chat.")
  }

  /** Without a usable key nothing reaches the model: categorisation settles on
      Unknown and extraction on no items. */
  lemma UnconfiguredFallbacks(g: Gateway, parse: string -> Option<Json>, body: string, prompt: string)
    requires !Configured(g)
    ensures Categorized(g, parse, body, prompt) == Object(Some("Unknown"))
    ensures Extracted(g, parse, body, prompt) == []
  {
    assert Call(g, CategorizeRequest(body, prompt)).Err?;
    assert Call(g, FallbackRequest(body)).Err?;
    assert Call(g, ExtractRequest(body, prompt)).Err?;
  }

  /** A successful free-text answer is never empty. */
  lemma FreeTextNeverEmpty(g: Gateway, e: Email, prompt: string, query: string)
    ensures SummarizeEmail(g, e.body, prompt).Ok? ==> SummarizeEmail(g, e.body, prompt).value != ""
    ensures DraftReply(g, e, prompt).Ok? ==> DraftReply(g, e, prompt).value != ""
    ensures ChatWithEmail(g, e.body, query).Ok? ==> ChatWithEmail(g, e.body, query).value != ""
  {
  }
}
