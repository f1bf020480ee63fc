// The completion provider (server/ai.ts): which backend is configured, how
// messages are re-labelled for each backend, the OpenAI-then-Gemini
// fallback of the free-text and JSON completions, and the tolerant
// extraction of a JSON object from free text.
//
// The two backends are given as functions from the request they receive to
// their outcome (a reply or the message of the error they threw); the
// methods report, besides their result, the requests they sent, so which
// backend was tried, in which order, is part of what the contracts state.
// `JSON.parse` is the parameter `parse`: None where it would throw.
module Ai {
  import opened Wrappers
  import opened Schema
  import opened Strings

  /** Whether OPENAI_API_KEY and GEMINI_API_KEY are set (non-empty). */
  datatype Config = Config(hasOpenAIKey: bool, hasGeminiKey: bool)

  /** The chat request sent to OpenAI; `jsonObject` is the `json_object` response format. */
  datatype OpenAIRequest = OpenAIRequest(messages: seq<Message>, jsonObject: bool)

  /** One Gemini content entry, `{ role, parts: [{ text }] }`. */
  datatype GeminiContent = GeminiContent(role: string, text: string)

  /** A Gemini chat started with `history`, then sent `text`. */
  datatype GeminiRequest = GeminiRequest(history: seq<GeminiContent>, text: string)

  datatype Call = ToOpenAI(openAIRequest: OpenAIRequest) | ToGemini(geminiRequest: GeminiRequest)

  /**
   * The configured backends. OpenAI answers with the message content, which
   * may be null (None); Gemini answers with the response text. Err carries
   * the message of the error a call threw.
   */
  datatype Backends = Backends(
    config: Config,
    openAI: OpenAIRequest -> Result<Option<string>, string>,
    gemini: GeminiRequest -> Result<string, string>)

  /** The errors the completions throw. */
  datatype AIError =
    | Unconfigured(message: string)  // neither backend configured
    | Failed(message: string)        // a backend call threw
    | ParseFailed(text: string)      // `JSON.parse` rejected this text
    | NoLastMessage                  // Gemini was given no message to send

  const NoServiceMessage := "No AI service available. Configure either OPENAI_API_KEY or GEMINI_API_KEY."
  const GeminiUnconfiguredMessage := "Gemini API key not configured"
  const JsonInstruction := "Please format your response as a valid JSON object with no explanations or text outside the JSON."

  // ---- Configuration --------------------------------------------------------

  /** `hasAIServices`: some backend has its key configured. */
  function HasAIServices(c: Config): (r: bool)
    ensures r <==> c.hasOpenAIKey || c.hasGeminiKey
    ensures !r ==> c == Config(false, false)
  {
    c.hasOpenAIKey || c.hasGeminiKey
  }

  /** `getActiveAIService`: the backend that is tried first, "None" when there is none. */
  function GetActiveAIService(c: Config): (r: string)
    ensures r in {"OpenAI", "Gemini", "None"}
    ensures r == "OpenAI" <==> c.hasOpenAIKey
    ensures r == "Gemini" <==> !c.hasOpenAIKey && c.hasGeminiKey
    ensures r == "None" <==> !HasAIServices(c)
  {
    if c.hasOpenAIKey then "OpenAI"
    else if c.hasGeminiKey then "Gemini"
    else "None"
  }

  // ---- Message formats ------------------------------------------------------

  /** OpenAI has no "system" speaker in this conversation: it becomes "assistant". */
  function OpenAIRole(role: string): string {
    if role == "system" then "assistant" else role
  }

  /** The messages as sent to OpenAI: same order and contents, roles mapped. */
  function ToOpenAIFormat(messages: seq<Message>): (r: seq<Message>)
    ensures |r| == |messages|
    ensures forall i :: 0 <= i < |r| ==>
              r[i].content == messages[i].content && r[i].role == OpenAIRole(messages[i].role)
  {
    seq(|messages|, i requires 0 <= i < |messages| =>
      Message(OpenAIRole(messages[i].role), messages[i].content))
  }

  /** No message reaches OpenAI as "system"; every other role and every content is kept. */
  lemma OpenAIFormatRoles(messages: seq<Message>)
    ensures forall i :: 0 <= i < |messages| ==> ToOpenAIFormat(messages)[i].role != "system"
    ensures forall i :: 0 <= i < |messages| && messages[i].role != "system" ==>
              ToOpenAIFormat(messages)[i] == messages[i]
    ensures ToOpenAIFormat(ToOpenAIFormat(messages)) == ToOpenAIFormat(messages)
  {
  }

  /** Gemini knows only "user" and "model": everything that is not "user" becomes "model". */
  function GeminiRole(role: string): string {
    if role == "user" then "user" else "model"
  }

  /** `convertMessagesToGeminiFormat`. */
  function ToGeminiFormat(messages: seq<Message>): (r: seq<GeminiContent>)
    ensures |r| == |messages|
    ensures forall i :: 0 <= i < |r| ==>
              r[i].text == messages[i].content && r[i].role == GeminiRole(messages[i].role)
  {
    seq(|messages|, i requires 0 <= i < |messages| =>
      GeminiContent(GeminiRole(messages[i].role), messages[i].content))
  }

  /** Gemini sees only "user" and "model", and "user" exactly where the caller said "user". */
  lemma GeminiFormatRoles(messages: seq<Message>)
    ensures forall i :: 0 <= i < |messages| ==> ToGeminiFormat(messages)[i].role in {"user", "model"}
    ensures forall i :: 0 <= i < |messages| ==>
              (ToGeminiFormat(messages)[i].role == "user" <==> messages[i].role == "user")
  {
  }

  /** Converting a list converts each of its parts. */
  lemma GeminiFormatAppend(a: seq<Message>, b: seq<Message>)
    ensures ToGeminiFormat(a + b) == ToGeminiFormat(a) + ToGeminiFormat(b)
  {
    var l, r := ToGeminiFormat(a + b), ToGeminiFormat(a) + ToGeminiFormat(b);
    forall i | 0 <= i < |l| ensures l[i] == r[i] {
      if i < |a| {
        assert (a + b)[i] == a[i];
      } else {
        assert (a + b)[i] == b[i - |a|];
      }
    }
  }

  /**
   * The Gemini chat for a non-empty message list: every message but the last
   * is history, the last one's text is what is sent.
   */
  function GeminiChatRequest(messages: seq<Message>): GeminiRequest
    requires messages != []
  {
    GeminiRequest(ToGeminiFormat(messages[..|messages| - 1]), messages[|messages| - 1].content)
  }

  function FromBackend<T>(outcome: Result<T, string>): (r: Result<T, AIError>)
    ensures outcome.Ok? ==> r == Ok(outcome.value)
    ensures outcome.Err? ==> r == Err(Failed(outcome.error))
  {
    match outcome
    case Ok(v) => Ok(v)
    case Err(e) => Err(Failed(e))
  }

  // ---- Tolerant JSON extraction ----------------------------------------------

  /**
   * `extractJsonFromText`: from the first '{' to the last '}' when the last
   * '}' comes after the first '{'; otherwise the text as it is.
   */
  function ExtractJsonFromText(text: string): (r: string)
    ensures IsInfix(r, text)
    ensures r != text ==> |r| >= 2 && r[0] == '{' && r[|r| - 1] == '}'
  {
    assert text <= text[0..];
    var open := IndexOf(text, '{');
    if open >= 0 then
      var close := LastIndexOf(text, '}');
      if close > open then
        assert text[open..close + 1] <= text[open..];
        text[open..close + 1]
      else text
    else text
  }

  /** With the first '{' at i and the last '}' at j > i, exactly text[i..j] (inclusive) is kept. */
  lemma ExtractJsonBetweenBraces(text: string, i: int, j: int)
    requires 0 <= i < j < |text|
    requires text[i] == '{' && '{' !in text[..i]
    requires text[j] == '}' && '}' !in text[j + 1..]
    ensures ExtractJsonFromText(text) == text[i..j + 1]
  {
  }

  /** Without a '}' after some '{', the text comes back unchanged. */
  lemma ExtractJsonNoObject(text: string)
    requires forall i, j :: 0 <= i < j < |text| && text[i] == '{' ==> text[j] != '}'
    ensures ExtractJsonFromText(text) == text
  {
  }

  /** Extracting twice gives what extracting once gives. */
  lemma ExtractJsonIdempotent(text: string)
    ensures ExtractJsonFromText(ExtractJsonFromText(text)) == ExtractJsonFromText(text)
  {
    var r := ExtractJsonFromText(text);
    if r != text {
      ExtractJsonBetweenBraces(r, 0, |r| - 1);
      assert r[0..|r|] == r;
    }
  }

  /** The prose around a reply's object is dropped. */
  lemma ExtractJsonExample()
    ensures ExtractJsonFromText("Sure! {\"a\":1} Hope that helps!") == "{\"a\":1}"
  {
    var before, json, after := "Sure! ", "{\"a\":1}", " Hope that helps!";
    var text := before + json + after;
    assert text == "Sure! {\"a\":1} Hope that helps!";
    assert '{' !in before && '}' !in after;
    assert text[..|before|] == before && text[|before| + |json|..] == after;
    ExtractJsonBetweenBraces(text, |before|, |before| + |json| - 1);
    assert text[|before|..|before| + |json|] == json;
  }

  // ---- Completions ------------------------------------------------------------

  /** `geminiChatCompletion`. */
  method GeminiChatCompletion(b: Backends, messages: seq<Message>) returns (r: Result<string, AIError>, calls: seq<Call>)
    ensures !b.config.hasGeminiKey ==> r == Err(Failed(GeminiUnconfiguredMessage)) && calls == []
    ensures b.config.hasGeminiKey && messages == [] ==> r == Err(NoLastMessage) && calls == []
    ensures b.config.hasGeminiKey && messages != [] ==>
              calls == [ToGemini(GeminiChatRequest(messages))] &&
              r == FromBackend(b.gemini(GeminiChatRequest(messages)))
  {
    if !b.config.hasGeminiKey {
      return Err(Failed(GeminiUnconfiguredMessage)), [];
    }
    var formatted := ToGeminiFormat(messages);
    if |formatted| == 0 {
      // `formattedMessages[-1]` is undefined: reading its parts throws.
      return Err(NoLastMessage), [];
    }
    var request := GeminiRequest(formatted[..|formatted| - 1], formatted[|formatted| - 1].text);
    assert request == GeminiChatRequest(messages) by {
      GeminiFormatAppend(messages[..|messages| - 1], [messages[|messages| - 1]]);
      assert messages[..|messages| - 1] + [messages[|messages| - 1]] == messages;
    }
    calls := [ToGemini(request)];
    r := FromBackend(b.gemini(request));
  }

  /** Some request of `calls` went to Gemini. */
  predicate CallsGemini(calls: seq<Call>) {
    exists i :: 0 <= i < |calls| && calls[i].ToGemini?
  }

  /** Whether the free-text completion moves on to Gemini: OpenAI is missing or its call threw. */
  predicate FallsBackToGemini(b: Backends, messages: seq<Message>) {
    b.config.hasGeminiKey &&
    (!b.config.hasOpenAIKey || b.openAI(OpenAIRequest(ToOpenAIFormat(messages), false)).Err?)
  }

  /**
   * The outcome of a free-text completion: Gemini's reply when the completion
   * falls back to it, otherwise OpenAI's (its content, or the error it threw),
   * and the "no service" error when neither backend is configured.
   */
  function Completion(b: Backends, messages: seq<Message>): (r: Result<Option<string>, AIError>)
    ensures r.Ok? ==> HasAIServices(b.config)
    ensures r.Ok? && r.value.None? ==> b.config.hasOpenAIKey && !FallsBackToGemini(b, messages)
    ensures r == Err(NoLastMessage) ==> messages == []
  {
    if FallsBackToGemini(b, messages) then
      if messages == [] then Err(NoLastMessage)
      else
        match b.gemini(GeminiChatRequest(messages))
        case Ok(text) => Ok(Some(text))
        case Err(e) => Err(Failed(e))
    else if b.config.hasOpenAIKey then
      FromBackend(b.openAI(OpenAIRequest(ToOpenAIFormat(messages), false)))
    else
      Err(Unconfigured(NoServiceMessage))
  }

  /**
   * `chatCompletion`: OpenAI first; Gemini only when OpenAI is not configured
   * or its call threw; at most two calls; with no backend, the "no service"
   * error and no call at all.
   */
  method ChatCompletion(b: Backends, messages: seq<Message>) returns (r: Result<Option<string>, AIError>, calls: seq<Call>)
    ensures |calls| <= 2
    ensures !HasAIServices(b.config) ==> r == Err(Unconfigured(NoServiceMessage)) && calls == []
    ensures b.config.hasOpenAIKey ==>
              calls != [] && calls[0] == ToOpenAI(OpenAIRequest(ToOpenAIFormat(messages), false))
    ensures b.config.hasOpenAIKey && b.openAI(calls[0].openAIRequest).Ok? ==>
              r == Ok(b.openAI(calls[0].openAIRequest).value) && |calls| == 1
    ensures b.config.hasOpenAIKey && b.openAI(calls[0].openAIRequest).Err? && !b.config.hasGeminiKey ==>
              r == Err(Failed(b.openAI(calls[0].openAIRequest).error)) && |calls| == 1
    ensures CallsGemini(calls) <==>
              FallsBackToGemini(b, messages) && messages != []
    ensures FallsBackToGemini(b, messages) && messages == [] ==> r == Err(NoLastMessage)
    ensures FallsBackToGemini(b, messages) && messages != [] ==>
              calls[|calls| - 1] == ToGemini(GeminiChatRequest(messages)) &&
              match b.gemini(GeminiChatRequest(messages))
              case Ok(text) => r == Ok(Some(text))
              case Err(e) => r == Err(Failed(e))
    ensures r == Completion(b, messages)
  {
    if b.config.hasOpenAIKey {
      var request := OpenAIRequest(ToOpenAIFormat(messages), false);
      calls := [ToOpenAI(request)];
      match b.openAI(request)
      case Ok(content) =>
        r := Ok(content);
        assert !CallsGemini(calls);
      case Err(e) =>
        if b.config.hasGeminiKey {
          var g, more := GeminiChatCompletion(b, messages);
          r := match g case Ok(text) => Ok(Some(text)) case Err(err) => Err(err);
          calls := calls + more;
          assert messages != [] ==> calls[1].ToGemini?;
          assert messages == [] ==> !CallsGemini(calls);
        } else {
          r := Err(Failed(e));
          assert !CallsGemini(calls);
        }
    } else if b.config.hasGeminiKey {
      var g;
      g, calls := GeminiChatCompletion(b, messages);
      r := match g case Ok(text) => Ok(Some(text)) case Err(err) => Err(err);
      assert messages != [] ==> calls[0].ToGemini?;
    } else {
      r, calls := Err(Unconfigured(NoServiceMessage)), [];
    }
  }

  /** The text parsed from an OpenAI JSON reply: `content || "{}"`. */
  function OpenAIJsonText(content: Option<string>): (r: string)
    ensures r != ""
    ensures content.Some? && content.value != "" ==> r == content.value
  {
    match content
    case Some(c) => if c != "" then c else "{}"
    case None => "{}"
  }

  /** The Gemini chat of a JSON completion: all messages as history, then the JSON instruction. */
  function GeminiJsonRequest(messages: seq<Message>): GeminiRequest {
    GeminiRequest(ToGeminiFormat(messages), JsonInstruction)
  }

  /** What a JSON completion makes of a Gemini reply: the extracted object, parsed. */
  function GeminiJsonOutcome<T>(parse: string -> Option<T>, reply: Result<string, string>): Result<T, AIError> {
    match reply
    case Err(e) => Err(Failed(e))
    case Ok(text) =>
      var json := ExtractJsonFromText(text);
      match parse(json)
      case Some(v) => Ok(v)
      case None => Err(ParseFailed(json))
  }

  /** `geminiChatCompletionJSON`: the instruction is appended as a last user message. */
  method GeminiChatCompletionJSON<T>(b: Backends, parse: string -> Option<T>, messages: seq<Message>)
    returns (r: Result<T, AIError>, calls: seq<Call>)
    ensures !b.config.hasGeminiKey ==> r == Err(Failed(GeminiUnconfiguredMessage)) && calls == []
    ensures b.config.hasGeminiKey ==>
              calls == [ToGemini(GeminiJsonRequest(messages))] &&
              |calls[0].geminiRequest.history| == |messages| &&
              r == GeminiJsonOutcome(parse, b.gemini(GeminiJsonRequest(messages)))
  {
    if !b.config.hasGeminiKey {
      return Err(Failed(GeminiUnconfiguredMessage)), [];
    }
    var withFormat := messages + [Message("user", JsonInstruction)];
    var formatted := ToGeminiFormat(withFormat);
    var request := GeminiRequest(formatted[..|formatted| - 1], formatted[|formatted| - 1].text);
    assert request == GeminiJsonRequest(messages) by {
      GeminiFormatAppend(messages, [Message("user", JsonInstruction)]);
    }
    calls := [ToGemini(request)];
    match b.gemini(request)
    case Err(e) =>
      r := Err(Failed(e));
    case Ok(text) =>
      var json := ExtractJsonFromText(text);
      match parse(json)
      case Some(v) =>
        r := Ok(v);
      case None =>
        r := Err(ParseFailed(json));
  }

  /** Whether the JSON completion moves on to Gemini: OpenAI is missing, threw, or its reply did not parse. */
  predicate JsonFallsBackToGemini<T>(b: Backends, parse: string -> Option<T>, messages: seq<Message>) {
    b.config.hasGeminiKey &&
    (!b.config.hasOpenAIKey ||
     match b.openAI(OpenAIRequest(ToOpenAIFormat(messages), true))
     case Err(_) => true
     case Ok(content) => parse(OpenAIJsonText(content)).None?)
  }

  /**
   * The outcome of a JSON completion: Gemini's parsed reply when the completion
   * falls back to it; otherwise OpenAI's parsed reply, the text that did not
   * parse, or the error it threw; the "no service" error when neither backend
   * is configured.
   */
  function JsonCompletion<T>(b: Backends, parse: string -> Option<T>, messages: seq<Message>): (r: Result<T, AIError>)
    ensures r.Ok? ==> HasAIServices(b.config)
    ensures r.Ok? ==> exists text :: parse(text) == Some(r.value)
  {
    if JsonFallsBackToGemini(b, parse, messages) then
      GeminiJsonOutcome(parse, b.gemini(GeminiJsonRequest(messages)))
    else if b.config.hasOpenAIKey then
      match b.openAI(OpenAIRequest(ToOpenAIFormat(messages), true))
      case Err(e) => Err(Failed(e))
      case Ok(content) =>
        var text := OpenAIJsonText(content);
        match parse(text)
        case Some(v) => Ok(v)
        case None => Err(ParseFailed(text))
    else
      Err(Unconfigured(NoServiceMessage))
  }

  /**
   * `chatCompletionJSON`: as `chatCompletion`, but OpenAI is asked for a JSON
   * object and its reply is parsed inside the same try, so a reply that does
   * not parse also falls back to Gemini; Gemini's reply is cut down to its
   * outermost braces before parsing.
   */
  method ChatCompletionJSON<T>(b: Backends, parse: string -> Option<T>, messages: seq<Message>)
    returns (r: Result<T, AIError>, calls: seq<Call>)
    ensures |calls| <= 2
    ensures !HasAIServices(b.config) ==> r == Err(Unconfigured(NoServiceMessage)) && calls == []
    ensures b.config.hasOpenAIKey ==>
              calls != [] && calls[0] == ToOpenAI(OpenAIRequest(ToOpenAIFormat(messages), true))
    ensures b.config.hasOpenAIKey && b.openAI(calls[0].openAIRequest).Ok? &&
            parse(OpenAIJsonText(b.openAI(calls[0].openAIRequest).value)).Some? ==>
              r == Ok(parse(OpenAIJsonText(b.openAI(calls[0].openAIRequest).value)).value) && |calls| == 1
    ensures b.config.hasOpenAIKey && !b.config.hasGeminiKey && r.Err? ==>
              |calls| == 1 &&
              match b.openAI(calls[0].openAIRequest)
              case Err(e) => r == Err(Failed(e))
              case Ok(content) => r == Err(ParseFailed(OpenAIJsonText(content)))
    ensures CallsGemini(calls) <==> JsonFallsBackToGemini(b, parse, messages)
    ensures JsonFallsBackToGemini(b, parse, messages) ==>
              calls[|calls| - 1] == ToGemini(GeminiJsonRequest(messages)) &&
              r == GeminiJsonOutcome(parse, b.gemini(GeminiJsonRequest(messages)))
    ensures r == JsonCompletion(b, parse, messages)
  {
    if b.config.hasOpenAIKey {
      var request := OpenAIRequest(ToOpenAIFormat(messages), true);
      calls := [ToOpenAI(request)];
      var failure: AIError;
      match b.openAI(request) {
        case Ok(content) =>
          var text := OpenAIJsonText(content);
          match parse(text) {
            case Some(v) =>
              assert !CallsGemini(calls);
              return Ok(v), calls;
            case None =>
              failure := ParseFailed(text);
          }
        case Err(e) =>
          failure := Failed(e);
      }
      if b.config.hasGeminiKey {
        var more;
        r, more := GeminiChatCompletionJSON(b, parse, messages);
        calls := calls + more;
        assert calls[1].ToGemini?;
      } else {
        r := Err(failure);
        assert !CallsGemini(calls);
      }
    } else if b.config.hasGeminiKey {
      r, calls := GeminiChatCompletionJSON(b, parse, messages);
    } else {
      r, calls := Err(Unconfigured(NoServiceMessage)), [];
    }
  }
}
