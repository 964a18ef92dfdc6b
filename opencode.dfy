/** `generateResponse` of the gateway (apps/gateway/src/opencode.ts): builds
    the system prompt from a template and the search context, opens an
    opencode session, sends the prompt and extracts the reply text. The two
    SDK calls are inputs, as functions from request to result; the prompt
    template file's text is a parameter, and so is the number formatting
    `toFixed(1)` of a relevance score. */
module Opencode {

  import opened JsValues
  import opened JsStrings
  import opened SemsearchClient

  const NoContextText := "No similar conversations found."
  const ContextPlaceholder := "{context}"
  const TitlePrefix := "Discord message: "
  const TitleLength := 50
  const UnknownError := "Unknown error"

  /** One context entry: its 1-based number, the formatted relevance, then
      the snippet on its own line. */
  function ContextEntry(idx: nat, item: SearchResult, formatPercent: real -> string): (r: string)
    ensures var tag := "[" + DecimalText(idx + 1) + "]";
      |r| > |tag| && r[..|tag|] == tag
    ensures |r| > |item.text| && r[|r| - |item.text| - 1..] == "\n" + item.text
  {
    var tag := "[" + DecimalText(idx + 1) + "]";
    var middle := " (relevance: " + formatPercent(item.score * 100.0) + "%)";
    var r := tag + middle + "\n" + item.text;
    assert r == tag + (middle + "\n" + item.text);
    assert r == (tag + middle) + ("\n" + item.text);
    r
  }

  function ContextEntries(context: seq<SearchResult>, formatPercent: real -> string): (r: seq<string>)
    ensures |r| == |context|
    ensures forall k :: 0 <= k < |r| ==> r[k] == ContextEntry(k, context[k], formatPercent)
  {
    seq(|context|, k requires 0 <= k < |context| => ContextEntry(k, context[k], formatPercent))
  }

  /** The context block of the system prompt. */
  function ContextText(context: seq<SearchResult>, formatPercent: real -> string): (r: string)
    ensures context == [] ==> r == NoContextText
  {
    if |context| > 0 then Join(ContextEntries(context, formatPercent), "\n\n") else NoContextText
  }

  /** With one item the block is that item's entry numbered 1. */
  lemma ContextTextSingle(item: SearchResult, formatPercent: real -> string)
    ensures ContextText([item], formatPercent) == ContextEntry(0, item, formatPercent)
  {
  }

  /** One more item adds a blank line and its entry, numbered one past the
      items before it: the entries appear in context order, numbered from 1. */
  lemma ContextTextSnoc(context: seq<SearchResult>, item: SearchResult, formatPercent: real -> string)
    requires context != []
    ensures ContextText(context + [item], formatPercent)
            == ContextText(context, formatPercent) + "\n\n" + ContextEntry(|context|, item, formatPercent)
  {
    var entries := ContextEntries(context, formatPercent);
    assert ContextEntries(context + [item], formatPercent) == entries + [ContextEntry(|context|, item, formatPercent)];
    JoinSnoc(entries, ContextEntry(|context|, item, formatPercent), "\n\n");
  }

  /** The system prompt: the first `{context}` of the template replaced by
      the context block (the template's own later placeholders stay). */
  function SystemPrompt(template: string, contextText: string): (r: string)
    ensures IndexOf(template, ContextPlaceholder).None? ==> r == template
    ensures IndexOf(template, ContextPlaceholder).Some? ==>
      var i := IndexOf(template, ContextPlaceholder).value;
      && |r| == |template| - |ContextPlaceholder| + |contextText|
      && r[..i] == template[..i]
      && r[i..i + |contextText|] == contextText
      && r[i + |contextText|..] == template[i + |ContextPlaceholder|..]
  {
    ReplaceFirst(template, ContextPlaceholder, contextText)
  }

  /** The session title: the prefix, at most the first 50 characters of
      the message, and "..." even when nothing was cut. */
  function SessionTitle(message: string): (r: string)
    ensures |r| == |TitlePrefix| + (if |message| < TitleLength then |message| else TitleLength) + 3
    ensures r[..|TitlePrefix|] == TitlePrefix && r[|r| - 3..] == "..."
    ensures |message| <= TitleLength ==> r == TitlePrefix + message + "..."
    ensures |message| > TitleLength ==> r[|TitlePrefix|..|TitlePrefix| + TitleLength] == message[..TitleLength]
  {
    TitlePrefix + Prefix(message, TitleLength) + "..."
  }

  /** A part of the prompt: `{ type: "text", text }`. */
  datatype PromptPart = TextInput(text: string)

  /** The two prompt parts: the system prompt, then the user's message. */
  function PromptParts(systemPrompt: string, message: string): (r: seq<PromptPart>)
    ensures |r| == 2 && r[0].text == systemPrompt && r[1].text == "User: " + message
  {
    [TextInput(systemPrompt), TextInput("User: " + message)]
  }

  /** A part of the reply: text, or any other kind the SDK reports. */
  datatype ResponsePart = TextPart(text: string) | OtherPart(kind: string)

  /** The `filter` to text parts and the `map` to their text. */
  function TextsOf(parts: seq<ResponsePart>): (r: seq<string>)
    ensures |r| <= |parts|
    ensures forall t :: t in r ==> TextPart(t) in parts
    ensures forall k :: 0 <= k < |parts| && parts[k].TextPart? ==> parts[k].text in r
  {
    if parts == [] then []
    else (if parts[0].TextPart? then [parts[0].text] else []) + TextsOf(parts[1..])
  }

  /** A text part contributes its text; any other part contributes
      nothing. */
  lemma TextsOfSingle(p: ResponsePart)
    ensures TextsOf([p]) == if p.TextPart? then [p.text] else []
  {
  }

  /** Only text parts contribute, in order. */
  lemma {:induction false} TextsOfAppend(a: seq<ResponsePart>, b: seq<ResponsePart>)
    ensures TextsOf(a + b) == TextsOf(a) + TextsOf(b)
  {
    if a == [] {
      assert a + b == b;
    } else {
      assert (a + b)[1..] == a[1..] + b;
      TextsOfAppend(a[1..], b);
    }
  }

  /** Joining with a non-empty separator gives "" only for no part or a
      single empty part. */
  lemma {:induction false} JoinEmpty(parts: seq<string>, sep: string)
    requires sep != ""
    ensures Join(parts, sep) == "" <==> parts == [] || parts == [""]
  {
    if |parts| > 1 {
      assert |Join(parts, sep)| >= |sep|;
    }
  }

  /** The reply text: the text parts joined by line breaks. It is empty,
      and therefore an error, exactly when there is no text part or one
      text part that is empty; two empty text parts give "\n", which counts
      as a reply. It starts with the first text part. */
  function ResponseText(parts: seq<ResponsePart>): (r: string)
    ensures r == "" <==> TextsOf(parts) == [] || TextsOf(parts) == [""]
    ensures TextsOf(parts) != [] ==> var first := TextsOf(parts)[0]; |first| <= |r| && r[..|first|] == first
  {
    JoinEmpty(TextsOf(parts), "\n");
    Join(TextsOf(parts), "\n")
  }

  /** A later text part adds a line break and its text to the reply (or
      is the whole reply when it is the first text part); any other kind of
      part leaves the reply as it is. */
  lemma ResponseTextSnoc(parts: seq<ResponsePart>, p: ResponsePart)
    ensures p.OtherPart? ==> ResponseText(parts + [p]) == ResponseText(parts)
    ensures p.TextPart? && TextsOf(parts) == [] ==> ResponseText(parts + [p]) == p.text
    ensures p.TextPart? && TextsOf(parts) != [] ==> ResponseText(parts + [p]) == ResponseText(parts) + "\n" + p.text
  {
    TextsOfAppend(parts, [p]);
    TextsOfSingle(p);
    if p.OtherPart? {
      assert TextsOf(parts + [p]) == TextsOf(parts) + [];
      assert TextsOf(parts) + [] == TextsOf(parts);
    } else if TextsOf(parts) != [] {
      JoinSnoc(TextsOf(parts), p.text, "\n");
    }
  }

  /** The result of an SDK call: `error` and `data`, either may be absent.
      `error` holds the error's JSON text. */
  datatype ApiResult<T> = ApiResult(error: Option<string>, data: Option<T>)

  predicate Succeeded<T>(r: ApiResult<T>) {
    r.error.None? && r.data.Some?
  }

  /** `JSON.stringify(error) || "Unknown error"`. */
  function ErrorDetail(error: Option<string>): (r: string)
    ensures r != ""
    ensures error.Some? && error.value != "" ==> r == error.value
    ensures !(error.Some? && error.value != "") ==> r == UnknownError
  {
    if error.Some? && error.value != "" then error.value else UnknownError
  }

  datatype Session = Session(id: string)
  datatype PromptRequest = PromptRequest(sessionId: string, parts: seq<PromptPart>)

  datatype GenerateError =
    | SessionCreateFailed(detail: string)
    | PromptFailed(detail: string)
    | NoTextResponse

  /** The message of the `Error` thrown for each failure. */
  function ErrorMessage(e: GenerateError): (r: string)
    ensures r != ""
  {
    match e
    case SessionCreateFailed(detail) => "Failed to create session: " + detail
    case PromptFailed(detail) => "Failed to generate response: " + detail
    case NoTextResponse => "No text response received from opencode"
  }

  /** The message tells the failures apart, and gives back the detail of
      a failed call. */
  lemma ErrorMessageInjective(e1: GenerateError, e2: GenerateError)
    requires ErrorMessage(e1) == ErrorMessage(e2)
    ensures e1 == e2
  {
    var m := ErrorMessage(e1);
    if e1.SessionCreateFailed? || e1.PromptFailed? {
      assert m[0] == 'F';
      assert m[10] == if e1.SessionCreateFailed? then 'c' else 'g';
    } else {
      assert m[0] == 'N';
    }
    if e2.SessionCreateFailed? || e2.PromptFailed? {
      assert m[0] == 'F';
      assert m[10] == if e2.SessionCreateFailed? then 'c' else 'g';
    } else {
      assert m[0] == 'N';
    }
    if e1.SessionCreateFailed? && e2.SessionCreateFailed? {
      assert e1.detail == m[26..] == e2.detail;
    } else if e1.PromptFailed? && e2.PromptFailed? {
      assert e1.detail == m[29..] == e2.detail;
    }
  }

  /** What `generateResponse` did: the title it opened a session with, the
      prompt it sent (if it got that far), and its result or error. */
  datatype Exchange = Exchange(title: string, prompt: Option<PromptRequest>, outcome: Result<string, GenerateError>)

  /** `generateResponse`. A failed session create stops before any prompt;
      otherwise exactly one prompt goes to the new session with the two
      parts; the result is the reply text when it is non-empty, and an
      error in every other case. */
  function GenerateResponse(
    message: string,
    context: seq<SearchResult>,
    template: string,
    formatPercent: real -> string,
    createSession: string -> ApiResult<Session>,
    prompt: PromptRequest -> ApiResult<seq<ResponsePart>>
  ): (r: Exchange)
    ensures r.title == SessionTitle(message)
    ensures var created := createSession(SessionTitle(message));
      && (r.prompt.None? <==> !Succeeded(created))
      && (!Succeeded(created) ==> r.outcome == Err(SessionCreateFailed(ErrorDetail(created.error))))
      && (Succeeded(created) ==> r.prompt == Some(PromptRequest(created.data.value.id,
            PromptParts(SystemPrompt(template, ContextText(context, formatPercent)), message))))
    ensures r.prompt.Some? ==>
      var reply := prompt(r.prompt.value);
      && (!Succeeded(reply) ==> r.outcome == Err(PromptFailed(ErrorDetail(reply.error))))
      && (Succeeded(reply) && ResponseText(reply.data.value) == "" ==> r.outcome == Err(NoTextResponse))
      && (Succeeded(reply) && ResponseText(reply.data.value) != "" ==> r.outcome == Ok(ResponseText(reply.data.value)))
    ensures r.outcome.Ok? ==> r.outcome.value != ""
  {
    var systemPrompt := SystemPrompt(template, ContextText(context, formatPercent));
    var title := SessionTitle(message);
    var created := createSession(title);
    if !Succeeded(created) then
      Exchange(title, None, Err(SessionCreateFailed(ErrorDetail(created.error))))
    else
      var request := PromptRequest(created.data.value.id, PromptParts(systemPrompt, message));
      var reply := prompt(request);
      if !Succeeded(reply) then
        Exchange(title, Some(request), Err(PromptFailed(ErrorDetail(reply.error))))
      else
        var text := ResponseText(reply.data.value);
        if text == "" then Exchange(title, Some(request), Err(NoTextResponse))
        else Exchange(title, Some(request), Ok(text))
  }
}
