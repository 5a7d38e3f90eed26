/** Response normalisation of `ChatBot` (`_handleResponse` in
    src/siliconFlow/chatBot.ts). The HTTP exchange itself is an input: the
    status line, and the fields of the JSON body the plugin reads. */
module Completion {
  import opened Wrappers
  import opened JsStrings

  datatype Usage = Usage(promptTokens: nat, completionTokens: nat)

  /** The parts of a chat-completions body that are read:
      `choices[0].message.content`, `choices[0].message.reasoning_content`
      and `usage`. A missing choice is a missing content. */
  datatype Envelope = Envelope(content: Option<string>, reasoning: Option<string>, usage: Option<Usage>)

  /** `Unreadable` is a body on which `response.json()` rejects. */
  datatype Body = Json(envelope: Envelope) | Unreadable

  datatype HttpResponse = HttpResponse(status: int, statusText: string, body: Body)

  /** What `_sendApiRequest` hands over: the response and the elapsed
      milliseconds. */
  datatype ApiResponse = ApiResponse(response: HttpResponse, duration: nat)

  /** The response `_sendApiRequest` substitutes when `fetch` throws: status
      500, no status text. */
  function TransportFailure(duration: nat): (api: ApiResponse)
    ensures api.response.status == 500 && api.response.statusText == ""
    ensures api.duration == duration
  {
    ApiResponse(HttpResponse(500, "", Unreadable), duration)
  }

  /** The outcome of `JSON.parse` on the reply text: it throws, it yields a
      non-null non-array object (with or without a `userContent` key), or
      it yields any other JSON value. */
  datatype Parsed = NotJson | JsonObject(userContent: Option<string>) | JsonOther

  datatype UseInfo = UseInfo(promptTokens: nat, completionTokens: nat, totalTokens: nat)

  /** `ChatBotResponseMessage`. */
  datatype Reply = Reply(commonResponse: string, jsonResponse: Option<string>, useInfo: Option<UseInfo>)

  /** Exceptions `_handleResponse` lets escape. */
  datatype HandleError = BodyNotJson | UsageMissing

  /** `Returned(None)` is the `undefined` the method falls off the end with
      when the reply has no content. */
  datatype Outcome = Returned(reply: Option<Reply>) | Threw(error: HandleError)

  const ApologyPrefix: string := "抱歉，请求时出现异常;"
  const UnknownErrorText: string := "未知错误类型"
  const TruncateAt: nat := 300
  const Ellipsis: string := "..."

  /** The `commonResponse` of a non-200 response. */
  function Apology(statusText: string): (r: string)
    ensures |r| > |ApologyPrefix| && r[..|ApologyPrefix|] == ApologyPrefix
    ensures r[|ApologyPrefix|..] == if statusText == "" then UnknownErrorText else statusText
  {
    ApologyPrefix + (if statusText != "" then statusText else UnknownErrorText)
  }

  /** The fallback for reply text that is not JSON: the text itself up to
      300 characters, else its first 300 characters and an ellipsis. */
  function Truncate(s: string): (r: string)
    ensures |s| <= TruncateAt ==> r == s
    ensures |s| > TruncateAt ==> |r| == TruncateAt + |Ellipsis| && r == s[..TruncateAt] + Ellipsis
  {
    if |s| <= TruncateAt then s else s[..TruncateAt] + Ellipsis
  }

  /** `jsonResponse`, from the reply text and what parsing it gave. */
  function JsonResponse(content: string, parsed: Parsed): (r: Option<string>)
    ensures parsed.JsonObject? ==> r == parsed.userContent
    ensures parsed.JsonOther? ==> r == None
    ensures parsed.NotJson? ==> r == Some(Truncate(content))
  {
    match parsed
    case NotJson => Some(Truncate(content))
    case JsonObject(u) => u
    case JsonOther => None
  }

  const ReportRule: string := "----------\n"

  /** The reasoning in brackets and the rule under it. */
  function ReportHead(reasoning: Option<string>): string {
    "助手思考: [" + Show(reasoning) + "]\n\n" + ReportRule
  }

  /** The `commonResponse` of a successful reply: the reasoning in brackets,
      a rule, the reply text, then the usage figures and the duration. */
  function Report(reasoning: Option<string>, content: string, usage: Usage, total: nat, duration: nat): (r: string)
    ensures |r| > |content|
    // the reply text stands verbatim right after the rule that closes the reasoning
    ensures var head := ReportHead(reasoning);
            && |head| + |content| < |r| && r[..|head|] == head && r[|head|..|head| + |content|] == content
            && head[|head| - |ReportRule|..] == ReportRule
  {
    ReportHead(reasoning)
    + content + "\n\n"
    + "问题用量: " + NatToString(usage.promptTokens)
    + " | 回复用量: " + NatToString(usage.completionTokens)
    + " | 总用量: " + NatToString(total)
    + " | 消耗时间: " + NatToString(duration) + "ms"
  }

  /** `_handleResponse`. `parse` stands for `JSON.parse`. The `!ok` branch
      after the status check cannot be taken (status 200 is ok) and is not
      modelled. */
  function HandleResponse(api: ApiResponse, parse: string -> Parsed): (r: Outcome)
    // a non-200 status: only the apology, nothing parsed or counted
    ensures api.response.status != 200 ==> r == Returned(Some(Reply(Apology(api.response.statusText), None, None)))
    // status 200: the body must be JSON
    ensures api.response.status == 200 && api.response.body.Unreadable? ==> r == Threw(BodyNotJson)
    // status 200, no reply text: the method returns nothing
    ensures api.response.status == 200 && api.response.body.Json? && !Truthy(api.response.body.envelope.content)
            ==> r == Returned(None)
    // status 200 with reply text but no usage: reading `usage` throws
    ensures (&& api.response.status == 200 && api.response.body.Json?
             && Truthy(api.response.body.envelope.content) && api.response.body.envelope.usage.None?)
            ==> r == Threw(UsageMissing)
    // a full reply: its json part and usage figures
    ensures api.response.status == 200 && r.Returned? && r.reply.Some? ==>
              var env := api.response.body.envelope;
              && api.response.body.Json? && Truthy(env.content) && env.usage.Some?
              && r.reply.value.jsonResponse == JsonResponse(env.content.value, parse(env.content.value))
              && r.reply.value.useInfo == Some(UseInfo(env.usage.value.promptTokens, env.usage.value.completionTokens,
                                                       env.usage.value.promptTokens + env.usage.value.completionTokens))
    // status 200 with reply text and usage: always a full reply, never an apology
    ensures (&& api.response.status == 200 && api.response.body.Json?
             && Truthy(api.response.body.envelope.content) && api.response.body.envelope.usage.Some?) ==>
              var env := api.response.body.envelope;
              var usage := env.usage.value;
              r == Returned(Some(Reply(
                     Report(env.reasoning, env.content.value, usage, usage.promptTokens + usage.completionTokens, api.duration),
                     JsonResponse(env.content.value, parse(env.content.value)),
                     Some(UseInfo(usage.promptTokens, usage.completionTokens, usage.promptTokens + usage.completionTokens)))))
  {
    var resp := api.response;
    if resp.status != 200 then
      Returned(Some(Reply(Apology(resp.statusText), None, None)))
    else if resp.body.Unreadable? then
      Threw(BodyNotJson)
    else
      var env := resp.body.envelope;
      if !Truthy(env.content) then
        Returned(None)
      else if env.usage.None? then
        Threw(UsageMissing)
      else
        var content := env.content.value;
        var usage := env.usage.value;
        var total := usage.promptTokens + usage.completionTokens;
        Returned(Some(Reply(
          Report(env.reasoning, content, usage, total, api.duration),
          JsonResponse(content, parse(content)),
          Some(UseInfo(usage.promptTokens, usage.completionTokens, total)))))
  }

  // ---------------------------------------------------------------------
  // properties
  // ---------------------------------------------------------------------

  /** Nothing is parsed unless the status is 200 and there is reply text:
      the outcome does not depend on the parser at all. */
  lemma NoParseWithoutContent(api: ApiResponse, parse1: string -> Parsed, parse2: string -> Parsed)
    requires api.response.status != 200 || api.response.body.Unreadable?
             || !Truthy(api.response.body.envelope.content)
    ensures HandleResponse(api, parse1) == HandleResponse(api, parse2)
  {
  }

  /** A failed transport yields the generic apology. */
  lemma TransportFailureApology(duration: nat, parse: string -> Parsed)
    ensures HandleResponse(TransportFailure(duration), parse)
            == Returned(Some(Reply(ApologyPrefix + UnknownErrorText, None, None)))
  {
  }

  /** Truncating twice is truncating once: a truncated text is exactly 303
      characters long and starts with the same 300. */
  lemma TruncateIdempotent(s: string)
    ensures Truncate(Truncate(s)) == Truncate(s)
    ensures |Truncate(s)| <= TruncateAt + |Ellipsis|
  {
    if |s| > TruncateAt {
      var t := Truncate(s);
      assert t[..TruncateAt] == s[..TruncateAt];
    }
  }

  /** Whenever the reply text is not JSON, `jsonResponse` is present and
      non-empty, so both the forward message and the separate message are
      sent. */
  lemma NotJsonAlwaysEchoed(content: string)
    requires content != ""
    ensures JsonResponse(content, NotJson).Some?
    ensures Truthy(JsonResponse(content, NotJson))
  {
  }
}
