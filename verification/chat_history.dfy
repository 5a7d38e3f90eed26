/** The instance side of `ChatBot` (src/siliconFlow/chatBot.ts): the request
    parameters of one conversation and its message history, whose element 0
    is reserved for the system prompt. */
module ChatHistory {
  import opened Wrappers
  import opened JsStrings

  datatype Role = System | User | Assistant

  datatype Message = Message(role: Role, content: string)

  /** Appended to the configured API endpoint to form the request URL. */
  const CompletionsPath: string := "/chat/completions"

  /** Field initialisers of the class. */
  const DefaultMaxTokens: int := 2048
  const DefaultTemperature: real := 0.7

  /** One conversation handle. `endpoint` is the full completions URL. */
  datatype Bot = Bot(
    endpoint: string,
    apiKey: string,
    model: string,
    maxTokens: int,
    temperature: real,
    history: seq<Message>)

  /** The history of every bot the plugin can reach is non-empty. */
  predicate Valid(b: Bot) {
    |b.history| > 0
  }

  function Min(a: int, b: int): int {
    if a < b then a else b
  }

  // ---------------------------------------------------------------------
  // construction and the system prompt
  // ---------------------------------------------------------------------

  /** The constructor: a single empty system message, so that a fresh bot
      offers the empty string as its own system prompt. */
  function NewBot(apiEndpoint: string, apiKey: string, model: string): (b: Bot)
    ensures Valid(b) && |b.history| == 1
    ensures GetSystemPrompt(b) == Some("") && !Truthy(GetSystemPrompt(b))
    ensures b.endpoint == apiEndpoint + CompletionsPath
    ensures b.apiKey == apiKey && b.model == model
    ensures b.maxTokens == DefaultMaxTokens && b.temperature == DefaultTemperature
  {
    Bot(apiEndpoint + CompletionsPath, apiKey, model, DefaultMaxTokens, DefaultTemperature,
        [Message(System, "")])
  }

  datatype BotError = BlankPrompt

  /** `setSystemPrompt`: refuses a missing or blank prompt; otherwise puts a
      system message with the prompt at index 0, replacing what was there
      (or filling an empty history), and touches nothing else. */
  function SetSystemPrompt(b: Bot, prompt: Option<string>): (r: Result<Bot, BotError>)
    ensures r.Failure? <==> prompt.None? || IsBlank(prompt.value)
    ensures r.Success? ==> Valid(r.value) && GetSystemPrompt(r.value) == prompt
    ensures r.Success? ==> |r.value.history| == (if |b.history| == 0 then 1 else |b.history|)
    ensures r.Success? ==> forall i :: 1 <= i < |b.history| ==> r.value.history[i] == b.history[i]
    ensures r.Success? ==> r.value == b.(history := r.value.history)
  {
    if prompt.None? || Trim(prompt.value) == "" then Failure(BlankPrompt)
    else
      var tail := if |b.history| == 0 then [] else b.history[1..];
      Success(b.(history := [Message(System, prompt.value)] + tail))
  }

  /** `getSystemPrompt`: the content of element 0, but only when it is a
      system message. */
  function GetSystemPrompt(b: Bot): (r: Option<string>)
    ensures r.Some? <==> |b.history| > 0 && b.history[0].role == System
    ensures r.Some? ==> r.value == b.history[0].content
  {
    if |b.history| > 0 && b.history[0].role == System then Some(b.history[0].content) else None
  }

  // ---------------------------------------------------------------------
  // appending and trimming
  // ---------------------------------------------------------------------

  /** `xs.slice(start)` on an array (section 23.1.3.28 of ECMA-262): a
      negative start counts from the end and is clamped at 0. */
  function Slice<T>(xs: seq<T>, start: int): (r: seq<T>)
    ensures start < 0 ==> |r| == Min(-start, |xs|)
    ensures start >= 0 ==> |r| == |xs| - Min(start, |xs|)
    ensures r == xs[|xs| - |r|..]
  {
    var k := if start < 0 then (if |xs| + start < 0 then 0 else |xs| + start)
             else (if start > |xs| then |xs| else start);
    xs[k..]
  }

  /** `collateHistory` as written: once the history is longer than
      `maxHistory - 2`, it becomes the old element 0 followed by the LAST
      `maxHistory + 3` elements of the old history (element 0 included when
      it is among them). */
  function Collate(h: seq<Message>, maxHistory: nat): (r: seq<Message>)
    requires |h| > 0
    ensures |r| > 0 && r[0] == h[0]
    ensures |h| <= maxHistory - 2 ==> r == h
    ensures |h| > maxHistory - 2 ==> r[1..] == h[|h| - Min(|h|, maxHistory + 3)..]
  {
    if |h| > maxHistory - 2 then [h[0]] + Slice(h, KeepFrom(maxHistory)) else h
  }

  /** The slice start `-maxHistory - 3` of `collateHistory`. */
  function KeepFrom(maxHistory: nat): int {
    -(maxHistory as int) - 3
  }

  /** `addUserPrompt`: one user message appended, then the history collated. */
  function AddUserPrompt(b: Bot, text: string, maxHistory: nat): (r: Bot)
    ensures r.history == Collate(b.history + [Message(User, text)], maxHistory)
    ensures Valid(r) && r.history[|r.history| - 1] == Message(User, text)
    ensures |b.history| > 0 ==> r.history[0] == b.history[0]
    ensures |r.history| <= maxHistory + 4
    ensures r == b.(history := r.history)
  {
    var h := b.history + [Message(User, text)];
    var c := Collate(h, maxHistory);
    assert c[|c| - 1] == h[|h| - 1];
    assert |c| <= maxHistory + 4;
    b.(history := c)
  }

  /** The history part of `sendMessageWithHistory`: the same append and
      collate as `addUserPrompt`; the request carries the collated history.
      The reply is never added to the history. */
  function SendWithHistory(b: Bot, input: string, maxHistory: nat): (r: (Bot, seq<Message>))
    ensures r.0 == AddUserPrompt(b, input, maxHistory)
    ensures r.1 == r.0.history && r.1[|r.1| - 1] == Message(User, input)
  {
    var b' := AddUserPrompt(b, input, maxHistory);
    (b', b'.history)
  }

  /** The request of `sendMessage`: the input alone, no history. */
  function SendWithoutHistory(input: string): (request: seq<Message>)
    ensures |request| == 1 && request[0].role == User && request[0].content == input
  {
    [Message(User, input)]
  }

  /** `clearHistory`: only element 0 survives. */
  function ClearHistory(b: Bot): (r: Bot)
    requires Valid(b)
    ensures Valid(r) && |r.history| == 1 && r.history[0] == b.history[0]
    ensures GetSystemPrompt(r) == GetSystemPrompt(b)
    ensures r == b.(history := r.history)
  {
    b.(history := [b.history[0]])
  }

  // ---------------------------------------------------------------------
  // properties of collateHistory
  // ---------------------------------------------------------------------

  /** The length after collation: unchanged up to `maxHistory - 2`, then one
      more than the number of retained tail elements. */
  lemma CollateLength(h: seq<Message>, maxHistory: nat)
    requires |h| > 0
    ensures |Collate(h, maxHistory)| ==
            if |h| <= maxHistory - 2 then |h| else 1 + Min(|h|, maxHistory + 3)
  {
  }

  /** The retention window is larger than the trigger: for a history of
      `maxHistory - 1` to `maxHistory + 3` elements nothing is dropped,
      element 0 is duplicated and the history GROWS by one. */
  lemma CollateDuplicatesHead(h: seq<Message>, maxHistory: nat)
    requires |h| > 0
    requires maxHistory - 2 < |h| <= maxHistory + 3
    ensures Collate(h, maxHistory) == [h[0]] + h
    ensures |Collate(h, maxHistory)| == |h| + 1
    ensures Collate(h, maxHistory)[1] == h[0]
  {
    assert Slice(h, KeepFrom(maxHistory)) == h;
  }

  /** Collation is not idempotent: in the growing band, collating twice adds
      yet another copy of element 0. */
  lemma CollateNotIdempotent(h: seq<Message>, maxHistory: nat)
    requires |h| > 0
    requires maxHistory - 2 < |h| < maxHistory + 3
    ensures |Collate(Collate(h, maxHistory), maxHistory)| == |Collate(h, maxHistory)| + 1
    ensures Collate(Collate(h, maxHistory), maxHistory) != Collate(h, maxHistory)
  {
    CollateDuplicatesHead(h, maxHistory);
    var c := Collate(h, maxHistory);
    CollateDuplicatesHead(c, maxHistory);
  }

  /** Appending to a history of `maxHistory - 2` to `maxHistory + 2`
      messages keeps all of them and repeats element 0 at index 1. */
  lemma AddUserDuplicatesSystem(b: Bot, text: string, maxHistory: nat)
    requires Valid(b)
    requires maxHistory - 2 < |b.history| + 1 <= maxHistory + 3
    ensures AddUserPrompt(b, text, maxHistory).history
            == [b.history[0]] + b.history + [Message(User, text)]
  {
    CollateDuplicatesHead(b.history + [Message(User, text)], maxHistory);
  }

  /** Once the history has reached `maxHistory + 4` messages, each append
      drops the two oldest messages and puts element 0 back in front: a
      window of `maxHistory + 3` messages after the head. */
  lemma AddUserSteadyState(b: Bot, text: string, maxHistory: nat)
    requires |b.history| == maxHistory + 4
    ensures AddUserPrompt(b, text, maxHistory).history
            == [b.history[0]] + b.history[2..] + [Message(User, text)]
  {
    var h := b.history + [Message(User, text)];
    assert h[2..] == b.history[2..] + [Message(User, text)];
  }

  /** Clearing after an append gives what clearing before it gives: the
      appended message is forgotten and element 0 kept. */
  lemma ClearForgetsAppend(b: Bot, text: string, maxHistory: nat)
    requires Valid(b)
    ensures ClearHistory(AddUserPrompt(b, text, maxHistory)) == ClearHistory(b)
  {
  }

  /** Several appends in a row, as `collectMessage` performs them. */
  function AppendAll(b: Bot, texts: seq<string>, maxHistory: nat): Bot
    decreases |texts|
  {
    if |texts| == 0 then b else AppendAll(AddUserPrompt(b, texts[0], maxHistory), texts[1..], maxHistory)
  }

  /** After any sequence of appends, element 0 is still the original
      element 0 (so a system message stays at the head), the bot's other
      fields are unchanged and, after at least one append, the history has
      at most `maxHistory + 4` messages. */
  lemma {:induction false} AppendsKeepHead(b: Bot, texts: seq<string>, maxHistory: nat)
    requires Valid(b)
    ensures Valid(AppendAll(b, texts, maxHistory))
    ensures AppendAll(b, texts, maxHistory).history[0] == b.history[0]
    ensures AppendAll(b, texts, maxHistory) == b.(history := AppendAll(b, texts, maxHistory).history)
    ensures |texts| > 0 ==> |AppendAll(b, texts, maxHistory).history| <= maxHistory + 4
    ensures |texts| > 0 ==> AppendAll(b, texts, maxHistory).history[|AppendAll(b, texts, maxHistory).history| - 1]
                            == Message(User, texts[|texts| - 1])
    decreases |texts|
  {
    if |texts| > 0 {
      var b' := AddUserPrompt(b, texts[0], maxHistory);
      AppendsKeepHead(b', texts[1..], maxHistory);
      if |texts| > 1 {
        assert texts[1..][|texts[1..]| - 1] == texts[|texts| - 1];
      }
    }
  }
}
