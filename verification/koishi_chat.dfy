/** `KoishiChat` (src/service/KoishiChat.tsx): the `chat`, `chatnh` and
    `chat-clear` commands and the message-collecting middleware, as their
    effect on the conversation registry and the quota ledger. The completion
    exchange is an input; rendering and sending messages are left out. */
module KoishiChat {
  import opened Wrappers
  import opened JsStrings
  import opened PluginConfig
  import opened ChatHistory
  import opened Completion
  import opened SessionRegistry
  import TokenService

  /** The fields of a Koishi session the handlers read. `selfId` is the
      bot's own user id. */
  datatype Session = Session(guildId: string, platform: string, userId: string, userName: string,
                             selfId: string, content: string)

  /** The plugin's state: conversations and quota ledger. */
  datatype World = World(reg: Registry, ledger: TokenService.Ledger)

  /** The text sent to the model for a `chat`/`chatnh` message: plain
      interpolation, nothing escaped. */
  function ChatPayload(nick: string, message: string): (r: string)
    ensures |r| == |nick| + |message| + 33
    ensures r[13..13 + |nick|] == nick
    ensures r[31 + |nick|..|r| - 2] == message
  {
    "{\"userName\":\"" + nick + "\", \"userContent\":\"" + message + "\"}"
  }

  /** The text `collectMessage` records for an ordinary group message. */
  function CollectPayload(nick: string, content: string): (r: string)
    ensures |r| == |nick| + |content| + 36
    ensures r[15..15 + |nick|] == nick
    ensures r[33 + |nick|..|r| - 3] == content
  {
    "{ \"userName\": \"" + nick + "\",\"userContent\": \"" + content + "\" }"
  }

  /** The refusal `chat` sends over quota; the nickname stays in braces. */
  function DenialText(nick: string): (r: string)
    ensures |r| > |nick| + 2 && r[0] == '{' && r[1..1 + |nick|] == nick && r[1 + |nick|] == '}'
  {
    "{" + nick + "}: token用量达到上限"
  }

  /** The report of `chat-clear`. */
  function ClearReport(removed: nat): (r: string)
    ensures |r| > 8 && ParseCanonicalNat(r[3..|r| - 5]) == Some(removed)
  {
    var digits := NatToString(removed);
    var r := "清除了" + digits + "条聊天记录";
    assert r[3..|r| - 5] == digits;
    CanonicalNatRoundTrip(removed, digits);
    r
  }

  /** `totalTokens` when it is truthy: present and not 0. */
  function ChargeFor(outcome: Outcome): (r: Option<nat>)
    ensures r.Some? <==> (&& outcome.Returned? && outcome.reply.Some? && outcome.reply.value.useInfo.Some?
                          && outcome.reply.value.useInfo.value.totalTokens != 0)
    ensures r.Some? ==> r.value == outcome.reply.value.useInfo.value.totalTokens
  {
    if outcome.Returned? && outcome.reply.Some? && outcome.reply.value.useInfo.Some?
       && outcome.reply.value.useInfo.value.totalTokens != 0
    then Some(outcome.reply.value.useInfo.value.totalTokens)
    else None
  }

  /** The charging step after a completion: the user is read again (which
      writes nothing, the gate already created the row) and charged only for
      a truthy total. A missing reply or an exception ends the action before
      this point. */
  function Settle(ledger: TokenService.Ledger, userId: string, outcome: Outcome): (r: TokenService.Ledger)
    ensures outcome == Returned(None) || outcome.Threw? ==> r == ledger
    ensures outcome.Returned? && outcome.reply.Some? ==>
              var before := TokenService.GetUser(ledger, userId).1;
              && r.Keys == ledger.Keys + {userId}
              && r[userId].maxToken == before.maxToken
              && r[userId].useToken == before.useToken + (if ChargeFor(outcome).Some? then ChargeFor(outcome).value else 0)
              && forall u :: u in ledger && u != userId ==> r[u] == ledger[u]
  {
    if outcome == Returned(None) || outcome.Threw? then ledger
    else
      var l := TokenService.GetUser(ledger, userId).0;
      match ChargeFor(outcome)
      case Some(t) => TokenService.AddUserUseToken(l, userId, t)
      case None => l
  }

  /** What a `chat` or `chatnh` invocation did: the lookup threw, the user
      was refused, or one request went out and this came back. */
  datatype ChatResult = LookupFailed(error: BotError) | Denied(text: string) | Sent(request: seq<Message>, outcome: Outcome)

  /** The part of the `chat` action after the lookup, given the registry
      the lookup left and the bot it returned: gate on quota, append the
      payload to the history and send it, then charge. */
  function Converse(ledger: TokenService.Ledger, reg: Registry, bot: Bot, maxHistory: nat, s: Session,
                    message: string, reply: ApiResponse, parse: string -> Parsed): (r: (World, ChatResult))
    ensures r.1.Denied? <==> !TokenService.CheckUserToken(ledger, s.userId).1
    ensures r.1.Denied? ==> r == (World(reg, TokenService.CheckUserToken(ledger, s.userId).0), Denied(DenialText(s.userName)))
    ensures !r.1.Denied? ==> r.1.Sent?
    // the request is the bot's history with the payload appended (then collated), and it is what the cache keeps
    ensures r.1.Sent? ==>
              && r.1.request == SendWithHistory(bot, ChatPayload(s.userName, message), maxHistory).1
              && 0 < |r.1.request| <= maxHistory + 4
              && r.1.request[|r.1.request| - 1] == Message(User, ChatPayload(s.userName, message))
              && (Valid(bot) ==> r.1.request[0] == bot.history[0])
              && r.0.reg.cache == reg.cache[s.guildId := bot.(history := r.1.request)]
              && r.0.reg.store == reg.store
    ensures r.1.Sent? ==> r.1.outcome == HandleResponse(reply, parse)
    ensures r.1.Sent? ==> r.0.ledger == Settle(TokenService.CheckUserToken(ledger, s.userId).0, s.userId, r.1.outcome)
  {
    var (ledger1, ok) := TokenService.CheckUserToken(ledger, s.userId);
    if !ok then (World(reg, ledger1), Denied(DenialText(s.userName)))
    else
      var (bot2, request) := SendWithHistory(bot, ChatPayload(s.userName, message), maxHistory);
      var outcome := HandleResponse(reply, parse);
      (World(reg.(cache := reg.cache[s.guildId := bot2]), Settle(ledger1, s.userId, outcome)), Sent(request, outcome))
  }

  /** The `chat` action: the lookup first, so a user who is then refused
      can still have created a conversation. */
  function Chat(world: World, env: Env, s: Session, message: string, reply: ApiResponse,
                parse: string -> Parsed): (r: (World, ChatResult))
    ensures r.1.LookupFailed? <==> GetBot(GuildKeyed, env, world.reg, ChannelKey(s.guildId, s.platform)).Failure?
    ensures r.1.LookupFailed? ==> r.0 == world
    ensures !r.1.LookupFailed? ==>
              var (reg1, bot) := GetBot(GuildKeyed, env, world.reg, ChannelKey(s.guildId, s.platform)).value;
              r == Converse(world.ledger, reg1, bot, env.cfg.detail.maxHistory, s, message, reply, parse)
  {
    var key := ChannelKey(s.guildId, s.platform);
    match GetBot(GuildKeyed, env, world.reg, key)
    case Failure(e) => (world, LookupFailed(e))
    case Success((reg1, bot)) => Converse(world.ledger, reg1, bot, env.cfg.detail.maxHistory, s, message, reply, parse)
  }

  /** The part of the `chatnh` action after the lookup. Its gate negates
      the promise returned by `checkUserToken`, which is never falsy, so
      nobody is refused (the call still runs and may create the user's
      row). The payload is sent alone and no history changes. */
  function ConverseNH(ledger: TokenService.Ledger, reg: Registry, s: Session, message: string,
                      reply: ApiResponse, parse: string -> Parsed): (r: (World, ChatResult))
    ensures r.1.Sent? && r.0.reg == reg
    ensures |r.1.request| == 1 && r.1.request[0] == Message(User, ChatPayload(s.userName, message))
    ensures r.1.outcome == HandleResponse(reply, parse)
    ensures r.0.ledger == Settle(TokenService.GetUser(ledger, s.userId).0, s.userId, r.1.outcome)
  {
    var ledger1 := TokenService.CheckUserToken(ledger, s.userId).0;
    var request := SendWithoutHistory(ChatPayload(s.userName, message));
    var outcome := HandleResponse(reply, parse);
    (World(reg, Settle(ledger1, s.userId, outcome)), Sent(request, outcome))
  }

  /** The `chatnh` action. */
  function ChatNH(world: World, env: Env, s: Session, message: string, reply: ApiResponse,
                  parse: string -> Parsed): (r: (World, ChatResult))
    ensures r.1.LookupFailed? <==> GetBot(GuildKeyed, env, world.reg, ChannelKey(s.guildId, s.platform)).Failure?
    ensures r.1.LookupFailed? ==> r.0 == world
    ensures !r.1.LookupFailed? ==>
              r == ConverseNH(world.ledger, GetBot(GuildKeyed, env, world.reg, ChannelKey(s.guildId, s.platform)).value.0,
                              s, message, reply, parse)
  {
    var key := ChannelKey(s.guildId, s.platform);
    match GetBot(GuildKeyed, env, world.reg, key)
    case Failure(e) => (world, LookupFailed(e))
    case Success((reg1, _)) => ConverseNH(world.ledger, reg1, s, message, reply, parse)
  }

  /** The `chat-clear` action: the history is cut back to its first message
      and the number of messages before, less one, is reported. Every
      cached history is non-empty (`RegistryValid`), which the reported
      count relies on. */
  function Clear(world: World, env: Env, s: Session): (r: Result<(World, string), BotError>)
    requires RegistryValid(world.reg)
    // the lookup of `chatBot.ts` never fails, so neither does the clear
    ensures r.Failure? <==> GetBot(GuildKeyed, env, world.reg, ChannelKey(s.guildId, s.platform)).Failure?
    ensures r.Success?
    ensures r.Success? ==>
              var (reg1, bot) := GetBot(GuildKeyed, env, world.reg, ChannelKey(s.guildId, s.platform)).value;
              && r.value.0.reg.cache == reg1.cache[s.guildId := ClearHistory(bot)]
              && r.value.0.reg.store == reg1.store
              && r.value.0.reg.cache[s.guildId].history == [bot.history[0]]
              && r.value.1 == ClearReport(|bot.history| - 1)
              && r.value.0.ledger == world.ledger
  {
    var key := ChannelKey(s.guildId, s.platform);
    match GetBot(GuildKeyed, env, world.reg, key)
    case Failure(e) => Failure(e)
    case Success((reg1, bot)) =>
      var bot2 := ClearHistory(bot);
      Success((World(reg1.(cache := reg1.cache[s.guildId := bot2]), world.ledger), ClearReport(|bot.history| - 1)))
  }

  /** The `collectMessage` middleware: the bot's own messages are skipped;
      any other message is appended (then collated) to its group's
      conversation. */
  function Collect(world: World, env: Env, s: Session): (r: Result<World, BotError>)
    ensures s.userId == s.selfId ==> r == Success(world)
    ensures s.userId != s.selfId ==> (r.Failure? <==> GetBot(GuildKeyed, env, world.reg, ChannelKey(s.guildId, s.platform)).Failure?)
    ensures r.Success?
    ensures s.userId != s.selfId && r.Success? ==>
              var (reg1, bot) := GetBot(GuildKeyed, env, world.reg, ChannelKey(s.guildId, s.platform)).value;
              && r.value.reg.cache == reg1.cache[s.guildId := AddUserPrompt(bot, CollectPayload(s.userName, s.content), env.cfg.detail.maxHistory)]
              && r.value.reg.store == reg1.store
              && r.value.ledger == world.ledger
  {
    if s.userId == s.selfId then Success(world)
    else
      var key := ChannelKey(s.guildId, s.platform);
      match GetBot(GuildKeyed, env, world.reg, key)
      case Failure(e) => Failure(e)
      case Success((reg1, bot)) =>
        var bot2 := AddUserPrompt(bot, CollectPayload(s.userName, s.content), env.cfg.detail.maxHistory);
        Success(World(reg1.(cache := reg1.cache[s.guildId := bot2]), world.ledger))
  }

  // ---------------------------------------------------------------------
  // properties
  // ---------------------------------------------------------------------

  /** A refused `chat` sends nothing and charges nothing: the ledger at
      most gains the user's default row, and the registry is what the
      lookup left. */
  lemma DeniedChatChargesNothing(ledger: TokenService.Ledger, reg: Registry, bot: Bot, maxHistory: nat, s: Session,
                                 message: string, reply: ApiResponse, parse: string -> Parsed)
    requires !TokenService.CheckUserToken(ledger, s.userId).1
    ensures var r := Converse(ledger, reg, bot, maxHistory, s, message, reply, parse);
            r.0 == World(reg, TokenService.GetUser(ledger, s.userId).0) && r.1.Denied?
  {
  }

  /** A `chat` that gets a reply with a non-zero total charges exactly that
      total to the sender and nobody else. */
  lemma ChatChargesTotal(ledger: TokenService.Ledger, reg: Registry, bot: Bot, maxHistory: nat, s: Session,
                         message: string, reply: ApiResponse, parse: string -> Parsed)
    requires TokenService.CheckUserToken(ledger, s.userId).1
    requires ChargeFor(HandleResponse(reply, parse)).Some?
    ensures var l := Converse(ledger, reg, bot, maxHistory, s, message, reply, parse).0.ledger;
            && s.userId in l
            && l[s.userId].useToken
               == TokenService.GetUser(ledger, s.userId).1.useToken + ChargeFor(HandleResponse(reply, parse)).value
            && forall u :: u in ledger && u != s.userId ==> l[u] == ledger[u]
  {
  }

  /** Without a truthy total (an apology, a zero total, a missing reply or
      an exception) nothing is charged. */
  lemma ChatWithoutUsageChargesNothing(ledger: TokenService.Ledger, reg: Registry, bot: Bot, maxHistory: nat, s: Session,
                                       message: string, reply: ApiResponse, parse: string -> Parsed)
    requires TokenService.CheckUserToken(ledger, s.userId).1
    requires ChargeFor(HandleResponse(reply, parse)).None?
    ensures Converse(ledger, reg, bot, maxHistory, s, message, reply, parse).0.ledger == TokenService.GetUser(ledger, s.userId).0
  {
  }

  /** The gate is checked before the charge, so one reply can take a user
      past the allowance; the next `chat` is then refused. */
  lemma ChargePastLimitClosesGate(ledger: TokenService.Ledger, reg: Registry, bot: Bot, maxHistory: nat, s: Session,
                                  message: string, reply: ApiResponse, parse: string -> Parsed)
    requires TokenService.CheckUserToken(ledger, s.userId).1
    requires ChargeFor(HandleResponse(reply, parse)).Some?
    requires ChargeFor(HandleResponse(reply, parse)).value
             >= TokenService.GetUser(ledger, s.userId).1.maxToken - TokenService.GetUser(ledger, s.userId).1.useToken
    ensures !TokenService.CheckUserToken(Converse(ledger, reg, bot, maxHistory, s, message, reply, parse).0.ledger, s.userId).1
  {
  }

  /** `chatnh` sends and charges for a user whom `chat` refuses. */
  lemma ChatNHIgnoresQuota(ledger: TokenService.Ledger, reg: Registry, bot: Bot, maxHistory: nat, s: Session,
                           message: string, reply: ApiResponse, parse: string -> Parsed)
    requires !TokenService.CheckUserToken(ledger, s.userId).1
    requires ChargeFor(HandleResponse(reply, parse)).Some?
    ensures Converse(ledger, reg, bot, maxHistory, s, message, reply, parse).1.Denied?
    ensures var l := ConverseNH(ledger, reg, s, message, reply, parse).0.ledger;
            l[s.userId].useToken
            == TokenService.GetUser(ledger, s.userId).1.useToken + ChargeFor(HandleResponse(reply, parse)).value
  {
  }

  /** The reply of the worked scenario: 5 prompt and 3 completion tokens. */
  function HelloReply(duration: nat): ApiResponse {
    ApiResponse(HttpResponse(200, "OK", Json(Envelope(Some("hi there"), None, Some(Usage(5, 3))))), duration)
  }

  /** The second half of the worked scenario: a new user talking to a bot
      that holds only its system message. */
  lemma HelloConverse(reg: Registry, bot: Bot, s: Session, parse: string -> Parsed, duration: nat)
    requires |bot.history| == 1 && bot.history[0].role == System
    ensures var (w, res) := Converse(map[], reg, bot, 40, s, "hello", HelloReply(duration), parse);
            && res.Sent? && res.request == bot.history + [Message(User, ChatPayload(s.userName, "hello"))]
            && w.reg.cache[s.guildId].history == res.request
            && w.ledger[s.userId].useToken == 8
  {
    var payload := ChatPayload(s.userName, "hello");
    assert AddUserPrompt(bot, payload, 40).history == bot.history + [Message(User, payload)];
    var outcome := HandleResponse(HelloReply(duration), parse);
    assert outcome.reply.value.useInfo == Some(UseInfo(5, 3, 8));
    assert ChargeFor(outcome) == Some(8);
    assert TokenService.CheckUserToken(map[], s.userId) == (map[s.userId := TokenService.NewRecord], true);
  }

  /** The worked scenario: on an empty state, a first `chat` of "hello" in
      group g1 with a 40-message limit sends the system message and the
      payload, caches exactly that history, and a reply using 5 + 3 tokens
      charges the new user 8. */
  lemma HelloScenario(env: Env, s: Session, parse: string -> Parsed, duration: nat)
    requires env.readOk && env.writeOk && env.cfg.detail.maxHistory == 40
    requires s.guildId == "g1"
    ensures var (w, res) := Chat(World(Registry(map[], map[]), map[]), env, s, "hello", HelloReply(duration), parse);
            && res.Sent? && |res.request| == 2
            && res.request[0].role == System
            && res.request[1] == Message(User, ChatPayload(s.userName, "hello"))
            && w.reg.cache["g1"].history == res.request
            && w.ledger[s.userId].useToken == 8
  {
    var world := World(Registry(map[], map[]), map[]);
    var key := ChannelKey(s.guildId, s.platform);
    assert TryRestore(GuildKeyed, env, world.reg, key).None?;
    var created := CreateNew(GuildKeyed, env, world.reg, key);
    assert GetBot(GuildKeyed, env, world.reg, key) == created;
    var (reg1, bot) := created.value;
    assert Chat(world, env, s, "hello", HelloReply(duration), parse)
           == Converse(map[], reg1, bot, 40, s, "hello", HelloReply(duration), parse);
    HelloConverse(reg1, bot, s, parse, duration);
  }

  /** A `chat` writes no conversation to the store, so after a restart the
      group's bot holds only its system message again, however long the
      conversation that was sent. */
  lemma ChatIsLostOnRestart(world: World, env: Env, env2: Env, s: Session, message: string,
                            reply: ApiResponse, parse: string -> Parsed)
    requires StoreHoldsOnlyBootstrap(world.reg)
    ensures var w := Chat(world, env, s, message, reply, parse).0;
            var key := ChannelKey(s.guildId, s.platform);
            && StoreHoldsOnlyBootstrap(w.reg)
            && GetBot(GuildKeyed, env2, w.reg.(cache := map[]), key).Success?
            && |GetBot(GuildKeyed, env2, w.reg.(cache := map[]), key).value.1.history| == 1
  {
    var key := ChannelKey(s.guildId, s.platform);
    GetBotKeepsBootstrapStore(GuildKeyed, env, world.reg, key);
    var w := Chat(world, env, s, message, reply, parse).0;
    assert w.reg.store == GetBot(GuildKeyed, env, world.reg, key).value.0.store;
    RestartForgetsConversation(GuildKeyed, env2, w.reg, key);
  }

  /** `chat`, `chatnh`, `chat-clear` and the collecting middleware keep
      every cached history non-empty, which `chat-clear` relies on. */
  lemma ChatKeepsValid(world: World, env: Env, s: Session, message: string,
                       reply: ApiResponse, parse: string -> Parsed)
    requires RegistryValid(world.reg)
    ensures RegistryValid(Chat(world, env, s, message, reply, parse).0.reg)
  {
    GetBotPreservesValid(GuildKeyed, env, world.reg, ChannelKey(s.guildId, s.platform));
  }

  lemma ChatNHKeepsValid(world: World, env: Env, s: Session, message: string,
                         reply: ApiResponse, parse: string -> Parsed)
    requires RegistryValid(world.reg)
    ensures RegistryValid(ChatNH(world, env, s, message, reply, parse).0.reg)
  {
    GetBotPreservesValid(GuildKeyed, env, world.reg, ChannelKey(s.guildId, s.platform));
  }

  lemma CollectKeepsValid(world: World, env: Env, s: Session)
    requires RegistryValid(world.reg)
    ensures RegistryValid(Collect(world, env, s).value.reg)
  {
    GetBotPreservesValid(GuildKeyed, env, world.reg, ChannelKey(s.guildId, s.platform));
  }

  lemma ClearKeepsValid(world: World, env: Env, s: Session)
    requires RegistryValid(world.reg)
    ensures RegistryValid(Clear(world, env, s).value.0.reg)
  {
    GetBotPreservesValid(GuildKeyed, env, world.reg, ChannelKey(s.guildId, s.platform));
  }

  /** `chat-clear` after any number of collected messages leaves only the
      first message, whatever was collected. */
  lemma ClearAfterCollect(world: World, env: Env, s: Session)
    requires RegistryValid(world.reg) && s.guildId in world.reg.cache && s.userId != s.selfId
    ensures var w := Collect(world, env, s).value;
            RegistryValid(w.reg) &&
            Clear(w, env, s).value.0.reg.cache[s.guildId].history == [world.reg.cache[s.guildId].history[0]]
  {
  }
}
