/** The static side of `ChatBot` (src/siliconFlow/chatBot.ts) and its
    channel-keyed twin `ChatBotUtils` (src/siliconFlow/utils.ts): finding
    the conversation of a session in the in-memory cache, restoring it from
    the `channel` table, or creating and persisting a new one, and choosing
    its system prompt. The two share one cache and differ where `Variant`
    says. */
module SessionRegistry {
  import opened Wrappers
  import opened JsStrings
  import opened PluginConfig
  import ConfigService
  import opened ChatHistory

  /** `GuildKeyed` is chatBot.ts (keyed by guild id, prompt awaited nowhere);
      `ChannelKeyed` is utils.ts (keyed by channel id, everything
      synchronous). */
  datatype Variant = GuildKeyed | ChannelKeyed

  /** The primary key of a `channel` row: id and platform. */
  datatype ChannelKey = ChannelKey(id: string, platform: string)

  /** The module-level `chatBots` map, keyed by id alone, and the `history`
      of the `chatbot` column of each `channel` row that has one. */
  datatype Registry = Registry(cache: map<string, Bot>, store: map<ChannelKey, seq<Message>>)

  /** What the outside world decides during one lookup: the configuration,
      whether the database read succeeds and whether the write succeeds. */
  datatype Env = Env(cfg: Config, readOk: bool, writeOk: bool)

  /** Every cached bot has a non-empty history. */
  predicate RegistryValid(reg: Registry) {
    forall k :: k in reg.cache ==> Valid(reg.cache[k])
  }

  // ---------------------------------------------------------------------
  // system-prompt resolution
  // ---------------------------------------------------------------------

  const GuildMarker: string := "【guildId】"
  const ChannelMarker: string := "【channelId】"

  function Marker(v: Variant): (m: string)
    ensures HeadUnique(m)
  {
    match v
    case GuildKeyed => GuildMarker
    case ChannelKeyed => ChannelMarker
  }

  /** `replaceSystemPrompt`: the first marker becomes the key in square
      brackets. */
  function ReplaceSystemPrompt(v: Variant, template: string, key: string): (r: string)
    ensures !Contains(template, Marker(v)) ==> r == template
  {
    ReplaceFirst(template, Marker(v), "[" + key + "]")
  }

  /** The global tier: `ConfigService.getSystemPrompt()`, called without an
      id. */
  function GlobalPrompt(cfg: Config): (r: string)
    ensures r == ConfigService.ReplaceMarket(cfg.detail.systemPrompt, None)
  {
    ConfigService.GetSystemPrompt(cfg, None)
  }

  /** `perGuildConfig[channelId]?.systemPrompt`: an array indexed by a
      string, which hits a row only when the id is the decimal text of an
      index of the array. */
  function ChannelPrompt(entries: seq<GuildEntry>, channelId: string): (r: Option<string>)
    ensures r.Some? ==> exists i: nat :: i < |entries| && channelId == NatToString(i)
                                         && entries[i].systemPrompt == r
  {
    match ParseCanonicalNat(channelId)
    case None => None
    case Some(i) =>
      CanonicalNatRoundTrip(i, channelId);
      if i < |entries| then entries[i].systemPrompt else None
  }

  /** `bot?.history?.[0]?.content`, with no check of the role. */
  function HeadContent(b: Bot): (r: Option<string>)
    ensures r.Some? <==> |b.history| > 0
    ensures r.Some? ==> r.value == b.history[0].content
  {
    if |b.history| > 0 then Some(b.history[0].content) else None
  }

  /** The first tier: the per-group row. */
  function OverridePrompt(v: Variant, cfg: Config, key: string): Option<string> {
    match v
    case GuildKeyed => GuildPrompt(cfg.perGuildConfig, key)
    case ChannelKeyed => ChannelPrompt(cfg.perGuildConfig, key)
  }

  /** The second tier: what the bot already holds. */
  function BotPrompt(v: Variant, b: Bot): Option<string> {
    match v
    case GuildKeyed => GetSystemPrompt(b)
    case ChannelKeyed => HeadContent(b)
  }

  /** `perGuild || bot || global`: the first non-empty of the three. */
  function ChosenPrompt(v: Variant, cfg: Config, b: Bot, key: string): (r: string)
    ensures Truthy(OverridePrompt(v, cfg, key)) ==> Some(r) == OverridePrompt(v, cfg, key)
    ensures !Truthy(OverridePrompt(v, cfg, key)) && Truthy(BotPrompt(v, b)) ==> Some(r) == BotPrompt(v, b)
    ensures !Truthy(OverridePrompt(v, cfg, key)) && !Truthy(BotPrompt(v, b)) ==> r == GlobalPrompt(cfg)
  {
    OrString(Or(OverridePrompt(v, cfg, key), BotPrompt(v, b)), GlobalPrompt(cfg))
  }

  /** `configureSystemPrompt` followed by `setSystemPrompt`: fails exactly
      when the chosen, substituted prompt is blank. */
  function Configure(v: Variant, cfg: Config, b: Bot, key: string): (r: Result<Bot, BotError>)
    ensures r.Failure? <==> IsBlank(ReplaceSystemPrompt(v, ChosenPrompt(v, cfg, b, key), key))
    ensures r.Success? ==> GetSystemPrompt(r.value) == Some(ReplaceSystemPrompt(v, ChosenPrompt(v, cfg, b, key), key))
    ensures r.Success? ==> r.value == b.(history := r.value.history)
    ensures r.Success? ==> Valid(r.value) && |r.value.history| == (if |b.history| == 0 then 1 else |b.history|)
    ensures r.Success? ==> forall i :: 1 <= i < |b.history| ==> r.value.history[i] == b.history[i]
  {
    SetSystemPrompt(b, Some(ReplaceSystemPrompt(v, ChosenPrompt(v, cfg, b, key), key)))
  }

  /** `createBotInstance`: a fresh bot for the selected platform. */
  function Fresh(cfg: Config): (b: Bot)
    ensures b.endpoint == cfg.select.apiEndpoint + CompletionsPath
    ensures b.apiKey == cfg.select.apiKey && b.model == cfg.select.modelId
    ensures b.maxTokens == ChatHistory.DefaultMaxTokens && b.temperature == ChatHistory.DefaultTemperature
    ensures b.history == [Message(System, "")]
  {
    NewBot(cfg.select.apiEndpoint, cfg.select.apiKey, cfg.select.modelId)
  }

  // ---------------------------------------------------------------------
  // lookup
  // ---------------------------------------------------------------------

  /** `tryRestoreFromDB`. Nothing when the read fails or the row has no
      stored history. Otherwise a fresh bot that takes the stored history
      only when it has more than one message, then configured. A refused
      prompt is not noticed in chatBot.ts (the call is not awaited, the bot
      stays as it was) and makes utils.ts give up (the exception is caught
      and `null` returned). Nothing is written. */
  function TryRestore(v: Variant, env: Env, reg: Registry, key: ChannelKey): (r: Option<Bot>)
    ensures !env.readOk || key !in reg.store ==> r.None?
    // a read row: the configured base bot, or the base itself when chatBot.ts ignores a refusal
    ensures env.readOk && key in reg.store ==>
              var base := RestoreBase(env.cfg, reg.store[key]);
              && (Configure(v, env.cfg, base, key.id).Success? ==> r == Some(Configure(v, env.cfg, base, key.id).value))
              && (Configure(v, env.cfg, base, key.id).Failure? ==> r == if v.GuildKeyed? then Some(base) else None)
    ensures r.Some? ==> Valid(r.value)
    ensures r.Some? ==> r.value == Fresh(env.cfg).(history := r.value.history)
    ensures r.Some? && |reg.store[key]| > 1 ==> r.value.history[1..] == reg.store[key][1..]
    ensures r.Some? && |reg.store[key]| <= 1 ==> |r.value.history| == 1
    ensures v.GuildKeyed? && env.readOk && key in reg.store ==> r.Some?
  {
    if !env.readOk || key !in reg.store then None
    else
      var b := RestoreBase(env.cfg, reg.store[key]);
      match Configure(v, env.cfg, b, key.id)
      case Success(b') =>
        assert b'.history[1..] == b.history[1..];
        Some(b')
      case Failure(_) => if v.GuildKeyed? then Some(b) else None
  }

  /** The bot a restore starts from: a fresh one, holding the stored
      history only when that has more than one message. */
  function RestoreBase(cfg: Config, h: seq<Message>): (b: Bot)
    ensures b == Fresh(cfg).(history := b.history)
    ensures |h| > 1 ==> b.history == h
    ensures |h| <= 1 ==> b.history == [Message(System, "")]
  {
    var b := Fresh(cfg);
    if |h| > 1 then b.(history := h) else b
  }

  /** `createNewBot`: a fresh, configured bot, written to its row when the
      write succeeds (a failed write is logged and ignored) and put in the
      cache. In utils.ts a refused prompt propagates to the caller. */
  function CreateNew(v: Variant, env: Env, reg: Registry, key: ChannelKey): (r: Result<(Registry, Bot), BotError>)
    ensures r.Failure? <==> v.ChannelKeyed? && Configure(v, env.cfg, Fresh(env.cfg), key.id).Failure?
    // the bot is the configured fresh one, or the unconfigured fresh one when chatBot.ts ignores a refusal
    ensures r.Success? && Configure(v, env.cfg, Fresh(env.cfg), key.id).Success? ==>
              r.value.1 == Configure(v, env.cfg, Fresh(env.cfg), key.id).value
    ensures r.Success? && Configure(v, env.cfg, Fresh(env.cfg), key.id).Failure? ==> r.value.1 == Fresh(env.cfg)
    ensures r.Success? ==> Valid(r.value.1) && |r.value.1.history| == 1
    ensures r.Success? ==> r.value.1.history[0].role == System
    ensures r.Success? ==> r.value.0.cache == reg.cache[key.id := r.value.1]
    ensures r.Success? ==> r.value.0.store == if env.writeOk then reg.store[key := r.value.1.history] else reg.store
  {
    var b := Fresh(env.cfg);
    match Configure(v, env.cfg, b, key.id)
    case Failure(e) =>
      if v.ChannelKeyed? then Failure(e)
      else Success(Persisted(env, reg, key, b))
    case Success(b') => Success(Persisted(env, reg, key, b'))
  }

  /** `persistBotToDB` and `chatBots.set`. */
  function Persisted(env: Env, reg: Registry, key: ChannelKey, b: Bot): (r: (Registry, Bot))
    ensures r.1 == b && r.0.cache == reg.cache[key.id := b]
    ensures r.0.store == if env.writeOk then reg.store[key := b.history] else reg.store
  {
    var store := if env.writeOk then reg.store[key := b.history] else reg.store;
    (Registry(reg.cache[key.id := b], store), b)
  }

  /** `getBot`: a cache hit first, then a restore, then a new bot. */
  function GetBot(v: Variant, env: Env, reg: Registry, key: ChannelKey): (r: Result<(Registry, Bot), BotError>)
    // a cache hit returns the cached bot and changes nothing
    ensures key.id in reg.cache ==> r == Success((reg, reg.cache[key.id]))
    // the bot returned is the one cached under the id
    ensures r.Success? ==> r.value.0.cache == reg.cache[key.id := r.value.1]
    // the store changes only by creating a new bot's row
    ensures r.Success? && r.value.0.store != reg.store ==>
              && key.id !in reg.cache && TryRestore(v, env, reg, key).None? && env.writeOk
              && r.value.0.store == reg.store[key := r.value.1.history]
    // a restored bot is cached without a write
    ensures key.id !in reg.cache && TryRestore(v, env, reg, key).Some? ==>
              r == Success((reg.(cache := reg.cache[key.id := TryRestore(v, env, reg, key).value]),
                            TryRestore(v, env, reg, key).value))
    // neither cached nor restorable: exactly a new bot
    ensures key.id !in reg.cache && TryRestore(v, env, reg, key).None? ==> r == CreateNew(v, env, reg, key)
    ensures r.Success? && (key.id in reg.cache ==> Valid(reg.cache[key.id])) ==> Valid(r.value.1)
    // only utils.ts can fail, and only when creating
    ensures r.Failure? ==> v.ChannelKeyed? && key.id !in reg.cache && TryRestore(v, env, reg, key).None?
  {
    if key.id in reg.cache then Success((reg, reg.cache[key.id]))
    else
      match TryRestore(v, env, reg, key)
      case Some(b) => Success((reg.(cache := reg.cache[key.id := b]), b))
      case None => CreateNew(v, env, reg, key)
  }

  // ---------------------------------------------------------------------
  // properties
  // ---------------------------------------------------------------------

  /** Every lookup keeps every cached history non-empty. */
  lemma GetBotPreservesValid(v: Variant, env: Env, reg: Registry, key: ChannelKey)
    requires RegistryValid(reg)
    ensures GetBot(v, env, reg, key).Success? ==> RegistryValid(GetBot(v, env, reg, key).value.0)
  {
  }

  /** The cache is keyed by id alone: once a bot is cached for an id, every
      platform with a channel of that id gets the same bot. */
  lemma PlatformsShareCache(v: Variant, env: Env, reg: Registry, id: string, p1: string, p2: string)
    requires GetBot(v, env, reg, ChannelKey(id, p1)).Success?
    ensures var (reg', b) := GetBot(v, env, reg, ChannelKey(id, p1)).value;
            GetBot(v, env, reg', ChannelKey(id, p2)) == Success((reg', b))
  {
  }

  /** What a lookup persists is a one-message history, so a later restore
      never takes it: the restored bot does not depend on what the row
      holds as long as it holds at most one message. */
  lemma RestoreIgnoresShortHistory(v: Variant, env: Env, reg: Registry, key: ChannelKey, h1: seq<Message>, h2: seq<Message>)
    requires |h1| <= 1 && |h2| <= 1
    ensures TryRestore(v, env, reg.(store := reg.store[key := h1]), key)
            == TryRestore(v, env, reg.(store := reg.store[key := h2]), key)
  {
  }

  /** Every stored history is at most a new bot's single message: rows are
      written only when a bot is created. */
  predicate StoreHoldsOnlyBootstrap(reg: Registry) {
    forall k :: k in reg.store ==> |reg.store[k]| <= 1
  }

  /** A lookup writes, if anything, a one-message history. */
  lemma GetBotKeepsBootstrapStore(v: Variant, env: Env, reg: Registry, key: ChannelKey)
    requires StoreHoldsOnlyBootstrap(reg)
    ensures GetBot(v, env, reg, key).Success? ==> StoreHoldsOnlyBootstrap(GetBot(v, env, reg, key).value.0)
  {
    var r := GetBot(v, env, reg, key);
    if r.Success? && r.value.0.store != reg.store {
      assert r == CreateNew(v, env, reg, key);
      assert |r.value.1.history| == 1;
    }
  }

  /** After a restart, whatever was said, a lookup gives a bot holding one
      message: stored one-message histories are not restored. */
  lemma RestartForgetsConversation(v: Variant, env: Env, reg: Registry, key: ChannelKey)
    requires StoreHoldsOnlyBootstrap(reg)
    ensures GetBot(v, env, reg.(cache := map[]), key).Success? ==>
              |GetBot(v, env, reg.(cache := map[]), key).value.1.history| == 1
  {
    var restarted := reg.(cache := map[]);
    var t := TryRestore(v, env, restarted, key);
    if t.Some? {
      assert |restarted.store[key]| <= 1;
    }
  }

  /** Persist, restart, restore: with the same configuration, a bot created
      and written by one lookup comes back equal after the cache is lost. */
  lemma RestartRoundTrip(v: Variant, env: Env, reg: Registry, key: ChannelKey)
    requires env.readOk && env.writeOk
    requires key.id !in reg.cache && key !in reg.store
    requires GetBot(v, env, reg, key).Success?
    ensures var (reg', b) := GetBot(v, env, reg, key).value;
            GetBot(v, env, reg'.(cache := map[]), key) == Success((Registry(map[key.id := b], reg'.store), b))
  {
    var (reg', b) := GetBot(v, env, reg, key).value;
    assert reg'.store[key] == b.history;
    var restarted := reg'.(cache := map[]);
    var b0 := Fresh(env.cfg);
    assert Configure(v, env.cfg, b0, key.id).Success? ==> b == Configure(v, env.cfg, b0, key.id).value;
    assert TryRestore(v, env, restarted, key) == Some(b);
  }

  /** In utils.ts the per-group row is chosen by POSITION: the channel whose
      id is the decimal text of `i` gets row `i`, whatever that row's
      `guildId` says. */
  lemma ChannelPromptPositional(entries: seq<GuildEntry>, i: nat)
    requires i < |entries|
    ensures ChannelPrompt(entries, NatToString(i)) == entries[i].systemPrompt
  {
    CanonicalNatRoundTrip(i, NatToString(i));
  }

  /** ... and a channel whose id is not such a text never gets a row, even
      one that names it. */
  lemma ChannelPromptIgnoresGuildId(entries: seq<GuildEntry>, channelId: string)
    requires forall i: nat :: channelId != NatToString(i)
    ensures ChannelPrompt(entries, channelId) == None
  {
  }

  /** chatBot.ts reads the bot's prompt only from a system message; utils.ts
      takes whatever element 0 holds. */
  lemma BotTierRoleCheck(b: Bot)
    requires |b.history| > 0 && b.history[0].role != System
    ensures BotPrompt(GuildKeyed, b) == None
    ensures BotPrompt(ChannelKeyed, b) == Some(b.history[0].content)
  {
  }

  /** A fresh bot never supplies the prompt: its empty system message is
      falsy, so the choice is the group row or the global prompt. */
  lemma FreshBotDefers(v: Variant, cfg: Config, key: string)
    ensures !Truthy(OverridePrompt(v, cfg, key)) ==> ChosenPrompt(v, cfg, Fresh(cfg), key) == GlobalPrompt(cfg)
  {
  }

  /** The marker substitution touches the first marker only. */
  lemma MarkerFirstOnly(v: Variant, before: string, after: string, key: string)
    requires !Contains(before, Marker(v)) && '$' !in key
    ensures ReplaceSystemPrompt(v, before + Marker(v) + after, key) == before + "[" + key + "]" + after
  {
    ReplaceFirstSplit(before, Marker(v), after, "[" + key + "]");
  }
}
