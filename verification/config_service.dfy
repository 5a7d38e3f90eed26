/** `ConfigService` (src/service/ConfigService.ts): system-prompt templating
    and the rewrite of every cached conversation when the configuration
    changes. */
module ConfigService {
  import opened Wrappers
  import opened JsStrings
  import opened PluginConfig
  import opened ChatHistory

  /** The placeholder `replaceMarket` substitutes. */
  const GuildIdMarker: string := "$guildId"

  /** `replaceMarket`: every `$guildId` becomes the id; a missing id is
      converted to the text `undefined`, as `replaceAll` converts its
      replacement to a string. */
  function ReplaceMarket(prompt: string, guildId: Option<string>): (r: string)
    ensures !Contains(prompt, GuildIdMarker) ==> r == prompt
  {
    ReplaceAll(prompt, GuildIdMarker, Show(guildId))
  }

  /** `getSystemPrompt`: with a non-empty id that has a row carrying a
      prompt, that row's prompt (even an empty one: `??` keeps it);
      otherwise, and always without an id, the global prompt. A missing
      row or a row without a prompt makes `replaceMarket` throw on
      `undefined`, which is caught and yields `undefined`. Both are
      substituted with the same id. */
  function GetSystemPrompt(cfg: Config, guildId: Option<string>): (r: string)
    ensures Truthy(guildId) && GuildPrompt(cfg.perGuildConfig, guildId.value).Some? ==>
              r == ReplaceMarket(GuildPrompt(cfg.perGuildConfig, guildId.value).value, guildId)
    ensures !Truthy(guildId) || GuildPrompt(cfg.perGuildConfig, guildId.value).None? ==>
              r == ReplaceMarket(cfg.detail.systemPrompt, guildId)
  {
    var fallback := ReplaceMarket(cfg.detail.systemPrompt, guildId);
    if Truthy(guildId) then
      match GuildPrompt(cfg.perGuildConfig, guildId.value)
      case Some(p) => ReplaceMarket(p, guildId)
      case None => fallback
    else fallback
  }

  // ---------------------------------------------------------------------
  // properties of the templating
  // ---------------------------------------------------------------------

  /** `replaceMarket` replaces every occurrence: a prompt made of marker-free
      pieces separated by `$guildId` becomes those pieces separated by the
      id (for an id without `$`, which `replaceAll` would interpret). */
  lemma ReplaceMarketEvery(pieces: seq<string>, guildId: string)
    requires |pieces| >= 1 && '$' !in guildId
    requires forall i :: 0 <= i < |pieces| ==> !Contains(pieces[i], GuildIdMarker)
    ensures ReplaceMarket(Join(pieces, GuildIdMarker), Some(guildId)) == Join(pieces, guildId)
  {
    ReplaceAllJoin("", pieces, GuildIdMarker, guildId);
  }

  /** Without an id, every `$guildId` becomes the text `undefined`. */
  lemma ReplaceMarketWithoutId(pieces: seq<string>)
    requires |pieces| >= 1
    requires forall i :: 0 <= i < |pieces| ==> !Contains(pieces[i], GuildIdMarker)
    ensures ReplaceMarket(Join(pieces, GuildIdMarker), None) == Join(pieces, "undefined")
  {
    var u := Show(None);
    UndefinedIsLiteral(u);
    MarkerHeadUnique();
    ReplaceAllJoin("", pieces, GuildIdMarker, u);
  }

  lemma UndefinedIsLiteral(u: string)
    requires u == "undefined"
    ensures '$' !in u
  {
  }

  lemma MarkerHeadUnique()
    ensures HeadUnique(GuildIdMarker)
  {
  }

  /** The default prompt spells its placeholder `$guilId`, so it contains no
      `$guildId` at all. */
  lemma DefaultPromptHasNoMarker()
    ensures !Contains(DefaultSystemPrompt, GuildIdMarker)
  {
    assert '$' !in "接下来对话中的json";
    assert '$' !in "文本均提取userContent";
    assert '$' !in "为内容，userName是发";
    assert '$' !in "送该消息的用户名。当前对话发生在群聊";
    assert '$' !in DefaultPromptText;
    var d := DefaultSystemPrompt;
    forall i: nat
      ensures !OccursAt(d, GuildIdMarker, i)
    {
      if i + |GuildIdMarker| <= |d| {
        if i < |DefaultPromptText| {
          assert DefaultPromptText[i] in DefaultPromptText;
          assert d[i..i + |GuildIdMarker|][0] == DefaultPromptText[i];
        } else {
          assert i == |DefaultPromptText|;
          assert d[i..i + |GuildIdMarker|][5] == DefaultPromptPlaceholder[5];
        }
      }
    }
  }

  /** Hence substituting into the default prompt never changes it: the
      group id is never put into the default prompt. */
  lemma DefaultPromptNeverSubstituted(guildId: Option<string>)
    ensures ReplaceMarket(DefaultSystemPrompt, guildId) == DefaultSystemPrompt
  {
    DefaultPromptHasNoMarker();
  }

  /** A row whose prompt is the empty string wins over the global prompt. */
  lemma EmptyGuildPromptWins(cfg: Config, guildId: string)
    requires guildId != ""
    requires GuildPrompt(cfg.perGuildConfig, guildId) == Some("")
    ensures GetSystemPrompt(cfg, Some(guildId)) == ""
  {
    assert !Contains("", GuildIdMarker);
  }

  /** The result depends on the id only through its row and the
      substitution: ids with no row (and the empty id) share the global
      template. */
  lemma FallbackIsGlobal(cfg: Config, guildId: string)
    requires forall j :: 0 <= j < |cfg.perGuildConfig| ==> cfg.perGuildConfig[j].guildId != Some(guildId)
    ensures GetSystemPrompt(cfg, Some(guildId)) == ReplaceMarket(cfg.detail.systemPrompt, Some(guildId))
  {
  }

  // ---------------------------------------------------------------------
  // onConfigChange
  // ---------------------------------------------------------------------

  /** What `onConfigChange` does to one cached bot: request parameters are
      reassigned unconditionally, then the system prompt is recomputed for
      the bot's key. The flag reports that `setSystemPrompt` refused the
      prompt, in which case the history is left as it was. */
  function Reconfigure(b: Bot, key: string, cfg: Config): (r: (Bot, bool))
    ensures r.0.endpoint == cfg.select.apiEndpoint + CompletionsPath
    ensures r.0.apiKey == cfg.select.apiKey && r.0.model == cfg.select.modelId
    ensures r.0.maxTokens == cfg.detail.maxToken && r.0.temperature == cfg.detail.temperature
    ensures r.1 <==> IsBlank(GetSystemPrompt(cfg, Some(key)))
    ensures r.1 ==> r.0.history == b.history
    ensures !r.1 ==> ChatHistory.GetSystemPrompt(r.0) == Some(GetSystemPrompt(cfg, Some(key)))
    ensures |b.history| > 0 ==> |r.0.history| == |b.history|
    ensures !r.1 ==> |r.0.history| == (if |b.history| == 0 then 1 else |b.history|)
    ensures forall i :: 1 <= i < |b.history| ==> r.0.history[i] == b.history[i]
  {
    var b' := b.(endpoint := cfg.select.apiEndpoint + CompletionsPath,
                 apiKey := cfg.select.apiKey,
                 model := cfg.select.modelId,
                 maxTokens := cfg.detail.maxToken,
                 temperature := cfg.detail.temperature);
    match SetSystemPrompt(b', Some(GetSystemPrompt(cfg, Some(key))))
    case Success(b'') => (b'', false)
    case Failure(_) => (b', true)
  }

  /** `onConfigChange` over the cache: every bot is reconfigured under its
      own key, the set of keys stays the same, and the returned flag says
      whether the combined promise rejects (some prompt was refused). */
  function OnConfigChange(cache: map<string, Bot>, cfg: Config): (r: (map<string, Bot>, bool))
    ensures r.0.Keys == cache.Keys
    ensures forall k :: k in cache ==> r.0[k] == Reconfigure(cache[k], k, cfg).0
    ensures r.1 <==> exists k :: k in cache && IsBlank(GetSystemPrompt(cfg, Some(k)))
  {
    (map k | k in cache :: Reconfigure(cache[k], k, cfg).0,
     exists k | k in cache :: Reconfigure(cache[k], k, cfg).1)
  }

  /** Only element 0 of each history can change, and valid bots stay
      valid. */
  lemma ConfigChangeTouchesOnlyHead(cache: map<string, Bot>, cfg: Config, k: string)
    requires k in cache && Valid(cache[k])
    ensures Valid(OnConfigChange(cache, cfg).0[k])
    ensures OnConfigChange(cache, cfg).0[k].history[1..] == cache[k].history[1..]
  {
    var b := cache[k];
    var r := Reconfigure(b, k, cfg).0;
    assert |r.history| == |b.history|;
    assert forall i :: 1 <= i < |b.history| ==> r.history[i] == b.history[i];
    assert r.history[1..] == b.history[1..];
  }

  /** Applying the same configuration twice gives what applying it once
      gives. */
  lemma ReconfigureIdempotent(b: Bot, key: string, cfg: Config)
    ensures Reconfigure(Reconfigure(b, key, cfg).0, key, cfg) == Reconfigure(b, key, cfg)
  {
    var r := Reconfigure(b, key, cfg);
    var r2 := Reconfigure(r.0, key, cfg);
    if !r.1 {
      assert |r2.0.history| == |r.0.history|;
      assert r2.0.history[0] == r.0.history[0];
      assert r2.0.history == r.0.history;
    }
  }

  /** A configuration delivered twice rewrites the cache as once, and the
      second delivery is rejected exactly when the first was. */
  lemma OnConfigChangeIdempotent(cache: map<string, Bot>, cfg: Config)
    ensures OnConfigChange(OnConfigChange(cache, cfg).0, cfg) == OnConfigChange(cache, cfg)
  {
    var c1 := OnConfigChange(cache, cfg).0;
    ReconfiguredCacheStable(cache, cfg);
    SameKeysSameRejection(c1, cache, cfg);
  }

  /** Reconfiguring an already reconfigured cache leaves it as it is. */
  lemma ReconfiguredCacheStable(cache: map<string, Bot>, cfg: Config)
    ensures OnConfigChange(OnConfigChange(cache, cfg).0, cfg).0 == OnConfigChange(cache, cfg).0
  {
    var c1 := OnConfigChange(cache, cfg).0;
    var c2 := OnConfigChange(c1, cfg).0;
    forall k | k in c1
      ensures c2[k] == c1[k]
    {
      ReconfigureIdempotent(cache[k], k, cfg);
    }
  }

  /** Whether the combined promise rejects depends only on the keys. */
  lemma SameKeysSameRejection(c1: map<string, Bot>, c2: map<string, Bot>, cfg: Config)
    requires c1.Keys == c2.Keys
    ensures OnConfigChange(c1, cfg).1 == OnConfigChange(c2, cfg).1
  {
  }
}
