/** `FavorableSystem` (src/service/FavorableSystem.ts): per-user affection
    levels, the placeholder substitution of affection prompts, and the
    separate conversation handle used for poke replies. */
module FavorableSystem {
  import opened Wrappers
  import opened JsStrings
  import opened PluginConfig
  import opened ChatHistory

  datatype FavorRecord = FavorRecord(level: int)

  /** The `level` column of `qz_siliconflow`, by user id. */
  type LevelTable = map<string, FavorRecord>

  const NewFavor: FavorRecord := FavorRecord(0)

  /** `getUser`: the stored row, or a level-0 row that is stored first. */
  function GetUser(table: LevelTable, userId: string): (r: (LevelTable, FavorRecord))
    ensures userId in table ==> r == (table, table[userId])
    ensures userId !in table ==> r == (table[userId := NewFavor], NewFavor)
  {
    if userId in table then (table, table[userId])
    else (table[userId := NewFavor], NewFavor)
  }

  /** `getLevel`. */
  function GetLevel(table: LevelTable, userId: string): (r: (LevelTable, int))
    ensures r.0 == GetUser(table, userId).0
    ensures userId in table ==> r.1 == table[userId].level
    ensures userId !in table ==> r.1 == 0
  {
    var (t, user) := GetUser(table, userId);
    (t, user.level)
  }

  /** `setLevel`: the user's row holds `level` afterwards, other rows are
      untouched. */
  function SetLevel(table: LevelTable, userId: string, level: int): (r: LevelTable)
    ensures r.Keys == table.Keys + {userId}
    ensures r[userId] == FavorRecord(level)
    ensures forall u :: u in table && u != userId ==> r[u] == table[u]
  {
    var (t, user) := GetUser(table, userId);
    t[userId := user.(level := level)]
  }

  const GuildIdToken: string := "$guildId"
  const UserNameToken: string := "$userName"
  const FavorableToken: string := "$favorable"

  /** `[0].level` of an empty query result throws. */
  datatype PromptError = NoSuchUser

  /** `replacePrompt`: the first `$guildId`, then the first `$userName`,
      then the first `$favorable` are replaced, each in the text the
      previous step produced. The level is read without creating a row; an
      unknown user makes the read throw. The nickname is an input. */
  function ReplacePrompt(prompt: string, guildId: Option<string>, userNick: string,
                         table: LevelTable, userId: string): (r: Result<string, PromptError>)
    ensures r.Failure? <==> userId !in table
    // a prompt without placeholders comes back as it is
    ensures (&& userId in table && !Contains(prompt, GuildIdToken) && !Contains(prompt, UserNameToken)
             && !Contains(prompt, FavorableToken)) ==> r == Success(prompt)
  {
    if userId !in table then Failure(NoSuchUser)
    else
      var s1 := ReplaceFirst(prompt, GuildIdToken, Show(guildId));
      var s2 := ReplaceFirst(s1, UserNameToken, userNick);
      var s3 := ReplaceFirst(s2, FavorableToken, IntToString(table[userId].level));
      Success(s3)
  }

  /** `configUpdate`: the poke bot takes endpoint, key and model from the
      poke selection (token limit and temperature are not touched), then
      the poke system prompt. The flag reports that `setSystemPrompt`
      refused it, leaving the history as it was. */
  function ConfigUpdate(bot: Bot, cfg: Config): (r: (Bot, bool))
    ensures r.0.endpoint == cfg.pokeFavorable.select.apiEndpoint + CompletionsPath
    ensures r.0.apiKey == cfg.pokeFavorable.select.apiKey && r.0.model == cfg.pokeFavorable.select.modelId
    ensures r.0.maxTokens == bot.maxTokens && r.0.temperature == bot.temperature
    ensures r.1 <==> cfg.pokeFavorable.systemPrompt.None? || IsBlank(cfg.pokeFavorable.systemPrompt.value)
    ensures r.1 ==> r.0.history == bot.history
    ensures !r.1 ==> GetSystemPrompt(r.0) == cfg.pokeFavorable.systemPrompt
    ensures |bot.history| > 0 ==> |r.0.history| == |bot.history|
    ensures !r.1 ==> |r.0.history| == (if |bot.history| == 0 then 1 else |bot.history|)
    ensures forall i :: 1 <= i < |bot.history| ==> r.0.history[i] == bot.history[i]
  {
    var b := bot.(endpoint := cfg.pokeFavorable.select.apiEndpoint + CompletionsPath,
                  apiKey := cfg.pokeFavorable.select.apiKey,
                  model := cfg.pokeFavorable.select.modelId);
    match SetSystemPrompt(b, cfg.pokeFavorable.systemPrompt)
    case Success(b') => (b', false)
    case Failure(_) => (b, true)
  }

  /** `createAiBot`: a bot for the main selection, immediately redirected
      to the poke selection. */
  function CreateAiBot(cfg: Config): (r: (Bot, bool))
    ensures r == ConfigUpdate(NewBot(cfg.select.apiEndpoint, cfg.select.apiKey, cfg.select.modelId), cfg)
    ensures Valid(r.0) && |r.0.history| == 1
  {
    ConfigUpdate(NewBot(cfg.select.apiEndpoint, cfg.select.apiKey, cfg.select.modelId), cfg)
  }

  // ---------------------------------------------------------------------
  // properties
  // ---------------------------------------------------------------------

  /** Setting a level and reading it back gives it, and the read writes
      nothing further. */
  lemma SetThenGetLevel(table: LevelTable, userId: string, level: int)
    ensures GetLevel(SetLevel(table, userId, level), userId) == (SetLevel(table, userId, level), level)
  {
  }

  /** One substitution step: a placeholder preceded by `$`-free text is the
      first one, and only it is replaced. */
  lemma ReplaceStep(pre: string, token: string, post: string, value: string)
    requires '$' !in pre && '$' !in value
    requires HeadUnique(token) && token[0] == '$'
    ensures ReplaceFirst(pre + token + post, token, value) == pre + value + post
  {
    NoHeadNoContains(pre, token);
    ReplaceFirstSplit(pre, token, post, value);
  }

  /** Each placeholder starts with the only `$` it contains. */
  lemma TokensHeadUnique()
    ensures HeadUnique(GuildIdToken) && GuildIdToken[0] == '$'
    ensures HeadUnique(UserNameToken) && UserNameToken[0] == '$'
    ensures HeadUnique(FavorableToken) && FavorableToken[0] == '$'
  {
  }

  /** The three ways `ReplacePromptShape` cuts a seven-piece text. */
  lemma Regroup(x1: string, x2: string, x3: string, x4: string, x5: string, x6: string, x7: string)
    ensures x1 + x2 + x3 + x4 + x5 + x6 + x7 == x1 + x2 + (x3 + x4 + x5 + x6 + x7)
    ensures x1 + x2 + x3 + x4 + x5 + x6 + x7 == (x1 + x2 + x3) + x4 + (x5 + x6 + x7)
  {
  }

  /** The substitution on a prompt whose three placeholders appear once each,
      in order, with nothing `$`-bearing before the last one: each is
      replaced by its value and everything after the last placeholder,
      repeated placeholders included, is left as it was. */
  lemma ReplacePromptShape(a: string, b: string, c: string, d: string, guildId: Option<string>,
                           userNick: string, table: LevelTable, userId: string)
    requires '$' !in a && '$' !in b && '$' !in c
    requires '$' !in Show(guildId) && '$' !in userNick
    requires userId in table
    ensures ReplacePrompt(a + GuildIdToken + b + UserNameToken + c + FavorableToken + d,
                          guildId, userNick, table, userId)
            == Success(a + Show(guildId) + b + userNick + c + IntToString(table[userId].level) + d)
  {
    TokensHeadUnique();
    var g := Show(guildId);
    var lv := IntToString(table[userId].level);
    var prompt := a + GuildIdToken + b + UserNameToken + c + FavorableToken + d;
    var s1 := ReplaceFirst(prompt, GuildIdToken, g);
    var s2 := ReplaceFirst(s1, UserNameToken, userNick);
    var s3 := ReplaceFirst(s2, FavorableToken, lv);
    assert ReplacePrompt(prompt, guildId, userNick, table, userId) == Success(s3);

    var rest1 := b + UserNameToken + c + FavorableToken + d;
    Regroup(a, GuildIdToken, b, UserNameToken, c, FavorableToken, d);
    ReplaceStep(a, GuildIdToken, rest1, g);
    assert s1 == a + g + rest1;

    var pre2 := a + g + b;
    assert '$' !in pre2;
    var rest2 := c + FavorableToken + d;
    Regroup(a, g, b, UserNameToken, c, FavorableToken, d);
    ReplaceStep(pre2, UserNameToken, rest2, userNick);
    assert s2 == pre2 + userNick + rest2;

    var pre3 := a + g + b + userNick + c;
    assert '$' !in pre3;
    Regroup(a, g, b, userNick, c, FavorableToken, d);
    Regroup(a + g, b, userNick, c, FavorableToken, d, "");
    assert s2 == pre3 + FavorableToken + d;
    ReplaceStep(pre3, FavorableToken, d, lv);
  }

  /** The two ways `ReplacePromptWithoutGuildId` cuts a five-piece text. */
  lemma Regroup5(x1: string, x2: string, x3: string, x4: string, x5: string)
    ensures x1 + x2 + x3 + x4 + x5 == x1 + x2 + (x3 + x4 + x5)
    ensures x1 + x2 + x3 + x4 + x5 == (x1 + x2 + x3) + x4 + x5
    ensures x1 + x2 + x3 + x4 + x5 == x1 + (x2 + (x3 + (x4 + x5)))
  {
  }

  /** A prompt shaped as the level prompts are holds no `$guildId`. */
  lemma NoGuildIdInShape(a: string, c: string, d: string)
    requires '$' !in a && '$' !in c && !Contains(d, GuildIdToken)
    ensures !Contains(a + UserNameToken + c + FavorableToken + d, GuildIdToken)
  {
    TokensHeadUnique();
    TokenConcat(FavorableToken, d, GuildIdToken);
    NoHeadConcat(c, FavorableToken + d, GuildIdToken);
    TokenConcat(UserNameToken, c + (FavorableToken + d), GuildIdToken);
    NoHeadConcat(a, UserNameToken + (c + (FavorableToken + d)), GuildIdToken);
    Regroup5(a, UserNameToken, c, FavorableToken, d);
  }

  /** The substitution on a prompt without `$guildId`, as the schema's
      level prompts are: the first `$userName` and the first `$favorable`
      are replaced, and whatever follows the level, a second `$userName`
      included, is left as it was. */
  lemma ReplacePromptWithoutGuildId(a: string, c: string, d: string, guildId: Option<string>,
                                    userNick: string, table: LevelTable, userId: string)
    requires '$' !in a && '$' !in c && '$' !in userNick
    requires !Contains(d, GuildIdToken)
    requires userId in table
    ensures ReplacePrompt(a + UserNameToken + c + FavorableToken + d, guildId, userNick, table, userId)
            == Success(a + userNick + c + IntToString(table[userId].level) + d)
  {
    TokensHeadUnique();
    var lv := IntToString(table[userId].level);
    var prompt := a + UserNameToken + c + FavorableToken + d;
    var s1 := ReplaceFirst(prompt, GuildIdToken, Show(guildId));
    var s2 := ReplaceFirst(s1, UserNameToken, userNick);
    var s3 := ReplaceFirst(s2, FavorableToken, lv);
    assert ReplacePrompt(prompt, guildId, userNick, table, userId) == Success(s3);

    NoGuildIdInShape(a, c, d);
    assert s1 == prompt;

    Regroup5(a, UserNameToken, c, FavorableToken, d);
    ReplaceStep(a, UserNameToken, c + FavorableToken + d, userNick);
    assert s2 == a + userNick + (c + FavorableToken + d);
    Regroup5(a, userNick, c, FavorableToken, d);
    ReplaceStep(a + userNick + c, FavorableToken, d, lv);
    Regroup5(a, userNick, c, lv, d);
  }

  /** A level prompt of the schema's form becomes the nickname and the
      level in the braces, while the `$userName` of the sentence after them
      stays literal. */
  lemma LevelPromptKeepsSecondName(tail: string, guildId: Option<string>, userNick: string,
                                   table: LevelTable, userId: string)
    requires '$' !in tail && '$' !in userNick && userId in table
    ensures ReplacePrompt(LevelPrompt(tail), guildId, userNick, table, userId)
            == Success(LevelPromptHead + userNick + LevelPromptMid + IntToString(table[userId].level)
                       + LevelPromptPoke + UserNameToken + tail)
  {
    TokensHeadUnique();
    NoHeadNoContains(tail, GuildIdToken);
    TokenConcat(UserNameToken, tail, GuildIdToken);
    NoHeadConcat(LevelPromptPoke, UserNameToken + tail, GuildIdToken);
    var d := LevelPromptPoke + UserNameToken + tail;
    assert d == LevelPromptPoke + (UserNameToken + tail);
    var lv := IntToString(table[userId].level);
    Regroup(LevelPromptHead, UserNameToken, LevelPromptMid, FavorableToken, LevelPromptPoke, UserNameToken, tail);
    assert LevelPrompt(tail) == LevelPromptHead + UserNameToken + LevelPromptMid + FavorableToken + d;
    ReplacePromptWithoutGuildId(LevelPromptHead, LevelPromptMid, d, guildId, userNick, table, userId);
    Regroup(LevelPromptHead, userNick, LevelPromptMid, lv, LevelPromptPoke, UserNameToken, tail);
  }

  /** The closing instructions of the schema's level prompts hold no `$`. */
  lemma DefaultLevelTailsPlain()
    ensures '$' !in LevelZeroTail && '$' !in LevelFiftyTail && '$' !in LevelHundredTail
  {
  }

  /** Every default level prompt keeps its second `$userName`. */
  lemma DefaultLevelPromptsKeepSecondName(i: nat, guildId: Option<string>, userNick: string,
                                          table: LevelTable, userId: string)
    requires i < |DefaultLevels|
    requires '$' !in userNick && userId in table
    ensures exists tail :: '$' !in tail &&
              ReplacePrompt(DefaultLevels[i].prompt, guildId, userNick, table, userId)
              == Success(LevelPromptHead + userNick + LevelPromptMid + IntToString(table[userId].level)
                         + LevelPromptPoke + UserNameToken + tail)
  {
    DefaultLevelTailsPlain();
    var tail := if i == 0 then LevelZeroTail else if i == 1 then LevelFiftyTail else LevelHundredTail;
    assert DefaultLevels[i].prompt == LevelPrompt(tail);
    LevelPromptKeepsSecondName(tail, guildId, userNick, table, userId);
  }

  /** A prompt without any `$` comes back unchanged. */
  lemma ReplacePromptWithoutPlaceholders(prompt: string, guildId: Option<string>, userNick: string,
                                         table: LevelTable, userId: string)
    requires '$' !in prompt && userId in table
    ensures ReplacePrompt(prompt, guildId, userNick, table, userId) == Success(prompt)
  {
    NoHeadNoContains(prompt, GuildIdToken);
    NoHeadNoContains(prompt, UserNameToken);
    NoHeadNoContains(prompt, FavorableToken);
  }

  /** Applying the same configuration twice gives what applying it once
      gives. */
  lemma ConfigUpdateIdempotent(bot: Bot, cfg: Config)
    ensures ConfigUpdate(ConfigUpdate(bot, cfg).0, cfg) == ConfigUpdate(bot, cfg)
  {
    var r := ConfigUpdate(bot, cfg);
    var r2 := ConfigUpdate(r.0, cfg);
    if !r.1 {
      assert r2.0.history == r.0.history;
    }
  }

  /** The schema's default poke prompt is accepted. */
  lemma DefaultPokePromptAccepted(cfg: Config)
    requires cfg.pokeFavorable.systemPrompt == Some(DefaultPokePrompt)
    ensures !ConfigUpdate(NewBot(cfg.select.apiEndpoint, cfg.select.apiKey, cfg.select.modelId), cfg).1
  {
    assert !IsJsWhitespace(DefaultPokePrompt[0]);
  }
}
