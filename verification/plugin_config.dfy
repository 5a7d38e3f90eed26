/** The plugin's configuration (the `Config` type of src/index.tsx) and the
    defaults its schema declares. Only the fields the core reads are kept. */
module PluginConfig {
  import opened Wrappers

  /** A chosen platform: where to send requests and with which key and
      model. */
  datatype Select = Select(platform: string, apiEndpoint: string, apiKey: string, modelId: string)

  datatype Detail = Detail(systemPrompt: string, maxToken: int, temperature: real, maxHistory: nat)

  /** One row of `perGuildConfig`; both fields may be left unset. */
  datatype GuildEntry = GuildEntry(guildId: Option<string>, systemPrompt: Option<string>)

  datatype PokeFavorable = PokeFavorable(select: Select, systemPrompt: Option<string>)

  datatype Config = Config(
    select: Select,
    detail: Detail,
    perGuildConfig: seq<GuildEntry>,
    pokeFavorable: PokeFavorable)

  /** The schema default of `detail.systemPrompt`, the text before its
      placeholder and the placeholder with the closing full stop. The
      placeholder is spelt `$guilId`, not `$guildId`. */
  const DefaultSystemPrompt: string := DefaultPromptText + DefaultPromptPlaceholder

  const DefaultPromptText: string :=
    "接下来对话中的json" + "文本均提取userContent" + "为内容，userName是发" + "送该消息的用户名。当前对话发生在群聊"

  const DefaultPromptPlaceholder: string := "$guilId。"

  const DefaultMaxToken: int := 2048
  const DefaultTemperature: real := 0.7
  const DefaultMaxHistory: nat := 40

  /** The schema default of `pokeFavorable.systemPrompt`. */
  const DefaultPokePrompt: string := "你当前在一个群聊，请你生成他人戳你一下的回复，长度不超过200字"

  /** The schema default of `pokeFavorable.levels`: one prompt per level,
      each naming the user twice and the level once, and none naming the
      group. Only the closing instruction differs between levels. */
  datatype LevelEntry = LevelEntry(level: int, prompt: string)

  const LevelPromptHead: string := "{'userName': '"
  const LevelPromptMid: string := "', '好感度': "
  const LevelPromptPoke: string := "}。用户 "

  function LevelPrompt(tail: string): string {
    LevelPromptHead + "$userName" + LevelPromptMid + "$favorable" + LevelPromptPoke + "$userName" + tail
  }

  const LevelZeroTail: string := " 戳了一下你，请你以厌恶、" + "生气、傲娇的语气回复" + "一段话，例如\"你很烦欸，别戳了\""
  const LevelFiftyTail: string := " 戳了一下你，请你以比较好的" + "朋友、平和的语气回复" + "一段话，例如\"别戳了，休息一下吧\""
  const LevelHundredTail: string := " 戳了一下你，请你以恋爱中、" + "喜欢、热恋的语气回复" + "一段话，例如\"欸，有什么事吗\""

  const DefaultLevels: seq<LevelEntry> :=
    [LevelEntry(0, LevelPrompt(LevelZeroTail)),
     LevelEntry(50, LevelPrompt(LevelFiftyTail)),
     LevelEntry(100, LevelPrompt(LevelHundredTail))]

  /** `detail` as the schema fills it in. */
  const DefaultDetail: Detail := Detail(DefaultSystemPrompt, DefaultMaxToken, DefaultTemperature, DefaultMaxHistory)

  /** `perGuildConfig.find(item => item?.guildId === guildId)`, as an index:
      the first row whose id is `guildId`. */
  function FindGuildIndex(entries: seq<GuildEntry>, guildId: string): (r: Option<nat>)
    ensures r.Some? ==> r.value < |entries| && entries[r.value].guildId == Some(guildId)
    ensures r.Some? ==> forall j :: 0 <= j < r.value ==> entries[j].guildId != Some(guildId)
    ensures r.None? ==> forall j :: 0 <= j < |entries| ==> entries[j].guildId != Some(guildId)
  {
    if |entries| == 0 then None
    else if entries[0].guildId == Some(guildId) then Some(0)
    else match FindGuildIndex(entries[1..], guildId)
      case None => None
      case Some(i) => Some(i + 1)
  }

  /** The `systemPrompt` of the first row for `guildId`, `undefined` when
      there is no such row or the row has none. */
  function GuildPrompt(entries: seq<GuildEntry>, guildId: string): (r: Option<string>)
    ensures FindGuildIndex(entries, guildId).Some? ==> r == entries[FindGuildIndex(entries, guildId).value].systemPrompt
    ensures FindGuildIndex(entries, guildId).None? ==> r.None?
    ensures r.Some? ==> exists j :: 0 <= j < |entries| && entries[j].guildId == Some(guildId)
                                    && entries[j].systemPrompt == r
    ensures (forall j :: 0 <= j < |entries| ==> entries[j].guildId != Some(guildId)) ==> r.None?
  {
    match FindGuildIndex(entries, guildId)
    case None => None
    case Some(i) => entries[i].systemPrompt
  }
}
