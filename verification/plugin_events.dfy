/** The `config` event handler of src/index.tsx: the cached conversations
    are reconfigured first, and the poke conversation only when that
    succeeded, since a rejected `onConfigChange` ends the handler. */
module PluginEvents {
  import opened Wrappers
  import opened JsStrings
  import opened PluginConfig
  import opened ChatHistory
  import ConfigService
  import FavorableSystem

  /** The state the handler touches: the conversation cache and the poke
      conversation of the affection service. */
  datatype Bots = Bots(cache: map<string, Bot>, poke: Bot)

  /** The handler's effect. */
  function OnConfig(bots: Bots, cfg: Config): (r: Bots)
    ensures r.cache == ConfigService.OnConfigChange(bots.cache, cfg).0
    ensures ConfigService.OnConfigChange(bots.cache, cfg).1 ==> r.poke == bots.poke
    ensures !ConfigService.OnConfigChange(bots.cache, cfg).1 ==> r.poke == FavorableSystem.ConfigUpdate(bots.poke, cfg).0
  {
    var (cache, rejected) := ConfigService.OnConfigChange(bots.cache, cfg);
    if rejected then Bots(cache, bots.poke)
    else Bots(cache, FavorableSystem.ConfigUpdate(bots.poke, cfg).0)
  }

  /** Every conversation keeps a non-empty history through a configuration
      change, the poke conversation included. */
  lemma OnConfigKeepsValid(bots: Bots, cfg: Config)
    requires forall k :: k in bots.cache ==> Valid(bots.cache[k])
    requires Valid(bots.poke)
    ensures var r := OnConfig(bots, cfg);
            (forall k :: k in r.cache ==> Valid(r.cache[k])) && Valid(r.poke)
  {
    forall k | k in bots.cache
      ensures Valid(OnConfig(bots, cfg).cache[k])
    {
      ConfigService.ConfigChangeTouchesOnlyHead(bots.cache, cfg, k);
    }
  }

  /** One blank per-group prompt keeps the poke conversation on its old
      endpoint, key and model, whatever the new configuration says. */
  lemma BlankGuildPromptBlocksPokeUpdate(bots: Bots, cfg: Config, k: string)
    requires k in bots.cache && IsBlank(ConfigService.GetSystemPrompt(cfg, Some(k)))
    ensures OnConfig(bots, cfg).poke == bots.poke
  {
    assert ConfigService.Reconfigure(bots.cache[k], k, cfg).1;
  }

  /** Delivering the same configuration twice is delivering it once. */
  lemma OnConfigIdempotent(bots: Bots, cfg: Config)
    ensures OnConfig(OnConfig(bots, cfg), cfg) == OnConfig(bots, cfg)
  {
    ConfigService.OnConfigChangeIdempotent(bots.cache, cfg);
    FavorableSystem.ConfigUpdateIdempotent(bots.poke, cfg);
  }
}
