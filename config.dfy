/** The device configuration (main.py, `ConfigManager`) and the interval the sampling loop sleeps. */
module Config {
  import opened Cbor

  const SAMPLING_INTERVAL := "sampling_interval"

  /** The configuration a fresh manager holds. */
  const DEFAULT_CONFIG: map<string, Value> := map[SAMPLING_INTERVAL := VInt(10)]

  /**
    `update_config(new_config)` as a function of the old dict: the one
    recognised key is copied when `new_config` is a dict holding it; any
    other item leaves the configuration as it was (for a non-dict the `in`
    test or the subscript raises and the error is caught).
   */
  function MergeConfig(config: map<string, Value>, update: Value): (r: map<string, Value>)
    ensures update.VMap? && SAMPLING_INTERVAL in update.entries ==>
      r.Keys == config.Keys + {SAMPLING_INTERVAL} && r[SAMPLING_INTERVAL] == update.entries[SAMPLING_INTERVAL]
    ensures !(update.VMap? && SAMPLING_INTERVAL in update.entries) ==> r == config
    ensures forall k :: k in config && k != SAMPLING_INTERVAL ==> k in r && r[k] == config[k]
  {
    if update.VMap? && SAMPLING_INTERVAL in update.entries then
      config[SAMPLING_INTERVAL := update.entries[SAMPLING_INTERVAL]]
    else
      config
  }

  /** Applying the same update twice gives the same configuration as applying it once. */
  lemma MergeConfigIdempotent(config: map<string, Value>, update: Value)
    ensures MergeConfig(MergeConfig(config, update), update) == MergeConfig(config, update)
  {
  }

  /** `cfg.get("sampling_interval", 1)`: how long the sampling loop sleeps next. */
  function SleepInterval(config: map<string, Value>): (r: Value)
    ensures SAMPLING_INTERVAL in config ==> r == config[SAMPLING_INTERVAL]
    ensures SAMPLING_INTERVAL !in config ==> r == VInt(1)
  {
    Get(config, SAMPLING_INTERVAL, VInt(1))
  }

  class ConfigManager {
    var config: map<string, Value>

    /** The key is present from the start and no update removes it. */
    ghost predicate Valid()
      reads this
    {
      SAMPLING_INTERVAL in config
    }

    constructor ()
      ensures Valid() && config == DEFAULT_CONFIG
    {
      config := DEFAULT_CONFIG;
    }

    /** `get_config()`: the live configuration dict. */
    method GetConfig() returns (c: map<string, Value>)
      ensures c == config
    {
      c := config;
    }

    /** `update_config(new_config)`: merges the recognised key into the configuration, never fails. */
    method UpdateConfig(newConfig: Value)
      requires Valid()
      modifies this
      ensures Valid()
      ensures config == MergeConfig(old(config), newConfig)
    {
      if newConfig.VMap? && SAMPLING_INTERVAL in newConfig.entries {
        config := config[SAMPLING_INTERVAL := newConfig.entries[SAMPLING_INTERVAL]];
      }
    }

    /** The interval the sampling loop reads after each sample; with the key always present, it is that key's value. */
    method SampleInterval() returns (interval: Value)
      requires Valid()
      ensures interval == SleepInterval(config) && interval == config[SAMPLING_INTERVAL]
    {
      var cfg := GetConfig();
      interval := Get(cfg, SAMPLING_INTERVAL, VInt(1));
    }
  }
}
