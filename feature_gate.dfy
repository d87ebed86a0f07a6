/**
 * The feature gate (src/core/feature-gate.service.ts): whether a guild has a
 * feature switched on, decided from the feature row fetched through the
 * guild cache, failing closed.
 */
module FeatureGate {
  import opened Common
  import opened GuildCache

  /**
   * The settings parser: for a non-empty JSON text, the truthiness of its
   * `enabled` property, or None when parsing or reading the property throws.
   */
  type ConfigParser = string -> Option<bool>

  /** `safeJsonParse(config, { enabled: false })` followed by `!!config.enabled`. */
  function ConfigEnabled(config: Option<string>, parse: ConfigParser): bool
  {
    if config.None? || config.value == "" then false
    else
      var parsed := parse(config.value);
      parsed.Some? && parsed.value
  }

  /**
   * `isEnabled`, given what the cache lookup produced: an error, no row, or
   * the row. Only a row whose column is on and whose settings say enabled
   * opens the gate.
   */
  function IsEnabled(fetched: Result<Option<GuildFeature>>, parse: ConfigParser): (enabled: bool)
    ensures enabled <==>
      fetched.Ok? && fetched.value.Some? && fetched.value.value.enabled
      && fetched.value.value.config.Some? && fetched.value.value.config.value != ""
      && parse(fetched.value.value.config.value) == Some(true)
  {
    if fetched.Err? then false
    else if fetched.value.None? then false
    else if !fetched.value.value.enabled then false
    else ConfigEnabled(fetched.value.value.config, parse)
  }

  /** The gate fails closed: an error, a missing row or a switched-off column give false whatever the settings. */
  lemma FailsClosed(fetched: Result<Option<GuildFeature>>, parse: ConfigParser)
    requires fetched.Err? || fetched.value.None? || !fetched.value.value.enabled
    ensures !IsEnabled(fetched, parse)
  {
  }

  /** Empty or unparsable settings fall back to `{ enabled: false }`. */
  lemma FallbackIsClosed(feature: GuildFeature, parse: ConfigParser)
    requires feature.config.None? || feature.config.value == "" || parse(feature.config.value).None?
    ensures !IsEnabled(Ok(Some(feature)), parse)
  {
  }

  /**
   * `isEnabled` as the service runs it: the row comes from the guild cache
   * (which may read the table and cache the answer), then the decision is
   * taken on it.
   */
  method IsEnabledVia(cache: GuildCacheService, db: GuildDb, guildId: string, featureKey: string,
                      now: int, parse: ConfigParser) returns (enabled: bool)
    modifies cache`featureCache
    ensures var hit := Hit(old(cache.featureCache), FeatureCacheKey(guildId, featureKey), now);
      var id := FeatureId(guildId, featureKey);
      var row := if hit.Some? then hit.value else if id in db.features then Some(db.features[id]) else None;
      enabled == IsEnabled(Ok(row), parse)
  {
    var feature := cache.GetFeature(db, guildId, featureKey, now);
    enabled := IsEnabled(Ok(feature), parse);
  }

  /** `hasEntitlement`: every guild is entitled to every feature. */
  function HasEntitlement(guildId: string, entitlement: string): (entitled: bool)
    ensures entitled
  {
    true
  }
}
