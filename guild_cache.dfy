/**
 * The read-through cache in front of the guild configuration and guild
 * feature tables (src/services/guild-cache.service.ts). Entries, including
 * "no row" answers, live for five minutes; saves refresh the entry with the
 * row written; `invalidate` drops a guild's entries.
 */
module GuildCache {
  import opened Common

  /** A guildConfig row: its key and the remaining columns by name. */
  datatype GuildConfig = GuildConfig(guildId: string, fields: map<string, string>)

  /** A guildFeature row; `config` is the JSON text of the feature's settings. */
  datatype GuildFeature = GuildFeature(guildId: string, featureKey: string, enabled: bool, config: Option<string>)

  /** The columns a feature save writes. */
  datatype FeatureData = FeatureData(enabled: bool, config: Option<string>)

  datatype FeatureId = FeatureId(guildId: string, featureKey: string)

  /** A cached answer: the row, or None when the table had none, and the expiry time in ms. */
  datatype CacheEntry<T> = CacheEntry(data: Option<T>, expiresAt: int)

  const Ttl := 5 * 60 * 1000

  /** The feature cache key `guildId:featureKey`. */
  function FeatureCacheKey(guildId: string, featureKey: string): (key: string)
    ensures StartsWith(key, guildId + ":") && key[|guildId| + 1..] == featureKey
  {
    StartsWithConcat(guildId + ":", featureKey);
    guildId + ":" + featureKey
  }

  /** The cached answer for `key`, when there is an entry and it has not expired. */
  function Hit<T>(cache: map<string, CacheEntry<T>>, key: string, now: int): (r: Option<Option<T>>)
    ensures r.Some? <==> key in cache && now < cache[key].expiresAt
    ensures r.Some? ==> r.value == cache[key].data
  {
    if key in cache && now < cache[key].expiresAt then Some(cache[key].data) else None
  }

  /** The guildConfig and guildFeature tables. */
  class GuildDb {
    var configs: map<string, GuildConfig>
    var features: map<FeatureId, GuildFeature>

    ghost predicate Valid()
      reads this
    {
      (forall g :: g in configs ==> configs[g].guildId == g)
      && (forall f :: f in features ==> features[f].guildId == f.guildId && features[f].featureKey == f.featureKey)
    }

    constructor()
      ensures Valid() && configs == map[] && features == map[]
    {
      configs := map[];
      features := map[];
    }
  }

  /** The feature row `saveFeature` writes: created or updated, it ends up holding exactly `data`. */
  function SavedFeature(guildId: string, featureKey: string, data: FeatureData): GuildFeature
  {
    GuildFeature(guildId, featureKey, data.enabled, data.config)
  }

  /** The config row `saveConfig` writes: the given columns over the existing row, or over an empty one. */
  function SavedConfig(existing: Option<GuildConfig>, guildId: string, data: map<string, string>): (row: GuildConfig)
    ensures row.guildId == guildId
    ensures forall c :: c in data ==> c in row.fields && row.fields[c] == data[c]
    ensures forall c :: c in row.fields && c !in data ==> existing.Some? && c in existing.value.fields && row.fields[c] == existing.value.fields[c]
  {
    GuildConfig(guildId, (if existing.Some? then existing.value.fields else map[]) + data)
  }

  /** The feature cache after `invalidate(guildId)`: every key with the guild's prefix is gone. */
  function WithoutGuildFeatures(cache: map<string, CacheEntry<GuildFeature>>, guildId: string): map<string, CacheEntry<GuildFeature>>
  {
    map k | k in cache && !StartsWith(k, guildId + ":") :: cache[k]
  }

  class GuildCacheService {
    var configCache: map<string, CacheEntry<GuildConfig>>
    var featureCache: map<string, CacheEntry<GuildFeature>>

    constructor()
      ensures configCache == map[] && featureCache == map[]
    {
      configCache := map[];
      featureCache := map[];
    }

    /** `getConfig`: a live entry answers without reading the table; otherwise the table's answer, row or none, is cached for the TTL. */
    method GetConfig(db: GuildDb, guildId: string, now: int) returns (data: Option<GuildConfig>)
      modifies this`configCache
      ensures var hit := Hit(old(configCache), guildId, now);
        if hit.Some? then data == hit.value && configCache == old(configCache)
        else
          data == (if guildId in db.configs then Some(db.configs[guildId]) else None)
          && configCache == old(configCache)[guildId := CacheEntry(data, now + Ttl)]
    {
      if guildId in configCache && now < configCache[guildId].expiresAt {
        return configCache[guildId].data;
      }
      data := if guildId in db.configs then Some(db.configs[guildId]) else None;
      configCache := configCache[guildId := CacheEntry(data, now + Ttl)];
    }

    /** `saveConfig`: upserts the row and caches the row written with a fresh TTL. */
    method SaveConfig(db: GuildDb, guildId: string, data: map<string, string>, now: int) returns (result: GuildConfig)
      requires db.Valid()
      modifies this`configCache, db`configs
      ensures db.Valid()
      ensures result == SavedConfig(if guildId in old(db.configs) then Some(old(db.configs)[guildId]) else None, guildId, data)
      ensures db.configs == old(db.configs)[guildId := result]
      ensures configCache == old(configCache)[guildId := CacheEntry(Some(result), now + Ttl)]
    {
      var existing := if guildId in db.configs then Some(db.configs[guildId]) else None;
      result := SavedConfig(existing, guildId, data);
      db.configs := db.configs[guildId := result];
      configCache := configCache[guildId := CacheEntry(Some(result), now + Ttl)];
    }

    /** `getFeature`, keyed `guildId:featureKey`. */
    method GetFeature(db: GuildDb, guildId: string, featureKey: string, now: int) returns (data: Option<GuildFeature>)
      modifies this`featureCache
      ensures var key := FeatureCacheKey(guildId, featureKey);
        var hit := Hit(old(featureCache), key, now);
        if hit.Some? then data == hit.value && featureCache == old(featureCache)
        else
          var id := FeatureId(guildId, featureKey);
          data == (if id in db.features then Some(db.features[id]) else None)
          && featureCache == old(featureCache)[key := CacheEntry(data, now + Ttl)]
    {
      var key := guildId + ":" + featureKey;
      if key in featureCache && now < featureCache[key].expiresAt {
        return featureCache[key].data;
      }
      var id := FeatureId(guildId, featureKey);
      data := if id in db.features then Some(db.features[id]) else None;
      featureCache := featureCache[key := CacheEntry(data, now + Ttl)];
    }

    /** `saveFeature`: upserts the row and caches it with a fresh TTL. */
    method SaveFeature(db: GuildDb, guildId: string, featureKey: string, data: FeatureData, now: int) returns (result: GuildFeature)
      requires db.Valid()
      modifies this`featureCache, db`features
      ensures db.Valid()
      ensures result == SavedFeature(guildId, featureKey, data)
      ensures db.features == old(db.features)[FeatureId(guildId, featureKey) := result]
      ensures featureCache == old(featureCache)[FeatureCacheKey(guildId, featureKey) := CacheEntry(Some(result), now + Ttl)]
    {
      var key := guildId + ":" + featureKey;
      result := SavedFeature(guildId, featureKey, data);
      db.features := db.features[FeatureId(guildId, featureKey) := result];
      featureCache := featureCache[key := CacheEntry(Some(result), now + Ttl)];
    }

    /** `invalidate`: drops the guild's config entry and, key by key, every feature entry with the guild's prefix. */
    method Invalidate(guildId: string)
      modifies this
      ensures configCache == old(configCache) - {guildId}
      ensures featureCache == WithoutGuildFeatures(old(featureCache), guildId)
    {
      configCache := configCache - {guildId};
      var prefix := guildId + ":";
      var remaining := featureCache.Keys;
      while remaining != {}
        invariant configCache == old(configCache) - {guildId}
        invariant remaining <= old(featureCache).Keys
        invariant featureCache == map k | k in old(featureCache) && (k in remaining || !StartsWith(k, prefix)) :: old(featureCache)[k]
        decreases remaining
      {
        var key :| key in remaining;
        if StartsWith(key, prefix) {
          featureCache := featureCache - {key};
        }
        remaining := remaining - {key};
      }
    }
  }

  /** A value cached at time `t` (by a save, or by a miss) is what every read before `t + Ttl` returns. */
  lemma CachedUntilExpiry<T>(cache: map<string, CacheEntry<T>>, key: string, data: Option<T>, t: int, now: int)
    requires now < t + Ttl
    ensures Hit(cache[key := CacheEntry(data, t + Ttl)], key, now) == Some(data)
  {
  }

  /** From the expiry time on, the entry no longer answers and the table is read again. */
  lemma ExpiredEntryMisses<T>(cache: map<string, CacheEntry<T>>, key: string, now: int)
    requires key in cache && cache[key].expiresAt <= now
    ensures Hit(cache, key, now).None?
  {
  }

  /**
   * `invalidate(g)` keeps exactly the feature entries without the prefix
   * `g:`; for guild ids without ':' that is every entry of every other guild.
   */
  lemma {:induction false} InvalidateKeepsOtherGuilds(cache: map<string, CacheEntry<GuildFeature>>, g: string, h: string, featureKey: string)
    requires ':' !in g && ':' !in h && g != h
    requires FeatureCacheKey(h, featureKey) in cache
    ensures var k := FeatureCacheKey(h, featureKey);
      k in WithoutGuildFeatures(cache, g) && WithoutGuildFeatures(cache, g)[k] == cache[k]
    ensures FeatureCacheKey(g, featureKey) !in WithoutGuildFeatures(cache, g)
  {
    var k := FeatureCacheKey(h, featureKey);
    if |g| < |h| {
      assert k[|g|] == h[|g|] && h[|g|] in h;
    } else if |g| > |h| {
      assert k[|h|] == ':' && (g + ":")[|h|] == g[|h|] && g[|h|] in g;
    } else {
      assert k[..|g|] == h;
    }
  }
}
