/**
 * Statistics channels (src/services/server-stats.service.ts): a category of
 * channels whose names show guild counts. The fast path debounces the
 * "online" count per guild; the background path makes sure the category and
 * one channel per configured statistic exist, renames them, and removes the
 * channels of statistics no longer configured.
 */
module ServerStatsService {
  import opened Common
  import opened GuildCache

  const OnlineDebounceMs := 6000
  const OnlineMinIntervalMs := 30000

  /** The server-stats feature settings. `channelIds` maps a statistic to its channel. */
  datatype StatsConfig = StatsConfig(enabled: bool, channelType: string, stats: seq<string>,
                                     categoryId: Option<string>, channelIds: Option<map<string, string>>)

  const FallbackConfig := StatsConfig(false, "voice", [], None, None)

  /** `getConfig`: no feature row gives none; empty or unparsable settings give the fallback. */
  function GetConfig(feature: Option<GuildFeature>, parse: string -> Option<StatsConfig>): (config: Option<StatsConfig>)
    ensures feature.None? <==> config.None?
    ensures feature.Some? && (feature.value.config.None? || feature.value.config.value == "") ==> config == Some(FallbackConfig)
  {
    if feature.None? then None
    else if feature.value.config.None? || feature.value.config.value == "" then Some(FallbackConfig)
    else
      var parsed := parse(feature.value.config.value);
      Some(if parsed.Some? then parsed.value else FallbackConfig)
  }

  /**
   * The delay before a triggered online update runs: within the minimum
   * interval of the last run (and not forced) it waits until one second past
   * that interval, otherwise for the debounce time. A missing last run counts
   * as time 0.
   */
  function OnlineDelay(force: bool, lastRun: int, now: int): (delay: int)
    ensures !force && now - lastRun < OnlineMinIntervalMs ==> now + delay == lastRun + OnlineMinIntervalMs + 1000
    ensures force || now - lastRun >= OnlineMinIntervalMs ==> delay == OnlineDebounceMs
  {
    var timeSince := now - lastRun;
    if !force && timeSince < OnlineMinIntervalMs then OnlineMinIntervalMs - timeSince + 1000
    else OnlineDebounceMs
  }

  /** A rate-limited update waits between one and thirty-one seconds when the last run is not in the future. */
  lemma OnlineDelayBounds(force: bool, lastRun: int, now: int)
    requires lastRun <= now
    ensures 1000 < OnlineDelay(force, lastRun, now) <= OnlineMinIntervalMs + 1000
  {
  }

  /** The debounce timers (as the time each is due) and the time of each guild's last online update. */
  class OnlineScheduler {
    var pending: map<string, int>
    var lastRun: map<string, int>

    constructor()
      ensures pending == map[] && lastRun == map[]
    {
      pending := map[];
      lastRun := map[];
    }

    /** `triggerOnlineUpdate`: any pending timer of the guild is replaced by one due after `OnlineDelay`. */
    method TriggerOnlineUpdate(guildId: string, now: int, force: bool) returns (delay: int)
      modifies this`pending
      ensures var last := if guildId in lastRun then lastRun[guildId] else 0;
        delay == OnlineDelay(force, last, now)
      ensures pending == old(pending)[guildId := now + delay]
    {
      var last := if guildId in lastRun then lastRun[guildId] else 0;
      var timeSince := now - last;
      if !force && timeSince < OnlineMinIntervalMs {
        delay := OnlineMinIntervalMs - timeSince + 1000;
        pending := pending[guildId := now + delay];
        return;
      }
      delay := OnlineDebounceMs;
      pending := pending[guildId := now + delay];
    }

    /**
     * `performOnlineUpdate`: stamps the last run first; then, only when the
     * config is enabled, lists `online` and the guild could be fetched, runs
     * `updateChannelName` for `online`. That does nothing without a
     * category, renames an existing channel whose name differs, and
     * otherwise creates the channel, records it and saves the settings,
     * which is what `saved` holds.
     */
    method PerformOnlineUpdate(guildId: string, now: int, config: Option<StatsConfig>, guildFetched: bool,
                               counts: GuildCounts, live: map<string, string>, newChannelId: string)
      returns (saved: Option<StatsConfig>, effects: seq<ChannelEffect>)
      modifies this`lastRun
      ensures lastRun == old(lastRun)[guildId := now]
      ensures !(config.Some? && config.value.enabled && "online" in config.value.stats && guildFetched) ==>
        saved.None? && effects == []
      ensures config.Some? && config.value.enabled && "online" in config.value.stats && guildFetched ==>
        var c := config.value;
        var name := StatValueName("online", counts);
        var ids := if c.channelIds.Some? then c.channelIds.value else map[];
        var existing := "online" in ids && ids["online"] != "" && ids["online"] in live;
        (c.categoryId.None? || c.categoryId.value == "" ==> saved.None? && effects == [])
        && (c.categoryId.Some? && c.categoryId.value != "" && !existing ==>
              saved == Some(c.(channelIds := Some(ids["online" := newChannelId])))
              && effects == [CreatedChannel("online", newChannelId, name, c.categoryId.value)])
        && (c.categoryId.Some? && c.categoryId.value != "" && existing ==>
              saved.None? && effects == (if live[ids["online"]] != name then [Renamed(ids["online"], name)] else []))
    {
      lastRun := lastRun[guildId := now];
      saved := None;
      effects := [];
      if config.None? || !config.value.enabled {
        return;
      }
      if "online" !in config.value.stats {
        return;
      }
      if !guildFetched {
        return;
      }
      var working := new LiveStatsConfig(config.value);
      var live';
      effects, live' := working.UpdateChannelName("online", StatValueName("online", counts), live, newChannelId);
      if |effects| == 1 && effects[0].CreatedChannel? {
        saved := Some(working.Value());
      }
    }
  }

  /** Right after an online update has run, the next trigger is held back until one second past the minimum interval. */
  lemma NextTriggerAfterRunIsDelayed(now: int, later: int)
    requires now <= later < now + OnlineMinIntervalMs
    ensures later + OnlineDelay(false, now, later) == now + OnlineMinIntervalMs + 1000
  {
  }

  /** A cached member as the counters see it. */
  datatype StatMember = StatMember(isBot: bool, presence: Option<string>, roles: set<string>)

  /** Online for the member counter: a human whose status is online, idle or do-not-disturb. */
  predicate CountsOnline(m: StatMember)
  {
    !m.isBot && m.presence.Some? && m.presence.value in {"online", "idle", "dnd"}
  }

  /** Online for the staff counters: any known status other than offline, and one of the roles. */
  predicate StaffPresent(m: StatMember, roleIds: seq<string>)
  {
    m.presence.Some? && m.presence.value != "offline" && exists r :: r in m.roles && r in roleIds
  }

  function CountWhere(members: seq<StatMember>, p: StatMember -> bool): (n: nat)
    ensures n <= |members|
  {
    if |members| == 0 then 0
    else CountWhere(members[..|members| - 1], p) + (if p(members[|members| - 1]) then 1 else 0)
  }

  function CountOnline(members: seq<StatMember>): nat
  {
    CountWhere(members, CountsOnline)
  }

  /** Staff role ids: admin and mod roles, each once. */
  function StaffRoleIds(adminRoles: seq<string>, modRoles: seq<string>): (ids: seq<string>)
    ensures NoDuplicates(ids)
    ensures forall r :: r in ids <==> r in adminRoles || r in modRoles
  {
    DedupeProps(adminRoles + modRoles);
    Dedupe(adminRoles + modRoles)
  }

  /** The counted members holding one of `roleIds`, zero when there are none. */
  function CountWithRoles(members: seq<StatMember>, roleIds: seq<string>): nat
  {
    if |roleIds| == 0 then 0 else CountWhere(members, (m: StatMember) => StaffPresent(m, roleIds))
  }

  lemma {:induction false} CountWhereImplies(members: seq<StatMember>, p: StatMember -> bool, q: StatMember -> bool)
    requires forall m :: p(m) ==> q(m)
    ensures CountWhere(members, p) <= CountWhere(members, q)
  {
    if |members| > 0 {
      CountWhereImplies(members[..|members| - 1], p, q);
    }
  }

  /** Bots are never online; online members are never more than the humans. */
  lemma OnlineAtMostHumans(members: seq<StatMember>)
    ensures CountOnline(members) <= CountWhere(members, (m: StatMember) => !m.isBot)
  {
    CountWhereImplies(members, CountsOnline, (m: StatMember) => !m.isBot);
  }

  /** Staff online counts the members holding an admin or a mod role, so it is at least each of the two counts. */
  lemma StaffCoversAdminsAndMods(members: seq<StatMember>, adminRoles: seq<string>, modRoles: seq<string>)
    ensures CountWithRoles(members, adminRoles) <= CountWithRoles(members, StaffRoleIds(adminRoles, modRoles))
    ensures CountWithRoles(members, modRoles) <= CountWithRoles(members, StaffRoleIds(adminRoles, modRoles))
  {
    var staff := StaffRoleIds(adminRoles, modRoles);
    if |adminRoles| > 0 {
      assert adminRoles[0] in staff;
      CountWhereImplies(members, (m: StatMember) => StaffPresent(m, adminRoles), (m: StatMember) => StaffPresent(m, staff));
    }
    if |modRoles| > 0 {
      assert modRoles[0] in staff;
      CountWhereImplies(members, (m: StatMember) => StaffPresent(m, modRoles), (m: StatMember) => StaffPresent(m, staff));
    }
  }

  /** What the channel names report; the role lists are those of the guild config, when there is one. */
  datatype GuildCounts = GuildCounts(memberCount: nat, members: seq<StatMember>, roleLists: Option<(seq<string>, seq<string>)>)

  function AdminRoles(c: GuildCounts): seq<string>
  {
    if c.roleLists.Some? then c.roleLists.value.0 else []
  }

  function ModRoles(c: GuildCounts): seq<string>
  {
    if c.roleLists.Some? then c.roleLists.value.1 else []
  }

  const MembersLabel := "Members: "
  const OnlineLabel := "Online: "
  const StaffOnlineLabel := "Staff Online: "
  const AdminsLabel := "Admins Online: "
  const ModsLabel := "Mods Online: "
  const BotsLabel := "Bots: "
  const KnownStats: set<string> := {"members", "online", "staff_online", "admins", "mods", "bots"}

  /** `getStatValueName`: a label and a count for the six known statistics; any other name renders as itself. */
  function StatValueName(stat: string, c: GuildCounts): (name: string)
    ensures stat !in KnownStats ==> name == stat
    ensures stat == "members" ==> name == MembersLabel + NatToString(c.memberCount)
    ensures stat == "online" ==> name == OnlineLabel + NatToString(CountOnline(c.members))
  {
    match stat
    case "members" => MembersLabel + NatToString(c.memberCount)
    case "online" => OnlineLabel + NatToString(CountOnline(c.members))
    case "staff_online" => StaffOnlineLabel + NatToString(CountWithRoles(c.members, StaffRoleIds(AdminRoles(c), ModRoles(c))))
    case "admins" => AdminsLabel + NatToString(CountWithRoles(c.members, AdminRoles(c)))
    case "mods" => ModsLabel + NatToString(CountWithRoles(c.members, ModRoles(c)))
    case "bots" => BotsLabel + NatToString(CountWhere(c.members, (m: StatMember) => m.isBot))
    case _ => stat
  }

  /** A change made on the guild's channels. */
  datatype ChannelEffect =
    | CreatedCategory(categoryId: string)
    | CreatedChannel(stat: string, channelId: string, name: string, parentId: string)
    | Renamed(channelId: string, name: string)
    | Deleted(channelId: string)

  /** The settings object the background update works on and changes in place. */
  class LiveStatsConfig {
    var enabled: bool
    var channelType: string
    var stats: seq<string>
    var categoryId: Option<string>
    var channelIds: Option<map<string, string>>

    constructor(c: StatsConfig)
      ensures Value() == c
    {
      enabled := c.enabled;
      channelType := c.channelType;
      stats := c.stats;
      categoryId := c.categoryId;
      channelIds := c.channelIds;
    }

    function Value(): StatsConfig
      reads this
    {
      StatsConfig(enabled, channelType, stats, categoryId, channelIds)
    }

    /**
     * `ensureStructure`: keeps a category id that names a cached channel
     * (and is neither empty nor `NEW`); otherwise records the category just
     * created.
     */
    method EnsureStructure(live: map<string, string>, newCategoryId: string) returns (effects: seq<ChannelEffect>)
      modifies this`categoryId
      ensures var keep := old(categoryId).Some? && old(categoryId).value != "" && old(categoryId).value != "NEW"
                          && old(categoryId).value in live;
        (keep ==> categoryId == old(categoryId) && effects == [])
        && (!keep ==> categoryId == Some(newCategoryId) && effects == [CreatedCategory(newCategoryId)])
    {
      var found := false;
      if categoryId.Some? && categoryId.value != "" && categoryId.value != "NEW" {
        found := categoryId.value in live;
      }
      effects := [];
      if !found {
        categoryId := Some(newCategoryId);
        effects := [CreatedCategory(newCategoryId)];
      }
    }

    /**
     * `updateChannelName` for one statistic. Without a category nothing
     * happens. A statistic whose recorded channel is not cached gets a new
     * channel, recorded under its name; an existing channel is renamed only
     * when its name differs. `live` maps cached channel ids to names.
     */
    method UpdateChannelName(stat: string, valueName: string, live: map<string, string>, newChannelId: string)
      returns (effects: seq<ChannelEffect>, live': map<string, string>)
      modifies this`channelIds
      ensures old(categoryId).None? || old(categoryId).value == "" ==>
        channelIds == old(channelIds) && effects == [] && live' == live
      ensures old(categoryId).Some? && old(categoryId).value != "" ==>
        var ids := if old(channelIds).Some? then old(channelIds).value else map[];
        var existing := stat in ids && ids[stat] != "" && ids[stat] in live;
        (!existing ==> channelIds == Some(ids[stat := newChannelId]) && live' == live[newChannelId := valueName]
                       && effects == [CreatedChannel(stat, newChannelId, valueName, old(categoryId).value)])
        && (existing ==> channelIds == Some(ids) && live' == live[ids[stat] := valueName]
                         && effects == (if live[ids[stat]] != valueName then [Renamed(ids[stat], valueName)] else []))
    {
      live' := live;
      effects := [];
      if categoryId.None? || categoryId.value == "" {
        return;
      }
      var parentId := categoryId.value;
      if channelIds.None? {
        channelIds := Some(map[]);
      }
      var ids := channelIds.value;
      if !(stat in ids && ids[stat] != "" && ids[stat] in live) {
        channelIds := Some(ids[stat := newChannelId]);
        live' := live[newChannelId := valueName];
        effects := [CreatedChannel(stat, newChannelId, valueName, parentId)];
        return;
      }
      var id := ids[stat];
      if live[id] != valueName {
        effects := [Renamed(id, valueName)];
        live' := live[id := valueName];
      }
    }

    /** `cleanupUnusedChannels`: entry by entry, drops the channels of statistics no longer configured. */
    method CleanupUnusedChannels(live: map<string, string>) returns (effects: seq<ChannelEffect>)
      modifies this`channelIds
      ensures old(channelIds).None? ==> channelIds.None? && effects == []
      ensures old(channelIds).Some? ==>
        channelIds == Some(map k | k in old(channelIds).value && k in stats :: old(channelIds).value[k])
      ensures old(channelIds).Some? ==>
        forall k :: k in old(channelIds).value && k !in stats && old(channelIds).value[k] in live ==>
          Deleted(old(channelIds).value[k]) in effects
      ensures forall e :: e in effects ==>
        e.Deleted? && e.channelId in live && old(channelIds).Some?
        && exists k :: k in old(channelIds).value && k !in stats && old(channelIds).value[k] == e.channelId
    {
      effects := [];
      if channelIds.None? {
        return;
      }
      var before := channelIds.value;
      var remaining := before.Keys;
      while remaining != {}
        invariant remaining <= before.Keys
        invariant channelIds.Some?
        invariant forall k :: k in channelIds.value <==> k in before && (k in remaining || k in stats)
        invariant forall k :: k in channelIds.value ==> channelIds.value[k] == before[k]
        invariant forall k :: k in before && k !in remaining && k !in stats && before[k] in live ==> Deleted(before[k]) in effects
        invariant forall e :: e in effects ==>
          e.Deleted? && e.channelId in live && exists k :: k in before && k !in stats && before[k] == e.channelId
        decreases remaining
      {
        var key :| key in remaining;
        if key !in stats {
          var id := before[key];
          if id in live {
            effects := effects + [Deleted(id)];
          }
          channelIds := Some(channelIds.value - {key});
        }
        remaining := remaining - {key};
      }
      assert channelIds.value == map k | k in before && k in stats :: before[k];
    }
  }

  /** The statistics the background loop refreshes: all configured ones but `online`. */
  function BackgroundStats(stats: seq<string>): (r: seq<string>)
    ensures forall s :: s in r <==> s in stats && s != "online"
  {
    if |stats| == 0 then []
    else BackgroundStats(stats[..|stats| - 1]) + (if stats[|stats| - 1] == "online" then [] else [stats[|stats| - 1]])
  }

  /** The recorded channel ids, an absent record read as an empty one. */
  function IdsOf(channelIds: Option<map<string, string>>): map<string, string>
  {
    if channelIds.Some? then channelIds.value else map[]
  }

  /**
   * What the background loop carries from one statistic to the next: the
   * recorded channel ids, the cached channels' names and the effects so far.
   */
  datatype Refresh = Refresh(ids: map<string, string>, shown: map<string, string>, effects: seq<ChannelEffect>)

  /** A statistic whose recorded channel is cached: `updateChannelName` renames it rather than creating one. */
  predicate Settled(r: Refresh, stat: string)
  {
    stat in r.ids && r.ids[stat] != "" && r.ids[stat] in r.shown
  }

  /**
   * `updateChannelName` for one statistic once a category exists: a settled
   * statistic's channel is renamed when its name differs, any other gets a
   * new channel `newId`, recorded under the statistic.
   */
  function UpdateOne(r: Refresh, stat: string, name: string, parentId: string, newId: string): (r': Refresh)
    ensures stat in r'.ids && r'.ids[stat] in r'.shown && r'.shown[r'.ids[stat]] == name
    ensures Settled(r, stat) ==> r'.ids == r.ids
    ensures !Settled(r, stat) ==> r'.ids == r.ids[stat := newId]
  {
    if Settled(r, stat) then
      var id := r.ids[stat];
      Refresh(r.ids, r.shown[id := name], r.effects + (if r.shown[id] != name then [Renamed(id, name)] else []))
    else
      Refresh(r.ids[stat := newId], r.shown[newId := name], r.effects + [CreatedChannel(stat, newId, name, parentId)])
  }

  /** The loop of `performBackgroundUpdate` over the configured statistics, skipping `online`. */
  function RefreshAll(stats: seq<string>, start: Refresh, counts: GuildCounts, parentId: string,
                      channelFor: string -> string): Refresh
  {
    if |stats| == 0 then start
    else
      var prev := RefreshAll(stats[..|stats| - 1], start, counts, parentId, channelFor);
      var stat := stats[|stats| - 1];
      if stat == "online" then prev
      else UpdateOne(prev, stat, StatValueName(stat, counts), parentId, channelFor(stat))
  }

  /** A statistic settled before an update stays settled on the same channel. */
  lemma UpdateKeepsSettled(r: Refresh, stat: string, name: string, parentId: string, newId: string, s: string)
    requires Settled(r, s)
    ensures var r' := UpdateOne(r, stat, name, parentId, newId);
      Settled(r', s) && r'.ids[s] == r.ids[s] && r.effects <= r'.effects
  {
  }

  /**
   * The loop only touches refreshed statistics: every channel it creates is
   * one of theirs, under their own name and in the category, and every
   * rename gives a refreshed statistic's recorded channel that statistic's
   * name. `online` and unconfigured statistics get no effect.
   */
  lemma {:induction false} RefreshEffectsScope(stats: seq<string>, start: Refresh, counts: GuildCounts, parentId: string,
                                               channelFor: string -> string)
    requires start.effects == []
    ensures var r := RefreshAll(stats, start, counts, parentId, channelFor);
      forall e :: e in r.effects ==>
        (e.CreatedChannel? && e.stat in BackgroundStats(stats) && e.name == StatValueName(e.stat, counts)
         && e.parentId == parentId && e.channelId == channelFor(e.stat))
        || (e.Renamed? && exists s :: s in BackgroundStats(stats) && Settled(r, s) && r.ids[s] == e.channelId
                                      && e.name == StatValueName(s, counts))
  {
    if |stats| > 0 {
      var init := stats[..|stats| - 1];
      var stat := stats[|stats| - 1];
      RefreshEffectsScope(init, start, counts, parentId, channelFor);
      var prev := RefreshAll(init, start, counts, parentId, channelFor);
      var r := RefreshAll(stats, start, counts, parentId, channelFor);
      if stat != "online" {
        var name := StatValueName(stat, counts);
        forall e | e in r.effects
          ensures (e.CreatedChannel? && e.stat in BackgroundStats(stats) && e.name == StatValueName(e.stat, counts)
                   && e.parentId == parentId && e.channelId == channelFor(e.stat))
                  || (e.Renamed? && exists s :: s in BackgroundStats(stats) && Settled(r, s) && r.ids[s] == e.channelId
                                                && e.name == StatValueName(s, counts))
        {
          if e in prev.effects {
            if e.Renamed? {
              var s :| s in BackgroundStats(init) && Settled(prev, s) && prev.ids[s] == e.channelId
                       && e.name == StatValueName(s, counts);
              UpdateKeepsSettled(prev, stat, name, parentId, channelFor(stat), s);
            }
          } else if Settled(prev, stat) {
            UpdateKeepsSettled(prev, stat, name, parentId, channelFor(stat), stat);
          }
        }
      }
    }
  }

  /**
   * Recorded ids the loop keeps: an unrefreshed statistic's (`online`'s
   * among them) and a settled one's. Every refreshed statistic ends up
   * recorded, and nothing else is added.
   */
  lemma {:induction false} RefreshKeepsIds(stats: seq<string>, start: Refresh, counts: GuildCounts, parentId: string,
                                           channelFor: string -> string)
    ensures var r := RefreshAll(stats, start, counts, parentId, channelFor);
      (forall k :: k in start.ids && (k !in BackgroundStats(stats) || Settled(start, k)) ==>
         k in r.ids && r.ids[k] == start.ids[k])
      && (forall k :: k in r.ids ==> k in start.ids || k in BackgroundStats(stats))
      && (forall s :: s in BackgroundStats(stats) ==> s in r.ids)
  {
    if |stats| > 0 {
      var init := stats[..|stats| - 1];
      var stat := stats[|stats| - 1];
      RefreshKeepsIds(init, start, counts, parentId, channelFor);
      var prev := RefreshAll(init, start, counts, parentId, channelFor);
      if stat != "online" {
        forall k | k in start.ids && Settled(start, k)
          ensures Settled(prev, k) && prev.ids[k] == start.ids[k]
        {
          SettledStays(init, start, counts, parentId, channelFor, k);
        }
      }
    }
  }

  /** A statistic settled at the start stays settled on its recorded channel. */
  lemma {:induction false} SettledStays(stats: seq<string>, start: Refresh, counts: GuildCounts, parentId: string,
                                        channelFor: string -> string, k: string)
    requires Settled(start, k)
    ensures var r := RefreshAll(stats, start, counts, parentId, channelFor);
      Settled(r, k) && r.ids[k] == start.ids[k]
  {
    if |stats| > 0 {
      var init := stats[..|stats| - 1];
      var stat := stats[|stats| - 1];
      SettledStays(init, start, counts, parentId, channelFor, k);
      if stat != "online" {
        UpdateKeepsSettled(RefreshAll(init, start, counts, parentId, channelFor), stat, StatValueName(stat, counts),
                           parentId, channelFor(stat), k);
      }
    }
  }

  /**
   * Discord's guarantee about new channels, as the loop needs it: the id a
   * new channel gets is recorded for no statistic, and two new channels get
   * two ids.
   */
  ghost predicate NewIdsFresh(start: Refresh, channelFor: string -> string)
  {
    (forall s, k :: k in start.ids ==> channelFor(s) != start.ids[k])
    && (forall s, t :: s != t ==> channelFor(s) != channelFor(t))
  }

  /** Two statistics never share a cached channel in the stored settings. */
  predicate RecordedIdsDistinct(start: Refresh)
  {
    forall a, b :: a in start.ids && b in start.ids && a != b && start.ids[a] in start.shown ==> start.ids[a] != start.ids[b]
  }

  /** A cached `members` channel whose name is stale is renamed to the current count, and nothing else happens. */
  lemma StaleChannelRenamed(counts: GuildCounts, parentId: string, channelFor: string -> string)
    ensures var r := RefreshAll(["members", "online"], Refresh(map["members" := "ch1", "online" := "ch2"],
                                                               map["ch1" := "stale name", "ch2" := "Online: 0"], []),
                                counts, parentId, channelFor);
      r.effects == [Renamed("ch1", StatValueName("members", counts))]
      && r.shown == map["ch1" := StatValueName("members", counts), "ch2" := "Online: 0"]
  {
    var stats := ["members", "online"];
    var start := Refresh(map["members" := "ch1", "online" := "ch2"], map["ch1" := "stale name", "ch2" := "Online: 0"], []);
    var name := StatValueName("members", counts);
    RefreshAllStep(stats, 0, start, counts, parentId, channelFor);
    RefreshAllStep(stats, 1, start, counts, parentId, channelFor);
    assert stats[..0] == [] && stats[..2] == stats;
    assert "ch1" != "" && Settled(start, "members");
    assert name[0] == 'M' != "stale name"[0];
    assert map["ch1" := "stale name", "ch2" := "Online: 0"]["ch1" := StatValueName("members", counts)]
           == map["ch1" := StatValueName("members", counts), "ch2" := "Online: 0"];
  }

  /** Each recorded id is the stored one or the id of the statistic's new channel. */
  ghost predicate IdsFromStartOrNew(r: Refresh, start: Refresh, channelFor: string -> string)
  {
    forall k :: k in r.ids ==> (k in start.ids && r.ids[k] == start.ids[k]) || r.ids[k] == channelFor(k)
  }

  /** A stored id is cached now only if it was cached at the start. */
  predicate CachedOnlyIfWas(r: Refresh, start: Refresh)
  {
    forall k :: k in start.ids && start.ids[k] in r.shown ==> start.ids[k] in start.shown
  }

  /** Every statistic in `done` is recorded on a cached channel showing its value. */
  predicate ShowsNames(r: Refresh, counts: GuildCounts, done: seq<string>)
  {
    forall s :: s in done ==> s in r.ids && r.ids[s] in r.shown && r.shown[r.ids[s]] == StatValueName(s, counts)
  }

  /** Every other statistic with a cached channel at the start keeps that channel and its name. */
  predicate OthersKept(r: Refresh, start: Refresh, done: seq<string>)
  {
    forall k :: k in start.ids && k !in done && start.ids[k] in start.shown ==>
      k in r.ids && r.ids[k] == start.ids[k] && start.ids[k] in r.shown && r.shown[start.ids[k]] == start.shown[start.ids[k]]
  }

  ghost predicate Origins(r: Refresh, start: Refresh, counts: GuildCounts, channelFor: string -> string, done: seq<string>)
  {
    IdsFromStartOrNew(r, start, channelFor) && CachedOnlyIfWas(r, start) && ShowsNames(r, counts, done) && OthersKept(r, start, done)
  }

  /**
   * With fresh ids for new channels and settings in which no two statistics
   * share a cached channel, the loop leaves every refreshed statistic's
   * channel showing `getStatValueName` of it, keeps the name of every other
   * statistic's cached channel (`online`'s among them), and no such channel
   * is a refreshed statistic's.
   */
  lemma RefreshShowsNames(stats: seq<string>, start: Refresh, counts: GuildCounts, parentId: string,
                          channelFor: string -> string)
    requires NewIdsFresh(start, channelFor) && RecordedIdsDistinct(start)
    ensures var r := RefreshAll(stats, start, counts, parentId, channelFor);
      (forall s :: s in BackgroundStats(stats) ==>
         s in r.ids && r.ids[s] in r.shown && r.shown[r.ids[s]] == StatValueName(s, counts))
      && (forall k :: k in start.ids && k !in BackgroundStats(stats) && start.ids[k] in start.shown ==>
            k in r.ids && r.ids[k] == start.ids[k] && start.ids[k] in r.shown
            && r.shown[start.ids[k]] == start.shown[start.ids[k]])
      && (forall k, s :: k in r.ids && k !in BackgroundStats(stats) && r.ids[k] in r.shown && s in BackgroundStats(stats) ==>
            r.ids[k] != r.ids[s])
  {
    var r := RefreshAll(stats, start, counts, parentId, channelFor);
    RefreshOrigins(stats, start, counts, parentId, channelFor);
    RefreshKeepsIds(stats, start, counts, parentId, channelFor);
    forall k, s | k in r.ids && k !in BackgroundStats(stats) && r.ids[k] in r.shown && s in BackgroundStats(stats)
      ensures r.ids[k] != r.ids[s]
    {
      assert k in start.ids && r.ids[k] == start.ids[k];
    }
  }

  /** The induction behind `RefreshShowsNames`. */
  lemma {:induction false} RefreshOrigins(stats: seq<string>, start: Refresh, counts: GuildCounts, parentId: string,
                                          channelFor: string -> string)
    requires NewIdsFresh(start, channelFor) && RecordedIdsDistinct(start)
    ensures Origins(RefreshAll(stats, start, counts, parentId, channelFor), start, counts, channelFor, BackgroundStats(stats))
  {
    if |stats| > 0 {
      var init := stats[..|stats| - 1];
      var stat := stats[|stats| - 1];
      RefreshOrigins(init, start, counts, parentId, channelFor);
      if stat != "online" {
        OriginsStep(RefreshAll(init, start, counts, parentId, channelFor), start, counts, parentId, channelFor,
                    BackgroundStats(init), stat);
      }
    }
  }

  /** One `updateChannelName` keeps `Origins`, with the updated statistic added to those shown. */
  lemma OriginsStep(prev: Refresh, start: Refresh, counts: GuildCounts, parentId: string, channelFor: string -> string,
                    done: seq<string>, stat: string)
    requires NewIdsFresh(start, channelFor) && RecordedIdsDistinct(start)
    requires Origins(prev, start, counts, channelFor, done)
    ensures Origins(UpdateOne(prev, stat, StatValueName(stat, counts), parentId, channelFor(stat)), start, counts, channelFor,
                    done + [stat])
  {
    if Settled(prev, stat) {
      RenameKeepsOrigins(prev, start, counts, parentId, channelFor, done, stat, StatValueName(stat, counts));
    } else {
      CreateKeepsOrigins(prev, start, counts, parentId, channelFor, done, stat, StatValueName(stat, counts));
    }
  }

  /** A rename writes the settled statistic's channel, which no other shown or kept statistic uses. */
  lemma RenameKeepsOrigins(prev: Refresh, start: Refresh, counts: GuildCounts, parentId: string, channelFor: string -> string,
                           done: seq<string>, stat: string, name: string)
    requires NewIdsFresh(start, channelFor) && RecordedIdsDistinct(start)
    requires Origins(prev, start, counts, channelFor, done)
    requires Settled(prev, stat) && name == StatValueName(stat, counts)
    ensures Origins(UpdateOne(prev, stat, name, parentId, channelFor(stat)), start, counts, channelFor, done + [stat])
  {
    var written := prev.ids[stat];
    var r := UpdateOne(prev, stat, name, parentId, channelFor(stat));
    assert r.ids == prev.ids && r.shown == prev.shown[written := name];
    assert written == channelFor(stat) || (stat in start.ids && written == start.ids[stat] && written in start.shown);
    assert forall s :: s in prev.ids && s != stat && (s in done || (s in start.ids && prev.ids[s] == start.ids[s] && start.ids[s] in start.shown)) ==>
      prev.ids[s] != written;
  }

  /** A creation writes a fresh id, which no other statistic is recorded on. */
  lemma CreateKeepsOrigins(prev: Refresh, start: Refresh, counts: GuildCounts, parentId: string, channelFor: string -> string,
                           done: seq<string>, stat: string, name: string)
    requires NewIdsFresh(start, channelFor) && RecordedIdsDistinct(start)
    requires Origins(prev, start, counts, channelFor, done)
    requires !Settled(prev, stat) && name == StatValueName(stat, counts)
    ensures Origins(UpdateOne(prev, stat, name, parentId, channelFor(stat)), start, counts, channelFor, done + [stat])
  {
    var written := channelFor(stat);
    var r := UpdateOne(prev, stat, name, parentId, written);
    assert r.ids == prev.ids[stat := written] && r.shown == prev.shown[written := name];
    assert forall s :: s in prev.ids && s != stat ==> prev.ids[s] != written;
  }

  /**
   * `performBackgroundUpdate` once the config is known to be enabled and the
   * guild fetched: the category, then `updateChannelName` for each statistic
   * but `online` (as `RefreshAll` from the stored ids and the cached
   * channels), then the clean-up of the statistics no longer configured.
   * `channelFor` gives the id of the channel created for a statistic;
   * `shown` is the cached channels' names after the loop.
   */
  method RefreshChannels(config: LiveStatsConfig, counts: GuildCounts, live: map<string, string>,
                         newCategoryId: string, channelFor: string -> string)
    returns (effects: seq<ChannelEffect>, shown: map<string, string>)
    requires newCategoryId != ""
    modifies config`categoryId, config`channelIds
    ensures var keep := old(config.categoryId).Some? && old(config.categoryId).value != ""
                        && old(config.categoryId).value != "NEW" && old(config.categoryId).value in live;
      config.categoryId == (if keep then old(config.categoryId) else Some(newCategoryId))
      && var r := RefreshAll(config.stats, Refresh(IdsOf(old(config.channelIds)), live, []), counts,
                             config.categoryId.value, channelFor);
      var before := (if keep then [] else [CreatedCategory(newCategoryId)]) + r.effects;
      shown == r.shown
      && IdsOf(config.channelIds) == (map k | k in r.ids && k in config.stats :: r.ids[k])
      && |before| <= |effects| && effects[..|before|] == before
      && (forall e :: e in effects[|before|..] ==>
            e.Deleted? && exists k :: k in r.ids && k !in config.stats && r.ids[k] == e.channelId && e.channelId in r.shown)
      && (forall k :: k in r.ids && k !in config.stats && r.ids[k] in r.shown ==> Deleted(r.ids[k]) in effects[|before|..])
    ensures forall s :: s in config.stats && s != "online" ==> config.channelIds.Some? && s in config.channelIds.value
    ensures config.enabled == old(config.enabled) && config.stats == old(config.stats)
  {
    effects := config.EnsureStructure(live, newCategoryId);
    var done;
    done, shown := UpdateAllChannels(config, counts, live, channelFor);
    effects := effects + done;
    var removed := config.CleanupUnusedChannels(shown);
    effects := effects + removed;
  }

  /** The loop of `performBackgroundUpdate`: `updateChannelName` for each statistic but `online`, in order. */
  method UpdateAllChannels(config: LiveStatsConfig, counts: GuildCounts, live: map<string, string>,
                           channelFor: string -> string)
    returns (done: seq<ChannelEffect>, shown: map<string, string>)
    requires config.categoryId.Some? && config.categoryId.value != ""
    modifies config`channelIds
    ensures RefreshAll(config.stats, Refresh(IdsOf(old(config.channelIds)), live, []), counts, config.categoryId.value, channelFor)
            == Refresh(IdsOf(config.channelIds), shown, done)
    ensures forall s :: s in config.stats && s != "online" ==> config.channelIds.Some? && s in config.channelIds.value
  {
    ghost var start := Refresh(IdsOf(config.channelIds), live, []);
    var parentId := config.categoryId.value;
    shown := live;
    done := [];
    var i := 0;
    while i < |config.stats|
      invariant 0 <= i <= |config.stats|
      invariant (forall j :: 0 <= j < i ==> config.stats[j] == "online") || config.channelIds.Some?
      invariant forall j :: 0 <= j < i && config.stats[j] != "online" ==> config.channelIds.Some? && config.stats[j] in config.channelIds.value
      invariant RefreshAll(config.stats[..i], start, counts, parentId, channelFor) == Refresh(IdsOf(config.channelIds), shown, done)
    {
      var stat := config.stats[i];
      RefreshAllStep(config.stats, i, start, counts, parentId, channelFor);
      if stat == "online" {
        i := i + 1;
        continue;
      }
      ghost var ids := config.channelIds;
      ghost var before := shown;
      var name := StatValueName(stat, counts);
      var more;
      more, shown := config.UpdateChannelName(stat, name, shown, channelFor(stat));
      UpdateChannelNameIsUpdateOne(ids, before, done, stat, name, parentId, channelFor(stat), config.channelIds, shown, more);
      done := done + more;
      i := i + 1;
    }
    assert config.stats[..i] == config.stats;
  }

  /** `RefreshAll` one statistic further. */
  lemma RefreshAllStep(stats: seq<string>, i: nat, start: Refresh, counts: GuildCounts, parentId: string,
                       channelFor: string -> string)
    requires i < |stats|
    ensures RefreshAll(stats[..i + 1], start, counts, parentId, channelFor)
            == if stats[i] == "online" then RefreshAll(stats[..i], start, counts, parentId, channelFor)
               else UpdateOne(RefreshAll(stats[..i], start, counts, parentId, channelFor), stats[i],
                              StatValueName(stats[i], counts), parentId, channelFor(stats[i]))
  {
    assert stats[..i + 1][..i] == stats[..i];
  }

  /** The outcome `UpdateChannelName` promises under a category is the step `UpdateOne`. */
  lemma UpdateChannelNameIsUpdateOne(ids: Option<map<string, string>>, live: map<string, string>, done: seq<ChannelEffect>,
                                     stat: string, name: string, parentId: string, newId: string,
                                     ids': Option<map<string, string>>, live': map<string, string>, more: seq<ChannelEffect>)
    requires var m := IdsOf(ids);
      var existing := stat in m && m[stat] != "" && m[stat] in live;
      (!existing ==> ids' == Some(m[stat := newId]) && live' == live[newId := name]
                     && more == [CreatedChannel(stat, newId, name, parentId)])
      && (existing ==> ids' == Some(m) && live' == live[m[stat] := name]
                       && more == (if live[m[stat]] != name then [Renamed(m[stat], name)] else []))
    ensures Refresh(IdsOf(ids'), live', done + more) == UpdateOne(Refresh(IdsOf(ids), live, done), stat, name, parentId, newId)
  {
  }

  /**
   * `performBackgroundUpdate`: nothing without a config, with a disabled one
   * or when the guild cannot be fetched; otherwise the channels are refreshed
   * and the resulting settings are saved back, which is what `saved` holds.
   */
  method PerformBackgroundUpdate(feature: Option<GuildFeature>, parse: string -> Option<StatsConfig>, guildFetched: bool,
                                 counts: GuildCounts, live: map<string, string>, newCategoryId: string,
                                 channelFor: string -> string)
    returns (saved: Option<StatsConfig>, effects: seq<ChannelEffect>)
    requires newCategoryId != ""
    ensures var config := GetConfig(feature, parse);
      saved.Some? <==> config.Some? && config.value.enabled && guildFetched
    ensures saved.Some? ==>
      var config := GetConfig(feature, parse).value;
      saved.value.enabled == config.enabled && saved.value.stats == config.stats
      && saved.value.channelType == config.channelType && saved.value.categoryId.Some?
      && (forall s :: s in config.stats && s != "online" ==> saved.value.channelIds.Some? && s in saved.value.channelIds.value)
      && var keep := config.categoryId.Some? && config.categoryId.value != "" && config.categoryId.value != "NEW"
                     && config.categoryId.value in live;
      saved.value.categoryId == (if keep then config.categoryId else Some(newCategoryId))
      && var r := RefreshAll(config.stats, Refresh(IdsOf(config.channelIds), live, []), counts,
                             saved.value.categoryId.value, channelFor);
      var before := (if keep then [] else [CreatedCategory(newCategoryId)]) + r.effects;
      IdsOf(saved.value.channelIds) == (map k | k in r.ids && k in config.stats :: r.ids[k])
      && |before| <= |effects| && effects[..|before|] == before
      && (forall e :: e in effects[|before|..] ==>
            e.Deleted? && exists k :: k in r.ids && k !in config.stats && r.ids[k] == e.channelId && e.channelId in r.shown)
      && (forall k :: k in r.ids && k !in config.stats && r.ids[k] in r.shown ==> Deleted(r.ids[k]) in effects[|before|..])
    ensures saved.None? ==> effects == []
  {
    var config := GetConfig(feature, parse);
    if config.None? || !config.value.enabled || !guildFetched {
      return None, [];
    }
    var working := new LiveStatsConfig(config.value);
    var shown;
    effects, shown := RefreshChannels(working, counts, live, newCategoryId, channelFor);
    saved := Some(working.Value());
  }
}
