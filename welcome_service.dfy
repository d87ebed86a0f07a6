/**
 * Welcome messages (src/services/welcome.service.ts): the gate in front of a
 * welcome, the per-guild raid window of recent join times, placeholder
 * substitution in the templates and the welcome embed.
 */
module WelcomeService {
  import opened Common
  import opened GuildCache

  /** The welcome feature's settings as stored in its JSON config. */
  datatype WelcomeConfig = WelcomeConfig(
    enabled: bool,
    channelId: Option<string>,
    mentionUser: bool,
    titleTemplate: string,
    descriptionTemplate: string,
    embedColor: string,
    footerText: Option<string>,
    showThumbnail: bool,
    bannerImageUrl: Option<string>,
    fields: seq<string>,
    autoDelete: bool,
    deleteAfterSeconds: int)

  /** The settings used when the stored config is empty or cannot be parsed. */
  const DefaultConfig := WelcomeConfig(false, None, true, "Welcome to {server}!", "Welcome {user}!", "#5865F2",
                                       None, true, None, ["created", "member_count"], false, 60)

  /** The feature key of the welcome settings. */
  const Key := "welcome"

  /** `getConfig`: no feature row gives none; otherwise the parsed settings, or the defaults when there is nothing to parse or parsing fails. */
  function GetConfig(feature: Option<GuildFeature>, parse: string -> Option<WelcomeConfig>): (config: Option<WelcomeConfig>)
    ensures feature.None? <==> config.None?
    ensures feature.Some? && (feature.value.config.None? || feature.value.config.value == "") ==> config == Some(DefaultConfig)
  {
    if feature.None? then None
    else if feature.value.config.None? || feature.value.config.value == "" then Some(DefaultConfig)
    else
      var parsed := parse(feature.value.config.value);
      Some(if parsed.Some? then parsed.value else DefaultConfig)
  }

  /** What the welcome needs to know of the member who joined and its guild. */
  datatype JoiningMember = JoiningMember(
    guildId: string,
    id: string,
    isBot: bool,
    mention: string,
    username: string,
    tag: string,
    guildName: string,
    memberCount: nat,
    createdTimestamp: nat,
    joinedTimestamp: Option<nat>)

  /** The five placeholders, replaced in this order. */
  function FormatText(template: string, m: JoiningMember): string
  {
    var t1 := ReplaceAll(template, "{user}", m.mention);
    var t2 := ReplaceAll(t1, "{username}", m.username);
    var t3 := ReplaceAll(t2, "{userId}", m.id);
    var t4 := ReplaceAll(t3, "{server}", m.guildName);
    ReplaceAll(t4, "{memberCount}", NatToString(m.memberCount))
  }

  /** A template without any of the placeholders is returned unchanged. */
  lemma FormatTextWithoutPlaceholders(template: string, m: JoiningMember)
    requires !Occurs(template, "{user}") && !Occurs(template, "{username}") && !Occurs(template, "{userId}")
    requires !Occurs(template, "{server}") && !Occurs(template, "{memberCount}")
    ensures FormatText(template, m) == template
  {
    ReplaceAllAbsent(template, "{user}", m.mention);
    ReplaceAllAbsent(template, "{username}", m.username);
    ReplaceAllAbsent(template, "{userId}", m.id);
    ReplaceAllAbsent(template, "{server}", m.guildName);
    ReplaceAllAbsent(template, "{memberCount}", NatToString(m.memberCount));
  }

  /** `{user}` is not a prefix of `{username}`, so the first replacement leaves `{username}` for the second. */
  lemma UserDoesNotEatUsername(rest: string, mention: string)
    ensures ReplaceAll("{username}" + rest, "{user}", mention)
         == "{user" + ReplaceAll("name}" + rest, "{user}", mention)
  {
    var s := "{username}" + rest;
    var P := "{user}";
    assert s[0] == '{' && s[1] == 'u' && s[2] == 's' && s[3] == 'e' && s[4] == 'r' && s[5] == 'n';
    forall j | 0 <= j < 5
      ensures NoMatchAt(s, P, j)
    {
      if j == 0 {
        assert s[j..j + |P|][5] == 'n';
      } else if j + |P| <= |s| {
        assert s[j..j + |P|][0] == s[j] != '{';
      }
    }
    KeepUnmatchedPrefix(s, P, mention, 5);
    assert s[..5] == "{user" && s[5..] == "name}" + rest;
  }

  datatype EmbedField = EmbedField(name: string, value: string)

  /** The embed as far as its content goes; colour and timestamp are presentation. */
  datatype WelcomeEmbed = WelcomeEmbed(title: string, description: string, footer: Option<string>,
                                       thumbnail: bool, image: Option<string>, fields: seq<EmbedField>)

  /** The field names a config may list, in the order the embed shows them. */
  const FieldOrder: seq<string> := ["username", "id", "created", "joined", "member_count"]

  /** `<t:SECONDS:R>`, Discord's relative-time markup. */
  function RelativeTime(ms: nat): string
  {
    "<t:" + NatToString(ms / 1000) + ":R>"
  }

  /** The field shown for one field name. */
  function FieldFor(key: string, m: JoiningMember, now: nat): EmbedField
  {
    match key
    case "username" => EmbedField("User", m.tag)
    case "id" => EmbedField("ID", m.id)
    case "created" => EmbedField("Account Created", RelativeTime(m.createdTimestamp))
    case "joined" => EmbedField("Joined Server", RelativeTime(if m.joinedTimestamp.Some? && m.joinedTimestamp.value != 0 then m.joinedTimestamp.value else now))
    case _ => EmbedField("Member #", NatToString(m.memberCount))
  }

  /** The fields for the names in `order` that the config lists. */
  function FieldsIn(order: seq<string>, listed: seq<string>, m: JoiningMember, now: nat): seq<EmbedField>
  {
    if |order| == 0 then []
    else (if order[0] in listed then [FieldFor(order[0], m, now)] else []) + FieldsIn(order[1..], listed, m, now)
  }

  function EmbedFields(listed: seq<string>, m: JoiningMember, now: nat): seq<EmbedField>
  {
    if |listed| > 0 then FieldsIn(FieldOrder, listed, m, now) else []
  }

  /**
   * The fields follow the fixed order whatever the config's order or
   * repetitions: two configs listing the same names give the same fields.
   */
  lemma FieldsIgnoreConfigOrder(a: seq<string>, b: seq<string>, m: JoiningMember, now: nat)
    requires forall k :: k in a <==> k in b
    ensures EmbedFields(a, m, now) == EmbedFields(b, m, now)
  {
    if |a| > 0 {
      assert a[0] in b;
    }
    if |b| > 0 {
      assert b[0] in a;
    }
    FieldsInSameListed(FieldOrder, a, b, m, now);
  }

  lemma {:induction false} FieldsInSameListed(order: seq<string>, a: seq<string>, b: seq<string>, m: JoiningMember, now: nat)
    requires forall k :: k in a <==> k in b
    ensures FieldsIn(order, a, m, now) == FieldsIn(order, b, m, now)
  {
    if |order| > 0 {
      FieldsInSameListed(order[1..], a, b, m, now);
    }
  }

  lemma {:induction false} FieldsInAllListed(order: seq<string>, listed: seq<string>, m: JoiningMember, now: nat)
    requires forall k :: k in order ==> k in listed
    ensures FieldsIn(order, listed, m, now) == seq(|order|, i requires 0 <= i < |order| => FieldFor(order[i], m, now))
  {
    if |order| > 0 {
      assert order[0] in order;
      FieldsInAllListed(order[1..], listed, m, now);
    }
  }

  /** Listing every field name shows all five, User first and Member # last; unknown names add nothing. */
  lemma AllFieldsInFixedOrder(listed: seq<string>, m: JoiningMember, now: nat)
    requires forall k :: k in FieldOrder ==> k in listed
    ensures var f := EmbedFields(listed, m, now);
      |f| == 5 && f[0].name == "User" && f[1].name == "ID" && f[2].name == "Account Created"
      && f[3].name == "Joined Server" && f[4].name == "Member #"
  {
    assert FieldOrder[0] in listed;
    FieldsInAllListed(FieldOrder, listed, m, now);
  }

  const DefaultTitle := "Welcome to {server}!"
  const DefaultDescription := "Welcome {user}, enjoy your stay!"

  /** `buildEmbed`: empty templates fall back to the defaults; the footer and image appear only when set. */
  function BuildEmbed(m: JoiningMember, c: WelcomeConfig, now: nat): (e: WelcomeEmbed)
    ensures e.title == FormatText(if c.titleTemplate == "" then DefaultTitle else c.titleTemplate, m)
    ensures e.description == FormatText(if c.descriptionTemplate == "" then DefaultDescription else c.descriptionTemplate, m)
    ensures e.footer.Some? ==> c.footerText.Some? && c.footerText.value != ""
    ensures e.image.Some? <==> c.bannerImageUrl.Some? && c.bannerImageUrl.value != ""
    ensures e.thumbnail == c.showThumbnail
    ensures |e.fields| <= 5
  {
    var title := FormatText(if c.titleTemplate == "" then DefaultTitle else c.titleTemplate, m);
    var desc := FormatText(if c.descriptionTemplate == "" then DefaultDescription else c.descriptionTemplate, m);
    var footer := if c.footerText.Some? && c.footerText.value != "" then FormatText(c.footerText.value, m) else "";
    FieldsInLength(FieldOrder, c.fields, m, now);
    WelcomeEmbed(title, desc, if footer != "" then Some(footer) else None, c.showThumbnail,
                 if c.bannerImageUrl.Some? && c.bannerImageUrl.value != "" then c.bannerImageUrl else None,
                 EmbedFields(c.fields, m, now))
  }

  lemma {:induction false} FieldsInLength(order: seq<string>, listed: seq<string>, m: JoiningMember, now: nat)
    ensures |FieldsIn(order, listed, m, now)| <= |order|
  {
    if |order| > 0 {
      FieldsInLength(order[1..], listed, m, now);
    }
  }

  const RaidWindowMs := 10000
  const RaidThreshold := 10

  /** The join times still inside the window at `now`, in their original order. */
  function Recent(times: seq<int>, now: int): (r: seq<int>)
    ensures |r| <= |times|
    ensures forall t :: t in r <==> t in times && now - t < RaidWindowMs
    ensures forall t :: multiset(r)[t] == if now - t < RaidWindowMs then multiset(times)[t] else 0
  {
    if |times| == 0 then []
    else
      var last := times[|times| - 1];
      assert times == times[..|times| - 1] + [last];
      Recent(times[..|times| - 1], now) + (if now - last < RaidWindowMs then [last] else [])
  }

  /** The filter works join by join, so the kept times stay in their original order. */
  lemma {:induction false} RecentAppend(xs: seq<int>, ys: seq<int>, now: int)
    ensures Recent(xs + ys, now) == Recent(xs, now) + Recent(ys, now)
    decreases |ys|
  {
    if |ys| == 0 {
      assert xs + ys == xs;
    } else {
      var init := ys[..|ys| - 1];
      var last := ys[|ys| - 1];
      assert xs + ys == (xs + init) + [last];
      assert (xs + ys)[..|xs + ys| - 1] == xs + init;
      RecentAppend(xs, init, now);
    }
  }

  /** The stored list after a join at `now`. */
  function AfterJoin(times: seq<int>, now: int): seq<int>
  {
    Recent(times, now) + [now]
  }

  /** Whatever was stored, ten joins still in the window make the next join the eleventh, which is a raid. */
  lemma EleventhJoinIsRaid(times: seq<int>, now: int)
    requires forall i :: 0 <= i < |times| ==> now - times[i] < RaidWindowMs
    requires |times| >= RaidThreshold
    ensures |AfterJoin(times, now)| > RaidThreshold
  {
    RecentKeepsAll(times, now);
  }

  lemma {:induction false} RecentKeepsAll(times: seq<int>, now: int)
    requires forall i :: 0 <= i < |times| ==> now - times[i] < RaidWindowMs
    ensures Recent(times, now) == times
  {
    if |times| > 0 {
      RecentKeepsAll(times[..|times| - 1], now);
      assert times[..|times| - 1] + [times[|times| - 1]] == times;
    }
  }

  /** Join times older than the window are dropped: with none inside it, the join starts a fresh list. */
  lemma StaleJoinsForgotten(times: seq<int>, now: int)
    requires forall i :: 0 <= i < |times| ==> now - times[i] >= RaidWindowMs
    ensures AfterJoin(times, now) == [now]
  {
    RecentDropsAll(times, now);
  }

  lemma {:induction false} RecentDropsAll(times: seq<int>, now: int)
    requires forall i :: 0 <= i < |times| ==> now - times[i] >= RaidWindowMs
    ensures Recent(times, now) == []
  {
    if |times| > 0 {
      RecentDropsAll(times[..|times| - 1], now);
    }
  }

  /** What a member join leads to. */
  datatype JoinOutcome =
    | Ignored
    | RaidSuppressed
    | NoTextChannel
    | Welcomed(content: Option<string>, embed: WelcomeEmbed, deleteAfterMs: Option<int>)

  /** The greeting line sent above the embed when the member is to be mentioned. */
  const WavePrefix := "👋 "

  /** The join times recorded per guild. */
  class WelcomeService {
    var joinTimes: map<string, seq<int>>

    constructor()
      ensures joinTimes == map[]
    {
      joinTimes := map[];
    }

    /** `isRaid`: keeps the joins of the last ten seconds plus this one, and reports more than ten as a raid. */
    method IsRaid(guildId: string, now: int) returns (raid: bool)
      modifies this
      ensures var times := if guildId in old(joinTimes) then old(joinTimes)[guildId] else [];
        joinTimes == old(joinTimes)[guildId := AfterJoin(times, now)]
      ensures raid <==> |joinTimes[guildId]| > RaidThreshold
    {
      var times := if guildId in joinTimes then joinTimes[guildId] else [];
      var recent := Recent(times, now);
      recent := recent + [now];
      joinTimes := joinTimes[guildId := recent];
      raid := |recent| > RaidThreshold;
    }

    /**
     * `handleMemberJoin`. Bots, a missing or disabled config and a config
     * without a channel end it before the raid window is touched; a raid
     * suppresses the welcome; so does a channel that is not a cached text
     * channel. `textChannels` are the ids of the guild's cached text channels.
     */
    method HandleMemberJoin(m: JoiningMember, config: Option<WelcomeConfig>, textChannels: set<string>, now: nat)
      returns (outcome: JoinOutcome)
      modifies this
      ensures var gated := m.isBot || config.None? || !config.value.enabled
                           || config.value.channelId.None? || config.value.channelId.value == "";
        if gated then outcome == Ignored && joinTimes == old(joinTimes)
        else
          var times := if m.guildId in old(joinTimes) then old(joinTimes)[m.guildId] else [];
          var after := AfterJoin(times, now);
          var c := config.value;
          joinTimes == old(joinTimes)[m.guildId := after]
          && (|after| > RaidThreshold ==> outcome == RaidSuppressed)
          && (|after| <= RaidThreshold && c.channelId.value !in textChannels ==> outcome == NoTextChannel)
          && (|after| <= RaidThreshold && c.channelId.value in textChannels ==>
                outcome == Welcomed(if c.mentionUser then Some(WavePrefix + m.mention) else None,
                                    BuildEmbed(m, c, now),
                                    if c.autoDelete && c.deleteAfterSeconds > 0 then Some(c.deleteAfterSeconds * 1000) else None))
    {
      if m.isBot {
        return Ignored;
      }
      if config.None? || !config.value.enabled || config.value.channelId.None? || config.value.channelId.value == "" {
        return Ignored;
      }
      var c := config.value;
      var raid := IsRaid(m.guildId, now);
      if raid {
        return RaidSuppressed;
      }
      if c.channelId.value !in textChannels {
        return NoTextChannel;
      }
      var embed := BuildEmbed(m, c, now);
      var content := if c.mentionUser then Some(WavePrefix + m.mention) else None;
      var deleteAfter := None;
      if c.autoDelete && c.deleteAfterSeconds > 0 {
        deleteAfter := Some(c.deleteAfterSeconds * 1000);
      }
      outcome := Welcomed(content, embed, deleteAfter);
    }
  }
}
