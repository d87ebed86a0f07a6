/**
 * Member activity statistics (src/services/stats.service.ts): message, voice
 * and reputation counters kept per (guild, member), automatic roles awarded
 * when a counter reaches a rule's threshold, and the weekly reset.
 */
module StatsService {
  import opened Common

  datatype StatsKey = StatsKey(guildId: string, userId: string)

  /** A memberStats row; `joinedAt` is in ms since the epoch. */
  datatype MemberStats = MemberStats(messagesTotal: int, messagesWeekly: int,
                                     voiceMinutesTotal: int, voiceMinutesWeekly: int,
                                     reputation: int, joinedAt: int)

  /** An autoRoleRule row: `ruleType` is free text, of which four values mean something. */
  datatype AutoRoleRule = AutoRoleRule(guildId: string, ruleType: string, threshold: int, roleId: string)

  /** The part of a guild member the service looks at; `roles` is the member's cached role set. */
  datatype Member = Member(guildId: string, id: string, isBot: bool, joinedAt: Option<int>, roles: set<string>)

  /** Counters of a row never go negative and a weekly counter never exceeds its total. */
  predicate CountersConsistent(s: MemberStats)
  {
    0 <= s.messagesWeekly <= s.messagesTotal
    && 0 <= s.voiceMinutesWeekly <= s.voiceMinutesTotal
    && 0 <= s.reputation
  }

  /** A row created by an upsert: counters the create clause leaves out start at zero. */
  function NewRow(m: Member, now: int): MemberStats
  {
    MemberStats(0, 0, 0, 0, 0, if m.joinedAt.Some? then m.joinedAt.value else now)
  }

  const DayMs := 86400000

  /** Whole days since joining, rounded down (Dafny's `/` by a positive divisor is floor). */
  function DaysSinceJoin(now: int, joinedAt: int): (days: int)
    ensures days * DayMs <= now - joinedAt < (days + 1) * DayMs
  {
    (now - joinedAt) / DayMs
  }

  /** The per-rule switch: a known rule type compares its counter with the threshold; any other type never qualifies. */
  predicate Qualifies(rule: AutoRoleRule, s: MemberStats, days: int)
  {
    match rule.ruleType
    case "MESSAGES" => s.messagesTotal >= rule.threshold
    case "VOICE" => s.voiceMinutesTotal >= rule.threshold
    case "REPUTATION" => s.reputation >= rule.threshold
    case "TENURE" => days >= rule.threshold
    case _ => false
  }

  /** The rules fetched for a guild, in table order. */
  function GuildRules(rules: seq<AutoRoleRule>, guildId: string): (rs: seq<AutoRoleRule>)
    ensures forall r :: r in rs <==> r in rules && r.guildId == guildId
  {
    if |rules| == 0 then []
    else
      var last := rules[|rules| - 1];
      GuildRules(rules[..|rules| - 1], guildId) + (if last.guildId == guildId then [last] else [])
  }

  /** The role ids handed out by one pass over `rules`, in rule order. */
  function Awarded(rules: seq<AutoRoleRule>, s: MemberStats, held: set<string>, days: int): seq<string>
  {
    if |rules| == 0 then []
    else
      var rule := rules[|rules| - 1];
      Awarded(rules[..|rules| - 1], s, held, days)
        + (if Qualifies(rule, s, days) && rule.roleId !in held then [rule.roleId] else [])
  }

  /** A role is awarded exactly when some rule for it qualifies and the member does not already hold it. */
  lemma {:induction false} AwardedExactly(rules: seq<AutoRoleRule>, s: MemberStats, held: set<string>, days: int)
    ensures forall roleId :: roleId in Awarded(rules, s, held, days) <==>
      roleId !in held && exists r :: r in rules && r.roleId == roleId && Qualifies(r, s, days)
  {
    if |rules| > 0 {
      var init := rules[..|rules| - 1];
      AwardedExactly(init, s, held, days);
      assert rules == init + [rules[|rules| - 1]];
    }
  }

  /**
   * Counters only grow between resets, so a member who qualified for a
   * rule still qualifies after more activity or later in time.
   */
  lemma QualifiesMonotone(rule: AutoRoleRule, s: MemberStats, t: MemberStats, days: int, laterDays: int)
    requires s.messagesTotal <= t.messagesTotal && s.voiceMinutesTotal <= t.voiceMinutesTotal
    requires s.reputation <= t.reputation && days <= laterDays
    requires Qualifies(rule, s, days)
    ensures Qualifies(rule, t, laterDays)
  {
  }

  /** Only the four known rule types can ever award a role. */
  lemma UnknownTypeNeverQualifies(rule: AutoRoleRule, s: MemberStats, days: int)
    requires rule.ruleType !in ["MESSAGES", "VOICE", "REPUTATION", "TENURE"]
    ensures !Qualifies(rule, s, days)
  {
  }

  /** The switch on the rule type inside the loop of `checkPermanentRoles`. */
  method RuleQualifies(rule: AutoRoleRule, s: MemberStats, days: int) returns (qualified: bool)
    ensures qualified == Qualifies(rule, s, days)
  {
    qualified := false;
    if rule.ruleType == "MESSAGES" {
      if s.messagesTotal >= rule.threshold { qualified := true; }
    } else if rule.ruleType == "VOICE" {
      if s.voiceMinutesTotal >= rule.threshold { qualified := true; }
    } else if rule.ruleType == "REPUTATION" {
      if s.reputation >= rule.threshold { qualified := true; }
    } else if rule.ruleType == "TENURE" {
      if days >= rule.threshold { qualified := true; }
    }
  }

  /** The memberStats and autoRoleRule tables. */
  class StatsStore {
    var stats: map<StatsKey, MemberStats>
    var rules: seq<AutoRoleRule>

    ghost predicate Valid()
      reads this
    {
      forall k :: k in stats ==> CountersConsistent(stats[k])
    }

    constructor(rules: seq<AutoRoleRule>)
      ensures Valid() && stats == map[] && this.rules == rules
    {
      stats := map[];
      this.rules := rules;
    }

    /** `getStats`. */
    function GetStats(guildId: string, userId: string): (r: Option<MemberStats>)
      reads this
      ensures r.Some? <==> StatsKey(guildId, userId) in stats
      ensures r.Some? ==> r.value == stats[StatsKey(guildId, userId)]
    {
      var k := StatsKey(guildId, userId);
      if k in stats then Some(stats[k]) else None
    }

    /**
     * `checkPermanentRoles`: returns the role ids to add to the member, one
     * per qualifying rule of its guild whose role the member lacks. The
     * tenure is taken from the row's join time. Roles are never removed.
     */
    method CheckPermanentRoles(member: Member, s: MemberStats, now: int) returns (awarded: seq<string>)
      ensures awarded == Awarded(GuildRules(rules, member.guildId), s, member.roles, DaysSinceJoin(now, s.joinedAt))
    {
      var rs := GuildRules(rules, member.guildId);
      awarded := [];
      if |rs| == 0 {
        return;
      }
      var days := DaysSinceJoin(now, s.joinedAt);
      for i := 0 to |rs|
        invariant awarded == Awarded(rs[..i], s, member.roles, days)
      {
        var rule := rs[i];
        assert rs[..i + 1][..i] == rs[..i] && rs[..i + 1][i] == rule;
        assert Awarded(rs[..i + 1], s, member.roles, days)
          == Awarded(rs[..i], s, member.roles, days)
             + (if Qualifies(rule, s, days) && rule.roleId !in member.roles then [rule.roleId] else []);
        var qualified := RuleQualifies(rule, s, days);
        if qualified {
          if rule.roleId !in member.roles {
            awarded := awarded + [rule.roleId];
          }
        }
      }
      assert rs[..|rs|] == rs;
    }

    /** `trackMessage`: bots are ignored; otherwise both message counters grow by one (a new row starts them at 1). */
    method TrackMessage(member: Member, now: int) returns (awarded: seq<string>)
      requires Valid()
      modifies this`stats
      ensures Valid()
      ensures var k := StatsKey(member.guildId, member.id);
        var before := if k in old(stats) then old(stats)[k] else NewRow(member, now);
        if member.isBot then stats == old(stats) && awarded == []
        else
          stats == old(stats)[k := before.(messagesTotal := before.messagesTotal + 1,
                                           messagesWeekly := before.messagesWeekly + 1)]
          && awarded == Awarded(GuildRules(rules, member.guildId), stats[k], member.roles,
                                DaysSinceJoin(now, stats[k].joinedAt))
    {
      if member.isBot {
        return [];
      }
      var k := StatsKey(member.guildId, member.id);
      var row := if k in stats then stats[k] else NewRow(member, now);
      row := row.(messagesTotal := row.messagesTotal + 1, messagesWeekly := row.messagesWeekly + 1);
      stats := stats[k := row];
      awarded := CheckPermanentRoles(member, row, now);
    }

    /** `trackVoice`: bots and non-positive durations are ignored; otherwise both voice counters grow by `minutes`. */
    method TrackVoice(member: Member, minutes: int, now: int) returns (awarded: seq<string>)
      requires Valid()
      modifies this`stats
      ensures Valid()
      ensures var k := StatsKey(member.guildId, member.id);
        var before := if k in old(stats) then old(stats)[k] else NewRow(member, now);
        if member.isBot || minutes <= 0 then stats == old(stats) && awarded == []
        else
          stats == old(stats)[k := before.(voiceMinutesTotal := before.voiceMinutesTotal + minutes,
                                           voiceMinutesWeekly := before.voiceMinutesWeekly + minutes)]
          && awarded == Awarded(GuildRules(rules, member.guildId), stats[k], member.roles,
                                DaysSinceJoin(now, stats[k].joinedAt))
    {
      if member.isBot || minutes <= 0 {
        return [];
      }
      var k := StatsKey(member.guildId, member.id);
      var row := if k in stats then stats[k] else NewRow(member, now);
      row := row.(voiceMinutesTotal := row.voiceMinutesTotal + minutes,
                  voiceMinutesWeekly := row.voiceMinutesWeekly + minutes);
      stats := stats[k := row];
      awarded := CheckPermanentRoles(member, row, now);
    }

    /** `addReputation`: false for a bot target; otherwise the target's reputation grows by one and the result is true. */
    method AddReputation(target: Member, now: int) returns (ok: bool, awarded: seq<string>)
      requires Valid()
      modifies this`stats
      ensures Valid()
      ensures ok <==> !target.isBot
      ensures var k := StatsKey(target.guildId, target.id);
        var before := if k in old(stats) then old(stats)[k] else NewRow(target, now);
        if target.isBot then stats == old(stats) && awarded == []
        else
          stats == old(stats)[k := before.(reputation := before.reputation + 1)]
          && awarded == Awarded(GuildRules(rules, target.guildId), stats[k], target.roles,
                                DaysSinceJoin(now, stats[k].joinedAt))
    {
      if target.isBot {
        return false, [];
      }
      var k := StatsKey(target.guildId, target.id);
      var row := if k in stats then stats[k] else NewRow(target, now);
      row := row.(reputation := row.reputation + 1);
      stats := stats[k := row];
      awarded := CheckPermanentRoles(target, row, now);
      ok := true;
    }

    /** `processWeeklyReset`: the guild's weekly counters become zero; totals, reputation and other guilds are untouched. */
    method ProcessWeeklyReset(guildId: string)
      requires Valid()
      modifies this`stats
      ensures Valid()
      ensures stats == WeeklyReset(old(stats), guildId)
    {
      stats := WeeklyReset(stats, guildId);
    }
  }

  /** The `updateMany` of the weekly reset. */
  function WeeklyReset(stats: map<StatsKey, MemberStats>, guildId: string): map<StatsKey, MemberStats>
  {
    map k | k in stats :: if k.guildId == guildId then stats[k].(messagesWeekly := 0, voiceMinutesWeekly := 0) else stats[k]
  }

  /**
   * The reset keeps every row, zeroes exactly the guild's weekly counters,
   * and since rules look only at totals it changes no member's qualification.
   */
  lemma WeeklyResetProps(stats: map<StatsKey, MemberStats>, guildId: string, rule: AutoRoleRule, days: int)
    ensures var after := WeeklyReset(stats, guildId);
      after.Keys == stats.Keys
      && (forall k :: k in stats && k.guildId != guildId ==> after[k] == stats[k])
      && (forall k :: k in stats && k.guildId == guildId ==>
            after[k].messagesWeekly == 0 && after[k].voiceMinutesWeekly == 0
            && after[k].messagesTotal == stats[k].messagesTotal
            && after[k].voiceMinutesTotal == stats[k].voiceMinutesTotal
            && after[k].reputation == stats[k].reputation
            && after[k].joinedAt == stats[k].joinedAt
            && (Qualifies(rule, after[k], days) <==> Qualifies(rule, stats[k], days)))
  {
  }
}
