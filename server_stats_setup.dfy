/**
 * The server-stats setup wizard (src/setup/modules/server-stats.setup.ts):
 * five steps (switch on or off, channel type, statistics, category,
 * confirmation) over the stored statistics settings.
 */
module ServerStatsSetup {
  import opened Common
  import opened SetupTypes
  import opened ServerStatsService

  const Key := "server_stats"

  const Module := SetupModule(Key, "Live Server Statistics", "Show live member, online, and staff counts.", Some("📊"))

  const SelectStatFirst := "❌ Please select at least one statistic."
  const SelectCategoryFirst := "❌ Please select a category."

  /** The settings as stored: any property but `enabled` may be missing. */
  datatype StoredStats = StoredStats(enabled: bool, channelType: Option<string>, stats: Option<seq<string>>,
                                     categoryId: Option<string>, channelIds: Option<map<string, string>>)

  /** The settings the handler works on: the stored ones with missing `stats`, `channelType` and `channelIds` filled in. */
  function Loaded(stored: Option<StoredStats>): (config: StatsConfig)
    ensures stored.None? ==> config == StatsConfig(false, "voice", [], None, Some(map[]))
    ensures stored.Some? ==>
      config.enabled == stored.value.enabled && config.categoryId == stored.value.categoryId
      && config.stats == (if stored.value.stats.Some? then stored.value.stats.value else [])
      && config.channelType == (if stored.value.channelType.Some? && stored.value.channelType.value != "" then stored.value.channelType.value else "voice")
      && config.channelIds == Some(if stored.value.channelIds.Some? then stored.value.channelIds.value else map[])
  {
    var s := if stored.Some? then stored.value else StoredStats(false, Some("voice"), Some([]), None, None);
    StatsConfig(s.enabled,
                if s.channelType.None? || s.channelType.value == "" then "voice" else s.channelType.value,
                if s.stats.None? then [] else s.stats.value,
                s.categoryId,
                Some(if s.channelIds.None? then map[] else s.channelIds.value))
  }

  /** What `JSON.stringify` keeps of the settings: every property that is set. */
  function Stored(config: StatsConfig): StoredStats
  {
    StoredStats(config.enabled, Some(config.channelType), Some(config.stats), config.categoryId, config.channelIds)
  }

  /** Settings the handler saved load back unchanged. */
  lemma SavedSettingsReload(config: StatsConfig)
    requires config.channelType != "" && config.channelIds.Some?
    ensures Loaded(Some(Stored(config))) == config
  {
  }

  /** What the handler shows after an interaction. */
  datatype Screen =
    | MainMenu
    | Step1
    | Step2
    | Step3
    | Step4
    | Step5
    | Replied(message: string)
    | Disabled
    | Confirmed
    | NoResponse

  datatype StatsAction =
    | Toggle | BackStep1 | BackStep2 | BackStep3 | BackStep4 | BackStep5 | ChannelType
    | NextStep3 | NextStep4 | SelectMetrics | SelectCategory | Confirm | Unknown

  /** The handler's chain of tests on the custom id: two prefixes, the rest exact ids. */
  function ActionOf(customId: string): StatsAction
  {
    if StartsWith(customId, "server_stats_toggle") then Toggle
    else if customId == "server_stats_back:step1" then BackStep1
    else if customId == "server_stats_back:step2" then BackStep2
    else if customId == "server_stats_back:step3" then BackStep3
    else if customId == "server_stats_back:step4" then BackStep4
    else if customId == "server_stats_back:step5" then BackStep5
    else if StartsWith(customId, "server_stats_channel_type") then ChannelType
    else if customId == "server_stats_next:step3" then NextStep3
    else if customId == "server_stats_next:step4" then NextStep4
    else if customId == "server_stats_select_metrics" then SelectMetrics
    else if customId == "server_stats_select_category" then SelectCategory
    else if customId == "server_stats_confirm" then Confirm
    else Unknown
  }

  /** The settings after an interaction, whether they are saved, and the next screen. */
  datatype Transition = Transition(config: StatsConfig, save: bool, screen: Screen)

  /** The toggle's action: the selected value when it is non-empty, else the id's last `:` segment. */
  function ToggleAction(customId: string, values: Option<seq<string>>): string
  {
    var first := FirstValue(values);
    if first.Some? && first.value != "" then first.value else LastSegment(customId, ':')
  }

  /** One handled interaction, on the settings loaded for it. */
  function Step(config: StatsConfig, customId: string, values: Option<seq<string>>): Transition
  {
    match ActionOf(customId)
    case Toggle =>
      var action := ToggleAction(customId, values);
      var c := if action == "enable" then config.(enabled := true)
               else if action == "disable" then config.(enabled := false)
               else config;
      Transition(c, true, if c.enabled then Step2 else Disabled)
    case BackStep1 => Transition(config, false, MainMenu)
    case BackStep2 => Transition(config, false, Step1)
    case BackStep3 => Transition(config, false, Step2)
    case BackStep4 => Transition(config, false, Step3)
    case BackStep5 => Transition(config, false, Step4)
    case ChannelType => Transition(config.(channelType := LastSegment(customId, ':')), true, Step3)
    case NextStep3 => Transition(config, false, if |config.stats| == 0 then Replied(SelectStatFirst) else Step4)
    case NextStep4 =>
      Transition(config, false, if config.categoryId.None? || config.categoryId.value == "" then Replied(SelectCategoryFirst) else Step5)
    case SelectMetrics => Transition(config.(stats := if values.Some? then values.value else []), true, Step3)
    case SelectCategory =>
      var selected := FirstValue(values);
      Transition(config.(categoryId := if selected == Some("create_new") then Some("NEW") else selected), true, Step4)
    case Confirm => Transition(config, false, Confirmed)
    case Unknown => Transition(config, false, NoResponse)
  }

  /** `enable` switches on, `disable` switches off, any other action keeps the flag; the settings are saved either way. */
  lemma ToggleRule(config: StatsConfig, customId: string, values: Option<seq<string>>)
    requires StartsWith(customId, "server_stats_toggle")
    ensures var t := Step(config, customId, values);
      var action := ToggleAction(customId, values);
      t.save && t.config == config.(enabled := t.config.enabled)
      && t.config.enabled == (if action == "enable" then true else if action == "disable" then false else config.enabled)
      && (t.screen == Disabled <==> !t.config.enabled)
      && (t.screen == Step2 <==> t.config.enabled)
  {
  }

  /** The last `:` segment of `a:t`, for `a` and `t` without `:`, is `t`. */
  lemma LastSegmentAfterColon(a: string, t: string)
    requires ':' !in a && ':' !in t
    ensures LastSegment(a + ":" + t, ':') == t
  {
    assert a + ":" + t == a + [':'] + t;
    SplitAfterFirst(a, ':', t);
    SplitWithoutSep(t, ':');
  }

  /** The enable button of step 1 switches on by the last segment of its id. */
  lemma EnableButton(config: StatsConfig)
    ensures Step(config, "server_stats_toggle:enable", None).config.enabled
  {
    assert "server_stats_toggle:enable" == "server_stats_toggle" + ":" + "enable";
    ToggleBySegment(config, "enable");
  }

  /** The disable button of step 1 switches off by the last segment of its id. */
  lemma DisableButton(config: StatsConfig)
    ensures !Step(config, "server_stats_toggle:disable", None).config.enabled
  {
    assert "server_stats_toggle:disable" == "server_stats_toggle" + ":" + "disable";
    ToggleBySegment(config, "disable");
  }

  /** With no selected value, a toggle id `server_stats_toggle:<action>` acts by its action. */
  lemma ToggleBySegment(config: StatsConfig, action: string)
    requires ':' !in action
    ensures Step(config, "server_stats_toggle" + ":" + action, None).config.enabled ==
      if action == "enable" then true else if action == "disable" then false else config.enabled
  {
    var id := "server_stats_toggle" + ":" + action;
    assert StartsWith(id, "server_stats_toggle") by {
      assert id[..19] == "server_stats_toggle";
    }
    LastSegmentAfterColon("server_stats_toggle", action);
  }

  /** Leaving step 3 needs a statistic, leaving step 4 a category; asking never changes the settings. */
  lemma NextGuards(config: StatsConfig, values: Option<seq<string>>)
    ensures var t := Step(config, "server_stats_next:step3", values);
      !t.save && t.config == config && (t.screen == Step4 <==> |config.stats| > 0)
    ensures var t := Step(config, "server_stats_next:step4", values);
      !t.save && t.config == config && (t.screen == Step5 <==> config.categoryId.Some? && config.categoryId.value != "")
  {
    NextActions();
  }

  /** The two "next" ids pass every earlier test of the chain and reach their own branch. */
  lemma NextActions()
    ensures ActionOf("server_stats_next:step3") == NextStep3
    ensures ActionOf("server_stats_next:step4") == NextStep4
  {
    var n3, n4 := "server_stats_next:step3", "server_stats_next:step4";
    NotToggleOrChannelType(n3);
    NotToggleOrChannelType(n4);
    assert n3[13] == 'n' && n4[13] == 'n' && n3[22] == '3';
    assert "server_stats_back:step1"[13] == 'b' && "server_stats_back:step2"[13] == 'b' && "server_stats_back:step3"[13] == 'b';
    assert "server_stats_back:step4"[13] == 'b' && "server_stats_back:step5"[13] == 'b';
  }

  /** An id whose fourteenth character is `n` is neither a statistic toggle nor a channel-type choice. */
  lemma NotToggleOrChannelType(id: string)
    requires |id| > 13 && id[13] == 'n'
    ensures !StartsWith(id, "server_stats_toggle") && !StartsWith(id, "server_stats_channel_type")
  {
    assert "server_stats_toggle"[13] == 't' && "server_stats_channel_type"[13] == 'c';
  }

  /** Choosing "Create New" stores `NEW`; any other choice stores the selected id, or nothing without one. */
  lemma CategorySelection(config: StatsConfig, values: Option<seq<string>>)
    ensures var t := Step(config, "server_stats_select_category", values);
      var selected := FirstValue(values);
      t.save && t.screen == Step4
      && t.config == config.(categoryId := t.config.categoryId)
      && t.config.categoryId == (if selected == Some("create_new") then Some("NEW") else selected)
  {
    assert !StartsWith("server_stats_select_category", "server_stats_toggle") by {
      assert "server_stats_select_category"[13] == 's';
    }
    assert !StartsWith("server_stats_select_category", "server_stats_channel_type") by {
      assert "server_stats_select_category"[13] == 's';
    }
  }

  /** A guild category as the cache holds it. */
  datatype Category = Category(id: string, name: string)

  /** An option of the step-4 menu. */
  datatype CategoryOption = CategoryOption(labelText: string, value: string, isDefault: bool)

  const MaxOptions := 25

  function CreateNewOption(categoryId: Option<string>): CategoryOption
  {
    CategoryOption("Create New Category", "create_new", categoryId == Some("NEW"))
  }

  function OptionFor(c: Category, categoryId: Option<string>): (o: CategoryOption)
    ensures |o.labelText| <= 100 && o.value == c.id
  {
    CategoryOption(if |c.name| <= 100 then c.name else c.name[..100], c.id, categoryId == Some(c.id))
  }

  /**
   * The step-4 option list: "Create New" first, then the categories in
   * position order until the list holds 25 options. `sorted` is the guild's
   * categories already sorted by position.
   */
  method CategoryOptions(sorted: seq<Category>, categoryId: Option<string>) returns (options: seq<CategoryOption>)
    ensures 1 <= |options| <= MaxOptions
    ensures options[0] == CreateNewOption(categoryId)
    ensures |options| == 1 + (if |sorted| < MaxOptions - 1 then |sorted| else MaxOptions - 1)
    ensures forall i :: 1 <= i < |options| ==> options[i] == OptionFor(sorted[i - 1], categoryId)
  {
    options := [CreateNewOption(categoryId)];
    for k := 0 to |sorted|
      invariant |options| == 1 + (if k < MaxOptions - 1 then k else MaxOptions - 1)
      invariant options[0] == CreateNewOption(categoryId)
      invariant forall i :: 1 <= i < |options| ==> options[i] == OptionFor(sorted[i - 1], categoryId)
    {
      if |options| >= MaxOptions {
        break;
      }
      options := options + [OptionFor(sorted[k], categoryId)];
    }
  }

  /** The settings row with key `server_stats`: its `enabled` column and its stored settings. */
  datatype StatsRow = StatsRow(enabled: bool, config: StoredStats)

  /** The guildFeature rows with key `server_stats`, by guild. */
  class StatsSetupStore {
    var rows: map<string, StatsRow>

    ghost predicate Valid()
      reads this
    {
      forall g :: g in rows ==> rows[g].enabled == rows[g].config.enabled
    }

    constructor()
      ensures Valid() && rows == map[]
    {
      rows := map[];
    }

    function Load(guildId: string): StatsConfig
      reads this
    {
      Loaded(if guildId in rows then Some(rows[guildId].config) else None)
    }

    /** `saveConfig`: upserts the row with the settings and their `enabled` flag as the column. */
    method Save(guildId: string, config: StatsConfig)
      requires Valid()
      modifies this`rows
      ensures Valid()
      ensures rows == old(rows)[guildId := StatsRow(config.enabled, Stored(config))]
    {
      rows := rows[guildId := StatsRow(config.enabled, Stored(config))];
    }

    /**
     * `handleInteraction`: anything but a button or a string or channel
     * menu is ignored; otherwise the loaded settings change as `Step` says
     * and are saved when it says so. `Disabled` and `Confirmed` are where the
     * source starts the background refresh (and, on confirmation, a forced
     * online refresh).
     */
    method HandleInteraction(guildId: string, kind: InteractionKind, customId: string, values: Option<seq<string>>)
      returns (screen: Screen)
      requires Valid()
      modifies this`rows
      ensures Valid()
      ensures kind != Button && kind != StringSelect && kind != ChannelSelect ==> screen == NoResponse && rows == old(rows)
      ensures kind == Button || kind == StringSelect || kind == ChannelSelect ==>
        var t := Step(old(Load(guildId)), customId, values);
        screen == t.screen && rows == if t.save then old(rows)[guildId := StatsRow(t.config.enabled, Stored(t.config))] else old(rows)
    {
      if kind != Button && kind != StringSelect && kind != ChannelSelect {
        return NoResponse;
      }
      var config := Load(guildId);
      screen := NoResponse;
      match ActionOf(customId) {
        case Toggle =>
          var action := ToggleAction(customId, values);
          if action == "enable" {
            config := config.(enabled := true);
          }
          if action == "disable" {
            config := config.(enabled := false);
          }
          Save(guildId, config);
          if !config.enabled {
            return Disabled;
          }
          screen := Step2;
        case BackStep1 =>
          screen := MainMenu;
        case BackStep2 =>
          screen := Step1;
        case BackStep3 =>
          screen := Step2;
        case BackStep4 =>
          screen := Step3;
        case BackStep5 =>
          screen := Step4;
        case ChannelType =>
          config := config.(channelType := LastSegment(customId, ':'));
          Save(guildId, config);
          screen := Step3;
        case NextStep3 =>
          if |config.stats| == 0 {
            return Replied(SelectStatFirst);
          }
          screen := Step4;
        case NextStep4 =>
          if config.categoryId.None? || config.categoryId.value == "" {
            return Replied(SelectCategoryFirst);
          }
          screen := Step5;
        case SelectMetrics =>
          config := config.(stats := if values.Some? then values.value else []);
          Save(guildId, config);
          screen := Step3;
        case SelectCategory =>
          var selected := FirstValue(values);
          if selected == Some("create_new") {
            config := config.(categoryId := Some("NEW"));
          } else {
            config := config.(categoryId := selected);
          }
          Save(guildId, config);
          screen := Step4;
        case Confirm =>
          screen := Confirmed;
        case Unknown =>
      }
    }
  }
}
