/**
 * The welcome setup wizard (src/setup/modules/welcome.setup.ts): three
 * screens of buttons, menus and modals whose handler loads the stored
 * welcome settings, changes at most one of them and saves the result.
 */
module WelcomeSetup {
  import opened Common
  import opened SetupTypes
  import opened WelcomeService

  const Key := "welcome"

  const Module := SetupModule(Key, "Auto-Welcome", "Customize welcome messages, banners, and auto-delete.", Some("👋"))

  /** The settings the wizard starts from when the guild has no welcome row. */
  const SetupDefault := WelcomeConfig(false, None, true, "Welcome to {server}!", "Welcome {user} to the community!",
                                      "#5865F2", None, true, None, [], false, 60)

  const SelectChannelFirst := "❌ Please select a channel first."
  const UploadPrompt := "📤 **Please reply with an image attachment to set as the banner. (Times out in 60s)**"

  /** What the handler shows after an interaction. */
  datatype Screen =
    | Step1
    | Step2
    | Step3
    | ModalShown(modalId: string)
    | Replied(message: string)
    | Completed
    | NoResponse
    | Failed

  /**
   * The interaction as the handler reads it: the selected values (absent for
   * buttons and modals), whether it is a modal submit, and the modal's text
   * inputs by id.
   */
  datatype SetupInput = SetupInput(values: Option<seq<string>>, isModalSubmit: bool, textInputs: map<string, string>)

  /** The settings after an interaction, whether they are saved, and the next screen. */
  datatype Transition = Transition(config: WelcomeConfig, save: bool, screen: Screen)

  /** The characters `trim` removes that the model tells apart. */
  predicate IsSpace(c: char)
  {
    c == ' ' || c == '\t' || c == '\n' || c == '\r'
  }

  predicate IsBlank(s: string)
  {
    forall i :: 0 <= i < |s| ==> IsSpace(s[i])
  }

  /** A URL accepted for the banner: non-blank and starting with `http`. */
  predicate AcceptedBanner(url: string)
  {
    url != "" && !IsBlank(url) && StartsWith(url, "http")
  }

  /** The blank test adds nothing: a text starting with `http` is never blank. */
  lemma AcceptedBannerIsHttp(url: string)
    ensures AcceptedBanner(url) <==> StartsWith(url, "http")
  {
    if StartsWith(url, "http") {
      assert !IsSpace(url[0]);
    }
  }

  /** The wizard's components, one per custom id the handler answers to. */
  datatype WelcomeAction =
    | Toggle | Channel | NextStep2 | BackStep1 | EditText | TextModal | ToggleMention | ToggleThumbnail
    | SetBanner | BannerModal | UploadBanner | NextStep3 | BackStep2 | ToggleAutoDelete | SetTimer | TimerModal
    | Fields | Finish | Unknown

  /** The custom id of each component. */
  function IdOf(a: WelcomeAction): string
  {
    match a
    case Toggle => "welcome_toggle"
    case Channel => "welcome_channel"
    case NextStep2 => "welcome_next:step2"
    case BackStep1 => "welcome_back:step1"
    case EditText => "welcome_edit_text"
    case TextModal => "welcome_text_modal"
    case ToggleMention => "welcome_toggle_mention"
    case ToggleThumbnail => "welcome_toggle_thumbnail"
    case SetBanner => "welcome_set_banner"
    case BannerModal => "welcome_banner_modal"
    case UploadBanner => "welcome_upload_banner"
    case NextStep3 => "welcome_next:step3"
    case BackStep2 => "welcome_back:step2"
    case ToggleAutoDelete => "welcome_toggle_autodelete"
    case SetTimer => "welcome_set_timer"
    case TimerModal => "welcome_timer_modal"
    case Fields => "welcome_fields"
    case Finish => "welcome_finish"
    case Unknown => ""
  }

  /** The handler's chain of `customId ===` tests. */
  function ActionOf(customId: string): WelcomeAction
  {
    if customId == "welcome_toggle" then Toggle
    else if customId == "welcome_channel" then Channel
    else if customId == "welcome_next:step2" then NextStep2
    else if customId == "welcome_back:step1" then BackStep1
    else if customId == "welcome_edit_text" then EditText
    else if customId == "welcome_text_modal" then TextModal
    else if customId == "welcome_toggle_mention" then ToggleMention
    else if customId == "welcome_toggle_thumbnail" then ToggleThumbnail
    else if customId == "welcome_set_banner" then SetBanner
    else if customId == "welcome_banner_modal" then BannerModal
    else if customId == "welcome_upload_banner" then UploadBanner
    else if customId == "welcome_next:step3" then NextStep3
    else if customId == "welcome_back:step2" then BackStep2
    else if customId == "welcome_toggle_autodelete" then ToggleAutoDelete
    else if customId == "welcome_set_timer" then SetTimer
    else if customId == "welcome_timer_modal" then TimerModal
    else if customId == "welcome_fields" then Fields
    else if customId == "welcome_finish" then Finish
    else Unknown
  }

  /** The components of the first page, and of the second. */
  predicate OnStep1(a: WelcomeAction) { a == Toggle || a == Channel || a == NextStep2 || a == BackStep1 }

  predicate OnStep2(a: WelcomeAction)
  {
    a == EditText || a == TextModal || a == ToggleMention || a == ToggleThumbnail || a == SetBanner
    || a == BannerModal || a == UploadBanner || a == NextStep3 || a == BackStep2
  }

  /** Every component is reached by its own id. */
  lemma ActionOfId(a: WelcomeAction)
    requires a != Unknown
    ensures ActionOf(IdOf(a)) == a
  {
    match a
    case Toggle =>
    case Channel =>
    case NextStep2 =>
    case BackStep1 =>
    case EditText =>
    case TextModal =>
    case ToggleMention =>
    case ToggleThumbnail =>
    case SetBanner =>
    case BannerModal =>
    case UploadBanner =>
    case NextStep3 =>
    case BackStep2 =>
    case ToggleAutoDelete =>
    case SetTimer =>
    case TimerModal =>
    case Fields =>
    case Finish =>
  }

  /** ... and only by it: an id that selects a component is that component's id. */
  lemma IdOfAction(customId: string)
    requires ActionOf(customId) != Unknown
    ensures IdOf(ActionOf(customId)) == customId
  {
    if customId == "welcome_toggle" {
    } else if customId == "welcome_channel" {
    } else if customId == "welcome_next:step2" {
    } else if customId == "welcome_back:step1" {
    } else if customId == "welcome_edit_text" {
    } else if customId == "welcome_text_modal" {
    } else if customId == "welcome_toggle_mention" {
    } else if customId == "welcome_toggle_thumbnail" {
    } else if customId == "welcome_set_banner" {
    } else if customId == "welcome_banner_modal" {
    } else if customId == "welcome_upload_banner" {
    } else if customId == "welcome_next:step3" {
    } else if customId == "welcome_back:step2" {
    } else if customId == "welcome_toggle_autodelete" {
    } else if customId == "welcome_set_timer" {
    } else if customId == "welcome_timer_modal" {
    } else if customId == "welcome_fields" {
    } else if customId == "welcome_finish" {
    }
  }

  predicate IsToggle(a: WelcomeAction)
  {
    a == Toggle || a == ToggleMention || a == ToggleThumbnail || a == ToggleAutoDelete
  }

  /**
   * One handled interaction, on the settings loaded for it. `parseInt` is
   * `parseInt` on the timer text, None standing for NaN. A missing text
   * input makes `getTextInputValue` throw.
   */
  function Step(config: WelcomeConfig, a: WelcomeAction, input: SetupInput, parseInt: string -> Option<int>): Transition
  {
    var modal := input.isModalSubmit;
    var text := input.textInputs;
    match a
    case Toggle => Transition(config.(enabled := !config.enabled), true, Step1)
    case Channel => Transition(config.(channelId := FirstValue(input.values)), true, Step1)
    case NextStep2 =>
      if config.channelId.None? || config.channelId.value == "" then Transition(config, false, Replied(SelectChannelFirst))
      else Transition(config, false, Step2)
    case BackStep1 => Transition(config, false, Step1)
    case EditText => Transition(config, false, if modal then NoResponse else ModalShown("welcome_text_modal"))
    case TextModal =>
      if !modal then Transition(config, false, NoResponse)
      else if "title" !in text || "desc" !in text then Transition(config, false, Failed)
      else Transition(config.(titleTemplate := text["title"], descriptionTemplate := text["desc"]), true, Step2)
    case ToggleMention => Transition(config.(mentionUser := !config.mentionUser), true, Step2)
    case ToggleThumbnail => Transition(config.(showThumbnail := !config.showThumbnail), true, Step2)
    case SetBanner => Transition(config, false, if modal then NoResponse else ModalShown("welcome_banner_modal"))
    case BannerModal =>
      if !modal then Transition(config, false, NoResponse)
      else if "url" !in text then Transition(config, false, Failed)
      else if AcceptedBanner(text["url"]) then Transition(config.(bannerImageUrl := Some(text["url"])), true, Step2)
      else Transition(config, false, Step2)
    case UploadBanner => Transition(config, false, Replied(UploadPrompt))
    case NextStep3 => Transition(config, false, Step3)
    case BackStep2 => Transition(config, false, Step2)
    case ToggleAutoDelete => Transition(config.(autoDelete := !config.autoDelete), true, Step3)
    case SetTimer => Transition(config, false, if modal then NoResponse else ModalShown("welcome_timer_modal"))
    case TimerModal =>
      if !modal then Transition(config, false, NoResponse)
      else if "seconds" !in text then Transition(config, false, Failed)
      else
        var seconds := parseInt(text["seconds"]);
        if seconds.Some? && seconds.value > 0 then Transition(config.(deleteAfterSeconds := seconds.value), true, Step3)
        else Transition(config, false, Step3)
    case Fields => Transition(config.(fields := if input.values.Some? then input.values.value else []), true, Step3)
    case Finish => Transition(config, false, Completed)
    case Unknown => Transition(config, false, NoResponse)
  }

  /** Each toggle flips exactly its own flag and saves. */
  lemma TogglesFlipOneFlag(config: WelcomeConfig, input: SetupInput, parseInt: string -> Option<int>)
    ensures Step(config, Toggle, input, parseInt) == Transition(config.(enabled := !config.enabled), true, Step1)
    ensures Step(config, ToggleMention, input, parseInt) == Transition(config.(mentionUser := !config.mentionUser), true, Step2)
    ensures Step(config, ToggleThumbnail, input, parseInt) == Transition(config.(showThumbnail := !config.showThumbnail), true, Step2)
    ensures Step(config, ToggleAutoDelete, input, parseInt) == Transition(config.(autoDelete := !config.autoDelete), true, Step3)
  {
  }

  /** Pressing the same toggle twice gives back the settings it started from. */
  lemma ToggleTwiceIsIdentity(config: WelcomeConfig, a: WelcomeAction, input: SetupInput, parseInt: string -> Option<int>)
    requires IsToggle(a)
    ensures Step(Step(config, a, input, parseInt).config, a, input, parseInt).config == config
  {
  }

  /** Step 2 opens only once a channel is chosen; the settings are never changed by asking. */
  lemma Step2NeedsChannel(config: WelcomeConfig, input: SetupInput, parseInt: string -> Option<int>)
    ensures var t := Step(config, NextStep2, input, parseInt);
      t.config == config && !t.save
      && (t.screen == Step2 <==> config.channelId.Some? && config.channelId.value != "")
  {
  }

  /** A submitted banner URL replaces the banner exactly when it starts with `http`. */
  lemma BannerRule(config: WelcomeConfig, url: string, input: SetupInput, parseInt: string -> Option<int>)
    requires input.isModalSubmit && "url" in input.textInputs && input.textInputs["url"] == url
    ensures var t := Step(config, BannerModal, input, parseInt);
      t.screen == Step2
      && t.config == (if StartsWith(url, "http") then config.(bannerImageUrl := Some(url)) else config)
      && (t.save <==> StartsWith(url, "http"))
  {
    AcceptedBannerIsHttp(url);
  }

  /** A submitted timer takes effect exactly when it parses to a positive number. */
  lemma TimerRule(config: WelcomeConfig, input: SetupInput, parseInt: string -> Option<int>)
    requires input.isModalSubmit && "seconds" in input.textInputs
    ensures var t := Step(config, TimerModal, input, parseInt);
      var n := parseInt(input.textInputs["seconds"]);
      t.screen == Step3
      && (t.save <==> n.Some? && n.value > 0)
      && t.config == (if n.Some? && n.value > 0 then config.(deleteAfterSeconds := n.value) else config)
  {
  }

  /** The field selection replaces the list; no selection empties it. */
  lemma FieldsReplaced(config: WelcomeConfig, input: SetupInput, parseInt: string -> Option<int>)
    ensures var t := Step(config, Fields, input, parseInt);
      t.save && t.config.fields == (if input.values.Some? then input.values.value else [])
      && t.config == config.(fields := t.config.fields)
  {
  }

  /** An id the wizard does not know changes nothing and answers nothing. */
  lemma UnknownIdIsNoOp(config: WelcomeConfig, customId: string, input: SetupInput, parseInt: string -> Option<int>)
    requires forall a :: a != Unknown ==> customId != IdOf(a)
    ensures Step(config, ActionOf(customId), input, parseInt) == Transition(config, false, NoResponse)
  {
    if ActionOf(customId) != Unknown {
      IdOfAction(customId);
    }
  }

  /** The welcome row: its `enabled` column and the settings stored in its config. */
  datatype WelcomeRow = WelcomeRow(enabled: bool, config: WelcomeConfig)

  /** The guildFeature rows with key `welcome`, by guild. */
  class WelcomeSetupStore {
    var rows: map<string, WelcomeRow>

    /** Every row was written by `Save`, so its column agrees with its settings. */
    ghost predicate Valid()
      reads this
    {
      forall g :: g in rows ==> rows[g].enabled == rows[g].config.enabled
    }

    constructor()
      ensures Valid() && rows == map[]
    {
      rows := map[];
    }

    /** The settings the handler starts from: the stored ones, or the wizard's defaults. */
    function Load(guildId: string): (config: WelcomeConfig)
      reads this
      ensures guildId !in rows ==> config == SetupDefault
      ensures guildId in rows ==> config == rows[guildId].config
    {
      if guildId in rows then rows[guildId].config else SetupDefault
    }

    /** `saveConfig`: upserts the row with the settings and their `enabled` flag as the column. */
    method Save(guildId: string, config: WelcomeConfig)
      requires Valid()
      modifies this`rows
      ensures Valid()
      ensures rows == old(rows)[guildId := WelcomeRow(config.enabled, config)]
    {
      rows := rows[guildId := WelcomeRow(config.enabled, config)];
    }

    /** `handleInteraction`: the stored settings are changed as `Step` says and saved when it says so. */
    method HandleInteraction(guildId: string, customId: string, input: SetupInput, parseInt: string -> Option<int>)
      returns (screen: Screen)
      requires Valid()
      modifies this`rows
      ensures Valid()
      ensures var t := Step(old(Load(guildId)), ActionOf(customId), input, parseInt);
        screen == t.screen && rows == if t.save then old(rows)[guildId := WelcomeRow(t.config.enabled, t.config)] else old(rows)
    {
      screen := Perform(guildId, ActionOf(customId), input, parseInt);
    }

    /** The handler's chain of tests on the component, once the id has been read as an action: step 1 here, the rest passed on. */
    method Perform(guildId: string, action: WelcomeAction, input: SetupInput, parseInt: string -> Option<int>)
      returns (screen: Screen)
      requires Valid()
      modifies this`rows
      ensures Valid()
      ensures var t := Step(old(Load(guildId)), action, input, parseInt);
        screen == t.screen && rows == if t.save then old(rows)[guildId := WelcomeRow(t.config.enabled, t.config)] else old(rows)
    {
      var config := Load(guildId);
      if action == Toggle {
        config := config.(enabled := !config.enabled);
        Save(guildId, config);
        screen := Step1;
      } else if action == Channel {
        config := config.(channelId := FirstValue(input.values));
        Save(guildId, config);
        screen := Step1;
      } else if action == NextStep2 {
        if config.channelId.None? || config.channelId.value == "" {
          return Replied(SelectChannelFirst);
        }
        screen := Step2;
      } else if action == BackStep1 {
        screen := Step1;
      } else {
        screen := PerformStep2(guildId, action, input, parseInt);
      }
    }

    /** The components of step 2: text, mention, thumbnail and banner. */
    method PerformStep2(guildId: string, action: WelcomeAction, input: SetupInput, parseInt: string -> Option<int>)
      returns (screen: Screen)
      requires Valid() && !OnStep1(action)
      modifies this`rows
      ensures Valid()
      ensures var t := Step(old(Load(guildId)), action, input, parseInt);
        screen == t.screen && rows == if t.save then old(rows)[guildId := WelcomeRow(t.config.enabled, t.config)] else old(rows)
    {
      var config := Load(guildId);
      screen := NoResponse;
      if action == EditText {
        if !input.isModalSubmit {
          screen := ModalShown("welcome_text_modal");
        }
      } else if action == TextModal {
        if input.isModalSubmit {
          screen := SubmitTextModal(guildId, input, parseInt);
        }
      } else if action == ToggleMention {
        config := config.(mentionUser := !config.mentionUser);
        Save(guildId, config);
        screen := Step2;
      } else if action == ToggleThumbnail {
        config := config.(showThumbnail := !config.showThumbnail);
        Save(guildId, config);
        screen := Step2;
      } else if action == SetBanner {
        if !input.isModalSubmit {
          screen := ModalShown("welcome_banner_modal");
        }
      } else if action == BannerModal {
        if input.isModalSubmit {
          screen := SubmitBannerModal(guildId, input, parseInt);
        }
      } else if action == UploadBanner {
        screen := Replied(UploadPrompt);
      } else if action == NextStep3 {
        screen := Step3;
      } else if action == BackStep2 {
        screen := Step2;
      } else {
        screen := PerformStep3(guildId, action, input, parseInt);
      }
    }

    /** The components of step 3: auto-delete, timer, fields and finish; an unknown id gets no answer. */
    method PerformStep3(guildId: string, action: WelcomeAction, input: SetupInput, parseInt: string -> Option<int>)
      returns (screen: Screen)
      requires Valid() && !OnStep1(action) && !OnStep2(action)
      modifies this`rows
      ensures Valid()
      ensures var t := Step(old(Load(guildId)), action, input, parseInt);
        screen == t.screen && rows == if t.save then old(rows)[guildId := WelcomeRow(t.config.enabled, t.config)] else old(rows)
    {
      var config := Load(guildId);
      screen := NoResponse;
      if action == ToggleAutoDelete {
        config := config.(autoDelete := !config.autoDelete);
        Save(guildId, config);
        screen := Step3;
      } else if action == SetTimer {
        if !input.isModalSubmit {
          screen := ModalShown("welcome_timer_modal");
        }
      } else if action == TimerModal {
        if input.isModalSubmit {
          screen := SubmitTimerModal(guildId, input, parseInt);
        }
      } else if action == Fields {
        config := config.(fields := if input.values.Some? then input.values.value else []);
        Save(guildId, config);
        screen := Step3;
      } else if action == Finish {
        screen := Completed;
      }
    }

    /** The text modal: both fields are required; the title and description templates are taken as typed. */
    method SubmitTextModal(guildId: string, input: SetupInput, parseInt: string -> Option<int>)
      returns (screen: Screen)
      requires Valid() && input.isModalSubmit
      modifies this`rows
      ensures Valid()
      ensures var t := Step(old(Load(guildId)), TextModal, input, parseInt);
        screen == t.screen && rows == if t.save then old(rows)[guildId := WelcomeRow(t.config.enabled, t.config)] else old(rows)
    {
      var text := input.textInputs;
      if "title" !in text || "desc" !in text {
        return Failed;
      }
      var config := Load(guildId).(titleTemplate := text["title"], descriptionTemplate := text["desc"]);
      Save(guildId, config);
      screen := Step2;
    }

    /** The banner modal: a non-blank URL starting with `http` is stored; anything else is dropped silently. */
    method SubmitBannerModal(guildId: string, input: SetupInput, parseInt: string -> Option<int>)
      returns (screen: Screen)
      requires Valid() && input.isModalSubmit
      modifies this`rows
      ensures Valid()
      ensures var t := Step(old(Load(guildId)), BannerModal, input, parseInt);
        screen == t.screen && rows == if t.save then old(rows)[guildId := WelcomeRow(t.config.enabled, t.config)] else old(rows)
    {
      var text := input.textInputs;
      if "url" !in text {
        return Failed;
      }
      var url := text["url"];
      if url != "" && !IsBlank(url) {
        if StartsWith(url, "http") {
          var config := Load(guildId).(bannerImageUrl := Some(url));
          Save(guildId, config);
        }
      }
      screen := Step2;
    }

    /** The timer modal: a positive whole number of seconds is stored; anything else is dropped silently. */
    method SubmitTimerModal(guildId: string, input: SetupInput, parseInt: string -> Option<int>)
      returns (screen: Screen)
      requires Valid() && input.isModalSubmit
      modifies this`rows
      ensures Valid()
      ensures var t := Step(old(Load(guildId)), TimerModal, input, parseInt);
        screen == t.screen && rows == if t.save then old(rows)[guildId := WelcomeRow(t.config.enabled, t.config)] else old(rows)
    {
      var text := input.textInputs;
      if "seconds" !in text {
        return Failed;
      }
      var seconds := parseInt(text["seconds"]);
      if seconds.Some? && seconds.value > 0 {
        var config := Load(guildId).(deleteAfterSeconds := seconds.value);
        Save(guildId, config);
      }
      screen := Step3;
    }

    /**
     * The banner collector: the first attachment the user posts becomes the
     * banner of the settings captured when the upload button was pressed,
     * and those settings are saved, over anything saved in between.
     */
    method CollectBanner(guildId: string, captured: WelcomeConfig, attachmentUrl: string)
      requires Valid()
      modifies this`rows
      ensures Valid()
      ensures guildId in rows && rows[guildId].config == captured.(bannerImageUrl := Some(attachmentUrl))
      ensures forall g :: g in rows && g != guildId ==> g in old(rows) && rows[g] == old(rows)[g]
    {
      var config := captured.(bannerImageUrl := Some(attachmentUrl));
      Save(guildId, config);
    }
  }
}
