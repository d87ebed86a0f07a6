/**
 * The setup wizard's entry and dispatch (src/setup/setup.router.ts): the
 * main menu lists the registered modules and a finish option; a main-menu
 * choice opens a module, and any other component goes to the first module
 * whose key prefixes its custom id.
 */
module SetupRouter {
  import opened Common
  import opened SetupTypes
  import opened SetupRegistry

  /** An option of the main menu. */
  datatype MenuOption = MenuOption(labelText: string, description: string, value: string, emoji: string)

  const DefaultEmoji := "⚙️"

  const FinishOption := MenuOption("Finish Setup", "Close this menu", "finish", "✅")

  function ModuleOption(m: SetupModule): (o: MenuOption)
    ensures o.value == m.key && o.labelText == m.menuLabel && o.description == m.description
    ensures o.emoji == if m.emoji.Some? && m.emoji.value != "" then m.emoji.value else DefaultEmoji
  {
    MenuOption(m.menuLabel, m.description, m.key, if m.emoji.Some? && m.emoji.value != "" then m.emoji.value else DefaultEmoji)
  }

  /** The main menu: one option per registered module, in registry order, then `finish`. */
  function MainMenuOptions(modules: seq<SetupModule>): (options: seq<MenuOption>)
    ensures |options| == |modules| + 1 && options[|modules|] == FinishOption
    ensures forall i :: 0 <= i < |modules| ==> options[i] == ModuleOption(modules[i])
  {
    if |modules| == 0 then [FinishOption]
    else [ModuleOption(modules[0])] + MainMenuOptions(modules[1..])
  }

  /** What `start` does: nothing outside a guild; otherwise it defers a fresh interaction and shows the main menu. */
  datatype StartOutcome = NoGuild | MenuShown(deferredFirst: bool)

  function Start(guildId: Option<string>, deferred: bool, replied: bool): (r: StartOutcome)
    ensures r.MenuShown? <==> guildId.Some? && guildId.value != ""
    ensures r.MenuShown? ==> (r.deferredFirst <==> !deferred && !replied)
  {
    if guildId.None? || guildId.value == "" then NoGuild else MenuShown(!deferred && !replied)
  }

  /** The interaction as the router reads it. */
  datatype RouterInput = RouterInput(customId: string, kind: InteractionKind, values: seq<string>, replied: bool, deferred: bool)

  /** Where an interaction went. */
  datatype RouteOutcome =
    | SetupClosed
    | InitialStep(key: string)
    | ModuleNotFound
    | Delegated(key: string, customId: string, values: Option<seq<string>>)
    | NotRouted
    | Crashed(key: string, errorReplied: bool)

  /** A module claims the ids that start with its key and `_` or `:`. */
  predicate Claims(key: string, customId: string)
  {
    StartsWith(customId, key + "_") || StartsWith(customId, key + ":")
  }

  /** The values handed to a module: those of string and channel menus only. */
  function PassedValues(ix: RouterInput): (v: Option<seq<string>>)
    ensures v.Some? <==> ix.kind == StringSelect || ix.kind == ChannelSelect
  {
    if ix.kind == StringSelect || ix.kind == ChannelSelect then Some(ix.values) else None
  }

  /**
   * How the module's handler ends: it returns, or it throws, having answered
   * the interaction (replied or deferred) before throwing or not.
   */
  datatype HandlerRun = Returns | Throws(answeredFirst: bool)

  /**
   * The catch block: it reads the interaction's flags after the handler ran,
   * so the error is reported only when nobody, the handler included, has
   * answered the interaction.
   */
  function AfterFailure(key: string, ix: RouterInput, answeredFirst: bool): RouteOutcome
  {
    Crashed(key, ix.kind != Autocomplete && !ix.replied && !ix.deferred && !answeredFirst)
  }

  /**
   * `handleInteraction`. `modules` is the registry's map and `ordered` its
   * modules in order; `run` says how the handler of the module the
   * interaction goes to ends.
   */
  function Route(modules: map<string, SetupModule>, ordered: seq<SetupModule>, ix: RouterInput, run: HandlerRun): RouteOutcome
  {
    if ix.customId == "setup_main_menu" && ix.kind == StringSelect then
      var selected := if |ix.values| > 0 then Some(ix.values[0]) else None;
      if selected == Some("finish") then SetupClosed
      else if selected.Some? && selected.value in modules then
        if run.Throws? then AfterFailure(selected.value, ix, run.answeredFirst) else InitialStep(selected.value)
      else ModuleNotFound
    else
      match FirstIndex(ordered, (m: SetupModule) => Claims(m.key, ix.customId))
      case None => NotRouted
      case Some(i) =>
        if run.Throws? then AfterFailure(ordered[i].key, ix, run.answeredFirst) else Delegated(ordered[i].key, ix.customId, PassedValues(ix))
  }

  /** On the main menu, `finish` closes, a registered key opens its module, and anything else is "Module not found". */
  lemma MainMenuChoice(modules: map<string, SetupModule>, ordered: seq<SetupModule>, ix: RouterInput)
    requires ix.customId == "setup_main_menu" && ix.kind == StringSelect && |ix.values| > 0
    ensures var k := ix.values[0];
      (k == "finish" ==> Route(modules, ordered, ix, Returns) == SetupClosed)
      && (k != "finish" && k in modules ==> Route(modules, ordered, ix, Returns) == InitialStep(k))
      && (k != "finish" && k !in modules ==> Route(modules, ordered, ix, Returns) == ModuleNotFound)
  {
  }

  /** Any other component goes to the first module claiming it, and to no module when none does. */
  lemma FirstClaimWins(modules: map<string, SetupModule>, ordered: seq<SetupModule>, ix: RouterInput)
    requires !(ix.customId == "setup_main_menu" && ix.kind == StringSelect)
    ensures var r := Route(modules, ordered, ix, Returns);
      (r.NotRouted? <==> forall i :: 0 <= i < |ordered| ==> !Claims(ordered[i].key, ix.customId))
      && (r.Delegated? ==>
            r.customId == ix.customId && r.values == PassedValues(ix)
            && exists i :: 0 <= i < |ordered| && ordered[i].key == r.key && Claims(r.key, ix.customId)
                           && forall j :: 0 <= j < i ==> !Claims(ordered[j].key, ix.customId))
  {
  }

  /**
   * A failure is answered with the error reply only when the interaction was
   * neither replied to nor deferred, before or inside the handler; in
   * particular a handler that answered and then threw gets no error reply.
   */
  lemma ErrorReplyOnlyWhenUnanswered(modules: map<string, SetupModule>, ordered: seq<SetupModule>, ix: RouterInput, answeredFirst: bool)
    ensures var r := Route(modules, ordered, ix, Throws(answeredFirst));
      r.Crashed? ==> (r.errorReplied <==> ix.kind != Autocomplete && !ix.replied && !ix.deferred && !answeredFirst)
    ensures var r := Route(modules, ordered, ix, Throws(true)); r.Crashed? ==> !r.errorReplied
    ensures !Route(modules, ordered, ix, Returns).Crashed?
  {
  }

  /** `handleInteraction` on the registry: the main-menu test, then a first-match loop with an early return. */
  method HandleInteraction(registry: Registry, ix: RouterInput, run: HandlerRun) returns (outcome: RouteOutcome)
    requires registry.Valid()
    ensures outcome == Route(registry.modules, registry.GetAll(), ix, run)
  {
    if ix.customId == "setup_main_menu" && ix.kind == StringSelect {
      var selected := if |ix.values| > 0 then Some(ix.values[0]) else None;
      if selected == Some("finish") {
        return SetupClosed;
      }
      var found := if selected.Some? then registry.Get(selected.value) else None;
      if found.Some? {
        outcome := if run.Throws? then AfterFailure(found.value.key, ix, run.answeredFirst) else InitialStep(found.value.key);
      } else {
        outcome := ModuleNotFound;
      }
      return;
    }
    var all := registry.GetAll();
    for i := 0 to |all|
      invariant forall j :: 0 <= j < i ==> !Claims(all[j].key, ix.customId)
    {
      if StartsWith(ix.customId, all[i].key + "_") || StartsWith(ix.customId, all[i].key + ":") {
        var values := PassedValues(ix);
        outcome := if run.Throws? then AfterFailure(all[i].key, ix, run.answeredFirst) else Delegated(all[i].key, ix.customId, values);
        return;
      }
    }
    outcome := NotRouted;
  }
}
