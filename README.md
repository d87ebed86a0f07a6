# apex-manager, modelled in Dafny

apex-manager is a Discord moderation bot written in TypeScript on discord.js and Prisma. This project models the decision rules and the small stateful tables under its glue code, and proves what they promise:

- **Moderator workload** (`src/mod-center/`): the daily metrics table and its upserts; the burnout score and level; the reputation formula (in `real`); the auto-assignment choice of a moderator; and the moderator roster the dashboard adds to and removes from.
- **Tickets** (`src/tickets/`): the OPEN → CLAIMED → CLOSED life cycle with its append-only event log; the guards in the ticket manager; channel-name and label sanitising; the control buttons per status; panel rendering in rows of five; and button ordering.
- **Counters, caches and windows**: member statistics and permanent-role awards; banked voice time; the five-minute guild cache; the welcome raid window; the server-statistics debounce and channel bookkeeping; and the temporary voice room gate.
- **Routing and validation**: interaction dispatch by custom-id prefix; the setup registry, router and the two setup wizards; the feature gate; help-page filtering and navigation; the `/addrole` hierarchy checks; case undo; the channel permission audit; and the environment setup script.

Each core source file has one Dafny module, in one `.dfy` file named after it. The exceptions are shared definitions:

- `common.dfy` holds `Option`/`Result` and the string helpers;
- `tables.dfy` holds the Prisma tables shared by tickets and the mod centre;
- `mod_types.dfy` and `setup_types.dfy` hold the source's shared types.

Platform behaviour enters the model in these forms:

- **Prisma tables** become class fields: maps keyed by the tables' unique keys, or sequences where the source relies on insertion order.
- **A missing row** on an `update` or `delete` gives `Err("P2025")` and changes nothing.
- **Discord effects** become returned outcome values.
- **Facts only the platform knows** (cached channels, member presence, whether a fetch succeeds) become parameters.
- **Time** is a `now` parameter in milliseconds.
- **`JSON.parse` and `parseInt`** are function parameters that return `Option`.

Where a method changes state in the source, the model is a class method with `modifies`. Its `ensures` states the new state through a specification function, and lemmas prove what that function promises.

Where the code and the design comments disagree, the model follows the code:

- **Burnout levels**: the comment in `src/mod-center/types.ts:9-11` puts MEDIUM at 30-70. The classifier uses strict `> 70` and `> 30`, so a score of 30 is LOW (`BurnoutDetector.ClassifyBoundaries`).
- **Welcome defaults**: the welcome wizard stores its own defaults (`src/setup/modules/welcome.setup.ts:25-35`). The welcome service reads stored settings without merging defaults and falls back to its own texts (`src/services/welcome.service.ts:74-75, 108-125`). The two sets differ, and each module keeps its own.
- **Undoing timeouts**: `/undo` reverses MUTE. The moderation service logs timeouts as TIMEOUT, so undoing a timeout only marks the case inactive (`Undo.TimeoutIsNotCleared`).
- **Editor button categories**: the ticket editor turns every non-alphanumeric character of a label into `_`. The ticket manager reads the category as the third `_`-separated segment, so a label such as "General Help" opens the `general` category (`TicketManager.EditorButtonCategoryIsCut`, `TicketManager.GeneralHelpExample`).

## Model

| member | source | states |
|---|---|---|
| AssignmentEngine.Candidates | src/mod-center/assignment.engine.ts:16-30 | every entry of the pool is the candidate (with its count of never-unassigned assignments) of one of the guild's ACTIVE, not opted-out profiles; the pool is empty exactly when no profile qualifies |
| AssignmentEngine.CandidatesInTableOrder | src/mod-center/assignment.engine.ts:16-30 | the pool lists the qualifying profiles once per row, in table order, and leaves none out: entry k is the candidate of the k-th qualifying row |
| AssignmentEngine.CandidatesComplete | src/mod-center/assignment.engine.ts:16-30 | every ACTIVE, not opted-out profile of the guild is in the pool with its count of open assignments |
| AssignmentEngine.Eligible | src/mod-center/assignment.engine.ts:33-35 | a candidate is eligible exactly when it is in the pool and its burnoutScore is below 70 |
| AssignmentEngine.FindBestModerator | src/mod-center/assignment.engine.ts:30-57 | null exactly for an empty pool; with nobody eligible the first pool candidate; otherwise the first eligible candidate with the highest score 100 - 20 x open assignments, every earlier one scoring strictly less; the result is always a pool member's id |
| AssignmentEngine.NullIffNoActiveProfile | src/mod-center/assignment.engine.ts:16-30 | the selection has nobody to choose from exactly when the guild has no ACTIVE, opted-in profile |
| AssignmentEngine.CutoffIsStrict | src/mod-center/assignment.engine.ts:33-35 | a burnoutScore of exactly 70 is not eligible |
| AssignmentEngine.AssignTicket | src/mod-center/assignment.engine.ts:61-74 | one atomic step: the ticket becomes CLAIMED by the moderator and one AUTO assignment is appended, whatever the prior status; a missing ticket (P2025) changes neither table |
| BurnoutDetector.Midnight | src/mod-center/burnout.detector.ts:12-14 | the day key is the start of the day containing now |
| BurnoutDetector.CheckBurnout | src/mod-center/burnout.detector.ts:12-41 | the returned level and the profile table are those of the day's metrics row: LOW and no write without a row, otherwise the score written into burnoutScore and classified |
| BurnoutDetector.ScoreValues | src/mod-center/burnout.detector.ts:24-30 | the score is 50/30/20 points for the three thresholds, so one of 0, 20, 30, 50, 70, 80, 100 |
| BurnoutDetector.ThresholdsStrict | src/mod-center/burnout.detector.ts:28-30 | exactly 15 tickets, 600 s and 2 reopens add nothing |
| BurnoutDetector.ClassifyBoundaries | src/mod-center/burnout.detector.ts:38-40 | HIGH iff score > 70, MEDIUM iff 30 < score <= 70, so 30 is LOW and 70 is MEDIUM |
| BurnoutDetector.LevelMonotone | src/mod-center/burnout.detector.ts:27-40 | raising any metric never lowers the score or the level |
| BurnoutDetector.NoRowIsLow | src/mod-center/burnout.detector.ts:15-21 | without today's row the result is LOW and the profiles are unchanged |
| BurnoutDetector.RowWritesOnlyScore | src/mod-center/burnout.detector.ts:33-36 | with a row, only this moderator's burnoutScore changes, to the row's score |
| ReputationEngine.Round | src/mod-center/reputation.engine.ts:30 | Math.round: the nearest integer, halves upwards |
| ReputationEngine.Consistency | src/mod-center/reputation.engine.ts:14-15 | consistency is never negative |
| ReputationEngine.Responsiveness | src/mod-center/reputation.engine.ts:19-22 | responsiveness lies in [0, 100] |
| ReputationEngine.CalculateReputation | src/mod-center/reputation.engine.ts:12-35 | reliability and sustainability are 100; responsiveness is in [0, 100]; for a non-negative reopen rate consistency is at most 100 and the total lies in [20, 100] |
| ReputationEngine.ConsistencyIsClampedLine | src/mod-center/reputation.engine.ts:14-15 | consistency = max(0, 100 - 200 x reopenRate), at most 100 for a non-negative rate |
| ReputationEngine.ResponsivenessNonIncreasing | src/mod-center/reputation.engine.ts:19-22 | 100 up to 300 s, and never higher for a slower average |
| ReputationEngine.TotalIsRoundedWeightedSum | src/mod-center/reputation.engine.ts:27-30 | total = round(0.4 consistency + 0.4 responsiveness + 0.2 x 100) |
| ReputationEngine.PerfectScoreExample | src/mod-center/reputation.engine.ts:14-30 | rate 0 and time 0 give 100 everywhere |
| ReputationEngine.SlowAndReopenedExample | src/mod-center/reputation.engine.ts:14-30 | rate 0.5 and 3900 s give consistency 0, responsiveness 40, total 36 |
| ReputationEngine.NormalizeScores | src/mod-center/reputation.engine.ts:38-41 | the normalisation returns its input unchanged |
| MetricsCollector.TrackTicketResolution | src/mod-center/metrics.collector.ts:16-50 | the day's row is upserted (created with 1 ticket and the duration as average, or its count incremented) and then the burnout check runs on the new table for the same moderator and guild |
| MetricsCollector.TrackReopen | src/mod-center/metrics.collector.ts:53-76 | the day's row gets reopenCount + 1, or is created with reopenCount 1 |
| MetricsCollector.UpsertsTouchOnlyTheirKey | src/mod-center/metrics.collector.ts:16-27 | an upsert adds at most its own (moderator, guild, day) key and leaves every other row as it was |
| MetricsCollector.FirstResolutionCreatesRow | src/mod-center/metrics.collector.ts:38-44 | the first resolution of the day creates the row with ticketsResolved 1 and avgResponseTime = duration |
| MetricsCollector.LaterResolutionCountsOnly | src/mod-center/metrics.collector.ts:28-37 | later resolutions that day only increment ticketsResolved; the average is unchanged |
| MetricsCollector.ReopenCounts | src/mod-center/metrics.collector.ts:58-75 | a reopen raises the day's reopenCount by one, a new row starting at 1 |
| MetricsCollector.Window | src/mod-center/metrics.collector.ts:80-88 | the query returns exactly this moderator's rows in this guild dated at or after now - days |
| MetricsCollector.StatsNullIffNoRecentRow | src/mod-center/metrics.collector.ts:80-91 | getModStats is null exactly when no row is in the window |
| MetricsCollector.StatsBounds | src/mod-center/metrics.collector.ts:93-105 | when the rows inside the time window have daily averages in [lo, hi] and non-negative counters, the averaged response time lies in [lo, hi], resolved count and reopen rate are non-negative, and activeTickets is 0; rows outside the window are unconstrained |
| MetricsCollector.SumAvgBounds | src/mod-center/metrics.collector.ts:98 | the summed daily averages lie between n x lowest and n x highest |
| TicketService.KeepChannelChars | src/tickets/ticket.service.ts:19 | the filter keeps only characters of [a-z0-9-] and never lengthens the name |
| TicketService.SanitizeChannelName | src/tickets/ticket.service.ts:19 | the channel name is at most 32 characters, all in [a-z0-9-] |
| TicketService.SanitizeIdempotent | src/tickets/ticket.service.ts:19 | sanitising an already sanitised name changes nothing |
| TicketService.KeepChannelCharsFixesClean | src/tickets/ticket.service.ts:19 | a name made only of kept characters passes the filter unchanged |
| TicketService.LowerFixesClean | src/tickets/ticket.service.ts:19 | lower-casing leaves a name of [a-z0-9-] unchanged |
| TicketService.TicketChannelNameShape | src/tickets/ticket.service.ts:19 | `category-username` becomes at most 32 characters of [a-z0-9-] |
| TicketService.EventsOf | src/tickets/ticket.service.ts:53-69 | a ticket's events are exactly the logged events carrying its id |
| TicketService.EventsOfAppend | src/tickets/ticket.service.ts:64-69 | appending an event adds it to its own ticket's history only |
| TicketService.NoEventsForNewTicket | src/tickets/ticket.service.ts:53-69 | the next ticket id has no events before creation |
| TicketService.CreateTicket | src/tickets/ticket.service.ts:11-75 | refused with "Ticket system not configured for this guild." and no write when the config or its support role is missing; otherwise one OPEN, unclaimed ticket is appended with exactly one CREATED event by its owner, and the channel name is the sanitised `category-username` |
| TicketService.GetTicketByChannel | src/tickets/ticket.service.ts:77-81 | returns a ticket of that channel, the first one in table order, and none exactly when no ticket has that channel |
| TicketService.GetOpenTicketByUser | src/tickets/ticket.service.ts:83-93 | returns a ticket of this owner in this guild whose status is OPEN or CLAIMED, and none exactly when there is no such ticket |
| TicketService.ClaimTicket | src/tickets/ticket.service.ts:96-129 | whatever the prior status, the ticket becomes CLAIMED by the claimer and one CLAIMED event is appended; a missing ticket changes nothing |
| TicketService.ResolutionSeconds | src/tickets/ticket.service.ts:149 | the duration is the whole seconds between creation and now, rounded down |
| TicketService.CloseTicket | src/tickets/ticket.service.ts:131-158 | the ticket becomes CLOSED at now with one CLOSED event, then the closer's resolution is recorded and the burnout check runs; a failure of that step leaves the close in place |
| TicketManager.RouteTicketInteraction | src/tickets/ticket.manager.ts:9-22 | `editor_` components and modals go to the editor before anything else; other buttons and modals go to their handlers |
| TicketManager.TwoWordPrefixSplit | src/tickets/ticket.manager.ts:29 | splitting `a_b_rest` on `_` yields a, b, then the parts of rest |
| TicketManager.ButtonCategory | src/tickets/ticket.manager.ts:29 | the category of `ticket_create_<c>` is the third `_` segment, i.e. the text after the prefix up to its first `_` |
| TicketManager.ModalCategory | src/tickets/ticket.manager.ts:111 | the category of `ticket_modal_<c>` is the third `_` segment |
| TicketManager.CategoryRoundTrip | src/tickets/ticket.manager.ts:29-111 | a category without `_` survives the entry button id, the modal id and the read-back |
| TicketManager.EntryPanelCategories | src/tickets/panels.ts:13-29 | each button of the default entry panel carries the creation prefix, and the three open an "order", an "issue" and a "help" ticket, in display order |
| TicketManager.EditorButtonCategoryIsCut | src/tickets/editor.ts:319-327 | a button made in the editor yields as category its sanitised label cut at the first `_` |
| TicketManager.GeneralHelpExample | src/tickets/editor.ts:319-327 | the label "General Help" becomes "general_help", read back as category "general" |
| TicketManager.HandleButton | src/tickets/ticket.manager.ts:24-104 | create: the modal opens iff the user has no OPEN or CLAIMED ticket, with no write; claim: refused outside a text channel, without a ticket, or unless OPEN, else the ticket is claimed with one event and the CLAIMED controls; close: refused when already CLOSED, else closed with one event, the resolution recorded and the channel deleted after 5 s |
| TicketManager.HandleModal | src/tickets/ticket.manager.ts:106-135 | only `ticket_modal_` ids are handled; a ticket is opened with the modal's category iff the guild is configured, otherwise the error text is reported and nothing is written |
| TicketManager.InTableHasTicket | src/tickets/ticket.manager.ts:45-54 | a ticket found by channel is the row its id addresses |
| TicketPanels.TicketControls | src/tickets/panels.ts:70-91 | the close button is always present and last; the claim button is present iff the status is OPEN |
| TicketPanels.ControlsByStatus | src/tickets/panels.ts:70-91 | OPEN shows [claim, close]; every other status shows [close] |
| TicketPanels.Capitalize | src/tickets/panels.ts:37 | only the first character is upper-cased |
| TicketPanels.GetCreateModal | src/tickets/panels.ts:34-58 | the modal id is `ticket_modal_` + category; subject is limited to 100 characters and description to 1000 |
| TicketPanels.CreateModalTitle | src/tickets/panels.ts:37 | the title is `New <Category> Ticket` with only the first character upper-cased |
| PanelService.InsertByOrder | src/tickets/panel.service.ts:22-24 | inserting adds exactly one button |
| PanelService.InsertByOrderSorted | src/tickets/panel.service.ts:22-24 | insertion keeps a list sorted by order |
| PanelService.InsertByOrderPerm | src/tickets/panel.service.ts:22-24 | insertion adds the button and loses none |
| PanelService.SortByOrder | src/tickets/panel.service.ts:22-24 | the sort keeps the length |
| PanelService.SortByOrderProps | src/tickets/panel.service.ts:22-35 | the sort is an ascending permutation of its input |
| PanelService.ButtonsOfPanel | src/tickets/panel.service.ts:21-24 | a panel's buttons are exactly the rows carrying its id |
| PanelService.WithButtonsSorted | src/tickets/panel.service.ts:16-38 | a looked-up panel carries exactly its own buttons, sorted by ascending order |
| PanelService.GetPanelByName | src/tickets/panel.service.ts:16-27 | finds the panel with this (guild, name), and none exactly when there is none |
| PanelService.GetPanelById | src/tickets/panel.service.ts:29-38 | finds the panel with this id, and none exactly when there is none |
| PanelService.MaxOrder | src/tickets/panel.service.ts:68-71 | the highest order among the panel's buttons, none exactly for a panel without buttons |
| PanelService.NextOrderExceedsAll | src/tickets/panel.service.ts:68-72 | a new button's order exceeds every existing order of its panel, and the first gets 0 |
| PanelService.WithoutButton | src/tickets/panel.service.ts:83-87 | deleting a button keeps exactly the other rows |
| PanelService.WithoutButtonKeepsIdsUnique | src/tickets/panel.service.ts:83-87 | deleting keeps button ids unique |
| PanelService.PanelStore.CreatePanel | src/tickets/panel.service.ts:7-14 | a second panel with the same (guild, name) fails with P2002 and no change; otherwise the panel is appended |
| PanelService.PanelStore.AddButton | src/tickets/panel.service.ts:64-81 | "Panel not found" with no change when no panel has that (guild, name); otherwise one button is appended with order one past the highest, above every existing order |
| PanelService.PanelStore.RemoveButton | src/tickets/panel.service.ts:83-87 | a missing id fails with P2025 and no change; otherwise exactly that button is removed |
| PanelService.MapButtonStyle | src/tickets/panel.service.ts:132-140 | SECONDARY, SUCCESS and DANGER in any case map to their styles; everything else is Primary |
| PanelService.MapButtonStyleCaseInsensitive | src/tickets/panel.service.ts:132-140 | the mapping ignores letter case |
| PanelService.RenderButton | src/tickets/panel.service.ts:113-121 | a rendered button keeps id and label, takes the mapped style, and has an emoji iff a non-empty one is set |
| PanelService.RenderAll | src/tickets/panel.service.ts:109-127 | every button is rendered, in order |
| PanelService.ChunksFlatten | src/tickets/panel.service.ts:106-127 | concatenating the rows gives back the button list |
| PanelService.ChunksShape | src/tickets/panel.service.ts:109-127 | there are ceil(n/5) rows, each with one to five buttons |
| PanelService.ChunksAppend | src/tickets/panel.service.ts:109-127 | closing a short row after full rows adds exactly that row |
| PanelService.RenderPanel | src/tickets/panel.service.ts:97-130 | the loop that fills and flushes rows of five produces exactly the rows of five of the rendered buttons |
| PanelService.RenderedRows | src/tickets/panel.service.ts:106-127 | rendering keeps every button in order, in ceil(n/5) rows of one to five; no buttons give no rows |
| TicketEditor.BackRouting | src/tickets/editor.ts:153-173 | `editor_back_manager` shows the manager; `editor_back_<x>` for any other x opens panel x |
| TicketEditor.SelectKindsChecked | src/tickets/editor.ts:158-251 | the panel list and the button-removal list act only on string selects, the send-channel picker only on channel selects |
| TicketEditor.ResolvePanel | src/tickets/editor.ts:336-343 | the panel with this id when one exists (of any guild), otherwise the guild's panel with this name; none exactly when neither exists |
| TicketEditor.NormalizeStyle | src/tickets/editor.ts:312-317 | the upper-cased input maps SECONDARY/GREY/GRAY/NEUTRAL to SECONDARY, SUCCESS/GREEN to SUCCESS, DANGER/RED to DANGER, anything else to PRIMARY |
| TicketEditor.NormalizedStyleRenders | src/tickets/editor.ts:312-317 | the stored style renders as the colour the input named |
| TicketEditor.SanitizeLabel | src/tickets/editor.ts:319 | the category keeps the label's length, is all [a-z0-9_], and each character is the lower-cased one or `_` |
| TicketEditor.SanitizeLabelIdempotent | src/tickets/editor.ts:319 | sanitising a category again changes nothing |
| TicketEditor.ButtonCustomId | src/tickets/editor.ts:327 | the new button's id is `ticket_create_` + the sanitised label |
| TicketEditor.SubmitAddButtonForm | src/tickets/editor.ts:309-332 | nothing happens when no panel has the id; otherwise the button is added under that panel's name in the interaction's guild (failing as "Panel not found" when the panel is another guild's), with the derived id, the normalised style and no emoji, on the panel of that name in the guild, with the next order of that panel; nothing else in the table changes |
| DashboardController.RouteDashboard | src/mod-center/dashboard.controller.ts:68-70 | customIds not starting with `mod_` are ignored |
| DashboardController.AddAllProps | src/mod-center/dashboard.controller.ts:137-156 | adding keeps every existing profile and creates an ACTIVE profile for exactly the selected users that had none |
| DashboardController.AddedCountIsGrowth | src/mod-center/dashboard.controller.ts:141-155 | the reported count equals the number of profiles created |
| DashboardController.ReAddIsNoOp | src/mod-center/dashboard.controller.ts:141-155 | users who all have profiles change nothing and count zero |
| DashboardController.SecondAddCreatesNothing | src/mod-center/dashboard.controller.ts:137-156 | running the same selection twice creates nothing the second time |
| DashboardController.AddOneKeepsKeyed | src/mod-center/dashboard.controller.ts:141-152 | a created profile is stored under its own (guild, user) key |
| DashboardController.AddUsers | src/mod-center/dashboard.controller.ts:137-158 | the user-select loop leaves the table and the count as the add specification says |
| DashboardController.HumanIds | src/mod-center/dashboard.controller.ts:183-185 | the ids tried for a role are exactly its non-bot members' |
| DashboardController.AddAllAppend | src/mod-center/dashboard.controller.ts:169-203 | adding one list after another equals adding their concatenation, counts included |
| DashboardController.AddMembers | src/mod-center/dashboard.controller.ts:183-198 | one role's members are added as in the user flow, bots skipped |
| DashboardController.AddRoleMembers | src/mod-center/dashboard.controller.ts:160-208 | the role-select loop adds the non-bot members of every fetched role; a missing or failing role is skipped and the loop continues |
| DashboardController.MetricsWithout | src/mod-center/dashboard.controller.ts:257-260 | exactly the moderator's metrics rows in the guild are removed |
| DashboardController.AssignmentsWithout | src/mod-center/dashboard.controller.ts:262-265 | exactly the moderator's assignments in the guild are removed, every copy of them, and every other row survives with all its copies |
| DashboardController.AssignmentsWithoutAppend | src/mod-center/dashboard.controller.ts:262-265 | the delete works row by row across the table, so the surviving rows keep their table order |
| DashboardController.RemoveModerator | src/mod-center/dashboard.controller.ts:248-271 | metrics and assignments are deleted first, then the profile; a missing profile fails with P2025 after the bulk deletes |
| DashboardController.RemoveFailureReply | src/mod-center/dashboard.controller.ts:273-280 | P2025 gives the "already removed" warning; any other error gives the error text after the failure prefix |
| DashboardController.ModIds | src/mod-center/dashboard.controller.ts:31-37 | the set is exactly the user ids of the guild's non-OFFLINE profiles |
| DashboardController.OnlineCountBounds | src/mod-center/dashboard.controller.ts:38-44 | the count is at most the cached members, 0 when none qualify and all when all do |
| DashboardController.ModsOnline | src/mod-center/dashboard.controller.ts:31-44 | mods online = cached members in the moderator set whose presence is not offline |
| DashboardController.ActiveTicketCount | src/mod-center/dashboard.controller.ts:19-26 | the open-ticket figure counts OPEN and CLAIMED tickets, zero exactly when there are none |
| StatsService.DaysSinceJoin | src/services/stats.service.ts:100 | daysSinceJoin is the whole days elapsed, rounded down |
| StatsService.GuildRules | src/services/stats.service.ts:92-94 | the rules used are exactly the guild's |
| StatsService.AwardedExactly | src/services/stats.service.ts:102-130 | a role is handed out exactly when some rule for it qualifies and the member does not already hold it; none is ever removed |
| StatsService.QualifiesMonotone | src/services/stats.service.ts:105-118 | a member who qualified still qualifies after more activity or later in time |
| StatsService.UnknownTypeNeverQualifies | src/services/stats.service.ts:105-118 | a rule type other than MESSAGES, VOICE, REPUTATION or TENURE never qualifies |
| StatsService.RuleQualifies | src/services/stats.service.ts:103-118 | the switch qualifies a known type when its value is at least the threshold |
| StatsService.StatsStore.GetStats | src/services/stats.service.ts:133-137 | the row for (guild, user), none exactly when it is missing |
| StatsService.StatsStore.CheckPermanentRoles | src/services/stats.service.ts:90-131 | the loop awards exactly the roles of the qualifying rules the member lacks, in rule order |
| StatsService.StatsStore.TrackMessage | src/services/stats.service.ts:10-33 | bots change nothing; otherwise messagesTotal and messagesWeekly grow by one, a new row starting both at 1, and the role check runs on the new row |
| StatsService.StatsStore.TrackVoice | src/services/stats.service.ts:38-60 | bots and non-positive minutes change nothing; otherwise both voice counters grow by the minutes |
| StatsService.StatsStore.AddReputation | src/services/stats.service.ts:66-86 | false and no change for a bot target; otherwise reputation grows by one and the result is true |
| StatsService.StatsStore.ProcessWeeklyReset | src/services/stats.service.ts:140-157 | the guild's weekly counters become 0; nothing else changes |
| StatsService.WeeklyResetProps | src/services/stats.service.ts:150-156 | after the reset totals and reputation are untouched, other guilds are untouched, and every rule qualifies as before |
| VoiceStateUpdate.ElapsedMinutes | src/events/voiceStateUpdate.ts:29-41 | the banked duration is the whole minutes elapsed, rounded down |
| VoiceStateUpdate.VoiceSessions.OnVoiceStateUpdate | src/events/voiceStateUpdate.ts:11-48 | the session map and the banked minutes are those of the join/leave/switch step |
| VoiceStateUpdate.NoChangeCases | src/events/voiceStateUpdate.ts:17-38 | no resolvable user, or staying in the same channel, changes nothing and banks nothing |
| VoiceStateUpdate.StepBounds | src/events/voiceStateUpdate.ts:26-47 | banked minutes are positive, at most the time since the recorded join, need the old member; only the updating user's entry changes |
| VoiceStateUpdate.LeaveAndSwitch | src/events/voiceStateUpdate.ts:21-47 | joining records now; leaving removes an existing session and banks nothing without one; switching restarts the session at now |
| VoiceStateUpdate.JoinThenLeave | src/events/voiceStateUpdate.ts:21-35 | a join then a leave banks the whole minutes in between, when positive, and leaves no session |
| WelcomeService.GetConfig | src/services/welcome.service.ts:108-125 | no feature row gives none; empty settings give the defaults |
| WelcomeService.FormatTextWithoutPlaceholders | src/services/welcome.service.ts:99-106 | a template with none of the five placeholders is returned unchanged |
| WelcomeService.UserDoesNotEatUsername | src/services/welcome.service.ts:101-102 | replacing `{user}` first leaves `{username}` intact for the next replacement |
| WelcomeService.FieldsIgnoreConfigOrder | src/services/welcome.service.ts:88-94 | configs listing the same names give the same fields, whatever their order or repetitions |
| WelcomeService.FieldsInSameListed | src/services/welcome.service.ts:88-94 | the fields depend only on which names are listed |
| WelcomeService.FieldsInAllListed | src/services/welcome.service.ts:88-94 | with every name listed each field appears, in the fixed order |
| WelcomeService.AllFieldsInFixedOrder | src/services/welcome.service.ts:88-94 | listing all five names shows User, ID, Account Created, Joined Server, Member # in that order |
| WelcomeService.FieldsInLength | src/services/welcome.service.ts:88-94 | at most one field per known name |
| WelcomeService.BuildEmbed | src/services/welcome.service.ts:73-97 | empty title or description templates fall back to the defaults; footer only with footer text; image iff a banner is set; thumbnail as configured; at most five fields |
| WelcomeService.Recent | src/services/welcome.service.ts:64 | keeps exactly the join times less than 10 s old, each with all its copies, and drops the others entirely |
| WelcomeService.RecentAppend | src/services/welcome.service.ts:64 | the filter works join by join, so the kept times stay in their original order |
| WelcomeService.EleventhJoinIsRaid | src/services/welcome.service.ts:64-70 | ten joins still in the window make the next join a raid |
| WelcomeService.RecentKeepsAll | src/services/welcome.service.ts:64 | times all inside the window are all kept |
| WelcomeService.StaleJoinsForgotten | src/services/welcome.service.ts:64-67 | with no join inside the window the stored list becomes just this join |
| WelcomeService.RecentDropsAll | src/services/welcome.service.ts:64 | times all outside the window are all dropped |
| WelcomeService.WelcomeService.IsRaid | src/services/welcome.service.ts:59-71 | the stored list becomes the recent joins plus now, and the result is true iff it holds more than 10 |
| WelcomeService.WelcomeService.HandleMemberJoin | src/services/welcome.service.ts:28-57 | bots and a missing, disabled or channel-less config exit before the raid window is touched; a raid suppresses the welcome; otherwise a cached text channel gets the greeting, mentioned iff mentionUser, with auto-delete only when enabled and positive |
| GuildCache.FeatureCacheKey | src/services/guild-cache.service.ts:49 | a feature key starts with `guildId:` and the rest of it is the feature key |
| GuildCache.Hit | src/services/guild-cache.service.ts:21-24 | an entry answers iff it exists and now is before its expiry |
| GuildCache.SavedConfig | src/services/guild-cache.service.ts:35-39 | the upserted row holds every given column and keeps the other existing columns |
| GuildCache.GuildCacheService.GetConfig | src/services/guild-cache.service.ts:20-29 | a live entry answers without reading the table; otherwise the table's answer, row or none, is returned and cached until now + 300000 |
| GuildCache.GuildCacheService.SaveConfig | src/services/guild-cache.service.ts:34-43 | the row is upserted and the written row cached with a fresh TTL |
| GuildCache.GuildCacheService.GetFeature | src/services/guild-cache.service.ts:48-60 | as getConfig, keyed `guildId:featureKey` |
| GuildCache.GuildCacheService.SaveFeature | src/services/guild-cache.service.ts:65-76 | the feature row is upserted with exactly the given columns and cached with a fresh TTL |
| GuildCache.GuildCacheService.Invalidate | src/services/guild-cache.service.ts:81-90 | the guild's config entry and every feature key with the prefix `guildId:` are removed, and nothing else |
| GuildCache.CachedUntilExpiry | src/services/guild-cache.service.ts:15-74 | a value cached at t is what every read before t + 300000 returns |
| GuildCache.ExpiredEntryMisses | src/services/guild-cache.service.ts:21-24 | an expired entry no longer answers |
| GuildCache.InvalidateKeepsOtherGuilds | src/services/guild-cache.service.ts:85-89 | for guild ids without `:`, invalidating g keeps every other guild's feature entries and drops g's |
| FeatureGate.IsEnabled | src/core/feature-gate.service.ts:12-28 | open iff the lookup succeeded, there is a row, its enabled column is on, and its non-empty settings parse with a truthy `enabled` |
| FeatureGate.FailsClosed | src/core/feature-gate.service.ts:15-27 | an error, a missing row or a switched-off column give false whatever the settings |
| FeatureGate.FallbackIsClosed | src/utils/json.ts:11-19 | empty or unparsable settings fall back to enabled false |
| FeatureGate.IsEnabledVia | src/core/feature-gate.service.ts:12-22 | the decision is taken on the row the guild cache returns: the cached one while live, else the table's |
| FeatureGate.HasEntitlement | src/core/feature-gate.service.ts:34-37 | every guild is entitled to every feature |
| ServerStatsService.GetConfig | src/services/server-stats.service.ts:138-146 | none exactly when there is no feature row; empty settings give the disabled fallback config |
| ServerStatsService.OnlineDelay | src/services/server-stats.service.ts:62-76 | unforced within 30000 ms of the last run it waits until one second past the interval; otherwise 6000 ms |
| ServerStatsService.OnlineDelayBounds | src/services/server-stats.service.ts:67-72 | a rate-limited wait lies in (1000, 31000] ms |
| ServerStatsService.OnlineScheduler.TriggerOnlineUpdate | src/services/server-stats.service.ts:56-78 | any pending timer of the guild is replaced by one due after the computed delay |
| ServerStatsService.OnlineScheduler.PerformOnlineUpdate | src/services/server-stats.service.ts:92-104 | the last run is stamped first; only an enabled config listing `online` with a fetched guild goes on to `updateChannelName`, which does nothing without a category, renames an existing online channel whose name differs, and otherwise creates the channel under the category, records its id and saves the settings |
| ServerStatsService.NextTriggerAfterRunIsDelayed | src/services/server-stats.service.ts:63-93 | right after a run the next trigger waits until one second past the interval |
| ServerStatsService.CountWhere | src/services/server-stats.service.ts:243 | a count never exceeds the number of members |
| ServerStatsService.StaffRoleIds | src/services/server-stats.service.ts:253 | the staff roles are the admin and mod roles, each once |
| ServerStatsService.CountWhereImplies | src/services/server-stats.service.ts:238-278 | a weaker condition counts at least as many members |
| ServerStatsService.OnlineAtMostHumans | src/services/server-stats.service.ts:243 | online members are non-bots, so never more than the humans |
| ServerStatsService.StaffCoversAdminsAndMods | src/services/server-stats.service.ts:246-278 | staff online is at least the admin count and at least the mod count |
| ServerStatsService.StatValueName | src/services/server-stats.service.ts:210-223 | `members` renders the member count, `online` the online count, an unknown name renders as itself |
| ServerStatsService.LiveStatsConfig.EnsureStructure | src/services/server-stats.service.ts:148-170 | a category id naming a cached channel (not empty and not `NEW`) is kept; otherwise the new category is recorded |
| ServerStatsService.LiveStatsConfig.UpdateChannelName | src/services/server-stats.service.ts:172-208 | nothing without a category; a statistic without a cached channel gets a new one, recorded; an existing channel is renamed only when its name differs |
| ServerStatsService.LiveStatsConfig.CleanupUnusedChannels | src/services/server-stats.service.ts:225-236 | every entry of a statistic no longer configured is removed and the others are untouched; the cached channel of every removed entry is deleted, and every delete is of such a channel |
| ServerStatsService.BackgroundStats | src/services/server-stats.service.ts:122-125 | the statistics the background loop refreshes are exactly the configured ones other than `online`; the refresh lemmas state their facts over this list |
| ServerStatsService.UpdateOne | src/services/server-stats.service.ts:172-208 | after one `updateChannelName` under a category, the statistic is recorded on a cached channel showing the new name; a settled statistic keeps its id, any other is recorded on the new channel |
| ServerStatsService.UpdateKeepsSettled | src/services/server-stats.service.ts:178-192 | a statistic already recorded on a cached channel stays on that channel through any later update, and effects are only appended |
| ServerStatsService.RefreshEffectsScope | src/services/server-stats.service.ts:122-125 | the loop creates channels only for refreshed statistics, with their own value name, in the category and with their new id; every rename gives a refreshed statistic's recorded channel that statistic's value name; `online` and unconfigured statistics get no effect |
| ServerStatsService.RefreshKeepsIds | src/services/server-stats.service.ts:122-125 | the ids of `online`, of unconfigured statistics and of statistics whose channel is cached are unchanged; every refreshed statistic ends up recorded, and no other key is added |
| ServerStatsService.RefreshShowsNames | src/services/server-stats.service.ts:122-125 | with fresh ids for new channels and no two statistics on one cached channel, every refreshed statistic's channel shows its `getStatValueName`, every other cached statistic channel (`online`'s included) keeps its name, and none of them is a refreshed statistic's channel |
| ServerStatsService.StaleChannelRenamed | src/services/server-stats.service.ts:196-202 | a cached `members` channel with a stale name is renamed to the member count, and the `online` channel is left as it is |
| ServerStatsService.UpdateAllChannels | src/services/server-stats.service.ts:122-125 | the loop's recorded ids, channel names and effects are those of `RefreshAll` over the configured statistics from the stored ids and the cached channels; every refreshed statistic ends up recorded |
| ServerStatsService.RefreshChannels | src/services/server-stats.service.ts:118-128 | the category is kept or created as `ensureStructure` does; then the effects are the category's, then those of `RefreshAll`, then one delete for each cached channel of a statistic no longer configured and no other; the recorded ids are `RefreshAll`'s restricted to the configured statistics |
| ServerStatsService.PerformBackgroundUpdate | src/services/server-stats.service.ts:106-132 | nothing without a config, with a disabled one or an unfetched guild; otherwise the saved settings keep the flag, type and statistics, carry the category kept or created, and record `RefreshAll`'s ids restricted to the configured statistics, and the effects are the category's, `RefreshAll`'s and the clean-up's deletes |
| VoiceService.OwnedBy | src/services/voice.service.ts:34 | a found room belongs to the member; none exactly when the member owns no recorded room |
| VoiceService.ByChannel | src/services/voice.service.ts:115-117 | the lookup by the unique channel id: a found record is the channel's, none exactly when the channel has no record, and with unique channel ids it is that channel's only record |
| VoiceService.Without | src/services/voice.service.ts:128 | deleting by channel id keeps exactly the other records and keeps channel ids unique |
| VoiceService.SecondRequestIgnored | src/services/voice.service.ts:26-46 | once a room is created at t, every request of that member before t + 3000 is ignored |
| VoiceService.VoiceStore.CheckEmptyChannel | src/services/voice.service.ts:111-135 | deleted exactly when the channel is voice-based, has a record, and its fresh fetch succeeds with no members; then its record goes too |
| VoiceService.VoiceStore.RequestRoom | src/services/voice.service.ts:23-101 | inside the cooldown nothing changes; a recorded room that still exists refuses; otherwise a stale record is dropped, the cooldown stamped and the new room `<username>'s Room` recorded for the member |
| VoiceService.VoiceStore.HandleVoiceStateUpdate | src/services/voice.service.ts:8-58 | nothing without a member or generator; only entering the generator asks for a room; a refused or ignored request ends the handler. Otherwise the records are those after the room request (the stale record replaced and the new room appended), and then the left channel's record is deleted exactly when the member left a voice channel that has a record and whose fresh fetch shows no members |
| VoiceService.VoiceStore.GetOwner | src/services/voice.service.ts:190-193 | an owner exactly when the channel has a record, and it is that record's owner |
| VoiceService.VoiceStore.ClaimChannel | src/services/voice.service.ts:245-250 | the channel's record gets the new owner and nothing else changes; no record is P2025 |
| WelcomeSetup.AcceptedBannerIsHttp | src/setup/modules/welcome.setup.ts:97-98 | the blank test adds nothing: a banner URL is accepted exactly when it starts with `http` |
| WelcomeSetup.ActionOfId | src/setup/modules/welcome.setup.ts:41-143 | every component of the wizard is reached by its own custom id |
| WelcomeSetup.IdOfAction | src/setup/modules/welcome.setup.ts:41-143 | an id that selects a component is exactly that component's id |
| WelcomeSetup.TogglesFlipOneFlag | src/setup/modules/welcome.setup.ts:41-120 | each toggle flips its one flag, saves, and shows its step |
| WelcomeSetup.ToggleTwiceIsIdentity | src/setup/modules/welcome.setup.ts:41-120 | pressing a toggle twice gives back the starting settings |
| WelcomeSetup.Step2NeedsChannel | src/setup/modules/welcome.setup.ts:51-57 | step 2 opens exactly when a channel is chosen; nothing is changed or saved |
| WelcomeSetup.BannerRule | src/setup/modules/welcome.setup.ts:94-105 | a submitted URL replaces the banner and is saved exactly when it starts with `http`; step 2 is shown either way |
| WelcomeSetup.TimerRule | src/setup/modules/welcome.setup.ts:128-137 | the timer changes and is saved exactly when the input parses to a positive number |
| WelcomeSetup.FieldsReplaced | src/setup/modules/welcome.setup.ts:138-142 | the selection replaces the field list (none empties it), nothing else changes, and it is saved |
| WelcomeSetup.UnknownIdIsNoOp | src/setup/modules/welcome.setup.ts:41-151 | an id the wizard does not know changes, saves and answers nothing |
| WelcomeSetup.WelcomeSetupStore.Load | src/setup/modules/welcome.setup.ts:24-35 | the stored settings, or the wizard's defaults when there is no row |
| WelcomeSetup.WelcomeSetupStore.Save | src/setup/modules/welcome.setup.ts:159-165 | the row is upserted with the settings and their `enabled` flag as its column |
| WelcomeSetup.WelcomeSetupStore.HandleInteraction | src/setup/modules/welcome.setup.ts:19-156 | the stored settings change as the step rules say and are written exactly when a rule saves |
| WelcomeSetup.WelcomeSetupStore.Perform | src/setup/modules/welcome.setup.ts:41-60 | the step-1 tests of the chain (toggle, channel, next, back), the rest passed on: for every component the stored settings change as the step rules say and are written exactly when a rule saves |
| WelcomeSetup.WelcomeSetupStore.PerformStep2 | src/setup/modules/welcome.setup.ts:61-115 | for the components of step 2 (text, mention, thumbnail, banner) and later, the settings change and are saved exactly as the step rules say |
| WelcomeSetup.WelcomeSetupStore.PerformStep3 | src/setup/modules/welcome.setup.ts:116-151 | for the components of step 3 (auto-delete, timer, fields, finish) and unknown ids, the settings change and are saved exactly as the step rules say; an unknown id changes and answers nothing |
| WelcomeSetup.WelcomeSetupStore.SubmitTextModal | src/setup/modules/welcome.setup.ts:69-76 | a text modal missing either field fails with nothing written; otherwise both templates are replaced as typed, saved, and step 2 is shown |
| WelcomeSetup.WelcomeSetupStore.SubmitBannerModal | src/setup/modules/welcome.setup.ts:94-105 | a banner modal without its field fails; an accepted URL is stored and saved, anything else writes nothing; step 2 is shown |
| WelcomeSetup.WelcomeSetupStore.SubmitTimerModal | src/setup/modules/welcome.setup.ts:128-137 | a timer modal without its field fails; a positive parsed number is stored and saved, anything else writes nothing; step 3 is shown |
| WelcomeSetup.WelcomeSetupStore.CollectBanner | src/setup/modules/welcome.setup.ts:167-186 | the attachment becomes the banner of the settings captured at button time, saved over the guild's row; other guilds untouched |
| ServerStatsSetup.Loaded | src/setup/modules/server-stats.setup.ts:46-51 | no row gives the disabled voice default; missing stats, channel type and channel ids are filled in, everything else is kept |
| ServerStatsSetup.SavedSettingsReload | src/setup/modules/server-stats.setup.ts:46-158 | settings the handler saved load back unchanged |
| ServerStatsSetup.ToggleRule | src/setup/modules/server-stats.setup.ts:55-74 | `enable` switches on, `disable` off, anything else keeps the flag; always saved; disabled ends the wizard, enabled shows step 2 |
| ServerStatsSetup.LastSegmentAfterColon | src/setup/modules/server-stats.setup.ts:56-92 | the last `:` segment of `a:t` is t |
| ServerStatsSetup.ToggleBySegment | src/setup/modules/server-stats.setup.ts:56-60 | with no selected value, a toggle id `server_stats_toggle:<action>` switches on for `enable`, off for `disable`, and keeps the flag otherwise |
| ServerStatsSetup.EnableButton | src/setup/modules/server-stats.setup.ts:56-59 | the button `server_stats_toggle:enable` switches the statistics on |
| ServerStatsSetup.DisableButton | src/setup/modules/server-stats.setup.ts:56-60 | the button `server_stats_toggle:disable` switches them off |
| ServerStatsSetup.NextGuards | src/setup/modules/server-stats.setup.ts:97-110 | step 4 opens exactly when a statistic is chosen, step 5 exactly when a category is; nothing is saved |
| ServerStatsSetup.CategorySelection | src/setup/modules/server-stats.setup.ts:117-127 | `create_new` stores `NEW`, any other choice stores that id (none without one); saved, step 4 again |
| ServerStatsSetup.OptionFor | src/setup/modules/server-stats.setup.ts:270-275 | an option's label is at most 100 characters and its value is the category id |
| ServerStatsSetup.CategoryOptions | src/setup/modules/server-stats.setup.ts:258-277 | "Create New Category" first, then the categories in order, at most 25 options in all |
| ServerStatsSetup.StatsSetupStore.Save | src/setup/modules/server-stats.setup.ts:144-158 | the row is upserted with the settings and their `enabled` flag as its column |
| ServerStatsSetup.StatsSetupStore.HandleInteraction | src/setup/modules/server-stats.setup.ts:29-141 | anything but a button or a menu is ignored; otherwise the settings change as the step rules say and are written exactly when a rule saves |
| SetupRegistry.RegisteredIsLast | src/setup/setup.registry.ts:7-9 | after registering, a key is present exactly when some module had it, and holds the last module registered with it |
| SetupRegistry.RegistrationOrder | src/setup/setup.registry.ts:15-17 | the listed keys are distinct and are exactly the keys registered |
| SetupRegistry.Registry.Register | src/setup/setup.registry.ts:7-9 | the module replaces its key's entry; a new key is appended to the order |
| SetupRegistry.Registry.RegisterAll | src/setup/setup.registry.ts:7-25 | registering in turn gives the map of the last module per key and the keys in first-registration order |
| SetupRegistry.Registry.Get | src/setup/setup.registry.ts:11-13 | a module exactly when its key is registered, and it carries that key |
| SetupRegistry.Registry.GetAll | src/setup/setup.registry.ts:15-17 | one module per key, in registration order |
| SetupRegistry.Load | src/setup/setup.registry.ts:23-25 | the loaded registry lists the welcome module, then the server-stats module |
| SetupRouter.ModuleOption | src/setup/setup.router.ts:36-42 | the option shows the module's label and description, has its key as value, and falls back to the default emoji |
| SetupRouter.MainMenuOptions | src/setup/setup.router.ts:36-51 | one option per module in order, then the Finish option last |
| SetupRouter.Start | src/setup/setup.router.ts:17-27 | the menu is shown exactly inside a guild, deferring first exactly when nothing answered yet |
| SetupRouter.PassedValues | src/setup/setup.router.ts:107-115 | values are passed exactly for string and channel menus |
| SetupRouter.MainMenuChoice | src/setup/setup.router.ts:81-96 | on the main menu `finish` closes, a registered key opens its module, anything else is "Module not found" |
| SetupRouter.FirstClaimWins | src/setup/setup.router.ts:100-123 | any other component goes to the first module whose key and `_` or `:` prefix its id, and nowhere when none does |
| SetupRouter.ErrorReplyOnlyWhenUnanswered | src/setup/setup.router.ts:125-131 | a failure is answered with the error reply exactly when the interaction is repliable and was answered neither before nor inside the handler (the flags are read after it threw); a handler that answered and then threw gets no error reply; without a failure nothing crashes |
| SetupRouter.HandleInteraction | src/setup/setup.router.ts:75-133 | the loop over the registry routes as the routing rules say |
| InteractionCreate.DispatchOrder | src/events/interactionCreate.ts:19-76 | a slash command runs exactly when its name is registered and is "unknown" otherwise; help, tickets, mod centre, setup and voice controls are tried in that order, each taken exactly when its own kind and prefix test passes and every earlier one fails; anything else is ignored |
| InteractionCreate.FixedPrefixesExclusive | src/events/interactionCreate.ts:36-76 | a custom id carries at most one of the fixed prefixes `help_`, `ticket_`/`editor_`, `mod_`, `setup_`, `vc_` |
| InteractionCreate.CommandErrorAnswer | src/events/interactionCreate.ts:26-30 | a failed command is always answered: a follow-up exactly when already replied or deferred |
| InteractionCreate.ModCenterErrorAnswer | src/events/interactionCreate.ts:54-56 | a failed mod-centre handler is answered only when nothing answered yet, and never by follow-up |
| InteractionCreate.Bitrate | src/events/interactionCreate.ts:201 | the bitrate always lies in [8000, 96000]; 8..96 kbps map to kbps × 1000, lower and higher values clamp |
| InteractionCreate.VoiceChannelsOnly | src/events/interactionCreate.ts:78-82 | outside a voice channel every control answers "Voice channels only", except a modal, which gets no answer |
| InteractionCreate.OwnerGate | src/events/interactionCreate.ts:96-217 | menu and modal buttons and every action button but `vc_info` refuse anyone but the room's owner |
| InteractionCreate.ControlPanelButtonsHandled | src/services/voice.service.ts:137-168 | every button of a room's control panel is dispatched to the voice controls unless a setup module key claims it; pressed by the owner it is never the bare acknowledgement, pressed by anyone else it is refused unless it is `vc_info` |
| InteractionCreate.UserSelectNotOwnerChecked | src/events/interactionCreate.ts:147-182 | a submitted user menu is decided the same way whoever owns the room |
| InteractionCreate.KickBanNeedPresence | src/events/interactionCreate.ts:156-169 | kicking or banning someone not in the room only answers "not in the channel" |
| InteractionCreate.ModalNumbers | src/events/interactionCreate.ts:192-204 | a numeric limit is applied as typed, without clamping; a numeric bitrate is applied within [8000, 96000] |
| InteractionCreate.NonNumericChangesNothing | src/events/interactionCreate.ts:192-204 | a limit or bitrate that is not a number changes nothing and answers "Invalid Number" |
| InteractionCreate.HandleVoiceControl | src/events/interactionCreate.ts:78-227 | the decision is taken against the room's recorded owner; only a transfer rewrites a record, giving the room's record the selected owner |
| HelpUi.GetPages | src/help/help.ui.ts:8-19 | exactly the pages the member may see, never more than there are |
| HelpUi.GetPagesConcat | src/help/help.ui.ts:14-18 | filtering keeps the pages in their order |
| HelpUi.AdminPagesNeedAdministrator | src/help/help.ui.ts:14-18 | without permissions or without Administrator no admin page is shown; every other page always is; an administrator sees every page |
| HelpUi.AdminSeesAll | src/help/help.ui.ts:14-18 | an administrator's pages are all pages, in order |
| HelpUi.SectionFields | src/help/help.ui.ts:36-38 | one field per section, in order, with its title and content |
| HelpUi.PageEmbed | src/help/help.ui.ts:29-41 | the title is the emoji and the title, the description the page's, and the fields the sections in order |
| HelpUi.Prefix | src/help/help.ui.ts:53 | `substring(0, n)`: a prefix of at most n characters, the whole text when it is short enough |
| HelpUi.NavigationOptions | src/help/help.ui.ts:43-59 | one option per page in order, with its id, emoji, emoji-stripped title and a description cut to 100 characters; default exactly for the selected id |
| HelpUi.OnlySelectedIsDefault | src/help/help.ui.ts:54 | with distinct page ids at most one option is the default |
| HelpUi.ButtonRow | src/help/help.ui.ts:61-95 | Home first (disabled on the home screen), Support only when a support URL is set, Close last |
| HelpRouter.OnlyTheOpener | src/help/help.router.ts:19-22 | a member other than the opener is refused, and only such a member is |
| HelpRouter.HiddenPageNotFound | src/help/help.router.ts:40-49 | a page the member may not see cannot be selected, even by its id: "Module not found" |
| HelpRouter.ScreensShown | src/help/help.router.ts:31-55 | the home screen selects nothing and disables Home; a shown page is a visible page with the selected id, with Home enabled |
| AddRole.Execute | src/commands/add-role.ts:21-54 | the checks in order (member resolved, role not managed, below the bot's highest role, below the moderator's unless owner) decide the reply; the role is added exactly when all pass and the call succeeds |
| AddRole.EqualPositionsRefused | src/commands/add-role.ts:40-46 | a role level with the bot's or the moderator's highest role is refused like a higher one |
| AddRole.OwnerBypassesOnlyModeratorCheck | src/commands/add-role.ts:39-49 | the guild owner skips the moderator check but never the bot check |
| AddRole.NoBotMemberNoBotCheck | src/commands/add-role.ts:39-40 | without the bot member cached the bot check is skipped |
| Undo.UndoEffect | src/commands/undo.ts:38-47 | BAN unbans, MUTE clears the timeout of a member that can be fetched, anything else has no platform call; the call targets the case's target |
| Undo.TimeoutIsNotCleared | src/services/moderation.service.ts:65 | timeouts are logged as TIMEOUT, which undo does not reverse |
| Undo.UndoChangesOnlyTheFlag | src/commands/undo.ts:22-58 | only a successful undo changes the table, and only that active case's flag |
| Undo.UndoAtMostOnce | src/commands/undo.ts:27-52 | right after a successful undo the same case is refused as inactive |
| Undo.FailureKeepsCaseActive | src/commands/undo.ts:38-58 | a failed unban leaves the case active, so it can be retried |
| Undo.CaseLog.Undo | src/commands/undo.ts:15-59 | the table and the reply are those of the undo rules |
| ChannelService.PartitionSorts | src/services/channel.service.ts:27-35 | every overwrite allowing or denying ViewChannel is listed by its type and bit, and every listed mention comes from such an overwrite |
| ChannelService.ListField | src/services/channel.service.ts:42-46 | an empty list shows its placeholder, a non-empty one its entries joined |
| ChannelService.GetChannelInfo | src/services/channel.service.ts:17-50 | the loop builds the four lists of the partition and the fields show them with their placeholders |
| ChannelService.CloneChannel | src/services/channel.service.ts:54-63 | only text and voice channels clone, named as given or `<name>-copy`; any other kind is "Unsupported channel type for cloning." |
| ChannelService.SyncChannel | src/services/channel.service.ts:65-70 | fails exactly without a parent category, with its message |
| ChannelService.ApplyTemplate | src/services/channel.service.ts:72-85 | `private` hides, `public` opens view, send and connect, `read_only` allows only view; any other name is "Unknown template type." |
| ChannelService.AuditClassification | src/services/channel.service.ts:96-110 | every human member and role with Administrator is listed as admin, with only Manage Server as manager; no more entries than members and roles |
| ChannelService.MemberEntriesSorted | src/services/channel.service.ts:96-102 | human members are listed by their highest permission; at most one entry per member |
| ChannelService.RoleEntriesSorted | src/services/channel.service.ts:104-110 | roles are appended by their highest permission, keeping the member entries |
| ChannelService.BotsNeverListed | src/services/channel.service.ts:98-100 | a bot member is in neither list |
| ChannelService.AuditPermissions | src/services/channel.service.ts:89-110 | the two loops build exactly the member entries followed by the role entries |
| EnvSetup.Lookup | src/scripts/setup.ts:67 | a value exactly when the key is present |
| EnvSetup.Set | src/scripts/setup.ts:70-71 | the key reads the new value, every other key is unchanged, an existing key keeps its place and a new one goes last |
| EnvSetup.SpreadProps | src/scripts/setup.ts:67 | `{ ...current, ...answers }`: an answered key reads the answer, any other the current value, and the current keys keep their places |
| EnvSetup.WithDefault | src/scripts/setup.ts:70-71 | a missing or empty key gets the fallback, nothing else changes and the keys keep their places |
| EnvSetup.AnswersOverride | src/scripts/setup.ts:67-71 | outside NODE_ENV and LOG_LEVEL, the written value is the answer when there is one, else the existing value |
| EnvSetup.DefaultsWhenMissing | src/scripts/setup.ts:70-71 | NODE_ENV and LOG_LEVEL get `development` and `info` exactly when missing or empty after the merge |
| EnvSetup.ExistingKeysKeepOrder | src/scripts/setup.ts:67-71 | the existing keys stay at the head of the written file, in order |
| EnvSetup.DefaultsDoNotOverride | src/scripts/setup.ts:70 | a NODE_ENV already set and not asked for is kept |
| EnvSetup.BuildEnv | src/scripts/setup.ts:67-71 | the merge and the defaults as written |
| EnvSetup.EnvContentLines | src/scripts/setup.ts:73-75 | for values without newlines, splitting the file at newlines gives back the lines, and each line up to `=` is its key |
| EnvSetup.Provider | src/scripts/setup.ts:101-106 | the first matching prefix among `file:`, `mysql:`, `sqlserver:`, `mongodb:`, `cockroachdb:` picks the provider, otherwise postgresql |
| EnvSetup.DatabaseUrlDefault | src/scripts/setup.ts:58 | the existing DATABASE_URL when set, otherwise `file:./dev.db`, which is SQLite |
| EnvSetup.UpdatePrismaProvider | src/scripts/setup.ts:93-128 | nothing without a schema file; the schema is rewritten exactly when its provider differs from the URL's, and then to the URL's provider |
| EnvSetup.RunSetup | src/scripts/setup.ts:9-89 | an existing file is kept unless the user declines; a failed prompt aborts; otherwise the merged env is written and the schema follows DATABASE_URL when it is set |

## Left out

- Discord rendering is not modelled. Embeds, colours, emoji, footers, component layout, placeholders and message texts other than the outcomes listed are visual layout, not behaviour.
- Prisma transactions, conditional updates and races are not modelled. Each write is one atomic map update, and concurrent interactions (such as two simultaneous claims) are out of scope.
- Timers are reduced to the delay the code computes. `setTimeout`/`setInterval` scheduling, the two-minute background loop, the delayed ticket-channel delete and the welcome auto-delete are not modelled.
- IEEE floating point is not modelled. Reputation and averages are computed in `real`, with `Math.round(x)` taken as `Floor(x + 0.5)`.
- `JSON.parse`, `JSON.stringify`, `parseInt`, `dotenv.parse`, `fs`, `inquirer` and `execSync` are replaced by parameters or left out. The Prisma-schema regular expression is replaced by the schema's current provider value. The help menu's emoji-stripping regular expression and `trim` are a `stripEmoji` parameter.
- Strings are sequences of characters. `toLowerCase`/`toUpperCase` map ASCII letters only, and `trim` removes space, tab, CR and LF.
- Midnight is taken in UTC (`now - now % 86400000`), not in the host's local time zone.
- Thin command wrappers, the loaders, the dashboard and help-page UI, the roles and general setup modules, the moderation service (apart from the TIMEOUT label) and the one-line event forwarders are not part of this model.
- PanelService: `updatePanel`, `updatePanelId`, `deletePanel` and `getPanelByMessageId` are not modelled; each is a single Prisma update, delete or lookup with no rule of its own.
- PanelService.RenderPanel: the rendered rows are checked for chunking and button mapping only; the message edit that posts them is left out.
- TicketManager.HandleButton: the five-second delay before the channel is deleted, and the deletion itself, are left out.
- StatsService.StatsStore.CheckPermanentRoles: a failing role add is not modelled, and the member's join time is taken as known.
- Welcome placeholders: `String.replace` with `$` patterns in the replacement text is not modelled; replacement is literal.
- WelcomeService.GetConfig: a stored JSON `null` is not distinguished from a missing property.
- ServerStatsService: channel `setName` rate limits, category positioning and the emoji in the channel labels are left out; staff, admin and mod counts include bots, as in the source.
- ServerStatsService.RefreshShowsNames: the channel names are promised only when new channels get ids that no statistic is recorded on and that differ from each other, as Discord guarantees, and when no two statistics in the stored settings share a cached channel. With shared channels the source writes the last statistic's name on both, and the model does the same.
- ServerStatsService.RefreshChannels: channel creation is the parameter `channelFor`; a failing create or rename is not modelled (the source ignores a failed rename, and a failed create aborts the update). The cache after the update is the `shown` map; moving the category to the top is left out.
- TicketService.CreateTicket: channel creation is a parameter (the id of the new ticket channel). A failure of `guild.channels.create`, after the config check and before any row is written, is not modelled; creation always succeeds here.
- ServerStatsService.LiveStatsConfig.EnsureStructure: channel creation is a parameter (the id the new category gets); its failure is not modelled.
- VoiceService.VoiceStore.RequestRoom: a failure inside `createTempChannel` (channel creation, permission edits, moving the member, sending the control panel) is not modelled; the room is always created and recorded.
- VoiceService: `renameChannel`, `setLimit`, `setBitrate`, the lock/unlock/hide/show/permit/block/kick/ban/reset wrappers and `sendControlPanel` are single platform calls and are represented only by the outcomes of `InteractionCreate.HandleVoiceControl`.
- InteractionCreate.HandleVoiceControl: `vc_back` is not owner-checked and the user limit is not clamped, as in the source. A transfer on a room without a record is `Crashed`, standing for the P2025 error that `claimChannel` throws uncaught.
- WelcomeSetup.WelcomeSetupStore.HandleInteraction: settings are stored as the value itself, not as JSON text.
- WelcomeSetup.WelcomeSetupStore.CollectBanner: the 60-second window and the filter on author and attachments belong to the message collector and are left out.
- ServerStatsSetup.StatsSetupStore.HandleInteraction: `channelType` is stored unvalidated, as in the source. The category list for step 4 is taken as already sorted by position. The background and online refreshes started on `Disabled` and `Confirmed` are represented by those screens.
- SetupRouter.HandleInteraction: whether a module handler throws, and whether it answered the interaction before throwing, is the `run` parameter.
- Undo.CaseLog.Undo: a failing `prisma.case.update` after the platform call is not modelled separately; it is the same reply as a failed platform call.
- ChannelService: discord.js channel classes are reduced to `ChannelKind` (announcement and stage channels are neither text nor voice). Permission overwrites are reduced to their ViewChannel bits. `lockPermissions`, the clone itself and the template edits are represented by their results.
- EnvSetup: inquirer's validation and re-prompting, `dotenv.parse`, file writes and `npx prisma generate` are left out. JavaScript's ordering of integer-like object keys is not modelled. A value containing a newline breaks the line structure of the file, which is why `EnvSetup.EnvContentLines` requires values without newlines.
