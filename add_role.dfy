/**
 * The `/addrole` command (src/commands/add-role.ts): a chain of checks on the
 * target member and on the role's position against the bot's and the
 * moderator's highest roles, then the role add.
 */
module AddRole {
  import opened Common

  /** What the command knows when it runs. */
  datatype AddRoleRequest = AddRoleRequest(
    inGuild: bool,
    memberResolved: bool,          // the target is in the guild's member cache
    roleManaged: bool,
    rolePosition: int,
    botHighest: Option<int>,       // the position of the bot's highest role, when the bot member is cached
    moderatorHighest: int,
    invokerId: string,
    ownerId: string,
    addSucceeds: bool)             // whether the platform accepts the role add

  datatype AddRoleOutcome =
    | NoGuild
    | MemberUnresolved
    | ManagedRole
    | AboveBot
    | AboveModerator
    | RoleAdded
    | AddFailed

  predicate BotCheckFails(r: AddRoleRequest)
  {
    r.botHighest.Some? && r.rolePosition >= r.botHighest.value
  }

  predicate ModeratorCheckFails(r: AddRoleRequest)
  {
    r.rolePosition >= r.moderatorHighest && r.invokerId != r.ownerId
  }

  /** `execute`: the first failing check decides the reply; the role is added only when all pass. */
  function Execute(r: AddRoleRequest): (outcome: AddRoleOutcome)
    ensures outcome == MemberUnresolved <==> r.inGuild && !r.memberResolved
    ensures outcome == ManagedRole <==> r.inGuild && r.memberResolved && r.roleManaged
    ensures outcome == AboveBot <==> r.inGuild && r.memberResolved && !r.roleManaged && BotCheckFails(r)
    ensures outcome == AboveModerator <==>
      r.inGuild && r.memberResolved && !r.roleManaged && !BotCheckFails(r) && ModeratorCheckFails(r)
    ensures outcome == RoleAdded <==>
      r.inGuild && r.memberResolved && !r.roleManaged && !BotCheckFails(r) && !ModeratorCheckFails(r) && r.addSucceeds
  {
    if !r.inGuild then NoGuild
    else if !r.memberResolved then MemberUnresolved
    else if r.roleManaged then ManagedRole
    else if r.botHighest.Some? && r.rolePosition >= r.botHighest.value then AboveBot
    else if r.rolePosition >= r.moderatorHighest && r.invokerId != r.ownerId then AboveModerator
    else if r.addSucceeds then RoleAdded
    else AddFailed
  }

  /** A role level with the bot's or the moderator's highest role is refused, just like a higher one. */
  lemma EqualPositionsRefused(r: AddRoleRequest)
    requires r.inGuild && r.memberResolved && !r.roleManaged
    ensures r.botHighest == Some(r.rolePosition) ==> Execute(r) == AboveBot
    ensures !BotCheckFails(r) && r.rolePosition == r.moderatorHighest && r.invokerId != r.ownerId ==> Execute(r) == AboveModerator
  {
  }

  /** The guild owner skips the moderator check but never the bot check. */
  lemma OwnerBypassesOnlyModeratorCheck(r: AddRoleRequest)
    requires r.inGuild && r.memberResolved && !r.roleManaged && r.invokerId == r.ownerId
    ensures Execute(r) != AboveModerator
    ensures BotCheckFails(r) ==> Execute(r) == AboveBot
  {
  }

  /** Without the bot member cached, the bot check is skipped. */
  lemma NoBotMemberNoBotCheck(r: AddRoleRequest)
    requires r.botHighest.None?
    ensures Execute(r) != AboveBot
  {
  }
}
