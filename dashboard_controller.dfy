/**
 * The moderator dashboard's state-changing flows
 * (src/mod-center/dashboard.controller.ts): adding moderators from a user
 * or role selection without duplicating profiles, removing a moderator
 * with their metrics and assignments, and the dashboard's counters.
 */
module DashboardController {
  import opened Common
  import opened ModTypes
  import opened Tables

  /** The dashboard actions by customId; ids without the `mod_` prefix are not the dashboard's. */
  datatype DashboardAction =
    | Refresh | Quit | ListTickets | ListModerators | ShowAddMenu | AddSelectedUsers | AddSelectedRoles
    | ShowRemoveMenu | RemoveSelectedUser | ShowAuditLog | Back | UnknownModAction | Ignored

  function RouteDashboard(customId: string): (action: DashboardAction)
    ensures action == Ignored <==> !StartsWith(customId, "mod_")
  {
    if !StartsWith(customId, "mod_") then Ignored
    else if customId == "mod_btn_refresh" then Refresh
    else if customId == "mod_btn_quit" then Quit
    else if customId == "mod_btn_tickets" then ListTickets
    else if customId == "mod_btn_mods" then ListModerators
    else if customId == "mod_btn_add_mod" then ShowAddMenu
    else if customId == "mod_sel_add_user" then AddSelectedUsers
    else if customId == "mod_sel_add_role" then AddSelectedRoles
    else if customId == "mod_btn_remove_mod" then ShowRemoveMenu
    else if customId == "mod_sel_remove_user" then RemoveSelectedUser
    else if customId == "mod_btn_audit" then ShowAuditLog
    else if customId == "mod_btn_back" then Back
    else UnknownModAction
  }

  /** A profile created from the dashboard: ACTIVE, opted in, burnout score 0. */
  function NewProfile(guildId: string, userId: string): ModeratorProfile
  {
    ModeratorProfile(guildId, userId, ACTIVE, false, 0)
  }

  /** One step of the add loop: create the profile unless the (guild, user) key exists. */
  function AddOne(profiles: map<ProfileKey, ModeratorProfile>, guildId: string, userId: string): map<ProfileKey, ModeratorProfile>
  {
    var k := ProfileKey(guildId, userId);
    if k in profiles then profiles else profiles[k := NewProfile(guildId, userId)]
  }

  /** The profile table after the add loop has run over `userIds` in order. */
  function AddAll(profiles: map<ProfileKey, ModeratorProfile>, guildId: string, userIds: seq<string>): map<ProfileKey, ModeratorProfile>
  {
    if |userIds| == 0 then profiles
    else AddOne(AddAll(profiles, guildId, userIds[..|userIds| - 1]), guildId, userIds[|userIds| - 1])
  }

  /** How many profiles the add loop creates. */
  function AddedCount(profiles: map<ProfileKey, ModeratorProfile>, guildId: string, userIds: seq<string>): nat
  {
    if |userIds| == 0 then 0
    else
      var before := AddAll(profiles, guildId, userIds[..|userIds| - 1]);
      AddedCount(profiles, guildId, userIds[..|userIds| - 1])
      + (if ProfileKey(guildId, userIds[|userIds| - 1]) in before then 0 else 1)
  }

  /** Adding keeps every existing profile as it was and creates one for each selected user without one. */
  lemma {:induction false} AddAllProps(profiles: map<ProfileKey, ModeratorProfile>, guildId: string, userIds: seq<string>)
    ensures AddAll(profiles, guildId, userIds).Keys == profiles.Keys + (set u | u in userIds :: ProfileKey(guildId, u))
    ensures forall k :: k in profiles ==> AddAll(profiles, guildId, userIds)[k] == profiles[k]
    ensures forall k :: k in AddAll(profiles, guildId, userIds) && k !in profiles ==>
      AddAll(profiles, guildId, userIds)[k] == NewProfile(k.guildId, k.userId)
  {
    if |userIds| > 0 {
      var init := userIds[..|userIds| - 1];
      var u := userIds[|userIds| - 1];
      AddAllProps(profiles, guildId, init);
      assert userIds == init + [u];
      assert (set x | x in userIds :: ProfileKey(guildId, x)) == (set x | x in init :: ProfileKey(guildId, x)) + {ProfileKey(guildId, u)};
    }
  }

  /** The reported count is exactly the number of profiles created. */
  lemma {:induction false} AddedCountIsGrowth(profiles: map<ProfileKey, ModeratorProfile>, guildId: string, userIds: seq<string>)
    ensures |AddAll(profiles, guildId, userIds).Keys| == |profiles.Keys| + AddedCount(profiles, guildId, userIds)
    ensures AddedCount(profiles, guildId, userIds) <= |userIds|
  {
    if |userIds| > 0 {
      var init := userIds[..|userIds| - 1];
      var u := userIds[|userIds| - 1];
      AddedCountIsGrowth(profiles, guildId, init);
      var before := AddAll(profiles, guildId, init);
      var k := ProfileKey(guildId, u);
      if k !in before {
        assert before[k := NewProfile(guildId, u)].Keys == before.Keys + {k};
      }
    }
  }

  /** Re-adding the same users changes nothing and reports zero. */
  lemma {:induction false} ReAddIsNoOp(profiles: map<ProfileKey, ModeratorProfile>, guildId: string, userIds: seq<string>)
    requires forall u :: u in userIds ==> ProfileKey(guildId, u) in profiles
    ensures AddAll(profiles, guildId, userIds) == profiles
    ensures AddedCount(profiles, guildId, userIds) == 0
  {
    if |userIds| > 0 {
      var init := userIds[..|userIds| - 1];
      assert forall u :: u in init ==> u in userIds;
      ReAddIsNoOp(profiles, guildId, init);
    }
  }

  /** Running the same selection twice: the second run creates nothing. */
  lemma SecondAddCreatesNothing(profiles: map<ProfileKey, ModeratorProfile>, guildId: string, userIds: seq<string>)
    ensures AddAll(AddAll(profiles, guildId, userIds), guildId, userIds) == AddAll(profiles, guildId, userIds)
    ensures AddedCount(AddAll(profiles, guildId, userIds), guildId, userIds) == 0
  {
    AddAllProps(profiles, guildId, userIds);
    ReAddIsNoOp(AddAll(profiles, guildId, userIds), guildId, userIds);
  }

  lemma AddOneKeepsKeyed(profiles: map<ProfileKey, ModeratorProfile>, guildId: string, userId: string)
    requires ProfilesKeyed(profiles)
    ensures ProfilesKeyed(AddOne(profiles, guildId, userId))
  {
  }

  /** The user-select flow: one lookup and at most one create per selected user. */
  method AddUsers(db: Store, guildId: string, userIds: seq<string>) returns (addedCount: nat)
    requires db.Valid()
    modifies db`profiles
    ensures db.Valid()
    ensures db.profiles == AddAll(old(db.profiles), guildId, userIds)
    ensures addedCount == AddedCount(old(db.profiles), guildId, userIds)
  {
    addedCount := 0;
    for i := 0 to |userIds|
      invariant db.Valid()
      invariant db.profiles == AddAll(old(db.profiles), guildId, userIds[..i])
      invariant addedCount == AddedCount(old(db.profiles), guildId, userIds[..i])
    {
      assert userIds[..i + 1][..i] == userIds[..i];
      var userId := userIds[i];
      var k := ProfileKey(guildId, userId);
      if k !in db.profiles {
        db.profiles := db.profiles[k := NewProfile(guildId, userId)];
        addedCount := addedCount + 1;
      }
    }
    assert userIds[..|userIds|] == userIds;
  }

  /** A cached guild member as far as these flows look at it. */
  datatype Member = Member(id: string, isBot: bool)

  /** The outcome of fetching one selected role. */
  datatype RoleFetch =
    | RoleMissing
    | RoleFetchFailed
    | RoleFound(members: seq<Member>)

  function HumanIds(members: seq<Member>): (ids: seq<string>)
    ensures forall u :: u in ids <==> exists m :: m in members && !m.isBot && m.id == u
  {
    if |members| == 0 then []
    else
      var last := members[|members| - 1];
      var init := members[..|members| - 1];
      assert members == init + [last];
      HumanIds(init) + (if last.isBot then [] else [last.id])
  }

  /** The user ids the role flow tries, in order: the non-bot members of every role that was fetched. */
  function RoleCandidateIds(roles: seq<RoleFetch>): seq<string>
  {
    if |roles| == 0 then []
    else
      var last := roles[|roles| - 1];
      RoleCandidateIds(roles[..|roles| - 1]) + (if last.RoleFound? then HumanIds(last.members) else [])
  }

  lemma {:induction false} AddAllAppend(profiles: map<ProfileKey, ModeratorProfile>, guildId: string, a: seq<string>, b: seq<string>)
    ensures AddAll(profiles, guildId, a + b) == AddAll(AddAll(profiles, guildId, a), guildId, b)
    ensures AddedCount(profiles, guildId, a + b) == AddedCount(profiles, guildId, a) + AddedCount(AddAll(profiles, guildId, a), guildId, b)
    decreases |b|
  {
    if |b| == 0 {
      assert a + b == a;
    } else {
      var init := b[..|b| - 1];
      assert (a + b)[..|a + b| - 1] == a + init;
      AddAllAppend(profiles, guildId, a, init);
    }
  }

  /** The members of one fetched role: bots are skipped, the rest are added as in the user flow. */
  method AddMembers(db: Store, guildId: string, members: seq<Member>) returns (addedCount: nat)
    requires db.Valid()
    modifies db`profiles
    ensures db.Valid()
    ensures db.profiles == AddAll(old(db.profiles), guildId, HumanIds(members))
    ensures addedCount == AddedCount(old(db.profiles), guildId, HumanIds(members))
  {
    addedCount := 0;
    for j := 0 to |members|
      invariant db.Valid()
      invariant db.profiles == AddAll(old(db.profiles), guildId, HumanIds(members[..j]))
      invariant addedCount == AddedCount(old(db.profiles), guildId, HumanIds(members[..j]))
    {
      assert members[..j + 1][..j] == members[..j];
      var member := members[j];
      assert members[..j + 1] == members[..j] + [member];
      if member.isBot {
        assert HumanIds(members[..j + 1]) == HumanIds(members[..j]) + [];
        assert HumanIds(members[..j]) + [] == HumanIds(members[..j]);
        continue;
      }
      assert HumanIds(members[..j + 1]) == HumanIds(members[..j]) + [member.id];
      AddAllAppend(old(db.profiles), guildId, HumanIds(members[..j]), [member.id]);
      assert [member.id][..0] == [];
      var k := ProfileKey(guildId, member.id);
      if k !in db.profiles {
        db.profiles := db.profiles[k := NewProfile(guildId, member.id)];
        addedCount := addedCount + 1;
      }
    }
    assert members[..|members|] == members;
  }

  /**
   * The role-select flow: roles that are missing or whose fetch fails are
   * skipped and the loop goes on with the next role.
   */
  method AddRoleMembers(db: Store, guildId: string, roles: seq<RoleFetch>) returns (addedCount: nat)
    requires db.Valid()
    modifies db`profiles
    ensures db.Valid()
    ensures db.profiles == AddAll(old(db.profiles), guildId, RoleCandidateIds(roles))
    ensures addedCount == AddedCount(old(db.profiles), guildId, RoleCandidateIds(roles))
  {
    addedCount := 0;
    for i := 0 to |roles|
      invariant db.Valid()
      invariant db.profiles == AddAll(old(db.profiles), guildId, RoleCandidateIds(roles[..i]))
      invariant addedCount == AddedCount(old(db.profiles), guildId, RoleCandidateIds(roles[..i]))
    {
      assert roles[..i + 1][..i] == roles[..i];
      var role := roles[i];
      ghost var done := RoleCandidateIds(roles[..i]);
      assert RoleCandidateIds(roles[..i + 1]) == done + (if role.RoleFound? then HumanIds(role.members) else []);
      if !role.RoleFound? {
        assert done + [] == done;
        continue;
      }
      var added := AddMembers(db, guildId, role.members);
      AddAllAppend(old(db.profiles), guildId, done, HumanIds(role.members));
      addedCount := addedCount + added;
    }
    assert roles[..|roles|] == roles;
  }

  /** The metrics table without the moderator's rows in this guild. */
  function MetricsWithout(metrics: map<MetricsKey, MetricsRow>, guildId: string, userId: string): (m: map<MetricsKey, MetricsRow>)
    ensures forall k :: k in m <==> k in metrics && !(k.modId == userId && k.guildId == guildId)
    ensures forall k :: k in m ==> m[k] == metrics[k]
  {
    map k | k in metrics && !(k.modId == userId && k.guildId == guildId) :: metrics[k]
  }

  /**
   * The assignments table without the moderator's rows in this guild. Rows
   * have no key of their own, so equal rows are kept or dropped together,
   * each copy once.
   */
  function AssignmentsWithout(assignments: seq<Assignment>, guildId: string, userId: string): (r: seq<Assignment>)
    ensures forall a :: a in r <==> a in assignments && !(a.modId == userId && a.guildId == guildId)
    ensures forall a :: multiset(r)[a] == if a.modId == userId && a.guildId == guildId then 0 else multiset(assignments)[a]
  {
    if |assignments| == 0 then []
    else
      var rest := AssignmentsWithout(assignments[1..], guildId, userId);
      assert assignments == [assignments[0]] + assignments[1..];
      assert forall a :: a in assignments <==> a == assignments[0] || a in assignments[1..];
      if assignments[0].modId == userId && assignments[0].guildId == guildId then rest else [assignments[0]] + rest
  }

  /** Deleting from a longer table deletes from each part in turn, so the survivors keep their table order. */
  lemma {:induction false} AssignmentsWithoutAppend(xs: seq<Assignment>, ys: seq<Assignment>, guildId: string, userId: string)
    ensures AssignmentsWithout(xs + ys, guildId, userId)
      == AssignmentsWithout(xs, guildId, userId) + AssignmentsWithout(ys, guildId, userId)
  {
    if |xs| > 0 {
      assert (xs + ys)[0] == xs[0] && (xs + ys)[1..] == xs[1..] + ys;
      AssignmentsWithoutAppend(xs[1..], ys, guildId, userId);
    } else {
      assert xs + ys == ys;
    }
  }

  /**
   * Removes a moderator: their metrics and assignments in the guild are
   * deleted first, then the profile. With no profile the final delete
   * fails with P2025, after the two bulk deletes have already run.
   */
  method RemoveModerator(db: Store, guildId: string, userId: string) returns (r: Result<()>)
    requires db.Valid()
    modifies db`metrics, db`assignments, db`profiles
    ensures db.Valid()
    ensures db.metrics == MetricsWithout(old(db.metrics), guildId, userId)
    ensures db.assignments == AssignmentsWithout(old(db.assignments), guildId, userId)
    ensures r.Ok? <==> ProfileKey(guildId, userId) in old(db.profiles)
    ensures r.Err? ==> r.error == "P2025"
    ensures db.profiles == old(db.profiles) - {ProfileKey(guildId, userId)}
  {
    db.metrics := MetricsWithout(db.metrics, guildId, userId);
    db.assignments := AssignmentsWithout(db.assignments, guildId, userId);
    var k := ProfileKey(guildId, userId);
    if k !in db.profiles {
      return Err("P2025");
    }
    db.profiles := db.profiles - {k};
    r := Ok(());
  }

  const AlreadyRemovedMessage := "⚠️ Could not find that moderator to remove. They may have already been removed."

  const RemoveErrorPrefix := "❌ Error removing moderator: "

  /** The reply for a failed removal: the not-found code gets a warning, anything else the error text. */
  function RemoveFailureReply(code: string, message: string): (reply: string)
    ensures code == "P2025" ==> reply == AlreadyRemovedMessage
    ensures code != "P2025" ==> StartsWith(reply, RemoveErrorPrefix) && reply[|RemoveErrorPrefix|..] == message
  {
    if code == "P2025" then AlreadyRemovedMessage
    else
      StartsWithConcat(RemoveErrorPrefix, message);
      RemoveErrorPrefix + message
  }

  datatype Presence = Online | Idle | Dnd | Offline

  /** A cached member with the presence the gateway reported, if any. */
  datatype CachedMember = CachedMember(id: string, presence: Option<Presence>)

  /** User ids of the guild's profiles whose status is not OFFLINE. */
  function ModIds(profiles: map<ProfileKey, ModeratorProfile>, guildId: string): (ids: set<string>)
    ensures forall u :: u in ids <==> exists k :: k in profiles && profiles[k].guildId == guildId
                                                 && profiles[k].status != OFFLINE && profiles[k].userId == u
  {
    set k | k in profiles && profiles[k].guildId == guildId && profiles[k].status != OFFLINE :: profiles[k].userId
  }

  predicate CountsAsOnline(m: CachedMember, modIds: set<string>)
  {
    m.id in modIds && m.presence.Some? && m.presence.value != Offline
  }

  function OnlineCount(members: seq<CachedMember>, modIds: set<string>): nat
  {
    if |members| == 0 then 0
    else OnlineCount(members[..|members| - 1], modIds) + (if CountsAsOnline(members[|members| - 1], modIds) then 1 else 0)
  }

  /** The count never exceeds the number of cached members, and is zero without moderators. */
  lemma {:induction false} OnlineCountBounds(members: seq<CachedMember>, modIds: set<string>)
    ensures OnlineCount(members, modIds) <= |members|
    ensures (forall i :: 0 <= i < |members| ==> !CountsAsOnline(members[i], modIds)) ==> OnlineCount(members, modIds) == 0
    ensures (forall i :: 0 <= i < |members| ==> CountsAsOnline(members[i], modIds)) ==> OnlineCount(members, modIds) == |members|
  {
    if |members| > 0 {
      OnlineCountBounds(members[..|members| - 1], modIds);
    }
  }

  /** "Mods online": cached members that have a non-OFFLINE profile and a presence other than offline. */
  method ModsOnline(profiles: map<ProfileKey, ModeratorProfile>, guildId: string, members: seq<CachedMember>)
    returns (modsOnline: nat)
    ensures modsOnline == OnlineCount(members, ModIds(profiles, guildId))
    ensures modsOnline <= |members|
  {
    var modIds := ModIds(profiles, guildId);
    modsOnline := 0;
    for i := 0 to |members|
      invariant modsOnline == OnlineCount(members[..i], modIds)
    {
      assert members[..i + 1][..i] == members[..i];
      var member := members[i];
      if member.id in modIds && member.presence.Some? && member.presence.value != Offline {
        modsOnline := modsOnline + 1;
      }
    }
    assert members[..|members|] == members;
    OnlineCountBounds(members, modIds);
  }

  predicate IsActiveTicket(t: Ticket)
  {
    t.status == OPEN || t.status == CLAIMED
  }

  /** The dashboard's open-ticket figure counts OPEN and CLAIMED tickets of every guild. */
  function ActiveTicketCount(ts: seq<Ticket>): (n: nat)
    ensures n <= |ts|
    ensures n == 0 <==> forall t :: t in ts ==> !IsActiveTicket(t)
  {
    if |ts| == 0 then 0
    else
      assert forall t :: t in ts <==> t == ts[0] || t in ts[1..];
      (if IsActiveTicket(ts[0]) then 1 else 0) + ActiveTicketCount(ts[1..])
  }
}
