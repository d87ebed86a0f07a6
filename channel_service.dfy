/**
 * Channel administration (src/services/channel.service.ts): who may see a
 * channel according to its overwrites, cloning, syncing with the category,
 * the permission templates, and the audit of members and roles holding
 * Administrator or Manage Server.
 */
module ChannelService {
  import opened Common

  /** A permission overwrite, reduced to its target and its ViewChannel bits. */
  datatype Overwrite = Overwrite(id: string, isRole: bool, allowsView: bool, deniesView: bool)

  function RoleMention(id: string): string { "<@&" + id + ">" }
  function UserMention(id: string): string { "<@" + id + ">" }

  /** The four lists of `getChannelInfo`, as mentions. */
  datatype ViewLists = ViewLists(allowedRoles: seq<string>, deniedRoles: seq<string>,
                                 allowedUsers: seq<string>, deniedUsers: seq<string>)

  /** One overwrite's contribution. */
  function Classify(lists: ViewLists, o: Overwrite): ViewLists
  {
    if o.isRole then
      lists.(allowedRoles := lists.allowedRoles + (if o.allowsView then [RoleMention(o.id)] else []),
             deniedRoles := lists.deniedRoles + (if o.deniesView then [RoleMention(o.id)] else []))
    else
      lists.(allowedUsers := lists.allowedUsers + (if o.allowsView then [UserMention(o.id)] else []),
             deniedUsers := lists.deniedUsers + (if o.deniesView then [UserMention(o.id)] else []))
  }

  /** The lists after visiting `overwrites` in order. */
  function Partition(overwrites: seq<Overwrite>): ViewLists
  {
    if |overwrites| == 0 then ViewLists([], [], [], [])
    else Classify(Partition(overwrites[..|overwrites| - 1]), overwrites[|overwrites| - 1])
  }

  /**
   * Every overwrite lands in the role or user lists by its type and in the
   * allow or deny list by its ViewChannel bits, and every entry comes from
   * such an overwrite.
   */
  lemma {:induction false} PartitionSorts(overwrites: seq<Overwrite>)
    ensures var p := Partition(overwrites);
      (forall o :: o in overwrites && o.isRole && o.allowsView ==> RoleMention(o.id) in p.allowedRoles)
      && (forall o :: o in overwrites && o.isRole && o.deniesView ==> RoleMention(o.id) in p.deniedRoles)
      && (forall o :: o in overwrites && !o.isRole && o.allowsView ==> UserMention(o.id) in p.allowedUsers)
      && (forall o :: o in overwrites && !o.isRole && o.deniesView ==> UserMention(o.id) in p.deniedUsers)
      && (forall m :: m in p.allowedRoles ==> exists o :: o in overwrites && o.isRole && o.allowsView && m == RoleMention(o.id))
      && (forall m :: m in p.deniedRoles ==> exists o :: o in overwrites && o.isRole && o.deniesView && m == RoleMention(o.id))
      && (forall m :: m in p.allowedUsers ==> exists o :: o in overwrites && !o.isRole && o.allowsView && m == UserMention(o.id))
      && (forall m :: m in p.deniedUsers ==> exists o :: o in overwrites && !o.isRole && o.deniesView && m == UserMention(o.id))
  {
    PartitionPlaces(overwrites);
    PartitionOrigins(overwrites);
  }

  /** The first half of `PartitionSorts`: where each overwrite lands. */
  lemma {:induction false} PartitionPlaces(overwrites: seq<Overwrite>)
    ensures var p := Partition(overwrites);
      (forall o :: o in overwrites && o.isRole && o.allowsView ==> RoleMention(o.id) in p.allowedRoles)
      && (forall o :: o in overwrites && o.isRole && o.deniesView ==> RoleMention(o.id) in p.deniedRoles)
      && (forall o :: o in overwrites && !o.isRole && o.allowsView ==> UserMention(o.id) in p.allowedUsers)
      && (forall o :: o in overwrites && !o.isRole && o.deniesView ==> UserMention(o.id) in p.deniedUsers)
  {
    if |overwrites| > 0 {
      var init := overwrites[..|overwrites| - 1];
      var last := overwrites[|overwrites| - 1];
      PartitionPlaces(init);
      var p0 := Partition(init);
      var p := Partition(overwrites);
      assert p == Classify(p0, last);
      forall o | o in overwrites
        ensures o in init || o == last
      {
        var i :| 0 <= i < |overwrites| && overwrites[i] == o;
        if i < |overwrites| - 1 { assert init[i] == o; }
      }
    }
  }

  /** The second half of `PartitionSorts`: where each entry comes from. */
  lemma {:induction false} PartitionOrigins(overwrites: seq<Overwrite>)
    ensures var p := Partition(overwrites);
      (forall m :: m in p.allowedRoles ==> exists o :: o in overwrites && o.isRole && o.allowsView && m == RoleMention(o.id))
      && (forall m :: m in p.deniedRoles ==> exists o :: o in overwrites && o.isRole && o.deniesView && m == RoleMention(o.id))
      && (forall m :: m in p.allowedUsers ==> exists o :: o in overwrites && !o.isRole && o.allowsView && m == UserMention(o.id))
      && (forall m :: m in p.deniedUsers ==> exists o :: o in overwrites && !o.isRole && o.deniesView && m == UserMention(o.id))
  {
    if |overwrites| > 0 {
      var init := overwrites[..|overwrites| - 1];
      var last := overwrites[|overwrites| - 1];
      PartitionOrigins(init);
      var p := Partition(overwrites);
      assert p == Classify(Partition(init), last);
      assert last in overwrites;
      assert forall o :: o in init ==> o in overwrites;
      forall m | m in p.allowedRoles
        ensures exists o :: o in overwrites && o.isRole && o.allowsView && m == RoleMention(o.id)
      {
        if m in Partition(init).allowedRoles {
          var o :| o in init && o.isRole && o.allowsView && m == RoleMention(o.id);
          assert o in overwrites;
        } else {
          assert m == RoleMention(last.id) && last.isRole && last.allowsView;
        }
      }
      forall m | m in p.deniedRoles
        ensures exists o :: o in overwrites && o.isRole && o.deniesView && m == RoleMention(o.id)
      {
        if m in Partition(init).deniedRoles {
          var o :| o in init && o.isRole && o.deniesView && m == RoleMention(o.id);
          assert o in overwrites;
        } else {
          assert m == RoleMention(last.id) && last.isRole && last.deniesView;
        }
      }
      forall m | m in p.allowedUsers
        ensures exists o :: o in overwrites && !o.isRole && o.allowsView && m == UserMention(o.id)
      {
        if m in Partition(init).allowedUsers {
          var o :| o in init && !o.isRole && o.allowsView && m == UserMention(o.id);
          assert o in overwrites;
        } else {
          assert m == UserMention(last.id) && !last.isRole && last.allowsView;
        }
      }
      forall m | m in p.deniedUsers
        ensures exists o :: o in overwrites && !o.isRole && o.deniesView && m == UserMention(o.id)
      {
        if m in Partition(init).deniedUsers {
          var o :| o in init && !o.isRole && o.deniesView && m == UserMention(o.id);
          assert o in overwrites;
        } else {
          assert m == UserMention(last.id) && !last.isRole && last.deniesView;
        }
      }
    }
  }

  /** A field of the info embed: the entries joined, or the text for an empty list. */
  function ListField(entries: seq<string>, whenEmpty: string, sep: string): (value: string)
    ensures |entries| == 0 ==> value == whenEmpty
    ensures |entries| > 0 ==> value == Join(entries, sep)
  {
    if |entries| > 0 then Join(entries, sep) else whenEmpty
  }

  /** The four list fields of the info embed, in order. */
  datatype InfoFields = InfoFields(allowedRoles: string, deniedRoles: string, allowedUsers: string, deniedUsers: string)

  /** `getChannelInfo`: the overwrites sorted into the four lists in one pass, then the fields. */
  method GetChannelInfo(overwrites: seq<Overwrite>) returns (lists: ViewLists, fields: InfoFields)
    ensures lists == Partition(overwrites)
    ensures fields == InfoFields(ListField(lists.allowedRoles, "None (Inherit/Default)", ", "), ListField(lists.deniedRoles, "None", ", "),
                                 ListField(lists.allowedUsers, "None", ", "), ListField(lists.deniedUsers, "None", ", "))
  {
    var allowedRoles: seq<string> := [];
    var deniedRoles: seq<string> := [];
    var allowedUsers: seq<string> := [];
    var deniedUsers: seq<string> := [];
    for i := 0 to |overwrites|
      invariant ViewLists(allowedRoles, deniedRoles, allowedUsers, deniedUsers) == Partition(overwrites[..i])
    {
      var o := overwrites[i];
      if o.isRole {
        if o.allowsView { allowedRoles := allowedRoles + [RoleMention(o.id)]; }
        if o.deniesView { deniedRoles := deniedRoles + [RoleMention(o.id)]; }
      } else {
        if o.allowsView { allowedUsers := allowedUsers + [UserMention(o.id)]; }
        if o.deniesView { deniedUsers := deniedUsers + [UserMention(o.id)]; }
      }
      assert overwrites[..i + 1][..i] == overwrites[..i];
    }
    assert overwrites[..|overwrites|] == overwrites;
    lists := ViewLists(allowedRoles, deniedRoles, allowedUsers, deniedUsers);
    fields := InfoFields(ListField(allowedRoles, "None (Inherit/Default)", ", "), ListField(deniedRoles, "None", ", "),
                         ListField(allowedUsers, "None", ", "), ListField(deniedUsers, "None", ", "));
  }

  /** The channel classes the actions tell apart. */
  datatype ChannelKind = Text | Voice | Announcement | Stage | Category | Forum | OtherKind

  /** `cloneChannel`: text and voice channels only; the name defaults to `<name>-copy`. Returns the clone's name. */
  function CloneChannel(kind: ChannelKind, name: string, newName: Option<string>): (r: Result<string>)
    ensures r.Ok? <==> kind == Text || kind == Voice
    ensures r.Err? ==> r.error == "Unsupported channel type for cloning."
    ensures r.Ok? && (newName.None? || newName.value == "") ==> r.value == name + "-copy"
    ensures r.Ok? && newName.Some? && newName.value != "" ==> r.value == newName.value
  {
    if kind == Text || kind == Voice then Ok(if newName.Some? && newName.value != "" then newName.value else name + "-copy")
    else Err("Unsupported channel type for cloning.")
  }

  /** `syncChannel`: a channel without a category cannot be synced. */
  function SyncChannel(parentId: Option<string>): (r: Result<bool>)
    ensures r.Err? <==> parentId.None?
    ensures r.Err? ==> r.error == "Channel has no category (parent) to sync with."
    ensures r.Ok? ==> r.value
  {
    if parentId.None? then Err("Channel has no category (parent) to sync with.") else Ok(true)
  }

  /** The @everyone overwrite a template writes; None leaves a permission as it is. */
  datatype EveryoneEdit = EveryoneEdit(viewChannel: Option<bool>, sendMessages: Option<bool>, connect: Option<bool>)

  /** `applyTemplate`: the three templates, and an error for any other name. */
  function ApplyTemplate(templateType: string): (r: Result<EveryoneEdit>)
    ensures r.Ok? <==> templateType in {"private", "public", "read_only"}
    ensures r.Err? ==> r.error == "Unknown template type."
    ensures templateType == "private" ==> r == Ok(EveryoneEdit(Some(false), None, None))
    ensures r.Ok? && templateType != "private" ==>
      r.value.viewChannel == Some(true)
      && r.value.sendMessages == Some(templateType == "public") && r.value.connect == Some(templateType == "public")
  {
    if templateType == "private" then Ok(EveryoneEdit(Some(false), None, None))
    else if templateType == "public" then Ok(EveryoneEdit(Some(true), Some(true), Some(true)))
    else if templateType == "read_only" then Ok(EveryoneEdit(Some(true), Some(false), Some(false)))
    else Err("Unknown template type.")
  }

  /** A guild member as the audit reads it. */
  datatype AuditMember = AuditMember(tag: string, isBot: bool, administrator: bool, manageGuild: bool)

  /** A role as the audit reads it. */
  datatype AuditRole = AuditRole(name: string, administrator: bool, manageGuild: bool)

  /** The audit's two lists. */
  datatype AuditLists = AuditLists(admins: seq<string>, managers: seq<string>)

  /** The members' entries: Administrator first, Manage Server otherwise; bots are skipped. */
  function MemberEntries(members: seq<AuditMember>): AuditLists
  {
    if |members| == 0 then AuditLists([], [])
    else
      var acc := MemberEntries(members[..|members| - 1]);
      var m := members[|members| - 1];
      var entry := m.tag + " (User)";
      if m.administrator then (if m.isBot then acc else acc.(admins := acc.admins + [entry]))
      else if m.manageGuild then (if m.isBot then acc else acc.(managers := acc.managers + [entry]))
      else acc
  }

  /** The roles' entries, after the members': Administrator first, Manage Server otherwise; no role is skipped. */
  function RoleEntries(start: AuditLists, roles: seq<AuditRole>): AuditLists
  {
    if |roles| == 0 then start
    else
      var acc := RoleEntries(start, roles[..|roles| - 1]);
      var r := roles[|roles| - 1];
      var entry := r.name + " (Role)";
      if r.administrator then acc.(admins := acc.admins + [entry])
      else if r.manageGuild then acc.(managers := acc.managers + [entry])
      else acc
  }

  /** An admin member or role is listed as admin only; a bot member is never listed; every role with either permission is. */
  lemma {:induction false} AuditClassification(members: seq<AuditMember>, roles: seq<AuditRole>)
    ensures var a := RoleEntries(MemberEntries(members), roles);
      (forall m :: m in members && !m.isBot && m.administrator ==> m.tag + " (User)" in a.admins)
      && (forall m :: m in members && !m.isBot && !m.administrator && m.manageGuild ==> m.tag + " (User)" in a.managers)
      && (forall r :: r in roles && r.administrator ==> r.name + " (Role)" in a.admins)
      && (forall r :: r in roles && !r.administrator && r.manageGuild ==> r.name + " (Role)" in a.managers)
      && |a.admins| + |a.managers| <= |members| + |roles|
  {
    MemberEntriesSorted(members);
    RoleEntriesSorted(MemberEntries(members), roles);
  }

  lemma {:induction false} MemberEntriesSorted(members: seq<AuditMember>)
    ensures var a := MemberEntries(members);
      (forall m :: m in members && !m.isBot && m.administrator ==> m.tag + " (User)" in a.admins)
      && (forall m :: m in members && !m.isBot && !m.administrator && m.manageGuild ==> m.tag + " (User)" in a.managers)
      && |a.admins| + |a.managers| <= |members|
  {
    if |members| > 0 {
      var init := members[..|members| - 1];
      MemberEntriesSorted(init);
      assert forall m :: m in members <==> m in init || m == members[|members| - 1];
    }
  }

  lemma {:induction false} RoleEntriesSorted(start: AuditLists, roles: seq<AuditRole>)
    ensures var a := RoleEntries(start, roles);
      (forall x :: x in start.admins ==> x in a.admins) && (forall x :: x in start.managers ==> x in a.managers)
      && (forall r :: r in roles && r.administrator ==> r.name + " (Role)" in a.admins)
      && (forall r :: r in roles && !r.administrator && r.manageGuild ==> r.name + " (Role)" in a.managers)
      && |a.admins| + |a.managers| <= |start.admins| + |start.managers| + |roles|
  {
    if |roles| > 0 {
      var init := roles[..|roles| - 1];
      RoleEntriesSorted(start, init);
      assert forall r :: r in roles <==> r in init || r == roles[|roles| - 1];
    }
  }

  /** A bot member with Administrator or Manage Server is in neither list. */
  lemma {:induction false} BotsNeverListed(members: seq<AuditMember>, tag: string)
    requires forall m :: m in members && m.tag == tag ==> m.isBot
    ensures tag + " (User)" !in MemberEntries(members).admins && tag + " (User)" !in MemberEntries(members).managers
  {
    if |members| > 0 {
      var init := members[..|members| - 1];
      BotsNeverListed(init, tag);
      var m := members[|members| - 1];
      if !m.isBot {
        assert m.tag != tag;
        assert |m.tag + " (User)"| != |tag + " (User)"| || m.tag + " (User)" != tag + " (User)" by {
          if |m.tag| == |tag| {
            assert (m.tag + " (User)")[..|tag|] == m.tag;
            assert (tag + " (User)")[..|tag|] == tag;
          }
        }
      }
    }
  }

  /** `auditPermissions`: one pass over the members, then one over the roles. */
  method AuditPermissions(members: seq<AuditMember>, roles: seq<AuditRole>) returns (admins: seq<string>, managers: seq<string>)
    ensures AuditLists(admins, managers) == RoleEntries(MemberEntries(members), roles)
  {
    admins := [];
    managers := [];
    for i := 0 to |members|
      invariant AuditLists(admins, managers) == MemberEntries(members[..i])
    {
      var m := members[i];
      if m.administrator {
        if !m.isBot { admins := admins + [m.tag + " (User)"]; }
      } else if m.manageGuild {
        if !m.isBot { managers := managers + [m.tag + " (User)"]; }
      }
      assert members[..i + 1][..i] == members[..i];
    }
    assert members[..|members|] == members;
    for j := 0 to |roles|
      invariant AuditLists(admins, managers) == RoleEntries(MemberEntries(members), roles[..j])
    {
      var r := roles[j];
      if r.administrator {
        admins := admins + [r.name + " (Role)"];
      } else if r.manageGuild {
        managers := managers + [r.name + " (Role)"];
      }
      assert roles[..j + 1][..j] == roles[..j];
    }
    assert roles[..|roles|] == roles;
  }
}
