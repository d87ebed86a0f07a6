/**
 * Temporary voice channels (src/services/voice.service.ts): joining the
 * guild's generator channel creates a room owned by the member, guarded by a
 * per-member cooldown and by the member's existing room; a temporary room
 * left empty is deleted with its record; ownership can be handed over.
 */
module VoiceService {
  import opened Common

  /** A tempVoiceChannel row. */
  datatype TempVoiceChannel = TempVoiceChannel(channelId: string, guildId: string, ownerId: string)

  /** The member whose voice state changed. */
  datatype VoiceMember = VoiceMember(id: string, username: string, guildId: string)

  /** A channel as the event carries it: its id, and whether it is voice-based. */
  datatype CachedChannel = CachedChannel(id: string, isVoice: bool)

  const CreationCooldownMs := 3000

  predicate ChannelIdsUnique(records: seq<TempVoiceChannel>)
  {
    forall i, j :: 0 <= i < j < |records| ==> records[i].channelId != records[j].channelId
  }

  function OwnedBy(records: seq<TempVoiceChannel>, ownerId: string): (r: Option<TempVoiceChannel>)
    ensures r.Some? ==> r.value in records && r.value.ownerId == ownerId
    ensures r.None? <==> forall t :: t in records ==> t.ownerId != ownerId
  {
    FindFirst(records, (t: TempVoiceChannel) => t.ownerId == ownerId)
  }

  /** The lookup by the unique channel id: with unique ids, the record found is the channel's only one. */
  function ByChannel(records: seq<TempVoiceChannel>, channelId: string): (r: Option<TempVoiceChannel>)
    ensures r.Some? ==> r.value in records && r.value.channelId == channelId
    ensures r.None? <==> forall t :: t in records ==> t.channelId != channelId
    ensures ChannelIdsUnique(records) ==> forall t :: t in records && t.channelId == channelId ==> r == Some(t)
  {
    var r := FindFirst(records, (t: TempVoiceChannel) => t.channelId == channelId);
    if r.Some? then SameChannelSameRecord(records, r.value, channelId); r else r
  }

  /** With unique channel ids, two records carrying the same channel id are the same record. */
  lemma SameChannelSameRecord(records: seq<TempVoiceChannel>, found: TempVoiceChannel, channelId: string)
    requires found in records && found.channelId == channelId
    ensures ChannelIdsUnique(records) ==> forall t :: t in records && t.channelId == channelId ==> t == found
  {
    if ChannelIdsUnique(records) {
      forall t | t in records && t.channelId == channelId
        ensures t == found
      {
        var i :| 0 <= i < |records| && records[i] == found;
        var j :| 0 <= j < |records| && records[j] == t;
        assert i == j;
      }
    }
  }

  /** The records without the one for `channelId`. */
  function Without(records: seq<TempVoiceChannel>, channelId: string): (r: seq<TempVoiceChannel>)
    ensures forall t :: t in r <==> t in records && t.channelId != channelId
    ensures ChannelIdsUnique(records) ==> ChannelIdsUnique(r)
  {
    if |records| == 0 then []
    else
      var rest := Without(records[..|records| - 1], channelId);
      var last := records[|records| - 1];
      WithoutUniqueStep(records, rest, channelId);
      rest + (if last.channelId == channelId then [] else [last])
  }

  /** The step of `Without`: the record appended after the kept prefix does not repeat a channel id. */
  lemma WithoutUniqueStep(records: seq<TempVoiceChannel>, rest: seq<TempVoiceChannel>, channelId: string)
    requires |records| > 0
    requires forall t :: t in rest ==> t in records[..|records| - 1]
    requires ChannelIdsUnique(records[..|records| - 1]) ==> ChannelIdsUnique(rest)
    ensures ChannelIdsUnique(records) ==>
      ChannelIdsUnique(rest + (if records[|records| - 1].channelId == channelId then [] else [records[|records| - 1]]))
  {
    var n := |records| - 1;
    var last := records[n];
    if ChannelIdsUnique(records) {
      assert ChannelIdsUnique(records[..n]);
      var r := rest + (if last.channelId == channelId then [] else [last]);
      forall i, j | 0 <= i < j < |r|
        ensures r[i].channelId != r[j].channelId
      {
        if j >= |rest| {
          assert r[j] == last && r[i] == rest[i];
          assert rest[i] in rest && rest[i] in records[..n];
          var k :| 0 <= k < n && records[..n][k] == rest[i];
          assert records[k] == rest[i];
        } else {
          assert r[i] == rest[i] && r[j] == rest[j];
        }
      }
    }
  }

  /** The name a new room gets. */
  function RoomName(username: string): string
  {
    username + "'s Room"
  }

  /** What the generator join led to. */
  datatype CreationOutcome =
    | NotRequested
    | RateLimited
    | AlreadyHasRoom(channelId: string)
    | RoomCreated(record: TempVoiceChannel, name: string, staleRemoved: Option<string>)

  predicate NoGenerator(generatorId: Option<string>)
  {
    generatorId.None? || generatorId.value == ""
  }

  /** Entering the generator from any other channel, or from none. */
  predicate EntersGenerator(generatorId: string, oldChannelId: Option<string>, newChannelId: Option<string>)
  {
    newChannelId == Some(generatorId) && oldChannelId != Some(generatorId)
  }

  /** Leaving a channel, by moving elsewhere or disconnecting. */
  predicate LeavesChannel(oldChannelId: Option<string>, newChannelId: Option<string>)
  {
    oldChannelId.Some? && oldChannelId.value != "" && oldChannelId != newChannelId
  }

  /** The member created a room less than the cooldown ago; a missing stamp counts as time 0. */
  predicate CoolingDown(cooldowns: map<string, int>, memberId: string, now: int)
  {
    var last := if memberId in cooldowns then cooldowns[memberId] else 0;
    now - last < CreationCooldownMs
  }

  /** Once a room is created at `t`, every further request of that member before `t + 3000` is ignored. */
  lemma SecondRequestIgnored(cooldowns: map<string, int>, memberId: string, t: int, later: int)
    requires t <= later < t + CreationCooldownMs
    ensures CoolingDown(cooldowns[memberId := t], memberId, later)
  {
  }

  /** The records once a room request has run: a created room replaces its owner's stale record, if any, and is appended. */
  function AfterRequest(records: seq<TempVoiceChannel>, creation: CreationOutcome): seq<TempVoiceChannel>
  {
    if creation.RoomCreated? then
      (if creation.staleRemoved.Some? then Without(records, creation.staleRemoved.value) else records) + [creation.record]
    else records
  }

  /** The tempVoiceChannel table and the creation cooldowns. */
  class VoiceStore {
    var records: seq<TempVoiceChannel>
    var cooldowns: map<string, int>

    ghost predicate Valid()
      reads this
    {
      ChannelIdsUnique(records)
    }

    constructor()
      ensures Valid() && records == [] && cooldowns == map[]
    {
      records := [];
      cooldowns := map[];
    }

    /**
     * `checkEmptyChannel`: only a voice channel with a record, whose fresh
     * fetch succeeds and shows no members, is deleted together with its
     * record. `freshMembers` holds the member counts the fetch returns.
     */
    method CheckEmptyChannel(channel: CachedChannel, freshMembers: map<string, nat>) returns (deleted: bool)
      requires Valid()
      modifies this`records
      ensures Valid()
      ensures deleted <==> channel.isVoice && ByChannel(old(records), channel.id).Some?
                           && channel.id in freshMembers && freshMembers[channel.id] == 0
      ensures records == if deleted then Without(old(records), channel.id) else old(records)
    {
      if !channel.isVoice {
        return false;
      }
      var record := ByChannel(records, channel.id);
      if record.None? {
        return false;
      }
      if channel.id !in freshMembers {
        return false;
      }
      deleted := false;
      if freshMembers[channel.id] == 0 {
        records := Without(records, channel.id);
        deleted := true;
      }
    }

    /**
     * The creation gate for a member entering the generator, then
     * `createTempChannel`: ignored within the cooldown of the member's last
     * creation, refused while the member's recorded room still exists, and
     * otherwise created (a stale record is removed first) and recorded, with
     * the cooldown stamped.
     */
    method RequestRoom(m: VoiceMember, cachedChannels: set<string>, now: int, roomId: string)
      returns (creation: CreationOutcome)
      requires Valid()
      requires forall t :: t in records ==> t.channelId != roomId
      modifies this
      ensures Valid()
      ensures var cooling := CoolingDown(old(cooldowns), m.id, now);
        var existing := OwnedBy(old(records), m.id);
        (cooling ==> creation == RateLimited && records == old(records) && cooldowns == old(cooldowns))
        && (!cooling && existing.Some? && existing.value.channelId in cachedChannels ==>
              creation == AlreadyHasRoom(existing.value.channelId) && records == old(records) && cooldowns == old(cooldowns))
        && (!cooling && (existing.None? || existing.value.channelId !in cachedChannels) ==>
              var record := TempVoiceChannel(roomId, m.guildId, m.id);
              cooldowns == old(cooldowns)[m.id := now]
              && records == (if existing.Some? then Without(old(records), existing.value.channelId) else old(records)) + [record]
              && creation == RoomCreated(record, RoomName(m.username),
                                         if existing.Some? then Some(existing.value.channelId) else None))
    {
      var last := if m.id in cooldowns then cooldowns[m.id] else 0;
      if now - last < CreationCooldownMs {
        return RateLimited;
      }
      var existing := OwnedBy(records, m.id);
      var stale: Option<string> := None;
      if existing.Some? {
        if existing.value.channelId in cachedChannels {
          return AlreadyHasRoom(existing.value.channelId);
        }
        records := Without(records, existing.value.channelId);
        stale := Some(existing.value.channelId);
      }
      cooldowns := cooldowns[m.id := now];
      var record := TempVoiceChannel(roomId, m.guildId, m.id);
      records := records + [record];
      creation := RoomCreated(record, RoomName(m.username), stale);
    }

    /**
     * `handleVoiceStateUpdate`. Nothing happens without a member or without a
     * generator channel. Entering the generator asks for a room; a request
     * that is rate-limited or refused also skips the clean-up, which
     * otherwise checks the channel the member left.
     */
    method HandleVoiceStateUpdate(member: Option<VoiceMember>, generatorId: Option<string>,
                                  oldChannelId: Option<string>, oldChannel: Option<CachedChannel>,
                                  newChannelId: Option<string>, cachedChannels: set<string>,
                                  freshMembers: map<string, nat>, now: int, roomId: string)
      returns (creation: CreationOutcome, cleanedUp: bool)
      requires Valid()
      requires forall t :: t in records ==> t.channelId != roomId
      modifies this
      ensures Valid()
      ensures member.None? || NoGenerator(generatorId) ==>
        creation == NotRequested && !cleanedUp && records == old(records) && cooldowns == old(cooldowns)
      ensures member.Some? && !NoGenerator(generatorId) && !EntersGenerator(generatorId.value, oldChannelId, newChannelId) ==>
        creation == NotRequested && cooldowns == old(cooldowns)
      ensures creation.RateLimited? || creation.AlreadyHasRoom? ==>
        records == old(records) && cooldowns == old(cooldowns) && !cleanedUp
      ensures creation.RoomCreated? ==> member.Some? && cooldowns == old(cooldowns)[member.value.id := now]
                                         && creation.record == TempVoiceChannel(roomId, member.value.guildId, member.value.id)
      ensures cleanedUp ==> LeavesChannel(oldChannelId, newChannelId) && oldChannel.Some? && oldChannel.value.isVoice
      ensures var mid := AfterRequest(old(records), creation);
        var checks := member.Some? && !NoGenerator(generatorId) && !creation.RateLimited? && !creation.AlreadyHasRoom?
                      && LeavesChannel(oldChannelId, newChannelId) && oldChannel.Some?;
        var deletes := checks && oldChannel.value.isVoice && ByChannel(mid, oldChannel.value.id).Some?
                       && oldChannel.value.id in freshMembers && freshMembers[oldChannel.value.id] == 0;
        (cleanedUp <==> deletes) && records == if deletes then Without(mid, oldChannel.value.id) else mid
    {
      creation := NotRequested;
      cleanedUp := false;
      if member.None? {
        return;
      }
      var m := member.value;
      if generatorId.None? || generatorId.value == "" {
        return;
      }
      var generator := generatorId.value;
      if newChannelId == Some(generator) && oldChannelId != Some(generator) {
        creation := RequestRoom(m, cachedChannels, now, roomId);
        if !creation.RoomCreated? {
          return;
        }
      }
      if oldChannelId.Some? && oldChannelId.value != "" && oldChannelId != newChannelId {
        if oldChannel.Some? {
          cleanedUp := CheckEmptyChannel(oldChannel.value, freshMembers);
        }
      }
    }

    /** `getOwner`. */
    function GetOwner(channelId: string): (owner: Option<string>)
      reads this
      ensures owner.Some? <==> exists t :: t in records && t.channelId == channelId
      ensures owner.Some? ==> TempVoiceChannel(channelId, ByChannel(records, channelId).value.guildId, owner.value) in records
    {
      var record := ByChannel(records, channelId);
      if record.Some? then Some(record.value.ownerId) else None
    }

    /** `claimChannel`: the record of the channel gets the new owner and nothing else changes; a missing record is P2025. */
    method ClaimChannel(channelId: string, newOwnerId: string) returns (r: Result<()>)
      requires Valid()
      modifies this`records
      ensures Valid()
      ensures r.Err? <==> forall t :: t in old(records) ==> t.channelId != channelId
      ensures r.Err? ==> r.error == "P2025" && records == old(records)
      ensures |records| == |old(records)|
      ensures forall i :: 0 <= i < |records| ==>
        records[i] == if old(records)[i].channelId == channelId then old(records)[i].(ownerId := newOwnerId) else old(records)[i]
    {
      var index := FirstIndex(records, (t: TempVoiceChannel) => t.channelId == channelId);
      if index.None? {
        return Err("P2025");
      }
      var i := index.value;
      records := records[i := records[i].(ownerId := newOwnerId)];
      r := Ok(());
    }
  }

  /** The buttons of a room's control panel, row by row. */
  const ControlPanelIds: seq<seq<string>> := [
    ["vc_rename", "vc_transfer", "vc_reset"],
    ["vc_lock", "vc_unlock", "vc_permit", "vc_block"],
    ["vc_kick", "vc_ban", "vc_hide", "vc_show"],
    ["vc_info", "vc_bitrate", "vc_limit"]
  ]
}
