/**
 * The voice-state event handler's session book-keeping
 * (src/events/voiceStateUpdate.ts): a map from user id to the time the user
 * joined voice, from which whole minutes are banked to the member's voice
 * statistics on leaving or switching channels. The temp-channel handling it
 * delegates to first is modelled in VoiceService.
 */
module VoiceStateUpdate {
  import opened Common

  /** One side of a voice-state update: the member's id, when the member is known, and the channel, if any. */
  datatype VoiceState = VoiceState(memberId: Option<string>, channelId: Option<string>)

  /** `newState.member?.id || oldState.member?.id`. */
  function ResolveUserId(oldState: VoiceState, newState: VoiceState): Option<string>
  {
    if newState.memberId.Some? then newState.memberId else oldState.memberId
  }

  const MinuteMs := 60000

  /** Whole minutes between the join time and now, rounded down. */
  function ElapsedMinutes(joinTime: int, now: int): (m: int)
    ensures m * MinuteMs <= now - joinTime < (m + 1) * MinuteMs
  {
    (now - joinTime) / MinuteMs
  }

  /** The recorded join time, if there is one and it is truthy (non-zero). */
  function JoinTime(sessions: map<string, int>, userId: string): Option<int>
  {
    if userId in sessions && sessions[userId] != 0 then Some(sessions[userId]) else None
  }

  /** The minutes passed to the voice tracker, when there are any and the old state carries the member. */
  function Banked(sessions: map<string, int>, userId: string, oldState: VoiceState, now: int): Option<int>
  {
    var joinTime := JoinTime(sessions, userId);
    if joinTime.Some? && ElapsedMinutes(joinTime.value, now) > 0 && oldState.memberId.Some?
    then Some(ElapsedMinutes(joinTime.value, now))
    else None
  }

  predicate Joined(oldState: VoiceState, newState: VoiceState)
  {
    newState.channelId.Some? && oldState.channelId.None?
  }

  predicate Left(oldState: VoiceState, newState: VoiceState)
  {
    newState.channelId.None? && oldState.channelId.Some?
  }

  predicate Switched(oldState: VoiceState, newState: VoiceState)
  {
    oldState.channelId.Some? && newState.channelId.Some? && oldState.channelId != newState.channelId
  }

  /** The effect of one update: the new session map and the minutes banked, if any. */
  datatype StepResult = StepResult(sessions: map<string, int>, banked: Option<int>)

  function Step(sessions: map<string, int>, oldState: VoiceState, newState: VoiceState, now: int): StepResult
  {
    var userId := ResolveUserId(oldState, newState);
    if userId.None? then StepResult(sessions, None)
    else
      var u := userId.value;
      if Joined(oldState, newState) then StepResult(sessions[u := now], None)
      else if Left(oldState, newState) then
        (if JoinTime(sessions, u).Some? then StepResult(sessions - {u}, Banked(sessions, u, oldState, now))
         else StepResult(sessions, None))
      else if Switched(oldState, newState) then StepResult(sessions[u := now], Banked(sessions, u, oldState, now))
      else StepResult(sessions, None)
  }

  /** The module-level `voiceSessions` map. */
  class VoiceSessions {
    var sessions: map<string, int>

    constructor()
      ensures sessions == map[]
    {
      sessions := map[];
    }

    /**
     * Handles one voice-state update after the temp-channel service has run,
     * and returns the minutes to credit to the old state's member through
     * the statistics service, if any.
     */
    method OnVoiceStateUpdate(oldState: VoiceState, newState: VoiceState, now: int) returns (banked: Option<int>)
      modifies this
      ensures StepResult(sessions, banked) == Step(old(sessions), oldState, newState, now)
    {
      banked := None;
      var userId := ResolveUserId(oldState, newState);
      if userId.None? {
        return;
      }
      var u := userId.value;
      if newState.channelId.Some? && oldState.channelId.None? {
        sessions := sessions[u := now];
      }
      if newState.channelId.None? && oldState.channelId.Some? {
        if u in sessions && sessions[u] != 0 {
          var durationMinutes := (now - sessions[u]) / MinuteMs;
          if durationMinutes > 0 && oldState.memberId.Some? {
            banked := Some(durationMinutes);
          }
          sessions := sessions - {u};
        }
      }
      if oldState.channelId.Some? && newState.channelId.Some? && oldState.channelId != newState.channelId {
        if u in sessions && sessions[u] != 0 {
          var durationMinutes := (now - sessions[u]) / MinuteMs;
          if durationMinutes > 0 && oldState.memberId.Some? {
            banked := Some(durationMinutes);
          }
        }
        sessions := sessions[u := now];
      }
    }
  }

  /** An update without a resolvable user, or one that stays in the same channel, changes nothing and banks nothing. */
  lemma NoChangeCases(sessions: map<string, int>, oldState: VoiceState, newState: VoiceState, now: int)
    requires ResolveUserId(oldState, newState).None? || oldState.channelId == newState.channelId
    ensures Step(sessions, oldState, newState, now) == StepResult(sessions, None)
  {
  }

  /**
   * Whatever is banked is a positive number of whole minutes no larger than
   * the time since the recorded join, and only the updating user's entry
   * changes.
   */
  lemma StepBounds(sessions: map<string, int>, oldState: VoiceState, newState: VoiceState, now: int)
    ensures var r := Step(sessions, oldState, newState, now);
      var userId := ResolveUserId(oldState, newState);
      (r.banked.Some? ==> userId.Some? && userId.value in sessions && oldState.memberId.Some?
                          && 0 < r.banked.value && r.banked.value * MinuteMs <= now - sessions[userId.value])
      && (forall v :: v in sessions && (userId.None? || v != userId.value) ==> v in r.sessions && r.sessions[v] == sessions[v])
      && (forall v :: v in r.sessions && (userId.None? || v != userId.value) ==> v in sessions)
  {
  }

  /**
   * Leaving removes the session when there is one and banks only if there was
   * one; a switch restarts the session at now.
   */
  lemma LeaveAndSwitch(sessions: map<string, int>, oldState: VoiceState, newState: VoiceState, now: int)
    requires ResolveUserId(oldState, newState).Some?
    ensures var u := ResolveUserId(oldState, newState).value;
      var r := Step(sessions, oldState, newState, now);
      (Left(oldState, newState) ==> u !in r.sessions || JoinTime(sessions, u).None?)
      && (Left(oldState, newState) && JoinTime(sessions, u).None? ==> r.banked.None?)
      && (Switched(oldState, newState) ==> u in r.sessions && r.sessions[u] == now)
      && (Joined(oldState, newState) ==> u in r.sessions && r.sessions[u] == now && r.banked.None?)
  {
  }

  /**
   * A join at `t0` followed by a leave at `t1` banks the whole minutes in
   * between (when positive) and leaves no session behind for the user.
   */
  lemma {:induction false} JoinThenLeave(sessions: map<string, int>, userId: string, channelId: string, t0: int, t1: int)
    requires t0 != 0
    ensures var joined := Step(sessions, VoiceState(Some(userId), None), VoiceState(Some(userId), Some(channelId)), t0);
      var left := Step(joined.sessions, VoiceState(Some(userId), Some(channelId)), VoiceState(Some(userId), None), t1);
      left.sessions == sessions - {userId}
      && left.banked == (if (t1 - t0) / MinuteMs > 0 then Some((t1 - t0) / MinuteMs) else None)
  {
    var joined := Step(sessions, VoiceState(Some(userId), None), VoiceState(Some(userId), Some(channelId)), t0);
    assert joined.sessions == sessions[userId := t0];
    assert sessions[userId := t0] - {userId} == sessions - {userId};
  }
}
