/**
 * The `/undo` command (src/commands/undo.ts): an active moderation case is
 * reversed on the platform (a ban is lifted, a mute's timeout is cleared)
 * and then marked inactive.
 */
module Undo {
  import opened Common

  /** A moderation case row. */
  datatype Case = Case(id: int, action: string, targetId: string, active: bool)

  /** The platform call an undo makes. */
  datatype PlatformEffect = Unban(targetId: string) | ClearTimeout(targetId: string) | NoEffect

  /** What the moderator is told. */
  datatype UndoReply = CaseNotFound | AlreadyInactive | NoGuild | Undone(caseId: int, action: string) | UndoFailed

  /**
   * The platform call for a case: BAN unbans, MUTE clears the timeout when
   * the member can be fetched, and every other action has none.
   */
  function UndoEffect(c: Case, memberFound: bool): (e: PlatformEffect)
    ensures e.Unban? <==> c.action == "BAN"
    ensures e.ClearTimeout? <==> c.action == "MUTE" && memberFound
    ensures e != NoEffect ==> e.targetId == c.targetId
  {
    if c.action == "BAN" then Unban(c.targetId)
    else if c.action == "MUTE" && memberFound then ClearTimeout(c.targetId)
    else NoEffect
  }

  /** Timeouts are logged as TIMEOUT, not MUTE, so undoing one leaves the member timed out. */
  lemma TimeoutIsNotCleared(c: Case, memberFound: bool)
    requires c.action == "TIMEOUT"
    ensures UndoEffect(c, memberFound) == NoEffect
  {
  }

  /** The outcome of an undo: the new table, the reply and the platform call made. */
  datatype UndoResult = UndoResult(cases: map<int, Case>, reply: UndoReply, effect: PlatformEffect)

  /**
   * One undo. `platformOk` says whether the platform call, when there is
   * one, succeeds; a failed call leaves the case active.
   */
  function UndoStep(cases: map<int, Case>, caseId: int, inGuild: bool, memberFound: bool, platformOk: bool): UndoResult
  {
    if caseId !in cases then UndoResult(cases, CaseNotFound, NoEffect)
    else
      var c := cases[caseId];
      if !c.active then UndoResult(cases, AlreadyInactive, NoEffect)
      else if !inGuild then UndoResult(cases, NoGuild, NoEffect)
      else
        var effect := UndoEffect(c, memberFound);
        if effect != NoEffect && !platformOk then UndoResult(cases, UndoFailed, effect)
        else UndoResult(cases[caseId := c.(active := false)], Undone(caseId, c.action), effect)
  }

  /** Only a successful undo changes the table, and it changes nothing but that case's flag. */
  lemma UndoChangesOnlyTheFlag(cases: map<int, Case>, caseId: int, inGuild: bool, memberFound: bool, platformOk: bool)
    ensures var r := UndoStep(cases, caseId, inGuild, memberFound, platformOk);
      (r.reply.Undone? ==>
         caseId in cases && cases[caseId].active && r.cases == cases[caseId := cases[caseId].(active := false)])
      && (!r.reply.Undone? ==> r.cases == cases)
  {
  }

  /** Undo works at most once per case: right after a successful undo the case is refused as inactive. */
  lemma UndoAtMostOnce(cases: map<int, Case>, caseId: int, inGuild: bool, memberFound: bool, platformOk: bool,
                       inGuild2: bool, memberFound2: bool, platformOk2: bool)
    requires UndoStep(cases, caseId, inGuild, memberFound, platformOk).reply.Undone?
    ensures var again := UndoStep(UndoStep(cases, caseId, inGuild, memberFound, platformOk).cases, caseId, inGuild2, memberFound2, platformOk2);
      again.reply == AlreadyInactive && again.effect == NoEffect
  {
  }

  /** A failed platform call leaves the case active, so the undo can be retried. */
  lemma FailureKeepsCaseActive(cases: map<int, Case>, caseId: int, memberFound: bool)
    requires caseId in cases && cases[caseId].active && cases[caseId].action == "BAN"
    ensures var r := UndoStep(cases, caseId, true, memberFound, false);
      r.reply == UndoFailed && caseId in r.cases && r.cases[caseId].active
  {
  }

  /** The case table. */
  class CaseLog {
    var cases: map<int, Case>

    ghost predicate Valid()
      reads this
    {
      forall id :: id in cases ==> cases[id].id == id
    }

    constructor()
      ensures Valid() && cases == map[]
    {
      cases := map[];
    }

    /** `execute`: the checks, the platform call, and the flag flipped last. */
    method Undo(caseId: int, inGuild: bool, memberFound: bool, platformOk: bool)
      returns (reply: UndoReply, effect: PlatformEffect)
      requires Valid()
      modifies this`cases
      ensures Valid()
      ensures UndoResult(cases, reply, effect) == UndoStep(old(cases), caseId, inGuild, memberFound, platformOk)
    {
      effect := NoEffect;
      if caseId !in cases {
        return CaseNotFound, NoEffect;
      }
      var entry := cases[caseId];
      if !entry.active {
        return AlreadyInactive, NoEffect;
      }
      if !inGuild {
        return NoGuild, NoEffect;
      }
      if entry.action == "BAN" {
        effect := Unban(entry.targetId);
      } else if entry.action == "MUTE" {
        if memberFound {
          effect := ClearTimeout(entry.targetId);
        }
      }
      if effect != NoEffect && !platformOk {
        return UndoFailed, effect;
      }
      cases := cases[caseId := entry.(active := false)];
      reply := Undone(caseId, entry.action);
    }
  }
}
