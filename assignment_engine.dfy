/**
 * Automatic ticket assignment (src/mod-center/assignment.engine.ts): pick
 * the least loaded moderator among the active, not opted-out, not burnt-out
 * ones, and record the assignment together with the claim.
 */
module AssignmentEngine {
  import opened Common
  import opened ModTypes
  import opened Tables

  /** A profile as the candidate query returns it, with its count of open assignments. */
  datatype Candidate = Candidate(userId: string, burnoutScore: int, activeAssignments: nat)

  predicate InPool(p: ModeratorProfile, guildId: string)
  {
    p.guildId == guildId && p.status == ACTIVE && !p.optedOut
  }

  predicate IsOpenAssignmentOf(a: Assignment, guildId: string, userId: string)
  {
    a.guildId == guildId && a.modId == userId && a.unassignedAt.None?
  }

  /** Number of assignments of this moderator in this guild that were never unassigned. */
  function OpenAssignments(assignments: seq<Assignment>, guildId: string, userId: string): nat
  {
    if |assignments| == 0 then 0
    else (if IsOpenAssignmentOf(assignments[0], guildId, userId) then 1 else 0)
         + OpenAssignments(assignments[1..], guildId, userId)
  }

  function AsCandidate(p: ModeratorProfile, assignments: seq<Assignment>): Candidate
  {
    Candidate(p.userId, p.burnoutScore, OpenAssignments(assignments, p.guildId, p.userId))
  }

  /** The candidate query: the guild's ACTIVE, not opted-out profiles, in table order. */
  function Candidates(rows: seq<ModeratorProfile>, assignments: seq<Assignment>, guildId: string): (pool: seq<Candidate>)
    ensures |pool| == 0 <==> forall p :: p in rows ==> !InPool(p, guildId)
    ensures forall i :: 0 <= i < |pool| ==>
      exists p :: p in rows && InPool(p, guildId) && pool[i] == AsCandidate(p, assignments)
  {
    if |rows| == 0 then []
    else
      var rest := Candidates(rows[1..], assignments, guildId);
      assert forall p :: p in rows <==> p == rows[0] || p in rows[1..];
      if InPool(rows[0], guildId) then [AsCandidate(rows[0], assignments)] + rest else rest
  }

  /**
   * `idx` lists, in increasing order, the positions in `rows` of every
   * profile in the pool, and `pool[k]` is the candidate of row `idx[k]`.
   */
  predicate PoolPositions(pool: seq<Candidate>, rows: seq<ModeratorProfile>, assignments: seq<Assignment>,
                          guildId: string, idx: seq<int>)
  {
    |idx| == |pool|
    && (forall k :: 0 <= k < |idx| ==>
          0 <= idx[k] < |rows| && InPool(rows[idx[k]], guildId) && pool[k] == AsCandidate(rows[idx[k]], assignments))
    && (forall k, l :: 0 <= k < l < |idx| ==> idx[k] < idx[l])
    && (forall i :: 0 <= i < |rows| && InPool(rows[i], guildId) ==> i in idx)
  }

  /** Positions one further along. */
  function Shift(idx: seq<int>): (r: seq<int>)
    ensures |r| == |idx| && forall k :: 0 <= k < |idx| ==> r[k] == idx[k] + 1
  {
    seq(|idx|, k requires 0 <= k < |idx| => idx[k] + 1)
  }

  /** The positions of the pool of `rows[1..]`, shifted by one, are positions in `rows` past the first. */
  lemma ShiftedPositions(rows: seq<ModeratorProfile>, assignments: seq<Assignment>, guildId: string,
                         rest: seq<Candidate>, idx: seq<int>)
    requires |rows| > 0 && PoolPositions(rest, rows[1..], assignments, guildId, idx)
    ensures forall k :: 0 <= k < |idx| ==>
      1 <= Shift(idx)[k] < |rows| && InPool(rows[Shift(idx)[k]], guildId) && rest[k] == AsCandidate(rows[Shift(idx)[k]], assignments)
    ensures forall k, l :: 0 <= k < l < |idx| ==> Shift(idx)[k] < Shift(idx)[l]
    ensures forall i :: 1 <= i < |rows| && InPool(rows[i], guildId) ==> i in Shift(idx)
  {
    var tail := rows[1..];
    var shifted := Shift(idx);
    forall k | 0 <= k < |idx|
      ensures 1 <= shifted[k] < |rows| && InPool(rows[shifted[k]], guildId) && rest[k] == AsCandidate(rows[shifted[k]], assignments)
    {
      assert tail[idx[k]] == rows[shifted[k]];
    }
    forall i | 1 <= i < |rows| && InPool(rows[i], guildId)
      ensures i in shifted
    {
      assert tail[i - 1] == rows[i];
      var k :| 0 <= k < |idx| && idx[k] == i - 1;
      assert shifted[k] == i;
    }
  }

  /** The pool holds every qualifying profile, each once per row, in table order. */
  lemma {:induction false} CandidatesInTableOrder(rows: seq<ModeratorProfile>, assignments: seq<Assignment>, guildId: string)
    ensures exists idx :: PoolPositions(Candidates(rows, assignments, guildId), rows, assignments, guildId, idx)
  {
    if |rows| == 0 {
      assert Candidates(rows, assignments, guildId) == [];
      assert PoolPositions(Candidates(rows, assignments, guildId), rows, assignments, guildId, []);
    } else {
      CandidatesInTableOrder(rows[1..], assignments, guildId);
      var idx' :| PoolPositions(Candidates(rows[1..], assignments, guildId), rows[1..], assignments, guildId, idx');
      var idx := PositionsStep(rows, assignments, guildId, idx');
    }
  }

  /** The inductive step of `CandidatesInTableOrder`: the positions for `rows` from those for `rows[1..]`. */
  lemma PositionsStep(rows: seq<ModeratorProfile>, assignments: seq<Assignment>, guildId: string, idx': seq<int>)
    returns (idx: seq<int>)
    requires |rows| > 0
    requires PoolPositions(Candidates(rows[1..], assignments, guildId), rows[1..], assignments, guildId, idx')
    ensures PoolPositions(Candidates(rows, assignments, guildId), rows, assignments, guildId, idx)
  {
    var rest := Candidates(rows[1..], assignments, guildId);
    ShiftedPositions(rows, assignments, guildId, rest, idx');
    if InPool(rows[0], guildId) {
      assert Candidates(rows, assignments, guildId) == [AsCandidate(rows[0], assignments)] + rest;
      FirstRowPositions(rows, assignments, guildId, rest, Shift(idx'));
      idx := [0] + Shift(idx');
    } else {
      assert Candidates(rows, assignments, guildId) == rest;
      SkippedRowPositions(rows, assignments, guildId, rest, Shift(idx'));
      idx := Shift(idx');
    }
  }

  /** A first row outside the pool leaves the shifted positions as they are. */
  lemma SkippedRowPositions(rows: seq<ModeratorProfile>, assignments: seq<Assignment>, guildId: string,
                            rest: seq<Candidate>, shifted: seq<int>)
    requires |rows| > 0 && !InPool(rows[0], guildId) && |shifted| == |rest|
    requires forall k :: 0 <= k < |shifted| ==>
      1 <= shifted[k] < |rows| && InPool(rows[shifted[k]], guildId) && rest[k] == AsCandidate(rows[shifted[k]], assignments)
    requires forall k, l :: 0 <= k < l < |shifted| ==> shifted[k] < shifted[l]
    requires forall i :: 1 <= i < |rows| && InPool(rows[i], guildId) ==> i in shifted
    ensures PoolPositions(rest, rows, assignments, guildId, shifted)
  {
  }

  /** A qualifying first row goes in front of the shifted positions. */
  lemma FirstRowPositions(rows: seq<ModeratorProfile>, assignments: seq<Assignment>, guildId: string,
                          rest: seq<Candidate>, shifted: seq<int>)
    requires |rows| > 0 && InPool(rows[0], guildId) && |shifted| == |rest|
    requires forall k :: 0 <= k < |shifted| ==>
      1 <= shifted[k] < |rows| && InPool(rows[shifted[k]], guildId) && rest[k] == AsCandidate(rows[shifted[k]], assignments)
    requires forall k, l :: 0 <= k < l < |shifted| ==> shifted[k] < shifted[l]
    requires forall i :: 1 <= i < |rows| && InPool(rows[i], guildId) ==> i in shifted
    ensures PoolPositions([AsCandidate(rows[0], assignments)] + rest, rows, assignments, guildId, [0] + shifted)
  {
    var idx := [0] + shifted;
    var pool := [AsCandidate(rows[0], assignments)] + rest;
    forall k | 0 <= k < |idx|
      ensures 0 <= idx[k] < |rows| && InPool(rows[idx[k]], guildId) && pool[k] == AsCandidate(rows[idx[k]], assignments)
    {
      if k > 0 { assert idx[k] == shifted[k - 1] && pool[k] == rest[k - 1]; }
    }
    forall k, l | 0 <= k < l < |idx|
      ensures idx[k] < idx[l]
    {
      if k > 0 { assert idx[k] == shifted[k - 1] && idx[l] == shifted[l - 1]; }
      else { assert idx[l] == shifted[l - 1]; }
    }
    forall i | 0 <= i < |rows| && InPool(rows[i], guildId)
      ensures i in idx
    {
      if i > 0 { assert i in shifted; }
    }
  }

  /** Every qualifying profile is in the pool with its count of open assignments. */
  lemma CandidatesComplete(rows: seq<ModeratorProfile>, assignments: seq<Assignment>, guildId: string, p: ModeratorProfile)
    requires p in rows && InPool(p, guildId)
    ensures AsCandidate(p, assignments) in Candidates(rows, assignments, guildId)
  {
    CandidatesInTableOrder(rows, assignments, guildId);
    var pool := Candidates(rows, assignments, guildId);
    var idx :| PoolPositions(pool, rows, assignments, guildId, idx);
    var i :| 0 <= i < |rows| && rows[i] == p;
    var k :| 0 <= k < |idx| && idx[k] == i;
    assert pool[k] == AsCandidate(p, assignments);
  }

  const BurnoutCutoff := 70

  /** Candidates below the high-burnout cutoff, in pool order. */
  function Eligible(pool: seq<Candidate>): (eligible: seq<Candidate>)
    ensures |eligible| <= |pool|
    ensures forall c :: c in eligible <==> c in pool && c.burnoutScore < BurnoutCutoff
  {
    if |pool| == 0 then []
    else
      var rest := Eligible(pool[1..]);
      assert forall c :: c in pool <==> c == pool[0] || c in pool[1..];
      if pool[0].burnoutScore < BurnoutCutoff then [pool[0]] + rest else rest
  }

  /** Load-balancing score: 20 points off per open assignment. */
  function LoadScore(c: Candidate): int
  {
    100 - (c.activeAssignments as int) * 20
  }

  /** `eligible[k]` has the highest score, and every earlier candidate scores strictly less. */
  predicate IsFirstBest(eligible: seq<Candidate>, k: int)
  {
    0 <= k < |eligible|
    && (forall j :: 0 <= j < |eligible| ==> LoadScore(eligible[j]) <= LoadScore(eligible[k]))
    && (forall j :: 0 <= j < k ==> LoadScore(eligible[j]) < LoadScore(eligible[k]))
  }

  /** `score > best` where `None` stands for the initial `-Infinity`. */
  predicate Beats(score: int, best: Option<int>)
  {
    best.None? || score > best.value
  }

  /**
   * Picks the moderator for a new ticket from the candidate pool: null for
   * an empty pool, the first candidate when everybody is burnt out, and
   * otherwise the first eligible candidate with the highest load score.
   */
  method FindBestModerator(pool: seq<Candidate>) returns (best: Option<string>)
    ensures best.None? <==> |pool| == 0
    ensures |pool| > 0 && |Eligible(pool)| == 0 ==> best == Some(pool[0].userId)
    ensures |Eligible(pool)| > 0 ==>
      exists k :: IsFirstBest(Eligible(pool), k) && best == Some(Eligible(pool)[k].userId)
    ensures best.Some? ==> exists c :: c in pool && c.userId == best.value
  {
    if |pool| == 0 {
      return None;
    }
    var eligible := Eligible(pool);
    if |eligible| == 0 {
      return Some(pool[0].userId);
    }
    var bestModId := eligible[0].userId;
    var bestScore: Option<int> := None;
    ghost var bestIdx := 0;
    for i := 0 to |eligible|
      invariant 0 <= bestIdx < |eligible| && bestModId == eligible[bestIdx].userId
      invariant bestScore.None? <==> i == 0
      invariant i > 0 ==> bestIdx < i && bestScore == Some(LoadScore(eligible[bestIdx]))
      invariant forall j :: 0 <= j < i ==> LoadScore(eligible[j]) <= LoadScore(eligible[bestIdx])
      invariant forall j :: 0 <= j < bestIdx ==> LoadScore(eligible[j]) < LoadScore(eligible[bestIdx])
    {
      var load: int := eligible[i].activeAssignments;
      var score := 100 - load * 20;
      if Beats(score, bestScore) {
        bestScore := Some(score);
        bestModId := eligible[i].userId;
        bestIdx := i;
      }
    }
    assert eligible[bestIdx] in eligible;
    best := Some(bestModId);
  }

  /** The selection over the guild's profiles is null exactly when nobody is active and opted in. */
  lemma NullIffNoActiveProfile(rows: seq<ModeratorProfile>, assignments: seq<Assignment>, guildId: string)
    ensures |Candidates(rows, assignments, guildId)| == 0 <==> forall p :: p in rows ==> !InPool(p, guildId)
  {
  }

  /** A candidate with a burnout score of exactly 70 is never eligible. */
  lemma CutoffIsStrict(pool: seq<Candidate>, c: Candidate)
    requires c in pool && c.burnoutScore == 70
    ensures c !in Eligible(pool)
  {
  }

  /**
   * Claims the ticket for the moderator and records an AUTO assignment in
   * one transaction: a missing ticket makes the update throw and neither
   * write happens. The ticket's previous status is not checked.
   */
  method AssignTicket(db: Store, ticketId: int, modId: string, guildId: string) returns (r: Result<()>)
    requires db.Valid()
    modifies db`tickets, db`assignments
    ensures db.Valid()
    ensures r.Ok? <==> HasTicket(old(db.tickets), ticketId)
    ensures r.Ok? ==>
      db.tickets == old(db.tickets)[ticketId - 1 := old(db.tickets)[ticketId - 1].(status := CLAIMED, claimedBy := Some(modId))]
      && db.assignments == old(db.assignments) + [Assignment(ticketId, modId, guildId, "AUTO", None)]
    ensures r.Err? ==> db.tickets == old(db.tickets) && db.assignments == old(db.assignments)
  {
    if !HasTicket(db.tickets, ticketId) {
      return Err("P2025");
    }
    var t := db.tickets[ticketId - 1];
    db.tickets := db.tickets[ticketId - 1 := t.(status := CLAIMED, claimedBy := Some(modId))];
    db.assignments := db.assignments + [Assignment(ticketId, modId, guildId, "AUTO", None)];
    r := Ok(());
  }
}
