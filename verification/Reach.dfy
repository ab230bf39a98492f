/** Which stages an installation can still get to, when only some of the stages on the way can be reported. */
module Reach {
  import opened Prelude
  import opened Lifecycle

  /** The target can follow the current stage, at once or after some of these stages. */
  ghost predicate Reachable(current: Stage, target: Stage, hops: set<Stage>)
    decreases 10 - Rank(current)
  {
    || CanAdvance(Some(current), target)
    || exists s | s in hops && Rank(current) < Rank(s) :: CanAdvance(Some(current), s) && Reachable(s, target, hops)
  }

  lemma {:induction false} ReachableBefore(current: Stage, s: Stage, target: Stage, hops: set<Stage>)
    requires s in hops && CanAdvance(Some(current), s) && Reachable(s, target, hops)
    ensures Reachable(current, target, hops)
  {
    AdvanceRaisesRank(current, s);
  }

  /** What is reachable behind a path of such stages was reachable before it. */
  lemma {:induction false} ReachableThrough(stages: seq<Stage>, k: nat, target: Stage, hops: set<Stage>)
    requires IsPath(stages) && k < |stages|
    requires forall j | k < j < |stages| :: stages[j] in hops
    requires Reachable(stages[|stages| - 1], target, hops)
    ensures Reachable(stages[k], target, hops)
    decreases |stages| - k
  {
    hide Reachable;
    if k + 1 < |stages| {
      ReachableThrough(stages, k + 1, target, hops);
      assert CanAdvance(Some(stages[k + 1 - 1]), stages[k + 1]);
      ReachableBefore(stages[k], stages[k + 1], target, hops);
    }
  }

  lemma {:induction false} ReachableRises(current: Stage, target: Stage, hops: set<Stage>)
    requires Reachable(current, target, hops)
    ensures Rank(current) < Rank(target)
    decreases 10 - Rank(current)
  {
    if CanAdvance(Some(current), target) {
      AdvanceRaisesRank(current, target);
    } else {
      var s :| s in hops && Rank(current) < Rank(s) && CanAdvance(Some(current), s) && Reachable(s, target, hops);
      ReachableRises(s, target, hops);
    }
  }

  /** Only the stages in between matter. */
  lemma {:induction false} ReachableBetween(current: Stage, target: Stage, hops: set<Stage>, others: set<Stage>)
    requires Reachable(current, target, hops)
    requires forall s | s in hops && Rank(current) < Rank(s) < Rank(target) :: s in others
    ensures Reachable(current, target, others)
    decreases 10 - Rank(current)
  {
    if !CanAdvance(Some(current), target) {
      var s :| s in hops && Rank(current) < Rank(s) && CanAdvance(Some(current), s) && Reachable(s, target, hops);
      ReachableRises(s, target, hops);
      ReachableBetween(s, target, hops, others);
    }
  }

  lemma {:induction false} EndIsNotPassed(current: Stage, target: Stage, hops: set<Stage>)
    requires Reachable(current, target, hops)
    ensures !Terminal(current)
  {
  }

  /** The first stage of a way that has one. */
  lemma {:induction false} NextHop(current: Stage, target: Stage, hops: set<Stage>) returns (s: Stage)
    requires Reachable(current, target, hops) && !CanAdvance(Some(current), target)
    ensures s in hops && CanAdvance(Some(current), s) && Reachable(s, target, hops) && !Terminal(s)
    ensures Rank(current) < Rank(s) < Rank(target)
  {
    s :| s in hops && Rank(current) < Rank(s) && CanAdvance(Some(current), s) && Reachable(s, target, hops);
    EndIsNotPassed(s, target, hops);
    ReachableRises(s, target, hops);
  }

  // --- every stage can be reported ---

  const IN_ORDER: seq<Stage> := [
    Created, Queued, PxeBooted, InstallerStarted, DiskPreparation, OsInstalling, ProfileApplying, Hardening, FirstBoot,
    Validating, Success
  ]

  lemma {:induction false} RiseIsReachable(current: Stage, target: Stage, hops: set<Stage>)
    requires (forall s :: s in hops) && Rank(current) < Rank(target)
    ensures Reachable(current, target, hops)
    decreases Rank(target) - Rank(current)
  {
    if !CanAdvance(Some(current), target) {
      var next := IN_ORDER[Rank(current) + 1];
      assert CanAdvance(Some(current), next) && Rank(next) == Rank(current) + 1 < Rank(target);
      RiseIsReachable(next, target, hops);
      ReachableBefore(current, next, target, hops);
    }
  }

  /** If every stage can be reported, what can be reached is what lies ahead. */
  lemma {:induction false} ReachableFromAnything(current: Stage, target: Stage, hops: set<Stage>)
    requires forall s :: s in hops
    ensures Reachable(current, target, hops) <==> Rank(current) < Rank(target)
  {
    hide Reachable;
    if Reachable(current, target, hops) {
      ReachableRises(current, target, hops);
    }
    if Rank(current) < Rank(target) {
      RiseIsReachable(current, target, hops);
    }
  }

  // --- the server, the first boot and some stages of the installer ---

  /** What the server itself and the first boot of the installed system report. */
  const ELSEWHERE: set<Stage> := {Queued, PxeBooted, FirstBoot, Validating, Success, Failed}

  predicate InstallerStage(s: Stage) {
    Rank(InstallerStarted) <= Rank(s) <= Rank(Hardening)
  }

  /** The target lies ahead, and it is a failure or every stage of the installer in between is one of these. */
  predicate InTurn(current: Stage, target: Stage, late: set<Stage>) {
    && Rank(current) < Rank(target)
    && (target == Failed || forall s | InstallerStage(s) && Rank(current) < Rank(s) < Rank(target) :: s in late)
  }

  lemma {:induction false} AdvanceIsInTurn(current: Stage, target: Stage, late: set<Stage>)
    requires CanAdvance(Some(current), target)
    ensures InTurn(current, target, late)
  {
  }

  lemma {:induction false} HopIsInTurn(current: Stage, s: Stage, target: Stage, late: set<Stage>)
    requires s in ELSEWHERE + late && CanAdvance(Some(current), s) && InTurn(s, target, late)
    ensures InTurn(current, target, late)
  {
  }

  lemma {:induction false} ReachableIsInTurn(current: Stage, target: Stage, late: set<Stage>)
    requires Reachable(current, target, ELSEWHERE + late)
    ensures InTurn(current, target, late)
    decreases 10 - Rank(current)
  {
    hide InTurn;
    if CanAdvance(Some(current), target) {
      hide CanAdvance;
      AdvanceIsInTurn(current, target, late);
    } else {
      var s := NextHop(current, target, ELSEWHERE + late);
      hide CanAdvance;
      ReachableIsInTurn(s, target, late);
      HopIsInTurn(current, s, target, late);
    }
  }

  lemma {:induction false} NextInTurn(current: Stage, target: Stage, late: set<Stage>) returns (s: Stage)
    requires InTurn(current, target, late) && !CanAdvance(Some(current), target)
    ensures s in ELSEWHERE + late && CanAdvance(Some(current), s) && InTurn(s, target, late)
  {
    s := if Rank(current) < Rank(PxeBooted) then PxeBooted
      else if Rank(current) < Rank(Hardening) then IN_ORDER[Rank(current) + 1]
      else Validating;
  }

  lemma {:induction false} InTurnIsReachable(current: Stage, target: Stage, late: set<Stage>)
    requires InTurn(current, target, late)
    ensures Reachable(current, target, ELSEWHERE + late)
    decreases 10 - Rank(current)
  {
    if !CanAdvance(Some(current), target) {
      var s := NextInTurn(current, target, late);
      hide InTurn, Reachable;
      AdvanceRaisesRank(current, s);
      InTurnIsReachable(s, target, late);
      ReachableBefore(current, s, target, ELSEWHERE + late);
    }
  }

  /** When besides the server and the first boot only some stages of the installer can come in, a stage can be reached
      if and only if no other stage of the installer is missing in between. */
  lemma {:induction false} ReachableFromElsewhere(current: Stage, target: Stage, late: set<Stage>)
    ensures Reachable(current, target, ELSEWHERE + late) <==> InTurn(current, target, late)
  {
    hide InTurn, Reachable;
    if Reachable(current, target, ELSEWHERE + late) {
      ReachableIsInTurn(current, target, late);
    }
    if InTurn(current, target, late) {
      InTurnIsReachable(current, target, late);
    }
  }
}
