/** What holds of every run of the control plane, whatever requests are in flight and however their steps interleave. */
module Interleavings {
  import opened Prelude
  import opened Lifecycle
  import opened Records
  import opened Schema
  import opened Transactions
  import opened StoreInvariant
  import opened StoreSteps
  import opened TelemetrySteps
  import opened TrustSteps
  import opened ControlPlane
  import opened StepsAreFaithful

  // ---------------------------------------------------------------------------
  // Every reachable state
  // ---------------------------------------------------------------------------

  ghost predicate SysValid(sys: Sys) {
    && Inv(sys.db)
    && forall r | r in sys.requests :: r < sys.nextRequest && Prepared(sys.db, sys.requests[r])
  }

  lemma {:induction false} ActionIsFaithful(sys: Sys, action: Action)
    requires SysValid(sys)
    ensures Faithful(sys.db, ActionEffect(sys, action))
  {
    hide Inv, Faithful, Prepared, CallEffect, StartEffect, StepEffect;
    match action
    case Do(call, now) => CallIsFaithful(sys.db, call, now);
    case Begin(start, now) => StartIsFaithful(sys.db, sys.nextRequest, start, now);
    case Continue(r, requestId, now) =>
      if r in sys.requests {
        StepIsFaithful(sys.secureBoot, sys.db, r, sys.requests[r], requestId, now);
      } else {
        IdleIsFaithful(sys.db, None, None);
      }
    case Abandon(_) => IdleIsFaithful(sys.db, None, None);
  }

  lemma {:induction false} FaithfulParts(a: Db, e: Effect)
    requires Faithful(a, e)
    ensures Inv(e.db) && Evolves(a, e.db) && (e.next.Some? ==> Prepared(e.db, e.next.value))
  {
    hide Inv, Evolves, Prepared, Tells, SameClaims, NoNewIdentifiers;
  }

  /** A request that goes on was in flight or has just begun. */
  lemma {:induction false} EffectIsOfARequest(sys: Sys, action: Action)
    requires ActionEffect(sys, action).next.Some?
    ensures action.Begin? || (action.Continue? && action.request in sys.requests)
  {
    hide StartEffect, StepEffect, Discover, SetPolicy, Arm, Settle, RegisterKey, ApproveKey, RevokeKey, CreateChallenge;
    hide Complete, RevokeCredential, DeleteInstallation, DeleteMachine;
  }

  lemma {:induction false} NextIsValid(sys: Sys, action: Action)
    requires SysValid(sys)
    ensures SysValid(Next(sys, action)) && Evolves(sys.db, Next(sys, action).db)
  {
    hide Inv, Evolves, Prepared, Faithful, ActionEffect;
    var e := ActionEffect(sys, action);
    ActionIsFaithful(sys, action);
    FaithfulParts(sys.db, e);
    var next := Next(sys, action);
    if e.next.Some? {
      EffectIsOfARequest(sys, action);
    }
    forall r | r in next.requests ensures r < next.nextRequest && Prepared(next.db, next.requests[r]) {
      if r in sys.requests && next.requests[r] == sys.requests[r] {
        PreparedStays(sys.db, e.db, sys.requests[r]);
      }
    }
  }

  lemma {:induction false} RunStep(policy: SecureBootPolicy, actions: seq<Action>)
    requires actions != []
    ensures Run(policy, actions) == Next(Run(policy, actions[..|actions| - 1]), actions[|actions| - 1])
  {
  }

  lemma {:induction false} NextKeepsPolicy(sys: Sys, action: Action)
    ensures Next(sys, action).secureBoot == sys.secureBoot
  {
    hide ActionEffect;
  }

  lemma {:induction false} RunStart(policy: SecureBootPolicy)
    ensures Run(policy, []) == Sys(policy, EMPTY_STORE, map[], 0, [])
  {
  }

  /** The store invariant holds after every run, and no step of a request is ever surprised by another one. */
  lemma {:induction false} RunIsValid(policy: SecureBootPolicy, actions: seq<Action>)
    ensures SysValid(Run(policy, actions)) && Run(policy, actions).secureBoot == policy
    decreases |actions|
  {
    hide Run, Inv, Prepared, Next;
    if actions == [] {
      RunStart(policy);
      EmptyStoreIsValid();
    } else {
      RunStep(policy, actions);
      RunIsValid(policy, actions[..|actions| - 1]);
      NextKeepsPolicy(Run(policy, actions[..|actions| - 1]), actions[|actions| - 1]);
      NextIsValid(Run(policy, actions[..|actions| - 1]), actions[|actions| - 1]);
    }
  }

  lemma {:induction false} RunEvolves(policy: SecureBootPolicy, before: seq<Action>, after: seq<Action>)
    ensures Evolves(Run(policy, before).db, Run(policy, before + after).db)
    decreases |after|
  {
    hide SysValid, Evolves, ActionEffect, Run;
    RunIsValid(policy, before);
    if after == [] {
      assert before + after == before;
      EvolvesStays(Run(policy, before).db);
    } else {
      var n := |after| - 1;
      assert (before + after)[..|before + after| - 1] == before + after[..n];
      RunEvolves(policy, before, after[..n]);
      RunStep(policy, before + after);
      RunIsValid(policy, before + after[..n]);
      NextIsValid(Run(policy, before + after[..n]), after[n]);
      ValidHasInv(Run(policy, before));
      EvolvesThrough(Run(policy, before).db, Run(policy, before + after[..n]).db, Run(policy, before + after).db);
    }
  }

  lemma {:induction false} ValidHasInv(sys: Sys)
    requires SysValid(sys)
    ensures Inv(sys.db)
  {
    hide Inv, Prepared;
  }

  lemma {:induction false} RunKeepsInv(policy: SecureBootPolicy, actions: seq<Action>)
    ensures Inv(Run(policy, actions).db)
  {
    hide Run;
    RunIsValid(policy, actions);
    hide Inv, Prepared;
  }

  // ---------------------------------------------------------------------------
  // The states along a run
  // ---------------------------------------------------------------------------

  /** The state before the first action, after the first, and so on to the end. */
  ghost function States(policy: SecureBootPolicy, actions: seq<Action>): (states: seq<Sys>)
    ensures |states| == |actions| + 1
    ensures forall n | 0 <= n <= |actions| :: states[n] == Run(policy, actions[..n])
  {
    seq(|actions| + 1, n requires 0 <= n <= |actions| => Run(policy, actions[..n]))
  }

  lemma {:induction false} StatesEnd(policy: SecureBootPolicy, actions: seq<Action>)
    ensures States(policy, actions)[|actions|] == Run(policy, actions)
  {
    hide Run;
    assert actions[..|actions|] == actions;
  }

  lemma {:induction false} StatesGrow(policy: SecureBootPolicy, actions: seq<Action>)
    requires actions != []
    ensures var front, last := actions[..|actions| - 1], actions[|actions| - 1];
      && actions == front + [last]
      && States(policy, actions) == States(policy, front) + [Next(Run(policy, front), last)]
  {
    hide Run, Next;
    var front := actions[..|actions| - 1];
    RunStep(policy, actions);
    StatesEnd(policy, actions);
    forall n | 0 <= n <= |front| ensures States(policy, actions)[n] == States(policy, front)[n] {
      assert actions[..n] == front[..n];
    }
  }
}
