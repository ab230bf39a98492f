/** Two identifiers resolve to the same machine exactly when a chain of observations accepted for that machine links
    them. */
module MachineIdentity {
  import opened Prelude
  import opened Text
  import opened Records
  import opened Transactions
  import opened StoreInvariant
  import opened StoreSteps
  import opened TrustSteps
  import opened ControlPlane
  import opened StepsAreFaithful
  import opened Interleavings
  import opened Handoffs

  ghost predicate Resolves(db: Db, n: Identifier, m: Id) {
    n in db.identifiers && db.identifiers[n] == m
  }

  ghost predicate SeenIn(note: Note, m: Id, x: Identifier, y: Identifier) {
    note.Observed? && note.machine == m && x in note.identifiers && y in note.identifiers
  }

  /** One observation that was accepted for the machine names both identifiers. */
  ghost predicate SeenTogether(trace: seq<Note>, m: Id, x: Identifier, y: Identifier) {
    exists k :: 0 <= k < |trace| && SeenIn(trace[k], m, x, y)
  }

  ghost predicate IsChain(trace: seq<Note>, m: Id, path: seq<Identifier>) {
    |path| >= 2 && forall k :: 0 < k < |path| ==> SeenTogether(trace, m, path[k - 1], path[k])
  }

  ghost predicate Joins(trace: seq<Note>, m: Id, x: Identifier, y: Identifier, path: seq<Identifier>) {
    IsChain(trace, m, path) && path[0] == x && path[|path| - 1] == y
  }

  ghost predicate Linked(trace: seq<Note>, m: Id, x: Identifier, y: Identifier) {
    exists path :: Joins(trace, m, x, y, path)
  }

  // --- links are symmetric and transitive, and stay ---

  lemma {:induction false} LinkedOnce(trace: seq<Note>, m: Id, x: Identifier, y: Identifier)
    requires SeenTogether(trace, m, x, y)
    ensures Linked(trace, m, x, y)
  {
    hide SeenTogether;
    assert Joins(trace, m, x, y, [x, y]);
  }

  lemma {:induction false} LinkedBack(trace: seq<Note>, m: Id, x: Identifier, y: Identifier)
    requires Linked(trace, m, x, y)
    ensures Linked(trace, m, y, x)
  {
    var path :| Joins(trace, m, x, y, path);
    var back := seq(|path|, k requires 0 <= k < |path| => path[|path| - 1 - k]);
    forall k | 0 < k < |back| ensures SeenTogether(trace, m, back[k - 1], back[k]) {
      var at := |path| - k;
      assert SeenTogether(trace, m, path[at - 1], path[at]);
    }
    assert Joins(trace, m, y, x, back);
  }

  lemma {:induction false} LinkedThrough(trace: seq<Note>, m: Id, x: Identifier, y: Identifier, z: Identifier)
    requires Linked(trace, m, x, y) && Linked(trace, m, y, z)
    ensures Linked(trace, m, x, z)
  {
    hide SeenTogether;
    var p :| Joins(trace, m, x, y, p);
    var q :| Joins(trace, m, y, z, q);
    var path := p + q[1..];
    forall k | 0 < k < |path| ensures SeenTogether(trace, m, path[k - 1], path[k]) {
      if k < |p| {
        assert path[k - 1] == p[k - 1] && path[k] == p[k];
      } else {
        assert path[k - 1] == q[k - |p|] && path[k] == q[k - |p| + 1];
      }
    }
    assert Joins(trace, m, x, z, path);
  }

  lemma {:induction false} LinkedStays(trace: seq<Note>, note: Note, m: Id, x: Identifier, y: Identifier)
    requires Linked(trace, m, x, y)
    ensures Linked(trace + [note], m, x, y)
  {
    var path :| Joins(trace, m, x, y, path);
    var longer := trace + [note];
    forall k | 0 < k < |path| ensures SeenTogether(longer, m, path[k - 1], path[k]) {
      assert SeenTogether(trace, m, path[k - 1], path[k]);
      var j :| 0 <= j < |trace| && SeenIn(trace[j], m, path[k - 1], path[k]);
      assert longer[j] == trace[j];
    }
    assert Joins(longer, m, x, y, path);
  }

  lemma {:induction false} LinkedNow(trace: seq<Note>, m: Id, ids: seq<Identifier>, x: Identifier, y: Identifier)
    requires x in ids && y in ids
    ensures Linked(trace + [Observed(m, ids)], m, x, y)
  {
    var longer := trace + [Observed(m, ids)];
    assert SeenIn(longer[|trace|], m, x, y);
    LinkedOnce(longer, m, x, y);
  }

  // --- the invariant ---

  ghost predicate Connected(sys: Sys) {
    forall m, x, y | Resolves(sys.db, x, m) && Resolves(sys.db, y, m) :: Linked(sys.trace, m, x, y)
  }

  /** What an accepted observation resolves: what was known, and its own identifiers. */
  lemma {:induction false} AcceptedResolves(
    a: Db, ids: seq<Identifier>, m: Id, created: bool, b: Db, x: Identifier, n: Id)
    requires Accepts(a, ids, m, created, b) && Resolves(b, x, n)
    ensures Resolves(a, x, n) || (n == m && x in ids)
  {
  }

  /** An observation of a known machine contains one of its identifiers. */
  lemma {:induction false} KnownAnchor(a: Db, ids: seq<Identifier>, m: Id, b: Db) returns (z: Identifier)
    requires Accepts(a, ids, m, false, b)
    ensures z in ids && Resolves(a, z, m)
  {
    var n :| n in Matches(a, ids);
    var k :| 0 <= k < |ids| && ids[k] in a.identifiers && a.identifiers[ids[k]] == n;
    z := ids[k];
  }

  lemma {:induction false} ObservedConnects(
    a: Sys, ids: seq<Identifier>, m: Id, created: bool, b: Sys, n: Id, x: Identifier, y: Identifier)
    requires Connected(a) && IdentifiersAttached(a.db.identifiers, a.db.machines.Keys) && a.db.nextId !in a.db.machines
    requires Accepts(a.db, ids, m, created, b.db) && b.trace == a.trace + [Observed(m, ids)]
    requires Resolves(b.db, x, n) && Resolves(b.db, y, n)
    ensures Linked(b.trace, n, x, y)
  {
    hide Linked;
    AcceptedResolves(a.db, ids, m, created, b.db, x, n);
    AcceptedResolves(a.db, ids, m, created, b.db, y, n);
    if Resolves(a.db, x, n) && Resolves(a.db, y, n) {
      LinkedStays(a.trace, Observed(m, ids), n, x, y);
    } else if x in ids && y in ids && n == m {
      LinkedNow(a.trace, m, ids, x, y);
    } else {
      assert !created;
      hide Accepts;
      var z := KnownAnchor(a.db, ids, m, b.db);
      if x in ids && !Resolves(a.db, x, n) {
        LinkedNow(a.trace, m, ids, x, z);
        LinkedStays(a.trace, Observed(m, ids), n, z, y);
        LinkedThrough(b.trace, m, x, z, y);
      } else {
        LinkedStays(a.trace, Observed(m, ids), n, x, z);
        LinkedNow(a.trace, m, ids, z, y);
        LinkedThrough(b.trace, m, x, z, y);
      }
    }
  }

  lemma {:induction false} NextConnects(sys: Sys, action: Action)
    requires SysValid(sys) && Connected(sys)
    ensures Connected(Next(sys, action))
  {
    ActionIsFaithful(sys, action);
    ValidHasInv(sys);
    FreshMachineId(sys.db);
    var e, b := ActionEffect(sys, action), Next(sys, action);
    hide SysValid, ActionEffect, Inv, Evolves, Prepared, SameClaims, Linked, IdentifiersAttached;
    forall m, x, y | Resolves(b.db, x, m) && Resolves(b.db, y, m) ensures Linked(b.trace, m, x, y) {
      if e.note.Some? && e.note.value.Observed? {
        var created :| Accepts(sys.db, e.note.value.identifiers, e.note.value.machine, created, b.db);
        hide Accepts;
        ObservedConnects(sys, e.note.value.identifiers, e.note.value.machine, created, b, m, x, y);
      } else {
        hide Tells, Accepts;
        assert Resolves(sys.db, x, m) && Resolves(sys.db, y, m);
        if e.note.Some? {
          LinkedStays(sys.trace, e.note.value, m, x, y);
        }
      }
    }
  }

  lemma {:induction false} RunIsConnected(policy: SecureBootPolicy, actions: seq<Action>)
    ensures Connected(Run(policy, actions))
    decreases |actions|
  {
    hide Run, Next, SysValid, Linked;
    if actions == [] {
      RunStart(policy);
    } else {
      RunStep(policy, actions);
      RunIsConnected(policy, actions[..|actions| - 1]);
      RunIsValid(policy, actions[..|actions| - 1]);
      hide Connected;
      NextConnects(Run(policy, actions[..|actions| - 1]), actions[|actions| - 1]);
    }
  }

  lemma {:induction false} SeenIsResolved(sys: Sys, m: Id, x: Identifier, y: Identifier)
    requires TraceSound(sys) && m in sys.db.machines && SeenTogether(sys.trace, m, x, y)
    ensures Resolves(sys.db, x, m) && Resolves(sys.db, y, m)
  {
    hide Compatible;
    var k :| 0 <= k < |sys.trace| && SeenIn(sys.trace[k], m, x, y);
    assert Recalled(sys.db, sys.trace[k]);
    assert AttachedTo(sys.db, sys.trace[k].identifiers, m);
  }

  /** Machine identity is connectivity: identifiers resolve to the same live machine exactly when a chain of
      observations accepted for it links them. */
  lemma {:induction false} IdentityIsConnectivity(
    policy: SecureBootPolicy, actions: seq<Action>, m: Id, x: Identifier, y: Identifier)
    requires m in Run(policy, actions).db.machines
    ensures var sys := Run(policy, actions);
      Resolves(sys.db, x, m) && Resolves(sys.db, y, m) <==> Linked(sys.trace, m, x, y)
  {
    RunIsConnected(policy, actions);
    RunTraceIsSound(policy, actions);
    hide Run, TraceSound, SeenTogether;
    var sys := Run(policy, actions);
    if Linked(sys.trace, m, x, y) {
      var path :| Joins(sys.trace, m, x, y, path);
      assert SeenTogether(sys.trace, m, path[0], path[1]);
      assert SeenTogether(sys.trace, m, path[|path| - 2], path[|path| - 1]);
      SeenIsResolved(sys, m, path[0], path[1]);
      SeenIsResolved(sys, m, path[|path| - 2], path[|path| - 1]);
    }
  }

  /** Identifiers of different machines are never merged: as long as both machines live they stay apart. */
  lemma {:induction false} NeverMerged(
    policy: SecureBootPolicy, before: seq<Action>, after: seq<Action>, x: Identifier, y: Identifier)
    requires var db := Run(policy, before).db;
      x in db.identifiers && y in db.identifiers && db.identifiers[x] != db.identifiers[y]
    requires var db, later := Run(policy, before).db, Run(policy, before + after).db;
      db.identifiers[x] in later.machines && db.identifiers[y] in later.machines
    ensures var later := Run(policy, before + after).db;
      x in later.identifiers && y in later.identifiers && later.identifiers[x] != later.identifiers[y]
  {
    RunEvolves(policy, before, after);
    hide Run, SpecsEvolve, TrustEvolves, TelemetryEvolves;
  }

  // ---------------------------------------------------------------------------
  // Observations of a deleted machine link nothing
  // ---------------------------------------------------------------------------

  lemma {:induction false} NewIdentifiersMakeAMachine(db: Db, obs: Observation, now: Instant)
    requires Inv(db) && Observable(obs) && forall k | 0 <= k < |Seen(obs)| :: Seen(obs)[k] !in db.identifiers
    ensures var tx := Discover(db, obs, now);
      tx.result == Ok((db.nextId, true)) && Accepts(db, Seen(obs), db.nextId, true, tx.db) && Inv(tx.db)
  {
    FreshMachineId(db);
    DiscoverIsSound(db, obs, now);
    assert Matches(db, Seen(obs)) == {};
    hide Inv, Evolves, Discover, Accepts, IdentifiersAttached;
    DiscoverAccepts(db, obs, now);
    AcceptedShape(db, Seen(obs), Discover(db, obs, now));
  }

  lemma {:induction false} AcceptedShape(db: Db, ids: seq<Identifier>, tx: Tx<(Id, bool)>)
    requires tx.result.Ok? && Accepts(db, ids, tx.result.value.0, tx.result.value.1, tx.db)
    ensures tx.result.value.1 == (Matches(db, ids) == {}) && (tx.result.value.1 ==> tx.result.value.0 == db.nextId)
  {
  }

  lemma {:induction false} FreshMachineGoes(a: Db, ids: seq<Identifier>, b: Db, actor: string)
    requires Inv(a) && Inv(b) && Accepts(a, ids, a.nextId, true, b) && !Blank(actor)
    ensures DeleteMachine(b, a.nextId, actor) == Tx(WithoutMachine(b, a.nextId), Ok(Unit)) && Inv(WithoutMachine(b, a.nextId))
  {
    FreshMachineId(a);
    assert !Installed(b, a.nextId);
    hide Histories, TrustSound, KeysSound, Logs, SpecsOwned, IdentifiersAttached, IdsDrawn, Installed, DeleteMachine;
    hide Accepts, Evolves;
    DeleteMachineIsSound(b, a.nextId, actor);
    DeleteMachineCommits(b, a.nextId, actor);
  }

  /** Why the chain must consist of observations of that machine. The identifiers x, y and z are linked by accepted
      observations made after the machine of x was created, but the one that links y and z was of a machine deleted
      since, and z resolves to nothing. */
  lemma {:induction false} DeletedLinksAreLost(
    db: Db, x: Identifier, y: Identifier, z: Identifier, first: Observation, second: Observation, third: Observation,
    actor: string, now: Instant)
    requires Inv(db) && x != y && y != z && x != z && !Blank(actor)
    requires x !in db.identifiers && y !in db.identifiers && z !in db.identifiers
    requires Observable(first) && Observable(second) && Observable(third)
    requires first.identifiers == Some([x]) && second.identifiers == Some([y, z]) && third.identifiers == Some([x, y])
    ensures var one := Discover(db, first, now); var two := Discover(one.db, second, now);
      && one.result.Ok? && two.result.Ok?
      && var three := DeleteMachine(two.db, two.result.value.0, actor);
        var four := Discover(three.db, third, now);
        && three.result.Ok? && four.result == Ok((one.result.value.0, false))
        && Resolves(four.db, x, one.result.value.0) && Resolves(four.db, y, one.result.value.0)
        && z !in four.db.identifiers
  {
    hide Inv, Discover, DeleteMachine, Accepts, Observable;
    var one := Discover(db, first, now);
    NewIdentifiersMakeAMachine(db, first, now);
    IdentifiersNow(db, [x], one.db);
    var two := Discover(one.db, second, now);
    NewIdentifiersMakeAMachine(one.db, second, now);
    IdentifiersNow(one.db, [y, z], two.db);
    assert [x][0] == x && [y, z][0] == y && [y, z][1] == z;
    FreshMachineGoes(one.db, [y, z], two.db, actor);
    ThirdObservation(WithoutMachine(two.db, one.db.nextId), x, y, z, one.result.value.0, third, now);
  }

  lemma {:induction false} IdentifiersNow(a: Db, ids: seq<Identifier>, b: Db)
    requires Accepts(a, ids, a.nextId, true, b)
    ensures b.nextId == a.nextId + 1
    ensures forall n :: n in b.identifiers <==> n in a.identifiers || n in ids
    ensures forall n | n in b.identifiers :: b.identifiers[n] == if n in a.identifiers then a.identifiers[n] else a.nextId
  {
  }

  lemma {:induction false} OneMatch(db: Db, x: Identifier, y: Identifier, m: Id)
    requires Resolves(db, x, m) && y !in db.identifiers
    ensures Matches(db, [x, y]) == {m}
  {
    assert [x, y][0] == x && db.identifiers[[x, y][0]] in Matches(db, [x, y]);
  }

  lemma {:induction false} MatchedAccepts(a: Db, x: Identifier, y: Identifier, m: Id, tx: Tx<(Id, bool)>)
    requires tx.result.Ok? && Accepts(a, [x, y], tx.result.value.0, tx.result.value.1, tx.db)
    requires Resolves(a, x, m) && y !in a.identifiers && Matches(a, [x, y]) == {m}
    ensures tx.result == Ok((m, false)) && Resolves(tx.db, x, m) && Resolves(tx.db, y, m)
    ensures forall z | z != x && z != y && z !in a.identifiers :: z !in tx.db.identifiers
  {
    assert [x, y][0] == x && [x, y][1] == y;
  }

  lemma {:induction false} ThirdObservation(
    db: Db, x: Identifier, y: Identifier, z: Identifier, m: Id, third: Observation, now: Instant)
    requires Inv(db) && x != z && y != z && Resolves(db, x, m) && y !in db.identifiers && z !in db.identifiers
    requires Observable(third) && third.identifiers == Some([x, y])
    ensures var tx := Discover(db, third, now);
      tx.result == Ok((m, false)) && Resolves(tx.db, x, m) && Resolves(tx.db, y, m) && z !in tx.db.identifiers
  {
    hide Inv, Discover, IdentifiersAttached, Accepts, Observable, Matches;
    FreshMachineId(db);
    OneMatch(db, x, y, m);
    DiscoverAccepts(db, third, now);
    MatchedAccepts(db, x, y, m, Discover(db, third, now));
  }
}
