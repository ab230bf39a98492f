/** A store in which one installation has just booted over PXE and got its credential: where a reporter starts. */
module ReporterWitness {
  import opened Prelude
  import opened Text
  import opened Lifecycle
  import opened Records
  import opened Schema
  import opened Transactions
  import opened StoreInvariant
  import opened StepsAreFaithful
  import opened TrustRuns

  const MACHINE := Machine(Provision, "amd64", "uefi", Enabled, 1, 1)
  const SPEC := Spec(0, "credential", 1, "op")
  const ASSIGNMENT := Assignment(2, 0, 1, Consumed, 1, "op", 2, 0)
  const KEY := BootKey(0, PublicKey(true, 7, "pem"), "", KeyApproved, 1, 1, 1, "op", 0, "")
  const CHALLENGE := Challenge(ChallengeBody(3, 1, 0, 7, 0), 1, 1 + CHALLENGE_TTL, 2, Some(Oaep(7, 9)), 2 + CREDENTIAL_TTL)
  const CREDENTIAL := Credential("credential", Sha256(9), 2, 2 + CREDENTIAL_TTL, 0, 0)
  const EVENTS := [
    Event(ServerReport(Created, CreatedKey(1), CREATED_MESSAGE), 1, "r1"),
    Event(ServerReport(PxeBooted, PxeKey(1), PXE_MESSAGE), 1, "r2")
  ]

  const BOOTED_STORE := Db(
    4, map[0 := MACHINE], map[], map[1 := SPEC], map[1 := ASSIGNMENT], map[7 := KEY], map[3 := CHALLENGE],
    map[1 := CREDENTIAL], map[1 := EVENTS], map[])

  lemma {:induction false} BootedHistory()
    ensures History(1, EVENTS) && Coupled(1, EVENTS, {1}, map[1 := CREDENTIAL])
  {
    hide Decimal;
    assert StagesOf(EVENTS) == [Created, PxeBooted];
    assert CreatedKey(1)[7] == 'c' && PxeKey(1)[7] == 'p';
  }

  lemma {:induction false} BootedAssignment()
    ensures AssignmentFits(ASSIGNMENT, 1, SPEC)
  {
  }

  lemma {:induction false} BootedTrust()
    ensures TrustSound(map[3 := CHALLENGE], map[1 := CREDENTIAL], {1}, map[1 := SPEC])
  {
    assert UsedFor(map[3 := CHALLENGE], 3, 1);
  }

  lemma {:induction false} BootedStoreIsValid()
    ensures Inv(BOOTED_STORE) && Credentialed(BOOTED_STORE, 1)
    ensures forall at: Time | at < CREDENTIAL_TTL :: Usable(BOOTED_STORE, 1, at)
  {
    BootedHistory();
    BootedAssignment();
    BootedTrust();
    hide History, Coupled, AssignmentFits, TrustSound;
    var db := BOOTED_STORE;
    assert db.specs.Keys == {1} && db.machines.Keys == {0} && db.assignments.Keys == {1} && db.challenges.Keys == {3};
  }
}
