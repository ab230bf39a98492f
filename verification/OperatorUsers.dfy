/** Operator accounts (internal/store/operator_users.go): discovered from an external identity, approved or claimed,
    enrolled with a passkey, blocked. */
module OperatorUsers {
  import opened Prelude
  import opened Text

  type Id = nat

  datatype Role = NoRole | Admin | Operator

  datatype Status = PendingReview | EnrollmentRequired | Active | Blocked

  datatype User = User(provider: string, subject: string, displayName: string, email: string, role: Role, status: Status)

  /** Relying party and credential ID: UNIQUE(rp_id, credential_id). */
  datatype Passkey = Passkey(rp: string, credential: string)

  datatype Accounts = Accounts(nextId: Id, users: map<Id, User>, passkeys: map<Passkey, Id>)

  datatype Tx<+T> = Tx(accounts: Accounts, result: Result<T>)

  const NO_ACCOUNTS := Accounts(0, map[], map[])

  predicate HasControl(s: string) {
    exists k | 0 <= k < |s| :: Control(s[k])
  }

  predicate ValidIdentity(provider: string, subject: string) {
    && provider != "" && |provider| <= 64 && subject != "" && |subject| <= 128
    && !HasControl(provider) && !HasControl(subject)
  }

  predicate IsAdmin(u: User) {
    u.role == Admin && u.status != Blocked
  }

  /** SELECT COUNT(*) FROM operator_users WHERE role='admin' AND status<>'blocked' */
  function Admins(a: Accounts): set<Id> {
    set i | i in a.users && IsAdmin(a.users[i])
  }

  predicate Known(a: Accounts, i: Id, provider: string, subject: string) {
    i in a.users && a.users[i].provider == provider && a.users[i].subject == subject
  }

  // ---------------------------------------------------------------------------
  // The transactions
  // ---------------------------------------------------------------------------

  ghost function Find(a: Accounts, provider: string, subject: string): Option<Id> {
    if exists i :: Known(a, i, provider, subject) then
      var i :| Known(a, i, provider, subject);
      Some(i)
    else None
  }

  ghost function Resolve(
    a: Accounts, provider: string, subject: string, displayName: string, email: string): Tx<(Id, bool)> {
    var p, s, e := Trim(provider), Trim(subject), Trim(email);
    var d := if Trim(displayName) == "" then s else Trim(displayName);
    if !ValidIdentity(p, s) || |d| > 160 || |e| > 254 || HasControl(d) || HasControl(e)
    then Tx(a, Err(OperatorAuthenticationFailed))
    else if Find(a, p, s).Some? then Tx(a, Ok((Find(a, p, s).value, false)))
    else
      var row := User(p, s, d, e, NoRole, PendingReview);
      Tx(a.(nextId := a.nextId + 1, users := a.users[a.nextId := row]), Ok((a.nextId, true)))
  }

  /** What ClaimInitialAdmin and ApproveOperatorUser do to a user under review. */
  function Promote(a: Accounts, i: Id, role: Role): Tx<User> {
    if i !in a.users then Tx(a, Err(OperatorUserNotFound))
    else if a.users[i].status != PendingReview then Tx(a, Err(OperatorAuthorizationDenied))
    else
      var row := a.users[i].(role := role, status := EnrollmentRequired);
      Tx(a.(users := a.users[i := row]), Ok(row))
  }

  function Claim(a: Accounts, i: Id): Tx<User> {
    if |Admins(a)| != 0 then Tx(a, Err(OperatorAuthorizationDenied)) else Promote(a, i, Admin)
  }

  function Approve(a: Accounts, i: Id, role: Role): Tx<User> {
    if role == NoRole then Tx(a, Err(OperatorAuthorizationDenied)) else Promote(a, i, role)
  }

  function Block(a: Accounts, i: Id): Tx<User> {
    if i !in a.users then Tx(a, Err(OperatorUserNotFound))
    else if IsAdmin(a.users[i]) && |Admins(a)| <= 1 then Tx(a, Err(OperatorAuthorizationDenied))
    else
      var row := a.users[i].(status := Blocked);
      Tx(a.(users := a.users[i := row]), Ok(row))
  }

  /** The upsert conflicts on (user, rp, credential); the same (rp, credential) of another user breaks the other key. */
  function Save(a: Accounts, i: Id, passkey: Passkey, enrollment: bool): Tx<Unit> {
    if i !in a.users then Tx(a, Err(OperatorUserNotFound))
    else if enrollment && a.users[i].status != EnrollmentRequired then Tx(a, Err(OperatorAuthorizationDenied))
    else if passkey in a.passkeys && a.passkeys[passkey] != i then Tx(a, Err(StorageFailure))
    else
      var row := if enrollment then a.users[i].(status := Active) else a.users[i];
      Tx(a.(users := a.users[i := row], passkeys := a.passkeys[passkey := i]), Ok(Unit))
  }

  // ---------------------------------------------------------------------------
  // The store's methods
  // ---------------------------------------------------------------------------

  class AccountStore {
    var nextId: Id
    var users: map<Id, User>
    var passkeys: map<Passkey, Id>

    function State(): Accounts
      reads this
    {
      Accounts(nextId, users, passkeys)
    }

    ghost predicate Valid()
      reads this
    {
      Sound(State())
    }

    constructor ()
      ensures Valid() && State() == NO_ACCOUNTS
    {
      nextId, users, passkeys := 0, map[], map[];
    }

    method ResolveOperatorUser(provider: string, subject: string, displayName: string, email: string)
      returns (r: Result<(Id, bool)>)
      requires Valid()
      modifies this
      ensures Valid() && Tx(State(), r) == Resolve(old(State()), provider, subject, displayName, email)
    {
      hide Sound, Evolves, Trim, ValidIdentity, HasControl, Find;
      ResolveSound(State(), provider, subject, displayName, email);
      var p, s, d, e := Trim(provider), Trim(subject), Trim(displayName), Trim(email);
      if !ValidIdentity(p, s) {
        return Err(OperatorAuthenticationFailed);
      }
      if d == "" {
        d := s;
      }
      if |d| > 160 || |e| > 254 || HasControl(d) || HasControl(e) {
        return Err(OperatorAuthenticationFailed);
      }
      var found := Lookup(p, s);
      if found.Some? {
        return Ok((found.value, false));
      }
      var i := nextId;
      nextId := i + 1;
      users := users[i := User(p, s, d, e, NoRole, PendingReview)];
      return Ok((i, true));
    }

    /** operatorUserByExternalTx */
    method Lookup(provider: string, subject: string) returns (r: Option<Id>)
      requires Valid()
      ensures r == Find(State(), provider, subject)
    {
      var rest := users.Keys;
      while rest != {}
        invariant rest <= users.Keys
        invariant forall i | i in users.Keys - rest :: !Known(State(), i, provider, subject)
        decreases |rest|
      {
        var i :| i in rest;
        if users[i].provider == provider && users[i].subject == subject {
          FoundIsUnique(State(), i, provider, subject);
          return Some(i);
        }
        rest := rest - {i};
      }
      return None;
    }

    method ClaimInitialAdmin(i: Id) returns (r: Result<User>)
      requires Valid()
      modifies this
      ensures Valid() && Tx(State(), r) == Claim(old(State()), i)
    {
      hide Sound, Evolves;
      ClaimSound(State(), i);
      if |Admins(State())| != 0 {
        return Err(OperatorAuthorizationDenied);
      }
      if i !in users {
        return Err(OperatorUserNotFound);
      }
      if users[i].status != PendingReview {
        return Err(OperatorAuthorizationDenied);
      }
      users := users[i := users[i].(role := Admin, status := EnrollmentRequired)];
      return Ok(users[i]);
    }

    method ApproveOperatorUser(i: Id, role: Role) returns (r: Result<User>)
      requires Valid()
      modifies this
      ensures Valid() && Tx(State(), r) == Approve(old(State()), i, role)
      ensures r.Ok? <==> role != NoRole && i in old(users) && old(users)[i].status == PendingReview
      ensures users == if r.Ok? then old(users)[i := old(users)[i].(role := role, status := EnrollmentRequired)] else old(users)
    {
      hide Sound, Evolves;
      ApproveSound(State(), i, role);
      ApprovesExactly(State(), i, role);
      if role == NoRole {
        return Err(OperatorAuthorizationDenied);
      }
      if i !in users {
        return Err(OperatorUserNotFound);
      }
      if users[i].status != PendingReview {
        return Err(OperatorAuthorizationDenied);
      }
      users := users[i := users[i].(role := role, status := EnrollmentRequired)];
      return Ok(users[i]);
    }

    method BlockOperatorUser(i: Id) returns (r: Result<User>)
      requires Valid()
      modifies this
      ensures Valid() && Tx(State(), r) == Block(old(State()), i)
    {
      hide Sound, Evolves;
      BlockSound(State(), i);
      if i !in users {
        return Err(OperatorUserNotFound);
      }
      if users[i].role == Admin && users[i].status != Blocked {
        if |Admins(State())| <= 1 {
          return Err(OperatorAuthorizationDenied);
        }
      }
      users := users[i := users[i].(status := Blocked)];
      return Ok(users[i]);
    }

    method SaveOperatorCredential(i: Id, passkey: Passkey, enrollment: bool) returns (r: Result<Unit>)
      requires Valid()
      modifies this
      ensures Valid() && Tx(State(), r) == Save(old(State()), i, passkey, enrollment)
    {
      hide Sound, Evolves;
      SaveSound(State(), i, passkey, enrollment);
      if i !in users {
        return Err(OperatorUserNotFound);
      }
      if enrollment && users[i].status != EnrollmentRequired {
        return Err(OperatorAuthorizationDenied);
      }
      if passkey in passkeys && passkeys[passkey] != i {
        return Err(StorageFailure);
      }
      passkeys := passkeys[passkey := i];
      users := users[i := if enrollment then users[i].(status := Active) else users[i]];
      return Ok(Unit);
    }
  }

  // ---------------------------------------------------------------------------
  // The invariant
  // ---------------------------------------------------------------------------

  /** Who is active has a role and a passkey; who awaits enrollment has a role; who is under review has none. */
  ghost predicate Sound(a: Accounts) {
    && (forall i | i in a.users :: i < a.nextId && UserFits(a.users[i]))
    && (forall i | i in a.users && a.users[i].status == Active :: exists k :: Owns(a, k, i))
    && (forall k | k in a.passkeys :: a.passkeys[k] in a.users)
    && (forall i, j | i in a.users && j in a.users && i != j :: !SameIdentity(a.users[i], a.users[j]))
  }

  ghost predicate SameIdentity(u: User, v: User) {
    u.provider == v.provider && u.subject == v.subject
  }

  ghost predicate UserFits(u: User) {
    match u.status
    case PendingReview => u.role == NoRole
    case EnrollmentRequired => u.role != NoRole
    case Active => u.role != NoRole
    case Blocked => true
  }

  ghost predicate Owns(a: Accounts, k: Passkey, i: Id) {
    k in a.passkeys && a.passkeys[k] == i
  }

  /** From one state to a later one: users stay, with their identity; blocked users stay blocked; and if there was an
      administrator, there is one. */
  ghost predicate Evolves(a: Accounts, b: Accounts) {
    && (forall i | i in a.users :: i in b.users && SameIdentity(a.users[i], b.users[i])
          && (a.users[i].status == Blocked ==> b.users[i].status == Blocked))
    && (Admins(a) != {} ==> Admins(b) != {})
  }

  lemma {:induction false} FoundIsUnique(a: Accounts, i: Id, provider: string, subject: string)
    requires Sound(a) && Known(a, i, provider, subject)
    ensures Find(a, provider, subject) == Some(i)
  {
    hide Owns, UserFits;
  }

  lemma {:induction false} ResolveSound(
    a: Accounts, provider: string, subject: string, displayName: string, email: string)
    requires Sound(a)
    ensures var b := Resolve(a, provider, subject, displayName, email).accounts; Sound(b) && Evolves(a, b)
  {
    hide Trim, ValidIdentity, HasControl;
    var b := Resolve(a, provider, subject, displayName, email).accounts;
    if b != a {
      NewUserSound(a, b.users[a.nextId]);
    }
  }

  lemma {:induction false} NewUserSound(a: Accounts, row: User)
    requires Sound(a) && row.role == NoRole && row.status == PendingReview && Find(a, row.provider, row.subject).None?
    ensures var b := a.(nextId := a.nextId + 1, users := a.users[a.nextId := row]); Sound(b) && Evolves(a, b)
  {
    var b := a.(nextId := a.nextId + 1, users := a.users[a.nextId := row]);
    assert forall i | i in a.users :: !Known(a, i, row.provider, row.subject);
    forall i | i in b.users && b.users[i].status == Active ensures exists k :: Owns(b, k, i) {
      var k :| Owns(a, k, i);
      assert Owns(b, k, i);
    }
    AdminsStay(a, b);
  }

  lemma {:induction false} AdminsStay(a: Accounts, b: Accounts)
    requires forall i | i in Admins(a) :: i in b.users && IsAdmin(b.users[i])
    ensures Admins(a) != {} ==> Admins(b) != {}
  {
    if i :| i in Admins(a) {
      assert i in Admins(b);
    }
  }

  /** Changing the role and status of one user. */
  lemma {:induction false} UserChanged(a: Accounts, i: Id, row: User)
    requires Sound(a) && i in a.users && SameIdentity(a.users[i], row) && UserFits(row)
    requires row.status == Active ==> exists k :: Owns(a, k, i)
    ensures Sound(a.(users := a.users[i := row]))
  {
    var b := a.(users := a.users[i := row]);
    forall j | j in b.users && b.users[j].status == Active ensures exists k :: Owns(b, k, j) {
      var k :| Owns(a, k, j);
      assert Owns(b, k, j);
    }
  }

  lemma {:induction false} PromoteSound(a: Accounts, i: Id, role: Role)
    requires Sound(a) && role != NoRole
    ensures var b := Promote(a, i, role).accounts; Sound(b) && Evolves(a, b)
  {
    var b := Promote(a, i, role).accounts;
    if b != a {
      UserChanged(a, i, b.users[i]);
    }
    AdminsStay(a, b);
  }

  lemma {:induction false} ClaimSound(a: Accounts, i: Id)
    requires Sound(a)
    ensures var b := Claim(a, i).accounts; Sound(b) && Evolves(a, b)
    ensures Claim(a, i).result.Ok? ==> Admins(a) == {} && Admins(Claim(a, i).accounts) != {}
  {
    hide Sound;
    PromoteSound(a, i, Admin);
    if Claim(a, i).result.Ok? {
      assert i in Admins(Claim(a, i).accounts);
    }
  }

  lemma {:induction false} ApproveSound(a: Accounts, i: Id, role: Role)
    requires Sound(a)
    ensures var b := Approve(a, i, role).accounts; Sound(b) && Evolves(a, b)
  {
    hide Sound;
    if role != NoRole {
      PromoteSound(a, i, role);
    }
  }

  /** Another administrator remains when one of several is blocked. */
  lemma {:induction false} BlockSound(a: Accounts, i: Id)
    requires Sound(a)
    ensures var b := Block(a, i).accounts; Sound(b) && Evolves(a, b)
  {
    var b := Block(a, i).accounts;
    if b != a {
      UserChanged(a, i, b.users[i]);
    }
    hide Sound;
    if b != a {
      AdminAfterBlock(a, i, b);
    }
  }

  lemma {:induction false} AdminAfterBlock(a: Accounts, i: Id, b: Accounts)
    requires i in a.users && b.users == a.users[i := a.users[i].(status := Blocked)]
    requires IsAdmin(a.users[i]) ==> |Admins(a)| > 1
    ensures Admins(a) != {} ==> Admins(b) != {}
  {
    if IsAdmin(a.users[i]) {
      assert i in Admins(a);
      var j := Other(Admins(a), i);
      assert j in Admins(b);
    } else {
      AdminsStay(a, b);
    }
  }

  lemma {:induction false} Other(admins: set<Id>, i: Id) returns (j: Id)
    requires i in admins && |admins| > 1
    ensures j in admins && j != i
  {
    assert |admins - {i}| == |admins| - 1;
    j :| j in admins - {i};
  }

  /** The schema refuses a passkey exactly when another user has it for the same relying party. */
  lemma {:induction false} SaveSound(a: Accounts, i: Id, passkey: Passkey, enrollment: bool)
    requires Sound(a)
    ensures var b := Save(a, i, passkey, enrollment).accounts; Sound(b) && Evolves(a, b)
    ensures Save(a, i, passkey, enrollment).result == Err(StorageFailure) <==>
      && i in a.users && (enrollment ==> a.users[i].status == EnrollmentRequired)
      && passkey in a.passkeys && a.passkeys[passkey] != i
  {
    var tx := Save(a, i, passkey, enrollment);
    if tx.result.Ok? {
      var stored := a.(passkeys := a.passkeys[passkey := i]);
      forall j | j in stored.users && stored.users[j].status == Active ensures exists k :: Owns(stored, k, j) {
        var k :| Owns(a, k, j);
        assert Owns(stored, k, j);
      }
      assert Sound(stored);
      assert Owns(stored, passkey, i);
      UserChanged(stored, i, tx.accounts.users[i]);
    }
    AdminsStay(a, tx.accounts);
  }

  // ---------------------------------------------------------------------------
  // Every run
  // ---------------------------------------------------------------------------

  datatype Action =
    | ResolveAction(provider: string, subject: string, displayName: string, email: string)
    | ClaimAction(user: Id)
    | ApproveAction(user: Id, role: Role)
    | BlockAction(user: Id)
    | SaveAction(user: Id, passkey: Passkey, enrollment: bool)

  ghost function Act(a: Accounts, action: Action): Accounts {
    match action
    case ResolveAction(provider, subject, displayName, email) => Resolve(a, provider, subject, displayName, email).accounts
    case ClaimAction(i) => Claim(a, i).accounts
    case ApproveAction(i, role) => Approve(a, i, role).accounts
    case BlockAction(i) => Block(a, i).accounts
    case SaveAction(i, passkey, enrollment) => Save(a, i, passkey, enrollment).accounts
  }

  ghost function Run(actions: seq<Action>): Accounts
    decreases |actions|
  {
    if actions == [] then NO_ACCOUNTS else Act(Run(actions[..|actions| - 1]), actions[|actions| - 1])
  }

  predicate Claims(a: Accounts, action: Action) {
    action.ClaimAction? && Claim(a, action.user).result.Ok?
  }

  /** How many times the initial administrator was claimed. */
  ghost function ClaimCount(actions: seq<Action>): nat
    decreases |actions|
  {
    if actions == [] then 0
    else
      var front := actions[..|actions| - 1];
      ClaimCount(front) + if Claims(Run(front), actions[|actions| - 1]) then 1 else 0
  }

  lemma {:induction false} ActSound(a: Accounts, action: Action)
    requires Sound(a)
    ensures Sound(Act(a, action)) && Evolves(a, Act(a, action))
  {
    hide Sound, Evolves, Resolve, Claim, Approve, Block, Save;
    match action
    case ResolveAction(provider, subject, displayName, email) => ResolveSound(a, provider, subject, displayName, email);
    case ClaimAction(i) => ClaimSound(a, i);
    case ApproveAction(i, role) => ApproveSound(a, i, role);
    case BlockAction(i) => BlockSound(a, i);
    case SaveAction(i, passkey, enrollment) => SaveSound(a, i, passkey, enrollment);
  }

  lemma {:induction false} RunSound(actions: seq<Action>)
    ensures Sound(Run(actions))
    decreases |actions|
  {
    hide Act;
    if actions != [] {
      RunSound(actions[..|actions| - 1]);
      hide Sound;
      ActSound(Run(actions[..|actions| - 1]), actions[|actions| - 1]);
    }
  }

  lemma {:induction false} RunEvolves(before: seq<Action>, after: seq<Action>)
    ensures Evolves(Run(before), Run(before + after))
    decreases |after|
  {
    hide Act, Sound;
    if after == [] {
      assert before + after == before;
    } else {
      var n := |after| - 1;
      assert (before + after)[..|before + after| - 1] == before + after[..n];
      RunEvolves(before, after[..n]);
      RunSound(before + after[..n]);
      ActSound(Run(before + after[..n]), after[n]);
    }
  }

  /** Once there is an administrator who is not blocked, there always is one. */
  lemma {:induction false} AdministratorRemains(before: seq<Action>, after: seq<Action>)
    requires Admins(Run(before)) != {}
    ensures Admins(Run(before + after)) != {}
  {
    RunEvolves(before, after);
    hide Run;
  }

  /** A blocked user stays blocked. */
  lemma {:induction false} BlockedIsFinal(before: seq<Action>, after: seq<Action>, i: Id)
    requires i in Run(before).users && Run(before).users[i].status == Blocked
    ensures i in Run(before + after).users && Run(before + after).users[i].status == Blocked
  {
    RunEvolves(before, after);
    hide Run;
  }

  /** Every active user has a role and a passkey. */
  lemma {:induction false} ActiveIsEquipped(actions: seq<Action>, i: Id)
    requires i in Run(actions).users && Run(actions).users[i].status == Active
    ensures Run(actions).users[i].role != NoRole && exists k :: Owns(Run(actions), k, i)
  {
    RunSound(actions);
    hide Run;
    assert UserFits(Run(actions).users[i]);
  }

  /** The initial administrator is claimed at most once, and not at all while there is an administrator. */
  lemma {:induction false} ClaimedAtMostOnce(actions: seq<Action>)
    ensures ClaimCount(actions) <= 1
    ensures Admins(Run(actions)) == {} ==> ClaimCount(actions) == 0
    decreases |actions|
  {
    hide Act, Sound, Admins;
    if actions != [] {
      var front, last := actions[..|actions| - 1], actions[|actions| - 1];
      ClaimedAtMostOnce(front);
      RunSound(front);
      ActSound(Run(front), last);
      if Claims(Run(front), last) {
        ClaimSound(Run(front), last.user);
        ClaimIsAct(Run(front), last);
      }
    }
  }

  lemma {:induction false} ClaimIsAct(a: Accounts, action: Action)
    requires action.ClaimAction?
    ensures Act(a, action) == Claim(a, action.user).accounts
  {
  }

  // ---------------------------------------------------------------------------
  // What each transaction answers and writes
  // ---------------------------------------------------------------------------

  /** An approval succeeds exactly for a role and a user under review, and gives that user that role and nothing else. */
  lemma {:induction false} ApprovesExactly(a: Accounts, i: Id, role: Role)
    ensures var tx := Approve(a, i, role);
      && (tx.result.Ok? <==> role != NoRole && i in a.users && a.users[i].status == PendingReview)
      && (tx.result.Ok? ==>
            var was := a.users[i];
            var row := User(was.provider, was.subject, was.displayName, was.email, role, EnrollmentRequired);
            tx == Tx(a.(users := a.users[i := row]), Ok(row)))
      && (tx.result.Err? ==> tx.accounts == a)
  {
  }

  /** The claim succeeds exactly for a user under review while nobody is an administrator who is not blocked. */
  lemma {:induction false} ClaimsExactly(a: Accounts, i: Id)
    ensures var tx := Claim(a, i);
      && (tx.result.Ok? <==>
            && i in a.users && a.users[i].status == PendingReview
            && forall j | j in a.users :: a.users[j].role == Admin ==> a.users[j].status == Blocked)
      && (tx.result.Ok? ==>
            var was := a.users[i];
            var row := User(was.provider, was.subject, was.displayName, was.email, Admin, EnrollmentRequired);
            tx == Tx(a.(users := a.users[i := row]), Ok(row)))
      && (tx.result.Err? ==> tx.accounts == a)
  {
    NobodyIsAdmin(a);
    hide Admins;
  }

  lemma {:induction false} NobodyIsAdmin(a: Accounts)
    ensures |Admins(a)| == 0 <==> forall j | j in a.users :: a.users[j].role == Admin ==> a.users[j].status == Blocked
  {
    if j :| j in a.users && a.users[j].role == Admin && a.users[j].status != Blocked {
      assert j in Admins(a);
    } else {
      assert Admins(a) == {};
    }
  }

  lemma {:induction false} AnotherIsAdmin(a: Accounts, i: Id)
    requires i in a.users && IsAdmin(a.users[i])
    ensures |Admins(a)| > 1
      <==> exists j :: j in a.users && j != i && a.users[j].role == Admin && a.users[j].status != Blocked
  {
    assert i in Admins(a);
    assert |Admins(a) - {i}| == |Admins(a)| - 1;
    if j :| j in a.users && j != i && a.users[j].role == Admin && a.users[j].status != Blocked {
      assert j in Admins(a) - {i};
    } else {
      assert Admins(a) - {i} == {};
    }
  }

  /** A block succeeds exactly for a user who is not the only administrator left, and changes the status alone. */
  lemma {:induction false} BlocksExactly(a: Accounts, i: Id)
    ensures var tx := Block(a, i);
      && (tx.result.Ok? <==>
            i in a.users && (a.users[i].role == Admin && a.users[i].status != Blocked ==>
              exists j :: j in a.users && j != i && a.users[j].role == Admin && a.users[j].status != Blocked))
      && (tx.result.Ok? ==>
            var was := a.users[i];
            var row := User(was.provider, was.subject, was.displayName, was.email, was.role, Blocked);
            tx == Tx(a.(users := a.users[i := row]), Ok(row)))
      && (tx.result.Err? ==> tx.accounts == a)
  {
    if i in a.users && IsAdmin(a.users[i]) {
      AnotherIsAdmin(a, i);
    }
    hide Admins;
  }

  /** A passkey is saved exactly for an existing user, on enrollment one who awaits it, unless another user has it; only an
      enrollment changes the user, and only the status. */
  lemma {:induction false} SavesExactly(a: Accounts, i: Id, passkey: Passkey, enrollment: bool)
    ensures var tx := Save(a, i, passkey, enrollment);
      && (tx.result.Ok? <==>
            && i in a.users && (enrollment ==> a.users[i].status == EnrollmentRequired)
            && (passkey in a.passkeys ==> a.passkeys[passkey] == i))
      && (tx.result.Ok? ==>
            var was := a.users[i];
            var status := if enrollment then Active else was.status;
            var row := User(was.provider, was.subject, was.displayName, was.email, was.role, status);
            tx.accounts == a.(users := a.users[i := row], passkeys := a.passkeys[passkey := i]))
      && (tx.result.Err? ==> tx.accounts == a)
  {
  }

  /** An external identity is resolved to the user who has it, unchanged, or to a new one under review, without a role, who
      is named after the subject when there is no other name. */
  lemma {:induction false} ResolvesExactly(
    a: Accounts, provider: string, subject: string, displayName: string, email: string)
    requires Sound(a)
    ensures var p, s, e := Trim(provider), Trim(subject), Trim(email);
      var name := if Trim(displayName) != "" then Trim(displayName) else s;
      Resolve(a, provider, subject, displayName, email).result.Ok?
      <==> (1 <= |p| <= 64 && 1 <= |s| <= 128 && |name| <= 160 && |e| <= 254
            && forall c | c in p + s + name + e :: !Control(c))
    ensures Resolve(a, provider, subject, displayName, email).result.Err?
      ==> Resolve(a, provider, subject, displayName, email).accounts == a
    ensures var tx := Resolve(a, provider, subject, displayName, email);
      tx.result.Ok? ==>
      var i, created := tx.result.value.0, tx.result.value.1;
      && (created <==> forall j | j in a.users :: a.users[j].provider != Trim(provider) || a.users[j].subject != Trim(subject))
      && (!created ==>
            tx.accounts == a && i in a.users && a.users[i].provider == Trim(provider) && a.users[i].subject == Trim(subject))
      && (created ==>
            && i == a.nextId && i !in a.users
            && var name := if Trim(displayName) != "" then Trim(displayName) else Trim(subject);
              var row := User(Trim(provider), Trim(subject), name, Trim(email), NoRole, PendingReview);
              tx.accounts == Accounts(i + 1, a.users[i := row], a.passkeys))
  {
    hide Trim, Control, Owns, UserFits, SameIdentity;
    var p, s, e := Trim(provider), Trim(subject), Trim(email);
    var name := if Trim(displayName) != "" then Trim(displayName) else s;
    NoControls(p, s, name, e);
    hide HasControl;
    assert forall j :: Known(a, j, p, s) <==> j in a.users && a.users[j].provider == p && a.users[j].subject == s;
  }

  lemma {:induction false} NoControls(p: string, s: string, d: string, e: string)
    ensures (forall c | c in p + s + d + e :: !Control(c))
      <==> !HasControl(p) && !HasControl(s) && !HasControl(d) && !HasControl(e)
  {
    hide Control;
    assert forall x: string, k | 0 <= k < |x| :: x[k] in x;
  }

  // ---------------------------------------------------------------------------
  // Where roles come from
  // ---------------------------------------------------------------------------

  /** What an action does to a user who is there afterwards. */
  ghost predicate UserStepped(a: Accounts, action: Action, i: Id, row: User) {
    if i !in a.users then row.role == NoRole && row.status == PendingReview
    else
      var was := a.users[i];
      || row == was
      || (GivesRole(a, action, i, row.role) && row == was.(role := row.role, status := EnrollmentRequired))
      || (action == BlockAction(i) && row == was.(status := Blocked))
      || (action.SaveAction? && action.user == i && action.enrollment
          && was.status == EnrollmentRequired && row == was.(status := Active))
  }

  /** The action gives a user under review this role: as a claim, or as an approval with exactly this role. */
  ghost predicate GivesRole(a: Accounts, action: Action, i: Id, role: Role) {
    && i in a.users && a.users[i].status == PendingReview && role != NoRole
    && ((action == ClaimAction(i) && role == Admin) || action == ApproveAction(i, role))
  }

  lemma {:induction false} UserActionStep(a: Accounts, action: Action, i: Id)
    requires Sound(a) && i in Act(a, action).users
    ensures UserStepped(a, action, i, Act(a, action).users[i])
  {
    hide Sound, Resolve, Claim, Approve, Block, Save, Trim;
    match action
    case ResolveAction(provider, subject, displayName, email) => ResolveStepped(a, provider, subject, displayName, email, i);
    case ClaimAction(j) => ClaimsExactly(a, j);
    case ApproveAction(j, role) => ApprovesExactly(a, j, role);
    case BlockAction(j) => BlocksExactly(a, j);
    case SaveAction(j, passkey, enrollment) => SavesExactly(a, j, passkey, enrollment);
  }

  lemma {:induction false} ResolveStepped(
    a: Accounts, provider: string, subject: string, displayName: string, email: string, i: Id)
    requires Sound(a) && i in Resolve(a, provider, subject, displayName, email).accounts.users
    ensures var b := Resolve(a, provider, subject, displayName, email).accounts;
      if i in a.users then b.users[i] == a.users[i] else b.users[i].role == NoRole && b.users[i].status == PendingReview
  {
    hide Trim, ValidIdentity, HasControl, Owns, UserFits, SameIdentity;
  }

  ghost predicate RoleGivenAt(actions: seq<Action>, k: nat, i: Id, role: Role) {
    k < |actions| && GivesRole(Run(actions[..k]), actions[k], i, role)
  }

  /** A user has a role only if an action of the run gave it while the user was under review: an administrator by the claim
      or by an approval as administrator, an operator by an approval as operator. */
  lemma {:induction false} RoleWasGiven(actions: seq<Action>, i: Id)
    requires i in Run(actions).users && Run(actions).users[i].role != NoRole
    ensures exists k: nat :: RoleGivenAt(actions, k, i, Run(actions).users[i].role)
    decreases |actions|
  {
    hide Act, Sound, GivesRole;
    if actions != [] {
      var front, last, n := actions[..|actions| - 1], actions[|actions| - 1], |actions| - 1;
      var a, role := Run(front), Run(actions).users[i].role;
      RunSound(front);
      UserActionStep(a, last, i);
      if GivesRole(a, last, i, role) {
        assert RoleGivenAt(actions, n, i, role);
      } else {
        RoleWasGiven(front, i);
        var k: nat :| RoleGivenAt(front, k, i, role);
        assert actions[..k] == front[..k];
        assert RoleGivenAt(actions, k, i, role);
      }
    }
  }

  /** A role once given never changes. */
  lemma {:induction false} RoleStays(before: seq<Action>, after: seq<Action>, i: Id)
    requires i in Run(before).users && Run(before).users[i].role != NoRole
    ensures i in Run(before + after).users && Run(before + after).users[i].role == Run(before).users[i].role
    decreases |after|
  {
    hide Act, Sound;
    if after == [] {
      assert before + after == before;
    } else {
      var n := |after| - 1;
      assert (before + after)[..|before + after| - 1] == before + after[..n];
      RoleStays(before, after[..n], i);
      RunEvolves(before + after[..n], [after[n]]);
      assert before + after[..n] + [after[n]] == before + after;
      RunSound(before + after[..n]);
      UserActionStep(Run(before + after[..n]), after[n], i);
      RolesReviewed(Run(before + after[..n]), i);
    }
  }

  lemma {:induction false} RolesReviewed(a: Accounts, i: Id)
    requires Sound(a) && i in a.users && a.users[i].role != NoRole
    ensures a.users[i].status != PendingReview
  {
    assert UserFits(a.users[i]);
  }
}
