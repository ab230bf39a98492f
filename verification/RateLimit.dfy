/** The fixed-window rate limiters: discovery requests per client (internal/httpapi/server.go) and recovery-key
    comparisons per remote (internal/operator/recovery.go). Both keep one counter per key, restart it when its
    window is over, and forget counters two windows old. */
module RateLimit {
  import opened Prelude
  import Text

  const WINDOW: int := 60_000_000_000 // one minute in nanoseconds

  type Key = string

  datatype Counter = Counter(started: int, count: nat)

  /** One call: `counted` says the call was let through to the limited work, `cleared` that it then removed
      its own counter. */
  datatype Attempt = Attempt(time: int, key: Key, counted: bool, cleared: bool)

  type History = seq<Attempt>

  // ---------------------------------------------------------------------------
  // What is to be bounded.
  // ---------------------------------------------------------------------------

  /** Calls of one key let through at times in [from, until). */
  ghost function CountedIn(h: History, key: Key, from: int, until: int): nat {
    if h == [] then 0
    else
      var last := h[|h| - 1];
      CountedIn(h[..|h| - 1], key, from, until)
      + if last.key == key && last.counted && from <= last.time < until then 1 else 0
  }

  ghost predicate ClearedIn(h: History, key: Key, from: int, until: int) {
    exists k :: 0 <= k < |h| && h[k].key == key && h[k].cleared && from <= h[k].time < until
  }

  ghost predicate MinuteBounded(h: History, key: Key, limit: nat, from: int) {
    !ClearedIn(h, key, from, from + WINDOW) ==> CountedIn(h, key, from, from + WINDOW) < 2 * limit
  }

  /** In every half-open minute in which the key was not cleared, fewer than twice the limit were let through. */
  ghost predicate Bounded(h: History, key: Key, limit: nat) {
    forall from: int :: MinuteBounded(h, key, limit, from)
  }

  ghost predicate Chronological(h: History) {
    forall j, k :: 0 <= j < k < |h| ==> h[j].time <= h[k].time
  }

  // ---------------------------------------------------------------------------
  // What one counter knows about the history of its key.
  // ---------------------------------------------------------------------------

  /** The calls since the key was last cleared. */
  ghost function SinceCleared(h: History, key: Key): History {
    if h == [] then []
    else if h[|h| - 1].key == key && h[|h| - 1].cleared then []
    else SinceCleared(h[..|h| - 1], key) + [h[|h| - 1]]
  }

  /** A live counter holds exactly the calls of the current window, all of them inside it, one of them at its start,
      and the minute before the window, without its first instant, holds fewer than `limit`. A forgotten counter
      leaves no call within the last minute before `now`. */
  ghost predicate Explains(c: Option<Counter>, h: History, key: Key, limit: nat, now: int) {
    var recent := SinceCleared(h, key);
    match c
    case None => forall from: int, until: int {:trigger CountedIn(recent, key, from, until)} ::
      now - WINDOW <= from ==> CountedIn(recent, key, from, until) == 0
    case Some(counter) =>
      && counter.started <= now
      && counter.count <= limit
      && (forall until: int :: until > now ==> CountedIn(recent, key, counter.started, until) == counter.count)
      && (forall from: int, until: int {:trigger CountedIn(recent, key, from, until)} ::
            counter.started + WINDOW <= from ==> CountedIn(recent, key, from, until) == 0)
      && CountedIn(recent, key, counter.started, counter.started + 1) >= 1
      && CountedIn(recent, key, counter.started - WINDOW + 1, counter.started) < limit
  }

  function Lookup(table: map<Key, Counter>, key: Key): Option<Counter> {
    if key in table then Some(table[key]) else None
  }

  ghost predicate AllBy(h: History, now: int) {
    forall k :: 0 <= k < |h| ==> h[k].time <= now
  }

  // ---------------------------------------------------------------------------
  // Counting.
  // ---------------------------------------------------------------------------

  lemma CountedOneMore(h: History, a: Attempt, key: Key, from: int, until: int)
    ensures CountedIn(h + [a], key, from, until)
      == CountedIn(h, key, from, until) + if a.key == key && a.counted && from <= a.time < until then 1 else 0
  {
    assert (h + [a])[..|h|] == h;
  }

  lemma {:induction false} CountedMonotone(h: History, key: Key, from: int, until: int, from': int, until': int)
    requires from' <= from && until <= until'
    ensures CountedIn(h, key, from, until) <= CountedIn(h, key, from', until')
  {
    if h != [] {
      CountedMonotone(h[..|h| - 1], key, from, until, from', until');
    }
  }

  lemma {:induction false} CountedSplit(h: History, key: Key, from: int, middle: int, until: int)
    requires from <= middle <= until
    ensures CountedIn(h, key, from, until) == CountedIn(h, key, from, middle) + CountedIn(h, key, middle, until)
  {
    if h != [] {
      CountedSplit(h[..|h| - 1], key, from, middle, until);
    }
  }

  lemma {:induction false} NoneCountedLater(h: History, key: Key, now: int, from: int, until: int)
    requires AllBy(h, now) && now < from
    ensures CountedIn(h, key, from, until) == 0
  {
    if h != [] {
      assert h[|h| - 1].time <= now;
      assert AllBy(h[..|h| - 1], now);
      NoneCountedLater(h[..|h| - 1], key, now, from, until);
    }
  }

  /** When the key was not cleared at or after `from`, everything counted from then on is recent. */
  lemma {:induction false} CountedIsRecent(h: History, key: Key, from: int, until: int)
    requires Chronological(h)
    requires forall k :: 0 <= k < |h| && h[k].key == key && h[k].cleared ==> h[k].time < from
    ensures CountedIn(h, key, from, until) == CountedIn(SinceCleared(h, key), key, from, until)
  {
    if h != [] {
      var init, last := h[..|h| - 1], h[|h| - 1];
      if last.key == key && last.cleared {
        assert AllBy(init, last.time);
        NoneCountedLater(init, key, last.time, from, until);
      } else {
        CountedIsRecent(init, key, from, until);
        CountedOneMore(SinceCleared(init, key), last, key, from, until);
      }
    }
  }

  lemma SinceClearedOneMore(h: History, a: Attempt, key: Key)
    ensures SinceCleared(h + [a], key)
      == if a.key == key && a.cleared then [] else SinceCleared(h, key) + [a]
  {
    assert (h + [a])[..|h|] == h;
  }

  // ---------------------------------------------------------------------------
  // Every step keeps the explanation.
  // ---------------------------------------------------------------------------

  lemma TimePasses(c: Option<Counter>, h: History, key: Key, limit: nat, now: int, later: int)
    requires Explains(c, h, key, limit, now) && now <= later
    ensures Explains(c, h, key, limit, later)
  {
  }

  /** A counter two windows old can be forgotten: it is not about any call of the last minute. */
  lemma Forgetting(counter: Counter, h: History, key: Key, limit: nat, now: int)
    requires Explains(Some(counter), h, key, limit, now)
    requires now - counter.started >= 2 * WINDOW
    ensures Explains(None, h, key, limit, now)
  {
  }

  /** A refused call, or a call of another key, changes nothing. */
  lemma Uncounted(c: Option<Counter>, h: History, a: Attempt, key: Key, limit: nat, now: int)
    requires Explains(c, h, key, limit, now)
    requires a.key != key || (!a.counted && !a.cleared)
    ensures Explains(c, h + [a], key, limit, now)
  {
    SinceClearedOneMore(h, a, key);
    var recent := SinceCleared(h, key);
    forall from: int, until: int
      ensures CountedIn(recent + [a], key, from, until) == CountedIn(recent, key, from, until) {
      CountedOneMore(recent, a, key, from, until);
    }
  }

  /** The counter after a call that was let through. */
  function Counted(c: Option<Counter>, now: int): Counter {
    match c
    case None => Counter(now, 1)
    case Some(counter) =>
      if now - counter.started >= WINDOW then Counter(now, 1) else counter.(count := counter.count + 1)
  }

  predicate HasRoom(c: Option<Counter>, limit: nat, now: int) {
    c.None? || now - c.value.started >= WINDOW || c.value.count < limit
  }

  lemma LetThrough(c: Option<Counter>, h: History, a: Attempt, limit: nat)
    requires limit >= 1 && a.counted && !a.cleared
    requires AllBy(h, a.time)
    requires Explains(c, h, a.key, limit, a.time)
    requires HasRoom(c, limit, a.time)
    ensures Explains(Some(Counted(c, a.time)), h + [a], a.key, limit, a.time)
  {
    SinceClearedOneMore(h, a, a.key);
    var recent, key, now := SinceCleared(h, a.key), a.key, a.time;
    var next := Counted(c, now);
    forall from: int, until: int
      ensures CountedIn(recent + [a], key, from, until)
        == CountedIn(recent, key, from, until) + if from <= now < until then 1 else 0 {
      CountedOneMore(recent, a, key, from, until);
    }
    if c.Some? && now - c.value.started >= WINDOW {
      CountedSplit(recent, key, c.value.started, c.value.started + 1, now + 1);
      CountedMonotone(recent, key, now - WINDOW + 1, now, c.value.started + 1, now + 1);
    }
  }

  lemma Clearing(h: History, a: Attempt, limit: nat)
    requires a.cleared
    ensures Explains(None, h + [a], a.key, limit, a.time)
  {
    SinceClearedOneMore(h, a, a.key);
  }

  /** Two adjacent windows cover any minute, and a minute that meets the second one misses the opening call of the
      first, so no minute holds as much as twice the limit. */
  lemma StaysBounded(c: Option<Counter>, h: History, a: Attempt, key: Key, limit: nat)
    requires Chronological(h + [a]) && AllBy(h, a.time)
    requires limit >= 1 && Bounded(h, key, limit)
    requires Explains(c, h + [a], key, limit, a.time)
    requires a.key == key && a.counted && !a.cleared ==> c.Some?
    ensures Bounded(h + [a], key, limit)
  {
    var longer := h + [a];
    assert longer[|h|] == a;
    forall from: int ensures MinuteBounded(longer, key, limit, from) {
      if !ClearedIn(longer, key, from, from + WINDOW) {
        CountedOneMore(h, a, key, from, from + WINDOW);
        assert !ClearedIn(h, key, from, from + WINDOW) by {
          forall k | 0 <= k < |h| ensures !(h[k].key == key && h[k].cleared && from <= h[k].time < from + WINDOW) {
            assert longer[k] == h[k];
          }
        }
        assert MinuteBounded(h, key, limit, from);
        if a.key == key && a.counted && from <= a.time < from + WINDOW {
          RecentMinute(c.value, longer, key, limit, a.time, from);
        }
      }
    }
  }

  lemma RecentMinute(counter: Counter, h: History, key: Key, limit: nat, now: int, from: int)
    requires Chronological(h) && AllBy(h, now) && from <= now < from + WINDOW
    requires Explains(Some(counter), h, key, limit, now)
    requires !ClearedIn(h, key, from, from + WINDOW)
    ensures CountedIn(h, key, from, from + WINDOW) < 2 * limit
  {
    forall k | 0 <= k < |h| && h[k].key == key && h[k].cleared ensures h[k].time < from {
      assert h[k].time <= now;
    }
    CountedIsRecent(h, key, from, from + WINDOW);
    var recent := SinceCleared(h, key);
    if counter.started <= from {
      CountedMonotone(recent, key, from, from + WINDOW, counter.started, from + WINDOW);
    } else {
      CountedSplit(recent, key, from, counter.started, from + WINDOW);
      CountedMonotone(recent, key, from, counter.started, counter.started - WINDOW + 1, counter.started);
    }
  }

  // ---------------------------------------------------------------------------
  // Tables of counters.
  // ---------------------------------------------------------------------------

  /** The counters younger than two windows. */
  function Young(table: map<Key, Counter>, now: int): map<Key, Counter> {
    map key | key in table && now - table[key].started < 2 * WINDOW :: table[key]
  }

  ghost predicate Accounts(table: map<Key, Counter>, h: History, limit: nat, now: int) {
    && limit >= 1
    && Chronological(h)
    && AllBy(h, now)
    && (forall key: Key :: Explains(Lookup(table, key), h, key, limit, now))
    && (forall key: Key :: Bounded(h, key, limit))
  }

  lemma EvictionIsSafe(table: map<Key, Counter>, h: History, limit: nat, now: int, later: int)
    requires Accounts(table, h, limit, now) && now <= later
    ensures Accounts(table, h, limit, later)
    ensures Accounts(Young(table, later), h, limit, later)
  {
    forall key: Key
      ensures Explains(Lookup(table, key), h, key, limit, later)
      ensures Explains(Lookup(Young(table, later), key), h, key, limit, later) {
      TimePasses(Lookup(table, key), h, key, limit, now, later);
      if key in table && key !in Young(table, later) {
        Forgetting(table[key], h, key, limit, later);
      }
    }
  }

  /** One call against a table: what happens to the caller's counter explains the longer history. */
  lemma CallIsAccounted(table: map<Key, Counter>, h: History, a: Attempt, limit: nat, next: map<Key, Counter>)
    requires limit >= 1 && Accounts(table, h, limit, a.time)
    requires forall key: Key :: key != a.key ==> Lookup(next, key) == Lookup(table, key)
    requires a.cleared ==> Lookup(next, a.key).None?
    requires !a.cleared && !a.counted ==> Lookup(next, a.key) == Lookup(table, a.key)
    requires !a.cleared && a.counted ==> HasRoom(Lookup(table, a.key), limit, a.time)
    requires !a.cleared && a.counted ==> Lookup(next, a.key) == Some(Counted(Lookup(table, a.key), a.time))
    ensures Accounts(next, h + [a], limit, a.time)
  {
    assert Chronological(h + [a]);
    forall key: Key
      ensures Explains(Lookup(next, key), h + [a], key, limit, a.time)
      ensures Bounded(h + [a], key, limit) {
      if key != a.key || (!a.counted && !a.cleared) {
        Uncounted(Lookup(table, key), h, a, key, limit, a.time);
      } else if a.cleared {
        Clearing(h, a, limit);
      } else {
        LetThrough(Lookup(table, key), h, a, limit);
      }
      StaysBounded(Lookup(next, key), h, a, key, limit);
    }
  }

  lemma NothingToAccount(limit: nat, now: int)
    requires limit >= 1
    ensures Accounts(map[], [], limit, now)
  {
    forall key: Key ensures Bounded([], key, limit) {
      forall from: int ensures MinuteBounded([], key, limit, from) {
      }
    }
  }

  const MAX_DISCOVERY_PER_WINDOW: nat := 120
  const SWEEP_THRESHOLD: nat := 1024
  const MAX_CLIENTS: nat := 4096

  function SweptIfLarge(table: map<Key, Counter>, now: int): map<Key, Counter> {
    if |table| >= SWEEP_THRESHOLD then Young(table, now) else table
  }

  /** A known client, or a new one while the table has space, is allowed while its window has room. */
  predicate Allowed(table: map<Key, Counter>, key: Key, now: int) {
    && (key in table || |table| < MAX_CLIENTS)
    && HasRoom(Lookup(table, key), MAX_DISCOVERY_PER_WINDOW, now)
  }

  function AfterDiscovery(table: map<Key, Counter>, key: Key, now: int): map<Key, Counter> {
    if Allowed(table, key, now) then table[key := Counted(Lookup(table, key), now)] else table
  }

  /** The discovery limiter of the HTTP server. */
  class DiscoveryLimiter {
    var clients: map<Key, Counter>
    ghost var history: History
    ghost var clock: int

    ghost predicate Valid()
      reads this
    {
      && |clients| <= MAX_CLIENTS
      && Accounts(clients, history, MAX_DISCOVERY_PER_WINDOW, clock)
    }

    constructor ()
      ensures Valid() && history == [] && clients == map[]
    {
      clients, history, clock := map[], [], 0;
      NothingToAccount(MAX_DISCOVERY_PER_WINDOW, 0);
    }

    /** allowDiscovery: sweep a large table, refuse unknown clients of a full one, then count. */
    method AllowDiscovery(key: Key, now: int) returns (allowed: bool)
      requires Valid() && clock <= now
      modifies this
      ensures Valid() && clock == now
      ensures history == old(history) + [Attempt(now, key, allowed, false)]
      ensures allowed == Allowed(SweptIfLarge(old(clients), now), key, now)
      ensures clients == AfterDiscovery(SweptIfLarge(old(clients), now), key, now)
    {
      EvictionIsSafe(clients, history, MAX_DISCOVERY_PER_WINDOW, clock, now);
      clock := now;
      if |clients| >= SWEEP_THRESHOLD {
        Sweep(now);
      }
      ghost var swept := clients;
      allowed := Count(key, now);
      ghost var a := Attempt(now, key, allowed, false);
      CallIsAccounted(swept, history, a, MAX_DISCOVERY_PER_WINDOW, clients);
      history := history + [a];
    }

    method Count(key: Key, now: int) returns (allowed: bool)
      requires |clients| <= MAX_CLIENTS
      modifies this`clients
      ensures |clients| <= MAX_CLIENTS
      ensures allowed == Allowed(old(clients), key, now)
      ensures clients == AfterDiscovery(old(clients), key, now)
    {
      if key !in clients && |clients| >= MAX_CLIENTS {
        return false;
      }
      var counter := if key in clients then clients[key] else Counter(now, 0);
      if now - counter.started >= WINDOW {
        counter := Counter(now, 0);
      }
      TableSize(clients, key, counter);
      TableSize(clients, key, counter.(count := counter.count + 1));
      if counter.count >= MAX_DISCOVERY_PER_WINDOW {
        clients := clients[key := counter];
        return false;
      }
      clients := clients[key := counter.(count := counter.count + 1)];
      return true;
    }

    method Sweep(now: int)
      modifies this`clients
      ensures clients == Young(old(clients), now)
      ensures |clients| <= |old(clients)|
    {
      var todo := clients.Keys;
      ghost var all := clients;
      while todo != {}
        invariant todo <= all.Keys
        invariant forall key :: key in clients ==> key in all && clients[key] == all[key]
        invariant forall key :: key in all && key !in clients ==> key !in todo && now - all[key].started >= 2 * WINDOW
        invariant forall key :: key in clients && key !in todo ==> now - clients[key].started < 2 * WINDOW
        decreases |todo|
      {
        var client :| client in todo;
        if client in clients && now - clients[client].started >= 2 * WINDOW {
          clients := clients - {client};
        }
        todo := todo - {client};
      }
      assert clients == Young(all, now);
      SubmapSize(clients, all);
    }
  }

  lemma SubmapSize(small: map<Key, Counter>, large: map<Key, Counter>)
    requires small.Keys <= large.Keys
    ensures |small| <= |large|
  {
    SubsetSize(small.Keys, large.Keys);
  }

  lemma {:induction false} SubsetSize<T>(small: set<T>, large: set<T>)
    requires small <= large
    ensures |small| <= |large|
  {
    if small != {} {
      var x :| x in small;
      SubsetSize(small - {x}, large - {x});
    }
  }

  lemma TableSize(table: map<Key, Counter>, key: Key, counter: Counter)
    ensures |table[key := counter]| == |table| + if key in table then 0 else 1
  {
    if key in table {
      assert table[key := counter].Keys == table.Keys;
      assert |table[key := counter].Keys| == |table.Keys|;
    } else {
      assert table[key := counter].Keys == table.Keys + {key};
      assert |table[key := counter].Keys| == |table.Keys| + 1;
    }
  }

  const MAX_LOGIN_ATTEMPTS: nat := 5

  datatype RecoveryResult = Verified | WrongKey | RateLimited

  function Remote(supplied: string): string {
    if Text.Trim(supplied) == "" then "unknown" else Text.Trim(supplied)
  }

  function Verdict(table: map<Key, Counter>, remote: Key, matches: bool, now: int): RecoveryResult {
    if !HasRoom(Lookup(table, remote), MAX_LOGIN_ATTEMPTS, now) then RateLimited
    else if matches then Verified
    else WrongKey
  }

  /** A wrong key is counted, a right one clears the counter, a refused call leaves it. */
  function AfterRecovery(table: map<Key, Counter>, remote: Key, matches: bool, now: int): map<Key, Counter> {
    match Verdict(table, remote, matches, now)
    case RateLimited => table
    case Verified => table - {remote}
    case WrongKey => table[remote := Counted(Lookup(table, remote), now)]
  }

  /** The recovery-key limiter of the operator manager. Here a counted call is one that compares the key. */
  class RecoveryLimiter {
    var attempts: map<Key, Counter>
    ghost var history: History
    ghost var clock: int

    ghost predicate Valid()
      reads this
    {
      Accounts(attempts, history, MAX_LOGIN_ATTEMPTS, clock)
    }

    constructor ()
      ensures Valid() && history == [] && attempts == map[]
    {
      attempts, history, clock := map[], [], 0;
      NothingToAccount(MAX_LOGIN_ATTEMPTS, 0);
    }

    /** VerifyRecoveryKey; `matches` says whether the supplied key is the stored one. */
    method VerifyRecoveryKey(supplied: string, matches: bool, now: int) returns (r: RecoveryResult)
      requires Valid() && clock <= now
      modifies this
      ensures Valid() && clock == now
      ensures history == old(history) + [Attempt(now, Remote(supplied), r != RateLimited, r == Verified)]
      ensures r == Verdict(Young(old(attempts), now), Remote(supplied), matches, now)
      ensures attempts == AfterRecovery(Young(old(attempts), now), Remote(supplied), matches, now)
    {
      var remote := Text.Trim(supplied);
      if remote == "" {
        remote := "unknown";
      }
      r := VerifyFor(remote, matches, now);
    }

    method VerifyFor(remote: Key, matches: bool, now: int) returns (r: RecoveryResult)
      requires Valid() && clock <= now
      modifies this
      ensures Valid() && clock == now
      ensures history == old(history) + [Attempt(now, remote, r != RateLimited, r == Verified)]
      ensures r == Verdict(Young(old(attempts), now), remote, matches, now)
      ensures attempts == AfterRecovery(Young(old(attempts), now), remote, matches, now)
    {
      EvictionIsSafe(attempts, history, MAX_LOGIN_ATTEMPTS, clock, now);
      clock := now;
      CleanupLocked(now);
      ghost var kept := attempts;
      r := Compare(remote, matches, now);
      ghost var a := Attempt(now, remote, r != RateLimited, r == Verified);
      CallIsAccounted(kept, history, a, MAX_LOGIN_ATTEMPTS, attempts);
      history := history + [a];
    }

    method Compare(remote: Key, matches: bool, now: int) returns (r: RecoveryResult)
      modifies this`attempts
      ensures r == Verdict(old(attempts), remote, matches, now)
      ensures attempts == AfterRecovery(old(attempts), remote, matches, now)
    {
      var counter := if remote in attempts then attempts[remote] else Counter(now, 0);
      if now - counter.started >= WINDOW {
        counter := Counter(now, 0);
      }
      if counter.count >= MAX_LOGIN_ATTEMPTS {
        attempts := attempts[remote := counter];
        r := RateLimited;
      } else {
        attempts := attempts[remote := counter.(count := counter.count + 1)];
        if matches {
          attempts := attempts - {remote};
          r := Verified;
        } else {
          r := WrongKey;
        }
      }
    }

    /** The limiter's half of cleanupLocked. */
    method CleanupLocked(now: int)
      modifies this`attempts
      ensures attempts == Young(old(attempts), now)
    {
      var todo := attempts.Keys;
      ghost var all := attempts;
      while todo != {}
        invariant todo <= all.Keys
        invariant forall key :: key in attempts ==> key in all && attempts[key] == all[key]
        invariant forall key :: key in all && key !in attempts ==> key !in todo && now - all[key].started >= 2 * WINDOW
        invariant forall key :: key in attempts && key !in todo ==> now - attempts[key].started < 2 * WINDOW
        decreases |todo|
      {
        var remote :| remote in todo;
        if remote in attempts && now - attempts[remote].started >= 2 * WINDOW {
          attempts := attempts - {remote};
        }
        todo := todo - {remote};
      }
      assert attempts == Young(all, now);
    }
  }

  // ---------------------------------------------------------------------------
  // Whole request histories.
  // ---------------------------------------------------------------------------

  datatype Call = Call(key: Key, time: int)

  ghost predicate InOrder(calls: seq<Call>) {
    forall j, k :: 0 <= j < k < |calls| ==> calls[j].time <= calls[k].time
  }

  datatype DiscoveryState = DiscoveryState(table: map<Key, Counter>, history: History)

  function DiscoveryStep(before: DiscoveryState, call: Call): DiscoveryState {
    var table := SweptIfLarge(before.table, call.time);
    var attempt := Attempt(call.time, call.key, Allowed(table, call.key, call.time), false);
    DiscoveryState(AfterDiscovery(table, call.key, call.time), before.history + [attempt])
  }

  /** The limiter fed with any sequence of discovery requests. */
  function DiscoveryRun(calls: seq<Call>): DiscoveryState {
    if calls == [] then DiscoveryState(map[], [])
    else DiscoveryStep(DiscoveryRun(calls[..|calls| - 1]), calls[|calls| - 1])
  }

  lemma {:induction false} DiscoveryRunIsAccounted(calls: seq<Call>, now: int)
    requires InOrder(calls)
    requires forall k :: 0 <= k < |calls| ==> calls[k].time <= now
    ensures Accounts(DiscoveryRun(calls).table, DiscoveryRun(calls).history, MAX_DISCOVERY_PER_WINDOW, now)
    ensures |DiscoveryRun(calls).table| <= MAX_CLIENTS
    ensures forall k :: 0 <= k < |DiscoveryRun(calls).history| ==> !DiscoveryRun(calls).history[k].cleared
  {
    if calls == [] {
      NothingToAccount(MAX_DISCOVERY_PER_WINDOW, now);
    } else {
      var before, call := DiscoveryRun(calls[..|calls| - 1]), calls[|calls| - 1];
      DiscoveryRunIsAccounted(calls[..|calls| - 1], call.time);
      EvictionIsSafe(before.table, before.history, MAX_DISCOVERY_PER_WINDOW, call.time, call.time);
      var table := SweptIfLarge(before.table, call.time);
      SubmapSize(table, before.table);
      var next := AfterDiscovery(table, call.key, call.time);
      var attempt := Attempt(call.time, call.key, Allowed(table, call.key, call.time), false);
      CallIsAccounted(table, before.history, attempt, MAX_DISCOVERY_PER_WINDOW, next);
      TableSize(table, call.key, Counted(Lookup(table, call.key), call.time));
      EvictionIsSafe(next, before.history + [attempt], MAX_DISCOVERY_PER_WINDOW, call.time, now);
    }
  }

  /** For any request history in time order, no client gets more than 239 discoveries through in any half-open
      minute, and the table never holds more than 4096 clients: evicting counters never weakens the bound. */
  lemma DiscoveryRateIsBounded(calls: seq<Call>, key: Key, from: int)
    requires InOrder(calls)
    ensures Tally(DiscoveryRun(calls).history, key, from) <= 2 * MAX_DISCOVERY_PER_WINDOW - 1
    ensures |DiscoveryRun(calls).table| <= MAX_CLIENTS
  {
    DiscoveryRunIsAccounted(calls, if calls == [] then 0 else calls[|calls| - 1].time);
    var h := DiscoveryRun(calls).history;
    assert Bounded(h, key, MAX_DISCOVERY_PER_WINDOW);
    assert MinuteBounded(h, key, MAX_DISCOVERY_PER_WINDOW, from);
    assert !ClearedIn(h, key, from, from + WINDOW);
  }

  /** The same call, n times more. */
  function Burst(calls: seq<Call>, call: Call, n: nat): seq<Call> {
    if n == 0 then calls else Burst(calls, call, n - 1) + [call]
  }

  ghost predicate InOrderBy(calls: seq<Call>, until: int) {
    InOrder(calls) && forall k :: 0 <= k < |calls| ==> calls[k].time <= until
  }

  lemma {:induction false} BurstInOrder(calls: seq<Call>, call: Call, n: nat)
    requires InOrderBy(calls, call.time)
    ensures InOrderBy(Burst(calls, call, n), call.time)
  {
    if n > 0 {
      BurstInOrder(calls, call, n - 1);
    }
  }

  function Steps(st: DiscoveryState, call: Call, n: nat): DiscoveryState {
    if n == 0 then st else DiscoveryStep(Steps(st, call, n - 1), call)
  }

  lemma {:induction false} BurstRun(calls: seq<Call>, call: Call, n: nat)
    ensures DiscoveryRun(Burst(calls, call, n)) == Steps(DiscoveryRun(calls), call, n)
  {
    if n > 0 {
      var shorter := Burst(calls, call, n - 1);
      BurstRun(calls, call, n - 1);
      assert (shorter + [call])[..|shorter|] == shorter;
    }
  }

  ghost function Tally(h: History, key: Key, from: int): nat {
    CountedIn(h, key, from, from + WINDOW)
  }

  /** The table knows one client, of whose calls `tally` were let through in the minute after `from`. */
  ghost predicate OnlyClient(st: DiscoveryState, key: Key, counter: Option<Counter>, from: int, tally: nat) {
    && (st.table == match counter case None => map[] case Some(c) => map[key := c])
    && Tally(st.history, key, from) == tally
  }

  /** One more call by the only client. */
  lemma OneMoreCall(st: DiscoveryState, call: Call, counter: Option<Counter>, from: int, tally: nat)
    requires OnlyClient(st, call.key, counter, from, tally)
    requires HasRoom(counter, MAX_DISCOVERY_PER_WINDOW, call.time)
    ensures OnlyClient(DiscoveryStep(st, call), call.key, Some(Counted(counter, call.time)), from,
                       tally + if from <= call.time < from + WINDOW then 1 else 0)
  {
    SubsetSize(st.table.Keys, {call.key});
    CountedOneMore(st.history, Attempt(call.time, call.key, true, false), call.key, from, from + WINDOW);
  }

  /** A burst of calls by the only client, all within one window with room for them, is let through entirely. */
  lemma {:induction false} BurstIsLetThrough(st: DiscoveryState, call: Call, n: nat, counter: Option<Counter>, from: int,
                                             tally: nat)
    requires from <= call.time < from + WINDOW
    requires OnlyClient(st, call.key, counter, from, tally)
    requires HasRoom(counter, MAX_DISCOVERY_PER_WINDOW, call.time)
    requires var window := Counted(counter, call.time);
      window.started <= call.time < window.started + WINDOW && window.count + n <= MAX_DISCOVERY_PER_WINDOW
    ensures var window := Counted(counter, call.time);
      OnlyClient(Steps(st, call, n + 1), call.key, Some(window.(count := window.count + n)), from, tally + n + 1)
    decreases n
  {
    var window := Counted(counter, call.time);
    if n == 0 {
      assert Steps(st, call, 0) == st;
      OneMoreCall(st, call, counter, from, tally);
    } else {
      BurstIsLetThrough(st, call, n - 1, counter, from, tally);
      OneMoreCall(Steps(st, call, n), call, Some(window.(count := window.count + n - 1)), from, tally + n);
    }
  }

  lemma ThreeBursts(opening: Call, last: Call, next: Call) returns (st: DiscoveryState)
    requires opening == Call("client", 0) && last == Call("client", WINDOW - 1) && next == Call("client", WINDOW)
    ensures st == Steps(Steps(Steps(DiscoveryRun([]), opening, 1), last, 119), next, 120)
    ensures Tally(st.history, "client", WINDOW - 1) == 2 * MAX_DISCOVERY_PER_WINDOW - 1
  {
    var empty := DiscoveryRun([]);
    assert Steps(empty, opening, 0) == empty;
    OneMoreCall(empty, opening, None, WINDOW - 1, 0);
    var first := Steps(empty, opening, 1);
    BurstIsLetThrough(first, last, 118, Some(Counter(0, 1)), WINDOW - 1, 0);
    var second := Steps(first, last, 119);
    BurstIsLetThrough(second, next, 119, Some(Counter(0, 120)), WINDOW - 1, 119);
    st := Steps(second, next, 120);
  }

  lemma InThreeBursts(a: Call, m: nat, b: Call, n: nat, c: Call, k: nat) returns (calls: seq<Call>)
    requires a.time <= b.time <= c.time
    ensures DiscoveryRun(calls) == Steps(Steps(Steps(DiscoveryRun([]), a, m), b, n), c, k)
    ensures InOrder(calls)
  {
    var first := Burst([], a, m);
    var second := Burst(first, b, n);
    calls := Burst(second, c, k);
    BurstRun([], a, m);
    BurstInOrder([], a, m);
    BurstRun(first, b, n);
    BurstInOrder(first, b, n);
    BurstRun(second, c, k);
    BurstInOrder(second, c, k);
  }

  /** The bound is exact: one client can get 239 discoveries through in a half-open minute. */
  lemma DiscoveryBoundIsAttained() returns (calls: seq<Call>)
    ensures InOrder(calls)
    ensures Tally(DiscoveryRun(calls).history, "client", WINDOW - 1) == 2 * MAX_DISCOVERY_PER_WINDOW - 1
  {
    var opening, last, next := Call("client", 0), Call("client", WINDOW - 1), Call("client", WINDOW);
    calls := InThreeBursts(opening, 1, last, 119, next, 120);
    var st := ThreeBursts(opening, last, next);
  }

  datatype RecoveryCall = RecoveryCall(remote: Key, matches: bool, time: int)

  datatype RecoveryState = RecoveryState(table: map<Key, Counter>, history: History)

  function RecoveryStep(st: RecoveryState, call: RecoveryCall): RecoveryState {
    var table := Young(st.table, call.time);
    var verdict := Verdict(table, call.remote, call.matches, call.time);
    RecoveryState(AfterRecovery(table, call.remote, call.matches, call.time),
                  st.history + [Attempt(call.time, call.remote, verdict != RateLimited, verdict == Verified)])
  }

  /** The limiter fed with any sequence of recovery-key attempts. */
  function RecoveryRun(calls: seq<RecoveryCall>): RecoveryState {
    if calls == [] then RecoveryState(map[], [])
    else RecoveryStep(RecoveryRun(calls[..|calls| - 1]), calls[|calls| - 1])
  }

  lemma {:induction false} RecoveryRunIsAccounted(calls: seq<RecoveryCall>, now: int)
    requires forall j, k :: 0 <= j < k < |calls| ==> calls[j].time <= calls[k].time
    requires forall k :: 0 <= k < |calls| ==> calls[k].time <= now
    ensures Accounts(RecoveryRun(calls).table, RecoveryRun(calls).history, MAX_LOGIN_ATTEMPTS, now)
  {
    if calls == [] {
      NothingToAccount(MAX_LOGIN_ATTEMPTS, now);
    } else {
      var before, call := RecoveryRun(calls[..|calls| - 1]), calls[|calls| - 1];
      RecoveryRunIsAccounted(calls[..|calls| - 1], call.time);
      EvictionIsSafe(before.table, before.history, MAX_LOGIN_ATTEMPTS, call.time, call.time);
      var table := Young(before.table, call.time);
      var verdict := Verdict(table, call.remote, call.matches, call.time);
      var next := AfterRecovery(table, call.remote, call.matches, call.time);
      var attempt := Attempt(call.time, call.remote, verdict != RateLimited, verdict == Verified);
      CallIsAccounted(table, before.history, attempt, MAX_LOGIN_ATTEMPTS, next);
      EvictionIsSafe(next, before.history + [attempt], MAX_LOGIN_ATTEMPTS, call.time, now);
    }
  }

  /** For any history of attempts in time order, a remote gets at most 9 keys compared in any half-open minute in
      which it does not present the right one. */
  lemma RecoveryRateIsBounded(calls: seq<RecoveryCall>, remote: Key, from: int)
    requires forall j, k :: 0 <= j < k < |calls| ==> calls[j].time <= calls[k].time
    ensures !ClearedIn(RecoveryRun(calls).history, remote, from, from + WINDOW) ==>
      CountedIn(RecoveryRun(calls).history, remote, from, from + WINDOW) <= 2 * MAX_LOGIN_ATTEMPTS - 1
  {
    RecoveryRunIsAccounted(calls, if calls == [] then 0 else calls[|calls| - 1].time);
    var h := RecoveryRun(calls).history;
    assert Bounded(h, remote, MAX_LOGIN_ATTEMPTS);
    assert MinuteBounded(h, remote, MAX_LOGIN_ATTEMPTS, from);
  }

  /** Wrong keys of one remote: what the table holds, and how many were compared since `from`. */
  ghost predicate Tried(calls: seq<RecoveryCall>, remote: Key, counter: Option<Counter>, from: int, tally: nat) {
    && RecoveryRun(calls).table == (match counter case None => map[] case Some(c) => map[remote := c])
    && Tally(RecoveryRun(calls).history, remote, from) == tally
    && (forall k | 0 <= k < |RecoveryRun(calls).history| :: !RecoveryRun(calls).history[k].cleared)
  }

  lemma {:induction false} RunOneMore(calls: seq<RecoveryCall>, call: RecoveryCall)
    ensures RecoveryRun(calls + [call]) == RecoveryStep(RecoveryRun(calls), call)
  {
    hide RecoveryStep;
    assert (calls + [call])[..|calls|] == calls;
  }

  lemma {:induction false} WrongKeyStep(st: RecoveryState, remote: Key, time: int, counter: Option<Counter>)
    requires st.table == match counter case None => map[] case Some(c) => map[remote := c]
    requires HasRoom(counter, MAX_LOGIN_ATTEMPTS, time) && (counter.Some? ==> time - counter.value.started < 2 * WINDOW)
    ensures RecoveryStep(st, RecoveryCall(remote, false, time))
      == RecoveryState(map[remote := Counted(counter, time)], st.history + [Attempt(time, remote, true, false)])
  {
    hide Counted;
    assert Young(st.table, time) == st.table;
    assert Lookup(st.table, remote) == counter;
    assert st.table[remote := Counted(counter, time)] == map[remote := Counted(counter, time)];
  }

  lemma {:induction false} OneMoreWrongKey(
    calls: seq<RecoveryCall>, remote: Key, time: int, counter: Option<Counter>, from: int, tally: nat)
    requires Tried(calls, remote, counter, from, tally) && HasRoom(counter, MAX_LOGIN_ATTEMPTS, time)
    requires counter.Some? ==> time - counter.value.started < 2 * WINDOW
    ensures Tried(calls + [RecoveryCall(remote, false, time)], remote, Some(Counted(counter, time)), from,
                  tally + if from <= time < from + WINDOW then 1 else 0)
  {
    hide RecoveryRun, RecoveryStep, Counted, HasRoom, CountedIn;
    RunOneMore(calls, RecoveryCall(remote, false, time));
    var before := RecoveryRun(calls);
    WrongKeyStep(before, remote, time, counter);
    CountedOneMore(before.history, Attempt(time, remote, true, false), remote, from, from + WINDOW);
  }

  function WrongKeys(remote: Key, time: int, n: nat): seq<RecoveryCall> {
    if n == 0 then [] else WrongKeys(remote, time, n - 1) + [RecoveryCall(remote, false, time)]
  }

  lemma {:induction false} WrongKeysAt(remote: Key, time: int, n: nat)
    ensures |WrongKeys(remote, time, n)| == n && forall k | 0 <= k < n :: WrongKeys(remote, time, n)[k].time == time
  {
    if n > 0 {
      WrongKeysAt(remote, time, n - 1);
    }
  }

  /** A burst of wrong keys in one window that has room for them. */
  lemma {:induction false} MoreWrongKeys(
    calls: seq<RecoveryCall>, remote: Key, time: int, n: nat, counter: Option<Counter>, from: int, tally: nat)
    requires Tried(calls, remote, counter, from, tally) && from <= time < from + WINDOW && n >= 1
    requires counter.Some? ==> time - counter.value.started < 2 * WINDOW
    requires HasRoom(counter, MAX_LOGIN_ATTEMPTS, time)
    requires Counted(counter, time).count + n - 1 <= MAX_LOGIN_ATTEMPTS
    requires time - Counted(counter, time).started < WINDOW
    ensures var first := Counted(counter, time);
      Tried(calls + WrongKeys(remote, time, n), remote, Some(first.(count := first.count + n - 1)), from, tally + n)
  {
    hide Tried;
    if n == 1 {
      assert calls + WrongKeys(remote, time, 1) == calls + [RecoveryCall(remote, false, time)];
      OneMoreWrongKey(calls, remote, time, counter, from, tally);
    } else {
      MoreWrongKeys(calls, remote, time, n - 1, counter, from, tally);
      var first := Counted(counter, time);
      var shorter := calls + WrongKeys(remote, time, n - 1);
      assert calls + WrongKeys(remote, time, n) == shorter + [RecoveryCall(remote, false, time)];
      OneMoreWrongKey(shorter, remote, time, Some(first.(count := first.count + n - 2)), from, tally + n - 1);
    }
  }

  /** This bound is exact as well: nine wrong keys of one remote can be compared in a half-open minute. */
  lemma {:induction false} RecoveryBoundIsAttained() returns (calls: seq<RecoveryCall>)
    ensures forall j, k :: 0 <= j < k < |calls| ==> calls[j].time <= calls[k].time
    ensures !ClearedIn(RecoveryRun(calls).history, "remote", WINDOW - 1, 2 * WINDOW - 1)
    ensures CountedIn(RecoveryRun(calls).history, "remote", WINDOW - 1, 2 * WINDOW - 1) == 2 * MAX_LOGIN_ATTEMPTS - 1
  {
    var from := WINDOW - 1;
    var opening, last, next := WrongKeys("remote", 0, 1), WrongKeys("remote", from, 4), WrongKeys("remote", WINDOW, 5);
    assert Tried([], "remote", None, from, 0);
    OneMoreWrongKey([], "remote", 0, None, from, 0);
    assert [] + [RecoveryCall("remote", false, 0)] == opening;
    MoreWrongKeys(opening, "remote", from, 4, Some(Counter(0, 1)), from, 0);
    MoreWrongKeys(opening + last, "remote", WINDOW, 5, Some(Counter(0, 5)), from, 4);
    WrongKeysAt("remote", 0, 1);
    WrongKeysAt("remote", from, 4);
    WrongKeysAt("remote", WINDOW, 5);
    hide WrongKeys, RecoveryRun;
    calls := opening + last + next;
    assert Tally(RecoveryRun(calls).history, "remote", from) == 9;
  }

  // ---------------------------------------------------------------------------
  // Who is refused
  // ---------------------------------------------------------------------------

  /** Of the calls since the key was last cleared, at least as many are among all calls. */
  lemma {:induction false} RecentIsPart(h: History, key: Key, from: int, until: int)
    ensures CountedIn(SinceCleared(h, key), key, from, until) <= CountedIn(h, key, from, until)
  {
    if h != [] && !(h[|h| - 1].key == key && h[|h| - 1].cleared) {
      RecentIsPart(h[..|h| - 1], key, from, until);
      CountedOneMore(SinceCleared(h[..|h| - 1], key), h[|h| - 1], key, from, until);
    }
  }

  /** The calls of a key that were let through in the minute up to `now`, since it was last cleared. */
  ghost function LastMinute(h: History, key: Key, now: int): nat {
    CountedIn(SinceCleared(h, key), key, now - WINDOW + 1, now + 1)
  }

  lemma {:induction false} NoRoomMeansLimit(c: Option<Counter>, h: History, key: Key, limit: nat, now: int)
    requires Explains(c, h, key, limit, now) && !HasRoom(c, limit, now)
    ensures LastMinute(h, key, now) >= limit
  {
    CountedMonotone(SinceCleared(h, key), key, c.value.started, now + 1, now - WINDOW + 1, now + 1);
  }

  /** The client was let through within the last two minutes. */
  ghost predicate Recent(h: History, client: Key, now: int) {
    CountedIn(h, client, now - 2 * WINDOW + 1, now + 1) >= 1
  }

  lemma {:induction false} YoungIsRecent(counter: Counter, h: History, client: Key, limit: nat, now: int)
    requires Explains(Some(counter), h, client, limit, now) && now - counter.started < 2 * WINDOW
    ensures Recent(h, client, now)
  {
    var recent := SinceCleared(h, client);
    CountedMonotone(recent, client, counter.started, counter.started + 1, now - 2 * WINDOW + 1, now + 1);
    RecentIsPart(h, client, now - 2 * WINDOW + 1, now + 1);
  }

  lemma {:induction false} DiscoveryOneMore(calls: seq<Call>, call: Call)
    ensures DiscoveryRun(calls + [call]) == DiscoveryStep(DiscoveryRun(calls), call)
  {
    hide DiscoveryStep;
    assert (calls + [call])[..|calls|] == calls;
  }

  /** A discovery is refused only to a client that has got 120 through in the last minute, or to one that is not among at
      least 4096 clients, each of which has got one through in the last two. */
  lemma {:induction false} DiscoveryRefusalIsJustified(calls: seq<Call>, call: Call)
    requires InOrder(calls + [call])
    requires var h := DiscoveryRun(calls + [call]).history; h != [] && !h[|h| - 1].counted
    ensures var h := DiscoveryRun(calls).history;
      || CountedIn(h, call.key, call.time - 60_000_000_000 + 1, call.time + 1) >= 120
      || exists clients: set<Key> ::
           |clients| >= 4096 && call.key !in clients && forall client | client in clients :: Recent(h, client, call.time)
  {
    hide Explains, Bounded, CountedIn, SinceCleared, Chronological, AllBy, DiscoveryRun;
    assert forall k | 0 <= k < |calls| :: calls[k].time <= call.time by {
      assert (calls + [call])[|calls|] == call;
      assert forall k | 0 <= k < |calls| :: (calls + [call])[k] == calls[k];
    }
    assert InOrder(calls) by {
      assert forall k | 0 <= k < |calls| :: (calls + [call])[k] == calls[k];
    }
    DiscoveryOneMore(calls, call);
    DiscoveryRunIsAccounted(calls, call.time);
    RefusedByTheTable(DiscoveryRun(calls), call);
  }

  lemma {:induction false} RefusedByTheTable(st: DiscoveryState, call: Call)
    requires Accounts(st.table, st.history, MAX_DISCOVERY_PER_WINDOW, call.time)
    requires !Allowed(SweptIfLarge(st.table, call.time), call.key, call.time)
    ensures CountedIn(st.history, call.key, call.time - 60_000_000_000 + 1, call.time + 1) >= 120
      || exists clients: set<Key> ::
           |clients| >= 4096 && call.key !in clients && forall client | client in clients :: Recent(st.history, client, call.time)
  {
    hide Explains, Bounded, CountedIn, SinceCleared, Chronological, AllBy, Recent;
    EvictionIsSafe(st.table, st.history, MAX_DISCOVERY_PER_WINDOW, call.time, call.time);
    var table := SweptIfLarge(st.table, call.time);
    assert Explains(Lookup(table, call.key), st.history, call.key, MAX_DISCOVERY_PER_WINDOW, call.time);
    if !HasRoom(Lookup(table, call.key), MAX_DISCOVERY_PER_WINDOW, call.time) {
      NoRoomMeansLimit(Lookup(table, call.key), st.history, call.key, MAX_DISCOVERY_PER_WINDOW, call.time);
      RecentIsPart(st.history, call.key, call.time - WINDOW + 1, call.time + 1);
    } else {
      FullTableIsRecent(st, table, call.time);
      assert |table.Keys| >= 4096 && call.key !in table.Keys;
    }
  }

  lemma {:induction false} FullTableIsRecent(st: DiscoveryState, table: map<Key, Counter>, now: int)
    requires Accounts(st.table, st.history, MAX_DISCOVERY_PER_WINDOW, now)
    requires table == SweptIfLarge(st.table, now) && |table| >= SWEEP_THRESHOLD
    ensures forall client | client in table.Keys :: Recent(st.history, client, now)
  {
    hide Explains, Bounded, CountedIn, SinceCleared, Chronological, AllBy, Recent;
    SubmapSize(table, st.table);
    assert table == Young(st.table, now);
    forall client | client in table.Keys ensures Recent(st.history, client, now) {
      assert Explains(Lookup(st.table, client), st.history, client, MAX_DISCOVERY_PER_WINDOW, now);
      YoungIsRecent(table[client], st.history, client, MAX_DISCOVERY_PER_WINDOW, now);
    }
  }

  /** A recovery key is compared unless five keys of that remote were compared in the last minute since its last success,
      and then the answer is whether it matches. */
  lemma {:induction false} RecoveryAnswersExactly(calls: seq<RecoveryCall>, call: RecoveryCall)
    requires forall j, k :: 0 <= j < k < |calls| ==> calls[j].time <= calls[k].time
    requires forall k | 0 <= k < |calls| :: calls[k].time <= call.time
    ensures var before, after := RecoveryRun(calls).history, RecoveryRun(calls + [call]).history;
      && |after| == |before| + 1 && after[..|before|] == before
      && var answer := after[|before|];
        && answer.time == call.time && answer.key == call.remote
        && (answer.cleared <==> answer.counted && call.matches)
        && (!answer.counted ==> LastMinute(before, call.remote, call.time) >= 5)
  {
    hide Explains, Bounded, CountedIn, SinceCleared, Chronological, AllBy, RecoveryRun, HasRoom;
    RunOneMore(calls, call);
    RecoveryRunIsAccounted(calls, call.time);
    var st := RecoveryRun(calls);
    EvictionIsSafe(st.table, st.history, MAX_LOGIN_ATTEMPTS, call.time, call.time);
    var c := Lookup(Young(st.table, call.time), call.remote);
    if !HasRoom(c, MAX_LOGIN_ATTEMPTS, call.time) {
      NoRoomMeansLimit(c, st.history, call.remote, MAX_LOGIN_ATTEMPTS, call.time);
    }
  }
}
