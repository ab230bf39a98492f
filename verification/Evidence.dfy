/** What the reporter reads off the native installer's log (internal/reporter/runtime.go): each piece of evidence is
    queued as an event, and a state file remembers which ones were. */
module Evidence {
  import opened Prelude
  import opened Text
  import opened Lifecycle
  import opened Records
  import opened Transactions
  import opened StoreInvariant
  import EventQueue
  import QueueStops

  datatype Check = Check(name: string, needle: string, stage: Stage, message: string, errorCode: string)

  type Code = s: string | s != [] && s[0] == 'I' && s[|s| - 1] == 'D' witness "ID"

  const BASE_FAILED: Code := "INS101_DEBIAN_BASE_INSTALL_FAILED"
  const PROFILE_FAILED: Code := "INS102_DEBIAN_PROFILE_INSTALL_FAILED"
  const BOOTLOADER_FAILED: Code := "INS103_DEBIAN_BOOTLOADER_FAILED"

  const CHECKS: seq<Check> := [
    Check("os-install", "Menu item 'bootstrap-base' selected", OsInstalling, "Debian Installer selected bootstrap-base", ""),
    Check("profile", "Menu item 'pkgsel' selected", ProfileApplying, "Debian Installer selected pkgsel", ""),
    Check("base-failed", "Menu item 'bootstrap-base' failed", Failed, "Debian base installation failed", BASE_FAILED),
    Check("profile-failed", "Menu item 'pkgsel' failed", Failed, "Debian package/profile installation failed", PROFILE_FAILED),
    Check("bootloader-failed", "Menu item 'grub-installer' failed", Failed, "Debian bootloader installation failed", BOOTLOADER_FAILED)
  ]

  predicate Due(check: Check, seen: set<string>, text: string) {
    check.name !in seen && Contains(text, check.needle)
  }

  /** A check that was queued, and the time that its event carries. */
  datatype Entry = Entry(check: Check, at: nat)

  /** What a pass over the checks queues, in order. */
  function Entries(checks: seq<Check>, seen: set<string>, text: string, times: seq<nat>): seq<Entry>
    requires |checks| <= |times|
  {
    if checks == [] then []
    else
      var n := |checks| - 1;
      var front := Entries(checks[..n], seen, text, times);
      if Due(checks[n], seen, text) then front + [Entry(checks[n], times[n])] else front
  }

  function Names(entries: seq<Entry>): set<string> {
    set k | 0 <= k < |entries| :: entries[k].check.name
  }

  function ReportOf(e: Entry): Option<Report> {
    EventQueue.QueuedReport(e.check.stage, Installer, e.check.message, e.check.errorCode, e.at)
  }

  /** The events of the entries, where QueueEvent takes them. */
  function Reports(entries: seq<Entry>): seq<Report> {
    if entries == [] then []
    else
      var front, last := Reports(entries[..|entries| - 1]), ReportOf(entries[|entries| - 1]);
      if last.Some? then front + [last.value] else front
  }

  lemma {:induction false} ReportsOneMore(entries: seq<Entry>, e: Entry)
    ensures Reports(entries + [e])
      == if ReportOf(e).Some? then Reports(entries) + [ReportOf(e).value] else Reports(entries)
  {
    assert (entries + [e])[..|entries|] == entries;
  }

  lemma {:induction false} NamesOneMore(entries: seq<Entry>, e: Entry)
    ensures Names(entries + [e]) == Names(entries) + {e.check.name}
  {
    var longer := entries + [e];
    assert longer[|entries|] == e && forall k | 0 <= k < |entries| :: longer[k] == entries[k];
  }

  lemma {:induction false} FailuresHaveCodes(check: Check)
    requires check in CHECKS && check.stage == Failed
    ensures check.errorCode == BASE_FAILED || check.errorCode == PROFILE_FAILED || check.errorCode == BOOTLOADER_FAILED
  {
  }

  lemma {:induction false} CodeIsNotBlank(code: Code)
    ensures Trim(code) != ""
  {
    assert !IsSpace(code[0]) && !IsSpace(code[|code| - 1]);
    hide IsSpace;
  }

  /** Every event of a check is one that QueueEvent takes. */
  lemma {:induction false} ChecksAreQueued(check: Check, at: nat)
    requires check in CHECKS
    ensures ReportOf(Entry(check, at)).Some?
  {
    hide EventQueue.EventKey, Trim;
    if check.stage == Failed {
      FailuresHaveCodes(check);
      CodeIsNotBlank(BASE_FAILED);
      CodeIsNotBlank(PROFILE_FAILED);
      CodeIsNotBlank(BOOTLOADER_FAILED);
    }
  }

  lemma {:induction false} EntriesOneMore(checks: seq<Check>, k: nat, seen: set<string>, text: string, times: seq<nat>)
    requires k < |checks| <= |times|
    ensures var front := Entries(checks[..k], seen, text, times);
      Entries(checks[..k + 1], seen, text, times)
        == if Due(checks[k], seen, text) then front + [Entry(checks[k], times[k])] else front
  {
    assert checks[..k + 1][..k] == checks[..k];
  }

  lemma {:induction false} EntriesAreDue(checks: seq<Check>, seen: set<string>, text: string, times: seq<nat>, k: nat)
    requires |checks| <= |times| && k < |Entries(checks, seen, text, times)|
    ensures exists j :: 0 <= j < |checks| && Due(checks[j], seen, text)
                        && Entries(checks, seen, text, times)[k] == Entry(checks[j], times[j])
  {
    hide Due;
    var n := |checks| - 1;
    var front := Entries(checks[..n], seen, text, times);
    if k < |front| {
      EntriesAreDue(checks[..n], seen, text, times, k);
      var j :| 0 <= j < n && Due(checks[..n][j], seen, text) && front[k] == Entry(checks[..n][j], times[j]);
      assert checks[..n][j] == checks[j];
    } else {
      assert Entries(checks, seen, text, times)[k] == Entry(checks[n], times[n]);
    }
  }

  predicate Distinct(checks: seq<Check>) {
    forall j, k | 0 <= j < k < |checks| :: checks[j].name != checks[k].name
  }

  /** A check that has not come up yet was not queued in this pass. */
  lemma {:induction false} NotYetQueued(checks: seq<Check>, k: nat, seen: set<string>, text: string, times: seq<nat>)
    requires k < |checks| <= |times| && Distinct(checks)
    ensures checks[k].name !in Names(Entries(checks[..k], seen, text, times))
  {
    hide Due, Entries;
    var entries := Entries(checks[..k], seen, text, times);
    forall l | 0 <= l < |entries| ensures entries[l].check.name != checks[k].name {
      EntriesAreDue(checks[..k], seen, text, times, l);
    }
  }

  ghost predicate Queueable(checks: seq<Check>) {
    forall k, at: nat | 0 <= k < |checks| :: ReportOf(Entry(checks[k], at)).Some?
  }

  /** The state file. */
  class EvidenceFile {
    var seen: set<string>

    constructor ()
      ensures seen == {}
    {
      seen := {};
    }

    /** detectNativeInstallerEvidence. `known` is the state that the pass has read, which is older than the file when
        another process has saved in the meantime; `reached` is how many of the checks are made before the process is
        interrupted, and `finished` whether it lives to write the state file, which it does if it found anything. */
    method DetectNativeInstallerEvidence(
      queue: EventQueue.QueueFile, known: set<string>, text: string, times: seq<nat>, reached: nat, finished: bool)
      requires reached <= |CHECKS| == |times| && (finished ==> reached == |CHECKS|)
      modifies this, queue
      ensures var entries := Entries(CHECKS[..reached], known, text, times);
        && queue.lines == old(queue.lines) + Reports(entries)
        && seen == Saved(old(seen), known, entries, finished)
    {
      ChecksAreSound(reached);
      var found, changed := Detect(queue, known, CHECKS[..reached], text, times);
      if finished && changed {
        seen := found;
      }
    }

    /** The loop over the checks. */
    method Detect(
      queue: EventQueue.QueueFile, known: set<string>, checks: seq<Check>, text: string, times: seq<nat>)
      returns (found: set<string>, changed: bool)
      requires |checks| <= |times| && Distinct(checks) && Queueable(checks)
      modifies queue
      ensures queue.lines == old(queue.lines) + Reports(Entries(checks, known, text, times))
      ensures found == known + Names(Entries(checks, known, text, times))
      ensures changed <==> Entries(checks, known, text, times) != []
    {
      hide EventQueue.QueuedReport, Contains, Entries, Distinct, Names, Reports;
      found, changed := known, false;
      NothingQueued(known, text, times);
      for k := 0 to |checks|
        invariant found == known + Names(Entries(checks[..k], known, text, times))
        invariant queue.lines == old(queue.lines) + Reports(Entries(checks[..k], known, text, times))
        invariant changed <==> Entries(checks[..k], known, text, times) != []
      {
        var check := checks[k];
        ghost var entries, e := Entries(checks[..k], known, text, times), Entry(check, times[k]);
        EntriesOneMore(checks, k, known, text, times);
        NotYetQueued(checks, k, known, text, times);
        if check.name !in found && Contains(text, check.needle) {
          ReportsOneMore(entries, e);
          NamesOneMore(entries, e);
          assert ReportOf(e).Some?;
          var ok := queue.QueueEvent(check.stage, Installer, check.message, check.errorCode, times[k]);
          found, changed := found + {check.name}, true;
        }
      }
      assert checks[..|checks|] == checks;
    }
  }

  /** The state file after a pass that had read `known`: it is written over, and only when there is something new. */
  function Saved(seen: set<string>, known: set<string>, entries: seq<Entry>, finished: bool): set<string> {
    if finished && entries != [] then known + Names(entries) else seen
  }

  lemma {:induction false} NothingQueued(seen: set<string>, text: string, times: seq<nat>)
    ensures Entries([], seen, text, times) == [] && Names([]) == {} && Reports([]) == []
  {
  }

  lemma {:induction false} ChecksAreSound(n: nat)
    requires n <= |CHECKS|
    ensures Distinct(CHECKS[..n]) && Queueable(CHECKS[..n])
  {
    forall j, k | 0 <= j < k < n ensures CHECKS[j].name != CHECKS[k].name {
      NamesAreDistinct(k);
    }
    forall k, at: nat | 0 <= k < n ensures ReportOf(Entry(CHECKS[..n][k], at)).Some? {
      ChecksAreQueued(CHECKS[k], at);
    }
  }

  lemma {:induction false} NamesAreDistinct(k: nat)
    requires k < |CHECKS|
    ensures forall j | 0 <= j < k :: CHECKS[j].name != CHECKS[k].name
  {
    assert |CHECKS[0].name| == 10 && |CHECKS[1].name| == 7 && |CHECKS[2].name| == 11;
    assert |CHECKS[3].name| == 14 && |CHECKS[4].name| == 17;
  }

  // ---------------------------------------------------------------------------
  // Passes, one after the other or overlapping
  // ---------------------------------------------------------------------------

  /** Passes are numbered in the order in which they end. `read` says how many had ended when this one read the state
      file: all before it, unless the daemon and a hook overlap. */
  datatype Pass = Pass(text: string, times: seq<nat>, reached: nat, finished: bool, read: nat)

  predicate ArePasses(passes: seq<Pass>) {
    forall k | 0 <= k < |passes| :: IsPass(passes[k], k)
  }

  predicate IsPass(p: Pass, k: nat) {
    p.reached <= |CHECKS| == |p.times| && (p.finished ==> p.reached == |CHECKS|) && p.read <= k
  }

  /** No pass reads the state file before the one before it has ended. */
  predicate Sequential(passes: seq<Pass>) {
    forall k | 0 <= k < |passes| :: passes[k].read == k
  }

  /** The state file after the first n passes. */
  function SeenAfter(passes: seq<Pass>, n: nat): set<string>
    requires ArePasses(passes) && n <= |passes|
    decreases n, 0
  {
    if n == 0 then {}
    else Saved(SeenAfter(passes, n - 1), KnownTo(passes, n - 1), QueuedBy(passes, n - 1), passes[n - 1].finished)
  }

  /** What the n-th pass has read. */
  function KnownTo(passes: seq<Pass>, n: nat): set<string>
    requires ArePasses(passes) && n < |passes|
    decreases n, 1
  {
    assert IsPass(passes[n], n);
    SeenAfter(passes, passes[n].read)
  }

  function QueuedBy(passes: seq<Pass>, n: nat): seq<Entry>
    requires ArePasses(passes) && n < |passes|
    decreases n, 2
  {
    assert IsPass(passes[n], n);
    Entries(CHECKS[..passes[n].reached], KnownTo(passes, n), passes[n].text, passes[n].times)
  }

  /** All that the first n passes have put on the queue. */
  function QueuedAfter(passes: seq<Pass>, n: nat): seq<Entry>
    requires ArePasses(passes) && n <= |passes|
  {
    if n == 0 then [] else QueuedAfter(passes, n - 1) + QueuedBy(passes, n - 1)
  }

  /** How often a check was queued. */
  function TimesQueued(entries: seq<Entry>, check: Check): nat {
    if entries == [] then 0
    else TimesQueued(entries[..|entries| - 1], check) + if entries[|entries| - 1].check == check then 1 else 0
  }

  /** The pass comes to the check, finds its needle and does not know that it was queued. */
  predicate Finds(passes: seq<Pass>, n: nat, k: nat)
    requires ArePasses(passes) && n < |passes| && k < |CHECKS|
  {
    && k < passes[n].reached && CHECKS[k].name !in KnownTo(passes, n)
    && Contains(passes[n].text, CHECKS[k].needle)
  }

  function Finders(passes: seq<Pass>, n: nat, k: nat): set<nat>
    requires ArePasses(passes) && n <= |passes| && k < |CHECKS|
  {
    set j: nat | j < n && Finds(passes, j, k)
  }

  lemma {:induction false} TimesTogether(a: seq<Entry>, b: seq<Entry>, check: Check)
    ensures TimesQueued(a + b, check) == TimesQueued(a, check) + TimesQueued(b, check)
    decreases |b|
  {
    if b == [] {
      assert a + b == a;
    } else {
      assert (a + b)[..|a + b| - 1] == a + b[..|b| - 1];
      TimesTogether(a, b[..|b| - 1], check);
    }
  }

  /** In one pass a check is queued once if it is due, and not at all otherwise. */
  lemma {:induction false} TimesInPass(
    checks: seq<Check>, n: nat, seen: set<string>, text: string, times: seq<nat>, k: nat)
    requires n <= |checks| <= |times| && k < |checks| && Distinct(checks)
    ensures TimesQueued(Entries(checks[..n], seen, text, times), checks[k])
      == if k < n && Due(checks[k], seen, text) then 1 else 0
    decreases n
  {
    hide Due, Entries;
    if n > 0 {
      TimesInPass(checks, n - 1, seen, text, times, k);
      EntriesOneMore(checks, n - 1, seen, text, times);
      var front, e := Entries(checks[..n - 1], seen, text, times), Entry(checks[n - 1], times[n - 1]);
      assert (front + [e])[..|front|] == front;
      assert checks[n - 1] == checks[k] ==> n - 1 == k;
    } else {
      assert checks[..n] == [];
      NothingQueued(seen, text, times);
    }
  }

  lemma {:induction false} AllChecksDiffer()
    ensures Distinct(CHECKS)
  {
    ChecksAreSound(|CHECKS|);
    assert CHECKS[..|CHECKS|] == CHECKS;
  }

  lemma {:induction false} DifferentChecks(j: nat, k: nat)
    requires j < |CHECKS| && k < |CHECKS| && CHECKS[j].name == CHECKS[k].name
    ensures j == k
  {
    if j < k {
      NamesAreDistinct(k);
    } else if k < j {
      NamesAreDistinct(j);
    }
  }

  /** The exact count, for passes that overlap or are cut short in any way: a check is queued as often as passes come to
      it, find its needle and have read a state file without its name. So it is queued at most once if and only if there
      is at most one such pass. */
  lemma {:induction false} QueuedAsOftenAsFound(passes: seq<Pass>, n: nat, k: nat)
    requires ArePasses(passes) && n <= |passes| && k < |CHECKS|
    ensures TimesQueued(QueuedAfter(passes, n), CHECKS[k]) == |Finders(passes, n, k)|
    decreases n
  {
    hide Due, Entries, SeenAfter, KnownTo, TimesQueued;
    if n == 0 {
      NeverQueued(CHECKS[k]);
    } else {
      assert IsPass(passes[n - 1], n - 1);
      QueuedAsOftenAsFound(passes, n - 1, k);
      TimesTogether(QueuedAfter(passes, n - 1), QueuedBy(passes, n - 1), CHECKS[k]);
      AllChecksDiffer();
      TimesInPass(CHECKS, passes[n - 1].reached, KnownTo(passes, n - 1), passes[n - 1].text, passes[n - 1].times, k);
      OneMoreFinder(passes, n, k);
      FindsWhatIsDue(passes, n - 1, k);
    }
  }

  lemma {:induction false} FindsWhatIsDue(passes: seq<Pass>, n: nat, k: nat)
    requires ArePasses(passes) && n < |passes| && k < |CHECKS|
    ensures Finds(passes, n, k) <==> k < passes[n].reached && Due(CHECKS[k], KnownTo(passes, n), passes[n].text)
  {
    hide KnownTo, Contains;
  }

  lemma {:induction false} NeverQueued(check: Check)
    ensures TimesQueued([], check) == 0
  {
  }

  lemma {:induction false} OneMoreFinder(passes: seq<Pass>, n: nat, k: nat)
    requires ArePasses(passes) && 0 < n <= |passes| && k < |CHECKS|
    ensures |Finders(passes, n, k)| == |Finders(passes, n - 1, k)| + if Finds(passes, n - 1, k) then 1 else 0
  {
    hide Finds;
    var before := Finders(passes, n - 1, k);
    assert n - 1 !in before;
    assert Finders(passes, n, k) == if Finds(passes, n - 1, k) then before + {n - 1} else before;
  }

  // --- one pass after the other ---

  /** An earlier pass that was not cut short had the needle in its text. */
  ghost predicate WasSeen(passes: seq<Pass>, n: nat, k: nat)
    requires n <= |passes| && k < |CHECKS|
  {
    exists j: nat :: j < n && passes[j].finished && Contains(passes[j].text, CHECKS[k].needle)
  }

  lemma {:induction false} NamesOfPass(passes: seq<Pass>, n: nat, k: nat)
    requires ArePasses(passes) && n < |passes| && k < |CHECKS| && passes[n].finished
    ensures CHECKS[k].name in Names(QueuedBy(passes, n)) <==> Due(CHECKS[k], KnownTo(passes, n), passes[n].text)
  {
    hide Due, Entries, SeenAfter, KnownTo;
    assert IsPass(passes[n], n);
    assert CHECKS[..passes[n].reached] == CHECKS;
    var entries, known := QueuedBy(passes, n), KnownTo(passes, n);
    if CHECKS[k].name in Names(entries) {
      var l :| 0 <= l < |entries| && entries[l].check.name == CHECKS[k].name;
      EntriesAreDue(CHECKS, known, passes[n].text, passes[n].times, l);
      var j :| 0 <= j < |CHECKS| && Due(CHECKS[j], known, passes[n].text)
        && entries[l] == Entry(CHECKS[j], passes[n].times[j]);
      DifferentChecks(j, k);
    }
    if Due(CHECKS[k], known, passes[n].text) {
      DueIsQueued(CHECKS, known, passes[n].text, passes[n].times, k);
      var l :| 0 <= l < |entries| && entries[l] == Entry(CHECKS[k], passes[n].times[k]);
    }
  }

  lemma {:induction false} DueIsQueued(checks: seq<Check>, seen: set<string>, text: string, times: seq<nat>, k: nat)
    requires k < |checks| <= |times| && Due(checks[k], seen, text)
    ensures Entry(checks[k], times[k]) in Entries(checks, seen, text, times)
    decreases |checks|
  {
    hide Due;
    var n := |checks| - 1;
    if k < n {
      assert checks[..n][k] == checks[k];
      DueIsQueued(checks[..n], seen, text, times, k);
    }
  }

  lemma {:induction false} SavedNames(passes: seq<Pass>, n: nat, k: nat)
    requires ArePasses(passes) && Sequential(passes) && n < |passes| && k < |CHECKS|
    ensures CHECKS[k].name in SeenAfter(passes, n + 1)
      <==> CHECKS[k].name in SeenAfter(passes, n) || (passes[n].finished && Contains(passes[n].text, CHECKS[k].needle))
  {
    hide Entries, Contains;
    assert passes[n].read == n && KnownTo(passes, n) == SeenAfter(passes, n);
    hide SeenAfter, KnownTo;
    SavedAfter(passes, n);
    if passes[n].finished {
      NamesOfPass(passes, n, k);
    }
  }

  lemma {:induction false} SavedAfter(passes: seq<Pass>, n: nat)
    requires ArePasses(passes) && n < |passes|
    ensures SeenAfter(passes, n + 1)
      == Saved(SeenAfter(passes, n), KnownTo(passes, n), QueuedBy(passes, n), passes[n].finished)
  {
    hide QueuedBy, KnownTo;
  }

  /** When passes do not overlap, the state file knows exactly what a pass that was not cut short has seen. */
  lemma {:induction false} StateFileKnows(passes: seq<Pass>, n: nat, k: nat)
    requires ArePasses(passes) && Sequential(passes) && n <= |passes| && k < |CHECKS|
    ensures CHECKS[k].name in SeenAfter(passes, n) <==> WasSeen(passes, n, k)
    decreases n
  {
    hide Contains, QueuedBy;
    if n > 0 {
      StateFileKnows(passes, n - 1, k);
      hide SeenAfter;
      SavedNames(passes, n - 1, k);
    }
  }

  /** Then a check is queued as often as passes come to it with its needle in the log while none that was not cut short
      has had it before. */
  lemma {:induction false} QueuedUntilAPassEnds(passes: seq<Pass>, k: nat)
    requires ArePasses(passes) && Sequential(passes) && k < |CHECKS|
    ensures TimesQueued(QueuedAfter(passes, |passes|), CHECKS[k])
      == |set j: nat | j < |passes| && k < passes[j].reached && Contains(passes[j].text, CHECKS[k].needle)
        && !WasSeen(passes, j, k)|
  {
    hide Contains, SeenAfter, QueuedBy, WasSeen, QueuedAfter, TimesQueued;
    QueuedAsOftenAsFound(passes, |passes|, k);
    forall j: nat | j < |passes|
      ensures Finds(passes, j, k)
        <==> k < passes[j].reached && Contains(passes[j].text, CHECKS[k].needle) && !WasSeen(passes, j, k)
    {
      StateFileKnows(passes, j, k);
      assert passes[j].read == j;
    }
    assert Finders(passes, |passes|, k) == set j: nat | j < |passes| && k < passes[j].reached
      && Contains(passes[j].text, CHECKS[k].needle) && !WasSeen(passes, j, k);
  }

  /** When in addition every pass lives to write its state file, each piece of evidence is queued at most once, and it
      is queued if and only if it was in the log at some pass. */
  lemma {:induction false} EvidenceIsQueuedOnce(passes: seq<Pass>, k: nat)
    requires ArePasses(passes) && Sequential(passes) && k < |CHECKS|
    requires forall j | 0 <= j < |passes| :: passes[j].finished
    ensures TimesQueued(QueuedAfter(passes, |passes|), CHECKS[k]) == if WasSeen(passes, |passes|, k) then 1 else 0
  {
    hide SeenAfter, QueuedBy, QueuedAfter, TimesQueued, Contains;
    QueuedUntilAPassEnds(passes, k);
    var finders := set j: nat | j < |passes| && k < passes[j].reached
      && Contains(passes[j].text, CHECKS[k].needle) && !WasSeen(passes, j, k);
    if WasSeen(passes, |passes|, k) {
      var j := FirstSight(passes, |passes|, k);
      assert IsPass(passes[j], j);
      assert finders == {j};
    } else {
      assert finders == {};
    }
  }

  lemma {:induction false} FirstSight(passes: seq<Pass>, n: nat, k: nat) returns (j: nat)
    requires n <= |passes| && k < |CHECKS| && WasSeen(passes, n, k)
    ensures j < n && passes[j].finished && Contains(passes[j].text, CHECKS[k].needle) && !WasSeen(passes, j, k)
    decreases n
  {
    hide Contains;
    if WasSeen(passes, n - 1, k) {
      j := FirstSight(passes, n - 1, k);
    } else {
      j := n - 1;
    }
  }

  // --- ways to be queued twice ---

  lemma {:induction false} TwoFinders(passes: seq<Pass>, a: nat, b: nat, k: nat)
    requires ArePasses(passes) && a < b < |passes| && k < |CHECKS| && Finds(passes, a, k) && Finds(passes, b, k)
    ensures TimesQueued(QueuedAfter(passes, |passes|), CHECKS[k]) >= 2
  {
    hide Finds, TimesQueued, QueuedAfter;
    QueuedAsOftenAsFound(passes, |passes|, k);
    var rest := Finders(passes, |passes|, k) - {a};
    assert b in rest;
    assert |rest - {b}| >= 0;
  }

  /** A check is queued more than once if and only if two passes find it. */
  lemma {:induction false} QueuedAgainExactly(passes: seq<Pass>, k: nat)
    requires ArePasses(passes) && k < |CHECKS|
    ensures TimesQueued(QueuedAfter(passes, |passes|), CHECKS[k]) >= 2
      <==> exists a: nat, b: nat :: a < b < |passes| && Finds(passes, a, k) && Finds(passes, b, k)
  {
    hide Finds, TimesQueued, QueuedAfter;
    QueuedAsOftenAsFound(passes, |passes|, k);
    var finders := Finders(passes, |passes|, k);
    if |finders| >= 2 {
      var a :| a in finders;
      assert |finders - {a}| >= 1;
      var b :| b in finders - {a};
      assert a < b || b < a;
    }
    if a: nat, b: nat :| a < b < |passes| && Finds(passes, a, k) && Finds(passes, b, k) {
      TwoFinders(passes, a, b, k);
    }
  }

  /** A pass that is cut short before it writes the state file is made again: what it queued is queued a second time. */
  lemma {:induction false} CutShortQueuesAgain(passes: seq<Pass>, a: nat, b: nat, k: nat)
    requires ArePasses(passes) && Sequential(passes) && a < b < |passes| && k < |CHECKS|
    requires k < passes[a].reached && k < passes[b].reached && !WasSeen(passes, b, k)
    requires Contains(passes[a].text, CHECKS[k].needle) && Contains(passes[b].text, CHECKS[k].needle)
    ensures TimesQueued(QueuedAfter(passes, |passes|), CHECKS[k]) >= 2
  {
    hide SeenAfter, QueuedBy, QueuedAfter, TimesQueued, Contains;
    assert !WasSeen(passes, a, k);
    StateFileKnows(passes, a, k);
    StateFileKnows(passes, b, k);
    assert passes[a].read == a && passes[b].read == b;
    TwoFinders(passes, a, b, k);
  }

  /** And no pass needs to be cut short: when the daemon and the hook before HARDENING both read the state file before
      either has written it, both queue what they find. */
  lemma {:induction false} OverlappingPassesQueueTwice(daemon: Pass, hook: Pass, k: nat)
    requires IsPass(daemon, 0) && IsPass(hook, 0) && daemon.finished && hook.finished && k < |CHECKS|
    requires Contains(daemon.text, CHECKS[k].needle) && Contains(hook.text, CHECKS[k].needle)
    ensures ArePasses([daemon, hook]) && TimesQueued(QueuedAfter([daemon, hook], 2), CHECKS[k]) == 2
  {
    hide QueuedBy, QueuedAfter, TimesQueued, Contains, Entries;
    var passes := [daemon, hook];
    assert SeenAfter(passes, 0) == {};
    hide SeenAfter;
    QueuedAsOftenAsFound(passes, 2, k);
    assert Finders(passes, 2, k) == {0, 1};
  }

  /** The second save also drops what only the first one had found: the next pass queues it again. */
  lemma {:induction false} OverlappingSaveForgets(early: Pass, late: Pass, next: Pass, k: nat, l: nat)
    requires IsPass(early, 0) && IsPass(late, 0) && IsPass(next, 2) && early.finished && late.finished && next.finished
    requires next.read == 2 && k < |CHECKS| && l < |CHECKS|
    requires Contains(early.text, CHECKS[k].needle) && !Contains(late.text, CHECKS[k].needle)
    requires Contains(late.text, CHECKS[l].needle) && Contains(next.text, CHECKS[k].needle)
    ensures ArePasses([early, late, next]) && TimesQueued(QueuedAfter([early, late, next], 3), CHECKS[k]) == 2
  {
    hide QueuedAfter, TimesQueued, Contains, Entries;
    var passes := [early, late, next];
    assert SeenAfter(passes, 0) == {} == KnownTo(passes, 1) == KnownTo(passes, 0);
    hide SeenAfter, QueuedBy;
    SavedAfter(passes, 1);
    NamesOfPass(passes, 1, k);
    NamesOfPass(passes, 1, l);
    NameIsAnEntry(QueuedBy(passes, 1), CHECKS[l].name);
    assert KnownTo(passes, 2) == SeenAfter(passes, 2);
    QueuedAsOftenAsFound(passes, 3, k);
    assert Finders(passes, 3, k) == {0, 2};
  }

  lemma {:induction false} NameIsAnEntry(entries: seq<Entry>, name: string)
    requires name in Names(entries)
    ensures entries != []
  {
  }

  // --- what a repetition does to the queue ---

  /** The second event stops the queue: it has the key of the first one and, unless both were made at the same instant,
      another content. Once the server has the first, no continuation takes the second, or anything behind it, off. */
  lemma {:induction false} SecondEvidenceStopsTheQueue(
    r: EventQueue.Reporting, check: Check, first: nat, second: nat, steps: seq<EventQueue.Step>)
    requires EventQueue.ReportingSound(r) && r.progress == EventQueue.Progress.Idle && first != second
    requires r.installation in r.db.events
    requires ReportOf(Entry(check, first)).Some? && ReportOf(Entry(check, second)).Some?
    requires var report := ReportOf(Entry(check, first)).value;
      var found := FindEvent(r.db.events[r.installation], report.key); found.Some? && found.value.report == report
    requires r.queue != [] && Some(r.queue[0]) == ReportOf(Entry(check, second))
    ensures QueueStops.HeadStays(r, EventQueue.Steps(r, steps))
  {
    hide EventQueue.ReportingSound, EventQueue.Steps, FindEvent, EventQueue.EventKey, QueueStops.HeadStays;
    QueueStops.ReusedKeyStopsTheQueue(r, steps);
  }
}
