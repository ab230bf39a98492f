/** Installation stages, who may report them, and how they may follow each other (internal/lifecycle/model.go). */
module Lifecycle {
  import opened Prelude
  import opened Text

  datatype Stage =
    | Created | Queued | PxeBooted | InstallerStarted | DiskPreparation | OsInstalling
    | ProfileApplying | Hardening | FirstBoot | Validating | Success | Failed

  datatype Source = Server | Installer | Finalizer | Validator

  predicate Terminal(s: Stage) {
    s == Success || s == Failed
  }

  predicate SourceAllowed(stage: Stage, source: Source) {
    match stage
    case Created | Queued | PxeBooted => source == Server
    case InstallerStarted | DiskPreparation | OsInstalling | ProfileApplying | Hardening => source == Installer
    case FirstBoot => source == Finalizer
    case Validating | Success => source == Validator || source == Finalizer
    case Failed => source == Installer || source == Finalizer || source == Validator
  }

  /** The same table, read by source. */
  function Reportable(source: Source): set<Stage> {
    match source
    case Server => {Created, Queued, PxeBooted}
    case Installer => {InstallerStarted, DiskPreparation, OsInstalling, ProfileApplying, Hardening, Failed}
    case Finalizer => {FirstBoot, Validating, Success, Failed}
    case Validator => {Validating, Success, Failed}
  }

  lemma {:induction false} SourcesAreExact(stage: Stage, source: Source)
    ensures SourceAllowed(stage, source) <==> stage in Reportable(source)
  {
  }

  /** CanAdvance; no current stage is the empty stage of an installation without events. */
  predicate CanAdvance(current: Option<Stage>, next: Stage) {
    match current
    case None => next == Created || next == Queued || next == PxeBooted
    case Some(stage) =>
      if Terminal(stage) then false
      else if next == Failed then stage != Created && stage != Queued
      else if stage == next then false
      else match stage
        case Created => next == Queued || next == PxeBooted
        case Queued => next == PxeBooted
        case PxeBooted => next == InstallerStarted
        case InstallerStarted => next == DiskPreparation
        case DiskPreparation => next == OsInstalling
        case OsInstalling => next == ProfileApplying
        case ProfileApplying => next == Hardening
        case Hardening => next == FirstBoot || next == Validating
        case FirstBoot => next == Validating
        case Validating => next == Success
        case _ => false
  }

  /** Position along the installation; the two outcomes share the last one. */
  function Rank(s: Stage): (r: nat)
    ensures r <= 10
  {
    match s
    case Created => 0
    case Queued => 1
    case PxeBooted => 2
    case InstallerStarted => 3
    case DiskPreparation => 4
    case OsInstalling => 5
    case ProfileApplying => 6
    case Hardening => 7
    case FirstBoot => 8
    case Validating => 9
    case Success => 10
    case Failed => 10
  }

  // ---------------------------------------------------------------------------
  // Paths of accepted stages.
  // ---------------------------------------------------------------------------

  /** Stages accepted one after the other, starting from the CREATED stage that comes with the installation. */
  ghost predicate IsPath(stages: seq<Stage>) {
    && stages != []
    && stages[0] == Created
    && forall k :: 0 < k < |stages| ==> CanAdvance(Some(stages[k - 1]), stages[k])
  }

  lemma AdvanceRaisesRank(a: Stage, b: Stage)
    requires CanAdvance(Some(a), b)
    ensures Rank(a) < Rank(b)
  {
  }

  lemma {:induction false} RankRises(stages: seq<Stage>, j: nat, k: nat)
    requires IsPath(stages) && j < k < |stages|
    ensures Rank(stages[j]) + (k - j) <= Rank(stages[k])
    decreases k
  {
    AdvanceRaisesRank(stages[k - 1], stages[k]);
    if j < k - 1 {
      RankRises(stages, j, k - 1);
    }
  }

  /** Ranks rise strictly, so no installation ever accepts a stage twice or more than eleven events. */
  lemma PathIsShort(stages: seq<Stage>)
    requires IsPath(stages)
    ensures |stages| <= 11
    ensures forall j, k :: 0 <= j < k < |stages| ==> Rank(stages[j]) < Rank(stages[k]) && stages[j] != stages[k]
    ensures forall k :: 0 <= k < |stages| - 1 ==> !Terminal(stages[k])
  {
    forall j, k | 0 <= j < k < |stages| ensures Rank(stages[j]) < Rank(stages[k]) {
      RankRises(stages, j, k);
    }
    if |stages| > 1 {
      RankRises(stages, 0, |stages| - 1);
    }
    forall k | 0 <= k < |stages| - 1 ensures !Terminal(stages[k]) {
      assert CanAdvance(Some(stages[k]), stages[k + 1]);
    }
  }

  /** A path past QUEUED went through PXE_BOOTED. */
  lemma {:induction false} PathMeetsPxe(stages: seq<Stage>, k: nat) returns (j: nat)
    requires IsPath(stages) && k < |stages| && Rank(stages[k]) >= Rank(PxeBooted)
    ensures j <= k && stages[j] == PxeBooted
    decreases k
  {
    if stages[k] == PxeBooted {
      j := k;
    } else {
      assert CanAdvance(Some(stages[k - 1]), stages[k]);
      j := PathMeetsPxe(stages, k - 1);
    }
  }

  const INSTALLING: seq<Stage> := [PxeBooted, InstallerStarted, DiskPreparation, OsInstalling, ProfileApplying, Hardening]

  /** The stages of a successful run: QUEUED and FIRST_BOOT may be missing, nothing else may. */
  function SuccessfulRun(queued: bool, firstBoot: bool): seq<Stage> {
    Opening(queued) + INSTALLING
    + (if firstBoot then [FirstBoot] else []) + [Validating, Success]
  }

  ghost function Before(stages: seq<Stage>): seq<Stage>
    requires stages != []
  {
    stages[..|stages| - 1]
  }

  lemma LastStep(stages: seq<Stage>)
    requires IsPath(stages) && stages[|stages| - 1] != Created
    ensures |stages| >= 2 && IsPath(Before(stages))
    ensures CanAdvance(Some(stages[|stages| - 2]), stages[|stages| - 1])
    ensures stages == Before(stages) + [stages[|stages| - 1]]
  {
    var last := |stages| - 1;
    assert CanAdvance(Some(stages[last - 1]), stages[last]);
  }

  lemma PathToPxe(stages: seq<Stage>)
    requires IsPath(stages) && stages[|stages| - 1] == PxeBooted
    ensures stages == [Created, PxeBooted] || stages == [Created, Queued, PxeBooted]
  {
    LastStep(stages);
    var p := Before(stages);
    if p[|p| - 1] == Queued {
      LastStep(p);
      PathIsShort(Before(p));
      assert Before(p)[|Before(p)| - 1] == Created;
      assert |Before(p)| == 1;
      assert Before(p) == [Created];
    } else {
      PathIsShort(p);
      assert p == [Created];
    }
  }

  function Opening(queued: bool): seq<Stage> {
    if queued then [Created, Queued] else [Created]
  }

  lemma {:induction false} PathToHardening(stages: seq<Stage>, n: nat) returns (queued: bool)
    requires IsPath(stages) && 1 <= n <= 6 && stages[|stages| - 1] == INSTALLING[n - 1]
    ensures stages == Opening(queued) + INSTALLING[..n]
    decreases n
  {
    if n == 1 {
      PathToPxe(stages);
      queued := stages == [Created, Queued, PxeBooted];
    } else {
      LastStep(stages);
      queued := PathToHardening(Before(stages), n - 1);
      assert INSTALLING[..n] == INSTALLING[..n - 1] + [INSTALLING[n - 1]];
    }
  }

  /** A run that reaches SUCCESS is one of exactly four: it contains PXE_BOOTED, INSTALLER_STARTED, DISK_PREPARATION,
      OS_INSTALLING, PROFILE_APPLYING, HARDENING and VALIDATING, in that order, and every one of the four can happen. */
  lemma SuccessHasFourShapes(stages: seq<Stage>)
    requires stages != [] && stages[|stages| - 1] == Success
    ensures IsPath(stages) <==> exists queued: bool, firstBoot: bool :: stages == SuccessfulRun(queued, firstBoot)
  {
    if IsPath(stages) {
      LastStep(stages);
      var p := Before(stages);
      LastStep(p);
      var q := Before(p);
      var firstBoot := q[|q| - 1] == FirstBoot;
      if firstBoot {
        LastStep(q);
      }
      var h := if firstBoot then Before(q) else q;
      assert h[|h| - 1] == INSTALLING[5];
      var queued := PathToHardening(h, 6);
      assert INSTALLING[..6] == INSTALLING;
      assert stages == SuccessfulRun(queued, firstBoot);
    }
    if queued, firstBoot :| stages == SuccessfulRun(queued, firstBoot) {
      SuccessfulRunIsPath(queued, firstBoot);
    }
  }

  lemma SuccessfulRunIsPath(queued: bool, firstBoot: bool)
    ensures IsPath(SuccessfulRun(queued, firstBoot))
  {
  }

  /** Every path that has not failed is the beginning of a successful run. */
  lemma {:induction false} PathIsABeginning(stages: seq<Stage>) returns (queued: bool, firstBoot: bool)
    requires IsPath(stages) && stages[|stages| - 1] != Failed
    ensures stages <= SuccessfulRun(queued, firstBoot)
  {
    hide CanAdvance;
    var last := stages[|stages| - 1];
    queued, firstBoot := true, true;
    if last == Created {
      PathIsShort(stages);
      assert |stages| == 1;
    } else if last == Queued {
      LastStep(stages);
      PathIsShort(Before(stages));
      assert Before(stages) == [Created];
    } else if Rank(last) <= Rank(Hardening) {
      var n := Rank(last) - 1;
      queued := PathToHardening(stages, n);
      assert INSTALLING[..n] <= INSTALLING;
    } else if last == Success {
      SuccessHasFourShapes(stages);
      queued, firstBoot :| stages == SuccessfulRun(queued, firstBoot);
    } else {
      queued, firstBoot := PathToValidating(stages);
    }
  }

  lemma {:induction false} PathToValidating(stages: seq<Stage>) returns (queued: bool, firstBoot: bool)
    requires IsPath(stages) && (stages[|stages| - 1] == FirstBoot || stages[|stages| - 1] == Validating)
    ensures stages <= SuccessfulRun(queued, firstBoot)
  {
    LastStep(stages);
    var p := Before(stages);
    firstBoot := stages[|stages| - 1] == FirstBoot || p[|p| - 1] == FirstBoot;
    if p[|p| - 1] == FirstBoot {
      LastStep(p);
      p := Before(p);
    }
    assert p[|p| - 1] == INSTALLING[5];
    queued := PathToHardening(p, 6);
    assert INSTALLING[..6] == INSTALLING;
  }

  lemma {:induction false} FailedIsCutOff(stages: seq<Stage>) returns (queued: bool, firstBoot: bool)
    requires IsPath(stages) && stages[|stages| - 1] == Failed
    ensures |Opening(queued)| < |stages| - 1 < |SuccessfulRun(queued, firstBoot)|
    ensures stages == SuccessfulRun(queued, firstBoot)[..|stages| - 1] + [Failed]
  {
    assert !CanAdvance(Some(Failed), Failed);
    hide CanAdvance, SuccessfulRun, Opening;
    LastStep(stages);
    queued, firstBoot := PathIsABeginning(Before(stages));
    CutOff(queued, firstBoot, |stages| - 1);
  }

  lemma {:induction false} CutOffIsPath(queued: bool, firstBoot: bool, n: nat)
    requires |Opening(queued)| < n < |SuccessfulRun(queued, firstBoot)|
    ensures IsPath(SuccessfulRun(queued, firstBoot)[..n] + [Failed])
  {
    hide CanAdvance, SuccessfulRun, Opening;
    var run := SuccessfulRun(queued, firstBoot);
    var stages := run[..n] + [Failed];
    SuccessfulRunIsPath(queued, firstBoot);
    CutOff(queued, firstBoot, n);
    forall k | 0 < k < |stages| ensures CanAdvance(Some(stages[k - 1]), stages[k]) {
      assert stages[k - 1] == run[k - 1];
    }
  }

  /** A run that failed is a successful one that was cut off after PXE_BOOTED at the earliest and before SUCCESS, and it can
      fail at every one of these points. */
  lemma {:induction false} FailureCutsOff(stages: seq<Stage>)
    requires stages != [] && stages[|stages| - 1] == Failed
    ensures IsPath(stages) <==> exists queued: bool, firstBoot: bool, n: nat ::
      |Opening(queued)| < n < |SuccessfulRun(queued, firstBoot)| && stages == SuccessfulRun(queued, firstBoot)[..n] + [Failed]
  {
    hide IsPath, SuccessfulRun, Opening;
    if IsPath(stages) {
      var queued, firstBoot := FailedIsCutOff(stages);
    }
    if queued, firstBoot, n: nat :|
      |Opening(queued)| < n < |SuccessfulRun(queued, firstBoot)| && stages == SuccessfulRun(queued, firstBoot)[..n] + [Failed]
    {
      CutOffIsPath(queued, firstBoot, n);
    }
  }

  lemma {:induction false} CutOff(queued: bool, firstBoot: bool, n: nat)
    requires 0 < n <= |SuccessfulRun(queued, firstBoot)|
    ensures CanAdvance(Some(SuccessfulRun(queued, firstBoot)[n - 1]), Failed)
      <==> |Opening(queued)| < n < |SuccessfulRun(queued, firstBoot)|
  {
  }

  // ---------------------------------------------------------------------------
  // Reports.
  // ---------------------------------------------------------------------------

  datatype Report = Report(
    stage: Stage,
    source: Source,
    clientAt: nat,
    key: string,
    message: string,
    errorCode: string,
    metadata: map<string, string>)

  predicate KeyChar(c: char) {
    'A' <= c <= 'Z' || 'a' <= c <= 'z' || '0' <= c <= '9' || c == '.' || c == '_' || c == ':' || c == '-'
  }

  /** ValidateIdempotencyKey: a letter or digit, then at most 127 key characters. */
  predicate ValidKey(key: string) {
    && 1 <= |key| <= 128
    && KeyChar(key[0]) && key[0] != '.' && key[0] != '_' && key[0] != ':' && key[0] != '-'
    && forall k :: 0 <= k < |key| ==> KeyChar(key[k])
  }

  /** The key space that the reporter uses. */
  const REPORTER_KEY: string := "reporter:"

  predicate FromReporter(report: Report) {
    HasPrefix(report.key, REPORTER_KEY)
  }

  const SENSITIVE_KEY_PARTS: seq<string> := [
    "token", "password", "secret", "authorization", "cookie", "credential", "recovery_key", "private_key"
  ]

  function Underscored(s: string): string {
    seq(|s|, k requires 0 <= k < |s| => if s[k] == '-' || s[k] == '.' then '_' else s[k])
  }

  predicate SensitiveKey(key: string) {
    exists k | 0 <= k < |SENSITIVE_KEY_PARTS| :: Contains(Lower(Underscored(key)), SENSITIVE_KEY_PARTS[k])
  }

  predicate ValidMetadata(metadata: map<string, string>) {
    && |metadata| <= 32
    && forall name | name in metadata ::
         !Blank(name) && |Trim(name)| <= 64 && |metadata[name]| <= 512 && !SensitiveKey(Trim(name))
  }

  /** Report.Validate, without the check of the installation ID. */
  predicate ValidReport(r: Report) {
    && ValidKey(r.key)
    && |r.message| <= 1024 && |r.errorCode| <= 128
    && (r.stage == Failed <==> !Blank(r.errorCode))
    && ValidMetadata(r.metadata)
    && SourceAllowed(r.stage, r.source)
  }

  /** A report is valid exactly when its source may report its stage, its key is one letter or digit and at most 127 more
      characters of a key, its texts are short enough, it has an error code if and only if it is a failure, and its metadata
      are few, short and name nothing sensitive. */
  lemma {:induction false} ReportIsValidExactly(r: Report)
    ensures ValidReport(r) <==>
      && r.stage in Reportable(r.source)
      && 1 <= |r.key| <= 128
      && (forall c | c in r.key :: 'A' <= c <= 'Z' || 'a' <= c <= 'z' || '0' <= c <= '9' || c in ".-_:")
      && r.key[0] !in ".-_:"
      && |r.message| <= 1024 && |r.errorCode| <= 128
      && (Trim(r.errorCode) != "" <==> r.stage == Failed)
      && |r.metadata| <= 32
      && forall name | name in r.metadata ::
           1 <= |Trim(name)| <= 64 && |r.metadata[name]| <= 512 && !SensitiveKey(Trim(name))
  {
    hide Trim, SensitiveKey;
    SourcesAreExact(r.stage, r.source);
    hide SourceAllowed, Reportable;
    assert forall k | 0 <= k < |r.key| :: r.key[k] in r.key;
  }
}
