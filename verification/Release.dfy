/** Debian's signed release file, the installer's checksum manifest, and the artifacts pinned from them
    (internal/drivers/debian13/artifacts.go, boot.go, internal/artifact/model.go). */
module Release {
  import opened Prelude
  import opened Text
  import opened Percent

  // ---------------------------------------------------------------------------
  // Lines
  // ---------------------------------------------------------------------------

  const MAX_TOKEN := 64 * 1024

  function WithoutReturn(line: string): string {
    if line != [] && line[|line| - 1] == '\r' then line[..|line| - 1] else line
  }

  /** The lines of a text, without the empty one after a final newline. */
  function RawLines(text: string): seq<string> {
    var parts := Split(text, '\n');
    if parts[|parts| - 1] == [] then parts[..|parts| - 1] else parts
  }

  function ScannedLines(text: string): (r: seq<string>)
    ensures |r| == |RawLines(text)|
  {
    var raw := RawLines(text);
    seq(|raw|, k requires 0 <= k < |raw| => WithoutReturn(raw[k]))
  }

  /** The scanner gives up on a line that does not fit its buffer. */
  predicate Scannable(text: string) {
    forall k | 0 <= k < |RawLines(text)| :: |RawLines(text)[k]| < MAX_TOKEN
  }

  /** A text of lines, each ended by a newline with or without a carriage return in front of it. */
  function Lined(lines: seq<string>, marks: seq<bool>): string
    requires |lines| == |marks|
  {
    if lines == [] then "" else lines[0] + (if marks[0] then "\r" else "") + "\n" + Lined(lines[1..], marks[1..])
  }

  function Returned(lines: seq<string>, marks: seq<bool>): seq<string>
    requires |lines| == |marks|
  {
    seq(|lines|, k requires 0 <= k < |lines| => lines[k] + if marks[k] then "\r" else "")
  }

  lemma {:induction false} LinedSplits(lines: seq<string>, marks: seq<bool>)
    requires |lines| == |marks| && forall k | 0 <= k < |lines| :: '\n' !in lines[k]
    ensures Split(Lined(lines, marks), '\n') == Returned(lines, marks) + [""]
    decreases |lines|
  {
    hide Split;
    if lines == [] {
      SplitNoSeparator("", '\n');
    } else {
      var first := lines[0] + if marks[0] then "\r" else "";
      LinedSplits(lines[1..], marks[1..]);
      SplitAt(first, Lined(lines[1..], marks[1..]), '\n');
      assert first + ['\n'] + Lined(lines[1..], marks[1..]) == Lined(lines, marks);
      assert Returned(lines, marks) == [first] + Returned(lines[1..], marks[1..]);
    }
  }

  /** The scanner reads such a text as its lines. */
  lemma {:induction false} LinesAreScanned(lines: seq<string>, marks: seq<bool>)
    requires |lines| == |marks|
    requires forall k | 0 <= k < |lines| :: '\n' !in lines[k] && (lines[k] == "" || lines[k][|lines[k]| - 1] != '\r')
    ensures ScannedLines(Lined(lines, marks)) == lines
  {
    hide Split;
    LinedSplits(lines, marks);
    assert (Returned(lines, marks) + [""])[..|lines|] == Returned(lines, marks);
    forall k | 0 <= k < |lines| ensures WithoutReturn(Returned(lines, marks)[k]) == lines[k] {
      assert (lines[k] + "\r")[..|lines[k]|] == lines[k];
      assert lines[k] + "" == lines[k];
    }
  }

  // ---------------------------------------------------------------------------
  // Fields of an entry
  // ---------------------------------------------------------------------------

  predicate LowerHex(c: char) {
    '0' <= c <= '9' || 'a' <= c <= 'f'
  }

  /** ValidSHA256 of "sha256:" and these digits. */
  predicate ValidDigits(s: string) {
    |s| == 64 && forall k | 0 <= k < |s| :: LowerHex(s[k])
  }

  const MAX_INT64 := 0x7FFF_FFFF_FFFF_FFFF

  predicate AllDigits(s: string) {
    s != [] && forall k | 0 <= k < |s| :: '0' <= s[k] <= '9'
  }

  /** strconv.ParseInt where its result is positive; None for an error and for anything else. */
  function PositiveInt(s: string): (r: Option<nat>)
    ensures r.Some? ==> 0 < r.value <= MAX_INT64
  {
    var digits := if s != [] && s[0] == '+' then s[1..] else s;
    if AllDigits(digits) && 0 < DecimalValue(digits) <= MAX_INT64 then Some(DecimalValue(digits)) else None
  }

  datatype Entry = Entry(digest: string, size: nat, path: string)

  /** A line of the SHA256 section, if it is a usable entry. */
  function EntryOf(line: string): Option<Entry> {
    var fields := Fields(line);
    if |fields| != 3 || !ValidDigits(fields[0]) || PositiveInt(fields[1]).None? then None
    else Some(Entry("sha256:" + fields[0], PositiveInt(fields[1]).value, fields[2]))
  }

  const CURRENT_PATH := "main/installer-amd64/current/images/SHA256SUMS"
  const MANIFEST_PREFIX := "main/installer-amd64/"
  const MANIFEST_SUFFIX := "/images/SHA256SUMS"

  /** The version in a path of the form main/installer-amd64/VERSION/images/SHA256SUMS. */
  function VersionIn(path: string): (r: Option<string>)
    ensures r.Some? ==> r.value != [] && '/' !in r.value && path == MANIFEST_PREFIX + r.value + MANIFEST_SUFFIX
  {
    if |path| <= |MANIFEST_PREFIX| + |MANIFEST_SUFFIX| || !HasPrefix(path, MANIFEST_PREFIX)
       || path[|path| - |MANIFEST_SUFFIX|..] != MANIFEST_SUFFIX
    then None
    else
      var version := path[|MANIFEST_PREFIX|..|path| - |MANIFEST_SUFFIX|];
      if '/' in version then None
      else
        assert path == MANIFEST_PREFIX + version + MANIFEST_SUFFIX;
        Some(version)
  }

  /** Every version without a slash is found in its path. */
  lemma {:induction false} VersionIsRead(version: string)
    requires version != [] && '/' !in version
    ensures VersionIn("main/installer-amd64/" + version + "/images/SHA256SUMS") == Some(version)
  {
    var path := MANIFEST_PREFIX + version + MANIFEST_SUFFIX;
    assert path[|path| - |MANIFEST_SUFFIX|..] == MANIFEST_SUFFIX;
    assert path[|MANIFEST_PREFIX|..|path| - |MANIFEST_SUFFIX|] == version;
  }

  lemma {:induction false} DigitsAreAField(s: string)
    requires |s| == 64 && forall k | 0 <= k < |s| :: '0' <= s[k] <= '9' || 'a' <= s[k] <= 'f'
    ensures Fields(s) == [s] && ValidDigits(s)
  {
    FieldsOfWord(s);
  }

  /** What is read as an entry has a SHA-256 digest in lower case and a positive size. */
  lemma {:induction false} EntryIsValid(line: string)
    requires EntryOf(line).Some?
    ensures var e := EntryOf(line).value;
      && |e.digest| == 71 && e.digest[..7] == "sha256:" && 0 < e.size <= MAX_INT64 && e.path != ""
      && forall k | 7 <= k < 71 :: '0' <= e.digest[k] <= '9' || 'a' <= e.digest[k] <= 'f'
  {
    hide PositiveInt;
    var digits := Fields(line)[0];
    assert forall k | 7 <= k < 71 :: ("sha256:" + digits)[k] == digits[k - 7];
  }

  lemma {:induction false} DecimalIsRead(n: nat)
    requires 0 < n <= MAX_INT64
    ensures PositiveInt(Decimal(n)) == Some(n) && Fields(Decimal(n)) == [Decimal(n)]
  {
    DecimalRoundTrip(n);
    FieldsOfWord(Decimal(n));
  }

  /** An entry with a valid digest, size and path is read as these. */
  lemma {:induction false} EntryIsRead(digits: string, size: nat, path: string)
    requires |digits| == 64 && forall k | 0 <= k < |digits| :: '0' <= digits[k] <= '9' || 'a' <= digits[k] <= 'f'
    requires 0 < size <= 0x7FFF_FFFF_FFFF_FFFF
    requires path != [] && forall k | 0 <= k < |path| :: !IsSpace(path[k])
    ensures EntryOf(" " + digits + " " + Decimal(size) + " " + path) == Some(Entry("sha256:" + digits, size, path))
  {
    hide Fields, IsSpace, PositiveInt, ValidDigits, Decimal;
    assert IsSpace(' ') by {
      BlankIsSpace();
    }
    DigitsAreAField(digits);
    DecimalIsRead(size);
    FieldsOfWord(path);
    var number := Decimal(size);
    var rest := digits + [' '] + number;
    assert " " + digits + " " + number + " " + path == [] + [' '] + (rest + [' '] + path);
    FieldsApart([], ' ', rest + [' '] + path);
    FieldsApart(rest, ' ', path);
    FieldsApart(digits, ' ', number);
    NothingHasNoFields();
    assert [] + ([digits] + [number] + [path]) == [digits, number, path];
  }

  lemma {:induction false} BlankIsSpace()
    ensures IsSpace(' ')
  {
  }

  lemma {:induction false} NothingHasNoFields()
    ensures Fields("") == []
  {
  }

  // ---------------------------------------------------------------------------
  // What a release file says
  // ---------------------------------------------------------------------------

  const VERSION := "Version: "
  const CODENAME := "Codename: "
  const SECTION := "SHA256:"

  predicate IsVersion(line: string) {
    HasPrefix(line, VERSION)
  }

  predicate IsCodename(line: string) {
    !IsVersion(line) && HasPrefix(line, CODENAME)
  }

  predicate OpensSection(line: string) {
    !IsVersion(line) && !IsCodename(line) && line == SECTION
  }

  /** A line that is none of the known ones ends the SHA256 section. */
  predicate EndsSection(line: string) {
    !IsVersion(line) && !IsCodename(line) && line != SECTION && !HasPrefix(line, " ") && line != ""
  }

  /** Line `k` comes after a "SHA256:" line that no line in between has ended. */
  ghost predicate InSection(lines: seq<string>, k: nat)
    requires k <= |lines|
  {
    exists j :: 0 <= j < k && OpensSection(lines[j]) && forall i :: j < i < k ==> !EndsSection(lines[i])
  }

  /** The entry on line `k`, where one is. */
  ghost function EntryAt(lines: seq<string>, k: nat): Option<Entry>
    requires k < |lines|
  {
    if InSection(lines, k) && HasPrefix(lines[k], " ") && !IsVersion(lines[k]) && !IsCodename(lines[k])
    then EntryOf(lines[k]) else None
  }

  /** The value is that of the last version line, or empty where there is none. */
  ghost predicate LastVersion(lines: seq<string>, n: nat, value: string)
    requires n <= |lines|
  {
    || (value == "" && forall k :: 0 <= k < n ==> !IsVersion(lines[k]))
    || exists k :: 0 <= k < n && IsVersion(lines[k]) && value == Trim(lines[k][|VERSION|..])
                   && forall j :: k < j < n ==> !IsVersion(lines[j])
  }

  ghost predicate LastCodename(lines: seq<string>, n: nat, value: string)
    requires n <= |lines|
  {
    || (value == "" && forall k :: 0 <= k < n ==> !IsCodename(lines[k]))
    || exists k :: 0 <= k < n && IsCodename(lines[k]) && value == Trim(lines[k][|CODENAME|..])
                   && forall j :: k < j < n ==> !IsCodename(lines[j])
  }

  ghost predicate IsCurrent(lines: seq<string>, k: nat)
    requires k < |lines|
  {
    EntryAt(lines, k).Some? && EntryAt(lines, k).value.path == CURRENT_PATH
  }

  /** The last entry for the current path among the first `n` lines, if there is one. */
  ghost predicate LastCurrent(lines: seq<string>, n: nat, current: Option<Entry>)
    requires n <= |lines|
  {
    if current.None? then forall k :: 0 <= k < n ==> !IsCurrent(lines, k)
    else exists k :: 0 <= k < n && IsCurrent(lines, k) && EntryAt(lines, k) == current
                     && forall j :: k < j < n ==> !IsCurrent(lines, j)
  }

  datatype Manifest = Manifest(version: string, digest: string, size: nat)

  /** The versioned manifest that an entry describes, if it describes one. */
  function ManifestOf(entry: Option<Entry>): Option<Manifest> {
    if entry.None? then None
    else
      var version := VersionIn(entry.value.path);
      if version.None? || version.value == "current" then None
      else Some(Manifest(version.value, entry.value.digest, entry.value.size))
  }

  ghost predicate Listed(lines: seq<string>, n: nat, m: Manifest)
    requires n <= |lines|
  {
    exists k :: 0 <= k < n && ManifestOf(EntryAt(lines, k)) == Some(m)
  }

  datatype ReleaseInfo = ReleaseInfo(releaseVersion: string, installerVersion: string, manifestDigest: string, manifestSize: nat)

  /** What a release file has to say: it is Debian 13 trixie, its last current entry has a digest and a size, and there
      is exactly one version whose manifest has the same. */
  ghost predicate Describes(lines: seq<string>, info: ReleaseInfo) {
    && LastCodename(lines, |lines|, "trixie")
    && LastVersion(lines, |lines|, info.releaseVersion) && HasPrefix(info.releaseVersion, "13.")
    && LastCurrent(lines, |lines|, Some(Entry(info.manifestDigest, info.manifestSize, CURRENT_PATH)))
    && Listed(lines, |lines|, Manifest(info.installerVersion, info.manifestDigest, info.manifestSize))
    && forall v | Listed(lines, |lines|, Manifest(v, info.manifestDigest, info.manifestSize)) :: v == info.installerVersion
  }

  // --- one line more ---

  lemma {:induction false} SectionStep(lines: seq<string>, k: nat)
    requires k < |lines|
    ensures InSection(lines, k + 1) <==> OpensSection(lines[k]) || (InSection(lines, k) && !EndsSection(lines[k]))
  {
    hide OpensSection, EndsSection;
    if InSection(lines, k) && !EndsSection(lines[k]) {
      var j :| 0 <= j < k && OpensSection(lines[j]) && forall i :: j < i < k ==> !EndsSection(lines[i]);
      assert forall i :: j < i < k + 1 ==> !EndsSection(lines[i]);
    }
  }

  lemma {:induction false} VersionStep(lines: seq<string>, k: nat, value: string)
    requires k < |lines| && LastVersion(lines, k, value)
    ensures LastVersion(lines, k + 1, if IsVersion(lines[k]) then Trim(lines[k][|VERSION|..]) else value)
  {
    hide IsVersion, Trim;
  }

  lemma {:induction false} CodenameStep(lines: seq<string>, k: nat, value: string)
    requires k < |lines| && LastCodename(lines, k, value)
    ensures LastCodename(lines, k + 1, if IsCodename(lines[k]) then Trim(lines[k][|CODENAME|..]) else value)
  {
    hide IsCodename, Trim;
  }

  lemma {:induction false} CurrentStep(lines: seq<string>, k: nat, current: Option<Entry>)
    requires k < |lines| && LastCurrent(lines, k, current)
    ensures LastCurrent(lines, k + 1, if IsCurrent(lines, k) then EntryAt(lines, k) else current)
  {
    hide EntryAt;
  }

  lemma {:induction false} ListedStep(lines: seq<string>, k: nat, m: Manifest)
    requires k < |lines|
    ensures Listed(lines, k + 1, m) <==> Listed(lines, k, m) || ManifestOf(EntryAt(lines, k)) == Some(m)
  {
    hide EntryAt, ManifestOf;
  }

  // ---------------------------------------------------------------------------
  // The parsers
  // ---------------------------------------------------------------------------

  /** The loop over the lines. */
  method ScanRelease(lines: seq<string>)
    returns (version: string, codename: string, current: Option<Entry>, candidates: seq<Manifest>)
    ensures LastVersion(lines, |lines|, version) && LastCodename(lines, |lines|, codename)
    ensures LastCurrent(lines, |lines|, current)
    ensures forall m :: m in candidates <==> Listed(lines, |lines|, m)
  {
    hide LastVersion, LastCodename, LastCurrent, Listed, InSection, EntryOf, ManifestOf, Trim;
    version, codename, current, candidates := "", "", None, [];
    var inSection := false;
    ScanStarts(lines);
    for k := 0 to |lines|
      invariant LastVersion(lines, k, version) && LastCodename(lines, k, codename)
      invariant inSection == InSection(lines, k)
      invariant LastCurrent(lines, k, current)
      invariant forall m :: m in candidates <==> Listed(lines, k, m)
    {
      var line := lines[k];
      SectionStep(lines, k);
      VersionStep(lines, k, version);
      CodenameStep(lines, k, codename);
      CurrentStep(lines, k, current);
      forall m ensures Listed(lines, k + 1, m) <==> Listed(lines, k, m) || ManifestOf(EntryAt(lines, k)) == Some(m) {
        ListedStep(lines, k, m);
      }
      NoManifestOfNone();
      assert SECTION[0] != ' ';
      if HasPrefix(line, VERSION) {
        version := Trim(line[|VERSION|..]);
      } else if HasPrefix(line, CODENAME) {
        codename := Trim(line[|CODENAME|..]);
      } else if line == SECTION {
        inSection := true;
      } else if inSection && HasPrefix(line, " ") {
        var entry := EntryOf(line);
        if entry.Some? {
          if entry.value.path == CURRENT_PATH {
            current := entry;
          }
          var manifest := ManifestOf(entry);
          if manifest.Some? {
            candidates := candidates + [manifest.value];
          }
        }
      } else if inSection && line != "" {
        inSection := false;
      }
    }
  }

  lemma {:induction false} ScanStarts(lines: seq<string>)
    ensures LastVersion(lines, 0, "") && LastCodename(lines, 0, "") && LastCurrent(lines, 0, None)
    ensures !InSection(lines, 0) && forall m :: !Listed(lines, 0, m)
  {
  }

  lemma {:induction false} NoManifestOfNone()
    ensures ManifestOf(None).None?
  {
  }

  lemma {:induction false} VersionIsUnique(lines: seq<string>, a: string, b: string)
    requires LastVersion(lines, |lines|, a) && LastVersion(lines, |lines|, b)
    ensures a == b
  {
    hide IsVersion, Trim;
  }

  lemma {:induction false} CodenameIsUnique(lines: seq<string>, a: string, b: string)
    requires LastCodename(lines, |lines|, a) && LastCodename(lines, |lines|, b)
    ensures a == b
  {
    hide IsCodename, Trim;
  }

  lemma {:induction false} CurrentIsUnique(lines: seq<string>, a: Option<Entry>, b: Option<Entry>)
    requires LastCurrent(lines, |lines|, a) && LastCurrent(lines, |lines|, b)
    ensures a == b
  {
    hide IsCurrent, EntryAt;
  }

  /** A text describes at most one release. */
  lemma {:induction false} DescriptionIsUnique(lines: seq<string>, a: ReleaseInfo, b: ReleaseInfo)
    requires Describes(lines, a) && Describes(lines, b)
    ensures a == b
  {
    hide LastVersion, LastCodename, LastCurrent, Listed;
    VersionIsUnique(lines, a.releaseVersion, b.releaseVersion);
    var first := Entry(a.manifestDigest, a.manifestSize, CURRENT_PATH);
    var second := Entry(b.manifestDigest, b.manifestSize, CURRENT_PATH);
    CurrentIsUnique(lines, Some(first), Some(second));
  }

  lemma {:induction false} CurrentHasPath(lines: seq<string>, current: Option<Entry>)
    requires LastCurrent(lines, |lines|, current)
    ensures current.Some? ==> current.value.path == CURRENT_PATH
  {
    hide InSection;
  }

  lemma {:induction false} CandidateHasVersion(lines: seq<string>, m: Manifest)
    requires Listed(lines, |lines|, m)
    ensures m.version != []
  {
    hide InSection, EntryAt;
  }

  /** The version of the candidates that match, where all that match agree on one. */
  ghost predicate TheVersion(candidates: seq<Manifest>, current: Entry, version: string) {
    && Manifest(version, current.digest, current.size) in candidates
    && forall v | Manifest(v, current.digest, current.size) in candidates :: v == version
  }

  /** The second loop: one matching version, or none where there is no match or where two differ. */
  method MatchVersion(candidates: seq<Manifest>, current: Entry) returns (version: Option<string>)
    requires forall m | m in candidates :: m.version != ""
    ensures version.Some? ==> TheVersion(candidates, current, version.value)
    ensures version.None? ==> forall v :: !TheVersion(candidates, current, v)
  {
    var installer := "";
    for k := 0 to |candidates|
      invariant installer == "" ==> forall v :: Manifest(v, current.digest, current.size) !in candidates[..k]
      invariant installer != "" ==> TheVersion(candidates[..k], current, installer)
    {
      var candidate := candidates[k];
      assert candidates[..k + 1] == candidates[..k] + [candidate] && candidate in candidates;
      if candidate.digest == current.digest && candidate.size == current.size {
        assert candidate == Manifest(candidate.version, current.digest, current.size);
        if installer != "" && installer != candidate.version {
          assert Manifest(installer, current.digest, current.size) in candidates;
          return None;
        }
        installer := candidate.version;
      }
    }
    assert candidates[..|candidates|] == candidates;
    return if installer == "" then None else Some(installer);
  }

  lemma {:induction false} DescribesExactly(
    lines: seq<string>, version: string, codename: string, current: Option<Entry>, candidates: seq<Manifest>)
    requires LastVersion(lines, |lines|, version) && LastCodename(lines, |lines|, codename)
    requires LastCurrent(lines, |lines|, current) && forall m :: m in candidates <==> Listed(lines, |lines|, m)
    ensures forall info :: Describes(lines, info) <==>
      && codename == "trixie" && version == info.releaseVersion && HasPrefix(version, "13.")
      && current == Some(Entry(info.manifestDigest, info.manifestSize, CURRENT_PATH))
      && TheVersion(candidates, current.value, info.installerVersion)
  {
    hide LastVersion, LastCodename, LastCurrent, Listed;
    forall info | Describes(lines, info)
      ensures codename == "trixie" && version == info.releaseVersion
      ensures current == Some(Entry(info.manifestDigest, info.manifestSize, CURRENT_PATH))
    {
      VersionIsUnique(lines, version, info.releaseVersion);
      CodenameIsUnique(lines, codename, "trixie");
      CurrentIsUnique(lines, current, Some(Entry(info.manifestDigest, info.manifestSize, CURRENT_PATH)));
    }
  }

  /** parseRelease: it succeeds exactly on the texts that describe a release, with what they describe. */
  method ParseRelease(text: string) returns (r: Result<ReleaseInfo>)
    ensures r.Ok? ==> Scannable(text) && Describes(ScannedLines(text), r.value)
    ensures r.Err? ==> !(Scannable(text) && exists info :: Describes(ScannedLines(text), info))
  {
    hide Describes, LastVersion, LastCodename, LastCurrent, Listed, Scannable, ScannedLines, TheVersion;
    if !Scannable(text) {
      return Err(ArtifactTrustFailed);
    }
    var lines := ScannedLines(text);
    var version, codename, current, candidates := ScanRelease(lines);
    DescribesExactly(lines, version, codename, current, candidates);
    CurrentHasPath(lines, current);
    if codename != "trixie" || !HasPrefix(version, "13.") {
      return Err(ArtifactTrustFailed);
    }
    if current.None? {
      return Err(ArtifactTrustFailed);
    }
    forall m | m in candidates ensures m.version != "" {
      CandidateHasVersion(lines, m);
    }
    var installer := MatchVersion(candidates, current.value);
    if installer.None? {
      return Err(ArtifactTrustFailed);
    }
    return Ok(ReleaseInfo(version, installer.value, current.value.digest, current.value.size));
  }

  // --- the checksum manifest ---

  datatype Checksum = Checksum(path: string, digest: string)

  function TrimDot(path: string): string {
    if HasPrefix(path, "./") then path[2..] else path
  }

  /** One line of SHA256SUMS; None where it is malformed. */
  function ChecksumOf(line: string): Option<Checksum> {
    var fields := Fields(line);
    if |fields| != 2 || !ValidDigits(fields[0]) then None
    else
      var path := TrimDot(fields[1]);
      if path == "" || Contains(path, "..") then None else Some(Checksum(path, "sha256:" + fields[0]))
  }

  /** A checksum line with a valid digest is read as that and its path, without the leading dot. */
  lemma {:induction false} ChecksumIsRead(digits: string, path: string)
    requires |digits| == 64 && forall k | 0 <= k < |digits| :: '0' <= digits[k] <= '9' || 'a' <= digits[k] <= 'f'
    requires path != [] && (forall k | 0 <= k < |path| :: !IsSpace(path[k])) && !Contains(path, "..")
    ensures ChecksumOf(digits + "  ./" + path) == Some(Checksum(path, "sha256:" + digits))
  {
    hide Fields, IsSpace, ValidDigits, Contains;
    BlankIsSpace();
    DigitsAreAField(digits);
    var dotted := "./" + path;
    assert dotted[2..] == path;
    DottedIsAField(path);
    assert digits + "  ./" + path == digits + [' '] + ([] + [' '] + dotted);
    FieldsApart(digits, ' ', [] + [' '] + dotted);
    FieldsApart([], ' ', dotted);
    NothingHasNoFields();
    assert [digits] + ([] + [dotted]) == [digits, dotted];
  }

  lemma {:induction false} DottedIsAField(path: string)
    requires forall k | 0 <= k < |path| :: !IsSpace(path[k])
    ensures Fields("./" + path) == ["./" + path]
  {
    hide Fields;
    var dotted := "./" + path;
    assert forall k | 2 <= k < |dotted| :: dotted[k] == path[k - 2];
    FieldsOfWord(dotted);
  }

  /** Every line is an entry, and no path is listed twice. */
  ghost predicate WellFormed(lines: seq<string>) {
    && (forall k | 0 <= k < |lines| :: ChecksumOf(lines[k]).Some?)
    && forall j, k | 0 <= j < k < |lines| :: ChecksumOf(lines[j]).value.path != ChecksumOf(lines[k]).value.path
  }

  ghost predicate Lists(lines: seq<string>, path: string, digest: string) {
    exists k :: 0 <= k < |lines| && ChecksumOf(lines[k]) == Some(Checksum(path, digest))
  }

  /** parseSHA256SUMS: it succeeds exactly on well-formed manifests, with what they list. */
  method ParseChecksums(text: string) returns (r: Result<map<string, string>>)
    ensures r.Ok? <==> Scannable(text) && WellFormed(ScannedLines(text))
    ensures r.Ok? ==> forall path, digest ::
      (path in r.value && r.value[path] == digest) <==> Lists(ScannedLines(text), path, digest)
  {
    hide ChecksumOf, Scannable, ScannedLines;
    if !Scannable(text) {
      return Err(ArtifactTrustFailed);
    }
    var lines := ScannedLines(text);
    var checksums: map<string, string> := map[];
    for k := 0 to |lines|
      invariant WellFormed(lines[..k])
      invariant forall path, digest :: (path in checksums && checksums[path] == digest) <==> Lists(lines[..k], path, digest)
    {
      var entry := ChecksumOf(lines[k]);
      assert lines[..k + 1] == lines[..k] + [lines[k]];
      if entry.None? {
        return Err(ArtifactTrustFailed);
      }
      if entry.value.path in checksums {
        assert Lists(lines[..k], entry.value.path, checksums[entry.value.path]);
        return Err(ArtifactTrustFailed);
      }
      ListsOneMore(lines[..k], lines[k], entry.value);
      AbsentPath(lines[..k], checksums, entry.value.path);
      checksums := checksums[entry.value.path := entry.value.digest];
    }
    assert lines[..|lines|] == lines;
    return Ok(checksums);
  }

  lemma {:induction false} ListsOneMore(lines: seq<string>, line: string, entry: Checksum)
    requires ChecksumOf(line) == Some(entry)
    ensures forall path, digest ::
      Lists(lines + [line], path, digest) <==> Lists(lines, path, digest) || Checksum(path, digest) == entry
  {
    hide ChecksumOf;
    var longer := lines + [line];
    assert longer[|lines|] == line;
    forall path, digest | Lists(lines, path, digest) ensures Lists(longer, path, digest) {
      var k :| 0 <= k < |lines| && ChecksumOf(lines[k]) == Some(Checksum(path, digest));
      assert longer[k] == lines[k];
    }
  }

  lemma {:induction false} AbsentPath(lines: seq<string>, checksums: map<string, string>, path: string)
    requires path !in checksums && WellFormed(lines)
    requires forall path, digest :: (path in checksums && checksums[path] == digest) <==> Lists(lines, path, digest)
    ensures forall k | 0 <= k < |lines| :: ChecksumOf(lines[k]).value.path != path
  {
    hide ChecksumOf;
    forall k | 0 <= k < |lines| ensures ChecksumOf(lines[k]).value.path != path {
      assert Lists(lines, ChecksumOf(lines[k]).value.path, ChecksumOf(lines[k]).value.digest);
    }
  }

  // ---------------------------------------------------------------------------
  // URLs, as far as https URLs go
  // ---------------------------------------------------------------------------

  datatype Url = Url(host: string, user: bool, query: string, fragment: string, rawPath: string, path: seq<Byte>)

  function Before(s: string, c: char): (r: string)
    ensures c !in r && r <= s
  {
    if s == [] || s[0] == c then [] else [s[0]] + Before(s[1..], c)
  }

  /** What follows the first occurrence, without it. */
  function After(s: string, c: char): string {
    var n := |Before(s, c)|;
    if n < |s| then s[n + 1..] else []
  }

  const HTTPS := "https://"

  /** url.Parse of an https URL: fragment, query, authority and path, in that order. */
  function ParseUrl(raw: string): Option<Url> {
    if !HasPrefix(raw, HTTPS) || (exists k | 0 <= k < |raw| :: Control(raw[k])) then None
    else
      var rest := raw[|HTTPS|..];
      var unfragmented := Before(rest, '#');
      var hierarchy := Before(unfragmented, '?');
      var authority := Before(hierarchy, '/');
      var rawPath := hierarchy[|authority|..];
      var path := Unescape(rawPath);
      if path.None? then None
      else
        var host := if '@' in authority then After(authority, '@') else authority;
        Some(Url(host, '@' in authority, After(unfragmented, '?'), After(rest, '#'), rawPath, path.value))
  }

  lemma {:induction false} BeforeNothing(s: string, c: char)
    requires c !in s
    ensures Before(s, c) == s && After(s, c) == []
  {
    if s != [] {
      BeforeNothing(s[1..], c);
      assert s == [s[0]] + s[1..];
    }
  }

  lemma {:induction false} BeforeFirst(a: string, b: string, c: char)
    requires c !in a && b != [] && b[0] == c
    ensures Before(a + b, c) == a
    decreases |a|
  {
    if a == [] {
      assert a + b == b;
    } else {
      assert (a + b)[1..] == a[1..] + b;
      BeforeFirst(a[1..], b, c);
      assert a == [a[0]] + a[1..];
    }
  }

  predicate PlainUrlText(s: string) {
    forall k | 0 <= k < |s| :: s[k] != '#' && s[k] != '?' && !Control(s[k])
  }

  /** A URL of nothing but a host and a path is read as that host and that path, decoded. */
  lemma {:induction false} ParsePlainUrl(host: string, rawPath: string)
    requires PlainUrlText(host) && PlainUrlText(rawPath) && '/' !in host && '@' !in host
    requires rawPath != [] && rawPath[0] == '/' && Unescape(rawPath).Some?
    ensures ParseUrl(HTTPS + host + rawPath) == Some(Url(host, false, "", "", rawPath, Unescape(rawPath).value))
  {
    hide Unescape;
    var raw, rest := HTTPS + host + rawPath, host + rawPath;
    assert raw == HTTPS + rest && raw[|HTTPS|..] == rest;
    assert PlainUrlText(HTTPS);
    assert PlainUrlText(rest);
    BeforeNothing(rest, '#');
    BeforeNothing(rest, '?');
    BeforeFirst(host, rawPath, '/');
    assert rest[|host|..] == rawPath;
  }

  // ---------------------------------------------------------------------------
  // Artifacts
  // ---------------------------------------------------------------------------

  datatype Descriptor = Descriptor(
    id: string, name: string, sourceUrl: string, version: string, digest: string, size: nat, provenance: string)

  predicate ValidDigest(digest: string) {
    HasPrefix(digest, "sha256:") && ValidDigits(digest[7..])
  }

  /** Descriptor.Validate; lengths are of the UTF-8 form. */
  predicate ValidDescriptor(d: Descriptor) {
    && !Blank(d.id) && !Blank(d.name) && !Blank(d.sourceUrl) && !Blank(d.version) && !Blank(d.provenance)
    && |Utf8(d.id)| <= 128 && |Utf8(d.name)| <= 128 && |Utf8(d.version)| <= 128
    && |Utf8(d.provenance)| <= 256 && |Utf8(d.sourceUrl)| <= 2048
    && ParseUrl(d.sourceUrl).Some? && ParseUrl(d.sourceUrl).value.host != "" && !ParseUrl(d.sourceUrl).value.user
    && ValidDigest(d.digest) && d.size > 0
  }

  /** Text that a URL takes as it is. */
  predicate SegmentText(s: string) {
    PlainUrlText(s) && '%' !in s
  }

  type UrlText = s: string | SegmentText(s)

  const TRUSTED := "debian:trixie:"
  const DEBIAN_HOST: UrlText := "deb.debian.org"
  const DEBIAN_DIR: UrlText := "/debian"
  const INSTALLER_DIR: UrlText := "/dists/trixie/main/" + "installer-amd64/"
  const IMAGES_DIR: UrlText := "/images"
  const SLASH: UrlText := "/"
  const NETBOOT: UrlText := "netboot/" + "debian-installer/amd64/"
  const INSTALLER_PATH: UrlText := DEBIAN_DIR + INSTALLER_DIR
  const IMAGES: UrlText := IMAGES_DIR + SLASH

  /** validateDebianArtifactSource */
  predicate SourceFits(d: Descriptor, name: string) {
    var u := ParseUrl(d.sourceUrl);
    && u.Some? && u.value.host == DEBIAN_HOST && !u.value.user && u.value.query == "" && u.value.fragment == ""
    && var expected := INSTALLER_PATH + d.version + IMAGES + NETBOOT + name;
      u.value.rawPath == expected || u.value.path == Utf8(expected)
  }

  ghost predicate OnlyOne(artifacts: seq<Descriptor>, name: string, d: Descriptor) {
    exists k :: 0 <= k < |artifacts| && artifacts[k] == d && d.name == name
                && forall j :: 0 <= j < |artifacts| && j != k ==> artifacts[j].name != name
  }

  /** requiredArtifact: the one artifact of that name, if it comes from Debian trixie. */
  method RequiredArtifact(artifacts: seq<Descriptor>, name: string) returns (r: Option<Descriptor>)
    ensures r.Some? ==> OnlyOne(artifacts, name, r.value) && HasPrefix(r.value.provenance, TRUSTED)
    ensures r.None? ==> forall d | OnlyOne(artifacts, name, d) :: !HasPrefix(d.provenance, TRUSTED)
  {
    var found: Option<Descriptor> := None;
    var count := 0;
    for k := 0 to |artifacts|
      invariant count == 0 ==> forall j :: 0 <= j < k ==> artifacts[j].name != name
      invariant count >= 1 ==> found.Some?
      invariant count == 1 ==> OnlyOne(artifacts[..k], name, found.value)
      invariant count >= 2 ==> Repeated(artifacts[..k], name)
      invariant count >= 0
    {
      assert artifacts[..k + 1] == artifacts[..k] + [artifacts[k]];
      if artifacts[k].name == name {
        if count >= 1 {
          NameOccurs(artifacts, name, k, count, found);
        }
        found := Some(artifacts[k]);
        count := count + 1;
      } else if count >= 2 {
        RepeatedStays(artifacts[..k], artifacts[k], name);
      }
    }
    assert artifacts[..|artifacts|] == artifacts;
    if count != 1 || !HasPrefix(found.value.provenance, TRUSTED) {
      return None;
    }
    return found;
  }

  ghost predicate Repeated(artifacts: seq<Descriptor>, name: string) {
    exists i, j :: 0 <= i < j < |artifacts| && artifacts[i].name == name && artifacts[j].name == name
  }

  lemma {:induction false} RepeatedStays(artifacts: seq<Descriptor>, d: Descriptor, name: string)
    requires Repeated(artifacts, name)
    ensures Repeated(artifacts + [d], name)
  {
    var i, j :| 0 <= i < j < |artifacts| && artifacts[i].name == name && artifacts[j].name == name;
    assert (artifacts + [d])[i] == artifacts[i] && (artifacts + [d])[j] == artifacts[j];
  }

  lemma {:induction false} NameOccurs(
    artifacts: seq<Descriptor>, name: string, k: nat, count: int, found: Option<Descriptor>)
    requires k < |artifacts| && artifacts[k].name == name && count >= 1 && found.Some?
    requires count == 1 ==> OnlyOne(artifacts[..k], name, found.value)
    requires count >= 2 ==> Repeated(artifacts[..k], name)
    ensures Repeated(artifacts[..k + 1], name)
  {
    var front, longer := artifacts[..k], artifacts[..k + 1];
    assert longer[k] == artifacts[k];
    if count == 1 {
      var i :| 0 <= i < |front| && front[i] == found.value && found.value.name == name;
      assert longer[i] == front[i];
    } else {
      var i, j :| 0 <= i < j < |front| && front[i].name == name && front[j].name == name;
      assert longer[i] == front[i] && longer[j] == front[j];
    }
  }

  const KERNEL: UrlText := "linux"
  const INITRD: UrlText := "initrd.gz"
  const SHIM: UrlText := "bootnetx64.efi"

  ghost predicate Trusts(artifacts: seq<Descriptor>, name: string, d: Descriptor) {
    OnlyOne(artifacts, name, d) && HasPrefix(d.provenance, TRUSTED) && SourceFits(d, name)
  }

  /** What ValidateSpec asks of the artifacts of an installation: one kernel and one initrd, and under the current
      driver contract one shim, all pinned to the same installer, each from its place on the Debian mirror, and nothing
      else. */
  ghost predicate DriverAccepts(artifacts: seq<Descriptor>, current: bool) {
    && |artifacts| == (if current then 3 else 2)
    && exists kernel, initrd ::
      && Trusts(artifacts, KERNEL, kernel) && Trusts(artifacts, INITRD, initrd) && SamePin(kernel, initrd)
      && (current ==> exists shim :: Trusts(artifacts, SHIM, shim) && SamePin(kernel, shim))
  }

  predicate SamePin(a: Descriptor, b: Descriptor) {
    a.version == b.version && a.provenance == b.provenance
  }

  lemma {:induction false} TrustedIsThere(artifacts: seq<Descriptor>, name: string, d: Descriptor) returns (k: nat)
    requires Trusts(artifacts, name, d)
    ensures k < |artifacts| && artifacts[k] == d && d.name == name && HasPrefix(d.provenance, "debian:trixie:")
  {
    hide SourceFits;
    k :| 0 <= k < |artifacts| && artifacts[k] == d && d.name == name
         && forall j :: 0 <= j < |artifacts| && j != k ==> artifacts[j].name != name;
  }

  lemma {:induction false} NamesAreDifferent()
    ensures KERNEL != INITRD && KERNEL != SHIM && INITRD != SHIM
  {
    assert |KERNEL| == 5 && |INITRD| == 9 && |SHIM| == 14;
  }

  /** All artifacts that are accepted have one version and one provenance, from Debian trixie, and different names. */
  lemma {:induction false} AcceptedArePinned(artifacts: seq<Descriptor>, current: bool, j: nat, k: nat)
    requires DriverAccepts(artifacts, current) && j < |artifacts| && k < |artifacts|
    ensures artifacts[j].version == artifacts[k].version && artifacts[j].provenance == artifacts[k].provenance
    ensures HasPrefix(artifacts[j].provenance, "debian:trixie:")
    ensures artifacts[j].name in ["linux", "initrd.gz"] + if current then ["bootnetx64.efi"] else []
    ensures j != k ==> artifacts[j].name != artifacts[k].name
  {
    hide Trusts;
    NamesAreDifferent();
    var kernel, initrd :| Trusts(artifacts, KERNEL, kernel) && Trusts(artifacts, INITRD, initrd) && SamePin(kernel, initrd)
      && (current ==> exists shim :: Trusts(artifacts, SHIM, shim) && SamePin(kernel, shim));
    var a := TrustedIsThere(artifacts, KERNEL, kernel);
    var b := TrustedIsThere(artifacts, INITRD, initrd);
    if current {
      var shim :| Trusts(artifacts, SHIM, shim) && SamePin(kernel, shim);
      var c := TrustedIsThere(artifacts, SHIM, shim);
      assert {j, k} <= {a, b, c};
    } else {
      assert {j, k} <= {a, b};
    }
  }

  lemma {:induction false} OnlyOneIsUnique(artifacts: seq<Descriptor>, name: string, a: Descriptor, b: Descriptor)
    requires OnlyOne(artifacts, name, a) && OnlyOne(artifacts, name, b)
    ensures a == b
  {
  }

  lemma {:induction false} TrustedIsOnlyOne(artifacts: seq<Descriptor>, name: string, found: Option<Descriptor>)
    requires found.Some? ==> OnlyOne(artifacts, name, found.value) && HasPrefix(found.value.provenance, TRUSTED)
    requires found.None? ==> forall d | OnlyOne(artifacts, name, d) :: !HasPrefix(d.provenance, TRUSTED)
    ensures forall d | Trusts(artifacts, name, d) :: found == Some(d)
  {
    hide SourceFits;
    forall d | Trusts(artifacts, name, d) ensures found == Some(d) {
      if found.Some? {
        OnlyOneIsUnique(artifacts, name, found.value, d);
      }
    }
  }

  /** The artifact part of ValidateSpec; `current` says that the specification names the current driver version. */
  method ValidateArtifacts(artifacts: seq<Descriptor>, current: bool) returns (ok: bool)
    ensures ok <==> DriverAccepts(artifacts, current)
  {
    hide OnlyOne, SourceFits;
    var wanted := if current then 3 else 2;
    if |artifacts| != wanted {
      return false;
    }
    var kernel := RequiredArtifact(artifacts, KERNEL);
    TrustedIsOnlyOne(artifacts, KERNEL, kernel);
    var initrd := RequiredArtifact(artifacts, INITRD);
    TrustedIsOnlyOne(artifacts, INITRD, initrd);
    if kernel.None? || initrd.None? || !SamePin(kernel.value, initrd.value) {
      return false;
    }
    if !SourceFits(kernel.value, KERNEL) || !SourceFits(initrd.value, INITRD) {
      return false;
    }
    assert Trusts(artifacts, KERNEL, kernel.value) && Trusts(artifacts, INITRD, initrd.value);
    if current {
      ok := ValidateShim(artifacts, kernel.value);
      return;
    }
    return true;
  }

  method ValidateShim(artifacts: seq<Descriptor>, kernel: Descriptor) returns (ok: bool)
    ensures ok <==> exists shim :: Trusts(artifacts, SHIM, shim) && SamePin(kernel, shim)
  {
    hide OnlyOne, SourceFits;
    var shim := RequiredArtifact(artifacts, SHIM);
    TrustedIsOnlyOne(artifacts, SHIM, shim);
    if shim.None? || !SamePin(kernel, shim.value) || !SourceFits(shim.value, SHIM) {
      return false;
    }
    assert Trusts(artifacts, SHIM, shim.value);
    return true;
  }

  // --- the resolver ---

  const IN_RELEASE := "/dists/trixie/InRelease"
  const BASE_URL := HTTPS + DEBIAN_HOST + DEBIAN_DIR
  const MAX_MANIFEST := 2 * 1024 * 1024

  function ImagesBase(version: string): string {
    BASE_URL + INSTALLER_DIR + PathEscape(version) + IMAGES_DIR
  }

  function Provenance(info: ReleaseInfo): string {
    TRUSTED + "release=" + info.releaseVersion + ":installer=" + info.installerVersion
  }

  /** VerifyContent, under a hash. */
  predicate VerifiedContent(d: Descriptor, content: string, sha256: string -> string) {
    ValidDescriptor(d) && |content| == d.size && sha256(content) == d.digest
  }

  /** fetchArtifact: `fetch` is what the mirror answers. */
  method FetchArtifact(
    info: ReleaseInfo, id: string, name: string, checksums: map<string, string>,
    fetch: string -> Option<string>, sha256: string -> string) returns (r: Result<Descriptor>)
    ensures r.Ok? ==>
      && r.value.name == name && r.value.version == info.installerVersion && r.value.provenance == Provenance(info)
      && r.value.sourceUrl == ImagesBase(info.installerVersion) + SLASH + NETBOOT + name
      && NETBOOT + name in checksums && r.value.digest == checksums[NETBOOT + name]
      && fetch(r.value.sourceUrl).Some? && VerifiedContent(r.value, fetch(r.value.sourceUrl).value, sha256)
  {
    hide ValidDescriptor;
    var path := NETBOOT + name;
    if path !in checksums {
      return Err(ArtifactTrustFailed);
    }
    var sourceUrl := ImagesBase(info.installerVersion) + SLASH + path;
    var content := fetch(sourceUrl);
    if content.None? {
      return Err(ArtifactFetchFailed);
    }
    var d := Descriptor(id, name, sourceUrl, info.installerVersion, checksums[path], |content.value|, Provenance(info));
    assert sourceUrl == ImagesBase(info.installerVersion) + SLASH + NETBOOT + name;
    if !VerifiedContent(d, content.value, sha256) {
      return Err(ArtifactHashMismatch);
    }
    return Ok(d);
  }

  /** From the signed release to one artifact: the release describes the manifest, the manifest lists the digest, and
      the content has it. */
  ghost predicate Anchored(
    release: string, info: ReleaseInfo, manifest: string, d: Descriptor, fetch: string -> Option<string>, sha256: string -> string)
  {
    && Describes(ScannedLines(release), info)
    && sha256(manifest) == info.manifestDigest && |manifest| == info.manifestSize
    && Lists(ScannedLines(manifest), NETBOOT + d.name, d.digest)
    && fetch(d.sourceUrl).Some? && VerifiedContent(d, fetch(d.sourceUrl).value, sha256)
  }

  ghost predicate Verified(fetch: string -> Option<string>, verify: string -> Option<string>, release: string) {
    var signed := fetch(BASE_URL + IN_RELEASE);
    signed.Some? && verify(signed.value) == Some(release)
  }

  /** Resolve: the verified release names the manifest, the manifest names the contents. `verify` is what gpgv makes of
      the signed file. Whatever it returns, the driver accepts. */
  method Resolve(fetch: string -> Option<string>, verify: string -> Option<string>, sha256: string -> string)
    returns (r: Result<(Descriptor, Descriptor, Descriptor)>)
    ensures r.Ok? ==> DriverAccepts([r.value.0, r.value.1, r.value.2], true)
    ensures r.Ok? ==> exists release, info, manifest ::
      && Verified(fetch, verify, release)
      && Anchored(release, info, manifest, r.value.0, fetch, sha256)
      && Anchored(release, info, manifest, r.value.1, fetch, sha256)
      && Anchored(release, info, manifest, r.value.2, fetch, sha256)
  {
    hide Describes, DriverAccepts, WellFormed, Lists, Scannable, ScannedLines, PathEscape, VerifiedContent, Utf8;
    var inRelease := fetch(BASE_URL + IN_RELEASE);
    if inRelease.None? {
      return Err(ArtifactFetchFailed);
    }
    var release := verify(inRelease.value);
    if release.None? {
      return Err(ArtifactTrustFailed);
    }
    var info :- ParseRelease(release.value);
    var manifest := fetch(ImagesBase(info.installerVersion) + "/SHA256SUMS");
    if manifest.None? {
      return Err(ArtifactFetchFailed);
    }
    if |manifest.value| != info.manifestSize || sha256(manifest.value) != info.manifestDigest {
      return Err(ArtifactHashMismatch);
    }
    var checksums :- ParseChecksums(manifest.value);
    var kernel :- FetchArtifact(info, "debian13-amd64-netboot-linux", KERNEL, checksums, fetch, sha256);
    var initrd :- FetchArtifact(info, "debian13-amd64-netboot-initrd", INITRD, checksums, fetch, sha256);
    var shim :- FetchArtifact(info, "debian13-amd64-netboot-shim", SHIM, checksums, fetch, sha256);
    ResolvedIsAccepted(info, kernel, initrd, shim);
    assert Anchored(release.value, info, manifest.value, kernel, fetch, sha256);
    return Ok((kernel, initrd, shim));
  }

  ghost predicate PinnedTo(d: Descriptor, info: ReleaseInfo, name: string) {
    && d.name == name && d.version == info.installerVersion && d.provenance == Provenance(info)
    && d.sourceUrl == ImagesBase(info.installerVersion) + SLASH + NETBOOT + name
  }

  lemma {:induction false} EscapedIsPlain(bytes: seq<Byte>)
    ensures PlainUrlText(EscapeBytes(bytes))
    decreases |bytes|
  {
    if bytes != [] {
      EscapedIsPlain(bytes[1..]);
      ByteIsPlain(bytes[0]);
      hide EscapeByte;
    }
  }

  lemma {:induction false} ByteIsPlain(b: Byte)
    ensures PlainUrlText(EscapeByte(b))
  {
  }

  lemma {:induction false} UnescapedPath(version: string, tail: UrlText)
    ensures Unescape(INSTALLER_PATH + PathEscape(version) + tail) == Some(Utf8(INSTALLER_PATH + version + tail))
  {
    hide Unescape, Utf8;
    var escaped := PathEscape(version);
    assert tail + "" == tail;
    UnescapePlain(tail, "");
    EmptyUnescapes();
    assert Utf8(tail) + [] == Utf8(tail);
    UnescapeEscaped(Utf8(version), tail);
    UnescapePlain(INSTALLER_PATH, escaped + tail);
    assert INSTALLER_PATH + escaped + tail == INSTALLER_PATH + (escaped + tail);
    Utf8Append(version, tail);
    Utf8Append(INSTALLER_PATH, version + tail);
    assert INSTALLER_PATH + version + tail == INSTALLER_PATH + (version + tail);
  }

  lemma {:induction false} EmptyUnescapes()
    ensures Unescape("") == Some([])
  {
  }

  lemma {:induction false} PlainTogether(a: string, b: string)
    requires PlainUrlText(a) && PlainUrlText(b)
    ensures PlainUrlText(a + b)
  {
  }

  lemma {:induction false} HostHasNoDelimiter()
    ensures '/' !in DEBIAN_HOST && '@' !in DEBIAN_HOST
  {
  }

  /** The source URL decodes to the path that the driver expects, whatever the version is spelled like. */
  lemma {:induction false} PinnedSourceFits(d: Descriptor, info: ReleaseInfo, name: UrlText)
    requires PinnedTo(d, info, name)
    ensures SourceFits(d, name)
  {
    hide Utf8, Unescape, ParseUrl, PathEscape, EscapeBytes, PlainUrlText;
    var escaped := PathEscape(info.installerVersion);
    var tail: UrlText := Tail(name);
    var rawPath := INSTALLER_PATH + escaped + tail;
    EscapedVersionIsPlain(info.installerVersion);
    UnescapedPath(info.installerVersion, tail);
    PlainPieces(tail);
    PlainTogether(INSTALLER_PATH, escaped);
    PlainTogether(INSTALLER_PATH + escaped, tail);
    HostHasNoDelimiter();
    Regroup(HTTPS, DEBIAN_HOST, DEBIAN_DIR, INSTALLER_DIR, escaped, IMAGES_DIR, SLASH, NETBOOT, name);
    Regroup(HTTPS, DEBIAN_HOST, DEBIAN_DIR, INSTALLER_DIR, info.installerVersion, IMAGES_DIR, SLASH, NETBOOT, name);
    BeginsWithSlash(escaped, tail);
    ParsePlainUrl(DEBIAN_HOST, rawPath);
  }

  /** A source that is spelled as the driver spells it fits too, even where its version would decode to something else. */
  lemma {:induction false} LiteralSourceFits(d: Descriptor, name: string)
    requires var path := INSTALLER_PATH + d.version + IMAGES + NETBOOT + name;
      PlainUrlText(path) && Unescape(path).Some? && d.sourceUrl == HTTPS + DEBIAN_HOST + path
    ensures SourceFits(d, name)
  {
    hide Utf8, Unescape, ParseUrl, PlainUrlText;
    var path := INSTALLER_PATH + d.version + IMAGES + NETBOOT + name;
    HostHasNoDelimiter();
    assert path == INSTALLER_PATH + (d.version + IMAGES + NETBOOT + name);
    ParsePlainUrl(DEBIAN_HOST, path);
  }

  /** A source of nothing but a host and a path fits if and only if the host is Debian's and the path is the one that is
      expected, as it is spelled or as it is decoded. */
  lemma {:induction false} PlainSourceFitsExactly(d: Descriptor, name: string, host: string, rawPath: string)
    requires d.sourceUrl == HTTPS + host + rawPath
    requires PlainUrlText(host) && PlainUrlText(rawPath) && '/' !in host && '@' !in host
    requires rawPath != [] && rawPath[0] == '/' && Unescape(rawPath).Some?
    ensures var expected := INSTALLER_PATH + d.version + IMAGES + NETBOOT + name;
      SourceFits(d, name)
      <==> host == DEBIAN_HOST && (rawPath == expected || Unescape(rawPath) == Some(Utf8(expected)))
  {
    hide Utf8, Unescape, ParseUrl, PlainUrlText;
    ParsePlainUrl(host, rawPath);
  }

  /** A source that names a user never fits. */
  lemma {:induction false} NoUserFits(d: Descriptor, name: string, user: string, rest: string)
    requires d.sourceUrl == HTTPS + user + "@" + rest
    requires forall c | c in user :: c != '/' && c != '?' && c != '#'
    ensures !SourceFits(d, name)
  {
    hide Utf8, Unescape;
    var whole := user + "@" + rest;
    assert d.sourceUrl == HTTPS + whole && d.sourceUrl[|HTTPS|..] == whole;
    assert whole == (user + "@") + rest;
    KeptBefore(user + "@", rest, '#');
    KeptBefore(user + "@", Before(whole, '#')[|user| + 1..], '?');
    KeptBefore(user + "@", Before(Before(whole, '#'), '?')[|user| + 1..], '/');
  }

  lemma {:induction false} KeptBefore(a: string, b: string, c: char)
    requires c !in a
    ensures |Before(a + b, c)| >= |a| && Before(a + b, c)[..|a|] == a && Before(a + b, c) == a + Before(a + b, c)[|a|..]
    decreases |a|
  {
    if a == [] {
      assert a + b == b;
    } else {
      assert (a + b)[1..] == a[1..] + b && a == [a[0]] + a[1..];
      KeptBefore(a[1..], b, c);
    }
  }

  lemma {:induction false} NothingAfter(s: string, c: char, k: nat)
    requires After(s, c) == "" && k < |s| && s[k] == c
    ensures k == |s| - 1
    decreases |s|
  {
    if s[0] != c {
      NothingAfter(s[1..], c, k - 1);
    }
  }

  /** A source with a fragment never fits: a number sign could only be its last character. */
  lemma {:induction false} NoFragmentFits(d: Descriptor, name: string, k: nat)
    requires SourceFits(d, name) && k < |d.sourceUrl| && d.sourceUrl[k] == '#'
    ensures k == |d.sourceUrl| - 1
  {
    hide Utf8, Unescape;
    var rest := d.sourceUrl[|HTTPS|..];
    assert '#' !in HTTPS;
    assert d.sourceUrl == HTTPS + rest;
    assert After(rest, '#') == "";
    assert rest[k - |HTTPS|] == '#';
    NothingAfter(rest, '#', k - |HTTPS|);
  }

  lemma {:induction false} BeginsWithSlash(escaped: string, tail: string)
    ensures INSTALLER_PATH + escaped + tail != [] && (INSTALLER_PATH + escaped + tail)[0] == '/'
  {
  }

  lemma {:induction false} Regroup(
    a: string, b: string, c: string, d: string, e: string, f: string, g: string, h: string, i: string)
    ensures a + b + c + d + e + f + g + h + i == a + b + (c + d + e + (f + g + h + i))
    ensures c + d + e + (f + g) + h + i == c + d + e + (f + g + h + i)
  {
  }

  function Tail(name: UrlText): UrlText {
    IMAGES_DIR + SLASH + NETBOOT + name
  }

  lemma {:induction false} PlainPieces(tail: UrlText)
    ensures PlainUrlText(INSTALLER_PATH) && PlainUrlText(tail) && PlainUrlText(DEBIAN_HOST)
  {
  }

  lemma {:induction false} EscapedVersionIsPlain(version: string)
    ensures PlainUrlText(PathEscape(version))
  {
    EscapedIsPlain(Utf8(version));
  }

  lemma {:induction false} NamesDiffer()
    ensures KERNEL != INITRD && INITRD != SHIM && KERNEL != SHIM
  {
    assert KERNEL[0] == 'l' && INITRD[0] == 'i' && SHIM[0] == 'b';
  }

  lemma {:induction false} ResolvedIsAccepted(
    info: ReleaseInfo, kernel: Descriptor, initrd: Descriptor, shim: Descriptor)
    requires PinnedTo(kernel, info, KERNEL) && PinnedTo(initrd, info, INITRD) && PinnedTo(shim, info, SHIM)
    ensures DriverAccepts([kernel, initrd, shim], true)
  {
    hide SourceFits, ImagesBase;
    PinnedSourceFits(kernel, info, KERNEL);
    PinnedSourceFits(initrd, info, INITRD);
    PinnedSourceFits(shim, info, SHIM);
    NamesDiffer();
    var artifacts := [kernel, initrd, shim];
    assert artifacts[0] == kernel && artifacts[1] == initrd && artifacts[2] == shim;
    assert OnlyOne(artifacts, KERNEL, kernel) && OnlyOne(artifacts, INITRD, initrd) && OnlyOne(artifacts, SHIM, shim);
    assert HasPrefix(Provenance(info), TRUSTED);
    assert Trusts(artifacts, KERNEL, kernel) && Trusts(artifacts, INITRD, initrd) && Trusts(artifacts, SHIM, shim);
  }
}
