/** The Debian installer's preseed and its late command (internal/drivers/debian13/preseed.go), for a profile that
    passed its validation (internal/profile/model.go). */
module Preseed {
  import opened Prelude
  import opened Text
  import opened Shell
  import Percent

  datatype Profile = Profile(
    hostname: string,
    locale: string,
    keyboard: string,
    timezone: string,
    username: string,
    fullName: string,
    authorizedKeys: seq<string>,
    packages: seq<string>)

  // ---------------------------------------------------------------------------
  // Validation: the character classes of the patterns
  // ---------------------------------------------------------------------------

  predicate LowerOrDigit(c: char) {
    'a' <= c <= 'z' || '0' <= c <= '9'
  }

  predicate NameChar(c: char) {
    LowerOrDigit(c) || 'A' <= c <= 'Z' || c == '_' || c == '.' || c == '+' || c == '-' || c == '@' || c == '/'
  }

  /** Nonempty, and all of it in the widest of the character classes. */
  predicate NameLike(s: string) {
    s != [] && forall k | 0 <= k < |s| :: NameChar(s[k])
  }

  predicate ValidUsername(s: string) {
    && 1 <= |s| <= 32 && ('a' <= s[0] <= 'z' || s[0] == '_')
    && forall k | 0 <= k < |s| :: LowerOrDigit(s[k]) || s[k] == '_' || s[k] == '-'
  }

  predicate ValidFullName(s: string) {
    var name := Trim(s);
    name != "" && |name| <= 128 && '\r' !in name && '\n' !in name
  }

  /** The checks of validateAuthorizedKey that the renderer relies on; the payload is decoded elsewhere. */
  predicate ValidAuthorizedKey(s: string) {
    0 < |s| <= 8192 && '\r' !in s && '\n' !in s && |Fields(s)| >= 2
  }

  predicate ValidProfile(p: Profile) {
    && NameLike(p.hostname) && NameLike(p.locale) && NameLike(p.keyboard) && NameLike(p.timezone)
    && ValidUsername(p.username) && ValidFullName(p.fullName)
    && 1 <= |p.authorizedKeys| <= 8 && (forall k | 0 <= k < |p.authorizedKeys| :: ValidAuthorizedKey(p.authorizedKeys[k]))
    && |p.packages| <= 64 && (forall k | 0 <= k < |p.packages| :: NameLike(p.packages[k]))
    && (forall j, k | 0 <= j < k < |p.packages| :: p.packages[j] != p.packages[k])
  }

  // ---------------------------------------------------------------------------
  // The late command
  // ---------------------------------------------------------------------------

  predicate Bare(s: string) {
    forall k | 0 <= k < |s| :: BareChar(s[k])
  }

  /** Text that needs no quotes, and text on one line. */
  type Word = s: string | Bare(s)
  type Line = s: string | '\n' !in s

  const TARGET: Word := "/target"
  const SUDOERS: Word := "/etc/sudoers.d/90-aegispxe-admin"
  const SSHD_DIR: Word := "/etc/ssh/sshd_config.d"
  const SSHD_FILE: Word := "/90-aegispxe.conf"
  const APT_DIR: Word := "/etc/apt/apt.conf.d"
  const UPGRADES_FILE: Word := "/20auto-upgrades"
  const HOME: Word := "/home/"
  const SSH: Word := "/.ssh"
  const KEYS_FILE: Word := "/authorized_keys"
  const BLANK: Word := " "
  const COLON: Word := ":"
  const GROUP: Word := " -g "
  const SET_E: Word := "set -e"
  const INSTALL_LOG_DIR: Word := "install " + "-d -m 0755 /target/var/log"
  const INSTALL_SSH_HOME: Word := "in-target " + "install -d -m 0700 -o "
  const CREATE: Word := ": > "
  const CHOWN: Word := "in-target " + "chown "
  const CHMOD_KEYS: Word := "in-target " + "chmod 0600 "
  const USERMOD_SUDO: Word := "in-target " + "usermod -aG sudo "
  const CHMOD_0440: Word := "chmod " + "0440 "
  const VISUDO: Word := "in-target " + "visudo -cf "
  const MKDIR: Word := "mkdir " + "-p "
  const CHMOD_0644: Word := "chmod " + "0644 "
  const USERMOD_NP: Word := "in-target " + "usermod -p NP "
  const INSTALL_RUN: Word := "in-target " + "install -d -m 0755 "
  const SSHD_RUN: Word := "/run/sshd"
  const KEYGEN: Word := "in-target " + "ssh-keygen -A"
  const SSHD_T: Word := "in-target " + "sshd -t"

  const SUDOERS_PATH: Line := TARGET + SUDOERS
  const SSHD_PATH: Line := TARGET + SSHD_DIR + SSHD_FILE
  const UPGRADES_PATH: Line := TARGET + APT_DIR + UPGRADES_FILE
  const LOG: Line := "/target/var/log/aegispxe-installer.log"
  const TARGET_HOME: Line := "/target/home/"
  const AUTHORIZED_KEYS: Line := "/.ssh/authorized_keys"
  const MARK_STEP: Line := "component=aegispxe step="
  const MARK_RESULT: Line := " result="
  const STARTED: Line := "started"
  const SUCCESS: Line := "success"
  const LATE_COMMAND: Line := "late_command"
  const KEYS_STEP: Line := "authorized_keys"
  const SUDO: Line := "sudo"
  const VALIDATE_SUDOERS: Line := "validate_sudoers"
  const SSHD_CONFIG: Line := "sshd_config"
  const SSHD_RUNTIME: Line := "prepare_sshd_runtime"
  const VALIDATE_SSHD: Line := "validate_sshd"
  const UPDATES: Line := "automatic_updates"
  const NOPASSWD: Line := " ALL=(ALL:ALL) NOPASSWD: ALL"
  const NO_PASSWORDS: Line := "PasswordAuthentication no"
  const NO_KEYBOARD: Line := "KbdInteractiveAuthentication no"
  const NO_EMPTY: Line := "PermitEmptyPasswords no"
  const NO_ROOT: Line := "PermitRootLogin no"
  const PUBLIC_KEYS: Line := "PubkeyAuthentication yes"
  const UPDATE_LISTS: Line := "APT::Periodic::Update-Package-Lists \"1\";"
  const UPGRADE: Line := "APT::Periodic::Unattended-Upgrade \"1\";"

  function WriteLine(path: Line, value: Line): string {
    "echo " + ShellQuote(value) + " > " + ShellQuote(path)
  }

  function AppendLine(path: Line, value: Line): string {
    "echo " + ShellQuote(value) + " >> " + ShellQuote(path)
  }

  function Marker(step: Line, result: Line): string {
    AppendLine(LOG, MARK_STEP + step + MARK_RESULT + result)
  }

  function KeysPath(username: Word): Line {
    TARGET_HOME + username + AUTHORIZED_KEYS
  }

  function SshHome(username: Word): Word {
    HOME + username + SSH
  }

  /** The type and the payload of a key, without its comment. */
  function KeyLine(key: string): (r: Line)
    requires |Fields(key)| >= 2
  {
    assert IsSpace('\n');
    Fields(key)[0] + " " + Fields(key)[1]
  }

  function Preparation(username: Word): seq<string> {
    [
      SET_E,
      INSTALL_LOG_DIR,
      Marker(LATE_COMMAND, STARTED),
      Marker(KEYS_STEP, STARTED),
      INSTALL_SSH_HOME + username + GROUP + username + BLANK + SshHome(username)
    ]
  }

  function Creation(username: Word): string {
    CREATE + ShellQuote(KeysPath(username))
  }

  function KeyCommands(username: Word, keys: seq<string>): (r: seq<string>)
    requires forall k | 0 <= k < |keys| :: |Fields(keys[k])| >= 2
    ensures |r| == |keys|
    ensures forall k | 0 <= k < |r| :: r[k] == AppendLine(KeysPath(username), KeyLine(keys[k]))
  {
    seq(|keys|, k requires 0 <= k < |keys| => AppendLine(KeysPath(username), KeyLine(keys[k])))
  }

  function Ownership(username: Word): seq<string> {
    [
      CHOWN + username + COLON + username + BLANK + SshHome(username) + KEYS_FILE,
      CHMOD_KEYS + SshHome(username) + KEYS_FILE,
      Marker(KEYS_STEP, SUCCESS)
    ]
  }

  function SudoGroup(username: Word): seq<string> {
    [Marker(SUDO, STARTED), USERMOD_SUDO + username]
  }

  function Sudoers(username: Word): string {
    WriteLine(SUDOERS_PATH, username + NOPASSWD)
  }

  function SudoCheck(): seq<string> {
    [
      CHMOD_0440 + TARGET + SUDOERS,
      Marker(SUDO, SUCCESS),
      Marker(VALIDATE_SUDOERS, STARTED),
      VISUDO + SUDOERS,
      Marker(VALIDATE_SUDOERS, SUCCESS)
    ]
  }

  function DaemonDirectory(): seq<string> {
    [Marker(SSHD_CONFIG, STARTED), MKDIR + TARGET + SSHD_DIR]
  }

  function DaemonConfig(): seq<string> {
    [
      WriteLine(SSHD_PATH, NO_PASSWORDS),
      AppendLine(SSHD_PATH, NO_KEYBOARD),
      AppendLine(SSHD_PATH, NO_EMPTY),
      AppendLine(SSHD_PATH, NO_ROOT),
      AppendLine(SSHD_PATH, PUBLIC_KEYS)
    ]
  }

  function DaemonModes(username: Word): seq<string> {
    [CHMOD_0644 + TARGET + SSHD_DIR + SSHD_FILE, USERMOD_NP + username, Marker(SSHD_CONFIG, SUCCESS)]
  }

  function Runtime(): seq<string> {
    [
      Marker(SSHD_RUNTIME, STARTED),
      INSTALL_RUN + SSHD_RUN,
      KEYGEN,
      Marker(SSHD_RUNTIME, SUCCESS),
      Marker(VALIDATE_SSHD, STARTED),
      SSHD_T,
      Marker(VALIDATE_SSHD, SUCCESS)
    ]
  }

  function UpdatesStart(): seq<string> {
    [Marker(UPDATES, STARTED)]
  }

  function UpdatesConfig(): seq<string> {
    [WriteLine(UPGRADES_PATH, UPDATE_LISTS), AppendLine(UPGRADES_PATH, UPGRADE)]
  }

  function UpdatesEnd(): seq<string> {
    [
      CHMOD_0644 + TARGET + APT_DIR + UPGRADES_FILE,
      Marker(UPDATES, SUCCESS),
      Marker(LATE_COMMAND, SUCCESS)
    ]
  }

  predicate Parsable(keys: seq<string>) {
    forall k | 0 <= k < |keys| :: |Fields(keys[k])| >= 2
  }

  function Opening(username: Word): seq<string> {
    Preparation(username) + [Creation(username)]
  }

  function Sudo(username: Word): seq<string> {
    SudoGroup(username) + [Sudoers(username)] + SudoCheck()
  }

  function Daemon(username: Word): seq<string> {
    DaemonDirectory() + DaemonConfig() + DaemonModes(username)
  }

  function Updates(): seq<string> {
    UpdatesStart() + UpdatesConfig() + UpdatesEnd()
  }

  function LateCommands(username: Word, keys: seq<string>): seq<string>
    requires Parsable(keys)
  {
    Opening(username) + KeyCommands(username, keys) + Ownership(username)
    + Sudo(username) + Daemon(username) + Runtime() + Updates()
  }

  /** renderLateCommand: None where a key has become unparsable. */
  method RenderLateCommand(username: Word, authorizedKeys: seq<string>) returns (r: Option<string>)
    ensures r.Some? <==> Parsable(authorizedKeys)
    ensures r.Some? ==> r.value == Join(LateCommands(username, authorizedKeys), SEPARATOR)
  {
    hide Opening, Ownership, Sudo, Daemon, Runtime, Updates, AppendLine, KeysPath, Fields;
    var keys := [];
    for k := 0 to |authorizedKeys|
      invariant forall j | 0 <= j < k :: |Fields(authorizedKeys[j])| >= 2
      invariant |keys| == k && forall j | 0 <= j < k :: keys[j] == KeyLine(authorizedKeys[j])
    {
      var fields := Fields(authorizedKeys[k]);
      if |fields| < 2 {
        return None;
      }
      keys := keys + [KeyLine(authorizedKeys[k])];
    }
    var commands := Opening(username);
    for k := 0 to |keys|
      invariant commands == Opening(username) + KeyCommands(username, authorizedKeys)[..k]
    {
      commands := commands + [AppendLine(KeysPath(username), keys[k])];
    }
    commands := commands + Ownership(username) + Sudo(username) + Daemon(username) + Runtime() + Updates();
    assert commands == LateCommands(username, authorizedKeys);
    return Some(Join(commands, SEPARATOR));
  }

  // --- every command keeps its semicolons quoted, and fits on a line ---

  predicate Tidy(command: string) {
    Closed(Plain, command) && '\n' !in command
  }

  predicate AllTidy(commands: seq<string>) {
    forall k | 0 <= k < |commands| :: Tidy(commands[k])
  }

  lemma {:induction false} TidyWord(w: Word)
    ensures Tidy(w)
  {
    ClosedBare(w);
  }

  lemma {:induction false} TidyEcho(path: Line, value: Line)
    ensures Tidy(WriteLine(path, value)) && Tidy(AppendLine(path, value))
  {
    hide Closed, ShellQuote;
    ClosedQuote(value);
    OneLineQuote(value);
    ClosedQuote(path);
    OneLineQuote(path);
    ClosedBare("echo ");
    ClosedBare(" > ");
    ClosedBare(" >> ");
    ClosedAppend(Plain, "echo ", ShellQuote(value));
    ClosedAppend(Plain, "echo " + ShellQuote(value), " > ");
    ClosedAppend(Plain, "echo " + ShellQuote(value), " >> ");
    ClosedAppend(Plain, "echo " + ShellQuote(value) + " > ", ShellQuote(path));
    ClosedAppend(Plain, "echo " + ShellQuote(value) + " >> ", ShellQuote(path));
  }

  lemma {:induction false} TidyMarker(step: Line, result: Line)
    ensures Tidy(Marker(step, result))
  {
    TidyEcho(LOG, MARK_STEP + step + MARK_RESULT + result);
  }

  lemma {:induction false} OpeningTidy(username: Word)
    ensures AllTidy(Opening(username))
  {
    hide Tidy, Marker, KeysPath, SshHome;
    TidyWord(SET_E);
    TidyWord(INSTALL_LOG_DIR);
    TidyMarker(LATE_COMMAND, STARTED);
    TidyMarker(KEYS_STEP, STARTED);
    TidyWord(INSTALL_SSH_HOME + username + GROUP + username + BLANK + SshHome(username));
    TidyCreate(username);
  }

  lemma {:induction false} TidyCreate(username: Word)
    ensures Tidy(CREATE + ShellQuote(KeysPath(username)))
  {
    hide Closed, ShellQuote, KeysPath;
    ClosedBare(CREATE);
    ClosedQuote(KeysPath(username));
    OneLineQuote(KeysPath(username));
    ClosedAppend(Plain, CREATE, ShellQuote(KeysPath(username)));
  }

  lemma {:induction false} KeysTidy(username: Word, keys: seq<string>)
    requires Parsable(keys)
    ensures AllTidy(KeyCommands(username, keys))
  {
    hide Tidy, AppendLine, Fields, KeysPath;
    forall k | 0 <= k < |keys| ensures Tidy(KeyCommands(username, keys)[k]) {
      TidyEcho(KeysPath(username), KeyLine(keys[k]));
    }
  }

  lemma {:induction false} OwnershipTidy(username: Word)
    ensures AllTidy(Ownership(username))
  {
    hide Tidy, Marker, SshHome;
    TidyWord(CHOWN + username + COLON + username + BLANK + SshHome(username) + KEYS_FILE);
    TidyWord(CHMOD_KEYS + SshHome(username) + KEYS_FILE);
    TidyMarker(KEYS_STEP, SUCCESS);
  }

  lemma {:induction false} SudoTidy(username: Word)
    ensures AllTidy(Sudo(username))
  {
    hide Tidy, Marker, WriteLine;
    TidyMarker(SUDO, STARTED);
    TidyWord(USERMOD_SUDO + username);
    TidyEcho(SUDOERS_PATH, username + NOPASSWD);
    TidyWord(CHMOD_0440 + TARGET + SUDOERS);
    TidyMarker(SUDO, SUCCESS);
    TidyMarker(VALIDATE_SUDOERS, STARTED);
    TidyWord(VISUDO + SUDOERS);
    TidyMarker(VALIDATE_SUDOERS, SUCCESS);
  }

  lemma {:induction false} DaemonTidy(username: Word)
    ensures AllTidy(Daemon(username))
  {
    hide Tidy, Marker, WriteLine, AppendLine;
    TidyMarker(SSHD_CONFIG, STARTED);
    TidyWord(MKDIR + TARGET + SSHD_DIR);
    TidyEcho(SSHD_PATH, NO_PASSWORDS);
    TidyEcho(SSHD_PATH, NO_KEYBOARD);
    TidyEcho(SSHD_PATH, NO_EMPTY);
    TidyEcho(SSHD_PATH, NO_ROOT);
    TidyEcho(SSHD_PATH, PUBLIC_KEYS);
    TidyWord(CHMOD_0644 + TARGET + SSHD_DIR + SSHD_FILE);
    TidyWord(USERMOD_NP + username);
    TidyMarker(SSHD_CONFIG, SUCCESS);
  }

  lemma {:induction false} RuntimeTidy()
    ensures AllTidy(Runtime())
  {
    hide Tidy, Marker;
    TidyMarker(SSHD_RUNTIME, STARTED);
    TidyWord(INSTALL_RUN + SSHD_RUN);
    TidyWord(KEYGEN);
    TidyMarker(SSHD_RUNTIME, SUCCESS);
    TidyMarker(VALIDATE_SSHD, STARTED);
    TidyWord(SSHD_T);
    TidyMarker(VALIDATE_SSHD, SUCCESS);
  }

  lemma {:induction false} UpdatesTidy()
    ensures AllTidy(Updates())
  {
    hide Tidy, Marker, WriteLine, AppendLine;
    TidyMarker(UPDATES, STARTED);
    TidyEcho(UPGRADES_PATH, UPDATE_LISTS);
    TidyEcho(UPGRADES_PATH, UPGRADE);
    TidyWord(CHMOD_0644 + TARGET + APT_DIR + UPGRADES_FILE);
    TidyMarker(UPDATES, SUCCESS);
    TidyMarker(LATE_COMMAND, SUCCESS);
  }

  lemma {:induction false} AllTidyAppend(a: seq<string>, b: seq<string>)
    requires AllTidy(a) && AllTidy(b)
    ensures AllTidy(a + b)
  {
    hide Tidy;
  }

  lemma {:induction false} LateCommandsTidy(username: Word, keys: seq<string>)
    requires Parsable(keys)
    ensures AllTidy(LateCommands(username, keys)) && LateCommands(username, keys) != []
  {
    hide Opening, Ownership, Sudo, Daemon, Runtime, Updates, KeyCommands, AllTidy, Fields;
    OpeningTidy(username);
    KeysTidy(username, keys);
    OwnershipTidy(username);
    SudoTidy(username);
    DaemonTidy(username);
    RuntimeTidy();
    UpdatesTidy();
    OpeningIsNotEmpty(username);
    var a := Opening(username) + KeyCommands(username, keys);
    AllTidyAppend(Opening(username), KeyCommands(username, keys));
    AllTidyAppend(a, Ownership(username));
    AllTidyAppend(a + Ownership(username), Sudo(username));
    AllTidyAppend(a + Ownership(username) + Sudo(username), Daemon(username));
    AllTidyAppend(a + Ownership(username) + Sudo(username) + Daemon(username), Runtime());
    AllTidyAppend(a + Ownership(username) + Sudo(username) + Daemon(username) + Runtime(), Updates());
  }

  lemma {:induction false} OpeningIsNotEmpty(username: Word)
    ensures Opening(username) != []
  {
    hide Marker, ShellQuote;
  }

  /** The shell sees exactly the commands that were meant: splitting the rendered late command at its unquoted
      separators gives the command list back, whatever the keys are. */
  lemma {:induction false} LateCommandSplits(username: Word, keys: seq<string>)
    requires Parsable(keys)
    ensures SplitCommands(Plain, Join(LateCommands(username, keys), SEPARATOR), "") == Some(LateCommands(username, keys))
  {
    hide LateCommands, AllTidy, SplitCommands;
    LateCommandsTidy(username, keys);
    SplitsWhenTidy(LateCommands(username, keys));
  }

  lemma {:induction false} SplitsWhenTidy(commands: seq<string>)
    requires commands != [] && AllTidy(commands)
    ensures SplitCommands(Plain, Join(commands, SEPARATOR), "") == Some(commands)
  {
    hide Closed, SplitCommands;
    SplitJoinedCommands(commands);
  }

  // ---------------------------------------------------------------------------
  // The preseed
  // ---------------------------------------------------------------------------

  const VERSION_LINE: Line := "#_preseed_V1"
  const TITLE_LINE: Line := "# AegisPXE Debian " + "13 Standard preseed"
  const LOCALE_LINE: Line := "d-i debian-installer/" + "locale string "
  const KEYMAP_LINE: Line := "d-i keyboard-configuration/" + "xkb-keymap select "
  const INTERFACE_LINE: Line := "d-i netcfg/" + "choose_interface select auto"
  const GET_HOSTNAME_LINE: Line := "d-i netcfg/" + "get_hostname string "
  const HOSTNAME_LINE: Line := "d-i netcfg/" + "hostname string "
  const DOMAIN_LINE: Line := "d-i netcfg/" + "get_domain string"
  const WEP_LINE: Line := "d-i netcfg/" + "wireless_wep string"
  const COUNTRY_LINE: Line := "d-i mirror/country " + "string manual"
  const MIRROR_LINE: Line := "d-i mirror/http/hostname " + "string deb.debian.org"
  const DIRECTORY_LINE: Line := "d-i mirror/http/" + "directory string /debian"
  const PROXY_LINE: Line := "d-i mirror/http/" + "proxy string"
  const ROOT_LOGIN_LINE: Line := "d-i passwd/root-" + "login boolean false"
  const FULL_NAME_LINE: Line := "d-i passwd/user-" + "fullname string "
  const USERNAME_LINE: Line := "d-i passwd/" + "username string "
  const PASSWORD_LINE: Line := "d-i passwd/user-password-" + "crypted password !"
  const UTC_LINE: Line := "d-i clock-setup/" + "utc boolean true"
  const ZONE_LINE: Line := "d-i time/zone string "
  const NTP_LINE: Line := "d-i clock-setup/" + "ntp boolean true"
  const DISK_LINE: Line := "d-i partman-" + "auto/disk string "
  const METHOD_LINE: Line := "d-i partman-auto/" + "method string regular"
  const RECIPE_LINE: Line := "d-i partman-auto/" + "choose_recipe select atomic"
  const REMOVE_LVM_LINE: Line := "d-i partman-lvm/" + "device_remove_lvm boolean true"
  const REMOVE_MD_LINE: Line := "d-i partman-md/" + "device_remove_md boolean true"
  const LVM_CONFIRM_LINE: Line := "d-i partman-lvm/" + "confirm boolean true"
  const LVM_OVERWRITE_LINE: Line := "d-i partman-lvm/" + "confirm_nooverwrite boolean true"
  const NEW_LABEL_LINE: Line := "d-i partman-partitioning/" + "confirm_write_new_label boolean true"
  const PARTITION_LINE: Line := "d-i partman/choose_partition " + "select finish"
  const CONFIRM_LINE: Line := "d-i partman/" + "confirm boolean true"
  const OVERWRITE_LINE: Line := "d-i partman/" + "confirm_nooverwrite boolean true"
  const CDROM_LINE: Line := "d-i apt-setup/cdrom/" + "set-first boolean false"
  const SERVICES_LINE: Line := "d-i apt-setup/services-select " + "multiselect security, updates"
  const TASKSEL_LINE: Line := "tasksel tasksel/first " + "multiselect standard"
  const INCLUDE_LINE: Line := "d-i pkgsel/include string "
  const SAFE_UPGRADE_LINE: Line := "d-i pkgsel/upgrade " + "select safe-upgrade"
  const CONTEST_LINE: Line := "popularity-contest popularity-" + "contest/participate boolean false"
  const ONLY_DEBIAN_LINE: Line := "d-i grub-installer/" + "only_debian boolean true"
  const OTHER_OS_LINE: Line := "d-i grub-installer/" + "with_other_os boolean false"
  const BOOTDEV_LINE: Line := "d-i grub-installer/" + "bootdev string "
  const LATE_LINE: Line := "d-i preseed/" + "late_command string "
  const REBOOT_LINE: Line := "d-i finish-install/" + "reboot_in_progress note"
  const EJECT_LINE: Line := "d-i cdrom-detect/" + "eject boolean false"

  /** Language and host name. */
  function Identity(p: Profile): seq<string> {
    [
      VERSION_LINE,
      TITLE_LINE,
      LOCALE_LINE + p.locale,
      KEYMAP_LINE + p.keyboard,
      INTERFACE_LINE,
      GET_HOSTNAME_LINE + p.hostname,
      HOSTNAME_LINE + p.hostname
    ]
  }

  /** Network and mirror. */
  function Mirror(): seq<string> {
    [
      DOMAIN_LINE,
      WEP_LINE,
      COUNTRY_LINE,
      MIRROR_LINE,
      DIRECTORY_LINE,
      PROXY_LINE,
      ROOT_LOGIN_LINE
    ]
  }

  /** The account and the clock. */
  function Account(p: Profile): seq<string> {
    [
      USERNAME_LINE + p.username,
      PASSWORD_LINE,
      UTC_LINE,
      ZONE_LINE + p.timezone,
      NTP_LINE
    ]
  }

  /** The target disk. */
  function Disk(disk: string): seq<string> {
    [
      DISK_LINE + disk,
      METHOD_LINE,
      RECIPE_LINE,
      REMOVE_LVM_LINE,
      REMOVE_MD_LINE,
      LVM_CONFIRM_LINE
    ]
  }

  /** Confirmations of the partitioner. */
  function Partition(): seq<string> {
    [
      LVM_OVERWRITE_LINE,
      NEW_LABEL_LINE,
      PARTITION_LINE,
      CONFIRM_LINE,
      OVERWRITE_LINE
    ]
  }

  /** Packages. */
  function Software(packages: seq<string>): seq<string> {
    [
      CDROM_LINE,
      SERVICES_LINE,
      TASKSEL_LINE,
      INCLUDE_LINE + Join(packages, " "),
      SAFE_UPGRADE_LINE,
      CONTEST_LINE
    ]
  }

  /** Boot loader, late command and reboot. */
  function Finish(disk: string, late: string): seq<string> {
    [
      ONLY_DEBIAN_LINE,
      OTHER_OS_LINE,
      BOOTDEV_LINE + disk,
      LATE_LINE + late,
      REBOOT_LINE,
      EJECT_LINE
    ]
  }

  function Directives(p: Profile, disk: string, packages: seq<string>, late: string): seq<string> {
    Identity(p) + Mirror() + [FULL_NAME_LINE + p.fullName] + Account(p)
    + Disk(disk) + Partition() + Software(packages) + Finish(disk, late)
  }

  function Terminated(lines: seq<string>): string {
    if lines == [] then [] else lines[0] + "\n" + Terminated(lines[1..])
  }

  /** renderPreseed, from the packages and the late command on: one line after the other. */
  method RenderPreseed(p: Profile, disk: string, packages: seq<string>, late: string) returns (content: string)
    ensures content == Terminated(Directives(p, disk, packages, late))
  {
    hide Directives;
    var lines := Directives(p, disk, packages, late);
    content := "";
    for k := 0 to |lines|
      invariant Terminated(lines) == content + Terminated(lines[k..])
    {
      assert lines[k..][1..] == lines[k + 1..];
      content := content + lines[k] + "\n";
    }
  }

  predicate AllLines(lines: seq<string>) {
    forall k | 0 <= k < |lines| :: '\n' !in lines[k]
  }

  /** ValidateTargetDisk, as far as its characters go. */
  predicate ValidDisk(disk: string) {
    HasPrefix(disk, "/dev/") && NameLike(disk)
  }

  lemma {:induction false} NameIsLine(s: string)
    requires NameLike(s)
    ensures '\n' !in s
  {
  }

  lemma {:induction false} JoinedIsLine(parts: seq<string>, sep: string)
    requires AllLines(parts) && '\n' !in sep
    ensures '\n' !in Join(parts, sep)
    decreases |parts|
  {
    if |parts| > 1 {
      JoinedIsLine(parts[1..], sep);
    }
  }

  lemma {:induction false} IdentityIsLines(p: Profile)
    requires '\n' !in p.locale && '\n' !in p.keyboard && '\n' !in p.hostname
    ensures AllLines(Identity(p))
  {
  }

  lemma {:induction false} MirrorIsLines()
    ensures AllLines(Mirror()) && AllLines(Partition())
  {
  }

  lemma {:induction false} AccountIsLines(p: Profile)
    requires '\n' !in p.username && '\n' !in p.timezone
    ensures AllLines(Account(p))
  {
  }

  lemma {:induction false} DiskIsLines(disk: string)
    requires '\n' !in disk
    ensures AllLines(Disk(disk))
  {
  }

  lemma {:induction false} SoftwareIsLines(packages: seq<string>)
    requires AllLines(packages)
    ensures AllLines(Software(packages))
  {
    JoinedIsLine(packages, " ");
    hide Join;
  }

  lemma {:induction false} FinishIsLines(disk: string, late: string)
    requires '\n' !in disk && '\n' !in late
    ensures AllLines(Finish(disk, late))
  {
  }

  /** The parts of a valid profile have no newline; of the full name that is not known. */
  lemma {:induction false} ProfileIsLines(p: Profile)
    requires ValidProfile(p)
    ensures '\n' !in p.locale && '\n' !in p.keyboard && '\n' !in p.hostname && '\n' !in p.timezone && '\n' !in p.username
  {
    hide ValidFullName, ValidAuthorizedKey;
    NameIsLine(p.locale);
    NameIsLine(p.keyboard);
    NameIsLine(p.hostname);
    NameIsLine(p.timezone);
    hide NameLike;
  }

  /** Splitting on newline undoes terminating lines, if no line has one. */
  lemma {:induction false} SplitTerminated(lines: seq<string>)
    requires AllLines(lines)
    ensures Split(Terminated(lines), '\n') == lines + [""]
    decreases |lines|
  {
    if lines == [] {
      assert Terminated(lines) == [] && lines + [""] == [""];
    } else {
      SplitTerminated(lines[1..]);
      SplitAt(lines[0], Terminated(lines[1..]), '\n');
      assert lines[0] + "\n" + Terminated(lines[1..]) == lines[0] + ['\n'] + Terminated(lines[1..]);
      assert [lines[0]] + (lines[1..] + [""]) == lines + [""];
    }
  }

  // --- packages ---

  const OPENSSH: Line := "openssh-server"
  const SUDO_PACKAGE: Line := "sudo"
  const UNATTENDED: Line := "unattended-upgrades"

  const BASE_PACKAGES: set<string> := {OPENSSH, SUDO_PACKAGE, UNATTENDED}

  /** The order of sort.Strings. */
  predicate Leq(a: string, b: string) {
    a == [] || (b != [] && (a[0] < b[0] || (a[0] == b[0] && Leq(a[1..], b[1..]))))
  }

  lemma {:induction false} LeqReflexive(a: string)
    ensures Leq(a, a)
    decreases |a|
  {
    if a != [] {
      LeqReflexive(a[1..]);
    }
  }

  lemma {:induction false} LeqTotal(a: string, b: string)
    ensures Leq(a, b) || Leq(b, a)
    decreases |a|
  {
    if a != [] && b != [] {
      LeqTotal(a[1..], b[1..]);
    }
  }

  lemma {:induction false} LeqAntisymmetric(a: string, b: string)
    requires Leq(a, b) && Leq(b, a)
    ensures a == b
    decreases |a|
  {
    if a != [] && b != [] {
      LeqAntisymmetric(a[1..], b[1..]);
      assert a == [a[0]] + a[1..] && b == [b[0]] + b[1..];
    }
  }

  lemma {:induction false} LeqTransitive(a: string, b: string, c: string)
    requires Leq(a, b) && Leq(b, c)
    ensures Leq(a, c)
    decreases |a|
  {
    if a != [] && b != [] && c != [] && a[0] == b[0] && b[0] == c[0] {
      LeqTransitive(a[1..], b[1..], c[1..]);
    }
  }

  ghost predicate IsLeast(names: set<string>, m: string) {
    m in names && forall x | x in names :: Leq(m, x)
  }

  lemma {:induction false} LeastExists(names: set<string>)
    requires names != {}
    ensures exists m :: IsLeast(names, m)
    decreases |names|
  {
    hide Leq;
    var a :| a in names;
    var rest := names - {a};
    LeqReflexive(a);
    if rest == {} {
      assert names == {a};
      assert IsLeast(names, a);
    } else {
      LeastExists(rest);
      var m :| IsLeast(rest, m);
      LeqTotal(a, m);
      if Leq(a, m) {
        forall x | x in names ensures Leq(a, x) {
          if x != a {
            LeqTransitive(a, m, x);
          }
        }
        assert IsLeast(names, a);
      } else {
        assert IsLeast(names, m);
      }
    }
  }

  /** The first of the names, by one pass over them. */
  method Least(names: set<string>) returns (m: string)
    requires names != {}
    ensures IsLeast(names, m)
  {
    hide Leq;
    m :| m in names;
    LeqReflexive(m);
    var rest := names - {m};
    while rest != {}
      invariant rest <= names && m in names - rest
      invariant forall x | x in names - rest :: Leq(m, x)
      decreases |rest|
    {
      var x :| x in rest;
      LeqTotal(m, x);
      LeqReflexive(x);
      if !Leq(m, x) {
        forall y | y in names - rest ensures Leq(x, y) {
          LeqTransitive(x, m, y);
        }
        m := x;
      }
      rest := rest - {x};
    }
  }

  ghost predicate Sorted(names: seq<string>) {
    forall j, k | 0 <= j < k < |names| :: Leq(names[j], names[k]) && names[j] != names[k]
  }

  /** seedPackages: the base packages and those of the profile, each once, in order. */
  method SeedPackages(packages: seq<string>) returns (sorted: seq<string>)
    ensures Sorted(sorted)
    ensures forall name :: name in sorted <==> name in BASE_PACKAGES || name in packages
  {
    hide Leq;
    var names := BASE_PACKAGES;
    for k := 0 to |packages|
      invariant forall name :: name in names <==> name in BASE_PACKAGES || name in packages[..k]
    {
      assert packages[..k + 1] == packages[..k] + [packages[k]];
      names := names + {packages[k]};
    }
    assert packages[..|packages|] == packages;
    var rest := names;
    sorted := [];
    while rest != {}
      invariant rest <= names && Sorted(sorted)
      invariant forall name :: name in sorted <==> name in names - rest
      invariant forall j, x | 0 <= j < |sorted| && x in rest :: Leq(sorted[j], x)
      decreases |rest|
    {
      var m := Least(rest);
      assert m !in sorted && forall j | 0 <= j < |sorted| :: sorted[j] in sorted;
      sorted := sorted + [m];
      rest := rest - {m};
    }
  }

  /** Sorting leaves no choice: two sorted lists of the same packages are the same list, so the preseed does not depend
      on the order in which a profile names its packages. */
  lemma {:induction false} SortedIsUnique(a: seq<string>, b: seq<string>)
    requires Sorted(a) && Sorted(b) && forall name :: name in a <==> name in b
    ensures a == b
    decreases |a|
  {
    hide Leq;
    if a == [] {
      assert forall k | 0 <= k < |b| :: b[k] in b;
    } else {
      assert a[0] in a;
      assert b != [] && b[0] in b;
      var i :| 0 <= i < |b| && b[i] == a[0];
      var j :| 0 <= j < |a| && a[j] == b[0];
      FirstIsLeast(a, j);
      FirstIsLeast(b, i);
      LeqAntisymmetric(a[0], b[0]);
      forall name ensures name in a[1..] <==> name in b[1..] {
        RestOf(a, name);
        RestOf(b, name);
      }
      SortedIsUnique(a[1..], b[1..]);
      assert a == [a[0]] + a[1..] && b == [b[0]] + b[1..];
    }
  }

  lemma {:induction false} FirstIsLeast(a: seq<string>, k: nat)
    requires Sorted(a) && k < |a|
    ensures Leq(a[0], a[k])
  {
    hide Leq;
    LeqReflexive(a[0]);
  }

  lemma {:induction false} RestOf(a: seq<string>, name: string)
    requires Sorted(a) && a != []
    ensures name in a[1..] <==> name in a && name != a[0]
  {
    hide Leq;
  }

  // --- the whole file ---

  lemma {:induction false} PackagesAreLines(names: seq<string>, sorted: seq<string>)
    requires forall k | 0 <= k < |names| :: NameLike(names[k])
    requires forall name :: name in sorted <==> name in BASE_PACKAGES || name in names
    ensures AllLines(sorted)
  {
    hide NameLike;
    forall k | 0 <= k < |sorted| ensures '\n' !in sorted[k] {
      if sorted[k] in names {
        NameIsLine(sorted[k]);
      } else {
        BaseIsLine(sorted[k]);
      }
    }
  }

  lemma {:induction false} BaseIsLine(name: string)
    requires name in BASE_PACKAGES
    ensures '\n' !in name
  {
    var a, b, c: Line := OPENSSH, SUDO_PACKAGE, UNATTENDED;
    assert name == a || name == b || name == c;
  }

  lemma {:induction false} AllLinesAppend(a: seq<string>, b: seq<string>)
    ensures AllLines(a + b) <==> AllLines(a) && AllLines(b)
  {
    assert forall k | 0 <= k < |a| :: (a + b)[k] == a[k];
    assert forall k | 0 <= k < |b| :: (a + b)[|a| + k] == b[k];
  }

  lemma {:induction false} OneLineAlone(line: string)
    ensures AllLines([line]) <==> '\n' !in line
  {
    assert [line][0] == line;
  }

  lemma {:induction false} DirectivesAreLines(p: Profile, disk: string, packages: seq<string>, late: string)
    requires ValidProfile(p) && ValidDisk(disk) && AllLines(packages) && '\n' !in late
    ensures AllLines(Directives(p, disk, packages, late)) <==> '\n' !in p.fullName
  {
    ProfileIsLines(p);
    NameIsLine(disk);
    hide Identity, Mirror, Account, Disk, Partition, Software, Finish, ValidProfile, ValidDisk, AllLines;
    IdentityIsLines(p);
    MirrorIsLines();
    AccountIsLines(p);
    DiskIsLines(disk);
    SoftwareIsLines(packages);
    FinishIsLines(disk, late);
    var name := [FULL_NAME_LINE + p.fullName];
    OneLineAlone(FULL_NAME_LINE + p.fullName);
    AllLinesAppend(Identity(p), Mirror());
    AllLinesAppend(Identity(p) + Mirror(), name);
    AllLinesAppend(Identity(p) + Mirror() + name, Account(p));
    AllLinesAppend(Identity(p) + Mirror() + name + Account(p), Disk(disk));
    AllLinesAppend(Identity(p) + Mirror() + name + Account(p) + Disk(disk), Partition());
    AllLinesAppend(Identity(p) + Mirror() + name + Account(p) + Disk(disk) + Partition(), Software(packages));
    AllLinesAppend(
      Identity(p) + Mirror() + name + Account(p) + Disk(disk) + Partition() + Software(packages), Finish(disk, late));
  }

  lemma {:induction false} LateCommandIsLine(username: Word, keys: seq<string>)
    requires Parsable(keys)
    ensures '\n' !in Join(LateCommands(username, keys), SEPARATOR)
  {
    hide LateCommands, Closed;
    LateCommandsTidy(username, keys);
    JoinedIsLine(LateCommands(username, keys), SEPARATOR);
  }

  /** The late command of a valid profile, which always has one. */
  function LateCommandOf(p: Profile): (r: string)
    requires ValidProfile(p)
  {
    ValidProfileParts(p);
    Join(LateCommands(p.username, p.authorizedKeys), SEPARATOR)
  }

  lemma {:induction false} LateCommandOfIsLine(p: Profile)
    requires ValidProfile(p)
    ensures '\n' !in LateCommandOf(p)
  {
    ValidProfileParts(p);
    LateCommandIsLine(p.username, p.authorizedKeys);
  }

  /** The installer reads the rendered preseed as exactly its directives if, and only if, the full name has no newline.
      Validation looks at the trimmed full name, so it does not ensure that by itself. */
  lemma {:induction false} PreseedSplitsExactly(p: Profile, disk: string, packages: seq<string>)
    requires ValidProfile(p) && ValidDisk(disk)
    requires forall name :: name in packages <==> name in BASE_PACKAGES || name in p.packages
    ensures var directives := Directives(p, disk, packages, LateCommandOf(p));
      Split(Terminated(directives), '\n') == directives + [""] <==> '\n' !in p.fullName
  {
    hide ValidProfile, ValidDisk, Directives, LateCommandOf, Split, Terminated, AllLines;
    ValidProfileParts(p);
    LateCommandOfIsLine(p);
    PackagesAreLines(p.packages, packages);
    DirectivesAreLines(p, disk, packages, LateCommandOf(p));
    SplitsIffLines(Directives(p, disk, packages, LateCommandOf(p)));
  }

  lemma {:induction false} AnswersBefore(p: Profile)
    ensures |Identity(p)| == 7 && |Mirror()| == 7 && |Account(p)| == 5
    ensures Identity(p)[2] == "d-i debian-installer/" + "locale string " + p.locale
    ensures Identity(p)[3] == "d-i keyboard-configuration/" + "xkb-keymap select " + p.keyboard
    ensures Identity(p)[5] == "d-i netcfg/" + "get_hostname string " + p.hostname
    ensures Identity(p)[6] == "d-i netcfg/" + "hostname string " + p.hostname
    ensures Account(p)[0] == "d-i passwd/" + "username string " + p.username
    ensures Account(p)[3] == "d-i time/zone string " + p.timezone
  {
  }

  lemma {:induction false} AnswersAfter(disk: string, packages: seq<string>, late: string)
    ensures |Disk(disk)| == 6 && |Partition()| == 5 && |Software(packages)| == 6 && |Finish(disk, late)| == 6
    ensures Disk(disk)[0] == "d-i partman-" + "auto/disk string " + disk
    ensures Software(packages)[3] == "d-i pkgsel/include string " + Join(packages, " ")
    ensures Finish(disk, late)[2] == "d-i grub-installer/" + "bootdev string " + disk
    ensures Finish(disk, late)[3] == "d-i preseed/" + "late_command string " + late
  {
  }

  /** Every question that the profile decides is in its place and is answered with that field. */
  lemma {:induction false} QuestionsAreAnswered(p: Profile, disk: string, packages: seq<string>, late: string)
    ensures var lines := Directives(p, disk, packages, late);
      && |lines| == 43
      && lines[2] == "d-i debian-installer/" + "locale string " + p.locale
      && lines[3] == "d-i keyboard-configuration/" + "xkb-keymap select " + p.keyboard
      && lines[5] == "d-i netcfg/" + "get_hostname string " + p.hostname
      && lines[6] == "d-i netcfg/" + "hostname string " + p.hostname
      && lines[14] == "d-i passwd/user-" + "fullname string " + p.fullName
      && lines[15] == "d-i passwd/" + "username string " + p.username
      && lines[18] == "d-i time/zone string " + p.timezone
      && lines[20] == "d-i partman-" + "auto/disk string " + disk
      && lines[34] == "d-i pkgsel/include string " + Join(packages, " ")
      && lines[39] == "d-i grub-installer/" + "bootdev string " + disk
      && lines[40] == "d-i preseed/" + "late_command string " + late
  {
    hide Identity, Mirror, Account, Disk, Partition, Software, Finish, Join;
    AnswersBefore(p);
    AnswersAfter(disk, packages, late);
    var lines := Directives(p, disk, packages, late);
    assert lines[2] == Identity(p)[2] && lines[3] == Identity(p)[3] && lines[5] == Identity(p)[5] && lines[6] == Identity(p)[6];
    assert lines[15] == Account(p)[0] && lines[18] == Account(p)[3] && lines[20] == Disk(disk)[0];
    assert lines[34] == Software(packages)[3] && lines[39] == Finish(disk, late)[2] && lines[40] == Finish(disk, late)[3];
  }

  const MAX_SEED: nat := 256 * 1024

  /** renderPreseed as a whole: the content is determined by the profile and the disk, and it is refused exactly when
      it is too long for a bundle. The bundle's file name and media type are constants that its validation accepts. */
  method RenderSeed(p: Profile, disk: string) returns (r: Result<string>)
    requires ValidProfile(p)
    ensures exists packages ::
      && Sorted(packages)
      && (forall name :: name in packages <==> name in BASE_PACKAGES || name in p.packages)
      && r == Bundled(Terminated(Directives(p, disk, packages, LateCommandOf(p))))
  {
    hide ValidProfile, Directives, Terminated, LateCommands, Sorted, Percent.Utf8;
    ValidProfileParts(p);
    var packages := SeedPackages(p.packages);
    var late := RenderLateCommand(p.username, p.authorizedKeys);
    var content := RenderPreseed(p, disk, packages, late.value);
    SeedIsNotEmpty(p, disk, packages, LateCommandOf(p));
    if |Percent.Utf8(content)| == 0 || |Percent.Utf8(content)| > MAX_SEED {
      return Err(DriverRenderFailed);
    }
    return Ok(content);
  }

  function Bundled(content: string): Result<string> {
    if |Percent.Utf8(content)| <= MAX_SEED then Ok(content) else Err(DriverRenderFailed)
  }

  lemma {:induction false} SeedIsNotEmpty(p: Profile, disk: string, packages: seq<string>, late: string)
    ensures |Percent.Utf8(Terminated(Directives(p, disk, packages, late)))| > 0
  {
  }

  lemma {:induction false} SplitsIffLines(lines: seq<string>)
    ensures Split(Terminated(lines), '\n') == lines + [""] <==> AllLines(lines)
  {
    hide Split, Terminated;
    if AllLines(lines) {
      SplitTerminated(lines);
    } else {
      assert forall k | 0 <= k < |lines| :: (lines + [""])[k] == lines[k];
    }
  }

  lemma {:induction false} ValidProfileParts(p: Profile)
    requires ValidProfile(p)
    ensures Bare(p.username) && Parsable(p.authorizedKeys)
    ensures forall k | 0 <= k < |p.packages| :: NameLike(p.packages[k])
  {
    hide NameLike, ValidFullName, Fields;
    BareUsername(p.username);
  }

  lemma {:induction false} BareUsername(username: string)
    requires ValidUsername(username)
    ensures Bare(username)
  {
  }

  lemma {:induction false} NewlineIsTrimmed(name: string)
    requires name != [] && !IsSpace(name[0]) && !IsSpace(name[|name| - 1])
    ensures Trim(name + "\n") == name
  {
    var s := name + "\n";
    assert IsSpace('\n');
    hide IsSpace;
    assert s[|name|] == '\n' && s[0] == name[0] && s[|name| - 1] == name[|name| - 1];
    assert TrimLeft(s) == s;
    assert SkipSpaceBack(s, |s|) == SkipSpaceBack(s, |name|) == |name|;
    assert s[..|name|] == name;
  }

  /** Validation takes every acceptable full name with a newline after it. */
  lemma {:induction false} FullNameMayEndTheLine(name: string)
    requires ValidFullName(name) && Trim(name) == name
    ensures ValidFullName(name + "\n") && '\n' in name + "\n"
  {
    hide IsSpace;
    NewlineIsTrimmed(name);
    assert (name + "\n")[|name|] == '\n';
    hide Trim;
  }

  /** And nowhere else: a line break in an accepted full name has nothing but white space on one side. */
  lemma {:induction false} AcceptedBreaksAreOutside(name: string, k: nat)
    requires ValidFullName(name) && k < |name| && (name[k] == '\n' || name[k] == '\r')
    ensures (forall j | 0 <= j < k :: IsSpace(name[j])) || (forall j | k < j < |name| :: IsSpace(name[j]))
  {
    hide IsSpace;
    var front := TrimIsExact(name);
    assert forall j | front <= j < front + |Trim(name)| ::
        name[j] == Trim(name)[j - front] && Trim(name)[j - front] in Trim(name);
  }
}
