/** What the late command leaves in the files of the installed system, when the shell reads its text and runs it. */
module LateCommand {
  import opened Prelude
  import opened Text
  import opened Shell
  import opened Preseed

  // ---------------------------------------------------------------------------
  // Running redirections
  // ---------------------------------------------------------------------------

  /** The lines of the file at `path` after a command: an echo that is redirected there replaces or extends them, an empty
      command that is redirected there removes them, and nothing else touches them. */
  function Effect(command: string, path: string, lines: seq<string>): seq<string> {
    var words := Lex(Plain, command, None);
    if words.None? then lines
    else
      var w := words.value;
      if |w| == 4 && w[0] == "echo" && w[2] == ">" && w[3] == path then [w[1]]
      else if |w| == 4 && w[0] == "echo" && w[2] == ">>" && w[3] == path then lines + [w[1]]
      else if |w| == 3 && w[0] == ":" && w[1] == ">" && w[2] == path then []
      else lines
  }

  function FileAfter(commands: seq<string>, path: string, lines: seq<string>): seq<string> {
    if commands == [] then lines else FileAfter(commands[1..], path, Effect(commands[0], path, lines))
  }

  /** The lines of the file after a text of commands. */
  function FileAfterText(text: string, path: string, lines: seq<string>): seq<string> {
    var commands := SplitCommands(Plain, text, "");
    if commands.Some? then FileAfter(commands.value, path, lines) else lines
  }

  lemma {:induction false} FileAfterBoth(a: seq<string>, b: seq<string>, path: string, lines: seq<string>)
    ensures FileAfter(a + b, path, lines) == FileAfter(b, path, FileAfter(a, path, lines))
    decreases |a|
  {
    hide Effect;
    if a == [] {
      assert a + b == b;
    } else {
      assert (a + b)[1..] == a[1..] + b;
      FileAfterBoth(a[1..], b, path, Effect(a[0], path, lines));
    }
  }

  ghost predicate Leaves(command: string, path: string) {
    forall lines :: Effect(command, path, lines) == lines
  }

  ghost predicate AllLeave(commands: seq<string>, path: string) {
    forall k | 0 <= k < |commands| :: Leaves(commands[k], path)
  }

  lemma {:induction false} LeftAlone(commands: seq<string>, path: string, lines: seq<string>)
    requires AllLeave(commands, path)
    ensures FileAfter(commands, path, lines) == lines
    decreases |commands|
  {
    hide Effect;
    if commands != [] {
      assert Leaves(commands[0], path);
      LeftAlone(commands[1..], path, lines);
    }
  }

  lemma {:induction false} AllLeaveBoth(a: seq<string>, b: seq<string>, path: string)
    requires AllLeave(a, path) && AllLeave(b, path)
    ensures AllLeave(a + b, path)
  {
    hide Leaves;
  }

  // --- single commands ---

  lemma {:induction false} Writes(file: Line, line: Line, path: string, lines: seq<string>)
    ensures Effect(WriteLine(file, line), path, lines) == if file == path then [line] else lines
  {
    hide Lex, ShellQuote;
    RedirectedEcho(line, ">", file);
    assert "echo " + ShellQuote(line) + " " + ">" + " " + ShellQuote(file) == WriteLine(file, line);
  }

  lemma {:induction false} Appends(file: Line, line: Line, path: string, lines: seq<string>)
    ensures Effect(AppendLine(file, line), path, lines) == if file == path then lines + [line] else lines
  {
    hide Lex, ShellQuote;
    RedirectedEcho(line, ">>", file);
    assert "echo " + ShellQuote(line) + " " + ">>" + " " + ShellQuote(file) == AppendLine(file, line);
  }

  lemma {:induction false} Empties(file: Line, path: string, lines: seq<string>)
    ensures Effect(CREATE + ShellQuote(file), path, lines) == if file == path then [] else lines
  {
    hide Lex, ShellQuote;
    QuoteRoundTrip(file);
    LexWordThenBlank(">", ShellQuote(file));
    LexWordThenBlank(":", ">" + " " + ShellQuote(file));
    assert CREATE + ShellQuote(file) == ":" + " " + (">" + " " + ShellQuote(file));
    assert [">"] + [file] == [">", file];
    assert [":"] + [">", file] == [":", ">", file];
  }

  /** A command that is neither echo nor empty writes nothing here. */
  lemma {:induction false} Other(word: string, rest: string, path: string)
    requires word != [] && (forall k | 0 <= k < |word| :: PlainChar(word[k])) && word != "echo" && word != ":"
    ensures Leaves(word + " " + rest, path)
  {
    hide Lex;
    LexWordThenBlank(word, rest);
  }

  lemma {:induction false} InTarget(command: string, rest: string, path: string)
    requires command == "in-target " + rest
    ensures Leaves(command, path)
  {
    hide Leaves;
    Other("in-target", rest, path);
    assert command == "in-target" + " " + rest;
  }

  lemma {:induction false} Chmod(command: string, rest: string, path: string)
    requires command == "chmod " + rest
    ensures Leaves(command, path)
  {
    hide Leaves;
    Other("chmod", rest, path);
    assert command == "chmod" + " " + rest;
  }

  lemma {:induction false} MarkerLeaves(step: Line, result: Line, path: string)
    requires path != LOG
    ensures Leaves(Marker(step, result), path)
  {
    hide WriteLine, AppendLine, Effect;
    WriteLeaves(LOG, MARK_STEP + step + MARK_RESULT + result, path);
  }

  lemma {:induction false} WriteLeaves(file: Line, line: Line, path: string)
    requires path != file
    ensures Leaves(WriteLine(file, line), path) && Leaves(AppendLine(file, line), path)
  {
    hide WriteLine, AppendLine, Effect;
    forall lines: seq<string>
      ensures Effect(WriteLine(file, line), path, lines) == lines && Effect(AppendLine(file, line), path, lines) == lines
    {
      Writes(file, line, path, lines);
      Appends(file, line, path, lines);
    }
  }

  // ---------------------------------------------------------------------------
  // The parts of the late command
  // ---------------------------------------------------------------------------

  lemma {:induction false} SetLeaves(path: string)
    ensures Leaves(SET_E, path)
  {
    hide Leaves;
    Other("set", "-e", path);
    assert SET_E == "set" + " " + "-e";
  }

  lemma {:induction false} LogDirLeaves(path: string)
    ensures Leaves(INSTALL_LOG_DIR, path)
  {
    hide Leaves;
    Other("install", "-d -m 0755 /target/var/log", path);
    assert INSTALL_LOG_DIR == "install" + " " + "-d -m 0755 /target/var/log";
  }

  lemma {:induction false} SshHomeLeaves(username: Word, path: string)
    ensures Leaves(INSTALL_SSH_HOME + username + GROUP + username + BLANK + SshHome(username), path)
  {
    hide Leaves, SshHome;
    var owner := username + GROUP + username + BLANK + SshHome(username);
    assert INSTALL_SSH_HOME + username + GROUP + username + BLANK + SshHome(username)
        == "in-target " + ("install -d -m 0700 -o " + owner);
    InTarget(INSTALL_SSH_HOME + username + GROUP + username + BLANK + SshHome(username), "install -d -m 0700 -o " + owner, path);
  }

  lemma {:induction false} OpeningWrites(username: Word, path: string, lines: seq<string>)
    requires path != LOG
    ensures FileAfter(Opening(username), path, lines) == if path == KeysPath(username) then [] else lines
  {
    hide Effect, AllLeave, Preparation, Creation, KeysPath;
    PreparationLeaves(username, path);
    LeftAlone(Preparation(username), path, lines);
    FileAfterBoth(Preparation(username), [Creation(username)], path, lines);
    CreationWrites(username, path, lines);
    One(Creation(username), path, lines);
  }

  lemma {:induction false} CreationWrites(username: Word, path: string, lines: seq<string>)
    ensures Effect(Creation(username), path, lines) == if path == KeysPath(username) then [] else lines
  {
    hide Effect, KeysPath, ShellQuote;
    Empties(KeysPath(username), path, lines);
  }

  lemma {:induction false} PreparationLeaves(username: Word, path: string)
    requires path != LOG
    ensures AllLeave(Preparation(username), path)
  {
    hide Leaves, Marker, SshHome;
    SetLeaves(path);
    LogDirLeaves(path);
    MarkerLeaves(LATE_COMMAND, STARTED, path);
    MarkerLeaves(KEYS_STEP, STARTED, path);
    SshHomeLeaves(username, path);
  }

  lemma {:induction false} One(command: string, path: string, lines: seq<string>)
    ensures FileAfter([command], path, lines) == Effect(command, path, lines)
  {
    hide Effect;
    assert [command][1..] == [];
  }

  function KeyLines(keys: seq<string>): seq<string>
    requires Parsable(keys)
  {
    seq(|keys|, k requires 0 <= k < |keys| => Fields(keys[k])[0] + " " + Fields(keys[k])[1])
  }

  lemma {:induction false} FirstOf(first: string, rest: seq<string>, path: string, lines: seq<string>)
    ensures FileAfter([first] + rest, path, lines) == FileAfter(rest, path, Effect(first, path, lines))
  {
    hide Effect;
    assert ([first] + rest)[1..] == rest;
  }

  lemma {:induction false} KeysBegin(username: Word, keys: seq<string>)
    requires Parsable(keys) && keys != []
    ensures KeyCommands(username, keys) == [AppendLine(KeysPath(username), KeyLine(keys[0]))] + KeyCommands(username, keys[1..])
    ensures KeyLines(keys) == [KeyLine(keys[0])] + KeyLines(keys[1..])
  {
    hide AppendLine, KeysPath, Fields;
  }

  lemma {:induction false} KeysWrite(username: Word, keys: seq<string>, path: string, lines: seq<string>)
    requires Parsable(keys)
    ensures FileAfter(KeyCommands(username, keys), path, lines)
      == if path == KeysPath(username) then lines + KeyLines(keys) else lines
    decreases |keys|
  {
    hide Effect, AppendLine, KeysPath, KeyLine, Fields;
    if keys == [] {
      assert lines + KeyLines(keys) == lines;
    } else {
      hide FileAfter, KeyCommands, KeyLines;
      var line, rest := KeyLine(keys[0]), keys[1..];
      KeysBegin(username, keys);
      FirstOf(AppendLine(KeysPath(username), line), KeyCommands(username, rest), path, lines);
      Appends(KeysPath(username), line, path, lines);
      KeysWrite(username, rest, path, Effect(AppendLine(KeysPath(username), line), path, lines));
      assert lines + [line] + KeyLines(rest) == lines + ([line] + KeyLines(rest));
    }
  }

  lemma {:induction false} OwnershipLeaves(username: Word, path: string)
    requires path != LOG
    ensures AllLeave(Ownership(username), path)
  {
    hide Leaves, Marker, SshHome;
    OwnedLeaves(username, path);
    MarkerLeaves(KEYS_STEP, SUCCESS, path);
  }

  lemma {:induction false} OwnedLeaves(username: Word, path: string)
    ensures Leaves(CHOWN + username + COLON + username + BLANK + SshHome(username) + KEYS_FILE, path)
    ensures Leaves(CHMOD_KEYS + SshHome(username) + KEYS_FILE, path)
  {
    hide Leaves, SshHome;
    var owner := username + COLON + username + BLANK + SshHome(username) + KEYS_FILE;
    assert CHOWN + username + COLON + username + BLANK + SshHome(username) + KEYS_FILE == "in-target " + ("chown " + owner);
    InTarget(CHOWN + username + COLON + username + BLANK + SshHome(username) + KEYS_FILE, "chown " + owner, path);
    var file := SshHome(username) + KEYS_FILE;
    assert CHMOD_KEYS + SshHome(username) + KEYS_FILE == "in-target " + ("chmod 0600 " + file);
    InTarget(CHMOD_KEYS + SshHome(username) + KEYS_FILE, "chmod 0600 " + file, path);
  }

  lemma {:induction false} SudoLeaves(username: Word, path: string)
    requires path != LOG
    ensures AllLeave(SudoGroup(username), path) && AllLeave(SudoCheck(), path)
  {
    hide Leaves, Marker;
    MarkerLeaves(SUDO, STARTED, path);
    MarkerLeaves(SUDO, SUCCESS, path);
    MarkerLeaves(VALIDATE_SUDOERS, STARTED, path);
    MarkerLeaves(VALIDATE_SUDOERS, SUCCESS, path);
    SudoCommandsLeave(username, path);
    VisudoLeaves(path);
  }

  lemma {:induction false} SudoCommandsLeave(username: Word, path: string)
    ensures Leaves(USERMOD_SUDO + username, path) && Leaves(CHMOD_0440 + TARGET + SUDOERS, path)
  {
    hide Leaves;
    assert USERMOD_SUDO + username == "in-target " + ("usermod -aG sudo " + username);
    InTarget(USERMOD_SUDO + username, "usermod -aG sudo " + username, path);
    assert CHMOD_0440 + TARGET + SUDOERS == "chmod " + ("0440 " + TARGET + SUDOERS);
    Chmod(CHMOD_0440 + TARGET + SUDOERS, "0440 " + TARGET + SUDOERS, path);
  }

  lemma {:induction false} VisudoLeaves(path: string)
    ensures Leaves(VISUDO + SUDOERS, path)
  {
    hide Leaves;
    assert VISUDO + SUDOERS == "in-target " + ("visudo -cf " + SUDOERS);
    InTarget(VISUDO + SUDOERS, "visudo -cf " + SUDOERS, path);
  }

  lemma {:induction false} Around(
    front: seq<string>, middle: seq<string>, rest: seq<string>, path: string, lines: seq<string>)
    requires AllLeave(front, path) && AllLeave(rest, path)
    ensures FileAfter(front + middle + rest, path, lines) == FileAfter(middle, path, lines)
  {
    hide Effect, AllLeave, FileAfter;
    LeftAlone(front, path, lines);
    FileAfterBoth(front + middle, rest, path, lines);
    FileAfterBoth(front, middle, path, lines);
    LeftAlone(rest, path, FileAfter(middle, path, lines));
  }

  lemma {:induction false} SudoWrites(username: Word, path: string, lines: seq<string>)
    requires path != LOG
    ensures FileAfter(Sudo(username), path, lines) == if path == SUDOERS_PATH then [username + NOPASSWD] else lines
  {
    hide Effect, AllLeave, SudoGroup, SudoCheck, WriteLine;
    SudoLeaves(username, path);
    Around(SudoGroup(username), [Sudoers(username)], SudoCheck(), path, lines);
    Writes(SUDOERS_PATH, username + NOPASSWD, path, lines);
    One(Sudoers(username), path, lines);
  }

  lemma {:induction false} DaemonLeaves(username: Word, path: string)
    requires path != LOG
    ensures AllLeave(DaemonDirectory(), path) && AllLeave(DaemonModes(username), path)
  {
    hide Leaves, Marker;
    MarkerLeaves(SSHD_CONFIG, STARTED, path);
    MarkerLeaves(SSHD_CONFIG, SUCCESS, path);
    DaemonCommandsLeave(username, path);
  }

  lemma {:induction false} DaemonCommandsLeave(username: Word, path: string)
    ensures Leaves(MKDIR + TARGET + SSHD_DIR, path) && Leaves(CHMOD_0644 + TARGET + SSHD_DIR + SSHD_FILE, path)
    ensures Leaves(USERMOD_NP + username, path)
  {
    hide Leaves;
    assert MKDIR + TARGET + SSHD_DIR == "mkdir" + " " + ("-p " + TARGET + SSHD_DIR);
    Other("mkdir", "-p " + TARGET + SSHD_DIR, path);
    assert CHMOD_0644 + TARGET + SSHD_DIR + SSHD_FILE == "chmod " + ("0644 " + TARGET + SSHD_DIR + SSHD_FILE);
    Chmod(CHMOD_0644 + TARGET + SSHD_DIR + SSHD_FILE, "0644 " + TARGET + SSHD_DIR + SSHD_FILE, path);
    assert USERMOD_NP + username == "in-target " + ("usermod -p NP " + username);
    InTarget(USERMOD_NP + username, "usermod -p NP " + username, path);
  }

  lemma {:induction false} DaemonWrites(username: Word, path: string, lines: seq<string>)
    requires path != LOG
    ensures FileAfter(Daemon(username), path, lines)
      == if path == SSHD_PATH then [NO_PASSWORDS, NO_KEYBOARD, NO_EMPTY, NO_ROOT, PUBLIC_KEYS] else lines
  {
    hide Effect, AllLeave, DaemonDirectory, DaemonConfig, DaemonModes;
    DaemonLeaves(username, path);
    Around(DaemonDirectory(), DaemonConfig(), DaemonModes(username), path, lines);
    ConfigWrites(path, lines);
  }

  /** A file that is written once and then extended. */
  lemma {:induction false} WrittenOut(
    file: Line, first: Line, rest: seq<Line>, commands: seq<string>, path: string, lines: seq<string>)
    requires |commands| == 1 + |rest| && commands[0] == WriteLine(file, first)
    requires forall k | 0 <= k < |rest| :: commands[k + 1] == AppendLine(file, rest[k])
    ensures FileAfter(commands, path, lines) == if path == file then [first] + rest else lines
  {
    hide Effect, WriteLine, AppendLine;
    Writes(file, first, path, lines);
    Extended(file, rest, commands[1..], path, Effect(commands[0], path, lines));
  }

  lemma {:induction false} Extended(
    file: Line, more: seq<Line>, commands: seq<string>, path: string, lines: seq<string>)
    requires |commands| == |more| && forall k | 0 <= k < |more| :: commands[k] == AppendLine(file, more[k])
    ensures FileAfter(commands, path, lines) == if path == file then lines + more else lines
    decreases |more|
  {
    hide Effect, AppendLine;
    if more == [] {
      assert lines + more == lines;
    } else {
      Appends(file, more[0], path, lines);
      Extended(file, more[1..], commands[1..], path, Effect(commands[0], path, lines));
      assert lines + [more[0]] + more[1..] == lines + more;
    }
  }

  lemma {:induction false} ConfigWrites(path: string, lines: seq<string>)
    ensures FileAfter(DaemonConfig(), path, lines)
      == if path == SSHD_PATH then [NO_PASSWORDS, NO_KEYBOARD, NO_EMPTY, NO_ROOT, PUBLIC_KEYS] else lines
  {
    hide Effect, WriteLine, AppendLine, FileAfter;
    WrittenOut(SSHD_PATH, NO_PASSWORDS, [NO_KEYBOARD, NO_EMPTY, NO_ROOT, PUBLIC_KEYS], DaemonConfig(), path, lines);
  }

  lemma {:induction false} RuntimeLeaves(path: string)
    requires path != LOG
    ensures AllLeave(Runtime(), path)
  {
    hide Leaves, Marker;
    MarkerLeaves(SSHD_RUNTIME, STARTED, path);
    MarkerLeaves(SSHD_RUNTIME, SUCCESS, path);
    MarkerLeaves(VALIDATE_SSHD, STARTED, path);
    MarkerLeaves(VALIDATE_SSHD, SUCCESS, path);
    RuntimeCommandsLeave(path);
  }

  lemma {:induction false} RuntimeCommandsLeave(path: string)
    ensures Leaves(INSTALL_RUN + SSHD_RUN, path) && Leaves(KEYGEN, path) && Leaves(SSHD_T, path)
  {
    hide Leaves;
    assert INSTALL_RUN + SSHD_RUN == "in-target " + ("install -d -m 0755 " + SSHD_RUN);
    InTarget(INSTALL_RUN + SSHD_RUN, "install -d -m 0755 " + SSHD_RUN, path);
    InTarget(KEYGEN, "ssh-keygen -A", path);
    InTarget(SSHD_T, "sshd -t", path);
  }

  lemma {:induction false} UpdatesLeave(path: string)
    requires path != LOG
    ensures AllLeave(UpdatesStart(), path) && AllLeave(UpdatesEnd(), path)
  {
    hide Leaves, Marker;
    MarkerLeaves(UPDATES, STARTED, path);
    MarkerLeaves(UPDATES, SUCCESS, path);
    MarkerLeaves(LATE_COMMAND, SUCCESS, path);
    assert CHMOD_0644 + TARGET + APT_DIR + UPGRADES_FILE == "chmod " + ("0644 " + TARGET + APT_DIR + UPGRADES_FILE);
    Chmod(CHMOD_0644 + TARGET + APT_DIR + UPGRADES_FILE, "0644 " + TARGET + APT_DIR + UPGRADES_FILE, path);
  }

  lemma {:induction false} UpdatesWrite(path: string, lines: seq<string>)
    requires path != LOG
    ensures FileAfter(Updates(), path, lines) == if path == UPGRADES_PATH then [UPDATE_LISTS, UPGRADE] else lines
  {
    hide Effect, AllLeave, UpdatesStart, UpdatesEnd, WriteLine, AppendLine, FileAfter;
    UpdatesLeave(path);
    Around(UpdatesStart(), UpdatesConfig(), UpdatesEnd(), path, lines);
    WrittenOut(UPGRADES_PATH, UPDATE_LISTS, [UPGRADE], UpdatesConfig(), path, lines);
  }

  // ---------------------------------------------------------------------------
  // The whole late command
  // ---------------------------------------------------------------------------

  lemma {:induction false} PathsDiffer(username: Word)
    ensures KeysPath(username) != LOG && KeysPath(username) != SUDOERS_PATH
    ensures KeysPath(username) != SSHD_PATH && KeysPath(username) != UPGRADES_PATH
    ensures SUDOERS_PATH != LOG && SSHD_PATH != LOG && UPGRADES_PATH != LOG
    ensures SUDOERS_PATH != SSHD_PATH && SUDOERS_PATH != UPGRADES_PATH && SSHD_PATH != UPGRADES_PATH
  {
    assert KeysPath(username)[8] == 'h' && LOG[8] == 'v';
    assert SUDOERS_PATH[8] == 'e' && SSHD_PATH[8] == 'e' && UPGRADES_PATH[8] == 'e';
    assert SUDOERS_PATH[13] == 'u' && SSHD_PATH[13] == 's' && UPGRADES_PATH[13] == 'p';
  }

  lemma {:induction false} CommandsWrite(username: Word, keys: seq<string>, path: string, lines: seq<string>)
    requires Parsable(keys) && path != LOG
    ensures FileAfter(LateCommands(username, keys), path, lines)
      == if path == KeysPath(username) then KeyLines(keys)
         else if path == SUDOERS_PATH then [username + NOPASSWD]
         else if path == SSHD_PATH then [NO_PASSWORDS, NO_KEYBOARD, NO_EMPTY, NO_ROOT, PUBLIC_KEYS]
         else if path == UPGRADES_PATH then [UPDATE_LISTS, UPGRADE]
         else lines
  {
    hide FileAfter, AllLeave, Opening, KeyCommands, Ownership, Sudo, Daemon, Runtime, Updates, KeysPath, Fields;
    hide KeyLines;
    PathsDiffer(username);
    var a, b, c := Opening(username), KeyCommands(username, keys), Ownership(username);
    var d, e, f, g := Sudo(username), Daemon(username), Runtime(), Updates();
    var l1 := FileAfter(a, path, lines);
    var l2 := FileAfter(b, path, l1);
    FileAfterBoth(a, b, path, lines);
    FileAfterBoth(a + b, c, path, lines);
    FileAfterBoth(a + b + c, d, path, lines);
    FileAfterBoth(a + b + c + d, e, path, lines);
    FileAfterBoth(a + b + c + d + e, f, path, lines);
    FileAfterBoth(a + b + c + d + e + f, g, path, lines);
    OpeningWrites(username, path, lines);
    KeysWrite(username, keys, path, l1);
    OwnershipLeaves(username, path);
    LeftAlone(c, path, l2);
    SudoWrites(username, path, l2);
    var l4 := FileAfter(d, path, l2);
    DaemonWrites(username, path, l4);
    var l5 := FileAfter(e, path, l4);
    RuntimeLeaves(path);
    LeftAlone(f, path, l5);
    UpdatesWrite(path, l5);
    assert [] + KeyLines(keys) == KeyLines(keys);
  }

  /** What the installed system is meant to have in a file, in full. */
  function Meant(username: Word, keys: seq<string>, path: string, lines: seq<string>): seq<string>
    requires Parsable(keys)
  {
    if path == "/target/home/" + username + "/.ssh/authorized_keys" then
      seq(|keys|, k requires 0 <= k < |keys| => Fields(keys[k])[0] + " " + Fields(keys[k])[1])
    else if path == "/target" + "/etc/sudoers.d/90-aegispxe-admin" then [username + " ALL=(ALL:ALL) NOPASSWD: ALL"]
    else if path == "/target" + "/etc/ssh/sshd_config.d" + "/90-aegispxe.conf" then
      ["PasswordAuthentication no", "KbdInteractiveAuthentication no", "PermitEmptyPasswords no", "PermitRootLogin no",
       "PubkeyAuthentication yes"]
    else if path == "/target" + "/etc/apt/apt.conf.d" + "/20auto-upgrades" then
      ["APT::Periodic::Update-Package-Lists \"1\";", "APT::Periodic::Unattended-Upgrade \"1\";"]
    else lines
  }

  /** When the shell reads and runs the text of the late command, whatever the keys are and whatever was there before, the
      file of authorized keys holds exactly the type and the payload of every key, in order; the sudoers file lets the
      administrator do everything without a password; the ssh daemon accepts public keys and neither passwords, nor
      keyboard-interactive authentication, nor empty passwords, nor root; updates are automatic; and no other file but the
      log is written. */
  lemma {:induction false} LateCommandWrites(username: Word, keys: seq<string>, path: string, lines: seq<string>)
    requires Parsable(keys) && path != "/target/var/log/aegispxe-installer.log"
    ensures FileAfterText(Join(LateCommands(username, keys), SEPARATOR), path, lines) == Meant(username, keys, path, lines)
  {
    hide FileAfter, LateCommands, Join, SplitCommands, Fields;
    LateCommandSplits(username, keys);
    CommandsWrite(username, keys, path, lines);
  }
}
