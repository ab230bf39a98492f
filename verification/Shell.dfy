/** Quoting by sections 2.2.2 (single quotes) and 2.2.3 (double quotes) of the POSIX.1-2017 Shell Command Language, as
    far as the rendered commands use it. A backslash, dollar sign or backquote where it would be special is rejected, so
    that a text that is split or lexed here means the same to the shell. */
module Shell {
  import opened Prelude
  import opened Text

  datatype Mode = Plain | InSingle | InDouble

  function Step(mode: Mode, c: char): Mode {
    match mode
    case Plain => if c == '\'' then InSingle else if c == '"' then InDouble else Plain
    case InSingle => if c == '\'' then Plain else InSingle
    case InDouble => if c == '"' then Plain else InDouble
  }

  predicate Special(mode: Mode, c: char) {
    mode != InSingle && (c == '\\' || c == '$' || c == '`')
  }

  // ---------------------------------------------------------------------------
  // shellQuote
  // ---------------------------------------------------------------------------

  /** Each single quote leaves the quotes, is quoted the other way, and enters them again. */
  function Escaped(v: string): string {
    if v == [] then []
    else (if v[0] == '\'' then "'\"'\"'" else [v[0]]) + Escaped(v[1..])
  }

  function ShellQuote(v: string): string {
    "'" + Escaped(v) + "'"
  }

  // ---------------------------------------------------------------------------
  // Words
  // ---------------------------------------------------------------------------

  /** Characters that end a word, make an operator other than a redirection, or ask for an expansion. */
  predicate Operator(c: char) {
    c == ';' || c == '&' || c == '|' || c == '(' || c == ')' || c == '<' || c == '\n' || c == '\t' || c == '#'
    || c == '*' || c == '?' || c == '[' || c == '~'
  }

  /** The words of a command, with quotes removed; None when the text ends inside quotes or has a character that the
      rendered commands do not use. */
  function Lex(mode: Mode, s: string, word: Option<string>): Option<seq<string>>
    decreases |s|
  {
    if s == [] then
      if mode != Plain then None
      else if word.Some? then Some([word.value])
      else Some([])
    else if Special(mode, s[0]) then None
    else if mode == Plain && Operator(s[0]) then None
    else if mode == Plain && s[0] == ' ' then
      var rest := Lex(Plain, s[1..], None);
      if rest.Some? && word.Some? then Some([word.value] + rest.value) else rest
    else
      var before := if word.Some? then word.value else "";
      var quote := Step(mode, s[0]) != mode;
      Lex(Step(mode, s[0]), s[1..], Some(if quote then before else before + [s[0]]))
  }

  lemma {:induction false} LexEscaped(v: string, rest: string, word: string)
    ensures Lex(InSingle, Escaped(v) + "'" + rest, Some(word)) == Lex(Plain, rest, Some(word + v))
    decreases |v|
  {
    if v == [] {
      assert Escaped(v) + "'" + rest == "'" + rest;
      assert ("'" + rest)[1..] == rest;
      assert word + v == word;
    } else {
      var tail := Escaped(v[1..]) + "'" + rest;
      LexEscaped(v[1..], rest, word + [v[0]]);
      assert word + v == word + [v[0]] + v[1..];
      if v[0] == '\'' {
        assert Escaped(v) + "'" + rest == "'\"'\"'" + tail;
        LexBreak(tail, word);
      } else {
        assert Escaped(v) + "'" + rest == [v[0]] + tail;
        assert ([v[0]] + tail)[1..] == tail;
      }
    }
  }

  lemma {:induction false} LexBreak(tail: string, word: string)
    ensures Lex(InSingle, "'\"'\"'" + tail, Some(word)) == Lex(InSingle, tail, Some(word + "'"))
  {
    var s := "'\"'\"'" + tail;
    assert s[1..] == "\"'\"'" + tail;
    assert ("\"'\"'" + tail)[1..] == "'\"'" + tail;
    assert ("'\"'" + tail)[1..] == "\"'" + tail;
    assert ("\"'" + tail)[1..] == "'" + tail;
    assert ("'" + tail)[1..] == tail;
    LexOne(InSingle, s, word);
    LexOne(Plain, s[1..], word);
    LexOne(InDouble, s[1..][1..], word);
    LexOne(InDouble, s[1..][1..][1..], word + "'");
    LexOne(Plain, s[1..][1..][1..][1..], word + "'");
  }

  lemma {:induction false} LexOne(mode: Mode, s: string, word: string)
    requires s != [] && !Special(mode, s[0]) && (mode == Plain ==> !Operator(s[0]) && s[0] != ' ')
    ensures Lex(mode, s, Some(word))
      == Lex(Step(mode, s[0]), s[1..], Some(if Step(mode, s[0]) != mode then word else word + [s[0]]))
  {
  }

  lemma {:induction false} LexQuoted(v: string, rest: string)
    ensures Lex(Plain, ShellQuote(v) + rest, None) == Lex(Plain, rest, Some(v))
  {
    var s := ShellQuote(v) + rest;
    assert s[0] == '\'' && s[1..] == Escaped(v) + "'" + rest;
    assert Lex(Plain, s, None) == Lex(InSingle, s[1..], Some(""));
    LexEscaped(v, rest, "");
    assert "" + v == v;
  }

  /** Round trip: the shell reads a quoted value as exactly one word, the value. */
  lemma QuoteRoundTrip(v: string)
    ensures Lex(Plain, ShellQuote(v), None) == Some([v])
  {
    LexQuoted(v, "");
    assert ShellQuote(v) + "" == ShellQuote(v);
  }

  /** Characters that mean themselves outside quotes. */
  predicate PlainChar(c: char) {
    !Special(Plain, c) && !Operator(c) && c != '\'' && c != '"' && c != ' '
  }

  lemma {:induction false} LexPlainWord(w: string, rest: string, word: string)
    requires forall k | 0 <= k < |w| :: PlainChar(w[k])
    ensures Lex(Plain, w + rest, Some(word)) == Lex(Plain, rest, Some(word + w))
    decreases |w|
  {
    if w == [] {
      assert w + rest == rest && word + w == word;
    } else {
      assert (w + rest)[1..] == w[1..] + rest;
      LexOne(Plain, w + rest, word);
      LexPlainWord(w[1..], rest, word + [w[0]]);
      assert word + w == word + [w[0]] + w[1..];
    }
  }

  lemma {:induction false} LexWordThenBlank(w: string, rest: string)
    requires w != [] && forall k | 0 <= k < |w| :: PlainChar(w[k])
    ensures Lex(Plain, w + " " + rest, None)
      == (var after := Lex(Plain, rest, None); if after.Some? then Some([w] + after.value) else None)
  {
    var s := w + " " + rest;
    assert s[0] == w[0] && s[1..] == w[1..] + (" " + rest);
    assert "" + [w[0]] == [w[0]];
    LexPlainWord(w[1..], " " + rest, [w[0]]);
    assert [w[0]] + w[1..] == w;
    assert (" " + rest)[1..] == rest;
  }

  lemma {:induction false} LexQuotedThenBlank(v: string, rest: string)
    ensures Lex(Plain, ShellQuote(v) + " " + rest, None)
      == (var after := Lex(Plain, rest, None); if after.Some? then Some([v] + after.value) else None)
  {
    assert ShellQuote(v) + " " + rest == ShellQuote(v) + (" " + rest);
    LexQuoted(v, " " + rest);
    assert (" " + rest)[1..] == rest;
  }

  /** What echo is given, and where its output goes, is exactly what was asked for, whatever the value contains. */
  lemma {:induction false} RedirectedEcho(value: string, operator: string, path: string)
    requires operator == ">" || operator == ">>"
    ensures Lex(Plain, "echo " + ShellQuote(value) + " " + operator + " " + ShellQuote(path), None)
      == Some(["echo", value, operator, path])
  {
    hide Lex, ShellQuote;
    var last := ShellQuote(path);
    QuoteRoundTrip(path);
    LexWordThenBlank(operator, last);
    LexQuotedThenBlank(value, operator + " " + last);
    LexWordThenBlank("echo", ShellQuote(value) + " " + (operator + " " + last));
    assert "echo " + ShellQuote(value) + " " + operator + " " + last
        == "echo" + " " + (ShellQuote(value) + " " + (operator + " " + last));
    assert [operator] + [path] == [operator, path];
    assert [value] + [operator, path] == [value, operator, path];
    assert ["echo"] + [value, operator, path] == ["echo", value, operator, path];
  }

  // ---------------------------------------------------------------------------
  // Command lists
  // ---------------------------------------------------------------------------

  const SEPARATOR := "; "

  /** The commands between unquoted separators; None when the text ends inside quotes. */
  function SplitCommands(mode: Mode, s: string, current: string): Option<seq<string>>
    decreases |s|
  {
    if s == [] then (if mode == Plain then Some([current]) else None)
    else if Special(mode, s[0]) then None
    else if mode == Plain && HasPrefix(s, SEPARATOR) then
      var rest := SplitCommands(Plain, s[2..], "");
      if rest.Some? then Some([current] + rest.value) else None
    else SplitCommands(Step(mode, s[0]), s[1..], current + [s[0]])
  }

  /** Read from the given mode, the text has no unquoted semicolon, nothing special, and closes its quotes. */
  predicate Closed(mode: Mode, s: string)
    decreases |s|
  {
    if s == [] then mode == Plain
    else !Special(mode, s[0]) && !(mode == Plain && s[0] == ';') && Closed(Step(mode, s[0]), s[1..])
  }

  lemma {:induction false} ClosedAppend(mode: Mode, a: string, b: string)
    requires Closed(mode, a) && Closed(Plain, b)
    ensures Closed(mode, a + b)
    decreases |a|
  {
    if a == [] {
      assert a + b == b;
    } else {
      assert (a + b)[1..] == a[1..] + b;
      ClosedAppend(Step(mode, a[0]), a[1..], b);
    }
  }

  lemma {:induction false} ClosedEscaped(v: string)
    ensures Closed(InSingle, Escaped(v) + "'")
    decreases |v|
  {
    var s := Escaped(v) + "'";
    if v == [] {
      assert s == "'" && s[1..] == [];
    } else {
      ClosedEscaped(v[1..]);
      var tail := Escaped(v[1..]) + "'";
      if v[0] == '\'' {
        assert s == "'\"'\"'" + tail;
        assert s[1..] == "\"'\"'" + tail;
        assert s[1..][1..] == "'\"'" + tail;
        assert s[1..][1..][1..] == "\"'" + tail;
        assert s[1..][1..][1..][1..] == "'" + tail;
        assert s[1..][1..][1..][1..][1..] == tail;
        assert Closed(Plain, s[1..][1..][1..][1..]);
        assert Closed(InDouble, s[1..][1..][1..]);
        assert Closed(InDouble, s[1..][1..]);
        assert Closed(Plain, s[1..]);
      } else {
        assert s[1..] == tail;
      }
    }
  }

  lemma {:induction false} ClosedQuote(v: string)
    ensures Closed(Plain, ShellQuote(v))
  {
    ClosedEscaped(v);
    assert ShellQuote(v)[1..] == Escaped(v) + "'";
  }

  lemma {:induction false} OneLineQuote(v: string)
    requires '\n' !in v
    ensures '\n' !in ShellQuote(v)
  {
    OneLineEscaped(v);
  }

  lemma {:induction false} OneLineEscaped(v: string)
    requires '\n' !in v
    ensures '\n' !in Escaped(v)
    decreases |v|
  {
    if v != [] {
      OneLineEscaped(v[1..]);
      assert v[0] in v;
      assert forall c :: c in v[1..] ==> c in v;
    }
  }

  predicate BareChar(c: char) {
    !Special(Plain, c) && c != ';' && c != '\'' && c != '"' && c != '\n'
  }

  lemma {:induction false} ClosedBare(s: string)
    requires forall k | 0 <= k < |s| :: BareChar(s[k])
    ensures Closed(Plain, s) && '\n' !in s
    decreases |s|
  {
    if s != [] {
      ClosedBare(s[1..]);
    }
  }

  lemma {:induction false} SplitClosed(mode: Mode, command: string, current: string)
    requires Closed(mode, command)
    ensures SplitCommands(mode, command, current) == Some([current + command])
    decreases |command|
  {
    if command == [] {
      assert current + command == current;
    } else {
      SplitClosed(Step(mode, command[0]), command[1..], current + [command[0]]);
      assert current + command == current + [command[0]] + command[1..];
    }
  }

  lemma {:induction false} SplitFirst(mode: Mode, command: string, rest: string, current: string)
    requires Closed(mode, command)
    ensures SplitCommands(mode, command + SEPARATOR + rest, current)
      == (var after := SplitCommands(Plain, rest, ""); if after.Some? then Some([current + command] + after.value) else None)
    decreases |command|
  {
    var s := command + SEPARATOR + rest;
    if command == [] {
      assert s == SEPARATOR + rest && s[2..] == rest && current + command == current;
    } else {
      assert s[1..] == command[1..] + SEPARATOR + rest;
      SplitFirst(Step(mode, command[0]), command[1..], rest, current + [command[0]]);
      assert current + command == current + [command[0]] + command[1..];
    }
  }

  /** Splitting a joined list of closed commands recovers exactly that list. */
  lemma {:induction false} SplitJoinedCommands(commands: seq<string>)
    requires commands != [] && forall k | 0 <= k < |commands| :: Closed(Plain, commands[k])
    ensures SplitCommands(Plain, Join(commands, SEPARATOR), "") == Some(commands)
    decreases |commands|
  {
    if |commands| == 1 {
      assert Join(commands, SEPARATOR) == commands[0];
      SplitClosed(Plain, commands[0], "");
      assert "" + commands[0] == commands[0] && commands == [commands[0]];
    } else {
      SplitJoinedCommands(commands[1..]);
      SplitFirst(Plain, commands[0], Join(commands[1..], SEPARATOR), "");
      assert "" + commands[0] == commands[0];
      assert commands == [commands[0]] + commands[1..];
    }
  }
}
