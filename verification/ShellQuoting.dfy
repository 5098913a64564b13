/** Building remote command lines (src/shell.ts), read back by the shells they are written for:
    token recognition of the POSIX Shell Command Language (sections 2.2 and 2.3 of that chapter) and
    PowerShell's verbatim string literals. */
module ShellQuoting {
  import opened Options

  datatype Token = Word(text: string) | Operator(text: string)

  // ---------------------------------------------------------------------------------------------
  // POSIX token recognition
  // ---------------------------------------------------------------------------------------------

  datatype Mode = Plain | Single | Double

  predicate IsBlank(c: char) { c == ' ' || c == '\t' }

  predicate IsOperatorChar(c: char) { c in "&|;<>()" }

  /** Characters that mean only themselves, anywhere in a word. */
  predicate IsOrdinary(c: char) {
    !IsBlank(c) && !IsOperatorChar(c) && c !in "'\"\\$`#\n"
  }

  /** Operators are as long as possible. */
  function OperatorLength(s: string): (n: nat)
    requires s != ""
    ensures 0 < n <= |s|
  {
    if |s| >= 2 && s[..2] in ["&&", "||", ";;", ">>", "<&", ">&", "<>", ">|"] then 2 else 1
  }

  function Finished(word: Option<string>): seq<Token> {
    if word.None? then [] else [Word(word.value)]
  }

  function Started(word: Option<string>): string { if word.None? then "" else word.value }

  function Then(front: seq<Token>, rest: Option<seq<Token>>): Option<seq<Token>> {
    if rest.None? then None else Some(front + rest.value)
  }

  function SkipComment(s: string): (r: string)
    ensures |r| <= |s|
  {
    if s == "" || s[0] == '\n' then s else SkipComment(s[1..])
  }

  /** Tokens of `s`, given the word in progress (quotes already removed) and the quoting mode.
      `None`: a quote is not closed, or an expansion or here-document is asked for outside quotes
      that forbid it. */
  function Scan(s: string, word: Option<string>, mode: Mode): Option<seq<Token>>
    decreases |s|
  {
    match mode
    case Plain => ScanPlain(s, word)
    case Single =>
      if s == "" then None
      else if s[0] == '\'' then Scan(s[1..], Some(Started(word)), Plain)
      else Scan(s[1..], Some(Started(word) + [s[0]]), Single)
    case Double =>
      if s == "" || s[0] == '$' || s[0] == '`' then None
      else if s[0] == '"' then Scan(s[1..], Some(Started(word)), Plain)
      else if s[0] == '\\' && |s| >= 2 && s[1] == '\n' then Scan(s[2..], word, Double)
      else if s[0] == '\\' && |s| >= 2 && s[1] in "$`\"\\" then Scan(s[2..], Some(Started(word) + [s[1]]), Double)
      else Scan(s[1..], Some(Started(word) + [s[0]]), Double)
  }

  function ScanPlain(s: string, word: Option<string>): Option<seq<Token>>
    decreases |s|, 0
  {
    if s == "" then Some(Finished(word))
    else if s[0] == '\'' then Scan(s[1..], Some(Started(word)), Single)
    else if s[0] == '"' then Scan(s[1..], Some(Started(word)), Double)
    else if s[0] == '$' || s[0] == '`' then None
    else if s[0] == '\\' then
      if |s| < 2 then None
      else if s[1] == '\n' then Scan(s[2..], word, Plain)
      else Scan(s[2..], Some(Started(word) + [s[1]]), Plain)
    else if IsBlank(s[0]) then Then(Finished(word), Scan(s[1..], None, Plain))
    else if s[0] == '\n' then Then(Finished(word) + [Operator("\n")], Scan(s[1..], None, Plain))
    else if IsOperatorChar(s[0]) then
      if |s| >= 2 && s[..2] == "<<" then None
      else
        var n := OperatorLength(s);
        Then(Finished(word) + [Operator(s[..n])], Scan(s[n..], None, Plain))
    else if s[0] == '#' && word.None? then
      Scan(SkipComment(s[1..]), None, Plain)
    else Scan(s[1..], Some(Started(word) + [s[0]]), Plain)
  }

  /** The tokens of a command line, or `None`. */
  function Tokens(s: string): Option<seq<Token>> { Scan(s, None, Plain) }

  // ---------------------------------------------------------------------------------------------
  // Quoting
  // ---------------------------------------------------------------------------------------------

  /** Every single quote becomes `'"'"'`. */
  function EscapedSingle(value: string): string {
    if value == "" then ""
    else (if value[0] == '\'' then "'\"'\"'" else [value[0]]) + EscapedSingle(value[1..])
  }

  function ShellQuote(value: string): string { "'" + EscapedSingle(value) + "'" }

  /** Five characters that close the quote, add one quoted quote and open it again. */
  lemma QuotedQuote(word: string, rest: string)
    ensures Scan("'\"'\"'" + rest, Some(word), Single) == Scan(rest, Some(word + "'"), Single)
  {
    var s := "'\"'\"'" + rest;
    var s1 := "\"'\"'" + rest;
    var s2 := "'\"'" + rest;
    var s3 := "\"'" + rest;
    var s4 := "'" + rest;
    assert s[1..] == s1 && s1[1..] == s2 && s2[1..] == s3 && s3[1..] == s4 && s4[1..] == rest;
    assert Scan(s, Some(word), Single) == Scan(s1, Some(word), Plain) == Scan(s2, Some(word), Double);
    assert Scan(s2, Some(word), Double) == Scan(s3, Some(word + "'"), Double);
    assert Scan(s3, Some(word + "'"), Double) == Scan(s4, Some(word + "'"), Plain) == Scan(rest, Some(word + "'"), Single);
  }

  lemma {:induction false} ScanEscaped(value: string, word: string, rest: string)
    ensures Scan(EscapedSingle(value) + "'" + rest, Some(word), Single) == Scan(rest, Some(word + value), Plain)
  {
    if value == "" {
      assert EscapedSingle(value) + "'" + rest == "'" + rest;
      assert ("'" + rest)[1..] == rest;
      assert word + value == word;
    } else {
      var after := EscapedSingle(value[1..]) + "'" + rest;
      ScanEscaped(value[1..], word + [value[0]], rest);
      assert word + [value[0]] + value[1..] == word + value;
      if value[0] == '\'' {
        assert EscapedSingle(value) + "'" + rest == "'\"'\"'" + after;
        QuotedQuote(word, after);
        assert [value[0]] == "'";
      } else {
        assert EscapedSingle(value) + "'" + rest == [value[0]] + after;
        assert ([value[0]] + after)[1..] == after;
      }
    }
  }

  /** A quoted value is read back, whatever stands around it. */
  lemma QuoteRoundTrip(value: string, word: Option<string>, rest: string)
    ensures Scan(ShellQuote(value) + rest, word, Plain) == Scan(rest, Some(Started(word) + value), Plain)
  {
    var s := ShellQuote(value) + rest;
    assert s == "'" + (EscapedSingle(value) + "'" + rest);
    assert s[1..] == EscapedSingle(value) + "'" + rest;
    ScanEscaped(value, Started(word), rest);
  }

  predicate Ordinary(s: string) { forall i :: 0 <= i < |s| ==> IsOrdinary(s[i]) }

  lemma {:induction false} ScanOrdinary(s: string, word: Option<string>, rest: string)
    requires Ordinary(s) && s != ""
    ensures Scan(s + rest, word, Plain) == Scan(rest, Some(Started(word) + s), Plain)
  {
    assert (s + rest)[1..] == s[1..] + rest;
    assert Started(word) + [s[0]] + s[1..] == Started(word) + s;
    if |s| > 1 {
      ScanOrdinary(s[1..], Some(Started(word) + [s[0]]), rest);
    } else {
      assert s[1..] + rest == rest && [s[0]] == s;
    }
  }

  lemma ScanBlank(word: Option<string>, rest: string)
    ensures Scan(" " + rest, word, Plain) == Then(Finished(word), Scan(rest, None, Plain))
  {
    assert (" " + rest)[1..] == rest;
  }

  /** An ordinary word and the blank after it. */
  lemma ScanWord(s: string, rest: string)
    requires Ordinary(s) && s != ""
    ensures Scan(s + " " + rest, None, Plain) == Then([Word(s)], Scan(rest, None, Plain))
  {
    assert s + " " + rest == s + (" " + rest);
    ScanOrdinary(s, None, " " + rest);
    ScanBlank(Some(s), rest);
    assert "" + s == s;
  }

  lemma ThenThen(a: seq<Token>, b: seq<Token>, r: Option<seq<Token>>)
    ensures Then(a, Then(b, r)) == Then(a + b, r)
  {
    if r.Some? {
      assert a + (b + r.value) == a + b + r.value;
    }
  }

  lemma ScanOperator(op: string, word: Option<string>, rest: string)
    requires op == ";" || op == "&&"
    ensures Scan(op + " " + rest, word, Plain) == Then(Finished(word) + [Operator(op)], Scan(" " + rest, None, Plain))
  {
    var s := op + " " + rest;
    assert s[..|op|] == op && s[|op|..] == " " + rest;
    assert s[0] == op[0] && s[1] == if op == ";" then ' ' else '&';
    assert s[..2] == [s[0], s[1]];
    assert OperatorLength(s) == |op|;
  }

  lemma ScanSeparator(op: string, word: Option<string>, rest: string)
    requires op == ";" || op == "&&"
    ensures Scan(op + " " + rest, word, Plain) == Then(Finished(word) + [Operator(op)], Scan(rest, None, Plain))
  {
    ScanOperator(op, word, rest);
    hide Scan, ScanPlain;
    ScanBlank(None, rest);
    ThenThen(Finished(word) + [Operator(op)], [], Scan(rest, None, Plain));
    assert Finished(word) + [Operator(op)] + [] == Finished(word) + [Operator(op)];
  }

  // ---------------------------------------------------------------------------------------------
  // buildPosixCommand
  // ---------------------------------------------------------------------------------------------

  datatype Variable = Variable(key: string, value: string)

  predicate IsWordChar(c: char) {
    'a' <= c <= 'z' || 'A' <= c <= 'Z' || '0' <= c <= '9' || c == '_'
  }

  /** POSIX_ENV_KEY_PATTERN. */
  predicate ValidKey(key: string) {
    && key != "" && !('0' <= key[0] <= '9')
    && forall i :: 0 <= i < |key| ==> IsWordChar(key[i])
  }

  predicate ValidEnvironment(env: seq<Variable>) {
    forall i :: 0 <= i < |env| ==> ValidKey(env[i].key)
  }

  /** The first invalid key, if any. */
  method AssertValidEnvironment(env: seq<Variable>) returns (invalid: Option<string>)
    ensures invalid.None? <==> ValidEnvironment(env)
    ensures invalid.Some? ==>
              exists i :: 0 <= i < |env| && env[i].key == invalid.value && !ValidKey(env[i].key)
                          && ValidEnvironment(env[..i])
  {
    for i := 0 to |env|
      invariant ValidEnvironment(env[..i])
    {
      if !ValidKey(env[i].key) {
        return Some(env[i].key);
      }
      assert env[..i + 1] == env[..i] + [env[i]];
    }
    assert env[..|env|] == env;
    invalid := None;
  }

  /** Each assignment followed by `; `. */
  function Exports(env: seq<Variable>): string {
    if env == [] then ""
    else "export " + env[0].key + "=" + ShellQuote(env[0].value) + "; " + Exports(env[1..])
  }

  /** The text handed to the shell; an empty directory means none. */
  function PosixScript(command: string, cwd: string, env: seq<Variable>): string {
    (if cwd == "" then "" else "cd " + ShellQuote(cwd) + " && ") + (Exports(env) + command)
  }

  datatype Shell = Sh | Bash

  function ShellName(shell: Shell): string { if shell == Sh then "sh" else "bash" }

  function PosixCommand(command: string, cwd: string, env: seq<Variable>, shell: Shell): Option<string> {
    if !ValidEnvironment(env) then None
    else Some(ShellName(shell) + " -lc " + ShellQuote(PosixScript(command, cwd, env)))
  }

  lemma ValidKeyIsOrdinary(key: string)
    requires ValidKey(key)
    ensures Ordinary(key + "=")
  {
  }

  lemma ShellLine(name: string, script: string)
    requires Ordinary(name) && name != ""
    ensures Tokens(name + " -lc " + ShellQuote(script)) == Some([Word(name), Word("-lc"), Word(script)])
  {
    var quoted := ShellQuote(script);
    assert name + " -lc " + quoted == name + " " + ("-lc" + " " + quoted);
    ScanWord(name, "-lc" + " " + quoted);
    ScanWord("-lc", quoted);
    QuoteRoundTrip(script, None, "");
    assert quoted + "" == quoted && "" + script == script;
    assert Scan(quoted, None, Plain) == Some([Word(script)]);
    ThenThen([Word(name)], [Word("-lc")], Some([Word(script)]));
    assert [Word(name)] + [Word("-lc")] + [Word(script)] == [Word(name), Word("-lc"), Word(script)];
  }

  /** For every command, directory and valid environment the command line is exactly the three words
      shell, `-lc` and script. */
  lemma PosixCommandTokens(command: string, cwd: string, env: seq<Variable>, shell: Shell)
    ensures PosixCommand(command, cwd, env, shell).Some? <==> ValidEnvironment(env)
    ensures ValidEnvironment(env) ==>
              Tokens(PosixCommand(command, cwd, env, shell).value)
              == Some([Word(if shell == Bash then "bash" else "sh"), Word("-lc"), Word(PosixScript(command, cwd, env))])
  {
    var script := PosixScript(command, cwd, env);
    hide PosixScript, ShellQuote, Tokens, ValidEnvironment;
    ShellLine(ShellName(shell), script);
  }

  /** What may stand in a name, and what may stand first. */
  ghost predicate NameChar(c: char, first: bool) {
    'A' <= c <= 'Z' || 'a' <= c <= 'z' || c == '_' || (!first && '0' <= c <= '9')
  }

  /** The line, on either platform, is refused exactly for a variable whose name is not a letter or `_`
      followed by letters, digits and `_`. */
  lemma RefusedExactly(command: string, cwd: string, env: seq<Variable>, shell: Shell)
    ensures PosixCommand(command, cwd, env, shell).None? <==> PowerShellCommand(command, cwd, env).None?
    ensures PosixCommand(command, cwd, env, shell).None? <==>
              exists i :: 0 <= i < |env| && (env[i].key == "" || exists j :: 0 <= j < |env[i].key| && !NameChar(env[i].key[j], j == 0))
  {
    forall i | 0 <= i < |env|
      ensures ValidKey(env[i].key) <==>
                !(env[i].key == "" || exists j :: 0 <= j < |env[i].key| && !NameChar(env[i].key[j], j == 0))
    {
      NameMeaning(env[i].key);
    }
    hide ValidKey, NameChar;
  }

  lemma NameMeaning(key: string)
    ensures ValidKey(key) <==> !(key == "" || exists j :: 0 <= j < |key| && !NameChar(key[j], j == 0))
  {
    assert forall j :: 0 <= j < |key| ==> (NameChar(key[j], j == 0) <==> IsWordChar(key[j]) && !(j == 0 && '0' <= key[j] <= '9'));
    hide IsWordChar, NameChar;
  }

  function ExportTokens(env: seq<Variable>): seq<Token> {
    if env == [] then []
    else [Word("export"), Word(env[0].key + "=" + env[0].value), Operator(";")] + ExportTokens(env[1..])
  }

  function CdTokens(cwd: string): seq<Token> {
    if cwd == "" then [] else [Word("cd"), Word(cwd), Operator("&&")]
  }

  lemma AssignmentTokens(v: Variable, rest: string)
    requires ValidKey(v.key)
    ensures Tokens(v.key + "=" + (ShellQuote(v.value) + (";" + " " + rest)))
            == Then([Word(v.key + "=" + v.value), Operator(";")], Tokens(rest))
  {
    var assignment := v.key + "=";
    var tail := ";" + " " + rest;
    ValidKeyIsOrdinary(v.key);
    ScanOrdinary(assignment, None, ShellQuote(v.value) + tail);
    QuoteRoundTrip(v.value, Some("" + assignment), tail);
    ScanSeparator(";", Some(v.key + "=" + v.value), rest);
    hide Scan, ScanPlain, Ordinary, ShellQuote;
    assert "" + assignment + v.value == v.key + "=" + v.value;
    assert Finished(Some(v.key + "=" + v.value)) + [Operator(";")] == [Word(v.key + "=" + v.value), Operator(";")];
  }

  lemma ExportOne(v: Variable, rest: string)
    requires ValidKey(v.key)
    ensures Tokens("export " + v.key + "=" + ShellQuote(v.value) + "; " + rest)
            == Then([Word("export"), Word(v.key + "=" + v.value), Operator(";")], Tokens(rest))
  {
    var assignment := v.key + "=" + (ShellQuote(v.value) + (";" + " " + rest));
    assert Ordinary("export");
    hide Scan, ScanPlain, Ordinary, ShellQuote;
    assert "export " + v.key + "=" + ShellQuote(v.value) + "; " + rest == "export" + " " + assignment;
    ScanWord("export", assignment);
    AssignmentTokens(v, rest);
    var tokens := [Word(v.key + "=" + v.value), Operator(";")];
    ThenThen([Word("export")], tokens, Tokens(rest));
    assert [Word("export")] + tokens == [Word("export"), Word(v.key + "=" + v.value), Operator(";")];
  }

  lemma {:induction false} ExportsTokens(env: seq<Variable>, command: string)
    requires ValidEnvironment(env)
    ensures Tokens(Exports(env) + command) == Then(ExportTokens(env), Tokens(command))
  {
    if env == [] {
      assert Exports(env) + command == command;
      assert Tokens(command).Some? ==> [] + Tokens(command).value == Tokens(command).value;
    } else {
      var rest := Exports(env[1..]) + command;
      assert Exports(env) + command
          == "export " + env[0].key + "=" + ShellQuote(env[0].value) + "; " + rest;
      ExportOne(env[0], rest);
      ExportsTokens(env[1..], command);
      ThenThen([Word("export"), Word(env[0].key + "=" + env[0].value), Operator(";")], ExportTokens(env[1..]), Tokens(command));
    }
  }

  lemma CdFirst(cwd: string, rest: string)
    ensures Tokens("cd " + ShellQuote(cwd) + " && " + rest)
            == Then([Word("cd"), Word(cwd), Operator("&&")], Tokens(rest))
  {
    var tail := "&&" + " " + rest;
    assert "cd " + ShellQuote(cwd) + " && " + rest == "cd" + " " + (ShellQuote(cwd) + (" " + tail));
    ScanWord("cd", ShellQuote(cwd) + (" " + tail));
    QuoteRoundTrip(cwd, None, " " + tail);
    assert "" + cwd == cwd;
    ScanBlank(Some(cwd), tail);
    ScanSeparator("&&", None, rest);
    hide Scan, ScanPlain, Ordinary;
    assert Finished(None) + [Operator("&&")] == [Operator("&&")];
    ThenThen([Word(cwd)], [Operator("&&")], Tokens(rest));
    assert [Word(cwd)] + [Operator("&&")] == [Word(cwd), Operator("&&")];
    ThenThen([Word("cd")], [Word(cwd), Operator("&&")], Tokens(rest));
    assert [Word("cd")] + [Word(cwd), Operator("&&")] == [Word("cd"), Word(cwd), Operator("&&")];
  }

  /** Inside the script the directory and every value are read back as they were given, one word each,
      and what follows is read as the command is read alone. */
  lemma PosixScriptTokens(command: string, cwd: string, env: seq<Variable>)
    requires ValidEnvironment(env)
    ensures Tokens(PosixScript(command, cwd, env)) == Then(CdTokens(cwd) + ExportTokens(env), Tokens(command))
  {
    var rest := Exports(env) + command;
    ExportsTokens(env, command);
    if cwd == "" {
      assert "" + rest == rest;
      assert CdTokens(cwd) + ExportTokens(env) == ExportTokens(env);
    } else {
      CdFirst(cwd, rest);
      ThenThen(CdTokens(cwd), ExportTokens(env), Tokens(command));
      assert PosixScript(command, cwd, env) == "cd " + ShellQuote(cwd) + " && " + rest;
    }
  }

  // ---------------------------------------------------------------------------------------------
  // buildSudoCommand
  // ---------------------------------------------------------------------------------------------

  function SudoScript(command: string, cwd: string): string {
    "sudo -n " + if cwd == "" then command else "cd " + ShellQuote(cwd) + " && " + command
  }

  /** Refused on Windows. */
  function SudoCommand(command: string, windows: bool, cwd: string, shell: Shell): Option<string> {
    if windows then None else PosixCommand(SudoScript(command, cwd), "", [], shell)
  }

  /** The words up to the first operator: what one simple command runs. */
  function FirstSimple(ts: seq<Token>): seq<Token> {
    if ts == [] || ts[0].Operator? then [] else [ts[0]] + FirstSimple(ts[1..])
  }

  lemma SudoScriptTokens(command: string, cwd: string)
    ensures Tokens(SudoScript(command, cwd)) == Then([Word("sudo"), Word("-n")] + CdTokens(cwd), Tokens(command))
  {
    var rest := if cwd == "" then command else "cd " + ShellQuote(cwd) + " && " + command;
    assert SudoScript(command, cwd) == "sudo" + " " + ("-n" + " " + rest);
    ScanWord("sudo", "-n" + " " + rest);
    ScanWord("-n", rest);
    ThenThen([Word("sudo")], [Word("-n")], Tokens(rest));
    assert [Word("sudo")] + [Word("-n")] == [Word("sudo"), Word("-n")];
    hide Scan, ScanPlain, Ordinary;
    if cwd == "" {
      assert [Word("sudo"), Word("-n")] + CdTokens(cwd) == [Word("sudo"), Word("-n")];
    } else {
      CdFirst(cwd, command);
      ThenThen([Word("sudo"), Word("-n")], CdTokens(cwd), Tokens(command));
    }
  }

  /** The line is again three words. `sudo` runs the command exactly when no directory is given; with
      one, it runs the `cd`, and the command stands after `&&` on its own. */
  lemma SudoCovers(command: string, cwd: string, shell: Shell, ts: seq<Token>)
    requires Tokens(command) == Some(ts)
    ensures SudoCommand(command, true, cwd, shell).None?
    ensures SudoCommand(command, false, cwd, shell).Some?
    ensures Tokens(SudoCommand(command, false, cwd, shell).value)
            == Some([Word(if shell == Bash then "bash" else "sh"), Word("-lc"), Word(SudoScript(command, cwd))])
    ensures Tokens(SudoScript(command, cwd)).Some?
    ensures FirstSimple(Tokens(SudoScript(command, cwd)).value)
            == [Word("sudo"), Word("-n")] + if cwd == "" then FirstSimple(ts) else [Word("cd"), Word(cwd)]
  {
    var script := SudoScript(command, cwd);
    PosixCommandTokens(script, "", [], shell);
    assert PosixScript(script, "", []) == "" + ("" + script) == script;
    SudoScriptTokens(command, cwd);
    hide SudoScript, PosixCommand, PosixScript, Tokens, ShellName;
    var front := [Word("sudo"), Word("-n")];
    if cwd == "" {
      assert front + CdTokens(cwd) + ts == front + ts;
      WordsFirst(front, ts);
    } else {
      var words := [Word("sudo"), Word("-n"), Word("cd"), Word(cwd)];
      assert front + CdTokens(cwd) + ts == words + ([Operator("&&")] + ts);
      WordsFirst(words, [Operator("&&")] + ts);
      assert words == front + [Word("cd"), Word(cwd)];
      assert words + [] == words;
    }
  }

  lemma {:induction false} WordsFirst(words: seq<Token>, ts: seq<Token>)
    requires forall i :: 0 <= i < |words| ==> words[i].Word?
    ensures FirstSimple(words + ts) == words + FirstSimple(ts)
  {
    if words == [] {
      assert words + ts == ts;
    } else {
      assert (words + ts)[1..] == words[1..] + ts;
      WordsFirst(words[1..], ts);
    }
  }

  // ---------------------------------------------------------------------------------------------
  // PowerShell
  // ---------------------------------------------------------------------------------------------

  /** Every single quote is doubled. */
  function Doubled(value: string): string {
    if value == "" then ""
    else (if value[0] == '\'' then "''" else [value[0]]) + Doubled(value[1..])
  }

  function PowerShellQuote(value: string): string { "'" + Doubled(value) + "'" }

  /** PowerShell takes the typographic single quotes for single quotes too. */
  predicate IsTypographicQuote(c: char) {
    c in ['\U{2018}', '\U{2019}', '\U{201A}', '\U{201B}']
  }

  predicate EndsLiteral(c: char) { c == '\'' || IsTypographicQuote(c) }

  /** The rest of a verbatim literal: two quotes in a row stand for one, a single one ends it. */
  function ReadLiteral(s: string): Option<(string, string)> {
    if s == "" then None
    else if !EndsLiteral(s[0]) then PrependTo(s[0], ReadLiteral(s[1..]))
    else if |s| >= 2 && EndsLiteral(s[1]) then PrependTo(s[0], ReadLiteral(s[2..]))
    else Some(("", s[1..]))
  }

  function PrependTo(c: char, r: Option<(string, string)>): Option<(string, string)> {
    if r.None? then None else Some(([c] + r.value.0, r.value.1))
  }

  predicate HasTypographicQuote(s: string) { exists i :: 0 <= i < |s| && IsTypographicQuote(s[i]) }

  /** Text after a literal must not go on with a quote. */
  predicate Separated(rest: string) { rest == "" || !EndsLiteral(rest[0]) }

  function QuoteCount(s: string): nat {
    if s == "" then 0 else (if EndsLiteral(s[0]) then 1 else 0) + QuoteCount(s[1..])
  }

  function AsciiQuoteCount(s: string): nat {
    if s == "" then 0 else (if s[0] == '\'' then 1 else 0) + AsciiQuoteCount(s[1..])
  }

  lemma {:induction false} DoubledReadsBack(value: string, rest: string)
    requires !HasTypographicQuote(value) && Separated(rest)
    ensures ReadLiteral(Doubled(value) + "'" + rest) == Some((value, rest))
  {
    if value == "" {
      assert Doubled(value) + "'" + rest == "'" + rest;
      assert ("'" + rest)[1..] == rest;
    } else {
      var after := Doubled(value[1..]) + "'" + rest;
      PlainRest(value);
      DoubledFirst(value, rest);
      hide HasTypographicQuote, Doubled, IsTypographicQuote;
      DoubledReadsBack(value[1..], rest);
      assert [value[0]] + value[1..] == value;
      if value[0] == '\'' {
        assert ("''" + after)[2..] == after;
      } else {
        assert ([value[0]] + after)[1..] == after;
      }
    }
  }

  lemma PlainRest(value: string)
    requires !HasTypographicQuote(value) && value != ""
    ensures !IsTypographicQuote(value[0]) && !HasTypographicQuote(value[1..])
  {
    assert forall i :: 0 <= i < |value[1..]| ==> value[1..][i] == value[i + 1];
    hide IsTypographicQuote;
  }

  lemma DoubledFirst(value: string, rest: string)
    requires value != ""
    ensures Doubled(value) + "'" + rest
            == (if value[0] == '\'' then "''" else [value[0]]) + (Doubled(value[1..]) + "'" + rest)
  {
    var first := if value[0] == '\'' then "''" else [value[0]];
    assert Doubled(value) == first + Doubled(value[1..]);
    hide Doubled;
    Regroup(first, Doubled(value[1..]), "'", rest);
  }

  lemma Regroup(a: string, b: string, c: string, d: string)
    ensures ((a + b) + c) + d == a + ((b + c) + d)
  {
  }

  /** A literal takes one character per character read, one more per quote read, and its end. */
  lemma {:induction false} LiteralLength(s: string)
    ensures ReadLiteral(s).Some? ==>
              |s| == |ReadLiteral(s).value.0| + QuoteCount(ReadLiteral(s).value.0) + 1 + |ReadLiteral(s).value.1|
    decreases |s|
  {
    if s != "" {
      if !EndsLiteral(s[0]) {
        LiteralLength(s[1..]);
        PrependedCount(s[0], ReadLiteral(s[1..]));
      } else if |s| >= 2 && EndsLiteral(s[1]) {
        LiteralLength(s[2..]);
        PrependedCount(s[0], ReadLiteral(s[2..]));
      }
    }
  }

  lemma PrependedCount(c: char, r: Option<(string, string)>)
    ensures r.Some? ==>
              QuoteCount(PrependTo(c, r).value.0) == QuoteCount(r.value.0) + if EndsLiteral(c) then 1 else 0
  {
    if r.Some? {
      assert ([c] + r.value.0)[1..] == r.value.0;
    }
  }

  lemma {:induction false} DoubledLength(value: string)
    ensures |Doubled(value)| == |value| + AsciiQuoteCount(value)
  {
    if value != "" {
      DoubledLength(value[1..]);
    }
  }

  lemma {:induction false} TypographicQuotesCount(value: string)
    ensures AsciiQuoteCount(value) <= QuoteCount(value)
    ensures AsciiQuoteCount(value) == QuoteCount(value) ==> !HasTypographicQuote(value)
  {
    if value != "" {
      TypographicQuotesCount(value[1..]);
      assert forall i :: 1 <= i < |value| ==> value[i] == value[1..][i - 1];
    }
  }

  /** A doubled value is read back exactly when it holds no typographic quote. */
  lemma PowerShellRoundTrip(value: string, rest: string)
    requires Separated(rest)
    ensures ReadLiteral(Doubled(value) + "'" + rest) == Some((value, rest)) <==> !HasTypographicQuote(value)
  {
    if !HasTypographicQuote(value) {
      DoubledReadsBack(value, rest);
    } else {
      LiteralLength(Doubled(value) + "'" + rest);
      DoubledLength(value);
      TypographicQuotesCount(value);
    }
  }

  /** One typographic apostrophe pairs with the closing quote, and the literal never ends. */
  lemma TypographicQuoteIsNotDoubled()
    ensures ReadLiteral(Doubled("\U{2019}") + "'") == None
  {
    var v := "\U{2019}";
    assert v[1..] == "" && Doubled(v) == v + "";
    var s := Doubled(v) + "'";
    assert |s| == 2 && IsTypographicQuote(s[0]) && s[1] == '\'' && s[2..] == "";
  }

  function EnvironmentPrefix(env: seq<Variable>): string {
    if env == [] then ""
    else "$env:" + env[0].key + " = " + PowerShellQuote(env[0].value) + "; " + EnvironmentPrefix(env[1..])
  }

  function PowerShellScript(command: string, cwd: string, env: seq<Variable>): string {
    EnvironmentPrefix(env) + ((if cwd == "" then "" else "Set-Location -Path " + PowerShellQuote(cwd) + "; ") + command)
  }

  const POWERSHELL := "powershell -NoLogo -NoProfile -NonInteractive -ExecutionPolicy Bypass -Command "

  function PowerShellCommand(command: string, cwd: string, env: seq<Variable>): Option<string> {
    if !ValidEnvironment(env) then None
    else Some(POWERSHELL + PowerShellQuote(PowerShellScript(command, cwd, env)))
  }

  /** A literal with its opening quote, then `; `. */
  function ReadStatementLiteral(s: string): Option<(string, string)> {
    if s == "" || s[0] != '\'' then None
    else
      var r := ReadLiteral(s[1..]);
      if r.None? || !("; " <= r.value.1) then None else Some((r.value.0, r.value.1[2..]))
  }

  function KeyLength(s: string): (k: nat)
    ensures k <= |s|
  {
    if s == "" || !IsWordChar(s[0]) then 0 else 1 + KeyLength(s[1..])
  }

  function ReadAssignment(s: string): Option<(Variable, string)> {
    if !("$env:" <= s) then None
    else
      var t := s[5..];
      var u := t[KeyLength(t)..];
      if !(" = " <= u) then None
      else
        var r := ReadStatementLiteral(u[3..]);
        if r.None? then None else Some((Variable(t[..KeyLength(t)], r.value.0), r.value.1))
  }

  /** `n` assignments and, if there is one, the change of directory; the rest is the command. */
  function ReadScript(s: string, n: nat, hasCwd: bool): Option<(seq<Variable>, string, string)>
    decreases n
  {
    if n > 0 then
      var first := ReadAssignment(s);
      if first.None? then None
      else
        var r := ReadScript(first.value.1, n - 1, hasCwd);
        if r.None? then None else Some(([first.value.0] + r.value.0, r.value.1, r.value.2))
    else if !hasCwd then Some(([], "", s))
    else if !("Set-Location -Path " <= s) then None
    else
      var r := ReadStatementLiteral(s[19..]);
      if r.None? then None else Some(([], r.value.0, r.value.1))
  }

  lemma StatementLiteral(value: string, rest: string)
    requires !HasTypographicQuote(value)
    ensures ReadStatementLiteral(PowerShellQuote(value) + "; " + rest) == Some((value, rest))
  {
    var s := PowerShellQuote(value) + "; " + rest;
    var tail := "; " + rest;
    assert s[0] == '\'';
    assert s[1..] == Doubled(value) + "'" + tail;
    assert Separated(tail);
    DoubledReadsBack(value, tail);
    assert "; " <= tail && tail[2..] == rest;
  }

  lemma {:induction false} KeyLengthIs(key: string, rest: string)
    requires forall i :: 0 <= i < |key| ==> IsWordChar(key[i])
    ensures KeyLength(key + (" " + rest)) == |key|
  {
    if key == "" {
      assert key + (" " + rest) == " " + rest;
    } else {
      assert (key + (" " + rest))[1..] == key[1..] + (" " + rest);
      KeyLengthIs(key[1..], rest);
    }
  }

  lemma AssignmentReadsBack(v: Variable, rest: string)
    requires ValidKey(v.key) && !HasTypographicQuote(v.value)
    ensures ReadAssignment("$env:" + v.key + " = " + PowerShellQuote(v.value) + "; " + rest) == Some((v, rest))
  {
    assert forall i :: 0 <= i < |v.key| ==> IsWordChar(v.key[i]);
    hide PowerShellQuote, ReadStatementLiteral, KeyLength, HasTypographicQuote, ValidKey, IsWordChar;
    var literal := PowerShellQuote(v.value) + "; " + rest;
    var s := "$env:" + v.key + " = " + PowerShellQuote(v.value) + "; " + rest;
    StatementLiteral(v.value, rest);
    KeyLengthIs(v.key, "= " + literal);
    var u := " " + ("= " + literal);
    assert s == "$env:" + (v.key + u);
    assert u == " = " + literal;
    Cut("$env:", v.key + u);
    Cut(v.key, u);
    Cut(" = ", literal);
  }

  lemma Cut(a: string, b: string)
    ensures (a + b)[..|a|] == a && (a + b)[|a|..] == b && a <= a + b
  {
  }

  lemma NextAssignment(command: string, cwd: string, env: seq<Variable>)
    requires env != []
    ensures PowerShellScript(command, cwd, env)
            == "$env:" + env[0].key + " = " + PowerShellQuote(env[0].value) + "; "
               + PowerShellScript(command, cwd, env[1..])
  {
    hide PowerShellQuote;
  }

  /** The outer layer of doubling: PowerShell reads the script back from its literal exactly when the
      script holds no typographic quote. */
  lemma PowerShellCommandReadsBack(command: string, cwd: string, env: seq<Variable>)
    ensures PowerShellCommand(command, cwd, env).Some? <==> ValidEnvironment(env)
    ensures ValidEnvironment(env) ==>
              "powershell -NoLogo -NoProfile -NonInteractive -ExecutionPolicy Bypass -Command '"
              <= PowerShellCommand(command, cwd, env).value
    ensures var script := PowerShellScript(command, cwd, env);
            ValidEnvironment(env) ==>
              (ReadLiteral(PowerShellCommand(command, cwd, env).value[|POWERSHELL| + 1..]) == Some((script, ""))
               <==> !HasTypographicQuote(script))
  {
    if ValidEnvironment(env) {
      var script := PowerShellScript(command, cwd, env);
      PowerShellRoundTrip(script, "");
      assert PowerShellCommand(command, cwd, env).value == POWERSHELL + "'" + (Doubled(script) + "'");
      assert Doubled(script) + "'" + "" == PowerShellCommand(command, cwd, env).value[|POWERSHELL| + 1..];
    }
  }

  /** Valid keys, and no typographic quote in a value. */
  predicate Readable(env: seq<Variable>) {
    forall i :: 0 <= i < |env| ==> ValidKey(env[i].key) && !HasTypographicQuote(env[i].value)
  }

  lemma ReadOneMore(s: string, n: nat, hasCwd: bool, v: Variable, rest: string, r: (seq<Variable>, string, string))
    requires ReadAssignment(s) == Some((v, rest)) && ReadScript(rest, n, hasCwd) == Some(r)
    ensures ReadScript(s, n + 1, hasCwd) == Some(([v] + r.0, r.1, r.2))
  {
    hide ReadAssignment;
  }

  lemma ReadableRest(env: seq<Variable>)
    requires Readable(env) && env != []
    ensures Readable(env[1..]) && ValidKey(env[0].key) && !HasTypographicQuote(env[0].value)
  {
    hide ValidKey, HasTypographicQuote;
  }

  /** The inner layer: in the script every value, the directory and the command are read back as they
      were given. */
  lemma {:induction false} PowerShellScriptReadsBack(command: string, cwd: string, env: seq<Variable>)
    requires Readable(env) && !HasTypographicQuote(cwd)
    ensures ReadScript(PowerShellScript(command, cwd, env), |env|, cwd != "") == Some((env, cwd, command))
  {
    hide *;
    if env == [] {
      DirectoryReadsBack(command, cwd);
    } else {
      ReadableRest(env);
      PowerShellScriptReadsBack(command, cwd, env[1..]);
      NextAssignment(command, cwd, env);
      AssignmentReadsBack(env[0], PowerShellScript(command, cwd, env[1..]));
      ReadOneMore(PowerShellScript(command, cwd, env), |env| - 1, cwd != "", env[0],
                  PowerShellScript(command, cwd, env[1..]), (env[1..], cwd, command));
      assert env == [env[0]] + env[1..];
    }
  }

  lemma DirectoryReadsBack(command: string, cwd: string)
    requires !HasTypographicQuote(cwd)
    ensures ReadScript(PowerShellScript(command, cwd, []), 0, cwd != "") == Some(([], cwd, command))
  {
    var s := PowerShellScript(command, cwd, []);
    if cwd == "" {
      assert s == command;
    } else {
      var literal := PowerShellQuote(cwd) + "; " + command;
      StatementLiteral(cwd, command);
      hide PowerShellQuote, ReadStatementLiteral, HasTypographicQuote;
      assert s == "Set-Location -Path " + literal;
      assert s[19..] == literal;
    }
  }
}
