/**
 * The command lines the mirror agent types into a shell (src/mirror-agent/host-channel.ts), as the shell reads them:
 * quoting, word splitting and command separators of the POSIX shell, as far as these lines use them. Whatever the
 * directories are called, the shell reads the commands that are meant.
 */
module ShellWords {
  import opened Options

  datatype Token = Word(text: string) | Op(op: string)

  // ----- What the shell reads -----

  // The token recognition and quoting rules are those of the Shell Command Language volume of IEEE Std 1003.1,
  // sections 2.2.1 (escape character), 2.2.2 (single-quotes) and 2.3.

  /** Characters that stand for themselves outside quotes, wherever they occur in a word. */
  predicate Ordinary(c: char) {
    'a' <= c <= 'z' || 'A' <= c <= 'Z' || '0' <= c <= '9' || c in "_-=./:,+@%"
  }

  function Prepend(ts: seq<Token>, tokens: Option<seq<Token>>): Option<seq<Token>> {
    if tokens.None? then None else Some(ts + tokens.value)
  }

  /** The word assembled so far, if there is one, ends here. */
  function Emit(word: Option<string>, tokens: Option<seq<Token>>): Option<seq<Token>> {
    if word.None? then tokens else Prepend([Word(word.value)], tokens)
  }

  function Then(op: string, tokens: Option<seq<Token>>): Option<seq<Token>> {
    Prepend([Op(op)], tokens)
  }

  function So(word: Option<string>): string {
    if word.None? then "" else word.value
  }

  /**
   * Outside quotes, with `word` the word being assembled (none between words). A character that would
   * start an expansion, a comment, a redirection or a double-quoted part gives no result at all.
   */
  function Unquoted(s: string, word: Option<string>): Option<seq<Token>>
    decreases |s|
  {
    if s == "" then Emit(word, Some([]))
    else if s[0] == '\'' then Quoted(s[1..], So(word))
    else if s[0] == '\\' then
      if |s| == 1 then None
      else if s[1] == '\n' then Unquoted(s[2..], word)
      else Unquoted(s[2..], Some(So(word) + [s[1]]))
    else if s[0] == ' ' || s[0] == '\t' then Emit(word, Unquoted(s[1..], None))
    else if s[0] == '\n' then Emit(word, Then("\n", Unquoted(s[1..], None)))
    else if s[0] == ';' then
      if |s| > 1 && s[1] == ';' then Emit(word, Then(";;", Unquoted(s[2..], None)))
      else Emit(word, Then(";", Unquoted(s[1..], None)))
    else if s[0] == '&' then
      if |s| > 1 && s[1] == '&' then Emit(word, Then("&&", Unquoted(s[2..], None)))
      else Emit(word, Then("&", Unquoted(s[1..], None)))
    else if Ordinary(s[0]) then Unquoted(s[1..], Some(So(word) + [s[0]]))
    else None
  }

  /** Between single quotes every character stands for itself, up to the closing quote. */
  function Quoted(s: string, word: string): Option<seq<Token>>
    decreases |s|
  {
    if s == "" then None
    else if s[0] == '\'' then Unquoted(s[1..], Some(word))
    else Quoted(s[1..], word + [s[0]])
  }

  function Lex(s: string): Option<seq<Token>> {
    Unquoted(s, None)
  }

  // ----- What the agent writes -----

  /** `s.replace(/'/g, "'\\''")` */
  function Escape(s: string): string {
    if s == "" then "" else (if s[0] == '\'' then "'\\''" else [s[0]]) + Escape(s[1..])
  }

  function ShellQuote(s: string): string {
    "'" + Escape(s) + "'"
  }

  function EnvPrefixForShell(configDir: string, defaultDir: string): string {
    if configDir == defaultDir then "unset CLAUDE_CONFIG_DIR; "
    else "export CLAUDE_CONFIG_DIR=" + ShellQuote(configDir) + "; "
  }

  predicate IsAlnum(c: char) {
    'a' <= c <= 'z' || 'A' <= c <= 'Z' || '0' <= c <= '9'
  }

  /** The pattern a resumed session id must match before it is put on a command line. */
  predicate IsSid(s: string) {
    1 <= |s| <= 128 && IsAlnum(s[0]) && forall i :: 0 <= i < |s| ==> IsAlnum(s[i]) || s[i] == '_' || s[i] == '-'
  }

  function SessionArg(resume: Option<string>, continueSession: bool): string {
    if resume.Some? then " --resume " + resume.value else if continueSession then " --continue" else ""
  }

  function Relaunch(configDir: string, defaultDir: string, cwd: string, skipPermissions: bool,
                    resume: Option<string>, continueSession: bool): string {
    EnvPrefixForShell(configDir, defaultDir) + "cd " + ShellQuote(cwd) + " && claude-channels"
    + (if skipPermissions then " --dangerously-skip-permissions" else "")
    + SessionArg(resume, continueSession)
  }

  // ----- One step of the shell at a time -----

  lemma AtEnd(word: string)
    ensures Unquoted("", Some(word)) == Some([Word(word)])
  {
    assert [Word(word)] + [] == [Word(word)];
  }

  lemma PrependTwice(a: seq<Token>, b: seq<Token>, tokens: Option<seq<Token>>)
    ensures Prepend(a, Prepend(b, tokens)) == Prepend(a + b, tokens)
  {
    if tokens.Some? {
      assert a + (b + tokens.value) == a + b + tokens.value;
    }
  }

  lemma AtQuote(rest: string, word: Option<string>)
    ensures Unquoted("'" + rest, word) == Quoted(rest, So(word))
  {
    assert ("'" + rest)[1..] == rest;
  }

  lemma AtClosingQuote(rest: string, word: string)
    ensures Quoted("'" + rest, word) == Unquoted(rest, Some(word))
  {
    assert ("'" + rest)[1..] == rest;
  }

  lemma AtQuoted(c: char, rest: string, word: string)
    requires c != '\''
    ensures Quoted([c] + rest, word) == Quoted(rest, word + [c])
  {
    assert ([c] + rest)[1..] == rest;
  }

  lemma AtEscapedQuote(rest: string, word: Option<string>)
    ensures Unquoted("\\'" + rest, word) == Unquoted(rest, Some(So(word) + "'"))
  {
    assert ("\\'" + rest)[2..] == rest;
  }

  lemma AtBlank(rest: string, word: Option<string>)
    ensures Unquoted(" " + rest, word) == Emit(word, Unquoted(rest, None))
  {
    assert (" " + rest)[1..] == rest;
  }

  lemma AtSemicolonBlank(rest: string, word: string)
    ensures Unquoted("; " + rest, Some(word)) == Prepend([Word(word), Op(";")], Unquoted(rest, None))
  {
    PrependTwice([Word(word)], [Op(";")], Unquoted(rest, None));
    assert [Word(word)] + [Op(";")] == [Word(word), Op(";")];
    AtBlank(rest, None);
    assert ("; " + rest)[1..] == " " + rest;
  }

  lemma AtAndIf(rest: string)
    ensures Unquoted("&& " + rest, None) == Prepend([Op("&&")], Unquoted(rest, None))
  {
    AtBlank(rest, None);
    assert ("&& " + rest)[2..] == " " + rest;
  }

  lemma AtOrdinary(c: char, rest: string, word: Option<string>)
    requires Ordinary(c)
    ensures Unquoted([c] + rest, word) == Unquoted(rest, Some(So(word) + [c]))
  {
    assert ([c] + rest)[1..] == rest;
  }

  // ----- Quoting is undone by the shell -----

  /** A quoted string adds exactly its characters to the word at hand, and leaves the shell unquoted. */
  lemma QuoteIsRead(s: string, rest: string, word: Option<string>)
    ensures Unquoted(ShellQuote(s) + rest, word) == Unquoted(rest, Some(So(word) + s))
  {
    hide Unquoted, Quoted, Escape;
    assert ShellQuote(s) + rest == "'" + (Escape(s) + ("'" + rest));
    AtQuote(Escape(s) + ("'" + rest), word);
    EscapeIsRead(s, rest, So(word));
  }

  lemma {:induction false} EscapeIsRead(s: string, rest: string, word: string)
    ensures Quoted(Escape(s) + ("'" + rest), word) == Unquoted(rest, Some(word + s))
    decreases |s|
  {
    hide Unquoted, Quoted;
    var tail := "'" + rest;
    if s == "" {
      assert Escape(s) + tail == tail && word + s == word;
      AtClosingQuote(rest, word);
    } else {
      var more := Escape(s[1..]) + tail;
      EscapeIsRead(s[1..], rest, word + [s[0]]);
      assert word + [s[0]] + s[1..] == word + s;
      if s[0] == '\'' {
        assert Escape(s) + tail == "'" + ("\\'" + ("'" + more));
        AtClosingQuote("\\'" + ("'" + more), word);
        AtEscapedQuote("'" + more, Some(word));
        AtQuote(more, Some(word + "'"));
      } else {
        assert Escape(s) + tail == [s[0]] + more;
        AtQuoted(s[0], more, word);
      }
    }
  }

  /** Whatever the string, the shell reads its quoted form as one word, the string itself. */
  lemma QuoteRoundTrip(s: string)
    ensures Lex(ShellQuote(s)) == Some([Word(s)])
  {
    hide Unquoted, Quoted, ShellQuote;
    QuoteIsRead(s, "", None);
    assert ShellQuote(s) + "" == ShellQuote(s) && "" + s == s;
    AtEnd(s);
  }

  lemma QuoteInjective(a: string, b: string)
    requires ShellQuote(a) == ShellQuote(b)
    ensures a == b
  {
    QuoteRoundTrip(a);
    QuoteRoundTrip(b);
  }

  // ----- Whole command lines -----

  predicate AllOrdinary(p: string) {
    forall i :: 0 <= i < |p| ==> Ordinary(p[i])
  }

  /** Unquoted ordinary characters are added to the word at hand. */
  lemma {:induction false} PlainIsRead(p: string, rest: string, word: string)
    requires AllOrdinary(p)
    ensures Unquoted(p + rest, Some(word)) == Unquoted(rest, Some(word + p))
    decreases |p|
  {
    hide Unquoted;
    if p == "" {
      assert p + rest == rest && word + p == word;
    } else {
      assert p + rest == [p[0]] + (p[1..] + rest);
      AtOrdinary(p[0], p[1..] + rest, Some(word));
      PlainIsRead(p[1..], rest, word + [p[0]]);
      assert word + [p[0]] + p[1..] == word + p;
    }
  }

  /** A plain word at the beginning of a line, or after a blank. */
  lemma PlainWord(p: string, rest: string)
    requires p != "" && AllOrdinary(p)
    ensures Unquoted(p + rest, None) == Unquoted(rest, Some(p))
  {
    hide Unquoted;
    assert p + rest == [p[0]] + (p[1..] + rest);
    AtOrdinary(p[0], p[1..] + rest, None);
    assert "" + [p[0]] == [p[0]];
    PlainIsRead(p[1..], rest, [p[0]]);
    assert [p[0]] + p[1..] == p;
  }

  lemma PlainWordBlank(p: string, rest: string)
    requires p != "" && AllOrdinary(p)
    ensures Unquoted(p + (" " + rest), None) == Prepend([Word(p)], Unquoted(rest, None))
  {
    hide Unquoted;
    PlainWord(p, " " + rest);
    AtBlank(rest, Some(p));
  }

  lemma PlainWordEnd(p: string)
    requires p != "" && AllOrdinary(p)
    ensures Unquoted(p, None) == Some([Word(p)])
  {
    hide Unquoted;
    PlainWord(p, "");
    assert p + "" == p;
    AtEnd(p);
  }

  function EnvTokens(configDir: string, defaultDir: string): seq<Token> {
    if configDir == defaultDir then [Word("unset"), Word("CLAUDE_CONFIG_DIR"), Op(";")]
    else [Word("export"), Word("CLAUDE_CONFIG_DIR=" + configDir), Op(";")]
  }

  /**
   * The account prefix is one complete command in front of whatever follows: it exports (or unsets)
   * the one variable, with exactly the directory as its value, and disturbs nothing behind it.
   */
  lemma EnvPrefixIsRead(configDir: string, defaultDir: string, cmd: string)
    ensures Lex(EnvPrefixForShell(configDir, defaultDir) + cmd)
         == Prepend(EnvTokens(configDir, defaultDir), Lex(cmd))
  {
    hide Unquoted, ShellQuote;
    if configDir == defaultDir {
      UnsetIsRead(cmd);
    } else {
      ExportIsRead(configDir, cmd);
    }
  }

  lemma Reassociate(a: string, b: string, c: string, d: string, e: string)
    ensures a + b + c + d + e == a + (b + (c + (d + e)))
  {
  }

  lemma Reassociate6(a: string, b: string, c: string, d: string, e: string, f: string)
    ensures a + b + c + d + e + f == a + (b + (c + (d + (e + f))))
  {
  }

  lemma CommandTokens(w: string, v: string, tokens: Option<seq<Token>>)
    ensures Prepend([Word(w)], Prepend([Word(v), Op(";")], tokens)) == Prepend([Word(w), Word(v), Op(";")], tokens)
  {
    PrependTwice([Word(w)], [Word(v), Op(";")], tokens);
    assert [Word(w)] + [Word(v), Op(";")] == [Word(w), Word(v), Op(";")];
  }

  lemma UnsetIsRead(cmd: string)
    ensures Lex("unset CLAUDE_CONFIG_DIR; " + cmd)
         == Prepend([Word("unset"), Word("CLAUDE_CONFIG_DIR"), Op(";")], Lex(cmd))
  {
    hide Unquoted;
    var w, v := "unset", "CLAUDE_CONFIG_DIR";
    assert "unset CLAUDE_CONFIG_DIR; " == w + " " + v + "; ";
    PlainWordBlank(w, v + ("; " + cmd));
    PlainWord(v, "; " + cmd);
    AtSemicolonBlank(cmd, v);
    CommandTokens(w, v, Lex(cmd));
    Reassociate(w, " ", v, "; ", cmd);
  }

  lemma ExportIsRead(configDir: string, cmd: string)
    ensures Lex("export CLAUDE_CONFIG_DIR=" + ShellQuote(configDir) + "; " + cmd)
         == Prepend([Word("export"), Word("CLAUDE_CONFIG_DIR=" + configDir), Op(";")], Lex(cmd))
  {
    hide Unquoted, ShellQuote;
    var w, v, q := "export", "CLAUDE_CONFIG_DIR=", ShellQuote(configDir);
    assert "export CLAUDE_CONFIG_DIR=" == w + " " + v;
    PlainWordBlank(w, v + (q + ("; " + cmd)));
    PlainWord(v, q + ("; " + cmd));
    QuoteIsRead(configDir, "; " + cmd, Some(v));
    AtSemicolonBlank(cmd, v + configDir);
    CommandTokens(w, v + configDir, Lex(cmd));
    Reassociate6(w, " ", v, q, "; ", cmd);
  }

  function LaunchTokens(skipPermissions: bool, resume: Option<string>, continueSession: bool): seq<Token> {
    [Word("claude-channels")]
    + (if skipPermissions then [Word("--dangerously-skip-permissions")] else [])
    + SessionTokens(resume, continueSession)
  }

  lemma LaunchIsRead(skipPermissions: bool, resume: Option<string>, continueSession: bool)
    requires resume.Some? ==> IsSid(resume.value)
    ensures Lex("claude-channels" + (if skipPermissions then " --dangerously-skip-permissions" else "")
                + SessionArg(resume, continueSession))
         == Some(LaunchTokens(skipPermissions, resume, continueSession))
  {
    hide Unquoted, SessionArg;
    hide AllOrdinary, SessionTokens;
    var arg, ts := SessionArg(resume, continueSession), SessionTokens(resume, continueSession);
    LaunchLiterals();
    if skipPermissions {
      SessionArgIsRead(resume, continueSession, "--dangerously-skip-permissions");
      TwoWords("claude-channels", "--dangerously-skip-permissions", arg, ts);
    } else {
      SessionArgIsRead(resume, continueSession, "claude-channels");
      assert [Word("claude-channels")] + [] == [Word("claude-channels")];
    }
  }

  lemma LaunchLiterals()
    ensures AllOrdinary("claude-channels") && "claude-channels" != "" && "claude-channels" + "" == "claude-channels"
    ensures AllOrdinary("--dangerously-skip-permissions") && "--dangerously-skip-permissions" != ""
    ensures " --dangerously-skip-permissions" == " " + "--dangerously-skip-permissions"
  {
    hide AllOrdinary;
    ProgramIsPlain();
    FlagIsPlain();
  }

  lemma ProgramIsPlain()
    ensures AllOrdinary("claude-channels")
  {
  }

  lemma FlagIsPlain()
    ensures AllOrdinary("--dangerously-skip-permissions")
  {
  }

  lemma TwoWords(p: string, flag: string, arg: string, ts: seq<Token>)
    requires p != "" && AllOrdinary(p) && Lex(flag + arg) == Some([Word(flag)] + ts)
    ensures Lex(p + (" " + flag) + arg) == Some([Word(p)] + [Word(flag)] + ts)
  {
    hide Unquoted;
    assert p + (" " + flag) + arg == p + (" " + (flag + arg));
    PlainWordBlank(p, flag + arg);
    assert [Word(p)] + ([Word(flag)] + ts) == [Word(p)] + [Word(flag)] + ts;
  }

  function SessionTokens(resume: Option<string>, continueSession: bool): seq<Token> {
    if resume.Some? then [Word("--resume"), Word(resume.value)]
    else if continueSession then [Word("--continue")]
    else []
  }

  lemma SessionArgIsRead(resume: Option<string>, continueSession: bool, p: string)
    requires resume.Some? ==> IsSid(resume.value)
    requires p != "" && AllOrdinary(p)
    ensures Lex(p + SessionArg(resume, continueSession)) == Some([Word(p)] + SessionTokens(resume, continueSession))
  {
    hide Unquoted;
    if resume.Some? {
      ResumeIsRead(resume.value, p);
      assert [Word(p)] + [Word("--resume"), Word(resume.value)] == [Word(p), Word("--resume"), Word(resume.value)];
    } else if continueSession {
      assert p + " --continue" == p + (" " + "--continue");
      PlainWordBlank(p, "--continue");
      PlainWordEnd("--continue");
    } else {
      PlainWordEnd(p);
      assert p + "" == p && [Word(p)] + [] == [Word(p)];
    }
  }

  lemma ResumeIsRead(sid: string, p: string)
    requires IsSid(sid) && p != "" && AllOrdinary(p)
    ensures Lex(p + (" --resume " + sid)) == Some([Word(p), Word("--resume"), Word(sid)])
  {
    hide Unquoted;
    assert p + (" --resume " + sid) == p + (" " + ("--resume" + (" " + sid)));
    PlainWordBlank(p, "--resume" + (" " + sid));
    PlainWordBlank("--resume", sid);
    PlainWordEnd(sid);
    assert [Word(p)] + ([Word("--resume")] + [Word(sid)]) == [Word(p), Word("--resume"), Word(sid)];
  }

  /**
   * The whole relaunch line does what it is meant to and nothing else, whatever the directories are
   * called: set the account, enter the directory, start the program with the flags asked for.
   */
  lemma RelaunchIsRead(configDir: string, defaultDir: string, cwd: string, skipPermissions: bool,
                       resume: Option<string>, continueSession: bool)
    requires resume.Some? ==> IsSid(resume.value)
    ensures Lex(Relaunch(configDir, defaultDir, cwd, skipPermissions, resume, continueSession))
         == Some(EnvTokens(configDir, defaultDir) + [Word("cd"), Word(cwd), Op("&&")]
                 + LaunchTokens(skipPermissions, resume, continueSession))
  {
    hide Unquoted, ShellQuote, EnvPrefixForShell, EnvTokens, SessionArg, LaunchTokens;
    var env, quoted := EnvPrefixForShell(configDir, defaultDir), ShellQuote(cwd);
    var flag := if skipPermissions then " --dangerously-skip-permissions" else "";
    var arg := SessionArg(resume, continueSession);
    var launch := "claude-channels" + flag + arg;
    LaunchIsRead(skipPermissions, resume, continueSession);
    CdIsRead(cwd, launch);
    EnvPrefixIsRead(configDir, defaultDir, "cd" + (" " + (quoted + (" && " + launch))));
    Regroup(env, quoted, flag, arg);
    var ts := LaunchTokens(skipPermissions, resume, continueSession);
    PrependTwice(EnvTokens(configDir, defaultDir), [Word("cd"), Word(cwd), Op("&&")], Some(ts));
  }

  lemma Regroup(env: string, quoted: string, flag: string, arg: string)
    ensures env + "cd " + quoted + " && claude-channels" + flag + arg
         == env + ("cd" + (" " + (quoted + (" && " + ("claude-channels" + flag + arg)))))
  {
  }

  lemma CdIsRead(cwd: string, launch: string)
    ensures Lex("cd" + (" " + (ShellQuote(cwd) + (" && " + launch))))
         == Prepend([Word("cd"), Word(cwd), Op("&&")], Lex(launch))
  {
    hide Unquoted, ShellQuote;
    PlainWordBlank("cd", ShellQuote(cwd) + (" && " + launch));
    QuoteIsRead(cwd, " && " + launch, None);
    assert "" + cwd == cwd;
    assert " && " + launch == " " + ("&& " + launch);
    AtBlank("&& " + launch, Some(cwd));
    AtAndIf(launch);
    PrependTwice([Word(cwd)], [Op("&&")], Lex(launch));
    assert [Word(cwd)] + [Op("&&")] == [Word(cwd), Op("&&")];
    PrependTwice([Word("cd")], [Word(cwd), Op("&&")], Lex(launch));
    assert [Word("cd")] + [Word(cwd), Op("&&")] == [Word("cd"), Word(cwd), Op("&&")];
  }
}
