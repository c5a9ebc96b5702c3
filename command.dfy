/** The command line `TerminalSession.start` spawns (src/terminal.py): the agent's base
    command, the resume flag for a well-formed session id, and the persona flag for a
    role prompt free of shell metacharacters, quoted and escaped. */
module Command {
  import opened Common
  import opened Agents
  import opened Uuid

  /** The characters that keep a role prompt off the command line:
      `` ` $ | ; & > < `` and NUL. */
  predicate IsDangerous(c: char) {
    c == '`' || c == '$' || c == '|' || c == ';' || c == '&' || c == '>' || c == '<' || c == '\0'
  }

  predicate HasDangerous(p: string) {
    exists i :: 0 <= i < |p| && IsDangerous(p[i])
  }

  predicate IsSafeChar(c: char) {
    !IsDangerous(c) && c != '\n' && c != '\r'
  }

  /** Text that can stand on the command line as it is: no dangerous character and no
      line break. */
  predicate IsSafeText(s: string) {
    forall i :: 0 <= i < |s| ==> IsSafeChar(s[i])
  }

  lemma SafeConcat(a: string, b: string)
    requires IsSafeText(a) && IsSafeText(b)
    ensures IsSafeText(a + b)
  {
    forall i | 0 <= i < |a + b| ensures IsSafeChar((a + b)[i]) {
      if i >= |a| { assert (a + b)[i] == b[i - |a|]; }
    }
  }

  /** `.replace('"', '\\"').replace('\n', ' ').replace('\r', '')` on one character. */
  function EscapeChar(c: char): string {
    if c == '"' then "\\\"" else if c == '\n' then " " else if c == '\r' then "" else [c]
  }

  function Escape(p: string): string {
    if p == [] then [] else EscapeChar(p[0]) + Escape(p[1..])
  }

  /** The prompt as it should read once quoted: newlines become spaces, carriage
      returns disappear. */
  function Flatten(p: string): string {
    if p == [] then []
    else (if p[0] == '\n' then " " else if p[0] == '\r' then "" else [p[0]]) + Flatten(p[1..])
  }

  /** A reader of quoted arguments that takes `\"` for `"` and every other character,
      a backslash included, as itself. A POSIX shell also reads `\\` as one backslash,
      so it is not this reader for a prompt holding backslashes. */
  function Unescape(t: string): string {
    if t == [] then []
    else if |t| >= 2 && t[0] == '\\' && t[1] == '"' then "\"" + Unescape(t[2..])
    else [t[0]] + Unescape(t[1..])
  }

  lemma {:induction false} EscapeNeverStartsWithQuote(p: string)
    ensures Escape(p) == [] || Escape(p)[0] != '"'
  {
    if p != [] && EscapeChar(p[0]) == [] {
      EscapeNeverStartsWithQuote(p[1..]);
    }
  }

  /** For the reader `Unescape`, reading the escaped prompt back gives the flattened
      prompt. Only quotes are escaped, not backslashes, so for a reader that also takes
      `\\` as an escape a prompt holding a backslash right before a quote escapes to
      `\\\"`, and that quote closes the argument early. */
  lemma {:induction false} UnescapeEscape(p: string)
    ensures Unescape(Escape(p)) == Flatten(p)
  {
    if p != [] {
      var c, rest := p[0], Escape(p[1..]);
      assert Escape(p) == EscapeChar(c) + rest;
      UnescapeEscape(p[1..]);
      EscapeNeverStartsWithQuote(p[1..]);
      if c == '"' {
        assert (EscapeChar(c) + rest)[2..] == rest;
      } else if c == '\n' {
        assert Escape(p) == " " + rest && Flatten(p) == " " + Flatten(p[1..]);
        assert (" " + rest)[1..] == rest;
      } else if c == '\r' {
        assert Escape(p) == rest && Flatten(p) == Flatten(p[1..]);
      } else {
        assert ([c] + rest)[1..] == rest;
      }
    }
  }

  /** The escaped prompt holds only characters of the prompt other than line breaks,
      backslashes and spaces, and each of its quotes is preceded by a backslash. */
  lemma {:induction false} EscapeCharacters(p: string)
    ensures forall i :: 0 <= i < |Escape(p)| ==>
      Escape(p)[i] in p || Escape(p)[i] == '\\' || Escape(p)[i] == ' '
    ensures '\n' !in Escape(p) && '\r' !in Escape(p)
    ensures forall i :: 0 <= i < |Escape(p)| && Escape(p)[i] == '"' ==> i > 0 && Escape(p)[i - 1] == '\\'
  {
    if p != [] {
      EscapeCharacters(p[1..]);
      var head, rest := EscapeChar(p[0]), Escape(p[1..]);
      assert Escape(p) == head + rest;
      forall i | 0 <= i < |Escape(p)|
        ensures Escape(p)[i] in p || Escape(p)[i] == '\\' || Escape(p)[i] == ' '
      {
        if i >= |head| {
          assert Escape(p)[i] == rest[i - |head|];
          assert forall c :: c in p[1..] ==> c in p;
        }
      }
    }
  }

  lemma EscapeKeepsSafe(p: string)
    requires !HasDangerous(p)
    ensures IsSafeText(Escape(p))
  {
    EscapeCharacters(p);
    var e := Escape(p);
    forall i | 0 <= i < |e| ensures IsSafeChar(e[i]) {
      if e[i] in p {
        var j :| 0 <= j < |p| && p[j] == e[i];
        assert !IsDangerous(p[j]);
      }
    }
  }

  /** ` --session-id <id>` when the agent resumes by id and the id passes
      `_is_valid_uuid`; nothing otherwise. */
  function SessionArgument(cfg: AgentConfig, sessionId: string): (r: string)
    ensures r != "" <==> cfg.sessionCmd.Some? && PyIsValidUuid(sessionId)
    ensures r != "" ==> r == " " + cfg.sessionCmd.value.Fill(sessionId)
  {
    if cfg.sessionCmd.Some? && sessionId != "" && PyIsValidUuid(sessionId) then
      " " + cfg.sessionCmd.value.Fill(sessionId)
    else ""
  }

  /** ` --append-system-prompt "<escaped prompt>"` when the agent takes a persona, the
      prompt is non-empty and holds no dangerous character; nothing otherwise. */
  function PersonaArgument(cfg: AgentConfig, prompt: Option<string>): (r: string)
    ensures r != "" <==>
      cfg.systemPromptCmd.Some? && prompt.Some? && prompt.value != "" && !HasDangerous(prompt.value)
    ensures r != "" && IsSafeText(cfg.systemPromptCmd.value) ==> IsSafeText(r)
    ensures r != "" ==> exists quoted :: r == " " + cfg.systemPromptCmd.value + " \"" + quoted + "\""
                                          && Unescape(quoted) == Flatten(prompt.value)
  {
    if cfg.systemPromptCmd.Some? && prompt.Some? && prompt.value != "" then
      if HasDangerous(prompt.value) then ""
      else
        var flag, quoted := cfg.systemPromptCmd.value, Escape(prompt.value);
        var r := " " + flag + " \"" + quoted + "\"";
        PersonaSafe(flag, prompt.value);
        UnescapeEscape(prompt.value);
        r
    else ""
  }

  lemma PersonaSafe(flag: string, p: string)
    requires !HasDangerous(p)
    ensures IsSafeText(flag) ==> IsSafeText(" " + flag + " \"" + Escape(p) + "\"")
  {
    if IsSafeText(flag) {
      EscapeKeepsSafe(p);
      SafeConcat(" ", flag);
      SafeConcat(" " + flag, " \"");
      SafeConcat(" " + flag + " \"", Escape(p));
      SafeConcat(" " + flag + " \"" + Escape(p), "\"");
    }
  }

  /** The command line assembled in `start`, for the agent's configuration, the session
      id and the role's prompt (`ROLE_PROMPTS.get(role)`). */
  function BuildCommand(cfg: AgentConfig, sessionId: string, prompt: Option<string>): string {
    cfg.command + SessionArgument(cfg, sessionId) + PersonaArgument(cfg, prompt)
  }

  /** The base command comes first, and it is all there is when the agent has neither a
      session template nor a persona flag. */
  lemma BaseCommandFirst(cfg: AgentConfig, sessionId: string, prompt: Option<string>)
    ensures var r := BuildCommand(cfg, sessionId, prompt);
      && |cfg.command| <= |r| && r[..|cfg.command|] == cfg.command
      && (cfg.sessionCmd.None? && cfg.systemPromptCmd.None? ==> r == cfg.command)
  {
    var r := BuildCommand(cfg, sessionId, prompt);
    assert r == cfg.command + (SessionArgument(cfg, sessionId) + PersonaArgument(cfg, prompt));
  }

  /** The flag and templates of every configured agent are safe text. */
  lemma ConfigTextIsSafe(k: AgentKind, windows: bool)
    ensures var cfg := ConfigOf(k, windows);
      && (cfg.sessionCmd.Some? ==> cfg.sessionCmd.value == Template("--session-id ", ""))
      && (cfg.systemPromptCmd.Some? ==> IsSafeText(cfg.systemPromptCmd.value))
  {
    var flag := "--append-system-prompt";
    assert forall i :: 0 <= i < |flag| ==> flag[i] == '-' || IsAsciiLetter(flag[i]);
  }

  /** An id that fails the check never reaches the command line: the command is the
      base command followed by the persona part alone. */
  lemma InvalidIdNotSpliced(cfg: AgentConfig, sessionId: string, prompt: Option<string>)
    requires !PyIsValidUuid(sessionId)
    ensures BuildCommand(cfg, sessionId, prompt) == cfg.command + PersonaArgument(cfg, prompt)
  {
    assert SessionArgument(cfg, sessionId) == "";
    assert cfg.command + "" == cfg.command;
  }

  /** Only Claude has resume and persona flags: every other agent runs its base command. */
  lemma OnlyClaudeExtendsCommand(k: AgentKind, windows: bool, sessionId: string, prompt: Option<string>)
    requires k != Claude
    ensures BuildCommand(ConfigOf(k, windows), sessionId, prompt) == ConfigOf(k, windows).command
  {
  }

  /** A role without a prompt (`General`, or a role that is not in the table) adds no
      persona flag. */
  lemma NoPromptNoPersona(cfg: AgentConfig, sessionId: string, role: string)
    requires role !in ["PM", "Dev", "QA"]
    ensures BuildCommand(cfg, sessionId, RolePrompt(role)) == cfg.command + SessionArgument(cfg, sessionId)
  {
  }

  /** A prompt with a dangerous character is dropped; the process still starts with the
      base command and the resume flag. */
  lemma DangerousPromptDropped(cfg: AgentConfig, sessionId: string, prompt: string)
    requires HasDangerous(prompt)
    ensures BuildCommand(cfg, sessionId, Some(prompt)) == cfg.command + SessionArgument(cfg, sessionId)
  {
  }

  lemma NoDangerousConcat(a: string, b: string)
    requires !HasDangerous(a) && !HasDangerous(b)
    ensures !HasDangerous(a + b)
  {
    forall i | 0 <= i < |a + b| ensures !IsDangerous((a + b)[i]) {
      if i < |a| { assert (a + b)[i] == a[i]; } else { assert (a + b)[i] == b[i - |a|]; }
    }
  }

  /** The resume argument holds no dangerous character when the template is the plain
      `--session-id {id}` one. */
  lemma SessionArgumentHarmless(cfg: AgentConfig, sessionId: string)
    requires cfg.sessionCmd.Some? ==> cfg.sessionCmd.value == Template("--session-id ", "")
    ensures !HasDangerous(SessionArgument(cfg, sessionId))
  {
    if SessionArgument(cfg, sessionId) != "" {
      IdHarmless(sessionId);
      ResumeFlagHarmless(cfg.sessionCmd.value, sessionId);
    }
  }

  lemma ResumeFlagHarmless(t: Template, sessionId: string)
    requires t == Template("--session-id ", "") && !HasDangerous(sessionId)
    ensures !HasDangerous(" " + t.Fill(sessionId))
  {
    var flag := " --session-id ";
    assert " " + t.Fill(sessionId) == flag + sessionId;
    assert !HasDangerous(flag) by {
      forall i | 0 <= i < |flag| ensures !IsDangerous(flag[i]) { }
    }
    NoDangerousConcat(flag, sessionId);
  }

  lemma IdHarmless(sessionId: string)
    requires PyIsValidUuid(sessionId)
    ensures !HasDangerous(sessionId)
  {
    PyAcceptedCharacters(sessionId);
  }

  /** With a plain resume template and a safe persona flag, nothing after the base
      command is dangerous. */
  lemma TailHarmless(cfg: AgentConfig, sessionId: string, prompt: Option<string>)
    requires cfg.sessionCmd.Some? ==> cfg.sessionCmd.value == Template("--session-id ", "")
    requires cfg.systemPromptCmd.Some? ==> IsSafeText(cfg.systemPromptCmd.value)
    ensures !HasDangerous(SessionArgument(cfg, sessionId) + PersonaArgument(cfg, prompt))
  {
    SessionArgumentHarmless(cfg, sessionId);
    var p := PersonaArgument(cfg, prompt);
    if p != "" {
      assert IsSafeText(p);
      assert forall i :: 0 <= i < |p| ==> IsSafeChar(p[i]);
    }
    NoDangerousConcat(SessionArgument(cfg, sessionId), p);
  }

  /** What follows the base command of a configured agent holds no dangerous character
      (a newline that the Python check lets through at the end of an id is the one line
      break that can reach it). */
  lemma ArgumentsAreSafe(k: AgentKind, windows: bool, sessionId: string, prompt: Option<string>)
    ensures var cfg := ConfigOf(k, windows);
      !HasDangerous(SessionArgument(cfg, sessionId) + PersonaArgument(cfg, prompt))
  {
    ConfigTextIsSafe(k, windows);
    TailHarmless(ConfigOf(k, windows), sessionId, prompt);
  }
}
