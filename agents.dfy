/** The static tables of src/terminal.py: the supported agent kinds (`AGENT_CONFIGS`),
    the role prompts (`ROLE_PROMPTS`), their look-ups with fall-backs, and
    `get_available_agents`. */
module Agents {
  import opened Common

  /** The keys of `AGENT_CONFIGS`, in the dictionary's order. */
  datatype AgentKind = Claude | Gemini | GeminiThinking | Codex | OpenCode | Shell

  const AllKinds: seq<AgentKind> := [Claude, Gemini, GeminiThinking, Codex, OpenCode, Shell]

  function Tag(k: AgentKind): string {
    match k
    case Claude => "claude"
    case Gemini => "gemini"
    case GeminiThinking => "gemini-thinking"
    case Codex => "codex"
    case OpenCode => "opencode"
    case Shell => "shell"
  }

  /** `AGENT_CONFIGS.get(tag)`: the kind whose key is `tag`, if there is one. */
  function KindOf(tag: string): (r: Option<AgentKind>)
    ensures r.Some? ==> Tag(r.value) == tag
    ensures forall k :: Tag(k) == tag ==> r == Some(k)
  {
    if tag == "claude" then Some(Claude)
    else if tag == "gemini" then Some(Gemini)
    else if tag == "gemini-thinking" then Some(GeminiThinking)
    else if tag == "codex" then Some(Codex)
    else if tag == "opencode" then Some(OpenCode)
    else if tag == "shell" then Some(Shell)
    else None
  }

  /** `AGENT_CONFIGS.get(agent_type, AGENT_CONFIGS["claude"])`, and the check
      `if agent_type not in AGENT_CONFIGS: agent_type = "claude"`. */
  function KindOrDefault(tag: string): (r: AgentKind)
    ensures KindOf(tag).Some? ==> Tag(r) == tag
    ensures KindOf(tag).None? ==> r == Claude
  {
    KindOf(tag).GetOr(Claude)
  }

  /** A command template with one `{placeholder}`: the text around it. */
  datatype Template = Template(before: string, after: string) {
    function Fill(x: string): (r: string)
      ensures |r| == |before| + |x| + |after|
      ensures r[..|before|] == before && r[|before|..|before| + |x|] == x
    {
      before + x + after
    }
  }

  /** One entry of `AGENT_CONFIGS`. */
  datatype AgentConfig = AgentConfig(
    name: string,
    icon: string,
    command: string,
    sessionCmd: Option<Template>,
    systemPromptCmd: Option<string>,
    addImageCmd: Option<Template>,
    promptChar: string,
    color: string,
    supportsImage: bool,
    description: string)

  /** `AGENT_CONFIGS[k]`. Only the shell's command depends on the platform
      (`os.name == 'nt'`). */
  function ConfigOf(k: AgentKind, windows: bool): AgentConfig {
    match k
    case Claude => AgentConfig("Claude", "\U{1f535}", "claude --dangerously-skip-permissions",
      Some(Template("--session-id ", "")), Some("--append-system-prompt"), Some(Template("add ", "")),
      ">", "#7aa2f7", true, "Anthropic Claude Code CLI")
    case Gemini => AgentConfig("Gemini", "\U{1f7e2}", "gemini --yolo",
      None, None, Some(Template("add ", "")), ">", "#9ece6a", true, "Google Gemini CLI")
    case GeminiThinking => AgentConfig("Gemini (Thinking)", "\U{1f9e0}",
      "gemini --yolo --model gemini-2.0-flash-thinking-exp",
      None, None, Some(Template("add ", "")), ">", "#7dcfff", true, "Gemini 2.0 Flash Thinking")
    case Codex => AgentConfig("Codex", "\U{1f7e0}", "codex",
      None, None, None, ">", "#ff9e64", false, "OpenAI Codex CLI")
    case OpenCode => AgentConfig("OpenCode", "\U{1f7e3}", "opencode",
      None, None, None, ">", "#bb9af7", false, "OpenCode CLI")
    case Shell => AgentConfig("Shell", "\U{26aa}", if windows then "cmd.exe" else "/bin/bash",
      None, None, None, ">", "#a9b1d6", false, "System Shell")
  }

  /** `ROLE_PROMPTS.get(role)`: the persona text of a role; `General` and unknown roles
      have none. */
  function RolePrompt(role: string): Option<string> {
    if role == "PM" then Some("You are an expert Technical Project Manager.\nYour Goal: Break down vague requirements into clear, actionable technical tasks.\nRules:\n1. Do NOT write code implementation details.\n2. Focus on architecture, file structure, and step-by-step planning.\n3. Delegate implementation tasks to Developers.")
    else if role == "Dev" then Some("You are a Senior Full-Stack Developer.\nYour Goal: Write clean, production-ready code based on instructions.\nRules:\n1. Focus on implementation. Write filenames and code blocks clearly.\n2. If specifications are missing, ask the PM.\n3. Keep explanations concise. Code is your language.")
    else if role == "QA" then Some("You are a QA Lead and Security Specialist.\nYour Goal: Find bugs, security flaws, and logic errors.\nRules:\n1. Review code critically.\n2. Suggest test cases.\n3. Verify if the code meets requirements.")
    else None
  }

  predicate IsKnownRole(role: string) {
    role in ["PM", "Dev", "QA", "General"]
  }

  /** `if role not in ROLE_PROMPTS: role = "General"`. */
  function RoleOrDefault(role: string): (r: string)
    ensures IsKnownRole(r)
    ensures IsKnownRole(role) ==> r == role
    ensures !IsKnownRole(role) ==> r == "General" && RolePrompt(r) == None
  {
    if IsKnownRole(role) then role else "General"
  }

  /** One element of the list `get_available_agents` returns. */
  datatype AgentSummary = AgentSummary(
    id: string, name: string, icon: string, color: string, supportsImage: bool, description: string)

  function Summary(k: AgentKind, windows: bool): AgentSummary {
    var c := ConfigOf(k, windows);
    AgentSummary(Tag(k), c.name, c.icon, c.color, c.supportsImage, c.description)
  }

  /** `get_available_agents`: one summary per configured agent, in table order. Every
      listed id looks up to the kind it describes, ids are distinct, and an agent is
      advertised as accepting images exactly when it has an image command. */
  function AvailableAgents(windows: bool): (r: seq<AgentSummary>)
    ensures |r| == |AllKinds|
    ensures forall i :: 0 <= i < |r| ==> KindOf(r[i].id) == Some(AllKinds[i])
    ensures forall i :: 0 <= i < |r| ==>
              (r[i].supportsImage <==> ConfigOf(AllKinds[i], windows).addImageCmd.Some?)
    ensures forall i :: 0 <= i < |r| ==>
              var c := ConfigOf(AllKinds[i], windows);
              r[i].name == c.name && r[i].icon == c.icon && r[i].color == c.color
              && r[i].description == c.description
    ensures forall i, j :: 0 <= i < j < |r| ==> r[i].id != r[j].id
  {
    var r := seq(|AllKinds|, i requires 0 <= i < |AllKinds| => Summary(AllKinds[i], windows));
    SummariesDescribeConfigs(r, windows);
    r
  }

  lemma SummariesDescribeConfigs(r: seq<AgentSummary>, windows: bool)
    requires |r| == |AllKinds| && forall i :: 0 <= i < |r| ==> r[i] == Summary(AllKinds[i], windows)
    ensures forall i :: 0 <= i < |r| ==> KindOf(r[i].id) == Some(AllKinds[i])
    ensures forall i :: 0 <= i < |r| ==>
              (r[i].supportsImage <==> ConfigOf(AllKinds[i], windows).addImageCmd.Some?)
    ensures forall i, j :: 0 <= i < j < |r| ==> r[i].id != r[j].id
  {
    forall i | 0 <= i < |r|
      ensures KindOf(r[i].id) == Some(AllKinds[i])
      ensures r[i].supportsImage <==> ConfigOf(AllKinds[i], windows).addImageCmd.Some?
    {
      SummaryDescribesConfig(AllKinds[i], windows);
    }
    forall i, j | 0 <= i < j < |r| ensures r[i].id != r[j].id {
      assert KindOf(r[i].id) != KindOf(r[j].id);
    }
  }

  lemma SummaryDescribesConfig(k: AgentKind, windows: bool)
    ensures KindOf(Summary(k, windows).id) == Some(k)
    ensures Summary(k, windows).supportsImage <==> ConfigOf(k, windows).addImageCmd.Some?
  {
    match k
    case Claude =>
    case Gemini =>
    case GeminiThinking =>
    case Codex =>
    case OpenCode =>
    case Shell =>
  }
}
