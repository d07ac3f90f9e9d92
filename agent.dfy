/** The agent factory of internal/agent/agent.go. An agent type is a
    string; three values name an agent. The agents themselves, which spawn
    processes, are reduced to which of the three was made and the name it
    reports. */
module Agents {
  datatype Result<T> = Ok(value: T) | Err(message: string)

  /** The agent implementations New can return. */
  datatype Agent = OpencodeAgent | ClaudeAgent | CodexAgent

  const Opencode: string := "opencode"
  const Claude: string := "claude"
  const Codex: string := "codex"

  /** The name each agent reports. */
  function Name(a: Agent): string {
    match a
    case OpencodeAgent => Opencode
    case ClaudeAgent => Claude
    case CodexAgent => Codex
  }

  predicate IsAgentType(s: string) {
    s == Opencode || s == Claude || s == Codex
  }

  /** New: an agent for each of the three types, an error for any other. */
  function New(agentType: string): (r: Result<Agent>)
    ensures r.Ok? <==> IsAgentType(agentType)
    ensures r.Ok? ==> Name(r.value) == agentType
    ensures r.Err? ==> r.message == "unknown agent type: " + agentType
  {
    if agentType == Opencode then Ok(OpencodeAgent)
    else if agentType == Claude then Ok(ClaudeAgent)
    else if agentType == Codex then Ok(CodexAgent)
    else Err("unknown agent type: " + agentType)
  }

  /** ParseAgentType: the three names are accepted as they are; any other
      string is refused with the list of valid choices. */
  function ParseAgentType(s: string): (r: Result<string>)
    ensures r.Ok? <==> IsAgentType(s)
    ensures r.Ok? ==> r.value == s
    ensures r.Err? ==> r.message == "unknown agent type: " + s + " (valid: opencode, claude, codex)"
  {
    if s == Opencode || s == Claude || s == Codex then Ok(s)
    else Err("unknown agent type: " + s + " (valid: opencode, claude, codex)")
  }

  /** Every parsed type makes an agent, and that agent reports the name it
      was parsed from; every agent's name parses back to itself. */
  lemma ParseThenNew(s: string)
    requires ParseAgentType(s).Ok?
    ensures New(ParseAgentType(s).value).Ok?
    ensures Name(New(ParseAgentType(s).value).value) == s
  {}

  lemma NameRoundTrip(a: Agent)
    ensures ParseAgentType(Name(a)) == Ok(Name(a))
    ensures New(Name(a)) == Ok(a)
  {}

  /** The names of the three agents are distinct. */
  lemma NamesDistinct(a: Agent, b: Agent)
    ensures Name(a) == Name(b) <==> a == b
  {
    if a != b {
      assert Name(a)[1] != Name(b)[1];
    }
  }
}
