/** What both agent loops share: chat messages and the limit on iterations
    (provider/provider.go, executor/executor.go, orchestrator/step_agent_execute.go). */
module Chat {
  datatype Role = System | User | Assistant | Tool

  /** A message; `toolCallId` names the call a tool's message answers, `toolCalls` the calls the model
      asks for. */
  datatype Message = Message(role: Role, content: string, toolCallId: string, toolCalls: seq<string>)

  function Plain(role: Role, content: string): Message {
    Message(role, content, "", [])
  }

  /** The configured maximum, ten if there is none. */
  function IterationLimit(given: int): (n: nat)
    ensures n >= 1
  {
    if given <= 0 then 10 else given
  }
}
