/** `MemoryManager` of llms/models.py. It keeps no conversation: the only
    message it ever hands out is its fixed system prompt. */
module Memory {
  /** A chat message as a `{"role": …, "content": …}` dict. */
  datatype Message = Message(role: string, content: string)

  const SystemRole: string := "system"
  const SystemInstruction: string := " Output only a function call, nothing else."

  /** The manager's state: its system prompt and nothing else. */
  datatype MemoryManager = MemoryManager(systemPrompt: Message)

  /** `MemoryManager()`. */
  function NewMemoryManager(): (m: MemoryManager)
    ensures m.systemPrompt.role == SystemRole
  {
    MemoryManager(Message(SystemRole, SystemInstruction))
  }

  /** The messages include a system prompt. */
  predicate IncludesSystemPrompt(msgs: seq<Message>) {
    exists k :: 0 <= k < |msgs| && msgs[k].role == SystemRole
  }

  /** `get_memory_as_messages()`: the stored memory as a flat list of
      messages. The manager stores no conversation, so the list holds its
      system prompt and nothing else. */
  function GetMemoryAsMessages(m: MemoryManager): (msgs: seq<Message>)
    ensures m.systemPrompt in msgs
    ensures forall k :: 0 <= k < |msgs| ==> msgs[k] == m.systemPrompt
  {
    [m.systemPrompt]
  }

  /** A new manager hands out exactly one message: the system message with
      the fixed instruction. So the system prompt is always included, as the
      docstring promises. */
  lemma NewManagerMessages(m: MemoryManager)
    requires m == NewMemoryManager()
    ensures GetMemoryAsMessages(m) == [Message(SystemRole, SystemInstruction)]
    ensures IncludesSystemPrompt(GetMemoryAsMessages(m))
  {
    assert GetMemoryAsMessages(m)[0].role == SystemRole;
  }
}
