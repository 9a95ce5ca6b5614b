/** The chat transcript's messages and the agent's structured replies. */
module Chat {
  import opened Wrappers
  import opened Strings
  import opened FileTree
  import opened Collaborators

  /** The reserved sender id of the automated agent. */
  const AgentId: string := "ai"

  /** The sender the workspace uses for the agent's locally made notices. */
  const Agent: User := User(AgentId, "AI Assistant")

  /** A chat message carries text (for the agent, a JSON string) or, for an
      uploaded picture, its data URL. */
  datatype Body = Words(text: string) | Picture(dataUrl: string)

  datatype Message = Message(sender: User, body: Body)

  predicate FromAgent(m: Message)
  {
    m.sender.id == AgentId
  }

  /** The fields of an agent message's JSON object: `text` is only rendered
      in the transcript, `fileTree` replaces the store; an absent or falsy
      field is `None`. */
  datatype Envelope = Envelope(text: Option<string>, fileTree: Option<Tree>)

  /** `JSON.parse(data.message)` followed by reading `.fileTree`: either the
      envelope, or an exception (malformed JSON, or JSON `null`). The
      parser itself is not part of this model. */
  datatype Decoded = Decoded(envelope: Envelope) | Undecodable

  /** `message.toLowerCase().startsWith('@ai')`. */
  predicate AddressesAgent(draft: string)
  {
    StartsWith(Lower(draft), "@ai")
  }

  /** Spelled out: an at-sign followed by `a` and `i` in either case. */
  lemma AddressesAgentIff(draft: string)
    ensures AddressesAgent(draft) <==>
      && |draft| >= 3
      && draft[0] == '@'
      && (draft[1] == 'a' || draft[1] == 'A')
      && (draft[2] == 'i' || draft[2] == 'I')
  {
    if |draft| >= 3 {
      assert Lower(draft)[..3] == [LowerChar(draft[0]), LowerChar(draft[1]), LowerChar(draft[2])];
    }
  }

  /** The notice appended after a generated UI arrived. */
  const GeneratedNotice: Message :=
    Message(Agent, Words("{\"text\":\"UI generated successfully!\"}"))

  /** The notice appended when the UI generation request failed. */
  const GenerateFailedNotice: Message :=
    Message(Agent, Words("{\"text\":\"Error generating UI. Please try again.\"}"))
}
