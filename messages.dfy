/** Chat messages as the agents exchange them (LangChain message objects). */
module Messages {
  import opened Wrappers

  datatype Role = Human | Ai | ToolResult | System

  /** A tool invocation requested by a model answer. */
  datatype ToolCall = ToolCall(name: string, args: string, id: string)

  /**
   * A message: who sent it, its text, the id the model gave it (if any) and,
   * for a model answer, the tool calls it requests.
   */
  datatype Message = Message(role: Role, content: string, id: Option<string>, toolCalls: seq<ToolCall>)

  /** `AIMessage(content=...)`. */
  function AiText(content: string): Message {
    Message(Ai, content, None, [])
  }

  /** `HumanMessage(content=...)`. */
  function HumanText(content: string): Message {
    Message(Human, content, None, [])
  }
}

/**
 * What every agent receives from outside: the per-run configuration and the
 * results of the language-model collaborators, which the model takes as inputs.
 */
module Collaborators {
  import opened Wrappers
  import opened Messages

  const DefaultModel: string := "gpt-4o-mini"

  /** The `configurable` part of a run's config: `user_id` and `model`, each possibly absent. */
  datatype Config = Config(userId: Option<string>, model: Option<string>)

  /** `models[config["configurable"].get("model", "gpt-4o-mini")]` finds a model in the registry. */
  predicate ModelKnown(cfg: Config, registry: set<string>) {
    cfg.model.GetOr(DefaultModel) in registry
  }

  /** Python truthiness of an optional string: present and not empty. */
  predicate Truthy(s: Option<string>) {
    s.Some? && s.value != ""
  }

  /** A chat model's answer, or the error it raised. */
  datatype LlmReply = Reply(message: Message) | LlmRaised(error: string)

  /** A structured-output classifier's parsed answer, or the error it raised. */
  datatype Classified<T> = Answered(value: T) | ClassifierRaised(error: string)
}
