/**
 * The values exchanged with the completion and embedding services. The
 * services themselves are outside the model: an `Adapter` carries them as
 * two functions, each returning a reply or the exception the call raised.
 */
module Llm {
  import opened Wrappers
  import opened Exceptions

  /** One `{"role": ..., "content": ...}` entry of a chat prompt. */
  datatype Message = Message(role: string, content: string)

  /**
   * What a description agent returns: the completion text, or in test
   * mode the prompt itself (a list of messages).
   */
  datatype Description = Completion(text: string) | PromptMessages(messages: seq<Message>)

  /** An embedding vector; no arithmetic is done on it. */
  datatype Embedding = Embedding(values: seq<real>)

  /** `response.choices[i].message.content`. */
  datatype Choice = Choice(content: string)

  /** A chat completion response. */
  datatype Reply = Reply(choices: seq<Choice>)

  /** The adapter's `send_prompt` and `get_embedding`. */
  datatype Adapter = Adapter(
    sendPrompt: seq<Message> -> Result<Reply, Error>,
    getEmbedding: string -> Result<Embedding, Error>)
}
