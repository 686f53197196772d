/**
 * What crosses the boundaries of the core: the chat messages sent to the
 * language model, the reply of a chat-completion call (the model and its
 * client are an oracle here), and the outcome of a tool's `run`, which
 * either returns a string or raises an exception.
 */
module Interfaces {

  datatype Option<+T> = None | Some(value: T)

  datatype Role = System | User | Assistant

  /** One `{"role": ..., "content": ...}` entry of a conversation. */
  datatype Message = Message(role: Role, content: string)

  /** One chat-completion call: the message content it returned, or the text
    * of the exception the client raised (transport failure, bad key, ...). */
  datatype Completion = Content(text: string) | Failure(error: string)

  /** A chat-completion client: the reply it gives to a list of messages. */
  type Chat = seq<Message> -> Completion

  /** One call of a tool's `run`: the string it returned, or the text of the
    * exception it raised. */
  datatype ToolOutcome = Returned(text: string) | Raised(error: string)

  /** A chat-completion client held by an object: it answers as `reply` does
    * and keeps the list of message lists it has been sent, in order. */
  class ChatClient {
    const reply: Chat
    var requests: seq<seq<Message>>

    constructor (reply: Chat)
      ensures this.reply == reply && requests == []
    {
      this.reply := reply;
      requests := [];
    }

    /** `client.chat.completions.create(messages=messages, ...)`. */
    method Create(messages: seq<Message>) returns (c: Completion)
      modifies this
      ensures c == reply(messages)
      ensures requests == old(requests) + [messages]
    {
      c := reply(messages);
      requests := requests + [messages];
    }
  }
}
