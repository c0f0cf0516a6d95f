/** The language-model client (src/llm_client.py) as an oracle: its reply to a
    call may depend on every prompt sent so far, and it records those prompts,
    so the number and order of calls an agent makes is observable. */
module LlmClient {

  class Llm {
    /** The reply given after the prompts in the argument have been sent, the last one being the current call. */
    const respond: seq<string> -> string
    /** Every prompt sent so far, oldest first. */
    var sent: seq<string>

    constructor (respond: seq<string> -> string)
      ensures this.respond == respond
      ensures sent == []
    {
      this.respond := respond;
      sent := [];
    }

    /** `generate(prompt)`: one call, answered by the oracle. */
    method Generate(prompt: string) returns (reply: string)
      modifies this
      ensures sent == old(sent) + [prompt]
      ensures reply == respond(sent)
    {
      sent := sent + [prompt];
      reply := respond(sent);
    }
  }
}
