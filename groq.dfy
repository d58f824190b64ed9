/**
 * backend/internal/services/groq.go: the second provider. It reuses the
 * Claude system prompt, sends it as a leading "system" message, and reads the
 * first choice of an OpenAI-style chat completion.
 */
module Groq {
  import opened Wrappers
  import opened Claude

  datatype GroqMessage = GroqMessage(role: string, content: string)

  /** The request body; the fixed temperature 0.8 is not modelled. */
  datatype GroqRequest = GroqRequest(model: string, messages: seq<GroqMessage>, maxTokens: int)

  datatype Choice = Choice(role: string, content: string)

  /** The decoded response: its choices and the message of its error object, if any. */
  datatype GroqResponse = GroqResponse(choices: seq<Choice>, error: Option<string>)

  /** The outcome of a configured call, read off what came back. */
  function Extract(delivery: Delivery<GroqResponse>): (r: Result<string>)
    ensures delivery.Received? && delivery.response.error.Some? ==>
              r == Err("Groq API error: " + delivery.response.error.value)
    ensures delivery.Received? && delivery.response.error.None? && delivery.response.choices == [] ==>
              r == Err("no choices in response")
    ensures r.Ok? <==> delivery.Received? && delivery.response.error.None? && delivery.response.choices != []
    ensures r.Ok? ==> r.value == delivery.response.choices[0].content
  {
    match delivery
    case TransportError(m) => Err(m)
    case Received(resp) =>
      if resp.error.Some? then Err("Groq API error: " + resp.error.value)
      else if |resp.choices| == 0 then Err("no choices in response")
      else Ok(resp.choices[0].content)
  }

  /**
   * The outgoing message list: the system prompt, then each input message
   * with its role and content copied, in order.
   */
  method AssembleMessages(systemPrompt: string, messages: seq<ChatMessage>) returns (out: seq<GroqMessage>)
    ensures |out| == |messages| + 1
    ensures out[0] == GroqMessage("system", systemPrompt)
    ensures forall i :: 0 <= i < |messages| ==>
              out[i + 1].role == messages[i].role && out[i + 1].content == messages[i].content
  {
    out := [GroqMessage("system", systemPrompt)];
    var i := 0;
    while i < |messages|
      invariant 0 <= i <= |messages|
      invariant |out| == i + 1
      invariant out[0] == GroqMessage("system", systemPrompt)
      invariant forall k :: 0 <= k < i ==> out[k + 1] == GroqMessage(messages[k].role, messages[k].content)
    {
      out := out + [GroqMessage(messages[i].role, messages[i].content)];
      i := i + 1;
    }
  }

  /** `GenerateResponse`: `request` is what is sent, `None` when nothing is. */
  method GenerateResponse(config: ServiceConfig, c: CompanionContext, messages: seq<ChatMessage>, mood: string,
                          delivery: Delivery<GroqResponse>)
    returns (request: Option<GroqRequest>, result: Result<string>)
    ensures !IsConfigured(config) <==> request.None?
    ensures !IsConfigured(config) ==> result == Err("Groq API key not configured")
    ensures request.Some? ==>
              request.value.model == config.model && request.value.maxTokens == 500 &&
              |request.value.messages| == |messages| + 1 &&
              request.value.messages[0] == GroqMessage("system", SystemPrompt(c, mood)) &&
              (forall i :: 0 <= i < |messages| ==>
                 request.value.messages[i + 1] == GroqMessage(messages[i].role, messages[i].content))
    ensures request.Some? ==> result == Extract(delivery)
  {
    if !IsConfigured(config) {
      return None, Err("Groq API key not configured");
    }
    var systemPrompt := BuildSystemPrompt(c, mood);
    var groqMessages := AssembleMessages(systemPrompt, messages);
    request := Some(GroqRequest(config.model, groqMessages, 500));
    result := Extract(delivery);
  }
}
