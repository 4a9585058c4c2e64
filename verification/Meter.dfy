/** The deterministic wire-size estimator: a fixed charge per message, tool call and tool
    schema plus one token for every three UTF-8 bytes, rounded up. */
module Meter {
  import opened Domain

  const PER_MESSAGE_FRAMING := 8
  const PER_TOOL_CALL_OR_RESULT := 16
  const PER_TOOL_SCHEMA := 16

  /** The number of bytes of a code point in UTF-8 (section 3 of RFC 3629). */
  function CharBytes(c: char): nat {
    if c as int < 0x80 then 1 else if c as int < 0x800 then 2 else if c as int < 0x1_0000 then 3 else 4
  }

  function ByteLength(text: string): nat {
    if text == "" then 0 else CharBytes(text[0]) + ByteLength(text[1..])
  }

  function CeilThird(n: nat): nat {
    (n + 2) / 3
  }

  function TextTokens(text: string): nat {
    CeilThird(ByteLength(text))
  }

  /** A tool schema, known by the length of its JSON encoding. */
  datatype ToolSchema = ToolSchema(name: string, encodedBytes: nat)

  datatype Envelope = Envelope(messages: seq<Message>, tools: seq<ToolSchema>)

  function CallTokens(calls: seq<ToolCallOffer>): nat {
    if calls == [] then 0
    else PER_TOOL_CALL_OR_RESULT + TextTokens(calls[0].name) + TextTokens(calls[0].arguments) + CallTokens(calls[1..])
  }

  function BlockTokens(blocks: seq<ReasoningBlock>): nat {
    if blocks == [] then 0
    else
      PER_MESSAGE_FRAMING + TextTokens(blocks[0].thinking)
      + (if blocks[0].signature.Some? then TextTokens(blocks[0].signature.value) else 0)
      + BlockTokens(blocks[1..])
  }

  function ProviderTokens(state: Option<ProviderState>): nat {
    if state.None? then 0
    else PER_MESSAGE_FRAMING + TextTokens(state.value.reasoningContent) + BlockTokens(state.value.messagesContent)
  }

  function MessageTokens(message: Message): (tokens: nat)
    ensures tokens >= PER_MESSAGE_FRAMING
  {
    PER_MESSAGE_FRAMING + TextTokens(message.text) + ProviderTokens(message.providerState)
    + (if message.toolCallID != "" then PER_TOOL_CALL_OR_RESULT else 0)
    + CallTokens(message.toolCalls)
  }

  function MessagesTokens(messages: seq<Message>): nat {
    if messages == [] then 0 else MessageTokens(messages[0]) + MessagesTokens(messages[1..])
  }

  function ToolsTokens(tools: seq<ToolSchema>): nat {
    if tools == [] then 0 else PER_TOOL_SCHEMA + CeilThird(tools[0].encodedBytes) + ToolsTokens(tools[1..])
  }

  function EnvelopeTokens(envelope: Envelope): nat {
    MessagesTokens(envelope.messages) + ToolsTokens(envelope.tools)
  }

  lemma {:induction false} ByteLengthAdditive(a: string, b: string)
    ensures ByteLength(a + b) == ByteLength(a) + ByteLength(b)
  {
    if a == "" {
      assert a + b == b;
    } else {
      assert (a + b)[1..] == a[1..] + b;
      ByteLengthAdditive(a[1..], b);
    }
  }

  /** Rounding up makes text pricing subadditive, and never cheaper than either part. */
  lemma TextTokensSubadditive(a: string, b: string)
    ensures TextTokens(a + b) <= TextTokens(a) + TextTokens(b)
    ensures TextTokens(a) <= TextTokens(a + b) && TextTokens(b) <= TextTokens(a + b)
  {
    ByteLengthAdditive(a, b);
  }

  /** What any meter that prices messages one by one charges for a list. */
  function Total(price: Message -> nat, messages: seq<Message>): nat {
    if messages == [] then 0 else price(messages[0]) + Total(price, messages[1..])
  }

  lemma {:induction false} TotalAdditive(price: Message -> nat, a: seq<Message>, b: seq<Message>)
    ensures Total(price, a + b) == Total(price, a) + Total(price, b)
  {
    if a == [] {
      assert a + b == b;
    } else {
      assert (a + b)[1..] == a[1..] + b;
      TotalAdditive(price, a[1..], b);
    }
  }

  /** The wire estimator is such a meter, with the tools as a fixed charge. */
  lemma {:induction false} WireEstimateIsTotal(messages: seq<Message>, tools: seq<ToolSchema>)
    ensures EnvelopeTokens(Envelope(messages, tools)) == Total(MessageTokens, messages) + ToolsTokens(tools)
  {
    if messages != [] {
      WireEstimateIsTotal(messages[1..], tools);
    }
  }

  /** The accumulating loop over messages, tool calls and reasoning blocks. */
  method EstimateMessages(messages: seq<Message>) returns (total: nat)
    ensures total == MessagesTokens(messages)
  {
    total := 0;
    for i := 0 to |messages|
      invariant total + MessagesTokens(messages[i..]) == MessagesTokens(messages)
    {
      var message := messages[i];
      assert messages[i..][1..] == messages[i + 1..];
      total := total + PER_MESSAGE_FRAMING + TextTokens(message.text);
      if message.providerState.Some? {
        var blocks := EstimateBlocks(message.providerState.value.messagesContent);
        total := total + PER_MESSAGE_FRAMING + TextTokens(message.providerState.value.reasoningContent) + blocks;
      }
      if message.toolCallID != "" {
        total := total + PER_TOOL_CALL_OR_RESULT;
      }
      var calls := EstimateCalls(message.toolCalls);
      total := total + calls;
    }
  }

  method EstimateBlocks(blocks: seq<ReasoningBlock>) returns (total: nat)
    ensures total == BlockTokens(blocks)
  {
    total := 0;
    for i := 0 to |blocks|
      invariant total + BlockTokens(blocks[i..]) == BlockTokens(blocks)
    {
      assert blocks[i..][1..] == blocks[i + 1..];
      total := total + PER_MESSAGE_FRAMING + TextTokens(blocks[i].thinking);
      if blocks[i].signature.Some? {
        total := total + TextTokens(blocks[i].signature.value);
      }
    }
  }

  method EstimateCalls(calls: seq<ToolCallOffer>) returns (total: nat)
    ensures total == CallTokens(calls)
  {
    total := 0;
    for i := 0 to |calls|
      invariant total + CallTokens(calls[i..]) == CallTokens(calls)
    {
      assert calls[i..][1..] == calls[i + 1..];
      total := total + PER_TOOL_CALL_OR_RESULT + TextTokens(calls[i].name) + TextTokens(calls[i].arguments);
    }
  }

  method Estimate(envelope: Envelope) returns (total: nat)
    ensures total == EnvelopeTokens(envelope)
  {
    total := EstimateMessages(envelope.messages);
    for i := 0 to |envelope.tools|
      invariant total + ToolsTokens(envelope.tools[i..]) == EnvelopeTokens(envelope)
    {
      assert envelope.tools[i..][1..] == envelope.tools[i + 1..];
      total := total + PER_TOOL_SCHEMA + CeilThird(envelope.tools[i].encodedBytes);
    }
  }
}
