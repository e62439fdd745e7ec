/** The values exchanged between the agent loop and an LLM provider
    (llm/chat_request.go, llm/chat_response.go, llm/usage.go). */
module Chat {

  /** One piece of a message.  Tool inputs and outputs are JSON texts, kept as
      the strings that cross the API. */
  datatype ContentBlock =
    | Text(text: string)
    | ToolUse(id: string, name: string, input: string)
    | ToolResult(useId: string, output: string, isError: bool)

  datatype Usage = Usage(inputTokens: int, outputTokens: int, cacheRead: int, cacheCreation: int, costUSD: real)

  datatype ChatResponse = ChatResponse(id: string, model: string, stopReason: string,
                                       content: seq<ContentBlock>, usage: Usage)

  datatype Role = User | Assistant

  datatype Message = Message(role: Role, content: seq<ContentBlock>)

  /** What one LLM call gives back: a response, or an error that may or may not
      unwrap to a context cancellation. */
  datatype LLMResult = Reply(resp: ChatResponse) | CallFailed(canceled: bool)

  /** The tool_use blocks of a message, in order. */
  function ToolUses(content: seq<ContentBlock>): seq<ContentBlock> {
    if content == [] then []
    else
      var last := content[|content| - 1];
      ToolUses(content[..|content| - 1]) + if last.ToolUse? then [last] else []
  }

  /** The text of a message, its text blocks run together. */
  function TextOf(content: seq<ContentBlock>): string {
    if content == [] then ""
    else
      var last := content[|content| - 1];
      TextOf(content[..|content| - 1]) + if last.Text? then last.text else ""
  }

  /** The blocks that are neither text nor tool calls, in order. */
  function Others(content: seq<ContentBlock>): seq<ContentBlock> {
    if content == [] then []
    else
      var last := content[|content| - 1];
      Others(content[..|content| - 1]) + if last.ToolResult? then [last] else []
  }

  function TextBlock(text: string): seq<ContentBlock> {
    if text == "" then [] else [Text(text)]
  }

  /** The normal form of a message: its text merged into one block, in front of its tool_use
      blocks, in front of all others. */
  function Merge(content: seq<ContentBlock>): seq<ContentBlock> {
    TextBlock(TextOf(content)) + ToolUses(content) + Others(content)
  }

  /** extractToolUseBlocks. */
  method ExtractToolUseBlocks(content: seq<ContentBlock>) returns (blocks: seq<ContentBlock>)
    ensures blocks == ToolUses(content)
  {
    blocks := [];
    for i := 0 to |content|
      invariant blocks == ToolUses(content[..i])
    {
      assert content[..i + 1][..i] == content[..i];
      if content[i].ToolUse? {
        blocks := blocks + [content[i]];
      }
    }
    assert content[..|content|] == content;
  }

  lemma {:induction false} ToolUsesAppend(a: seq<ContentBlock>, b: seq<ContentBlock>)
    ensures ToolUses(a + b) == ToolUses(a) + ToolUses(b)
  {
    if b == [] {
      assert a + b == a;
    } else {
      ToolUsesAppend(a, b[..|b| - 1]);
      assert (a + b)[..|a + b| - 1] == a + b[..|b| - 1];
    }
  }

  lemma {:induction false} TextAppend(a: seq<ContentBlock>, b: seq<ContentBlock>)
    ensures TextOf(a + b) == TextOf(a) + TextOf(b)
  {
    if b == [] {
      assert a + b == a;
    } else {
      var front, last := b[..|b| - 1], b[|b| - 1];
      TextAppend(a, front);
      assert (a + b)[..|a + b| - 1] == a + front;
      var text := if last.Text? then last.text else "";
      assert TextOf(a + b) == TextOf(a + front) + text;
      assert TextOf(b) == TextOf(front) + text;
    }
  }

  lemma {:induction false} OthersAppend(a: seq<ContentBlock>, b: seq<ContentBlock>)
    ensures Others(a + b) == Others(a) + Others(b)
  {
    if b == [] {
      assert a + b == a;
    } else {
      OthersAppend(a, b[..|b| - 1]);
      assert (a + b)[..|a + b| - 1] == a + b[..|b| - 1];
    }
  }

  /** The parts of one block. */
  lemma OneBlock(block: ContentBlock)
    ensures ToolUses([block]) == if block.ToolUse? then [block] else []
    ensures Others([block]) == if block.ToolResult? then [block] else []
    ensures TextOf([block]) == if block.Text? then block.text else ""
  {
    assert [block][..0] == [];
  }

  lemma {:induction false} ToolUsesOfToolUses(content: seq<ContentBlock>)
    ensures forall i :: 0 <= i < |ToolUses(content)| ==> ToolUses(content)[i].ToolUse?
    ensures ToolUses(ToolUses(content)) == ToolUses(content)
    ensures TextOf(ToolUses(content)) == "" && Others(ToolUses(content)) == []
  {
    if content != [] {
      var last := content[|content| - 1];
      var rest := ToolUses(content[..|content| - 1]);
      ToolUsesOfToolUses(content[..|content| - 1]);
      if last.ToolUse? {
        assert ToolUses(content) == rest + [last];
        hide ToolUses, Others, TextOf;
        ToolUsesAppend(rest, [last]);
        OthersAppend(rest, [last]);
        TextAppend(rest, [last]);
        OneBlock(last);
      } else {
        assert rest + [] == rest;
      }
    }
  }

  lemma {:induction false} OthersOfOthers(content: seq<ContentBlock>)
    ensures Others(Others(content)) == Others(content)
    ensures TextOf(Others(content)) == "" && ToolUses(Others(content)) == []
  {
    if content != [] {
      var last := content[|content| - 1];
      var rest := Others(content[..|content| - 1]);
      OthersOfOthers(content[..|content| - 1]);
      if last.ToolResult? {
        assert Others(content) == rest + [last];
        hide ToolUses, Others, TextOf;
        ToolUsesAppend(rest, [last]);
        OthersAppend(rest, [last]);
        TextAppend(rest, [last]);
        OneBlock(last);
      } else {
        assert rest + [] == rest;
      }
    }
  }

  lemma PartsOfText(text: string)
    ensures TextOf(TextBlock(text)) == text && ToolUses(TextBlock(text)) == [] && Others(TextBlock(text)) == []
  {
    OneBlock(Text(text));
  }

  /** Merging keeps a message's text, its tool calls and its other blocks, so merging twice is
      merging once. */
  lemma MergeKeeps(content: seq<ContentBlock>)
    ensures TextOf(Merge(content)) == TextOf(content)
    ensures ToolUses(Merge(content)) == ToolUses(content)
    ensures Others(Merge(content)) == Others(content)
    ensures Merge(Merge(content)) == Merge(content)
  {
    var text, uses, others := TextBlock(TextOf(content)), ToolUses(content), Others(content);
    PartsOfText(TextOf(content));
    ToolUsesOfToolUses(content);
    OthersOfOthers(content);
    hide ToolUses, Others, TextOf, TextBlock;
    ToolUsesAppend(text + uses, others);
    ToolUsesAppend(text, uses);
    OthersAppend(text + uses, others);
    OthersAppend(text, uses);
    TextAppend(text + uses, others);
    TextAppend(text, uses);
  }
}
