/**
 * The part of the model API's messages the tool-use loop reads and writes: a response's stop reason and content
 * blocks, tool results, and the turns of the conversation sent back.
 */
module AnthropicMessages {
  import opened Wrappers

  datatype StopReason = EndTurn | MaxTokens | StopSequence | ToolUse

  /** A tool invocation: its id, the tool's name and the `issueId` of its JSON input. */
  datatype ToolUseRequest = ToolUseRequest(id: string, name: string, issueId: int)

  datatype ContentBlock =
    | TextBlock(text: string)
    | ToolUseBlock(toolUse: ToolUseRequest)
    | OtherBlock

  /** A model response; `stopReason` is optional in the API. */
  datatype Message = Message(content: seq<ContentBlock>, stopReason: Option<StopReason>, stopSequence: Option<string>)

  /** A tool result block: the id of the tool use it answers, and its text. */
  datatype ToolResult = ToolResult(toolUseId: string, content: string)

  /** One turn of the conversation the loop builds. */
  datatype Turn =
    | UserPrompt(repo: string, releaseName: string, releaseBody: string)
    | AssistantMessage(message: Message)
    | ToolResultsMessage(results: seq<ToolResult>)

  /** `content().stream().flatMap(b -> b.toolUse().stream())`: the tool uses, in the order of the blocks. */
  function ToolUsesOf(blocks: seq<ContentBlock>): (uses: seq<ToolUseRequest>)
    ensures |uses| <= |blocks|
    ensures forall u :: u in uses <==> ToolUseBlock(u) in blocks
  {
    if blocks == [] then []
    else match blocks[0]
      case ToolUseBlock(u) => [u] + ToolUsesOf(blocks[1..])
      case _ => ToolUsesOf(blocks[1..])
  }

  /** The positions of the tool-use blocks, ascending: every such position once, and no other. */
  function ToolUseIndices(blocks: seq<ContentBlock>): (idx: seq<nat>)
    ensures forall k :: 0 <= k < |idx| ==> idx[k] < |blocks| && blocks[idx[k]].ToolUseBlock?
    ensures forall k, l :: 0 <= k < l < |idx| ==> idx[k] < idx[l]
    ensures forall i :: 0 <= i < |blocks| && blocks[i].ToolUseBlock? ==> i in idx
  {
    if blocks == [] then []
    else
      var n := |blocks| - 1;
      ToolUseIndices(blocks[..n]) + (if blocks[n].ToolUseBlock? then [n] else [])
  }

  /** The k-th of `uses` is the tool use of the block at the k-th of `idx`. */
  predicate UsesAt(blocks: seq<ContentBlock>, idx: seq<nat>, uses: seq<ToolUseRequest>) {
    |uses| == |idx| && forall k :: 0 <= k < |idx| ==> idx[k] < |blocks| && blocks[idx[k]] == ToolUseBlock(uses[k])
  }

  /** The k-th tool use is the one of the k-th tool-use block: block order and multiplicity are kept. */
  lemma {:induction false} ToolUsesAtIndices(blocks: seq<ContentBlock>)
    ensures UsesAt(blocks, ToolUseIndices(blocks), ToolUsesOf(blocks))
  {
    if blocks != [] {
      var n := |blocks| - 1;
      var front, b := blocks[..n], blocks[n];
      assert front + [b] == blocks;
      ToolUsesAtIndices(front);
      ToolUsesOfSnoc(front, b);
      assert ToolUseIndices(blocks) == ToolUseIndices(front) + (if b.ToolUseBlock? then [n] else []);
      UsesAtSnoc(front, b, ToolUseIndices(front), ToolUsesOf(front));
    }
  }

  lemma ToolUsesOfSnoc(front: seq<ContentBlock>, b: ContentBlock)
    ensures ToolUsesOf(front + [b]) == ToolUsesOf(front) + (if b.ToolUseBlock? then [b.toolUse] else [])
  {
    ToolUsesOfConcat(front, [b]);
    assert [b][1..] == [];
  }

  lemma UsesAtSnoc(front: seq<ContentBlock>, b: ContentBlock, idx: seq<nat>, uses: seq<ToolUseRequest>)
    requires UsesAt(front, idx, uses)
    ensures UsesAt(front + [b], idx + (if b.ToolUseBlock? then [|front|] else []),
                   uses + (if b.ToolUseBlock? then [b.toolUse] else []))
  {
  }

  /** The tool uses of two runs of blocks are those of the first followed by those of the second. */
  lemma {:induction false} ToolUsesOfConcat(a: seq<ContentBlock>, b: seq<ContentBlock>)
    ensures ToolUsesOf(a + b) == ToolUsesOf(a) + ToolUsesOf(b)
  {
    if a != [] {
      assert (a + b)[1..] == a[1..] + b;
      ToolUsesOfConcat(a[1..], b);
    } else {
      assert a + b == b;
    }
  }

  /** The text blocks' text, concatenated in order (`flatMap(text).map(TextBlock::text).reduce("", +)`). */
  function TextOf(blocks: seq<ContentBlock>): string {
    if blocks == [] then ""
    else match blocks[0]
      case TextBlock(t) => t + TextOf(blocks[1..])
      case _ => TextOf(blocks[1..])
  }

  /** Text concatenation distributes over runs of blocks. */
  lemma {:induction false} TextOfConcat(a: seq<ContentBlock>, b: seq<ContentBlock>)
    ensures TextOf(a + b) == TextOf(a) + TextOf(b)
  {
    if a != [] {
      assert (a + b)[1..] == a[1..] + b;
      TextOfConcat(a[1..], b);
    } else {
      assert a + b == b;
    }
  }

  /** A response without text blocks has empty text. */
  lemma {:induction false} TextOfWithoutText(blocks: seq<ContentBlock>)
    requires forall k :: 0 <= k < |blocks| ==> !blocks[k].TextBlock?
    ensures TextOf(blocks) == ""
  {
    if blocks != [] {
      assert forall k :: 0 <= k < |blocks| - 1 ==> blocks[1..][k] == blocks[k + 1];
      TextOfWithoutText(blocks[1..]);
    }
  }
}
