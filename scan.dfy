/** The two helpers `main` uses on every model response: the gate
    `processMessages` and the content scan `handleMessageContent`. */
module Scan {
  import opened Types

  /** Result of `processMessages`: the (copied) history and whether the
      loop should go on to dispatch a tool. */
  datatype Gate = Gate(updatedMessages: seq<Message>, proceed: bool)

  /** `processMessages`: the history comes back element-wise equal, and the
      loop proceeds exactly when a tool-use block is pending. */
  function ProcessMessages(messages: seq<Message>, pending: Option<ToolUseBlock>): (g: Gate)
    ensures g.updatedMessages == messages
    ensures g.proceed <==> pending.Some?
  {
    if pending.None? then Gate(messages, false) else Gate(messages, true)
  }

  /** The messages one content block contributes to the history. */
  function BlockMessages(b: ContentBlock): seq<Message>
  {
    match b
    case Text(t) => [Message(Assistant, t)]
    case ToolUse(_) => []
  }

  /** The assistant messages a response contributes, in block order. */
  function TextMessages(content: seq<ContentBlock>): seq<Message>
  {
    if content == [] then []
    else TextMessages(content[..|content| - 1]) + BlockMessages(content[|content| - 1])
  }

  /** The tool-use block that is pending after scanning `content`: the last
      one, if there is any. */
  function LastToolUse(content: seq<ContentBlock>): Option<ToolUseBlock>
  {
    if content == [] then None
    else if content[|content| - 1].ToolUse? then Some(content[|content| - 1].block)
    else LastToolUse(content[..|content| - 1])
  }

  /** `handleMessageContent`: scans the blocks in order, appending one
      assistant message per text block to a copy of `messages` and keeping
      the last tool-use block seen. */
  method HandleMessageContent(content: seq<ContentBlock>, messages: seq<Message>)
    returns (toolUse: Option<ToolUseBlock>, updated: seq<Message>)
    ensures updated == messages + TextMessages(content)
    ensures toolUse == LastToolUse(content)
  {
    toolUse := None;
    updated := messages;
    for i := 0 to |content|
      invariant updated == messages + TextMessages(content[..i])
      invariant toolUse == LastToolUse(content[..i])
    {
      assert content[..i + 1][..i] == content[..i];
      match content[i]
      case Text(t) =>
        updated := updated + [Message(Assistant, t)];
      case ToolUse(b) =>
        toolUse := Some(b);
    }
    assert content[..|content|] == content;
  }

  /** Scanning two pieces of a response one after the other appends the
      messages of the first piece, then those of the second. */
  lemma {:induction false} TextMessagesAppend(a: seq<ContentBlock>, b: seq<ContentBlock>)
    ensures TextMessages(a + b) == TextMessages(a) + TextMessages(b)
    decreases |b|
  {
    if b == [] {
      assert a + b == a;
    } else {
      var b' := b[..|b| - 1];
      assert (a + b)[..|a + b| - 1] == a + b';
      assert (a + b)[|a + b| - 1] == b[|b| - 1];
      TextMessagesAppend(a, b');
    }
  }

  /** A tool-use block contributes no message, wherever it stands. */
  lemma ToolUseAppendsNothing(a: seq<ContentBlock>, t: ToolUseBlock, d: seq<ContentBlock>)
    ensures TextMessages(a + [ToolUse(t)] + d) == TextMessages(a + d)
  {
    TextMessagesAppend(a + [ToolUse(t)], d);
    TextMessagesAppend(a, [ToolUse(t)]);
    TextMessagesAppend(a, d);
    assert [ToolUse(t)][..0] == [];
  }

  /** A response made only of text blocks yields exactly one assistant
      message per block, carrying that block's text, in block order. */
  lemma {:induction false} TextMessagesOfTexts(content: seq<ContentBlock>)
    requires forall i :: 0 <= i < |content| ==> content[i].Text?
    ensures |TextMessages(content)| == |content|
    ensures forall i :: 0 <= i < |content| ==> TextMessages(content)[i] == Message(Assistant, content[i].text)
    decreases |content|
  {
    if content != [] {
      var front := content[..|content| - 1];
      TextMessagesOfTexts(front);
    }
  }

  /** No tool-use block is pending exactly when the response has none. */
  lemma {:induction false} LastToolUseNone(content: seq<ContentBlock>)
    ensures LastToolUse(content).None? <==> forall i :: 0 <= i < |content| ==> !content[i].ToolUse?
    decreases |content|
  {
    if content != [] {
      var front := content[..|content| - 1];
      LastToolUseNone(front);
      assert forall i :: 0 <= i < |front| ==> front[i] == content[i];
    }
  }

  /** The pending block is a tool-use block of the response after which no
      other tool-use block follows, and any such block is the pending one. */
  lemma {:induction false} LastToolUseIsLast(content: seq<ContentBlock>)
    ensures LastToolUse(content).Some? ==>
              exists i :: 0 <= i < |content| && content[i] == ToolUse(LastToolUse(content).value) &&
                          forall j :: i < j < |content| ==> !content[j].ToolUse?
    ensures forall i :: 0 <= i < |content| && content[i].ToolUse? &&
                        (forall j :: i < j < |content| ==> !content[j].ToolUse?) ==>
                          LastToolUse(content) == Some(content[i].block)
    decreases |content|
  {
    if content != [] {
      var n := |content| - 1;
      var front := content[..n];
      LastToolUseIsLast(front);
      assert forall i :: 0 <= i < |front| ==> front[i] == content[i];
      if !content[n].ToolUse? && LastToolUse(front).Some? {
        var i :| 0 <= i < |front| && front[i] == ToolUse(LastToolUse(front).value) &&
                 forall j :: i < j < |front| ==> !front[j].ToolUse?;
        assert content[i] == ToolUse(LastToolUse(content).value);
      }
    }
  }
}
