/**
 * Pulling the generated text out of a model response
 * (`_extract_output_text`, OdysseyMaker_app.py:135-149). A response holds a
 * list of output items; an item of type "message" holds content blocks; a
 * block of type "output_text" holds text. A missing `type` attribute is
 * `None`; a missing `output` or `content` attribute is the empty list.
 */
module Extraction {
  import opened Wrappers

  datatype ContentBlock = ContentBlock(blockType: Option<string>, text: string)

  datatype OutputItem = OutputItem(itemType: Option<string>, content: seq<ContentBlock>)

  datatype Response = Response(output: seq<OutputItem>)

  const NoOutputTextError := "No output_text found in model response."

  predicate IsOutputText(c: ContentBlock)
  {
    c.blockType == Some("output_text")
  }

  predicate IsMessage(item: OutputItem)
  {
    item.itemType == Some("message")
  }

  /** The text of the first "output_text" block, if there is one. */
  function FirstOutputText(blocks: seq<ContentBlock>): (r: Option<string>)
    ensures r.None? <==> forall j :: 0 <= j < |blocks| ==> !IsOutputText(blocks[j])
  {
    if blocks == [] then None
    else if IsOutputText(blocks[0]) then Some(blocks[0].text)
    else
      assert forall j :: 1 <= j < |blocks| ==> blocks[j] == blocks[1..][j - 1];
      FirstOutputText(blocks[1..])
  }

  /** What one item contributes: the first output_text of a message, nothing otherwise. */
  function MessageText(item: OutputItem): Option<string>
  {
    if IsMessage(item) then FirstOutputText(item.content) else None
  }

  /** The text the extraction settles on: that of the last item that contributes one. */
  function SelectedText(items: seq<OutputItem>): Option<string>
  {
    if items == [] then None
    else
      match MessageText(items[|items| - 1])
      case Some(t) => Some(t)
      case None => SelectedText(items[..|items| - 1])
  }

  /**
   * `_extract_output_text`: scans every item and, inside each message,
   * stops at its first output_text block, so a later message overrides an
   * earlier one. Fails when nothing was found or the text found is empty.
   */
  method ExtractOutputText(resp: Response) returns (r: Result<string, string>)
    ensures r.Success? <==> SelectedText(resp.output).Some? && SelectedText(resp.output).value != ""
    ensures r.Success? ==> r.value == SelectedText(resp.output).value
    ensures r.Failure? ==> r.error == NoOutputTextError
  {
    var outText: Option<string> := None;
    for i := 0 to |resp.output|
      invariant outText == SelectedText(resp.output[..i])
    {
      var item := resp.output[i];
      assert resp.output[..i + 1][..i] == resp.output[..i];
      if item.itemType == Some("message") {
        var j := 0;
        while j < |item.content|
          invariant 0 <= j <= |item.content|
          invariant FirstOutputText(item.content) == FirstOutputText(item.content[j..])
          invariant outText == SelectedText(resp.output[..i])
        {
          var c := item.content[j];
          if c.blockType == Some("output_text") {
            outText := Some(c.text);
            break;
          }
          assert item.content[j..][1..] == item.content[j + 1..];
          j := j + 1;
        }
      }
    }
    assert resp.output[..|resp.output|] == resp.output;
    if outText.None? || outText.value == "" {
      r := Failure(NoOutputTextError);
    } else {
      r := Success(outText.value);
    }
  }

  /** Within one list of blocks, the first output_text block is the one taken. */
  lemma {:induction false} FirstOutputTextIsFirst(blocks: seq<ContentBlock>, j: nat)
    requires j < |blocks| && IsOutputText(blocks[j])
    requires forall k :: 0 <= k < j ==> !IsOutputText(blocks[k])
    ensures FirstOutputText(blocks) == Some(blocks[j].text)
  {
    if j > 0 {
      assert forall k :: 0 <= k < j - 1 ==> blocks[1..][k] == blocks[k + 1];
      FirstOutputTextIsFirst(blocks[1..], j - 1);
    }
  }

  /** Nothing is selected exactly when no item contributes a text. */
  lemma {:induction false} NothingSelectedIffNoContributor(items: seq<OutputItem>)
    ensures SelectedText(items).None? <==> forall i :: 0 <= i < |items| ==> MessageText(items[i]).None?
  {
    if items != [] {
      var n := |items| - 1;
      NothingSelectedIffNoContributor(items[..n]);
      assert forall i :: 0 <= i < n ==> items[..n][i] == items[i];
    }
  }

  /** Across items the last contributor wins: an item that contributes a text,
      with no contributing item after it, decides the selection. */
  lemma {:induction false} LastContributorWins(items: seq<OutputItem>, i: nat)
    requires i < |items| && MessageText(items[i]).Some?
    requires forall k :: i < k < |items| ==> MessageText(items[k]).None?
    ensures SelectedText(items) == MessageText(items[i])
  {
    var n := |items| - 1;
    if i < n {
      assert forall k :: i < k < n ==> items[..n][k] == items[k];
      LastContributorWins(items[..n], i);
    }
  }

  /** Items of any type other than "message" never affect the selection. */
  lemma {:induction false} NonMessagesIgnored(items: seq<OutputItem>, others: seq<OutputItem>)
    requires forall k :: 0 <= k < |others| ==> !IsMessage(others[k])
    ensures SelectedText(items + others) == SelectedText(items)
    ensures SelectedText(others + items) == SelectedText(items)
  {
    if others != [] {
      var n := |others| - 1;
      assert (items + others)[..|items| + n] == items + others[..n];
      NonMessagesIgnored(items, others[..n]);
    } else {
      assert items + others == items;
    }
    if items != [] {
      var n := |items| - 1;
      assert (others + items)[..|others| + n] == others + items[..n];
      NonMessagesIgnored(items[..n], others);
    } else {
      assert others + items == others;
      NothingSelectedIffNoContributor(others);
    }
  }

  // ---------------------------------------------------------------------
  // The first output_text block of the whole response
  // ---------------------------------------------------------------------

  /** The content blocks of all message items, in order. */
  function MessageBlocks(items: seq<OutputItem>): seq<ContentBlock>
  {
    if items == [] then []
    else (if IsMessage(items[0]) then items[0].content else []) + MessageBlocks(items[1..])
  }

  /** The text of the first item that contributes one. */
  function FirstSelectedText(items: seq<OutputItem>): Option<string>
  {
    if items == [] then None
    else
      match MessageText(items[0])
      case Some(t) => Some(t)
      case None => FirstSelectedText(items[1..])
  }

  lemma {:induction false} FirstOutputTextAppend(a: seq<ContentBlock>, b: seq<ContentBlock>)
    ensures FirstOutputText(a + b) == if FirstOutputText(a).Some? then FirstOutputText(a) else FirstOutputText(b)
  {
    if a != [] {
      assert (a + b)[1..] == a[1..] + b;
      FirstOutputTextAppend(a[1..], b);
    } else {
      assert a + b == b;
    }
  }

  /** Taking the first contributing item is taking the first output_text
      block of the whole response, in document order. */
  lemma {:induction false} FirstSelectedIsFirstBlock(items: seq<OutputItem>)
    ensures FirstSelectedText(items) == FirstOutputText(MessageBlocks(items))
  {
    if items != [] {
      FirstSelectedIsFirstBlock(items[1..]);
      FirstOutputTextAppend(if IsMessage(items[0]) then items[0].content else [], MessageBlocks(items[1..]));
    }
  }

  /**
   * The extraction the documentation of `_extract_output_text` describes:
   * the first output_text block of the response. Leaving both loops at the
   * first block found makes it so.
   */
  method ExtractFirstOutputText(resp: Response) returns (r: Result<string, string>)
    ensures r.Success? <==>
      FirstOutputText(MessageBlocks(resp.output)).Some? && FirstOutputText(MessageBlocks(resp.output)).value != ""
    ensures r.Success? ==> FirstOutputText(MessageBlocks(resp.output)) == Some(r.value)
    ensures r.Failure? ==> r.error == NoOutputTextError
  {
    var outText: Option<string> := None;
    var i := 0;
    while i < |resp.output| && outText.None?
      invariant 0 <= i <= |resp.output|
      invariant FirstSelectedText(resp.output) ==
        if outText.Some? then outText else FirstSelectedText(resp.output[i..])
    {
      var item := resp.output[i];
      assert resp.output[i..][1..] == resp.output[i + 1..];
      if item.itemType == Some("message") {
        var j := 0;
        while j < |item.content|
          invariant 0 <= j <= |item.content|
          invariant FirstOutputText(item.content) == FirstOutputText(item.content[j..])
          invariant outText.None?
        {
          var c := item.content[j];
          if c.blockType == Some("output_text") {
            outText := Some(c.text);
            break;
          }
          assert item.content[j..][1..] == item.content[j + 1..];
          j := j + 1;
        }
      }
      i := i + 1;
    }
    FirstSelectedIsFirstBlock(resp.output);
    if outText.None? || outText.value == "" {
      r := Failure(NoOutputTextError);
    } else {
      r := Success(outText.value);
    }
  }

  /** Two messages, each with one output_text block. */
  const TwoMessages: seq<OutputItem> := [
    OutputItem(Some("message"), [ContentBlock(Some("output_text"), "first")]),
    OutputItem(Some("message"), [ContentBlock(Some("output_text"), "second")])]

  /** As written, the extraction returns the second message's text where the
      first output_text block of the response is the first message's. */
  lemma LastMessageOverridesFirst()
    ensures SelectedText(TwoMessages) == Some("second")
    ensures FirstOutputText(MessageBlocks(TwoMessages)) == Some("first")
  {
    assert TwoMessages[..1] == [TwoMessages[0]];
    assert MessageText(TwoMessages[1]) == Some("second");
    FirstSelectedIsFirstBlock(TwoMessages);
    assert TwoMessages[1..] == [TwoMessages[1]];
    assert FirstSelectedText(TwoMessages) == Some("first");
  }
}
