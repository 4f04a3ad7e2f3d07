/** What a conversation weighs: its texts by their bytes, and its images. */
module Weights {
  import opened Basics
  import opened Messages
  import Utf8

  const IMAGE_WEIGHT := 1200

  // ---------------------------------------------------------------- what is in a message

  function BlockTexts(block: ContentBlock): seq<string>
  {
    match block
    case Text(text) => [text]
    case Thinking(thinking) => [thinking]
    case ToolCall(_, name, arguments) => [name, arguments]
    case Image(_) => []
  }

  /** Every text of a content: of a call its name and its arguments. */
  function TextsIn(content: seq<ContentBlock>): seq<string>
  {
    if content == [] then [] else TextsIn(content[..|content| - 1]) + BlockTexts(content[|content| - 1])
  }

  function ImagesIn(content: seq<ContentBlock>): nat
  {
    if content == [] then 0 else
      ImagesIn(content[..|content| - 1]) + if content[|content| - 1].Image? then 1 else 0
  }

  /** The content of a message that has one. */
  function ContentOf(m: Message): seq<ContentBlock>
  {
    match m
    case FromAssistant(_, a) => a.content
    case ToolResult(_, _, _, _, content) => content
    case Custom(_, content) => content
    case _ => []
  }

  /** Every text of a message. A bash execution that is kept out of the context has none. */
  function TextsOf(m: Message): seq<string>
  {
    match m
    case UserText(_, text) => [text]
    case SystemPrompt(_, text) => [text]
    case CompactionSummary(_, summary, _) => [summary]
    case BranchSummary(_, summary, _) => [summary]
    case BashExecution(_, command, output, excluded) => if excluded then [] else [command, output]
    case _ => TextsIn(ContentOf(m))
  }

  // ---------------------------------------------------------------- weights

  /** The least number of fours that makes up `n`. */
  function Fours(n: nat): (t: nat)
    ensures 4 * t >= n && forall s: nat :: 4 * s >= n ==> s >= t
  {
    (n + 3) / 4
  }

  /** The length of a text in bytes, as 32 bits hold it. */
  function Length(text: string): nat { Utf8.Bytes(text) % 0x1_0000_0000 }

  function Weight(texts: seq<string>, images: nat): nat
  {
    if texts == [] then images * IMAGE_WEIGHT
    else Weight(texts[..|texts| - 1], images) + Fours(Length(texts[|texts| - 1]))
  }

  function WeightOf(m: Message): nat { Weight(TextsOf(m), ImagesIn(ContentOf(m))) }

  function TotalWeight(messages: seq<Message>): nat
  {
    if messages == [] then 0 else TotalWeight(messages[..|messages| - 1]) + WeightOf(messages[|messages| - 1])
  }

  /** A weight that stops at what 32 bits hold. */
  function Capped(n: nat): u32 { if n > U32_MAX then U32_MAX else n }

  lemma CappedSum(a: nat, b: nat)
    ensures SaturatingAdd(Capped(a), Capped(b)) == Capped(a + b)
  {
  }

  lemma {:induction false} WeightAdds(texts: seq<string>, more: seq<string>, images: nat, others: nat)
    ensures Weight(texts + more, images + others) == Weight(texts, images) + Weight(more, others)
    decreases |more|
  {
    if more == [] {
      assert texts + more == texts;
      ImagesAdd(texts, images, others);
    } else {
      var n := |more| - 1;
      assert (texts + more)[..|texts| + n] == texts + more[..n];
      WeightAdds(texts, more[..n], images, others);
    }
  }

  lemma {:induction false} ImagesAdd(texts: seq<string>, images: nat, others: nat)
    ensures Weight(texts, images + others) == Weight(texts, images) + others * IMAGE_WEIGHT
  {
    if texts != [] { ImagesAdd(texts[..|texts| - 1], images, others); }
  }

  lemma WeightOne(text: string)
    ensures Weight([text], 0) == Fours(Length(text))
  {
    assert [text][..0] == [];
  }

  lemma WeightTwo(text: string, other: string)
    ensures Weight([text, other], 0) == Fours(Length(text)) + Fours(Length(other))
  {
    assert [text, other][..1] == [text];
    WeightOne(text);
  }
}
