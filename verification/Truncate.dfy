/** Cutting tool output down to a number of lines and bytes, from the end or from the start. */
module Truncate {
  import opened Basics
  import opened Utf8

  datatype Limit = Limit(maxLines: nat, maxBytes: nat)

  datatype Cause = ByLines | ByBytes

  datatype Truncation = Truncation(
    content: string,
    cause: Option<Cause>,
    totalLines: nat,
    totalBytes: nat,
    outputLines: nat,
    outputBytes: nat,
    lastLinePartial: bool,
    firstLineExceeds: bool)

  // ---------------------------------------------------------------- lines

  function Split(content: string): (r: seq<string>)
    ensures r != []
  {
    if content == "" then [""]
    else
      var rest := Split(content[1..]);
      if content[0] == '\n' then [""] + rest else [[content[0]] + rest[0]] + rest[1..]
  }

  function Join(lines: seq<string>): string
  {
    if lines == [] then ""
    else if |lines| == 1 then lines[0]
    else Join(lines[..|lines| - 1]) + "\n" + lines[|lines| - 1]
  }

  lemma {:induction false} JoinConcat(a: seq<string>, b: seq<string>)
    requires a != [] && b != []
    ensures Join(a + b) == Join(a) + "\n" + Join(b)
  {
    var n := |b| - 1;
    assert (a + b)[..|a| + n] == a + b[..n];
    if n == 0 {
      assert a + b[..n] == a;
    } else {
      JoinConcat(a, b[..n]);
    }
  }

  lemma JoinFirst(head: string, rest: seq<string>)
    ensures Join([head] + rest) == if rest == [] then head else head + "\n" + Join(rest)
  {
    if rest == [] {
      assert [head] + rest == [head];
    } else {
      JoinConcat([head], rest);
    }
  }

  /** Joining the lines of a text gives the text back. */
  lemma {:induction false} JoinSplit(content: string)
    ensures Join(Split(content)) == content
  {
    if content != "" {
      var rest := Split(content[1..]);
      JoinSplit(content[1..]);
      assert rest == [rest[0]] + rest[1..];
      JoinFirst(rest[0], rest[1..]);
      if content[0] == '\n' {
        JoinFirst("", rest);
      } else {
        JoinFirst([content[0]] + rest[0], rest[1..]);
      }
    }
  }

  /** No line holds a line break: the split is the finest. */
  lemma {:induction false} SplitLines(content: string, i: nat)
    requires i < |Split(content)|
    ensures '\n' !in Split(content)[i]
  {
    if content != "" {
      var rest := Split(content[1..]);
      if content[0] == '\n' {
        if i > 0 { SplitLines(content[1..], i - 1); }
      } else {
        SplitLines(content[1..], i);
      }
    }
  }

  lemma BreakByte()
    ensures Bytes("\n") == 1
  {
    assert "\n"[1..] == "";
  }

  /** One line more at the end. */
  lemma JoinNext(lines: seq<string>, k: nat)
    requires k < |lines|
    ensures Join(lines[..k + 1]) == if k == 0 then lines[k] else Join(lines[..k]) + "\n" + lines[k]
    ensures Bytes(Join(lines[..k + 1])) == Bytes(Join(lines[..k])) + Bytes(lines[k]) + if k == 0 then 0 else 1
  {
    assert lines[..k + 1][..k] == lines[..k];
    if k > 0 {
      BytesConcat(Join(lines[..k]) + "\n", lines[k]);
      BytesConcat(Join(lines[..k]), "\n");
      BreakByte();
    }
  }

  /** One line more at the start. */
  lemma JoinBefore(lines: seq<string>, k: nat)
    requires k < |lines|
    ensures Join(lines[k..]) == if k + 1 == |lines| then lines[k] else lines[k] + "\n" + Join(lines[k + 1..])
    ensures Bytes(Join(lines[k..])) == Bytes(Join(lines[k + 1..])) + Bytes(lines[k]) + if k + 1 == |lines| then 0 else 1
  {
    assert lines[k..] == [lines[k]] + lines[k + 1..];
    JoinFirst(lines[k], lines[k + 1..]);
    if k + 1 < |lines| {
      BytesConcat(lines[k] + "\n", Join(lines[k + 1..]));
      BytesConcat(lines[k], "\n");
      BreakByte();
    }
  }

  lemma {:induction false} PrefixGrows(lines: seq<string>, j: nat, k: nat)
    requires j <= k <= |lines|
    ensures Join(lines[..j]) <= Join(lines[..k]) && Bytes(Join(lines[..j])) <= Bytes(Join(lines[..k]))
  {
    if j < k {
      PrefixGrows(lines, j, k - 1);
      JoinNext(lines, k - 1);
    }
  }

  ghost predicate EndsWith(s: string, tail: string) { |tail| <= |s| && s[|s| - |tail|..] == tail }

  lemma EndsConcat(front: string, tail: string)
    ensures EndsWith(front + tail, tail)
  {
  }

  lemma EndsThrough(s: string, middle: string, tail: string)
    requires EndsWith(s, middle) && EndsWith(middle, tail)
    ensures EndsWith(s, tail)
  {
    var from := |middle| - |tail|;
    assert s[|s| - |tail|..] == s[|s| - |middle|..][from..];
  }

  lemma EndsBefore(lines: seq<string>, k: nat)
    requires k < |lines|
    ensures EndsWith(Join(lines[k..]), Join(lines[k + 1..]))
  {
    JoinBefore(lines, k);
    if k + 1 < |lines| { EndsConcat(lines[k] + "\n", Join(lines[k + 1..])); }
  }

  lemma {:induction false} SuffixGrows(lines: seq<string>, j: nat, k: nat)
    requires j <= k <= |lines|
    ensures EndsWith(Join(lines[j..]), Join(lines[k..])) && Bytes(Join(lines[k..])) <= Bytes(Join(lines[j..]))
    decreases k - j
  {
    if j < k {
      SuffixGrows(lines, j + 1, k);
      JoinBefore(lines, j);
      EndsBefore(lines, j);
      EndsThrough(Join(lines[j..]), Join(lines[j + 1..]), Join(lines[k..]));
    }
  }

  // ---------------------------------------------------------------- keeping the start

  /** `k` lines and their bytes are within the limit. */
  ghost predicate Within(limit: Limit, k: nat, text: string) { k <= limit.maxLines && Bytes(text) <= limit.maxBytes }

  /** `r` holds the longest run of whole lines from the start that is within the limit. */
  ghost predicate LongestHead(content: string, limit: Limit, r: Truncation)
  {
    var lines := Split(content);
    && r.outputLines <= |lines| && r.content == Join(lines[..r.outputLines])
    && Within(limit, r.outputLines, r.content)
    && forall j :: r.outputLines < j <= |lines| ==> !Within(limit, j, Join(lines[..j]))
  }

  ghost predicate Measured(content: string, lines: nat, r: Truncation)
  {
    r.totalLines == lines && r.totalBytes == Bytes(content) && r.outputBytes == Bytes(r.content)
  }

  /** If one line more is too much, so is any number more. */
  lemma HeadIsLongest(lines: seq<string>, limit: Limit, k: nat)
    requires k < |lines| && !Within(limit, k + 1, Join(lines[..k + 1]))
    ensures forall j :: k < j <= |lines| ==> !Within(limit, j, Join(lines[..j]))
  {
    forall j | k < j <= |lines| ensures !Within(limit, j, Join(lines[..j])) {
      PrefixGrows(lines, k + 1, j);
    }
  }

  method TruncateHead(content: string, limit: Limit) returns (r: Truncation)
    ensures LongestHead(content, limit, r) && Measured(content, |Split(content)|, r)
    ensures r.content <= content
    ensures r.cause.Some? <==> r.outputLines < |Split(content)|
    ensures r.firstLineExceeds <==> Bytes(Split(content)[0]) > limit.maxBytes
    ensures r.cause.Some? ==> (r.cause.value.ByBytes? <==> r.outputLines < limit.maxLines || r.firstLineExceeds)
    ensures !r.lastLinePartial
  {
    var lines := Split(content);
    var totalBytes := Bytes(content);
    JoinSplit(content);
    assert lines[..|lines|] == lines;
    PrefixGrows(lines, 1, |lines|);
    JoinNext(lines, 0);
    if |lines| <= limit.maxLines && totalBytes <= limit.maxBytes {
      return Truncation(content, None, |lines|, totalBytes, |lines|, totalBytes, false, false);
    }
    if Bytes(lines[0]) > limit.maxBytes {
      HeadIsLongest(lines, limit, 0);
      return Truncation("", Some(ByBytes), |lines|, totalBytes, 0, 0, false, true);
    }
    var output, cause := TakeHead(lines, limit);
    PrefixGrows(lines, |output|, |lines|);
    var joined := Join(output);
    r := Truncation(joined, Some(cause), |lines|, totalBytes, |output|, Bytes(joined), false, false);
  }

  /** The loop over the lines from the start. */
  method TakeHead(lines: seq<string>, limit: Limit) returns (output: seq<string>, cause: Cause)
    requires lines != [] && !Within(limit, |lines|, Join(lines))
    ensures |output| < |lines| && output == lines[..|output|] && Within(limit, |output|, Join(output))
    ensures forall j :: |output| < j <= |lines| ==> !Within(limit, j, Join(lines[..j]))
    ensures cause.ByBytes? <==> |output| < limit.maxLines
  {
    output, cause := [], ByLines;
    var bytes := 0;
    assert lines[..|lines|] == lines;
    for i := 0 to |lines|
      invariant output == lines[..i] && bytes == Bytes(Join(output)) && Within(limit, i, Join(output))
    {
      JoinNext(lines, i);
      if i >= limit.maxLines {
        HeadIsLongest(lines, limit, i);
        return output, ByLines;
      }
      var lineBytes := Bytes(lines[i]) + if output == [] then 0 else 1;
      if bytes + lineBytes > limit.maxBytes {
        HeadIsLongest(lines, limit, i);
        return output, ByBytes;
      }
      output := output + [lines[i]];
      bytes := bytes + lineBytes;
    }
  }

  // ---------------------------------------------------------------- keeping the end

  /** The lines of a text without the empty one behind its last line break. */
  function TailLines(content: string): (r: seq<string>)
    ensures r != []
  {
    var lines := Split(content);
    if |lines| > 1 && lines[|lines| - 1] == "" then lines[..|lines| - 1] else lines
  }

  lemma TailLinesAre(content: string)
    ensures content == Join(TailLines(content)) || content == Join(TailLines(content)) + "\n"
    ensures Bytes(Join(TailLines(content))) <= Bytes(content)
  {
    JoinSplit(content);
    var lines := Split(content);
    if TailLines(content) != lines {
      assert lines == TailLines(content) + [""];
      BytesConcat(Join(TailLines(content)), "\n");
    }
  }

  ghost predicate TooLong(text: string, from: nat, maxBytes: nat)
    requires from <= |text|
  {
    Bytes(text[from..]) > maxBytes
  }

  /** The lines from `from` on are not within the limit. */
  ghost predicate TooMuch(lines: seq<string>, from: nat, limit: Limit)
    requires from <= |lines|
  {
    !Within(limit, |lines| - from, Join(lines[from..]))
  }

  /** `tail` is the longest run of characters from the end of `text` within `maxBytes`. */
  ghost predicate LongestCharacters(text: string, maxBytes: nat, tail: string)
  {
    && EndsWith(text, tail) && Bytes(tail) <= maxBytes
    && forall j :: 0 <= j < |text| - |tail| ==> TooLong(text, j, maxBytes)
  }

  lemma CharacterBefore(text: string, k: nat)
    requires k < |text|
    ensures Bytes(text[k..]) == Width(text[k]) + Bytes(text[k + 1..])
  {
    assert text[k..][1..] == text[k + 1..];
  }

  lemma {:induction false} CharactersGrow(text: string, j: nat, k: nat)
    requires j <= k <= |text|
    ensures Bytes(text[k..]) <= Bytes(text[j..])
    decreases k - j
  {
    if j < k {
      CharacterBefore(text, j);
      CharactersGrow(text, j + 1, k);
    }
  }

  method TruncateFromEnd(text: string, maxBytes: nat) returns (tail: string)
    ensures LongestCharacters(text, maxBytes, tail)
  {
    var bytes := 0;
    var k := |text|;
    while k > 0
      invariant 0 <= k <= |text| && bytes == Bytes(text[k..]) <= maxBytes
    {
      CharacterBefore(text, k - 1);
      if bytes + Width(text[k - 1]) > maxBytes {
        forall j | 0 <= j < k ensures TooLong(text, j, maxBytes) { CharactersGrow(text, j, k - 1); }
        break;
      }
      bytes := bytes + Width(text[k - 1]);
      k := k - 1;
    }
    tail := text[k..];
  }

  /** `text` is the longest run of whole lines from the end that is within the limit, `k` of them. */
  ghost predicate LongestTail(lines: seq<string>, limit: Limit, k: nat, text: string)
  {
    && k <= |lines| && text == Join(lines[|lines| - k..])
    && Within(limit, k, text)
    && forall i :: 0 <= i < |lines| - k ==> TooMuch(lines, i, limit)
  }

  lemma TailIsLongest(lines: seq<string>, limit: Limit, k: nat)
    requires k < |lines| && !Within(limit, |lines| - k, Join(lines[k..]))
    ensures forall i :: 0 <= i <= k ==> TooMuch(lines, i, limit)
  {
    forall i | 0 <= i <= k ensures TooMuch(lines, i, limit) {
      SuffixGrows(lines, i, k);
    }
  }

  lemma IsEnd(lines: seq<string>, k: nat)
    requires k <= |lines|
    ensures EndsWith(Join(lines), Join(lines[k..])) && Bytes(Join(lines[k..])) <= Bytes(Join(lines))
  {
    SuffixGrows(lines, 0, k);
    assert lines[0..] == lines;
  }

  lemma PartIsEnd(lines: seq<string>, text: string)
    requires lines != [] && EndsWith(lines[|lines| - 1], text)
    ensures EndsWith(Join(lines), text)
  {
    var line := lines[|lines| - 1];
    IsEnd(lines, |lines| - 1);
    assert lines[|lines| - 1..] == [line];
    JoinOne(line);
    EndsThrough(Join(lines), line, text);
  }

  lemma JoinOne(line: string)
    ensures Join([line]) == line
  {
  }

  lemma TailIsEnd(lines: seq<string>, limit: Limit, output: seq<string>, partial: bool)
    requires lines != []
    requires if partial then |output| == 1 && LongestCharacters(lines[|lines| - 1], limit.maxBytes, output[0])
             else LongestTail(lines, limit, |output|, Join(output))
    ensures EndsWith(Join(lines), Join(output))
  {
    if partial {
      assert output == [output[0]];
      PartIsEnd(lines, output[0]);
    } else {
      IsEnd(lines, |lines| - |output|);
    }
  }

  lemma LastFits(content: string)
    ensures Bytes(TailLines(content)[|TailLines(content)| - 1]) <= Bytes(content)
  {
    var lines := TailLines(content);
    TailLinesAre(content);
    IsEnd(lines, |lines| - 1);
    assert lines[|lines| - 1..] == [lines[|lines| - 1]];
  }

  /** The loop over the lines from the end. */
  method TakeTail(lines: seq<string>, limit: Limit) returns (output: seq<string>, cause: Cause, partial: bool)
    requires lines != []
    ensures partial <==> limit.maxLines > 0 && Bytes(lines[|lines| - 1]) > limit.maxBytes
    ensures partial ==>
            && |output| == 1 && cause.ByBytes?
            && LongestCharacters(lines[|lines| - 1], limit.maxBytes, output[0])
    ensures !partial ==> LongestTail(lines, limit, |output|, Join(output))
    ensures Within(limit, |output|, Join(output))
    ensures !partial ==> (cause.ByBytes? <==> |output| < |lines| && |output| < limit.maxLines)
  {
    output, cause, partial := [], ByLines, false;
    var bytes := 0;
    var n := |lines|;
    for k := n downto 0
      invariant output == lines[k..] && bytes == Bytes(Join(lines[k..]))
      invariant n - k <= limit.maxLines && bytes <= limit.maxBytes
      invariant cause.ByLines? && !partial
      invariant k < n ==> Bytes(lines[n - 1]) <= limit.maxBytes
    {
      JoinBefore(lines, k);
      if |output| >= limit.maxLines {
        TailIsLongest(lines, limit, k);
        return output, ByLines, false;
      }
      var lineBytes := Bytes(lines[k]) + if output == [] then 0 else 1;
      if bytes + lineBytes > limit.maxBytes {
        if output == [] {
          var tail := TruncateFromEnd(lines[k], limit.maxBytes);
          return [tail], ByBytes, true;
        }
        TailIsLongest(lines, limit, k);
        return output, ByBytes, false;
      }
      output := [lines[k]] + output;
      bytes := bytes + lineBytes;
    }
  }

  method TruncateTail(content: string, limit: Limit) returns (r: Truncation)
    ensures Measured(content, |TailLines(content)|, r)
    ensures r.cause.None? <==> |TailLines(content)| <= limit.maxLines && Bytes(content) <= limit.maxBytes
    ensures r.cause.None? ==> r.content == content && r.outputLines == r.totalLines
    ensures Within(limit, r.outputLines, r.content)
    ensures r.lastLinePartial <==>
            limit.maxLines > 0 && Bytes(TailLines(content)[|TailLines(content)| - 1]) > limit.maxBytes
    ensures r.lastLinePartial ==> r.outputLines == 1 &&
                                  LongestCharacters(TailLines(content)[|TailLines(content)| - 1], limit.maxBytes,
                                                    r.content)
    ensures r.cause.Some? && !r.lastLinePartial ==>
            LongestTail(TailLines(content), limit, r.outputLines, r.content)
    ensures r.cause.Some? ==> EndsWith(Join(TailLines(content)), r.content)
    ensures r.lastLinePartial ==> r.cause == Some(ByBytes)
    ensures r.cause.Some? && !r.lastLinePartial ==>
            (r.cause == Some(ByBytes) <==> r.outputLines < r.totalLines && r.outputLines < limit.maxLines)
    ensures !r.firstLineExceeds
  {
    var lines := TailLines(content);
    var totalBytes := Bytes(content);
    var n := |lines|;
    if n <= limit.maxLines && totalBytes <= limit.maxBytes {
      LastFits(content);
      return Truncation(content, None, n, totalBytes, n, totalBytes, false, false);
    }
    var output, cause, partial := TakeTail(lines, limit);
    var joined := Join(output);
    TailIsEnd(lines, limit, output, partial);
    r := Truncation(joined, Some(cause), n, totalBytes, |output|, Bytes(joined), partial, false);
  }
}
