/** Completing JSON text that was cut off: the open string and the open brackets are closed. */
module JsonRepair {

  /** Where a scan stands: the closers still owed (the innermost last), and whether it is inside a string and right
      behind a backslash in it. */
  datatype Scan = Scan(owed: seq<char>, inString: bool, escaped: bool)

  const START := Scan([], false, false)

  function Next(s: Scan, c: char): Scan
  {
    if s.escaped then s.(escaped := false)
    else if c == '\\' && s.inString then s.(escaped := true)
    else if c == '"' then s.(inString := !s.inString)
    else if s.inString then s
    else if c == '{' then s.(owed := s.owed + ['}'])
    else if c == '[' then s.(owed := s.owed + [']'])
    else if (c == '}' || c == ']') && s.owed != [] then s.(owed := s.owed[..|s.owed| - 1])
    else s
  }

  /** The scan of a text, going on from `s`. */
  function ScanFrom(s: Scan, text: string): Scan
  {
    if text == "" then s else Next(ScanFrom(s, text[..|text| - 1]), text[|text| - 1])
  }

  /** Outside of strings, with nothing owed. */
  predicate Closed(s: Scan) { s.owed == [] && !s.inString && !s.escaped }

  function Reversed(s: string): string
  {
    if s == "" then "" else [s[|s| - 1]] + Reversed(s[..|s| - 1])
  }

  /** What is appended to a text whose scan ends at `s`. */
  function Closers(s: Scan): string
  {
    (if s.inString then "\"" else "") + Reversed(s.owed)
  }

  /** The scan, with the stack and the two flags as the loop keeps them. */
  method ScanText(text: string) returns (stack: seq<char>, inString: bool, escaped: bool)
    ensures Scan(stack, inString, escaped) == ScanFrom(START, text)
  {
    stack, inString, escaped := [], false, false;
    for i := 0 to |text|
      invariant Scan(stack, inString, escaped) == ScanFrom(START, text[..i])
    {
      assert text[..i + 1][..i] == text[..i];
      var c := text[i];
      if escaped {
        escaped := false;
        continue;
      }
      if c == '\\' && inString {
        escaped := true;
        continue;
      }
      match c {
        case '"' => inString := !inString;
        case '{' => if !inString { stack := stack + ['}']; }
        case '[' => if !inString { stack := stack + [']']; }
        case '}' => if !inString && stack != [] { stack := stack[..|stack| - 1]; }
        case ']' => if !inString && stack != [] { stack := stack[..|stack| - 1]; }
        case _ =>
      }
    }
    assert text[..|text|] == text;
  }

  /** Pops the stack onto the text. */
  method PopAll(text: string, open: seq<char>) returns (out: string)
    ensures out == text + Reversed(open)
  {
    out := text;
    var stack := open;
    while stack != []
      invariant out + Reversed(stack) == text + Reversed(open)
      decreases |stack|
    {
      out := out + [stack[|stack| - 1]];
      stack := stack[..|stack| - 1];
    }
    assert out + "" == out;
  }

  // ---------------------------------------------------------------- what completion achieves

  function Completed(text: string): string { text + Closers(ScanFrom(START, text)) }

  lemma {:induction false} ScanConcat(s: Scan, a: string, b: string)
    ensures ScanFrom(s, a + b) == ScanFrom(ScanFrom(s, a), b)
  {
    if b == "" {
      assert a + b == a;
    } else {
      var n := |b| - 1;
      assert (a + b)[..|a| + n] == a + b[..n];
      ScanConcat(s, a, b[..n]);
    }
  }

  /** Only closers are owed. */
  predicate OwesClosers(s: Scan) { forall i :: 0 <= i < |s.owed| ==> s.owed[i] == '}' || s.owed[i] == ']' }

  lemma {:induction false} ScanOwesClosers(s: Scan, text: string)
    requires OwesClosers(s) && (s.escaped ==> s.inString)
    ensures OwesClosers(ScanFrom(s, text)) && (ScanFrom(s, text).escaped ==> ScanFrom(s, text).inString)
  {
    if text != "" { ScanOwesClosers(s, text[..|text| - 1]); }
  }

  lemma OneCharacter(s: Scan, c: char)
    ensures ScanFrom(s, [c]) == Next(s, c)
  {
    assert [c][..0] == "";
  }

  /** Outside of strings the owed closers, innermost first, settle everything. */
  lemma {:induction false} ClosersClose(s: Scan)
    requires OwesClosers(s) && !s.inString && !s.escaped
    ensures Closed(ScanFrom(s, Reversed(s.owed)))
    decreases |s.owed|
  {
    if s.owed != [] {
      var n := |s.owed| - 1;
      var last := s.owed[n];
      var rest := s.(owed := s.owed[..n]);
      ClosersClose(rest);
      OneCharacter(s, last);
      ScanConcat(s, [last], Reversed(s.owed[..n]));
    }
  }

  /** Inside a string closers are just characters. */
  lemma {:induction false} ClosersInString(s: Scan, closers: string)
    requires s.inString && !s.escaped && forall i :: 0 <= i < |closers| ==> closers[i] == '}' || closers[i] == ']'
    ensures ScanFrom(s, closers) == s
  {
    if closers != "" { ClosersInString(s, closers[..|closers| - 1]); }
  }

  lemma {:induction false} ReversedClosers(owed: string)
    requires forall i :: 0 <= i < |owed| ==> owed[i] == '}' || owed[i] == ']'
    ensures forall i :: 0 <= i < |Reversed(owed)| ==> Reversed(owed)[i] == '}' || Reversed(owed)[i] == ']'
    ensures |Reversed(owed)| == |owed|
  {
    if owed != "" { ReversedClosers(owed[..|owed| - 1]); }
  }

  /** Where the scan of a completed text ends. */
  lemma CompletedScan(text: string)
    ensures var s := ScanFrom(START, text);
            if s.escaped then ScanFrom(START, Completed(text)) == s.(escaped := false) && s.inString
            else Closed(ScanFrom(START, Completed(text)))
  {
    var s := ScanFrom(START, text);
    ScanOwesClosers(START, text);
    ScanConcat(START, text, Closers(s));
    ReversedClosers(s.owed);
    if s.inString {
      ScanConcat(s, "\"", Reversed(s.owed));
      OneCharacter(s, '"');
      if s.escaped {
        ClosersInString(s.(escaped := false), Reversed(s.owed));
      } else {
        ClosersClose(s.(inString := false));
      }
    } else {
      assert Closers(s) == Reversed(s.owed);
      ClosersClose(s);
    }
  }

  /** Completion closes the text, and completing again changes nothing, exactly unless the text breaks off right
      behind a backslash in a string. */
  lemma ClosesExactly(text: string)
    ensures Closed(ScanFrom(START, Completed(text))) <==> !ScanFrom(START, text).escaped
    ensures Completed(Completed(text)) == Completed(text) <==> !ScanFrom(START, text).escaped
  {
    CompletedScan(text);
  }

  /** A text that breaks off behind a backslash: the quote that should close the string is taken for an escaped one. */
  lemma BackslashSwallowsQuote()
    ensures Completed("\"\\") == "\"\\\"" && !Closed(ScanFrom(START, Completed("\"\\")))
  {
    OneCharacter(START, '"');
    ScanConcat(START, "\"", "\\");
    OneCharacter(Next(START, '"'), '\\');
    assert "\"" + "\\" == "\"\\";
    CompletedScan("\"\\");
  }

  // ---------------------------------------------------------------- nothing shorter would do

  function Debt(s: Scan): nat { |s.owed| + if s.inString then 1 else 0 }

  /** A character settles at most one thing. */
  lemma {:induction false} DebtFallsSlowly(s: Scan, text: string)
    ensures Debt(ScanFrom(s, text)) + |text| >= Debt(s)
  {
    if text != "" { DebtFallsSlowly(s, text[..|text| - 1]); }
  }

  /** No shorter continuation closes the text. */
  lemma ShortestCompletion(text: string, more: string)
    requires Closed(ScanFrom(START, text + more))
    ensures |Completed(text)| <= |text + more|
  {
    var s := ScanFrom(START, text);
    ScanConcat(START, text, more);
    DebtFallsSlowly(s, more);
    ScanOwesClosers(START, text);
    ReversedClosers(s.owed);
  }

  // ---------------------------------------------------------------- nesting

  /** The inside of a string literal: a backslash goes together with the character behind it, and there is no other
      quote. */
  predicate IsInside(s: string)
  {
    s == "" || (if s[0] == '\\' then |s| >= 2 && IsInside(s[2..]) else s[0] != '"' && IsInside(s[1..]))
  }

  /** How a text nests. */
  datatype Nest =
    | Nothing
    | Character(c: char)
    | Literal(inside: string)
    | Then(first: Nest, second: Nest)
    | Braces(body: Nest)
    | Brackets(body: Nest)
  {
    /** Strings are strings, and other characters are neither quotes nor brackets. */
    predicate Proper()
    {
      match this
      case Nothing => true
      case Character(c) => c !in {'"', '{', '}', '[', ']'}
      case Literal(inside) => IsInside(inside)
      case Then(first, second) => first.Proper() && second.Proper()
      case Braces(body) => body.Proper()
      case Brackets(body) => body.Proper()
    }

    function Text(): string
    {
      match this
      case Nothing => ""
      case Character(c) => [c]
      case Literal(inside) => ['"'] + inside + ['"']
      case Then(first, second) => first.Text() + second.Text()
      case Braces(body) => ['{'] + body.Text() + ['}']
      case Brackets(body) => ['['] + body.Text() + [']']
    }
  }

  /** Every bracket has its partner, and every string its end. */
  ghost predicate Nests(text: string) { exists t: Nest :: t.Proper() && t.Text() == text }

  /** The text is the beginning of one that nests. */
  ghost predicate BeginsNesting(text: string) { exists more :: Nests(text + more) }

  /** Characters outside of strings, and whole strings. */
  ghost predicate LeavesStrings(text: string)
    decreases |text|, 1
  {
    text == "" ||
    if text[0] != '"' then LeavesStrings(text[1..]) else exists n: nat :: StringUpTo(text, n)
  }

  /** A string up to position `n`, and characters outside of strings and whole strings behind it. */
  ghost predicate StringUpTo(text: string, n: nat)
    decreases |text|, 0
  {
    1 <= n < |text| && text[n] == '"' && IsInside(text[1..n]) && LeavesStrings(text[n + 1..])
  }

  /** The text ends inside a string that begins at `n`. */
  ghost predicate InsideFrom(text: string, n: nat)
  {
    n < |text| && LeavesStrings(text[..n]) && text[n] == '"' && IsInside(text[n + 1..])
  }

  ghost predicate InsideString(text: string) { exists n: nat :: InsideFrom(text, n) }

  /** The text breaks off right behind a backslash in a string. */
  ghost predicate BreaksOff(text: string)
  {
    text != "" && text[|text| - 1] == '\\' && InsideString(text[..|text| - 1])
  }

  lemma ScanCons(s: Scan, c: char, rest: string)
    ensures ScanFrom(s, [c] + rest) == ScanFrom(Next(s, c), rest)
  {
    ScanConcat(s, [c], rest);
    OneCharacter(s, c);
  }

  lemma ScanHead(s: Scan, text: string)
    requires text != ""
    ensures ScanFrom(s, text) == ScanFrom(Next(s, text[0]), text[1..])
  {
    assert text == [text[0]] + text[1..];
    ScanCons(s, text[0], text[1..]);
  }

  /** The inside of a string passes. */
  lemma {:induction false} InsidePasses(s: Scan, inside: string)
    requires s.inString && !s.escaped && IsInside(inside)
    ensures ScanFrom(s, inside) == s
    decreases |inside|
  {
    if inside != "" {
      ScanHead(s, inside);
      if inside[0] == '\\' {
        ScanHead(s.(escaped := true), inside[1..]);
        assert inside[1..][1..] == inside[2..];
        InsidePasses(s, inside[2..]);
      } else {
        InsidePasses(s, inside[1..]);
      }
    }
  }

  /** So does a whole string. */
  lemma LiteralPasses(s: Scan, inside: string)
    requires !s.inString && !s.escaped && IsInside(inside)
    ensures ScanFrom(s, ['"'] + inside + ['"']) == s
  {
    var open := s.(inString := true);
    ScanConcat(s, ['"'] + inside, ['"']);
    ScanCons(s, '"', inside);
    InsidePasses(open, inside);
    OneCharacter(open, '"');
  }

  lemma BracketPasses(s: Scan, open: char, body: string, close: char)
    requires !s.inString && !s.escaped && (open == '{' || open == '[') && (close == '}' || close == ']')
    requires ScanFrom(Next(s, open), body) == Next(s, open)
    ensures ScanFrom(s, [open] + body + [close]) == s
  {
    ScanConcat(s, [open] + body, [close]);
    ScanCons(s, open, body);
    OneCharacter(Next(s, open), close);
    assert Next(s, open).owed[..|s.owed|] == s.owed;
  }

  /** What nests leaves the scan as it was. */
  lemma {:induction false} NestPasses(s: Scan, t: Nest)
    requires t.Proper() && !s.inString && !s.escaped
    ensures ScanFrom(s, t.Text()) == s
    decreases t
  {
    match t
    case Nothing =>
    case Character(c) => OneCharacter(s, c);
    case Literal(inside) => LiteralPasses(s, inside);
    case Then(first, second) =>
      NestPasses(s, first);
      NestPasses(s, second);
      ScanConcat(s, first.Text(), second.Text());
    case Braces(body) =>
      NestPasses(Next(s, '{'), body);
      BracketPasses(s, '{', body.Text(), '}');
    case Brackets(body) =>
      NestPasses(Next(s, '['), body);
      BracketPasses(s, '[', body.Text(), ']');
  }

  /** A string cut anywhere, seen from two scans: both are inside it, and right behind a backslash or not. */
  lemma {:induction false} InsideCut(s: Scan, o: Scan, inside: string, k: nat) returns (escaped: bool)
    requires s.inString && !s.escaped && o.inString && !o.escaped && IsInside(inside) && k <= |inside|
    ensures ScanFrom(s, inside[..k]) == s.(escaped := escaped) && ScanFrom(o, inside[..k]) == o.(escaped := escaped)
    ensures !escaped ==> IsInside(inside[..k])
    decreases |inside|
  {
    escaped := k == 1 && inside[0] == '\\';
    if k > 0 {
      var cut := inside[..k];
      ScanHead(s, cut);
      ScanHead(o, cut);
      if inside[0] != '\\' {
        assert cut[1..] == inside[1..][..k - 1];
        escaped := InsideCut(s, o, inside[1..], k - 1);
      } else if k > 1 {
        ScanHead(s.(escaped := true), cut[1..]);
        ScanHead(o.(escaped := true), cut[1..]);
        assert cut[1..][1..] == inside[2..][..k - 2] == cut[2..];
        escaped := InsideCut(s, o, inside[2..], k - 2);
      } else {
        assert cut[1..] == "";
      }
    }
  }

  /** The scan with something owed before. */
  function Upon(base: seq<char>, s: Scan): Scan { s.(owed := base + s.owed) }

  /** Where a cut falls in a text of three parts, the first and last one character long. */
  lemma CutInMiddle(open: char, body: string, close: char, k: nat)
    requires k <= |body| + 2
    ensures k == 0 ==> ([open] + body + [close])[..k] == ""
    ensures 0 < k <= |body| + 1 ==> ([open] + body + [close])[..k] == [open] + body[..k - 1]
    ensures k == |body| + 2 ==> ([open] + body + [close])[..k] == [open] + body + [close]
  {
  }

  lemma CutInSecond(first: string, second: string, k: nat)
    requires k <= |first| + |second|
    ensures (first + second)[..k] == if k <= |first| then first[..k] else first + second[..k - |first|]
  {
  }

  /** The scan of the text adds to what was owed before. */
  ghost predicate AddsTo(base: seq<char>, cut: string)
  {
    ScanFrom(Scan(base, false, false), cut) == Upon(base, ScanFrom(START, cut))
  }

  lemma LiteralAddsTo(base: seq<char>, inside: string, k: nat)
    requires IsInside(inside) && k <= |inside|
    ensures AddsTo(base, ['"'] + inside[..k])
  {
    ScanCons(Scan(base, false, false), '"', inside[..k]);
    ScanCons(START, '"', inside[..k]);
    var escaped := InsideCut(Scan(base, true, false), Scan([], true, false), inside, k);
  }

  function Closer(open: char): char { if open == '{' then '}' else ']' }

  lemma BracketOwes(base: seq<char>, open: char, cut: string)
    requires open == '{' || open == '['
    ensures ScanFrom(Scan(base, false, false), [open] + cut) == ScanFrom(Scan(base + [Closer(open)], false, false), cut)
  {
    ScanCons(Scan(base, false, false), open, cut);
  }

  lemma BracketAddsTo(base: seq<char>, open: char, cut: string)
    requires open == '{' || open == '['
    requires AddsTo(base + [Closer(open)], cut) && AddsTo([Closer(open)], cut)
    ensures AddsTo(base, [open] + cut)
  {
    BracketOwes(base, open, cut);
    BracketOwes([], open, cut);
    assert [] + [Closer(open)] == [Closer(open)];
    UponTwice(base, [Closer(open)], ScanFrom(START, cut));
  }

  lemma UponTwice(base: seq<char>, more: seq<char>, s: Scan)
    ensures Upon(base, Upon(more, s)) == Upon(base + more, s)
  {
    Regrouped(base, more, s.owed);
  }

  lemma Regrouped(a: string, b: string, c: string)
    ensures a + b + c == a + (b + c)
  {
  }

  lemma NestPassesBefore(base: seq<char>, first: Nest, rest: string)
    requires first.Proper()
    ensures ScanFrom(Scan(base, false, false), first.Text() + rest) == ScanFrom(Scan(base, false, false), rest)
    ensures ScanFrom(START, first.Text() + rest) == ScanFrom(START, rest)
  {
    NestPasses(Scan(base, false, false), first);
    NestPasses(START, first);
    ScanConcat(Scan(base, false, false), first.Text(), rest);
    ScanConcat(START, first.Text(), rest);
  }

  lemma ThenAddsTo(base: seq<char>, first: Nest, rest: string)
    requires first.Proper() && AddsTo(base, rest)
    ensures AddsTo(base, first.Text() + rest)
  {
    NestPassesBefore(base, first, rest);
  }

  lemma WholeAddsTo(base: seq<char>, t: Nest)
    requires t.Proper()
    ensures AddsTo(base, t.Text()) && AddsTo(base, "")
  {
    NestPasses(Scan(base, false, false), t);
    NestPasses(START, t);
  }

  /** Which part a cut falls into. */
  ghost predicate Cuts(t: Nest, k: nat, cut: string)
  {
    if k == 0 then cut == "" else if k >= |t.Text()| then cut == t.Text()
    else match t
      case Literal(inside) => k - 1 <= |inside| && cut == ['"'] + inside[..k - 1]
      case Then(first, second) =>
        if k <= |first.Text()| then cut == first.Text()[..k]
        else k - |first.Text()| <= |second.Text()| && cut == first.Text() + second.Text()[..k - |first.Text()|]
      case Braces(body) => k - 1 <= |body.Text()| && cut == ['{'] + body.Text()[..k - 1]
      case Brackets(body) => k - 1 <= |body.Text()| && cut == ['['] + body.Text()[..k - 1]
      case _ => false
  }

  lemma CutIs(t: Nest, k: nat)
    requires k <= |t.Text()|
    ensures Cuts(t, k, t.Text()[..k])
  {
    match t
    case Literal(inside) => CutInMiddle('"', inside, '"', k);
    case Then(first, second) => CutInSecond(first.Text(), second.Text(), k);
    case Braces(body) => CutInMiddle('{', body.Text(), '}', k);
    case Brackets(body) => CutInMiddle('[', body.Text(), ']', k);
    case _ =>
  }

  /** So does the scan of a cut text that nests. */
  lemma {:induction false} CutAddsTo(base: seq<char>, t: Nest, k: nat, cut: string)
    requires t.Proper() && Cuts(t, k, cut)
    ensures AddsTo(base, cut)
    decreases t, 0
  {
    if k == 0 || k >= |t.Text()| {
      WholeAddsTo(base, t);
    } else {
      match t
      case Literal(inside) => LiteralAddsTo(base, inside, k - 1);
      case Then(first, second) =>
        if k <= |first.Text()| {
          CutIs(first, k);
          CutAddsTo(base, first, k, cut);
        } else {
          var rest := second.Text()[..k - |first.Text()|];
          CutIs(second, k - |first.Text()|);
          CutAddsTo(base, second, k - |first.Text()|, rest);
          ThenAddsTo(base, first, rest);
        }
      case Braces(body) => BodyAddsTo(base, '{', body, k - 1);
      case Brackets(body) => BodyAddsTo(base, '[', body, k - 1);
    }
  }

  lemma {:induction false} BodyAddsTo(base: seq<char>, open: char, body: Nest, k: nat)
    requires (open == '{' || open == '[') && body.Proper() && k <= |body.Text()|
    ensures AddsTo(base, [open] + body.Text()[..k])
    decreases body, 1
  {
    var cut := body.Text()[..k];
    CutIs(body, k);
    CutAddsTo(base + [Closer(open)], body, k, cut);
    CutAddsTo([Closer(open)], body, k, cut);
    BracketAddsTo(base, open, cut);
  }

  lemma {:induction false} ReversedConcat(a: string, b: string)
    ensures Reversed(a + b) == Reversed(b) + Reversed(a)
  {
    if b == "" {
      assert a + b == a;
    } else {
      var n := |b| - 1;
      assert (a + b)[..|a| + n] == a + b[..n];
      ReversedConcat(a, b[..n]);
      Regrouped([b[n]], Reversed(b[..n]), Reversed(a));
    }
  }

  /** What is owed behind an open bracket is closed before it. */
  lemma ClosersUpon(close: char, s: Scan)
    ensures Closers(Upon([close], s)) == Closers(s) + [close]
  {
    ReversedConcat([close], s.owed);
    assert Reversed([close]) == [close] by { assert [close][..0] == ""; }
  }

  lemma BracketCloses(open: char, cut: string)
    requires (open == '{' || open == '[') && AddsTo([Closer(open)], cut)
    ensures ScanFrom(START, [open] + cut).escaped == ScanFrom(START, cut).escaped
    ensures Completed([open] + cut) == [open] + Completed(cut) + [Closer(open)]
  {
    BracketOwes([], open, cut);
    assert [] + [Closer(open)] == [Closer(open)];
    ClosersUpon(Closer(open), ScanFrom(START, cut));
    Around(open, cut, Closers(ScanFrom(START, cut)), Closer(open));
  }

  lemma Around(open: char, cut: string, closers: string, close: char)
    ensures [open] + cut + (closers + [close]) == [open] + (cut + closers) + [close]
  {
  }

  /** Completed, the text nests, unless it breaks off behind a backslash in a string. */
  ghost predicate Closable(cut: string) { !ScanFrom(START, cut).escaped ==> Nests(Completed(cut)) }

  lemma NestIs(t: Nest, text: string)
    requires t.Proper() && text == t.Text()
    ensures Nests(text)
  {
  }

  lemma WholeCloses(t: Nest)
    requires t.Proper()
    ensures Closable(t.Text()) && Closable("")
  {
    NestPasses(START, t);
    NestIs(t, Completed(t.Text()));
    NestIs(Nothing, "");
  }

  lemma LiteralCloses(inside: string, k: nat)
    requires IsInside(inside) && k <= |inside|
    ensures Closable(['"'] + inside[..k])
  {
    ScanCons(START, '"', inside[..k]);
    var open := Scan([], true, false);
    var escaped := InsideCut(open, open, inside, k);
    if !escaped { NestIs(Literal(inside[..k]), Completed(['"'] + inside[..k])); }
  }

  lemma ThenCloses(first: Nest, rest: string)
    requires first.Proper() && Closable(rest)
    ensures Closable(first.Text() + rest)
  {
    NestPassesBefore([], first, rest);
    Regrouped(first.Text(), rest, Closers(ScanFrom(START, rest)));
    if !ScanFrom(START, rest).escaped {
      var t: Nest :| t.Proper() && t.Text() == Completed(rest);
      NestIs(Then(first, t), Completed(first.Text() + rest));
    }
  }

  lemma BodyCloses(open: char, body: Nest, k: nat)
    requires (open == '{' || open == '[') && body.Proper() && k <= |body.Text()| && Closable(body.Text()[..k])
    ensures Closable([open] + body.Text()[..k])
  {
    var cut := body.Text()[..k];
    CutIs(body, k);
    CutAddsTo([Closer(open)], body, k, cut);
    BracketCloses(open, cut);
    if !ScanFrom(START, cut).escaped {
      var t: Nest :| t.Proper() && t.Text() == Completed(cut);
      NestIs(if open == '{' then Braces(t) else Brackets(t), Completed([open] + cut));
    }
  }

  /** Completing a cut text that nests gives one that nests, unless the cut is behind a backslash in a string. */
  lemma {:induction false} CutCloses(t: Nest, k: nat, cut: string)
    requires t.Proper() && Cuts(t, k, cut)
    ensures Closable(cut)
    decreases t
  {
    if k == 0 || k >= |t.Text()| {
      WholeCloses(t);
    } else {
      match t
      case Literal(inside) => LiteralCloses(inside, k - 1);
      case Then(first, second) =>
        if k <= |first.Text()| {
          CutIs(first, k);
          CutCloses(first, k, cut);
        } else {
          var rest := second.Text()[..k - |first.Text()|];
          CutIs(second, k - |first.Text()|);
          CutCloses(second, k - |first.Text()|, rest);
          ThenCloses(first, rest);
        }
      case Braces(body) =>
        CutIs(body, k - 1);
        CutCloses(body, k - 1, body.Text()[..k - 1]);
        BodyCloses('{', body, k - 1);
      case Brackets(body) =>
        CutIs(body, k - 1);
        CutCloses(body, k - 1, body.Text()[..k - 1]);
        BodyCloses('[', body, k - 1);
    }
  }

  // ---------------------------------------------------------------- breaking off

  lemma {:induction false} InsideConcat(a: string, b: string)
    requires IsInside(a) && IsInside(b)
    ensures IsInside(a + b)
    decreases |a|
  {
    if a == "" {
      assert a + b == b;
    } else if a[0] == '\\' {
      assert (a + b)[2..] == a[2..] + b;
      InsideConcat(a[2..], b);
    } else {
      assert (a + b)[1..] == a[1..] + b;
      InsideConcat(a[1..], b);
    }
  }

  lemma {:induction false} LeavesConcat(a: string, b: string)
    requires LeavesStrings(a) && LeavesStrings(b)
    ensures LeavesStrings(a + b)
    decreases |a|
  {
    if a == "" {
      assert a + b == b;
    } else if a[0] != '"' {
      assert (a + b)[1..] == a[1..] + b;
      LeavesConcat(a[1..], b);
    } else {
      var n: nat :| StringUpTo(a, n);
      LeavesConcat(a[n + 1..], b);
      assert (a + b)[n + 1..] == a[n + 1..] + b && (a + b)[1..n] == a[1..n];
      assert StringUpTo(a + b, n);
    }
  }

  /** Outside of strings the scan is outside of strings. */
  lemma {:induction false} LeavesPass(s: Scan, text: string)
    requires LeavesStrings(text) && !s.inString && !s.escaped
    ensures !ScanFrom(s, text).inString && !ScanFrom(s, text).escaped
    decreases |text|
  {
    if text != "" {
      if text[0] != '"' {
        ScanHead(s, text);
        LeavesPass(Next(s, text[0]), text[1..]);
      } else {
        var n: nat :| StringUpTo(text, n);
        LiteralPasses(s, text[1..n]);
        assert text == (['"'] + text[1..n] + ['"']) + text[n + 1..];
        ScanConcat(s, ['"'] + text[1..n] + ['"'], text[n + 1..]);
        LeavesPass(s, text[n + 1..]);
      }
    }
  }

  /** Where a scan is, in the words of the text. */
  ghost predicate StandsAt(text: string, s: Scan)
  {
    if !s.inString then !s.escaped && LeavesStrings(text)
    else if !s.escaped then InsideString(text)
    else BreaksOff(text)
  }

  lemma OneLeaves(c: char)
    requires c != '"'
    ensures LeavesStrings([c])
  {
  }

  /** A quote ends the string. */
  lemma StringEnds(text: string, n: nat)
    requires InsideFrom(text, n)
    ensures LeavesStrings(text + "\"")
  {
    var last := text[n..] + "\"";
    assert last[1..|last| - 1] == text[n + 1..] && last[|last| - 1 + 1..] == "";
    assert StringUpTo(last, |last| - 1);
    LeavesConcat(text[..n], last);
    assert text + "\"" == text[..n] + last;
  }

  lemma StringGoesOn(text: string, n: nat, more: string)
    requires InsideFrom(text, n) && IsInside(more)
    ensures InsideFrom(text + more, n)
  {
    InsideConcat(text[n + 1..], more);
    Lengthened(text, more, n);
  }

  lemma Lengthened(text: string, more: string, n: nat)
    requires n < |text|
    ensures (text + more)[..n] == text[..n] && (text + more)[n] == text[n]
    ensures (text + more)[n + 1..] == text[n + 1..] + more
  {
  }

  /** One character more, outside of strings. */
  lemma StandsOutside(text: string, s: Scan, c: char)
    requires StandsAt(text, s) && !s.inString
    ensures StandsAt(text + [c], Next(s, c))
  {
    if c == '"' {
      assert (text + [c])[..|text|] == text && (text + [c])[|text| + 1..] == "";
      assert InsideFrom(text + [c], |text|);
    } else {
      OneLeaves(c);
      LeavesConcat(text, [c]);
    }
  }

  /** And inside of one. */
  lemma StandsInside(text: string, s: Scan, c: char)
    requires StandsAt(text, s) && s.inString
    ensures StandsAt(text + [c], Next(s, c))
  {
    if s.escaped {
      var before := text[..|text| - 1];
      var n: nat :| InsideFrom(before, n);
      StringGoesOn(before, n, ['\\', c]);
      assert text + [c] == before + ['\\', c];
      assert InsideFrom(text + [c], n);
    } else {
      var n: nat :| InsideFrom(text, n);
      if c == '\\' {
        assert (text + [c])[..|text|] == text;
      } else if c == '"' {
        StringEnds(text, n);
      } else {
        StringGoesOn(text, n, [c]);
        assert InsideFrom(text + [c], n);
      }
    }
  }

  lemma {:induction false} ScanStands(text: string)
    ensures StandsAt(text, ScanFrom(START, text))
  {
    if text != "" {
      var n := |text| - 1;
      var s := ScanFrom(START, text[..n]);
      ScanStands(text[..n]);
      if s.inString { StandsInside(text[..n], s, text[n]); } else { StandsOutside(text[..n], s, text[n]); }
      assert text == text[..n] + [text[n]];
    }
  }

  /** The scan is right behind a backslash in a string exactly when the text breaks off there. */
  lemma BreaksOffExactly(text: string)
    ensures ScanFrom(START, text).escaped <==> BreaksOff(text)
  {
    ScanStands(text);
    if BreaksOff(text) {
      var before := text[..|text| - 1];
      var n: nat :| InsideFrom(before, n);
      BreaksOffScan(before[..n], before[n + 1..]);
      assert before == before[..n] + ['"'] + before[n + 1..];
      assert text == before + ['\\'];
    }
  }

  lemma BreaksOffScan(outside: string, inside: string)
    requires LeavesStrings(outside) && IsInside(inside)
    ensures ScanFrom(START, outside + ['"'] + inside + ['\\']).escaped
  {
    LeavesPass(START, outside);
    var s := ScanFrom(START, outside);
    var open := s.(inString := true);
    ScanConcat(START, outside, ['"']);
    OneCharacter(s, '"');
    ScanConcat(START, outside + ['"'], inside);
    InsidePasses(open, inside);
    ScanConcat(START, outside + ['"'] + inside, ['\\']);
    OneCharacter(open, '\\');
  }

  // ---------------------------------------------------------------- completion nests

  /** A text is completed to one that nests exactly when it is the beginning of one that nests and does not break off
      behind a backslash in a string. */
  lemma NestsExactly(text: string)
    ensures Nests(Completed(text)) <==> BeginsNesting(text) && !BreaksOff(text)
  {
    BreaksOffExactly(text);
    if Nests(Completed(text)) {
      assert Nests(text + Closers(ScanFrom(START, text)));
      var t: Nest :| t.Proper() && t.Text() == Completed(text);
      NestPasses(START, t);
      CompletedScan(text);
    }
    if BeginsNesting(text) && !BreaksOff(text) {
      var more :| Nests(text + more);
      var t: Nest :| t.Proper() && t.Text() == text + more;
      assert t.Text()[..|text|] == text;
      CutIs(t, |text|);
      CutCloses(t, |text|, text);
    }
  }

  /** And no shorter continuation would do. */
  lemma ShortestNesting(text: string, more: string)
    requires Nests(text + more)
    ensures |Completed(text)| <= |text + more|
  {
    var t: Nest :| t.Proper() && t.Text() == text + more;
    NestPasses(START, t);
    ShortestCompletion(text, more);
  }

  /** The text nests then, exactly when it is the beginning of one that nests and does not break off behind a backslash
      in a string; and no shorter continuation nests. */
  method CloseIncomplete(text: string) returns (out: string)
    ensures out == Completed(text) && text <= out
    ensures Nests(out) <==> BeginsNesting(text) && !BreaksOff(text)
    ensures forall more :: Nests(text + more) ==> |out| <= |text + more|
  {
    var stack, inString, escaped := ScanText(text);
    out := if inString then text + "\"" else text;
    out := PopAll(out, stack);
    AppendsClosers(text, out, Scan(stack, inString, escaped));
    NestsExactly(text);
    forall more | Nests(text + more) ensures |Completed(text)| <= |text + more| { ShortestNesting(text, more); }
  }

  lemma AppendsClosers(text: string, out: string, s: Scan)
    requires s == ScanFrom(START, text) && out == (if s.inString then text + "\"" else text) + Reversed(s.owed)
    ensures out == Completed(text) && text <= out
  {
    assert text + "" == text;
  }
}
