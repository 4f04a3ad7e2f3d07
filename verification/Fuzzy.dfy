/** Fuzzy search: greedy matching of a query against a text, and ranking of the items that match. Scores
are kept in tenths, the smallest unit they are made of, and are exact. What counts as white space and how
letters are lowered is given. */
module Fuzzy {
  import opened Basics

  datatype Alphabet = Alphabet(isSpace: char -> bool, lower: string -> string)

  datatype Match = Match(matches: bool, score: int)

  // ---------------------------------------------------------------- subsequences

  /** `at` places the query's characters in the text, in order. */
  ghost predicate Places(query: string, text: string, at: seq<nat>)
  {
    && |at| == |query|
    && (forall i :: 0 <= i < |at| ==> at[i] < |text| && text[at[i]] == query[i])
    && (forall i, j :: 0 <= i < j < |at| ==> at[i] < at[j])
  }

  ghost predicate IsSubsequence(query: string, text: string) { exists at :: Places(query, text, at) }

  /** Where the greedy scan of the first `n` characters has put the query. */
  function Greedy(query: string, text: string, n: nat): (at: seq<nat>)
    requires n <= |text|
  {
    if n == 0 then [] else
      var before := Greedy(query, text, n - 1);
      if |before| < |query| && text[n - 1] == query[|before|] then before + [n - 1] else before
  }

  /** Positions in the text, one after the other. */
  ghost predicate Rising(text: string, at: seq<nat>)
  {
    (forall i :: 0 <= i < |at| ==> at[i] < |text|) && forall i, j :: 0 <= i < j < |at| ==> at[i] < at[j]
  }

  /** The greedy scan places a beginning of the query within the characters it has seen. */
  lemma {:induction false} GreedyPlaces(query: string, text: string, n: nat)
    requires n <= |text|
    ensures var at := Greedy(query, text, n);
            && |at| <= |query| && |at| <= n && Rising(text, at)
            && (forall i :: 0 <= i < |at| ==> at[i] < n && text[at[i]] == query[i])
  {
    if n > 0 { GreedyPlaces(query, text, n - 1); }
  }

  /** The greedy scan is ahead of every placement. */
  lemma {:induction false} GreedyIsAhead(query: string, text: string, n: nat, at: seq<nat>, k: nat)
    requires n <= |text| && Places(query, text, at) && k < |at| && at[k] < n
    ensures k < |Greedy(query, text, n)| && Greedy(query, text, n)[k] <= at[k]
  {
    GreedyPlaces(query, text, n - 1);
    if at[k] < n - 1 {
      GreedyIsAhead(query, text, n - 1, at, k);
    } else if k > 0 {
      GreedyIsAhead(query, text, n - 1, at, k - 1);
    }
  }

  /** The greedy scan finds the whole query exactly when it is a subsequence of the text. */
  lemma GreedyDecides(query: string, text: string)
    ensures |Greedy(query, text, |text|)| <= |query|
    ensures |Greedy(query, text, |text|)| == |query| <==> IsSubsequence(query, text)
  {
    var found := Greedy(query, text, |text|);
    GreedyPlaces(query, text, |text|);
    if |found| == |query| {
      assert Places(query, text, found);
    }
    if IsSubsequence(query, text) && query != "" {
      var at :| Places(query, text, at);
      GreedyIsAhead(query, text, |text|, at, |query| - 1);
    }
  }

  // ---------------------------------------------------------------- scores

  predicate IsBoundary(letters: Alphabet, c: char)
  {
    letters.isSpace(c) || c in {'-', '_', '.', '/', ':'}
  }

  /** How many matches right before the last one were next to each other. */
  function Run(at: seq<nat>): nat
  {
    var n := |at|;
    if n >= 2 && at[n - 1] == at[n - 2] + 1 then Run(at[..n - 1]) + 1 else 0
  }

  /** What a match at `index` adds: runs and word starts are good, gaps and late positions bad. */
  function Gain(letters: Alphabet, text: string, last: Option<nat>, run: nat, index: nat): int
    requires index < |text| && (last.Some? ==> last.value < index)
  {
    (if run > 0 then -(run * 50) else if last.Some? then (index - last.value - 1) * 20 else 0)
    + (if index == 0 || IsBoundary(letters, text[index - 1]) then -100 else 0)
    + index
  }

  function Last(at: seq<nat>): Option<nat> { if at == [] then None else Some(at[|at| - 1]) }

  /** The score of a placement. */
  function PlacementScore(letters: Alphabet, text: string, at: seq<nat>): int
    requires Rising(text, at)
  {
    if at == [] then 0 else
      var n := |at| - 1;
      PlacementScore(letters, text, at[..n]) + Gain(letters, text, Last(at[..n]), Run(at), at[n])
  }

  /** What matching a query means. */
  function Matched(letters: Alphabet, query: string, text: string): Match
  {
    var at := Greedy(query, text, |text|);
    GreedyPlaces(query, text, |text|);
    if query == "" then Match(true, 0)
    else if |at| < |query| then Match(false, 0)
    else Match(true, PlacementScore(letters, text, at) - if query == text then 1000 else 0)
  }

  lemma RisesOn(text: string, at: seq<nat>, index: nat)
    requires Rising(text, at) && index < |text| && (at != [] ==> at[|at| - 1] < index)
    ensures Rising(text, at + [index])
  {
  }

  lemma RunNext(at: seq<nat>, index: nat)
    ensures Run(at + [index]) == NextRun(Last(at), Run(at), index)
  {
    assert (at + [index])[..|at|] == at;
  }

  lemma ScoreNext(letters: Alphabet, text: string, at: seq<nat>, index: nat)
    requires Rising(text, at) && index < |text| && (at != [] ==> at[|at| - 1] < index)
    ensures Rising(text, at + [index])
    ensures PlacementScore(letters, text, at + [index]) ==
            PlacementScore(letters, text, at) + Gain(letters, text, Last(at), Run(at + [index]), index)
  {
    RisesOn(text, at, index);
    assert (at + [index])[..|at|] == at;
  }

  function NextRun(last: Option<nat>, run: nat, index: nat): nat
  {
    if last.Some? && index == last.value + 1 then run + 1 else 0
  }

  /** What the loop knows after `n` characters: the number of matches, the last one, the run it ends and the score. */
  datatype Tally = Tally(count: nat, last: Option<nat>, run: nat, score: int)

  function Tallied(letters: Alphabet, query: string, text: string, n: nat): (t: Tally)
    requires n <= |text|
    ensures t.last.Some? ==> t.last.value < n
  {
    if n == 0 then Tally(0, None, 0, 0) else
      var t := Tallied(letters, query, text, n - 1);
      if t.count < |query| && text[n - 1] == query[t.count] then Advanced(letters, text, t, n - 1) else t
  }

  function Advanced(letters: Alphabet, text: string, t: Tally, index: nat): Tally
    requires index < |text| && (t.last.Some? ==> t.last.value < index)
  {
    var run := NextRun(t.last, t.run, index);
    Tally(t.count + 1, Some(index), run, t.score + Gain(letters, text, t.last, run, index))
  }

  /** The numbers of a placement. */
  ghost predicate IsTally(letters: Alphabet, text: string, at: seq<nat>, t: Tally)
  {
    Rising(text, at) && t == Tally(|at|, Last(at), Run(at), PlacementScore(letters, text, at))
  }

  lemma TallyNext(letters: Alphabet, text: string, at: seq<nat>, t: Tally, index: nat)
    requires IsTally(letters, text, at, t) && index < |text| && (t.last.Some? ==> t.last.value < index)
    ensures IsTally(letters, text, at + [index], Advanced(letters, text, t, index))
  {
    RunNext(at, index);
    ScoreNext(letters, text, at, index);
  }

  lemma TallyMoves(letters: Alphabet, text: string, index: nat, at: seq<nat>, t: Tally, g: seq<nat>, u: Tally,
                   grows: bool)
    requires IsTally(letters, text, at, t) && index < |text| && (t.last.Some? ==> t.last.value < index)
    requires g == (if grows then at + [index] else at) && u == (if grows then Advanced(letters, text, t, index) else t)
    ensures IsTally(letters, text, g, u)
  {
    if grows { TallyNext(letters, text, at, t, index); }
  }

  /** One character more, in the scan and in the loop. */
  lemma StepIs(letters: Alphabet, query: string, text: string, n: nat, at: seq<nat>, t: Tally)
    requires 0 < n <= |text| && at == Greedy(query, text, n - 1) && t == Tallied(letters, query, text, n - 1)
    requires t.count == |at|
    ensures t.last.Some? ==> t.last.value < n - 1
    ensures Greedy(query, text, n) == if |at| < |query| && text[n - 1] == query[|at|] then at + [n - 1] else at
    ensures Tallied(letters, query, text, n) ==
            if |at| < |query| && text[n - 1] == query[|at|] then Advanced(letters, text, t, n - 1) else t
  {
  }

  /** The loop's numbers are those of the leftmost placement. */
  lemma {:induction false} TallyIsPlacement(letters: Alphabet, query: string, text: string, n: nat)
    requires n <= |text|
    ensures IsTally(letters, text, Greedy(query, text, n), Tallied(letters, query, text, n))
  {
    if n > 0 {
      var at, t := Greedy(query, text, n - 1), Tallied(letters, query, text, n - 1);
      TallyIsPlacement(letters, query, text, n - 1);
      StepIs(letters, query, text, n, at, t);
      TallyMoves(letters, text, n - 1, at, t, Greedy(query, text, n), Tallied(letters, query, text, n),
                 |at| < |query| && text[n - 1] == query[|at|]);
    }
  }

  /** What the loop does at a match. */
  method Score(letters: Alphabet, text: string, last: Option<nat>, consecutive: nat, index: nat, score: int)
    returns (consecutive': nat, score': int)
    requires index < |text| && (last.Some? ==> last.value < index)
    ensures forall count: nat :: Advanced(letters, text, Tally(count, last, consecutive, score),
                                          index) == Tally(count + 1, Some(index), consecutive', score')
  {
    consecutive', score' := consecutive, score;
    if last == Some(SaturatingSub(index, 1)) {
      consecutive' := consecutive' + 1;
      score' := score' - consecutive' * 50;
    } else {
      consecutive' := 0;
      if last.Some? {
        assert index - last.value - 1 >= 0;
        score' := score' + (index - last.value - 1) * 20;
      }
    }
    if index == 0 || IsBoundary(letters, text[index - 1]) {
      score' := score' - 100;
    }
    score' := score' + index;
  }

  /** The scan of the text. */
  method Scan(letters: Alphabet, query: string, text: string) returns (queryIndex: nat, score: int, ghost tally: Tally)
    ensures tally == Tallied(letters, query, text, |text|) && queryIndex == tally.count && score == tally.score
  {
    queryIndex, score := 0, 0;
    var last: Option<nat> := None;
    var consecutive: nat := 0;
    var index := 0;
    while index < |text| && queryIndex < |query|
      invariant index <= |text| && queryIndex <= |query|
      invariant Tallied(letters, query, text, index) == Tally(queryIndex, last, consecutive, score)
    {
      if text[index] == query[queryIndex] {
        consecutive, score := Score(letters, text, last, consecutive, index, score);
        last := Some(index);
        queryIndex := queryIndex + 1;
      }
      index := index + 1;
    }
    tally := Tally(queryIndex, last, consecutive, score);
    ScanEnds(letters, query, text, index);
  }

  method MatchQuery(letters: Alphabet, query: string, text: string) returns (r: Match)
    ensures r == Matched(letters, query, text)
    ensures r.matches <==> IsSubsequence(query, text)
  {
    GreedyDecides(query, text);
    GreedyPlaces(query, text, |text|);
    if query == "" { return Match(true, 0); }
    if |query| > |text| { return Match(false, 0); }
    var queryIndex, score, tally := Scan(letters, query, text);
    TallyIsPlacement(letters, query, text, |text|);
    if queryIndex < |query| { return Match(false, 0); }
    if query == text { score := score - 1000; }
    r := Match(true, score);
  }

  /** The scan of the rest changes nothing once the whole query is found. */
  lemma {:induction false} ScanEnds(letters: Alphabet, query: string, text: string, n: nat)
    requires n <= |text| && (n == |text| || Tallied(letters, query, text, n).count >= |query|)
    ensures Tallied(letters, query, text, |text|) == Tallied(letters, query, text, n)
    decreases |text| - n
  {
    if n < |text| { ScanEnds(letters, query, text, n + 1); }
  }

  // ---------------------------------------------------------------- letters and digits the other way round

  predicate IsDigit(c: char) { '0' <= c <= '9' }

  predicate IsLetter(c: char) { 'a' <= c <= 'z' || 'A' <= c <= 'Z' }

  predicate AllDigits(s: string) { forall i :: 0 <= i < |s| ==> IsDigit(s[i]) }

  predicate AllLetters(s: string) { forall i :: 0 <= i < |s| ==> IsLetter(s[i]) }

  function FirstWhere(s: string, p: char -> bool): (r: nat)
    ensures r <= |s| && (forall i :: 0 <= i < r ==> !p(s[i])) && (r < |s| ==> p(s[r]))
  {
    if s == "" || p(s[0]) then 0 else 1 + FirstWhere(s[1..], p)
  }

  function Swapped(query: string): Option<string>
  {
    var d := FirstWhere(query, IsDigit);
    var l := FirstWhere(query, IsLetter);
    if 0 < d < |query| && AllLetters(query[..d]) && AllDigits(query[d..]) then Some(query[d..] + query[..d])
    else if 0 < l < |query| && AllDigits(query[..l]) && AllLetters(query[l..]) then Some(query[l..] + query[..l])
    else None
  }

  /** Letters followed by digits, or digits followed by letters. */
  predicate TwoParts(first: string, second: string)
  {
    && first != "" && second != ""
    && ((AllLetters(first) && AllDigits(second)) || (AllDigits(first) && AllLetters(second)))
  }

  /** A query of two parts is swapped between them. */
  lemma TwoPartsSwap(first: string, second: string)
    requires TwoParts(first, second)
    ensures Swapped(first + second) == Some(second + first)
  {
    var query := first + second;
    var k := |first|;
    assert query[..k] == first && query[k..] == second;
    assert query[0] == first[0] && query[k] == second[0];
    assert forall i :: 0 <= i < k ==> query[i] == first[i];
  }

  /** Only such a query is swapped. */
  lemma SwapHasTwoParts(query: string) returns (first: string, second: string)
    requires Swapped(query).Some?
    ensures TwoParts(first, second) && query == first + second && Swapped(query) == Some(second + first)
  {
    var d, l := FirstWhere(query, IsDigit), FirstWhere(query, IsLetter);
    var k := if 0 < d < |query| && AllLetters(query[..d]) && AllDigits(query[d..]) then d else l;
    first, second := query[..k], query[k..];
  }

  /** Swapping twice gives the query back. */
  lemma SwappedTwice(query: string)
    requires Swapped(query).Some?
    ensures Swapped(Swapped(query).value) == Some(query)
  {
    var first, second := SwapHasTwoParts(query);
    TwoPartsSwap(second, first);
  }

  /** What a fuzzy match means. */
  function FuzzyMatched(letters: Alphabet, query: string, text: string): Match
  {
    var q, t := letters.lower(query), letters.lower(text);
    var primary := Matched(letters, q, t);
    if primary.matches || Swapped(q).None? then primary else
      var swapped := Matched(letters, Swapped(q).value, t);
      if swapped.matches then Match(true, swapped.score + 50) else primary
  }

  /** A fuzzy match is a subsequence, of the query as it is or the other way round. */
  lemma FuzzyMatchesExactly(letters: Alphabet, query: string, text: string)
    ensures FuzzyMatched(letters, query, text).matches <==>
            var q, t := letters.lower(query), letters.lower(text);
            IsSubsequence(q, t) || (Swapped(q).Some? && IsSubsequence(Swapped(q).value, t))
  {
    var q, t := letters.lower(query), letters.lower(text);
    GreedyDecides(q, t);
    if Swapped(q).Some? { GreedyDecides(Swapped(q).value, t); }
  }

  method FuzzyMatch(letters: Alphabet, query: string, text: string) returns (r: Match)
    ensures r == FuzzyMatched(letters, query, text)
  {
    var q, t := letters.lower(query), letters.lower(text);
    var primary := MatchQuery(letters, q, t);
    if primary.matches { return primary; }
    var swappedQuery := Swapped(q);
    if swappedQuery.None? { return primary; }
    var swapped := MatchQuery(letters, swappedQuery.value, t);
    if !swapped.matches { return primary; }
    r := Match(true, swapped.score + 50);
  }

  // ---------------------------------------------------------------- filtering

  function Words(letters: Alphabet, s: string, word: string): seq<string>
  {
    var done := if word == "" then [] else [word];
    if s == "" then done
    else if letters.isSpace(s[0]) then done + Words(letters, s[1..], "")
    else Words(letters, s[1..], word + [s[0]])
  }

  predicate AllSpace(letters: Alphabet, s: string) { forall i :: 0 <= i < |s| ==> letters.isSpace(s[i]) }

  predicate NoSpace(letters: Alphabet, s: string) { forall i :: 0 <= i < |s| ==> !letters.isSpace(s[i]) }

  /** How many characters without a space a text starts with. */
  function WordEnd(letters: Alphabet, s: string): (n: nat)
    ensures n <= |s| && NoSpace(letters, s[..n]) && (n < |s| ==> letters.isSpace(s[n]))
  {
    if s == "" || letters.isSpace(s[0]) then 0 else
      var n := 1 + WordEnd(letters, s[1..]);
      assert forall i :: 1 <= i < n ==> s[..n][i] == s[1..][..n - 1][i - 1];
      n
  }

  /** The words are all there is between the spaces: white space up to the first word, the first word as long as it
      can be, and the other words in the rest. */
  ghost predicate AreWords(letters: Alphabet, s: string, words: seq<string>)
    decreases |words|
  {
    if words == [] then AllSpace(letters, s) else exists i: nat :: FirstWord(letters, s, words, i)
  }

  ghost predicate FirstWord(letters: Alphabet, s: string, words: seq<string>, i: nat)
    requires words != []
    decreases |words|, 0
  {
    var end := i + |words[0]|;
    && end <= |s| && AllSpace(letters, s[..i])
    && words[0] != "" && NoSpace(letters, words[0]) && words[0] == s[i..end]
    && (end < |s| ==> letters.isSpace(s[end]))
    && AreWords(letters, s[end..], words[1..])
  }

  /** A word that has been started is taken to its end. */
  lemma {:induction false} WordGoesOn(letters: Alphabet, s: string, word: string)
    requires word != ""
    ensures var n := WordEnd(letters, s);
            Words(letters, s, word) == [word + s[..n]] + Words(letters, s[n..], "")
  {
    var n := WordEnd(letters, s);
    if n == 0 {
      assert s[..n] == "" && s[n..] == s && word + "" == word;
    } else {
      WordGoesOn(letters, s[1..], word + [s[0]]);
      assert s[1..][n - 1..] == s[n..];
      assert word + [s[0]] + s[1..][..n - 1] == word + s[..n];
    }
  }

  /** Splitting at white space gives the words. */
  lemma {:induction false} WordsAreWords(letters: Alphabet, s: string)
    ensures AreWords(letters, s, Words(letters, s, ""))
    decreases |s|
  {
    if s != "" {
      if letters.isSpace(s[0]) {
        WordsAreWords(letters, s[1..]);
        SpaceBefore(letters, s, Words(letters, s[1..], ""));
        assert Words(letters, s, "") == [] + Words(letters, s[1..], "") == Words(letters, s[1..], "");
      } else {
        var n := WordEnd(letters, s);
        FirstWordIs(letters, s);
        WordsAreWords(letters, s[n..]);
        TakesFirstWord(letters, s, n, Words(letters, s[n..], ""));
      }
    }
  }

  lemma FirstWordIs(letters: Alphabet, s: string)
    requires s != "" && !letters.isSpace(s[0])
    ensures var n := WordEnd(letters, s); n > 0 && Words(letters, s, "") == [s[..n]] + Words(letters, s[n..], "")
  {
    var m := WordEnd(letters, s[1..]);
    assert "" + [s[0]] == [s[0]];
    WordGoesOn(letters, s[1..], [s[0]]);
    assert [s[0]] + s[1..][..m] == s[..m + 1] && s[1..][m..] == s[m + 1..];
  }

  lemma TakesFirstWord(letters: Alphabet, s: string, n: nat, rest: seq<string>)
    requires 0 < n <= |s| && NoSpace(letters, s[..n]) && (n < |s| ==> letters.isSpace(s[n]))
    requires AreWords(letters, s[n..], rest)
    ensures AreWords(letters, s, [s[..n]] + rest)
  {
    var words := [s[..n]] + rest;
    assert words[1..] == rest && s[0..n] == s[..n] && s[..0] == "";
    assert FirstWord(letters, s, words, 0);
  }

  lemma SpaceBefore(letters: Alphabet, s: string, words: seq<string>)
    requires s != "" && letters.isSpace(s[0]) && AreWords(letters, s[1..], words)
    ensures AreWords(letters, s, words)
  {
    if words == [] {
      SpacesBefore(letters, s[0], s[1..]);
      assert s == [s[0]] + s[1..];
    } else {
      var i: nat :| FirstWord(letters, s[1..], words, i);
      Shifted(s, i, i + |words[0]|);
      SpacesBefore(letters, s[0], s[1..][..i]);
      assert FirstWord(letters, s, words, i + 1);
    }
  }

  lemma SpacesBefore(letters: Alphabet, c: char, s: string)
    requires letters.isSpace(c) && AllSpace(letters, s)
    ensures AllSpace(letters, [c] + s)
  {
  }

  /** The same places, seen from one character earlier. */
  lemma Shifted(s: string, i: nat, end: nat)
    requires s != "" && i <= end <= |s[1..]|
    ensures s[..i + 1] == [s[0]] + s[1..][..i] && s[i + 1..end + 1] == s[1..][i..end] && s[end + 1..] == s[1..][end..]
    ensures end < |s[1..]| ==> s[end + 1] == s[1..][end]
  {
  }

  /** How the tokens match the text, one by one. */
  function Verdicts(letters: Alphabet, tokens: seq<string>, text: string): (r: seq<Match>)
    ensures |r| == |tokens|
  {
    seq(|tokens|, i requires 0 <= i < |tokens| => FuzzyMatched(letters, tokens[i], text))
  }

  predicate AllMatch(verdicts: seq<Match>) { forall i :: 0 <= i < |verdicts| ==> verdicts[i].matches }

  function TotalScore(verdicts: seq<Match>): int
  {
    if verdicts == [] then 0 else TotalScore(verdicts[..|verdicts| - 1]) + verdicts[|verdicts| - 1].score
  }

  datatype Ranked = Ranked(index: nat, score: int)

  predicate Before(a: Ranked, b: Ranked) { a.score < b.score || (a.score == b.score && a.index < b.index) }

  predicate InOrder(s: seq<Ranked>) { forall j, k :: 0 <= j < k < |s| ==> Before(s[j], s[k]) }

  function Insert(x: Ranked, s: seq<Ranked>): seq<Ranked>
  {
    if s == [] || Before(x, s[0]) then [x] + s else [s[0]] + Insert(x, s[1..])
  }

  function Sort(s: seq<Ranked>): seq<Ranked>
  {
    if s == [] then [] else Insert(s[|s| - 1], Sort(s[..|s| - 1]))
  }

  lemma {:induction false} InsertMembers(x: Ranked, s: seq<Ranked>, y: Ranked)
    ensures y in Insert(x, s) <==> y == x || y in s
  {
    if s != [] && !Before(x, s[0]) {
      InsertMembers(x, s[1..], y);
      assert s == [s[0]] + s[1..];
    }
  }

  lemma {:induction false} InsertOrders(x: Ranked, s: seq<Ranked>)
    requires InOrder(s) && forall y :: y in s ==> y.index != x.index
    ensures InOrder(Insert(x, s))
  {
    if s != [] && !Before(x, s[0]) {
      var rest := s[1..];
      InsertOrders(x, rest);
      forall y | y in Insert(x, rest) ensures Before(s[0], y) {
        InsertMembers(x, rest, y);
        if y != x { var k :| 0 <= k < |rest| && rest[k] == y; }
      }
    }
  }

  lemma {:induction false} SortMembers(s: seq<Ranked>, y: Ranked)
    ensures y in Sort(s) <==> y in s
  {
    if s != [] {
      var n := |s| - 1;
      SortMembers(s[..n], y);
      InsertMembers(s[n], Sort(s[..n]), y);
      assert s == s[..n] + [s[n]];
    }
  }

  lemma {:induction false} SortOrders(s: seq<Ranked>)
    requires forall j, k :: 0 <= j < k < |s| ==> s[j].index != s[k].index
    ensures InOrder(Sort(s))
  {
    if s != [] {
      var n := |s| - 1;
      SortOrders(s[..n]);
      forall y | y in Sort(s[..n]) ensures y.index != s[n].index { SortMembers(s[..n], y); }
      InsertOrders(s[n], Sort(s[..n]));
    }
  }

  /** What `Verdicts` holds. */
  ghost predicate AreVerdicts(letters: Alphabet, tokens: seq<string>, text: string, verdicts: seq<Match>)
  {
    && |verdicts| == |tokens|
    && forall i {:trigger FuzzyMatched(letters, tokens[i], text)} ::
         0 <= i < |tokens| ==> verdicts[i] == FuzzyMatched(letters, tokens[i], text)
  }

  /** One token of an item. */
  method Judge(letters: Alphabet, tokens: seq<string>, text: string, i: nat, ghost verdicts: seq<Match>)
    returns (r: Match)
    requires i < |tokens| && AreVerdicts(letters, tokens, text, verdicts)
    ensures r == verdicts[i]
  {
    r := FuzzyMatch(letters, tokens[i], text);
  }

  lemma TotalNext(verdicts: seq<Match>, i: nat)
    requires i < |verdicts|
    ensures TotalScore(verdicts[..i + 1]) == TotalScore(verdicts[..i]) + verdicts[i].score
  {
    assert verdicts[..i + 1][..i] == verdicts[..i];
  }

  /** The loop over the tokens for one item. */
  method MatchAll(letters: Alphabet, tokens: seq<string>, text: string, ghost verdicts: seq<Match>)
    returns (all: bool, score: int)
    requires AreVerdicts(letters, tokens, text, verdicts)
    ensures all == AllMatch(verdicts)
    ensures all ==> score == TotalScore(verdicts)
  {
    all, score := true, 0;
    for i := 0 to |tokens|
      invariant all && (forall j :: 0 <= j < i ==> verdicts[j].matches) && score == TotalScore(verdicts[..i])
    {
      var matched := Judge(letters, tokens, text, i, verdicts);
      if !matched.matches { return false, score; }
      TotalNext(verdicts, i);
      score := score + matched.score;
    }
    assert verdicts[..|tokens|] == verdicts;
  }

  /** The entry of an item that matches. */
  function RankOf(verdicts: seq<seq<Match>>, i: nat): Ranked
    requires i < |verdicts|
  {
    Ranked(i, TotalScore(verdicts[i]))
  }

  /** `r` lists exactly the items all whose tokens match, in the order of their scores and then of their indices; no
      item is listed twice. */
  ghost predicate IsRanking(verdicts: seq<seq<Match>>, r: seq<nat>)
  {
    && (forall i :: i in r <==> 0 <= i < |verdicts| && AllMatch(verdicts[i]))
    && (forall j, k :: 0 <= j < k < |r| ==>
          r[j] < |verdicts| && r[k] < |verdicts| && Before(RankOf(verdicts, r[j]), RankOf(verdicts, r[k])))
  }

  /** The entries gathered for the first `n` items. */
  ghost predicate Gathers(verdicts: seq<seq<Match>>, n: nat, results: seq<Ranked>)
    requires n <= |verdicts|
  {
    && (forall y :: y in results ==> y.index < n && y == RankOf(verdicts, y.index))
    && (forall i :: 0 <= i < n ==> (RankOf(verdicts, i) in results <==> AllMatch(verdicts[i])))
    && (forall j, k :: 0 <= j < k < |results| ==> results[j].index < results[k].index)
  }

  lemma GathersMatch(verdicts: seq<seq<Match>>, n: nat, results: seq<Ranked>)
    requires n < |verdicts| && Gathers(verdicts, n, results) && AllMatch(verdicts[n])
    ensures Gathers(verdicts, n + 1, results + [RankOf(verdicts, n)])
  {
    var more := results + [RankOf(verdicts, n)];
    assert forall y :: y in more <==> y in results || y == RankOf(verdicts, n);
  }

  lemma GathersMiss(verdicts: seq<seq<Match>>, n: nat, results: seq<Ranked>)
    requires n < |verdicts| && Gathers(verdicts, n, results) && !AllMatch(verdicts[n])
    ensures Gathers(verdicts, n + 1, results)
  {
    assert RankOf(verdicts, n).index == n;
  }

  function Indices(s: seq<Ranked>): (r: seq<nat>)
    ensures |r| == |s| && forall i :: 0 <= i < |s| ==> r[i] == s[i].index
  {
    seq(|s|, i requires 0 <= i < |s| => s[i].index)
  }

  lemma SortRanks(verdicts: seq<seq<Match>>, results: seq<Ranked>)
    requires Gathers(verdicts, |verdicts|, results)
    ensures IsRanking(verdicts, Indices(Sort(results)))
  {
    var sorted := Sort(results);
    var r := Indices(sorted);
    SortOrders(results);
    forall y ensures y in sorted <==> y in results { SortMembers(results, y); }
    forall i ensures i in r <==> 0 <= i < |verdicts| && AllMatch(verdicts[i]) {
      if i in r {
        var k :| 0 <= k < |r| && r[k] == i;
        assert sorted[k] in results;
      }
      if 0 <= i < |verdicts| && AllMatch(verdicts[i]) {
        assert RankOf(verdicts, i) in sorted;
        var k :| 0 <= k < |sorted| && sorted[k] == RankOf(verdicts, i);
        assert r[k] == i;
      }
    }
    forall j, k | 0 <= j < k < |r|
      ensures r[j] < |verdicts| && r[k] < |verdicts| && Before(RankOf(verdicts, r[j]), RankOf(verdicts, r[k]))
    {
      assert sorted[j] in results && sorted[k] in results;
    }
  }

  function AllVerdicts(letters: Alphabet, tokens: seq<string>, texts: seq<string>): (r: seq<seq<Match>>)
    ensures |r| == |texts| && forall i :: 0 <= i < |r| ==> r[i] == Verdicts(letters, tokens, texts[i])
  {
    seq(|texts|, i requires 0 <= i < |texts| => Verdicts(letters, tokens, texts[i]))
  }

  lemma NoTokens(letters: Alphabet, texts: seq<string>)
    ensures IsRanking(AllVerdicts(letters, [], texts), seq(|texts|, i => i))
  {
    var verdicts := AllVerdicts(letters, [], texts);
    assert forall i :: 0 <= i < |verdicts| ==> verdicts[i] == [];
    var r := seq(|texts|, i => i);
    forall i: nat | i < |texts| ensures i in r { assert r[i] == i; }
  }

  method FilterIndices(letters: Alphabet, texts: seq<string>, query: string) returns (r: seq<nat>)
    ensures IsRanking(AllVerdicts(letters, Words(letters, query, ""), texts), r)
  {
    var tokens := Words(letters, query, "");
    if tokens == [] {
      NoTokens(letters, texts);
      return seq(|texts|, i => i);
    }
    ghost var verdicts := AllVerdicts(letters, tokens, texts);
    var results: seq<Ranked> := [];
    for index := 0 to |texts|
      invariant Gathers(verdicts, index, results)
    {
      var all, score := MatchAll(letters, tokens, texts[index], verdicts[index]);
      if all {
        GathersMatch(verdicts, index, results);
        results := results + [Ranked(index, score)];
      } else {
        GathersMiss(verdicts, index, results);
      }
    }
    SortRanks(verdicts, results);
    r := Indices(Sort(results));
  }
}
