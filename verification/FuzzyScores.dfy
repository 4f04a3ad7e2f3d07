/** What fuzzy scores mean: a closed form that counts, and the place of exact matches in a ranking. */
module FuzzyScores {
  import opened Basics
  import opened Fuzzy

  // ---------------------------------------------------------------- the closed form

  function SumOf(at: seq<nat>): nat
  {
    if at == [] then 0 else SumOf(at[..|at| - 1]) + at[|at| - 1]
  }

  /** How many characters lie between the first match and the last one without being matched. */
  function Skipped(at: seq<nat>): int
  {
    if at == [] then 0 else at[|at| - 1] - at[0] + 1 - |at|
  }

  /** A position at the start of the text, or right behind white space or one of five separators. */
  predicate StartsWord(letters: Alphabet, text: string, p: nat)
    requires p < |text|
  {
    p == 0 || letters.isSpace(text[p - 1]) ||
    text[p - 1] == '-' || text[p - 1] == '_' || text[p - 1] == '.' || text[p - 1] == '/' || text[p - 1] == ':'
  }

  /** Which matches start a word. */
  function WordStarts(letters: Alphabet, text: string, at: seq<nat>): set<nat>
    requires Rising(text, at)
  {
    set k: nat | k < |at| && StartsWord(letters, text, at[k])
  }

  /** The earlier matches that match `k` follows without a gap. */
  function InRunWith(at: seq<nat>, k: nat): set<nat>
    requires k < |at|
  {
    set j: nat | j < k && at[j] + (k - j) == at[k]
  }

  /** How many pairs of matches lie in a run of adjacent ones. */
  function Pairs(at: seq<nat>): nat
  {
    if at == [] then 0 else Pairs(at[..|at| - 1]) + |InRunWith(at, |at| - 1)|
  }

  lemma {:induction false} RisesAtLeast(text: string, at: seq<nat>, j: nat, k: nat)
    requires Rising(text, at) && j <= k < |at|
    ensures at[k] - at[j] >= k - j
  {
    if j < k { RisesAtLeast(text, at, j, k - 1); }
  }

  /** The run that a match ends has as many matches before it. */
  lemma {:induction false} RunIs(text: string, at: seq<nat>)
    requires Rising(text, at) && at != []
    ensures Run(at) == |InRunWith(at, |at| - 1)|
  {
    var n := |at| - 1;
    if n > 0 && at[n] == at[n - 1] + 1 {
      RunIs(text, at[..n]);
      RunGrows(at, n);
    } else {
      forall j: nat | j < n ensures j !in InRunWith(at, n) { RisesAtLeast(text, at, j, n - 1); }
      NoneIn(InRunWith(at, n));
    }
  }

  lemma NoneIn(s: set<nat>)
    requires forall j: nat :: j !in s
    ensures |s| == 0
  {
    assert s == {};
  }

  lemma RunGrows(at: seq<nat>, n: nat)
    requires 0 < n < |at| && at[n] == at[n - 1] + 1
    ensures |InRunWith(at, n)| == |InRunWith(at[..n], n - 1)| + 1
  {
    var before := InRunWith(at[..n], n - 1);
    forall j: nat ensures j in InRunWith(at, n) <==> j in before || j == n - 1 {}
    OneMoreElement(InRunWith(at, n), before, n - 1);
  }

  lemma OneMoreElement(s: set<nat>, before: set<nat>, x: nat)
    requires x !in before && forall j: nat :: j in s <==> j in before || j == x
    ensures |s| == |before| + 1
  {
    assert s == before + {x};
  }

  lemma StartsOneMore(letters: Alphabet, text: string, at: seq<nat>)
    requires Rising(text, at) && at != []
    ensures var n := |at| - 1;
            && Rising(text, at[..n])
            && |WordStarts(letters, text, at)| ==
               |WordStarts(letters, text, at[..n])| + if StartsWord(letters, text, at[n]) then 1 else 0
  {
    var n := |at| - 1;
    var before, all := WordStarts(letters, text, at[..n]), WordStarts(letters, text, at);
    forall k: nat ensures k in all <==> k in before || (k == n && StartsWord(letters, text, at[n])) {
      if k < n { assert at[..n][k] == at[k]; }
    }
    if StartsWord(letters, text, at[n]) { OneMoreElement(all, before, n); } else { assert all == before; }
  }

  lemma GainIs(letters: Alphabet, text: string, at: seq<nat>)
    requires Rising(text, at) && at != []
    ensures var n := |at| - 1;
            Gain(letters, text, Last(at[..n]), Run(at), at[n]) ==
            at[n] + 20 * (Skipped(at) - Skipped(at[..n])) - 50 * Run(at)
            - if StartsWord(letters, text, at[n]) then 100 else 0
  {
    var n := |at| - 1;
    if n > 0 { assert Run(at) > 0 <==> at[n] == at[n - 1] + 1; }
  }

  /** The score of a placement by counting: late positions and skipped characters cost, word starts and pairs within a
      run pay. */
  lemma {:induction false} ScoreCounts(letters: Alphabet, text: string, at: seq<nat>)
    requires Rising(text, at)
    ensures PlacementScore(letters, text, at) ==
            SumOf(at) + 20 * Skipped(at) - 100 * |WordStarts(letters, text, at)| - 50 * Pairs(at)
  {
    if at == [] {
      assert WordStarts(letters, text, at) == {};
    } else {
      var n := |at| - 1;
      StartsOneMore(letters, text, at);
      ScoreCounts(letters, text, at[..n]);
      GainIs(letters, text, at);
      RunIs(text, at);
    }
  }

  // ---------------------------------------------------------------- exact matches

  function UpTo(n: nat): (r: seq<nat>)
    ensures |r| == n && forall i :: 0 <= i < n ==> r[i] == i
  {
    seq(n, i => i)
  }

  lemma {:induction false} GreedyExact(query: string, n: nat)
    requires n <= |query|
    ensures Greedy(query, query, n) == UpTo(n)
  {
    if n > 0 { GreedyExact(query, n - 1); }
  }

  lemma {:induction false} RunUpTo(n: nat)
    requires n > 0
    ensures Run(UpTo(n)) == n - 1
  {
    if n > 1 {
      RunUpTo(n - 1);
      assert UpTo(n)[..n - 1] == UpTo(n - 1);
    }
  }

  lemma {:induction false} RunAtMost(at: seq<nat>)
    requires at != []
    ensures Run(at) <= |at| - 1
  {
    if |at| >= 2 && at[|at| - 1] == at[|at| - 2] + 1 { RunAtMost(at[..|at| - 1]); }
  }

  function WordBonus(letters: Alphabet, text: string, p: nat): int
    requires p < |text|
  {
    if p == 0 || IsBoundary(letters, text[p - 1]) then -100 else 0
  }

  /** What match `i` of an exact match adds. */
  lemma GainExact(letters: Alphabet, query: string, i: nat)
    requires i < |query|
    ensures Gain(letters, query, Last(UpTo(i)), Run(UpTo(i + 1)), i) == -50 * i + WordBonus(letters, query, i) + i
  {
    RunUpTo(i + 1);
  }

  /** What match `i` of any other placement adds. It loses to the exact one at most where a second match starts a word
      of its own. */
  lemma GainAtLeast(letters: Alphabet, query: string, text: string, at: seq<nat>, i: nat)
    requires Places(query, text, at) && i < |at|
    ensures Rising(text, at) && (i > 0 ==> at[i - 1] < at[i])
    ensures Gain(letters, text, Last(at[..i]), Run(at[..i + 1]), at[i]) >=
            -50 * i + WordBonus(letters, query, i) + i - if i == 1 then 29 else 0
  {
    var run := Run(at[..i + 1]);
    RunAtMost(at[..i + 1]);
    RisesAtLeast(text, at, 0, i);
    if i > 0 {
      assert at[..i + 1][..i] == at[..i];
      assert run > 0 <==> at[i] == at[i - 1] + 1;
      if run > 0 {
        assert text[at[i] - 1] == query[i - 1];
      } else {
        RisesAtLeast(text, at, 0, i - 1);
        assert at[i] >= i + 1;
      }
    }
  }

  lemma ScoreOneMore(letters: Alphabet, text: string, at: seq<nat>, k: nat)
    requires Rising(text, at) && k < |at|
    ensures Rising(text, at[..k]) && Rising(text, at[..k + 1])
    ensures (Last(at[..k]).Some? ==> Last(at[..k]).value < at[k])
    ensures PlacementScore(letters, text, at[..k + 1]) ==
            PlacementScore(letters, text, at[..k]) + Gain(letters, text, Last(at[..k]), Run(at[..k + 1]), at[k])
  {
    assert at[..k + 1][..k] == at[..k];
  }

  /** No placement scores more than 29 below the exact one. */
  lemma {:induction false} ScoreAtLeast(letters: Alphabet, query: string, text: string, at: seq<nat>, k: nat)
    requires Places(query, text, at) && k <= |at|
    ensures Rising(text, at[..k]) && Rising(query, UpTo(k))
    ensures PlacementScore(letters, text, at[..k]) >=
            PlacementScore(letters, query, UpTo(k)) - if k >= 2 then 29 else 0
  {
    if k > 0 {
      ScoreAtLeast(letters, query, text, at, k - 1);
      StepAtLeast(letters, query, text, at, k - 1);
    }
  }

  lemma StepAtLeast(letters: Alphabet, query: string, text: string, at: seq<nat>, k: nat)
    requires Places(query, text, at) && k < |at|
    ensures Rising(text, at[..k]) && Rising(text, at[..k + 1]) && Rising(query, UpTo(k)) && Rising(query, UpTo(k + 1))
    ensures PlacementScore(letters, text, at[..k + 1]) - PlacementScore(letters, text, at[..k]) >=
            PlacementScore(letters, query, UpTo(k + 1)) - PlacementScore(letters, query, UpTo(k))
            - if k == 1 then 29 else 0
  {
    ScoreOneMore(letters, text, at, k);
    ExactOneMore(letters, query, k);
    GainAtLeast(letters, query, text, at, k);
  }

  lemma ExactOneMore(letters: Alphabet, query: string, k: nat)
    requires k < |query|
    ensures Rising(query, UpTo(k)) && Rising(query, UpTo(k + 1))
    ensures PlacementScore(letters, query, UpTo(k + 1)) ==
            PlacementScore(letters, query, UpTo(k)) - 50 * k + WordBonus(letters, query, k) + k
  {
    assert UpTo(k + 1)[..k] == UpTo(k);
    GainExact(letters, query, k);
  }

  /** A text that is the query itself scores better than every other text that has it. */
  lemma ExactIsBest(letters: Alphabet, query: string, text: string)
    requires query != "" && text != query && IsSubsequence(query, text)
    ensures Matched(letters, query, query).matches && Matched(letters, query, text).matches
    ensures Matched(letters, query, query).score < Matched(letters, query, text).score - 900
  {
    var at := Greedy(query, text, |text|);
    GreedyDecides(query, text);
    GreedyPlaces(query, text, |text|);
    GreedyExact(query, |query|);
    assert at[..|query|] == at;
    ScoreAtLeast(letters, query, text, at, |query|);
  }

  /** No letter and no digit is white space. */
  ghost predicate Ordinary(letters: Alphabet)
  {
    forall c: char :: IsLetter(c) || IsDigit(c) ==> !letters.isSpace(c)
  }

  predicate LettersAndDigits(s: string) { forall i :: 0 <= i < |s| ==> IsLetter(s[i]) || IsDigit(s[i]) }

  /** An exact match of letters and digits scores by its length alone. */
  lemma {:induction false} ExactByLength(letters: Alphabet, a: string, b: string, k: nat)
    requires Ordinary(letters) && LettersAndDigits(a) && LettersAndDigits(b) && k <= |a| && k <= |b|
    ensures Rising(a, UpTo(k)) && Rising(b, UpTo(k))
    ensures PlacementScore(letters, a, UpTo(k)) == PlacementScore(letters, b, UpTo(k))
  {
    if k > 0 {
      ExactByLength(letters, a, b, k - 1);
      ExactOneMore(letters, a, k - 1);
      ExactOneMore(letters, b, k - 1);
      if k > 1 { assert !IsBoundary(letters, a[k - 2]) && !IsBoundary(letters, b[k - 2]); }
    }
  }

  /** The score of an exact match. */
  lemma ExactScore(letters: Alphabet, query: string)
    requires query != ""
    ensures Rising(query, UpTo(|query|))
    ensures Matched(letters, query, query) == Match(true, PlacementScore(letters, query, UpTo(|query|)) - 1000)
  {
    GreedyExact(query, |query|);
    GreedyPlaces(query, query, |query|);
  }

  /** A query of two parts and its swap score the same where they match exactly. */
  lemma SwapScoresSame(letters: Alphabet, query: string)
    requires Ordinary(letters) && Swapped(query).Some?
    ensures query != "" && Swapped(query).value != ""
    ensures Matched(letters, query, query) == Matched(letters, Swapped(query).value, Swapped(query).value)
  {
    var first, second := SwapHasTwoParts(query);
    var swap := second + first;
    assert LettersAndDigits(query) && LettersAndDigits(swap) && |query| == |swap|;
    ExactScore(letters, query);
    ExactScore(letters, swap);
    ExactByLength(letters, query, swap, |query|);
  }

  /** With the query the other way round: an exact text is still the best. */
  lemma ExactBeatsSwapped(letters: Alphabet, query: string, text: string)
    requires Ordinary(letters) && text != query && Swapped(query).Some?
    requires Matched(letters, Swapped(query).value, text).matches
    ensures Matched(letters, query, query).matches
    ensures Matched(letters, query, query).score < Matched(letters, Swapped(query).value, text).score + 50
  {
    SwapScoresSame(letters, query);
    ExactScore(letters, query);
    if text != Swapped(query).value {
      GreedyDecides(Swapped(query).value, text);
      ExactIsBest(letters, Swapped(query).value, text);
    }
  }

  /** A text that reads like the query scores better than every text that does not. */
  lemma ExactReadsBest(letters: Alphabet, query: string, exact: string, text: string)
    requires Ordinary(letters) && letters.lower(query) != "" && letters.lower(exact) == letters.lower(query)
    requires letters.lower(text) != letters.lower(query) && FuzzyMatched(letters, query, text).matches
    ensures FuzzyMatched(letters, query, exact).matches
    ensures FuzzyMatched(letters, query, exact).score < FuzzyMatched(letters, query, text).score
  {
    var q, t := letters.lower(query), letters.lower(text);
    ExactScore(letters, q);
    GreedyDecides(q, t);
    if Matched(letters, q, t).matches {
      ExactIsBest(letters, q, t);
    } else {
      ExactBeatsSwapped(letters, q, t);
    }
  }

  /** And so it comes before them in every ranking for a query of one word. */
  lemma ExactComesFirst(letters: Alphabet, query: string, texts: seq<string>, r: seq<nat>, j: nat, k: nat)
    requires Ordinary(letters) && letters.lower(query) != ""
    requires IsRanking(AllVerdicts(letters, [query], texts), r) && j < |r| && k < |r|
    requires r[j] < |texts| && letters.lower(texts[r[j]]) == letters.lower(query)
    requires r[k] < |texts| && letters.lower(texts[r[k]]) != letters.lower(query)
    ensures j < k
  {
    var verdicts := AllVerdicts(letters, [query], texts);
    assert r[k] in r && AllMatch(verdicts[r[k]]);
    OneVerdict(letters, query, texts[r[j]]);
    OneVerdict(letters, query, texts[r[k]]);
    assert verdicts[r[k]][0].matches;
    ExactReadsBest(letters, query, texts[r[j]], texts[r[k]]);
    BetterIsBefore(verdicts, r, j, k);
  }

  lemma BetterIsBefore(verdicts: seq<seq<Match>>, r: seq<nat>, j: nat, k: nat)
    requires IsRanking(verdicts, r) && j < |r| && k < |r| && r[j] < |verdicts| && r[k] < |verdicts|
    requires TotalScore(verdicts[r[j]]) < TotalScore(verdicts[r[k]])
    ensures j < k
  {
  }

  lemma OneVerdict(letters: Alphabet, query: string, text: string)
    ensures var verdicts := Verdicts(letters, [query], text);
            verdicts[0] == FuzzyMatched(letters, query, text) && TotalScore(verdicts) == verdicts[0].score
  {
    assert Verdicts(letters, [query], text)[..0] == [];
  }

  /** What a ranking is, token by token: an item is in it exactly when every token is found in it as it is or the other
      way round; better sums come first, and items with equal sums stay in their order. */
  lemma RankingMeans(letters: Alphabet, tokens: seq<string>, texts: seq<string>, r: seq<nat>)
    requires IsRanking(AllVerdicts(letters, tokens, texts), r)
    ensures forall i :: i in r <==>
                          0 <= i < |texts| && forall k :: 0 <= k < |tokens| ==> Found(letters, tokens[k], texts[i])
    ensures forall j, k :: 0 <= j < k < |r| ==> Precedes(letters, tokens, texts, r[j], r[k])
  {
    var verdicts := AllVerdicts(letters, tokens, texts);
    forall i | 0 <= i < |texts|
      ensures AllMatch(verdicts[i]) <==> forall k :: 0 <= k < |tokens| ==> Found(letters, tokens[k], texts[i])
    {
      AllFound(letters, tokens, texts[i]);
    }
    forall j, k | 0 <= j < k < |r| ensures Precedes(letters, tokens, texts, r[j], r[k]) {
      assert r[j] < |verdicts| && r[k] < |verdicts| && Before(RankOf(verdicts, r[j]), RankOf(verdicts, r[k]));
    }
  }

  ghost predicate Precedes(letters: Alphabet, tokens: seq<string>, texts: seq<string>, i: nat, j: nat)
  {
    && i < |texts| && j < |texts|
    && var a := TotalScore(Verdicts(letters, tokens, texts[i]));
    var b := TotalScore(Verdicts(letters, tokens, texts[j]));
    a < b || (a == b && i < j)
  }

  ghost predicate Found(letters: Alphabet, token: string, text: string)
  {
    var q, t := letters.lower(token), letters.lower(text);
    IsSubsequence(q, t) || (Swapped(q).Some? && IsSubsequence(Swapped(q).value, t))
  }

  lemma AllFound(letters: Alphabet, tokens: seq<string>, text: string)
    ensures AllMatch(Verdicts(letters, tokens, text)) <==>
            forall k :: 0 <= k < |tokens| ==> Found(letters, tokens[k], text)
  {
    var verdicts := Verdicts(letters, tokens, text);
    forall k | 0 <= k < |tokens| ensures verdicts[k].matches <==> Found(letters, tokens[k], text) {
      FuzzyMatchesExactly(letters, tokens[k], text);
    }
  }

  // ---------------------------------------------------------------- sums over tokens

  /** The score of an item is the sum over its tokens, however they are grouped. */
  lemma {:induction false} TotalAdds(a: seq<Match>, b: seq<Match>)
    ensures TotalScore(a + b) == TotalScore(a) + TotalScore(b)
  {
    if b == [] {
      assert a + b == a;
    } else {
      var n := |b| - 1;
      assert (a + b)[..|a| + n] == a + b[..n];
      TotalAdds(a, b[..n]);
    }
  }
}
