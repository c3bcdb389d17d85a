/** The performance engine and the text generator (src/utils/logic.ts).
    Rates are computed over `real`; JavaScript's floating point (NaN, Infinity)
    is not modelled, so a truthy start must lie strictly before the clock. */
module Logic {
  import opened Types

  /** JavaScript's Math.round: the nearest integer, a half rounded up. */
  function Round(x: real): (r: int)
    ensures x - 0.5 < r as real <= x + 0.5
  {
    (x + 0.5).Floor
  }

  lemma RoundMonotone(x: real, y: real)
    requires x <= y
    ensures Round(x) <= Round(y)
  {
  }

  lemma RoundOfInt(n: int)
    ensures Round(n as real) == n
  {
  }

  /** `Math.max` on two integers. */
  function Max(a: int, b: int): (m: int)
    ensures a <= m && b <= m && (m == a || m == b)
  {
    if a < b then b else a
  }

  /** `Math.min` on two numbers. */
  function MinReal(a: real, b: real): (m: real)
    ensures m <= a && m <= b && (m == a || m == b)
  {
    if a < b then a else b
  }

  /** JavaScript truthiness of `startTime: number | null`: null and 0 are falsy. */
  predicate Truthy(t: Option<int>) { t.Some? && t.value != 0 }

  /** calculateStats, with the wall clock passed in as `now` (milliseconds). */
  function CalculateStats(correctChars: int, totalTyped: int, startTime: Option<int>, now: int): (s: Stats)
    requires Truthy(startTime) ==> now > startTime.value
    ensures !Truthy(startTime) ==> s == Stats(0, 0, 100, 0, 0, 0)
    ensures s.wpm >= 0
    ensures Truthy(startTime) ==> s.correctChars == correctChars
    ensures Truthy(startTime) ==> s.incorrectChars == totalTyped - correctChars
    ensures totalTyped <= 0 ==> s.accuracy == 100
    ensures Truthy(startTime) && totalTyped > 0 ==>
      s.accuracy == Round((correctChars as real / totalTyped as real) * 100.0)
    ensures 0 <= correctChars <= totalTyped ==> 0 <= s.accuracy <= 100
  {
    if !Truthy(startTime) then
      Stats(0, 0, 100, 0, 0, 0)
    else
      var elapsedSec := (now - startTime.value) as real / 1000.0;
      var elapsedMin := elapsedSec / 60.0;
      var gross := (totalTyped as real / 5.0) / elapsedMin;
      var errors := totalTyped - correctChars;
      var net := gross - errors as real / elapsedMin;
      var accuracy := if totalTyped > 0 then (correctChars as real / totalTyped as real) * 100.0 else 100.0;
      AccuracyBounds(correctChars, totalTyped);
      Stats(Max(0, Round(net)), Round(gross), Round(accuracy), correctChars, errors, Round(elapsedSec))
  }

  lemma AccuracyBounds(correctChars: int, totalTyped: int)
    ensures 0 <= correctChars <= totalTyped && totalTyped > 0 ==>
      0 <= Round((correctChars as real / totalTyped as real) * 100.0) <= 100
  {
    if 0 <= correctChars <= totalTyped && totalTyped > 0 {
      var q := correctChars as real / totalTyped as real;
      assert 0.0 <= q <= 1.0;
      RoundMonotone(0.0, q * 100.0);
      RoundMonotone(q * 100.0, 100.0);
      RoundOfInt(0);
      RoundOfInt(100);
    }
  }

  /** The rates in closed form over the elapsed milliseconds `ms`: a word is five
      keystrokes, so the gross rate is 12000 keystrokes per ms-minute, and every
      erroneous keystroke costs one word per minute. */
  lemma {:induction false} RatesClosedForm(correctChars: int, totalTyped: int, start: int, now: int)
    requires start != 0 && now > start
    ensures var s := CalculateStats(correctChars, totalTyped, Some(start), now);
      var ms := (now - start) as real;
      && s.rawWpm == Round((12000 * totalTyped) as real / ms)
      && s.wpm == Max(0, Round((60000 * correctChars - 48000 * totalTyped) as real / ms))
      && s.timeElapsed == Round(ms / 1000.0)
  {
    var ms := (now - start) as real;
    var m := ms / 1000.0 / 60.0;
    assert m == ms / 60000.0;
    var gross := (totalTyped as real / 5.0) / m;
    assert gross == (12000 * totalTyped) as real / ms;
    var errors := totalTyped - correctChars;
    assert errors as real / m == (60000 * errors) as real / ms;
    assert gross - errors as real / m == (60000 * correctChars - 48000 * totalTyped) as real / ms;
  }

  lemma DivideMonotone(a: real, b: real, d: real)
    requires a <= b && d > 0.0
    ensures a / d <= b / d
  {
  }

  /** With no more errors than keystrokes, the net rate never exceeds the gross rate. */
  lemma {:induction false} NetAtMostGross(correctChars: int, totalTyped: int, startTime: Option<int>, now: int)
    requires Truthy(startTime) ==> now > startTime.value
    requires correctChars <= totalTyped
    ensures var s := CalculateStats(correctChars, totalTyped, startTime, now);
      s.wpm <= Max(0, s.rawWpm)
  {
    if Truthy(startTime) {
      var start := startTime.value;
      var ms := (now - start) as real;
      RatesClosedForm(correctChars, totalTyped, start, now);
      var net := (60000 * correctChars - 48000 * totalTyped) as real / ms;
      var gross := (12000 * totalTyped) as real / ms;
      assert 60000 * correctChars - 48000 * totalTyped <= 12000 * totalTyped;
      DivideMonotone((60000 * correctChars - 48000 * totalTyped) as real, (12000 * totalTyped) as real, ms);
      RoundMonotone(net, gross);
    }
  }

  /** The two one-minute examples: a clean run of 100 keystrokes is 20 wpm,
      and 20 errors out of 100 cancel the 20 gross words entirely. */
  lemma OneMinuteExamples(start: int)
    requires start != 0
    ensures CalculateStats(100, 100, Some(start), start + 60000) == Stats(20, 20, 100, 100, 0, 60)
    ensures CalculateStats(80, 100, Some(start), start + 60000) == Stats(0, 20, 80, 80, 20, 60)
  {
    RatesClosedForm(100, 100, start, start + 60000);
    RatesClosedForm(80, 100, start, start + 60000);
    assert (12000 * 100) as real / 60000.0 == 20.0;
    RoundOfInt(20);
    RoundOfInt(0);
    RoundOfInt(60);
    RoundOfInt(80);
    RoundOfInt(100);
  }

  /** Array.prototype.join with a single space. */
  function Join(words: seq<string>): (s: string)
    ensures |words| == 0 ==> s == ""
    ensures |words| > 0 ==> words[0] <= s
    ensures forall c :: c in s && c != ' ' ==> exists k :: 0 <= k < |words| && c in words[k]
  {
    if |words| == 0 then ""
    else if |words| == 1 then words[0]
    else words[0] + " " + Join(words[1..])
  }

  /** String.prototype.split(' '): a string without spaces is one token, so the
      empty string splits into one empty token. */
  function Split(s: string): (tokens: seq<string>)
    ensures |tokens| >= 1
  {
    if |s| == 0 then [""]
    else
      var rest := Split(s[1..]);
      if s[0] == ' ' then [""] + rest else [[s[0]] + rest[0]] + rest[1..]
  }

  predicate NoSpaces(words: seq<string>)
  {
    forall k :: 0 <= k < |words| ==> ' ' !in words[k]
  }

  lemma {:induction false} SplitWord(w: string)
    requires ' ' !in w
    ensures Split(w) == [w]
  {
    if |w| > 0 {
      SplitWord(w[1..]);
      assert [w[0]] + w[1..] == w;
    }
  }

  lemma {:induction false} SplitWordThenRest(w: string, rest: string)
    requires ' ' !in w
    ensures Split(w + " " + rest) == [w] + Split(rest)
  {
    var s := w + " " + rest;
    if |w| == 0 {
      assert s[1..] == rest;
    } else {
      assert s[1..] == w[1..] + " " + rest;
      SplitWordThenRest(w[1..], rest);
      assert [w[0]] + w[1..] == w;
    }
  }

  /** Splitting a join of at least one space-free word gives the words back. */
  lemma {:induction false} SplitJoin(words: seq<string>)
    requires |words| >= 1 && NoSpaces(words)
    ensures Split(Join(words)) == words
  {
    if |words| == 1 {
      SplitWord(words[0]);
    } else {
      SplitJoin(words[1..]);
      SplitWordThenRest(words[0], Join(words[1..]));
      assert [words[0]] + words[1..] == words;
    }
  }

  /** The words that the index picks select from the word list. */
  function Picked(wordList: seq<string>, picks: seq<nat>): (selected: seq<string>)
    requires forall k :: 0 <= k < |picks| ==> picks[k] < |wordList|
    ensures |selected| == |picks|
    ensures forall k :: 0 <= k < |picks| ==> selected[k] in wordList
  {
    seq(|picks|, k requires 0 <= k < |picks| => wordList[picks[k]])
  }

  /** generateText: `picks[i]` is the index the random source chose for word i. */
  method GenerateText(wordCount: nat, wordList: seq<string>, picks: seq<nat>) returns (text: string)
    requires |picks| == wordCount
    requires forall k :: 0 <= k < |picks| ==> picks[k] < |wordList|
    ensures text == Join(Picked(wordList, picks))
    ensures wordCount == 0 ==> text == ""
    ensures wordCount > 0 && NoSpaces(wordList) ==>
      var tokens := Split(text);
      |tokens| == wordCount && forall k :: 0 <= k < |tokens| ==> tokens[k] == wordList[picks[k]]
  {
    var selected: seq<string> := [];
    var i := 0;
    while i < wordCount
      invariant 0 <= i <= wordCount
      invariant selected == Picked(wordList, picks[..i])
    {
      selected := selected + [wordList[picks[i]]];
      i := i + 1;
    }
    assert picks[..wordCount] == picks;
    text := Join(selected);
    if wordCount > 0 && NoSpaces(wordList) {
      forall k | 0 <= k < |selected| ensures ' ' !in selected[k] {
      }
      SplitJoin(selected);
    }
  }
}
