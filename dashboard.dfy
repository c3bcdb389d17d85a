/** The aggregates of the history view (src/components/Dashboard.tsx), over the saved
    results taken as a plain sequence, oldest first. */
module Dashboard {
  import opened Types
  import opened Logic

  /** `history.reduce((acc, curr) => acc + curr.wpm, 0)`, folded from the left. */
  function SumWpm(history: seq<TestResult>): (total: int)
    ensures |history| == 0 ==> total == 0
  {
    if |history| == 0 then 0 else SumWpm(history[..|history| - 1]) + history[|history| - 1].stats.wpm
  }

  /** The fold splits over concatenation, so the order the results were saved in does
      not matter to the total. */
  lemma {:induction false} SumWpmConcat(a: seq<TestResult>, b: seq<TestResult>)
    ensures SumWpm(a + b) == SumWpm(a) + SumWpm(b)
  {
    if |b| > 0 {
      assert (a + b)[..|a + b| - 1] == a + b[..|b| - 1];
      SumWpmConcat(a, b[..|b| - 1]);
    } else {
      assert a + b == a;
    }
  }

  lemma ScaleBounds(x: real, lo: real, hi: real, n: real)
    requires lo <= x < hi && n > 0.0
    ensures lo * n <= x * n < hi * n
  {
  }

  /** Rounding a mean to the nearest integer, scaled back by the count. */
  lemma RoundedMeanBounds(sum: real, n: real)
    requires n > 0.0
    ensures var avg := Round(sum / n) as real;
      (avg - 0.5) * n <= sum < (avg + 0.5) * n
  {
    var mean := sum / n;
    var avg := Round(mean) as real;
    assert avg - 0.5 <= mean < avg + 0.5;
    ScaleBounds(mean, avg - 0.5, avg + 0.5, n);
    assert mean * n == sum;
    assert sum < (avg + 0.5) * n;
  }

  /** Average WPM: 0 for an empty history, otherwise the mean rounded half up. */
  function AvgWpm(history: seq<TestResult>): (avg: int)
    ensures |history| == 0 ==> avg == 0
    ensures |history| > 0 ==>
      var n := |history| as real;
      (avg as real - 0.5) * n <= SumWpm(history) as real < (avg as real + 0.5) * n
  {
    if |history| == 0 then 0
    else
      var avg := Round(SumWpm(history) as real / |history| as real);
      RoundedMeanBounds(SumWpm(history) as real, |history| as real);
      avg
  }

  /** `Math.max(...history.map(h => h.wpm))` on a non-empty history. */
  function MaxOf(history: seq<TestResult>): (best: int)
    requires |history| > 0
    ensures forall i :: 0 <= i < |history| ==> history[i].stats.wpm <= best
    ensures exists i :: 0 <= i < |history| && history[i].stats.wpm == best
  {
    if |history| == 1 then history[0].stats.wpm
    else
      var rest := MaxOf(history[1..]);
      assert forall i :: 1 <= i < |history| ==> history[i] == history[1..][i - 1];
      if history[0].stats.wpm >= rest then history[0].stats.wpm else rest
  }

  /** Best WPM: 0 for an empty history. */
  function MaxWpm(history: seq<TestResult>): (best: int)
    ensures |history| == 0 ==> best == 0
    ensures forall i :: 0 <= i < |history| ==> history[i].stats.wpm <= best
    ensures |history| > 0 ==> exists i :: 0 <= i < |history| && history[i].stats.wpm == best
  {
    if |history| == 0 then 0 else MaxOf(history)
  }

  lemma {:induction false} SumAtMostCountTimesBound(history: seq<TestResult>, bound: int)
    requires forall i :: 0 <= i < |history| ==> history[i].stats.wpm <= bound
    ensures SumWpm(history) <= |history| * bound
  {
    if |history| > 0 {
      SumAtMostCountTimesBound(history[..|history| - 1], bound);
    }
  }

  lemma MeanAtMost(sum: int, n: int, bound: int)
    requires n > 0 && sum <= n * bound
    ensures sum as real / n as real <= bound as real
  {
    assert sum as real <= n as real * bound as real;
    DivideMonotone(sum as real, n as real * bound as real, n as real);
  }

  /** On a non-empty history the average never exceeds the best. */
  lemma AvgAtMostBest(history: seq<TestResult>)
    requires |history| > 0
    ensures AvgWpm(history) <= MaxWpm(history)
  {
    var n := |history|;
    var best := MaxWpm(history);
    SumAtMostCountTimesBound(history, best);
    MeanAtMost(SumWpm(history), n, best);
    RoundMonotone(SumWpm(history) as real / n as real, best as real);
    RoundOfInt(best);
  }

  /** Array.prototype.reverse on a copy. */
  function Reverse<T>(s: seq<T>): (r: seq<T>)
    ensures |r| == |s|
  {
    if |s| == 0 then [] else [s[|s| - 1]] + Reverse(s[..|s| - 1])
  }

  lemma {:induction false} ReverseIndex<T>(s: seq<T>, k: nat)
    requires k < |s|
    ensures Reverse(s)[k] == s[|s| - 1 - k]
  {
    if k > 0 {
      ReverseIndex(s[..|s| - 1], k - 1);
    }
  }

  /** Recent activity: `history.slice().reverse().slice(0, 5)`, the newest first. */
  function Recent(history: seq<TestResult>): (recent: seq<TestResult>)
    ensures |recent| == if |history| < 5 then |history| else 5
    ensures forall k :: 0 <= k < |recent| ==> recent[k] == history[|history| - 1 - k]
  {
    var reversed := Reverse(history);
    var recent := reversed[..if |history| < 5 then |history| else 5];
    forall k | 0 <= k < |recent| ensures recent[k] == history[|history| - 1 - k] {
      ReverseIndex(history, k);
    }
    recent
  }

  /** The three cards and the recent-activity table. */
  datatype Summary = Summary(testsTaken: nat, avgWpm: int, bestWpm: int, recent: seq<TestResult>)

  function Summarize(history: seq<TestResult>): (s: Summary)
    ensures s.testsTaken == |history|
    ensures s.avgWpm == AvgWpm(history) && s.bestWpm == MaxWpm(history) && s.recent == Recent(history)
    ensures |history| == 0 ==> s == Summary(0, 0, 0, [])
    ensures |history| > 0 ==> s.avgWpm <= s.bestWpm
    ensures |s.recent| == if |history| < 5 then |history| else 5
    ensures |history| > 0 ==> s.recent[0] == history[|history| - 1]
  {
    var s := Summary(|history|, AvgWpm(history), MaxWpm(history), Recent(history));
    if |history| > 0 then AvgAtMostBest(history); s else s
  }
}
