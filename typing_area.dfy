/** The keystroke handling of the typing component (src/components/TypingArea.tsx):
    the per-keystroke scoring, the start-time latch, the completion test, the
    reset on a new text, and the classification of each text character for display. */
module Typing {
  import opened Types
  import opened Logic

  /** Positions below `n` where the input agrees with the text; a position past the
      end of the text never agrees (the text's character there is undefined). */
  ghost function MatchesBelow(typed: string, text: string, n: nat): set<nat>
  {
    set i: nat | i < n && i < |typed| && i < |text| && typed[i] == text[i]
  }

  /** Every position of the input that agrees with the text. */
  ghost function MatchPositions(typed: string, text: string): set<nat>
  {
    MatchesBelow(typed, text, |typed|)
  }

  lemma {:induction false} MatchesBelowBound(typed: string, text: string, n: nat)
    ensures |MatchesBelow(typed, text, n)| <= n
  {
    if n > 0 {
      MatchesBelowBound(typed, text, n - 1);
      var below := MatchesBelow(typed, text, n - 1);
      var k := n - 1;
      if k < |typed| && k < |text| && typed[k] == text[k] {
        assert MatchesBelow(typed, text, n) == below + {k};
      } else {
        assert MatchesBelow(typed, text, n) == below;
      }
    }
  }

  /** The correct-character loop of handleInput. */
  method CountCorrect(val: string, text: string) returns (correct: nat)
    ensures correct == |MatchPositions(val, text)|
    ensures correct <= |val| && correct <= |text|
  {
    correct := 0;
    var i := 0;
    while i < |val|
      invariant 0 <= i <= |val|
      invariant correct == |MatchesBelow(val, text, i)|
    {
      ghost var before := MatchesBelow(val, text, i);
      if i < |text| && val[i] == text[i] {
        assert MatchesBelow(val, text, i + 1) == before + {i};
        assert i !in before;
        correct := correct + 1;
      } else {
        assert MatchesBelow(val, text, i + 1) == before;
      }
      i := i + 1;
    }
    MatchesBelowBound(val, text, |val|);
    MatchesBelowBound(text, val, |text|);
    assert MatchesBelow(val, text, |val|) == MatchesBelow(text, val, |text|);
  }

  /** `if (!startTime) setStartTime(now)`: the start a keystroke at `now` leaves. The
      stats of that keystroke are taken from the same start (`startTime || now`); the
      source reads the clock separately for the latch and for `startTime || Date.now()`,
      and the model takes both readings as the one instant `now`. */
  function Latch(startTime: Option<int>, now: int): (start: Option<int>)
    ensures Truthy(startTime) ==> start == startTime
    ensures !Truthy(startTime) ==> start == Some(now)
    ensures now != 0 ==> Truthy(start)
  {
    if Truthy(startTime) then startTime else Some(now)
  }

  /** The start time left by a run of keystrokes at the given instants. */
  function LatchAll(startTime: Option<int>, instants: seq<int>): (start: Option<int>)
    decreases |instants|
  {
    if |instants| == 0 then startTime else LatchAll(Latch(startTime, instants[0]), instants[1..])
  }

  lemma {:induction false} LatchKeeps(startTime: Option<int>, instants: seq<int>)
    requires Truthy(startTime)
    ensures LatchAll(startTime, instants) == startTime
  {
    if |instants| > 0 {
      LatchKeeps(startTime, instants[1..]);
    }
  }

  /** Starting unset, the start time is the instant of the first keystroke, and no
      later keystroke moves it. */
  lemma {:induction false} FirstKeystrokeStarts(instants: seq<int>)
    requires |instants| > 0 && instants[0] != 0
    ensures LatchAll(None, instants) == Some(instants[0])
  {
    LatchKeeps(Some(instants[0]), instants[1..]);
  }

  /** How renderText shows one character of the text. */
  datatype CharClass = Cursor | Untyped | Correct | Incorrect

  function Classify(text: string, typed: string, index: nat): (c: CharClass)
    requires index < |text|
    ensures c == Cursor <==> index == |typed|
    ensures c == Untyped <==> index > |typed|
    ensures c == Correct <==> index < |typed| && typed[index] == text[index]
    ensures c == Incorrect <==> index < |typed| && typed[index] != text[index]
  {
    if index == |typed| then Cursor
    else if index >= |typed| then Untyped
    else if typed[index] == text[index] then Correct
    else Incorrect
  }

  /** renderText: one class per character of the text. */
  function Render(text: string, typed: string): (classes: seq<CharClass>)
    ensures |classes| == |text|
    ensures forall i :: 0 <= i < |text| ==> classes[i] == Classify(text, typed, i)
  {
    seq(|text|, i requires 0 <= i < |text| => Classify(text, typed, i))
  }

  /** The display shows a cursor exactly when the input is shorter than the text,
      and at one position only. */
  lemma RenderHasOneCursor(text: string, typed: string)
    ensures var classes := Render(text, typed);
      (exists i :: 0 <= i < |text| && classes[i] == Cursor) <==> |typed| < |text|
    ensures var classes := Render(text, typed);
      forall i, j :: 0 <= i < |text| && 0 <= j < |text| && classes[i] == Cursor && classes[j] == Cursor ==> i == j
  {
    var classes := Render(text, typed);
    if |typed| < |text| {
      assert classes[|typed|] == Cursor;
    }
  }

  /** The characters shown as correct are exactly the ones the scoring loop counts. */
  lemma RenderAgreesWithCount(text: string, typed: string)
    ensures var classes := Render(text, typed);
      (set i: nat | i < |text| && classes[i] == Correct) == MatchPositions(typed, text)
  {
  }

  /** The component's state: the `text` and `active` props and the three state hooks. */
  class TypingArea {
    var text: string
    var active: bool
    var typedHistory: string
    var startTime: Option<int>
    var correctCharCount: nat

    /** Mounting: the state hooks start empty (and the reset effect runs once). */
    constructor (text: string, active: bool)
      ensures this.text == text && this.active == active
      ensures typedHistory == "" && startTime == None && correctCharCount == 0
    {
      this.text := text;
      this.active := active;
      typedHistory := "";
      startTime := None;
      correctCharCount := 0;
    }

    /** The parent renders with new props; a changed text runs the reset effect. */
    method ReceiveProps(newText: string, newActive: bool)
      modifies this
      ensures text == newText && active == newActive
      ensures newText != old(text) ==> typedHistory == "" && startTime == None && correctCharCount == 0
      ensures newText == old(text) ==>
        typedHistory == old(typedHistory) && startTime == old(startTime) && correctCharCount == old(correctCharCount)
    {
      if newText != text {
        typedHistory := "";
        startTime := None;
        correctCharCount := 0;
      }
      text := newText;
      active := newActive;
    }

    /** handleInput for an input value `val` arriving at `now`; `clock` is the later
        reading that calculateStats takes of the wall clock. `stats` is what is handed
        to onStatsUpdate, and `completed` says whether the completion check passed. */
    method HandleInput(val: string, now: int, clock: int) returns (stats: Option<Stats>, completed: bool)
      requires active && Truthy(Latch(startTime, now)) ==> clock > Latch(startTime, now).value
      modifies this
      ensures text == old(text) && active == old(active)
      ensures !active ==> stats == None && !completed
      ensures !active ==>
        typedHistory == old(typedHistory) && startTime == old(startTime) && correctCharCount == old(correctCharCount)
      ensures active ==> typedHistory == val && startTime == Latch(old(startTime), now)
      ensures active ==> correctCharCount == |MatchPositions(val, text)|
      ensures active ==> stats == Some(CalculateStats(correctCharCount, |val|, Latch(old(startTime), now), clock))
      ensures active ==> (completed <==> |val| >= |text|)
    {
      if !active {
        return None, false;
      }
      var start := Latch(startTime, now);
      startTime := start;
      typedHistory := val;
      var correct := CountCorrect(val, text);
      correctCharCount := correct;
      stats := Some(CalculateStats(correct, |val|, start, clock));
      completed := |val| >= |text|;
    }
  }
}
