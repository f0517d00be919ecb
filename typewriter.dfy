/**
 * The hero typewriter: a phrase is typed one character per tick, held,
 * deleted one character per tick, and the next phrase (cyclically) follows.
 * Each tick also chooses the delay before the next tick.
 *
 * `Step` is the pure transition on a `State`; the class `Typewriter` keeps the
 * same four variables as fields and its `Tick` is proved to perform `Step`.
 */
module Typewriter {

  const TypeSpeed := 60
  const DeleteSpeed := 35
  const PauseAfterType := 2200
  const PauseAfterDelete := 400

  /** The phrases the page cycles through. */
  const Phrases: seq<string> := [
    "construyo productos con IA.",
    "enseño a otros a hacerlo.",
    "estudio por qué funciona.",
    "combino estrategia y código."
  ]

  datatype State = State(phraseIdx: int, charIdx: int, deleting: bool, pauseTimer: int)

  /** What one tick produces: the next state, the text now displayed, the delay before the next tick. */
  datatype Outcome = Outcome(next: State, text: string, delay: int)

  const Initial := State(0, 0, false, 0)

  predicate AllNonEmpty(phrases: seq<string>) {
    forall k :: 0 <= k < |phrases| ==> |phrases[k]| > 0
  }

  /** JavaScript's `s.slice(0, end)`: a negative end counts from the back, and the end is clamped to the string. */
  function Slice(s: string, end: int): (r: string)
    ensures r <= s
    ensures 0 <= end <= |s| ==> r == s[..end]
    ensures end > |s| ==> r == s
    ensures end < 0 ==> |r| == if |s| + end < 0 then 0 else |s| + end
  {
    if end > |s| then s
    else if end >= 0 then s[..end]
    else if |s| + end < 0 then []
    else s[..|s| + end]
  }

  /** The delay rule: a pending pause wins, otherwise the typing or deleting speed. */
  function DelayFor(deleting: bool, pauseTimer: int): (d: int)
    ensures d > 0
    ensures pauseTimer > 0 ==> d == pauseTimer
    ensures d == pauseTimer || d == DeleteSpeed || d == TypeSpeed
    ensures pauseTimer <= 0 ==> (d == DeleteSpeed <==> deleting)
  {
    if pauseTimer > 0 then pauseTimer else if deleting then DeleteSpeed else TypeSpeed
  }

  /** One call of `tick`. */
  function Step(phrases: seq<string>, s: State): (t: Outcome)
    requires 0 <= s.phraseIdx < |phrases|
    ensures 0 <= t.next.phraseIdx < |phrases|
    ensures t.next.pauseTimer == 0
    ensures t.text <= phrases[s.phraseIdx]
  {
    var current := phrases[s.phraseIdx];
    if !s.deleting then
      var c := s.charIdx + 1;
      var done := c == |current|;
      var timer := if done then PauseAfterType else s.pauseTimer;
      Outcome(State(s.phraseIdx, c, done, 0), Slice(current, c), DelayFor(done, timer))
    else
      var c := s.charIdx - 1;
      var done := c == 0;
      var p := if done then (s.phraseIdx + 1) % |phrases| else s.phraseIdx;
      var timer := if done then PauseAfterDelete else s.pauseTimer;
      Outcome(State(p, c, !done, 0), Slice(current, c), DelayFor(!done, timer))
  }

  /**
   * The states reachable from `Initial` when every phrase is non-empty:
   * the cursor stays inside the phrase, a deleting cursor has something left
   * to delete, a typing cursor has something left to type, no pause is pending.
   */
  predicate Inv(phrases: seq<string>, s: State) {
    && AllNonEmpty(phrases)
    && 0 <= s.phraseIdx < |phrases|
    && 0 <= s.charIdx <= |phrases[s.phraseIdx]|
    && (s.deleting ==> s.charIdx >= 1)
    && (!s.deleting ==> s.charIdx < |phrases[s.phraseIdx]|)
    && s.pauseTimer == 0
  }

  lemma InitialInv(phrases: seq<string>)
    requires AllNonEmpty(phrases) && |phrases| > 0
    ensures Inv(phrases, Initial)
  {
  }

  /** The page's own phrases are all non-empty, so the invariant holds from the start. */
  lemma PagePhrases()
    ensures |Phrases| == 4 && AllNonEmpty(Phrases)
    ensures Inv(Phrases, Initial)
  {
    InitialInv(Phrases);
  }

  /** Every tick keeps the invariant, and the text shown is the first `charIdx` characters of the current phrase. */
  lemma StepKeepsInv(phrases: seq<string>, s: State)
    requires Inv(phrases, s)
    ensures Inv(phrases, Step(phrases, s).next)
    ensures var n := Step(phrases, s).next;
      Step(phrases, s).text == phrases[n.phraseIdx][..n.charIdx]
  {
  }

  /** Typing the last character starts deleting and holds the whole phrase for 2200 ms. */
  lemma TypedLastChar(phrases: seq<string>, s: State)
    requires Inv(phrases, s)
    requires !s.deleting && s.charIdx + 1 == |phrases[s.phraseIdx]|
    ensures var t := Step(phrases, s);
      t.next.deleting && t.delay == PauseAfterType && t.text == phrases[s.phraseIdx]
      && t.next.phraseIdx == s.phraseIdx
  {
  }

  /** Deleting the last character moves on to the next phrase, cyclically, after 400 ms. */
  lemma DeletedLastChar(phrases: seq<string>, s: State)
    requires Inv(phrases, s)
    requires s.deleting && s.charIdx == 1
    ensures var t := Step(phrases, s);
      !t.next.deleting && t.next.charIdx == 0 && t.text == []
      && t.next.phraseIdx == (s.phraseIdx + 1) % |phrases| && t.delay == PauseAfterDelete
  {
  }

  /** Any other tick moves the cursor by one in its direction and waits 35 ms (deleting) or 60 ms (typing). */
  lemma MidPhrase(phrases: seq<string>, s: State)
    requires Inv(phrases, s)
    requires if s.deleting then s.charIdx > 1 else s.charIdx + 1 < |phrases[s.phraseIdx]|
    ensures var t := Step(phrases, s);
      t.next.deleting == s.deleting && t.next.phraseIdx == s.phraseIdx
      && t.next.charIdx == (if s.deleting then s.charIdx - 1 else s.charIdx + 1)
      && t.delay == (if s.deleting then DeleteSpeed else TypeSpeed)
  {
  }

  /** `k` consecutive ticks: the state reached and the sum of the delays chosen. */
  function Run(phrases: seq<string>, s: State, k: nat): (r: (State, int))
    requires 0 <= s.phraseIdx < |phrases|
    ensures 0 <= r.0.phraseIdx < |phrases|
    decreases k
  {
    if k == 0 then (s, 0)
    else
      var t := Step(phrases, s);
      var rest := Run(phrases, t.next, k - 1);
      (rest.0, t.delay + rest.1)
  }

  lemma {:induction false} RunAdd(phrases: seq<string>, s: State, a: nat, b: nat)
    requires 0 <= s.phraseIdx < |phrases|
    ensures var first := Run(phrases, s, a);
      Run(phrases, s, a + b) == (Run(phrases, first.0, b).0, first.1 + Run(phrases, first.0, b).1)
    decreases a
  {
    if a > 0 {
      RunAdd(phrases, Step(phrases, s).next, a - 1, b);
    }
  }

  /** Typing `k` more characters without reaching the end of the phrase takes 60 ms each. */
  lemma {:induction false} TypingRun(phrases: seq<string>, p: int, c: nat, k: nat)
    requires AllNonEmpty(phrases) && 0 <= p < |phrases|
    requires c + k < |phrases[p]|
    ensures Run(phrases, State(p, c, false, 0), k) == (State(p, c + k, false, 0), TypeSpeed * k)
    decreases k
  {
    if k > 0 {
      TypingRun(phrases, p, c + 1, k - 1);
    }
  }

  /** Deleting `k` characters while more than `k` remain takes 35 ms each. */
  lemma {:induction false} DeletingRun(phrases: seq<string>, p: int, c: nat, k: nat)
    requires AllNonEmpty(phrases) && 0 <= p < |phrases|
    requires k < c <= |phrases[p]|
    ensures Run(phrases, State(p, c, true, 0), k) == (State(p, c - k, true, 0), DeleteSpeed * k)
    decreases k
  {
    if k > 0 {
      DeletingRun(phrases, p, c - 1, k - 1);
    }
  }

  /** Typing a whole phrase of length L takes L ticks: L - 1 at 60 ms, then the 2200 ms hold. */
  lemma TypingHalf(phrases: seq<string>, p: int)
    requires AllNonEmpty(phrases) && 0 <= p < |phrases|
    ensures var L := |phrases[p]|;
      Run(phrases, State(p, 0, false, 0), L) == (State(p, L, true, 0), TypeSpeed * (L - 1) + PauseAfterType)
  {
    var L := |phrases[p]|;
    var s0 := State(p, 0, false, 0);
    var s1 := State(p, L - 1, false, 0);
    TypingRun(phrases, p, 0, L - 1);
    assert Run(phrases, s1, 1) == (State(p, L, true, 0), PauseAfterType);
    RunAdd(phrases, s0, L - 1, 1);
  }

  /** Deleting a whole phrase of length L takes L ticks: L - 1 at 35 ms, then the 400 ms pause before the next phrase. */
  lemma DeletingHalf(phrases: seq<string>, p: int)
    requires AllNonEmpty(phrases) && 0 <= p < |phrases|
    ensures var L := |phrases[p]|;
      Run(phrases, State(p, L, true, 0), L)
      == (State((p + 1) % |phrases|, 0, false, 0), DeleteSpeed * (L - 1) + PauseAfterDelete)
  {
    var L := |phrases[p]|;
    var s2 := State(p, L, true, 0);
    var s3 := State(p, 1, true, 0);
    DeletingRun(phrases, p, L, L - 1);
    assert Run(phrases, s3, 1) == (State((p + 1) % |phrases|, 0, false, 0), PauseAfterDelete);
    RunAdd(phrases, s2, L - 1, 1);
  }

  /**
   * A whole phrase of length L takes 2L ticks: L - 1 typing ticks, the tick
   * that completes it (pause 2200), L - 1 deleting ticks and the tick that
   * empties it (pause 400); it ends at the start of the next phrase.
   */
  lemma PhraseCycle(phrases: seq<string>, p: int)
    requires AllNonEmpty(phrases) && 0 <= p < |phrases|
    ensures var L := |phrases[p]|;
      Run(phrases, State(p, 0, false, 0), 2 * L)
      == (State((p + 1) % |phrases|, 0, false, 0),
          TypeSpeed * (L - 1) + PauseAfterType + DeleteSpeed * (L - 1) + PauseAfterDelete)
  {
    var L := |phrases[p]|;
    TypingHalf(phrases, p);
    DeletingHalf(phrases, p);
    RunAdd(phrases, State(p, 0, false, 0), L, L);
  }

  /** The closure state of the page's typewriter and its displayed text. */
  class Typewriter {
    const phrases: seq<string>
    var phraseIdx: int
    var charIdx: int
    var deleting: bool
    var pauseTimer: int
    /** The element's `textContent`. */
    var text: string

    function Current(): State
      reads this
    {
      State(phraseIdx, charIdx, deleting, pauseTimer)
    }

    constructor (phrases: seq<string>)
      requires |phrases| > 0
      ensures this.phrases == phrases && Current() == Initial && text == []
    {
      this.phrases := phrases;
      phraseIdx, charIdx, deleting, pauseTimer := 0, 0, false, 0;
      text := [];
    }

    /** One tick; returns the delay after which the next tick is scheduled. */
    method Tick() returns (delay: int)
      requires 0 <= phraseIdx < |phrases|
      modifies this
      ensures Outcome(Current(), text, delay) == Step(phrases, old(Current()))
      ensures Inv(phrases, old(Current())) ==> Inv(phrases, Current()) && text == phrases[phraseIdx][..charIdx]
    {
      ghost var before := Current();
      var current := phrases[phraseIdx];
      if !deleting {
        charIdx := charIdx + 1;
        text := Slice(current, charIdx);
        if charIdx == |current| {
          deleting := true;
          pauseTimer := PauseAfterType;
        }
      } else {
        charIdx := charIdx - 1;
        text := Slice(current, charIdx);
        if charIdx == 0 {
          deleting := false;
          phraseIdx := (phraseIdx + 1) % |phrases|;
          pauseTimer := PauseAfterDelete;
        }
      }
      delay := if pauseTimer > 0 then pauseTimer else if deleting then DeleteSpeed else TypeSpeed;
      pauseTimer := 0;
      if Inv(phrases, before) {
        StepKeepsInv(phrases, before);
      }
    }
  }
}
