/**
 The reel frames shown while a spin is animated. The outcome is decided
 before the first frame; the frames are decoys, except the last one, which
 shows the decided draw. Delays are data here, in milliseconds.
 */
module Animation {
  import opened Symbols

  /** One displayed frame and the pause that follows it. */
  datatype Step = Step(reels: Draw, delay: nat)

  /** Pause between frames of the generic spin phase. */
  const GENERIC_DELAY: nat := 80

  /** Number of teasing steps on the third reel before a jackpot lands. */
  const TEASE_STEPS: nat := 7

  /** Pause after teasing step `i`; the third reel slows down. */
  function TeaseDelay(i: nat): nat {
    120 + i * 40
  }

  /** The generic phase: every reel shows a random decoy. */
  function GenericPhase(decoys: seq<Draw>): (steps: seq<Step>)
    ensures |steps| == |decoys|
    ensures forall k :: 0 <= k < |steps| ==> steps[k] == Step(decoys[k], GENERIC_DELAY)
  {
    seq(|decoys|, k requires 0 <= k < |decoys| => Step(decoys[k], GENERIC_DELAY))
  }

  /** The jackpot tease: the first two reels stay on `s0` and `s1` while the
      third shows one decoy per step. */
  function TeasePhase(s0: Symbol, s1: Symbol, decoys: seq<Symbol>): (steps: seq<Step>)
    ensures |steps| == |decoys|
    ensures forall i :: 0 <= i < |steps| ==>
              steps[i].reels.a == s0 && steps[i].reels.b == s1 && steps[i].reels.c == decoys[i]
    ensures forall i, j :: 0 <= i < j < |steps| ==> steps[i].delay < steps[j].delay
  {
    seq(|decoys|, i requires 0 <= i < |decoys| => Step(Draw(s0, s1, decoys[i]), TeaseDelay(i)))
  }

  /** All frames of one spin whose outcome is `final`: the generic phase (at
      least one frame, since its time limit is tested only after the first), then
      for a jackpot a frame locking the first two reels followed by the tease
      of the third, and at last the outcome itself. */
  function Frames(final: Draw, generic: seq<Draw>, lockDecoy: Symbol, teaseDecoys: seq<Symbol>)
    : (steps: seq<Step>)
    requires |generic| >= 1
    requires final.IsJackpot() ==> |teaseDecoys| == TEASE_STEPS
    ensures |steps| == |generic| + (if final.IsJackpot() then TEASE_STEPS + 2 else 1)
    ensures steps[..|generic|] == GenericPhase(generic)
    ensures steps[|steps| - 1] == Step(final, 0)
    ensures final.IsJackpot() ==>
              forall k :: |generic| <= k < |steps| ==>
                steps[k].reels.a == final.a && steps[k].reels.b == final.b
  {
    var last := [Step(final, 0)];
    if final.IsJackpot() then
      GenericPhase(generic)
      + [Step(Draw(final.a, final.b, lockDecoy), 0)]
      + TeasePhase(final.a, final.b, teaseDecoys)
      + last
    else
      GenericPhase(generic) + last
  }

  /** For a jackpot, exactly seven teasing frames follow the lock frame, they
      show the decoys on the third reel only, and their pauses grow from 120
      to 360 ms, 1680 ms in all. */
  lemma JackpotTease(final: Draw, generic: seq<Draw>, lockDecoy: Symbol, teaseDecoys: seq<Symbol>)
    requires |generic| >= 1
    requires final.IsJackpot() && |teaseDecoys| == TEASE_STEPS
    ensures var steps := Frames(final, generic, lockDecoy, teaseDecoys);
            && steps[|generic|] == Step(Draw(final.a, final.b, lockDecoy), 0)
            && steps[|generic| + 1..|steps| - 1] == TeasePhase(final.a, final.b, teaseDecoys)
            && (forall i :: 0 <= i < TEASE_STEPS ==>
                  steps[|generic| + 1 + i] == Step(Draw(final.a, final.b, teaseDecoys[i]), 120 + 40 * i))
            && TotalDelay(steps[|generic| + 1..|steps| - 1]) == 1680
  {
    var steps := Frames(final, generic, lockDecoy, teaseDecoys);
    var tease := TeasePhase(final.a, final.b, teaseDecoys);
    assert steps[|generic| + 1..|steps| - 1] == tease;
    TeaseTotalDelay(final.a, final.b, teaseDecoys);
  }

  /** Total pause of a run of frames. */
  function TotalDelay(steps: seq<Step>): nat
  {
    if |steps| == 0 then 0 else TotalDelay(steps[..|steps| - 1]) + steps[|steps| - 1].delay
  }

  /** The pauses of `n` teasing steps add up to 120 n + 20 n (n - 1) ms. */
  lemma {:induction false} TeaseTotalDelay(s0: Symbol, s1: Symbol, decoys: seq<Symbol>)
    ensures TotalDelay(TeasePhase(s0, s1, decoys)) == 120 * |decoys| + 20 * |decoys| * (|decoys| - 1)
  {
    var n := |decoys|;
    if n > 0 {
      var steps := TeasePhase(s0, s1, decoys);
      assert steps[..n - 1] == TeasePhase(s0, s1, decoys[..n - 1]);
      TeaseTotalDelay(s0, s1, decoys[..n - 1]);
    }
  }
}
