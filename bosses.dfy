/** The boss's pure rules (src/game/Boss.ts): the descending sort of the phase thresholds
    and the search `checkPhaseChange` runs over them. */
module Bosses {
  import opened Seqs

  /** `[0.75, 0.5, 0.25]`, the default thresholds of the constructor. */
  const DefaultThresholds: seq<real> := [0.75, 0.5, 0.25]

  /** The constructor's default special-attack cooldown. */
  const DefaultAttackCooldown: real := 5.0

  /** The constructor's default boss name. */
  const DefaultName: string := "Mega Enemy"

  predicate Descending(s: seq<real>) {
    forall i, j :: 0 <= i < j < |s| ==> s[i] >= s[j]
  }

  /** Inserts `x` into a descending list in front of the first element not above it. */
  function Insert(x: real, s: seq<real>): (r: seq<real>)
    requires Descending(s)
    ensures Descending(r)
    ensures multiset(r) == multiset(s) + multiset{x}
    ensures |r| == |s| + 1
    ensures r[0] == if s == [] || s[0] <= x then x else s[0]
  {
    if s == [] || s[0] <= x then [x] + s
    else
      var rest := Insert(x, s[1..]);
      assert s == [s[0]] + s[1..];
      assert rest[0] <= s[0];
      [s[0]] + rest
  }

  /** `thresholds.sort((a, b) => b - a)`: a descending permutation of its input. */
  function SortDescending(s: seq<real>): (r: seq<real>)
    ensures Descending(r)
    ensures multiset(r) == multiset(s)
  {
    if s == [] then []
    else
      assert s == [s[0]] + s[1..];
      Insert(s[0], SortDescending(s[1..]))
  }

  /** The first index `i >= from` whose threshold the health ratio has reached while the
      boss is still at phase `phase <= i`: the `for` loop with `break` of `checkPhaseChange`. */
  function FirstCrossed(ratio: real, t: seq<real>, phase: nat, from: nat): (r: Crossing)
    requires from <= |t|
    ensures r.CrossedAt? ==> from <= r.index < |t| && ratio <= t[r.index] && phase <= r.index
    ensures r.CrossedAt? ==> forall i :: from <= i < r.index ==> !(ratio <= t[i] && phase <= i)
    ensures r.NoCrossing? ==> forall i :: from <= i < |t| ==> !(ratio <= t[i] && phase <= i)
    decreases |t| - from
  {
    if from == |t| then NoCrossing
    else if ratio <= t[from] && phase <= from then CrossedAt(from)
    else FirstCrossed(ratio, t, phase, from + 1)
  }

  /** Where the threshold search stopped, if it found a threshold. */
  datatype Crossing = NoCrossing | CrossedAt(index: nat)

  /** The phase after `checkPhaseChange` at health ratio `ratio`. */
  function NextPhase(ratio: real, t: seq<real>, phase: nat): nat {
    match FirstCrossed(ratio, t, phase, 0)
    case NoCrossing => phase
    case CrossedAt(i) => i + 1
  }

  /** The phase never goes down. */
  lemma NextPhaseNeverDecreases(ratio: real, t: seq<real>, phase: nat)
    ensures phase <= NextPhase(ratio, t, phase)
  {
  }

  /** A phase within the thresholds stays within them. */
  lemma NextPhaseBounded(ratio: real, t: seq<real>, phase: nat)
    requires phase <= |t|
    ensures NextPhase(ratio, t, phase) <= |t|
  {
  }

  /** With descending thresholds the phase rises by at most one per call, and it rises
      exactly when the ratio has reached the threshold of the current phase. */
  lemma {:induction false} NextPhaseStep(ratio: real, t: seq<real>, phase: nat)
    requires Descending(t)
    ensures NextPhase(ratio, t, phase) <= phase + 1
    ensures NextPhase(ratio, t, phase) == phase + 1 <==> phase < |t| && ratio <= t[phase]
  {
    var r := FirstCrossed(ratio, t, phase, 0);
    if r.CrossedAt? {
      assert t[phase] >= t[r.index];
      assert ratio <= t[phase];
    }
  }

  /** Starting from phase 0, no number of calls takes the phase past the call count. */
  lemma {:induction false} PhaseAfterCalls(ratios: seq<real>, t: seq<real>)
    requires Descending(t)
    ensures PhasesAfter(ratios, t) <= |ratios|
    ensures PhasesAfter(ratios, t) <= |t|
  {
    if ratios != [] {
      PhaseAfterCalls(ratios[..|ratios| - 1], t);
      var p := PhasesAfter(ratios[..|ratios| - 1], t);
      NextPhaseStep(ratios[|ratios| - 1], t, p);
      NextPhaseBounded(ratios[|ratios| - 1], t, p);
    }
  }

  /** The phase reached from 0 after one `checkPhaseChange` per ratio. */
  function PhasesAfter(ratios: seq<real>, t: seq<real>): nat {
    if ratios == [] then 0
    else NextPhase(ratios[|ratios| - 1], t, PhasesAfter(ratios[..|ratios| - 1], t))
  }

  /** The default thresholds are already in descending order. */
  lemma DefaultThresholdsSorted()
    ensures SortDescending(DefaultThresholds) == DefaultThresholds
  {
  }
}
