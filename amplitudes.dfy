/** The amplitude vector and the operators of inversion about the mean, as
    values. These functions are the specification of the in-place methods in
    module Amplification; the lemmas here are the laws those operators obey
    over the reals. */
module Amplitudes {

  /** Left-to-right sum, in the order a LINQ Sum over an array adds. */
  function Sum(s: seq<real>): real
  {
    if |s| == 0 then 0.0 else Sum(s[..|s| - 1]) + s[|s| - 1]
  }

  /** The average entry; the vector must not be empty. */
  function Mean(s: seq<real>): real
    requires |s| > 0
  {
    Sum(s) / |s| as real
  }

  /** N copies of one amplitude: the freshly initialised vector. */
  function Uniform(n: nat, p: real): seq<real>
  {
    seq(n, _ => p)
  }

  /** Every entry reflected about the point m. */
  function Reflect(s: seq<real>, m: real): seq<real>
  {
    seq(|s|, i requires 0 <= i < |s| => 2.0 * m - s[i])
  }

  /** One diffusion step: reflect about the mean of the vector as it is
      before the step. */
  function Diffusion(s: seq<real>): seq<real>
    requires |s| > 0
  {
    Reflect(s, Mean(s))
  }

  /** One cycle of the amplification loop: diffusion, then the oracle,
      which inverts the sign of the marked entry k. */
  function Cycle(s: seq<real>, k: nat): (r: seq<real>)
    requires k < |s|
    ensures |r| == |s|
  {
    var d := Diffusion(s);
    d[k := -d[k]]
  }

  /** The vector after n cycles starting from s. */
  function State(s: seq<real>, k: nat, n: nat): (r: seq<real>)
    requires n > 0 ==> k < |s|
    ensures |r| == |s|
  {
    if n == 0 then s else Cycle(State(s, k, n - 1), k)
  }

  /** The reported values of the first n cycles, in order: after each cycle,
      the entry at the marked index. */
  function Trajectory(s: seq<real>, k: nat, n: nat): (r: seq<real>)
    requires n > 0 ==> k < |s|
    ensures |r| == n
  {
    if n == 0 then [] else Trajectory(s, k, n - 1) + [State(s, k, n)[k]]
  }

  // ---------------------------------------------------------------------
  // Sums

  /** Sum of a uniform vector. */
  lemma {:induction false} SumUniform(n: nat, p: real)
    ensures Sum(Uniform(n, p)) == n as real * p
  {
    if n > 0 {
      assert Uniform(n, p)[..n - 1] == Uniform(n - 1, p);
      SumUniform(n - 1, p);
    }
  }

  /** Replacing one entry changes the sum by the difference. */
  lemma {:induction false} SumUpdate(s: seq<real>, k: nat, v: real)
    requires k < |s|
    ensures Sum(s[k := v]) == Sum(s) - s[k] + v
  {
    var n := |s|;
    if k < n - 1 {
      assert s[k := v][..n - 1] == s[..n - 1][k := v];
      SumUpdate(s[..n - 1], k, v);
    } else {
      assert s[k := v][..n - 1] == s[..n - 1];
    }
  }

  // ---------------------------------------------------------------------
  // Reflection about a point

  /** Reflection commutes with dropping the last entry. */
  lemma ReflectDropLast(s: seq<real>, m: real)
    requires |s| > 0
    ensures Reflect(s, m)[..|s| - 1] == Reflect(s[..|s| - 1], m)
  {
  }

  /** The sum of the reflection about m: the sum of 2m - x_i is 2Nm - S. */
  lemma {:induction false} SumReflect(s: seq<real>, m: real)
    ensures Sum(Reflect(s, m)) == 2.0 * m * |s| as real - Sum(s)
  {
    var n := |s|;
    if n > 0 {
      ReflectDropLast(s, m);
      SumReflect(s[..n - 1], m);
    }
  }

  /** Reflecting twice about the same point restores the vector. */
  lemma ReflectReflect(s: seq<real>, m: real)
    ensures Reflect(Reflect(s, m), m) == s
  {
  }

  // ---------------------------------------------------------------------
  // Diffusion

  /** The mean times the length is the sum. */
  lemma MeanTimesLength(s: seq<real>)
    requires |s| > 0
    ensures Mean(s) * |s| as real == Sum(s)
  {
  }

  /** Inversion about the mean leaves the sum of the entries unchanged. */
  lemma DiffusionPreservesSum(s: seq<real>)
    requires |s| > 0
    ensures |Diffusion(s)| == |s|
    ensures Sum(Diffusion(s)) == Sum(s)
  {
    SumReflect(s, Mean(s));
    MeanTimesLength(s);
  }

  /** ... and hence its mean. */
  lemma DiffusionPreservesMean(s: seq<real>)
    requires |s| > 0
    ensures |Diffusion(s)| == |s|
    ensures Mean(Diffusion(s)) == Mean(s)
  {
    DiffusionPreservesSum(s);
  }

  /** Inversion about the mean is an involution: two diffusions in a row,
      each with its own freshly computed mean, restore the vector. */
  lemma DiffusionInvolution(s: seq<real>)
    requires |s| > 0
    ensures |Diffusion(s)| == |s|
    ensures Diffusion(Diffusion(s)) == s
  {
    DiffusionPreservesMean(s);
    ReflectReflect(s, Mean(s));
  }

  /** A uniform vector is a fixed point of diffusion. */
  lemma UniformIsFixedPoint(n: nat, p: real)
    requires n > 0
    ensures Diffusion(Uniform(n, p)) == Uniform(n, p)
  {
    SumUniform(n, p);
    assert Mean(Uniform(n, p)) == p;
  }

  // ---------------------------------------------------------------------
  // Oracle

  /** The oracle changes the sum by twice the negated entry. */
  lemma OracleSum(s: seq<real>, k: nat)
    requires k < |s|
    ensures Sum(s[k := -s[k]]) == Sum(s) - 2.0 * s[k]
  {
    SumUpdate(s, k, -s[k]);
  }

  // ---------------------------------------------------------------------
  // The loop

  /** The i-th reported value is the marked entry after cycle i + 1. */
  lemma {:induction false} TrajectoryAt(s: seq<real>, k: nat, n: nat, i: nat)
    requires k < |s| && i < n
    ensures Trajectory(s, k, n)[i] == State(s, k, i + 1)[k]
  {
    if i < n - 1 {
      TrajectoryAt(s, k, n - 1, i);
    }
  }

  /** A trajectory of n + j cycles starts with the trajectory of n cycles:
      earlier reports are never revised. */
  lemma {:induction false} TrajectoryPrefix(s: seq<real>, k: nat, n: nat, j: nat)
    requires k < |s|
    ensures Trajectory(s, k, n + j)[..n] == Trajectory(s, k, n)
  {
    if j > 0 {
      TrajectoryPrefix(s, k, n, j - 1);
      assert Trajectory(s, k, n + j)[..n + j - 1] == Trajectory(s, k, n + j - 1);
    }
  }

  /** Starting from a uniform vector, the first report is the negated
      initial amplitude: diffusion fixes the vector and the oracle flips
      the marked entry. */
  lemma FirstReportFromUniform(n: nat, p: real, k: nat, count: nat)
    requires k < n && count > 0
    ensures Trajectory(Uniform(n, p), k, count)[0] == -p
  {
    TrajectoryAt(Uniform(n, p), k, count, 0);
    UniformIsFixedPoint(n, p);
  }

  // ---------------------------------------------------------------------
  // Two-level reduction: from a uniform start, every unmarked entry keeps
  // one common value, so the run is a recurrence on two numbers.

  /** The amplitude of the marked entry and the common amplitude of the others. */
  datatype Levels = Levels(marked: real, unmarked: real)

  /** The n-entry vector holding l.marked at index k and l.unmarked elsewhere. */
  function TwoLevel(n: nat, k: nat, l: Levels): seq<real>
    requires k < n
  {
    Uniform(n, l.unmarked)[k := l.marked]
  }

  /** The mean of such a vector: (w + (n - 1) u) / n. */
  function LevelsMean(n: nat, l: Levels): real
    requires n > 0
  {
    (l.marked + (n - 1) as real * l.unmarked) / n as real
  }

  /** One cycle on the two amplitudes: diffusion sends each value x to
      2m - x, then the oracle negates the marked one. */
  function LevelsStep(n: nat, l: Levels): Levels
    requires n > 0
  {
    var m := LevelsMean(n, l);
    Levels(-(2.0 * m - l.marked), 2.0 * m - l.unmarked)
  }

  /** The two amplitudes after i cycles from the uniform vector of p's. */
  function LevelsAfter(n: nat, p: real, i: nat): Levels
    requires n > 0
  {
    if i == 0 then Levels(p, p) else LevelsStep(n, LevelsAfter(n, p, i - 1))
  }

  lemma SumShift(n: nat, u: real, w: real)
    requires n > 0
    ensures n as real * u - u + w == w + (n - 1) as real * u
  {
  }

  lemma DivideEqual(a: real, b: real, n: real)
    requires n != 0.0 && a == b
    ensures a / n == b / n
  {
  }

  /** The mean of a two-level vector is the one LevelsStep uses. */
  lemma MeanTwoLevel(n: nat, k: nat, l: Levels)
    requires k < n
    ensures Mean(TwoLevel(n, k, l)) == LevelsMean(n, l)
  {
    var u := Uniform(n, l.unmarked);
    SumUniform(n, l.unmarked);
    SumUpdate(u, k, l.marked);
    SumShift(n, l.unmarked, l.marked);
    DivideEqual(Sum(TwoLevel(n, k, l)), l.marked + (n - 1) as real * l.unmarked, n as real);
  }

  /** A cycle maps a two-level vector to the two-level vector of LevelsStep. */
  lemma CycleTwoLevel(n: nat, k: nat, l: Levels)
    requires k < n
    ensures Cycle(TwoLevel(n, k, l), k) == TwoLevel(n, k, LevelsStep(n, l))
  {
    MeanTwoLevel(n, k, l);
  }

  /** Every state reached from the uniform vector is two-level, with the
      amplitudes given by the recurrence LevelsAfter. */
  lemma {:induction false} StateIsTwoLevel(n: nat, p: real, k: nat, i: nat)
    requires k < n
    ensures State(Uniform(n, p), k, i) == TwoLevel(n, k, LevelsAfter(n, p, i))
  {
    if i == 0 {
      assert Uniform(n, p)[k := p] == Uniform(n, p);
    } else {
      StateIsTwoLevel(n, p, k, i - 1);
      CycleTwoLevel(n, k, LevelsAfter(n, p, i - 1));
    }
  }

  /** After any number of cycles, all unmarked entries are equal. */
  lemma UnmarkedEntriesAgree(n: nat, p: real, k: nat, i: nat, j: nat)
    requires k < n && j < n && j != k
    ensures State(Uniform(n, p), k, i)[j] == LevelsAfter(n, p, i).unmarked
  {
    StateIsTwoLevel(n, p, k, i);
  }

  /** The i-th report is the marked amplitude of the recurrence after i + 1 steps. */
  lemma ReportIsMarkedLevel(n: nat, p: real, k: nat, count: nat, i: nat)
    requires k < n && i < count
    ensures Trajectory(Uniform(n, p), k, count)[i] == LevelsAfter(n, p, i + 1).marked
  {
    TrajectoryAt(Uniform(n, p), k, count, i);
    StateIsTwoLevel(n, p, k, i + 1);
  }
}
