/** The amplification program on a mutable array of amplitudes: fill the
    array uniformly, then repeat diffusion and the oracle, reporting the
    marked entry after every cycle. Each method is specified by the value
    functions of module Amplitudes. */
module Amplification {
  import opened Amplitudes

  /** A fresh array of containerSize entries, each holding probability. */
  method Init(containerSize: nat, probability: real) returns (container: array<real>)
    ensures fresh(container)
    ensures container[..] == Uniform(containerSize, probability)
  {
    container := new real[containerSize];
    for i := 0 to containerSize
      invariant forall j :: 0 <= j < i ==> container[j] == probability
    {
      container[i] := probability;
    }
  }

  /** Inversion about the mean, in place: the mean is taken once, before
      any entry is rewritten, and every entry x becomes 2 * mean - x. */
  method Diffuse(container: array<real>)
    requires container.Length > 0
    modifies container
    ensures container[..] == Diffusion(old(container[..]))
  {
    ghost var before := container[..];
    var average := Mean(container[..]);
    for i := 0 to container.Length
      invariant forall j :: 0 <= j < i ==> container[j] == 2.0 * average - before[j]
      invariant forall j :: i <= j < container.Length ==> container[j] == before[j]
    {
      container[i] := 2.0 * average - container[i];
    }
  }

  /** The oracle: the sign of the marked entry is inverted and every other
      entry is left as it was. */
  method Oracle(container: array<real>, indexMarked: nat)
    requires indexMarked < container.Length
    modifies container
    ensures container[indexMarked] == -old(container[indexMarked])
    ensures forall j :: 0 <= j < container.Length && j != indexMarked ==> container[j] == old(container[j])
  {
    container[indexMarked] := container[indexMarked] * -1.0;
  }

  /** The main loop: iterationCount cycles of diffusion and oracle on a
      uniform start, collecting the marked entry after each cycle in order.
      The reports are the trajectory of the value model, and they follow
      the two-amplitude recurrence LevelsAfter. */
  method Amplify(containerSize: nat, probability: real, iterationCount: nat, indexMarked: nat)
    returns (reports: seq<real>)
    requires iterationCount > 0 ==> indexMarked < containerSize
    ensures reports == Trajectory(Uniform(containerSize, probability), indexMarked, iterationCount)
    ensures |reports| == iterationCount
    ensures iterationCount > 0 ==>
      forall i :: 0 <= i < iterationCount ==> reports[i] == LevelsAfter(containerSize, probability, i + 1).marked
  {
    ghost var start := Uniform(containerSize, probability);
    var container := Init(containerSize, probability);
    reports := [];
    for iteration := 1 to iterationCount + 1
      invariant container.Length == containerSize
      invariant container[..] == State(start, indexMarked, iteration - 1)
      invariant reports == Trajectory(start, indexMarked, iteration - 1)
    {
      ghost var s := container[..];
      Diffuse(container);
      Oracle(container, indexMarked);
      assert container[..] == Cycle(s, indexMarked);
      reports := reports + [container[indexMarked]];
    }
    if iterationCount > 0 {
      forall i | 0 <= i < iterationCount
        ensures reports[i] == LevelsAfter(containerSize, probability, i + 1).marked
      {
        ReportIsMarkedLevel(containerSize, probability, indexMarked, iterationCount, i);
      }
    }
  }

  /** How the program stops when its parameters do not fit: an array of
      negative size cannot be allocated, and a marked index outside the
      array fails at the first sign inversion, before anything is reported. */
  datatype Failure = NegativeSize | IndexOutOfRange

  datatype Outcome = Completed(reports: seq<real>) | Failed(failure: Failure)

  /** The whole program on unchecked integer parameters. A count below one
      runs no cycle, so then the marked index is never used. */
  method Run(containerSize: int, probability: real, iterationCount: int, indexMarked: int)
    returns (r: Outcome)
    ensures containerSize < 0 ==> r == Failed(NegativeSize)
    ensures containerSize >= 0 && iterationCount <= 0 ==> r == Completed([])
    ensures containerSize >= 0 && iterationCount > 0 && !(0 <= indexMarked < containerSize) ==>
      r == Failed(IndexOutOfRange)
    ensures containerSize >= 0 && iterationCount > 0 && 0 <= indexMarked < containerSize ==>
      r == Completed(Trajectory(Uniform(containerSize, probability), indexMarked, iterationCount))
  {
    if containerSize < 0 {
      return Failed(NegativeSize);
    }
    if iterationCount <= 0 {
      var reports := Amplify(containerSize, probability, 0, 0);
      return Completed(reports);
    }
    if !(0 <= indexMarked < containerSize) {
      return Failed(IndexOutOfRange);
    }
    var reports := Amplify(containerSize, probability, iterationCount, indexMarked);
    return Completed(reports);
  }
}
