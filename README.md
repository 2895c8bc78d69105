# Amplitude amplification, modelled in Dafny

The program is a classical simulation of the Grover-style amplitude
amplification loop. It fills an array of `N` amplitudes with `1/sqrt(N)`.
It then repeats a fixed number of cycles. Each cycle does two things:

- **diffusion**: inversion about the mean. The mean is taken once, and then every entry `x` becomes `2*mean - x`.
- **oracle**: the sign of one marked entry is inverted.

After every cycle the program reports the marked entry.

The model has three modules:

- `Amplitudes` (`amplitudes.dfy`) holds the value model and its laws.
  - The value model: `Sum`, `Mean`, `Uniform`, `Reflect`, `Diffusion`, one `Cycle`, the `State` after n cycles, and the `Trajectory` of reports.
  - The laws of these operators over the reals.
  - A two-level reduction. From a uniform start, every unmarked entry keeps one common value, so the run is a recurrence on two numbers (`LevelsAfter`).
- `Amplification` (`amplification.dfy`) is the program itself. It works in place on an `array<real>`:
  - `Init`, `Diffuse`, `Oracle` and the loop `Amplify`, each proved against the value model;
  - `Run`, which is the whole program on unchecked integer parameters, including the ways it stops.
- `Scenarios` (`scenarios.dfy`) holds concrete runs. One of them is the program's own setting: 16 entries, 20 cycles, mark at 3.

Parameters of the C# code that are fixed there are parameters here:

- the size;
- the number of cycles;
- the marked index;
- the start amplitude `probability`, which the code computes as `1 / Math.Sqrt(containerSize)`.

## Model

| member | source | states |
|---|---|---|
| Amplification.Init | AmplitudeAmplificationExample.cs:20-28 | a fresh array of `containerSize` entries, every one equal to the start amplitude |
| Amplification.Diffuse | AmplitudeAmplificationExample.cs:33-40 | the array becomes `Diffusion` of its old contents: each entry `x` is replaced by `2*m - x`, where `m` is the mean before any entry changed |
| Amplification.Oracle | AmplitudeAmplificationExample.cs:42-43 | the marked entry is negated and every other entry is unchanged |
| Amplification.Amplify | AmplitudeAmplificationExample.cs:20-46 | exactly `iterationCount` cycles of diffusion then oracle run from the uniform start; the reports equal `Trajectory` of the uniform vector, one per cycle; report `i` is the marked amplitude of the two-level recurrence after `i + 1` steps |
| Amplification.Run | AmplitudeAmplificationExample.cs:11-46 | a negative size fails at allocation; a count below one runs nothing and reports nothing; otherwise an index outside `[0, N)` fails before the first report; otherwise the reports are the trajectory |
| Amplitudes.Cycle | AmplitudeAmplificationExample.cs:33-43 | one cycle keeps the vector's length |
| Amplitudes.State | AmplitudeAmplificationExample.cs:31-44 | the state after n cycles keeps the vector's length |
| Amplitudes.Trajectory | AmplitudeAmplificationExample.cs:31-46 | n cycles give exactly n reports |
| Amplitudes.SumUniform | AmplitudeAmplificationExample.cs:27-28 | the sum of N equal entries `p` is `N*p` |
| Amplitudes.SumUpdate | AmplitudeAmplificationExample.cs:35 | overwriting one entry changes the sum by exactly the difference |
| Amplitudes.SumReflect | AmplitudeAmplificationExample.cs:39-40 | reflecting every entry about `m` turns the sum `S` into `2*N*m - S` |
| Amplitudes.ReflectReflect | AmplitudeAmplificationExample.cs:39-40 | reflecting twice about the same point restores the vector |
| Amplitudes.MeanTimesLength | AmplitudeAmplificationExample.cs:35 | the mean times the length is the sum |
| Amplitudes.DiffusionPreservesSum | AmplitudeAmplificationExample.cs:35-40 | diffusion keeps the length and the sum of the entries |
| Amplitudes.DiffusionPreservesMean | AmplitudeAmplificationExample.cs:35-40 | diffusion keeps the mean |
| Amplitudes.DiffusionInvolution | AmplitudeAmplificationExample.cs:35-40 | diffusing twice in a row, with the mean recomputed each time, restores the vector |
| Amplitudes.UniformIsFixedPoint | AmplitudeAmplificationExample.cs:27-40 | a uniform vector is unchanged by diffusion |
| Amplitudes.OracleSum | AmplitudeAmplificationExample.cs:43 | the oracle lowers the sum by twice the marked entry |
| Amplitudes.TrajectoryAt | AmplitudeAmplificationExample.cs:31-45 | report `i` is the marked entry of the state after cycle `i + 1` |
| Amplitudes.TrajectoryPrefix | AmplitudeAmplificationExample.cs:31-45 | running more cycles never changes the earlier reports |
| Amplitudes.FirstReportFromUniform | AmplitudeAmplificationExample.cs:24-45 | from a uniform start of amplitude `p`, the first report is `-p` |
| Amplitudes.MeanTwoLevel | AmplitudeAmplificationExample.cs:35 | the mean of a vector with `w` at the mark and `u` elsewhere is `(w + (N-1)*u)/N` |
| Amplitudes.CycleTwoLevel | AmplitudeAmplificationExample.cs:35-43 | a cycle maps a two-level vector to the two-level vector given by the recurrence step |
| Amplitudes.StateIsTwoLevel | AmplitudeAmplificationExample.cs:27-44 | every state reached from the uniform start is two-level, with the amplitudes of `LevelsAfter` |
| Amplitudes.UnmarkedEntriesAgree | AmplitudeAmplificationExample.cs:27-44 | after any number of cycles, all unmarked entries are equal |
| Amplitudes.ReportIsMarkedLevel | AmplitudeAmplificationExample.cs:31-45 | report `i` is the marked amplitude of `LevelsAfter` at step `i + 1` |
| Scenarios.ProgramSetting | AmplitudeAmplificationExample.cs:11-45 | with 16 entries of amplitude 1/4, the mark at 3 and 20 cycles, there are 20 reports, and the first four are -1/4, -11/16, -61/64 and -251/256 |
| Scenarios.SmallRun | AmplitudeAmplificationExample.cs:20-45 | with 4 entries of amplitude 1/2, the mark at 0 and 3 cycles, the reports are -1/2, -1, -1/2 |

## Left out

- Console output (line 45) and the final `Console.ReadLine` (line 48) are left out. The reports are returned as a sequence instead of being printed.
- `double` arithmetic and `Math.Sqrt` are left out. Amplitudes are exact reals, and the start amplitude is a parameter rather than `1/sqrt(N)`. For the program's own setting, every value in `Scenarios.ProgramSetting` is a dyadic fraction with a short expansion, so the doubles hold those first four values exactly.
- The fixed constants 16, 20 and 3 (lines 11, 14, 18) are parameters. They appear only in `Scenarios.ProgramSetting`.
- 32-bit `int` parameters and the loop counter are unbounded here. The case of a cycle count of `int.MaxValue`, where `iteration++` would wrap, is not modelled.
- Validation follows the code, not a validate-first design. The code checks nothing:
  - With a negative size, the allocation throws before anything runs.
  - With a marked index outside the array, the first sign inversion throws before anything is printed.
  - A count below one simply runs no cycle, even if the index is bad or the size is 0.

  `Run` models exactly that. A design that rejects `N <= 0` or a negative count up front would report errors in cases where the code quietly prints nothing.
- Amplification.Oracle: the negation is written with `* -1.0`. Signed zero, which `double` would distinguish, does not exist over the reals.
