/** Concrete runs of the value model. */
module Scenarios {
  import opened Amplitudes

  /** The program's own setting: 16 entries of amplitude 1/4, mark at index
      3, 20 cycles. Twenty values are reported; the first four are
      -1/4, -11/16, -61/64 and -251/256, each larger in size than the one before. */
  lemma ProgramSetting()
    ensures var t := Trajectory(Uniform(16, 0.25), 3, 20);
      |t| == 20 && t[..4] == [-0.25, -0.6875, -0.953125, -0.98046875]
  {
    assert LevelsAfter(16, 0.25, 1) == Levels(-0.25, 0.25);
    assert LevelsAfter(16, 0.25, 2) == Levels(-0.6875, 0.1875);
    assert LevelsAfter(16, 0.25, 3) == Levels(-0.953125, 0.078125);
    assert LevelsAfter(16, 0.25, 4) == Levels(-0.98046875, -0.05078125);
    var t := Trajectory(Uniform(16, 0.25), 3, 20);
    ReportIsMarkedLevel(16, 0.25, 3, 20, 0);
    ReportIsMarkedLevel(16, 0.25, 3, 20, 1);
    ReportIsMarkedLevel(16, 0.25, 3, 20, 2);
    ReportIsMarkedLevel(16, 0.25, 3, 20, 3);
  }

  /** Four entries of amplitude 1/2, mark at index 0, three cycles. */
  lemma SmallRun()
    ensures Trajectory(Uniform(4, 0.5), 0, 3) == [-0.5, -1.0, -0.5]
  {
    assert LevelsAfter(4, 0.5, 1) == Levels(-0.5, 0.5);
    assert LevelsAfter(4, 0.5, 2) == Levels(-1.0, 0.0);
    assert LevelsAfter(4, 0.5, 3) == Levels(-0.5, -0.5);
    ReportIsMarkedLevel(4, 0.5, 0, 3, 0);
    ReportIsMarkedLevel(4, 0.5, 0, 3, 1);
    ReportIsMarkedLevel(4, 0.5, 0, 3, 2);
  }
}
