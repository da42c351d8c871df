/** The three sample packages the source ships with, and two packages that
    fail, read and summarised end to end. */
module Samples {
  import opened Training
  import opened Package

  /** ('SWM', [720, 1, 80, 25, 40]): the distance comes from the strokes,
      the speed from the pool. */
  lemma SwimmingSample()
    ensures ReadPackage("SWM", [720.0, 1.0, 80.0, 25.0, 40.0]).Ok?
    ensures ShowTrainingInfo(ReadPackage("SWM", [720.0, 1.0, 80.0, 25.0, 40.0]).value)
         == InfoMessage("Swimming", 1.0, 0.9936, 1.0, 336.0)
  {
    var t := ReadPackage("SWM", [720.0, 1.0, 80.0, 25.0, 40.0]).value;
    assert t == Swimming(720.0, 1.0, 80.0, 25.0, 40.0);
    assert MeanSpeed(t) == 1.0;
  }

  /** ('RUN', [15000, 1, 75]): as the calorie expression binds, the weight
      term 20*75/1000*60 = 90 is subtracted from 18*9.75 = 175.5, giving 85.5
      where the grouped formula `(18*speed - 20)*weight/1000*(duration*60)`
      would give 699.75. */
  lemma RunningSample()
    ensures ReadPackage("RUN", [15000.0, 1.0, 75.0]).Ok?
    ensures ShowTrainingInfo(ReadPackage("RUN", [15000.0, 1.0, 75.0]).value)
         == InfoMessage("Running", 1.0, 9.75, 9.75, 85.5)
  {
    var t := ReadPackage("RUN", [15000.0, 1.0, 75.0]).value;
    assert t == Running(15000.0, 1.0, 75.0);
    assert Distance(t) == 9.75;
    assert MeanSpeed(t) == 9.75;
    assert Calories(t) == 85.5;
  }

  /** ('WLK', [9000, 1, 75, 180]): 5.85 squared is 34.2225, below the
      height, so the floor division contributes nothing. */
  lemma WalkingSample()
    ensures ReadPackage("WLK", [9000.0, 1.0, 75.0, 180.0]).Ok?
    ensures ShowTrainingInfo(ReadPackage("WLK", [9000.0, 1.0, 75.0, 180.0]).value)
         == InfoMessage("SportsWalking", 1.0, 5.85, 5.85, 157.5)
  {
    var t := ReadPackage("WLK", [9000.0, 1.0, 75.0, 180.0]).value;
    assert t == SportsWalking(9000.0, 1.0, 75.0, 180.0);
    assert MeanSpeed(t) == 5.85;
    WalkingCaloriesBelowHeight(5.85, 75.0, 1.0, 180.0);
  }

  /** An unknown code and a short package are both refused before any
      workout is built. */
  lemma RejectedSamples()
    ensures ReadPackage("XYZ", [1.0, 2.0, 3.0]) == Err(UnknownCode("XYZ"))
    ensures ReadPackage("RUN", [1.0, 2.0]) == Err(FieldCountMismatch("RUN", 2, 3))
  {
    KnownCodes("XYZ");
  }
}
