/** The three sample packages of the fitness tracker simulation, computed
    exactly. */
module Samples {
  import opened Trainings
  import opened Dispatch

  /** ('SWM', [720, 1, 80, 25, 40]): 25 m times 40 laps in one hour. */
  lemma SwimmingSample()
    ensures ReadPackage("SWM", [720.0, 1.0, 80.0, 25.0, 40.0])
         == Built(Training(720.0, 1.0, 80.0, Swimming(25.0, 40.0)))
    ensures var t := Training(720.0, 1.0, 80.0, Swimming(25.0, 40.0));
            Distance(t) == 0.9936 && MeanSpeed(t) == 1.0 && SpentCalories(t) == 336.0
  {
  }

  /** ('RUN', [15000, 1, 75]). */
  lemma RunningSample()
    ensures ReadPackage("RUN", [15000.0, 1.0, 75.0])
         == Built(Training(15000.0, 1.0, 75.0, Running))
    ensures var t := Training(15000.0, 1.0, 75.0, Running);
            Distance(t) == 9.75 && MeanSpeed(t) == 9.75 && SpentCalories(t) == 797.805
  {
  }

  /** ('WLK', [9000, 1, 75, 180]). */
  lemma WalkingSample()
    ensures ReadPackage("WLK", [9000.0, 1.0, 75.0, 180.0])
         == Built(Training(9000.0, 1.0, 75.0, SportsWalking(180.0)))
    ensures var t := Training(9000.0, 1.0, 75.0, SportsWalking(180.0));
            Distance(t) == 5.85 && MeanSpeed(t) == 5.85
            && SpentCalories(t) == 349.251747525
  {
  }

  /** An unknown code yields the message naming it, and a known code with the
      wrong number of parameters yields the arity error. */
  lemma ErrorSamples()
    ensures ReadPackage("XYZ", [1.0, 1.0, 1.0]) == UnknownType("Неизвестный тип тренировки: XYZ")
    ensures ReadPackage("RUN", [15000.0, 1.0, 75.0, 180.0]) == ArityMismatch(RunningClass, 4)
  {
  }
}
