/** The three sample packages of homework.py, and one it does not
    register, worked through the model. */
module Samples {
  import opened Errors
  import opened Training
  import opened Dispatch

  /** SWM [720, 1, 80, 25, 40]: 0.9936 km by strokes, 1.0 km/h from 40 laps
      of 25 m, and (1.0 + 1.1) * 2 * 80 = 336 kcal. */
  lemma SwimmingSample()
    ensures ReadPackage("SWM", [720.0, 1.0, 80.0, 25.0, 40.0]) == Ok(Swimming(720.0, 1.0, 80.0, 25.0, 40.0))
    ensures ShowTrainingInfo(Swimming(720.0, 1.0, 80.0, 25.0, 40.0))
         == Ok(InfoMessage("Swimming", 1.0, 0.9936, 1.0, 336.0))
  {
  }

  /** RUN [15000, 1, 75]: 9.75 km at 9.75 km/h, and
      (18 * 9.75 - 20) * 75 / 1000 * 60 = 699.75 kcal. */
  lemma RunningSample()
    ensures ReadPackage("RUN", [15000.0, 1.0, 75.0]) == Ok(Running(15000.0, 1.0, 75.0))
    ensures ShowTrainingInfo(Running(15000.0, 1.0, 75.0))
         == Ok(InfoMessage("Running", 1.0, 9.75, 9.75, 699.75))
  {
  }

  /** WLK [9000, 1, 75, 180]: 5.85 km at 5.85 km/h; 5.85 squared over 180
      floors to 0, leaving 0.035 * 75 * 60 = 157.5 kcal. */
  lemma WalkingSample()
    ensures ReadPackage("WLK", [9000.0, 1.0, 75.0, 180.0]) == Ok(SportsWalking(9000.0, 1.0, 75.0, 180.0))
    ensures ShowTrainingInfo(SportsWalking(9000.0, 1.0, 75.0, 180.0))
         == Ok(InfoMessage("SportsWalking", 1.0, 5.85, 5.85, 157.5))
  {
  }

  /** An unregistered code fails before any reading is looked at. */
  lemma UnknownCodeSample(data: seq<real>)
    ensures ReadPackage("GGR", data) == Err(UnknownWorkoutType("GGR"))
  {
  }
}
