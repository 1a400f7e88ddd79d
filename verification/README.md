# Fitness calculator model

A Dafny model of a small workout calculator (`homework.py`). A workout is one
of three variants, each built once from sensor readings and never changed:

- `Running(action, duration, weight)`,
- `SportsWalking(action, duration, weight, height)`,
- `Swimming(action, duration, weight, lengthPool, countPool)`.

Each variant answers three questions: the distance in km (actions times the
step length, over 1000), the mean speed in km/h and the calories burnt, by a
formula of its own. A fixed registry maps the activity codes `SWM`, `RUN` and
`WLK` to the three constructors and spreads a flat list of readings over the
constructor's parameters. The summary record (`InfoMessage`) bundles the
variant's class name, the unchanged duration and the three computed values.

Layout:

- `errors.dfy` (module `Errors`): the faults the program raises and a
  `Result` type carrying them. A division by a zero duration or a zero height
  is `ZeroDivision`; an unregistered code is `UnknownWorkoutType`; readings
  that do not fit the constructor are `WrongArgumentCount`. The program raises
  a `TypeError` in both of the last two cases.
- `training.dfy` (module `Training`): the `Workout` and `InfoMessage`
  datatypes, the three getters, the summary, and the lemmas about the
  formulas.
- `dispatch.dfy` (module `Dispatch`): the registry, the positional
  construction and `ReadPackage`, with the round trip from a workout to its
  code and readings and back.
- `samples.dfy` (module `Samples`): the program's three sample packages and
  one unregistered code, worked through the model.

Arithmetic is over Dafny's exact `real`. Every reading is a `real`, because the
program does not enforce its `int` annotations on the step and lap counts. The
getters are functions, so calling one twice on the same workout gives the same
result by construction.

The running sample burns (18 * 9.75 - 20) * 75 / 1000 * 60 = 699.75 kcal.
The step lengths 0.65 and 1.38 are metres, divided by 1000 to give km. An
unknown code or a wrong number of readings raises; nothing in the program
catches it.

## Model

| member | source | states |
|---|---|---|
| `Training.LenStep` | homework.py:31-47 | the length of one action is positive: 0.65 m per step (homework.py:31, 42), reset to 1.38 m per stroke by the swimming constructor (homework.py:100-108) |
| `Training.Distance` | homework.py:45-47 | the distance, computed by the same formula in the base class and in the swimming override (homework.py:110-112), has the sign of the action count and is zero exactly when the count is |
| `Training.StepDistanceSlope` | homework.py:42-47 | two runs or walks differ in distance by 0.65 m per step of difference in their step counts, the counterpart of swimming's 1.38 m per stroke |
| `Training.MeanSpeed` | homework.py:49-51 | the speed (step distance over duration; pool length times laps over duration for swimming, homework.py:114-117) exists exactly when the duration is non-zero; a zero duration raises a division by zero |
| `Training.SpeedTimesDuration` | homework.py:114-117 | speed times duration gives back the distance the speed came from: pool length * laps / 1000 for swimming, the step distance otherwise |
| `Training.SwimmingIgnoresAction` | homework.py:110-124 | two swims differing only in stroke count have equal speed and equal calories (or raise alike), and distances differing by 1.38 m per stroke |
| `Training.FloorDiv` | homework.py:91 | the floor division returns an integer q with q <= a / b < q + 1 |
| `Training.Calories` | homework.py:64-124 | calories exist exactly when the duration is non-zero and, for a walk, the height is non-zero; otherwise a division by zero is raised |
| `Training.RunningCaloriesClosedForm` | homework.py:67-73 | running calories equal (18 * distance - 20 * duration) * weight * 60 / 1000, the formula with the speed's division cancelled |
| `Training.WalkingFloorBounds` | homework.py:85-93 | for a positive weight and duration, flooring only the speed-squared-over-height term never raises the walking calories and lowers them by less than 0.029 * weight per minute |
| `Training.WalkingCaloriesNearUnfloored` | homework.py:85-93 | for a positive weight and duration and a non-zero height, a walk's calories lie within that bound below the unfloored formula at its own mean speed |
| `Training.SlowWalkingCalories` | homework.py:85-93 | when speed squared is below the height the floored term is 0 and walking burns 0.035 * weight kcal per minute |
| `Training.SwimmingCaloriesGrowWithLaps` | homework.py:114-124 | at positive weight, duration and pool length, more laps of the same pool in the same time burn strictly more calories |
| `Training.TypeName` | homework.py:59 | the reported type is "Running", "SportsWalking" or "Swimming" exactly for the matching variant |
| `Training.ShowTrainingInfo` | homework.py:57-61 | the summary exists exactly when the getters do; it carries the type name, the unchanged duration and the distance, speed and calories of the same workout |
| `Training.InfoMessageConsistent` | homework.py:57-61 | a running or walking summary's speed times its duration is its distance |
| `Dispatch.Code` | homework.py:129 | each workout's code is a registry key that maps to the workout's own constructor |
| `Dispatch.Readings` | homework.py:34-43 | a workout's readings have its constructor's arity (also homework.py:80-83 and 102-108) and begin with action, duration and weight |
| `Dispatch.Construct` | homework.py:130 | spreading readings over a constructor succeeds exactly when their count is its arity, gives a workout of that constructor with those readings, and otherwise raises with the expected and given counts |
| `Dispatch.ReadPackage` | homework.py:127-130 | an unregistered code raises; a registered one succeeds exactly when the reading count fits, and the result has that code and exactly those readings |
| `Dispatch.ReadPackageRoundTrip` | homework.py:127-130 | reading a workout's own code and readings rebuilds that workout |
| `Dispatch.ReadPackageTable` | homework.py:129-130 | exactly SWM with 5 readings, RUN with 3 and WLK with 4 succeed, giving Swimming, Running and SportsWalking with the readings in order |
| `Samples.SwimmingSample` | homework.py:141 | SWM [720, 1, 80, 25, 40] gives Swimming, 0.9936 km, 1.0 km/h, 336.0 kcal |
| `Samples.RunningSample` | homework.py:142 | RUN [15000, 1, 75] gives Running, 9.75 km, 9.75 km/h, 699.75 kcal |
| `Samples.WalkingSample` | homework.py:143 | WLK [9000, 1, 75, 180] gives SportsWalking, 5.85 km, 5.85 km/h, 157.5 kcal |
| `Samples.UnknownCodeSample` | homework.py:129-130 | the unregistered code GGR raises for any readings |

## Left out

- `InfoMessage.get_message` (homework.py:17-23): the message record is modelled, but its rendering into text with three decimals and fixed labels is not.
- `main` and the sample loop (homework.py:133-148): console output and a driver loop; the three packages are used as the samples above.
- The base `Training.get_spent_calories` (homework.py:53-55): it returns nothing, and the registry never builds a bare `Training`, so only the three variants are modelled.
- IEEE-754 floating point: the model computes over exact reals, so it does not reproduce float rounding (720 * 1.38 comes out just below 993.6 as a float).
- Non-numeric readings: the constructors only store them, so Python would fail later, inside a getter, with a type error; every reading here is a number.
- The exception types: both dispatch failures are one `TypeError` in the program; the model keeps them apart as two faults.
