# Fitness tracker module, modelled in Dafny

A model of the fitness-tracker module `homework.py`. A sensor package is a workout
code with a list of numbers. The module turns one package into a training summary
with the workout type, duration, distance (km), mean speed (km/h) and spent kilocalories.

There are three workout kinds: running (`RUN`), sports walking (`WLK`) and swimming (`SWM`).
They share the base training rules and each has its own calorie formula. Swimming also
overrides the step length and the mean speed.

Files:

- `errors.dfy` (`Errors`): the three failures. An unknown code is a failed dictionary
  lookup. A wrong number of values is a constructor called with the wrong number of
  positional arguments. A zero divisor is a division by zero.
- `workouts.dfy` (`Workouts`): the closed variant `Workout` with one constructor per class,
  the constants, and the distance, mean-speed and calorie formulas over exact `real`s,
  with lemmas about each kind's formulas.
- `dispatch.dfy` (`Dispatch`): the code table and `ReadPackage`, with the positional data
  as the inverse of construction.
- `summary.dfy` (`Summary`): `ShowTrainingInfo`, and the message template with the
  number formatter as a parameter.
- `pipeline.dfy` (`Pipeline`): one package end to end, and the three demonstration packages.

Where the code might surprise a reader, the model follows `homework.py`:

- Swimming distance is `action * 1.38 / 1000`. The instance's step length is overridden
  to 1.38 m, and the pool length times the pool count is not used for distance.
- Swimming mean speed is `length_pool * count_pool / 1000 / duration`. It does not
  depend on `action`, so for swimming speed times duration is not the distance
  (`SwimmingSpeedIsNotDistanceOverTime`).
- Package `RUN [15000, 1, 75]` burns `(18 * 9.75 - 20) * 75 / 1000 * 60 = 699.75` kcal.
- Nothing is validated at construction. A zero duration, or a zero height for walking,
  shows up as a division by zero only when the summary is computed (`ShowTrainingInfo`).
- In the walking formula, `speed ** 2 // height` is floor division on reals
  (`FloorDiv`).

## Model

| member | source | states |
|---|---|---|
| `Workouts.Label` | homework.py:37-41 | the label is "Running" iff the kind is running, "SportsWalking" iff walking, "Swimming" iff swimming (the class names) |
| `Workouts.LabelInjective` | homework.py:37-41 | the three class names shown as the workout type are distinct, so the type shown identifies the kind |
| `Workouts.LenStep` | homework.py:34-35 | the step length the instance sees is positive: 0.65 m for running and walking (the base class), 1.38 m for swimming (its override at homework.py line 117) |
| `Workouts.Distance` | homework.py:52-55 | distance in metres is units travelled times the instance's step length; distance is positive or zero exactly when the units travelled are |
| `Workouts.SwimmingDistanceIgnoresPool` | homework.py:52-55 | swimming distance uses the overridden 1.38 m stroke and does not change when the pool length or the pool count changes |
| `Workouts.MeanSpeed` | homework.py:57-60 | for running and walking, speed times duration is the distance; for swimming, speed times duration times 1000 is pool length times pool count |
| `Workouts.SwimmingSpeedIgnoresAction` | homework.py:130-146 | swimming speed and calories do not change when the stroke count changes |
| `Workouts.SwimmingSpeedIsNotDistanceOverTime` | homework.py:130-136 | for swimming `(720, 1, 80, 25, 40)`, distance is 0.9936 and speed 1.0, so speed times duration is not the distance |
| `Workouts.FloorDiv` | homework.py:109 | the `//` of two reals is a whole number q with q <= a / b < q + 1 |
| `Workouts.Calories` | homework.py:78-146 | each workout's calories are its class's own formula (`RunningCalories`, homework.py:78-87; `WalkingCalories`, homework.py:101-112; `SwimmingCalories`, homework.py:138-146) applied to its own mean speed; in the recorded values, running calories equal weight * (0.702 * steps - 1200 * hours) / 1000, and swimming calories times hours equal 2 * weight * (pool length * pool count / 1000 + 1.1 * hours); the walking value is stated by `WalkingCaloriesStep` |
| `Workouts.RunningClosedForm` | homework.py:78-87 | the running formula at the mean speed of `action` steps in `duration` hours equals weight * (0.702 * steps - 1200 * hours) / 1000 |
| `Workouts.RunningCaloriesSign` | homework.py:78-87 | for positive weight and duration, running calories are non-negative iff speed >= 20/18, and positive iff speed > 20/18; they are never clamped |
| `Workouts.WalkingCaloriesBase` | homework.py:101-112 | for a positive height and non-zero weight and duration, walking calories equal 0.035 * weight * minutes iff speed^2 < height, i.e. iff the floor term is 0 |
| `Workouts.WalkingCaloriesLowerBound` | homework.py:101-112 | for positive weight, duration and height, walking calories are at least 0.035 * weight * minutes |
| `Workouts.WalkingCaloriesOfWorkout` | homework.py:101-112 | for a walking workout with positive weight, duration and height, the reported calories are at least 0.035 * weight * minutes, and equal it iff the squared mean speed is below the height |
| `Workouts.WalkingCaloriesAtFloor` | homework.py:101-112 | the walking formula, when k whole heights fit in speed^2, equals (0.035 + 0.029 * k) * weight * minutes |
| `Workouts.WalkingCaloriesStep` | homework.py:101-112 | the calories a walking workout reports, when k whole heights fit in its squared mean speed, equal (0.035 + 0.029 * k) * weight * minutes |
| `Workouts.FloorDivIs` | homework.py:109 | the floor quotient of a by a positive b is the whole number k with k * b <= a < (k + 1) * b |
| `Workouts.FloorDivZero` | homework.py:109 | for a non-negative dividend and a positive divisor, the floor quotient is 0 iff the dividend is below the divisor |
| `Workouts.SwimmingCaloriesLowerBound` | homework.py:138-146 | for positive weight and non-negative speed, swimming calories are at least 2.2 * weight, with equality iff pool length times pool count is 0 |
| `Dispatch.Arity` | homework.py:43-128 | the constructors take 3 (running), 4 (walking) and 5 (swimming) positional values, distinct per class |
| `Dispatch.Code` | homework.py:151-153 | each kind has a code that the table maps back to that kind |
| `Dispatch.Vector` | homework.py:43-128 | a workout's positional data has its class's arity and starts with action, duration, weight; the fourth value is the height for walking, and the fourth and fifth are the pool length and the pool count for swimming |
| `Dispatch.Construct` | homework.py:154 | spreading data into a class succeeds iff its length is the class's arity (3, 4 or 5); the result has that class and gives back exactly the data; otherwise it is an arity error naming the class, the expected and the given count |
| `Dispatch.ReadPackage` | homework.py:149-155 | an unknown code fails with that code; a known code with the wrong length fails with an arity error; success iff the code is known and the length matches, and then the workout's code and positional data are the inputs |
| `Dispatch.KnownCodes` | homework.py:151-153 | the known codes are exactly `"SWM"`, `"RUN"`, `"WLK"`, and each maps to a kind whose code it is |
| `Dispatch.ReadPackageDispatch` | homework.py:151-154 | a successful read gives Swimming iff the code is `"SWM"`, Running iff `"RUN"`, SportsWalking iff `"WLK"` |
| `Dispatch.ReadPackageRoundTrip` | homework.py:149-155 | every workout is read back unchanged from its own code and positional data |
| `Dispatch.VectorInjective` | homework.py:43-128 | two workouts of the same class with the same positional data are equal |
| `Dispatch.UnknownCodes` | homework.py:151-154 | matching is exact and case-sensitive: `"run"` and `"YOGA"` fail as unknown codes carrying the code |
| `Dispatch.ArityExamples` | homework.py:154 | `RUN` with four values is an arity error (3 expected, 4 given); `SWM` with five values is read |
| `Summary.ShowTrainingInfo` | homework.py:66-73 | succeeds iff no divisor is zero, else fails with a zero division; fields in order: class name, unchanged duration, distance, speed, calories; for running and walking, speed times duration is the distance |
| `Summary.Fields` | homework.py:18-23 | five field texts: the workout type unformatted, then duration, distance, speed and calories, each through the same formatter |
| `Summary.GetMessage` | homework.py:16-29 | the message begins with `Тип тренировки: ` followed by the workout type and ends with `.` |
| `Summary.FillSplit` | homework.py:25-29 | in a filled template, value k stands after the first k values and k+1 literals and before the rest |
| `Summary.GetMessageIsFill` | homework.py:25-29 | the message is the six fixed literals interleaved with the five fields |
| `Summary.MessageFieldOrder` | homework.py:16-29 | field k (type, duration, distance, speed, calories) stands between literal k and literal k+1 of the template |
| `Pipeline.Report` | homework.py:158-162 | a read error is the result unchanged; a zero divisor gives a zero division; otherwise the message is the template filled with the class name, the duration given as the second value, and the workout's distance, speed and calories, all through one formatter |
| `Pipeline.SwimmingDemo` | homework.py:167 | `SWM [720, 1, 80, 25, 40]` summarises to Swimming, 1.0 h, 0.9936 km, 1.0 km/h, 336.0 kcal |
| `Pipeline.RunningDemo` | homework.py:168 | `RUN [15000, 1, 75]` summarises to Running, 1.0 h, 9.75 km, 9.75 km/h, 699.75 kcal |
| `Pipeline.WalkingDemo` | homework.py:169 | `WLK [9000, 1, 75, 180]` summarises to SportsWalking, 1.0 h, 5.85 km, 5.85 km/h, 157.5 kcal |

## Left out

- Printing the message (`main`'s `print`) and the demonstration loop (homework.py:158-174): these are I/O. `Pipeline.Report` models what one loop step computes, and the three demonstration packages are lemmas.
- IEEE-754 double rounding: every formula is over exact reals, so no claim is made about the last bits of a Python float (0.65 and 1.38 have no exact binary form).
- The digits that `'{:.3f}'` produces: the formatter is the parameter `fmt`. Only the template structure, the field order and the use of one formatter for every number are modelled.
- `cls.__name__` reflection in `get_classname`: each kind has a fixed label equal to its class name (`Label`).
- The base `Training.get_spent_calories`, which returns `None`: the code table never selects the base class, so the closed three-way variant has no base case.
- Python's exceptions are reduced to the three `Error` variants, with payloads of the model's own design: `KeyError` becomes `UnknownWorkoutType(code)`, the constructor's `TypeError` becomes `ArityMismatch(class, expected, given)` (Python's own message counts `self` and, for missing values, names them instead), and `ZeroDivisionError` becomes `ZeroDivision`.
- Non-numeric data values and the difference between Python `int` and `float` inputs: data is `seq<real>`.
