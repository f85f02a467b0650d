# Fitness tracker calculations, modelled in Dafny

This project models the calculation core of a small fitness-tracker module
(`homework.py`). A training holds a step or stroke count (`action`), a
duration in hours and a weight in kg. Its class is running, sports walking
(which adds a height in cm) or swimming (which adds a pool length in metres
and a lap count). From these a training computes its distance in km, its
mean speed in km/h and its spent calories, each by a fixed formula. It can
also summarise itself as an information message. A dispatcher reads a
sensor package: a workout code (`RUN`, `WLK`, `SWM`) and a list of numbers
passed to the matching constructor.

The model is purely functional, like the source: every getter is one
expression over fields set once at construction.

- `messages.dfy`, module `Messages`: the information message. It holds five
  stored values and the text rendered from them. `fmt` stands for the
  three-decimal number rendering. The type name can be parsed back out of
  the text.
- `trainings.dfy`, module `Trainings`: the constants and the `Training`
  datatype (base fields plus a `Kind`: `Running`, `SportsWalking(height)` or
  `Swimming(lengthPool, countPool)`). It also has distance, mean speed
  (base and swimming override), calories with the source's exact grouping,
  the info message, and the lemmas about them.
- `dispatch.dfy`, module `Dispatch`: the workout table and `ReadPackage`.
  The result is a `Package`: a built training, the unknown-code message, or
  an arity error standing for the constructor's `TypeError`.
- `samples.dfy`, module `Samples`: the three sample packages of the
  simulation, computed exactly.

All numbers are exact `real`s. Python raises `ZeroDivisionError` when
`duration` is 0 (every mean speed divides by it) and when a walk's height is
0. The predicate `Trainings.Computable` excludes exactly those inputs. The
positivity lemmas additionally assume strictly positive inputs.

For the sample ('RUN', [15000, 1, 75]), the formula at homework.py:78-81
gives exactly 797.805 calories: (18 · 9.75 + 1.79) · 75 / 1000 · 1 · 60.
`Samples.RunningSample` proves it. The swimming sample's distance is
720 · 1.38 / 1000 = 0.9936 km (`Samples.SwimmingSample`).

## Model

| member | source | states |
|---|---|---|
| Messages.Render | homework.py:19-24 | the message text begins with the type label, the training type and the field separator, and ends with a full stop |
| Messages.NewInfoMessage | homework.py:7-24 | a new message keeps its five arguments unchanged and stores the text rendered from exactly those values |
| Messages.GetMessage | homework.py:26-28 | returns the text stored when the message was built, unchanged, on every call |
| Messages.NewMessageText | homework.py:19-28 | the text a new message returns is the template filled with exactly the values it was built from |
| Messages.MessageNamesType | homework.py:19-28 | the text `get_message` returns gives back the message's training type unambiguously, whatever the numbers render as |
| Messages.MessagesOfDifferentTypesDiffer | homework.py:19-28 | two messages with different training types have different texts |
| Trainings.StepLength | homework.py:110 | the step length is 1.38 m exactly for swimming (its override) and the base 0.65 m exactly for the other classes |
| Trainings.Distance | homework.py:46-48 | distance times 1000 equals the count times the class's step length (1.38 m for swimming, 0.65 m otherwise); it is non-negative for a non-negative count |
| Trainings.BaseMeanSpeed | homework.py:50-52 | for a non-zero duration, the base mean speed times the duration equals the distance |
| Trainings.PoolMeanSpeed | homework.py:126-128 | swimming speed times duration times 1000 equals pool length times lap count |
| Trainings.MeanSpeed | homework.py:50-52 | running and walking inherit the base speed (speed × duration = distance); swimming uses the pool override |
| Trainings.ShowTrainingInfo | homework.py:58-64 | the message carries the class name, the duration and the three getter results; its stored text is the template filled with exactly those five values; for running and walking its speed × duration equals its distance; its text parses back to the class name |
| Trainings.MessageIdentifiesClass | homework.py:58-64 | trainings whose class names differ always produce different message texts, whatever the numbers render as |
| Trainings.SwimmingDistanceRatio | homework.py:110 | for the same count, swimming distance × 0.65 equals running distance × 1.38 |
| Trainings.DistanceIncreasesWithAction | homework.py:46-48 | more steps give strictly more distance, for every class |
| Trainings.SwimmingSpeedIgnoresActionAndWeight | homework.py:126-128 | swimming speed does not change when the stroke count or the weight changes |
| Trainings.MeanSpeedNonNegative | homework.py:50-52 | with a positive duration, a non-negative count (and, for swimming, a non-negative pool distance) gives a non-negative speed |
| Trainings.RunningCaloriesClosedForm | homework.py:78-81 | running calories equal (18 · count · 0.65 / 1000 + 1.79 · duration) · weight / 1000 · 60 |
| Trainings.RunningCaloriesPositive | homework.py:78-81 | running calories are strictly positive for count ≥ 0, weight > 0 and duration > 0 |
| Trainings.RunningCaloriesIncreaseWithAction | homework.py:78-81 | with positive weight, more steps in the same time give strictly more running calories |
| Trainings.SpentCalories | homework.py:78-124 | each class's `get_spent_calories` formula with its grouping (running, walking, swimming overrides); a training with zero weight burns zero calories |
| Trainings.CaloriesPerKg | homework.py:78-124 | for every class, the weight times this per-kg factor (the class's calorie formula with the weight taken out) equals the spent calories, i.e. calories are linear in the weight |
| Trainings.WalkingCaloriesPerKgPositive | homework.py:99-103 | the walking per-kg factor is strictly positive for positive height and duration, whatever the step count |
| Trainings.WalkingCaloriesPositive | homework.py:99-103 | walking calories are strictly positive for positive weight, height and duration |
| Trainings.WalkingCaloriesIncreaseWithWeight | homework.py:99-103 | with positive height and duration, walking calories grow strictly with the weight |
| Trainings.SwimmingCaloriesClosedForm | homework.py:122-124 | swimming calories equal (pool length · laps / 1000 + 1.1 · duration) · 2 · weight |
| Trainings.SwimmingCaloriesPositive | homework.py:122-124 | swimming calories are strictly positive for positive weight and duration and a non-negative pool distance |
| Trainings.CaloriesProportionalToWeight | homework.py:78-124 | for every class, scaling the weight by k scales the calories by k |
| Dispatch.Construct | homework.py:135 | a constructor succeeds exactly when the list has its arity (3, 4 or 5); the built training has that class, and its parameters are the list; otherwise the result is the arity error |
| Dispatch.ReadPackage | homework.py:131-137 | an unknown code gives the unknown-type message with the code appended, a known code with the wrong arity gives the arity error, and otherwise the result is a training of the table's class with exactly the given parameters |
| Dispatch.OnlyKnownCodesBuild | homework.py:133-135 | only `RUN`, `WLK` and `SWM` build a training, and they build Running, SportsWalking and Swimming respectively |
| Dispatch.ReadPackageRoundTrip | homework.py:131-137 | every training is read back from its own code and constructor parameters |
| Dispatch.ParamsDetermineTraining | homework.py:72-120 | two trainings of the same class with the same constructor parameters are equal |
| Dispatch.ReadPackageBuiltIsUnique | homework.py:131-137 | a built training determines the code and parameter list that produced it |
| Samples.SwimmingSample | homework.py:149 | ('SWM', [720, 1, 80, 25, 40]) gives distance 0.9936, speed exactly 1.0 and calories exactly 336 |
| Samples.RunningSample | homework.py:150 | ('RUN', [15000, 1, 75]) gives distance and speed exactly 9.75 and calories exactly 797.805 |
| Samples.WalkingSample | homework.py:151 | ('WLK', [9000, 1, 75, 180]) gives distance and speed 5.85 and calories exactly 349.251747525 |
| Samples.ErrorSamples | homework.py:134-137 | an unknown code gives its message, and a running package with four numbers gives the arity error |

## Left out

- The `main` function and the `__main__` driver (homework.py:140-156) only print and loop over the sample packages. The samples appear as lemmas.
- `:.3f` number rendering: IEEE-754 rounding and decimal formatting are not modelled. The message text takes a formatter `fmt` as a parameter, so nothing about digit counts is proved.
- IEEE-754 floating point in general: all arithmetic is exact `real`. The rendered numbers and the float results can therefore differ from the model's in the last digits.
- The base `Training.get_spent_calories` returns `None`, and a base `Training` can be built directly. Neither is modelled: `Kind` has only the three classes the dispatcher constructs.
- `type(self).__name__` is a fixed name per class (`TypeName`).
- `*data` unpacking is an explicit length check on a `seq<real>`. So `action`, `length_pool` and `count_pool` are reals, not Python ints, and non-numeric list elements are not modelled.
- `Training.M_IN_HOUR` is declared but used by no formula, so it is not modelled.
- `Trainings.MeanSpeed`, `Trainings.SpentCalories`, `Trainings.ShowTrainingInfo`: division by zero (`ZeroDivisionError`) is a precondition, not an error result, because the source raises and never handles it.
- The mixed return type of `read_package` (a training or a string) becomes the `Package` datatype. The string case keeps its exact text.
