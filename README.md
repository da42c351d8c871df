# Fitness tracker training model

A Dafny model of `homework.py`, a small fitness-tracker module. Three kinds of
workout share a base training: running, sports walking and swimming. Each turns
raw sensor readings into three values: the distance in km, the mean speed in
km/h and the calories spent. The readings are the action count (steps or
strokes), the duration in hours, the weight in kg, plus the walker's height or
the pool's length and lap count. `read_package` picks the kind from a
three-letter code and fills its fields from a flat list of values.
`show_training_info` packs the results into an `InfoMessage` record.

The code is pure: nothing is updated after construction. So the model is pure
too. Module `Training` (training.dfy) holds the
workout datatype (one constructor per class), the per-kind formulas, the
message record and their properties. Module `Package` (package.dfy) holds the
dispatcher and its round trip. Module `Samples` (samples.dfy) reads and
summarises the three sample packages that the source ships with.

Three behaviours are modelled exactly as the code is written:

- Swimming never overrides `get_distance`. Its distance is therefore the stroke
  count times 1.38 m, and the pool plays no part in it.
- In Running's calorie expression, the subtraction binds last. The code computes
  `18*speed - (20*weight/1000)*(duration*60)`. The grouped form
  `(18*speed - 20)*weight/1000*(duration*60)` is a different formula, and the
  code does not compute it. For the sample `('RUN', [15000, 1, 75])` the model
  gives 85.5 calories (`Samples.RunningSample`). The grouped form would give
  699.75.
- SportsWalking floor-divides the squared speed by the height. Python's `//` on
  floats rounds toward minus infinity. `Training.FloorDiv` states that meaning.

Division by zero is not handled by the source. A zero duration, or a zero
height for a walk, raises Python's division error. The model states both as
preconditions (`Training.Computable`). Field values are not otherwise checked,
which matches the source.

## Model

| member | source | states |
|---|---|---|
| Training.StepLength | homework.py:27-28 | the class-level `LEN_STEP` seen from an instance is 0.65 or 1.38, and it exceeds the base step exactly for Swimming, whose class shadows it (homework.py:111) |
| Training.Computable | homework.py:43-46 | the inputs on which no ZeroDivisionError is raised: a non-zero duration (divided by in every mean speed, also at homework.py:129), and for a walk also a non-zero height (the floor division at homework.py:105); for Running and Swimming the duration alone decides |
| Training.Distance | homework.py:38-41 | the distance is non-negative for a non-negative action count and zero exactly when the count is zero; per unit of action it exceeds 1 m for a swim and stays below 1 m otherwise |
| Training.DistancePerKind | homework.py:27-41 | distance is action × 0.65 / 1000 for Running and SportsWalking and action × 1.38 / 1000 for Swimming, through the shadowed `LEN_STEP` and the inherited `get_distance` |
| Training.DistanceLinear | homework.py:38-41 | scaling the action count by k scales the distance by k, for every kind |
| Training.SwimmingDistanceIgnoresPool | homework.py:110-124 | a swim's distance is the same whatever the pool length and lap count, because `get_distance` is not overridden |
| Training.MeanSpeed | homework.py:43-46 | speed × duration equals the distance for Running and SportsWalking; for Swimming, speed × duration × 1000 equals pool length × lap count |
| Training.SwimmingSpeedIgnoresAction | homework.py:126-131 | a swim's mean speed is the same whatever the stroke count |
| Training.WalkingMovesLikeRunning | homework.py:87-97 | a walk and a run with the same base fields have the same distance and the same mean speed |
| Training.FloorDiv | homework.py:105 | Python's float floor division gives a whole number q with q ≤ a/b < q + 1 |
| Training.DefaultCalories | homework.py:48-55 | the base calorie formula is zero at zero weight; for a positive weight it is positive exactly when the mean speed exceeds -1.1 km/h |
| Training.WalkingCalories | homework.py:99-107 | a walk's calories are zero when the weight or the duration is zero |
| Training.Calories | homework.py:77-84 | a run's calories plus 1.2 × weight × duration equal 18 × mean speed, as the expression binds; a walk's calories are SportsWalking's formula applied to its own mean speed; a swim's equal the base-class default |
| Training.RunningCaloriesMonotoneInAction | homework.py:77-84 | for a positive duration, a run with more steps burns at least as many calories |
| Training.RunningCaloriesFallWithWeight | homework.py:77-84 | for a positive duration, a heavier runner with the same steps burns fewer calories, because the weight term is subtracted as the expression binds |
| Training.SwimmingCaloriesAreDefault | homework.py:133-136 | Swimming's override of `get_spent_calories` computes exactly what the inherited default computes on Swimming's own mean speed |
| Training.FloorDivBelowDivisor | homework.py:105 | floor-dividing a non-negative number by a larger positive one gives 0 |
| Training.WalkingCaloriesBelowHeight | homework.py:99-107 | when the squared speed is below a positive height, a walk's calories reduce to 0.035 × weight × duration × 60 |
| Training.WalkingCaloriesAtLeastWeightTerm | homework.py:99-107 | with a positive height and non-negative weight and duration, a walk burns at least 0.035 × weight × duration × 60 |
| Training.WalkingWorkoutCaloriesBelowHeight | homework.py:99-107 | a SportsWalking workout with non-zero duration, positive height and squared mean speed below the height burns exactly 0.035 × weight × duration × 60, whatever the sign of weight and duration |
| Training.WalkingWorkoutCaloriesAtLeastWeightTerm | homework.py:99-107 | a SportsWalking workout with positive duration and height and non-negative weight burns at least 0.035 × weight × duration × 60 |
| Training.TypeName | homework.py:58 | the display name is one of "Running", "SportsWalking", "Swimming" |
| Training.TypeNameIdentifiesKind | homework.py:58 | two workouts have the same display name exactly when they are of the same kind |
| Training.ShowTrainingInfo | homework.py:57-62 | the message carries the kind's name, the stored duration, and exactly the computed distance, mean speed and calories |
| Package.Arity | homework.py:118-121 | each kind's constructor takes between 3 and 5 positional values: Running 3 (homework.py:71), SportsWalking 4 (homework.py:92-94), Swimming 5 |
| Package.KindOf | homework.py:58 | the class of a workout (`type(self)`) as a kind: Run exactly for Running, Walk exactly for SportsWalking, Swim exactly for Swimming |
| Package.CodeOf | homework.py:140 | every workout's code is in the table and maps back to that workout's kind |
| Package.Fields | homework.py:139-142 | a workout's package has 3, 4 or 5 values by kind and starts with action, duration, weight |
| Package.Build | homework.py:139-142 | the constructor assigns the values positionally: base fields first, then height, or pool length then lap count |
| Package.ReadPackage | homework.py:139-142 | an unknown code fails with UnknownCode whatever the data; a known code fails with FieldCountMismatch, naming received and expected counts, exactly when the count differs from the kind's arity; on success the workout is of the kind the code names |
| Package.KnownCodes | homework.py:140 | the table `TrainingCodes` (the dict of homework.py:140) knows only "SWM", "RUN" and "WLK" are known; they name Swimming (5 values), Running (3) and SportsWalking (4) |
| Package.ReadPackageRoundTrip | homework.py:139-142 | every workout is read back unchanged from its own code and fields |
| Package.ReadPackageInverse | homework.py:139-142 | a package that reads successfully is exactly the code and fields of the workout it yields |
| Samples.SwimmingSample | homework.py:153 | ('SWM', [720, 1, 80, 25, 40]) gives distance 0.9936, speed 1.0 and 336.0 calories |
| Samples.RunningSample | homework.py:154 | ('RUN', [15000, 1, 75]) gives distance 9.75, speed 9.75 and 85.5 calories, as the calorie expression binds |
| Samples.WalkingSample | homework.py:155 | ('WLK', [9000, 1, 75, 180]) gives distance 5.85, speed 5.85 and 157.5 calories |
| Samples.RejectedSamples | homework.py:139-142 | an unknown code and a too-short package are refused with the matching error |

## Left out

- Python floats are idealised as exact `real` arithmetic. IEEE-754 rounding is not modelled. So the sample values are exact (0.9936, not the nearest double).
- Python's int/float distinction is not modelled. `action` and `count_pool` are annotated `int`, but Python does not enforce annotations, and `read_package` stores the values it is given. All fields are `real`.
- Non-numeric package values are not modelled. A package is a sequence of reals.
- Division by zero is a precondition, not an error value, because the source does not handle it (it raises).
- `main` and the `__main__` print loop (homework.py:145-160) are console I/O. The sample packages become the lemmas in `Samples`.
- `InfoMessage.get_message` (homework.py:16-22) renders floats with three decimals in a localised template. This is string formatting, so the message is modelled as its five fields only.
- `type(self).__name__` reflection is replaced by a fixed kind-to-name table (`Training.TypeName`).
- The repeated field assignments in `Running.__init__` (homework.py:72-75) have no observable effect and are not modelled.
- The failures of `read_package` are a Python `KeyError` and a `TypeError` from the constructor call. The model gives them as two typed errors carrying the code and the counts, not Python's exception messages.
