/** The activity model of the fitness tracker: three kinds of workout that
    share the fields of a base training (steps or strokes, hours, kilograms)
    and turn them into a distance in km, a mean speed in km/h and the calories
    spent. Python floats are idealised as `real`. */
module Training {

  /** One workout as read from the sensors. Every field keeps the value the
      caller supplied: the source stores its arguments unchecked. */
  datatype Training =
    | Running(action: real, duration: real, weight: real)
    | SportsWalking(action: real, duration: real, weight: real, height: real)
    | Swimming(action: real, duration: real, weight: real, lengthPool: real, countPool: real)

  /** The base class's step length in metres, which Running and SportsWalking keep. */
  const LenStep: real := 0.65
  /** Swimming shadows the step length with the length of one stroke. */
  const SwimmingLenStep: real := 1.38
  /** Metres in a kilometre. */
  const MInKm: real := 1000.0

  /** The class-level `LEN_STEP` as seen from an instance of the given kind. */
  function StepLength(t: Training): (len: real)
    ensures len == LenStep || len == SwimmingLenStep
    ensures t.Swimming? <==> len > LenStep
  {
    if t.Swimming? then SwimmingLenStep else LenStep
  }

  /** What the caller must avoid for the formulas to be defined: every mean
      speed divides by the duration, and walking calories floor-divide by the
      height. The source raises a division error in both cases. */
  predicate Computable(t: Training): (ok: bool)
    ensures ok ==> t.duration != 0.0
    ensures ok && t.SportsWalking? ==> t.height != 0.0
    ensures !t.SportsWalking? ==> (ok <==> t.duration != 0.0)
  {
    t.duration != 0.0 && (t.SportsWalking? ==> t.height != 0.0)
  }

  /** `get_distance`, never overridden: the same action-based formula for all
      three kinds, so a swim's distance ignores the pool entirely. */
  function Distance(t: Training): (km: real)
    ensures t.action >= 0.0 ==> km >= 0.0
    ensures km == 0.0 <==> t.action == 0.0
    ensures t.action > 0.0 && t.Swimming? ==> km > t.action / MInKm
    ensures t.action > 0.0 && !t.Swimming? ==> km < t.action / MInKm
  {
    t.action * StepLength(t) / MInKm
  }

  /** `get_mean_speed`: distance over duration for Running and SportsWalking;
      Swimming overrides it with pool length times pool count, per kilometre,
      over duration. */
  function MeanSpeed(t: Training): (kmh: real)
    requires t.duration != 0.0
    ensures !t.Swimming? ==> kmh * t.duration == Distance(t)
    ensures t.Swimming? ==> kmh * t.duration * MInKm == t.lengthPool * t.countPool
  {
    match t
    case Swimming(_, duration, _, lengthPool, countPool) =>
      lengthPool * countPool / MInKm / duration
    case _ =>
      Distance(t) / t.duration
  }

  /** Python's `//` on floats: the greatest whole number not above the
      quotient (it rounds toward minus infinity, not toward zero). */
  function FloorDiv(a: real, b: real): (q: real)
    requires b != 0.0
    ensures q == q.Floor as real
    ensures q <= a / b < q + 1.0
  {
    (a / b).Floor as real
  }

  /** The base class's `get_spent_calories`, applied to whatever mean speed
      the instance's own `get_mean_speed` gives. */
  function DefaultCalories(t: Training): (kcal: real)
    requires t.duration != 0.0
    ensures t.weight > 0.0 ==> (kcal > 0.0 <==> MeanSpeed(t) > -1.1)
    ensures t.weight == 0.0 ==> kcal == 0.0
  {
    (MeanSpeed(t) + 1.1) * 2.0 * t.weight
  }

  /** SportsWalking's `get_spent_calories` on its mean speed: a weight term
      plus a term scaled by the squared speed floor-divided by the height, all
      per minute of the workout. */
  function WalkingCalories(speed: real, weight: real, duration: real, height: real): (kcal: real)
    requires height != 0.0
    ensures weight == 0.0 || duration == 0.0 ==> kcal == 0.0
  {
    (0.035 * weight + FloorDiv(speed * speed, height) * 0.029 * weight) * (duration * 60.0)
  }

  /** `get_spent_calories` as each kind overrides it. Running's expression
      binds as `18*speed - ((20*weight/1000) * (duration*60))`, so the weight
      term is subtracted from the speed term rather than scaling it;
      SportsWalking floor-divides the squared speed by the height; Swimming
      repeats the base formula with its own mean speed. */
  function Calories(t: Training): (kcal: real)
    requires Computable(t)
    ensures t.Running? ==> kcal + 1.2 * t.weight * t.duration == 18.0 * MeanSpeed(t)
    ensures t.SportsWalking? ==> kcal == WalkingCalories(MeanSpeed(t), t.weight, t.duration, t.height)
    ensures t.Swimming? ==> kcal == DefaultCalories(t)
  {
    match t
    case Running(_, duration, weight) =>
      18.0 * MeanSpeed(t) - 20.0 * weight / MInKm * (duration * 60.0)
    case SportsWalking(_, duration, weight, height) =>
      WalkingCalories(MeanSpeed(t), weight, duration, height)
    case Swimming(_, _, weight, _, _) =>
      (MeanSpeed(t) + 1.1) * 2.0 * weight
  }

  /** The summary record handed to the report line. */
  datatype InfoMessage = InfoMessage(
    trainingType: string,
    duration: real,
    distance: real,
    speed: real,
    calories: real)

  /** The class name the source reads back by reflection, as a fixed table. */
  function TypeName(t: Training): (name: string)
    ensures name in {"Running", "SportsWalking", "Swimming"}
  {
    match t
    case Running(_, _, _) => "Running"
    case SportsWalking(_, _, _, _) => "SportsWalking"
    case Swimming(_, _, _, _, _) => "Swimming"
  }

  /** `show_training_info`: the stored duration and the three computed values,
      under the kind's own name. */
  function ShowTrainingInfo(t: Training): (m: InfoMessage)
    requires Computable(t)
    ensures m.trainingType == TypeName(t)
    ensures m.duration == t.duration
    ensures m.distance == Distance(t) && m.speed == MeanSpeed(t) && m.calories == Calories(t)
  {
    InfoMessage(TypeName(t), t.duration, Distance(t), MeanSpeed(t), Calories(t))
  }

  /** The display name tells the three kinds apart. */
  lemma TypeNameIdentifiesKind(a: Training, b: Training)
    ensures TypeName(a) == TypeName(b) <==>
      (a.Running? && b.Running?) || (a.SportsWalking? && b.SportsWalking?) || (a.Swimming? && b.Swimming?)
  {
  }

  /** Distance is the action count times 0.65 m for Running and SportsWalking
      and 1.38 m for Swimming, in kilometres. */
  lemma DistancePerKind(t: Training)
    ensures t.Running? ==> Distance(t) == t.action * 0.65 / 1000.0
    ensures t.SportsWalking? ==> Distance(t) == t.action * 0.65 / 1000.0
    ensures t.Swimming? ==> Distance(t) == t.action * 1.38 / 1000.0
  {
  }

  /** Distance is linear in the action count: scaling the steps or strokes by
      `k` scales the distance by `k`, for every kind. */
  lemma DistanceLinear(t: Training, k: real)
    ensures Distance(t.(action := k * t.action)) == k * Distance(t)
  {
  }

  /** A swim's distance does not depend on the pool: only the stroke count matters. */
  lemma SwimmingDistanceIgnoresPool(action: real, duration: real, weight: real,
                                    lengthPool: real, countPool: real, lengthPool': real, countPool': real)
    ensures Distance(Swimming(action, duration, weight, lengthPool, countPool))
         == Distance(Swimming(action, duration, weight, lengthPool', countPool'))
  {
  }

  /** A swim's mean speed does not depend on the stroke count, so distance
      and speed of a swim are unrelated quantities. */
  lemma SwimmingSpeedIgnoresAction(action: real, action': real, duration: real, weight: real,
                                   lengthPool: real, countPool: real)
    requires duration != 0.0
    ensures MeanSpeed(Swimming(action, duration, weight, lengthPool, countPool))
         == MeanSpeed(Swimming(action', duration, weight, lengthPool, countPool))
  {
  }

  /** More steps in the same positive time never lower a run's calories. */
  lemma RunningCaloriesMonotoneInAction(action: real, action': real, duration: real, weight: real)
    requires duration > 0.0 && action <= action'
    ensures Calories(Running(action, duration, weight)) <= Calories(Running(action', duration, weight))
  {
  }

  /** As the expression binds, the weight term is subtracted from the speed
      term, so a heavier runner with the same steps and positive time burns
      fewer calories. */
  lemma RunningCaloriesFallWithWeight(action: real, duration: real, weight: real, weight': real)
    requires duration > 0.0 && weight < weight'
    ensures Calories(Running(action, duration, weight')) < Calories(Running(action, duration, weight))
  {
  }

  /** Swimming's override of `get_spent_calories` computes exactly what the
      inherited default would. */
  lemma SwimmingCaloriesAreDefault(t: Training)
    requires t.Swimming? && t.duration != 0.0
    ensures Calories(t) == DefaultCalories(t)
  {
  }

  /** Running and SportsWalking share distance and speed: only the calorie
      formula tells them apart. */
  lemma WalkingMovesLikeRunning(action: real, duration: real, weight: real, height: real)
    requires duration != 0.0
    ensures Distance(SportsWalking(action, duration, weight, height)) == Distance(Running(action, duration, weight))
    ensures MeanSpeed(SportsWalking(action, duration, weight, height)) == MeanSpeed(Running(action, duration, weight))
  {
  }

  /** A non-negative quotient of a smaller number by a larger positive one
      lies in [0, 1), so its floor is zero. */
  lemma FloorDivBelowDivisor(p: real, h: real)
    requires 0.0 <= p < h
    ensures FloorDiv(p, h) == 0.0
  {
  }

  /** When the squared speed is below a positive height, the floor division
      is zero and a walk's calories are the weight term alone. */
  lemma WalkingCaloriesBelowHeight(speed: real, weight: real, duration: real, height: real)
    requires height > 0.0 && speed * speed < height
    ensures WalkingCalories(speed, weight, duration, height) == 0.035 * weight * (duration * 60.0)
  {
  }

  /** With a positive height, non-negative weight and duration, the
      floor-divided speed term can only add to a walk's calories. */
  lemma WalkingCaloriesAtLeastWeightTerm(speed: real, weight: real, duration: real, height: real)
    requires height > 0.0 && weight >= 0.0 && duration >= 0.0
    ensures WalkingCalories(speed, weight, duration, height) >= 0.035 * weight * (duration * 60.0)
  {
  }

  /** A SportsWalking workout whose squared mean speed is below its positive
      height burns only the weight term, whatever the sign of its weight or
      duration. */
  lemma WalkingWorkoutCaloriesBelowHeight(t: Training)
    requires t.SportsWalking? && t.duration != 0.0 && t.height > 0.0
    requires MeanSpeed(t) * MeanSpeed(t) < t.height
    ensures Calories(t) == 0.035 * t.weight * (t.duration * 60.0)
  {
    WalkingCaloriesBelowHeight(MeanSpeed(t), t.weight, t.duration, t.height);
  }

  /** A SportsWalking workout with positive height and duration and
      non-negative weight burns at least the weight term. */
  lemma WalkingWorkoutCaloriesAtLeastWeightTerm(t: Training)
    requires t.SportsWalking? && t.duration > 0.0 && t.height > 0.0 && t.weight >= 0.0
    ensures Calories(t) >= 0.035 * t.weight * (t.duration * 60.0)
  {
    WalkingCaloriesAtLeastWeightTerm(MeanSpeed(t), t.weight, t.duration, t.height);
  }
}
