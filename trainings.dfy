/** The training hierarchy: a base training (step count, duration in hours,
    weight in kg) and its three variants, with distance, mean speed and spent
    calories computed by fixed formulas. Numbers are exact reals. */
module Trainings {
  import Messages

  /** Minutes in an hour, shared by the running and walking calorie formulas. */
  const HOUR_COEFF: real := 60.0

  /** Base class constants: step length in metres and metres in a kilometre. */
  const LEN_STEP: real := 0.65
  const M_IN_KM: real := 1000.0

  /** Running calorie constants. */
  const CALORIES_MEAN_SPEED_MULTIPLIER: real := 18.0
  const CALORIES_MEAN_SPEED_SHIFT: real := 1.79

  /** Sports walking calorie constants and unit conversions. */
  const CALORIE_COEFF1: real := 0.035
  const CALORIE_COEFF2: real := 0.029
  const KMH_TO_MS: real := 0.278
  const CM_TO_M: real := 100.0

  /** Swimming constants; swimming overrides the stroke length. */
  const SWIM_COEFF1: real := 1.1
  const SWIM_COEFF2: real := 2.0
  const SWIM_LEN_STEP: real := 1.38

  /** The class of a training and the fields that class adds to the base:
      walking adds the height in cm, swimming the pool length in metres and
      the number of laps. */
  datatype Kind =
    | Running
    | SportsWalking(height: real)
    | Swimming(lengthPool: real, countPool: real)

  /** A constructed training: the base fields `action` (steps or strokes),
      `duration` (hours) and `weight` (kg), and its class. */
  datatype Training = Training(action: real, duration: real, weight: real, kind: Kind)

  /** The class name a training reports in its message. */
  function TypeName(t: Training): string
  {
    match t.kind
    case Running => "Running"
    case SportsWalking(_) => "SportsWalking"
    case Swimming(_, _) => "Swimming"
  }

  /** The step (or stroke) length of the training's class, in metres. */
  function StepLength(t: Training): (r: real)
    ensures r == SWIM_LEN_STEP <==> t.kind.Swimming?
    ensures r == LEN_STEP <==> !t.kind.Swimming?
  {
    if t.kind.Swimming? then SWIM_LEN_STEP else LEN_STEP
  }

  /** The inputs on which no formula divides by zero: every mean speed
      divides by the duration, walking calories also by the height. */
  predicate Computable(t: Training)
  {
    t.duration != 0.0 && (t.kind.SportsWalking? ==> t.kind.height != 0.0)
  }

  /** Distance in km: steps times step length, converted from metres. */
  function Distance(t: Training): (r: real)
    ensures r * M_IN_KM == t.action * StepLength(t)
    ensures t.action >= 0.0 ==> r >= 0.0
  {
    t.action * StepLength(t) / M_IN_KM
  }

  /** The base class's mean speed in km/h: distance over duration. */
  function BaseMeanSpeed(t: Training): (r: real)
    requires t.duration != 0.0
    ensures r * t.duration == Distance(t)
  {
    Distance(t) / t.duration
  }

  /** Swimming's mean speed in km/h: pool length times laps, in km, over
      duration. */
  function PoolMeanSpeed(t: Training): (r: real)
    requires t.kind.Swimming? && t.duration != 0.0
    ensures r * t.duration * M_IN_KM == t.kind.lengthPool * t.kind.countPool
  {
    t.kind.lengthPool * t.kind.countPool / M_IN_KM / t.duration
  }

  /** Mean speed as each class computes it: swimming overrides it, running
      and walking inherit the base. */
  function MeanSpeed(t: Training): (r: real)
    requires t.duration != 0.0
    ensures !t.kind.Swimming? ==> r * t.duration == Distance(t)
    ensures t.kind.Swimming? ==> r * t.duration * M_IN_KM == t.kind.lengthPool * t.kind.countPool
  {
    if t.kind.Swimming? then PoolMeanSpeed(t) else BaseMeanSpeed(t)
  }

  /** Spent calories by each class's own formula, with the source's grouping.
      For every class they are the weight times a per-kg factor that does not
      depend on the weight (`CaloriesPerKg`, `CaloriesPerKgIgnoresWeight`);
      no weight burns nothing. */
  function SpentCalories(t: Training): (r: real)
    requires Computable(t)
    ensures t.weight == 0.0 ==> r == 0.0
  {
    match t.kind
    case Running =>
      (CALORIES_MEAN_SPEED_MULTIPLIER * MeanSpeed(t) + CALORIES_MEAN_SPEED_SHIFT) * t.weight
        / M_IN_KM * t.duration * HOUR_COEFF
    case SportsWalking(height) =>
      ((CALORIE_COEFF1 * t.weight)
        + (((MeanSpeed(t) * KMH_TO_MS) * (MeanSpeed(t) * KMH_TO_MS)) / (height / CM_TO_M))
          * CALORIE_COEFF2 * t.weight) * (t.duration * HOUR_COEFF)
    case Swimming(_, _) =>
      ((MeanSpeed(t) + SWIM_COEFF1) * SWIM_COEFF2) * t.weight * t.duration
  }

  /** The information message about a training: its class name, duration and
      the three computed values. */
  function ShowTrainingInfo(t: Training, fmt: real -> string): (m: Messages.InfoMessage)
    requires Computable(t)
    ensures m.trainingType == TypeName(t) && m.duration == t.duration
    ensures m.distance == Distance(t) && m.speed == MeanSpeed(t) && m.calories == SpentCalories(t)
    ensures !t.kind.Swimming? ==> m.speed * m.duration == m.distance
    ensures Messages.Rendered(m, fmt)
    ensures Messages.ParseType(Messages.GetMessage(m)) == Messages.Some(TypeName(t))
  {
    var m := Messages.NewInfoMessage(TypeName(t), t.duration, Distance(t), MeanSpeed(t),
                                     SpentCalories(t), fmt);
    Messages.MessageNamesType(m, fmt);
    m
  }

  /** Messages of trainings of different classes differ, whatever the numbers
      render as: the class name is read back from the text. */
  lemma MessageIdentifiesClass(t1: Training, t2: Training, fmt: real -> string)
    requires Computable(t1) && Computable(t2)
    requires TypeName(t1) != TypeName(t2)
    ensures Messages.GetMessage(ShowTrainingInfo(t1, fmt)) != Messages.GetMessage(ShowTrainingInfo(t2, fmt))
  {
    Messages.MessagesOfDifferentTypesDiffer(ShowTrainingInfo(t1, fmt), ShowTrainingInfo(t2, fmt), fmt);
  }

  // ----- Distance and speed -----

  /** For the same count, a swimming stroke covers 1.38 / 0.65 times the
      distance of a running step. */
  lemma SwimmingDistanceRatio(action: real, duration: real, weight: real, lengthPool: real,
                              countPool: real)
    ensures Distance(Training(action, duration, weight, Swimming(lengthPool, countPool))) * LEN_STEP
         == Distance(Training(action, duration, weight, Running)) * SWIM_LEN_STEP
  {
  }

  /** Distance grows strictly with the step count, for every class. */
  lemma DistanceIncreasesWithAction(t: Training, action: real)
    requires t.action < action
    ensures Distance(t) < Distance(t.(action := action))
  {
  }

  /** Swimming's mean speed depends only on pool length, laps and duration:
      the stroke count and the weight do not affect it. */
  lemma SwimmingSpeedIgnoresActionAndWeight(t: Training, action: real, weight: real)
    requires t.kind.Swimming? && t.duration != 0.0
    ensures MeanSpeed(t.(action := action, weight := weight)) == MeanSpeed(t)
  {
  }

  /** A positive duration and non-negative inputs give a non-negative speed. */
  lemma MeanSpeedNonNegative(t: Training)
    requires t.duration > 0.0 && t.action >= 0.0
    requires t.kind.Swimming? ==> t.kind.lengthPool * t.kind.countPool >= 0.0
    ensures MeanSpeed(t) >= 0.0
  {
  }

  // ----- Calories -----

  /** Running calories in closed form over the raw inputs: the speed term
      contributes 18 * 0.65 / 1000 per step independently of the
      duration, the shift term 1.79 per hour. */
  lemma RunningCaloriesClosedForm(t: Training)
    requires t.kind.Running? && t.duration != 0.0
    ensures SpentCalories(t)
         == (CALORIES_MEAN_SPEED_MULTIPLIER * t.action * LEN_STEP / M_IN_KM
             + CALORIES_MEAN_SPEED_SHIFT * t.duration) * t.weight / M_IN_KM * HOUR_COEFF
  {
  }

  /** Running calories are strictly positive for a non-negative step count
      and a positive weight and duration. */
  lemma RunningCaloriesPositive(t: Training)
    requires t.kind.Running? && t.action >= 0.0 && t.weight > 0.0 && t.duration > 0.0
    ensures SpentCalories(t) > 0.0
  {
  }

  /** More steps in the same time burn strictly more calories when running. */
  lemma RunningCaloriesIncreaseWithAction(t: Training, action: real)
    requires t.kind.Running? && t.weight > 0.0 && t.duration != 0.0 && t.action < action
    ensures SpentCalories(t) < SpentCalories(t.(action := action))
  {
  }

  /** Calories per kg of body weight, by each class's formula with the weight
      taken out: the weight times this factor is the calories, for every class. */
  function CaloriesPerKg(t: Training): (r: real)
    requires Computable(t)
    ensures t.weight * r == SpentCalories(t)
  {
    match t.kind
    case Running =>
      (CALORIES_MEAN_SPEED_MULTIPLIER * MeanSpeed(t) + CALORIES_MEAN_SPEED_SHIFT)
        / M_IN_KM * t.duration * HOUR_COEFF
    case SportsWalking(height) =>
      (CALORIE_COEFF1
        + (((MeanSpeed(t) * KMH_TO_MS) * (MeanSpeed(t) * KMH_TO_MS)) / (height / CM_TO_M))
          * CALORIE_COEFF2) * (t.duration * HOUR_COEFF)
    case Swimming(_, _) =>
      (MeanSpeed(t) + SWIM_COEFF1) * SWIM_COEFF2 * t.duration
  }

  /** The per-kg factor does not depend on the weight. */
  lemma CaloriesPerKgIgnoresWeight(t: Training, weight: real)
    requires Computable(t)
    ensures CaloriesPerKg(t.(weight := weight)) == CaloriesPerKg(t)
  {
  }

  /** Walking burns a positive amount per kg for a positive height and
      duration, whatever the step count. */
  lemma WalkingCaloriesPerKgPositive(t: Training)
    requires t.kind.SportsWalking? && t.kind.height > 0.0 && t.duration > 0.0
    ensures CaloriesPerKg(t) > 0.0
  {
  }

  /** Walking calories are strictly positive for positive weight, height
      and duration, whatever the step count. */
  lemma WalkingCaloriesPositive(t: Training)
    requires t.kind.SportsWalking? && t.weight > 0.0 && t.kind.height > 0.0 && t.duration > 0.0
    ensures SpentCalories(t) > 0.0
  {
  }

  /** Walking calories grow strictly with the weight. */
  lemma WalkingCaloriesIncreaseWithWeight(t: Training, weight: real)
    requires t.kind.SportsWalking? && t.kind.height > 0.0 && t.duration > 0.0 && t.weight < weight
    ensures SpentCalories(t) < SpentCalories(t.(weight := weight))
  {
    WalkingCaloriesPerKgPositive(t);
    CaloriesPerKgIgnoresWeight(t, weight);
    var r := CaloriesPerKg(t);
    assert t.weight * r < weight * r;
  }

  /** Swimming calories in closed form over the raw inputs. */
  lemma SwimmingCaloriesClosedForm(t: Training)
    requires t.kind.Swimming? && t.duration != 0.0
    ensures SpentCalories(t)
         == (t.kind.lengthPool * t.kind.countPool / M_IN_KM + SWIM_COEFF1 * t.duration)
            * SWIM_COEFF2 * t.weight
  {
  }

  /** Swimming calories are strictly positive for a positive weight and
      duration and a non-negative pool distance. */
  lemma SwimmingCaloriesPositive(t: Training)
    requires t.kind.Swimming? && t.weight > 0.0 && t.duration > 0.0
    requires t.kind.lengthPool * t.kind.countPool >= 0.0
    ensures SpentCalories(t) > 0.0
  {
  }

  /** For every class the calories are proportional to the weight: scaling
      the weight by `k` scales the calories by `k`. */
  lemma CaloriesProportionalToWeight(t: Training, k: real)
    requires Computable(t)
    ensures SpentCalories(t.(weight := k * t.weight)) == k * SpentCalories(t)
  {
  }
}
