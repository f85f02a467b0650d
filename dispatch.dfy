/** Reading a sensor package: a workout code selects a training class and the
    list of numbers is passed to its constructor positionally. */
module Dispatch {
  import opened Trainings

  /** The three constructors the dispatcher can call. */
  datatype WorkoutClass = RunningClass | SportsWalkingClass | SwimmingClass

  /** The code-to-class table. */
  const WORKOUTS: map<string, WorkoutClass> :=
    map["RUN" := RunningClass, "WLK" := SportsWalkingClass, "SWM" := SwimmingClass]

  /** The text returned for a code not in the table; the code is appended. */
  const UNKNOWN_PREFIX: string := "Неизвестный тип тренировки: "

  /** What reading a package yields: a constructed training, the message text
      for an unknown code, or the constructor's refusal of a parameter list
      of the wrong length. */
  datatype Package =
    | Built(training: Training)
    | UnknownType(message: string)
    | ArityMismatch(workoutClass: WorkoutClass, given: nat)

  /** How many positional parameters each constructor takes. */
  function Arity(c: WorkoutClass): nat
  {
    match c
    case RunningClass => 3
    case SportsWalkingClass => 4
    case SwimmingClass => 5
  }

  /** The class a training was constructed by. */
  function ClassOf(t: Training): WorkoutClass
  {
    match t.kind
    case Running => RunningClass
    case SportsWalking(_) => SportsWalkingClass
    case Swimming(_, _) => SwimmingClass
  }

  /** The constructor's positional parameters that rebuild `t`. */
  function Params(t: Training): (data: seq<real>)
    ensures |data| == Arity(ClassOf(t))
    ensures data[..3] == [t.action, t.duration, t.weight]
  {
    match t.kind
    case Running => [t.action, t.duration, t.weight]
    case SportsWalking(height) => [t.action, t.duration, t.weight, height]
    case Swimming(lengthPool, countPool) => [t.action, t.duration, t.weight, lengthPool, countPool]
  }

  /** Calls the class's constructor with `data`, or reports the arity error. */
  function Construct(c: WorkoutClass, data: seq<real>): (r: Package)
    ensures r.Built? || r.ArityMismatch?
    ensures r.Built? <==> |data| == Arity(c)
    ensures r.Built? ==> ClassOf(r.training) == c && Params(r.training) == data
    ensures r.ArityMismatch? ==> r == ArityMismatch(c, |data|)
  {
    if |data| != Arity(c) then ArityMismatch(c, |data|)
    else match c
      case RunningClass => Built(Training(data[0], data[1], data[2], Running))
      case SportsWalkingClass => Built(Training(data[0], data[1], data[2], SportsWalking(data[3])))
      case SwimmingClass => Built(Training(data[0], data[1], data[2], Swimming(data[3], data[4])))
  }

  /** Reads one package: looks the code up and constructs the training. */
  function ReadPackage(code: string, data: seq<real>): (r: Package)
    ensures r.UnknownType? <==> code !in WORKOUTS
    ensures r.UnknownType? ==> r.message == UNKNOWN_PREFIX + code
    ensures r.ArityMismatch? <==> code in WORKOUTS && |data| != Arity(WORKOUTS[code])
    ensures r.Built? ==> code in WORKOUTS && ClassOf(r.training) == WORKOUTS[code]
                         && Params(r.training) == data
  {
    if code in WORKOUTS then Construct(WORKOUTS[code], data)
    else UnknownType(UNKNOWN_PREFIX + code)
  }

  /** The code under which the table lists a class. */
  function CodeOf(c: WorkoutClass): (code: string)
    ensures code in WORKOUTS && WORKOUTS[code] == c
  {
    match c
    case RunningClass => "RUN"
    case SportsWalkingClass => "WLK"
    case SwimmingClass => "SWM"
  }

  /** Only the three codes yield a training, each its own class. */
  lemma OnlyKnownCodesBuild(code: string, data: seq<real>)
    requires ReadPackage(code, data).Built?
    ensures code == "RUN" || code == "WLK" || code == "SWM"
    ensures code == "RUN" ==> ReadPackage(code, data).training.kind.Running?
    ensures code == "WLK" ==> ReadPackage(code, data).training.kind.SportsWalking?
    ensures code == "SWM" ==> ReadPackage(code, data).training.kind.Swimming?
  {
  }

  /** Every training is read back from its own code and parameters. */
  lemma ReadPackageRoundTrip(t: Training)
    ensures ReadPackage(CodeOf(ClassOf(t)), Params(t)) == Built(t)
  {
  }

  /** Parameters and class together determine the training. */
  lemma ParamsDetermineTraining(t1: Training, t2: Training)
    requires ClassOf(t1) == ClassOf(t2) && Params(t1) == Params(t2)
    ensures t1 == t2
  {
  }

  /** Conversely, a built training is exactly the one its parameters name. */
  lemma ReadPackageBuiltIsUnique(code: string, data: seq<real>, t: Training)
    requires ReadPackage(code, data) == Built(t)
    ensures code == CodeOf(ClassOf(t)) && data == Params(t)
  {
  }
}
