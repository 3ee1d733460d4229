/**
  Reading a sensor package: a workout code selects one of the three workout
  classes, and the numeric data fills that class's constructor positionally.
*/
module Dispatch {
  import opened Errors
  import opened Workouts

  /** The code table: exact, case-sensitive keys. */
  const WorkoutTypes: map<string, Kind> := map["SWM" := Swim, "RUN" := Run, "WLK" := Walk]

  /** How many positional values each class's constructor takes. */
  function Arity(k: Kind): (n: nat)
    ensures 3 <= n <= 5
    ensures n == 3 <==> k == Run
    ensures n == 4 <==> k == Walk
    ensures n == 5 <==> k == Swim
  {
    match k
    case Run => 3
    case Walk => 4
    case Swim => 5
  }

  /** The code under which the table lists a kind. */
  function Code(k: Kind): (c: string)
    ensures c in WorkoutTypes && WorkoutTypes[c] == k
  {
    match k
    case Run => "RUN"
    case Walk => "WLK"
    case Swim => "SWM"
  }

  /** The positional data a workout was built from, in constructor order. */
  function Vector(w: Workout): (v: seq<real>)
    ensures |v| == Arity(KindOf(w))
    ensures v[0] == w.action && v[1] == w.duration && v[2] == w.weight
    ensures w.SportsWalking? ==> v[3] == w.height
    ensures w.Swimming? ==> v[3] == w.lengthPool && v[4] == w.countPool
  {
    match w
    case Running(action, duration, weight) => [action, duration, weight]
    case SportsWalking(action, duration, weight, height) => [action, duration, weight, height]
    case Swimming(action, duration, weight, lengthPool, countPool) =>
      [action, duration, weight, lengthPool, countPool]
  }

  /** Calls the constructor of kind `k` with `data` spread as positional arguments. */
  function Construct(k: Kind, data: seq<real>): (r: Result<Workout>)
    ensures r.Ok? <==> |data| == Arity(k)
    ensures r.Ok? ==> KindOf(r.value) == k && Vector(r.value) == data
    ensures r.Err? ==> r.error == ArityMismatch(Label(k), Arity(k), |data|)
  {
    if |data| != Arity(k) then
      Err(ArityMismatch(Label(k), Arity(k), |data|))
    else
      match k
      case Run => Ok(Running(data[0], data[1], data[2]))
      case Walk => Ok(SportsWalking(data[0], data[1], data[2], data[3]))
      case Swim => Ok(Swimming(data[0], data[1], data[2], data[3], data[4]))
  }

  /**
    Looks the code up, then builds the workout.  An unknown code fails first,
    carrying the code; a known code with the wrong number of values fails with
    the arity of the class it selects.
  */
  function ReadPackage(code: string, data: seq<real>): (r: Result<Workout>)
    ensures code !in WorkoutTypes ==> r == Err(UnknownWorkoutType(code))
    ensures code in WorkoutTypes && r.Err? ==>
              r.error == ArityMismatch(Label(WorkoutTypes[code]), Arity(WorkoutTypes[code]), |data|)
    ensures r.Ok? <==> code in WorkoutTypes && |data| == Arity(WorkoutTypes[code])
    ensures r.Ok? ==> Code(KindOf(r.value)) == code && Vector(r.value) == data
  {
    if code in WorkoutTypes then Construct(WorkoutTypes[code], data)
    else Err(UnknownWorkoutType(code))
  }

  /** The only codes the table knows are "SWM", "RUN" and "WLK", each for its own class. */
  lemma KnownCodes(code: string)
    ensures code in WorkoutTypes <==> code == "SWM" || code == "RUN" || code == "WLK"
    ensures code in WorkoutTypes ==> Code(WorkoutTypes[code]) == code
  {
  }

  /** Which class each code builds. */
  lemma ReadPackageDispatch(code: string, data: seq<real>)
    requires ReadPackage(code, data).Ok?
    ensures code == "SWM" <==> ReadPackage(code, data).value.Swimming?
    ensures code == "RUN" <==> ReadPackage(code, data).value.Running?
    ensures code == "WLK" <==> ReadPackage(code, data).value.SportsWalking?
  {
    KnownCodes(code);
  }

  /** Every workout is read back from its own code and data. */
  lemma {:induction false} ReadPackageRoundTrip(w: Workout)
    ensures ReadPackage(Code(KindOf(w)), Vector(w)) == Ok(w)
  {
    var r := ReadPackage(Code(KindOf(w)), Vector(w));
    assert r.Ok?;
    assert Vector(r.value) == Vector(w);
    VectorInjective(r.value, w);
  }

  /** A workout is determined by its class and its positional data. */
  lemma VectorInjective(w: Workout, w': Workout)
    requires KindOf(w) == KindOf(w') && Vector(w) == Vector(w')
    ensures w == w'
  {
    var v := Vector(w);
    match w
    case Running(_, _, _) =>
    case SportsWalking(_, _, _, _) =>
      assert v[3] == w.height == w'.height;
    case Swimming(_, _, _, _, _) =>
      assert v[3] == w.lengthPool == w'.lengthPool;
      assert v[4] == w.countPool == w'.countPool;
  }

  /** Matching is exact: lower-case codes and codes of other sports are unknown. */
  lemma UnknownCodes(data: seq<real>)
    ensures ReadPackage("run", data) == Err(UnknownWorkoutType("run"))
    ensures ReadPackage("YOGA", data) == Err(UnknownWorkoutType("YOGA"))
  {
    KnownCodes("run");
    KnownCodes("YOGA");
  }

  /** Running with four values is an arity error; swimming with five values is read. */
  lemma ArityExamples()
    ensures ReadPackage("RUN", [15000.0, 1.0, 75.0, 180.0]) == Err(ArityMismatch("Running", 3, 4))
    ensures ReadPackage("SWM", [720.0, 1.0, 80.0, 25.0, 40.0]) == Ok(Swimming(720.0, 1.0, 80.0, 25.0, 40.0))
  {
    ReadPackageRoundTrip(Swimming(720.0, 1.0, 80.0, 25.0, 40.0));
  }
}
