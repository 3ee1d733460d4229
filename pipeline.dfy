/**
  One package end to end: read the workout, compute its summary and render
  the message.  Printing the message is not modelled; `fmt` stands for the
  three-decimal number formatter.
*/
module Pipeline {
  import opened Errors
  import opened Workouts
  import opened Dispatch
  import opened Summary

  /** The message for one `(code, data)` package, or the error that stops it. */
  function Report(code: string, data: seq<real>, fmt: real -> string): (r: Result<string>)
    ensures code !in WorkoutTypes ==> r == Err(UnknownWorkoutType(code))
    ensures ReadPackage(code, data).Err? ==> r == Err(ReadPackage(code, data).error)
    ensures ReadPackage(code, data).Ok? ==>
              (r.Ok? <==> DivisorsNonZero(ReadPackage(code, data).value))
              && (r.Err? ==> r.error == ZeroDivision)
    ensures r.Ok? ==>
              var name := Label(WorkoutTypes[code]);
              |r.value| > |Literals[0]| + |name|
              && r.value[..|Literals[0]| + |name|] == Literals[0] + name
    ensures r.Ok? ==>
              var w := ReadPackage(code, data).value;
              r.value == Fill(Literals, [Label(KindOf(w)), fmt(data[1]), fmt(Distance(w)),
                                         fmt(MeanSpeed(w)), fmt(Calories(w))])
  {
    match ReadPackage(code, data)
    case Err(e) => Err(e)
    case Ok(w) =>
      match ShowTrainingInfo(w)
      case Err(e) => Err(e)
      case Ok(m) =>
        GetMessageIsFill(m, fmt);
        Ok(GetMessage(m, fmt))
  }

  // ---------------------------------------------------------------------------
  // The three demonstration packages

  lemma SwimmingDemo()
    ensures ReadPackage("SWM", [720.0, 1.0, 80.0, 25.0, 40.0]).Ok?
    ensures ShowTrainingInfo(ReadPackage("SWM", [720.0, 1.0, 80.0, 25.0, 40.0]).value)
         == Ok(InfoMessage("Swimming", 1.0, 0.9936, 1.0, 336.0))
  {
    ReadPackageRoundTrip(Swimming(720.0, 1.0, 80.0, 25.0, 40.0));
  }

  lemma RunningDemo()
    ensures ReadPackage("RUN", [15000.0, 1.0, 75.0]).Ok?
    ensures ShowTrainingInfo(ReadPackage("RUN", [15000.0, 1.0, 75.0]).value)
         == Ok(InfoMessage("Running", 1.0, 9.75, 9.75, 699.75))
  {
    ReadPackageRoundTrip(Running(15000.0, 1.0, 75.0));
  }

  lemma WalkingDemo()
    ensures ReadPackage("WLK", [9000.0, 1.0, 75.0, 180.0]).Ok?
    ensures ShowTrainingInfo(ReadPackage("WLK", [9000.0, 1.0, 75.0, 180.0]).value)
         == Ok(InfoMessage("SportsWalking", 1.0, 5.85, 5.85, 157.5))
  {
    var w := SportsWalking(9000.0, 1.0, 75.0, 180.0);
    ReadPackageRoundTrip(w);
    assert MeanSpeed(w) == 5.85;
    WalkingCaloriesBase(5.85, 75.0, 180.0, 1.0);
  }
}
