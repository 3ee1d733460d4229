/**
  The training summary: the five values a workout reports, and the fixed
  message template they are written into.  The three-decimal number
  formatter is a parameter `fmt`; only the template structure and the order
  of the fields are modelled, not the digits it produces.
*/
module Summary {
  import opened Errors
  import opened Workouts

  datatype InfoMessage = InfoMessage(
    trainingType: string,
    duration: real,
    distance: real,
    speed: real,
    calories: real)

  /**
    The summary of a workout: its class name, its unchanged duration, then
    distance, mean speed and calories.  A zero duration (or a zero height for
    walking) makes a division fail.
  */
  function ShowTrainingInfo(w: Workout): (r: Result<InfoMessage>)
    ensures r.Ok? <==> DivisorsNonZero(w)
    ensures r.Err? ==> r.error == ZeroDivision
    ensures r.Ok? ==> r.value.trainingType == Label(KindOf(w)) && r.value.duration == w.duration
    ensures r.Ok? ==> r.value.distance == Distance(w) && r.value.speed == MeanSpeed(w)
    ensures r.Ok? ==> r.value.calories == Calories(w)
    ensures r.Ok? && !w.Swimming? ==> r.value.speed * r.value.duration == r.value.distance
  {
    if !DivisorsNonZero(w) then Err(ZeroDivision)
    else Ok(InfoMessage(Label(KindOf(w)), w.duration, Distance(w), MeanSpeed(w), Calories(w)))
  }

  /** The literal text around the five fields, in order. */
  const Literals: seq<string> := [
    "Тип тренировки: ",
    "; Длительность: ",
    " ч.; Дистанция: ",
    " км; Ср. скорость: ",
    " км/ч; Потрачено ккал: ",
    "."
  ]

  /** The five field texts, every number through the same formatter. */
  function Fields(m: InfoMessage, fmt: real -> string): (f: seq<string>)
    ensures |f| + 1 == |Literals|
    ensures f[0] == m.trainingType
    ensures f[1] == fmt(m.duration) && f[2] == fmt(m.distance)
    ensures f[3] == fmt(m.speed) && f[4] == fmt(m.calories)
  {
    [m.trainingType, fmt(m.duration), fmt(m.distance), fmt(m.speed), fmt(m.calories)]
  }

  /** The summary message. */
  function GetMessage(m: InfoMessage, fmt: real -> string): (s: string)
    ensures |s| > |Literals[0]| + |m.trainingType|
    ensures s[..|Literals[0]| + |m.trainingType|] == Literals[0] + m.trainingType
    ensures s[|s| - 1] == '.'
  {
    "Тип тренировки: " + m.trainingType
    + "; Длительность: " + fmt(m.duration)
    + " ч.; Дистанция: " + fmt(m.distance)
    + " км; Ср. скорость: " + fmt(m.speed)
    + " км/ч; Потрачено ккал: " + fmt(m.calories)
    + "."
  }

  /** A template filled in: literal, value, literal, value, ..., literal. */
  function Fill(literals: seq<string>, values: seq<string>): string
    requires |literals| == |values| + 1
    decreases |values|
  {
    if values == [] then literals[0]
    else literals[0] + values[0] + Fill(literals[1..], values[1..])
  }

  /**
    In a filled template, value `k` sits right after the first `k` values and
    `k + 1` literals, and is followed by the rest of the template.
  */
  lemma {:induction false} FillSplit(literals: seq<string>, values: seq<string>, k: nat)
    requires |literals| == |values| + 1 && k < |values|
    ensures Fill(literals, values)
         == Fill(literals[..k + 1], values[..k]) + values[k] + Fill(literals[k + 1..], values[k + 1..])
  {
    if k == 0 {
      assert literals[..1] == [literals[0]];
      assert values[..0] == [];
      assert literals[1..] == literals[k + 1..];
    } else {
      FillSplit(literals[1..], values[1..], k - 1);
      assert literals[1..][..k] == literals[1..k + 1];
      assert values[1..][..k - 1] == values[1..k];
      assert literals[..k + 1][1..] == literals[1..k + 1];
      assert values[..k][1..] == values[1..k];
      assert literals[1..][k..] == literals[k + 1..];
      assert values[1..][k..] == values[k + 1..];
      assert values[1..][k - 1] == values[k];
    }
  }

  /** The message is the template filled with the fields in order. */
  lemma GetMessageIsFill(m: InfoMessage, fmt: real -> string)
    ensures GetMessage(m, fmt) == Fill(Literals, Fields(m, fmt))
  {
    var f := Fields(m, fmt);
    var l := Literals;
    assert Fill(l[5..], f[5..]) == ".";
    assert Fill(l[4..], f[4..]) == l[4] + f[4] + Fill(l[5..], f[5..]);
    assert Fill(l[3..], f[3..]) == l[3] + f[3] + Fill(l[4..], f[4..]);
    assert Fill(l[2..], f[2..]) == l[2] + f[2] + Fill(l[3..], f[3..]);
    assert Fill(l[1..], f[1..]) == l[1] + f[1] + Fill(l[2..], f[2..]);
    assert Fill(l, f) == l[0] + f[0] + Fill(l[1..], f[1..]);
  }

  /**
    Field `k` of the message (0: type, 1: duration, 2: distance, 3: speed,
    4: calories) stands between literal `k` and literal `k + 1`.
  */
  lemma MessageFieldOrder(m: InfoMessage, fmt: real -> string, k: nat)
    requires k < 5
    ensures GetMessage(m, fmt)
         == Fill(Literals[..k + 1], Fields(m, fmt)[..k]) + Fields(m, fmt)[k]
            + Fill(Literals[k + 1..], Fields(m, fmt)[k + 1..])
  {
    GetMessageIsFill(m, fmt);
    FillSplit(Literals, Fields(m, fmt), k);
  }
}
