/**
  The three workout kinds and their formulas: distance in kilometres, mean
  speed in km/h and spent kilocalories.  Every value is an exact `real`.
*/
module Workouts {

  /** The three workout classes a code can name. */
  datatype Kind = Run | Walk | Swim

  /**
    One training session, with the fields each class's constructor takes, in
    constructor order.  `action` counts steps (running, walking) or strokes
    (swimming); `duration` is in hours, `weight` in kg.
  */
  datatype Workout =
    | Running(action: real, duration: real, weight: real)
    | SportsWalking(action: real, duration: real, weight: real, height: real)
    | Swimming(action: real, duration: real, weight: real, lengthPool: real, countPool: real)

  const MetersInKm: real := 1000.0
  const MinutesInHour: real := 60.0
  /** Length of one step, in metres, shared by running and walking. */
  const StepLength: real := 0.65
  /** Length of one stroke, in metres: swimming's override of the step length. */
  const StrokeLength: real := 1.38

  function KindOf(w: Workout): Kind
  {
    match w
    case Running(_, _, _) => Run
    case SportsWalking(_, _, _, _) => Walk
    case Swimming(_, _, _, _, _) => Swim
  }

  /** The class name that a summary shows as the workout type. */
  function Label(k: Kind): (s: string)
    ensures s == "Running" <==> k == Run
    ensures s == "SportsWalking" <==> k == Walk
    ensures s == "Swimming" <==> k == Swim
  {
    match k
    case Run => "Running"
    case Walk => "SportsWalking"
    case Swim => "Swimming"
  }

  lemma LabelInjective(a: Kind, b: Kind)
    requires Label(a) == Label(b)
    ensures a == b
  {
  }

  /** The step length the instance sees: swimming overrides the base one. */
  function LenStep(w: Workout): (len: real)
    ensures len > 0.0
    ensures w.Swimming? ==> len == 1.38
    ensures !w.Swimming? ==> len == 0.65
  {
    if w.Swimming? then StrokeLength else StepLength
  }

  /** Distance in km: the units travelled times the (possibly overridden) step length. */
  function Distance(w: Workout): (d: real)
    ensures d * MetersInKm == w.action * LenStep(w)
    ensures d > 0.0 <==> w.action > 0.0
    ensures d == 0.0 <==> w.action == 0.0
  {
    w.action * LenStep(w) / MetersInKm
  }

  /** No divisor of the speed or calorie formulas is zero. */
  predicate DivisorsNonZero(w: Workout)
  {
    w.duration != 0.0 && (w.SportsWalking? ==> w.height != 0.0)
  }

  /**
    Mean speed in km/h: distance over duration, except for swimming, whose
    speed comes from the pool length and the number of pool lengths.
  */
  function MeanSpeed(w: Workout): (v: real)
    requires w.duration != 0.0
    ensures !w.Swimming? ==> v * w.duration == Distance(w)
    ensures w.Swimming? ==> v * w.duration * MetersInKm == w.lengthPool * w.countPool
  {
    match w
    case Swimming(_, duration, _, lengthPool, countPool) =>
      lengthPool * countPool / MetersInKm / duration
    case _ => Distance(w) / w.duration
  }

  /** Floor division of two reals: the whole number of times `b` fits in `a`, rounded down. */
  function FloorDiv(a: real, b: real): (q: real)
    requires b != 0.0
    ensures q == q.Floor as real
    ensures q <= a / b < q + 1.0
  {
    (a / b).Floor as real
  }

  /**
    Running calories from the mean speed (km/h), weight (kg) and duration (h):
    the running class's calorie formula.
  */
  function RunningCalories(speed: real, weight: real, duration: real): real
  {
    (18.0 * speed - 20.0) * weight / MetersInKm * (duration * MinutesInHour)
  }

  /**
    Sports-walking calories: a weight-only term plus a term that uses the
    floor division of the squared speed by the height.
  */
  function WalkingCalories(speed: real, weight: real, height: real, duration: real): real
    requires height != 0.0
  {
    (0.035 * weight + FloorDiv(speed * speed, height) * 0.029 * weight) * (duration * MinutesInHour)
  }

  /** Swimming calories: they do not depend on the duration beyond the speed. */
  function SwimmingCalories(speed: real, weight: real): real
  {
    (speed + 1.1) * 2.0 * weight
  }

  /**
    Spent kilocalories: each class's formula applied to that class's mean
    speed.  In terms of the recorded values, running calories are linear in
    steps and hours, and swimming calories do not depend on the stroke count.
  */
  function Calories(w: Workout): (kcal: real)
    requires DivisorsNonZero(w)
    ensures w.Running? ==> kcal == w.weight * (0.702 * w.action - 1200.0 * w.duration) / 1000.0
    ensures w.Swimming? ==>
              kcal * w.duration == 2.0 * w.weight * (w.lengthPool * w.countPool / MetersInKm + 1.1 * w.duration)
  {
    match w
    case Running(_, duration, weight) =>
      RunningClosedForm(w.action, duration, weight);
      RunningCalories(MeanSpeed(w), weight, duration)
    case SportsWalking(_, duration, weight, height) =>
      WalkingCalories(MeanSpeed(w), weight, height, duration)
    case Swimming(_, _, weight, _, _) =>
      SwimmingCalories(MeanSpeed(w), weight)
  }

  // ---------------------------------------------------------------------------
  // Distance and speed

  /** Swimming distance counts strokes of 1.38 m; the pool fields play no part. */
  lemma SwimmingDistanceIgnoresPool(w: Workout, lengthPool: real, countPool: real)
    requires w.Swimming?
    ensures Distance(w.(lengthPool := lengthPool, countPool := countPool)) == Distance(w)
    ensures Distance(w) * MetersInKm == w.action * StrokeLength
  {
  }

  /** Swimming speed comes from the pool fields alone: the stroke count plays no part. */
  lemma SwimmingSpeedIgnoresAction(w: Workout, action: real)
    requires w.Swimming? && w.duration != 0.0
    ensures var w' := Swimming(action, w.duration, w.weight, w.lengthPool, w.countPool);
            MeanSpeed(w') == MeanSpeed(w) && Calories(w') == Calories(w)
  {
  }

  /** For swimming, speed times duration need not be the distance. */
  lemma SwimmingSpeedIsNotDistanceOverTime()
    ensures var w := Swimming(720.0, 1.0, 80.0, 25.0, 40.0);
            Distance(w) == 0.9936 && MeanSpeed(w) == 1.0 && MeanSpeed(w) * w.duration != Distance(w)
  {
  }

  // ---------------------------------------------------------------------------
  // Running

  /** Running calories with the mean speed of `action` steps in `duration` hours unfolded. */
  lemma RunningClosedForm(action: real, duration: real, weight: real)
    requires duration != 0.0
    ensures RunningCalories(action * StepLength / MetersInKm / duration, weight, duration)
         == weight * (0.702 * action - 1200.0 * duration) / 1000.0
  {
    var v := action * StepLength / MetersInKm / duration;
    assert v * duration == action * 0.00065;
    assert (18.0 * v - 20.0) * (duration * 60.0) == 1080.0 * (v * duration) - 1200.0 * duration;
  }

  /**
    For a positive weight and duration, running calories are never clamped:
    their sign is that of 18 * speed - 20.
  */
  lemma RunningCaloriesSign(speed: real, weight: real, duration: real)
    requires weight > 0.0 && duration > 0.0
    ensures RunningCalories(speed, weight, duration) >= 0.0 <==> speed >= 20.0 / 18.0
    ensures RunningCalories(speed, weight, duration) > 0.0 <==> speed > 20.0 / 18.0
  {
    var x := 18.0 * speed - 20.0;
    var p := weight / MetersInKm * (duration * MinutesInHour);
    assert p > 0.0 by {
      PositiveProduct(weight / MetersInKm, duration * MinutesInHour);
    }
    assert RunningCalories(speed, weight, duration) == x * p;
    SignOfProduct(x, p);
  }

  // ---------------------------------------------------------------------------
  // Sports walking

  /**
    With a positive height and a non-zero weight and duration, walking
    calories equal the weight-only term 0.035 * weight * minutes exactly when
    the floor-divided term speed^2 // height is zero, that is when
    speed^2 < height.
  */
  lemma WalkingCaloriesBase(speed: real, weight: real, height: real, duration: real)
    requires height > 0.0 && weight != 0.0 && duration != 0.0
    ensures WalkingCalories(speed, weight, height, duration) == 0.035 * weight * (duration * MinutesInHour)
            <==> speed * speed < height
  {
    var q := FloorDiv(speed * speed, height);
    var durationMin := duration * MinutesInHour;
    FloorDivZero(speed * speed, height);
    AddedTermVanishes(0.035 * weight, q * 0.029, weight, durationMin);
    assert q * 0.029 == 0.0 <==> q == 0.0;
  }

  /** With a positive weight, duration and height, the floor term only adds calories. */
  lemma WalkingCaloriesLowerBound(speed: real, weight: real, height: real, duration: real)
    requires height > 0.0 && weight > 0.0 && duration > 0.0
    ensures WalkingCalories(speed, weight, height, duration) >= 0.035 * weight * (duration * MinutesInHour)
  {
    var q := FloorDiv(speed * speed, height);
    var durationMin := duration * MinutesInHour;
    assert speed * speed / height >= 0.0 by {
      assert speed * speed >= 0.0;
    }
    assert q >= 0.0;
    var extra := q * 0.029 * weight;
    assert extra >= 0.0 by {
      NonNegativeProduct(q * 0.029, weight);
    }
    Distribute(0.035 * weight, extra, durationMin);
    NonNegativeProduct(extra, durationMin);
  }

  /**
    The two walking facts about the calories a walking workout reports: the
    floor term only adds, and it adds nothing exactly when the squared mean
    speed is below the height.
  */
  lemma WalkingCaloriesOfWorkout(w: Workout)
    requires w.SportsWalking? && w.height > 0.0 && w.weight > 0.0 && w.duration > 0.0
    ensures Calories(w) >= 0.035 * w.weight * (w.duration * MinutesInHour)
    ensures Calories(w) == 0.035 * w.weight * (w.duration * MinutesInHour)
            <==> MeanSpeed(w) * MeanSpeed(w) < w.height
  {
    assert Calories(w) == WalkingCalories(MeanSpeed(w), w.weight, w.height, w.duration);
    WalkingCaloriesLowerBound(MeanSpeed(w), w.weight, w.height, w.duration);
    WalkingCaloriesBase(MeanSpeed(w), w.weight, w.height, w.duration);
  }

  /**
    Walking calories when `k` height-units fit in the squared speed: each
    whole unit adds 0.029 kcal per kg per minute to the weight-only 0.035.
  */
  lemma WalkingCaloriesAtFloor(speed: real, weight: real, height: real, duration: real, k: nat)
    requires height > 0.0
    requires k as real * height <= speed * speed < (k + 1) as real * height
    ensures WalkingCalories(speed, weight, height, duration)
         == (0.035 + 0.029 * k as real) * weight * (duration * MinutesInHour)
  {
    var kr := k as real;
    FloorDivIs(speed * speed, height, k);
    assert 0.035 * weight + kr * 0.029 * weight == (0.035 + 0.029 * kr) * weight;
  }

  /**
    The calories a walking workout reports, when its squared mean speed holds
    `k` whole heights: (0.035 + 0.029 * k) kcal per kg per minute.
  */
  lemma WalkingCaloriesStep(w: Workout, k: nat)
    requires w.SportsWalking? && w.height > 0.0 && w.duration != 0.0
    requires k as real * w.height <= MeanSpeed(w) * MeanSpeed(w) < (k + 1) as real * w.height
    ensures Calories(w) == (0.035 + 0.029 * k as real) * w.weight * (w.duration * MinutesInHour)
  {
    assert Calories(w) == WalkingCalories(MeanSpeed(w), w.weight, w.height, w.duration);
    WalkingCaloriesAtFloor(MeanSpeed(w), w.weight, w.height, w.duration, k);
  }

  /** The floor quotient is the whole number `k` with k * b <= a < (k + 1) * b. */
  lemma FloorDivIs(a: real, b: real, k: int)
    requires b > 0.0 && k as real * b <= a < (k + 1) as real * b
    ensures FloorDiv(a, b) == k as real
  {
    var x := a / b;
    var kr := k as real;
    assert (x - kr) * b == a - kr * b;
    SignOfProduct(x - kr, b);
    assert ((kr + 1.0) - x) * b == (kr + 1.0) * b - a;
    SignOfProduct((kr + 1.0) - x, b);
    var q := FloorDiv(a, b);
    var n := q.Floor;
    assert n as real == q && q <= x < q + 1.0;
    assert n < k + 1 && k < n + 1;
  }

  /** For a non-negative dividend and a positive divisor, the floor quotient is 0 iff a < b. */
  lemma FloorDivZero(a: real, b: real)
    requires a >= 0.0 && b > 0.0
    ensures FloorDiv(a, b) == 0.0 <==> a < b
  {
    if a < b {
      assert a / b < 1.0;
    } else {
      assert a / b >= 1.0;
    }
  }

  /** (base + c * m) * d equals base * d exactly when c is zero, for non-zero m and d. */
  lemma AddedTermVanishes(base: real, c: real, m: real, d: real)
    requires m != 0.0 && d != 0.0
    ensures (base + c * m) * d == base * d <==> c == 0.0
  {
    Distribute(base, c * m, d);
    if c != 0.0 {
      NonZeroProduct(c, m);
      NonZeroProduct(c * m, d);
    }
  }

  // ---------------------------------------------------------------------------
  // Swimming

  /**
    With a positive weight and a non-negative speed, swimming burns at least
    2.2 kcal per kg, exactly that when the pool fields give zero speed.
  */
  lemma SwimmingCaloriesLowerBound(w: Workout)
    requires w.Swimming? && w.duration != 0.0 && w.weight > 0.0 && MeanSpeed(w) >= 0.0
    ensures Calories(w) >= 2.2 * w.weight
    ensures Calories(w) == 2.2 * w.weight <==> w.lengthPool * w.countPool == 0.0
  {
    var v := MeanSpeed(w);
    assert Calories(w) == SwimmingCalories(v, w.weight) == 2.2 * w.weight + 2.0 * (v * w.weight);
    NonNegativeProduct(v, w.weight);
    if w.lengthPool * w.countPool == 0.0 {
      assert v * w.duration == 0.0;
      assert v == 0.0;
    } else {
      assert v != 0.0;
      NonZeroProduct(v, w.weight);
    }
  }

  // ---------------------------------------------------------------------------
  // Arithmetic helpers

  lemma PositiveProduct(a: real, b: real)
    requires a > 0.0 && b > 0.0
    ensures a * b > 0.0
  {
  }

  lemma NonNegativeProduct(a: real, b: real)
    requires a >= 0.0 && b >= 0.0
    ensures a * b >= 0.0
  {
  }

  lemma NonZeroProduct(a: real, b: real)
    requires a != 0.0 && b != 0.0
    ensures a * b != 0.0
  {
  }

  lemma Distribute(a: real, b: real, c: real)
    ensures (a + b) * c == a * c + b * c
  {
  }

  lemma SignOfProduct(x: real, p: real)
    requires p > 0.0
    ensures x * p >= 0.0 <==> x >= 0.0
    ensures x * p > 0.0 <==> x > 0.0
  {
    if x > 0.0 {
      PositiveProduct(x, p);
    } else if x < 0.0 {
      PositiveProduct(-x, p);
    }
  }
}
