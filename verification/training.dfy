/** The three workout variants and what each one reports about itself. */
module Training {
  import opened Errors

  /** Metres per kilometre, the divisor of every distance. */
  const MetersInKm: real := 1000.0
  const MinutesInHour: real := 60.0
  /** Metres covered by one running or walking step. */
  const StepLength: real := 0.65
  /** Metres covered by one swimming stroke. */
  const StrokeLength: real := 1.38

  const RunSpeedFactor: real := 18.0
  const RunSpeedShift: real := 20.0
  const WalkWeightFactor: real := 0.035
  const WalkSpeedFactor: real := 0.029
  const SwimSpeedShift: real := 1.1
  const SwimWeightFactor: real := 2.0

  /** One workout, as built from its readings; it never changes afterwards.
      `action` counts steps or strokes, `duration` is in hours, `weight` in kg,
      `height` in cm, `lengthPool` in metres and `countPool` in laps. */
  datatype Workout =
    | Running(action: real, duration: real, weight: real)
    | SportsWalking(action: real, duration: real, weight: real, height: real)
    | Swimming(action: real, duration: real, weight: real, lengthPool: real, countPool: real)

  /** The summary record a workout produces. */
  datatype InfoMessage = InfoMessage(
    trainingType: string, duration: real, distance: real, speed: real, calories: real)

  /** Length of one action in metres: swimming resets it to the stroke length. */
  function LenStep(w: Workout): (len: real)
    ensures len > 0.0
  {
    if w.Swimming? then StrokeLength else StepLength
  }

  /** Distance in km, from the number of actions. */
  function Distance(w: Workout): (km: real)
    ensures km >= 0.0 <==> w.action >= 0.0
    ensures km == 0.0 <==> w.action == 0.0
  {
    w.action * LenStep(w) / MetersInKm
  }

  /** Kilometres the variant's speed formula is based on: the steps for
      running and walking, the pool laps for swimming. */
  function SpeedDistance(w: Workout): real
  {
    if w.Swimming? then w.lengthPool * w.countPool / MetersInKm else Distance(w)
  }

  /** Mean speed in km/h; dividing by a zero duration raises. */
  function MeanSpeed(w: Workout): (r: Result<real>)
    ensures r.Ok? <==> w.duration != 0.0
    ensures r.Err? ==> r.fault == ZeroDivision
  {
    if w.duration == 0.0 then Err(ZeroDivision)
    else if w.Swimming? then Ok(w.lengthPool * w.countPool / MetersInKm / w.duration)
    else Ok(Distance(w) / w.duration)
  }

  /** Floor division of two reals, as a real; the divisor must be non-zero. */
  function FloorDiv(a: real, b: real): (q: real)
    requires b != 0.0
    ensures q.Floor as real == q
    ensures q <= a / b < q + 1.0
  {
    (a / b).Floor as real
  }

  /** Running calories, in kcal, at a given mean speed. */
  function RunningCalories(speed: real, duration: real, weight: real): real
  {
    (RunSpeedFactor * speed - RunSpeedShift) * weight / MetersInKm * (duration * MinutesInHour)
  }

  /** Walking calories, in kcal, at a given mean speed: only the
      speed-squared-over-height term is floored. */
  function WalkingCalories(speed: real, duration: real, weight: real, height: real): real
    requires height != 0.0
  {
    (WalkWeightFactor * weight + FloorDiv(speed * speed, height) * WalkSpeedFactor * weight)
      * (duration * MinutesInHour)
  }

  /** Swimming calories, in kcal, at a given mean speed; the duration only
      enters through the speed. */
  function SwimmingCalories(speed: real, weight: real): real
  {
    (speed + SwimSpeedShift) * SwimWeightFactor * weight
  }

  /** Calories burnt, by the variant's own formula at its mean speed. It raises
      when the speed does, and a walk also raises on a zero height. */
  function Calories(w: Workout): (r: Result<real>)
    ensures r.Ok? <==> w.duration != 0.0 && (w.SportsWalking? ==> w.height != 0.0)
    ensures r.Err? ==> r.fault == ZeroDivision
  {
    var speed :- MeanSpeed(w);
    match w
    case Running(_, duration, weight) => Ok(RunningCalories(speed, duration, weight))
    case SportsWalking(_, duration, weight, height) =>
      if height == 0.0 then Err(ZeroDivision) else Ok(WalkingCalories(speed, duration, weight, height))
    case Swimming(_, _, weight, _, _) => Ok(SwimmingCalories(speed, weight))
  }

  /** The class name a workout reports itself under. */
  function TypeName(w: Workout): (name: string)
    ensures name == "Running" <==> w.Running?
    ensures name == "SportsWalking" <==> w.SportsWalking?
    ensures name == "Swimming" <==> w.Swimming?
  {
    match w
    case Running(_, _, _) => "Running"
    case SportsWalking(_, _, _, _) => "SportsWalking"
    case Swimming(_, _, _, _, _) => "Swimming"
  }

  /** The summary of a workout: its name, its unchanged duration and the three
      computed quantities; it raises exactly when a getter does. */
  function ShowTrainingInfo(w: Workout): (r: Result<InfoMessage>)
    ensures r.Ok? <==> w.duration != 0.0 && (w.SportsWalking? ==> w.height != 0.0)
    ensures r.Err? ==> r.fault == ZeroDivision
    ensures r.Ok? ==> r.value.trainingType == TypeName(w) && r.value.duration == w.duration
    ensures r.Ok? ==> r.value.distance == Distance(w)
    ensures r.Ok? ==> r.value.speed == MeanSpeed(w).value && r.value.calories == Calories(w).value
  {
    var distance := Distance(w);
    var speed :- MeanSpeed(w);
    var calories :- Calories(w);
    Ok(InfoMessage(TypeName(w), w.duration, distance, speed, calories))
  }

  /** Speed times duration gives back the distance the speed was derived from. */
  lemma SpeedTimesDuration(w: Workout)
    requires w.duration != 0.0
    ensures MeanSpeed(w).value * w.duration == SpeedDistance(w)
  {
  }

  /** For running and walking the summary is self-consistent: its speed times
      its duration is its distance. Swimming's is not, since its distance
      counts strokes while its speed counts pool laps. */
  lemma InfoMessageConsistent(w: Workout)
    requires ShowTrainingInfo(w).Ok?
    ensures var m := ShowTrainingInfo(w).value;
      !w.Swimming? ==> m.speed * m.duration == m.distance
  {
  }

  /** Two runs or walks (in any combination) differ in distance by 0.65 m per
      step of difference in their step counts. */
  lemma StepDistanceSlope(w1: Workout, w2: Workout)
    requires !w1.Swimming? && !w2.Swimming?
    ensures Distance(w1) - Distance(w2) == (w1.action - w2.action) * 0.65 / 1000.0
  {
  }

  /** Swimming speed comes from the pool, not from the strokes: two swims
      that differ only in their stroke count have the same speed and
      calories, and distances that differ by 1.38 m per stroke. */
  lemma SwimmingIgnoresAction(w1: Workout, w2: Workout)
    requires w1.Swimming? && w2.Swimming?
    requires w1.duration == w2.duration && w1.weight == w2.weight
    requires w1.lengthPool == w2.lengthPool && w1.countPool == w2.countPool
    ensures MeanSpeed(w1) == MeanSpeed(w2)
    ensures Calories(w1) == Calories(w2)
    ensures Distance(w1) - Distance(w2) == (w1.action - w2.action) * 1.38 / 1000.0
  {
    if w1.duration != 0.0 {
      assert MeanSpeed(w1).value == MeanSpeed(w2).value;
    }
  }

  /** The running formula with the duration cancelled out, given that the
      speed times the duration is the distance. */
  lemma RunningCaloriesCancel(speed: real, duration: real, weight: real, distance: real)
    requires speed * duration == distance
    ensures RunningCalories(speed, duration, weight)
         == (18.0 * distance - 20.0 * duration) * weight * 60.0 / 1000.0
  {
  }

  /** Running calories with the duration cancelled out:
      (18 * distance - 20 * duration) * weight * 60 / 1000. */
  lemma RunningCaloriesClosedForm(w: Workout)
    requires w.Running? && w.duration != 0.0
    ensures Calories(w) == Ok((18.0 * Distance(w) - 20.0 * w.duration) * w.weight * 60.0 / 1000.0)
  {
    var speed := MeanSpeed(w).value;
    SpeedTimesDuration(w);
    RunningCaloriesCancel(speed, w.duration, w.weight, Distance(w));
    var e := (18.0 * Distance(w) - 20.0 * w.duration) * w.weight * 60.0 / 1000.0;
    assert RunningCalories(speed, w.duration, w.weight) == e;
    assert Calories(w) == Ok(RunningCalories(speed, w.duration, w.weight));
  }

  /** The walking formula without the floor: a continuous
      speed-squared-over-height term. */
  function WalkingUnfloored(speed: real, duration: real, weight: real, height: real): real
    requires height != 0.0
  {
    (WalkWeightFactor * weight + speed * speed / height * WalkSpeedFactor * weight)
      * (duration * MinutesInHour)
  }

  /** Flooring the speed-squared-over-height term loses less than
      0.029 * weight kcal per minute against the unfloored formula and never
      adds any, for a positive weight and duration. */
  lemma WalkingFloorBounds(speed: real, duration: real, weight: real, height: real)
    requires duration > 0.0 && weight > 0.0 && height != 0.0
    ensures WalkingCalories(speed, duration, weight, height) <= WalkingUnfloored(speed, duration, weight, height)
    ensures WalkingUnfloored(speed, duration, weight, height) - WalkingCalories(speed, duration, weight, height)
          < 0.029 * weight * (duration * 60.0)
  {
    FlooredTermGap(0.035 * weight * (duration * 60.0),
      FloorDiv(speed * speed, height), speed * speed / height, 0.029 * weight * (duration * 60.0),
      WalkingCalories(speed, duration, weight, height), WalkingUnfloored(speed, duration, weight, height));
  }

  /** With lo = base + q * c and hi = base + x * c, where q <= x < q + 1 and
      c > 0: lo never exceeds hi and falls short of it by less than c. */
  lemma FlooredTermGap(base: real, q: real, x: real, c: real, lo: real, hi: real)
    requires q <= x < q + 1.0 && c > 0.0
    requires lo == base + q * c && hi == base + x * c
    ensures lo <= hi
    ensures hi - lo < c
  {
    var fraction := x - q;
    assert 0.0 <= fraction < 1.0;
    assert hi - lo == fraction * c;
    assert fraction * c < 1.0 * c;
  }

  /** When the speed squared stays below the height the floored term is zero,
      so walking burns 0.035 * weight kcal per minute. */
  lemma SlowWalkingCalories(speed: real, duration: real, weight: real, height: real)
    requires height > 0.0 && speed * speed < height
    ensures WalkingCalories(speed, duration, weight, height) == 0.035 * weight * (duration * 60.0)
  {
  }

  /** A walk's calories lie within 0.029 * weight kcal per minute below the
      unfloored formula at its mean speed, for a positive weight and duration. */
  lemma WalkingCaloriesNearUnfloored(w: Workout)
    requires w.SportsWalking? && w.duration > 0.0 && w.weight > 0.0 && w.height != 0.0
    ensures Calories(w).Ok?
    ensures var unfloored := WalkingUnfloored(MeanSpeed(w).value, w.duration, w.weight, w.height);
      unfloored - 0.029 * w.weight * (w.duration * 60.0) < Calories(w).value <= unfloored
  {
    var speed := MeanSpeed(w).value;
    assert Calories(w) == Ok(WalkingCalories(speed, w.duration, w.weight, w.height));
    WalkingFloorBounds(speed, w.duration, w.weight, w.height);
  }

  /** Swimming more laps of the same pool in the same time, at a positive
      weight, burns strictly more calories. */
  lemma SwimmingCaloriesGrowWithLaps(w1: Workout, w2: Workout)
    requires w1.Swimming? && w2.Swimming?
    requires w1.duration == w2.duration && w1.weight == w2.weight && w1.lengthPool == w2.lengthPool
    requires w1.duration > 0.0 && w1.weight > 0.0 && w1.lengthPool > 0.0
    requires w1.countPool < w2.countPool
    ensures Calories(w1).Ok? && Calories(w2).Ok?
    ensures Calories(w1).value < Calories(w2).value
  {
    var s1, s2 := MeanSpeed(w1).value, MeanSpeed(w2).value;
    var p1, p2 := w1.lengthPool * w1.countPool, w2.lengthPool * w2.countPool;
    ProductGrows(w1.lengthPool, w1.countPool, w2.countPool);
    QuotientGrows(p1 / 1000.0, p2 / 1000.0, w1.duration);
    assert s1 < s2;
    assert (s1 + 1.1) * 2.0 * w1.weight < (s2 + 1.1) * 2.0 * w1.weight;
  }

  /** Multiplying by the same positive number keeps a strict order. */
  lemma ProductGrows(k: real, a: real, b: real)
    requires k > 0.0 && a < b
    ensures k * a < k * b
  {
  }

  /** Dividing by the same positive number keeps a strict order. */
  lemma QuotientGrows(a: real, b: real, d: real)
    requires a < b && d > 0.0
    ensures a / d < b / d
  {
  }
}
