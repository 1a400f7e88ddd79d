/** Choosing the workout variant from an activity code and a flat list of
    readings. */
module Dispatch {
  import opened Errors
  import opened Training

  /** The constructors the registry can call. */
  datatype Kind = SwimmingKind | RunningKind | WalkingKind

  /** The fixed registry from activity code to constructor. */
  const Registry: map<string, Kind> :=
    map["SWM" := SwimmingKind, "RUN" := RunningKind, "WLK" := WalkingKind]

  /** How many positional readings each constructor takes. */
  function Arity(k: Kind): nat
  {
    match k
    case RunningKind => 3
    case WalkingKind => 4
    case SwimmingKind => 5
  }

  /** The constructor a workout was built by. */
  function KindOf(w: Workout): Kind
  {
    match w
    case Running(_, _, _) => RunningKind
    case SportsWalking(_, _, _, _) => WalkingKind
    case Swimming(_, _, _, _, _) => SwimmingKind
  }

  /** The registry code under which a workout's constructor is found. */
  function Code(w: Workout): (code: string)
    ensures code in Registry && Registry[code] == KindOf(w)
  {
    match w
    case Running(_, _, _) => "RUN"
    case SportsWalking(_, _, _, _) => "WLK"
    case Swimming(_, _, _, _, _) => "SWM"
  }

  /** A workout's fields in constructor order: the readings it is built from. */
  function Readings(w: Workout): (data: seq<real>)
    ensures |data| == Arity(KindOf(w))
    ensures data[0] == w.action && data[1] == w.duration && data[2] == w.weight
  {
    match w
    case Running(action, duration, weight) => [action, duration, weight]
    case SportsWalking(action, duration, weight, height) => [action, duration, weight, height]
    case Swimming(action, duration, weight, lengthPool, countPool) =>
      [action, duration, weight, lengthPool, countPool]
  }

  /** Calls a constructor with the readings spread as positional arguments;
      a count that does not match the constructor's parameters raises. */
  function Construct(k: Kind, data: seq<real>): (r: Result<Workout>)
    ensures r.Ok? <==> |data| == Arity(k)
    ensures r.Err? ==> r.fault == WrongArgumentCount(Arity(k), |data|)
    ensures r.Ok? ==> KindOf(r.value) == k && Readings(r.value) == data
  {
    if |data| != Arity(k) then Err(WrongArgumentCount(Arity(k), |data|))
    else
      match k
      case RunningKind => Ok(Running(data[0], data[1], data[2]))
      case WalkingKind => Ok(SportsWalking(data[0], data[1], data[2], data[3]))
      case SwimmingKind => Ok(Swimming(data[0], data[1], data[2], data[3], data[4]))
  }

  /** Looks the code up in the registry and constructs the workout from the
      readings; an unknown code has nothing to call and raises. */
  function ReadPackage(code: string, data: seq<real>): (r: Result<Workout>)
    ensures code !in Registry ==> r == Err(UnknownWorkoutType(code))
    ensures r.Ok? <==> code in Registry && |data| == Arity(Registry[code])
    ensures code in Registry && r.Err? ==> r.fault == WrongArgumentCount(Arity(Registry[code]), |data|)
    ensures r.Ok? ==> Code(r.value) == code && Readings(r.value) == data
  {
    if code !in Registry then Err(UnknownWorkoutType(code)) else Construct(Registry[code], data)
  }

  /** Every workout is rebuilt from its own code and readings. */
  lemma ReadPackageRoundTrip(w: Workout)
    ensures ReadPackage(Code(w), Readings(w)) == Ok(w)
  {
  }

  /** The registry spelled out: exactly SWM with five readings, RUN with
      three and WLK with four succeed, each mapping the readings by position. */
  lemma ReadPackageTable(code: string, data: seq<real>)
    ensures ReadPackage(code, data).Ok?
        <==> (code == "SWM" && |data| == 5) || (code == "RUN" && |data| == 3) || (code == "WLK" && |data| == 4)
    ensures code == "SWM" && |data| == 5 ==>
      ReadPackage(code, data) == Ok(Swimming(data[0], data[1], data[2], data[3], data[4]))
    ensures code == "RUN" && |data| == 3 ==>
      ReadPackage(code, data) == Ok(Running(data[0], data[1], data[2]))
    ensures code == "WLK" && |data| == 4 ==>
      ReadPackage(code, data) == Ok(SportsWalking(data[0], data[1], data[2], data[3]))
  {
  }
}
