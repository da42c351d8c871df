/** The dispatcher `read_package`: a three-letter code picks the kind of
    workout, and the flat list of sensor values fills its fields in order. */
module Package {
  import opened Training

  /** The three kinds of workout a code can name. */
  datatype Kind = Run | Walk | Swim

  /** Why a package cannot become a workout: the code is not in the table
      (the source's key error), or the kind's constructor was given the wrong
      number of positional values (the source's type error). */
  datatype PackageError =
    | UnknownCode(code: string)
    | FieldCountMismatch(code: string, received: nat, expected: nat)

  datatype Result<T> = Ok(value: T) | Err(error: PackageError)

  /** The source's fixed table from code to workout class. */
  const TrainingCodes: map<string, Kind> := map["SWM" := Swim, "RUN" := Run, "WLK" := Walk]

  /** How many positional values each kind's constructor takes: the three
      base fields, plus the height for a walk, plus pool length and pool
      count for a swim. */
  function Arity(kind: Kind): (n: nat)
    ensures 3 <= n <= 5
  {
    match kind
    case Run => 3
    case Walk => 4
    case Swim => 5
  }

  /** The class of a workout (the source's `type(self)`), as a kind. */
  function KindOf(t: Training): (kind: Kind)
    ensures kind == Run <==> t.Running?
    ensures kind == Walk <==> t.SportsWalking?
    ensures kind == Swim <==> t.Swimming?
  {
    match t
    case Running(_, _, _) => Run
    case SportsWalking(_, _, _, _) => Walk
    case Swimming(_, _, _, _, _) => Swim
  }

  /** The code that names a workout's kind in the table. */
  function CodeOf(t: Training): (code: string)
    ensures code in TrainingCodes && TrainingCodes[code] == KindOf(t)
  {
    match t
    case Running(_, _, _) => "RUN"
    case SportsWalking(_, _, _, _) => "WLK"
    case Swimming(_, _, _, _, _) => "SWM"
  }

  /** The package a workout is read from: its fields in declaration order. */
  function Fields(t: Training): (data: seq<real>)
    ensures |data| == Arity(KindOf(t))
    ensures data[0] == t.action && data[1] == t.duration && data[2] == t.weight
  {
    match t
    case Running(action, duration, weight) => [action, duration, weight]
    case SportsWalking(action, duration, weight, height) => [action, duration, weight, height]
    case Swimming(action, duration, weight, lengthPool, countPool) =>
      [action, duration, weight, lengthPool, countPool]
  }

  /** The kind's constructor applied to the values positionally. */
  function Build(kind: Kind, data: seq<real>): (t: Training)
    requires |data| == Arity(kind)
    ensures KindOf(t) == kind
    ensures t.action == data[0] && t.duration == data[1] && t.weight == data[2]
    ensures t.SportsWalking? ==> t.height == data[3]
    ensures t.Swimming? ==> t.lengthPool == data[3] && t.countPool == data[4]
  {
    match kind
    case Run => Running(data[0], data[1], data[2])
    case Walk => SportsWalking(data[0], data[1], data[2], data[3])
    case Swim => Swimming(data[0], data[1], data[2], data[3], data[4])
  }

  /** `read_package`: look the code up first, then construct. An unknown
      code fails whatever the data; a known code fails exactly when the
      number of values differs from the kind's arity. */
  function ReadPackage(code: string, data: seq<real>): (r: Result<Training>)
    ensures code !in TrainingCodes ==> r == Err(UnknownCode(code))
    ensures code in TrainingCodes && |data| != Arity(TrainingCodes[code]) ==>
      r == Err(FieldCountMismatch(code, |data|, Arity(TrainingCodes[code])))
    ensures r.Ok? <==> code in TrainingCodes && |data| == Arity(TrainingCodes[code])
    ensures r.Ok? ==> KindOf(r.value) == TrainingCodes[code]
  {
    if code !in TrainingCodes then
      Err(UnknownCode(code))
    else
      var kind := TrainingCodes[code];
      if |data| != Arity(kind) then
        Err(FieldCountMismatch(code, |data|, Arity(kind)))
      else
        Ok(Build(kind, data))
  }

  /** Only "SWM", "RUN" and "WLK" are known, and they name Swimming,
      Running and SportsWalking. */
  lemma KnownCodes(code: string)
    ensures code in TrainingCodes <==> code == "SWM" || code == "RUN" || code == "WLK"
    ensures code == "SWM" ==> TrainingCodes[code] == Swim && Arity(Swim) == 5
    ensures code == "RUN" ==> TrainingCodes[code] == Run && Arity(Run) == 3
    ensures code == "WLK" ==> TrainingCodes[code] == Walk && Arity(Walk) == 4
  {
  }

  /** Every workout is read back from its own code and fields. */
  lemma ReadPackageRoundTrip(t: Training)
    ensures ReadPackage(CodeOf(t), Fields(t)) == Ok(t)
  {
  }

  /** A package that reads successfully is the code and fields of the
      workout it yields: reading is injective and assigns every value. */
  lemma ReadPackageInverse(code: string, data: seq<real>)
    requires ReadPackage(code, data).Ok?
    ensures CodeOf(ReadPackage(code, data).value) == code
    ensures Fields(ReadPackage(code, data).value) == data
  {
  }
}
