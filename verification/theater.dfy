/**
 The data model of the theater billing statement: plays, performances,
 invoices, the closed set of play types, the failures a statement run can
 end in, and the pricing constants the rules are parameterised by.
 */
module Theater {

  /** The ways a statement run can abort. `UnknownType` is the
      RuntimeException "unknown type: <name>" thrown by the default branch of
      the type switches; `NullPlay` stands for the NullPointerException Java
      raises when a performance names a play id that is not in the catalog
      (the source has no error type of its own for that case);
      `DivisionByZero` is the ArithmeticException of the comedy credit bonus
      when `COMEDY_EXTRA_VOLUME_FACTOR` is zero. */
  datatype Failure = UnknownType(typeName: string) | NullPlay(playID: string) | DivisionByZero

  /** A success value or the failure that aborted the computation. */
  datatype Result<+T> = Ok(value: T) | Err(error: Failure) {

    predicate IsFailure() {
      Err?
    }

    function PropagateFailure<U>(): Result<U>
      requires Err?
    {
      Err(error)
    }

    function Extract(): T
      requires Ok?
    {
      value
    }
  }

  /** A catalog entry. The type is kept as the raw string the catalog holds;
      it is only interpreted when a performance is priced. */
  datatype Play = Play(name: string, playType: string)

  datatype Performance = Performance(playID: string, audience: int)

  /** The order of `performances` is the order of the statement lines. */
  datatype Invoice = Invoice(customer: string, performances: seq<Performance>)

  /** The play-type strings the pricing switches recognise. */
  const KnownTypeNames: set<string> := {"tragedy", "comedy", "history", "pastoral"}

  datatype PlayType = Tragedy | Comedy | History | Pastoral

  /** The case label under which each play type is priced. */
  function TypeName(t: PlayType): (s: string)
    ensures s in KnownTypeNames
  {
    match t
    case Tragedy => "tragedy"
    case Comedy => "comedy"
    case History => "history"
    case Pastoral => "pastoral"
  }

  /** The switch on the play's type string: one of the four case labels, or
      the unknown-type failure of the default branch. */
  function ParseType(s: string): (r: Result<PlayType>)
    ensures r.Ok? <==> s in KnownTypeNames
    ensures r.Ok? ==> TypeName(r.value) == s
    ensures r.Err? ==> r.error == UnknownType(s)
  {
    if s == "tragedy" then Ok(Tragedy)
    else if s == "comedy" then Ok(Comedy)
    else if s == "history" then Ok(History)
    else if s == "pastoral" then Ok(Pastoral)
    else Err(UnknownType(s))
  }

  /** Parsing the case label of a type gives that type back, so the four
      labels are distinct and each selects its own branch. */
  lemma ParseTypeName(t: PlayType)
    ensures ParseType(TypeName(t)) == Ok(t)
  {
  }

  /** The entries of the (unseen) `Constants` class the pricing rules read.
      Thresholds are audience sizes; amounts are in cents. */
  datatype Constants = Constants(
    tragedyBaseAmount: int,
    tragedyAudienceThreshold: int,
    tragedyOverBaseCapacityPerPerson: int,
    comedyBaseAmount: int,
    comedyAudienceThreshold: int,
    comedyOverBaseCapacityAmount: int,
    comedyOverBaseCapacityPerPerson: int,
    comedyAmountPerAudience: int,
    historyBaseAmount: int,
    historyAudienceThreshold: int,
    historyOverBaseCapacityPerPerson: int,
    pastoralBaseAmount: int,
    pastoralAudienceThreshold: int,
    pastoralOverBaseCapacityPerPerson: int,
    baseVolumeCreditThreshold: int,
    comedyExtraVolumeFactor: int,
    historyVolumeCreditThreshold: int,
    pastoralVolumeCreditThreshold: int)

  /** Every base amount and every rate is non-negative (thresholds are free). */
  predicate NonNegativeRates(c: Constants) {
    && c.tragedyBaseAmount >= 0
    && c.tragedyOverBaseCapacityPerPerson >= 0
    && c.comedyBaseAmount >= 0
    && c.comedyOverBaseCapacityAmount >= 0
    && c.comedyOverBaseCapacityPerPerson >= 0
    && c.comedyAmountPerAudience >= 0
    && c.historyBaseAmount >= 0
    && c.historyOverBaseCapacityPerPerson >= 0
    && c.pastoralBaseAmount >= 0
    && c.pastoralOverBaseCapacityPerPerson >= 0
  }
}
