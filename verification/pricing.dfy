/**
 The per-performance pricing rules: the charge in cents (`getAmount`) and the
 volume credits (`getVolumeCredits`) of one performance, given its play type
 and audience. Java `int` arithmetic is modelled on unbounded integers; Java's
 `/` truncates toward zero and is written out as `JavaDiv`.
 */
module Pricing {
  import opened Theater

  function Abs(x: int): (r: nat)
    ensures r == x || r == -x
  {
    if x < 0 then -x else x
  }

  /** Java's integer division: the quotient rounded toward zero. */
  function JavaDiv(a: int, b: int): int
    requires b != 0
  {
    var m := Abs(a) / Abs(b);
    if (a < 0) == (b < 0) then m else -m
  }

  /** The quotient times the divisor lies between 0 and the dividend and
      within one divisor of it: rounding toward zero, which pins the quotient
      down uniquely (section 15.17.2 of the Java Language Specification). */
  lemma JavaDivTruncates(a: int, b: int)
    requires b != 0
    ensures 0 <= JavaDiv(a, b) * b <= a || a <= JavaDiv(a, b) * b <= 0
    ensures Abs(a - JavaDiv(a, b) * b) < Abs(b)
  {
    if b > 0 {
      TruncatesByPositive(a, b);
    } else {
      TruncatesByPositive(a, -b);
      assert JavaDiv(a, b) == -JavaDiv(a, -b);
      assert JavaDiv(a, b) * b == JavaDiv(a, -b) * -b;
    }
  }

  lemma TruncatesByPositive(a: int, b: int)
    requires b > 0
    ensures 0 <= JavaDiv(a, b) * b <= a || a <= JavaDiv(a, b) * b <= 0
    ensures Abs(a - JavaDiv(a, b) * b) < b
  {
    JavaDivByPositive(a, b);
    var n: nat := Abs(a);
    var q, m := n / b, n % b;
    assert n == q * b + m && 0 <= m < b;
    MulMonotone(b, 0, q);
    if a < 0 {
      assert JavaDiv(a, b) * b == -(q * b);
    }
  }

  /** `Math.max(x, 0)`. */
  function Max0(x: int): (r: int)
    ensures r >= 0 && r >= x
    ensures r == x || r == 0
  {
    if x > 0 then x else 0
  }

  /** The charge in cents for one performance of a play of type `t`. */
  function Charge(c: Constants, t: PlayType, audience: int): int {
    match t
    case Tragedy =>
      c.tragedyBaseAmount
      + (if audience > c.tragedyAudienceThreshold
         then c.tragedyOverBaseCapacityPerPerson * (audience - c.tragedyAudienceThreshold)
         else 0)
    case Comedy =>
      c.comedyBaseAmount
      + (if audience > c.comedyAudienceThreshold
         then c.comedyOverBaseCapacityAmount
              + c.comedyOverBaseCapacityPerPerson * (audience - c.comedyAudienceThreshold)
         else 0)
      + c.comedyAmountPerAudience * audience
    case History =>
      c.historyBaseAmount
      + (if audience > c.historyAudienceThreshold
         then c.historyOverBaseCapacityPerPerson * (audience - c.historyAudienceThreshold)
         else 0)
    case Pastoral =>
      c.pastoralBaseAmount
      + (if audience > c.pastoralAudienceThreshold
         then c.pastoralOverBaseCapacityPerPerson * (audience - c.pastoralAudienceThreshold)
         else 0)
  }

  /** Only the comedy arm divides by `comedyExtraVolumeFactor`; for it the
      factor must be non-zero, as Java's `/` throws otherwise. */
  predicate ComedyFactorUsable(c: Constants, t: PlayType) {
    t == Comedy ==> c.comedyExtraVolumeFactor != 0
  }

  /** The volume credits earned by one performance of a play of type `t`. */
  function VolumeCredits(c: Constants, t: PlayType, audience: int): int
    requires ComedyFactorUsable(c, t)
  {
    match t
    case Tragedy => Max0(audience - c.baseVolumeCreditThreshold)
    case Comedy =>
      Max0(audience - c.baseVolumeCreditThreshold)
      + JavaDiv(audience, c.comedyExtraVolumeFactor)
    case History => Max0(audience - c.historyVolumeCreditThreshold)
    case Pastoral =>
      Max0(audience - c.pastoralVolumeCreditThreshold) + JavaDiv(audience, 2)
  }

  // Per-type views of the constants, used to state the rules uniformly.

  function BaseAmount(c: Constants, t: PlayType): int {
    match t
    case Tragedy => c.tragedyBaseAmount
    case Comedy => c.comedyBaseAmount
    case History => c.historyBaseAmount
    case Pastoral => c.pastoralBaseAmount
  }

  function AudienceThreshold(c: Constants, t: PlayType): int {
    match t
    case Tragedy => c.tragedyAudienceThreshold
    case Comedy => c.comedyAudienceThreshold
    case History => c.historyAudienceThreshold
    case Pastoral => c.pastoralAudienceThreshold
  }

  function OverCapacityPerPerson(c: Constants, t: PlayType): int {
    match t
    case Tragedy => c.tragedyOverBaseCapacityPerPerson
    case Comedy => c.comedyOverBaseCapacityPerPerson
    case History => c.historyOverBaseCapacityPerPerson
    case Pastoral => c.pastoralOverBaseCapacityPerPerson
  }

  function CreditThreshold(c: Constants, t: PlayType): int {
    match t
    case Tragedy => c.baseVolumeCreditThreshold
    case Comedy => c.baseVolumeCreditThreshold
    case History => c.historyVolumeCreditThreshold
    case Pastoral => c.pastoralVolumeCreditThreshold
  }

  /** Tragedy, history and pastoral charge exactly the base amount up to the
      audience threshold. */
  lemma ChargeAtOrBelowThreshold(c: Constants, t: PlayType, audience: int)
    requires t != Comedy
    requires audience <= AudienceThreshold(c, t)
    ensures Charge(c, t, audience) == BaseAmount(c, t)
  {
  }

  /** Above the threshold they charge the base plus the per-person rate for
      every seat over the threshold. */
  lemma ChargeAboveThreshold(c: Constants, t: PlayType, audience: int)
    requires t != Comedy
    requires audience > AudienceThreshold(c, t)
    ensures Charge(c, t, audience)
            == BaseAmount(c, t)
               + OverCapacityPerPerson(c, t) * (audience - AudienceThreshold(c, t))
  {
  }

  /** Comedy adds the flat over-capacity amount and the per-person rate only
      above its threshold, and the per-audience amount for every seat always. */
  lemma ComedyCharge(c: Constants, audience: int)
    ensures audience <= c.comedyAudienceThreshold ==>
              Charge(c, Comedy, audience)
              == c.comedyBaseAmount + c.comedyAmountPerAudience * audience
    ensures audience > c.comedyAudienceThreshold ==>
              Charge(c, Comedy, audience)
              == c.comedyBaseAmount + c.comedyOverBaseCapacityAmount
                 + c.comedyOverBaseCapacityPerPerson * (audience - c.comedyAudienceThreshold)
                 + c.comedyAmountPerAudience * audience
  {
  }

  /** Credits are the seats over the type's credit threshold (never
      negative), plus a truncated fraction of the audience for comedy (one per
      `comedyExtraVolumeFactor` seats) and pastoral (one per two seats). */
  lemma VolumeCreditsFormula(c: Constants, t: PlayType, audience: int)
    requires ComedyFactorUsable(c, t)
    ensures VolumeCredits(c, t, audience)
            == Max0(audience - CreditThreshold(c, t))
               + (match t
                  case Comedy => JavaDiv(audience, c.comedyExtraVolumeFactor)
                  case Pastoral => JavaDiv(audience, 2)
                  case _ => 0)
  {
  }

  lemma MulMonotone(k: int, x: int, y: int)
    requires k >= 0 && x <= y
    ensures k * x <= k * y
  {
    assert k * y - k * x == k * (y - x);
  }

  /** With a positive divisor, truncating division never decreases as the
      dividend grows, and it is non-negative on non-negative dividends. */
  lemma JavaDivMonotone(a1: int, a2: int, b: int)
    requires b > 0 && a1 <= a2
    ensures JavaDiv(a1, b) <= JavaDiv(a2, b)
    ensures a1 >= 0 ==> JavaDiv(a1, b) >= 0
  {
    JavaDivByPositive(a1, b);
    JavaDivByPositive(a2, b);
    if a1 >= 0 {
      DivMonotone(a1, a2, b);
    } else if a2 < 0 {
      DivMonotone(-a2, -a1, b);
    }
  }

  /** By a positive divisor, truncation is the Euclidean quotient of the
      magnitude, carrying the dividend's sign. */
  lemma JavaDivByPositive(a: int, b: int)
    requires b > 0
    ensures a >= 0 ==> JavaDiv(a, b) == a / b && a / b >= 0
    ensures a < 0 ==> JavaDiv(a, b) == -((-a) / b) && (-a) / b >= 0
  {
    assert Abs(b) == b;
  }

  /** Euclidean division by a positive divisor is monotone in the dividend. */
  lemma DivMonotone(x: nat, y: nat, b: int)
    requires b > 0 && x <= y
    ensures x / b <= y / b
  {
    var qx, qy := x / b, y / b;
    assert x == b * qx + x % b;
    assert y == b * qy + y % b;
    if qx > qy {
      MulMonotone(b, qy + 1, qx);
      assert false;
    }
  }

  /** With non-negative rates and a non-negative audience no performance is
      charged a negative amount. */
  lemma ChargeNonNegative(c: Constants, t: PlayType, audience: int)
    requires NonNegativeRates(c)
    requires audience >= 0
    ensures Charge(c, t, audience) >= 0
  {
    if audience > AudienceThreshold(c, t) {
      MulMonotone(OverCapacityPerPerson(c, t), 0, audience - AudienceThreshold(c, t));
    }
    MulMonotone(c.comedyAmountPerAudience, 0, audience);
  }

  /** With non-negative rates, a larger audience is never charged less. */
  lemma ChargeMonotone(c: Constants, t: PlayType, a1: int, a2: int)
    requires NonNegativeRates(c)
    requires a1 <= a2
    ensures Charge(c, t, a1) <= Charge(c, t, a2)
  {
    var thr, rate := AudienceThreshold(c, t), OverCapacityPerPerson(c, t);
    if a2 > thr {
      MulMonotone(rate, 0, a2 - thr);
    }
    MulMonotone(rate, a1 - thr, a2 - thr);
    MulMonotone(c.comedyAmountPerAudience, a1, a2);
  }

  /** A non-negative audience earns non-negative credits. */
  lemma VolumeCreditsNonNegative(c: Constants, t: PlayType, audience: int)
    requires t == Comedy ==> c.comedyExtraVolumeFactor > 0
    requires audience >= 0
    ensures VolumeCredits(c, t, audience) >= 0
  {
    if t == Comedy {
      JavaDivMonotone(audience, audience, c.comedyExtraVolumeFactor);
    }
    JavaDivMonotone(audience, audience, 2);
  }

  /** A larger audience never earns fewer credits. */
  lemma VolumeCreditsMonotone(c: Constants, t: PlayType, a1: int, a2: int)
    requires t == Comedy ==> c.comedyExtraVolumeFactor > 0
    requires a1 <= a2
    ensures VolumeCredits(c, t, a1) <= VolumeCredits(c, t, a2)
  {
    if t == Comedy {
      JavaDivMonotone(a1, a2, c.comedyExtraVolumeFactor);
    }
    JavaDivMonotone(a1, a2, 2);
  }

  /** A tragedy for 55 with threshold 30, base 40000 and 1000 per extra seat
      costs 65000 cents and earns 25 credits when the credit threshold is 30. */
  lemma TragedyExample(c: Constants)
    requires c.tragedyBaseAmount == 40000 && c.tragedyAudienceThreshold == 30
    requires c.tragedyOverBaseCapacityPerPerson == 1000
    requires c.baseVolumeCreditThreshold == 30
    ensures Charge(c, Tragedy, 55) == 65000
    ensures VolumeCredits(c, Tragedy, 55) == 25
  {
  }

  /** A comedy for 20 at a threshold of 20 pays no surcharge, and with a credit
      threshold of 30 and a factor of 20 earns exactly one credit. */
  lemma ComedyExample(c: Constants)
    requires c.comedyAudienceThreshold == 20
    requires c.baseVolumeCreditThreshold == 30 && c.comedyExtraVolumeFactor == 20
    ensures Charge(c, Comedy, 20) == c.comedyBaseAmount + c.comedyAmountPerAudience * 20
    ensures VolumeCredits(c, Comedy, 20) == 1
  {
  }
}
