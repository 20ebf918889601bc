/** The pure rules of one Tai/Xiu round: what three dice mean, how the stake
    typed by the player is normalised, which guard stops a roll request, and
    what a settled round pays. Nothing here touches session state. */
module Round {

  datatype Option<+T> = None | Some(value: T)

  /** A die face, as produced by random1to6. */
  type Face = x: int | 1 <= x <= 6 witness 1

  /** The outcome labels 'TAI', 'XIU' and 'TAM HOA'. */
  datatype Outcome = Tai | Xiu | TamHoa

  /** A side the player can bet on; setChoice is only called with 'TAI' or 'XIU'. */
  datatype Side = BetTai | BetXiu {
    /** The outcome label this side is compared with. */
    function Label(): (o: Outcome)
      ensures o != TamHoa
    {
      if BetTai? then Tai else Xiu
    }
  }

  /** The smallest sum that counts as 'TAI'. */
  const TAI_MIN := 11

  /** The classified throw: the dice, their sum, the triple flag and the label. */
  datatype Throw = Throw(dice: seq<int>, sum: int, triple: bool, outcome: Outcome)

  /** The sum, triple flag and outcome label computed at the start of finishRoll. */
  function Classify(a: Face, b: Face, c: Face): (t: Throw)
    ensures t.dice == [a, b, c] && t.sum == a + b + c
    ensures 3 <= t.sum <= 18
    ensures t.triple <==> a == b == c
    ensures t.outcome == TamHoa <==> a == b == c
    ensures t.outcome == Tai <==> a + b + c >= TAI_MIN && !(a == b == c)
    ensures t.outcome == Xiu <==> a + b + c < TAI_MIN && !(a == b == c)
  {
    var sum := a + b + c;
    var triple := a == b && b == c;
    Throw([a, b, c], sum, triple, if triple then TamHoa else if sum >= TAI_MIN then Tai else Xiu)
  }

  /** The opposite label for a non-triple throw; a triple stays a triple. */
  function Opposite(o: Outcome): (r: Outcome) {
    match o
    case Tai => Xiu
    case Xiu => Tai
    case TamHoa => TamHoa
  }

  /** Turning every die upside down (face f becomes 7 - f) maps a sum s to
      21 - s, so it swaps 'TAI' and 'XIU' and keeps triples: the two sides are
      symmetric and only the triple rule favours the house. */
  lemma MirrorSwapsSides(a: Face, b: Face, c: Face)
    ensures Classify(7 - a, 7 - b, 7 - c).outcome == Opposite(Classify(a, b, c).outcome)
  {
  }

  /** A triple is 'TAM HOA' whatever its sum, including the triples whose sum
      is 11 or more (4-4-4, 5-5-5, 6-6-6). */
  lemma TripleOverridesSum(a: Face)
    ensures Classify(a, a, a).outcome == TamHoa
    ensures a >= 4 ==> Classify(a, a, a).sum >= TAI_MIN
  {
  }

  /** Math.max(1, Math.floor(x)) on the numeric value x of the stake box. */
  function EffectiveStake(x: real): (amt: int)
    ensures amt >= 1
    ensures x >= 1.0 ==> amt as real <= x < amt as real + 1.0
    ensures x < 1.0 ==> amt == 1
  {
    if x.Floor < 1 then 1 else x.Floor
  }

  /** A chip click: the box becomes Math.max(0, Math.floor(current)) + v. */
  function ChipStake(current: real, v: real): (r: real)
    ensures (r - v).Floor as real == r - v && r - v >= 0.0
    ensures current >= 0.0 ==> r - v <= current < r - v + 1.0
    ensures current < 0.0 ==> r == v
  {
    (if current.Floor < 0 then 0 else current.Floor) as real + v
  }

  /** The value the clear-bet button writes into the stake box. */
  const CLEARED_STAKE := 0.0

  /** The answer to a roll request, in the order the guards are checked. */
  datatype Admission =
    | AlreadyRolling
    | NoChoice
    | Insufficient(amt: int)
    | Started(amt: int)

  /** The guards of rollDiceAnimation: a roll in progress wins over a missing
      side, which wins over a stake above the balance. */
  function Admit(rolling: bool, choice: Option<Side>, stake: real, balance: int): (s: Admission)
    ensures s.AlreadyRolling? <==> rolling
    ensures s.NoChoice? <==> !rolling && choice.None?
    ensures s.Insufficient? <==> !rolling && choice.Some? && EffectiveStake(stake) > balance
    ensures s.Started? <==> !rolling && choice.Some? && EffectiveStake(stake) <= balance
    ensures (s.Started? || s.Insufficient?) ==> s.amt == EffectiveStake(stake)
    ensures s.Started? ==> 1 <= s.amt <= balance
  {
    if rolling then AlreadyRolling
    else if choice.None? then NoChoice
    else
      var amt := EffectiveStake(stake);
      if amt > balance then Insufficient(amt) else Started(amt)
  }

  /** The win test of finishRoll: not a triple, a side chosen, and the side
      equal to the outcome label. */
  predicate Wins(choice: Option<Side>, t: Throw): (w: bool)
    ensures t.triple ==> !w
    ensures choice.None? ==> !w
    ensures w ==> t.outcome != TamHoa
  {
    !t.triple && choice.Some? && choice.value.Label() == t.outcome
  }

  /** The balance change of a settled round: the stake on a win, minus the
      stake otherwise. */
  function Delta(choice: Option<Side>, amt: int, t: Throw): (d: int)
    ensures d == amt || d == -amt
    ensures amt >= 1 ==> (d > 0 <==> Wins(choice, t))
  {
    if Wins(choice, t) then amt else -amt
  }

  /** On classified dice the player wins exactly when a side is chosen, the
      dice are not a triple, and the side agrees with the sum (11 or more for
      'TAI', 10 or less for 'XIU'). */
  lemma WinsExactly(choice: Option<Side>, a: Face, b: Face, c: Face)
    ensures Wins(choice, Classify(a, b, c)) <==>
      choice.Some? && !(a == b == c) && (choice.value == BetTai <==> a + b + c >= TAI_MIN)
  {
  }

  /** Every triple loses, for either side. */
  lemma TripleLoses(choice: Option<Side>, a: Face, amt: int)
    ensures !Wins(choice, Classify(a, a, a))
    ensures Delta(choice, amt, Classify(a, a, a)) == -amt
  {
  }

  /** An admitted stake never drives a non-negative balance below zero,
      whatever the dice and whichever side is settled. */
  lemma AdmittedRoundStaysSolvent(
    rolling: bool, choice: Option<Side>, stake: real, balance: int,
    settled: Option<Side>, a: Face, b: Face, c: Face)
    requires balance >= 0 && Admit(rolling, choice, stake, balance).Started?
    ensures balance + Delta(settled, Admit(rolling, choice, stake, balance).amt, Classify(a, b, c)) >= 0
  {
  }
}
