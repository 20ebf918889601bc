/** The session state of the game and the handlers that change it: the roll
    request, the settlement at the end of the animation, the side buttons,
    the stake chips and the reset and clear buttons. */
module Game {
  import opened Round
  import opened Ledger

  /** The balance of a new session and of the reset button. */
  const DEFAULT_BALANCE := 10000

  class Session {
    var balance: int
    var history: seq<Entry>
    var rolling: bool
    var choice: Option<Side>
    /** The numeric value of the stake box, Number(betInput.value) || 0. */
    var betInput: real
    /** The stake captured by the roll in progress, which the animation
        passes on to finishRoll. */
    ghost var inPlay: int

    /** What every handler keeps: the history within CAPACITY, every entry as
        settlement records it, and a roll in progress holding a stake of at
        least 1. */
    ghost predicate Valid()
      reads this
    {
      |history| <= CAPACITY && AllRecorded(history) && (rolling ==> inPlay >= 1)
    }

    /** The balance is not negative and covers the stake of the roll in progress. */
    ghost predicate Solvent()
      reads this
    {
      balance >= 0 && (rolling ==> inPlay <= balance)
    }

    /** A session with nothing saved: balance 10000, empty history, no side chosen. */
    constructor (betInput0: real)
      ensures Valid() && Solvent()
      ensures balance == DEFAULT_BALANCE && history == [] && !rolling && choice == None
      ensures betInput == betInput0
    {
      balance, history, rolling, choice, betInput := DEFAULT_BALANCE, [], false, None, betInput0;
      inPlay := 0;
    }

    /** A session started from a saved balance and history. */
    constructor Restored(balance0: int, history0: seq<Entry>, betInput0: real)
      requires |history0| <= CAPACITY && AllRecorded(history0)
      ensures Valid() && (balance0 >= 0 ==> Solvent())
      ensures balance == balance0 && history == history0 && !rolling && choice == None
      ensures betInput == betInput0
    {
      balance, history, rolling, choice, betInput := balance0, history0, false, None, betInput0;
      inPlay := 0;
    }

    /** setChoice: record the side; nothing else changes. */
    method SetChoice(side: Side)
      requires Valid()
      modifies this
      ensures Valid() && (old(Solvent()) ==> Solvent())
      ensures choice == Some(side)
      ensures balance == old(balance) && history == old(history) && rolling == old(rolling)
      ensures betInput == old(betInput) && inPlay == old(inPlay)
    {
      choice := Some(side);
    }

    /** The player types into the stake box; x is the value
        Number(betInput.value) || 0 reads back. */
    method SetStakeInput(x: real)
      requires Valid()
      modifies this
      ensures Valid() && (old(Solvent()) ==> Solvent())
      ensures betInput == x
      ensures balance == old(balance) && history == old(history) && rolling == old(rolling)
      ensures choice == old(choice) && inPlay == old(inPlay)
    {
      betInput := x;
    }

    /** A chip click adds the chip value v to the floored, non-negative stake. */
    method AddChip(v: real)
      requires Valid()
      modifies this
      ensures Valid() && (old(Solvent()) ==> Solvent())
      ensures betInput == ChipStake(old(betInput), v)
      ensures balance == old(balance) && history == old(history) && rolling == old(rolling)
      ensures choice == old(choice) && inPlay == old(inPlay)
    {
      betInput := ChipStake(betInput, v);
    }

    /** The clear-bet button writes 0 into the stake box. */
    method ClearBet()
      requires Valid()
      modifies this
      ensures Valid() && (old(Solvent()) ==> Solvent())
      ensures betInput == CLEARED_STAKE
      ensures balance == old(balance) && history == old(history) && rolling == old(rolling)
      ensures choice == old(choice) && inPlay == old(inPlay)
    {
      betInput := CLEARED_STAKE;
    }

    /** The guards of rollDiceAnimation. A refused request changes nothing;
        an admitted one sets rolling and hands the stake to the animation. */
    method StartRoll() returns (s: Admission)
      requires Valid()
      modifies this
      ensures Valid() && (old(Solvent()) ==> Solvent())
      ensures s == Admit(old(rolling), old(choice), old(betInput), old(balance))
      ensures rolling == (old(rolling) || s.Started?)
      ensures inPlay == if s.Started? then s.amt else old(inPlay)
      ensures s.Started? ==> 1 <= inPlay <= balance
      ensures balance == old(balance) && history == old(history)
      ensures choice == old(choice) && betInput == old(betInput)
    {
      if rolling {
        return AlreadyRolling;
      }
      if choice.None? {
        return NoChoice;
      }
      var amt := EffectiveStake(betInput);
      if amt > balance {
        return Insufficient(amt);
      }
      rolling := true;
      inPlay := amt;
      s := Started(amt);
    }

    /** addHistory, without the rendering and saving. */
    method AddHistory(e: Entry)
      requires Valid() && Recorded(e)
      modifies this
      ensures Valid()
      ensures history == Pushed(old(history), e)
      ensures balance == old(balance) && rolling == old(rolling) && choice == old(choice)
      ensures betInput == old(betInput) && inPlay == old(inPlay)
    {
      history := Pushed(history, e);
    }

    /** finishRoll with the final dice d1, d2, d3 and the time string: classify,
        settle against the side chosen now, record the entry, clear rolling. */
    method FinishRoll(amt: int, d1: Face, d2: Face, d3: Face, time: string) returns (t: Throw, delta: int)
      requires Valid() && rolling && amt == inPlay
      modifies this
      ensures Valid() && !rolling
      ensures t == Classify(d1, d2, d3)
      ensures delta == (if Wins(old(choice), t) then amt else -amt)
      ensures balance == old(balance) + delta
      ensures history == Pushed(old(history), Record(time, t, old(choice), amt, delta))
      ensures history[0].betAmount == amt && (history[0].delta == amt || history[0].delta == -amt)
      ensures choice == old(choice) && betInput == old(betInput) && inPlay == old(inPlay)
      ensures old(Solvent()) ==> Solvent()
    {
      t := Classify(d1, d2, d3);
      delta := Delta(choice, amt, t);
      balance := balance + delta;
      AddHistory(Record(time, t, choice, amt, delta));
      rolling := false;
    }

    /** The reset button, refusing while a roll is in progress (see README,
        Findings); when idle it restores balance 10000 and nothing else. */
    method ResetBalance() returns (done: bool)
      requires Valid()
      modifies this
      ensures Valid() && (old(Solvent()) ==> Solvent())
      ensures done == !old(rolling)
      ensures balance == if done then DEFAULT_BALANCE else old(balance)
      ensures history == old(history) && rolling == old(rolling) && choice == old(choice)
      ensures betInput == old(betInput) && inPlay == old(inPlay)
    {
      done := !rolling;
      if done {
        balance := DEFAULT_BALANCE;
      }
    }

    /** The reset button as the handler is written: balance 10000 at any time,
        even while a roll is in progress. */
    method ResetBalanceAsWritten()
      requires Valid()
      modifies this
      ensures Valid() && (Solvent() <==> !rolling || inPlay <= DEFAULT_BALANCE)
      ensures balance == DEFAULT_BALANCE
      ensures history == old(history) && rolling == old(rolling) && choice == old(choice)
      ensures betInput == old(betInput) && inPlay == old(inPlay)
    {
      balance := DEFAULT_BALANCE;
    }

    /** The clear-history button: an empty history, the balance untouched. */
    method ClearHistory()
      requires Valid()
      modifies this
      ensures Valid() && (old(Solvent()) ==> Solvent())
      ensures history == []
      ensures balance == old(balance) && rolling == old(rolling) && choice == old(choice)
      ensures betInput == old(betInput) && inPlay == old(inPlay)
    {
      history := [];
    }
  }

  /** Balance 20000, a 15000 stake on 'TAI', the reset button pressed during
      the animation, then the losing throw 1-1-2: the handlers as written end
      with a negative balance. */
  method ResetDuringRollAsWritten() returns (final: int)
    ensures final == -5000
  {
    var s := new Session.Restored(20000, [], 0.0);
    s.SetChoice(BetTai);
    s.AddChip(15000.0);
    var admitted := s.StartRoll();
    assert admitted == Started(15000);
    s.ResetBalanceAsWritten();
    var t, delta := s.FinishRoll(15000, 1, 1, 2, "");
    final := s.balance;
  }

  /** The same sequence with the guarded reset: the press is refused and the
      loss leaves 5000. */
  method ResetDuringRollGuarded() returns (final: int)
    ensures final == 5000
  {
    var s := new Session.Restored(20000, [], 0.0);
    s.SetChoice(BetTai);
    s.AddChip(15000.0);
    var admitted := s.StartRoll();
    assert admitted == Started(15000);
    var done := s.ResetBalance();
    var t, delta := s.FinishRoll(15000, 1, 1, 2, "");
    final := s.balance;
  }

  /** Balance 10000, 'TAI', stake 500, throw 6-6-6: a triple loses, 9500 remains.
      Balance 10000, 'XIU', stake 1000, throw 1-2-3: sum 6 wins, 11000. */
  method WorkedRounds() returns (afterTriple: int, afterWin: int)
    ensures afterTriple == 9500 && afterWin == 11000
  {
    var s := new Session(500.0);
    s.SetChoice(BetTai);
    var admitted := s.StartRoll();
    var t, delta := s.FinishRoll(500, 6, 6, 6, "");
    afterTriple := s.balance;

    var w := new Session(1000.0);
    w.SetChoice(BetXiu);
    admitted := w.StartRoll();
    t, delta := w.FinishRoll(1000, 1, 2, 3, "");
    afterWin := w.balance;
  }

  /** Balance 500 and a stake of 600: the request is refused and the balance
      stays 500. */
  method RefusedStake() returns (s: Admission, after: int)
    ensures s == Insufficient(600) && after == 500
  {
    var session := new Session.Restored(500, [], 600.0);
    session.SetChoice(BetXiu);
    s := session.StartRoll();
    after := session.balance;
  }
}
