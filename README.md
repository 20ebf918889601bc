# Tai/Xiu round settlement

A model of the settlement logic of a browser game of Tai/Xiu (Over/Under)
played with three dice. The player picks a side, 'TAI' or 'XIU', and types a
stake. A roll request passes three guards:

- no roll already in progress;
- a side chosen;
- the stake, `max(1, floor(input))`, no larger than the balance.

After the animation the final dice are classified:

- 'TAM HOA' when all three faces are equal;
- otherwise 'TAI' when the sum is 11 or more;
- otherwise 'XIU'.

The player wins the stake when the throw is not a triple and the chosen side
equals the label. In every other case the player loses the stake. Each
settled round goes to the front of a history that keeps at most 50 entries.
Buttons reset the balance to 10000, clear the history, add a chip to the
stake box and clear the stake box.

The project has three modules:

- `Round` (round.dfy) holds the pure rules: faces, classification, stake
  normalisation, chip arithmetic, the order of the roll guards, and the win
  test and balance change.
- `Ledger` (ledger.dfy) holds the history entry, `addHistory` as a function on
  sequences, and lemmas about many successive settlements.
- `Game` (game.dfy) holds the `Session` class. Its fields are the balance,
  the history, the rolling flag, the chosen side and the stake box. Its
  methods are the handlers, and each states the whole new state.

Two class predicates carry the invariants:

- `Valid()` says the history stays within 50 entries, every entry is a
  consistent settlement record, and a roll in progress holds a stake of at
  least 1. Every method keeps it.
- `Solvent()` says the balance is not negative and covers the stake in play.
  Every handler keeps it except the reset button as written. That one keeps it
  exactly when no roll is in progress or the stake in play is at most 10000 (see Findings).

The dice are parameters of `FinishRoll`, restricted to 1..6, in place of
`random1to6`. The time string is an opaque parameter.

## Model

| member | source | states |
|---|---|---|
| `Round.Classify` | cs.script.js:125-128 | the sum is a+b+c and lies in [3,18]; the triple flag holds iff all faces are equal; the label is 'TAM HOA' iff a triple, 'TAI' iff not a triple and sum >= 11, 'XIU' iff not a triple and sum <= 10 |
| `Round.MirrorSwapsSides` | cs.script.js:126-128 | turning every die over (f to 7-f) swaps 'TAI' and 'XIU' and keeps 'TAM HOA'; this map is why, with fair dice, both sides are equally likely |
| `Round.TripleOverridesSum` | cs.script.js:127-128 | every triple is 'TAM HOA', including triples whose sum is 11 or more |
| `Round.Side.Label` | cs.script.js:159-160 | a side is compared with 'TAI' or 'XIU', never with 'TAM HOA' |
| `Round.EffectiveStake` | cs.script.js:98 | the stake is at least 1; it is the floor of the input when the input is 1 or more, and 1 otherwise (0 and negative inputs are raised to 1, not refused) |
| `Round.ChipStake` | cs.script.js:152-154 | after a chip click the box minus the chip value is a non-negative integer: the floor of the old value, or 0 when the old value was negative |
| `Round.Admit` | cs.script.js:96-99 | guards in order: 'already rolling' iff rolling; 'no choice' iff idle with no side; 'insufficient' iff idle, side chosen and stake > balance; otherwise started with a stake in [1, balance] |
| `Round.Delta` | cs.script.js:135-142 | the change is plus or minus the stake, and positive exactly when the round is won |
| `Round.Wins` | cs.script.js:136 | the win test: a triple never wins, no chosen side never wins, and a win is never on 'TAM HOA'; `Round.WinsExactly` states the full iff on classified dice: a side chosen, not a triple, and the side is 'TAI' exactly when the sum is >= 11 |
| `Round.WinsExactly` | cs.script.js:136 | on classified dice, a win holds iff a side is chosen, the throw is not a triple, and the side is 'TAI' exactly when the sum is >= 11 |
| `Round.TripleLoses` | cs.script.js:136-141 | a triple never wins and always costs the stake, for either side |
| `Round.AdmittedRoundStaysSolvent` | cs.script.js:96-142 | an admitted stake on a non-negative balance leaves the balance non-negative after any throw and any side |
| `Ledger.Pushed` | cs.script.js:47-49 | the new entry is at index 0; below 50 entries the old history follows whole; at 50 or more only the old last entry is dropped; within 50 stays within 50; consistent records stay consistent |
| `Ledger.PushedIsWindow` | cs.script.js:47-49 | on a history of at most 50 entries, addHistory is the first 50 of the entry followed by the history |
| `Ledger.PushAllWindow` | cs.script.js:47-49 | any number of settlements onto a history of at most 50 leaves the newest 50 of all entries, newest first |
| `Ledger.ManySettlements` | cs.script.js:47-49 | after at least 50 settlements the history is exactly the last 50 entries in reverse order, its head is the latest, and every older entry is gone |
| `Ledger.Record` | cs.script.js:143 | the entry carries the dice, sum, label, side, stake and change of the round; for a classified throw, a stake of at least 1 and a change of plus or minus the stake it is a consistent record (`Game.Session.FinishRoll` states that the history head is this entry) |
| `Game.Session.constructor` | cs.script.js:20-23 | a session with nothing saved starts with balance 10000, empty history, no side and not rolling |
| `Game.Session.Restored` | cs.script.js:29 | a session started from a saved balance and history keeps them, with no side and not rolling |
| `Game.Session.SetChoice` | cs.script.js:40-41 | the side is set and nothing else changes |
| `Game.Session.SetStakeInput` | cs.script.js:98 | the player types into the stake box: the box holds the value `Number(betInput.value) \|\| 0` reads; nothing else changes |
| `Game.Session.AddChip` | cs.script.js:150-155 | the stake box becomes max(0, floor(current)) + v; nothing else changes |
| `Game.Session.ClearBet` | cs.script.js:158 | the stake box becomes 0; nothing else changes |
| `Game.Session.StartRoll` | cs.script.js:95-100 | returns the guard verdict of Admit; a refused request leaves balance, history, side and rolling unchanged; an admitted one sets rolling with a stake in [1, balance] |
| `Game.Session.AddHistory` | cs.script.js:47-49 | the history becomes Pushed(old history, entry); nothing else changes |
| `Game.Session.FinishRoll` | cs.script.js:124-147 | classifies the dice; the balance moves by +stake on a win and -stake otherwise; the entry with that stake and change is pushed onto the history; rolling is cleared; a solvent session stays solvent |
| `Game.Session.ResetBalanceAsWritten` | cs.script.js:162 | balance becomes 10000 at any time, the history untouched; solvency holds afterwards exactly when no roll is in progress or the stake in play is at most 10000 |
| `Game.Session.ResetBalance` | cs.script.js:162 | when idle, balance becomes 10000 and the history is untouched; during a roll nothing changes; solvency is always kept |
| `Game.Session.ClearHistory` | cs.script.js:163 | history becomes empty and the balance is untouched |
| `Game.ResetDuringRollAsWritten` | cs.script.js:162 | balance 20000, stake 15000 on 'TAI', reset pressed during the roll, throw 1-1-2: the final balance is -5000 |
| `Game.ResetDuringRollGuarded` | cs.script.js:162 | the same sequence with the guarded reset ends at 5000 |
| `Game.WorkedRounds` | cs.script.js:124-145 | from 10000: 500 on 'TAI' with 6-6-6 leaves 9500; 1000 on 'XIU' with 1-2-3 leaves 11000 |
| `Game.RefusedStake` | cs.script.js:98-99 | balance 500 and stake 600: refused as insufficient, balance still 500 |

## Left out

- Canvas drawing (`drawTable`, `drawDie`) and DOM output (`renderHistory`, `updateHUD`, status texts, button toggles): presentation only.
- The `requestAnimationFrame` animation: its per-frame faces are discarded. It is modelled only as the call from `StartRoll` to `FinishRoll`, with the stake handed over. A ghost field ties that stake to the one `StartRoll` admitted.
- `Math.random`: the final dice are parameters in 1..6.
- `localStorage` persistence and JSON: foreign I/O whose errors are ignored. `Game.Session.Restored` takes the loaded balance and history as parameters. It requires a history of at most 50 entries that are consistent settlement records, i.e. one this code saved.
- `toLocaleString` / `toLocaleTimeString`: the time string is an opaque parameter.
- `Number(...)` parsing of the stake box and the chip attributes: the box is the real number already parsed, after `|| 0`, so NaN is covered as 0. Only plus and minus Infinity (for example the text "1e999") are not modelled. In the code, +Infinity gives `amt` = Infinity, refused as insufficient at line 99; -Infinity is clamped to a stake of 1 at line 98. The string round trip through `String(...)` is not modelled either.
- JavaScript number precision: `balance`, `amt`, the stake box and the chip values are IEEE doubles in the code, while the model uses unbounded `int` and exact `real`. The model matches the code only while these values stay integers below 2^53 (beyond that `balance += amt` and `Number(...)` round).
- Chip values come from HTML attributes, which are not part of this model. They are any real `v`.
- `Game.Session.SetChoice` has no guard against a roll in progress, as in the code. So the side settled is the one chosen when the animation ends. The dice are drawn only then, so this gives no advantage.

## Findings

| source | as written | input that shows it | evidently intended | confidence | as-written member | corrected member |
|---|---|---|---|---|---|---|
| cs.script.js:162 | the reset button sets the balance to 10000 even while a roll is in progress, and the stake admitted against the old balance is still settled against the new one | balance 20000, stake 15000 on 'TAI', reset pressed during the 1.2 s animation, final throw 1-1-2: the balance ends at -5000 | the stake check at line 99 is meant to keep the balance non-negative, so reset should be refused while rolling (or the roll settled first) | medium, not executed | `Game.ResetDuringRollAsWritten` (with `Game.Session.ResetBalanceAsWritten`) | `Game.Session.ResetBalance` (with `Game.ResetDuringRollGuarded`) |
