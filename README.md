# Number-guessing game: round state machine and best-score table

This project models the logic of a browser number-guessing game (`script.js`):
a player picks a difficulty (easy 1–50 with 12 attempts, medium 1–100 with 10,
hard 1–500 with 12), the game draws a secret, and each guess is ignored,
rejected, or recorded. A recorded guess either wins, exhausts the attempts, or
produces a Higher/Lower hint with a Hot/Warm/Cold proximity band when hints
are on. A win may set a new best score for the round's difficulty.

Layout:

- `wrappers.dfy` — `Option`, for an input that did not parse and a table that did not load.
- `rules.dfy` (module `Rules`) — the round record as a value (`Snapshot`), the difficulty
  table, one guess as a pure function (`Evaluate`), the proximity bands, the round
  invariant `Valid`, the weaker invariant `Sound` that also survives difficulty changes, and
  lemmas about replaying any sequence of inputs (`Play`) or of inputs and changes (`Run`).
- `scores.dfy` (module `Scores`) — the best-score table `map<Difficulty, Record>`, the merge
  rule, and lemmas about a sequence of wins.
- `engine.dfy` (module `Engine`) — class `Round`, whose fields the guess, win and lose
  handlers update in place, and class `Game`, the page-level session. `Game` holds the
  current round, the score table and the difficulty picker's value. Every handler's
  contract gives the new state in terms of the old one or of a `Rules`/`Scores` function.

Behaviour of the code worth knowing, all of it modelled as written:

- Direction and band are both produced only when hints are on (`script.js:114-122`). Without
  hints a non-final guess gives `Continue(None)`.
- A guess on a finished round and a guess on a round that was never started are both silently
  ignored (`script.js:92`), with the same outcome `Ignored`.
- A miss loses the round when `attemptsLeft <= 0` after the decrement (`script.js:109`).
- The difficulty picker's change handler overwrites `max` and `attemptsLeft` of the current round, live or not
  (`script.js:197-205`). So the secret is not guaranteed to stay within `[1, max]`, and
  `|guesses| + attemptsLeft` is conserved only between difficulty changes.
  `Rules.PlayOnStrandedRound` shows that such a round is never won, whatever inputs follow, and
  `Rules.ReconfigureCanStrandSecret` exhibits one: a hard round switched to easy.
  The attempt count still never goes negative (`Rules.RunKeepsSound`).
  The new-round button then restarts at the round's old difficulty, not the picked one.

## Model

| member | source | states |
|---|---|---|
| Rules.ConfigOf | script.js:23-27 | every level has a range bound and an attempt budget of at least 1 |
| Rules.Initial | script.js:42-53 | a fresh round has the level's max and attempt budget, no guesses, is neither started nor finished, satisfies the round invariant, and keeps the drawn secret |
| Rules.HotLimit | script.js:117 | the hot threshold is the integer ceiling of 2% of max |
| Rules.WarmLimit | script.js:118 | the warm threshold is the integer ceiling of 6% of max |
| Rules.Proximity | script.js:116-118 | Hot iff the distance is within 2% of max rounded up; Warm iff not Hot and within 6% rounded up; otherwise Cold |
| Rules.ConfiguredThresholds | script.js:117-118 | for ranges 50, 100 and 500 the thresholds are 1/3, 2/6 and 10/30 |
| Rules.Evaluate | script.js:91-125 | a round that is not live ignores the guess and is unchanged; an unparsed or out-of-range input is rejected with the round unchanged; otherwise the guess is appended and exactly one attempt consumed; Won iff the guess equals the secret (even when this used the last attempt); Lost iff it misses and no attempt is left; Continue iff it misses with attempts left; a continuing round carries a hint iff hints are on, with Higher iff guess < secret and the proximity band of the distance |
| Rules.EvaluateKeepsValid | script.js:99-112 | one guess preserves the round invariant (budget conservation, in-range guesses, only the last guess can hit the secret, a finished round found the secret or ran out) |
| Rules.OutcomeMatchesStatus | script.js:104-112 | for every round, a Won outcome moves the status to won, a Lost outcome to lost, and every other outcome leaves the status unchanged |
| Rules.ValidIsSound | script.js:99-112 | the round invariant implies a non-negative attempt count, at least one attempt left while live |
| Rules.EvaluateKeepsSound | script.js:101-112 | a guess keeps the attempt count non-negative and a live round with an attempt left, whatever difficulty changes came before |
| Rules.HintsDoNotChangeState | script.js:114-122 | the hints setting affects only the feedback, never the round state |
| Rules.PlayKeepsValid | script.js:99-101 | any sequence of inputs preserves the round invariant, so at most the level's budget of guesses is ever recorded and attemptsLeft never goes negative |
| Rules.PlayOnDeadRound | script.js:92 | a round that is not started, or is already finished, is unchanged by any sequence of inputs |
| Rules.PlayAppendsOnly | script.js:99-101 | the guess log only grows, by exactly as many entries as attempts consumed; secret, max and difficulty never change; a finished round stays finished |
| Rules.PlayExhaustsRound | script.js:101-112 | a started round with a non-negative attempt count (so also one whose difficulty was changed) is finished after as many in-range guesses as it has attempts left |
| Rules.Reconfigured | script.js:197-205 | the difficulty change sets max and attemptsLeft from the new level and leaves every other field as it was |
| Rules.ReconfiguredKeepsSound | script.js:200-201 | a difficulty change keeps the attempt count non-negative and a live round with an attempt left |
| Rules.RunKeepsSound | script.js:99-112 | across any interleaving of guesses and difficulty changes, the attempt count never goes negative and a live round always has an attempt left |
| Rules.StrandedSecretCannotWin | script.js:95-104 | on a round whose secret lies above its max, a guess cannot win and the secret stays above the max |
| Rules.PlayOnStrandedRound | script.js:95-112 | an unfinished round whose secret lies above its max never reaches the won status, whatever inputs follow |
| Rules.ReconfigureCanStrandSecret | script.js:197-205 | switching a live hard round with secret 300 to easy breaks the round invariant and leaves the secret above the new max, and the next input cannot win |
| Scores.PlayerName | script.js:143 | the recorded name is "Player" when the typed name is empty and the typed name otherwise |
| Scores.Merge | script.js:142-151 | the entry for the difficulty becomes the new record iff there was none or the new count is strictly smaller; otherwise the table is unchanged; other difficulties keep their entries; the stored best is the smaller of old and new |
| Scores.TieKeepsFirst | script.js:147 | a second win with the same attempt count keeps the first player's record |
| Scores.MergeAllKeepsFirstBest | script.js:142-151 | after any sequence of wins from no entry, the record holds the fewest attempts of all wins and belongs to the earliest win that reached it |
| Scores.MergeAllOtherKeys | script.js:148 | wins at one difficulty never add, remove or change another difficulty's entry |
| Engine.Round.constructor | script.js:42-53 | the new round object equals the fresh round for the level and drawn secret |
| Engine.Round.Guess | script.js:91-125 | the in-place guess handler leaves the round in the state, and returns the outcome, that Rules.Evaluate gives |
| Engine.Round.Win | script.js:127-133 | only the finished flag is set |
| Engine.Round.Lose | script.js:135-140 | only the finished flag is set |
| Engine.Game.constructor | script.js:33-40 | the page starts with an unstarted medium round and the stored table, or an empty table when loading failed |
| Engine.Game.StartGame | script.js:78-89 | a new started round at the picked level; the score table and picker are unchanged |
| Engine.Game.Submit | script.js:91-133 | the round moves as Rules.Evaluate says, and on a win the score table becomes Scores.Merge of the old table with the round's difficulty and attempts used, reporting whether it changed |
| Engine.Game.RecordWin | script.js:142-151 | the in-place table update equals Scores.Merge, and it reports a change iff the win beats the stored best |
| Engine.Game.NewRound | script.js:163-173 | a new started, unfinished round at the previous round's difficulty |
| Engine.Game.Reset | script.js:175-184 | a new unstarted round at the picked level |
| Engine.Game.ChangeDifficulty | script.js:197-205 | the picker takes the new level and the current round, live or not, changes exactly as Rules.Reconfigured says; the round object and the table are unchanged |

`Engine.EasyRoundWalkthrough` is a client of the class contracts. It plays an easy round with
secret 25 and guesses 10, 40, 25. The first two give Higher and Lower, the third wins with 9
attempts left, and "Player" is recorded with 3 attempts.

## Left out

- DOM lookup, rendering of text, classes and history, focus and button enabling (`script.js:5-21`, `55-76`, `154-161`): presentation only.
- Event-listener wiring (`script.js:187-196`): each handler is a `Game` method instead.
- Persistence through `localStorage` and JSON (`script.js:32-38`): the table is an in-memory map. A failed or absent load is an absent `stored` value, which yields the empty table. A stored value that parses to something other than an object is not modelled.
- Engine.Game.constructor: the source re-reads storage before each merge (`script.js:144`); the model loads once at page start and keeps the map, so a load failure after start, or writes from elsewhere, are not modelled.
- `Math.random` (`script.js:46`): the secret is a parameter constrained to `[1, max]`, the range `floor(r * max) + 1` covers for `r` in `[0, 1)`.
- `Number(raw)` parsing (`script.js:94`): the guess arrives as `Option<int>`, `None` standing for a non-finite value. The source also accepts a fractional in-range input such as 3.5; it consumes an attempt and can never win. Integer inputs cannot express it.
- Rules.HotLimit: uses the integer ceiling instead of floating-point `Math.ceil(max * 0.02)`. The two agree on the three configured ranges (`Rules.ConfiguredThresholds`), not necessarily on every `max`.
- Rules.WarmLimit: same integer-ceiling substitution for `Math.ceil(max * 0.06)`.
- Scores.PlayerName: takes the already trimmed name; JavaScript's `trim()` is not modelled.
