/**
 * The mutable game: the current round record, whose fields the guess,
 * win and lose handlers update in place, and the session around it that
 * starts, replays and resets rounds, follows the difficulty picker and
 * keeps the best-score table.
 */
module Engine {
  import opened Wrappers
  import opened Rules
  import opened Scores

  class Round {
    var difficulty: Difficulty
    var secret: int
    var max: int
    var attemptsLeft: int
    var started: bool
    var finished: bool
    var guesses: seq<int>

    function State(): Snapshot
      reads this
    {
      Snapshot(difficulty, secret, max, attemptsLeft, started, finished, guesses)
    }

    /** A fresh, unstarted round; the secret stands for the random draw in [1, max]. */
    constructor (d: Difficulty, secret: int)
      requires 1 <= secret <= ConfigOf(d).max
      ensures State() == Initial(d, secret)
    {
      var cfg := ConfigOf(d);
      difficulty := d;
      this.secret := secret;
      attemptsLeft := cfg.attempts;
      max := cfg.max;
      started := false;
      finished := false;
      guesses := [];
    }

    /** Submits one parsed input; hints is the state of the hints checkbox. */
    method Guess(g: Option<int>, hints: bool) returns (o: Outcome)
      modifies this
      ensures Step(State(), o) == Evaluate(old(State()), g, hints)
    {
      if !started || finished {
        return Ignored;
      }
      if g.None? || g.value < 1 || g.value > max {
        return Invalid;
      }
      var guess := g.value;
      guesses := guesses + [guess];
      attemptsLeft := attemptsLeft - 1;

      if guess == secret {
        Win();
        return Won;
      }

      if attemptsLeft <= 0 {
        Lose();
        return Lost;
      }

      if hints {
        var dir := if guess < secret then Higher else Lower;
        var distance := Distance(guess, secret);
        o := Continue(Some(Hint(dir, Proximity(distance, max))));
      } else {
        o := Continue(None);
      }
    }

    method Win()
      modifies this
      ensures State() == old(State()).(finished := true)
    {
      finished := true;
    }

    method Lose()
      modifies this
      ensures State() == old(State()).(finished := true)
    {
      finished := true;
    }
  }

  class Game {
    /** The current round. */
    var state: Round
    /** The best-score table, as persisted. */
    var scores: ScoreTable
    /** The value of the difficulty picker. */
    var selected: Difficulty

    function Current(): Snapshot
      reads this, state
    {
      state.State()
    }

    /** Page load: a medium round that is not started, and the stored table or an empty one. */
    constructor (picker: Difficulty, stored: Option<ScoreTable>, secret: int)
      requires 1 <= secret <= ConfigOf(Medium).max
      ensures Current() == Initial(Medium, secret)
      ensures scores == (if stored.Some? then stored.value else map[])
      ensures selected == picker
    {
      state := new Round(Medium, secret);
      scores := if stored.Some? then stored.value else map[];
      selected := picker;
    }

    /** The start button: a started round at the picked difficulty. */
    method StartGame(secret: int)
      requires 1 <= secret <= ConfigOf(selected).max
      modifies this
      ensures fresh(state)
      ensures scores == old(scores) && selected == old(selected)
      ensures Current() == Initial(selected, secret).(started := true)
      ensures StatusOf(Current()) == InProgress
    {
      state := new Round(selected, secret);
      state.started := true;
    }

    /** A guess; a win records the score under the round's own difficulty. */
    method Submit(g: Option<int>, hints: bool, name: string) returns (o: Outcome, changed: bool)
      modifies this, state
      ensures state == old(state) && selected == old(selected)
      ensures Step(Current(), o) == Evaluate(old(Current()), g, hints)
      ensures changed == (o == Won && Beats(old(scores), old(state.difficulty), |Current().guesses|))
      ensures scores == if o == Won
                        then Merge(old(scores), old(state.difficulty), PlayerName(name), |Current().guesses|)
                        else old(scores)
    {
      o := state.Guess(g, hints);
      changed := false;
      if o == Won {
        changed := RecordWin(name);
      }
    }

    /** Records the current round's attempt count if it beats the stored best. */
    method RecordWin(name: string) returns (changed: bool)
      modifies this`scores
      ensures changed == Beats(old(scores), state.difficulty, |state.guesses|)
      ensures scores == Merge(old(scores), state.difficulty, PlayerName(name), |state.guesses|)
    {
      var player := PlayerName(name);
      var used := |state.guesses|;
      var d := state.difficulty;
      if d !in scores || used < scores[d].bestAttempts {
        scores := scores[d := Record(player, used)];
        changed := true;
      } else {
        changed := false;
      }
    }

    /** The new-round button: a started round at the previous round's difficulty. */
    method NewRound(secret: int)
      requires 1 <= secret <= ConfigOf(state.difficulty).max
      modifies this
      ensures fresh(state)
      ensures Current() == Initial(old(state.difficulty), secret).(started := true)
      ensures scores == old(scores) && selected == old(selected)
    {
      var d := state.difficulty;
      state := new Round(d, secret);
      state.started := true;
    }

    /** The reset button: an unstarted round at the picked difficulty. */
    method Reset(secret: int)
      requires 1 <= secret <= ConfigOf(selected).max
      modifies this
      ensures fresh(state)
      ensures scores == old(scores) && selected == old(selected)
      ensures Current() == Initial(selected, secret)
    {
      state := new Round(selected, secret);
      state.started := false;
      state.finished := false;
    }

    /** The picker's change handler: even mid-round, only range and budget are overwritten. */
    method ChangeDifficulty(d: Difficulty)
      modifies this, state
      ensures selected == d && state == old(state) && scores == old(scores)
      ensures Current() == Reconfigured(old(Current()), d)
    {
      selected := d;
      var cfg := ConfigOf(d);
      state.max := cfg.max;
      state.attemptsLeft := cfg.attempts;
    }
  }

  /** An easy round with secret 25: guesses 10, 40, 25 give Higher, Lower, then a win with 9 attempts left. */
  method EasyRoundWalkthrough()
  {
    var game := new Game(Easy, None, 1);
    game.StartGame(25);
    var o1, c1 := game.Submit(Some(10), true, "");
    assert o1.Continue? && o1.hint.value.dir == Higher;
    var o2, c2 := game.Submit(Some(40), true, "");
    assert o2.Continue? && o2.hint.value.dir == Lower;
    var o3, c3 := game.Submit(Some(25), true, "");
    assert o3 == Won && c3;
    assert game.Current().attemptsLeft == 9 && game.Current().guesses == [10, 40, 25];
    assert game.scores[Easy] == Record("Player", 3);
  }
}
