/**
 * The rules of one round of the number-guessing game, as pure functions over a
 * snapshot of the round record: the difficulty table, the fresh round, the
 * evaluation of one guess (ignore, reject, record, win, lose, hint), the
 * proximity bands, and what replaying any number of guesses preserves.
 */
module Rules {
  import opened Wrappers

  datatype Difficulty = Easy | Medium | Hard

  /** Range upper bound and attempt budget of a difficulty level. */
  datatype Config = Config(max: int, attempts: int)

  function ConfigOf(d: Difficulty): (c: Config)
    ensures c.max >= 1 && c.attempts >= 1
  {
    match d
    case Easy => Config(50, 12)
    case Medium => Config(100, 10)
    case Hard => Config(500, 12)
  }

  /** The round record: what the source keeps in its `state` object. */
  datatype Snapshot = Snapshot(
    difficulty: Difficulty,
    secret: int,
    max: int,
    attemptsLeft: int,
    started: bool,
    finished: bool,
    guesses: seq<int>)

  datatype Direction = Higher | Lower
  datatype Band = Hot | Warm | Cold
  datatype Hint = Hint(dir: Direction, band: Band)

  /** What a guess produces. Continue carries a hint only when hints are on. */
  datatype Outcome = Ignored | Invalid | Won | Lost | Continue(hint: Option<Hint>)

  datatype Step = Step(next: Snapshot, outcome: Outcome)

  /** The status a round is in, derived from its flags and its last guess. */
  datatype Status = NotStarted | InProgress | WonRound | LostRound

  /** A fresh round of difficulty `d`, not yet started, with the secret drawn by the caller. */
  function Initial(d: Difficulty, secret: int): (s: Snapshot)
    requires 1 <= secret <= ConfigOf(d).max
    ensures Valid(s) && StatusOf(s) == NotStarted
    ensures s.difficulty == d && s.secret == secret
    ensures s.max == ConfigOf(d).max && s.attemptsLeft == ConfigOf(d).attempts
    ensures s.guesses == []
  {
    Snapshot(d, secret, ConfigOf(d).max, ConfigOf(d).attempts, false, false, [])
  }

  /** A round takes guesses only once started and until finished. */
  predicate Live(s: Snapshot) {
    s.started && !s.finished
  }

  /** The input parsed to a number within [1, max]. */
  predicate Accepts(s: Snapshot, g: Option<int>) {
    g.Some? && 1 <= g.value <= s.max
  }

  function Last(xs: seq<int>): int
    requires xs != []
  {
    xs[|xs| - 1]
  }

  function StatusOf(s: Snapshot): Status {
    if !s.started then NotStarted
    else if !s.finished then InProgress
    else if s.guesses != [] && Last(s.guesses) == s.secret then WonRound
    else LostRound
  }

  function Distance(a: int, b: int): (d: nat) {
    if a < b then b - a else a - b
  }

  /** Integer ceiling of 2% of max. */
  function HotLimit(max: int): (t: int)
    ensures 100 * (t - 1) < 2 * max <= 100 * t
  {
    (2 * max + 99) / 100
  }

  /** Integer ceiling of 6% of max. */
  function WarmLimit(max: int): (t: int)
    ensures 100 * (t - 1) < 6 * max <= 100 * t
  {
    (6 * max + 99) / 100
  }

  /** The hot limit is tested first: Hot within 2% of the range, Warm within 6%, else Cold. */
  function Proximity(distance: int, max: int): (b: Band)
    ensures b == Hot <==> 100 * (distance - 1) < 2 * max
    ensures b == Warm <==> 2 * max <= 100 * (distance - 1) < 6 * max
    ensures b == Cold <==> 6 * max <= 100 * (distance - 1) && 2 * max <= 100 * (distance - 1)
  {
    if distance <= HotLimit(max) then Hot
    else if distance <= WarmLimit(max) then Warm
    else Cold
  }

  /** Evaluation of one submitted guess against the round. */
  function Evaluate(s: Snapshot, g: Option<int>, hints: bool): (r: Step)
    ensures !Live(s) ==> r == Step(s, Ignored)
    ensures Live(s) && !Accepts(s, g) ==> r == Step(s, Invalid)
    ensures Live(s) && Accepts(s, g) ==>
      r.next == s.(guesses := s.guesses + [g.value],
                   attemptsLeft := s.attemptsLeft - 1,
                   finished := r.outcome == Won || r.outcome == Lost)
    ensures r.outcome == Won <==> Live(s) && Accepts(s, g) && g.value == s.secret
    ensures r.outcome == Lost <==>
      Live(s) && Accepts(s, g) && g.value != s.secret && s.attemptsLeft - 1 <= 0
    ensures r.outcome.Continue? <==>
      Live(s) && Accepts(s, g) && g.value != s.secret && s.attemptsLeft - 1 > 0
    ensures r.outcome.Continue? ==> (r.outcome.hint.Some? <==> hints)
    ensures r.outcome.Continue? && r.outcome.hint.Some? ==>
      && (r.outcome.hint.value.dir == Higher <==> g.value < s.secret)
      && r.outcome.hint.value.band == Proximity(Distance(g.value, s.secret), s.max)
  {
    if !Live(s) then Step(s, Ignored)
    else if !Accepts(s, g) then Step(s, Invalid)
    else
      var v := g.value;
      var t := s.(guesses := s.guesses + [v], attemptsLeft := s.attemptsLeft - 1);
      if v == s.secret then Step(t.(finished := true), Won)
      else if t.attemptsLeft <= 0 then Step(t.(finished := true), Lost)
      else if hints then
        var dir := if v < s.secret then Higher else Lower;
        Step(t, Continue(Some(Hint(dir, Proximity(Distance(v, s.secret), s.max)))))
      else Step(t, Continue(None))
  }

  /**
   * The round invariant while its difficulty is not changed under it: the
   * configuration matches the difficulty, the secret is in range, every
   * accepted guess consumed one attempt, only the last guess may hit the
   * secret, and a finished round either found the secret or ran out.
   */
  ghost predicate Valid(s: Snapshot) {
    && s.max == ConfigOf(s.difficulty).max
    && 1 <= s.secret <= s.max
    && s.attemptsLeft >= 0
    && |s.guesses| + s.attemptsLeft == ConfigOf(s.difficulty).attempts
    && (forall i :: 0 <= i < |s.guesses| ==> 1 <= s.guesses[i] <= s.max)
    && (forall i :: 0 <= i < |s.guesses| - 1 ==> s.guesses[i] != s.secret)
    && (!s.started ==> !s.finished && s.guesses == [])
    && (!s.finished ==> s.secret !in s.guesses && s.attemptsLeft >= 1)
    && (s.finished ==> s.guesses != [] && (Last(s.guesses) == s.secret || s.attemptsLeft == 0))
  }

  /** One guess keeps the invariant. */
  lemma EvaluateKeepsValid(s: Snapshot, g: Option<int>, hints: bool)
    requires Valid(s)
    ensures Valid(Evaluate(s, g, hints).next)
  {
  }

  /** The outcome of any guess matches the status the round reaches. */
  lemma OutcomeMatchesStatus(s: Snapshot, g: Option<int>, hints: bool)
    ensures var r := Evaluate(s, g, hints);
      && (r.outcome == Won ==> StatusOf(r.next) == WonRound)
      && (r.outcome == Lost ==> StatusOf(r.next) == LostRound)
      && (r.outcome != Won && r.outcome != Lost ==> StatusOf(r.next) == StatusOf(s))
  {
  }

  /**
   * The part of the invariant that survives difficulty changes: the attempt
   * count is never negative, and a live round has an attempt left.
   */
  ghost predicate Sound(s: Snapshot) {
    s.attemptsLeft >= 0 && (Live(s) ==> s.attemptsLeft >= 1)
  }

  lemma ValidIsSound(s: Snapshot)
    requires Valid(s)
    ensures Sound(s)
  {
  }

  lemma EvaluateKeepsSound(s: Snapshot, g: Option<int>, hints: bool)
    requires Sound(s)
    ensures Sound(Evaluate(s, g, hints).next)
  {
  }

  /** The next round state does not depend on whether hints are shown. */
  lemma HintsDoNotChangeState(s: Snapshot, g: Option<int>)
    ensures Evaluate(s, g, true).next == Evaluate(s, g, false).next
  {
  }

  /** The round state after a sequence of submitted inputs. */
  function Play(s: Snapshot, inputs: seq<Option<int>>): Snapshot
    decreases |inputs|
  {
    if inputs == [] then s else Play(Evaluate(s, inputs[0], false).next, inputs[1..])
  }

  lemma {:induction false} PlayKeepsValid(s: Snapshot, inputs: seq<Option<int>>)
    requires Valid(s)
    ensures Valid(Play(s, inputs))
    ensures |Play(s, inputs).guesses| <= ConfigOf(s.difficulty).attempts
    decreases |inputs|
  {
    if inputs != [] {
      EvaluateKeepsValid(s, inputs[0], false);
      PlayKeepsValid(Evaluate(s, inputs[0], false).next, inputs[1..]);
    }
  }

  /** Won and lost are terminal, and a round not yet started ignores every input. */
  lemma {:induction false} PlayOnDeadRound(s: Snapshot, inputs: seq<Option<int>>)
    requires !Live(s)
    ensures Play(s, inputs) == s
    decreases |inputs|
  {
    if inputs != [] {
      PlayOnDeadRound(s, inputs[1..]);
    }
  }

  /**
   * The guess log is append-only, each appended guess costs exactly one
   * attempt, the secret, range and difficulty never move, and a round never
   * goes back to not started or unfinished.
   */
  lemma {:induction false} PlayAppendsOnly(s: Snapshot, inputs: seq<Option<int>>)
    ensures var t := Play(s, inputs);
      && s.guesses <= t.guesses
      && |t.guesses| - |s.guesses| == s.attemptsLeft - t.attemptsLeft
      && t.secret == s.secret && t.max == s.max && t.difficulty == s.difficulty
      && t.started == s.started
      && (s.finished ==> t.finished)
    decreases |inputs|
  {
    if inputs != [] {
      var n := Evaluate(s, inputs[0], false).next;
      PlayAppendsOnly(n, inputs[1..]);
    }
  }

  /**
   * A started round is over once as many in-range guesses as it has attempts
   * left are played, also after a difficulty change.
   */
  lemma {:induction false} PlayExhaustsRound(s: Snapshot, inputs: seq<Option<int>>)
    requires Sound(s) && s.started
    requires |inputs| >= s.attemptsLeft
    requires forall i :: 0 <= i < |inputs| ==> Accepts(s, inputs[i])
    ensures Play(s, inputs).finished
    decreases |inputs|
  {
    if s.finished {
      PlayOnDeadRound(s, inputs);
    } else {
      var n := Evaluate(s, inputs[0], false).next;
      EvaluateKeepsSound(s, inputs[0], false);
      assert n.max == s.max;
      if n.finished {
        PlayOnDeadRound(n, inputs[1..]);
      } else {
        assert forall i :: 0 <= i < |inputs[1..]| ==> inputs[1..][i] == inputs[i + 1];
        PlayExhaustsRound(n, inputs[1..]);
      }
    }
  }

  /** The difficulty `change` handler: only range and attempt budget are overwritten. */
  function Reconfigured(s: Snapshot, d: Difficulty): (t: Snapshot)
    ensures t.max == ConfigOf(d).max && t.attemptsLeft == ConfigOf(d).attempts
    ensures t.(max := s.max, attemptsLeft := s.attemptsLeft) == s
  {
    s.(max := ConfigOf(d).max, attemptsLeft := ConfigOf(d).attempts)
  }

  /**
   * Changing from hard to easy in the middle of a round leaves a secret
   * above the new range: the round is no longer Valid and no input can win it.
   */
  lemma ReconfigureCanStrandSecret()
    ensures var s := Initial(Hard, 300).(started := true);
      var t := Reconfigured(s, Easy);
      && Valid(s) && !Valid(t) && Live(t) && t.secret > t.max
      && forall g: Option<int>, h: bool :: Evaluate(t, g, h).outcome != Won
  {
  }

  /** A guess on a round whose secret lies above its range cannot win, and the secret stays out of range. */
  lemma StrandedSecretCannotWin(s: Snapshot, g: Option<int>, hints: bool)
    requires s.secret > s.max
    ensures Evaluate(s, g, hints).outcome != Won
    ensures Evaluate(s, g, hints).next.secret > Evaluate(s, g, hints).next.max
  {
  }

  /** An unfinished round whose secret lies above its range is never won, whatever inputs follow. */
  lemma {:induction false} PlayOnStrandedRound(s: Snapshot, inputs: seq<Option<int>>)
    requires s.secret > s.max && !s.finished
    ensures StatusOf(Play(s, inputs)) != WonRound
    decreases |inputs|
  {
    if inputs != [] {
      var n := Evaluate(s, inputs[0], false).next;
      if n.finished {
        PlayOnDeadRound(n, inputs[1..]);
      } else {
        PlayOnStrandedRound(n, inputs[1..]);
      }
    }
  }

  lemma ReconfiguredKeepsSound(s: Snapshot, d: Difficulty)
    requires Sound(s)
    ensures Sound(Reconfigured(s, d))
  {
  }

  /** A user action on the current round: a submitted input or a difficulty change. */
  datatype Action = Enter(input: Option<int>) | Pick(level: Difficulty)

  /** The round state after a sequence of actions. */
  function Run(s: Snapshot, actions: seq<Action>): Snapshot
    decreases |actions|
  {
    if actions == [] then s
    else
      var n := match actions[0]
        case Enter(g) => Evaluate(s, g, false).next
        case Pick(d) => Reconfigured(s, d);
      Run(n, actions[1..])
  }

  /** Whatever guesses and difficulty changes follow, the attempt count stays non-negative. */
  lemma {:induction false} RunKeepsSound(s: Snapshot, actions: seq<Action>)
    requires Sound(s)
    ensures Sound(Run(s, actions))
    ensures Run(s, actions).attemptsLeft >= 0
    decreases |actions|
  {
    if actions != [] {
      match actions[0]
      case Enter(g) =>
        EvaluateKeepsSound(s, g, false);
        RunKeepsSound(Evaluate(s, g, false).next, actions[1..]);
      case Pick(d) =>
        ReconfiguredKeepsSound(s, d);
        RunKeepsSound(Reconfigured(s, d), actions[1..]);
    }
  }

  /** The thresholds for the three configured ranges. */
  lemma ConfiguredThresholds()
    ensures HotLimit(ConfigOf(Easy).max) == 1 && WarmLimit(ConfigOf(Easy).max) == 3
    ensures HotLimit(ConfigOf(Medium).max) == 2 && WarmLimit(ConfigOf(Medium).max) == 6
    ensures HotLimit(ConfigOf(Hard).max) == 10 && WarmLimit(ConfigOf(Hard).max) == 30
  {
  }
}
