/** The session store (store/useStore.ts): score, fail count and the two
    status flags, with the five game actions as pure transitions from the
    old state to the new one. */
module Session {
  import opened Types

  /** The fail budget of every session. */
  const MAX_FAILS: nat := 5

  /** The store's game fields when the application loads. */
  function Initial(): (s: GameState)
    ensures StatusOf(s) == Idle && Consistent(s)
    ensures s.score == 0 && s.fails == 0 && s.maxFails == MAX_FAILS
  {
    GameState(isPlaying := false, score := 0, fails := 0, maxFails := MAX_FAILS, isGameOver := false)
  }

  /** The three statuses the two flags encode. */
  datatype Status = Idle | Playing | GameOver

  function StatusOf(s: GameState): Status {
    if s.isPlaying then Playing else if s.isGameOver then GameOver else Idle
  }

  /** What every reachable state satisfies: the flags never both hold,
      and a game in play has not used up its fail budget. */
  predicate Consistent(s: GameState) {
    && !(s.isPlaying && s.isGameOver)
    && (s.isPlaying ==> s.fails <= s.maxFails)
  }

  function StartGame(s: GameState): (r: GameState)
    ensures StatusOf(r) == Playing && Consistent(r)
    ensures r.score == 0 && r.fails == 0 && r.maxFails == s.maxFails
  {
    s.(isPlaying := true, isGameOver := false, score := 0, fails := 0)
  }

  function EndGame(s: GameState): (r: GameState)
    ensures StatusOf(r) == GameOver && Consistent(r)
    ensures r.score == s.score && r.fails == s.fails && r.maxFails == s.maxFails
  {
    s.(isPlaying := false, isGameOver := true)
  }

  function ResetGame(s: GameState): (r: GameState)
    ensures StatusOf(r) == Idle && Consistent(r)
    ensures r.score == 0 && r.fails == 0 && r.maxFails == s.maxFails
  {
    s.(isPlaying := false, isGameOver := false, score := 0, fails := 0)
  }

  function IncrementScore(s: GameState, points: int): (r: GameState)
    ensures r.score - s.score == points
    ensures r.(score := s.score) == s
  {
    s.(score := s.score + points)
  }

  function RecordFail(s: GameState): (r: GameState)
    ensures r.fails == s.fails + 1
    ensures r.fails <= s.maxFails ==> r == s.(fails := r.fails)
    ensures r.fails > s.maxFails ==> r.score == s.score && r.maxFails == s.maxFails && StatusOf(r) == GameOver
    ensures Consistent(s) ==> Consistent(r)
  {
    var newFails := s.fails + 1;
    if newFails > s.maxFails then
      s.(fails := newFails, isGameOver := true, isPlaying := false)
    else
      s.(fails := newFails)
  }

  /** The store's game actions, as the components call them. */
  datatype Action = Start | End | Reset | Increment(points: int) | Fail

  function Apply(s: GameState, a: Action): GameState {
    match a
    case Start => StartGame(s)
    case End => EndGame(s)
    case Reset => ResetGame(s)
    case Increment(p) => IncrementScore(s, p)
    case Fail => RecordFail(s)
  }

  /** The state after applying the actions in order. */
  function Run(s: GameState, acts: seq<Action>): GameState
    decreases |acts|
  {
    if acts == [] then s else Run(Apply(s, acts[0]), acts[1..])
  }

  /** `n` copies of one action. */
  function Repeat(a: Action, n: nat): (r: seq<Action>)
    ensures |r| == n
    ensures forall i :: 0 <= i < n ==> r[i] == a
  {
    if n == 0 then [] else [a] + Repeat(a, n - 1)
  }

  /** Unfolds a run that begins with `Start`. */
  lemma RunAfterStart(s: GameState, acts: seq<Action>)
    ensures Run(s, [Start] + acts) == Run(StartGame(s), acts)
  {
    assert ([Start] + acts)[0] == Start && ([Start] + acts)[1..] == acts;
  }

  lemma {:induction false} RunPreservesConsistency(s: GameState, acts: seq<Action>)
    requires Consistent(s)
    ensures Consistent(Run(s, acts))
    decreases |acts|
  {
    if acts != [] {
      RunPreservesConsistency(Apply(s, acts[0]), acts[1..]);
    }
  }

  lemma {:induction false} RunKeepsMaxFails(s: GameState, acts: seq<Action>)
    ensures Run(s, acts).maxFails == s.maxFails
    decreases |acts|
  {
    if acts != [] {
      RunKeepsMaxFails(Apply(s, acts[0]), acts[1..]);
    }
  }

  /** From the initial state no sequence of actions reaches a state that is
      both playing and over, nor changes the fail budget. */
  lemma ReachableStatesConsistent(acts: seq<Action>)
    ensures !(Run(Initial(), acts).isPlaying && Run(Initial(), acts).isGameOver)
    ensures Run(Initial(), acts).maxFails == MAX_FAILS
  {
    RunPreservesConsistency(Initial(), acts);
    RunKeepsMaxFails(Initial(), acts);
  }

  /** A run of `k` fails from a game in play: each fail within the budget
      keeps the game in play, the one that exceeds it ends the game. */
  lemma {:induction false} RunFails(t: GameState, k: nat)
    requires t.isPlaying && !t.isGameOver && t.fails <= t.maxFails
    requires t.fails + k <= t.maxFails + 1
    ensures Run(t, Repeat(Fail, k)).fails == t.fails + k
    ensures Run(t, Repeat(Fail, k)).score == t.score
    ensures t.fails + k <= t.maxFails ==> StatusOf(Run(t, Repeat(Fail, k))) == Playing
    ensures t.fails + k > t.maxFails ==> StatusOf(Run(t, Repeat(Fail, k))) == GameOver
    decreases k
  {
    if k > 0 {
      var acts := Repeat(Fail, k);
      assert acts[0] == Fail && acts[1..] == Repeat(Fail, k - 1);
      var t' := RecordFail(t);
      assert Run(t, acts) == Run(t', Repeat(Fail, k - 1));
      if t.fails + 1 <= t.maxFails {
        RunFails(t', k - 1);
      } else {
        assert k == 1 && Run(t', Repeat(Fail, 0)) == t';
      }
    }
  }

  /** Starting a game and failing `maxFails` times leaves it in play; one
      more fail ends it with `maxFails + 1` fails. With the initial budget
      of 5: five fails play on, the sixth is game over with 6 fails. */
  lemma StartThenFails(s: GameState)
    ensures var t := Run(s, [Start] + Repeat(Fail, s.maxFails));
      StatusOf(t) == Playing && t.fails == s.maxFails
    ensures var t := Run(s, [Start] + Repeat(Fail, s.maxFails + 1));
      StatusOf(t) == GameOver && t.fails == s.maxFails + 1
  {
    RunAfterStart(s, Repeat(Fail, s.maxFails));
    RunAfterStart(s, Repeat(Fail, s.maxFails + 1));
    RunFails(StartGame(s), s.maxFails);
    RunFails(StartGame(s), s.maxFails + 1);
  }

  lemma InitialSessionFailLimit()
    ensures var t := Run(Initial(), [Start] + Repeat(Fail, 5));
      StatusOf(t) == Playing && t.fails == 5
    ensures var t := Run(Initial(), [Start] + Repeat(Fail, 6));
      StatusOf(t) == GameOver && t.fails == 6
  {
    StartThenFails(Initial());
  }

  /** `n` collects of `p` points each add exactly `n * p` to the score and
      change nothing else. */
  lemma {:induction false} RunIncrements(t: GameState, p: int, n: nat)
    ensures Run(t, Repeat(Increment(p), n)) == t.(score := t.score + n * p)
    decreases n
  {
    if n > 0 {
      var acts := Repeat(Increment(p), n);
      assert acts[0] == Increment(p) && acts[1..] == Repeat(Increment(p), n - 1);
      RunIncrements(IncrementScore(t, p), p, n - 1);
    }
  }

  /** From a fresh start, `n` collects of 10 points give a score of `10 * n`. */
  lemma StartThenCollects(s: GameState, n: nat)
    ensures Run(s, [Start] + Repeat(Increment(10), n)).score == 10 * n
    ensures StatusOf(Run(s, [Start] + Repeat(Increment(10), n))) == Playing
  {
    RunAfterStart(s, Repeat(Increment(10), n));
    RunIncrements(StartGame(s), 10, n);
  }

  /** Without a `Start`, a game that is not in play never comes back into
      play: "Try Again" (a reset) leaves the game idle until the next start. */
  lemma {:induction false} NotPlayingUntilStart(s: GameState, acts: seq<Action>)
    requires !s.isPlaying
    requires forall i :: 0 <= i < |acts| ==> acts[i] != Start
    ensures !Run(s, acts).isPlaying
    decreases |acts|
  {
    if acts != [] {
      NotPlayingUntilStart(Apply(s, acts[0]), acts[1..]);
    }
  }

  /** Game over is one-way: only `Start` or `Reset` leave it. */
  lemma {:induction false} GameOverUntilStartOrReset(s: GameState, acts: seq<Action>)
    requires StatusOf(s) == GameOver
    requires forall i :: 0 <= i < |acts| ==> acts[i] != Start && acts[i] != Reset
    ensures StatusOf(Run(s, acts)) == GameOver
    decreases |acts|
  {
    if acts != [] {
      GameOverUntilStartOrReset(Apply(s, acts[0]), acts[1..]);
    }
  }
}
